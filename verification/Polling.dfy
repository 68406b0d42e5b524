/** Channels and the epoll poller: which events the kernel watches, and what each channel thinks it does. */
module Polling {
  type Mask = bv32

  const NONE_EVENT: Mask := 0
  const EPOLLIN: Mask := 0x001
  const EPOLLPRI: Mask := 0x002
  const EPOLLOUT: Mask := 0x004
  const READ_EVENT: Mask := EPOLLIN | EPOLLPRI
  const WRITE_EVENT: Mask := EPOLLOUT

  datatype Index = New | Added | Deleted

  /** A registered channel without events leaves the interest set; any other channel is in it afterwards. */
  function IndexAfter(was: Index, events: Mask): Index {
    if was == Added && events == NONE_EVENT then Deleted else Added
  }

  function InterestAfter(interest: map<int, Mask>, fd: int, index: Index, events: Mask): map<int, Mask> {
    if index == Added then interest[fd := events] else interest - {fd}
  }

  /** What the owner of a channel may ask for, and when a channel comes into use or goes out of it. */
  datatype Request = Adopt | Release | EnableRead | DisableRead | EnableWrite | DisableWrite | DisableEvents | Remove

  datatype CtlOp = CtlAdd | CtlMod | CtlDel

  /** The kernel's interest set. Each operation states what the kernel demands of it, so a call that
      would fail with EEXIST or ENOENT cannot be written down. */
  class Kernel {
    var interest: map<int, Mask>

    constructor ()
      ensures interest == map[]
    {
      interest := map[];
    }

    method EpollCtl(op: CtlOp, fd: int, events: Mask)
      requires op.CtlAdd? <==> fd !in interest
      modifies this
      ensures interest == (if op.CtlDel? then old(interest) - {fd} else old(interest)[fd := events])
    {
      if op.CtlDel? {
        interest := interest - {fd};
      } else {
        interest := interest[fd := events];
      }
    }
  }

  class Channel {
    const fd: int
    var events: Mask
    var index: Index

    constructor (fd: int)
      ensures this.fd == fd && events == NONE_EVENT && index == New
    {
      this.fd := fd;
      events, index := NONE_EVENT, New;
    }

    predicate IsNoneEvent()
      reads this
    {
      events == NONE_EVENT
    }

    predicate IsWriting()
      reads this
    {
      events & EPOLLOUT != 0
    }

    /** It watches for ordinary and for urgent data. */
    predicate IsReading()
      reads this
    {
      events & EPOLLIN != 0 && events & EPOLLPRI != 0
    }
  }

  class EPollPoller {
    const kernel: Kernel
    var channels: map<int, Channel>
    /** Every channel of this loop, registered or not: the ones whose calls this poller serves. */
    var clients: set<Channel>

    /** The interest set and the indexes tell the same story, except for the mask of `pending`, whose
        events changed and were not passed on yet. */
    ghost predicate AgreesExcept(pending: Channel?)
      reads this, kernel, clients
    {
      && (forall c, d :: c in clients && d in clients && c.fd == d.fd ==> c == d)
      && (forall c :: c in clients ==> (c.fd in kernel.interest <==> c.index == Added))
      && (forall c :: c in clients && c != pending && c.index == Added ==> kernel.interest[c.fd] == c.events)
      && (forall c :: c in clients ==> (c.fd in channels <==> c.index != New))
      && (forall c :: c in clients && c.index != New ==> channels[c.fd] == c)
      && (forall fd :: fd in kernel.interest ==> exists c :: c in clients && c.fd == fd)
      && (forall fd :: fd in channels ==> channels[fd] in clients && channels[fd].fd == fd)
    }

    ghost predicate Valid()
      reads this, kernel, clients
    {
      AgreesExcept(null)
    }

    constructor ()
      ensures Valid() && fresh(kernel) && clients == {} && kernel.interest == map[] && channels == map[]
    {
      kernel := new Kernel();
      channels, clients := map[], {};
    }

    /** A channel starts to use the loop; its descriptor is open and no other channel has it. */
    method Adopt(c: Channel)
      requires Valid() && c !in clients && c.index == New
      requires forall d :: d in clients ==> d.fd != c.fd
      modifies this`clients
      ensures Valid() && clients == old(clients) + {c}
    {
      clients := clients + {c};
      assert forall fd :: fd in kernel.interest ==> exists d :: d in old(clients) && d.fd == fd;
    }

    /** A channel that was removed is destroyed and its descriptor closed; the number may come back. */
    method Release(c: Channel)
      requires Valid() && c in clients && c.index == New
      modifies this`clients
      ensures Valid() && clients == old(clients) - {c}
      ensures c.fd !in kernel.interest && c.fd !in channels
    {
      clients := clients - {c};
      forall fd | fd in kernel.interest ensures exists d :: d in clients && d.fd == fd {
        var d :| d in old(clients) && d.fd == fd;
        assert d in clients;
      }
    }

    method UpdateChannel(c: Channel)
      requires c in clients && AgreesExcept(c)
      modifies this`channels, kernel, c`index
      ensures Valid()
      ensures c.index == IndexAfter(old(c.index), c.events)
      ensures kernel.interest == InterestAfter(old(kernel.interest), c.fd, c.index, c.events)
      ensures channels == old(channels)[c.fd := c]
    {
      if c.index == New || c.index == Deleted {
        if c.index == New {
          channels := channels[c.fd := c];
        }
        c.index := Added;
        kernel.EpollCtl(CtlAdd, c.fd, c.events);
      } else {
        if c.IsNoneEvent() {
          kernel.EpollCtl(CtlDel, c.fd, c.events);
          c.index := Deleted;
        } else {
          kernel.EpollCtl(CtlMod, c.fd, c.events);
        }
      }
    }

    method RemoveChannel(c: Channel)
      requires Valid() && c in clients
      modifies this`channels, kernel, c`index
      ensures Valid() && c.index == New
      ensures kernel.interest == old(kernel.interest) - {c.fd}
      ensures channels == old(channels) - {c.fd}
    {
      if c.index == Added {
        kernel.EpollCtl(CtlDel, c.fd, c.events);
      }
      channels := channels - {c.fd};
      c.index := New;
    }

    method EnableReading(c: Channel)
      requires Valid() && c in clients
      modifies this`channels, kernel, c`index, c`events
      ensures Valid() && c.events == old(c.events) | READ_EVENT
      ensures c.IsReading() && c.IsWriting() == old(c.IsWriting())
      ensures c.index == Added && kernel.interest == old(kernel.interest)[c.fd := c.events]
      ensures channels == old(channels)[c.fd := c]
    {
      c.events := c.events | READ_EVENT;
      assert c.events != NONE_EVENT by { BitStays(old(c.events), READ_EVENT); }
      UpdateChannel(c);
    }

    method EnableWriting(c: Channel)
      requires Valid() && c in clients
      modifies this`channels, kernel, c`index, c`events
      ensures Valid() && c.events == old(c.events) | WRITE_EVENT
      ensures c.IsWriting() && c.IsReading() == old(c.IsReading())
      ensures c.index == Added && kernel.interest == old(kernel.interest)[c.fd := c.events]
      ensures channels == old(channels)[c.fd := c]
    {
      c.events := c.events | WRITE_EVENT;
      assert c.events != NONE_EVENT && c.IsWriting() by { BitStays(old(c.events), WRITE_EVENT); }
      UpdateChannel(c);
    }

    method DisableReading(c: Channel)
      requires Valid() && c in clients
      modifies this`channels, kernel, c`index, c`events
      ensures Valid() && c.events == old(c.events) & !READ_EVENT
      ensures c.events & EPOLLIN == 0 && c.events & EPOLLPRI == 0 && c.IsWriting() == old(c.IsWriting())
      ensures c.index == IndexAfter(old(c.index), c.events)
      ensures kernel.interest == InterestAfter(old(kernel.interest), c.fd, c.index, c.events)
      ensures channels == old(channels)[c.fd := c]
    {
      c.events := c.events & !READ_EVENT;
      UpdateChannel(c);
    }

    method DisableWriting(c: Channel)
      requires Valid() && c in clients
      modifies this`channels, kernel, c`index, c`events
      ensures Valid() && c.events == old(c.events) & !WRITE_EVENT
      ensures !c.IsWriting() && c.IsReading() == old(c.IsReading())
      ensures c.index == IndexAfter(old(c.index), c.events)
      ensures kernel.interest == InterestAfter(old(kernel.interest), c.fd, c.index, c.events)
      ensures channels == old(channels)[c.fd := c]
    {
      c.events := c.events & !WRITE_EVENT;
      assert !c.IsWriting() by { BitGoes(old(c.events), WRITE_EVENT); }
      UpdateChannel(c);
    }

    /** On a channel that is not registered this registers it, with no events. */
    method DisableAll(c: Channel)
      requires Valid() && c in clients
      modifies this`channels, kernel, c`index, c`events
      ensures Valid() && c.events == NONE_EVENT
      ensures c.index == (if old(c.index) == Added then Deleted else Added)
      ensures kernel.interest == InterestAfter(old(kernel.interest), c.fd, c.index, NONE_EVENT)
      ensures channels == old(channels)[c.fd := c]
    {
      c.events := NONE_EVENT;
      UpdateChannel(c);
    }
  }

  /** A channel is adopted while no other in use has its descriptor, and released once it was removed;
      anything else is asked by the owner of a channel in use. */
  predicate Permitted(poller: EPollPoller, c: Channel, request: Request)
    reads poller, c
  {
    match request
    case Adopt => c !in poller.clients && c.index == New && forall d :: d in poller.clients ==> d.fd != c.fd
    case Release => c in poller.clients && c.index == New
    case _ => c in poller.clients
  }

  /** One request, if it can be made now. */
  method RunRequest(poller: EPollPoller, c: Channel, request: Request)
    requires poller.Valid() && Permitted(poller, c, request)
    modifies poller`channels, poller`clients, poller.kernel, c
    ensures poller.Valid()
    ensures poller.clients == (if request.Adopt? then old(poller.clients) + {c}
                               else if request.Release? then old(poller.clients) - {c} else old(poller.clients))
  {
    match request {
      case Adopt => poller.Adopt(c);
      case Release => poller.Release(c);
      case EnableRead => poller.EnableReading(c);
      case DisableRead => poller.DisableReading(c);
      case EnableWrite => poller.EnableWriting(c);
      case DisableWrite => poller.DisableWriting(c);
      case DisableEvents => poller.DisableAll(c);
      case Remove => poller.RemoveChannel(c);
    }
  }

  /** Any run of requests, with channels that come and go and descriptors that are used again; a request
      that cannot be made when its turn comes is passed over. The kernel refuses an ADD of a descriptor
      it has and a MOD or DEL of one it has not, so that the run is possible at all says that no such
      call is made. */
  method RunRequests(poller: EPollPoller, requests: seq<(Channel, Request)>)
    requires poller.Valid()
    modifies poller`channels, poller`clients, poller.kernel, set i | 0 <= i < |requests| :: requests[i].0
    ensures poller.Valid()
    ensures forall c :: c in poller.clients ==>
              && (c.fd in poller.kernel.interest <==> c.index == Added)
              && (c.index == Added ==> poller.kernel.interest[c.fd] == c.events)
              && (c.fd in poller.channels && poller.channels[c.fd] == c <==> c.index != New)
  {
    for i := 0 to |requests|
      invariant poller.Valid()
    {
      var c, request := requests[i].0, requests[i].1;
      if Permitted(poller, c, request) {
        RunRequest(poller, c, request);
      }
    }
  }

  lemma BitStays(events: Mask, bit: Mask)
    requires bit == READ_EVENT || bit == WRITE_EVENT
    ensures events | bit != NONE_EVENT
    ensures bit == WRITE_EVENT ==> (events | bit) & EPOLLOUT != 0
  {
  }

  lemma BitGoes(events: Mask, bit: Mask)
    requires bit == WRITE_EVENT
    ensures (events & !bit) & EPOLLOUT == 0
  {
  }
}
