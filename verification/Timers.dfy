/** The timer queue: an ordered set of expirations, one timerfd, and timers owned by raw pointer. */
module Timers {
  import opened Wrappers

  type Addr = nat

  /** No timer lives at the sentry's address. */
  const SENTRY_ADDR: nat := 0xFFFF_FFFF_FFFF_FFFF

  datatype Timer = Timer(expiration: int, interval: nat, repeat: bool)

  datatype Entry = Entry(when: int, timer: Addr)

  /** The order of std::set on pairs: by time, then by address. */
  predicate Before(a: Entry, b: Entry) {
    a.when < b.when || (a.when == b.when && a.timer < b.timer)
  }

  ghost predicate Ordered(ts: seq<Entry>) {
    forall i, j :: 0 <= i < j < |ts| ==> Before(ts[i], ts[j])
  }

  /** std::set::lower_bound: how many entries come before e. */
  function LowerBound(ts: seq<Entry>, e: Entry): (k: nat)
    ensures k <= |ts|
  {
    if ts == [] || !Before(ts[0], e) then 0 else 1 + LowerBound(ts[1..], e)
  }

  lemma {:induction false} LowerBoundSplits(ts: seq<Entry>, e: Entry)
    requires Ordered(ts)
    ensures forall i :: 0 <= i < LowerBound(ts, e) ==> Before(ts[i], e)
    ensures forall i :: LowerBound(ts, e) <= i < |ts| ==> !Before(ts[i], e)
    decreases |ts|
  {
    if ts == [] || !Before(ts[0], e) {
    } else {
      LowerBoundSplits(ts[1..], e);
      assert forall i :: 1 <= i < |ts| ==> ts[i] == ts[1..][i - 1];
    }
  }

  /** std::set::insert. */
  function Inserted(ts: seq<Entry>, e: Entry): seq<Entry> {
    var k := LowerBound(ts, e);
    if k < |ts| && ts[k] == e then ts else ts[..k] + [e] + ts[k..]
  }

  /** The timerfd: the time it was last set for, whether it still counts down, and whether it has
      fired and not been read. */
  datatype Alarm = Alarm(target: Option<int>, armed: bool, fired: bool)

  /** timerfd_settime: counts down anew, and drops an unread expiry. */
  function SetFor(when: int): Alarm { Alarm(Some(when), true, false) }

  /** What a timer callback does while it runs: the loop thread adds and cancels at once; another
      thread may meanwhile allocate a timer and queue its addition. The allocator hands out addresses
      that were never used; a step with any other address does not happen. */
  datatype Action =
    | Add(addr: Addr, when: int, interval: nat, repeat: bool)
    | Cancel(addr: Addr)
    | AddElsewhere(addr: Addr, when: int, interval: nat, repeat: bool)

  type Script = seq<Action>

  datatype Queue = Queue(
    timers: seq<Entry>,
    memory: map<Addr, Timer>,     // the Timer objects that exist
    waiting: seq<Addr>,           // allocated, their addTimerInLoop still queued
    batch: seq<Entry>,            // expired, in flight in handleRead
    deleted: seq<Addr>,
    ran: seq<Entry>,              // callbacks run so far
    alarm: Alarm)

  const NEW_QUEUE := Queue([], map[], [], [], [], [], Alarm(None, false, false))

  predicate Unused(q: Queue, a: Addr) {
    a !in q.memory && a !in q.deleted && a < SENTRY_ADDR
  }

  /** new Timer, and a queued functor that holds it. */
  function Allocated(q: Queue, a: Addr, t: Timer): Queue {
    if Unused(q, a) then q.(memory := q.memory[a := t], waiting := q.waiting + [a]) else q
  }

  predicate EarliestChanged(ts: seq<Entry>, when: int) {
    ts == [] || when < ts[0].when
  }

  /** addTimerInLoop of the i-th waiting timer. */
  function AddedInLoop(q: Queue, i: nat): Queue
    requires i < |q.waiting| && q.waiting[i] in q.memory
  {
    var a := q.waiting[i];
    var when := q.memory[a].expiration;
    q.(timers := Inserted(q.timers, Entry(when, a)),
       waiting := q.waiting[..i] + q.waiting[i + 1..],
       alarm := if EarliestChanged(q.timers, when) then SetFor(when) else q.alarm)
  }

  /** The position of the entry for an address, or |ts|. */
  function IndexOf(ts: seq<Entry>, a: Addr): (k: nat)
    ensures k <= |ts|
    ensures k < |ts| ==> ts[k].timer == a
  {
    if ts == [] || ts[0].timer == a then 0 else 1 + IndexOf(ts[1..], a)
  }

  function CancelledInLoop(q: Queue, a: Addr): Queue {
    var k := IndexOf(q.timers, a);
    if k == |q.timers| then q else
    var ts := q.timers[..k] + q.timers[k + 1..];
    q.(timers := ts, memory := q.memory - {a}, deleted := q.deleted + [a],
       alarm := if ts != [] then SetFor(ts[0].when) else q.alarm)
  }

  function Acted(q: Queue, act: Action): Queue {
    match act
    case Add(a, when, interval, repeat) =>
      if !Unused(q, a) then q
      else AddedInLoop(Allocated(q, a, Timer(when, interval, repeat)), |q.waiting|)
    case Cancel(a) => CancelledInLoop(q, a)
    case AddElsewhere(a, when, interval, repeat) => Allocated(q, a, Timer(when, interval, repeat))
  }

  function ActedAll(q: Queue, acts: Script): Queue
    decreases |acts|
  {
    if acts == [] then q else ActedAll(Acted(q, acts[0]), acts[1..])
  }

  /** getExpired: everything before the sentry leaves the set. */
  function Expire(q: Queue, now: int): Queue {
    var k := LowerBound(q.timers, Entry(now, SENTRY_ADDR));
    q.(batch := q.timers[..k], timers := q.timers[k..])
  }

  /** The callbacks of the expired entries, one after the other. */
  function RanAll(q: Queue, expired: seq<Entry>, scripts: seq<Script>): Queue
    decreases |expired|
  {
    if expired == [] then q else
    var q1 := ActedAll(q.(ran := q.ran + [expired[0]]), if scripts == [] then [] else scripts[0]);
    RanAll(q1, expired[1..], if scripts == [] then [] else scripts[1..])
  }

  /** One turn of reset: a repeating timer is restarted and inserted again, a one-shot deleted. */
  function ResetOne(q: Queue, now: int): Queue
    requires q.batch != [] && q.batch[0].timer in q.memory
  {
    var a := q.batch[0].timer;
    var t := q.memory[a];
    if t.repeat then
      q.(batch := q.batch[1..], memory := q.memory[a := t.(expiration := now + t.interval)],
         timers := Inserted(q.timers, Entry(now + t.interval, a)))
    else
      q.(batch := q.batch[1..], memory := q.memory - {a}, deleted := q.deleted + [a])
  }

  ghost predicate BatchLives(q: Queue) {
    && (forall i :: 0 <= i < |q.batch| ==> q.batch[i].timer in q.memory)
    && (forall i, j :: 0 <= i < j < |q.batch| ==> q.batch[i].timer != q.batch[j].timer)
  }

  function ResetAll(q: Queue, now: int): (r: Queue)
    requires BatchLives(q)
    ensures r.batch == []
    decreases |q.batch|
  {
    if q.batch == [] then q else ResetAll(ResetOne(q, now), now)
  }

  /** reset, and the alarm for what is then the earliest. */
  function Rearmed(q: Queue): Queue {
    if q.timers != [] then q.(alarm := SetFor(q.timers[0].when)) else q
  }

  /** handleRead up to the end of the callbacks. */
  function Called(q: Queue, now: int, scripts: seq<Script>): Queue {
    var q1 := Expire(q.(alarm := q.alarm.(fired := false)), now);
    RanAll(q1, q1.batch, scripts)
  }

  function ReadHandled(q: Queue, now: int, scripts: seq<Script>): Queue
    requires BatchLives(Called(q, now, scripts))
  {
    Rearmed(ResetAll(Called(q, now, scripts), now))
  }

  class TimerQueue {
    var timers: seq<Entry>
    var memory: map<Addr, Timer>
    var waiting: seq<Addr>
    var alarm: Alarm
    var deleted: seq<Addr>            // freed addresses: what the allocator will not hand out again
    ghost var batch: seq<Entry>
    ghost var ran: seq<Entry>

    ghost function View(): Queue
      reads this
    {
      Queue(timers, memory, waiting, batch, deleted, ran, alarm)
    }

    constructor ()
      ensures View() == NEW_QUEUE
    {
      timers, memory, waiting, alarm := [], map[], [], Alarm(None, false, false);
      batch, deleted, ran := [], [], [];
    }

    method ResetTimerfd(when: int)
      modifies this`alarm
      ensures alarm == SetFor(when)
    {
      alarm := Alarm(Some(when), true, false);
    }

    /** addTimer up to the queued functor; the allocator's address is new. */
    method AddTimer(addr: Addr, when: int, interval: nat, repeat: bool)
      requires Unused(View(), addr)
      modifies this`memory, this`waiting
      ensures View() == Allocated(old(View()), addr, Timer(when, interval, repeat))
      ensures memory == old(memory)[addr := Timer(when, interval, repeat)] && waiting == old(waiting) + [addr]
    {
      memory := memory[addr := Timer(when, interval, repeat)];
      waiting := waiting + [addr];
    }

    method Insert(addr: Addr) returns (earliestChanged: bool)
      requires addr in memory
      modifies this`timers
      ensures earliestChanged == EarliestChanged(old(timers), memory[addr].expiration)
      ensures timers == Inserted(old(timers), Entry(memory[addr].expiration, addr))
    {
      earliestChanged := false;
      var when := memory[addr].expiration;
      if timers == [] || when < timers[0].when {
        earliestChanged := true;
      }
      timers := Inserted(timers, Entry(when, addr));
    }

    method AddTimerInLoop(i: nat)
      requires i < |waiting| && waiting[i] in memory
      modifies this`timers, this`waiting, this`alarm
      ensures View() == AddedInLoop(old(View()), i)
    {
      var addr := waiting[i];
      waiting := waiting[..i] + waiting[i + 1..];
      var earliestChanged := Insert(addr);
      if earliestChanged {
        ResetTimerfd(memory[addr].expiration);
      }
    }

    /** Scans the set for the pointer; erases, deletes and re-arms at the first hit. */
    method CancelInLoop(addr: Addr)
      modifies this`timers, this`memory, this`alarm, this`deleted
      ensures View() == CancelledInLoop(old(View()), addr)
    {
      for i := 0 to |timers|
        invariant View() == old(View())
        invariant IndexOf(timers, addr) == i + IndexOf(timers[i..], addr)
      {
        if timers[i].timer == addr {
          timers := timers[..i] + timers[i + 1..];
          memory := memory - {addr};
          deleted := deleted + [addr];
          if timers != [] {
            ResetTimerfd(timers[0].when);
          }
          return;
        }
        assert timers[i..][1..] == timers[i + 1..];
      }
    }

    method GetExpired(now: int) returns (expired: seq<Entry>)
      requires batch == []
      modifies this`timers, this`batch
      ensures View() == Expire(old(View()), now) && expired == batch
    {
      var end := LowerBound(timers, Entry(now, SENTRY_ADDR));
      expired := timers[..end];
      timers := timers[end..];
      batch := expired;
    }

    /** One timer callback. */
    method RunCallback(acts: Script)
      modifies this
      ensures View() == ActedAll(old(View()), acts)
    {
      ghost var start := View();
      for i := 0 to |acts|
        invariant ActedAll(View(), acts[i..]) == ActedAll(start, acts)
      {
        assert acts[i..][0] == acts[i] && acts[i..][1..] == acts[i + 1..];
        match acts[i] {
          case Add(addr, when, interval, repeat) =>
            if Usable(addr) {
              AddTimer(addr, when, interval, repeat);
              AddTimerInLoop(|waiting| - 1);
            }
          case Cancel(addr) => CancelInLoop(addr);
          case AddElsewhere(addr, when, interval, repeat) =>
            if Usable(addr) {
              AddTimer(addr, when, interval, repeat);
            }
        }
      }
    }

    predicate Usable(addr: Addr)
      reads this
      ensures Usable(addr) == Unused(View(), addr)
    {
      addr !in memory && addr !in deleted && addr < SENTRY_ADDR
    }

    method HandleRead(now: int, scripts: seq<Script>)
      requires Owned(View()) && batch == []
      modifies this
      ensures BatchLives(Called(old(View()), now, scripts))
      ensures View() == ReadHandled(old(View()), now, scripts)
    {
      ghost var start := View();
      ReadKeepsOwned(start, now, scripts);
      alarm := alarm.(fired := false);
      var expired := GetExpired(now);
      ghost var q1 := View();
      for i := 0 to |expired|
        invariant RanAll(View(), expired[i..], Later(scripts, i)) == Called(start, now, scripts)
      {
        assert expired[i..][0] == expired[i] && expired[i..][1..] == expired[i + 1..];
        ran := ran + [expired[i]];
        RunCallback(if i < |scripts| then scripts[i] else []);
      }
      CallsInARead(start, now, scripts);
      Reset(expired, now);
    }

    method Reset(expired: seq<Entry>, now: int)
      requires Owned(View()) && batch == expired
      modifies this
      ensures BatchLives(old(View()))
      ensures View() == Rearmed(ResetAll(old(View()), now))
    {
      ghost var start := View();
      OwnedBatchLives(start);
      for i := 0 to |expired|
        invariant batch == expired[i..]
        invariant Owned(View()) && BatchLives(View())
        invariant ResetAll(View(), now) == ResetAll(start, now)
      {
        ResetOneKeepsOwned(View(), now);
        ResetTimer(expired[i], now);
        OwnedBatchLives(View());
      }
      if timers != [] {
        ResetTimerfd(timers[0].when);
      }
    }

    /** One turn of reset's loop. */
    method ResetTimer(entry: Entry, now: int)
      requires batch != [] && entry == batch[0] && entry.timer in memory
      modifies this
      ensures View() == ResetOne(old(View()), now)
    {
      var addr := entry.timer;
      if memory[addr].repeat {
        memory := memory[addr := memory[addr].(expiration := now + memory[addr].interval)];
        var _ := Insert(addr);
      } else {
        memory := memory - {addr};
        deleted := deleted + [addr];
      }
      batch := batch[1..];
    }
  }

  /** The scripts of the callbacks from the i-th on. */
  function Later(scripts: seq<Script>, i: nat): seq<Script> {
    if i <= |scripts| then scripts[i..] else []
  }

  // ---------------------------------------------------------------------------
  // Ownership

  /** How often a sequence of addresses, or of entries, names an address. */
  function Count(s: seq<Addr>, a: Addr): nat {
    if s == [] then 0 else (if s[0] == a then 1 else 0) + Count(s[1..], a)
  }

  function Times(ts: seq<Entry>, a: Addr): nat {
    if ts == [] then 0 else (if ts[0].timer == a then 1 else 0) + Times(ts[1..], a)
  }

  /** The number of places that hold a timer. */
  function Held(q: Queue, a: Addr): nat {
    Count(q.waiting, a) + Times(q.timers, a) + Times(q.batch, a)
  }

  /** Every timer that exists is held in exactly one place, once; a deleted one is held in none and
      was deleted once. */
  ghost predicate Counted(q: Queue) {
    && (forall a :: Held(q, a) == (if a in q.memory then 1 else 0))
    && (forall a :: Count(q.deleted, a) <= 1)
    && (forall a :: a in q.memory ==> Count(q.deleted, a) == 0 && a < SENTRY_ADDR)
  }

  /** A timer in the set is keyed by its own expiration. */
  ghost predicate Keyed(ts: seq<Entry>, memory: map<Addr, Timer>) {
    forall e :: e in ts ==> e.timer in memory && memory[e.timer].expiration == e.when
  }

  ghost predicate Owned(q: Queue) {
    Counted(q) && Keyed(q.timers, q.memory) && Ordered(q.timers)
  }

  lemma {:induction false} TimesJoin(s: seq<Entry>, t: seq<Entry>, a: Addr)
    ensures Times(s + t, a) == Times(s, a) + Times(t, a)
    decreases |s|
  {
    if s == [] {
      assert s + t == t;
    } else {
      assert (s + t)[1..] == s[1..] + t;
      TimesJoin(s[1..], t, a);
    }
  }

  lemma {:induction false} CountJoin(s: seq<Addr>, t: seq<Addr>, a: Addr)
    ensures Count(s + t, a) == Count(s, a) + Count(t, a)
    decreases |s|
  {
    if s == [] {
      assert s + t == t;
    } else {
      assert (s + t)[1..] == s[1..] + t;
      CountJoin(s[1..], t, a);
    }
  }

  lemma TimesSplit(ts: seq<Entry>, k: nat, a: Addr)
    requires k <= |ts|
    ensures Times(ts, a) == Times(ts[..k], a) + Times(ts[k..], a)
  {
    assert ts == ts[..k] + ts[k..];
    TimesJoin(ts[..k], ts[k..], a);
  }

  lemma TimesWithout(ts: seq<Entry>, k: nat, a: Addr)
    requires k < |ts|
    ensures Times(ts, a) == Times(ts[..k] + ts[k + 1..], a) + (if ts[k].timer == a then 1 else 0)
  {
    TimesSplit(ts, k, a);
    assert ts[k..][1..] == ts[k + 1..];
    TimesJoin(ts[..k], ts[k + 1..], a);
  }

  lemma CountWithout(s: seq<Addr>, i: nat, a: Addr)
    requires i < |s|
    ensures Count(s, a) == Count(s[..i] + s[i + 1..], a) + (if s[i] == a then 1 else 0)
  {
    assert s == s[..i] + s[i..];
    CountJoin(s[..i], s[i..], a);
    assert s[i..][1..] == s[i + 1..];
    CountJoin(s[..i], s[i + 1..], a);
  }

  lemma CountWith(s: seq<Addr>, b: Addr, a: Addr)
    ensures Count(s + [b], a) == Count(s, a) + (if b == a then 1 else 0)
  {
    CountJoin(s, [b], a);
  }

  /** An entry that is there is counted; one that is not counted is not there. */
  lemma {:induction false} CountedEntries(ts: seq<Entry>, a: Addr)
    ensures Times(ts, a) == 0 <==> forall e :: e in ts ==> e.timer != a
    decreases |ts|
  {
    if ts == [] {
    } else {
      assert ts == [ts[0]] + ts[1..];
      CountedEntries(ts[1..], a);
    }
  }

  lemma {:induction false} CountedAddrs(s: seq<Addr>, a: Addr)
    ensures Count(s, a) == 0 <==> a !in s
    decreases |s|
  {
    if s == [] {
    } else {
      assert s == [s[0]] + s[1..];
      CountedAddrs(s[1..], a);
    }
  }

  lemma InsertionTimes(ts: seq<Entry>, e: Entry, a: Addr)
    requires e !in ts
    ensures Times(Inserted(ts, e), a) == Times(ts, a) + (if e.timer == a then 1 else 0)
  {
    var k := LowerBound(ts, e);
    TimesSplit(ts, k, a);
    TimesJoin(ts[..k] + [e], ts[k..], a);
    TimesJoin(ts[..k], [e], a);
  }

  lemma InsertionKeepsOrder(ts: seq<Entry>, e: Entry)
    requires Ordered(ts)
    ensures Ordered(Inserted(ts, e))
  {
    var k := LowerBound(ts, e);
    LowerBoundSplits(ts, e);
    var r := ts[..k] + [e] + ts[k..];
    assert forall i :: 0 <= i < k ==> r[i] == ts[i];
    assert forall i :: k < i < |r| ==> r[i] == ts[i - 1];
    assert r[k] == e;
    if !(k < |ts| && ts[k] == e) {
      assert forall i :: k <= i < |ts| ==> Before(ts[k], ts[i]) || i == k;
    }
  }

  /** Insertion adds that entry and no other, and the head is the smaller of the two. */
  lemma InsertionAdds(ts: seq<Entry>, e: Entry)
    ensures Inserted(ts, e) != []
    ensures forall x :: x in Inserted(ts, e) <==> x in ts || x == e
    ensures Inserted(ts, e)[0] == (if ts == [] || !Before(ts[0], e) then e else ts[0])
  {
    var k := LowerBound(ts, e);
    assert ts == ts[..k] + ts[k..];
    if ts != [] && !Before(ts[0], e) {
      assert k == 0;
    }
  }

  lemma AllocationKeepsOwned(q: Queue, a: Addr, t: Timer)
    requires Owned(q)
    ensures Owned(Allocated(q, a, t))
  {
    if Unused(q, a) {
      var q' := Allocated(q, a, t);
      CountedAddrs(q.deleted, a);
      forall b ensures Held(q', b) == (if b in q'.memory then 1 else 0) {
        CountWith(q.waiting, a, b);
        assert Held(q, b) == (if b in q.memory then 1 else 0);
      }
    }
  }

  lemma WaitingIsElsewhere(q: Queue, i: nat)
    requires Counted(q) && i < |q.waiting|
    ensures q.waiting[i] in q.memory
    ensures forall e :: e in q.timers ==> e.timer != q.waiting[i]
  {
    var a := q.waiting[i];
    CountedAddrs(q.waiting, a);
    assert Held(q, a) == (if a in q.memory then 1 else 0);
    CountedEntries(q.timers, a);
  }

  lemma AddKeepsOwned(q: Queue, i: nat)
    requires Owned(q) && i < |q.waiting|
    ensures q.waiting[i] in q.memory && Owned(AddedInLoop(q, i))
  {
    WaitingIsElsewhere(q, i);
    var a := q.waiting[i];
    var e := Entry(q.memory[a].expiration, a);
    var q' := AddedInLoop(q, i);
    InsertionAdds(q.timers, e);
    InsertionKeepsOrder(q.timers, e);
    forall b ensures Held(q', b) == Held(q, b) {
      InsertionTimes(q.timers, e, b);
      CountWithout(q.waiting, i, b);
    }
  }

  /** Once a live timer is held nowhere any more it may be deleted. */
  lemma DeletionKeepsCount(q: Queue, q': Queue, a: Addr)
    requires Counted(q)
    requires forall b :: Held(q, b) == Held(q', b) + (if a == b then 1 else 0)
    requires q'.memory == q.memory - {a} && q'.deleted == q.deleted + [a]
    ensures a in q.memory && Held(q', a) == 0 && Counted(q')
  {
    assert Held(q, a) == (if a in q.memory then 1 else 0);
    forall b ensures Count(q'.deleted, b) == Count(q.deleted, b) + (if a == b then 1 else 0) {
      CountWith(q.deleted, a, b);
    }
    forall b ensures Held(q', b) == (if b in q'.memory then 1 else 0) {
      assert Held(q, b) == Held(q', b) + (if a == b then 1 else 0);
    }
  }

  lemma CancelKeepsCount(q: Queue, a: Addr)
    requires Counted(q)
    ensures Counted(CancelledInLoop(q, a))
    ensures forall e :: e in CancelledInLoop(q, a).timers && IndexOf(q.timers, a) < |q.timers| ==> e.timer != a
  {
    var k := IndexOf(q.timers, a);
    if k < |q.timers| {
      var q' := CancelledInLoop(q, a);
      forall b ensures Held(q, b) == Held(q', b) + (if a == b then 1 else 0) {
        TimesWithout(q.timers, k, b);
      }
      DeletionKeepsCount(q, q', a);
      CountedEntries(q'.timers, a);
    }
  }

  lemma RemovalKeepsRest(ts: seq<Entry>, k: nat)
    requires k < |ts|
    ensures forall e :: e in ts[..k] + ts[k + 1..] ==> e in ts
    ensures forall e :: e in ts && e != ts[k] ==> e in ts[..k] + ts[k + 1..]
    ensures Ordered(ts) ==> Ordered(ts[..k] + ts[k + 1..])
  {
    var r := ts[..k] + ts[k + 1..];
    assert forall i :: 0 <= i < |r| ==> r[i] == ts[if i < k then i else i + 1];
    forall e | e in ts && e != ts[k] ensures e in r {
      var i :| 0 <= i < |ts| && ts[i] == e;
      assert r[if i < k then i else i - 1] == e;
    }
  }

  lemma CancelKeepsOwned(q: Queue, a: Addr)
    requires Owned(q)
    ensures Owned(CancelledInLoop(q, a))
  {
    var k := IndexOf(q.timers, a);
    if k < |q.timers| {
      CancelKeepsCount(q, a);
      RemovalKeepsRest(q.timers, k);
      DeletionKeepsKeys(CancelledInLoop(q, a).timers, q.memory, a);
    }
  }

  /** A cancel deletes its timer exactly when the timer is in the set; one that waits to be added, or
      is in flight in a read, is not stopped. */
  lemma CancelWorksExactly(q: Queue, a: Addr)
    requires Owned(q)
    ensures (exists e :: e in q.timers && e.timer == a) <==> a in q.memory && a !in CancelledInLoop(q, a).memory
    ensures (forall e :: e in q.timers ==> e.timer != a) ==> CancelledInLoop(q, a) == q
  {
    IndexFinds(q.timers, a);
    var k := IndexOf(q.timers, a);
    if k < |q.timers| {
      assert q.timers[k] in q.timers && q.timers[k].timer == a;
    }
  }

  lemma {:induction false} IndexFinds(ts: seq<Entry>, a: Addr)
    ensures IndexOf(ts, a) < |ts| <==> exists e :: e in ts && e.timer == a
    decreases |ts|
  {
    if ts == [] {
    } else {
      assert ts == [ts[0]] + ts[1..];
      IndexFinds(ts[1..], a);
    }
  }

  lemma ActionKeepsOwned(q: Queue, act: Action)
    requires Owned(q)
    ensures Owned(Acted(q, act))
  {
    match act {
      case Add(a, when, interval, repeat) =>
        if Unused(q, a) {
          AllocationKeepsOwned(q, a, Timer(when, interval, repeat));
          AddKeepsOwned(Allocated(q, a, Timer(when, interval, repeat)), |q.waiting|);
        }
      case Cancel(a) => CancelKeepsOwned(q, a);
      case AddElsewhere(a, when, interval, repeat) => AllocationKeepsOwned(q, a, Timer(when, interval, repeat));
    }
  }

  lemma ActionKeepsBatch(q: Queue, act: Action)
    ensures Acted(q, act).batch == q.batch && Acted(q, act).ran == q.ran
  {
  }

  lemma {:induction false} ActionsKeepOwned(q: Queue, acts: Script)
    requires Owned(q)
    ensures Owned(ActedAll(q, acts)) && ActedAll(q, acts).batch == q.batch && ActedAll(q, acts).ran == q.ran
    decreases |acts|
  {
    if acts == [] {
    } else {
      ActionKeepsOwned(q, acts[0]);
      ActionKeepsBatch(q, acts[0]);
      ActionsKeepOwned(Acted(q, acts[0]), acts[1..]);
    }
  }

  lemma ExpireKeepsOwned(q: Queue, now: int)
    requires Owned(q) && q.batch == []
    ensures Owned(Expire(q, now))
  {
    var k := LowerBound(q.timers, Entry(now, SENTRY_ADDR));
    var q' := Expire(q, now);
    forall b ensures Held(q', b) == Held(q, b) {
      TimesSplit(q.timers, k, b);
    }
    assert forall e :: e in q'.timers ==> e in q.timers;
  }

  lemma {:induction false} CallbacksKeepOwned(q: Queue, expired: seq<Entry>, scripts: seq<Script>)
    requires Owned(q)
    ensures var r := RanAll(q, expired, scripts);
            Owned(r) && r.batch == q.batch && r.ran == q.ran + expired
    decreases |expired|
  {
    if expired == [] {
      assert q.ran + expired == q.ran;
    } else {
      var script := if scripts == [] then [] else scripts[0];
      var q0 := q.(ran := q.ran + [expired[0]]);
      assert forall b :: Held(q0, b) == Held(q, b);
      ActionsKeepOwned(q0, script);
      CallbacksKeepOwned(ActedAll(q0, script), expired[1..], if scripts == [] then [] else scripts[1..]);
      assert q.ran + [expired[0]] + expired[1..] == q.ran + expired;
    }
  }

  lemma OwnedBatchLives(q: Queue)
    requires Counted(q)
    ensures BatchLives(q)
  {
    forall i | 0 <= i < |q.batch| ensures q.batch[i].timer in q.memory {
      assert q.batch[i] in q.batch;
      CountedEntries(q.batch, q.batch[i].timer);
      assert Held(q, q.batch[i].timer) > 0;
    }
    forall i, j | 0 <= i < j < |q.batch| ensures q.batch[i].timer != q.batch[j].timer {
      var a := q.batch[j].timer;
      TimesSplit(q.batch, j, a);
      assert Held(q, a) <= 1;
      CountedEntries(q.batch[..j], a);
      assert q.batch[..j][i] in q.batch[..j];
    }
  }

  /** Before a turn of reset: the timer is live and in no other place. */
  lemma InFlightIsElsewhere(q: Queue)
    requires Counted(q) && q.batch != []
    ensures q.batch[0].timer in q.memory
    ensures forall e :: e in q.timers ==> e.timer != q.batch[0].timer
  {
    var a := q.batch[0].timer;
    assert Held(q, a) == (if a in q.memory then 1 else 0);
    CountedEntries(q.timers, a);
  }

  lemma RepeaterKeepsCount(q: Queue, q': Queue, e: Entry)
    requires Counted(q) && q.batch != [] && q.batch[0].timer == e.timer
    requires q'.waiting == q.waiting && q'.timers == Inserted(q.timers, e) && q'.batch == q.batch[1..]
    requires q'.memory.Keys == q.memory.Keys && q'.deleted == q.deleted
    ensures Counted(q')
  {
    InFlightIsElsewhere(q);
    forall b ensures Held(q', b) == (if b in q'.memory then 1 else 0) {
      InsertionTimes(q.timers, e, b);
      assert Held(q, b) == (if b in q.memory then 1 else 0);
    }
  }

  lemma RestartKeepsKeys(ts: seq<Entry>, memory: map<Addr, Timer>, a: Addr, t: Timer)
    requires Keyed(ts, memory) && Ordered(ts)
    requires forall e :: e in ts ==> e.timer != a
    ensures Keyed(Inserted(ts, Entry(t.expiration, a)), memory[a := t])
    ensures Ordered(Inserted(ts, Entry(t.expiration, a)))
  {
    InsertionAdds(ts, Entry(t.expiration, a));
    InsertionKeepsOrder(ts, Entry(t.expiration, a));
  }

  lemma DeletionKeepsKeys(ts: seq<Entry>, memory: map<Addr, Timer>, a: Addr)
    requires Keyed(ts, memory)
    requires forall e :: e in ts ==> e.timer != a
    ensures Keyed(ts, memory - {a})
  {
  }

  lemma RepeaterKeepsOwned(q: Queue, now: int)
    requires Owned(q) && q.batch != []
    requires q.batch[0].timer in q.memory && q.memory[q.batch[0].timer].repeat
    ensures Owned(ResetOne(q, now))
  {
    var a := q.batch[0].timer;
    var t := q.memory[a].(expiration := now + q.memory[a].interval);
    var q' := ResetOne(q, now);
    InFlightIsElsewhere(q);
    RestartKeepsKeys(q.timers, q.memory, a, t);
    assert q'.memory.Keys == q.memory.Keys;
    RepeaterKeepsCount(q, q', Entry(t.expiration, a));
  }

  lemma OneShotKeepsOwned(q: Queue, now: int)
    requires Owned(q) && q.batch != []
    requires q.batch[0].timer in q.memory && !q.memory[q.batch[0].timer].repeat
    ensures Owned(ResetOne(q, now))
  {
    var a := q.batch[0].timer;
    var q' := ResetOne(q, now);
    InFlightIsElsewhere(q);
    DeletionKeepsKeys(q.timers, q.memory, a);
    DeletionKeepsCount(q, q', a);
  }

  lemma ResetOneKeepsOwned(q: Queue, now: int)
    requires Owned(q) && q.batch != []
    ensures q.batch[0].timer in q.memory && Owned(ResetOne(q, now))
  {
    InFlightIsElsewhere(q);
    if q.memory[q.batch[0].timer].repeat {
      RepeaterKeepsOwned(q, now);
    } else {
      OneShotKeepsOwned(q, now);
    }
  }

  lemma {:induction false} ResetKeepsOwned(q: Queue, now: int)
    requires Owned(q)
    ensures BatchLives(q) && Owned(ResetAll(q, now))
    decreases |q.batch|
  {
    OwnedBatchLives(q);
    if q.batch == [] {
    } else {
      ResetOneKeepsOwned(q, now);
      ResetKeepsOwned(ResetOne(q, now), now);
    }
  }

  lemma AlarmIsNoPlace(q: Queue, alarm: Alarm)
    requires Owned(q)
    ensures Owned(q.(alarm := alarm))
  {
    assert forall b :: Held(q.(alarm := alarm), b) == Held(q, b);
  }

  lemma ReadKeepsOwned(q: Queue, now: int, scripts: seq<Script>)
    requires Owned(q) && q.batch == []
    ensures Owned(Called(q, now, scripts)) && BatchLives(Called(q, now, scripts))
    ensures Owned(ReadHandled(q, now, scripts)) && ReadHandled(q, now, scripts).batch == []
  {
    var q0 := q.(alarm := q.alarm.(fired := false));
    AlarmIsNoPlace(q, q0.alarm);
    ExpireKeepsOwned(q0, now);
    var q1 := Expire(q0, now);
    CallbacksKeepOwned(q1, q1.batch, scripts);
    var q2 := Called(q, now, scripts);
    ResetKeepsOwned(q2, now);
    var q3 := ResetAll(q2, now);
    AlarmIsNoPlace(q3, Rearmed(q3).alarm);
  }

  // ---------------------------------------------------------------------------
  // The alarm

  /** The earliest timer is watched: the timerfd counts down to it, or has fired and is unread. */
  ghost predicate AlarmOk(q: Queue) {
    q.timers != [] ==> q.alarm.fired || (q.alarm.armed && q.alarm.target == Some(q.timers[0].when))
  }

  lemma AddKeepsAlarm(q: Queue, i: nat)
    requires i < |q.waiting| && q.waiting[i] in q.memory && AlarmOk(q)
    ensures AlarmOk(AddedInLoop(q, i))
  {
    InsertionAdds(q.timers, Entry(q.memory[q.waiting[i]].expiration, q.waiting[i]));
  }

  lemma CancelKeepsAlarm(q: Queue, a: Addr)
    requires AlarmOk(q)
    ensures AlarmOk(CancelledInLoop(q, a))
  {
  }

  /** Once the timerfd was read, it stays unfired while callbacks add and cancel. */
  lemma {:induction false} ActionsKeepQuiet(q: Queue, acts: Script)
    requires !q.alarm.fired
    ensures !ActedAll(q, acts).alarm.fired
    decreases |acts|
  {
    if acts == [] {
    } else {
      ActionsKeepQuiet(Acted(q, acts[0]), acts[1..]);
    }
  }

  lemma {:induction false} CallbacksKeepQuiet(q: Queue, expired: seq<Entry>, scripts: seq<Script>)
    requires !q.alarm.fired
    ensures !RanAll(q, expired, scripts).alarm.fired
    decreases |expired|
  {
    if expired == [] {
    } else {
      var script, rest := if scripts == [] then [] else scripts[0], if scripts == [] then [] else scripts[1..];
      ActionsKeepQuiet(q.(ran := q.ran + [expired[0]]), script);
      CallbacksKeepQuiet(ActedAll(q.(ran := q.ran + [expired[0]]), script), expired[1..], rest);
    }
  }

  lemma {:induction false} ResetKeepsAlarm(q: Queue, now: int)
    requires Owned(q)
    ensures BatchLives(q) && ResetAll(q, now).alarm == q.alarm
    decreases |q.batch|
  {
    OwnedBatchLives(q);
    if q.batch == [] {
    } else {
      ResetOneKeepsOwned(q, now);
      ResetKeepsAlarm(ResetOne(q, now), now);
    }
  }

  /** handleRead sets the alarm whatever it was before: it may have fired early, and callbacks may have
      added timers that were not the earliest while it was unarmed. */
  lemma ReadRestoresAlarm(q: Queue, now: int, scripts: seq<Script>)
    requires Owned(q) && q.batch == []
    ensures BatchLives(Called(q, now, scripts)) && AlarmOk(ReadHandled(q, now, scripts))
    ensures !ReadHandled(q, now, scripts).alarm.fired
  {
    var q1 := Expire(q.(alarm := q.alarm.(fired := false)), now);
    ReadKeepsOwned(q, now, scripts);
    CallbacksKeepQuiet(q1, q1.batch, scripts);
    ResetKeepsAlarm(Called(q, now, scripts), now);
  }

  /** The relative time a timerfd is set to, as seconds and nanoseconds: at least 100 microseconds. */
  function HowMuchTimeFromNow(when: int, now: int): (r: (nat, nat))
    ensures r.1 < 1_000_000_000
    ensures r.0 * 1_000_000 + r.1 / 1000 == (if when - now < 100 then 100 else when - now) && r.1 % 1000 == 0
  {
    var us := if when - now < 100 then 100 else when - now;
    (us / 1_000_000, us % 1_000_000 * 1000)
  }

  /** On one clock the alarm is never early: when it fires, the timer it was set for is due. */
  lemma FiredMeansDue(q: Queue, setAt: int, firedAt: int)
    requires Owned(q) && q.timers != []
    requires var r := HowMuchTimeFromNow(q.timers[0].when, setAt);
             firedAt >= setAt + r.0 * 1_000_000 + r.1 / 1000
    ensures LowerBound(q.timers, Entry(firedAt, SENTRY_ADDR)) > 0
  {
    assert q.timers[0] in q.timers;
  }

  // ---------------------------------------------------------------------------
  // Expiry

  /** The sentry cuts the set exactly between the due timers and the others. */
  lemma SentryCutsAtNow(q: Queue, now: int)
    requires Owned(q)
    ensures var k := LowerBound(q.timers, Entry(now, SENTRY_ADDR));
            && (forall i :: 0 <= i < k ==> q.timers[i].when <= now)
            && (forall i :: k <= i < |q.timers| ==> q.timers[i].when > now)
  {
    LowerBoundSplits(q.timers, Entry(now, SENTRY_ADDR));
    assert forall i :: 0 <= i < |q.timers| ==> q.timers[i] in q.timers;
  }

  /** Does some callback of this read cancel or add this? */
  ghost predicate Cancels(scripts: seq<Script>, a: Addr) {
    exists i, j :: 0 <= i < |scripts| && 0 <= j < |scripts[i]| && scripts[i][j] == Cancel(a)
  }

  ghost predicate Adds(scripts: seq<Script>, e: Entry) {
    exists i, j :: 0 <= i < |scripts| && 0 <= j < |scripts[i]|
                   && scripts[i][j].Add? && scripts[i][j].addr == e.timer && scripts[i][j].when == e.when
  }

  /** The calls of a callback leave in-flight timers alone, and other timers unless they name them. */
  ghost predicate OnlyAsTold(q: Queue, r: Queue, scripts: seq<Script>) {
    && (forall a :: a in q.memory && Times(q.batch, a) > 0 ==> a in r.memory && r.memory[a] == q.memory[a])
    && (forall e :: e in q.timers && !Cancels(scripts, e.timer) ==> e in r.timers)
    && (forall e :: e in r.timers ==> e in q.timers || Adds(scripts, e))
  }

  lemma AddOnlyAsTold(q: Queue, a: Addr, when: int, interval: nat, repeat: bool)
    requires Owned(q) && Unused(q, a)
    ensures OnlyAsTold(q, Acted(q, Add(a, when, interval, repeat)), [[Add(a, when, interval, repeat)]])
  {
    var act := Add(a, when, interval, repeat);
    var q1 := Allocated(q, a, Timer(when, interval, repeat));
    assert q1.waiting[|q.waiting|] == a;
    assert Acted(q, act).timers == Inserted(q.timers, Entry(when, a));
    InsertionAdds(q.timers, Entry(when, a));
    assert [[act]][0][0] == act;
    assert Adds([[act]], Entry(when, a));
  }

  lemma CancelOnlyAsTold(q: Queue, a: Addr)
    requires Owned(q)
    ensures OnlyAsTold(q, CancelledInLoop(q, a), [[Cancel(a)]])
  {
    var k := IndexOf(q.timers, a);
    assert [[Cancel(a)]][0][0] == Cancel(a);
    if k < |q.timers| {
      assert q.timers[k] in q.timers;
      CountedEntries(q.timers, a);
      assert Held(q, a) <= 1;
      assert Cancels([[Cancel(a)]], a);
      RemovalKeepsRest(q.timers, k);
    }
  }

  lemma ActionOnlyAsTold(q: Queue, act: Action)
    requires Owned(q)
    ensures OnlyAsTold(q, Acted(q, act), [[act]])
  {
    match act {
      case Add(a, when, interval, repeat) =>
        if Unused(q, a) {
          AddOnlyAsTold(q, a, when, interval, repeat);
        }
      case Cancel(a) => CancelOnlyAsTold(q, a);
      case AddElsewhere(_, _, _, _) =>
    }
  }

  lemma ToldTogether(q: Queue, m: Queue, r: Queue, first: seq<Script>, rest: seq<Script>, all: seq<Script>)
    requires OnlyAsTold(q, m, first) && OnlyAsTold(m, r, rest) && m.batch == q.batch
    requires forall a :: Cancels(first, a) || Cancels(rest, a) ==> Cancels(all, a)
    requires forall e :: Adds(first, e) || Adds(rest, e) ==> Adds(all, e)
    ensures OnlyAsTold(q, r, all)
  {
  }

  lemma ScriptHolds(acts: Script, part: Script, from: nat)
    requires from + |part| <= |acts| && acts[from..from + |part|] == part
    ensures forall a :: Cancels([part], a) ==> Cancels([acts], a)
    ensures forall e :: Adds([part], e) ==> Adds([acts], e)
  {
    assert forall j :: 0 <= j < |part| ==> part[j] == acts[from + j];
    forall a | Cancels([part], a) ensures Cancels([acts], a) {
      var i, j :| 0 <= i < 1 && 0 <= j < |[part][i]| && [part][i][j] == Cancel(a);
      assert [acts][0][from + j] == Cancel(a);
    }
    forall e | Adds([part], e) ensures Adds([acts], e) {
      var i, j :| 0 <= i < 1 && 0 <= j < |[part][i]|
                  && [part][i][j].Add? && [part][i][j].addr == e.timer && [part][i][j].when == e.when;
      assert [acts][0][from + j] == part[j];
    }
  }

  lemma ScriptsHold(scripts: seq<Script>, part: seq<Script>, from: nat)
    requires from + |part| <= |scripts| && scripts[from..from + |part|] == part
    ensures forall a :: Cancels(part, a) ==> Cancels(scripts, a)
    ensures forall e :: Adds(part, e) ==> Adds(scripts, e)
  {
    assert forall i :: 0 <= i < |part| ==> part[i] == scripts[from + i];
  }

  lemma {:induction false} ScriptOnlyAsTold(q: Queue, acts: Script)
    requires Owned(q)
    ensures OnlyAsTold(q, ActedAll(q, acts), [acts])
    decreases |acts|
  {
    if acts == [] {
    } else {
      var m := Acted(q, acts[0]);
      ActionKeepsOwned(q, acts[0]);
      ActionKeepsBatch(q, acts[0]);
      ActionOnlyAsTold(q, acts[0]);
      ScriptOnlyAsTold(m, acts[1..]);
      ScriptHolds(acts, [acts[0]], 0);
      ScriptHolds(acts, acts[1..], 1);
      ToldTogether(q, m, ActedAll(m, acts[1..]), [[acts[0]]], [acts[1..]], [acts]);
    }
  }

  lemma {:induction false} CallbacksOnlyAsTold(q: Queue, expired: seq<Entry>, scripts: seq<Script>)
    requires Owned(q)
    ensures OnlyAsTold(q, RanAll(q, expired, scripts), scripts)
    decreases |expired|
  {
    if expired == [] {
    } else {
      var script := if scripts == [] then [] else scripts[0];
      var later := if scripts == [] then [] else scripts[1..];
      var q0 := q.(ran := q.ran + [expired[0]]);
      assert forall b :: Held(q0, b) == Held(q, b);
      var m := ActedAll(q0, script);
      ActionsKeepOwned(q0, script);
      ScriptOnlyAsTold(q0, script);
      CallbacksOnlyAsTold(m, expired[1..], later);
      if scripts != [] {
        ScriptsHold(scripts, [scripts[0]], 0);
        ScriptsHold(scripts, later, 1);
      }
      ToldTogether(q0, m, RanAll(m, expired[1..], later), [script], later, scripts);
    }
  }

  /** A repeating timer of the batch comes back one interval after now. */
  ghost predicate ComesBack(q: Queue, batch: seq<Entry>, now: int, e: Entry) {
    exists d :: d in batch && d.timer in q.memory && q.memory[d.timer].repeat
                && e == Entry(now + q.memory[d.timer].interval, d.timer)
  }

  /** One turn of reset, seen from the rest of the batch. */
  lemma ResetOneEffect(q: Queue, now: int)
    requires Owned(q) && q.batch != []
    ensures q.batch[0].timer in q.memory
    ensures var m, d := ResetOne(q, now), q.batch[0];
            && m.batch == q.batch[1..]
            && (forall x :: x in m.batch ==> x.timer in q.memory && x.timer in m.memory
                                             && m.memory[x.timer] == q.memory[x.timer])
            && (forall e :: e in m.timers <==>
                  (e in q.timers
                   || (q.memory[d.timer].repeat && e == Entry(now + q.memory[d.timer].interval, d.timer))))
            && (!q.memory[d.timer].repeat ==> d.timer !in m.memory)
            && (forall a :: a !in q.memory ==> a !in m.memory)
  {
    var d := q.batch[0];
    OwnedBatchLives(q);
    forall x | x in q.batch[1..] ensures x.timer != d.timer && x.timer in q.memory {
      var i :| 0 <= i < |q.batch[1..]| && q.batch[1..][i] == x;
      assert q.batch[i + 1] == x;
    }
    if q.memory[d.timer].repeat {
      InsertionAdds(q.timers, Entry(now + q.memory[d.timer].interval, d.timer));
    }
  }

  lemma ComesBackSplit(q: Queue, m: Queue, now: int, e: Entry)
    requires q.batch != [] && m.batch == q.batch[1..] && q.batch[0].timer in q.memory
    requires forall x :: x in m.batch ==> x.timer in q.memory && x.timer in m.memory
                                          && m.memory[x.timer] == q.memory[x.timer]
    ensures var d := q.batch[0];
            ComesBack(q, q.batch, now, e) <==>
              ComesBack(m, m.batch, now, e)
              || (q.memory[d.timer].repeat && e == Entry(now + q.memory[d.timer].interval, d.timer))
  {
    assert q.batch == [q.batch[0]] + m.batch;
  }

  /** reset: repeaters are inserted again, one-shots are deleted, nothing else moves. */
  lemma {:induction false} ResetIsExact(q: Queue, now: int)
    requires Owned(q)
    ensures BatchLives(q)
    ensures forall e :: e in ResetAll(q, now).timers <==> e in q.timers || ComesBack(q, q.batch, now, e)
    ensures ResetAll(q, now).ran == q.ran
    decreases |q.batch|
  {
    OwnedBatchLives(q);
    if q.batch == [] {
    } else {
      var m := ResetOne(q, now);
      ResetOneKeepsOwned(q, now);
      ResetOneEffect(q, now);
      ResetIsExact(m, now);
      forall e ensures e in ResetAll(q, now).timers <==> e in q.timers || ComesBack(q, q.batch, now, e) {
        ComesBackSplit(q, m, now, e);
      }
    }
  }

  lemma {:induction false} ResetDeletesOneShots(q: Queue, now: int)
    requires Owned(q)
    ensures BatchLives(q)
    ensures forall a :: a !in q.memory ==> a !in ResetAll(q, now).memory
    ensures forall d :: d in q.batch ==> d.timer in q.memory
                                         && (!q.memory[d.timer].repeat ==> d.timer !in ResetAll(q, now).memory)
    decreases |q.batch|
  {
    OwnedBatchLives(q);
    if q.batch == [] {
    } else {
      ResetOneKeepsOwned(q, now);
      ResetOneEffect(q, now);
      ResetDeletesOneShots(ResetOne(q, now), now);
      assert q.batch == [q.batch[0]] + q.batch[1..];
    }
  }

  /** One read at time now runs exactly the timers due at now, each once and in order; a repeater comes
      back at now + interval, a one-shot is gone, and every other timer is untouched except for what
      the callbacks themselves added and cancelled. */
  lemma ExpiryIsExact(q: Queue, now: int, scripts: seq<Script>)
    requires Owned(q) && q.batch == []
    ensures BatchLives(Called(q, now, scripts))
    ensures var k := LowerBound(q.timers, Entry(now, SENTRY_ADDR));
            var r := ReadHandled(q, now, scripts);
            && r.ran == q.ran + q.timers[..k]
            && (forall i :: 0 <= i < |q.timers| ==> (i < k <==> q.timers[i].when <= now))
            && (forall i, j :: 0 <= i < j < k ==> q.timers[i].when <= q.timers[j].when
                                                  && q.timers[i].timer != q.timers[j].timer)
            && (forall e :: ComesBack(q, q.timers[..k], now, e) ==> e in r.timers)
            && (forall d :: d in q.timers[..k] && !q.memory[d.timer].repeat ==> d.timer !in r.memory)
            && (forall e :: e in q.timers[k..] && !Cancels(scripts, e.timer) ==> e in r.timers)
            && (forall e :: e in r.timers ==>
                  e in q.timers[k..] || ComesBack(q, q.timers[..k], now, e) || Adds(scripts, e))
  {
    SentryCutsAtNow(q, now);
    ReadKeepsOwned(q, now, scripts);
    var q1 := Expire(q.(alarm := q.alarm.(fired := false)), now);
    var q2 := Called(q, now, scripts);
    CallsInARead(q, now, scripts);
    ResetIsExact(q2, now);
    ResetDeletesOneShots(q2, now);
    forall e ensures ComesBack(q, q1.batch, now, e) <==> ComesBack(q2, q1.batch, now, e) {}
    assert Rearmed(ResetAll(q2, now)).timers == ResetAll(q2, now).timers;
    BatchIsDistinct(q1, q.timers, |q1.batch|);
  }

  lemma BatchIsDistinct(q: Queue, ts: seq<Entry>, k: nat)
    requires BatchLives(q) && k <= |ts| && q.batch == ts[..k]
    ensures forall i, j :: 0 <= i < j < k ==> ts[i].timer != ts[j].timer
  {
    forall i, j | 0 <= i < j < k ensures ts[i].timer != ts[j].timer {
      assert q.batch[i].timer != q.batch[j].timer;
    }
  }

  /** What a read looks like when its callbacks are through. */
  lemma CallsInARead(q: Queue, now: int, scripts: seq<Script>)
    requires Owned(q) && q.batch == []
    ensures var q1 := Expire(q.(alarm := q.alarm.(fired := false)), now);
            var q2 := Called(q, now, scripts);
            && BatchLives(q1) && OnlyAsTold(q1, q2, scripts)
            && q2.batch == q1.batch && q2.ran == q.ran + q1.batch
            && (forall d :: d in q1.batch ==> d.timer in q.memory && d.timer in q2.memory
                                              && q2.memory[d.timer] == q.memory[d.timer])
  {
    var q0 := q.(alarm := q.alarm.(fired := false));
    AlarmIsNoPlace(q, q0.alarm);
    ExpireKeepsOwned(q0, now);
    var q1 := Expire(q0, now);
    OwnedBatchLives(q1);
    CallbacksKeepOwned(q1, q1.batch, scripts);
    CallbacksOnlyAsTold(q1, q1.batch, scripts);
    var q2 := Called(q, now, scripts);
    forall d | d in q1.batch
      ensures d.timer in q.memory && d.timer in q2.memory && q2.memory[d.timer] == q.memory[d.timer]
    {
      CountedEntries(q1.batch, d.timer);
      var i :| 0 <= i < |q1.batch| && q1.batch[i] == d;
    }
  }

  // ---------------------------------------------------------------------------
  // What becomes of one address, exactly

  /** An address is free for a new timer, or holds one whose addition is queued, or one that is in the
      set; or it is spent: expired and in flight, or deleted. */
  datatype Fate = Untouched | Queued(timer: Timer) | Alive(timer: Timer) | Spent

  function FateOf(q: Queue, a: Addr): Fate {
    if Unused(q, a) then Untouched
    else if a !in q.memory then Spent
    else if Times(q.timers, a) > 0 then Alive(q.memory[a])
    else if Count(q.waiting, a) > 0 then Queued(q.memory[a])
    else Spent
  }

  /** What one call makes of it. */
  function FateAfter(f: Fate, act: Action, a: Addr): Fate {
    match act
    case Add(b, when, interval, repeat) =>
      if b == a && f == Untouched then Alive(Timer(when, interval, repeat)) else f
    case AddElsewhere(b, when, interval, repeat) =>
      if b == a && f == Untouched then Queued(Timer(when, interval, repeat)) else f
    case Cancel(b) => if b == a && f.Alive? then Spent else f
  }

  function Fates(f: Fate, acts: Script, a: Addr): Fate
    decreases |acts|
  {
    if acts == [] then f else Fates(FateAfter(f, acts[0], a), acts[1..], a)
  }

  lemma {:induction false} FatesJoin(f: Fate, x: Script, y: Script, a: Addr)
    ensures Fates(f, x + y, a) == Fates(Fates(f, x, a), y, a)
    decreases |x|
  {
    if x == [] {
      assert x + y == y;
    } else {
      assert (x + y)[0] == x[0] && (x + y)[1..] == x[1..] + y;
      FatesJoin(FateAfter(f, x[0], a), x[1..], y, a);
    }
  }

  /** A timer of the set stays until it is cancelled. */
  lemma {:induction false} AliveUntilCancelled(t: Timer, acts: Script, a: Addr)
    ensures Fates(Alive(t), acts, a) == if Cancel(a) in acts then Spent else Alive(t)
    decreases |acts|
  {
    if acts == [] {
    } else {
      assert acts == [acts[0]] + acts[1..];
      if acts[0] == Cancel(a) {
        SpentForGood(acts[1..], a);
      } else {
        AliveUntilCancelled(t, acts[1..], a);
      }
    }
  }

  lemma {:induction false} SpentForGood(acts: Script, a: Addr)
    ensures Fates(Spent, acts, a) == Spent
    decreases |acts|
  {
    if acts == [] {
    } else {
      SpentForGood(acts[1..], a);
    }
  }

  /** In an owned queue an address has one entry at most, keyed by its timer, so its fate says which. */
  lemma EntryIsFate(q: Queue, e: Entry)
    requires Owned(q)
    ensures e in q.timers <==> FateOf(q, e.timer).Alive? && FateOf(q, e.timer).timer.expiration == e.when
  {
    CountedEntries(q.timers, e.timer);
    assert Held(q, e.timer) == (if e.timer in q.memory then 1 else 0);
  }

  lemma ActionDecidesFate(q: Queue, act: Action, a: Addr)
    requires Owned(q)
    ensures FateOf(Acted(q, act), a) == FateAfter(FateOf(q, a), act, a)
  {
    match act {
      case Add(b, when, interval, repeat) =>
        if Unused(q, b) {
          AddedFate(q, b, Timer(when, interval, repeat), a);
        }
      case Cancel(b) => CancelledFate(q, b, a);
      case AddElsewhere(b, when, interval, repeat) =>
        if Unused(q, b) {
          AllocatedFate(q, b, Timer(when, interval, repeat), a);
        }
    }
  }

  lemma AllocatedFate(q: Queue, b: Addr, t: Timer, a: Addr)
    requires Owned(q) && Unused(q, b)
    ensures FateOf(Allocated(q, b, t), a) == if a == b then Queued(t) else FateOf(q, a)
  {
    CountWith(q.waiting, b, a);
    assert Held(q, b) == 0;
  }

  lemma AddedFate(q: Queue, b: Addr, t: Timer, a: Addr)
    requires Owned(q) && Unused(q, b)
    ensures var r := Acted(q, Add(b, t.expiration, t.interval, t.repeat));
            FateOf(r, a) == if a == b then Alive(t) else FateOf(q, a)
  {
    var q1 := Allocated(q, b, t);
    AllocationKeepsOwned(q, b, t);
    WaitingIsElsewhere(q1, |q.waiting|);
    InsertionTimes(q.timers, Entry(t.expiration, b), a);
    assert q1.waiting[..|q.waiting|] + q1.waiting[|q.waiting| + 1..] == q.waiting;
  }

  lemma CancelledFate(q: Queue, b: Addr, a: Addr)
    requires Owned(q)
    ensures FateOf(CancelledInLoop(q, b), a) == if a == b && FateOf(q, a).Alive? then Spent else FateOf(q, a)
  {
    var k := IndexOf(q.timers, b);
    IndexFinds(q.timers, b);
    CountedEntries(q.timers, b);
    assert Held(q, b) == (if b in q.memory then 1 else 0);
    if k < |q.timers| {
      TimesWithout(q.timers, k, a);
    }
  }

  lemma {:induction false} ActionsDecideFate(q: Queue, acts: Script, a: Addr)
    requires Owned(q)
    ensures FateOf(ActedAll(q, acts), a) == Fates(FateOf(q, a), acts, a)
    decreases |acts|
  {
    if acts == [] {
    } else {
      ActionDecidesFate(q, acts[0], a);
      ActionKeepsOwned(q, acts[0]);
      ActionsDecideFate(Acted(q, acts[0]), acts[1..], a);
    }
  }

  /** The calls that n callbacks make, one script each. */
  function Performed(scripts: seq<Script>, n: nat): Script {
    if n == 0 || scripts == [] then [] else scripts[0] + Performed(scripts[1..], n - 1)
  }

  lemma {:induction false} CallbacksDecideFate(q: Queue, expired: seq<Entry>, scripts: seq<Script>, a: Addr)
    requires Owned(q)
    ensures FateOf(RanAll(q, expired, scripts), a) == Fates(FateOf(q, a), Performed(scripts, |expired|), a)
    decreases |expired|
  {
    if expired == [] {
    } else {
      var script := if scripts == [] then [] else scripts[0];
      var rest := if scripts == [] then [] else scripts[1..];
      var q0 := q.(ran := q.ran + [expired[0]]);
      assert forall b :: Held(q0, b) == Held(q, b);
      assert FateOf(q0, a) == FateOf(q, a);
      ActionsKeepOwned(q0, script);
      ActionsDecideFate(q0, script, a);
      CallbacksDecideFate(ActedAll(q0, script), expired[1..], rest, a);
      FatesJoin(FateOf(q, a), script, Performed(rest, |expired| - 1), a);
      PerformedFirst(scripts, |expired|);
    }
  }

  lemma PerformedFirst(scripts: seq<Script>, n: nat)
    requires n > 0
    ensures Performed(scripts, n)
            == (if scripts == [] then [] else scripts[0])
               + Performed(if scripts == [] then [] else scripts[1..], n - 1)
  {
    if scripts == [] {
      var none: Script := [];
      assert none + none == none;
    }
  }

  // Expiry.

  predicate Due(f: Fate, now: int) { f.Alive? && f.timer.expiration <= now }

  /** getExpired takes out exactly the timers that are due. */
  lemma ExpiryDecidesFate(q: Queue, now: int, a: Addr)
    requires Owned(q) && q.batch == []
    ensures var r := Expire(q, now);
            if Due(FateOf(q, a), now)
            then FateOf(r, a) == Spent && Times(r.batch, a) == 1 && r.memory == q.memory && a in q.memory
                 && q.memory[a] == FateOf(q, a).timer
            else FateOf(r, a) == FateOf(q, a) && Times(r.batch, a) == 0
  {
    var k := LowerBound(q.timers, Entry(now, SENTRY_ADDR));
    SentryCutsAtNow(q, now);
    TimesSplit(q.timers, k, a);
    CountedEntries(q.timers, a);
    CountedEntries(q.timers[..k], a);
    CountedEntries(q.timers[k..], a);
    assert Held(q, a) == (if a in q.memory then 1 else 0);
    if Times(q.timers[..k], a) > 0 {
      var e :| e in q.timers[..k] && e.timer == a;
      assert e in q.timers;
    }
    if Times(q.timers[k..], a) > 0 {
      var e :| e in q.timers[k..] && e.timer == a;
      var i :| 0 <= i < |q.timers[k..]| && q.timers[k..][i] == e;
      assert q.timers[k + i] == e && e in q.timers;
    }
  }

  // reset.

  /** The timer object after a restart: only its expiration is new. */
  function RestartedAt(t: Timer, now: int): Timer { t.(expiration := now + t.interval) }

  function ResetFate(f: Fate, t: Timer, now: int): Fate {
    if t.repeat then Alive(RestartedAt(t, now)) else Spent
  }

  lemma RepeaterFate(q: Queue, now: int, a: Addr)
    requires Owned(q) && q.batch != [] && q.batch[0].timer in q.memory && q.memory[q.batch[0].timer].repeat
    ensures var d, r := q.batch[0].timer, ResetOne(q, now);
            FateOf(r, a) == if a == d then Alive(RestartedAt(q.memory[d], now)) else FateOf(q, a)
  {
    var d := q.batch[0].timer;
    InFlightIsElsewhere(q);
    InsertionTimes(q.timers, Entry(now + q.memory[d].interval, d), a);
    assert !Unused(q, d) && !Unused(ResetOne(q, now), d);
  }

  lemma OneShotFate(q: Queue, now: int, a: Addr)
    requires q.batch != [] && q.batch[0].timer in q.memory && !q.memory[q.batch[0].timer].repeat
    ensures var d, r := q.batch[0].timer, ResetOne(q, now);
            FateOf(r, a) == if a == d then Spent else FateOf(q, a)
  {
  }

  lemma ResetOneDecidesFate(q: Queue, now: int, a: Addr)
    requires Owned(q) && q.batch != []
    ensures q.batch[0].timer in q.memory
    ensures var d, r := q.batch[0].timer, ResetOne(q, now);
            && Owned(r) && Times(r.batch, a) == Times(q.batch, a) - (if d == a then 1 else 0)
            && FateOf(r, a) == (if d == a then ResetFate(FateOf(q, a), q.memory[a], now) else FateOf(q, a))
            && (a != d && a in q.memory ==> a in r.memory && r.memory[a] == q.memory[a])
  {
    ResetOneKeepsOwned(q, now);
    if q.memory[q.batch[0].timer].repeat {
      RepeaterFate(q, now, a);
    } else {
      OneShotFate(q, now, a);
    }
  }

  /** reset decides what becomes of the timers in flight, and leaves all others alone. */
  lemma {:induction false} ResetDecidesFate(q: Queue, now: int, a: Addr)
    requires Owned(q)
    ensures BatchLives(q)
    ensures if Times(q.batch, a) > 0
            then a in q.memory && FateOf(ResetAll(q, now), a) == ResetFate(FateOf(q, a), q.memory[a], now)
            else FateOf(ResetAll(q, now), a) == FateOf(q, a)
    decreases |q.batch|
  {
    OwnedBatchLives(q);
    if q.batch == [] {
    } else {
      var m := ResetOne(q, now);
      assert Held(q, a) == (if a in q.memory then 1 else 0);
      ResetOneDecidesFate(q, now, a);
      ResetDecidesFate(m, now, a);
    }
  }

  // A whole read.

  /** What a read at `now` makes of an address, given the calls its callbacks make. */
  function FateAfterRead(f: Fate, now: int, acts: Script, a: Addr): Fate {
    if Due(f, now) then ResetFate(f, f.timer, now) else Fates(f, acts, a)
  }

  /** When the callbacks of a read are through. */
  lemma FateWhenCalled(q: Queue, now: int, scripts: seq<Script>, a: Addr)
    requires Owned(q) && q.batch == []
    ensures FateOf(Called(q, now, scripts), a)
            == Fates(FateOf(Expire(q, now), a), Performed(scripts, |Expire(q, now).batch|), a)
    ensures Owned(Called(q, now, scripts))
  {
    var q0 := q.(alarm := q.alarm.(fired := false));
    AlarmIsNoPlace(q, q0.alarm);
    ExpireKeepsOwned(q0, now);
    var q1 := Expire(q0, now);
    CallbacksDecideFate(q1, q1.batch, scripts, a);
    ReadKeepsOwned(q, now, scripts);
    assert FateOf(q1, a) == FateOf(Expire(q, now), a);
  }

  lemma RanInARead(q: Queue, now: int, scripts: seq<Script>, a: Addr)
    requires Owned(q) && q.batch == []
    ensures BatchLives(Called(q, now, scripts))
    ensures Times(ReadHandled(q, now, scripts).ran, a)
            == Times(q.ran, a) + (if Due(FateOf(q, a), now) then 1 else 0)
  {
    CallsInARead(q, now, scripts);
    FateWhenCalled(q, now, scripts, a);
    ResetIsExact(Called(q, now, scripts), now);
    ExpiryDecidesFate(q, now, a);
    TimesJoin(q.ran, Expire(q, now).batch, a);
  }

  /** One read, for every address and with the whole timer object: a repeater that was due is in the set
      with the same interval, still repeating, and due one interval after now; a one-shot that was due is
      gone; everything else is what the calls that the callbacks really made leave of it. */
  lemma ReadDecidesFate(q: Queue, now: int, scripts: seq<Script>, a: Addr)
    requires Owned(q) && q.batch == []
    ensures BatchLives(Called(q, now, scripts))
    ensures FateOf(ReadHandled(q, now, scripts), a)
            == FateAfterRead(FateOf(q, a), now, Performed(scripts, |Expire(q, now).batch|), a)
    ensures Times(ReadHandled(q, now, scripts).ran, a)
            == Times(q.ran, a) + (if Due(FateOf(q, a), now) then 1 else 0)
  {
    var q1, q2 := Expire(q, now), Called(q, now, scripts);
    CallsInARead(q, now, scripts);
    FateWhenCalled(q, now, scripts, a);
    ExpiryDecidesFate(q, now, a);
    ResetDecidesFate(q2, now, a);
    RanInARead(q, now, scripts, a);
    var acts := Performed(scripts, |q1.batch|);
    if Due(FateOf(q, a), now) {
      SpentForGood(acts, a);
      CountedEntries(q1.batch, a);
    }
    assert FateOf(Rearmed(ResetAll(q2, now)), a) == FateOf(ResetAll(q2, now), a);
  }

  /** The set after one read, in both directions. */
  lemma SetAfterRead(q: Queue, now: int, scripts: seq<Script>, e: Entry)
    requires Owned(q) && q.batch == []
    ensures BatchLives(Called(q, now, scripts))
    ensures var f := FateAfterRead(FateOf(q, e.timer), now, Performed(scripts, |Expire(q, now).batch|), e.timer);
            e in ReadHandled(q, now, scripts).timers <==> f.Alive? && f.timer.expiration == e.when
  {
    ReadDecidesFate(q, now, scripts, e.timer);
    ReadKeepsOwned(q, now, scripts);
    EntryIsFate(ReadHandled(q, now, scripts), e);
  }

  /** A timer that is not due stays in the set, unchanged, if and only if no callback of the read cancels it. */
  lemma CancelledInARead(q: Queue, now: int, scripts: seq<Script>, a: Addr)
    requires Owned(q) && q.batch == [] && FateOf(q, a).Alive? && !Due(FateOf(q, a), now)
    ensures BatchLives(Called(q, now, scripts))
    ensures FateOf(ReadHandled(q, now, scripts), a)
            == if Cancel(a) in Performed(scripts, |Expire(q, now).batch|) then Spent else FateOf(q, a)
  {
    ReadDecidesFate(q, now, scripts, a);
    AliveUntilCancelled(FateOf(q, a).timer, Performed(scripts, |Expire(q, now).batch|), a);
  }

  /** A timer that a callback adds at a free address, and that no callback cancels, is in the set
      afterwards, as it was added. */
  lemma AddedInARead(q: Queue, now: int, scripts: seq<Script>, i: nat)
    requires Owned(q) && q.batch == []
    requires i < |Performed(scripts, |Expire(q, now).batch|)| && Performed(scripts, |Expire(q, now).batch|)[i].Add?
    requires var acts := Performed(scripts, |Expire(q, now).batch|);
             && Unused(q, acts[i].addr)
             && (forall j :: 0 <= j < i ==> acts[j].addr != acts[i].addr)
             && Cancel(acts[i].addr) !in acts
    ensures BatchLives(Called(q, now, scripts))
    ensures var act := Performed(scripts, |Expire(q, now).batch|)[i];
            FateOf(ReadHandled(q, now, scripts), act.addr) == Alive(Timer(act.when, act.interval, act.repeat))
  {
    var acts := Performed(scripts, |Expire(q, now).batch|);
    var a := acts[i].addr;
    ReadDecidesFate(q, now, scripts, a);
    var later := acts[i + 1..];
    assert acts == acts[..i] + ([acts[i]] + later);
    FatesJoin(Untouched, acts[..i], [acts[i]] + later, a);
    UntouchedBefore(acts[..i], a);
    assert ([acts[i]] + later)[1..] == later;
    AliveUntilCancelled(Timer(acts[i].when, acts[i].interval, acts[i].repeat), later, a);
    assert Cancel(a) !in later;
  }

  lemma {:induction false} UntouchedBefore(acts: Script, a: Addr)
    requires forall j :: 0 <= j < |acts| ==> acts[j].addr != a
    ensures Fates(Untouched, acts, a) == Untouched
    decreases |acts|
  {
    if acts == [] {
    } else {
      assert FateAfter(Untouched, acts[0], a) == Untouched;
      UntouchedBefore(acts[1..], a);
    }
  }

  // ---------------------------------------------------------------------------
  // Whole runs

  datatype Event =
    | Allocate(addr: Addr, timer: Timer)     // any thread: new Timer, addTimerInLoop queued
    | RunAdd(i: nat)                         // a queued addTimerInLoop runs
    | RunCancel(addr: Addr)                  // cancelInLoop outside a callback
    | Fire                                   // the timerfd expires, early or not
    | Read(now: int, scripts: seq<Script>)

  ghost predicate Possible(q: Queue, e: Event) {
    match e
    case RunAdd(i) => i < |q.waiting| && q.waiting[i] in q.memory
    case Fire => q.alarm.armed
    case Read(now, scripts) => BatchLives(Called(q, now, scripts))
    case _ => true
  }

  ghost function Happen(q: Queue, e: Event): Queue
    requires Possible(q, e)
  {
    match e
    case Allocate(a, t) => Allocated(q, a, t)
    case RunAdd(i) => AddedInLoop(q, i)
    case RunCancel(a) => CancelledInLoop(q, a)
    case Fire => q.(alarm := q.alarm.(armed := false, fired := true))
    case Read(now, scripts) => ReadHandled(q, now, scripts)
  }

  ghost predicate AllPossible(q: Queue, es: seq<Event>)
    decreases |es|
  {
    es == [] || (Possible(q, es[0]) && AllPossible(Happen(q, es[0]), es[1..]))
  }

  ghost function HappenAll(q: Queue, es: seq<Event>): Queue
    requires AllPossible(q, es)
    decreases |es|
  {
    if es == [] then q else HappenAll(Happen(q, es[0]), es[1..])
  }

  ghost predicate Good(q: Queue) {
    Owned(q) && AlarmOk(q) && q.batch == []
  }

  lemma EventKeepsGood(q: Queue, e: Event)
    requires Good(q) && Possible(q, e)
    ensures Good(Happen(q, e))
  {
    match e {
      case Allocate(a, t) => AllocationKeepsOwned(q, a, t);
      case RunAdd(i) =>
        AddKeepsOwned(q, i);
        AddKeepsAlarm(q, i);
      case RunCancel(a) =>
        CancelKeepsOwned(q, a);
        CancelKeepsAlarm(q, a);
      case Fire => AlarmIsNoPlace(q, Happen(q, e).alarm);
      case Read(now, scripts) =>
        ReadKeepsOwned(q, now, scripts);
        ReadRestoresAlarm(q, now, scripts);
    }
  }

  /** No queued addition and no read ever meets a timer that was freed. */
  lemma NothingDangles(q: Queue, e: Event)
    requires Good(q)
    ensures e.RunAdd? && e.i < |q.waiting| ==> Possible(q, e)
    ensures e.Read? ==> Possible(q, e)
  {
    if e.RunAdd? && e.i < |q.waiting| {
      WaitingIsElsewhere(q, e.i);
    }
    if e.Read? {
      ReadKeepsOwned(q, e.now, e.scripts);
    }
  }

  /** In every reachable state every timer has one owner and is deleted at most once, the set is keyed
      and ordered, and the earliest timer is watched. */
  lemma {:induction false} RunKeepsGood(q: Queue, es: seq<Event>)
    requires Good(q) && AllPossible(q, es)
    ensures Good(HappenAll(q, es))
    decreases |es|
  {
    if es == [] {
    } else {
      EventKeepsGood(q, es[0]);
      RunKeepsGood(Happen(q, es[0]), es[1..]);
    }
  }

  lemma EveryRunIsGood(es: seq<Event>)
    requires AllPossible(NEW_QUEUE, es)
    ensures Good(HappenAll(NEW_QUEUE, es))
  {
    assert forall a :: Held(NEW_QUEUE, a) == 0;
    RunKeepsGood(NEW_QUEUE, es);
  }

  // ---------------------------------------------------------------------------
  // One timer over a whole run

  /** What one event makes of an address; for an addition, of the address it is about. */
  function FateAfterEvent(q: Queue, f: Fate, e: Event, a: Addr): Fate {
    match e
    case Allocate(b, t) => if b == a && f == Untouched then Queued(t) else f
    case RunAdd(i) => if i < |q.waiting| && q.waiting[i] == a && f.Queued? then Alive(f.timer) else f
    case RunCancel(b) => if b == a && f.Alive? then Spent else f
    case Fire => f
    case Read(now, scripts) => FateAfterRead(f, now, Performed(scripts, |Expire(q, now).batch|), a)
  }

  predicate Rings(f: Fate, e: Event) { e.Read? && Due(f, e.now) }

  lemma RunAddDecidesFate(q: Queue, i: nat, a: Addr)
    requires Owned(q) && i < |q.waiting|
    ensures q.waiting[i] in q.memory
    ensures FateOf(AddedInLoop(q, i), a)
            == if q.waiting[i] == a then Alive(q.memory[a]) else FateOf(q, a)
    ensures FateOf(q, q.waiting[i]) == Queued(q.memory[q.waiting[i]])
  {
    var b := q.waiting[i];
    WaitingIsElsewhere(q, i);
    InsertionTimes(q.timers, Entry(q.memory[b].expiration, b), a);
    CountWithout(q.waiting, i, a);
    CountWithout(q.waiting, i, b);
    assert Held(q, b) == 1;
    assert Held(q, a) == (if a in q.memory then 1 else 0);
  }

  /** In every reachable state, an event decides the fate of every address, and runs the callback of its
      timer once if it is a read that finds it due, and not at all otherwise. */
  lemma EventDecidesFate(q: Queue, e: Event, a: Addr)
    requires Good(q) && Possible(q, e)
    ensures FateOf(Happen(q, e), a) == FateAfterEvent(q, FateOf(q, a), e, a)
    ensures Times(Happen(q, e).ran, a) == Times(q.ran, a) + (if Rings(FateOf(q, a), e) then 1 else 0)
  {
    match e {
      case Allocate(b, t) =>
        if Unused(q, b) {
          AllocatedFate(q, b, t, a);
        }
      case RunAdd(i) => RunAddDecidesFate(q, i, a);
      case RunCancel(b) => CancelledFate(q, b, a);
      case Fire => assert Happen(q, e).timers == q.timers;
      case Read(now, scripts) => ReadDecidesFate(q, now, scripts, a);
    }
  }

  /** Nobody cancels the timer at a. */
  ghost predicate Spares(e: Event, a: Addr) {
    && e != RunCancel(a)
    && (e.Read? ==> forall i :: 0 <= i < |e.scripts| ==> Cancel(a) !in e.scripts[i])
  }

  lemma {:induction false} PerformedSpares(scripts: seq<Script>, n: nat, a: Addr)
    requires forall i :: 0 <= i < |scripts| ==> Cancel(a) !in scripts[i]
    ensures Cancel(a) !in Performed(scripts, n)
    decreases n
  {
    if n == 0 || scripts == [] {
    } else {
      PerformedSpares(scripts[1..], n - 1, a);
    }
  }

  /** The life of a timer nobody cancels, told from the times of the reads alone. */
  function Life(f: Fate, es: seq<Event>): Fate
    decreases |es|
  {
    if es == [] then f
    else Life(if Rings(f, es[0]) then ResetFate(f, f.timer, es[0].now) else f, es[1..])
  }

  function RingsIn(f: Fate, es: seq<Event>): nat
    decreases |es|
  {
    if es == [] then 0
    else (if Rings(f, es[0]) then 1 else 0)
         + RingsIn(if Rings(f, es[0]) then ResetFate(f, f.timer, es[0].now) else f, es[1..])
  }

  lemma SparedStep(q: Queue, e: Event, a: Addr)
    requires Good(q) && Possible(q, e) && Spares(e, a)
    requires FateOf(q, a).Alive? || FateOf(q, a) == Spent
    ensures var f := FateOf(q, a);
            FateOf(Happen(q, e), a) == if Rings(f, e) then ResetFate(f, f.timer, e.now) else f
  {
    EventDecidesFate(q, e, a);
    if e.Read? {
      var acts := Performed(e.scripts, |Expire(q, e.now).batch|);
      PerformedSpares(e.scripts, |Expire(q, e.now).batch|, a);
      SpentForGood(acts, a);
      if FateOf(q, a).Alive? {
        AliveUntilCancelled(FateOf(q, a).timer, acts, a);
      }
    }
  }

  /** Over every run that does not cancel it, a timer of the set is at every time what the reads alone make
      of it, and its callback has run exactly as often as a read found it due. */
  lemma {:induction false} TimerLives(q: Queue, es: seq<Event>, a: Addr)
    requires Good(q) && AllPossible(q, es)
    requires FateOf(q, a).Alive? || FateOf(q, a) == Spent
    requires forall i :: 0 <= i < |es| ==> Spares(es[i], a)
    ensures FateOf(HappenAll(q, es), a) == Life(FateOf(q, a), es)
    ensures Times(HappenAll(q, es).ran, a) == Times(q.ran, a) + RingsIn(FateOf(q, a), es)
    decreases |es|
  {
    if es == [] {
    } else {
      EventKeepsGood(q, es[0]);
      EventDecidesFate(q, es[0], a);
      SparedStep(q, es[0], a);
      TimerLives(Happen(q, es[0]), es[1..], a);
    }
  }

  /** In particular a repeating timer stays in the set with its interval, repeating. */
  lemma {:induction false} RepeaterKeepsOn(t: Timer, es: seq<Event>)
    requires t.repeat
    ensures var f := Life(Alive(t), es);
            f.Alive? && f.timer.repeat && f.timer.interval == t.interval && RestartedFrom(f.timer, t, es)
    decreases |es|
  {
    if es == [] {
    } else {
      RepeaterKeepsOn(if Rings(Alive(t), es[0]) then RestartedAt(t, es[0].now) else t, es[1..]);
    }
  }

  /** It is due one interval after some read of the run, unless no read found it due. */
  ghost predicate RestartedFrom(now: Timer, was: Timer, es: seq<Event>) {
    now == was || exists i :: 0 <= i < |es| && es[i].Read? && now.expiration == es[i].now + was.interval
  }

  /** A one-shot runs once, at the first read that finds it due, and is gone then. */
  lemma {:induction false} OneShotRingsOnce(t: Timer, es: seq<Event>)
    requires !t.repeat
    ensures var due := exists i :: 0 <= i < |es| && Rings(Alive(t), es[i]);
            && RingsIn(Alive(t), es) == (if due then 1 else 0)
            && Life(Alive(t), es) == (if due then Spent else Alive(t))
    decreases |es|
  {
    if es == [] {
    } else {
      assert forall i :: 1 <= i < |es| ==> es[i] == es[1..][i - 1];
      if Rings(Alive(t), es[0]) {
        SpentIsSilent(es[1..]);
      } else {
        OneShotRingsOnce(t, es[1..]);
      }
    }
  }

  lemma {:induction false} SpentIsSilent(es: seq<Event>)
    ensures RingsIn(Spent, es) == 0 && Life(Spent, es) == Spent
    decreases |es|
  {
    if es == [] {
    } else {
      SpentIsSilent(es[1..]);
    }
  }
}
