/** The connector: connect, wait for the socket to become writable, retry with a growing delay. */
module Connecting {
  import opened Wrappers

  datatype State = Disconnected | Connecting | Connected

  const INIT_RETRY_DELAY_MS: nat := 500
  const MAX_RETRY_DELAY_MS: nat := 30000

  /** Sockets are named by the order of their creation; descriptors are reused, sockets are not. */
  type Socket = nat

  /** How connect(2) ends: at once, pending (EINPROGRESS or EINTR), or with another error. */
  datatype Outcome = Immediate | InProgress | Refused

  datatype Attempt = Attempt(
    state: State,
    connect: bool,
    channel: Option<Socket>,
    registered: set<Socket>,   // sockets whose channel the poller has a pointer to
    retryDelayMs: nat,
    timers: seq<nat>,          // delays of the retry timers that have not fired
    resets: nat,               // resetChannel functors that have not run
    created: nat,              // sockets created so far
    closed: seq<Socket>,
    handed: seq<Socket>,       // passed to the new-connection callback
    failures: nat)             // failed attempts since the delay was last reset

  const NEW_CONNECTOR := Attempt(Disconnected, false, None, {}, INIT_RETRY_DELAY_MS, [], 0, 0, [], [], 0)

  function Doubled(delay: nat): nat {
    if 2 * delay > MAX_RETRY_DELAY_MS then MAX_RETRY_DELAY_MS else 2 * delay
  }

  function Retried(s: Attempt): Attempt {
    if s.connect
    then s.(state := Disconnected, timers := s.timers + [s.retryDelayMs],
            retryDelayMs := Doubled(s.retryDelayMs), failures := s.failures + 1)
    else s.(state := Disconnected)
  }

  function Begun(s: Attempt, socket: Socket): Attempt {
    s.(state := Connecting, channel := Some(socket), registered := s.registered + {socket})
  }

  function Failed(s: Attempt, socket: Socket): Attempt {
    var c := s.(closed := s.closed + [socket]);
    if s.connect then Retried(c) else c
  }

  /** The set without the socket of the channel, if there is one. */
  function Unwatched(registered: set<Socket>, channel: Option<Socket>): set<Socket> {
    if channel.Some? then registered - {channel.value} else registered
  }

  /** A channel that is left over is taken out of the poller and destroyed first. */
  function Cleared(s: Attempt): Attempt {
    s.(channel := None, registered := Unwatched(s.registered, s.channel))
  }

  function Connect(s: Attempt, outcome: Outcome): Attempt {
    var socket := s.created;
    var s1 := Cleared(s).(created := s.created + 1);
    match outcome
    case Immediate => Begun(s1.(retryDelayMs := INIT_RETRY_DELAY_MS, failures := 0), socket)
    case InProgress => Begun(s1, socket)
    case Refused => Failed(s1, socket)
  }

  function StartedInLoop(s: Attempt, outcome: Outcome): Attempt {
    if s.state == Disconnected && s.connect then Connect(s, outcome) else s
  }

  /** The channel leaves the poller; the object lives on until the queued functor runs. */
  function Detached(s: Attempt): Attempt {
    s.(registered := Unwatched(s.registered, s.channel), resets := s.resets + 1)
  }

  function WriteHandled(s: Attempt, soError: bool, hasCallback: bool): Attempt
    requires s.state == Connecting ==> s.channel.Some?
  {
    if s.state != Connecting then s else
    var socket := s.channel.value;
    var s1 := Detached(s);
    if soError then Failed(s1, socket) else
    var s2 := s1.(state := Connected, retryDelayMs := INIT_RETRY_DELAY_MS, failures := 0);
    if s.connect && hasCallback then s2.(handed := s2.handed + [socket])
    else s2.(closed := s2.closed + [socket])
  }

  function ErrorHandled(s: Attempt): Attempt
    requires s.state == Connecting ==> s.channel.Some?
  {
    if s.state != Connecting then s else Failed(Detached(s), s.channel.value)
  }

  /** One dispatch of the channel: the error callback, then the write callback. */
  function Dispatched(s: Attempt, err: bool, out: bool, soError: bool, hasCallback: bool): Attempt
    requires s.state == Connecting ==> s.channel.Some?
  {
    var s1 := if err then ErrorHandled(s) else s;
    if out then WriteHandled(s1, soError, hasCallback) else s1
  }

  function Afresh(s: Attempt): Attempt {
    s.(state := Disconnected, retryDelayMs := INIT_RETRY_DELAY_MS, failures := 0, connect := true)
  }

  function Restarted(s: Attempt, outcome: Outcome): Attempt {
    StartedInLoop(Afresh(s), outcome)
  }

  class Connector {
    const hasCallback: bool
    var state: State
    var connect: bool
    var channel: Option<Socket>
    var registered: set<Socket>
    var retryDelayMs: nat
    ghost var timers: seq<nat>
    ghost var resets: nat
    var created: nat
    ghost var closed: seq<Socket>
    ghost var handed: seq<Socket>
    ghost var failures: nat

    ghost function View(): Attempt
      reads this
    {
      Attempt(state, connect, channel, registered, retryDelayMs, timers, resets, created, closed, handed, failures)
    }

    constructor (hasCallback: bool)
      ensures View() == NEW_CONNECTOR && this.hasCallback == hasCallback
    {
      this.hasCallback := hasCallback;
      state, connect, channel, registered := Disconnected, false, None, {};
      retryDelayMs, created := INIT_RETRY_DELAY_MS, 0;
      timers, resets, closed, handed, failures := [], 0, [], [], 0;
    }

    method Start(outcome: Outcome)
      modifies this
      ensures View() == StartedInLoop(old(View()).(connect := true), outcome)
    {
      connect := true;
      StartInLoop(outcome);
    }

    method Restart(outcome: Outcome)
      modifies this
      ensures View() == Restarted(old(View()), outcome)
    {
      state := Disconnected;
      retryDelayMs := INIT_RETRY_DELAY_MS;
      failures := 0;
      connect := true;
      StartInLoop(outcome);
    }

    method StartInLoop(outcome: Outcome)
      modifies this
      ensures View() == StartedInLoop(old(View()), outcome)
    {
      if state != Disconnected {
        return;
      }
      if connect {
        DoConnect(outcome);
      }
    }

    method DoConnect(outcome: Outcome)
      modifies this
      ensures View() == Connect(old(View()), outcome)
      ensures created == old(created) + 1 && channel == (if outcome.Refused? then None else Some(old(created)))
      ensures registered == old(Unwatched(registered, channel)) + (if outcome.Refused? then {} else {old(created)})
    {
      if channel.Some? {
        registered := registered - {channel.value};
        channel := None;
      }
      var sockfd := created;
      created := created + 1;
      if outcome.Immediate? {
        retryDelayMs := INIT_RETRY_DELAY_MS;
        failures := 0;
        Begin(sockfd);
      } else if outcome.InProgress? {
        Begin(sockfd);
      } else {
        closed := closed + [sockfd];
        if connect {
          Retry();
        }
      }
    }

    method Begin(sockfd: Socket)
      requires channel.None?
      modifies this`state, this`channel, this`registered
      ensures View() == Begun(old(View()), sockfd)
    {
      state := Connecting;
      channel := Some(sockfd);
      registered := registered + {sockfd};
    }

    method HandleWrite(soError: bool)
      requires state == Connecting ==> channel.Some?
      modifies this
      ensures View() == WriteHandled(old(View()), soError, hasCallback)
      ensures old(state) == Connecting && !soError ==>
                state == Connected && timers == old(timers)
                && (if connect && hasCallback
                    then handed == old(handed + [channel.value]) && closed == old(closed)
                    else closed == old(closed + [channel.value]) && handed == old(handed))
    {
      if state == Connecting {
        var sockfd := RemoveAndResetChannel();
        if !soError {
          state := Connected;
          retryDelayMs := INIT_RETRY_DELAY_MS;
          failures := 0;
          if connect {
            if hasCallback {
              handed := handed + [sockfd];
            } else {
              closed := closed + [sockfd];
            }
          } else {
            closed := closed + [sockfd];
          }
        } else {
          closed := closed + [sockfd];
          if connect {
            Retry();
          }
        }
      }
    }

    method HandleError()
      requires state == Connecting ==> channel.Some?
      modifies this
      ensures View() == ErrorHandled(old(View()))
    {
      if state == Connecting {
        var sockfd := RemoveAndResetChannel();
        closed := closed + [sockfd];
        if connect {
          Retry();
        }
      }
    }

    method Retry()
      modifies this`state, this`timers, this`retryDelayMs, this`failures
      ensures View() == Retried(old(View()))
      ensures state == Disconnected
      ensures connect ==> timers == old(timers + [retryDelayMs]) && retryDelayMs == Doubled(old(retryDelayMs))
      ensures !connect ==> timers == old(timers) && retryDelayMs == old(retryDelayMs)
    {
      state := Disconnected;
      if connect {
        timers := timers + [retryDelayMs];
        failures := failures + 1;
        retryDelayMs := retryDelayMs * 2;
        if retryDelayMs > MAX_RETRY_DELAY_MS {
          retryDelayMs := MAX_RETRY_DELAY_MS;
        }
      }
    }

    method RemoveAndResetChannel() returns (sockfd: Socket)
      requires channel.Some?
      modifies this`registered, this`resets
      ensures View() == Detached(old(View())) && sockfd == channel.value
    {
      sockfd := channel.value;
      registered := registered - {sockfd};
      resets := resets + 1;
    }

    /** The queued functor. */
    method ResetChannel()
      requires resets > 0
      modifies this`channel, this`resets
      ensures View() == ChannelReset(old(View()))
    {
      resets := resets - 1;
      channel := None;
    }
  }

  /** Destroys the channel object. What the poller knows of it stays. */
  function ChannelReset(s: Attempt): Attempt
    requires s.resets > 0
  {
    s.(resets := s.resets - 1, channel := None)
  }

  // ---------------------------------------------------------------------------
  // Runs

  datatype Event =
    | Ready(err: bool, out: bool, soError: bool)   // the poller reports the channel
    | TimerFires(outcome: Outcome)                 // a retry timer runs startInLoop
    | ResetRuns
    | RestartCalled(outcome: Outcome)

  /** What can happen after start(). A new connect waits for the deferred reset of the last one. */
  predicate Enabled(s: Attempt, e: Event) {
    match e
    case Ready(_, _, _) => s.channel.Some? && s.channel.value in s.registered
    case TimerFires(_) => s.timers != [] && s.resets == 0
    case ResetRuns => s.resets > 0
    case RestartCalled(_) => s.state == Connected && s.resets == 0
  }

  function Happen(s: Attempt, e: Event, hasCallback: bool): Attempt
    requires Enabled(s, e)
  {
    match e
    case Ready(err, out, soError) => Dispatched(s, err, out, soError, hasCallback)
    case TimerFires(outcome) => StartedInLoop(s.(timers := s.timers[1..]), outcome)
    case ResetRuns => ChannelReset(s)
    case RestartCalled(outcome) => Restarted(s, outcome)
  }

  predicate AllEnabled(s: Attempt, es: seq<Event>, hasCallback: bool)
    decreases |es|
  {
    es == [] || (Enabled(s, es[0]) && AllEnabled(Happen(s, es[0], hasCallback), es[1..], hasCallback))
  }

  function HappenAll(s: Attempt, es: seq<Event>, hasCallback: bool): Attempt
    requires AllEnabled(s, es, hasCallback)
    decreases |es|
  {
    if es == [] then s else HappenAll(Happen(s, es[0], hasCallback), es[1..], hasCallback)
  }

  /** min(500 * 2^k, 30000), the delay after k failures. */
  function Power2(k: nat): nat {
    if k == 0 then 1 else 2 * Power2(k - 1)
  }

  function Backoff(k: nat): nat {
    if INIT_RETRY_DELAY_MS * Power2(k) < MAX_RETRY_DELAY_MS then INIT_RETRY_DELAY_MS * Power2(k) else MAX_RETRY_DELAY_MS
  }

  /** The doubling with a cap that the code does is the closed form. */
  lemma BackoffDoubles(k: nat)
    ensures Doubled(Backoff(k)) == Backoff(k + 1)
  {
    assert Power2(k + 1) == 2 * Power2(k);
  }

  function Count(ss: seq<Socket>, x: Socket): nat {
    if ss == [] then 0 else (if ss[|ss| - 1] == x then 1 else 0) + Count(ss[..|ss| - 1], x)
  }

  predicate InFlight(s: Attempt) {
    s.state == Connecting && s.channel.Some? && s.registered == {s.channel.value}
  }

  predicate WaitingToRetry(s: Attempt) { s.state == Disconnected && |s.timers| == 1 && s.registered == {} }

  predicate HandedOver(s: Attempt) { s.state == Connected && s.registered == {} }

  /** The poller has a pointer to a channel that was destroyed. */
  ghost predicate Dangling(s: Attempt) {
    exists x :: x in s.registered && s.channel != Some(x)
  }

  /** Where each socket is: in flight, closed, or handed over, and never twice. */
  ghost predicate SocketsAccounted(s: Attempt) {
    forall x: Socket ::
      (if InFlight(s) && s.channel == Some(x) then 1 else 0) + Count(s.closed, x) + Count(s.handed, x)
      == (if x < s.created then 1 else 0)
  }

  ghost predicate Good(s: Attempt) {
    && s.connect
    && ((InFlight(s) && s.timers == []) || WaitingToRetry(s) || (HandedOver(s) && s.timers == []))
    && (s.resets == 0 || (s.resets == 1 && s.registered == {}))
    && (s.channel.Some? ==> InFlight(s) || s.resets == 1)
    && s.retryDelayMs == Backoff(s.failures)
    && (WaitingToRetry(s) ==> s.failures > 0 && s.timers == [Backoff(s.failures - 1)])
    && SocketsAccounted(s)
  }

  lemma CountGrows(ss: seq<Socket>, y: Socket, x: Socket)
    ensures Count(ss + [y], x) == Count(ss, x) + (if x == y then 1 else 0)
  {
    assert (ss + [y])[..|ss|] == ss;
  }

  /** An idle connector, about to connect. */
  ghost predicate Idle(s: Attempt) {
    && s.connect && s.state == Disconnected && s.timers == [] && s.registered == {} && s.resets == 0
    && s.retryDelayMs == Backoff(s.failures) && SocketsAccounted(s)
  }

  lemma FailureIsGood(s: Attempt, socket: Socket)
    requires s.connect && s.timers == [] && s.registered == {} && s.resets <= 1
    requires s.channel.Some? ==> s.resets == 1
    requires s.retryDelayMs == Backoff(s.failures)
    requires forall x: Socket :: (if x == socket then 1 else 0) + Count(s.closed, x) + Count(s.handed, x)
                         == (if x < s.created then 1 else 0)
    ensures Good(Failed(s, socket))
  {
    BackoffDoubles(s.failures);
    forall x: Socket ensures Count(s.closed + [socket], x) == Count(s.closed, x) + (if x == socket then 1 else 0) {
      CountGrows(s.closed, socket, x);
    }
  }

  lemma ConnectIsGood(s: Attempt, outcome: Outcome)
    requires Idle(s)
    ensures Good(Connect(s, outcome))
  {
    var socket := s.created;
    var s1 := Cleared(s).(created := s.created + 1);
    assert forall x: Socket :: Count(s.closed, x) + Count(s.handed, x) == (if x < s.created then 1 else 0);
    if outcome.Refused? {
      FailureIsGood(s1, socket);
    }
    assert Backoff(0) == INIT_RETRY_DELAY_MS by { assert Power2(0) == 1; }
  }

  /** The socket in flight is closed or handed over, and that is all. */
  lemma SocketsMove(s: Attempt, d: Attempt, socket: Socket)
    requires SocketsAccounted(s) && InFlight(s) && s.channel == Some(socket)
    requires d.created == s.created && !InFlight(d)
    requires (d.closed == s.closed + [socket] && d.handed == s.handed)
             || (d.closed == s.closed && d.handed == s.handed + [socket])
    ensures SocketsAccounted(d)
  {
    forall x: Socket ensures Count(d.closed, x) + Count(d.handed, x) == (if x < d.created then 1 else 0) {
      CountGrows(s.closed, socket, x);
      CountGrows(s.handed, socket, x);
      assert (if InFlight(s) && s.channel == Some(x) then 1 else 0) + Count(s.closed, x) + Count(s.handed, x)
          == (if x < s.created then 1 else 0);
    }
  }

  lemma SuccessIsGood(s: Attempt, hasCallback: bool)
    requires Good(s) && InFlight(s)
    ensures Good(WriteHandled(s, false, hasCallback))
  {
    var socket := s.channel.value;
    var d := WriteHandled(s, false, hasCallback);
    assert Backoff(0) == INIT_RETRY_DELAY_MS by { assert Power2(0) == 1; }
    assert d.registered == {} && d.state == Connected;
    SocketsMove(s, d, socket);
  }

  lemma AttemptFailureIsGood(s: Attempt)
    requires Good(s) && InFlight(s)
    ensures Good(Failed(Detached(s), s.channel.value))
  {
    FailureIsGood(Detached(s), s.channel.value);
  }

  /** From the start on there is always exactly one of: an attempt in flight, a pending retry timer, a
      connection that was made. */
  lemma EventKeepsGood(s: Attempt, e: Event, hasCallback: bool)
    requires Good(s) && Enabled(s, e)
    ensures Good(Happen(s, e, hasCallback))
  {
    match e {
      case Ready(err, out, soError) =>
        if err || (out && soError) {
          AttemptFailureIsGood(s);
        } else if out {
          SuccessIsGood(s, hasCallback);
        }
      case TimerFires(outcome) =>
        ConnectIsGood(s.(timers := s.timers[1..]), outcome);
      case ResetRuns =>
        var t := ChannelReset(s);
        assert !InFlight(s) && !InFlight(t) && t.closed == s.closed && t.handed == s.handed;
      case RestartCalled(outcome) =>
        assert Backoff(0) == INIT_RETRY_DELAY_MS by { assert Power2(0) == 1; }
        ConnectIsGood(Afresh(s), outcome);
    }
  }

  lemma {:induction false} RunKeepsGood(s: Attempt, es: seq<Event>, hasCallback: bool)
    requires Good(s) && AllEnabled(s, es, hasCallback)
    ensures Good(HappenAll(s, es, hasCallback))
    decreases |es|
  {
    if es == [] {
    } else {
      EventKeepsGood(s, es[0], hasCallback);
      RunKeepsGood(Happen(s, es[0], hasCallback), es[1..], hasCallback);
    }
  }

  /** The deferred reset only ever destroys a channel that has left the poller, and none dangles. */
  lemma ResetsAreSafe(s: Attempt)
    requires Good(s)
    ensures !Dangling(s)
    ensures s.resets > 0 ==> !Dangling(ChannelReset(s)) && (s.channel.Some? ==> s.channel.value !in s.registered)
  {
  }

  /** Over every run after one start(): the three-way alternative, every socket accounted for once, and
      the capped exponential delay. */
  lemma EveryRunIsGood(first: Outcome, es: seq<Event>, hasCallback: bool)
    requires AllEnabled(StartedInLoop(NEW_CONNECTOR.(connect := true), first), es, hasCallback)
    ensures var s := HappenAll(StartedInLoop(NEW_CONNECTOR.(connect := true), first), es, hasCallback);
            && (if InFlight(s) then 1 else 0) + |s.timers| + (if s.state == Connected then 1 else 0) == 1
            && SocketsAccounted(s)
            && s.retryDelayMs == Backoff(s.failures)
            && (s.timers != [] ==> s.failures > 0 && s.timers[0] == Backoff(s.failures - 1))
            && !Dangling(s)
  {
    var s0 := NEW_CONNECTOR.(connect := true);
    assert Backoff(0) == INIT_RETRY_DELAY_MS by { assert Power2(0) == 1; }
    assert Idle(s0);
    ConnectIsGood(s0, first);
    RunKeepsGood(StartedInLoop(s0, first), es, hasCallback);
  }

  // ---------------------------------------------------------------------------
  // What became of each socket, told from the events alone

  /** next: the socket of the next attempt; flying: the last one is in flight; won, lost: the sockets whose
      attempt succeeded, or failed, and ended: both, in the order they ended; streak: failures since the last
      success, immediate connect or restart. */
  datatype Ledger = Ledger(next: Socket, flying: bool, won: seq<Socket>, lost: seq<Socket>, ended: seq<Socket>,
                           streak: nat)

  const NEW_LEDGER := Ledger(0, false, [], [], [], 0)

  function AttemptTold(g: Ledger, outcome: Outcome): Ledger {
    match outcome
    case Refused =>
      g.(next := g.next + 1, flying := false, lost := g.lost + [g.next], ended := g.ended + [g.next],
         streak := g.streak + 1)
    case InProgress => g.(next := g.next + 1, flying := true)
    case Immediate => g.(next := g.next + 1, flying := true, streak := 0)
  }

  /** An attempt fails when its socket reports an error, or is writable with an error pending; it
      succeeds when its socket is writable and neither is the case. */
  function Told(g: Ledger, e: Event): Ledger {
    match e
    case Ready(err, out, soError) =>
      if !g.flying || g.next == 0 || !(err || out) then g
      else if err || soError then
        g.(flying := false, lost := g.lost + [g.next - 1], ended := g.ended + [g.next - 1], streak := g.streak + 1)
      else g.(flying := false, won := g.won + [g.next - 1], ended := g.ended + [g.next - 1], streak := 0)
    case TimerFires(outcome) => AttemptTold(g, outcome)
    case ResetRuns => g
    case RestartCalled(outcome) => AttemptTold(g.(streak := 0), outcome)
  }

  function AllTold(g: Ledger, es: seq<Event>): Ledger
    decreases |es|
  {
    if es == [] then g else AllTold(Told(g, es[0]), es[1..])
  }

  /** The connector did what the events told. */
  ghost predicate AsTold(s: Attempt, g: Ledger, hasCallback: bool) {
    && s.created == g.next && s.failures == g.streak
    && (g.flying <==> InFlight(s))
    && (g.flying ==> g.next > 0 && s.channel == Some(g.next - 1))
    && s.handed == (if hasCallback then g.won else [])
    && s.closed == (if hasCallback then g.lost else g.ended)
    && (s.state == Connected ==> g.won != [] && g.won[|g.won| - 1] + 1 == g.next)
  }

  lemma AttemptIsAsTold(s: Attempt, g: Ledger, outcome: Outcome, hasCallback: bool)
    requires Idle(s) && AsTold(s, g, hasCallback)
    ensures AsTold(Connect(s, outcome), AttemptTold(g, outcome), hasCallback)
  {
  }

  lemma EventIsAsTold(s: Attempt, g: Ledger, e: Event, hasCallback: bool)
    requires Good(s) && AsTold(s, g, hasCallback) && Enabled(s, e)
    ensures AsTold(Happen(s, e, hasCallback), Told(g, e), hasCallback)
  {
    match e {
      case TimerFires(outcome) => AttemptIsAsTold(s.(timers := s.timers[1..]), g, outcome, hasCallback);
      case RestartCalled(outcome) =>
        assert Backoff(0) == INIT_RETRY_DELAY_MS by { assert Power2(0) == 1; }
        AttemptIsAsTold(Afresh(s), g.(streak := 0), outcome, hasCallback);
      case _ =>
    }
  }

  lemma {:induction false} RunIsAsTold(s: Attempt, g: Ledger, es: seq<Event>, hasCallback: bool)
    requires Good(s) && AsTold(s, g, hasCallback) && AllEnabled(s, es, hasCallback)
    ensures AsTold(HappenAll(s, es, hasCallback), AllTold(g, es), hasCallback)
    decreases |es|
  {
    if es == [] {
    } else {
      EventKeepsGood(s, es[0], hasCallback);
      EventIsAsTold(s, g, es[0], hasCallback);
      RunIsAsTold(Happen(s, es[0], hasCallback), Told(g, es[0]), es[1..], hasCallback);
    }
  }

  /** Over every run: exactly the sockets that became writable without an error are handed over, exactly
      the others that ended are closed, each once and in order; without a callback all are closed.
      Connected means that the last socket created was handed over. The delay is that of the failures the
      events tell. */
  lemma SocketsGoAsTold(first: Outcome, es: seq<Event>, hasCallback: bool)
    requires AllEnabled(StartedInLoop(NEW_CONNECTOR.(connect := true), first), es, hasCallback)
    ensures var s := HappenAll(StartedInLoop(NEW_CONNECTOR.(connect := true), first), es, hasCallback);
            var g := AllTold(AttemptTold(NEW_LEDGER, first), es);
            && s.handed == (if hasCallback then g.won else [])
            && s.closed == (if hasCallback then g.lost else g.ended)
            && (s.state == Connected && hasCallback ==> s.handed != [] && s.handed[|s.handed| - 1] + 1 == s.created)
            && s.retryDelayMs == Backoff(g.streak)
            && (s.timers != [] ==> g.streak > 0 && s.timers == [Backoff(g.streak - 1)])
            && (s.state == Connecting <==> g.flying)
  {
    var s0 := NEW_CONNECTOR.(connect := true);
    assert Backoff(0) == INIT_RETRY_DELAY_MS by { assert Power2(0) == 1; }
    assert Idle(s0) && AsTold(s0, NEW_LEDGER, hasCallback);
    ConnectIsGood(s0, first);
    AttemptIsAsTold(s0, NEW_LEDGER, first, hasCallback);
    var s1, g1 := StartedInLoop(s0, first), AttemptTold(NEW_LEDGER, first);
    RunIsAsTold(s1, g1, es, hasCallback);
    RunKeepsGood(s1, es, hasCallback);
  }

  /** Why a new connect must wait for the deferred reset: a retry that runs before it has its channel
      destroyed under it, and the poller left with a dangling pointer, exactly when it got as far as
      having one. Nothing is left then that would go on. */
  lemma EarlyRetryLosesAttempt(s: Attempt, outcome: Outcome)
    requires Good(s) && WaitingToRetry(s) && s.resets == 1
    ensures var t := ChannelReset(StartedInLoop(s.(timers := s.timers[1..]), outcome));
            && (Dangling(t) <==> outcome != Refused)
            && (Dangling(t) <==> t.state == Connecting && t.channel.None? && t.timers == [])
  {
    var t := ChannelReset(StartedInLoop(s.(timers := s.timers[1..]), outcome));
    if outcome != Refused {
      assert s.created in t.registered;
    }
  }
}
