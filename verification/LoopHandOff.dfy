/** Handing work to a loop: the locked queue, the eventfd counter, and the loop's own phases. */
module LoopHandOff {

  /** A queued functor; running it on the loop thread queues further functors, in order. */
  datatype Functor = Functor(id: nat, queues: seq<Functor>)

  /** All functors that running fs queues. */
  function QueuedBy(fs: seq<Functor>): seq<Functor> {
    if fs == [] then [] else fs[0].queues + QueuedBy(fs[1..])
  }

  lemma {:induction false} QueuedByJoin(a: seq<Functor>, f: Functor)
    ensures QueuedBy(a + [f]) == QueuedBy(a) + f.queues
    decreases |a|
  {
    if a == [] {
      assert a + [f] == [f];
      assert QueuedBy([f]) == f.queues + QueuedBy([f][1..]);
    } else {
      assert (a + [f])[1..] == a[1..] + [f];
      QueuedByJoin(a[1..], f);
    }
  }

  class EventLoop {
    var pendingFunctors: seq<Functor>
    var callingPendingFunctors: bool
    var quit: bool
    var counter: nat
    ghost var executed: seq<Functor>

    constructor ()
      ensures pendingFunctors == [] && !callingPendingFunctors && !quit && counter == 0 && executed == []
    {
      pendingFunctors, callingPendingFunctors, quit, counter, executed := [], false, false, 0, [];
    }

    /** The write to the eventfd. */
    method Wakeup()
      modifies this`counter
      ensures counter == old(counter) + 1
    {
      counter := counter + 1;
    }

    /** The read of the eventfd: the whole counter at once. */
    method HandleRead()
      modifies this`counter
      ensures counter == 0
    {
      counter := 0;
    }

    /** Asks the loop to end, and wakes it if it may be blocked. */
    method Quit(inLoopThread: bool)
      modifies this`quit, this`counter
      ensures quit && counter == old(counter) + (if inLoopThread then 0 else 1)
    {
      quit := true;
      if !inLoopThread {
        Wakeup();
      }
    }

    method QueueInLoop(cb: Functor, inLoopThread: bool)
      modifies this`pendingFunctors, this`counter
      ensures pendingFunctors == old(pendingFunctors) + [cb]
      ensures counter == old(counter) + (if !inLoopThread || callingPendingFunctors then 1 else 0)
    {
      pendingFunctors := pendingFunctors + [cb];
      if !inLoopThread || callingPendingFunctors {
        Wakeup();
      }
    }

    method RunInLoop(cb: Functor, inLoopThread: bool)
      modifies this`pendingFunctors, this`counter, this`executed
      ensures !inLoopThread ==> pendingFunctors == old(pendingFunctors) + [cb] && executed == old(executed)
                                && counter == old(counter) + 1
      ensures inLoopThread ==> executed == old(executed) + [cb] && pendingFunctors == old(pendingFunctors) + cb.queues
                               && counter == old(counter) + (if callingPendingFunctors then |cb.queues| else 0)
    {
      if inLoopThread {
        Run(cb);
      } else {
        QueueInLoop(cb, false);
      }
    }

    /** Runs one functor on the loop thread. */
    method Run(f: Functor)
      modifies this`pendingFunctors, this`counter, this`executed
      ensures executed == old(executed) + [f]
      ensures pendingFunctors == old(pendingFunctors) + f.queues
      ensures counter == old(counter) + (if callingPendingFunctors then |f.queues| else 0)
    {
      executed := executed + [f];
      for i := 0 to |f.queues|
        invariant executed == old(executed) + [f]
        invariant pendingFunctors == old(pendingFunctors) + f.queues[..i]
        invariant counter == old(counter) + (if callingPendingFunctors then i else 0)
      {
        QueueInLoop(f.queues[i], true);
        assert f.queues[..i + 1] == f.queues[..i] + [f.queues[i]];
      }
    }

    /** One pass: exactly the functors that were pending when it began, each once, in order; what
        they queue waits for the next pass and has woken the loop for it. */
    method DoPendingFunctors()
      modifies this`pendingFunctors, this`counter, this`executed, this`callingPendingFunctors
      ensures executed == old(executed) + old(pendingFunctors)
      ensures pendingFunctors == QueuedBy(old(pendingFunctors))
      ensures counter == old(counter) + |pendingFunctors|
      ensures !callingPendingFunctors
    {
      var functors := pendingFunctors;
      callingPendingFunctors := true;
      pendingFunctors := [];
      for i := 0 to |functors|
        invariant callingPendingFunctors
        invariant executed == old(executed) + functors[..i]
        invariant pendingFunctors == QueuedBy(functors[..i])
        invariant counter == old(counter) + |pendingFunctors|
      {
        Run(functors[i]);
        assert functors[..i + 1] == functors[..i] + [functors[i]];
        QueuedByJoin(functors[..i], functors[i]);
      }
      assert functors[..|functors|] == functors;
      callingPendingFunctors := false;
    }
  }

  // ---------------------------------------------------------------------------
  // The protocol between any number of producer threads and the loop thread

  /** Where the loop thread is. Dispatching(true) still has the wakeup channel in its batch. */
  datatype LoopPc = AtHead | Polling | Dispatching(wake: bool) | AboutToSwap | Running(rest: seq<Functor>) | Exited

  /** Another thread between its locked update and its wakeup. */
  datatype ProducerPc = Pushed | QuitSet

  datatype Loop = Loop(
    pc: LoopPc,
    pending: seq<Functor>,
    counter: nat,
    quit: bool,
    owing: bool,                       // the loop thread is between its own push and its wakeup
    producers: map<nat, ProducerPc>,
    queued: seq<Functor>,              // everything pushed, in lock order
    executed: seq<Functor>,
    swapped: seq<Functor>,             // `queued` at the last swap
    swaps: nat)

  datatype Action =
    | Push(thread: nat, f: Functor)
    | SetQuit(thread: nat)
    | Wake(thread: nat)
    | TestQuit
    | PollReturns(wake: bool)
    | ReadEvent
    | LoopPush(f: Functor)
    | LoopWake
    | LoopQuit
    | EndDispatch
    | Swap
    | RunNext
    | EndPass

  /** When an action can happen. The kernel's part: poll reports the wakeup channel only when its
      counter is positive, and may return at any time for other reasons. */
  predicate Enabled(s: Loop, a: Action) {
    match a
    case Push(t, _) => t !in s.producers
    case SetQuit(t) => t !in s.producers
    case Wake(t) => t in s.producers
    case TestQuit => s.pc == AtHead
    case PollReturns(wake) => s.pc == Polling && (wake ==> s.counter > 0)
    case ReadEvent => s.pc == Dispatching(true)
    case LoopPush(_) => !s.owing && (s.pc.Dispatching? || s.pc.Running?)
    case LoopWake => s.owing
    case LoopQuit => !s.owing && (s.pc.Dispatching? || s.pc.Running?)
    case EndDispatch => s.pc == Dispatching(false)
    case Swap => s.pc == AboutToSwap
    case RunNext => s.pc.Running? && s.pc.rest != [] && !s.owing
    case EndPass => s.pc == Running([]) && !s.owing
  }

  function Next(s: Loop, a: Action): Loop
    requires Enabled(s, a)
  {
    match a
    case Push(t, f) =>
      s.(pending := s.pending + [f], queued := s.queued + [f], producers := s.producers[t := Pushed])
    case SetQuit(t) => s.(quit := true, producers := s.producers[t := QuitSet])
    case Wake(t) => s.(counter := s.counter + 1, producers := s.producers - {t})
    case TestQuit => s.(pc := if s.quit then Exited else Polling)
    case PollReturns(wake) => s.(pc := Dispatching(wake))
    case ReadEvent => s.(counter := 0, pc := Dispatching(false))
    case LoopPush(f) =>
      s.(pending := s.pending + [f], queued := s.queued + [f], owing := s.pc.Running?)
    case LoopWake => s.(counter := s.counter + 1, owing := false)
    case LoopQuit => s.(quit := true)
    case EndDispatch => s.(pc := AboutToSwap)
    case Swap => s.(pc := Running(s.pending), pending := [], swapped := s.queued, swaps := s.swaps + 1)
    case RunNext => s.(pc := Running(s.pc.rest[1..]), executed := s.executed + [s.pc.rest[0]])
    case EndPass => s.(pc := AtHead)
  }

  function Rest(s: Loop): seq<Functor> {
    if s.pc.Running? then s.pc.rest else []
  }

  ghost predicate Pusher(s: Loop, p: ProducerPc) {
    exists t :: t in s.producers && s.producers[t] == p
  }

  /** Someone will make the eventfd readable, or it already is. */
  ghost predicate WakeComing(s: Loop) {
    s.counter > 0 || s.owing || Pusher(s, Pushed)
  }

  /** First in, first out, exactly once: nothing queued is lost, repeated or reordered. */
  ghost predicate Fifo(s: Loop) {
    && s.queued == s.executed + Rest(s) + s.pending
    && s.swapped == s.executed + Rest(s)
  }

  /** No wakeup is lost while the loop may be blocked, or is on its way to block. */
  ghost predicate Awake(s: Loop) {
    && (s.pc.AtHead? || s.pc.Polling? || s.pc.Running? ==> (s.pending != [] ==> WakeComing(s)))
    && (s.pc.Polling? && s.quit ==> s.counter > 0 || Pusher(s, QuitSet))
    && (s.owing ==> s.pc.Running?)
  }

  /** The loop as loop() finds it; other threads may have queued already. */
  ghost predicate Entering(s: Loop) {
    s.pc == AtHead && !s.quit && !s.owing && Fifo(s)
  }

  lemma ProducerMoves(s: Loop, t: nat, p: ProducerPc)
    ensures Pusher(s.(producers := s.producers[t := p]), p)
    ensures t !in s.producers ==> forall q :: Pusher(s, q) ==> Pusher(s.(producers := s.producers[t := p]), q)
  {
    var s' := s.(producers := s.producers[t := p]);
    assert t in s'.producers && s'.producers[t] == p;
    if t !in s.producers {
      forall q | Pusher(s, q) ensures Pusher(s', q) {
        var u :| u in s.producers && s.producers[u] == q;
        assert u in s'.producers && s'.producers[u] == q;
      }
    }
  }

  lemma StepKeepsFifo(s: Loop, a: Action)
    requires Enabled(s, a) && Fifo(s)
    ensures Fifo(Next(s, a))
    ensures s.queued <= Next(s, a).queued && s.executed <= Next(s, a).executed
  {
  }

  lemma StepKeepsAwake(s: Loop, a: Action)
    requires Enabled(s, a) && Awake(s)
    ensures Awake(Next(s, a))
  {
    match a {
      case Push(t, f) => ProducerMoves(s, t, Pushed);
      case SetQuit(t) => ProducerMoves(s, t, QuitSet);
      case _ =>
    }
  }

  function Play(s: Loop, acts: seq<Action>): Loop
    requires Playable(s, acts)
    decreases |acts|
  {
    if acts == [] then s else Play(Next(s, acts[0]), acts[1..])
  }

  predicate Playable(s: Loop, acts: seq<Action>)
    decreases |acts|
  {
    acts == [] || (Enabled(s, acts[0]) && Playable(Next(s, acts[0]), acts[1..]))
  }

  lemma {:induction false} RunKeeps(s: Loop, acts: seq<Action>)
    requires Playable(s, acts) && Fifo(s)
    ensures Fifo(Play(s, acts))
    ensures Awake(s) ==> Awake(Play(s, acts))
    decreases |acts|
  {
    if acts == [] {
    } else {
      StepKeepsFifo(s, acts[0]);
      if Awake(s) {
        StepKeepsAwake(s, acts[0]);
      }
      RunKeeps(Next(s, acts[0]), acts[1..]);
    }
  }

  /** A blocked loop is woken: with work pending or a quit requested, poll has something to report
      as soon as no other thread is between its update and its wakeup. */
  ghost predicate NeverStuck(s: Loop) {
    s.pc.Polling? && (s.pending != [] || s.quit) && s.producers == map[] ==> s.counter > 0
  }

  /** No lost wakeup, exactly: every run from loop() on keeps the loop wakeable if and only if nothing
      was queued before loop() without a wakeup of its own. */
  lemma NoLostWakeup(s: Loop)
    requires Entering(s)
    ensures (forall acts :: Playable(s, acts) ==> Awake(Play(s, acts))) <==> (s.pending != [] ==> WakeComing(s))
    ensures (s.pending != [] ==> WakeComing(s)) ==>
              forall acts :: Playable(s, acts) ==> NeverStuck(Play(s, acts))
  {
    if s.pending != [] ==> WakeComing(s) {
      forall acts | Playable(s, acts)
        ensures Awake(Play(s, acts)) && NeverStuck(Play(s, acts))
      {
        RunKeeps(s, acts);
      }
    } else {
      var none: seq<Action> := [];
      assert Playable(s, none) && !Awake(Play(s, none));
    }
  }

  /** What keeps poll from being stuck: some thread will wake the loop, or its counter is positive. */
  ghost predicate Coming(s: Loop) {
    s.counter > 0 || s.owing || s.producers != map[]
  }

  ghost predicate NotForgotten(s: Loop) {
    && (s.pc.AtHead? || s.pc.Polling? || s.pc.Running? ==> (s.pending != [] ==> Coming(s)))
    && (s.pc.Polling? && s.quit ==> Coming(s))
    && (s.owing ==> s.pc.Running?)
  }

  lemma StepKeepsNotForgotten(s: Loop, a: Action)
    requires Enabled(s, a) && NotForgotten(s)
    ensures NotForgotten(Next(s, a))
  {
    match a {
      case Push(t, _) => assert t in Next(s, a).producers;
      case SetQuit(t) => assert t in Next(s, a).producers;
      case _ =>
    }
  }

  lemma {:induction false} RunKeepsNotForgotten(s: Loop, acts: seq<Action>)
    requires Playable(s, acts) && NotForgotten(s)
    ensures NotForgotten(Play(s, acts))
    decreases |acts|
  {
    if acts == [] {
    } else {
      StepKeepsNotForgotten(s, acts[0]);
      RunKeepsNotForgotten(Next(s, acts[0]), acts[1..]);
    }
  }

  /** A run from loop() on can end in a stuck poll if and only if something is queued already while the
      counter is zero and no other thread is about to wake the loop. */
  lemma StuckPollExactly(s: Loop)
    requires Entering(s)
    ensures (exists acts :: Playable(s, acts) && !NeverStuck(Play(s, acts)))
            <==> s.pending != [] && s.counter == 0 && s.producers == map[]
  {
    if s.pending != [] && s.counter == 0 && s.producers == map[] {
      PlayOne(s, TestQuit);
      assert !NeverStuck(Play(s, [TestQuit]));
    } else {
      forall acts | Playable(s, acts) ensures NeverStuck(Play(s, acts)) {
        RunKeepsNotForgotten(s, acts);
      }
    }
  }

  /** What a functor queued by the loop thread itself before loop() meets: poll blocks on it. */
  lemma EarlyLoopPushIsNotWoken(f: Functor)
    ensures var s := Loop(AtHead, [f], 0, false, false, map[], [f], [], [], 0);
            Entering(s) && Playable(s, [TestQuit]) && !NeverStuck(Play(s, [TestQuit]))
  {
    var s := Loop(AtHead, [f], 0, false, false, map[], [f], [], [], 0);
    assert [TestQuit][1..] == [];
    assert [] + [f] == [f];
    assert Play(s, [TestQuit]) == Next(s, TestQuit);
  }

  /** In every reachable state the queue is first in, first out and exactly once, and outside a pass
      everything swapped in has been executed. */
  lemma QueueIsFifo(s: Loop, acts: seq<Action>)
    requires Entering(s) && Playable(s, acts)
    ensures var t := Play(s, acts);
            && t.queued == t.executed + Rest(t) + t.pending
            && (!t.pc.Running? ==> t.executed == t.swapped)
  {
    RunKeeps(s, acts);
  }

  /** Everything queued before a swap has run once the pass that follows it is over, no matter what
      the functors of the pass queue themselves. */
  lemma {:induction false} NextPassRunsAll(s: Loop, acts: seq<Action>)
    requires Playable(s, acts) && Fifo(s)
    ensures s.swaps <= Play(s, acts).swaps && s.queued <= Play(s, acts).queued
    ensures s.swaps < Play(s, acts).swaps ==> s.queued <= Play(s, acts).swapped
    ensures s.swaps < Play(s, acts).swaps && !Play(s, acts).pc.Running? ==> s.queued <= Play(s, acts).executed
    decreases |acts|
  {
    if acts == [] {
    } else {
      var t := Next(s, acts[0]);
      StepKeepsFifo(s, acts[0]);
      NextPassRunsAll(t, acts[1..]);
      RunKeeps(t, acts[1..]);
      SwappedGrows(t, acts[1..]);
    }
  }

  lemma {:induction false} SwappedGrows(s: Loop, acts: seq<Action>)
    requires Playable(s, acts) && Fifo(s)
    ensures s.swapped <= Play(s, acts).swapped
    ensures Play(s, acts).swapped <= Play(s, acts).queued
    decreases |acts|
  {
    if acts == [] {
    } else {
      StepKeepsFifo(s, acts[0]);
      SwappedGrows(Next(s, acts[0]), acts[1..]);
    }
  }

  /** How many functors a run executes. */
  function RunsIn(acts: seq<Action>): nat {
    if acts == [] then 0 else (if acts[0].RunNext? then 1 else 0) + RunsIn(acts[1..])
  }

  /** Until the next swap, the functors that run are the rest of the snapshot, in order, whatever they
      and other threads queue meanwhile; when the pass is over, all of it has run, and nothing else. */
  lemma {:induction false} PassRunsItsSnapshot(s: Loop, acts: seq<Action>)
    requires Playable(s, acts) && Play(s, acts).swaps == s.swaps
    ensures var t := Play(s, acts);
            && t.executed + Rest(t) == s.executed + Rest(s)
            && RunsIn(acts) == |t.executed| - |s.executed|
            && (!t.pc.Running? ==> t.executed == s.executed + Rest(s) && RunsIn(acts) == |Rest(s)|)
    decreases |acts|
  {
    if acts == [] {
    } else {
      var t := Next(s, acts[0]);
      SwapsGrow(t, acts[1..]);
      StepOfAPass(s, acts[0]);
      PassRunsItsSnapshot(t, acts[1..]);
    }
  }

  lemma StepOfAPass(s: Loop, a: Action)
    requires Enabled(s, a) && Next(s, a).swaps == s.swaps
    ensures var t := Next(s, a);
            && t.executed + Rest(t) == s.executed + Rest(s)
            && |t.executed| == |s.executed| + (if a.RunNext? then 1 else 0)
  {
    if a.RunNext? {
      assert s.pc.rest == [s.pc.rest[0]] + s.pc.rest[1..];
    }
  }

  lemma {:induction false} SwapsGrow(s: Loop, acts: seq<Action>)
    requires Playable(s, acts)
    ensures s.swaps <= Play(s, acts).swaps
    decreases |acts|
  {
    if acts == [] {
    } else {
      SwapsGrow(Next(s, acts[0]), acts[1..]);
    }
  }

  /** Functors that queue functors cannot keep a pass from ending: the loop thread is done with it after
      as many functors as the snapshot has. */
  lemma PassEnds(s: Loop, acts: seq<Action>)
    requires s.pc == AboutToSwap && Playable(Next(s, Swap), acts)
    requires Play(Next(s, Swap), acts).swaps == s.swaps + 1
    ensures var t := Play(Next(s, Swap), acts);
            && RunsIn(acts) <= |s.pending|
            && (t.pc.Running? && RunsIn(acts) == |s.pending| ==> t.pc == Running([]))
            && (!t.pc.Running? ==> t.executed == s.executed + s.pending && RunsIn(acts) == |s.pending|)
  {
    PassRunsItsSnapshot(Next(s, Swap), acts);
  }

  // ---------------------------------------------------------------------------
  // Wakeups are counted, and a quit request ends the loop

  /** The counter: every wakeup since the last read of the eventfd. */
  function Wakeups(counter: nat, acts: seq<Action>): nat
    decreases |acts|
  {
    if acts == [] then counter
    else Wakeups(if acts[0].ReadEvent? then 0 else if acts[0].Wake? || acts[0].LoopWake? then counter + 1 else counter,
                 acts[1..])
  }

  lemma {:induction false} CounterCountsWakeups(s: Loop, acts: seq<Action>)
    requires Playable(s, acts)
    ensures Play(s, acts).counter == Wakeups(s.counter, acts)
    decreases |acts|
  {
    if acts == [] {
    } else {
      CounterCountsWakeups(Next(s, acts[0]), acts[1..]);
    }
  }

  ghost predicate Requested(acts: seq<Action>) {
    exists i :: 0 <= i < |acts| && (acts[i].SetQuit? || acts[i].LoopQuit?)
  }

  /** Once somebody has asked, the loop ends at its next test; it never ends before; and an ended loop does
      nothing more on its thread. */
  lemma {:induction false} QuitEndsLoop(s: Loop, acts: seq<Action>)
    requires Playable(s, acts)
    ensures Play(s, acts).quit <==> s.quit || Requested(acts)
    ensures s.pc != Exited && Play(s, acts).pc == Exited ==> Play(s, acts).quit
    ensures s.quit && TestQuit in acts ==> Play(s, acts).pc == Exited
    ensures s.pc == Exited ==> Play(s, acts).pc == Exited && Play(s, acts).executed == s.executed
    decreases |acts|
  {
    if acts == [] {
    } else {
      var t, rest := Next(s, acts[0]), acts[1..];
      QuitEndsLoop(t, rest);
      RequestedFirst(acts);
      assert acts == [acts[0]] + rest;
    }
  }

  lemma RequestedFirst(acts: seq<Action>)
    requires acts != []
    ensures Requested(acts) <==> acts[0].SetQuit? || acts[0].LoopQuit? || Requested(acts[1..])
  {
    assert forall i :: 1 <= i < |acts| ==> acts[i] == acts[1..][i - 1];
  }

  // ---------------------------------------------------------------------------
  // A pass of the loop object is a run of the protocol

  function Pushes(fs: seq<Functor>): seq<Action> {
    if fs == [] then [] else [LoopPush(fs[0]), LoopWake] + Pushes(fs[1..])
  }

  /** The steps of running fs one after another, each queueing its own functors. */
  function Runs(fs: seq<Functor>): seq<Action> {
    if fs == [] then [] else [RunNext] + Pushes(fs[0].queues) + Runs(fs[1..])
  }

  lemma {:induction false} PlayJoin(s: Loop, a: seq<Action>, b: seq<Action>)
    requires Playable(s, a) && Playable(Play(s, a), b)
    ensures Playable(s, a + b) && Play(s, a + b) == Play(Play(s, a), b)
    decreases |a|
  {
    if a == [] {
      assert a + b == b;
    } else {
      assert (a + b)[1..] == a[1..] + b;
      PlayJoin(Next(s, a[0]), a[1..], b);
    }
  }

  lemma PlayOne(s: Loop, a: Action)
    requires Enabled(s, a)
    ensures Playable(s, [a]) && Play(s, [a]) == Next(s, a)
  {
    assert [a][1..] == [];
  }

  function AfterPushes(s: Loop, fs: seq<Functor>): Loop {
    s.(pending := s.pending + fs, queued := s.queued + fs, counter := s.counter + |fs|)
  }

  lemma PushOnePlays(s: Loop, f: Functor)
    requires s.pc.Running? && !s.owing
    ensures Playable(s, [LoopPush(f), LoopWake]) && Play(s, [LoopPush(f), LoopWake]) == AfterPushes(s, [f])
  {
    PlayOne(s, LoopPush(f));
    PlayOne(Next(s, LoopPush(f)), LoopWake);
    PlayJoin(s, [LoopPush(f)], [LoopWake]);
    assert [LoopPush(f)] + [LoopWake] == [LoopPush(f), LoopWake];
  }

  lemma AfterPushesSplits(s: Loop, f: Functor, rest: seq<Functor>)
    ensures AfterPushes(AfterPushes(s, [f]), rest) == AfterPushes(s, [f] + rest)
  {
    assert s.pending + [f] + rest == s.pending + ([f] + rest);
    assert s.queued + [f] + rest == s.queued + ([f] + rest);
  }

  lemma {:induction false} PushesPlay(s: Loop, fs: seq<Functor>)
    requires s.pc.Running? && !s.owing
    ensures Playable(s, Pushes(fs)) && Play(s, Pushes(fs)) == AfterPushes(s, fs)
    decreases |fs|
  {
    if fs == [] {
      assert s.pending + fs == s.pending && s.queued + fs == s.queued;
    } else {
      var f, rest := fs[0], fs[1..];
      assert fs == [f] + rest;
      PushOnePlays(s, f);
      PushesPlay(AfterPushes(s, [f]), rest);
      PlayJoin(s, [LoopPush(f), LoopWake], Pushes(rest));
      AfterPushesSplits(s, f, rest);
    }
  }

  function AfterRuns(s: Loop, fs: seq<Functor>): Loop {
    AfterPushes(s, QueuedBy(fs)).(pc := Running([]), executed := s.executed + fs)
  }

  lemma RunOnePlays(s: Loop, f: Functor, rest: seq<Functor>)
    requires s.pc == Running([f] + rest) && !s.owing
    ensures var acts := [RunNext] + Pushes(f.queues);
            && Playable(s, acts)
            && Play(s, acts) == AfterPushes(s, f.queues).(pc := Running(rest), executed := s.executed + [f])
  {
    assert ([f] + rest)[1..] == rest;
    PlayOne(s, RunNext);
    PushesPlay(Next(s, RunNext), f.queues);
    PlayJoin(s, [RunNext], Pushes(f.queues));
  }

  lemma AfterRunsSplits(s: Loop, t: Loop, f: Functor, rest: seq<Functor>)
    requires t == AfterPushes(s, f.queues).(pc := Running(rest), executed := s.executed + [f])
    ensures AfterRuns(t, rest) == AfterRuns(s, [f] + rest)
  {
    assert ([f] + rest)[1..] == rest;
    assert s.executed + [f] + rest == s.executed + ([f] + rest);
    assert s.pending + f.queues + QueuedBy(rest) == s.pending + (f.queues + QueuedBy(rest));
    assert s.queued + f.queues + QueuedBy(rest) == s.queued + (f.queues + QueuedBy(rest));
  }

  lemma {:induction false} RunsPlay(s: Loop, fs: seq<Functor>)
    requires s.pc == Running(fs) && !s.owing
    ensures Playable(s, Runs(fs)) && Play(s, Runs(fs)) == AfterRuns(s, fs)
    decreases |fs|
  {
    if fs == [] {
      assert s.executed + fs == s.executed && s.pending + fs == s.pending && s.queued + fs == s.queued;
    } else {
      var f, rest := fs[0], fs[1..];
      assert fs == [f] + rest;
      var acts := [RunNext] + Pushes(f.queues);
      RunOnePlays(s, f, rest);
      var t := Play(s, acts);
      RunsPlay(t, rest);
      PlayJoin(s, acts, Runs(rest));
      AfterRunsSplits(s, t, f, rest);
    }
  }

  /** What DoPendingFunctors does to the loop object is a run of the protocol: swap, every functor of
      the snapshot once, each push of a functor with its wakeup, end. */
  lemma PassIsARun(s: Loop)
    requires s.pc == AboutToSwap && !s.owing
    ensures var acts := [Swap] + Runs(s.pending) + [EndPass];
            && Playable(s, acts)
            && Play(s, acts).pc == AtHead
            && Play(s, acts).executed == s.executed + s.pending
            && Play(s, acts).pending == QueuedBy(s.pending)
            && Play(s, acts).counter == s.counter + |QueuedBy(s.pending)|
  {
    var s1 := Next(s, Swap);
    PlayOne(s, Swap);
    RunsPlay(s1, s.pending);
    PlayJoin(s, [Swap], Runs(s.pending));
    PlayOne(Play(s1, Runs(s.pending)), EndPass);
    PlayJoin(s, [Swap] + Runs(s.pending), [EndPass]);
  }

  /** One round of loop(), in which poll reported the wakeup channel or not. */
  function RoundOf(wake: bool, pending: seq<Functor>): seq<Action> {
    [TestQuit] + [PollReturns(wake)] + (if wake then [ReadEvent] else []) + [EndDispatch]
    + ([Swap] + Runs(pending) + [EndPass])
  }

  /** A loop that was not asked to quit can go round: it polls, takes the wakeup if there was one, runs all
      that is pending, and stands where it began. */
  lemma RoundIsARun(s: Loop, wake: bool)
    requires s.pc == AtHead && !s.quit && !s.owing && (wake ==> s.counter > 0)
    ensures Playable(s, RoundOf(wake, s.pending))
    ensures var t := Play(s, RoundOf(wake, s.pending));
            && t.pc == AtHead
            && t.executed == s.executed + s.pending && t.pending == QueuedBy(s.pending)
            && t.counter == (if wake then 0 else s.counter) + |QueuedBy(s.pending)|
  {
    var a := [TestQuit] + [PollReturns(wake)] + (if wake then [ReadEvent] else []) + [EndDispatch];
    ReachSwap(s, wake);
    var m := Play(s, a);
    PassIsARun(m);
    PlayJoin(s, a, [Swap] + Runs(m.pending) + [EndPass]);
  }

  lemma ReachSwap(s: Loop, wake: bool)
    requires s.pc == AtHead && !s.quit && !s.owing && (wake ==> s.counter > 0)
    ensures var a := [TestQuit] + [PollReturns(wake)] + (if wake then [ReadEvent] else []) + [EndDispatch];
            && Playable(s, a)
            && Play(s, a) == s.(pc := AboutToSwap, counter := if wake then 0 else s.counter)
  {
    var s1 := Next(s, TestQuit);
    var s2 := Next(s1, PollReturns(wake));
    var read := if wake then [ReadEvent] else [];
    PlayOne(s, TestQuit);
    PlayOne(s1, PollReturns(wake));
    PlayJoin(s, [TestQuit], [PollReturns(wake)]);
    if wake {
      PlayOne(s2, ReadEvent);
    }
    PlayJoin(s, [TestQuit] + [PollReturns(wake)], read);
    var s3 := Play(s2, read);
    PlayOne(s3, EndDispatch);
    PlayJoin(s, [TestQuit] + [PollReturns(wake)] + read, [EndDispatch]);
  }
}
