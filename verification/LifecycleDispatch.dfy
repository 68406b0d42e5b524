/** What a loop makes of the reports, functors and timers it is given: which callbacks run, and that none
    is forgotten. */
module LifecycleDispatch {
  import opened Lifecycle
  import LifecycleSteps
  import TcpStream

  // ---------------------------------------------------------------------------
  // From a report to its callbacks

  /** The place of a channel callback in the order close, read, write. */
  function Turn(op: Op): nat {
    match op
    case OnClose(_) => 0
    case OnRead(_) => 1
    case _ => 2
  }

  /** The callbacks that the bits of a report ask for. */
  predicate AskedFor(r: Report, op: Op) {
    || (op == OnClose(r.c) && r.hup && !r.inn)
    || (op == OnRead(r.c) && (r.inn || r.pri))
    || (op == OnWrite(r.c) && r.out)
  }

  lemma CallbacksTally(r: Report, op: Op)
    ensures Tally(Callbacks(r), op) == (if AskedFor(r, op) then 1 else 0)
  {
    var close := if r.hup && !r.inn then [OnClose(r.c)] else [];
    var read := if r.inn || r.pri then [OnRead(r.c)] else [];
    var write := if r.out then [OnWrite(r.c)] else [];
    assert Callbacks(r) == close + read + write;
    TallyJoin(close + read, write, op);
    TallyJoin(close, read, op);
    TallyOne(OnClose(r.c), op);
    TallyOne(OnRead(r.c), op);
    TallyOne(OnWrite(r.c), op);
  }

  /** Dispatching a report puts on the thread exactly the callbacks its bits ask for, each once, close before
      read before write; for an error alone none. It changes nothing else. */
  lemma ReportStartsCallbacks(w: World, l: LoopId)
    requires Enabled(w, Dispatch(l))
    ensures var r, v := w.loops[l].batch[0], Next(w, Dispatch(l));
            && (forall op :: Tally(v.loops[l].todo, op) == (if AskedFor(r, op) then 1 else 0))
            && (forall i, j :: 0 <= i < j < |v.loops[l].todo| ==> Turn(v.loops[l].todo[i]) < Turn(v.loops[l].todo[j]))
            && v == w.(loops := w.loops[l := w.loops[l].(todo := v.loops[l].todo, batch := w.loops[l].batch[1..])])
  {
    var r := w.loops[l].batch[0];
    forall op ensures Tally(Callbacks(r), op) == (if AskedFor(r, op) then 1 else 0) {
      CallbacksTally(r, op);
    }
  }

  /** The first callback of a report that is dispatched, and what is behind a read. */
  lemma FirstCallback(w: World, l: LoopId)
    requires Enabled(w, Dispatch(l))
    ensures var r, todo := w.loops[l].batch[0], Next(w, Dispatch(l)).loops[l].todo;
            && (r.hup && !r.inn ==> todo != [] && todo[0] == OnClose(r.c))
            && (r.inn || (r.pri && !r.hup) ==> todo == [OnRead(r.c)] + if r.out then [OnWrite(r.c)] else [])
            && (!r.hup && !r.inn && !r.pri && r.out ==> todo == [OnWrite(r.c)])
  {
  }

  /** A connection that waits to write and is reported writable has steps of its thread, after that
      dispatch, that end the wait and bring its write-complete callback first on the thread. */
  lemma WritableIsServed(w: World, l: LoopId) returns (run: seq<Action>)
    requires Inv(w) && Enabled(w, Dispatch(l))
    requires var r := w.loops[l].batch[0];
             r.out && !(r.hup && !r.inn) && r.c in w.conns && w.conns[r.c].writing
    ensures var c, v := w.loops[l].batch[0].c, Next(w, Dispatch(l));
            && LifecycleSteps.ThreadRun(v, l, run)
            && var x := Play(v, run);
               && c in x.conns && !x.conns[c].writing && Alive(x.conns[c])
               && l in x.loops && x.loops[l].todo != [] && x.loops[l].todo[0] == Script(c)
  {
    var r, v := w.loops[l].batch[0], Next(w, Dispatch(l));
    FirstCallback(w, l);
    assert ConnOk(w.conns[r.c]);
    if r.inn || r.pri {
      run := ReadThenWrite(v, l, r.c);
    } else {
      run := WriteStep(v, l, r.c);
    }
  }

  /** The read finds nothing; the write callback comes next. */
  lemma ReadThenWrite(w: World, l: LoopId, c: ConnId) returns (run: seq<Action>)
    requires l in w.loops && w.loops[l].todo == [OnRead(c)] + [OnWrite(c)]
    requires c in w.conns && w.conns[c].writing && Alive(w.conns[c])
    ensures LifecycleSteps.ThreadRun(w, l, run)
    ensures var x := Play(w, run);
            && c in x.conns && !x.conns[c].writing && Alive(x.conns[c])
            && l in x.loops && x.loops[l].todo != [] && x.loops[l].todo[0] == Script(c)
  {
    assert ([OnRead(c)] + [OnWrite(c)])[1..] == [OnWrite(c)] && [] + [OnWrite(c)] == [OnWrite(c)];
    run := LifecycleSteps.OneStep(w, l, ReadError);
    var more := WriteStep(Play(w, run), l, c);
    LifecycleSteps.PlayJoin(w, run, more);
    run := run + more;
  }

  lemma WriteStep(w: World, l: LoopId, c: ConnId) returns (run: seq<Action>)
    requires l in w.loops && w.loops[l].todo == [OnWrite(c)] && c in w.conns && w.conns[c].writing && Alive(w.conns[c])
    ensures LifecycleSteps.ThreadRun(w, l, run)
    ensures var x := Play(w, run);
            && c in x.conns && !x.conns[c].writing && Alive(x.conns[c])
            && l in x.loops && x.loops[l].todo != [] && x.loops[l].todo[0] == Script(c)
  {
    run := LifecycleSteps.OneStep(w, l, WriteDone);
  }

  lemma ReadStep(w: World, l: LoopId, c: ConnId) returns (run: seq<Action>)
    requires l in w.loops && w.loops[l].todo != [] && w.loops[l].todo[0] == OnRead(c) && c in w.conns
    requires Alive(w.conns[c])
    ensures LifecycleSteps.ThreadRun(w, l, run)
    ensures var x := Play(w, run);
            && c in x.conns && Alive(x.conns[c])
            && l in x.loops && x.loops[l].todo != [] && x.loops[l].todo[0] == Script(c)
  {
    run := LifecycleSteps.OneStep(w, l, ReadData);
  }

  lemma FirstReport(w: World, l: LoopId)
    requires Inv(w) && Enabled(w, Dispatch(l))
    ensures var r := w.loops[l].batch[0]; ReportOk(w, l, r) && ConnOk(w.conns[r.c])
  {
    assert LoopOk(w, l) && w.loops[l].batch[0] in w.loops[l].batch;
  }

  /** A connection reported readable has a step that brings its message callback first on the thread. */
  lemma ReadableIsServed(w: World, l: LoopId) returns (run: seq<Action>)
    requires Inv(w) && Enabled(w, Dispatch(l)) && w.loops[l].batch[0].inn
    ensures var c, v := w.loops[l].batch[0].c, Next(w, Dispatch(l));
            && LifecycleSteps.ThreadRun(v, l, run)
            && var x := Play(v, run);
               && c in x.conns && Alive(x.conns[c])
               && l in x.loops && x.loops[l].todo != [] && x.loops[l].todo[0] == Script(c)
  {
    var r, v := w.loops[l].batch[0], Next(w, Dispatch(l));
    FirstCallback(w, l);
    FirstReport(w, l);
    run := ReadStep(v, l, r.c);
  }

  /** A connection reported with a hang-up and nothing to read is closed, with its DOWN callback next and
      the server's close callback behind it. */
  lemma HangupIsServed(w: World, l: LoopId) returns (run: seq<Action>)
    requires Inv(w) && Enabled(w, Dispatch(l)) && w.loops[l].batch[0].hup && !w.loops[l].batch[0].inn
    ensures var c, v := w.loops[l].batch[0].c, Next(w, Dispatch(l));
            && LifecycleSteps.ThreadRun(v, l, run)
            && var x := Play(v, run);
               && c in x.conns && x.conns[c].state == TcpStream.Disconnected
               && x.conns[c].downs == 1 && !x.broken
               && l in x.loops && [Script(c), CloseCallback(c)] <= x.loops[l].todo
  {
    var r, v := w.loops[l].batch[0], Next(w, Dispatch(l));
    FirstCallback(w, l);
    FirstReport(w, l);
    assert [Script(r.c), CloseCallback(r.c)] + [] == [Script(r.c), CloseCallback(r.c)];
    run := LifecycleSteps.OneStep(v, l, Return);
  }

  /** It waits to write with no write callback on its thread; or it has been closed. */
  ghost predicate StillWaits(w: World, l: LoopId, c: ConnId) {
    && l in w.loops && Local(w, l, c) && OnWrite(c) !in w.loops[l].todo
    && (w.conns[c].writing || StageRank(w.conns[c].stage) > StageRank(Live))
  }

  /** What an op other than its write callback does to a connection that waits to write. */
  lemma EffectKeepsWaiting(w: World, m: LoopId, op: Op, choice: Choice, c: ConnId)
    requires op.c in w.conns && op != OnWrite(c) && c in w.conns && w.conns[c].writing && ConnOk(w.conns[c])
    requires HeadOk(w, m, op)
    ensures var e := EffectOf(w, m, op, choice);
            && OnWrite(c) !in e.front
            && (e.c == c ==> e.conn.writing || StageRank(e.conn.stage) > StageRank(Live))
  {
    if op.UsersOwn() {
      UserKeepsWaiting(w, m, op, choice, c);
    }
  }

  lemma UserKeepsWaiting(w: World, m: LoopId, op: Op, choice: Choice, c: ConnId)
    requires op.c in w.conns && op.UsersOwn() && c in w.conns && w.conns[c].writing && ConnOk(w.conns[c])
    ensures var e := UserEffect(w, m, op, choice);
            && OnWrite(c) !in e.front
            && (e.c == c ==> e.conn.writing || StageRank(e.conn.stage) > StageRank(Live))
  {
  }

  /** No effect puts a write callback on a thread. */
  lemma NoNewWrite(w: World, m: LoopId, op: Op, choice: Choice, c: ConnId)
    requires op.c in w.conns && op != OnWrite(c)
    ensures OnWrite(c) !in EffectOf(w, m, op, choice).front
  {
  }

  lemma ApplyKeepsWaiting(w: World, m: LoopId, e: Effect, l: LoopId, c: ConnId)
    requires m in w.loops && w.loops[m].todo != [] && e.to in w.loops && StillWaits(w, l, c) && e.c in w.conns
    requires OnWrite(c) !in e.front && e.conn.loop == w.conns[e.c].loop
    requires e.c == c ==> e.conn.writing || StageRank(e.conn.stage) > StageRank(Live)
    ensures StillWaits(Apply(w, m, e), l, c)
  {
  }

  lemma WorkKeepsWaiting(w: World, m: LoopId, choice: Choice, l: LoopId, c: ConnId)
    requires ConnsOk(w) && Enabled(w, Work(m, choice)) && StillWaits(w, l, c) && HeadOk(w, m, w.loops[m].todo[0])
    ensures StillWaits(Next(w, Work(m, choice)), l, c)
  {
    var op := w.loops[m].todo[0];
    assert op in w.loops[m].todo;
    assert op != OnWrite(c);
    NoNewWrite(w, m, op, choice, c);
    EffectAdvances(w, m, op, choice);
    if w.conns[c].writing {
      EffectKeepsWaiting(w, m, op, choice, c);
    }
    ApplyKeepsWaiting(w, m, EffectOf(w, m, op, choice), l, c);
  }

  /** Without a report there is none of this: while its loop dispatches nothing, a connection that waits to
      write goes on waiting, or is closed. */
  lemma WaitsForReport(w: World, l: LoopId, c: ConnId, a: Action)
    requires Inv(w) && Enabled(w, a) && a != Dispatch(l) && StillWaits(w, l, c)
    ensures StillWaits(Next(w, a), l, c)
  {
    match a {
      case Work(m, choice) =>
        HeadIsOk(w, m);
        WorkKeepsWaiting(w, m, choice, l, c);
      case RunFunctor(m) =>
        var b := w.loops[m];
        assert LoopOk(w, m) && b.vector[b.next] in b.vector;
        assert QueuedOk(w, b.vector[b.next]);
        FunctorKeepsWaiting(w, m, l, c);
      case _ => OtherKeepsWaiting(w, a, l, c);
    }
  }

  lemma FunctorKeepsWaiting(w: World, m: LoopId, l: LoopId, c: ConnId)
    requires Enabled(w, RunFunctor(m)) && StillWaits(w, l, c)
    requires w.loops[m].vector[w.loops[m].next].Queueable()
    ensures StillWaits(Next(w, RunFunctor(m)), l, c)
  {
  }

  lemma OtherKeepsWaiting(w: World, a: Action, l: LoopId, c: ConnId)
    requires ConnsOk(w) && Enabled(w, a) && a != Dispatch(l) && StillWaits(w, l, c) && !a.Work? && !a.RunFunctor?
    ensures StillWaits(Next(w, a), l, c)
  {
    if a.Accept? {
      assert w.nextId !in w.conns;
    }
  }

  predicate NoDispatch(run: seq<Action>, l: LoopId) {
    run == [] || (run[0] != Dispatch(l) && NoDispatch(run[1..], l))
  }

  lemma OneMoreStep(w: World, l: LoopId, c: ConnId, a: Action)
    requires Inv(w) && Enabled(w, a) && Disciplined(w, a) && a != Dispatch(l) && StillWaits(w, l, c)
    ensures Inv(Next(w, a)) && StillWaits(Next(w, a), l, c)
  {
    WaitsForReport(w, l, c, a);
    StepKeepsInv(w, a);
  }

  lemma {:induction false} WaitsUntilDispatch(w: World, l: LoopId, c: ConnId, run: seq<Action>)
    requires Inv(w) && Playable(w, run) && AllDisciplined(w, run)
    requires NoDispatch(run, l) && StillWaits(w, l, c)
    ensures Inv(Play(w, run)) && StillWaits(Play(w, run), l, c)
    decreases |run|
  {
    if run == [] {
    } else {
      OneMoreStep(w, l, c, run[0]);
      WaitsUntilDispatch(Next(w, run[0]), l, c, run[1..]);
    }
  }

  /** The reports of a loop are those of its last poll, dispatched one after the other: nothing else adds,
      drops or reorders one, and the loop goes on to its functors only when none is left. */
  lemma ReportsGoInOrder(w: World, a: Action, l: LoopId)
    requires Enabled(w, a) && l in w.loops
    ensures l in Next(w, a).loops
    ensures Next(w, a).loops[l].batch
            == (if a.Poll? && a.l == l then a.active
                else if a == Dispatch(l) then w.loops[l].batch[1..] else w.loops[l].batch)
    ensures a == Swap(l) ==> w.loops[l].batch == []
  {
  }

  // ---------------------------------------------------------------------------
  // Functors and timers

  /** A timer's callback is what its thread does next; it can close, send to and shut down any connection of
      the loop. */
  lemma TimerRunsCode(w: World, l: LoopId, c: ConnId, d: ConnId)
    requires Enabled(w, Timer(l, c)) && Local(w, l, d) && Alive(w.conns[d])
    ensures var v := Next(w, Timer(l, c));
            && v.loops[l].todo == [UserCode(c)] && v.conns == w.conns
            && Enabled(v, Work(l, DoForceClose(d)))
            && Next(v, Work(l, DoForceClose(d))).conns[d].state == TcpStream.Disconnected
  {
  }

  lemma SwapKeepsAhead(b: Loop)
    requires b.vector == [] && b.next == 0
    ensures Ahead(b.(vector := b.pending, next := 0, pending := [])) == Ahead(b)
  {
  }

  lemma StartKeepsAhead(b: Loop)
    requires b.todo == [] && b.next < |b.vector|
    ensures Ahead(b.(todo := [b.vector[b.next]], next := b.next + 1)) == Ahead(b)
  {
    assert b.vector[b.next..] == [b.vector[b.next]] + b.vector[b.next + 1..];
  }

  /** What a loop has ahead of it is taken up in order: swapping, starting a functor and ending a pass
      neither lose nor repeat nor reorder an op, code of the user included. */
  lemma PassKeepsOrder(w: World, a: Action, m: LoopId)
    requires Enabled(w, a) && m in w.loops && (a.Swap? || a.RunFunctor? || a.EndPass? || a.Poll?)
    requires LoopShape(w, m)
    ensures var v := Next(w, a);
            && m in v.loops && v.loops[m].next <= |v.loops[m].vector|
            && Ahead(v.loops[m]) == Ahead(w.loops[m])
            && v.conns == w.conns
  {
    if a.l == m {
      match a {
        case Swap(_) => SwapKeepsAhead(w.loops[m]);
        case RunFunctor(_) => StartKeepsAhead(w.loops[m]);
        case _ =>
      }
    }
  }

  /** A loop that starts a functor has it on its thread, and a pass ends only when all have been started. */
  lemma PassTakesAll(w: World, l: LoopId)
    requires Inv(w) && l in w.loops && w.loops[l].phase == Running && w.loops[l].todo == []
    ensures var b := w.loops[l];
            && (b.vector[b.next..] != [] ==> Enabled(w, RunFunctor(l)) && !Enabled(w, EndPass(l))
                                             && Next(w, RunFunctor(l)).loops[l].todo == [b.vector[b.next..][0]])
            && (b.vector[b.next..] == [] ==> Enabled(w, EndPass(l)) && !Enabled(w, RunFunctor(l)))
  {
    assert LoopOk(w, l);
  }

  /** Code of the user that queues a functor puts it behind everything its loop has ahead. */
  lemma QueuedIsBehind(w: World, l: LoopId, m: LoopId, d: ConnId)
    requires l in w.loops && m in w.loops && d in w.conns && w.loops[m].next <= |w.loops[m].vector|
    requires w.loops[l].todo != [] && w.loops[l].todo[0].UsersOwn() && w.loops[l].todo[0].c in w.conns
    ensures Enabled(w, Work(l, DoQueue(m, d)))
    ensures var v := Next(w, Work(l, DoQueue(m, d)));
            && v == w.(loops := w.loops[m := w.loops[m].(pending := w.loops[m].pending + [UserCode(d)])])
            && Ahead(v.loops[m]) == Ahead(w.loops[m]) + [UserCode(d)]
  {
    var op, b := w.loops[l].todo[0], w.loops[m];
    assert [op] + w.loops[l].todo[1..] == w.loops[l].todo;
    assert w.conns[op.c := w.conns[op.c]] == w.conns;
    assert b.todo + b.vector[b.next..] + (b.pending + [UserCode(d)]) == Ahead(b) + [UserCode(d)];
    assert w.loops[l := w.loops[l]] == w.loops;
  }

  /** A loop is never stuck: in every reachable state it has a step within the rules. */
  lemma LoopGoesOn(w: World, l: LoopId) returns (a: Action)
    requires Inv(w) && l in w.loops
    ensures Enabled(w, a) && Disciplined(w, a) && !a.Accept? && !a.Timer? && a.l == l
  {
    var b := w.loops[l];
    assert LoopOk(w, l);
    if b.todo != [] {
      a := Work(l, Return);
      WorkKeepsInv(w, l, Return);
    } else {
      match b.phase {
        case Idle => a := Poll(l, []);
        case Dispatching => a := if b.batch != [] then Dispatch(l) else Swap(l);
        case Running => a := if b.next < |b.vector| then RunFunctor(l) else EndPass(l);
      }
    }
  }
}
