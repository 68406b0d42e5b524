/** Why the lifecycle protocol needs its discipline, and needs no more: exactly the steps it rules out
    lead on to a failed assertion. */
module LifecycleLimits {
  import opened Lifecycle
  import TcpStream

  /** The discipline holds along the run, and an assertion fails at its end. */
  ghost predicate BreaksInOrder(w: World) {
    exists run :: Playable(w, run) && AllDisciplined(w, run) && Play(w, run).broken
  }

  /** Steps that close nothing on the user's behalf: callbacks return, reads find the end of the stream. */
  predicate Calm(a: Action) {
    || (a.Work? && (a.choice.Return? || a.choice.ReadEof?))
    || a.Dispatch?
  }

  ghost predicate AllCalm(run: seq<Action>) {
    forall i :: 0 <= i < |run| ==> Calm(run[i])
  }

  ghost predicate BreaksCalmly(w: World) {
    exists run :: AllCalm(run) && Playable(w, run) && Play(w, run).broken
  }

  lemma PlayFirst(w: World, a: Action, rest: seq<Action>)
    requires Enabled(w, a) && Playable(Next(w, a), rest)
    ensures Playable(w, [a] + rest) && Play(w, [a] + rest) == Play(Next(w, a), rest)
  {
    var run := [a] + rest;
    assert run[0] == a && run[1..] == rest;
  }

  lemma BreaksAfter(w: World, a: Action)
    requires Enabled(w, a) && Calm(a) && BreaksCalmly(Next(w, a))
    ensures BreaksCalmly(w)
  {
    var rest :| AllCalm(rest) && Playable(Next(w, a), rest) && Play(Next(w, a), rest).broken;
    PlayFirst(w, a, rest);
    assert AllCalm([a] + rest);
  }

  lemma {:induction false} CalmIsDisciplined(w: World, run: seq<Action>)
    requires AllCalm(run) && Playable(w, run)
    ensures AllDisciplined(w, run)
    decreases |run|
  {
    if run == [] {
    } else {
      assert Calm(run[0]) && AllCalm(run[1..]);
      CalmIsDisciplined(Next(w, run[0]), run[1..]);
    }
  }

  // ---------------------------------------------------------------------------
  // From a step that is ruled out to the failed assertion

  /** Any op that does not depend on a token; what a thread that dispatches can be in the middle of. */
  predicate Plain(op: Op) { !op.Token() || op.CloseCallback? || op.Remove? }

  /** The close or the read callback of a connection that is closed. */
  predicate Fatal(w: World, op: Op) {
    (op.OnClose? || op.OnRead?) && op.c in w.conns && !Alive(w.conns[op.c])
  }

  /** A report that will lead to a fatal op. */
  predicate FatalReport(w: World, l: LoopId, r: Report) {
    Local(w, l, r.c) && (r.Urgent() || (r.Acts() && !Alive(w.conns[r.c])))
  }

  /** Loop l is dispatching, and behind `pre` there is a fatal op, or a fatal report in the batch. */
  ghost predicate Doomed(w: World, l: LoopId, pre: seq<Op>, post: seq<Op>) {
    && l in w.loops && BASE in w.loops && w.loops[l].phase == Dispatching
    && (forall c :: c in w.conns ==> w.conns[c].loop in w.loops)
    && (forall r :: r in w.loops[l].batch ==> r.c in w.conns)
    && w.loops[l].todo == pre + post
    && (forall x :: x in pre ==> Plain(x) && x.c in w.conns)
    && (if post == [] then exists r :: r in w.loops[l].batch && FatalReport(w, l, r) else Fatal(w, post[0]))
  }

  /** A bound on the steps that ops take when callbacks return. */
  function Weight(ops: seq<Op>): nat {
    if ops == [] then 0
    else (if ops[0].OnClose? then 4 else if ops[0].CloseCallback? then 2 else 1) + Weight(ops[1..])
  }

  lemma {:induction false} WeightJoin(a: seq<Op>, b: seq<Op>)
    ensures Weight(a + b) == Weight(a) + Weight(b)
    decreases |a|
  {
    if a == [] {
      assert a + b == b;
    } else {
      assert (a + b)[1..] == a[1..] + b;
      WeightJoin(a[1..], b);
    }
  }

  function FrontOf(w: World, l: LoopId, op: Op): seq<Op>
    requires op.c in w.conns
  {
    EffectOf(w, l, op, Return).front
  }

  /** An op whose callbacks return leaves lighter ops, and brings no connection back to life. */
  lemma ReturnIsLighter(w: World, l: LoopId, op: Op)
    requires op.c in w.conns && Plain(op)
    ensures var e := EffectOf(w, l, op, Return);
            && e.c in w.conns && e.conn.loop == w.conns[e.c].loop && (Alive(e.conn) ==> Alive(w.conns[e.c]))
            && (forall x :: x in e.front ==> Plain(x) && x.c in w.conns)
            && Weight(e.front) < Weight([op])
  {
    var e := EffectOf(w, l, op, Return);
    assert [op][1..] == [];
    assert [Script(op.c), CloseCallback(op.c)] + [] == [Script(op.c), CloseCallback(op.c)];
    assert [Script(op.c), CloseCallback(op.c)][1..] == [CloseCallback(op.c)];
    assert [CloseCallback(op.c)][1..] == [];
    assert [Remove(op.c)][1..] == [];
  }

  /** The step itself, in the terms of the world after it. */
  lemma ReturnEffect(w: World, l: LoopId, op: Op, rest: seq<Op>)
    requires l in w.loops && BASE in w.loops && w.loops[l].todo == [op] + rest
    requires op.c in w.conns && Plain(op) && forall c :: c in w.conns ==> w.conns[c].loop in w.loops
    ensures Enabled(w, Work(l, Return))
    ensures var v := Next(w, Work(l, Return));
            && v.loops.Keys == w.loops.Keys && v.conns.Keys == w.conns.Keys
            && (forall c :: c in w.conns ==> v.conns[c].loop == w.conns[c].loop
                                             && (Alive(v.conns[c]) ==> Alive(w.conns[c])))
            && v.loops[l].phase == w.loops[l].phase && v.loops[l].batch == w.loops[l].batch
            && v.loops[l].todo == FrontOf(w, l, op) + rest
  {
    assert ([op] + rest)[1..] == rest;
    ReturnIsLighter(w, l, op);
  }

  /** What the ops in front of a thread become when the first one returns. */
  function Lighter(w: World, l: LoopId, pre: seq<Op>): seq<Op>
    requires pre != [] && pre[0].c in w.conns
  {
    FrontOf(w, l, pre[0]) + pre[1..]
  }

  lemma LighterIsPlain(w: World, l: LoopId, pre: seq<Op>)
    requires pre != [] && forall x :: x in pre ==> Plain(x) && x.c in w.conns
    ensures forall x :: x in Lighter(w, l, pre) ==> Plain(x) && x.c in w.conns
    ensures Weight(Lighter(w, l, pre)) < Weight(pre)
  {
    assert pre == [pre[0]] + pre[1..];
    ReturnIsLighter(w, l, pre[0]);
    WeightJoin(FrontOf(w, l, pre[0]), pre[1..]);
    WeightJoin([pre[0]], pre[1..]);
  }

  lemma LighterEffect(w: World, l: LoopId, pre: seq<Op>, post: seq<Op>)
    requires Doomed(w, l, pre, post) && pre != []
    ensures Enabled(w, Work(l, Return))
    ensures var v := Next(w, Work(l, Return));
            && v.loops.Keys == w.loops.Keys && v.conns.Keys == w.conns.Keys
            && (forall c :: c in w.conns ==> v.conns[c].loop == w.conns[c].loop
                                             && (Alive(v.conns[c]) ==> Alive(w.conns[c])))
            && v.loops[l].phase == w.loops[l].phase && v.loops[l].batch == w.loops[l].batch
            && v.loops[l].todo == Lighter(w, l, pre) + post
  {
    var op, rest := pre[0], pre[1..] + post;
    assert pre + post == [op] + rest;
    ReturnEffect(w, l, op, rest);
    assert FrontOf(w, l, op) + rest == Lighter(w, l, pre) + post;
  }

  lemma DoomedWork(w: World, l: LoopId, pre: seq<Op>, post: seq<Op>)
    requires Doomed(w, l, pre, post) && pre != []
    ensures Enabled(w, Work(l, Return))
    ensures var v := Next(w, Work(l, Return));
            Doomed(v, l, Lighter(w, l, pre), post) && v.loops[l].batch == w.loops[l].batch
  {
    LighterEffect(w, l, pre, post);
    LighterIsPlain(w, l, pre);
    StaysDoomed(w, Next(w, Work(l, Return)), l, post);
  }

  /** What is fatal stays fatal while no connection comes back to life. */
  lemma StaysDoomed(w: World, v: World, l: LoopId, post: seq<Op>)
    requires l in w.loops && l in v.loops && v.loops[l].batch == w.loops[l].batch && v.conns.Keys == w.conns.Keys
    requires forall c :: c in w.conns ==> v.conns[c].loop == w.conns[c].loop
                                          && (Alive(v.conns[c]) ==> Alive(w.conns[c]))
    requires if post == [] then exists r :: r in w.loops[l].batch && FatalReport(w, l, r) else Fatal(w, post[0])
    ensures if post == [] then exists r :: r in v.loops[l].batch && FatalReport(v, l, r) else Fatal(v, post[0])
  {
    if post == [] {
      var r :| r in w.loops[l].batch && FatalReport(w, l, r);
      assert r in v.loops[l].batch && FatalReport(v, l, r);
    }
  }

  /** The assertion in handleClose fails in the end. */
  lemma {:induction false} DoomComes(w: World, l: LoopId, pre: seq<Op>, post: seq<Op>)
    requires Doomed(w, l, pre, post)
    ensures BreaksCalmly(w)
    decreases |w.loops[l].batch|, Weight(pre)
  {
    if pre != [] {
      DoomedWork(w, l, pre, post);
      LighterIsPlain(w, l, pre);
      DoomComes(Next(w, Work(l, Return)), l, Lighter(w, l, pre), post);
      BreaksAfter(w, Work(l, Return));
    } else if post != [] {
      assert w.loops[l].todo == post;
      FatalBreaks(w, l);
    } else {
      var v := Next(w, Dispatch(l));
      DispatchEffect(w, l);
      var r :| r in w.loops[l].batch && FatalReport(w, l, r);
      var first := w.loops[l].batch[0];
      if r == first {
        FatalReportStarts(v, l, first);
      } else {
        BehindFirst(w.loops[l].batch, r);
        assert FatalReport(v, l, r);
        assert Callbacks(first) + [] == Callbacks(first);
        DoomComes(v, l, Callbacks(first), []);
      }
      BreaksAfter(w, Dispatch(l));
    }
  }

  lemma BehindFirst(batch: seq<Report>, r: Report)
    requires r in batch && r != batch[0]
    ensures r in batch[1..]
  {
    assert batch == [batch[0]] + batch[1..];
  }

  lemma DispatchEffect(w: World, l: LoopId)
    requires Doomed(w, l, [], [])
    ensures Enabled(w, Dispatch(l))
    ensures var v, b := Next(w, Dispatch(l)), w.loops[l];
            && v.conns == w.conns && v.loops.Keys == w.loops.Keys
            && v.loops[l].phase == Dispatching && v.loops[l].batch == b.batch[1..]
            && v.loops[l].todo == Callbacks(b.batch[0]) && b.batch[0].c in w.conns
            && (forall r :: r in b.batch[1..] ==> r in b.batch)
  {
    assert w.loops[l].todo == [];
    assert w.loops[l].batch[0] in w.loops[l].batch;
  }

  /** The read or close callback of a closed connection is next: one step. */
  lemma FatalBreaks(w: World, l: LoopId)
    requires l in w.loops && BASE in w.loops && w.loops[l].todo != [] && Fatal(w, w.loops[l].todo[0])
    ensures BreaksCalmly(w)
  {
    var none: seq<Action> := [];
    var v := Next(w, Work(l, ReadEof));
    assert Playable(v, none) && AllCalm(none) && Play(v, none) == v;
    BreaksAfter(w, Work(l, ReadEof));
  }

  /** A fatal report has been dispatched. */
  lemma FatalReportStarts(w: World, l: LoopId, r: Report)
    requires l in w.loops && BASE in w.loops && w.loops[l].phase == Dispatching && w.loops[l].todo == Callbacks(r)
    requires forall c :: c in w.conns ==> w.conns[c].loop in w.loops
    requires forall x :: x in w.loops[l].batch ==> x.c in w.conns
    requires FatalReport(w, l, r)
    ensures BreaksCalmly(w)
    decreases |w.loops[l].batch|, 6
  {
    if !Alive(w.conns[r.c]) {
      FatalBreaks(w, l);
    } else {
      UrgentStarts(w, l, r);
    }
  }

  /** A live connection's close callback with its read callback behind it. */
  lemma UrgentStarts(w: World, l: LoopId, r: Report)
    requires l in w.loops && BASE in w.loops && w.loops[l].phase == Dispatching && w.loops[l].todo == Callbacks(r)
    requires forall c :: c in w.conns ==> w.conns[c].loop in w.loops
    requires forall x :: x in w.loops[l].batch ==> x.c in w.conns
    requires Local(w, l, r.c) && r.Urgent()
    ensures BreaksCalmly(w)
    decreases |w.loops[l].batch|, 5
  {
    var pre := [Script(r.c), CloseCallback(r.c)];
    var post := [OnRead(r.c)] + if r.out then [OnWrite(r.c)] else [];
    assert w.loops[l].todo == [OnClose(r.c)] + post;
    UrgentCloseDooms(w, l, r.c, post);
    ClosingWeight(r.c);
    DoomComes(Next(w, Work(l, Return)), l, pre, post);
    BreaksAfter(w, Work(l, Return));
  }

  lemma ClosingWeight(d: ConnId)
    ensures Weight([Script(d), CloseCallback(d)]) == 3
  {
    assert [CloseCallback(d)][1..] == [] && [Script(d)][1..] == [];
    WeightJoin([Script(d)], [CloseCallback(d)]);
    assert [Script(d)] + [CloseCallback(d)] == [Script(d), CloseCallback(d)];
  }

  lemma UrgentCloseDooms(w: World, l: LoopId, d: ConnId, post: seq<Op>)
    requires l in w.loops && BASE in w.loops && w.loops[l].phase == Dispatching
    requires w.loops[l].todo == [OnClose(d)] + post && post != [] && post[0] == OnRead(d) && d in w.conns
    requires forall c :: c in w.conns ==> w.conns[c].loop in w.loops
    requires forall x :: x in w.loops[l].batch ==> x.c in w.conns
    ensures Enabled(w, Work(l, Return))
    ensures var v := Next(w, Work(l, Return));
            Doomed(v, l, [Script(d), CloseCallback(d)], post) && v.loops[l].batch == w.loops[l].batch
  {
    ReturnEffect(w, l, OnClose(d), post);
    assert [Script(d), CloseCallback(d)] + [] == [Script(d), CloseCallback(d)];
    assert FrontOf(w, l, OnClose(d)) == [Script(d), CloseCallback(d)];
  }

  /** Poll has reported an urgent hang-up: whatever else it reported, the two callbacks will meet. */
  lemma UrgentDataBreaks(w: World, a: Action)
    requires Inv(w) && Enabled(w, a) && UrgentHangup(a)
    ensures BreaksCalmly(Next(w, a))
  {
    assert LoopOk(w, a.l);
    UrgentPollDooms(w, a);
    DoomComes(Next(w, a), a.l, [], []);
  }

  lemma UrgentPollDooms(w: World, a: Action)
    requires ConnsOk(w) && Enabled(w, a) && UrgentHangup(a) && w.loops[a.l].todo == []
    ensures Doomed(Next(w, a), a.l, [], [])
  {
    var r :| r in a.active && r.Urgent();
    var v := Next(w, a);
    assert r in v.loops[a.l].batch && FatalReport(v, a.l, r);
    assert v.loops[a.l].todo == [] + [];
  }

  lemma EarlyCloseEffect(w: World, a: Action)
    requires Enabled(w, a) && ClosesTooEarly(w, a)
    ensures var v, b, d := Next(w, a), w.loops[a.l], a.choice.d;
            && v.loops.Keys == w.loops.Keys && v.conns.Keys == w.conns.Keys
            && (forall c :: c in w.conns ==> v.conns[c].loop == w.conns[c].loop)
            && !Alive(v.conns[d])
            && v.loops[a.l].phase == b.phase && v.loops[a.l].batch == b.batch
            && v.loops[a.l].todo == [Script(d), CloseCallback(d)] + b.todo
  {
    var b, d := w.loops[a.l], a.choice.d;
    assert [Script(d), CloseCallback(d), b.todo[0]] + b.todo[1..] == [Script(d), CloseCallback(d)] + b.todo;
  }

  /** Every op on a thread that runs code of the user is plain. */
  lemma UsersThread(w: World, l: LoopId)
    requires l in w.loops && LoopShape(w, l) && w.loops[l].todo != [] && w.loops[l].todo[0].UsersOwn()
    ensures forall x :: x in w.loops[l].todo ==> Plain(x) && x.c in w.conns
  {
    forall x | x in w.loops[l].todo ensures Plain(x) && x.c in w.conns {
      assert TodoOk(w, l, w.loops[l], x);
      var i :| 0 <= i < |w.loops[l].todo| && w.loops[l].todo[i] == x;
      assert i >= 1 ==> x.Later();
    }
  }

  /** A force-close takes nothing out of the batch, wherever in it the connection's report stands and however
      deep the callback is nested. */
  lemma EarlyCloseBreaks(w: World, a: Action)
    requires Inv(w) && Enabled(w, a) && ClosesTooEarly(w, a)
    ensures BreaksCalmly(Next(w, a))
  {
    assert LoopOk(w, a.l);
    UsersThread(w, a.l);
    EarlyCloseEffect(w, a);
    forall r | r in w.loops[a.l].batch ensures r.c in w.conns {
      assert ReportOk(w, a.l, r);
    }
    ClosedInBatch(Next(w, a), a.l, a.choice.d, w.loops[a.l].todo);
    DoomComes(Next(w, a), a.l, Next(w, a).loops[a.l].todo, []);
  }

  lemma ClosedInBatch(w: World, l: LoopId, d: ConnId, rest: seq<Op>)
    requires l in w.loops && BASE in w.loops && Local(w, l, d) && !Alive(w.conns[d])
    requires forall c :: c in w.conns ==> w.conns[c].loop in w.loops
    requires forall r :: r in w.loops[l].batch ==> r.c in w.conns
    requires w.loops[l].phase == Dispatching && Pending(w.loops[l].batch, d)
    requires w.loops[l].todo == [Script(d), CloseCallback(d)] + rest
    requires forall x :: x in rest ==> Plain(x) && x.c in w.conns
    ensures Doomed(w, l, w.loops[l].todo, [])
  {
    var r :| r in w.loops[l].batch && r.c == d && r.Acts();
    assert FatalReport(w, l, r);
    assert w.loops[l].todo + [] == w.loops[l].todo;
  }

  /** The discipline is exact. From a reachable world, a step can be followed by disciplined steps to a
      failed assertion if and only if it is one of those that are ruled out: a poll that reports an urgent
      hang-up, or a force-close of a live connection whose close or read callback is still to come. */
  lemma DisciplineIsExact(w: World, a: Action)
    requires Inv(w) && Enabled(w, a)
    ensures BreaksInOrder(Next(w, a)) <==> UrgentHangup(a) || ClosesTooEarly(w, a)
  {
    var v := Next(w, a);
    if UrgentHangup(a) {
      UrgentDataBreaks(w, a);
      CalmlyIsInOrder(v);
    } else if ClosesTooEarly(w, a) {
      EarlyCloseBreaks(w, a);
      CalmlyIsInOrder(v);
    } else {
      StepKeepsInv(w, a);
      forall run | Playable(v, run) && AllDisciplined(v, run) ensures !Play(v, run).broken {
        RunKeepsInv(v, run);
      }
    }
  }

  lemma CalmlyIsInOrder(w: World)
    requires BreaksCalmly(w)
    ensures BreaksInOrder(w)
  {
    var run :| AllCalm(run) && Playable(w, run) && Play(w, run).broken;
    CalmIsDisciplined(w, run);
  }

  /** For what a poll reports. */
  lemma UrgentDataBreaksExactly(w: World, l: LoopId, active: seq<Report>)
    requires Inv(w) && Enabled(w, Poll(l, active))
    ensures BreaksInOrder(Next(w, Poll(l, active)))
            <==> exists r :: r in active && r.hup && !r.inn && r.pri
  {
    DisciplineIsExact(w, Poll(l, active));
  }

  /** For a force-close of a live connection on its own loop: what its report says decides. */
  lemma ForceCloseBreaksExactly(w: World, l: LoopId, d: ConnId)
    requires Inv(w) && Enabled(w, Work(l, DoForceClose(d))) && w.loops[l].todo[0].UsersOwn()
    requires Local(w, l, d) && Alive(w.conns[d])
    ensures BreaksInOrder(Next(w, Work(l, DoForceClose(d))))
            <==> exists r :: r in w.loops[l].batch && r.c == d && (r.hup || r.inn || r.pri)
  {
    DisciplineIsExact(w, Work(l, DoForceClose(d)));
  }

  // ---------------------------------------------------------------------------
  // It is not enough that a connection is closed by its own callbacks only

  /** No urgent hang-up, and a force-close only by the connection's own callback. */
  predicate OwnCallbacksOnly(w: World, a: Action) {
    && !UrgentHangup(a)
    && (a.Work? && a.choice.DoForceClose? && a.l in w.loops && w.loops[a.l].todo != [] ==>
          w.loops[a.l].todo[0] == Script(a.choice.d))
  }

  ghost predicate AllOwnCallbacks(w: World, run: seq<Action>)
    requires Playable(w, run)
    decreases |run|
  {
    run == [] || (OwnCallbacksOnly(w, run[0]) && AllOwnCallbacks(Next(w, run[0]), run[1..]))
  }

  lemma {:induction false} CalmIsOwn(w: World, run: seq<Action>)
    requires AllCalm(run) && Playable(w, run)
    ensures AllOwnCallbacks(w, run)
    decreases |run|
  {
    if run == [] {
    } else {
      assert Calm(run[0]) && AllCalm(run[1..]);
      CalmIsOwn(Next(w, run[0]), run[1..]);
    }
  }

  lemma SendEffect(w: World, l: LoopId, d: ConnId)
    requires l in w.loops && w.loops[l].todo != [] && w.loops[l].todo[0].UsersOwn() && w.loops[l].todo[0].c in w.conns
    requires Local(w, l, d) && w.conns[d].state == TcpStream.Connected && !w.conns[d].writing
    ensures Enabled(w, Work(l, DoSend(d)))
    ensures var v := Next(w, Work(l, DoSend(d)));
            && v.conns == w.conns && l in v.loops && v.loops[l].batch == w.loops[l].batch
            && v.loops[l].todo == [Script(d)] + w.loops[l].todo
  {
    var op := w.loops[l].todo[0];
    assert [Script(d), op] + w.loops[l].todo[1..] == [Script(d)] + w.loops[l].todo;
    assert w.conns[op.c := w.conns[op.c]] == w.conns;
  }

  /** The write-complete callback of a connection the user sends to comes first on the thread. */
  lemma SendRunsCallback(w: World, l: LoopId, d: ConnId)
    requires Inv(w) && l in w.loops && w.loops[l].todo != [] && w.loops[l].todo[0].UsersOwn()
    requires Local(w, l, d) && w.conns[d].state == TcpStream.Connected && !w.conns[d].writing
    ensures Enabled(w, Work(l, DoSend(d)))
    ensures var v := Next(w, Work(l, DoSend(d)));
            && Inv(v) && v.conns == w.conns && l in v.loops && v.loops[l].batch == w.loops[l].batch
            && v.loops[l].todo == [Script(d)] + w.loops[l].todo
  {
    HeadIsOk(w, l);
    SendEffect(w, l, d);
    WorkKeepsInv(w, l, DoSend(d));
  }

  /** Any code of the user that sends to an idle connection d runs d's write-complete callback at once; if
      that closes its own connection while d's close or read callback is still to come, that callback
      meets a closed connection. */
  lemma SendCanCloseTooEarly(w: World, l: LoopId, d: ConnId) returns (run: seq<Action>)
    requires Inv(w) && l in w.loops && w.loops[l].todo != [] && w.loops[l].todo[0].UsersOwn()
    requires Pending(w.loops[l].batch, d) && d in w.conns
    requires w.conns[d].state == TcpStream.Connected && !w.conns[d].writing
    ensures Playable(w, run) && AllOwnCallbacks(w, run) && Play(w, run).broken
    ensures |run| >= 2 && run[0] == Work(l, DoSend(d)) && run[1] == Work(l, DoForceClose(d))
  {
    var r :| r in w.loops[l].batch && r.c == d && r.Acts();
    assert LoopOk(w, l) && ReportOk(w, l, r);
    SendRunsCallback(w, l, d);
    var v := Next(w, Work(l, DoSend(d)));
    var rest := OwnCloseTooEarly(v, l, d);
    PlayFirst(w, Work(l, DoSend(d)), rest);
    OwnFirst(w, Work(l, DoSend(d)), rest);
    run := [Work(l, DoSend(d))] + rest;
  }

  lemma OwnCloseTooEarly(w: World, l: LoopId, d: ConnId) returns (run: seq<Action>)
    requires Inv(w) && l in w.loops && w.loops[l].todo != [] && w.loops[l].todo[0] == Script(d)
    requires Pending(w.loops[l].batch, d) && Local(w, l, d) && w.conns[d].state == TcpStream.Connected
    ensures Playable(w, run) && AllOwnCallbacks(w, run) && Play(w, run).broken
    ensures run != [] && run[0] == Work(l, DoForceClose(d))
  {
    var close := Work(l, DoForceClose(d));
    assert Enabled(w, close) && ClosesTooEarly(w, close);
    EarlyCloseBreaks(w, close);
    var rest :| AllCalm(rest) && Playable(Next(w, close), rest) && Play(Next(w, close), rest).broken;
    CalmIsOwn(Next(w, close), rest);
    PlayFirst(w, close, rest);
    OwnFirst(w, close, rest);
    run := [close] + rest;
  }

  lemma OwnFirst(w: World, a: Action, rest: seq<Action>)
    requires Enabled(w, a) && OwnCallbacksOnly(w, a) && Playable(Next(w, a), rest) && AllOwnCallbacks(Next(w, a), rest)
    ensures Playable(w, [a] + rest) && AllOwnCallbacks(w, [a] + rest)
  {
    PlayFirst(w, a, rest);
    assert ([a] + rest)[1..] == rest;
  }
}
