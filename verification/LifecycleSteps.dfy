/** The connection of the lifecycle protocol is the one of module TcpStream: whatever an event does to the
    one, with all the calls of all the callbacks it leads to, is a run of steps of the other. */
module LifecycleSteps {
  import ByteBuffer
  import opened Lifecycle
  import TcpStream

  /** The same connection, seen from both sides. */
  predicate Mirrors(k: Conn, s: TcpStream.Conn) {
    && k.state == s.state && k.registered == s.reading && k.writing == s.writing
    && k.ups == s.ups && k.downs == s.downs
    && (s.tracked <==> k.stage != Waiting && k.stage != Gone)
    && s.closes == (if StageRank(k.stage) > StageRank(Closing) then 1 else 0)
  }

  /** Loop l is to do todo, and its connection c mirrors s. */
  ghost predicate At(w: World, l: LoopId, c: ConnId, todo: seq<Op>, s: TcpStream.Conn) {
    && l in w.loops && BASE in w.loops && w.loops[l].todo == todo
    && Local(w, l, c) && ConnOk(w.conns[c]) && Mirrors(w.conns[c], s)
  }

  /** A run of steps of one thread alone. */
  ghost predicate ThreadRun(w: World, l: LoopId, run: seq<Action>) {
    Playable(w, run) && forall i :: 0 <= i < |run| ==> run[i].Work? && run[i].l == l
  }

  lemma {:induction false} PlayJoin(w: World, a: seq<Action>, b: seq<Action>)
    requires Playable(w, a) && Playable(Play(w, a), b)
    ensures Playable(w, a + b) && Play(w, a + b) == Play(Play(w, a), b)
    decreases |a|
  {
    if a == [] {
      assert a + b == b;
    } else {
      assert (a + b)[0] == a[0] && (a + b)[1..] == a[1..] + b;
      PlayJoin(Next(w, a[0]), a[1..], b);
    }
  }

  /** One step of the thread, as a run. */
  lemma OneStep(w: World, l: LoopId, choice: Choice) returns (run: seq<Action>)
    requires Enabled(w, Work(l, choice))
    ensures ThreadRun(w, l, run) && Play(w, run) == Next(w, Work(l, choice))
  {
    run := [Work(l, choice)];
    assert run[1..] == [];
  }

  lemma ScriptReturns(w: World, l: LoopId, c: ConnId, op: Op, rest: seq<Op>, s: TcpStream.Conn)
    returns (run: seq<Action>)
    requires At(w, l, c, [op] + rest, s) && op.c == c && op.UsersOwn()
    ensures ThreadRun(w, l, run) && At(Play(w, run), l, c, rest, s)
  {
    assert ([op] + rest)[1..] == rest && [] + rest == rest;
    run := OneStep(w, l, Return);
  }

  /** A send the kernel takes whole: the write-complete callback comes next. */
  lemma SendStarts(w: World, l: LoopId, c: ConnId, op: Op, rest: seq<Op>, s: TcpStream.Conn)
    returns (run: seq<Action>)
    requires At(w, l, c, [op] + rest, s) && op.c == c && op.UsersOwn()
    requires s.state == TcpStream.Connected && !s.writing
    ensures ThreadRun(w, l, run) && At(Play(w, run), l, c, [Script(c), op] + rest, s)
  {
    assert ([op] + rest)[1..] == rest;
    run := OneStep(w, l, DoSend(c));
  }

  /** A send that leaves the channel waiting for a writable event. */
  lemma PartSteps(w: World, l: LoopId, c: ConnId, op: Op, rest: seq<Op>, s: TcpStream.Conn)
    returns (run: seq<Action>)
    requires At(w, l, c, [op] + rest, s) && op.c == c && op.UsersOwn() && s.state == TcpStream.Connected
    ensures ThreadRun(w, l, run) && At(Play(w, run), l, c, [op] + rest, s.(writing := true))
  {
    assert ([op] + rest)[1..] == rest;
    run := OneStep(w, l, DoSendPart(c));
  }

  lemma ShutdownSteps(w: World, l: LoopId, c: ConnId, op: Op, rest: seq<Op>, s: TcpStream.Conn)
    returns (run: seq<Action>)
    requires At(w, l, c, [op] + rest, s) && op.c == c && op.UsersOwn()
    ensures ThreadRun(w, l, run) && At(Play(w, run), l, c, [op] + rest, TcpStream.Called(s, TcpStream.Shutdown))
  {
    assert ([op] + rest)[1..] == rest;
    run := OneStep(w, l, DoShutdown(c));
  }

  lemma CloseStarts(w: World, l: LoopId, c: ConnId, op: Op, rest: seq<Op>, s: TcpStream.Conn)
    returns (run: seq<Action>)
    requires At(w, l, c, [op] + rest, s) && op.c == c && op.UsersOwn()
    requires s.state == TcpStream.Connected || s.state == TcpStream.Disconnecting
    ensures ThreadRun(w, l, run)
    ensures At(Play(w, run), l, c, [Script(c), CloseCallback(c), op] + rest, TcpStream.Down(s))
  {
    assert ([op] + rest)[1..] == rest;
    assert ([Script(c), CloseCallback(c)] + [op]) + rest == [Script(c), CloseCallback(c), op] + rest;
    run := OneStep(w, l, DoForceClose(c));
  }

  /** The close callback, away from the base loop: the removal is queued there. */
  lemma CloseIsQueued(w: World, l: LoopId, c: ConnId, rest: seq<Op>, s: TcpStream.Conn)
    requires At(w, l, c, [CloseCallback(c)] + rest, s) && l != BASE
    requires s.state == TcpStream.Disconnected && s.downs == 1 && s.closes == 0
    ensures Enabled(w, Work(l, Return))
    ensures At(Next(w, Work(l, Return)), l, c, rest, s.(closes := s.closes + 1))
  {
    assert ([CloseCallback(c)] + rest)[1..] == rest && [] + rest == rest;
  }

  /** On the base loop the removal comes next. */
  lemma CloseGoesOn(w: World, c: ConnId, rest: seq<Op>, s: TcpStream.Conn)
    requires At(w, BASE, c, [CloseCallback(c)] + rest, s)
    requires s.state == TcpStream.Disconnected && s.downs == 1 && s.closes == 0
    ensures Enabled(w, Work(BASE, Return))
    ensures At(Next(w, Work(BASE, Return)), BASE, c, [Remove(c)] + rest, s.(closes := s.closes + 1))
  {
    assert ([CloseCallback(c)] + rest)[1..] == rest;
  }

  lemma RemoveEnds(w: World, c: ConnId, rest: seq<Op>, s: TcpStream.Conn)
    requires At(w, BASE, c, [Remove(c)] + rest, s)
    requires s.state == TcpStream.Disconnected && s.downs == 1 && s.closes == 1 && s.tracked
    ensures Enabled(w, Work(BASE, Return)) && At(Next(w, Work(BASE, Return)), BASE, c, rest, s)
  {
    assert ([Remove(c)] + rest)[1..] == rest && [] + rest == rest;
  }

  /** The close callback: at once on the base loop, by a functor elsewhere. */
  lemma CloseEnds(w: World, l: LoopId, c: ConnId, rest: seq<Op>, s: TcpStream.Conn)
    returns (run: seq<Action>)
    requires At(w, l, c, [CloseCallback(c)] + rest, s)
    requires s.state == TcpStream.Disconnected && s.downs == 1 && s.closes == 0
    ensures ThreadRun(w, l, run) && At(Play(w, run), l, c, rest, s.(closes := s.closes + 1))
  {
    if l == BASE {
      CloseGoesOn(w, c, rest, s);
      run := OneStep(w, l, Return);
      RemoveEnds(Play(w, run), c, rest, s.(closes := s.closes + 1));
      var more := OneStep(Play(w, run), l, Return);
      PlayJoin(w, run, more);
      run := run + more;
    } else {
      CloseIsQueued(w, l, c, rest, s);
      run := OneStep(w, l, Return);
    }
  }

  /** One call of running code of the user of c, with everything it re-enters. */
  lemma {:induction false} CallIsPlayed(w: World, l: LoopId, c: ConnId, op: Op, rest: seq<Op>,
                                        s: TcpStream.Conn, call: TcpStream.Call)
    returns (run: seq<Action>)
    requires At(w, l, c, [op] + rest, s) && op.c == c && op.UsersOwn()
    ensures ThreadRun(w, l, run) && At(Play(w, run), l, c, [op] + rest, TcpStream.Called(s, call))
    decreases call, 0
  {
    match call {
      case Send(message, answer, onComplete) =>
        run := SendIsPlayed(w, l, c, op, rest, s, message, answer, onComplete);
      case Shutdown => run := ShutdownSteps(w, l, c, op, rest, s);
      case ForceClose(onDown) =>
        if s.state == TcpStream.Connected || s.state == TcpStream.Disconnecting {
          run := CloseStarts(w, l, c, op, rest, s);
          var s1 := s.(state := TcpStream.Disconnecting);
          assert TcpStream.Down(s1) == TcpStream.Down(s);
          var more := CloseIsPlayed(Play(w, run), l, c, [op] + rest, s1, onDown);
          PlayJoin(w, run, more);
          run := run + more;
        } else {
          run := [];
        }
      case Consume(_) => run := [];
    }
  }

  lemma {:induction false} SendIsPlayed(w: World, l: LoopId, c: ConnId, op: Op, rest: seq<Op>, s: TcpStream.Conn,
                                        message: string, answer: TcpStream.WriteAnswer, onComplete: seq<TcpStream.Call>)
    returns (run: seq<Action>)
    requires At(w, l, c, [op] + rest, s) && op.c == c && op.UsersOwn()
    ensures ThreadRun(w, l, run)
    ensures At(Play(w, run), l, c, [op] + rest, TcpStream.Called(s, TcpStream.Send(message, answer, onComplete)))
    decreases onComplete, 2
  {
    run := [];
    if s.state != TcpStream.Connected || s.writing || s.output != "" {
    } else if answer.WriteFailed? || TcpStream.BytesTaken(answer, |message|) < |message| {
      run := PartSteps(w, l, c, op, rest, s);
    } else {
      var s1 := s.(accepted := s.accepted + message, kernel := s.kernel + message[..|message|]);
      run := SendStarts(w, l, c, op, rest, s);
      assert [Script(c), op] + rest == [Script(c)] + ([op] + rest);
      var more := ScriptIsPlayed(Play(w, run), l, c, [op] + rest, s1, onComplete);
      PlayJoin(w, run, more);
      run := run + more;
    }
  }

  /** handleClose from its DOWN callback on. */
  lemma {:induction false} CloseIsPlayed(w: World, l: LoopId, c: ConnId, rest: seq<Op>, s: TcpStream.Conn,
                                         onDown: seq<TcpStream.Call>)
    returns (run: seq<Action>)
    requires At(w, l, c, [Script(c), CloseCallback(c)] + rest, TcpStream.Down(s))
    requires s.closes == 0
    ensures ThreadRun(w, l, run) && At(Play(w, run), l, c, rest, TcpStream.Closed(s, onDown))
    decreases onDown, 2
  {
    assert [Script(c), CloseCallback(c)] + rest == [Script(c)] + ([CloseCallback(c)] + rest);
    run := ScriptIsPlayed(w, l, c, [CloseCallback(c)] + rest, TcpStream.Down(s), onDown);
    TcpStream.DeadCalls(TcpStream.Down(s), onDown);
    var more := CloseEnds(Play(w, run), l, c, rest, TcpStream.AllCalled(TcpStream.Down(s), onDown));
    PlayJoin(w, run, more);
    run := run + more;
  }

  lemma {:induction false} CallsArePlayed(w: World, l: LoopId, c: ConnId, op: Op, rest: seq<Op>,
                                          s: TcpStream.Conn, calls: seq<TcpStream.Call>)
    returns (run: seq<Action>)
    requires At(w, l, c, [op] + rest, s) && op.c == c && op.UsersOwn()
    ensures ThreadRun(w, l, run) && At(Play(w, run), l, c, [op] + rest, TcpStream.AllCalled(s, calls))
    decreases calls, 0
  {
    if calls == [] {
      run := [];
    } else {
      run := CallIsPlayed(w, l, c, op, rest, s, calls[0]);
      var more := CallsArePlayed(Play(w, run), l, c, op, rest, TcpStream.Called(s, calls[0]), calls[1..]);
      PlayJoin(w, run, more);
      run := run + more;
    }
  }

  /** A callback of the connection, from its start until it has returned. */
  lemma {:induction false} ScriptIsPlayed(w: World, l: LoopId, c: ConnId, rest: seq<Op>, s: TcpStream.Conn,
                                          calls: seq<TcpStream.Call>)
    returns (run: seq<Action>)
    requires At(w, l, c, [Script(c)] + rest, s)
    ensures ThreadRun(w, l, run) && At(Play(w, run), l, c, rest, TcpStream.AllCalled(s, calls))
    decreases calls, 1
  {
    run := CallsArePlayed(w, l, c, Script(c), rest, s, calls);
    var more := ScriptReturns(Play(w, run), l, c, Script(c), rest, TcpStream.AllCalled(s, calls));
    PlayJoin(w, run, more);
    run := run + more;
  }

  // ---------------------------------------------------------------------------
  // Events

  function OpOf(e: TcpStream.Event, c: ConnId): Op {
    match e
    case Establish(_) => Establish(c)
    case Readable(_, _, _) => OnRead(c)
    case Writable(_, _) => OnWrite(c)
    case Hangup(_) => OnClose(c)
    case Outside(_) => UserCode(c)
    case Destroy(_) => Destroy(c)
  }

  /** A step that leaves a callback to run, and the callback. */
  lemma StepThenScript(w: World, l: LoopId, c: ConnId, choice: Choice, rest: seq<Op>,
                       s: TcpStream.Conn, calls: seq<TcpStream.Call>)
    returns (run: seq<Action>)
    requires Enabled(w, Work(l, choice)) && At(Next(w, Work(l, choice)), l, c, [Script(c)] + rest, s)
    ensures ThreadRun(w, l, run) && At(Play(w, run), l, c, rest, TcpStream.AllCalled(s, calls))
  {
    run := OneStep(w, l, choice);
    var more := ScriptIsPlayed(Play(w, run), l, c, rest, s, calls);
    PlayJoin(w, run, more);
    run := run + more;
  }

  lemma EstablishIsPlayed(w: World, l: LoopId, c: ConnId, rest: seq<Op>, s: TcpStream.Conn, onUp: seq<TcpStream.Call>)
    returns (run: seq<Action>)
    requires At(w, l, c, [Establish(c)] + rest, s) && s.state == TcpStream.Connecting
    ensures ThreadRun(w, l, run) && At(Play(w, run), l, c, rest, TcpStream.Established(s, onUp))
  {
    assert ([Establish(c)] + rest)[1..] == rest;
    run := StepThenScript(w, l, c, Return, rest, TcpStream.Up(s), onUp);
  }

  /** The close callback of the channel, or a read that finds the end of the stream. */
  lemma ClosingIsPlayed(w: World, l: LoopId, c: ConnId, op: Op, choice: Choice, rest: seq<Op>,
                        s: TcpStream.Conn, onDown: seq<TcpStream.Call>)
    returns (run: seq<Action>)
    requires At(w, l, c, [op] + rest, s) && (op == OnClose(c) || (op == OnRead(c) && choice == ReadEof))
    requires s.state == TcpStream.Connected || s.state == TcpStream.Disconnecting
    ensures ThreadRun(w, l, run) && At(Play(w, run), l, c, rest, TcpStream.Closed(s, onDown))
  {
    assert ([op] + rest)[1..] == rest;
    assert [Script(c), CloseCallback(c)] + [] == [Script(c), CloseCallback(c)];
    run := OneStep(w, l, choice);
    assert At(Play(w, run), l, c, [Script(c), CloseCallback(c)] + rest, TcpStream.Down(s));
    var more := CloseIsPlayed(Play(w, run), l, c, rest, s, onDown);
    PlayJoin(w, run, more);
    run := run + more;
  }

  lemma ReadIsPlayed(w: World, l: LoopId, c: ConnId, rest: seq<Op>, s: TcpStream.Conn,
                     answer: ByteBuffer.ReadResult, onMessage: seq<TcpStream.Call>, onDown: seq<TcpStream.Call>)
    returns (run: seq<Action>)
    requires At(w, l, c, [OnRead(c)] + rest, s)
    requires s.state == TcpStream.Connected || s.state == TcpStream.Disconnecting
    ensures ThreadRun(w, l, run) && At(Play(w, run), l, c, rest, TcpStream.ReadHandled(s, answer, onMessage, onDown))
  {
    assert ([OnRead(c)] + rest)[1..] == rest && [] + rest == rest;
    match answer {
      case ReadFailed(_) => run := OneStep(w, l, ReadError);
      case ReadOk(bytes) =>
        if bytes == "" {
          run := ClosingIsPlayed(w, l, c, OnRead(c), ReadEof, rest, s, onDown);
        } else {
          var s1 := s.(input := s.input + bytes);
          run := StepThenScript(w, l, c, ReadData, rest, s1, onMessage);
        }
    }
  }

  lemma WriteIsPlayed(w: World, l: LoopId, c: ConnId, rest: seq<Op>, s: TcpStream.Conn,
                      answer: TcpStream.WriteAnswer, onComplete: seq<TcpStream.Call>)
    returns (run: seq<Action>)
    requires At(w, l, c, [OnWrite(c)] + rest, s) && TcpStream.Settled(s)
    ensures ThreadRun(w, l, run) && At(Play(w, run), l, c, rest, TcpStream.WriteHandled(s, answer, onComplete))
  {
    assert ([OnWrite(c)] + rest)[1..] == rest && [] + rest == rest;
    if TcpStream.Drains(s, answer) {
      TcpStream.DrainingWrite(s, answer, onComplete);
      run := StepThenScript(w, l, c, WriteDone, rest, TcpStream.Drained(s), onComplete);
    } else {
      run := OneStep(w, l, WriteMore);
    }
  }

  /** Each event of the connection, whatever the kernel answers and whatever calls the callbacks make and
      re-enter, is a run of steps of the one thread that does the op of the event. */
  lemma EventIsPlayed(w: World, l: LoopId, c: ConnId, rest: seq<Op>, s: TcpStream.Conn, e: TcpStream.Event)
    returns (run: seq<Action>)
    requires At(w, l, c, [OpOf(e, c)] + rest, s) && TcpStream.Settled(s) && TcpStream.Allowed(s, e)
    requires e.Destroy? ==> w.conns[c].stage == Destroying
    ensures ThreadRun(w, l, run) && At(Play(w, run), l, c, rest, TcpStream.Happen(s, e))
  {
    match e {
      case Establish(onUp) => run := EstablishIsPlayed(w, l, c, rest, s, onUp);
      case Readable(answer, onMessage, onDown) => run := ReadIsPlayed(w, l, c, rest, s, answer, onMessage, onDown);
      case Writable(taken, onComplete) => run := WriteIsPlayed(w, l, c, rest, s, taken, onComplete);
      case Hangup(onDown) => run := ClosingIsPlayed(w, l, c, OnClose(c), Return, rest, s, onDown);
      case Outside(call) =>
        run := CallIsPlayed(w, l, c, UserCode(c), rest, s, call);
        var more := ScriptReturns(Play(w, run), l, c, UserCode(c), rest, TcpStream.Called(s, call));
        PlayJoin(w, run, more);
        run := run + more;
      case Destroy(onDown) =>
        assert ([Destroy(c)] + rest)[1..] == rest && [] + rest == rest;
        run := OneStep(w, l, Return);
    }
  }
}
