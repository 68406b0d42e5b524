/** The life of accepted connections across loops: one base loop that accepts and removes, any number
    of loops that serve, and functors passed between them. Every thread interleaves op by op. */
module Lifecycle {
  import TcpStream

  type State = TcpStream.State
  type LoopId = nat
  type ConnId = nat

  const BASE: LoopId := 0

  /** Units of work on a loop thread. The first four can be queued as functors; a functor holds a
      strong reference to its connection. The others only occur while a loop is at work. Script and
      UserCode are code of the user, which can reach every connection of its loop. */
  datatype Op =
    | Establish(c: ConnId)        // connectEstablished
    | Remove(c: ConnId)           // removeConnectionInLoop
    | Destroy(c: ConnId)          // connectDestroyed
    | UserCode(c: ConnId)         // a functor or timer callback of the user that holds c
    | OnClose(c: ConnId)          // the channel's close callback
    | OnRead(c: ConnId)           // the channel's read callback
    | OnWrite(c: ConnId)          // the channel's write callback
    | Script(c: ConnId)           // a callback of the user is running
    | CloseCallback(c: ConnId)    // the server's close callback
  {
    predicate Queueable() { Establish? || Remove? || Destroy? || UserCode? }

    /** The ops a connection goes through once each. */
    predicate Token() { Establish? || CloseCallback? || Remove? || Destroy? }

    predicate UsersOwn() { Script? || UserCode? }

    /** What can stand behind another op on a thread. */
    predicate Later() { Script? || UserCode? || OnWrite? || CloseCallback? || Remove? }
  }

  /** How far a connection has come; each stage but Live and Gone waits for one token. */
  datatype Stage = Waiting | Live | Closing | Removing | Destroying | Gone

  /** registered: the channel watches for reading, so that poll can report it; writing: it waits for a
      writable event, and so a send only appends. */
  datatype Conn = Conn(loop: LoopId, state: State, registered: bool, writing: bool,
                       ups: nat, downs: nat, destroys: nat, stage: Stage)

  /** What poll reported of a channel, fixed until it is dispatched. None of the four is an error alone,
      which only logs. */
  datatype Report = Report(c: ConnId, hup: bool, inn: bool, pri: bool, out: bool) {
    /** It leads to the close or the read callback. */
    predicate Acts() { hup || inn || pri }

    /** It leads to both: a hang-up with urgent and without ordinary data. */
    predicate Urgent() { hup && !inn && pri }
  }

  datatype Phase = Idle | Dispatching | Running

  /** todo: what the thread is in the middle of, innermost first; batch: reports not handled
      yet; vector, next: the functors swapped out of the queue, kept until the pass ends. */
  datatype Loop = Loop(phase: Phase, todo: seq<Op>, batch: seq<Report>, vector: seq<Op>, next: nat, pending: seq<Op>)

  const IDLE_LOOP := Loop(Idle, [], [], [], 0, [])

  /** server: the keys of the connection map; broken: an assertion of the code has failed. */
  datatype World = World(loops: map<LoopId, Loop>, conns: map<ConnId, Conn>, server: set<ConnId>,
                         nextId: ConnId, broken: bool)

  predicate Alive(k: Conn) {
    k.state == TcpStream.Connected || k.state == TcpStream.Disconnecting
  }

  /** What code of the user does next, and how a read or a write turned out. DoSend is a send that
      the kernel takes whole, so that the write-complete callback runs at once; DoSendPart one after
      which the channel waits for a writable event. */
  datatype Choice =
    | Return
    | DoShutdown(d: ConnId)
    | DoForceClose(d: ConnId)
    | DoSend(d: ConnId)
    | DoSendPart(d: ConnId)
    | DoQueue(m: LoopId, d: ConnId)
    | ReadData
    | ReadEof
    | ReadError
    | WriteDone
    | WriteMore

  /** The effect of one op: what replaces it on the thread, what it queues where, and the one
      connection it changes. */
  datatype Effect = Effect(front: seq<Op>, to: LoopId, extra: seq<Op>, c: ConnId, conn: Conn,
                           server: set<ConnId>, broken: bool)

  function Quiet(w: World, l: LoopId, c: ConnId, front: seq<Op>): Effect
    requires c in w.conns
  {
    Effect(front, l, [], c, w.conns[c], w.server, false)
  }

  /** handleClose, up to its two callbacks. */
  function Closed(w: World, l: LoopId, c: ConnId, then_: seq<Op>): Effect
    requires c in w.conns
  {
    var k := w.conns[c];
    Effect([Script(c), CloseCallback(c)] + then_, l, [], c,
           k.(state := TcpStream.Disconnected, registered := false, writing := false, downs := k.downs + 1,
              stage := Closing),
           w.server, !Alive(k))
  }

  function ForceClosed(w: World, l: LoopId, c: ConnId, then_: seq<Op>): Effect
    requires c in w.conns
  {
    if Alive(w.conns[c]) then Closed(w, l, c, then_) else Quiet(w, l, c, then_)
  }

  function EffectOf(w: World, l: LoopId, op: Op, choice: Choice): Effect
    requires op.c in w.conns
  {
    var c, k := op.c, w.conns[op.c];
    match op
    case Establish(_) =>
      Effect([Script(c)], l, [], c,
             k.(state := TcpStream.Connected, registered := true, ups := k.ups + 1, stage := Live),
             w.server, k.state != TcpStream.Connecting)
    case Script(_) => UserEffect(w, l, op, choice)
    case OnClose(_) => Closed(w, l, c, [])
    case OnRead(_) =>
      if choice.ReadData? then Quiet(w, l, c, [Script(c)])
      else if choice.ReadEof? then Closed(w, l, c, [])
      else Quiet(w, l, c, [])
    case OnWrite(_) =>
      if choice.WriteDone? && k.writing then Quiet(w, l, c, [Script(c)]).(conn := k.(writing := false))
      else Quiet(w, l, c, [])
    case CloseCallback(_) =>
      var k' := k.(stage := Removing);
      if l == BASE then Effect([Remove(c)], l, [], c, k', w.server, false)
      else Effect([], BASE, [Remove(c)], c, k', w.server, false)
    case Remove(_) =>
      Effect([], k.loop, [Destroy(c)], c, k.(stage := Destroying), w.server - {c}, false)
    case Destroy(_) =>
      var up := k.state == TcpStream.Connected;
      Effect(if up then [Script(c)] else [], l, [], c,
             k.(state := if up then TcpStream.Disconnected else k.state, registered := false,
                writing := !up && k.writing, downs := if up then k.downs + 1 else k.downs,
                destroys := k.destroys + 1, stage := Gone),
             w.server, false)
    case UserCode(_) => UserEffect(w, l, op, choice)
  }

  /** Running code of the user: it returns, or makes one call on a connection of its loop, or queues a
      functor on any loop, and goes on. */
  function UserEffect(w: World, l: LoopId, op: Op, choice: Choice): Effect
    requires op.c in w.conns
  {
    var on := Quiet(w, l, op.c, [op]);
    match choice
    case DoShutdown(d) =>
      if Local(w, l, d) && w.conns[d].state == TcpStream.Connected
      then Effect([op], l, [], d, w.conns[d].(state := TcpStream.Disconnecting), w.server, false)
      else on
    case DoForceClose(d) => if Local(w, l, d) then ForceClosed(w, l, d, [op]) else on
    case DoSend(d) =>
      if Local(w, l, d) && w.conns[d].state == TcpStream.Connected && !w.conns[d].writing
      then Quiet(w, l, op.c, [Script(d), op])
      else on
    case DoSendPart(d) =>
      if Local(w, l, d) && w.conns[d].state == TcpStream.Connected
      then Effect([op], l, [], d, w.conns[d].(writing := true), w.server, false)
      else on
    case DoQueue(m, d) => if d in w.conns && m in w.loops then on.(to := m, extra := [UserCode(d)]) else on
    case _ => Quiet(w, l, op.c, [])
  }

  predicate Local(w: World, l: LoopId, d: ConnId) {
    d in w.conns && w.conns[d].loop == l
  }

  function Apply(w: World, l: LoopId, e: Effect): World
    requires l in w.loops && w.loops[l].todo != [] && e.to in w.loops
  {
    var loops1 := w.loops[l := w.loops[l].(todo := e.front + w.loops[l].todo[1..])];
    var loops2 := loops1[e.to := loops1[e.to].(pending := loops1[e.to].pending + e.extra)];
    w.(loops := loops2, conns := w.conns[e.c := e.conn], server := e.server, broken := w.broken || e.broken)
  }

  datatype Action =
    | Accept(target: LoopId)
    | Timer(l: LoopId, c: ConnId)
    | Poll(l: LoopId, active: seq<Report>)
    | Dispatch(l: LoopId)
    | Swap(l: LoopId)
    | RunFunctor(l: LoopId)
    | EndPass(l: LoopId)
    | Work(l: LoopId, choice: Choice)

  /** Channel::handleEvent: which callbacks the reported events lead to, in order. */
  function Callbacks(r: Report): seq<Op> {
    (if r.hup && !r.inn then [OnClose(r.c)] else [])
    + (if r.inn || r.pri then [OnRead(r.c)] else [])
    + (if r.out then [OnWrite(r.c)] else [])
  }

  ghost predicate Distinct(s: seq<Report>) {
    forall i, j :: 0 <= i < j < |s| ==> s[i].c != s[j].c
  }

  ghost predicate Enabled(w: World, a: Action) {
    match a
    case Accept(target) =>
      BASE in w.loops && target in w.loops && w.loops[BASE].phase == Dispatching && w.loops[BASE].todo == []
    case Timer(l, c) =>
      l in w.loops && w.loops[l].phase == Dispatching && w.loops[l].todo == [] && c in w.conns
    case Poll(l, active) =>
      l in w.loops && w.loops[l].phase == Idle && Distinct(active)
      && forall r :: r in active ==> Local(w, l, r.c) && w.conns[r.c].registered
    case Dispatch(l) =>
      l in w.loops && w.loops[l].phase == Dispatching && w.loops[l].todo == [] && w.loops[l].batch != []
    case Swap(l) =>
      l in w.loops && w.loops[l].phase == Dispatching && w.loops[l].todo == [] && w.loops[l].batch == []
    case RunFunctor(l) =>
      l in w.loops && w.loops[l].phase == Running && w.loops[l].todo == [] && w.loops[l].next < |w.loops[l].vector|
    case EndPass(l) =>
      l in w.loops && w.loops[l].phase == Running && w.loops[l].todo == [] && w.loops[l].next == |w.loops[l].vector|
    case Work(l, choice) =>
      l in w.loops && w.loops[l].todo != [] && w.loops[l].todo[0].c in w.conns
      && EffectOf(w, l, w.loops[l].todo[0], choice).to in w.loops
  }

  function Next(w: World, a: Action): World
    requires Enabled(w, a)
  {
    match a
    case Accept(target) =>
      var c := w.nextId;
      var b := w.loops[target];
      var b' := if target == BASE then b.(todo := [Establish(c)]) else b.(pending := b.pending + [Establish(c)]);
      w.(loops := w.loops[target := b'],
         conns := w.conns[c := Conn(target, TcpStream.Connecting, false, false, 0, 0, 0, Waiting)],
         server := w.server + {c}, nextId := c + 1)
    case Timer(l, c) => w.(loops := w.loops[l := w.loops[l].(todo := [UserCode(c)])])
    case Poll(l, active) => w.(loops := w.loops[l := w.loops[l].(phase := Dispatching, batch := active)])
    case Dispatch(l) =>
      var b := w.loops[l];
      w.(loops := w.loops[l := b.(todo := Callbacks(b.batch[0]), batch := b.batch[1..])])
    case Swap(l) =>
      var b := w.loops[l];
      w.(loops := w.loops[l := b.(phase := Running, vector := b.pending, next := 0, pending := [])])
    case RunFunctor(l) =>
      var b := w.loops[l];
      w.(loops := w.loops[l := b.(todo := [b.vector[b.next]], next := b.next + 1)])
    case EndPass(l) => w.(loops := w.loops[l := w.loops[l].(phase := Idle, vector := [], next := 0)])
    case Work(l, choice) => Apply(w, l, EffectOf(w, l, w.loops[l].todo[0], choice))
  }

  /** Poll reports urgent data with a hang-up and without ordinary data, so that the close and the read
      callback of one connection are both to run. */
  predicate UrgentHangup(a: Action) {
    a.Poll? && exists r :: r in a.active && r.Urgent()
  }

  /** The close or the read callback of c is still to come from the batch. */
  predicate Pending(batch: seq<Report>, c: ConnId) {
    exists r :: r in batch && r.c == c && r.Acts()
  }

  /** Code of the user force-closes a live connection whose close or read callback is still to come. */
  predicate ClosesTooEarly(w: World, a: Action) {
    && a.Work? && a.choice.DoForceClose? && a.l in w.loops && w.loops[a.l].todo != []
    && w.loops[a.l].todo[0].UsersOwn() && Local(w, a.l, a.choice.d) && Alive(w.conns[a.choice.d])
    && Pending(w.loops[a.l].batch, a.choice.d)
  }

  /** What the guarantees rest on. */
  predicate Disciplined(w: World, a: Action) {
    !UrgentHangup(a) && !ClosesTooEarly(w, a)
  }

  // ---------------------------------------------------------------------------
  // The invariant

  function Tally(ops: seq<Op>, t: Op): nat {
    if ops == [] then 0 else (if ops[0] == t then 1 else 0) + Tally(ops[1..], t)
  }

  /** Ops that are still to be run on a loop. */
  function Ahead(b: Loop): seq<Op>
    requires b.next <= |b.vector|
  {
    b.todo + b.vector[b.next..] + b.pending
  }

  /** The one token a connection waits for, and the loop it will run on. */
  predicate IsDue(w: World, l: LoopId, t: Op) {
    t.c in w.conns && (match t
      case Establish(c) => w.conns[c].stage == Waiting && w.conns[c].loop == l
      case CloseCallback(c) => w.conns[c].stage == Closing && w.conns[c].loop == l
      case Remove(c) => w.conns[c].stage == Removing && l == BASE
      case Destroy(c) => w.conns[c].stage == Destroying && w.conns[c].loop == l
      case _ => false)
  }

  ghost predicate TokensOk(w: World, l: LoopId)
    requires l in w.loops && w.loops[l].next <= |w.loops[l].vector|
  {
    forall t: Op :: t.Token() ==> Tally(Ahead(w.loops[l]), t) == (if IsDue(w, l, t) then 1 else 0)
  }

  predicate ConnOk(k: Conn) {
    && (k.writing ==> k.stage == Live)
    && k.ups == (if k.stage == Waiting then 0 else 1)
    && k.downs == (if k.stage == Waiting || k.stage == Live then 0 else 1)
    && k.destroys == (if k.stage == Gone then 1 else 0)
    && (k.registered <==> k.stage == Live)
    && match k.stage
       case Waiting => k.state == TcpStream.Connecting
       case Live => Alive(k)
       case _ => k.state == TcpStream.Disconnected
  }

  predicate InServer(k: Conn) {
    k.stage == Waiting || k.stage == Live || k.stage == Closing || k.stage == Removing
  }

  ghost predicate TodoOk(w: World, l: LoopId, b: Loop, op: Op) {
    && op.c in w.conns
    && (op.Remove? || op.UserCode? || w.conns[op.c].loop == l)
    && (op.OnClose? || op.OnRead? ==> w.conns[op.c].stage == Live && !Pending(b.batch, op.c))
    && (op.Destroy? ==> op in b.vector && |b.todo| == 1)
    && (!op.UserCode? ==> w.conns[op.c].stage != Gone)
  }

  /** The close or read callback a report leads to will find its connection alive. */
  predicate ReportOk(w: World, l: LoopId, r: Report) {
    Local(w, l, r.c) && w.conns[r.c].stage != Gone && !r.Urgent() && (r.Acts() ==> w.conns[r.c].stage == Live)
  }

  ghost predicate QueuedOk(w: World, op: Op) {
    op.c in w.conns && op.Queueable()
  }

  /** Everything about one loop but its tokens. */
  ghost predicate LoopShape(w: World, l: LoopId)
    requires l in w.loops
  {
    var b := w.loops[l];
    && b.next <= |b.vector|
    && (forall op :: op in b.todo ==> TodoOk(w, l, b, op))
    && (forall i :: 1 <= i < |b.todo| ==> b.todo[i].Later())
    && (forall op :: op in b.vector ==> QueuedOk(w, op))
    && (forall op :: op in b.pending ==> QueuedOk(w, op))
    && Distinct(b.batch)
    && (forall r :: r in b.batch ==> ReportOk(w, l, r))
    && (b.phase != Dispatching ==> b.batch == [])
    && (b.phase != Running ==> b.vector == [])
    && (b.phase == Idle ==> b.todo == [])
  }

  ghost predicate LoopOk(w: World, l: LoopId)
    requires l in w.loops
  {
    LoopShape(w, l) && TokensOk(w, l)
  }

  ghost predicate ConnsOk(w: World) {
    && BASE in w.loops
    && (forall c :: c in w.conns ==> c < w.nextId && ConnOk(w.conns[c]) && w.conns[c].loop in w.loops)
    && (forall c :: c in w.server ==> c in w.conns)
    && (forall c :: c in w.conns ==> (c in w.server <==> InServer(w.conns[c])))
  }

  ghost predicate Inv(w: World) {
    && ConnsOk(w)
    && (forall l :: l in w.loops ==> LoopOk(w, l))
    && !w.broken
  }

  ghost predicate Initial(w: World) {
    && BASE in w.loops && (forall l :: l in w.loops ==> w.loops[l] == IDLE_LOOP)
    && w.conns == map[] && w.server == {} && !w.broken
  }

  // ---------------------------------------------------------------------------
  // Work: one op on one loop

  lemma {:induction false} TallyJoin(a: seq<Op>, b: seq<Op>, t: Op)
    ensures Tally(a + b, t) == Tally(a, t) + Tally(b, t)
    decreases |a|
  {
    if a == [] {
      assert a + b == b;
    } else {
      assert (a + b)[1..] == a[1..] + b;
      TallyJoin(a[1..], b, t);
    }
  }

  lemma {:induction false} TallyFinds(ops: seq<Op>, t: Op)
    ensures Tally(ops, t) > 0 <==> t in ops
    decreases |ops|
  {
    if ops == [] {
    } else {
      assert ops == [ops[0]] + ops[1..];
      TallyFinds(ops[1..], t);
    }
  }

  lemma AheadTally(b: Loop, t: Op)
    requires b.next <= |b.vector|
    ensures Tally(Ahead(b), t) == Tally(b.todo, t) + Tally(b.vector[b.next..], t) + Tally(b.pending, t)
  {
    TallyJoin(b.todo + b.vector[b.next..], b.pending, t);
    TallyJoin(b.todo, b.vector[b.next..], t);
  }

  /** An op that is on a loop's thread, and is a token, is the one that is due. */
  lemma TodoIsDue(w: World, l: LoopId, t: Op)
    requires l in w.loops && LoopOk(w, l) && t.Token() && t in w.loops[l].todo
    ensures IsDue(w, l, t)
  {
    AheadTally(w.loops[l], t);
    TallyFinds(w.loops[l].todo, t);
  }

  lemma QueuedIsDue(w: World, l: LoopId, t: Op)
    requires l in w.loops && LoopOk(w, l) && t.Token()
    requires t in w.loops[l].vector[w.loops[l].next..] || t in w.loops[l].pending
    ensures IsDue(w, l, t)
  {
    AheadTally(w.loops[l], t);
    TallyFinds(w.loops[l].vector[w.loops[l].next..], t);
    TallyFinds(w.loops[l].pending, t);
  }

  /** How an effect changes the tokens ahead of a loop m. */
  function Change(l: LoopId, op: Op, e: Effect, m: LoopId, t: Op): int {
    (if m == l then Tally(e.front, t) - (if op == t then 1 else 0) else 0)
    + (if m == e.to then Tally(e.extra, t) else 0)
  }

  function Bit(b: bool): int { if b then 1 else 0 }

  lemma WorkMovesTokens(w: World, l: LoopId, e: Effect, m: LoopId, t: Op)
    requires l in w.loops && w.loops[l].todo != [] && e.to in w.loops && m in w.loops
    requires w.loops[m].next <= |w.loops[m].vector|
    ensures var w' := Apply(w, l, e);
            && m in w'.loops && w'.loops[m].next <= |w'.loops[m].vector|
            && Tally(Ahead(w'.loops[m]), t)
               == Tally(Ahead(w.loops[m]), t) + Change(l, w.loops[l].todo[0], e, m, t)
  {
    var w' := Apply(w, l, e);
    var b, b' := w.loops[m], w'.loops[m];
    AheadTally(b, t);
    AheadTally(b', t);
    if m == l {
      TallyJoin(e.front, b.todo[1..], t);
    }
    if m == e.to {
      TallyJoin(b.pending, e.extra, t);
    }
  }

  /** What an effect must respect for the invariant to survive it, in local terms. */
  ghost predicate EffectOk(w: World, l: LoopId, op: Op, e: Effect)
    requires e.c in w.conns && op.c in w.conns && l in w.loops
  {
    var k := w.conns[e.c];
    && e.to in w.loops && !e.broken
    && e.conn.loop == k.loop && ConnOk(e.conn)
    && (e.conn.stage != k.stage && k.stage == Live ==> k.loop == l && !Pending(w.loops[l].batch, e.c))
    && (forall x :: x in e.front ==> FrontOk(w, l, e, x))
    && (forall x :: x in e.extra ==> QueuedOk(w, x))
    && (e.server == (if InServer(e.conn) then w.server else w.server - {e.c}))
    && (InServer(e.conn) ==> InServer(k))
    && (e.conn.stage == Gone && k.stage != Gone ==> op == Destroy(e.c) && e.front == [] && k.loop == l)
    && (k.stage == Gone ==> e.conn == k)
  }

  /** An op that an effect puts on its thread. */
  ghost predicate FrontOk(w: World, l: LoopId, e: Effect, x: Op)
    requires e.c in w.conns
  {
    && x.c in w.conns && x.Later() && !x.OnWrite?
    && (x.Remove? || x.UserCode? || w.conns[x.c].loop == l)
    && (!x.UserCode? ==> w.conns[x.c].stage != Gone)
  }

  ghost predicate EffectMovesTokens(w: World, l: LoopId, op: Op, e: Effect, w': World)
  {
    forall m, t: Op :: m in w.loops && t.Token() ==>
      Bit(IsDue(w', m, t)) == Bit(IsDue(w, m, t)) + Change(l, op, e, m, t)
  }

  lemma WorkKeepsTokens(w: World, l: LoopId, op: Op, e: Effect, m: LoopId)
    requires l in w.loops && w.loops[l].todo != [] && op == w.loops[l].todo[0] && e.to in w.loops
    requires m in w.loops && w.loops[m].next <= |w.loops[m].vector| && TokensOk(w, m)
    requires EffectMovesTokens(w, l, op, e, Apply(w, l, e))
    ensures m in Apply(w, l, e).loops && Apply(w, l, e).loops[m].next <= |Apply(w, l, e).loops[m].vector|
    ensures TokensOk(Apply(w, l, e), m)
  {
    var w' := Apply(w, l, e);
    WorkMovesTokens(w, l, e, m, op);
    forall t: Op | t.Token()
      ensures Tally(Ahead(w'.loops[m]), t) == (if IsDue(w', m, t) then 1 else 0)
    {
      WorkMovesTokens(w, l, e, m, t);
      assert Bit(IsDue(w', m, t)) == Bit(IsDue(w, m, t)) + Change(l, op, e, m, t);
    }
  }

  /** What the invariant says about the op a loop is about to run. */
  ghost predicate HeadOk(w: World, l: LoopId, op: Op) {
    && l in w.loops && w.loops[l].todo != [] && op == w.loops[l].todo[0]
    && TodoOk(w, l, w.loops[l], op)
    && (op.Token() ==> IsDue(w, l, op))
  }

  lemma HeadIsOk(w: World, l: LoopId)
    requires Inv(w) && l in w.loops && w.loops[l].todo != []
    ensures HeadOk(w, l, w.loops[l].todo[0])
  {
    var op := w.loops[l].todo[0];
    assert LoopOk(w, l) && op in w.loops[l].todo;
    if op.Token() {
      TodoIsDue(w, l, op);
    }
  }

  /** Another op x on some thread, before and after the effect of op. */
  lemma WorkKeepsStage(w: World, l: LoopId, op: Op, e: Effect, m: LoopId, x: Op)
    requires HeadOk(w, l, op) && m in w.loops && e.c in w.conns
    requires EffectOk(w, l, op, e)
    requires x in w.loops[m].todo && TodoOk(w, m, w.loops[m], x)
    requires x.Token() ==> IsDue(w, m, x)
    requires m == l ==> x in w.loops[l].todo[1..] && x.Later()
    ensures var conns' := w.conns[e.c := e.conn];
            && (x.OnClose? || x.OnRead? ==> conns'[x.c].stage == Live)
            && (!x.UserCode? ==> conns'[x.c].stage != Gone)
  {
  }

  lemma WorkKeepsTodo(w: World, l: LoopId, op: Op, e: Effect, m: LoopId, x: Op)
    requires HeadOk(w, l, op) && m in w.loops && e.c in w.conns && e.to in w.loops
    requires EffectOk(w, l, op, e)
    requires x in Apply(w, l, e).loops[m].todo
    requires LoopOk(w, m)
    ensures TodoOk(Apply(w, l, e), m, Apply(w, l, e).loops[m], x)
  {
    var b := w.loops[m];
    if m == l && x in e.front {
    } else {
      if m == l {
        assert x in b.todo[1..];
        var i :| 0 <= i < |b.todo[1..]| && b.todo[1..][i] == x;
        assert b.todo[i + 1] == x;
      }
      assert x in b.todo && TodoOk(w, m, b, x);
      if x.Token() {
        TodoIsDue(w, m, x);
      }
      WorkKeepsStage(w, l, op, e, m, x);
    }
  }

  lemma WorkKeepsQueues(w: World, l: LoopId, op: Op, e: Effect, m: LoopId)
    requires HeadOk(w, l, op) && m in w.loops && e.c in w.conns && e.to in w.loops
    requires EffectOk(w, l, op, e)
    requires LoopShape(w, m)
    ensures var w' := Apply(w, l, e);
            && (forall x :: x in w'.loops[m].vector ==> QueuedOk(w', x))
            && (forall x :: x in w'.loops[m].pending ==> QueuedOk(w', x))
  {
    var w' := Apply(w, l, e);
    forall x | x in w'.loops[m].vector ensures QueuedOk(w', x) {
      assert QueuedOk(w, x);
    }
    forall x | x in w'.loops[m].pending ensures QueuedOk(w', x) {
      if x in w.loops[m].pending {
        assert QueuedOk(w, x);
      }
    }
  }

  lemma WorkKeepsBatch(w: World, l: LoopId, op: Op, e: Effect, m: LoopId)
    requires HeadOk(w, l, op) && m in w.loops && e.c in w.conns && e.to in w.loops
    requires EffectOk(w, l, op, e)
    requires LoopShape(w, m)
    ensures var w' := Apply(w, l, e);
            forall r :: r in w'.loops[m].batch ==> ReportOk(w', m, r)
  {
    var w' := Apply(w, l, e);
    forall r | r in w'.loops[m].batch ensures ReportOk(w', m, r) {
      assert ReportOk(w, m, r);
    }
  }

  lemma WorkKeepsShape(w: World, l: LoopId, op: Op, e: Effect, m: LoopId)
    requires HeadOk(w, l, op) && m in w.loops && e.c in w.conns && e.to in w.loops
    requires EffectOk(w, l, op, e)
    requires LoopOk(w, m)
    ensures LoopShape(Apply(w, l, e), m)
  {
    var w' := Apply(w, l, e);
    WorkKeepsQueues(w, l, op, e, m);
    WorkKeepsBatch(w, l, op, e, m);
    forall x | x in w'.loops[m].todo ensures TodoOk(w', m, w'.loops[m], x) {
      WorkKeepsTodo(w, l, op, e, m, x);
    }
    LaterOps(w, l, op, e, m);
  }

  /** Only some ops can stand behind another one. */
  lemma LaterOps(w: World, l: LoopId, op: Op, e: Effect, m: LoopId)
    requires HeadOk(w, l, op) && m in w.loops && e.c in w.conns && e.to in w.loops
    requires EffectOk(w, l, op, e)
    requires LoopShape(w, m)
    ensures var todo' := Apply(w, l, e).loops[m].todo;
            forall i :: 1 <= i < |todo'| ==> todo'[i].Later()
  {
    var todo' := Apply(w, l, e).loops[m].todo;
    if m == l {
      forall i | 1 <= i < |todo'| ensures todo'[i].Later() {
        if i < |e.front| {
          assert todo'[i] in e.front;
        } else {
          assert todo'[i] == w.loops[l].todo[i - |e.front| + 1];
        }
      }
    }
  }

  // What each op does, checked against those terms.

  lemma ClosedIsOk(w: World, l: LoopId, op: Op, d: ConnId, then_: seq<Op>)
    requires ConnsOk(w) && HeadOk(w, l, op) && Local(w, l, d) && Alive(w.conns[d])
    requires !Pending(w.loops[l].batch, d)
    requires then_ == [] || (then_ == [op] && op.UsersOwn())
    ensures EffectOk(w, l, op, Closed(w, l, d, then_))
  {
  }

  lemma QuietIsOk(w: World, l: LoopId, op: Op, front: seq<Op>)
    requires ConnsOk(w) && HeadOk(w, l, op)
    requires forall x :: x in front ==> FrontOk(w, l, Quiet(w, l, op.c, front), x)
    ensures EffectOk(w, l, op, Quiet(w, l, op.c, front))
  {
  }

  lemma UserIsOk(w: World, l: LoopId, op: Op, choice: Choice)
    requires ConnsOk(w) && HeadOk(w, l, op) && op.UsersOwn()
    requires !ClosesTooEarly(w, Work(l, choice))
    ensures var e := UserEffect(w, l, op, choice); e.c in w.conns && EffectOk(w, l, op, e)
  {
    if choice.DoForceClose? && Local(w, l, choice.d) && Alive(w.conns[choice.d]) {
      ClosedIsOk(w, l, op, choice.d, [op]);
    } else if !choice.DoShutdown? && !choice.DoSendPart? {
      UserQuietIsOk(w, l, op, choice);
    }
  }

  /** All but a shutdown, a partial send and a force-close leaves every connection as it is. */
  lemma UserQuietIsOk(w: World, l: LoopId, op: Op, choice: Choice)
    requires ConnsOk(w) && HeadOk(w, l, op) && op.UsersOwn()
    requires !choice.DoShutdown? && !choice.DoSendPart?
    requires choice.DoForceClose? ==> !Local(w, l, choice.d) || !Alive(w.conns[choice.d])
    ensures EffectOk(w, l, op, UserEffect(w, l, op, choice))
  {
  }

  lemma EffectIsOk(w: World, l: LoopId, op: Op, choice: Choice)
    requires ConnsOk(w) && HeadOk(w, l, op)
    requires !ClosesTooEarly(w, Work(l, choice))
    ensures var e := EffectOf(w, l, op, choice); e.c in w.conns && EffectOk(w, l, op, e)
  {
    var c := op.c;
    match op {
      case Script(_) => UserIsOk(w, l, op, choice);
      case UserCode(_) => UserIsOk(w, l, op, choice);
      case OnClose(_) => ClosedIsOk(w, l, op, c, []);
      case OnRead(_) =>
        if choice.ReadEof? {
          ClosedIsOk(w, l, op, c, []);
        } else {
          QuietIsOk(w, l, op, if choice.ReadData? then [Script(c)] else []);
        }
      case OnWrite(_) => WriteIsOk(w, l, op, choice);
      case Establish(_) => TokenOpIsOk(w, l, op, choice);
      case CloseCallback(_) => TokenOpIsOk(w, l, op, choice);
      case Remove(_) => TokenOpIsOk(w, l, op, choice);
      case Destroy(_) => TokenOpIsOk(w, l, op, choice);
    }
  }

  lemma WriteIsOk(w: World, l: LoopId, op: Op, choice: Choice)
    requires ConnsOk(w) && HeadOk(w, l, op) && op.OnWrite?
    ensures EffectOf(w, l, op, choice).c in w.conns && EffectOk(w, l, op, EffectOf(w, l, op, choice))
  {
  }

  lemma TokenOpIsOk(w: World, l: LoopId, op: Op, choice: Choice)
    requires ConnsOk(w) && HeadOk(w, l, op) && op.Token()
    ensures EffectOf(w, l, op, choice).c in w.conns && EffectOk(w, l, op, EffectOf(w, l, op, choice))
  {
  }

  lemma TallyOne(x: Op, t: Op)
    ensures Tally([x], t) == Bit(x == t)
  {
    assert [x][1..] == [];
  }

  lemma NoTokens(ops: seq<Op>, t: Op)
    requires t.Token() && forall x :: x in ops ==> !x.Token()
    ensures Tally(ops, t) == 0
  {
    TallyFinds(ops, t);
  }

  lemma ClosingTally(d: ConnId, then_: seq<Op>, t: Op)
    requires t.Token() && forall x :: x in then_ ==> !x.Token()
    ensures Tally([Script(d), CloseCallback(d)] + then_, t) == Bit(t == CloseCallback(d))
  {
    NoTokens(then_, t);
    TallyJoin([Script(d), CloseCallback(d)], then_, t);
    assert [Script(d), CloseCallback(d)][1..] == [CloseCallback(d)];
    TallyOne(CloseCallback(d), t);
  }

  lemma ClosedMovesToken(w: World, l: LoopId, op: Op, d: ConnId, then_: seq<Op>, m: LoopId, t: Op)
    requires HeadOk(w, l, op) && m in w.loops && t.Token() && !op.Token()
    requires Local(w, l, d) && Alive(w.conns[d]) && ConnOk(w.conns[d])
    requires forall x :: x in then_ ==> !x.Token()
    ensures var e := Closed(w, l, d, then_);
            Bit(IsDue(Apply(w, l, e), m, t)) == Bit(IsDue(w, m, t)) + Change(l, op, e, m, t)
  {
    ClosingTally(d, then_, t);
  }

  lemma QuietMovesToken(w: World, l: LoopId, op: Op, e: Effect, m: LoopId, t: Op)
    requires HeadOk(w, l, op) && m in w.loops && e.to in w.loops && t.Token() && !op.Token()
    requires e.c in w.conns && e.conn.stage == w.conns[e.c].stage && e.conn.loop == w.conns[e.c].loop
    requires forall x :: x in e.front || x in e.extra ==> !x.Token()
    ensures Bit(IsDue(Apply(w, l, e), m, t)) == Bit(IsDue(w, m, t)) + Change(l, op, e, m, t)
  {
    NoTokens(e.front, t);
    NoTokens(e.extra, t);
  }

  lemma UserMovesToken(w: World, l: LoopId, op: Op, choice: Choice, m: LoopId, t: Op)
    requires ConnsOk(w) && HeadOk(w, l, op) && m in w.loops && t.Token() && op.UsersOwn()
    ensures var e := UserEffect(w, l, op, choice);
            && e.to in w.loops
            && Bit(IsDue(Apply(w, l, e), m, t)) == Bit(IsDue(w, m, t)) + Change(l, op, e, m, t)
  {
    if choice.DoForceClose? && Local(w, l, choice.d) && Alive(w.conns[choice.d]) {
      ClosedMovesToken(w, l, op, choice.d, [op], m, t);
    } else {
      QuietMovesToken(w, l, op, UserEffect(w, l, op, choice), m, t);
    }
  }

  lemma EndOpMovesToken(w: World, l: LoopId, op: Op, choice: Choice, m: LoopId, t: Op)
    requires ConnsOk(w) && HeadOk(w, l, op) && m in w.loops && t.Token() && (op.Establish? || op.Destroy?)
    ensures var e := EffectOf(w, l, op, choice);
            && e.to in w.loops
            && Bit(IsDue(Apply(w, l, e), m, t)) == Bit(IsDue(w, m, t)) + Change(l, op, e, m, t)
  {
    TallyOne(Script(op.c), t);
  }

  lemma TokenOpMovesToken(w: World, l: LoopId, op: Op, choice: Choice, m: LoopId, t: Op)
    requires ConnsOk(w) && HeadOk(w, l, op) && m in w.loops && t.Token() && op.Token()
    ensures var e := EffectOf(w, l, op, choice);
            && e.to in w.loops
            && Bit(IsDue(Apply(w, l, e), m, t)) == Bit(IsDue(w, m, t)) + Change(l, op, e, m, t)
  {
    if op.Establish? || op.Destroy? {
      EndOpMovesToken(w, l, op, choice, m, t);
    } else {
      TallyOne(Remove(op.c), t);
      TallyOne(Destroy(op.c), t);
    }
  }

  lemma EffectMovesToken(w: World, l: LoopId, op: Op, choice: Choice, m: LoopId, t: Op)
    requires ConnsOk(w) && HeadOk(w, l, op) && m in w.loops && t.Token()
    ensures var e := EffectOf(w, l, op, choice);
            && e.to in w.loops
            && Bit(IsDue(Apply(w, l, e), m, t)) == Bit(IsDue(w, m, t)) + Change(l, op, e, m, t)
  {
    if op.Token() {
      TokenOpMovesToken(w, l, op, choice, m, t);
    } else if op.UsersOwn() {
      UserMovesToken(w, l, op, choice, m, t);
    } else if op.OnClose? || (op.OnRead? && choice.ReadEof?) {
      ClosedMovesToken(w, l, op, op.c, [], m, t);
    } else {
      QuietMovesToken(w, l, op, EffectOf(w, l, op, choice), m, t);
    }
  }

  lemma ApplyKeepsLoop(w: World, l: LoopId, op: Op, e: Effect, m: LoopId)
    requires m in w.loops && LoopOk(w, m) && HeadOk(w, l, op) && e.c in w.conns && e.to in w.loops
    requires EffectOk(w, l, op, e) && EffectMovesTokens(w, l, op, e, Apply(w, l, e))
    ensures LoopOk(Apply(w, l, e), m)
  {
    WorkKeepsShape(w, l, op, e, m);
    WorkKeepsTokens(w, l, op, e, m);
  }

  lemma ApplyKeepsLoops(w: World, l: LoopId, op: Op, e: Effect)
    requires forall m :: m in w.loops ==> LoopOk(w, m)
    requires HeadOk(w, l, op) && e.c in w.conns && e.to in w.loops
    requires EffectOk(w, l, op, e) && EffectMovesTokens(w, l, op, e, Apply(w, l, e))
    ensures forall m :: m in Apply(w, l, e).loops ==> LoopOk(Apply(w, l, e), m)
  {
    forall m | m in Apply(w, l, e).loops ensures LoopOk(Apply(w, l, e), m) {
      ApplyKeepsLoop(w, l, op, e, m);
    }
  }

  /** An effect that respects the local terms and moves the tokens right keeps the whole invariant. */
  lemma ApplyKeepsInv(w: World, l: LoopId, op: Op, e: Effect)
    requires Inv(w) && HeadOk(w, l, op) && e.c in w.conns && e.to in w.loops
    requires EffectOk(w, l, op, e) && EffectMovesTokens(w, l, op, e, Apply(w, l, e))
    ensures Inv(Apply(w, l, e))
  {
    ApplyKeepsLoops(w, l, op, e);
    ApplyKeepsConns(w, l, e);
  }

  lemma ApplyKeepsConns(w: World, l: LoopId, e: Effect)
    requires ConnsOk(w) && l in w.loops && w.loops[l].todo != [] && e.c in w.conns && e.to in w.loops
    requires w.loops[l].todo[0].c in w.conns && EffectOk(w, l, w.loops[l].todo[0], e)
    ensures ConnsOk(Apply(w, l, e))
  {
  }

  lemma WorkKeepsInv(w: World, l: LoopId, choice: Choice)
    requires Inv(w) && l in w.loops && w.loops[l].todo != []
    requires !ClosesTooEarly(w, Work(l, choice))
    ensures Enabled(w, Work(l, choice)) && Inv(Next(w, Work(l, choice)))
  {
    var op := w.loops[l].todo[0];
    HeadIsOk(w, l);
    EffectIsOk(w, l, op, choice);
    var e := EffectOf(w, l, op, choice);
    forall m, t: Op | m in w.loops && t.Token()
      ensures Bit(IsDue(Apply(w, l, e), m, t)) == Bit(IsDue(w, m, t)) + Change(l, op, e, m, t)
    {
      EffectMovesToken(w, l, op, choice, m, t);
    }
    ApplyKeepsInv(w, l, op, e);
  }

  // ---------------------------------------------------------------------------
  // The other actions

  /** A loop that did not change is as good as before when no connection changed. */
  lemma OtherLoop(w: World, l: LoopId, b': Loop, m: LoopId)
    requires m in w.loops && m != l && LoopOk(w, m)
    ensures LoopOk(w.(loops := w.loops[l := b']), m)
  {
    var w' := w.(loops := w.loops[l := b']);
    assert forall op :: op in w.loops[m].todo ==> (TodoOk(w', m, w'.loops[m], op) <==> TodoOk(w, m, w.loops[m], op));
    assert forall op :: QueuedOk(w', op) <==> QueuedOk(w, op);
    assert forall t: Op :: IsDue(w', m, t) == IsDue(w, m, t);
  }

  /** The tokens of a loop whose ops ahead did not change in number. */
  lemma SameAhead(w: World, l: LoopId, b': Loop)
    requires l in w.loops && LoopOk(w, l) && b'.next <= |b'.vector|
    requires forall t: Op :: t.Token() ==> Tally(Ahead(b'), t) == Tally(Ahead(w.loops[l]), t)
    ensures TokensOk(w.(loops := w.loops[l := b']), l)
  {
    var w' := w.(loops := w.loops[l := b']);
    assert forall t: Op :: IsDue(w', l, t) == IsDue(w, l, t);
  }

  lemma PollKeepsLoop(w: World, l: LoopId, active: seq<Report>)
    requires ConnsOk(w) && l in w.loops && LoopOk(w, l) && Enabled(w, Poll(l, active))
    requires !UrgentHangup(Poll(l, active))
    ensures LoopOk(Next(w, Poll(l, active)), l)
  {
    SameAhead(w, l, Next(w, Poll(l, active)).loops[l]);
    forall r | r in active ensures ReportOk(w, l, r) {
      assert ConnOk(w.conns[r.c]);
    }
  }

  lemma CallbacksAreNoTokens(r: Report, t: Op)
    requires t.Token()
    ensures Tally(Callbacks(r), t) == 0
  {
    NoTokens(Callbacks(r), t);
  }

  /** A timer's callback has nothing on the thread before it. */
  lemma TimerKeepsLoop(w: World, l: LoopId, c: ConnId)
    requires ConnsOk(w) && l in w.loops && LoopOk(w, l) && Enabled(w, Timer(l, c))
    ensures LoopOk(Next(w, Timer(l, c)), l)
  {
    var w' := Next(w, Timer(l, c));
    var b, b' := w.loops[l], w'.loops[l];
    forall t: Op | t.Token() ensures Tally(Ahead(b'), t) == Tally(Ahead(b), t) {
      AheadTally(b, t);
      AheadTally(b', t);
      TallyOne(UserCode(c), t);
    }
    SameAhead(w, l, b');
    assert forall op :: QueuedOk(w', op) <==> QueuedOk(w, op);
  }

  /** The reports behind the first one are not about its connection. */
  lemma LaterReports(batch: seq<Report>)
    requires batch != [] && Distinct(batch)
    ensures Distinct(batch[1..]) && forall r :: r in batch[1..] ==> r in batch && r.c != batch[0].c
  {
    forall r | r in batch[1..] ensures r in batch && r.c != batch[0].c {
      var i :| 0 <= i < |batch[1..]| && batch[1..][i] == r;
      assert batch[i + 1] == r;
    }
  }

  lemma DispatchKeepsLoop(w: World, l: LoopId)
    requires ConnsOk(w) && l in w.loops && LoopOk(w, l) && Enabled(w, Dispatch(l))
    ensures LoopOk(Next(w, Dispatch(l)), l)
  {
    var w' := Next(w, Dispatch(l));
    var b, b' := w.loops[l], w'.loops[l];
    var r := b.batch[0];
    assert r in b.batch && ReportOk(w, l, r);
    forall t: Op | t.Token() ensures Tally(Ahead(b'), t) == Tally(Ahead(b), t) {
      AheadTally(b, t);
      AheadTally(b', t);
      CallbacksAreNoTokens(r, t);
    }
    SameAhead(w, l, b');
    LaterReports(b.batch);
    assert forall x :: ReportOk(w', l, x) <==> ReportOk(w, l, x);
    assert forall op :: QueuedOk(w', op) <==> QueuedOk(w, op);
    forall op | op in b'.todo ensures TodoOk(w', l, b', op) {
      assert op.c == r.c;
    }
  }

  lemma SwapKeepsLoop(w: World, l: LoopId)
    requires ConnsOk(w) && l in w.loops && LoopOk(w, l) && Enabled(w, Swap(l))
    ensures LoopOk(Next(w, Swap(l)), l)
  {
    var w' := Next(w, Swap(l));
    assert Ahead(w'.loops[l]) == Ahead(w.loops[l]);
    SameAhead(w, l, w'.loops[l]);
    assert forall op :: QueuedOk(w', op) <==> QueuedOk(w, op);
  }

  /** The functor a pass runs next is fit to run on this loop. */
  lemma NextFunctorIsOk(w: World, l: LoopId)
    requires ConnsOk(w) && l in w.loops && LoopOk(w, l) && Enabled(w, RunFunctor(l))
    ensures var b := w.loops[l];
            var op := b.vector[b.next];
            && op.c in w.conns && op.Queueable() && (op.Remove? || op.UserCode? || w.conns[op.c].loop == l)
            && (!op.UserCode? ==> w.conns[op.c].stage != Gone)
  {
    var b := w.loops[l];
    var op := b.vector[b.next];
    assert op in b.vector && QueuedOk(w, op);
    if op.Token() {
      assert op in b.vector[b.next..];
      QueuedIsDue(w, l, op);
    }
  }

  lemma RunKeepsLoop(w: World, l: LoopId)
    requires ConnsOk(w) && l in w.loops && LoopOk(w, l) && Enabled(w, RunFunctor(l))
    ensures LoopOk(Next(w, RunFunctor(l)), l)
  {
    var b := w.loops[l];
    var op := b.vector[b.next];
    var b' := b.(todo := [op], next := b.next + 1);
    var w' := w.(loops := w.loops[l := b']);
    assert b.vector[b.next..] == [op] + b'.vector[b'.next..];
    assert Ahead(b') == Ahead(b);
    SameAhead(w, l, b');
    NextFunctorIsOk(w, l);
    assert TodoOk(w', l, b', op);
    assert forall x :: x in b'.todo ==> x == op;
    assert forall x :: QueuedOk(w', x) <==> QueuedOk(w, x);
  }

  lemma EndKeepsLoop(w: World, l: LoopId)
    requires ConnsOk(w) && l in w.loops && LoopOk(w, l) && Enabled(w, EndPass(l))
    ensures LoopOk(Next(w, EndPass(l)), l)
  {
    var w' := Next(w, EndPass(l));
    assert Ahead(w'.loops[l]) == Ahead(w.loops[l]);
    SameAhead(w, l, w'.loops[l]);
    assert forall op :: QueuedOk(w', op) <==> QueuedOk(w, op);
  }

  /** A step of one loop that changes no connection. */
  lemma QuietStepKeepsInv(w: World, l: LoopId, b': Loop)
    requires Inv(w) && l in w.loops && LoopOk(w.(loops := w.loops[l := b']), l)
    ensures Inv(w.(loops := w.loops[l := b']))
  {
    var w' := w.(loops := w.loops[l := b']);
    forall m | m in w'.loops ensures LoopOk(w', m) {
      if m != l {
        assert LoopOk(w, m);
        OtherLoop(w, l, b', m);
      }
    }
  }

  /** A new connection changes nothing for a loop but the one that is to establish it. */
  lemma AcceptKeepsTokens(w: World, target: LoopId, m: LoopId)
    requires ConnsOk(w) && m in w.loops && LoopOk(w, m) && Enabled(w, Accept(target))
    ensures Next(w, Accept(target)).loops[m].next <= |Next(w, Accept(target)).loops[m].vector|
    ensures TokensOk(Next(w, Accept(target)), m)
  {
    var w' := Next(w, Accept(target));
    var c := w.nextId;
    var b, b' := w.loops[m], w'.loops[m];
    assert c !in w.conns;
    forall t: Op | t.Token()
      ensures Tally(Ahead(b'), t) == (if IsDue(w', m, t) then 1 else 0)
    {
      AheadTally(b, t);
      AheadTally(b', t);
      if m == target {
        TallyOne(Establish(c), t);
        TallyJoin(b.pending, [Establish(c)], t);
      }
    }
  }

  lemma AcceptKeepsShape(w: World, target: LoopId, m: LoopId)
    requires ConnsOk(w) && Enabled(w, Accept(target)) && m in w.loops && LoopShape(w, m)
    ensures LoopShape(Next(w, Accept(target)), m)
  {
    var w' := Next(w, Accept(target));
    var b, b' := w.loops[m], w'.loops[m];
    assert w.nextId !in w.conns;
    forall x | x in b'.vector ensures QueuedOk(w', x) {
      assert QueuedOk(w, x);
    }
    forall x | x in b'.pending ensures QueuedOk(w', x) {
      assert x in b.pending ==> QueuedOk(w, x);
    }
    forall x | x in b'.todo ensures TodoOk(w', m, b', x) {
      assert x in b.todo ==> TodoOk(w, m, b, x);
    }
  }

  lemma AcceptKeepsInv(w: World, target: LoopId)
    requires Inv(w) && Enabled(w, Accept(target))
    ensures Inv(Next(w, Accept(target)))
  {
    var w' := Next(w, Accept(target));
    assert w'.loops.Keys == w.loops.Keys;
    forall m | m in w'.loops ensures LoopOk(w', m) {
      assert LoopOk(w, m);
      AcceptKeepsTokens(w, target, m);
      AcceptKeepsShape(w, target, m);
    }
    AcceptKeepsConns(w, target);
  }

  lemma AcceptKeepsConns(w: World, target: LoopId)
    requires ConnsOk(w) && Enabled(w, Accept(target))
    ensures ConnsOk(Next(w, Accept(target)))
  {
    assert w.nextId !in w.conns;
  }

  lemma StepKeepsInv(w: World, a: Action)
    requires Inv(w) && Enabled(w, a) && Disciplined(w, a)
    ensures Inv(Next(w, a))
  {
    match a {
      case Accept(target) => AcceptKeepsInv(w, target);
      case Timer(l, c) =>
        TimerKeepsLoop(w, l, c);
        QuietStepKeepsInv(w, l, Next(w, a).loops[l]);
      case Poll(l, active) =>
        PollKeepsLoop(w, l, active);
        QuietStepKeepsInv(w, l, Next(w, a).loops[l]);
      case Dispatch(l) =>
        DispatchKeepsLoop(w, l);
        QuietStepKeepsInv(w, l, Next(w, a).loops[l]);
      case Swap(l) =>
        SwapKeepsLoop(w, l);
        QuietStepKeepsInv(w, l, Next(w, a).loops[l]);
      case RunFunctor(l) =>
        RunKeepsLoop(w, l);
        QuietStepKeepsInv(w, l, Next(w, a).loops[l]);
      case EndPass(l) =>
        EndKeepsLoop(w, l);
        QuietStepKeepsInv(w, l, Next(w, a).loops[l]);
      case Work(l, choice) => WorkKeepsInv(w, l, choice);
    }
  }

  // ---------------------------------------------------------------------------
  // Guarantees over whole runs

  ghost predicate Playable(w: World, actions: seq<Action>)
    decreases |actions|
  {
    actions == [] || (Enabled(w, actions[0]) && Playable(Next(w, actions[0]), actions[1..]))
  }

  ghost function Play(w: World, actions: seq<Action>): World
    requires Playable(w, actions)
    decreases |actions|
  {
    if actions == [] then w else Play(Next(w, actions[0]), actions[1..])
  }

  ghost predicate AllDisciplined(w: World, actions: seq<Action>)
    requires Playable(w, actions)
    decreases |actions|
  {
    actions == [] || (Disciplined(w, actions[0]) && AllDisciplined(Next(w, actions[0]), actions[1..]))
  }

  predicate StageBefore(s: Stage, t: Stage) { StageRank(s) <= StageRank(t) }

  function StageRank(s: Stage): nat {
    match s
    case Waiting => 0
    case Live => 1
    case Closing => 2
    case Removing => 3
    case Destroying => 4
    case Gone => 5
  }

  /** How a connection may change: forward only, and not at all once connectDestroyed has run. */
  ghost predicate Advances(k: Conn, k': Conn) {
    && k'.loop == k.loop
    && (k'.state == k.state || TcpStream.StateAfter(k.state, k'.state))
    && StageBefore(k.stage, k'.stage)
    && k.ups <= k'.ups && k.downs <= k'.downs && k.destroys <= k'.destroys
    && (k.stage == Gone ==> k' == k)
  }

  ghost predicate AllAdvance(w: World, w': World) {
    forall c :: c in w.conns ==> c in w'.conns && Advances(w.conns[c], w'.conns[c])
  }

  lemma EffectAdvances(w: World, l: LoopId, op: Op, choice: Choice)
    requires ConnsOk(w) && HeadOk(w, l, op)
    ensures var e := EffectOf(w, l, op, choice); e.c in w.conns && Advances(w.conns[e.c], e.conn)
  {
    if op.UsersOwn() {
      UserAdvances(w, l, op, choice);
    }
  }

  lemma UserAdvances(w: World, l: LoopId, op: Op, choice: Choice)
    requires ConnsOk(w) && HeadOk(w, l, op) && op.UsersOwn()
    ensures var e := UserEffect(w, l, op, choice); e.c in w.conns && Advances(w.conns[e.c], e.conn)
  {
  }

  lemma ApplyAdvances(w: World, l: LoopId, e: Effect)
    requires l in w.loops && w.loops[l].todo != [] && e.to in w.loops && e.c in w.conns
    requires Advances(w.conns[e.c], e.conn)
    ensures AllAdvance(w, Apply(w, l, e))
  {
  }

  lemma StepAdvances(w: World, a: Action)
    requires Inv(w) && Enabled(w, a)
    ensures AllAdvance(w, Next(w, a))
  {
    if a.Work? {
      HeadIsOk(w, a.l);
      EffectAdvances(w, a.l, w.loops[a.l].todo[0], a.choice);
      ApplyAdvances(w, a.l, EffectOf(w, a.l, w.loops[a.l].todo[0], a.choice));
    } else if a.Accept? {
      assert w.nextId !in w.conns;
    }
  }

  lemma AdvanceTransitive(a: World, b: World, c: World)
    requires AllAdvance(a, b) && AllAdvance(b, c)
    ensures AllAdvance(a, c)
  {
    forall x | x in a.conns ensures x in c.conns && Advances(a.conns[x], c.conns[x]) {
      assert Advances(a.conns[x], b.conns[x]) && Advances(b.conns[x], c.conns[x]);
    }
  }

  lemma {:induction false} RunKeepsInv(w: World, actions: seq<Action>)
    requires Inv(w) && Playable(w, actions) && AllDisciplined(w, actions)
    ensures Inv(Play(w, actions)) && AllAdvance(w, Play(w, actions))
    decreases |actions|
  {
    if actions == [] {
    } else {
      var m := Next(w, actions[0]);
      StepKeepsInv(w, actions[0]);
      StepAdvances(w, actions[0]);
      RunKeepsInv(m, actions[1..]);
      AdvanceTransitive(w, m, Play(m, actions[1..]));
    }
  }

  lemma InitialIsInv(w: World)
    requires Initial(w)
    ensures Inv(w)
  {
    forall l | l in w.loops ensures LoopOk(w, l) {
      assert Ahead(w.loops[l]) == [];
    }
  }

  /** What a connection k may have become later. */
  predicate InOrder(k: Conn, later: Conn) {
    && k.downs <= k.ups <= 1
    && k.destroys <= k.downs
    && (k.state == later.state || TcpStream.StateAfter(k.state, later.state))
    && (k.destroys == 1 ==> later == k)
  }

  /** The protocol: in every interleaving, no assertion fails; each connection sees at most one UP, then at
      most one DOWN; its state only moves forward; connectDestroyed runs at most once, after DOWN, and
      nothing happens to the connection afterwards. */
  lemma LifecycleProtocol(w: World, before: seq<Action>, after: seq<Action>)
    requires Initial(w)
    requires Playable(w, before) && AllDisciplined(w, before)
    requires Playable(Play(w, before), after) && AllDisciplined(Play(w, before), after)
    ensures var m := Play(w, before);
            var r := Play(m, after);
            && !m.broken && !r.broken
            && forall c :: c in m.conns ==> c in r.conns && InOrder(m.conns[c], r.conns[c])
  {
    InitialIsInv(w);
    RunKeepsInv(w, before);
    var m := Play(w, before);
    RunKeepsInv(m, after);
    var r := Play(m, after);
    forall c | c in m.conns ensures c in r.conns && InOrder(m.conns[c], r.conns[c]) {
      assert ConnOk(m.conns[c]) && Advances(m.conns[c], r.conns[c]);
    }
  }

  /** Somebody owns the connection: the server's map, a functor that is queued or was swapped out in the
      pass that is running, or a callback of the user that holds it and is running. */
  ghost predicate Held(w: World, c: ConnId) {
    c in w.server || exists l: LoopId, op: Op :: l in w.loops && op.c == c && Holds(w.loops[l], op)
  }

  predicate Holds(b: Loop, op: Op) {
    op in b.vector || op in b.pending || (op.UserCode? && op in b.todo)
  }

  lemma DueIsAhead(w: World, l: LoopId, t: Op)
    requires l in w.loops && LoopOk(w, l) && t.Token() && IsDue(w, l, t)
    ensures t in w.loops[l].todo || t in w.loops[l].vector || t in w.loops[l].pending
  {
    var b := w.loops[l];
    AheadTally(b, t);
    TallyFinds(b.todo, t);
    TallyFinds(b.vector[b.next..], t);
    TallyFinds(b.pending, t);
  }

  lemma HeldUntilDestroyed(w: World, c: ConnId)
    requires Inv(w) && c in w.conns && w.conns[c].destroys == 0
    ensures Held(w, c)
  {
    assert ConnOk(w.conns[c]);
    if w.conns[c].stage == Destroying {
      var l := w.conns[c].loop;
      assert LoopOk(w, l);
      DueIsAhead(w, l, Destroy(c));
      if Destroy(c) in w.loops[l].todo {
        assert TodoOk(w, l, w.loops[l], Destroy(c));
      }
      assert Destroy(c).c == c && Holds(w.loops[l], Destroy(c));
    }
  }

  /** Lifetime: from construction until connectDestroyed has run some strong reference holds the
      connection; and whatever a loop is in the middle of, or has still to dispatch, is about a
      connection that is held. */
  lemma Lifetime(w: World, actions: seq<Action>)
    requires Initial(w) && Playable(w, actions) && AllDisciplined(w, actions)
    ensures var r := Play(w, actions);
            && (forall c :: c in r.conns && r.conns[c].destroys == 0 ==> Held(r, c))
            && (forall l, p :: l in r.loops && p in r.loops[l].batch ==>
                  p.c in r.conns && r.conns[p.c].destroys == 0 && Held(r, p.c))
            && (forall l: LoopId, op: Op :: l in r.loops && op in r.loops[l].todo ==> op.c in r.conns && Held(r, op.c))
  {
    InitialIsInv(w);
    RunKeepsInv(w, actions);
    var r := Play(w, actions);
    forall c | c in r.conns && r.conns[c].destroys == 0 ensures Held(r, c) {
      HeldUntilDestroyed(r, c);
    }
    forall l, p | l in r.loops && p in r.loops[l].batch
      ensures p.c in r.conns && r.conns[p.c].destroys == 0 && Held(r, p.c)
    {
      assert LoopOk(r, l) && ReportOk(r, l, p) && ConnOk(r.conns[p.c]);
      HeldUntilDestroyed(r, p.c);
    }
    forall l: LoopId, op: Op | l in r.loops && op in r.loops[l].todo
      ensures op.c in r.conns && Held(r, op.c)
    {
      assert LoopOk(r, l) && TodoOk(r, l, r.loops[l], op) && ConnOk(r.conns[op.c]);
      if op.UserCode? {
        assert Holds(r.loops[l], op);
      } else {
        HeldUntilDestroyed(r, op.c);
      }
    }
  }
}
