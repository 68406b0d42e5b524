/** The message handler that drives parser, responder and connection, and what a client can get out of it. */
module HttpService {
  import opened Wrappers
  import opened Bytes
  import ByteBuffer
  import opened HttpMessage
  import opened HttpParser
  import opened HttpPrinter
  import opened TcpStream

  const BAD_REQUEST_LINE: string := "HTTP/1.1 400 Bad Request\r\n\r\n"

  /** The response the user's handler fills in, or the built-in one when there is no handler. The
      handler sees the request and an empty response that is set to close. */
  function Respond(handler: Option<Request -> Reply>, q: Request): Reply {
    match handler
    case Some(h) => h(q)
    case None => Reply(NotFound, "Not Found", true, map[], "")
  }

  /** A responder, on values: the bytes it serializes for a request, and whether it closes. */
  datatype Responder = Responder(text: Request -> string, closes: Request -> bool)

  /** The kernel's answers to the two writes one call may cause. */
  datatype Answers = Answers(toError: WriteAnswer, toReply: WriteAnswer)

  /** What one server-side connection consists of: its parser and its stream. The bytes not parsed
      yet are the connection's input. */
  datatype Session = Session(state: ParseState, request: Request, conn: Conn) {
    function Parser(): Parser { HttpParser.Parser.Parser(state, request, conn.input) }
    function Store(p: Parser): Session { Session(p.state, p.request, conn.(input := p.unread)) }
  }

  function SendText(c: Conn, text: string, answer: WriteAnswer): Conn {
    Called(c, Send(text, answer, []))
  }

  /** A request line that was refused: the error line, then the half-close. */
  function Refused(c: Conn, answer: WriteAnswer): Conn {
    Called(SendText(c, BAD_REQUEST_LINE, answer), Shutdown)
  }

  /** A whole request: the reply, then the half-close or a fresh parser. */
  function Replied(s: Session, text: string, closes: bool, answer: WriteAnswer): Session {
    var c := SendText(s.conn, text, answer);
    if closes then s.(conn := Called(c, Shutdown)) else Session(ExpectRequestLine, EMPTY_REQUEST, c)
  }

  /** The first half of onMessage: parse what is there, and refuse a bad request line. */
  function Parsed(s: Session, answer: WriteAnswer): Session {
    var (p, ok) := Parse(s.Parser());
    var s1 := s.Store(p);
    if ok then s1 else s1.(conn := Refused(s1.conn, answer))
  }

  /** onMessage on values. */
  function Handled(s: Session, r: Responder, answers: Answers): Session {
    var s2 := Parsed(s, answers.toError);
    if s2.state == GotAll then Replied(s2, r.text(s2.request), r.closes(s2.request), answers.toReply) else s2
  }

  class HttpServer {
    const httpCallback: Option<Request -> Reply>

    constructor (httpCallback: Option<Request -> Reply>)
      ensures this.httpCallback == httpCallback
    {
      this.httpCallback := httpCallback;
    }

    /** Fills a response object the way the handler does. */
    method FillResponse(response: HttpResponse, q: Request)
      modifies response
      ensures response.Value() == Respond(httpCallback, q)
      ensures httpCallback.Some? ==> response.Value() == httpCallback.value(q)
      ensures httpCallback.None? ==> response.Value() == Reply(NotFound, "Not Found", true, map[], "")
    {
      var reply := Respond(httpCallback, q);
      response.statusCode := reply.status;
      response.statusMessage := reply.message;
      response.closeConnection := reply.close;
      response.headers := reply.headers;
      response.body := reply.body;
    }

    /** `order` is the order the response's header map was visited in, if it was printed. */
    method OnMessage(conn: TcpConnection, context: HttpContext, answers: Answers) returns (ghost order: seq<string>)
      requires conn.Valid() && {context, context.request} !! conn.Footprint()
      modifies conn.Footprint(), context`state, context.request
      ensures conn.Valid() && fresh(conn.Footprint() - old(conn.Footprint()))
      ensures var start := old(Snapshot(conn, context));
              var reply := Respond(httpCallback, Parsed(start, answers.toError).request);
              && Visits(order, reply.headers)
              && Snapshot(conn, context)
                 == Handled(start, Responder(_ => Text(reply, order), _ => reply.close), answers)
    {
      ParseOrRefuse(conn, context, answers.toError);
      if context.state == GotAll {
        order := SendReply(conn, context, answers.toReply);
      } else {
        order := SomeOrder(Respond(httpCallback, context.request.Value()).headers);
      }
    }

    method ParseOrRefuse(conn: TcpConnection, context: HttpContext, answer: WriteAnswer)
      requires conn.Valid() && {context, context.request} !! conn.Footprint()
      modifies conn.Footprint(), context`state, context.request
      ensures conn.Valid() && fresh(conn.Footprint() - old(conn.Footprint()))
      ensures Snapshot(conn, context) == Parsed(old(Snapshot(conn, context)), answer)
    {
      ghost var start := Snapshot(conn, context);
      var ok := context.ParseRequest(conn.inputBuffer);
      ghost var p := context.Knows(conn.inputBuffer);
      assert (p, ok) == Parse(start.Parser());
      assert Snapshot(conn, context) == start.Store(p);
      if !ok {
        Refuse(conn, answer);
      }
    }

    /** The branch for a bad request line. */
    method Refuse(conn: TcpConnection, answer: WriteAnswer)
      requires conn.Valid()
      modifies conn.Footprint()
      ensures conn.Valid() && fresh(conn.Footprint() - old(conn.Footprint()))
      ensures conn.View() == Refused(old(conn.View()), answer)
    {
      conn.Send(BAD_REQUEST_LINE, answer, []);
      conn.Shutdown();
    }

    method SendReply(conn: TcpConnection, context: HttpContext, answer: WriteAnswer) returns (ghost order: seq<string>)
      requires conn.Valid() && {context, context.request} !! conn.Footprint()
      modifies conn.Footprint(), context`state, context.request
      ensures conn.Valid() && fresh(conn.Footprint() - old(conn.Footprint()))
      ensures var start := old(Snapshot(conn, context));
              var reply := Respond(httpCallback, start.request);
              && Visits(order, reply.headers)
              && Snapshot(conn, context) == Replied(start, Text(reply, order), reply.close, answer)
    {
      ghost var start := Snapshot(conn, context);
      var buf, closes;
      buf, closes, order := PrintReply(context.request.Value());
      ghost var text := Text(Respond(httpCallback, start.request), order);
      assert buf.Contents() == text;
      conn.SendBuffer(buf, answer, []);
      assert Snapshot(conn, context) == start.(conn := SendText(start.conn, text, answer));
      if closes {
        conn.Shutdown();
      } else {
        context.Reset();
      }
    }

    /** Runs the handler and prints its response into a new buffer. */
    method PrintReply(q: Request) returns (buf: ByteBuffer.Buffer, closes: bool, ghost order: seq<string>)
      ensures fresh(buf) && fresh(buf.buffer) && buf.Valid()
      ensures var reply := Respond(httpCallback, q);
              Visits(order, reply.headers) && buf.Contents() == Text(reply, order) && closes == reply.close
    {
      var response := new HttpResponse(true);
      FillResponse(response, q);
      buf := new ByteBuffer.Buffer();
      order := response.AppendToBuffer(buf);
      closes := response.closeConnection;
    }

    ghost function Snapshot(conn: TcpConnection, context: HttpContext): Session
      reads context, context.request, conn, conn.inputBuffer, conn.outputBuffer,
            conn.inputBuffer.buffer, conn.outputBuffer.buffer
      requires conn.Valid()
    {
      Session(context.state, context.request.Value(), conn.View())
    }
  }

  lemma RefusalInParts()
    ensures BAD_REQUEST_LINE == "HTTP/1.1 400 Bad Request" + CRLF + CRLF
  {
  }

  lemma RefusalStatus()
    ensures "HTTP/1.1 400 Bad Request" == "HTTP/1.1 " + ("400" + [' '] + "Bad Request")
  {
  }

  lemma RefusalStatusIsRead()
    ensures ReadStatus("HTTP/1.1 400 Bad Request") == Some((400, "Bad Request"))
  {
    RefusalStatus();
    Digits();
    DecimalRoundTrip(400);
    StatusIsCut("400", "Bad Request");
  }

  /** A refusal is a status line 400 and the end of the header section, with nothing behind it. */
  lemma RefusalIsRead()
    ensures SplitHead(BAD_REQUEST_LINE) == Some((["HTTP/1.1 400 Bad Request"], ""))
    ensures ReadStatus("HTTP/1.1 400 Bad Request") == Some((400, "Bad Request"))
  {
    RefusalInParts();
    RefusalStatusIsRead();
    LineIsWhole("HTTP/1.1 400 Bad Request");
  }

  lemma LineIsWhole(line: string)
    requires line != "" && OneLine(line)
    ensures SplitHead(line + CRLF + CRLF) == Some(([line], ""))
  {
    EmptyLineEndsHead("");
    assert CRLF + "" == CRLF;
    LineIsSplitOff(line, CRLF);
    var none: seq<string> := [];
    assert [line] + none == [line];
  }

  /** Without a handler a request is answered with the built-in response, letter by letter. */
  lemma BuiltInReply(q: Request)
    ensures Serialized(Respond(None, q), [])
            == "HTTP/1.1 " + "404" + " " + "Not Found" + "\r\n" + "Content-Length: " + "0" + "\r\n"
               + "Connection: close\r\n" + "\r\n" + ""
  {
    BareResponse(Respond(None, q));
    Digits();
  }

  /** The reply as text; total, so that it can be named before the order is known to fit. */
  ghost function Text(r: Reply, order: seq<string>): string {
    if Visits(order, r.headers) then Serialized(r, order) else ""
  }

  /** Every header map can be visited in some order. */
  lemma SomeOrder(headers: map<string, string>) returns (order: seq<string>)
    ensures Visits(order, headers)
  {
    var rest := headers.Keys;
    order := [];
    while rest != {}
      invariant rest <= headers.Keys
      invariant forall k :: k in headers && k !in rest <==> k in order
      invariant forall i, j :: 0 <= i < j < |order| ==> order[i] != order[j]
      decreases |rest|
    {
      var k :| k in rest;
      order := order + [k];
      rest := rest - {k};
    }
  }

  // ---------------------------------------------------------------------------
  // End to end: one connection gets at most one reply

  /** What happens to a server-side connection after it is up. Bytes arrive only while the channel
      still reads; Lost is a close by the peer or an error on the connection. */
  datatype ServerEvent =
    | Arrive(bytes: string, answers: Answers)
    | Flush(answer: WriteAnswer)
    | Lost

  function Serve(s: Session, r: Responder, e: ServerEvent): Session {
    match e
    case Arrive(bytes, answers) =>
      if s.conn.state == Disconnected then s
      else Handled(s.(conn := s.conn.(input := s.conn.input + bytes)), r, answers)
    case Flush(answer) => s.(conn := WriteHandled(s.conn, answer, []))
    case Lost => if s.conn.state == Disconnected then s else s.(conn := Closed(s.conn, []))
  }

  function ServeAll(s: Session, r: Responder, es: seq<ServerEvent>): Session
    decreases |es|
  {
    if es == [] then s else ServeAll(Serve(s, r, es[0]), r, es[1..])
  }

  /** The bytes an event brings to the message handler. */
  function Gets(s: Session, e: ServerEvent): string {
    if e.Arrive? && s.conn.state != Disconnected then e.bytes else ""
  }

  /** The bytes that reached the message handler. */
  function Received(s: Session, r: Responder, es: seq<ServerEvent>): string
    decreases |es|
  {
    if es == [] then "" else Gets(s, es[0]) + Received(Serve(s, r, es[0]), r, es[1..])
  }

  /** The whole answer to a connection, as a function of the bytes received on it. */
  function Answer(r: Responder, u: string): string {
    var (p, ok) := Parse(Start(u));
    if !ok then BAD_REQUEST_LINE
    else if p.state == GotAll then r.text(p.request)
    else ""
  }

  /** The bytes received so far determine the answer, and nothing they could be followed by changes it. */
  predicate Decided(u: string) {
    var (p, ok) := Parse(Start(u));
    !ok || p.state == GotAll
  }

  const NEW_SESSION := Session(ExpectRequestLine, EMPTY_REQUEST, Up(NEW_CONN))

  /** The parser of a new context, with bytes to read. */
  function Start(u: string): Parser { Parser(ExpectRequestLine, EMPTY_REQUEST, u) }

  /** The invariant of a run in which u has been received, on top of what was accepted before. */
  ghost predicate Follows(s: Session, r: Responder, base: string, u: string) {
    && (s.conn.state != Disconnected ==> s.Parser() == Parse(Start(u)).0)
    && s.conn.accepted == base + Answer(r, u)
    && s.conn.state != Connecting
    && (s.conn.state == Connected ==> !Decided(u))
    && (s.conn.state == Disconnecting ==> Decided(u))
  }

  /** If the bytes hold a whole request, its response closes. */
  predicate ClosesOn(r: Responder, u: string) {
    Parse(Start(u)).0.state == GotAll ==> r.closes(Parse(Start(u)).0.request)
  }

  lemma DecidedStays(r: Responder, u: string, more: string)
    requires Decided(u)
    ensures Decided(u + more) && Answer(r, u + more) == Answer(r, u)
    ensures Parse(Start(u)).0.state == GotAll ==>
              Parse(Start(u + more)) == (Parse(Start(u)).0.More(more), true)
    ensures !Parse(Start(u)).1 ==> !Parse(Start(u + more)).1
  {
    ParseResumes(Start(u), more);
    assert Start(u).More(more) == Start(u + more);
    FirstLineDecides(EMPTY_REQUEST, u);
    FirstLineDecides(EMPTY_REQUEST, u + more);
    if !Parse(Start(u)).1 {
      LineEndIsStable(u, more);
    }
  }

  lemma ClosesOnPrefix(r: Responder, u: string, more: string)
    requires ClosesOn(r, u + more)
    ensures ClosesOn(r, u)
  {
    if Parse(Start(u)).0.state == GotAll {
      DecidedStays(r, u, more);
    }
  }

  /** Sends on a connection that cannot send, and the effect of one on a connected one. */
  lemma SendEffect(c: Conn, text: string, answer: WriteAnswer)
    ensures var d := Called(SendText(c, text, answer), Shutdown);
            && d.input == c.input
            && d.accepted == (if c.state == Connected then c.accepted + text else c.accepted)
            && d.state == (if c.state == Connected then Disconnecting else c.state)
  {
    PlainSend(c, text, answer);
  }

  lemma EventFollows(s: Session, r: Responder, base: string, u: string, e: ServerEvent)
    requires Follows(s, r, base, u) && ClosesOn(r, u + Gets(s, e))
    ensures Follows(Serve(s, r, e), r, base, u + Gets(s, e))
    ensures !e.Lost? && s.conn.state != Disconnected ==> Serve(s, r, e).conn.state != Disconnected
  {
    match e {
      case Arrive(bytes, answers) =>
        if s.conn.state == Disconnected {
          assert u + "" == u;
        } else {
          ArrivalFollows(s, r, base, u, bytes, answers);
        }
      case Flush(answer) =>
        assert u + "" == u;
      case Lost =>
        assert u + "" == u;
    }
  }

  /** What the handler leaves, when the parser comes to p with answer ok and a response closes. */
  lemma HandledLeaves(s: Session, r: Responder, answers: Answers, p: Parser, ok: bool)
    requires (p, ok) == Parse(s.Parser()) && (!ok ==> p.state != GotAll)
    requires p.state == GotAll ==> r.closes(p.request)
    ensures var t := Handled(s, r, answers);
            var text := if !ok then BAD_REQUEST_LINE else if p.state == GotAll then r.text(p.request) else "";
            && t.Parser() == p
            && t.conn.accepted == (if s.conn.state == Connected then s.conn.accepted + text else s.conn.accepted)
            && t.conn.state == (if s.conn.state == Connected && (!ok || p.state == GotAll) then Disconnecting
                                else s.conn.state)
  {
    var c := s.Store(p).conn;
    SendEffect(c, BAD_REQUEST_LINE, answers.toError);
    SendEffect(c, r.text(p.request), answers.toReply);
    assert s.conn.accepted + "" == s.conn.accepted;
  }

  lemma ArrivalParses(s: Session, u: string, bytes: string)
    requires s.Parser() == Parse(Start(u)).0
    ensures s.(conn := s.conn.(input := s.conn.input + bytes)).Parser() == s.Parser().More(bytes)
    ensures Parse(s.Parser().More(bytes)) == Parse(Start(u + bytes))
    ensures !Parse(Start(u + bytes)).1 ==> Parse(Start(u + bytes)).0.state != GotAll
  {
    ParseResumes(Start(u), bytes);
    assert Start(u).More(bytes) == Start(u + bytes);
    FirstLineDecides(EMPTY_REQUEST, u + bytes);
  }

  lemma ArrivalFollows(s: Session, r: Responder, base: string, u: string, bytes: string, answers: Answers)
    requires Follows(s, r, base, u) && s.conn.state != Disconnected && ClosesOn(r, u + bytes)
    ensures Follows(Serve(s, r, Arrive(bytes, answers)), r, base, u + bytes)
    ensures Serve(s, r, Arrive(bytes, answers)).conn.state != Disconnected
  {
    var s0 := s.(conn := s.conn.(input := s.conn.input + bytes));
    var (p, ok) := Parse(Start(u + bytes));
    ArrivalParses(s, u, bytes);
    HandledLeaves(s0, r, answers, p, ok);
    if s.conn.state == Disconnecting {
      DecidedStays(r, u, bytes);
    } else {
      assert base + "" == base;
    }
  }

  lemma {:induction false} RunFollows(s: Session, r: Responder, base: string, u: string, es: seq<ServerEvent>)
    requires Follows(s, r, base, u) && ClosesOn(r, u + Received(s, r, es))
    ensures Follows(ServeAll(s, r, es), r, base, u + Received(s, r, es))
    decreases |es|
  {
    if es == [] {
      assert u + "" == u;
    } else {
      var got, t, later := Gets(s, es[0]), Serve(s, r, es[0]), es[1..];
      JoinedText(u, got, Received(t, r, later));
      ClosesOnPrefix(r, u + got, Received(t, r, later));
      EventFollows(s, r, base, u, es[0]);
      RunFollows(t, r, base, u + got, later);
    }
  }

  lemma JoinedText(a: string, b: string, c: string)
    ensures (a + b) + c == a + (b + c)
  {
  }

  /** A session that waits for a request, with nothing read and `base` accepted so far. */
  ghost predicate Fresh(s: Session, base: string) {
    s.Parser() == Start("") && s.conn.state == Connected && s.conn.accepted == base
  }

  lemma FreshFollows(s: Session, r: Responder, base: string)
    requires Fresh(s, base)
    ensures Follows(s, r, base, "")
  {
    assert base + "" == base;
  }

  /** The bytes accepted for sending are nothing, one 400 line or one response; which one depends only on the
      concatenated input, not on how it was cut, nor on how writes went. It is enough that the response to
      the request that was sent closes. */
  lemma SingleReply(r: Responder, es: seq<ServerEvent>)
    requires ClosesOn(r, Received(NEW_SESSION, r, es))
    ensures ServeAll(NEW_SESSION, r, es).conn.accepted == Answer(r, Received(NEW_SESSION, r, es))
  {
    FreshFollows(NEW_SESSION, r, "");
    assert "" + Received(NEW_SESSION, r, es) == Received(NEW_SESSION, r, es);
    RunFollows(NEW_SESSION, r, "", "", es);
    assert "" + Answer(r, Received(NEW_SESSION, r, es)) == Answer(r, Received(NEW_SESSION, r, es));
  }

  /** Two connections that received the same bytes got the same answer. */
  lemma CutsDoNotMatter(r: Responder, es: seq<ServerEvent>, fs: seq<ServerEvent>)
    requires ClosesOn(r, Received(NEW_SESSION, r, es))
    requires Received(NEW_SESSION, r, es) == Received(NEW_SESSION, r, fs)
    ensures ServeAll(NEW_SESSION, r, es).conn.accepted == ServeAll(NEW_SESSION, r, fs).conn.accepted
  {
    SingleReply(r, es);
    SingleReply(r, fs);
  }

  /** End to end: a client that writes one well-formed request, however it is cut and whatever it
      writes after it, decodes exactly the handler's reply from what was accepted. */
  lemma ClientSeesReply(w: Written, more: string, reply: Reply, order: seq<string>,
                        r: Responder, es: seq<ServerEvent>)
    requires WellFormed(w) && Printable(reply) && Visits(order, reply.headers)
    requires r.closes(Meaning(w)) && r.text(Meaning(w)) == Text(reply, order)
    requires Received(NEW_SESSION, r, es) == Print(w) + more
    ensures Decode(ServeAll(NEW_SESSION, r, es).conn.accepted) == Some((Seen(reply), ""))
  {
    PrintedIsParsed(w, more);
    SingleReply(r, es);
    assert r.text(Meaning(w)) == Serialized(reply, order);
    FramingRoundTrip(reply, order, "");
    assert Serialized(reply, order) + "" == Serialized(reply, order);
  }

  // ---------------------------------------------------------------------------
  // Keep-alive: a connection serves one request after the other

  function Delivered(es: seq<ServerEvent>): string {
    if es == [] then "" else (if es[0].Arrive? then es[0].bytes else "") + Delivered(es[1..])
  }

  lemma {:induction false} DeliveredJoin(a: seq<ServerEvent>, b: seq<ServerEvent>)
    ensures Delivered(a + b) == Delivered(a) + Delivered(b)
    decreases |a|
  {
    if a == [] {
      assert a + b == b;
    } else {
      assert (a + b)[0] == a[0] && (a + b)[1..] == a[1..] + b;
      DeliveredJoin(a[1..], b);
    }
  }

  lemma {:induction false} ServeJoin(s: Session, r: Responder, a: seq<ServerEvent>, b: seq<ServerEvent>)
    ensures ServeAll(s, r, a + b) == ServeAll(ServeAll(s, r, a), r, b)
    decreases |a|
  {
    if a == [] {
      assert a + b == b;
    } else {
      assert (a + b)[0] == a[0] && (a + b)[1..] == a[1..] + b;
      ServeJoin(Serve(s, r, a[0]), r, a[1..], b);
    }
  }

  ghost predicate NoneLost(es: seq<ServerEvent>) {
    forall i :: 0 <= i < |es| ==> !es[i].Lost?
  }

  /** The bytes t are one whole request q. */
  ghost predicate WholeRequest(t: string, q: Request) {
    Parse(Start(t)) == (Parser(GotAll, q, ""), true)
  }

  lemma PrintedIsWhole(w: Written)
    requires WellFormed(w)
    ensures WholeRequest(Print(w), Meaning(w))
  {
    PrintedIsParsed(w, "");
    assert Print(w) + "" == Print(w);
  }

  /** Before the last byte of a whole request nothing is decided. */
  lemma PrefixIsUndecided(r: Responder, t: string, q: Request, u: string, more: string)
    requires WholeRequest(t, q) && u + more == t && more != ""
    ensures !Decided(u)
  {
    if Decided(u) {
      DecidedStays(r, u, more);
    }
  }

  lemma UndecidedEvent(s: Session, r: Responder, base: string, u: string, e: ServerEvent)
    requires Follows(s, r, base, u) && s.conn.state == Connected && !e.Lost? && !Decided(u + Gets(s, e))
    ensures Follows(Serve(s, r, e), r, base, u + Gets(s, e)) && Serve(s, r, e).conn.state == Connected
  {
    EventFollows(s, r, base, u, e);
  }

  /** While a request is incomplete, nothing is sent and the connection stays as it is. */
  lemma {:induction false} BeforeTheEnd(s: Session, r: Responder, base: string, u: string, es: seq<ServerEvent>,
                                        t: string, q: Request, more: string)
    requires Follows(s, r, base, u) && s.conn.state == Connected && NoneLost(es)
    requires WholeRequest(t, q) && u + Delivered(es) + more == t && more != ""
    ensures Follows(ServeAll(s, r, es), r, base, u + Delivered(es)) && ServeAll(s, r, es).conn.state == Connected
    decreases |es|
  {
    if es == [] {
      assert u + "" == u;
    } else {
      var got, rest := Gets(s, es[0]), es[1..];
      JoinedText(u + got, Delivered(rest), more);
      JoinedText(u, got, Delivered(rest));
      PrefixIsUndecided(r, t, q, u + got, Delivered(rest) + more);
      assert !es[0].Lost? && NoneLost(rest);
      UndecidedEvent(s, r, base, u, es[0]);
      BeforeTheEnd(Serve(s, r, es[0]), r, base, u + got, rest, t, q, more);
    }
  }

  /** The piece that completes a request whose response keeps the connection: the response is sent, and the
      session waits for the next request. */
  lemma LastPiece(s: Session, r: Responder, base: string, u: string, bytes: string, answers: Answers, q: Request)
    requires Follows(s, r, base, u) && s.conn.state == Connected
    requires WholeRequest(u + bytes, q) && !r.closes(q)
    ensures Fresh(Serve(s, r, Arrive(bytes, answers)), base + r.text(q))
  {
    ArrivalParses(s, u, bytes);
    PlainSend(s.conn.(input := ""), r.text(q), answers.toReply);
    assert base + "" == base;
  }

  /** The events of one request: pieces that end with its last byte, and writable events between them. */
  ghost predicate OneRequest(es: seq<ServerEvent>, w: Written) {
    && WellFormed(w) && NoneLost(es) && Delivered(es) == Print(w)
    && es != [] && es[|es| - 1].Arrive? && es[|es| - 1].bytes != ""
  }

  lemma RequestIsServed(s: Session, r: Responder, base: string, es: seq<ServerEvent>, w: Written)
    requires Fresh(s, base) && OneRequest(es, w) && !r.closes(Meaning(w))
    ensures Fresh(ServeAll(s, r, es), base + r.text(Meaning(w)))
  {
    var front, last := es[..|es| - 1], es[|es| - 1];
    assert es == front + [last];
    assert NoneLost(front);
    PrintedIsWhole(w);
    WholeIsServed(s, r, base, front, last, Print(w), Meaning(w));
  }

  lemma WholeIsServed(s: Session, r: Responder, base: string, front: seq<ServerEvent>, last: ServerEvent,
                      t: string, q: Request)
    requires Fresh(s, base) && NoneLost(front) && last.Arrive? && last.bytes != ""
    requires WholeRequest(t, q) && Delivered(front + [last]) == t && !r.closes(q)
    ensures Fresh(ServeAll(s, r, front + [last]), base + r.text(q))
  {
    LastDelivered(front, last);
    FreshFollows(s, r, base);
    assert "" + Delivered(front) == Delivered(front);
    BeforeTheEnd(s, r, base, "", front, t, q, last.bytes);
    ServeLast(s, r, front, last);
    LastPiece(ServeAll(s, r, front), r, base, Delivered(front), last.bytes, last.answers, q);
  }

  lemma LastDelivered(front: seq<ServerEvent>, last: ServerEvent)
    requires last.Arrive?
    ensures Delivered(front + [last]) == Delivered(front) + last.bytes
  {
    DeliveredJoin(front, [last]);
    assert [last][1..] == [];
    assert Delivered([last]) == last.bytes + "" == last.bytes;
  }

  lemma ServeLast(s: Session, r: Responder, front: seq<ServerEvent>, last: ServerEvent)
    ensures ServeAll(s, r, front + [last]) == Serve(ServeAll(s, r, front), r, last)
  {
    ServeJoin(s, r, front, [last]);
    assert [last][1..] == [];
  }

  /** The events of one request after the other, and writable events at the end. */
  ghost predicate Requests(es: seq<ServerEvent>, ws: seq<Written>)
    decreases |ws|
  {
    if ws == [] then forall i :: 0 <= i < |es| ==> es[i].Flush?
    else exists k :: 0 <= k <= |es| && OneRequest(es[..k], ws[0]) && Requests(es[k..], ws[1..])
  }

  function Texts(r: Responder, ws: seq<Written>): string {
    if ws == [] then "" else r.text(Meaning(ws[0])) + Texts(r, ws[1..])
  }

  lemma {:induction false} FlushesKeepFresh(s: Session, r: Responder, base: string, es: seq<ServerEvent>)
    requires Fresh(s, base) && forall i :: 0 <= i < |es| ==> es[i].Flush?
    ensures Fresh(ServeAll(s, r, es), base)
    decreases |es|
  {
    if es == [] {
    } else {
      assert es[0].Flush?;
      FlushesKeepFresh(Serve(s, r, es[0]), r, base, es[1..]);
    }
  }

  ghost predicate NoneCloses(r: Responder, ws: seq<Written>) {
    ws == [] || (!r.closes(Meaning(ws[0])) && NoneCloses(r, ws[1..]))
  }

  lemma OneThenRest(s: Session, r: Responder, base: string, es: seq<ServerEvent>, k: nat, w: Written)
    requires Fresh(s, base) && k <= |es| && OneRequest(es[..k], w) && !r.closes(Meaning(w))
    ensures var t := ServeAll(s, r, es[..k]);
            Fresh(t, base + r.text(Meaning(w))) && ServeAll(s, r, es) == ServeAll(t, r, es[k..])
  {
    assert es == es[..k] + es[k..];
    RequestIsServed(s, r, base, es[..k], w);
    ServeJoin(s, r, es[..k], es[k..]);
  }

  /** Keep-alive: n requests one after the other, each cut anyhow up to its last byte, whose responses keep the
      connection: exactly their n responses are accepted, in order, and the session waits for the next
      request with nothing unread. */
  lemma {:induction false} KeepAliveServesAll(s: Session, r: Responder, base: string, es: seq<ServerEvent>,
                                              ws: seq<Written>)
    requires Fresh(s, base) && Requests(es, ws)
    requires NoneCloses(r, ws)
    ensures Fresh(ServeAll(s, r, es), base + Texts(r, ws))
    decreases |ws|
  {
    if ws == [] {
      FlushesKeepFresh(s, r, base, es);
      assert base + "" == base;
    } else {
      var k :| 0 <= k <= |es| && OneRequest(es[..k], ws[0]) && Requests(es[k..], ws[1..]);
      var t, text := ServeAll(s, r, es[..k]), r.text(Meaning(ws[0]));
      OneThenRest(s, r, base, es, k, ws[0]);
      assert NoneCloses(r, ws[1..]);
      KeepAliveServesAll(t, r, base + text, es[k..], ws[1..]);
      JoinedText(base, text, Texts(r, ws[1..]));
    }
  }

  /** From a new connection: n kept-alive requests, then anything that is answered once and closed. */
  lemma KeepAliveThenReply(r: Responder, es: seq<ServerEvent>, ws: seq<Written>, last: seq<ServerEvent>)
    requires Requests(es, ws) && NoneCloses(r, ws)
    requires ClosesOn(r, Received(ServeAll(NEW_SESSION, r, es), r, last))
    ensures ServeAll(NEW_SESSION, r, es + last).conn.accepted
            == Texts(r, ws) + Answer(r, Received(ServeAll(NEW_SESSION, r, es), r, last))
  {
    var t := ServeAll(NEW_SESSION, r, es);
    KeepAliveServesAll(NEW_SESSION, r, "", es, ws);
    assert "" + Texts(r, ws) == Texts(r, ws);
    ServeJoin(NEW_SESSION, r, es, last);
    FreshFollows(t, r, Texts(r, ws));
    assert "" + Received(t, r, last) == Received(t, r, last);
    RunFollows(t, r, Texts(r, ws), "", last);
  }

  // ---------------------------------------------------------------------------
  // The session's connection is the one of module TcpStream

  lemma {:induction false} UnreadIsSuffix(p: Parser)
    ensures |Parse(p).0.unread| <= |p.unread|
    ensures Parse(p).0.unread == p.unread[|p.unread| - |Parse(p).0.unread|..]
    decreases |p.unread|
  {
    var s := Step(p);
    if s.more {
      UnreadIsSuffix(s.after);
      var i := FindLineEnd(p.unread).value;
      assert s.after.unread == p.unread[i + 2..];
    }
  }

  /** The calls the message handler makes on the connection, given all the bytes it finds. */
  function HandlerCalls(s: Session, r: Responder, found: string, answers: Answers): seq<Call> {
    var (p, ok) := Parse(Parser(s.state, s.request, found));
    UnreadIsSuffix(Parser(s.state, s.request, found));
    [Consume(|found| - |p.unread|)]
    + (if ok then [] else [Send(BAD_REQUEST_LINE, answers.toError, []), Shutdown])
    + (if p.state != GotAll then []
       else [Send(r.text(p.request), answers.toReply, [])] + if r.closes(p.request) then [Shutdown] else [])
  }

  /** An event of the server as the connection sees it; none if it is closed. */
  function EventOf(s: Session, r: Responder, e: ServerEvent): seq<Event> {
    if s.conn.state == Disconnected && !e.Flush? then []
    else match e
      case Arrive(bytes, answers) =>
        [Readable(ByteBuffer.ReadOk(bytes), HandlerCalls(s, r, s.conn.input + bytes, answers), [])]
      case Flush(answer) => [Writable(answer, [])]
      case Lost => [Hangup([])]
  }

  lemma {:induction false} CallsJoin(c: Conn, a: seq<Call>, b: seq<Call>)
    ensures AllCalled(c, a + b) == AllCalled(AllCalled(c, a), b)
    decreases |a|
  {
    if a == [] {
      assert a + b == b;
    } else {
      assert (a + b)[0] == a[0] && (a + b)[1..] == a[1..] + b;
      CallsJoin(Called(c, a[0]), a[1..], b);
    }
  }

  lemma OneCall(c: Conn, call: Call)
    ensures AllCalled(c, [call]) == Called(c, call)
  {
    assert [call][1..] == [];
  }

  lemma TwoCalls(c: Conn, first: Call, second: Call)
    ensures AllCalled(c, [first, second]) == Called(Called(c, first), second)
  {
    assert [first, second][1..] == [second];
    OneCall(Called(c, first), second);
  }

  lemma EatIsParse(s: Session, p: Parser)
    requires |p.unread| <= |s.conn.input| && p.unread == s.conn.input[|s.conn.input| - |p.unread|..]
    ensures AllCalled(s.conn, [Consume(|s.conn.input| - |p.unread|)]) == s.Store(p).conn
  {
    ConsumeCuts(s.conn, p.unread);
    OneCall(s.conn, Consume(|s.conn.input| - |p.unread|));
  }

  lemma ConsumeCuts(c: Conn, unread: string)
    requires |unread| <= |c.input| && unread == c.input[|c.input| - |unread|..]
    ensures Called(c, Consume(|c.input| - |unread|)) == c.(input := unread)
  {
  }

  lemma RefuseIsCalls(c: Conn, ok: bool, answer: WriteAnswer)
    ensures AllCalled(c, if ok then [] else [Send(BAD_REQUEST_LINE, answer, []), Shutdown])
            == if ok then c else Refused(c, answer)
  {
    TwoCalls(c, Send(BAD_REQUEST_LINE, answer, []), Shutdown);
  }

  lemma ReplyIsCalls(s: Session, text: string, closes: bool, answer: WriteAnswer)
    ensures AllCalled(s.conn, [Send(text, answer, [])] + if closes then [Shutdown] else [])
            == Replied(s, text, closes, answer).conn
  {
    CallsJoin(s.conn, [Send(text, answer, [])], if closes then [Shutdown] else []);
    OneCall(s.conn, Send(text, answer, []));
    OneCall(SendText(s.conn, text, answer), Shutdown);
  }

  /** Parsing and refusing, as calls. */
  lemma ParsedIsCalls(s: Session, answer: WriteAnswer)
    ensures var (p, ok) := Parse(s.Parser());
            && |p.unread| <= |s.conn.input|
            && AllCalled(s.conn, [Consume(|s.conn.input| - |p.unread|)]
                                 + if ok then [] else [Send(BAD_REQUEST_LINE, answer, []), Shutdown])
               == Parsed(s, answer).conn
  {
    var (p, ok) := Parse(s.Parser());
    UnreadIsSuffix(s.Parser());
    EatIsParse(s, p);
    RefuseIsCalls(s.Store(p).conn, ok, answer);
    CallsJoin(s.conn, [Consume(|s.conn.input| - |p.unread|)],
              if ok then [] else [Send(BAD_REQUEST_LINE, answer, []), Shutdown]);
  }

  /** What the handler does to the connection is what those calls do. */
  lemma HandlerIsCalls(s: Session, r: Responder, answers: Answers)
    ensures AllCalled(s.conn, HandlerCalls(s, r, s.conn.input, answers)) == Handled(s, r, answers).conn
  {
    var s2 := Parsed(s, answers.toError);
    ParsedIsCalls(s, answers.toError);
    ReplyIsCalls(s2, r.text(s2.request), r.closes(s2.request), answers.toReply);
    var (p, ok) := Parse(s.Parser());
    assert s2.request == p.request && s2.state == p.state;
    CallsJoin(s.conn,
              [Consume(|s.conn.input| - |p.unread|)]
              + (if ok then [] else [Send(BAD_REQUEST_LINE, answers.toError, []), Shutdown]),
              if p.state != GotAll then []
              else [Send(r.text(p.request), answers.toReply, [])] + if r.closes(p.request) then [Shutdown] else []);
  }

  /** Each event of the server is the event of its connection that carries it, with the message handler as
      the message callback. */
  lemma EventIsTheConnections(s: Session, r: Responder, e: ServerEvent)
    requires e.Arrive? ==> e.bytes != ""
    ensures HappenAll(s.conn, EventOf(s, r, e)) == Serve(s, r, e).conn
  {
    var es := EventOf(s, r, e);
    if es != [] {
      assert es[1..] == [];
      if e.Arrive? {
        HandlerIsCalls(s.(conn := s.conn.(input := s.conn.input + e.bytes)), r, e.answers);
      }
    }
  }

  function EventsOf(s: Session, r: Responder, es: seq<ServerEvent>): seq<Event>
    decreases |es|
  {
    if es == [] then [] else EventOf(s, r, es[0]) + EventsOf(Serve(s, r, es[0]), r, es[1..])
  }

  lemma {:induction false} HappenJoin(c: Conn, a: seq<Event>, b: seq<Event>)
    ensures HappenAll(c, a + b) == HappenAll(HappenAll(c, a), b)
    ensures AllAllowed(c, a) && AllAllowed(HappenAll(c, a), b) ==> AllAllowed(c, a + b)
    decreases |a|
  {
    if a == [] {
      assert a + b == b;
    } else {
      assert (a + b)[0] == a[0] && (a + b)[1..] == a[1..] + b;
      HappenJoin(Happen(c, a[0]), a[1..], b);
    }
  }

  lemma {:induction false} ServedIsARun(s: Session, r: Responder, es: seq<ServerEvent>)
    requires s.conn.state != Connecting
    requires forall i :: 0 <= i < |es| ==> (es[i].Arrive? ==> es[i].bytes != "")
    requires Settled(s.conn)
    ensures HappenAll(s.conn, EventsOf(s, r, es)) == ServeAll(s, r, es).conn
    ensures AllAllowed(s.conn, EventsOf(s, r, es))
    decreases |es|
  {
    if es == [] {
    } else {
      var first, t := EventOf(s, r, es[0]), Serve(s, r, es[0]);
      EventIsTheConnections(s, r, es[0]);
      if first != [] {
        assert first[1..] == [];
        EventIsSound(s.conn, first[0]);
      }
      ServedIsARun(t, r, es[1..]);
      HappenJoin(s.conn, first, EventsOf(t, r, es[1..]));
    }
  }

  /** On the wire: what the kernel takes is at every time a prefix of the one answer to the bytes received,
      and the rest of it is buffered. */
  lemma WireCarriesAnswer(r: Responder, es: seq<ServerEvent>)
    requires forall i :: 0 <= i < |es| ==> (es[i].Arrive? ==> es[i].bytes != "")
    requires ClosesOn(r, Received(NEW_SESSION, r, es))
    ensures var c := ServeAll(NEW_SESSION, r, es).conn;
            c.kernel + c.output == Answer(r, Received(NEW_SESSION, r, es))
  {
    var up: seq<Event> := [Establish([])];
    assert up[1..] == [] && Happen(NEW_CONN, up[0]) == NEW_SESSION.conn;
    assert HappenAll(NEW_CONN, up) == NEW_SESSION.conn;
    RunIsSound(NEW_CONN, up);
    ServedIsARun(NEW_SESSION, r, es);
    var events := EventsOf(NEW_SESSION, r, es);
    HappenJoin(NEW_CONN, up, events);
    StreamIsConserved(up + events);
    SingleReply(r, es);
  }
}
