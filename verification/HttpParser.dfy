/** The resumable request parser over a byte buffer. */
module HttpParser {
  import opened Wrappers
  import opened Bytes
  import ByteBuffer
  import opened HttpMessage

  datatype ParseState = ExpectRequestLine | ExpectHeaders | ExpectBody | GotAll

  /** What the parser knows between two calls, with the bytes it has not consumed. */
  datatype Parser = Parser(state: ParseState, request: Request, unread: string) {
    function More(bytes: string): Parser { this.(unread := unread + bytes) }
  }

  /** A header line split at its first colon; everything after the colon is the value. */
  function WithHeaderLine(r: Request, line: string): Request {
    var colon := Find(line, ':');
    if colon < |line| then r.(headers := r.headers[line[..colon] := line[colon + 1..]]) else r
  }

  /** One round of the loop on values: the parser after it, its answer, and whether to go on. */
  datatype Round = Round(after: Parser, ok: bool, more: bool)

  function Step(p: Parser): (s: Round)
    ensures s.more ==> |s.after.unread| < |p.unread| && s.ok
  {
    if !p.state.ExpectRequestLine? && !p.state.ExpectHeaders? then Round(p, true, false) else
    match FindLineEnd(p.unread)
    case None => Round(p, true, false)
    case Some(i) => OnLine(p, p.unread[..i], p.unread[i + 2..])
  }

  function OnLine(p: Parser, line: string, rest: string): Round {
    if p.state.ExpectRequestLine? then
      var (r, ok) := ReadRequestLine(p.request, line);
      if ok then Round(Parser(ExpectHeaders, r, rest), true, true) else Round(p.(request := r), false, false)
    else if ':' in line then Round(Parser(ExpectHeaders, WithHeaderLine(p.request, line), rest), true, true)
    else Round(Parser(GotAll, p.request, rest), true, true)
  }

  /** The effect and the answer of one call, on values. */
  function Parse(p: Parser): (Parser, bool)
    decreases |p.unread|
  {
    var s := Step(p);
    if s.more then Parse(s.after) else (s.after, s.ok)
  }

  function Reset(p: Parser): Parser {
    Parser(ExpectRequestLine, EMPTY_REQUEST, p.unread)
  }

  class HttpContext {
    var state: ParseState
    const request: HttpRequest

    constructor ()
      ensures state == ExpectRequestLine && fresh(request) && request.Value() == EMPTY_REQUEST
    {
      state := ExpectRequestLine;
      request := new HttpRequest();
    }

    function Knows(buf: ByteBuffer.Buffer): Parser
      reads this, request, buf, buf.buffer
      requires buf.Valid()
    {
      Parser(state, request.Value(), buf.Contents())
    }

    method ParseRequest(buf: ByteBuffer.Buffer) returns (ok: bool)
      requires buf.Valid()
      modifies this`state, request, buf`readerIndex, buf`writerIndex
      ensures buf.Valid()
      ensures (Knows(buf), ok) == Parse(old(Knows(buf)))
    {
      ok := true;
      var hasMore := true;
      ghost var start := Knows(buf);
      while hasMore
        invariant buf.Valid()
        invariant hasMore ==> ok && Parse(Knows(buf)) == Parse(start)
        invariant !hasMore ==> (Knows(buf), ok) == Parse(start)
        decreases hasMore, |buf.Contents()|
      {
        if state == ExpectRequestLine {
          ok, hasMore := TakeRequestLine(buf);
        } else if state == ExpectHeaders {
          hasMore := TakeHeaderLine(buf);
        } else if state == ExpectBody {
          hasMore := false;
        } else {
          hasMore := false;
        }
      }
    }

    /** The branch of the loop that waits for a request line. */
    method TakeRequestLine(buf: ByteBuffer.Buffer) returns (ok: bool, hasMore: bool)
      requires buf.Valid() && state == ExpectRequestLine
      modifies this`state, request, buf`readerIndex, buf`writerIndex
      ensures buf.Valid() && Round(Knows(buf), ok, hasMore) == Step(old(Knows(buf)))
    {
      ok, hasMore := true, true;
      var crlf := buf.FindCRLF();
      if crlf.Some? {
        ok := ProcessRequestLine(buf.Contents()[..crlf.value]);
        if ok {
          state := ExpectHeaders;
          buf.RetrieveUntil(crlf.value + 2);
        } else {
          hasMore := false;
        }
      } else {
        hasMore := false;
      }
    }

    /** The branch that waits for a header line. */
    method TakeHeaderLine(buf: ByteBuffer.Buffer) returns (hasMore: bool)
      requires buf.Valid() && state == ExpectHeaders
      modifies this`state, request, buf`readerIndex, buf`writerIndex
      ensures buf.Valid() && Round(Knows(buf), true, hasMore) == Step(old(Knows(buf)))
    {
      hasMore := true;
      var crlf := buf.FindCRLF();
      if crlf.Some? {
        ProcessHeaderLine(buf.Contents()[..crlf.value]);
        buf.RetrieveUntil(crlf.value + 2);
      } else {
        hasMore := false;
      }
    }

    /** One line after the request line: a header field, or, without a colon, the end of them. */
    method ProcessHeaderLine(line: string)
      modifies this`state, request
      ensures ':' in line ==> state == old(state) && request.Value() == WithHeaderLine(old(request.Value()), line)
      ensures ':' !in line ==> state == GotAll && request.Value() == old(request.Value())
    {
      var colon := Find(line, ':');
      FindIsFirst(line, ':');
      if colon != |line| {
        request.AddHeader(line[..colon], line[colon + 1..]);
      } else {
        state := GotAll;
      }
    }

    method ProcessRequestLine(line: string) returns (succeed: bool)
      modifies request
      ensures (request.Value(), succeed) == ReadRequestLine(old(request.Value()), line)
      ensures succeed <==> exists m, target, v :: Spells(line, m, target, v)
    {
      AcceptedExactly(request.Value(), line);
      ghost var start := request.Value();
      succeed := false;
      var space := Find(line, ' ');
      if space != |line| {
        var verb := MethodNamed(line[..space]);
        if verb.None? {
          return false;
        }
        request.verb := verb.value;
        assert request.Value() == start.(verb := verb.value);
        var tail := line[space + 1..];
        space := Find(tail, ' ');
        if space != |tail| {
          var target := tail[..space];
          SetTarget(target);
          var version := VersionNamed(tail[space + 1..]);
          if version.Some? {
            request.version := version.value;
            succeed := true;
          }
        }
      }
    }

    /** Path and query of a request target. */
    method SetTarget(target: string)
      modifies request
      ensures request.Value() == WithTarget(old(request.Value()), target)
      ensures '?' !in target ==> request.Value() == old(request.Value()).(path := target)
      ensures '?' in target ==>
                '?' !in request.path && request.path + ['?'] + request.query == target
                && request.Value() == old(request.Value()).(path := request.path, query := request.query)
    {
      FindIsFirst(target, '?');
      var question := Find(target, '?');
      if question != |target| {
        request.path := target[..question];
        request.query := target[question + 1..];
      } else {
        request.path := target;
      }
    }

    method Reset()
      modifies this`state, request
      ensures state == ExpectRequestLine && request.Value() == EMPTY_REQUEST
    {
      state := ExpectRequestLine;
      var dummy := new HttpRequest();
      request.Swap(dummy);
    }
  }

  // ---------------------------------------------------------------------------
  // Segmentation independence

  /** Parsing, then receiving more and parsing again, is parsing everything at once. */
  lemma {:induction false} ParseResumes(p: Parser, more: string)
    ensures Parse(Parse(p).0.More(more)) == Parse(p.More(more))
    decreases |p.unread|
  {
    if Step(p).more {
      StepIsStable(p, more);
      ParseResumes(Step(p).after, more);
    } else if FindLineEnd(p.unread).Some? && p.state.ExpectRequestLine? {
      StepIsStable(p, more);
      LineEndIsStable(p.unread, more);
      RereadingIsIdempotent(p.request, p.unread[..FindLineEnd(p.unread).value]);
    } else {
    }
  }

  /** A round that used a line end does the same when more bytes follow. */
  lemma StepIsStable(p: Parser, more: string)
    requires FindLineEnd(p.unread).Some?
    requires p.state.ExpectRequestLine? || p.state.ExpectHeaders?
    ensures Step(p.More(more)) == Step(p).(after := Step(p).after.More(more))
  {
    LineEndIsStable(p.unread, more);
  }

  /** One call per received piece; the answer is that of the last call. */
  function Feed(p: Parser, pieces: seq<string>): (Parser, bool)
    requires |pieces| > 0
    decreases |pieces|
  {
    var now := Parse(p.More(pieces[0]));
    if |pieces| == 1 then now else Feed(now.0, pieces[1..])
  }

  function Joined(pieces: seq<string>): string {
    if pieces == [] then "" else pieces[0] + Joined(pieces[1..])
  }

  lemma MoreMore(p: Parser, a: string, b: string)
    ensures p.More(a).More(b) == p.More(a + b)
  {
  }

  /** However the bytes are cut, the parser ends as if they had arrived in one piece. */
  lemma {:induction false} SegmentationIndependence(p: Parser, pieces: seq<string>)
    requires |pieces| > 0
    ensures Feed(p, pieces) == Parse(p.More(Joined(pieces)))
    decreases |pieces|
  {
    if |pieces| == 1 {
      assert Joined(pieces) == pieces[0];
    } else {
      var rest := pieces[1..];
      SegmentationIndependence(Parse(p.More(pieces[0])).0, rest);
      ParseResumes(p.More(pieces[0]), Joined(rest));
      MoreMore(p, pieces[0], Joined(rest));
    }
  }

  // ---------------------------------------------------------------------------
  // The language the parser accepts

  function WithHeaderLines(r: Request, ls: seq<string>): Request
    decreases |ls|
  {
    if ls == [] then r else WithHeaderLines(WithHeaderLine(r, ls[0]), ls[1..])
  }

  ghost predicate HeaderLine(l: string) { OneLine(l) && ':' in l }

  /** u is header lines, then a line without a colon, then rest. */
  ghost predicate HeaderBlock(u: string, ls: seq<string>, last: string, rest: string) {
    && (forall i :: 0 <= i < |ls| ==> HeaderLine(ls[i]))
    && OneLine(last) && ':' !in last
    && u == Lines(ls) + (last + CRLF + rest)
  }

  lemma {:induction false} HeaderBlockIsParsed(r: Request, u: string, ls: seq<string>, last: string, rest: string)
    requires HeaderBlock(u, ls, last, rest)
    ensures Parse(Parser(ExpectHeaders, r, u)) == (Parser(GotAll, WithHeaderLines(r, ls), rest), true)
    decreases |ls|
  {
    if ls == [] {
      assert u == last + CRLF + rest;
      LineEndAfter(last, rest);
    } else {
      var u' := Lines(ls[1..]) + (last + CRLF + rest);
      assert u == ls[0] + CRLF + u';
      assert HeaderLine(ls[0]);
      LineEndAfter(ls[0], u');
      HeaderBlockIsParsed(WithHeaderLine(r, ls[0]), u', ls[1..], last, rest);
    }
  }

  lemma HeaderBlockGrows(line: string, u: string, ls: seq<string>, last: string, rest: string)
    requires HeaderLine(line) && HeaderBlock(u, ls, last, rest)
    ensures HeaderBlock(line + CRLF + u, [line] + ls, last, rest)
  {
    assert ([line] + ls)[1..] == ls;
    assert line + CRLF + u == line + CRLF + Lines(ls) + (last + CRLF + rest);
  }

  lemma {:induction false} ParsedIsHeaderBlock(r: Request, u: string) returns (ls: seq<string>, last: string)
    requires Parse(Parser(ExpectHeaders, r, u)).0.state == GotAll
    ensures HeaderBlock(u, ls, last, Parse(Parser(ExpectHeaders, r, u)).0.unread)
    decreases |u|
  {
    LineSplit(u);
    var i := FindLineEnd(u).value;
    var line, rest := u[..i], u[i + 2..];
    if ':' in line {
      ls, last := ParsedIsHeaderBlock(WithHeaderLine(r, line), rest);
      HeaderBlockGrows(line, rest, ls, last, Parse(Parser(ExpectHeaders, r, u)).0.unread);
      ls := [line] + ls;
    } else {
      ls, last := [], line;
      assert Lines([]) + (last + CRLF + rest) == u;
    }
  }

  /** u spells one whole request head, followed by rest. */
  ghost predicate SpellsHead(u: string, line: string, ls: seq<string>, last: string, rest: string) {
    && OneLine(line)
    && |line| + 2 <= |u| && u[..|line|] == line && u[|line|..|line| + 2] == CRLF
    && HeaderBlock(u[|line| + 2..], ls, last, rest)
  }

  /** The request a head denotes, read into a record that held r before. */
  function Denotes(r: Request, line: string, ls: seq<string>): Request {
    WithHeaderLines(ReadRequestLine(r, line).0, ls)
  }

  /** A request that is parsed out of u is spelled there. */
  lemma ParsedIsSpelled(r: Request, u: string, q: Request, rest: string)
    returns (line: string, ls: seq<string>, last: string)
    requires Parse(Parser(ExpectRequestLine, r, u)) == (Parser(GotAll, q, rest), true)
    ensures exists m, target, v :: Spells(line, m, target, v)
    ensures SpellsHead(u, line, ls, last, rest) && q == Denotes(r, line, ls)
  {
    LineSplit(u);
    var i := FindLineEnd(u).value;
    line := u[..i];
    AcceptedExactly(r, line);
    var r1 := ReadRequestLine(r, line).0;
    ls, last := ParsedIsHeaderBlock(r1, u[i + 2..]);
    HeaderBlockIsParsed(r1, u[i + 2..], ls, last, rest);
  }

  /** A request that is spelled in u is parsed out of it. */
  lemma SpelledIsParsed(r: Request, u: string, rest: string, line: string, ls: seq<string>, last: string)
    requires exists m, target, v :: Spells(line, m, target, v)
    requires SpellsHead(u, line, ls, last, rest)
    ensures Parse(Parser(ExpectRequestLine, r, u)) == (Parser(GotAll, Denotes(r, line, ls), rest), true)
  {
    var block := u[|line| + 2..];
    assert u == line + CRLF + block;
    LineEndAfter(line, block);
    AcceptedExactly(r, line);
    HeaderBlockIsParsed(ReadRequestLine(r, line).0, block, ls, last, rest);
  }

  /** A whole request is parsed out of u exactly when u spells it: acceptance, the resulting
      record and the unread rest, in both directions. */
  lemma ParsesExactly(r: Request, u: string, q: Request, rest: string)
    ensures Parse(Parser(ExpectRequestLine, r, u)) == (Parser(GotAll, q, rest), true)
            <==> exists line, ls, last, m, target, v ::
                   Spells(line, m, target, v) && SpellsHead(u, line, ls, last, rest) && q == Denotes(r, line, ls)
  {
    if Parse(Parser(ExpectRequestLine, r, u)) == (Parser(GotAll, q, rest), true) {
      var line, ls, last := ParsedIsSpelled(r, u, q, rest);
      var m, target, v :| Spells(line, m, target, v);
      assert SpellsHead(u, line, ls, last, rest) && q == Denotes(r, line, ls);
    }
    forall line, ls, last, m, target, v
      | Spells(line, m, target, v) && SpellsHead(u, line, ls, last, rest) && q == Denotes(r, line, ls)
      ensures Parse(Parser(ExpectRequestLine, r, u)) == (Parser(GotAll, q, rest), true)
    {
      SpelledIsParsed(r, u, rest, line, ls, last);
    }
  }

  /** The answer is false exactly when the first whole line is no request line; then nothing is
      consumed, so the next call answers false again. */
  lemma RejectsExactly(r: Request, u: string)
    ensures !Parse(Parser(ExpectRequestLine, r, u)).1
            <==> FindLineEnd(u).Some? && !exists m, target, v :: Spells(u[..FindLineEnd(u).value], m, target, v)
    ensures !Parse(Parser(ExpectRequestLine, r, u)).1 ==>
              Parse(Parser(ExpectRequestLine, r, u)).0.unread == u
              && Parse(Parser(ExpectRequestLine, r, u)).0.state == ExpectRequestLine
  {
    FirstLineDecides(r, u);
    if FindLineEnd(u).Some? {
      AcceptedExactly(r, u[..FindLineEnd(u).value]);
    }
  }

  lemma FirstLineDecides(r: Request, u: string)
    ensures var (p, ok) := Parse(Parser(ExpectRequestLine, r, u));
            && (ok <==> FindLineEnd(u).None? || ReadRequestLine(r, u[..FindLineEnd(u).value]).1)
            && (!ok ==> p.unread == u && p.state == ExpectRequestLine)
  {
    var s := Step(Parser(ExpectRequestLine, r, u));
    if s.more {
      HeadersNeverReject(s.after);
    }
  }

  lemma {:induction false} HeadersNeverReject(p: Parser)
    requires p.state != ExpectRequestLine
    ensures Parse(p).1
    decreases |p.unread|
  {
    if !p.state.ExpectHeaders? || FindLineEnd(p.unread).None? {
    } else {
      var i := FindLineEnd(p.unread).value;
      if ':' in p.unread[..i] {
        HeadersNeverReject(Parser(ExpectHeaders, WithHeaderLine(p.request, p.unread[..i]), p.unread[i + 2..]));
      }
    }
  }

  // ---------------------------------------------------------------------------
  // Round trip with pipelining

  /** A request as a client writes it, its header fields in writing order. */
  datatype Written = Written(verb: Method, version: Version, path: string, query: string,
                             fields: seq<(string, string)>)

  ghost predicate Clean(s: string, banned: string) {
    OneLine(s) && forall c :: c in banned ==> c !in s
  }

  ghost predicate WellFormed(w: Written) {
    && w.verb != InvalidMethod && w.version != UnknownVersion
    && Clean(w.path, " ?") && Clean(w.query, " ")
    && (forall i :: 0 <= i < |w.fields| ==> Clean(w.fields[i].0, ":") && OneLine(w.fields[i].1))
    && (forall i, j :: 0 <= i < j < |w.fields| ==> w.fields[i].0 != w.fields[j].0)
  }

  ghost predicate AllWellFormed(ws: seq<Written>) {
    forall i :: 0 <= i < |ws| ==> WellFormed(ws[i])
  }

  function Target(w: Written): string {
    if w.query == "" then w.path else w.path + ['?'] + w.query
  }

  function RequestField(f: (string, string)): string { f.0 + [':'] + f.1 }

  function RequestFields(fs: seq<(string, string)>): (ls: seq<string>)
    ensures |ls| == |fs|
    ensures forall i :: 0 <= i < |ls| ==> ls[i] == RequestField(fs[i])
  {
    seq(|fs|, i requires 0 <= i < |fs| => RequestField(fs[i]))
  }

  function Print(w: Written): string
    requires WellFormed(w)
  {
    RequestLine(w.verb, Target(w), w.version) + CRLF + (Lines(RequestFields(w.fields)) + ("" + CRLF + ""))
  }

  /** The record a written request stands for. */
  function Meaning(w: Written): Request {
    Request(w.verb, w.version, w.path, w.query, FieldMap(w.fields))
  }

  function FieldMap(fs: seq<(string, string)>): map<string, string> {
    if fs == [] then map[] else FieldMap(fs[..|fs| - 1])[fs[|fs| - 1].0 := fs[|fs| - 1].1]
  }

  lemma {:induction false} FieldMapHoldsEach(fs: seq<(string, string)>)
    requires forall i, j :: 0 <= i < j < |fs| ==> fs[i].0 != fs[j].0
    ensures forall k :: k in FieldMap(fs) <==> exists i :: 0 <= i < |fs| && fs[i].0 == k
    ensures forall i :: 0 <= i < |fs| ==> fs[i].0 in FieldMap(fs) && FieldMap(fs)[fs[i].0] == fs[i].1
    decreases |fs|
  {
    if fs == [] {
    } else {
      FieldMapHoldsEach(fs[..|fs| - 1]);
      assert fs[|fs| - 1].0 in FieldMap(fs);
    }
  }

  lemma {:induction false} FieldLinesAreRead(r: Request, fs: seq<(string, string)>)
    requires r.headers == map[]
    requires forall i :: 0 <= i < |fs| ==> Clean(fs[i].0, ":") && OneLine(fs[i].1)
    ensures WithHeaderLines(r, RequestFields(fs)) == r.(headers := FieldMap(fs))
    ensures forall i :: 0 <= i < |fs| ==> HeaderLine(RequestFields(fs)[i])
    decreases |fs|
  {
    if fs == [] {
    } else {
      var front, f := fs[..|fs| - 1], fs[|fs| - 1];
      FieldLinesAreRead(r, front);
      assert RequestFields(fs) == RequestFields(front) + [RequestField(f)];
      HeaderLinesAppend(r, RequestFields(front), RequestField(f));
      assert ':' in ":";
      FindAfter(f.0, ':', f.1);
      OneLineJoin(f.0, ':', f.1);
      assert RequestField(f)[|f.0|] == ':';
      forall i | 0 <= i < |fs|
        ensures HeaderLine(RequestFields(fs)[i])
      {
        if i < |front| {
          assert RequestFields(fs)[i] == RequestFields(front)[i];
        }
      }
    }
  }

  lemma {:induction false} HeaderLinesAppend(r: Request, ls: seq<string>, l: string)
    ensures WithHeaderLines(r, ls + [l]) == WithHeaderLine(WithHeaderLines(r, ls), l)
    decreases |ls|
  {
    if ls == [] {
      assert [] + [l] == [l];
    } else {
      assert (ls + [l])[1..] == ls[1..] + [l];
      HeaderLinesAppend(WithHeaderLine(r, ls[0]), ls[1..], l);
    }
  }

  lemma TargetIsRead(w: Written, r: Request)
    requires WellFormed(w) && r.query == ""
    ensures OneLine(Target(w)) && ' ' !in Target(w)
    ensures WithTarget(r, Target(w)) == r.(path := w.path, query := w.query)
  {
    assert ' ' in " ?" && '?' in " ?" && ' ' in " ";
    if w.query == "" {
      FindIsFirst(w.path, '?');
    } else {
      OneLineJoin(w.path, '?', w.query);
      FindAfter(w.path, '?', w.query);
    }
  }

  /** One printed request, followed by anything, is read back into its meaning. */
  lemma PrintedIsParsed(w: Written, more: string)
    requires WellFormed(w)
    ensures Parse(Parser(ExpectRequestLine, EMPTY_REQUEST, Print(w) + more))
            == (Parser(GotAll, Meaning(w), more), true)
  {
    var line := RequestLine(w.verb, Target(w), w.version);
    var ls := RequestFields(w.fields);
    var block := Lines(ls) + ("" + CRLF + more);
    var u := Print(w) + more;
    TargetIsRead(w, EMPTY_REQUEST.(verb := w.verb));
    OneLineJoin(Target(w), ' ', VersionName(w.version));
    OneLineJoin(MethodName(w.verb), ' ', Target(w) + [' '] + VersionName(w.version));
    assert u == line + CRLF + block;
    LineEndAfter(line, block);
    SpelledLineIsRead(EMPTY_REQUEST, line, w.verb, Target(w), w.version);
    var r := Request(w.verb, w.version, w.path, w.query, map[]);
    FieldLinesAreRead(r, w.fields);
    assert HeaderBlock(block, ls, "", more);
    HeaderBlockIsParsed(r, block, ls, "", more);
  }

  function PrintAll(ws: seq<Written>): string
    requires AllWellFormed(ws)
  {
    if ws == [] then "" else Print(ws[0]) + PrintAll(ws[1..])
  }

  /** Parse, keep the request, reset; up to n times. */
  function Drain(p: Parser, n: nat): (seq<Request>, Parser)
    decreases n
  {
    if n == 0 then ([], p) else
    var (q, ok) := Parse(p);
    if !ok || q.state != GotAll then ([], q) else
    var (rest, last) := Drain(Reset(q), n - 1);
    ([q.request] + rest, last)
  }

  function Meanings(ws: seq<Written>): seq<Request> {
    if ws == [] then [] else [Meaning(ws[0])] + Meanings(ws[1..])
  }

  lemma DrainOne(w: Written, tail: string, n: nat)
    requires WellFormed(w)
    ensures var (rest, last) := Drain(Parser(ExpectRequestLine, EMPTY_REQUEST, tail), n);
            Drain(Parser(ExpectRequestLine, EMPTY_REQUEST, Print(w) + tail), n + 1) == ([Meaning(w)] + rest, last)
  {
    PrintedIsParsed(w, tail);
  }

  /** n pipelined requests come out in order and the unprinted suffix stays unread. */
  lemma {:induction false} PipelineRoundTrip(ws: seq<Written>, more: string)
    requires AllWellFormed(ws)
    ensures Drain(Parser(ExpectRequestLine, EMPTY_REQUEST, PrintAll(ws) + more), |ws|)
            == (Meanings(ws), Parser(ExpectRequestLine, EMPTY_REQUEST, more))
    decreases |ws|
  {
    if ws == [] {
      assert PrintAll(ws) + more == more;
    } else {
      var tail := PrintAll(ws[1..]) + more;
      assert PrintAll(ws) + more == Print(ws[0]) + tail;
      DrainOne(ws[0], tail, |ws| - 1);
      PipelineRoundTrip(ws[1..], more);
    }
  }
}
