/** The response record, its printer, and a receiver's decoder. */
module HttpPrinter {
  import opened Wrappers
  import opened Bytes
  import ByteBuffer

  datatype StatusCode = Unknown | Ok | MovedPermanently | BadRequest | NotFound | InternalServerError

  function Code(s: StatusCode): nat {
    match s
    case Unknown => 0
    case Ok => 200
    case MovedPermanently => 301
    case BadRequest => 400
    case NotFound => 404
    case InternalServerError => 500
  }

  datatype Reply = Reply(status: StatusCode, message: string, close: bool,
                         headers: map<string, string>, body: string)

  const LENGTH_KEY := "Content-Length"
  const CONNECTION_KEY := "Connection"

  /** `order` visits every header once: one order a hash map may iterate in. */
  ghost predicate Visits(order: seq<string>, headers: map<string, string>) {
    && (forall k :: k in headers <==> k in order)
    && (forall i, j :: 0 <= i < j < |order| ==> order[i] != order[j])
  }

  function FieldLine(key: string, value: string): string { key + [':'] + (" " + value) }

  function FieldLines(headers: map<string, string>, order: seq<string>): (ls: seq<string>)
    requires forall k :: k in order ==> k in headers
    ensures |ls| == |order|
  {
    if order == [] then []
    else [FieldLine(order[0], headers[order[0]])] + FieldLines(headers, order[1..])
  }

  function StatusLine(r: Reply): string {
    "HTTP/1.1 " + (Decimal(Code(r.status)) + [' '] + r.message)
  }

  function ClosingValue(close: bool): string {
    if close then "close" else "Keep-Alive"
  }

  function GeneratedLines(r: Reply): seq<string> {
    [FieldLine(LENGTH_KEY, Decimal(|r.body|)), FieldLine(CONNECTION_KEY, ClosingValue(r.close))]
  }

  /** The message on the wire: status line, fields, the two generated fields, a blank line, the body. */
  function Serialized(r: Reply, order: seq<string>): string
    requires forall k :: k in order ==> k in r.headers
  {
    Lines([StatusLine(r)] + FieldLines(r.headers, order) + GeneratedLines(r)) + (CRLF + r.body)
  }

  class HttpResponse {
    var statusCode: StatusCode
    var statusMessage: string
    var closeConnection: bool
    var headers: map<string, string>
    var body: string

    function Value(): Reply
      reads this
    {
      Reply(statusCode, statusMessage, closeConnection, headers, body)
    }

    constructor (close: bool)
      ensures Value() == Reply(Unknown, "", close, map[], "")
    {
      statusCode, statusMessage, closeConnection, headers, body := Unknown, "", close, map[], "";
    }

    method AddHeader(key: string, value: string)
      modifies this`headers
      ensures headers == old(headers)[key := value]
    {
      headers := headers[key := value];
    }

    method AppendToBuffer(output: ByteBuffer.Buffer) returns (ghost order: seq<string>)
      requires output.Valid()
      modifies output, output.buffer
      ensures output.Valid() && (output.buffer == old(output.buffer) || fresh(output.buffer))
      ensures Visits(order, headers)
      ensures output.Contents() == old(output.Contents()) + Serialized(Value(), order)
    {
      ghost var start := output.Contents();
      AppendStatus(output);
      order := AppendFields(output);
      AppendGenerated(output);
      output.AppendString("\r\n");
      output.AppendString(body);
      Regroup(start, StatusLine(Value()) + CRLF, Lines(FieldLines(headers, order)), Lines(GeneratedLines(Value())),
              "\r\n", body);
      SerializedInParts(Value(), order);
    }

    method AppendStatus(output: ByteBuffer.Buffer)
      requires output.Valid()
      modifies output, output.buffer
      ensures output.Valid() && (output.buffer == old(output.buffer) || fresh(output.buffer))
      ensures output.Contents() == old(output.Contents()) + (StatusLine(Value()) + CRLF)
    {
      ghost var start := output.Contents();
      output.AppendString("HTTP/1.1 ");
      output.AppendString(Decimal(Code(statusCode)));
      output.AppendString(" ");
      output.AppendString(statusMessage);
      output.AppendString("\r\n");
      Regroup(start, "HTTP/1.1 ", Decimal(Code(statusCode)), " ", statusMessage, "\r\n");
      StatusText(Value());
    }

    /** The loop over the header map, in whatever order it is visited. */
    method AppendFields(output: ByteBuffer.Buffer) returns (ghost order: seq<string>)
      requires output.Valid()
      modifies output, output.buffer
      ensures output.Valid() && (output.buffer == old(output.buffer) || fresh(output.buffer))
      ensures Visits(order, headers)
      ensures output.Contents() == old(output.Contents()) + Lines(FieldLines(headers, order))
    {
      ghost var start := output.Contents();
      order := [];
      var rest := headers.Keys;
      assert start + Lines(FieldLines(headers, [])) == start;
      while rest != {}
        invariant output.Valid() && (output.buffer == old(output.buffer) || fresh(output.buffer))
        invariant rest <= headers.Keys
        invariant forall k :: k in headers && k !in rest <==> k in order
        invariant forall i, j :: 0 <= i < j < |order| ==> order[i] != order[j]
        invariant output.Contents() == start + Lines(FieldLines(headers, order))
        decreases |rest|
      {
        var key :| key in rest;
        ghost var before := Lines(FieldLines(headers, order));
        AppendField(output, key, headers[key]);
        FieldLinesGrow(headers, order, key);
        AppendedTwice(start, before, FieldLine(key, headers[key]) + CRLF);
        order := order + [key];
        rest := rest - {key};
      }
    }

    method AppendField(output: ByteBuffer.Buffer, key: string, value: string)
      requires output.Valid()
      modifies output, output.buffer
      ensures output.Valid() && (output.buffer == old(output.buffer) || fresh(output.buffer))
      ensures output.Contents() == old(output.Contents()) + (FieldLine(key, value) + CRLF)
    {
      ghost var start := output.Contents();
      output.AppendString(key);
      output.AppendString(": ");
      output.AppendString(value);
      output.AppendString("\r\n");
      Regroup(start, key, ": ", value, "\r\n", "");
      FieldText(key, value);
    }

    method AppendConnection(output: ByteBuffer.Buffer)
      requires output.Valid()
      modifies output, output.buffer
      ensures output.Valid() && (output.buffer == old(output.buffer) || fresh(output.buffer))
      ensures output.Contents() == old(output.Contents())
              + (if closeConnection then "Connection: close\r\n" else "Connection: Keep-Alive\r\n")
    {
      if closeConnection {
        output.AppendString("Connection: close\r\n");
      } else {
        output.AppendString("Connection: Keep-Alive\r\n");
      }
    }

    /** The two fields every response carries. */
    method AppendGenerated(output: ByteBuffer.Buffer)
      requires output.Valid()
      modifies output, output.buffer
      ensures output.Valid() && (output.buffer == old(output.buffer) || fresh(output.buffer))
      ensures output.Contents() == old(output.Contents()) + Lines(GeneratedLines(Value()))
    {
      ghost var start := output.Contents();
      output.AppendString("Content-Length: ");
      output.AppendString(Decimal(|body|));
      output.AppendString("\r\n");
      AppendConnection(output);
      Regroup(start, "Content-Length: ", Decimal(|body|), "\r\n",
              if closeConnection then "Connection: close\r\n" else "Connection: Keep-Alive\r\n", "");
      GeneratedText(Value());
    }
  }

  lemma AppendedTwice(start: string, a: string, b: string)
    ensures (start + a) + b == start + (a + b)
  {
  }

  /** Pieces appended one after the other are one appended text. */
  lemma Regroup(start: string, a: string, b: string, c: string, d: string, e: string)
    ensures start + a + b + c + d + e == start + (a + b + c + d + e)
    ensures e == "" ==> start + a + b + c + d == start + (a + b + c + d)
  {
    assert start + a + b == start + (a + b);
    assert start + (a + b) + c == start + (a + b + c);
    assert start + (a + b + c) + d == start + (a + b + c + d);
    assert start + (a + b + c + d) + e == start + (a + b + c + d + e);
  }

  lemma StatusText(r: Reply)
    ensures "HTTP/1.1 " + Decimal(Code(r.status)) + " " + r.message + "\r\n" == StatusLine(r) + CRLF
  {
  }

  lemma FieldText(key: string, value: string)
    ensures key + ": " + value + "\r\n" == FieldLine(key, value) + CRLF
  {
  }

  lemma GeneratedText(r: Reply)
    ensures Lines(GeneratedLines(r)) == "Content-Length: " + Decimal(|r.body|) + "\r\n"
            + (if r.close then "Connection: close\r\n" else "Connection: Keep-Alive\r\n")
  {
    TwoLines(FieldLine(LENGTH_KEY, Decimal(|r.body|)), FieldLine(CONNECTION_KEY, ClosingValue(r.close)));
    assert LENGTH_KEY + [':'] + " " == "Content-Length: ";
    assert FieldLine(CONNECTION_KEY, "close") + CRLF == "Connection: close\r\n";
    assert FieldLine(CONNECTION_KEY, "Keep-Alive") + CRLF == "Connection: Keep-Alive\r\n";
    assert FieldLine(LENGTH_KEY, Decimal(|r.body|)) + CRLF == "Content-Length: " + Decimal(|r.body|) + "\r\n";
  }

  lemma FieldLinesGrow(headers: map<string, string>, order: seq<string>, key: string)
    requires key in headers && forall k :: k in order ==> k in headers
    ensures forall k :: k in order + [key] ==> k in headers
    ensures Lines(FieldLines(headers, order + [key]))
            == Lines(FieldLines(headers, order)) + (FieldLine(key, headers[key]) + CRLF)
  {
    FieldLinesJoin(headers, order, [key]);
    LinesJoin(FieldLines(headers, order), [FieldLine(key, headers[key])]);
    OneLineOf(FieldLine(key, headers[key]));
    assert FieldLines(headers, [key]) == [FieldLine(key, headers[key])];
  }

  lemma OneLineOf(l: string)
    ensures Lines([l]) == l + CRLF
  {
    assert Lines([l]) == l + CRLF + Lines([]);
  }

  lemma TwoLines(a: string, b: string)
    ensures Lines([a, b]) == (a + CRLF) + (b + CRLF)
  {
    LinesJoin([a], [b]);
    OneLineOf(a);
    OneLineOf(b);
    assert [a, b] == [a] + [b];
  }

  lemma {:induction false} FieldLinesJoin(headers: map<string, string>, a: seq<string>, b: seq<string>)
    requires forall k :: k in a || k in b ==> k in headers
    ensures (forall k :: k in a + b ==> k in headers)
    ensures FieldLines(headers, a + b) == FieldLines(headers, a) + FieldLines(headers, b)
    decreases |a|
  {
    if a == [] {
      assert a + b == b;
    } else {
      assert (a + b)[1..] == a[1..] + b;
      FieldLinesJoin(headers, a[1..], b);
    }
  }

  lemma SerializedInParts(r: Reply, order: seq<string>)
    requires forall k :: k in order ==> k in r.headers
    ensures Serialized(r, order) == (StatusLine(r) + CRLF) + Lines(FieldLines(r.headers, order))
                                    + Lines(GeneratedLines(r)) + "\r\n" + r.body
  {
    LinesJoin([StatusLine(r)] + FieldLines(r.headers, order), GeneratedLines(r));
    LinesJoin([StatusLine(r)], FieldLines(r.headers, order));
    OneLineOf(StatusLine(r));
  }

  // ---------------------------------------------------------------------------
  // A receiver

  /** The lines before the first empty line, and what follows that line. */
  function SplitHead(u: string): Option<(seq<string>, string)>
    decreases |u|
  {
    match FindLineEnd(u)
    case None => None
    case Some(i) =>
      if i == 0 then Some(([], u[2..]))
      else match SplitHead(u[i + 2..])
        case None => None
        case Some(t) => Some(([u[..i]] + t.0, t.1))
  }

  /** One field: the name before the first colon, and the value after colon and blank. */
  function ReadField(line: string): Option<(string, string)> {
    var colon := Find(line, ':');
    if colon + 1 < |line| && line[colon + 1] == ' ' then Some((line[..colon], line[colon + 2..])) else None
  }

  function ReadFields(ls: seq<string>): Option<map<string, string>> {
    if ls == [] then Some(map[])
    else match (ReadField(ls[0]), ReadFields(ls[1..]))
      case (Some(f), Some(m)) => Some(map[f.0 := f.1] + m)
      case _ => None
  }

  function ReadStatus(line: string): Option<(nat, string)> {
    if !("HTTP/1.1 " <= line) then None else
    var t := line[|"HTTP/1.1 "|..];
    var space := Find(t, ' ');
    if space < |t| && AllDigits(t[..space]) then Some((ReadDecimal(t[..space]), t[space + 1..])) else None
  }

  datatype Received = Received(code: nat, message: string, close: bool, headers: map<string, string>, body: string)

  /** Decodes one message off the front of u by its Content-Length; also gives the bytes after it. */
  function Decode(u: string): Option<(Received, string)> {
    match SplitHead(u)
    case None => None
    case Some(head) =>
      if head.0 == [] then None else
      match (ReadStatus(head.0[0]), ReadFields(head.0[1..]))
      case (Some(status), Some(fields)) => DecodeBody(status, fields, head.1)
      case _ => None
  }

  function DecodeBody(status: (nat, string), fields: map<string, string>, rest: string): Option<(Received, string)> {
    if LENGTH_KEY !in fields || CONNECTION_KEY !in fields || !AllDigits(fields[LENGTH_KEY]) then None else
    var n := ReadDecimal(fields[LENGTH_KEY]);
    if |rest| < n then None else
    Some((Received(status.0, status.1, fields[CONNECTION_KEY] == "close",
                   fields - {LENGTH_KEY, CONNECTION_KEY}, rest[..n]), rest[n..]))
  }

  /** What the receiver should see of a reply. */
  function Seen(r: Reply): Received {
    Received(Code(r.status), r.message, r.close, r.headers, r.body)
  }

  ghost predicate Printable(r: Reply) {
    && OneLine(r.message)
    && (forall k :: k in r.headers ==> OneLine(k) && ':' !in k && OneLine(r.headers[k]))
    && LENGTH_KEY !in r.headers && CONNECTION_KEY !in r.headers
  }

  lemma LineIsSplitOff(line: string, tail: string)
    requires line != "" && OneLine(line) && SplitHead(tail).Some?
    ensures SplitHead(line + CRLF + tail)
            == Some(([line] + SplitHead(tail).value.0, SplitHead(tail).value.1))
  {
    LineEndAfter(line, tail);
  }

  lemma EmptyLineEndsHead(rest: string)
    ensures SplitHead(CRLF + rest) == Some(([], rest))
  {
    LineEndAfter("", rest);
    assert "" + CRLF + rest == CRLF + rest;
  }

  lemma LinesUnfold(ls: seq<string>, t: string)
    requires ls != []
    ensures Lines(ls) + t == ls[0] + CRLF + (Lines(ls[1..]) + t)
  {
  }

  lemma {:induction false} HeadIsSplit(ls: seq<string>, rest: string)
    requires forall i :: 0 <= i < |ls| ==> ls[i] != "" && OneLine(ls[i])
    ensures SplitHead(Lines(ls) + (CRLF + rest)) == Some((ls, rest))
    decreases |ls|
  {
    if ls == [] {
      EmptyLineEndsHead(rest);
      assert Lines(ls) + (CRLF + rest) == CRLF + rest;
    } else {
      assert forall i :: 0 <= i < |ls[1..]| ==> ls[1..][i] == ls[i + 1];
      HeadIsSplit(ls[1..], rest);
      var tail := Lines(ls[1..]) + (CRLF + rest);
      LinesUnfold(ls, CRLF + rest);
      assert Lines(ls) + (CRLF + rest) == ls[0] + CRLF + tail;
      LineIsSplitOff(ls[0], tail);
      assert [ls[0]] + ls[1..] == ls;
    }
  }

  lemma FieldIsRead(key: string, value: string)
    requires ':' !in key
    ensures ReadField(FieldLine(key, value)) == Some((key, value))
  {
    FindAfter(key, ':', " " + value);
    var l := FieldLine(key, value);
    assert l[|key| + 1] == ' ';
    assert l[|key| + 2..] == value;
  }

  lemma FieldIsOneLine(key: string, value: string)
    requires OneLine(key) && OneLine(value)
    ensures OneLine(FieldLine(key, value)) && FieldLine(key, value) != ""
  {
    OneLineJoin("", ' ', value);
    assert "" + [' '] + value == " " + value;
    OneLineJoin(key, ':', " " + value);
  }

  /** The headers an order visits. */
  function Visited(headers: map<string, string>, order: seq<string>): map<string, string>
    requires forall k :: k in order ==> k in headers
  {
    map k | k in order :: headers[k]
  }

  lemma VisitedGrows(headers: map<string, string>, order: seq<string>, more: map<string, string>)
    requires order != [] && forall k :: k in order ==> k in headers
    requires order[0] !in order[1..]
    ensures map[order[0] := headers[order[0]]] + (Visited(headers, order[1..]) + more)
            == Visited(headers, order) + more
  {
    assert order == [order[0]] + order[1..];
  }

  lemma OneMoreField(line: string, tail: seq<string>)
    requires ReadField(line).Some? && ReadFields(tail).Some?
    ensures ReadFields([line] + tail)
            == Some(map[ReadField(line).value.0 := ReadField(line).value.1] + ReadFields(tail).value)
  {
    assert ([line] + tail)[1..] == tail;
  }

  lemma {:induction false} FieldsAreRead(headers: map<string, string>, order: seq<string>, more: seq<string>)
    requires forall k :: k in order ==> k in headers && ':' !in k
    requires ReadFields(more).Some?
    requires forall i, j :: 0 <= i < j < |order| ==> order[i] != order[j]
    ensures ReadFields(FieldLines(headers, order) + more)
            == Some(Visited(headers, order) + ReadFields(more).value)
    decreases |order|
  {
    if order == [] {
      assert FieldLines(headers, order) + more == more;
      assert Visited(headers, order) + ReadFields(more).value == ReadFields(more).value;
    } else {
      var first, tail := FieldLine(order[0], headers[order[0]]), FieldLines(headers, order[1..]) + more;
      FieldsAreRead(headers, order[1..], more);
      assert FieldLines(headers, order) + more == [first] + tail;
      FieldIsRead(order[0], headers[order[0]]);
      OneMoreField(first, tail);
      VisitedGrows(headers, order, ReadFields(more).value);
    }
  }

  lemma DecimalIsOneLine(n: nat)
    ensures OneLine(Decimal(n)) && ' ' !in Decimal(n)
  {
    assert forall i :: 0 <= i < |Decimal(n)| ==> '0' <= Decimal(n)[i];
  }

  lemma GeneratedAreRead(r: Reply)
    ensures ReadFields(GeneratedLines(r))
            == Some(map[LENGTH_KEY := Decimal(|r.body|), CONNECTION_KEY := ClosingValue(r.close)])
    ensures forall i :: 0 <= i < 2 ==> OneLine(GeneratedLines(r)[i]) && GeneratedLines(r)[i] != ""
  {
    var ls := GeneratedLines(r);
    FieldIsRead(LENGTH_KEY, Decimal(|r.body|));
    FieldIsRead(CONNECTION_KEY, ClosingValue(r.close));
    DecimalIsOneLine(|r.body|);
    FieldIsOneLine(LENGTH_KEY, Decimal(|r.body|));
    FieldIsOneLine(CONNECTION_KEY, ClosingValue(r.close));
    assert ls[1..] == [FieldLine(CONNECTION_KEY, ClosingValue(r.close))];
    assert ls[1..][1..] == [];
    assert ReadFields(ls[1..][1..]) == Some(map[]);
    assert map[CONNECTION_KEY := ClosingValue(r.close)] + map[] == map[CONNECTION_KEY := ClosingValue(r.close)];
    assert ReadFields(ls[1..]) == Some(map[CONNECTION_KEY := ClosingValue(r.close)]);
    assert map[LENGTH_KEY := Decimal(|r.body|)] + map[CONNECTION_KEY := ClosingValue(r.close)]
        == map[LENGTH_KEY := Decimal(|r.body|), CONNECTION_KEY := ClosingValue(r.close)];
  }

  lemma StatusIsCut(digits: string, message: string)
    requires AllDigits(digits) && ' ' !in digits
    ensures ReadStatus("HTTP/1.1 " + (digits + [' '] + message)) == Some((ReadDecimal(digits), message))
  {
    var line := "HTTP/1.1 " + (digits + [' '] + message);
    FindAfter(digits, ' ', message);
    assert line[|"HTTP/1.1 "|..] == digits + [' '] + message;
  }

  lemma StatusIsOneLine(r: Reply)
    requires OneLine(r.message)
    ensures OneLine(StatusLine(r)) && StatusLine(r) != ""
  {
    var digits := Decimal(Code(r.status));
    DecimalIsOneLine(Code(r.status));
    OneLineJoin(digits, ' ', r.message);
    OneLineJoin("HTTP/1.1", ' ', digits + [' '] + r.message);
    assert "HTTP/1.1" + [' '] + (digits + [' '] + r.message) == StatusLine(r);
  }

  lemma StatusIsRead(r: Reply)
    ensures ReadStatus(StatusLine(r)) == Some((Code(r.status), r.message))
  {
    DecimalIsOneLine(Code(r.status));
    DecimalRoundTrip(Code(r.status));
    StatusIsCut(Decimal(Code(r.status)), r.message);
  }

  lemma {:induction false} FieldLinesAreLines(headers: map<string, string>, order: seq<string>)
    requires forall k :: k in order ==> k in headers && OneLine(k) && OneLine(headers[k])
    ensures forall i :: 0 <= i < |order| ==>
              OneLine(FieldLines(headers, order)[i]) && FieldLines(headers, order)[i] != ""
    decreases |order|
  {
    if order == [] {
    } else {
      FieldIsOneLine(order[0], headers[order[0]]);
      FieldLinesAreLines(headers, order[1..]);
    }
  }

  /** The lines of a printable reply are read back as status and fields. */
  lemma HeadIsRead(r: Reply, order: seq<string>, rest: string) returns (ls: seq<string>)
    requires Printable(r) && Visits(order, r.headers)
    ensures SplitHead(Lines([StatusLine(r)] + FieldLines(r.headers, order) + GeneratedLines(r)) + (CRLF + rest))
            == Some((ls, rest))
    ensures ls != [] && ReadStatus(ls[0]) == Some((Code(r.status), r.message))
    ensures ReadFields(ls[1..]) == Some(r.headers + map[LENGTH_KEY := Decimal(|r.body|),
                                                        CONNECTION_KEY := ClosingValue(r.close)])
  {
    var fields := FieldLines(r.headers, order) + GeneratedLines(r);
    ls := [StatusLine(r)] + fields;
    assert ls == [StatusLine(r)] + FieldLines(r.headers, order) + GeneratedLines(r);
    StatusIsRead(r);
    HeadLinesAreLines(r, order);
    HeadIsSplit(ls, rest);
    assert ls[1..] == fields;
    GeneratedAreRead(r);
    FieldsAreRead(r.headers, order, GeneratedLines(r));
    assert Visited(r.headers, order) == r.headers;
  }

  lemma HeadLinesAreLines(r: Reply, order: seq<string>)
    requires Printable(r) && Visits(order, r.headers)
    ensures var ls := [StatusLine(r)] + FieldLines(r.headers, order) + GeneratedLines(r);
            forall i :: 0 <= i < |ls| ==> ls[i] != "" && OneLine(ls[i])
  {
    StatusIsOneLine(r);
    GeneratedAreRead(r);
    FieldLinesAreLines(r.headers, order);
  }

  /** Framing: whatever follows on the connection, the receiver recovers the reply exactly and
      stops at its last byte. */
  lemma FramingRoundTrip(r: Reply, order: seq<string>, more: string)
    requires Printable(r) && Visits(order, r.headers)
    ensures Decode(Serialized(r, order) + more) == Some((Seen(r), more))
  {
    var ls := HeadIsRead(r, order, r.body + more);
    assert Serialized(r, order) + more
        == Lines([StatusLine(r)] + FieldLines(r.headers, order) + GeneratedLines(r)) + (CRLF + (r.body + more));
    BodyIsCut(r, more);
  }

  lemma BodyIsCut(r: Reply, more: string)
    requires LENGTH_KEY !in r.headers && CONNECTION_KEY !in r.headers
    ensures DecodeBody((Code(r.status), r.message),
                       r.headers + map[LENGTH_KEY := Decimal(|r.body|), CONNECTION_KEY := ClosingValue(r.close)],
                       r.body + more)
            == Some((Seen(r), more))
  {
    var fields := r.headers + map[LENGTH_KEY := Decimal(|r.body|), CONNECTION_KEY := ClosingValue(r.close)];
    DecimalRoundTrip(|r.body|);
    assert LENGTH_KEY != CONNECTION_KEY;
    assert fields[LENGTH_KEY] == Decimal(|r.body|);
    assert fields - {LENGTH_KEY, CONNECTION_KEY} == r.headers;
  }

  // ---------------------------------------------------------------------------
  // Letter by letter

  /** The status codes of the protocol. */
  lemma CodesAreTheProtocols()
    ensures Code(Ok) == 200 && Code(MovedPermanently) == 301 && Code(BadRequest) == 400
    ensures Code(NotFound) == 404 && Code(InternalServerError) == 500 && Code(Unknown) == 0
  {
  }

  lemma ThreeDigits(n: nat)
    requires 100 <= n < 1000
    ensures Decimal(n) == [('0' as int + n / 100) as char, ('0' as int + n / 10 % 10) as char,
                           ('0' as int + n % 10) as char]
  {
    assert Decimal(n / 10) == Decimal(n / 100) + [('0' as int + n / 10 % 10) as char];
    assert Decimal(n) == Decimal(n / 10) + [('0' as int + n % 10) as char];
  }

  lemma Digits()
    ensures Decimal(0) == "0" && Decimal(200) == "200" && Decimal(301) == "301"
    ensures Decimal(400) == "400" && Decimal(404) == "404" && Decimal(500) == "500"
  {
    ThreeDigits(200);
    ThreeDigits(301);
    ThreeDigits(400);
    ThreeDigits(404);
    ThreeDigits(500);
  }

  /** A response without headers of its own, letter by letter. */
  lemma BareResponse(r: Reply)
    requires r.headers == map[]
    ensures Serialized(r, []) == "HTTP/1.1 " + Decimal(Code(r.status)) + " " + r.message + "\r\n"
                                 + "Content-Length: " + Decimal(|r.body|) + "\r\n"
                                 + (if r.close then "Connection: close\r\n" else "Connection: Keep-Alive\r\n")
                                 + "\r\n" + r.body
  {
    var none: seq<string> := [];
    SerializedInParts(r, []);
    StatusText(r);
    GeneratedText(r);
    assert FieldLines(r.headers, none) == none && Lines(none) == "";
    Regroup("", StatusLine(r) + CRLF, Lines(GeneratedLines(r)), "\r\n", r.body, "");
  }

  /** One header field, letter by letter. */
  lemma FieldOnTheWire(headers: map<string, string>, key: string)
    requires key in headers
    ensures Lines(FieldLines(headers, [key])) == key + ": " + headers[key] + "\r\n"
  {
    assert [key][1..] == [];
    assert FieldLines(headers, [key]) == [FieldLine(key, headers[key])];
    OneLineOf(FieldLine(key, headers[key]));
    FieldText(key, headers[key]);
  }

  // ---------------------------------------------------------------------------
  // Nothing but a printable reply is ever decoded

  lemma PartOfOneLine(s: string, i: nat, j: nat)
    requires OneLine(s) && i <= j <= |s|
    ensures OneLine(s[i..j])
  {
    forall k | 0 <= k < |s[i..j]| ensures !LineEndAt(s[i..j], k) {
      assert !LineEndAt(s, i + k);
    }
  }

  lemma {:induction false} HeadLinesAreOneLine(u: string)
    requires SplitHead(u).Some?
    ensures forall i :: 0 <= i < |SplitHead(u).value.0| ==> OneLine(SplitHead(u).value.0[i])
    decreases |u|
  {
    var i := FindLineEnd(u).value;
    LineSplit(u);
    if i == 0 {
    } else {
      HeadLinesAreOneLine(u[i + 2..]);
    }
  }

  lemma FieldIsLegible(line: string)
    requires OneLine(line) && ReadField(line).Some?
    ensures var f := ReadField(line).value; OneLine(f.0) && ':' !in f.0 && OneLine(f.1)
  {
    var colon := Find(line, ':');
    FindIsFirst(line, ':');
    PartOfOneLine(line, 0, colon);
    PartOfOneLine(line, colon + 2, |line|);
    assert line[colon + 2..|line|] == line[colon + 2..];
    assert line[0..colon] == line[..colon];
  }

  lemma {:induction false} FieldsAreLegible(ls: seq<string>)
    requires ReadFields(ls).Some? && forall i :: 0 <= i < |ls| ==> OneLine(ls[i])
    ensures var m := ReadFields(ls).value;
            forall k :: k in m ==> OneLine(k) && ':' !in k && OneLine(m[k])
    decreases |ls|
  {
    if ls == [] {
    } else {
      FieldIsLegible(ls[0]);
      FieldsAreLegible(ls[1..]);
    }
  }

  lemma StatusMessageIsOneLine(line: string)
    requires OneLine(line) && ReadStatus(line).Some?
    ensures OneLine(ReadStatus(line).value.1)
  {
    var from := |"HTTP/1.1 "|;
    var t := line[from..];
    var space := Find(t, ' ');
    PartOfOneLine(line, from + space + 1, |line|);
    assert t[space + 1..] == line[from + space + 1..|line|];
  }

  /** Whatever bytes a receiver decodes as the message of r, r is printable. */
  lemma DecodedIsPrintable(u: string, r: Reply)
    requires Decode(u).Some? && Decode(u).value.0 == Seen(r)
    ensures Printable(r)
  {
    var ls := SplitHead(u).value.0;
    HeadLinesAreOneLine(u);
    StatusMessageIsOneLine(ls[0]);
    FieldsAreLegible(ls[1..]);
    var fields := ReadFields(ls[1..]).value;
    assert r.headers == fields - {LENGTH_KEY, CONNECTION_KEY};
  }

  /** The printer's contract, exactly: the reply is recovered from its output, whatever follows, if and
      only if its texts are free of line ends and its names are free of colons and not the generated two. */
  lemma FramingExactly(r: Reply, order: seq<string>, more: string)
    requires Visits(order, r.headers)
    ensures Decode(Serialized(r, order) + more) == Some((Seen(r), more)) <==> Printable(r)
  {
    if Printable(r) {
      FramingRoundTrip(r, order, more);
    } else if Decode(Serialized(r, order) + more) == Some((Seen(r), more)) {
      DecodedIsPrintable(Serialized(r, order) + more, r);
    }
  }
}
