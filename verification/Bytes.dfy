/** Byte strings as the parser and the printers use them: searching, line ends, decimals. */
module Bytes {
  import opened Wrappers

  const CRLF: string := "\r\n"

  /** std::find over [from, end): the first position of c at or after `from`, or |s|. */
  function FindFrom(s: string, c: char, from: nat): (i: nat)
    requires from <= |s|
    ensures from <= i <= |s|
    decreases |s| - from
  {
    if from == |s| || s[from] == c then from else FindFrom(s, c, from + 1)
  }

  function Find(s: string, c: char): (i: nat)
    ensures i <= |s|
  {
    FindFrom(s, c, 0)
  }

  lemma {:induction false} FindFromFirst(s: string, c: char, from: nat)
    requires from <= |s|
    ensures forall k :: from <= k < FindFrom(s, c, from) ==> s[k] != c
    ensures FindFrom(s, c, from) < |s| ==> s[FindFrom(s, c, from)] == c
    decreases |s| - from
  {
    if from == |s| || s[from] == c {
    } else {
      FindFromFirst(s, c, from + 1);
    }
  }

  /** Find stops at the first c, and misses exactly when there is none. */
  lemma FindIsFirst(s: string, c: char)
    ensures c !in s[..Find(s, c)]
    ensures Find(s, c) < |s| ==> s[Find(s, c)] == c
    ensures Find(s, c) < |s| <==> c in s
    ensures Find(s, c) < |s| ==> s == s[..Find(s, c)] + [c] + s[Find(s, c) + 1..]
  {
    FindFromFirst(s, c, 0);
  }

  /** The search stops exactly at the end of a prefix that does not hold c. */
  lemma FindAfter(s: string, c: char, t: string)
    requires c !in s
    ensures Find(s + [c] + t, c) == |s|
    ensures (s + [c] + t)[..|s|] == s && (s + [c] + t)[|s| + 1..] == t
  {
    var u := s + [c] + t;
    FindFromFirst(u, c, 0);
    assert u[|s|] == c;
    assert forall k :: 0 <= k < |s| ==> u[k] == s[k] && s[k] in s;
  }

  predicate LineEndAt(s: string, i: int) {
    0 <= i && i + 1 < |s| && s[i] == '\r' && s[i + 1] == '\n'
  }

  /** A line body: it holds no line end of its own (a lone '\r' or '\n' is allowed). */
  ghost predicate OneLine(s: string) {
    forall i :: !LineEndAt(s, i)
  }

  function FindLineEndFrom(s: string, from: nat): (r: Option<nat>)
    requires from <= |s|
    ensures r.Some? ==> r.value + 2 <= |s|
    decreases |s| - from
  {
    if from + 1 >= |s| then None
    else if LineEndAt(s, from) then Some(from)
    else FindLineEndFrom(s, from + 1)
  }

  /** Buffer::findCRLF on the readable bytes: the first line end, if there is one. */
  function FindLineEnd(s: string): (r: Option<nat>)
    ensures r.Some? ==> r.value + 2 <= |s|
  {
    FindLineEndFrom(s, 0)
  }

  lemma {:induction false} FindLineEndFromFirst(s: string, from: nat)
    requires from <= |s|
    ensures var r := FindLineEndFrom(s, from);
            && (r.Some? ==> from <= r.value && LineEndAt(s, r.value)
                            && forall k :: from <= k < r.value ==> !LineEndAt(s, k))
            && (r.None? ==> forall k :: from <= k ==> !LineEndAt(s, k))
    decreases |s| - from
  {
    if from + 1 >= |s| || LineEndAt(s, from) {
    } else {
      FindLineEndFromFirst(s, from + 1);
    }
  }

  lemma FirstLineEnd(s: string, i: nat)
    requires LineEndAt(s, i)
    requires forall k :: 0 <= k < i ==> !LineEndAt(s, k)
    ensures FindLineEnd(s) == Some(i)
  {
    FindLineEndFromFirst(s, 0);
  }

  /** The first line end splits the bytes into one line and the rest; without one they are no line yet. */
  lemma LineSplit(s: string)
    ensures FindLineEnd(s).Some? ==>
              var i := FindLineEnd(s).value; OneLine(s[..i]) && s == s[..i] + CRLF + s[i + 2..]
    ensures FindLineEnd(s).None? <==> OneLine(s)
  {
    FindLineEndFromFirst(s, 0);
    if FindLineEnd(s).Some? {
      var i := FindLineEnd(s).value;
      assert forall k :: LineEndAt(s[..i], k) ==> LineEndAt(s, k);
    }
  }

  /** More bytes never move a line end that was already found. */
  lemma LineEndIsStable(s: string, more: string)
    requires FindLineEnd(s).Some?
    ensures FindLineEnd(s + more) == FindLineEnd(s)
    ensures var i := FindLineEnd(s).value;
            (s + more)[..i] == s[..i] && (s + more)[i + 2..] == s[i + 2..] + more
  {
    var i := FindLineEnd(s).value;
    FindLineEndFromFirst(s, 0);
    assert LineEndAt(s + more, i);
    assert forall k :: 0 <= k < i ==> (LineEndAt(s + more, k) ==> LineEndAt(s, k));
    FirstLineEnd(s + more, i);
  }

  /** A line body followed by a line end is read back whole. */
  lemma LineEndAfter(line: string, rest: string)
    requires OneLine(line)
    ensures FindLineEnd(line + CRLF + rest) == Some(|line|)
    ensures (line + CRLF + rest)[..|line|] == line
    ensures (line + CRLF + rest)[|line| + 2..] == rest
  {
    var u := line + CRLF + rest;
    assert LineEndAt(u, |line|);
    assert u[|line|] == '\r';
    assert forall k :: 0 <= k < |line| ==> (LineEndAt(u, k) ==> LineEndAt(line, k));
    FirstLineEnd(u, |line|);
  }

  /** Joining two bodies around a character that is no line end gives a body. */
  lemma OneLineJoin(a: string, c: char, b: string)
    requires OneLine(a) && OneLine(b) && c != '\r' && c != '\n'
    ensures OneLine(a + [c] + b)
  {
    var u := a + [c] + b;
    assert u[|a|] == c;
    assert forall k :: k < |a| ==> (LineEndAt(u, k) ==> LineEndAt(a, k));
    assert forall k :: k > |a| ==> (LineEndAt(u, k) ==> LineEndAt(b, k - |a| - 1));
  }

  /** Lines, each with its line end. */
  function Lines(ls: seq<string>): string {
    if ls == [] then "" else ls[0] + CRLF + Lines(ls[1..])
  }

  lemma {:induction false} LinesJoin(a: seq<string>, b: seq<string>)
    ensures Lines(a + b) == Lines(a) + Lines(b)
    decreases |a|
  {
    if a == [] {
      assert a + b == b;
    } else {
      assert (a + b)[1..] == a[1..] + b;
      LinesJoin(a[1..], b);
    }
  }

  /** std::to_string of a non-negative number. */
  function Decimal(n: nat): (s: string)
    ensures |s| > 0
    ensures forall i :: 0 <= i < |s| ==> '0' <= s[i] <= '9'
  {
    if n < 10 then [('0' as int + n) as char]
    else Decimal(n / 10) + [('0' as int + n % 10) as char]
  }

  predicate AllDigits(s: string) {
    |s| > 0 && forall i :: 0 <= i < |s| ==> '0' <= s[i] <= '9'
  }

  /** Reading a decimal, as a receiver does. */
  function ReadDecimal(s: string): nat
    requires AllDigits(s)
  {
    var last := s[|s| - 1] as int - '0' as int;
    if |s| == 1 then last else 10 * ReadDecimal(s[..|s| - 1]) + last
  }

  lemma {:induction false} DecimalRoundTrip(n: nat)
    ensures AllDigits(Decimal(n)) && ReadDecimal(Decimal(n)) == n
  {
    if n < 10 {
    } else {
      DecimalRoundTrip(n / 10);
      assert Decimal(n)[..|Decimal(n)| - 1] == Decimal(n / 10);
    }
  }
}
