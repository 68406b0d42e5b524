/** The request record and the request-line grammar. */
module HttpMessage {
  import opened Wrappers
  import opened Bytes

  datatype Method = InvalidMethod | Get | Post | Head | Put | Delete
  datatype Version = UnknownVersion | Http10 | Http11

  /** The value of a request record. */
  datatype Request = Request(verb: Method, version: Version, path: string, query: string,
                             headers: map<string, string>)

  const EMPTY_REQUEST := Request(InvalidMethod, UnknownVersion, "", "", map[])

  class HttpRequest {
    var verb: Method
    var version: Version
    var path: string
    var query: string
    var headers: map<string, string>

    function Value(): Request
      reads this
    {
      Request(verb, version, path, query, headers)
    }

    constructor ()
      ensures Value() == EMPTY_REQUEST
    {
      verb, version, path, query, headers := InvalidMethod, UnknownVersion, "", "", map[];
    }

    /** The last value given for a key wins. */
    method AddHeader(key: string, value: string)
      modifies this`headers
      ensures headers == old(headers)[key := value]
    {
      headers := headers[key := value];
    }

    method Swap(that: HttpRequest)
      modifies this, that
      ensures Value() == old(that.Value()) && that.Value() == old(Value())
    {
      verb, that.verb := that.verb, verb;
      version, that.version := that.version, version;
      path, that.path := that.path, path;
      query, that.query := that.query, query;
      headers, that.headers := that.headers, headers;
    }
  }

  // ---------------------------------------------------------------------------
  // Request line

  function MethodName(m: Method): string
    requires m != InvalidMethod
  {
    match m
    case Get => "GET"
    case Post => "POST"
    case Head => "HEAD"
    case Put => "PUT"
    case Delete => "DELETE"
  }

  /** The name is compared with each known method in turn. */
  function MethodAmong(name: string, known: seq<Method>): (m: Option<Method>)
    requires InvalidMethod !in known
    ensures m.Some? ==> m.value in known && MethodName(m.value) == name
    ensures m.None? ==> forall k :: k in known ==> MethodName(k) != name
  {
    if known == [] then None
    else if name == MethodName(known[0]) then Some(known[0])
    else MethodAmong(name, known[1..])
  }

  function MethodNamed(name: string): (m: Option<Method>)
    ensures m.Some? ==> m.value != InvalidMethod && MethodName(m.value) == name
  {
    MethodAmong(name, [Get, Post, Head, Put, Delete])
  }

  function VersionName(v: Version): string
    requires v != UnknownVersion
  {
    if v == Http10 then "HTTP/1.0" else "HTTP/1.1"
  }

  function VersionNamed(name: string): (v: Option<Version>)
    ensures v.Some? ==> v.value != UnknownVersion && VersionName(v.value) == name
  {
    if name == "HTTP/1.1" then Some(Http11)
    else if name == "HTTP/1.0" then Some(Http10)
    else None
  }

  /** Path and query; a target without '?' leaves the query as it was. */
  function WithTarget(r: Request, target: string): Request {
    var q := Find(target, '?');
    if q < |target| then r.(path := target[..q], query := target[q + 1..]) else r.(path := target)
  }

  /** The record after a request line was processed, and whether it was accepted. Fields that
      were read before the line turned out to be bad stay changed. */
  function ReadRequestLine(r: Request, line: string): (Request, bool) {
    var space := Find(line, ' ');
    if space == |line| then (r, false) else
    match MethodNamed(line[..space])
    case None => (r, false)
    case Some(m) =>
      var tail := line[space + 1..];
      var space2 := Find(tail, ' ');
      if space2 == |tail| then (r.(verb := m), false) else
      var r2 := WithTarget(r.(verb := m), tail[..space2]);
      match VersionNamed(tail[space2 + 1..])
      case None => (r2, false)
      case Some(v) => (r2.(version := v), true)
  }

  function RequestLine(m: Method, target: string, v: Version): string
    requires m != InvalidMethod && v != UnknownVersion
  {
    MethodName(m) + [' '] + (target + [' '] + VersionName(v))
  }

  /** The accepted request lines: method, one blank, a target without blanks, one blank, version. */
  ghost predicate Spells(line: string, m: Method, target: string, v: Version) {
    && m != InvalidMethod && v != UnknownVersion && ' ' !in target
    && line == RequestLine(m, target, v)
  }

  lemma NamesReadBack(m: Method, v: Version)
    requires m != InvalidMethod && v != UnknownVersion
    ensures MethodNamed(MethodName(m)) == Some(m) && ' ' !in MethodName(m)
    ensures VersionNamed(VersionName(v)) == Some(v)
  {
  }

  /** A line of three parts, the first two without blanks, is taken apart as it was put together. */
  lemma PartsAreRead(r: Request, line: string, name: string, target: string, version: string)
    requires ' ' !in name && ' ' !in target
    requires line == name + [' '] + (target + [' '] + version)
    requires MethodNamed(name).Some? && VersionNamed(version).Some?
    ensures ReadRequestLine(r, line)
            == (WithTarget(r.(verb := MethodNamed(name).value), target).(version := VersionNamed(version).value), true)
  {
    var tail := target + [' '] + version;
    FindAfter(name, ' ', tail);
    FindAfter(target, ' ', version);
    assert line[..Find(line, ' ')] == name;
    assert line[Find(line, ' ') + 1..] == tail;
    assert tail[..Find(tail, ' ')] == target && tail[Find(tail, ' ') + 1..] == version;
  }

  lemma SpelledLineIsRead(r: Request, line: string, m: Method, target: string, v: Version)
    requires Spells(line, m, target, v)
    ensures ReadRequestLine(r, line) == (WithTarget(r.(verb := m), target).(version := v), true)
  {
    NamesReadBack(m, v);
    PartsAreRead(r, line, MethodName(m), target, VersionName(v));
  }

  /** A line is accepted exactly when it is spelled that way. */
  lemma AcceptedExactly(r: Request, line: string)
    ensures ReadRequestLine(r, line).1 <==> exists m, target, v :: Spells(line, m, target, v)
  {
    if ReadRequestLine(r, line).1 {
      var space := Find(line, ' ');
      var m := MethodNamed(line[..space]).value;
      var tail := line[space + 1..];
      var space2 := Find(tail, ' ');
      var v := VersionNamed(tail[space2 + 1..]).value;
      FindIsFirst(line, ' ');
      FindIsFirst(tail, ' ');
      assert Spells(line, m, tail[..space2], v);
    }
    forall m, target, v | Spells(line, m, target, v)
      ensures ReadRequestLine(r, line).1
    {
      SpelledLineIsRead(r, line, m, target, v);
    }
  }

  /** The names, as the code spells them. */
  lemma NamesAsSpelled(name: string)
    ensures MethodNamed(name) == (if name == "GET" then Some(Get) else if name == "POST" then Some(Post)
                                  else if name == "HEAD" then Some(Head) else if name == "PUT" then Some(Put)
                                  else if name == "DELETE" then Some(Delete) else None)
    ensures VersionNamed(name) == (if name == "HTTP/1.0" then Some(Http10)
                                   else if name == "HTTP/1.1" then Some(Http11) else None)
  {
    if MethodNamed(name).None? {
      MethodsAreTried(name);
    }
  }

  lemma MethodsAreTried(name: string)
    requires MethodNamed(name).None?
    ensures name != "GET" && name != "POST" && name != "HEAD" && name != "PUT" && name != "DELETE"
  {
    var known := [Get, Post, Head, Put, Delete];
    assert known[0] in known && known[1] in known && known[2] in known && known[3] in known && known[4] in known;
  }

  /** What a refused line leaves behind: its method if that is known, and its target if a second blank
      follows it. */
  lemma RefusedLineLeaves(r: Request, name: string, target: string, rest: string)
    requires ' ' !in name && ' ' !in target && VersionNamed(rest).None?
    ensures ReadRequestLine(r, name) == (r, false)
    ensures MethodNamed(name).None? ==> ReadRequestLine(r, name + [' '] + target) == (r, false)
    ensures MethodNamed(name).Some? ==>
              && ReadRequestLine(r, name + [' '] + target) == (r.(verb := MethodNamed(name).value), false)
              && ReadRequestLine(r, name + [' '] + (target + [' '] + rest))
                 == (WithTarget(r.(verb := MethodNamed(name).value), target), false)
  {
    FindIsFirst(name, ' ');
    FindIsFirst(target, ' ');
    FindAfter(name, ' ', target);
    FindAfter(name, ' ', target + [' '] + rest);
    FindAfter(target, ' ', rest);
  }

  /** A target is split at its first question mark; without one the query stays what it was. */
  lemma TargetIsSplit(r: Request, path: string, query: string)
    requires '?' !in path
    ensures WithTarget(r, path + ['?'] + query) == r.(path := path, query := query)
    ensures WithTarget(r, path) == r.(path := path)
  {
    FindAfter(path, '?', query);
    FindIsFirst(path, '?');
  }

  /** Processing the same line a second time changes nothing: what makes re-parsing after a
      rejected line harmless. */
  lemma RereadingIsIdempotent(r: Request, line: string)
    ensures var once := ReadRequestLine(r, line); ReadRequestLine(once.0, line) == once
  {
    var space := Find(line, ' ');
    if space < |line| && MethodNamed(line[..space]).Some? {
      var verb := MethodNamed(line[..space]).value;
      var tail := line[space + 1..];
      RetargetingIsIdempotent(r.(verb := verb), tail[..Find(tail, ' ')]);
    }
  }

  lemma RetargetingIsIdempotent(r: Request, target: string)
    ensures var once := WithTarget(r, target);
            && once.verb == r.verb && once.version == r.version
            && (forall v :: WithTarget(once.(version := v), target) == once.(version := v))
  {
  }
}
