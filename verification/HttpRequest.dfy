/** The parsed request (chtho/net/http/HTTPRequest.h) and the request-line parser
    (`procReq`, chtho/net/http/HTTPContext.cpp). */
module HttpRequests {

  datatype Verb = Invalid | Get | Post | Head | Put | Delete
  datatype Version = Unknown | Http10 | Http11

  datatype Request = Request(
    verb: Verb, version: Version, path: string, query: string, rcvTime: int,
    headers: map<string, string>)

  // ---------------------------------------------------------------- searching and trimming

  /** `std::find`: first position of c, or |s|. */
  function FindChar(s: string, c: char): (i: nat)
    ensures i <= |s| && (i < |s| ==> s[i] == c)
    ensures forall k :: 0 <= k < i ==> s[k] != c
  {
    if s == [] || s[0] == c then 0
    else
      assert forall k :: 1 <= k < |s| ==> s[k] == s[1..][k - 1];
      1 + FindChar(s[1..], c)
  }

  /** `isspace` in the C locale. */
  predicate IsSpace(c: char) { c in {' ', '\t', '\n', '\U{0B}', '\U{0C}', '\r'} }

  predicate Blank(s: string) { forall k :: 0 <= k < |s| ==> IsSpace(s[k]) }

  predicate Trimmed(s: string) { s == [] || (!IsSpace(s[0]) && !IsSpace(s[|s| - 1])) }

  function TrimLeft(s: string): string {
    if s != [] && IsSpace(s[0]) then TrimLeft(s[1..]) else s
  }

  function TrimRight(s: string): string {
    if s != [] && IsSpace(s[|s| - 1]) then TrimRight(s[..|s| - 1]) else s
  }

  function Trim(s: string): string { TrimRight(TrimLeft(s)) }

  lemma {:induction false} TrimLeftSplit(s: string)
    ensures |TrimLeft(s)| <= |s| && TrimLeft(s) == s[|s| - |TrimLeft(s)|..]
    ensures Blank(s[..|s| - |TrimLeft(s)|])
    ensures TrimLeft(s) != [] ==> !IsSpace(TrimLeft(s)[0])
  {
    if s != [] && IsSpace(s[0]) {
      TrimLeftSplit(s[1..]);
      var n := |s| - |TrimLeft(s)|;
      assert s[..n] == [s[0]] + s[1..][..n - 1];
    }
  }

  lemma {:induction false} TrimRightSplit(s: string)
    ensures |TrimRight(s)| <= |s| && TrimRight(s) == s[..|TrimRight(s)|]
    ensures Blank(s[|TrimRight(s)|..])
    ensures TrimRight(s) != [] ==> !IsSpace(TrimRight(s)[|TrimRight(s)| - 1])
  {
    if s != [] && IsSpace(s[|s| - 1]) {
      var s' := s[..|s| - 1];
      TrimRightSplit(s');
      assert s[|TrimRight(s)|..] == s'[|TrimRight(s)|..] + [s[|s| - 1]];
    }
  }

  /** Trimming takes blanks from both ends and nothing else. */
  lemma TrimSplit(s: string) returns (a: string, b: string)
    ensures s == a + Trim(s) + b && Blank(a) && Blank(b) && Trimmed(Trim(s))
  {
    TrimLeftSplit(s);
    TrimRightSplit(TrimLeft(s));
    a := s[..|s| - |TrimLeft(s)|];
    b := TrimLeft(s)[|Trim(s)|..];
  }

  /** A value printed after one space comes back exactly when it had no blanks at its ends. */
  lemma TrimAfterSpace(v: string)
    ensures Trim(" " + v) == v <==> Trimmed(v)
  {
    assert (" " + v)[1..] == v;
    var a, b := TrimSplit(" " + v);
    assert TrimLeft(" " + v) == TrimLeft(v);
  }

  // ---------------------------------------------------------------- setters

  function VerbOf(m: string): Verb {
    if m == "GET" then Get
    else if m == "POST" then Post
    else if m == "HEAD" then Head
    else if m == "PUT" then Put
    else if m == "DELETE" then Delete
    else Invalid
  }

  /** HTTP/1.1 or HTTP/1.0, as the last eight characters of a request line. */
  function VersionOf(v: string): Version {
    if |v| != 8 || v[..7] != "HTTP/1." then Unknown
    else if v[7] == '1' then Http11
    else if v[7] == '0' then Http10
    else Unknown
  }

  /** `addHeader`: the text before the colon, and the trimmed text after it. */
  function WithHeader(r: Request, line: string, colon: nat): Request
    requires colon < |line|
  {
    r.(headers := r.headers[line[..colon] := Trim(line[colon + 1..])])
  }

  /** Path and query: the query starts at the first '?' and keeps it. */
  function WithTarget(r: Request, target: string): Request {
    var q := FindChar(target, '?');
    if q < |target| then r.(path := target[..q], query := target[q..]) else r.(path := target)
  }

  /** `procReq` with its partial updates: fields set before a failure stay set. */
  function ProcReq(r: Request, line: string): (Request, bool) {
    var sp := FindChar(line, ' ');
    if sp == |line| then (r, false)
    else
      var r1 := r.(verb := VerbOf(line[..sp]));
      if r1.verb == Invalid then (r1, false)
      else
        var rest := line[sp + 1..];
        var sp2 := FindChar(rest, ' ');
        if sp2 == |rest| then (r1, false)
        else
          var r2 := WithTarget(r1, rest[..sp2]);
          var version := VersionOf(rest[sp2 + 1..]);
          if version == Unknown then (r2, false) else (r2.(version := version), true)
  }

  // ---------------------------------------------------------------- request-line grammar

  /** method SP target SP HTTP-version, the shape of section 3.1.1 of RFC 7230; but any text
      without a space passes for a target, the empty one included. */
  ghost predicate IsRequestLine(line: string, verb: string, target: string, version: string) {
    line == verb + [' '] + (target + [' '] + version)
    && VerbOf(verb) != Invalid && ' ' !in target && VersionOf(version) != Unknown
  }

  lemma FindCharAt(pre: string, c: char, post: string)
    requires c !in pre
    ensures FindChar(pre + [c] + post, c) == |pre|
  {
    var s := pre + [c] + post;
    assert s[|pre|] == c;
    assert forall k :: 0 <= k < |pre| ==> s[k] == pre[k];
  }

  lemma VerbHasNoSpace(m: string)
    requires VerbOf(m) != Invalid
    ensures ' ' !in m
  {
  }

  lemma TargetSplit(r: Request, target: string)
    ensures var r' := WithTarget(r, target);
            ('?' in target ==> r'.path + r'.query == target && '?' !in r'.path && r'.query[..1] == "?")
            && ('?' !in target ==> r'.path == target && r'.query == r.query)
  {
    var q := FindChar(target, '?');
    assert '?' in target <==> q < |target|;
    if q < |target| { assert target == target[..q] + target[q..] && target[q..][..1] == [target[q]]; }
  }

  /** Parsing a request line gives its parts back. */
  lemma RequestLineParses(r: Request, line: string, verb: string, target: string, version: string)
    requires IsRequestLine(line, verb, target, version)
    ensures ProcReq(r, line) ==
            (WithTarget(r.(verb := VerbOf(verb)), target).(version := VersionOf(version)), true)
  {
    var rest := target + [' '] + version;
    VerbHasNoSpace(verb);
    FindCharAt(verb, ' ', rest);
    FindCharAt(target, ' ', version);
    assert line[..|verb|] == verb && line[|verb| + 1..] == rest;
    assert rest[..|target|] == target && rest[|target| + 1..] == version;
  }

  lemma SplitAtFirst(s: string, c: char) returns (pre: string, post: string)
    requires FindChar(s, c) < |s|
    ensures pre == s[..FindChar(s, c)] && post == s[FindChar(s, c) + 1..]
    ensures s == pre + [c] + post && c !in pre
  {
    pre, post := s[..FindChar(s, c)], s[FindChar(s, c) + 1..];
  }

  lemma AcceptedIsRequestLine(r: Request, line: string) returns (verb: string, target: string, version: string)
    requires ProcReq(r, line).1
    ensures IsRequestLine(line, verb, target, version)
  {
    var rest;
    verb, rest := SplitAtFirst(line, ' ');
    target, version := SplitAtFirst(rest, ' ');
  }

  /** A line is accepted exactly when it is a request line. */
  lemma RequestLineAccepted(r: Request, line: string)
    ensures ProcReq(r, line).1 <==>
            exists verb: string, target: string, version: string :: IsRequestLine(line, verb, target, version)
  {
    if verb: string, target: string, version: string :| IsRequestLine(line, verb, target, version) {
      RequestLineParses(r, line, verb, target, version);
    } else if ProcReq(r, line).1 {
      var verb, target, version := AcceptedIsRequestLine(r, line);
    }
  }

  // ---------------------------------------------------------------- names

  function VerbName(v: Verb): string
    requires v != Invalid
  {
    match v
    case Get => "GET"
    case Post => "POST"
    case Head => "HEAD"
    case Put => "PUT"
    case Delete => "DELETE"
  }

  function VersionText(v: Version): string
    requires v != Unknown
  {
    match v
    case Http10 => "HTTP/1.0"
    case Http11 => "HTTP/1.1"
  }

  /** A name is read as the method it names, and as no other. */
  lemma NamesRead(m: string, v: Verb)
    requires v != Invalid
    ensures VerbOf(m) == v <==> m == VerbName(v)
  {
  }

  lemma VersionsRead(t: string, v: Version)
    requires v != Unknown
    ensures VersionOf(t) == v <==> t == VersionText(v)
  {
    if |t| == 8 { assert t == t[..7] + [t[7]]; }
    assert VersionText(v) == VersionText(v)[..7] + [VersionText(v)[7]] && VersionText(v)[..7] == "HTTP/1.";
  }

  /** The request a line stands for: its method and version by name, and its target, cut
      before the first question mark into path and query. */
  ghost predicate Reads(line: string, target: string, r: Request) {
    && r.verb != Invalid && r.version != Unknown && ' ' !in target
    && line == VerbName(r.verb) + [' '] + (target + [' '] + VersionText(r.version))
    && ('?' in target ==> r.path + r.query == target && '?' !in r.path && r.query[..1] == "?")
    && ('?' !in target ==> r.path == target)
  }

  /** An accepted line is read for what it says, whatever the request held before; only the
      query survives when the target has none. */
  lemma AcceptedIsRead(r: Request, line: string) returns (target: string)
    requires ProcReq(r, line).1
    ensures var r' := ProcReq(r, line).0;
            Reads(line, target, r') && ('?' !in target ==> r'.query == r.query)
            && r'.headers == r.headers && r'.rcvTime == r.rcvTime
  {
    var verb, version;
    verb, target, version := AcceptedIsRequestLine(r, line);
    RequestLineParses(r, line, verb, target, version);
    NamesRead(verb, VerbOf(verb));
    VersionsRead(version, VersionOf(version));
    TargetSplit(r.(verb := VerbOf(verb)), target);
  }

  /** And every method, target without spaces and version, written out, is accepted. */
  lemma WrittenIsAccepted(r: Request, verb: Verb, target: string, version: Version)
    requires verb != Invalid && version != Unknown && ' ' !in target
    ensures var (r', ok) := ProcReq(r, VerbName(verb) + [' '] + (target + [' '] + VersionText(version)));
            ok && r'.verb == verb && r'.version == version
  {
    NamesRead(VerbName(verb), verb);
    VersionsRead(VersionText(version), version);
    RequestLineParses(r, VerbName(verb) + [' '] + (target + [' '] + VersionText(version)),
                      VerbName(verb), target, VersionText(version));
  }

  // ---------------------------------------------------------------- the class

  class HttpRequest {
    var verb: Verb
    var version: Version
    var path: string
    var query: string
    var rcvTime: int
    var headers: map<string, string>

    ghost function View(): Request
      reads this
    {
      Request(verb, version, path, query, rcvTime, headers)
    }

    constructor ()
      ensures View() == Request(Invalid, Unknown, "", "", 0, map[])
    {
      verb, version, path, query, rcvTime, headers := Invalid, Unknown, "", "", 0, map[];
    }

    method SetMethod(m: string) returns (ok: bool)
      modifies this
      ensures View() == old(View()).(verb := VerbOf(m))
      ensures ok <==> VerbOf(m) != Invalid
    {
      if m == "GET" { verb := Get; }
      else if m == "POST" { verb := Post; }
      else if m == "HEAD" { verb := Head; }
      else if m == "PUT" { verb := Put; }
      else if m == "DELETE" { verb := Delete; }
      else { verb := Invalid; }
      ok := verb != Invalid;
    }

    /** Skips blanks after the colon, then strips blanks from the end. */
    method AddHeader(line: string, colon: nat)
      requires colon < |line|
      modifies this
      ensures View() == WithHeader(old(View()), line, colon)
    {
      var key := line[..colon];
      var c := colon + 1;
      while c < |line| && IsSpace(line[c])
        invariant c <= |line|
        invariant TrimLeft(line[colon + 1..]) == TrimLeft(line[c..])
      {
        assert line[c..][1..] == line[c + 1..];
        c := c + 1;
      }
      var val := line[c..];
      while val != [] && IsSpace(val[|val| - 1])
        invariant TrimRight(line[c..]) == TrimRight(val)
      {
        val := val[..|val| - 1];
      }
      headers := headers[key := val];
    }

    /** `procReq` on the request it fills in. */
    method ProcessRequestLine(line: string) returns (ok: bool)
      modifies this
      ensures (View(), ok) == ProcReq(old(View()), line)
    {
      var sp := FindChar(line, ' ');
      if sp == |line| { return false; }
      ok := SetMethod(line[..sp]);
      if !ok { return; }
      var rest := line[sp + 1..];
      var sp2 := FindChar(rest, ' ');
      if sp2 == |rest| { return false; }
      var target := rest[..sp2];
      var q := FindChar(target, '?');
      if q != |target| {
        path := target[..q];
        query := target[q..];
      } else {
        path := target;
      }
      var tail := rest[sp2 + 1..];
      if |tail| != 8 { return false; }
      if tail[..7] != "HTTP/1." { return false; }
      if tail[7] == '1' { version := Http11; }
      else if tail[7] == '0' { version := Http10; }
      else { return false; }
      return true;
    }
  }
}
