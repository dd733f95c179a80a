/** The response printer (`HTTPResponse::appendToBuf`, chtho/net/http/HTTPResponse.cpp) and
    its round trip through the header parser. */
module HttpResponses {
  import opened Buffers
  import opened Decimals
  import opened HttpRequests
  import opened HttpContexts

  type Header = (string, string)

  /** `key: value` without its line end. */
  function HeaderText(h: Header): string { h.0 + [':'] + ([' '] + h.1) }

  function Lines(hs: seq<Header>): string {
    if hs == [] then "" else HeaderText(hs[0]) + "\r\n" + Lines(hs[1..])
  }

  /** Headers the printer adds itself. */
  function Generated(close: bool, body: string): seq<Header> {
    if close then [("Connection", "close")]
    else [("Content-Length", Decimal(|body|)), ("Connection", "Keep-Alive")]
  }

  /** All that is printed after the status line. */
  function Block(hs: seq<Header>, body: string): string { Lines(hs) + "\r\n" + body }

  function StatusLine(status: nat, msg: string): string { "HTTP/1.1 " + Decimal(status) + " " + msg + "\r\n" }

  /** Storing headers one after the other; a later one overrides an earlier one. */
  function Stored(m: map<string, string>, hs: seq<Header>): map<string, string>
    decreases |hs|
  {
    if hs == [] then m else Stored(m[hs[0].0 := hs[0].1], hs[1..])
  }

  predicate CrlfFree(s: string) { FindCRLF(s) == |s| }

  /** What a header must be to survive: no colon in the key, no line end in either part,
      no blanks at the ends of the value. */
  predicate Printable(h: Header) {
    ':' !in h.0 && CrlfFree(h.0) && CrlfFree(h.1) && Trimmed(h.1)
  }

  // ---------------------------------------------------------------- one line

  lemma CrlfFreeIff(s: string)
    ensures CrlfFree(s) <==> forall k :: !CrlfAt(s, k)
  {
  }

  lemma HeaderTextCrlfFree(h: Header)
    ensures CrlfFree(HeaderText(h)) <==> CrlfFree(h.0) && CrlfFree(h.1)
  {
    HeaderCrlfAt(h, FindCRLF(HeaderText(h)));
    HeaderCrlfAt(h, FindCRLF(h.0));
    HeaderCrlfAt(h, |h.0| + 2 + FindCRLF(h.1));
  }

  /** The colon and the space between key and value are no part of a line end. */
  lemma HeaderCrlfAt(h: Header, k: int)
    ensures CrlfAt(HeaderText(h), k) <==> CrlfAt(h.0, k) || CrlfAt(h.1, k - |h.0| - 2)
  {
    var t, n := HeaderText(h), |h.0|;
    assert t[n] == ':' && t[n + 1] == ' ';
    if k >= n + 2 { assert k < |t| ==> t[k] == h.1[k - n - 2]; }
  }

  /** A line with a colon is stored as a header and the loop goes on behind it. */
  lemma ColonLineParsed(r: Request, text: string, rest: string, now: int)
    requires CrlfFree(text) && FindChar(text, ':') < |text|
    ensures ParseAll(Context(ExpHeader, r), text + "\r\n" + rest, now)
         == ParseAll(Context(ExpHeader, WithHeader(r, text, FindChar(text, ':'))), rest, now)
  {
    var s := text + "\r\n" + rest;
    CutLine(text, rest);
  }

  lemma HeaderLineParsed(r: Request, h: Header, rest: string, now: int)
    requires ':' !in h.0 && CrlfFree(HeaderText(h))
    ensures ParseAll(Context(ExpHeader, r), HeaderText(h) + "\r\n" + rest, now)
         == ParseAll(Context(ExpHeader, r.(headers := r.headers[h.0 := Trim([' '] + h.1)])), rest, now)
  {
    var text := HeaderText(h);
    assert text[|h.0|] == ':';
    ColonLineParsed(r, text, rest, now);
    FindCharAt(h.0, ':', [' '] + h.1);
    assert text[..|h.0|] == h.0 && text[|h.0| + 1..] == [' '] + h.1;
  }

  lemma EmptyLineEnds(r: Request, body: string, now: int)
    ensures ParseAll(Context(ExpHeader, r), "\r\n" + body, now) == Outcome(true, Context(Done, r), body)
  {
    var s := "\r\n" + body;
    assert s == "" + "\r\n" + body;
    CutLine("", body);
    assert FindChar("", ':') == 0;
  }

  // ---------------------------------------------------------------- the round trip

  /** Running the header loop on printed headers ends in Done with the headers stored in
      order, leaving exactly the body unread. */
  lemma {:induction false} BlockParsed(r: Request, hs: seq<Header>, body: string, now: int)
    requires forall h :: h in hs ==> Printable(h)
    ensures ParseAll(Context(ExpHeader, r), Block(hs, body), now)
         == Outcome(true, Context(Done, r.(headers := Stored(r.headers, hs))), body)
    decreases |hs|
  {
    if hs == [] {
      assert Block(hs, body) == "\r\n" + body;
      EmptyLineEnds(r, body, now);
    } else {
      var h := hs[0];
      assert h in hs;
      var r' := r.(headers := r.headers[h.0 := h.1]);
      assert Block(hs, body) == HeaderText(h) + "\r\n" + Block(hs[1..], body);
      HeaderTextCrlfFree(h);
      TrimAfterSpace(h.1);
      assert [' '] + h.1 == " " + h.1;
      HeaderLineParsed(r, h, Block(hs[1..], body), now);
      BlockParsed(r', hs[1..], body, now);
    }
  }

  lemma NoCrCrlfFree(s: string)
    requires '\r' !in s
    ensures CrlfFree(s)
  {
    CrlfFreeIff(s);
  }

  lemma FixedPrintable(key: string, value: string)
    requires key in {"Connection", "Content-Length"} && value in {"close", "Keep-Alive"}
    ensures ':' !in key && '\r' !in key && '\r' !in value && Trimmed(value)
  {
  }

  lemma DigitsPrintable(n: nat)
    ensures '\r' !in Digits(n) && Trimmed(Digits(n))
  {
    DigitsRead(n);
  }

  lemma GeneratedPrintable(close: bool, body: string)
    ensures forall h :: h in Generated(close, body) ==> Printable(h)
  {
    forall h | h in Generated(close, body)
      ensures Printable(h)
    {
      FixedPrintable(h.0, "close");
      DigitsPrintable(|body|);
      if h.1 != Decimal(|body|) { FixedPrintable(h.0, h.1); }
      NoCrCrlfFree(h.0);
      NoCrCrlfFree(h.1);
    }
  }

  /** Printer and parser undo each other: the generated headers first, overridden by the
      response's own, and the body unread. */
  lemma PrintedHeadersParse(r: Request, close: bool, hs: seq<Header>, body: string, now: int)
    requires forall h :: h in hs ==> Printable(h)
    ensures ParseAll(Context(ExpHeader, r), Block(Generated(close, body) + hs, body), now)
         == Outcome(true, Context(Done, r.(headers :=
              Stored(Stored(r.headers, Generated(close, body)), hs))), body)
  {
    GeneratedPrintable(close, body);
    BlockParsed(r, Generated(close, body) + hs, body, now);
    StoredAppend(r.headers, Generated(close, body), hs);
  }

  lemma {:induction false} StoredAppend(m: map<string, string>, a: seq<Header>, b: seq<Header>)
    ensures Stored(m, a + b) == Stored(Stored(m, a), b)
    decreases |a|
  {
    if a == [] {
      assert a + b == b;
    } else {
      assert (a + b)[1..] == a[1..] + b;
      StoredAppend(m[a[0].0 := a[0].1], a[1..], b);
    }
  }

  // ---------------------------------------------------------------- exactly which headers survive

  ghost predicate Clean(m: map<string, string>) {
    forall k :: k in m ==> CrlfFree(k) && CrlfFree(m[k])
  }

  lemma SliceCrlf(s: string, i: nat, j: nat, k: int)
    requires i <= j <= |s| && CrlfAt(s[i..j], k)
    ensures CrlfAt(s, i + k)
  {
  }

  lemma PartCrlfFree(s: string, i: nat, j: nat)
    requires i <= j <= |s| && CrlfFree(s)
    ensures CrlfFree(s[i..j])
  {
    if !CrlfFree(s[i..j]) {
      SliceCrlf(s, i, j, FindCRLF(s[i..j]));
      assert false;
    }
  }

  /** Trimming cuts a piece out of the text. */
  lemma TrimCrlfFree(s: string)
    requires CrlfFree(s)
    ensures CrlfFree(Trim(s))
  {
    var a, b := TrimSplit(s);
    PartCrlfFree(s, |a|, |a| + |Trim(s)|);
    assert Trim(s) == s[|a|..|a| + |Trim(s)|];
  }

  lemma WithHeaderClean(r: Request, line: string, colon: nat)
    requires Clean(r.headers) && CrlfFree(line) && colon < |line|
    ensures Clean(WithHeader(r, line, colon).headers)
  {
    var key, val := line[..colon], line[colon + 1..];
    PartCrlfFree(line, 0, colon);
    PartCrlfFree(line, colon + 1, |line|);
    assert key == line[0..colon] && val == line[colon + 1..|line|];
    TrimCrlfFree(val);
    AddedClean(r.headers, key, Trim(val));
  }

  lemma AddedClean(m: map<string, string>, key: string, val: string)
    requires Clean(m) && CrlfFree(key) && CrlfFree(val)
    ensures Clean(m[key := val])
  {
  }

  /** No stored key or value ever contains a line end. */
  lemma {:induction false} ParsedClean(r: Request, buf: string, now: int)
    requires Clean(r.headers)
    ensures Clean(ParseAll(Context(ExpHeader, r), buf, now).context.request.headers)
    decreases |buf|
  {
    var i := FindCRLF(buf);
    if i < |buf| {
      LineBefore(buf);
      var colon := FindChar(buf[..i], ':');
      if colon != i {
        WithHeaderClean(r, buf[..i], colon);
        ParsedClean(WithHeader(r, buf[..i], colon), buf[i + 2..], now);
      }
    }
  }

  /** A header on its own comes back exactly when it is printable. */
  lemma SurvivesIffPrintable(r: Request, h: Header, body: string, now: int)
    requires r.headers == map[]
    ensures ParseAll(Context(ExpHeader, r), Block([h], body), now)
            == Outcome(true, Context(Done, r.(headers := map[h.0 := h.1])), body)
            <==> Printable(h)
  {
    var o := ParseAll(Context(ExpHeader, r), Block([h], body), now);
    var m := map[h.0 := h.1];
    if Printable(h) {
      BlockParsed(r, [h], body, now);
      assert Stored(r.headers, [h]) == m;
    }
    if o == Outcome(true, Context(Done, r.(headers := m)), body) {
      ParsedClean(r, Block([h], body), now);
      assert h.0 in m;
      HeaderTextCrlfFree(h);
      LoneHeaderStored(r, h, body, now);
      var t := HeaderText(h);
      var c := FindChar(t, ':');
      assert r.headers[t[..c] := Trim(t[c + 1..])] == m;
      assert t[..c] in m;
      TrimAfterSpace(h.1);
    }
  }

  /** With no line end in it, a lone header is stored under the text before its first colon. */
  lemma LoneHeaderStored(r: Request, h: Header, body: string, now: int)
    requires CrlfFree(HeaderText(h))
    ensures var t := HeaderText(h);
            var c := FindChar(t, ':');
            c <= |h.0| && (c == |h.0| <==> ':' !in h.0)
            && ParseAll(Context(ExpHeader, r), Block([h], body), now)
               == Outcome(true, Context(Done, WithHeader(r, t, c)), body)
            && (c == |h.0| ==> t[..c] == h.0 && t[c + 1..] == [' '] + h.1)
  {
    var t := HeaderText(h);
    FirstColon(h);
    LoneBlock(h, body);
    ColonLineParsed(r, t, "\r\n" + body, now);
    EmptyLineEnds(WithHeader(r, t, FindChar(t, ':')), body, now);
  }

  lemma LoneBlock(h: Header, body: string)
    ensures Block([h], body) == HeaderText(h) + "\r\n" + ("\r\n" + body)
  {
    var line := HeaderText(h) + "\r\n";
    assert [h][1..] == [] && Lines([h]) == line;
    Associates(line, "\r\n", body);
  }

  lemma FirstColon(h: Header)
    ensures var t := HeaderText(h);
            var c := FindChar(t, ':');
            c <= |h.0| < |t| && (c == |h.0| <==> ':' !in h.0)
            && (c == |h.0| ==> t[..c] == h.0 && t[c + 1..] == [' '] + h.1)
  {
    var t := HeaderText(h);
    assert t[|h.0|] == ':' && forall k :: 0 <= k < |h.0| ==> t[k] == h.0[k];
  }

  // ---------------------------------------------------------------- what is printed

  /** Up to the first space the version, up to the next the status, then the message, as in
      section 3.1.2 of RFC 7230. */
  ghost predicate ReadsStatus(line: string, status: nat, msg: string) {
    var sp := FindChar(line, ' ');
    sp < |line| && VersionOf(line[..sp]) == Http11
    && (var rest := line[sp + 1..];
        var sp2 := FindChar(rest, ' ');
        sp2 < |rest| && Canonical(rest[..sp2]) && ReadDecimal(rest[..sp2]) == status && rest[sp2 + 1..] == msg)
  }

  /** The printed status line is one line and reads back. */
  lemma StatusLineReads(status: nat, msg: string)
    requires CrlfFree(msg)
    ensures var s := StatusLine(status, msg);
            FindCRLF(s) + 2 == |s| && ReadsStatus(s[..FindCRLF(s)], status, msg)
  {
    var line := "HTTP/1.1" + [' '] + (Decimal(status) + [' '] + msg);
    StatusLineParts(status, msg);
    DigitsRead(status);
    StatusCrlfFree(Decimal(status), msg);
    CutLine(line, "");
    Associates(line, "\r\n", "");
    assert line + "\r\n" + "" == line + "\r\n";
    StatusText(status, msg);
    hide ReadsStatus, FindCRLF;
  }

  lemma StatusText(status: nat, msg: string)
    ensures ReadsStatus("HTTP/1.1" + [' '] + (Decimal(status) + [' '] + msg), status, msg)
  {
    var version, digits := "HTTP/1.1", Decimal(status);
    var rest := digits + [' '] + msg;
    var line := version + [' '] + rest;
    DigitsRead(status);
    DecimalReadsBack(status);
    FindCharAt(version, ' ', rest);
    FindCharAt(digits, ' ', msg);
    assert line[..8] == version && line[9..] == rest && rest[..|digits|] == digits && rest[|digits| + 1..] == msg;
    VersionsRead(version, Http11);
  }

  lemma StatusLineParts(status: nat, msg: string)
    ensures StatusLine(status, msg) == "HTTP/1.1" + [' '] + (Decimal(status) + [' '] + msg) + "\r\n"
  {
    assert "HTTP/1.1 " == "HTTP/1.1" + [' '] && " " == [' '];
    Associates("HTTP/1.1 ", Decimal(status) + " ", msg);
    Associates("HTTP/1.1 ", Decimal(status), " ");
  }

  lemma StatusCrlfFree(digits: string, msg: string)
    requires AllDigits(digits) && CrlfFree(msg)
    ensures CrlfFree("HTTP/1.1" + [' '] + (digits + [' '] + msg))
  {
    var head := "HTTP/1.1" + [' '] + digits + [' '];
    var line := "HTTP/1.1" + [' '] + (digits + [' '] + msg);
    assert line == head + msg;
    assert forall k :: 0 <= k < |head| ==> head[k] != '\r';
    CrlfFreeIff(line);
    CrlfFreeIff(msg);
    forall k ensures !CrlfAt(line, k) {
      if 0 <= k < |head| { assert line[k] == head[k]; }
      if k >= |head| { assert CrlfAt(line, k) == CrlfAt(msg, k - |head|); }
    }
  }

  /** The headers that a receiver reads from a printed response. */
  ghost function Received(r: Request, close: bool, hs: seq<Header>, body: string, now: int): map<string, string> {
    ParseAll(Context(ExpHeader, r), Block(Generated(close, body) + hs, body), now).context.request.headers
  }

  ghost predicate TellsEnd(m: map<string, string>, close: bool, length: nat) {
    && "Connection" in m && m["Connection"] == (if close then "close" else "Keep-Alive")
    && (!close ==> "Content-Length" in m && Canonical(m["Content-Length"]) && ReadDecimal(m["Content-Length"]) == length)
  }

  /** Unless the response has headers of these names itself, its receiver reads the length of
      the body, or that the connection closes. */
  lemma GeneratedMeans(r: Request, close: bool, hs: seq<Header>, body: string, now: int)
    requires forall h :: h in hs ==> Printable(h) && h.0 != "Content-Length" && h.0 != "Connection"
    ensures TellsEnd(Received(r, close, hs, body, now), close, |body|)
  {
    PrintedHeadersParse(r, close, hs, body, now);
    GeneratedStored(r.headers, close, body);
    StoredKeeps(Stored(r.headers, Generated(close, body)), hs, "Connection");
    StoredKeeps(Stored(r.headers, Generated(close, body)), hs, "Content-Length");
  }

  lemma GeneratedStored(m: map<string, string>, close: bool, body: string)
    ensures TellsEnd(Stored(m, Generated(close, body)), close, |body|)
  {
    DecimalReadsBack(|body|);
    if close {
      StoredOne(m, ("Connection", "close"));
    } else {
      var g := Generated(close, body);
      assert g[0] == ("Content-Length", Decimal(|body|)) && g[1..] == [("Connection", "Keep-Alive")];
      StoredOne(m[g[0].0 := g[0].1], ("Connection", "Keep-Alive"));
      assert |"Connection"| != |"Content-Length"|;
    }
  }

  lemma StoredOne(m: map<string, string>, h: Header)
    ensures Stored(m, [h]) == m[h.0 := h.1]
  {
    assert [h][1..] == [];
  }

  lemma {:induction false} StoredKeeps(m: map<string, string>, hs: seq<Header>, key: string)
    requires forall h :: h in hs ==> h.0 != key
    ensures key in m ==> key in Stored(m, hs) && Stored(m, hs)[key] == m[key]
    decreases |hs|
  {
    if hs != [] {
      assert hs[0] in hs;
      StoredKeeps(m[hs[0].0 := hs[0].1], hs[1..], key);
    }
  }

  // ---------------------------------------------------------------- putting the text together

  lemma Assemble(before: string, status: string, gen: seq<Header>, own: seq<Header>, body: string)
    ensures before + status + Lines(gen) + Lines(own) + "\r\n" + body
         == before + status + Block(gen + own, body)
  {
    LinesAppend(gen, own);
    hide Lines;
    Associates(before + status, Lines(gen), Lines(own));
    Associates(before + status, Lines(gen) + Lines(own), "\r\n");
    Associates(before + status, Lines(gen) + Lines(own) + "\r\n", body);
  }

  lemma GeneratedLines(close: bool, body: string, before: string)
    ensures before + Lines(Generated(close, body)) ==
            if close then before + "Connection: close\r\n"
            else before + ("Content-Length: " + Decimal(|body|) + "\r\n") + "Connection: Keep-Alive\r\n"
  {
    GeneratedText(close, body);
    if !close {
      Associates(before, "Content-Length: " + Decimal(|body|) + "\r\n", "Connection: Keep-Alive\r\n");
    }
  }

  lemma HeaderTail(before: string, h: Header, end: string)
    ensures before + h.0 + ": " + h.1 + end == before + HeaderText(h) + end
  {
    assert ": " == [':'] + [' '];
    assert before + h.0 + ": " + h.1 == before + HeaderText(h);
  }

  lemma StatusLineTail(before: string, status: nat, msg: string)
    ensures before + ("HTTP/1.1 " + Decimal(status) + " ") + msg + "\r\n" == before + StatusLine(status, msg)
  {
    var head, end := "HTTP/1.1 " + Decimal(status) + " ", "\r\n";
    Associates(before, head, msg);
    Associates(before, head + msg, end);
  }

  lemma Associates(a: string, b: string, c: string)
    ensures a + (b + c) == a + b + c
  {
  }

  lemma KeyText(key: string, value: string)
    ensures HeaderText((key, value)) == key + ": " + value
  {
    assert ": " == [':'] + [' '];
  }

  lemma LastLine(h: Header)
    ensures Lines([h]) == HeaderText(h) + "\r\n"
  {
    assert [h][1..] == [];
  }

  lemma TwoLines(h: Header, k: Header)
    ensures Lines([h, k]) == HeaderText(h) + "\r\n" + (HeaderText(k) + "\r\n")
  {
    assert [h, k][1..] == [k];
    LastLine(k);
  }

  lemma GeneratedText(close: bool, body: string)
    ensures Lines(Generated(close, body)) ==
            if close then "Connection: close\r\n"
            else "Content-Length: " + Decimal(|body|) + "\r\n" + "Connection: Keep-Alive\r\n"
  {
    hide Lines, HeaderText;
    if close {
      LastLine(("Connection", "close"));
      KeyText("Connection", "close");
    } else {
      TwoLines(("Content-Length", Decimal(|body|)), ("Connection", "Keep-Alive"));
      KeyText("Content-Length", Decimal(|body|));
      KeyText("Connection", "Keep-Alive");
      assert "Content-Length" + ": " == "Content-Length: ";
    }
  }

  lemma {:induction false} LinesAppend(a: seq<Header>, b: seq<Header>)
    ensures Lines(a + b) == Lines(a) + Lines(b)
    decreases |a|
  {
    if a == [] {
      assert a + b == b;
    } else {
      assert (a + b)[1..] == a[1..] + b;
      LinesAppend(a[1..], b);
    }
  }

  lemma NextLine(head: string, hs: seq<Header>, i: nat)
    requires i < |hs|
    ensures head + Lines(hs[..i]) + HeaderText(hs[i]) + "\r\n" == head + Lines(hs[..i + 1])
  {
    hide Lines, HeaderText;
    LinesSnoc(hs[..i], hs[i]);
    assert hs[..i + 1] == hs[..i] + [hs[i]];
    Associates(head, Lines(hs[..i]), HeaderText(hs[i]));
    Associates(head, Lines(hs[..i]) + HeaderText(hs[i]), "\r\n");
  }

  lemma LinesSnoc(hs: seq<Header>, h: Header)
    ensures Lines(hs + [h]) == Lines(hs) + HeaderText(h) + "\r\n"
  {
    LinesAppend(hs, [h]);
    assert [h][1..] == [];
  }

  // ---------------------------------------------------------------- the class

  class HttpResponse {
    var status: nat
    var close: bool
    var statusMsg: string
    /** The entries of `headers_` in the order the map is iterated. */
    var headers: seq<Header>
    var body: string

    constructor (close: bool)
      ensures this.close == close && status == 0 && statusMsg == "" && headers == [] && body == ""
    {
      this.close := close;
      status, statusMsg, headers, body := 0, "", [], "";
    }

    method AppendTwo(out: Buffer, a: string, b: string)
      requires out.Valid()
      modifies out, out.buf
      ensures out.Valid() && (out.buf == old(out.buf) || fresh(out.buf))
      ensures out.Contents() == old(out.Contents()) + a + b
    {
      out.AppendText(a);
      out.AppendText(b);
    }

    method AppendStatusLine(out: Buffer)
      requires out.Valid()
      modifies out, out.buf
      ensures out.Valid() && (out.buf == old(out.buf) || fresh(out.buf))
      ensures out.Contents() == old(out.Contents()) + StatusLine(status, statusMsg)
    {
      StatusLineTail(out.Contents(), status, statusMsg);
      out.AppendText("HTTP/1.1 " + Decimal(status) + " ");
      AppendTwo(out, statusMsg, "\r\n");
    }

    method AppendGenerated(out: Buffer)
      requires out.Valid()
      modifies out, out.buf
      ensures out.Valid() && (out.buf == old(out.buf) || fresh(out.buf))
      ensures out.Contents() == old(out.Contents()) + Lines(Generated(close, body))
    {
      GeneratedLines(close, body, out.Contents());
      if close {
        out.AppendText("Connection: close\r\n");
      } else {
        out.AppendText("Content-Length: " + Decimal(|body|) + "\r\n");
        out.AppendText("Connection: Keep-Alive\r\n");
      }
    }

    method AppendHeader(out: Buffer, h: Header)
      requires out.Valid()
      modifies out, out.buf
      ensures out.Valid() && (out.buf == old(out.buf) || fresh(out.buf))
      ensures out.Contents() == old(out.Contents()) + HeaderText(h) + "\r\n"
    {
      HeaderTail(out.Contents(), h, "\r\n");
      AppendTwo(out, h.0, ": ");
      AppendTwo(out, h.1, "\r\n");
    }

    method AppendNext(out: Buffer, i: nat, ghost head: string)
      requires out.Valid() && i < |headers| && out.Contents() == head + Lines(headers[..i])
      modifies out, out.buf
      ensures out.Valid() && (out.buf == old(out.buf) || fresh(out.buf))
      ensures out.Contents() == head + Lines(headers[..i + 1])
    {
      hide Lines, HeaderText;
      AppendHeader(out, headers[i]);
      NextLine(head, headers, i);
    }

    method AppendOwn(out: Buffer)
      requires out.Valid()
      modifies out, out.buf
      ensures out.Valid() && (out.buf == old(out.buf) || fresh(out.buf))
      ensures out.Contents() == old(out.Contents()) + Lines(headers)
    {
      ghost var head := out.Contents();
      for i := 0 to |headers|
        invariant out.Valid() && (out.buf == old(out.buf) || fresh(out.buf))
        invariant out.Contents() == head + Lines(headers[..i])
      {
        AppendNext(out, i, head);
      }
      assert headers[..|headers|] == headers;
    }

    /** `appendToBuf`: status line, generated headers, own headers, empty line, body. */
    method AppendToBuf(out: Buffer)
      requires out.Valid()
      modifies out, out.buf
      ensures out.Valid()
      ensures out.Contents() == old(out.Contents()) + StatusLine(status, statusMsg)
                                + Block(Generated(close, body) + headers, body)
    {
      Assemble(out.Contents(), StatusLine(status, statusMsg), Generated(close, body), headers, body);
      AppendStatusLine(out);
      AppendGenerated(out);
      AppendOwn(out);
      AppendTwo(out, "\r\n", body);
    }
  }
}
