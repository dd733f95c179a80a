/** The incremental request parser (`HTTPContext::parse`, chtho/net/http/HTTPContext.cpp).

    `ParseAll` is the loop as a function of the unread bytes; `Feed` hands the bytes over
    in chunks.  The central law is that the split into chunks does not matter. */
module HttpContexts {
  import opened Buffers
  import opened HttpRequests

  datatype State = ExpReq | ExpHeader | ExpBody | Done

  datatype Context = Context(state: State, request: Request) {
    predicate Active() { state == ExpReq || state == ExpHeader }
  }

  datatype Outcome = Outcome(ok: bool, context: Context, rest: string) {
    predicate Stopped() { !ok || context.state == Done }
  }

  datatype Turn = Reject(request: Request) | Go(context: Context) | Finish(context: Context)

  /** What one complete line does: any line without a colon ends the headers. */
  function TakeLine(c: Context, line: string, now: int): (t: Turn)
    requires c.Active()
    ensures t.Go? ==> t.context.state == ExpHeader
    ensures t.Finish? ==> t.context.state == Done
  {
    if c.state == ExpReq then
      var (r, ok) := ProcReq(c.request, line);
      if ok then Go(Context(ExpHeader, r.(rcvTime := now))) else Reject(r)
    else
      var colon := FindChar(line, ':');
      if colon != |line| then Go(c.(request := WithHeader(c.request, line, colon)))
      else Finish(c.(state := Done))
  }

  /** One call of `parse` on the unread bytes; every turn consumes a line. */
  function ParseAll(c: Context, buf: string, now: int): (o: Outcome)
    requires c.Active()
    ensures o.Stopped() || o.context.Active()
    decreases |buf|
  {
    var i := FindCRLF(buf);
    if i == |buf| then Outcome(true, c, buf)
    else
      match TakeLine(c, buf[..i], now)
      case Reject(r) => Outcome(false, c.(request := r), buf)
      case Go(c') => ParseAll(c', buf[i + 2..], now)
      case Finish(c') => Outcome(true, c', buf[i + 2..])
  }

  // ---------------------------------------------------------------- lines

  /** What a line decides.  As the first line it is rejected exactly when it is no request
      line, and otherwise read for what it says; after that it ends the headers exactly when it has no colon, and otherwise sets
      one header, under the text before its first colon, and nothing else. */
  lemma LineDecides(c: Context, line: string, now: int)
    requires c.Active()
    ensures var t := TakeLine(c, line, now);
            (t.Reject? <==> c.state == ExpReq && !exists verb: string, target: string, version: string ::
                              IsRequestLine(line, verb, target, version))
            && (t.Finish? <==> c.state == ExpHeader && ':' !in line)
            && (t.Finish? ==> t.context.request == c.request)
            && (t.Go? && c.state == ExpReq ==>
                  t.context.request.rcvTime == now && t.context.request.headers == c.request.headers
                  && exists target: string :: Reads(line, target, t.context.request))
            && (t.Go? && c.state == ExpHeader ==> SetsHeader(c.request, t.context.request, line))
  {
    if c.state == ExpReq {
      RequestLineAccepted(c.request, line);
      if ProcReq(c.request, line).1 {
        var target := AcceptedIsRead(c.request, line);
        assert Reads(line, target, ProcReq(c.request, line).0.(rcvTime := now));
      }
    } else if ':' in line {
      HeaderSet(c.request, line);
    }
  }

  lemma HeaderSet(r: Request, line: string)
    requires ':' in line
    ensures SetsHeader(r, WithHeader(r, line, FindChar(line, ':')), line)
  {
    var a, b := TrimSplit(line[FindChar(line, ':') + 1..]);
  }

  ghost predicate SetsHeader(r: Request, r': Request, line: string)
    requires ':' in line
  {
    var n := FindChar(line, ':');
    && r' == r.(headers := r'.headers)
    && line[..n] in r'.headers && Trimmed(r'.headers[line[..n]])
    && (exists a: string, b: string :: Blank(a) && Blank(b) && line[n + 1..] == a + r'.headers[line[..n]] + b)
    && r'.headers - {line[..n]} == r.headers - {line[..n]}
  }

  /** Lines with their line ends. */
  function Wire(lines: seq<string>): string {
    if lines == [] then "" else lines[0] + "\r\n" + Wire(lines[1..])
  }

  predicate Complete(lines: seq<string>, tail: string) {
    (forall l :: l in lines ==> FindCRLF(l) == |l|) && FindCRLF(tail) == |tail|
  }

  /** Taking lines one by one until one of them stops the parse; the rest stays unread. */
  function TakeLines(c: Context, lines: seq<string>, tail: string, now: int): Outcome
    requires c.Active()
    decreases |lines|
  {
    if lines == [] then Outcome(true, c, tail)
    else
      match TakeLine(c, lines[0], now)
      case Reject(r) => Outcome(false, c.(request := r), Wire(lines) + tail)
      case Go(c') => TakeLines(c', lines[1..], tail, now)
      case Finish(c') => Outcome(true, c', Wire(lines[1..]) + tail)
  }

  lemma FirstLine(text: string, rest: string)
    ensures FindCRLF(text + "\r\n" + rest) == FindCRLF(text)
  {
    var s := text + "\r\n" + rest;
    assert s[|text|] == '\r' && s[|text| + 1] == '\n';
    assert CrlfAt(s, |text|);
    assert forall k :: 0 <= k && k + 1 < |text| ==> CrlfAt(s, k) == CrlfAt(text, k);
    if |text| > 0 { assert !CrlfAt(s, |text| - 1); }
  }

  /** A text with no line end in it, put before a line end, is the first line. */
  lemma CutLine(text: string, rest: string)
    requires FindCRLF(text) == |text|
    ensures var s := text + "\r\n" + rest;
            FindCRLF(s) == |text| < |s| && s[..|text|] == text && s[|text| + 2..] == rest
  {
    FirstLine(text, rest);
  }

  lemma WireFirst(lines: seq<string>, tail: string)
    requires lines != []
    ensures Wire(lines) + tail == lines[0] + "\r\n" + (Wire(lines[1..]) + tail)
  {
    var first, rest := lines[0] + "\r\n", Wire(lines[1..]);
    assert first + rest + tail == first + (rest + tail);
  }

  /** The loop over bytes takes exactly the complete lines, in order. */
  lemma {:induction false} ParseTakesLines(c: Context, lines: seq<string>, tail: string, now: int)
    requires c.Active() && Complete(lines, tail)
    ensures ParseAll(c, Wire(lines) + tail, now) == TakeLines(c, lines, tail, now)
    decreases |lines|
  {
    hide TakeLine;
    if lines == [] {
      assert Wire(lines) + tail == tail;
    } else {
      var turn := TakeLine(c, lines[0], now);
      assert lines[0] in lines && Complete(lines[1..], tail);
      WireFirst(lines, tail);
      CutLine(lines[0], Wire(lines[1..]) + tail);
      if turn.Go? { ParseTakesLines(turn.context, lines[1..], tail, now); }
    }
  }

  /** And every input is complete lines and a tail without a line end. */
  lemma {:induction false} SplitLines(buf: string) returns (lines: seq<string>, tail: string)
    ensures buf == Wire(lines) + tail && Complete(lines, tail)
    decreases |buf|
  {
    var i := FindCRLF(buf);
    if i == |buf| {
      lines, tail := [], buf;
    } else {
      var rest;
      rest, tail := SplitLines(buf[i + 2..]);
      lines := [buf[..i]] + rest;
      LineBefore(buf);
      WireFirst(lines, tail);
      assert lines[1..] == rest;
      JoinLine(buf, i);
    }
  }

  lemma JoinLine(buf: string, i: nat)
    requires CrlfAt(buf, i)
    ensures buf[..i] + "\r\n" + buf[i + 2..] == buf
  {
  }

  lemma LineBefore(buf: string)
    ensures FindCRLF(buf[..FindCRLF(buf)]) == FindCRLF(buf)
  {
    assert forall k :: CrlfAt(buf[..FindCRLF(buf)], k) ==> CrlfAt(buf, k);
  }

  // ---------------------------------------------------------------- chunks

  datatype Chunk = Chunk(data: string, time: int)

  function Flatten(chunks: seq<Chunk>): string {
    if chunks == [] then "" else chunks[0].data + Flatten(chunks[1..])
  }

  /** Appending each chunk to what is unread and parsing, until Done or failure; chunks
      that arrive after that stay unread. */
  function Feed(c: Context, unread: string, chunks: seq<Chunk>): Outcome
    requires c.Active()
    decreases |chunks|
  {
    if chunks == [] then Outcome(true, c, unread)
    else
      var o := ParseAll(c, unread + chunks[0].data, chunks[0].time);
      if o.Stopped() then o.(rest := o.rest + Flatten(chunks[1..]))
      else Feed(o.context, o.rest, chunks[1..])
  }

  /** Everything but the receive time. */
  function Timeless(o: Outcome): Outcome {
    o.(context := o.context.(request := o.context.request.(rcvTime := 0)))
  }

  /** A parse that does not stop has used up every complete line. */
  lemma {:induction false} NotStopped(c: Context, buf: string, now: int)
    requires c.Active()
    ensures var o := ParseAll(c, buf, now);
            !o.Stopped() ==> FindCRLF(o.rest) == |o.rest|
    decreases |buf|
  {
    hide TakeLine;
    var i := FindCRLF(buf);
    if i < |buf| {
      var turn := TakeLine(c, buf[..i], now);
      if turn.Go? { NotStopped(turn.context, buf[i + 2..], now); }
    }
  }

  lemma FindCRLFExtends(a: string, b: string)
    requires FindCRLF(a) < |a|
    ensures FindCRLF(a + b) == FindCRLF(a)
  {
    assert CrlfAt(a + b, FindCRLF(a));
    assert forall k :: 0 <= k < FindCRLF(a) ==> CrlfAt(a + b, k) == CrlfAt(a, k);
  }

  lemma CutAppend(a: string, b: string, i: nat)
    requires i + 2 <= |a|
    ensures (a + b)[..i] == a[..i] && (a + b)[i + 2..] == a[i + 2..] + b
  {
  }

  /** More bytes behind a complete line do not change what the line does. */
  lemma ParseLineAppend(c: Context, a: string, b: string, now: int)
    requires c.Active() && FindCRLF(a) < |a|
    ensures var i := FindCRLF(a);
            var turn, o := TakeLine(c, a[..i], now), ParseAll(c, a + b, now);
            (turn.Reject? ==> o == Outcome(false, c.(request := turn.request), a + b))
            && (turn.Go? ==> o == ParseAll(turn.context, a[i + 2..] + b, now))
            && (turn.Finish? ==> o == Outcome(true, turn.context, a[i + 2..] + b))
  {
    hide TakeLine;
    FindCRLFExtends(a, b);
    CutAppend(a, b, FindCRLF(a));
  }

  /** Parsing a ++ b is parsing a, and then, unless that stopped, parsing what it left ++ b. */
  lemma {:induction false} ParseAppend(c: Context, a: string, b: string, now: int)
    requires c.Active()
    ensures var o := ParseAll(c, a, now);
            ParseAll(c, a + b, now) ==
            if o.Stopped() then o.(rest := o.rest + b) else ParseAll(o.context, o.rest + b, now)
    decreases |a|
  {
    hide TakeLine;
    var i := FindCRLF(a);
    if i < |a| {
      ParseLineAppend(c, a, b, now);
      var turn := TakeLine(c, a[..i], now);
      if turn.Go? { ParseAppend(turn.context, a[i + 2..], b, now); }
    }
  }

  function At(c: Context, t: int): Context { c.(request := c.request.(rcvTime := t)) }

  lemma TakeLineTimeless(c: Context, line: string, now: int, t: int, now': int)
    requires c.Active()
    ensures var turn, turn' := TakeLine(c, line, now), TakeLine(At(c, t), line, now');
            match turn
            case Reject(r) => turn' == Reject(r.(rcvTime := t))
            case Go(c1) => turn'.Go? && turn'.context == At(c1, if c.state == ExpReq then now' else t)
            case Finish(c1) => turn' == Finish(At(c1, t))
  {
  }

  /** The receive time never influences anything else. */
  lemma {:induction false} ParseTimeless(c: Context, buf: string, now: int, t: int, now': int)
    requires c.Active()
    ensures Timeless(ParseAll(At(c, t), buf, now')) == Timeless(ParseAll(c, buf, now))
    decreases |buf|
  {
    hide TakeLine;
    var i := FindCRLF(buf);
    if i < |buf| {
      TakeLineTimeless(c, buf[..i], now, t, now');
      var turn := TakeLine(c, buf[..i], now);
      if turn.Go? {
        ParseTimeless(turn.context, buf[i + 2..], now, if c.state == ExpReq then now' else t, now');
      }
    }
  }

  lemma {:induction false} FeedIsParse(c: Context, unread: string, chunks: seq<Chunk>, now: int)
    requires c.Active() && FindCRLF(unread) == |unread|
    ensures Timeless(Feed(c, unread, chunks)) == Timeless(ParseAll(c, unread + Flatten(chunks), now))
    decreases |chunks|
  {
    if chunks == [] {
      assert unread + Flatten(chunks) == unread;
    } else {
      var a, b, t := unread + chunks[0].data, Flatten(chunks[1..]), chunks[0].time;
      assert unread + Flatten(chunks) == a + b;
      ParseAppend(c, a, b, t);
      NotStopped(c, a, t);
      var o := ParseAll(c, a, t);
      assert At(c, c.request.rcvTime) == c;
      ParseTimeless(c, a + b, now, c.request.rcvTime, t);
      if !o.Stopped() {
        FeedIsParse(o.context, o.rest, chunks[1..], t);
      }
    }
  }

  /** Chunk invariance: any split of the input, including one between CR and LF, gives the
      same verdict, state, request fields and unread bytes as the input in one piece. */
  lemma ChunkInvariance(c: Context, chunks: seq<Chunk>, now: int)
    requires c.Active()
    ensures Timeless(Feed(c, "", chunks)) == Timeless(ParseAll(c, Flatten(chunks), now))
  {
    assert "" + Flatten(chunks) == Flatten(chunks);
    FeedIsParse(c, "", chunks, now);
  }

  // ---------------------------------------------------------------- the class

  class HttpContext {
    var state: State
    const request: HttpRequest

    ghost function View(): Context
      reads this, request
    {
      Context(state, request.View())
    }

    constructor ()
      ensures fresh(request)
      ensures View() == Context(ExpReq, Request(Invalid, Unknown, "", "", 0, map[]))
    {
      state := ExpReq;
      request := new HttpRequest();
    }

    /** The two branches of the loop body, once a line is complete. */
    method ProcessLine(line: string, rcvTime: int) returns (ok: bool, more: bool)
      requires View().Active()
      modifies this, request
      ensures match TakeLine(old(View()), line, rcvTime)
              case Reject(r) => !ok && !more && View() == old(View()).(request := r)
              case Go(c) => ok && more && View() == c
              case Finish(c) => ok && !more && View() == c
    {
      ok, more := true, true;
      if state == ExpReq {
        ok := request.ProcessRequestLine(line);
        if ok {
          request.rcvTime := rcvTime;
          state := ExpHeader;
        } else {
          more := false;
        }
      } else {
        var colon := FindChar(line, ':');
        if colon != |line| {
          request.AddHeader(line, colon);
        } else {
          state := Done;
          more := false;
        }
      }
    }

    /** Process the line that ends at `crlf` and, unless it fails, consume it. */
    method TakeOne(buf: Buffer, crlf: nat, rcvTime: int) returns (ok: bool, more: bool)
      requires buf.Valid() && View().Active() && crlf + 2 <= |buf.Contents()|
      modifies this, request, buf
      ensures buf.Valid() && buf.buf == old(buf.buf)
      ensures match TakeLine(old(View()), old(buf.Contents()[..crlf]), rcvTime)
              case Reject(r) => !ok && !more && View() == old(View()).(request := r)
              case Go(c) => ok && more && View() == c
              case Finish(c) => ok && !more && View() == c
      ensures buf.Contents() == if ok then old(buf.Contents())[crlf + 2..] else old(buf.Contents())
    {
      var line := buf.buf[buf.readerIdx..buf.readerIdx + crlf];
      assert line == buf.Contents()[..crlf];
      ok, more := ProcessLine(line, rcvTime);
      if ok { buf.RetrieveBytes(crlf + 2); }
    }

    /** One turn of the loop of `parse`. */
    method ParseOne(buf: Buffer, rcvTime: int) returns (ok: bool, more: bool)
      requires buf.Valid() && View().Active()
      modifies this, request, buf
      ensures buf.Valid() && buf.buf == old(buf.buf)
      ensures more ==> ok && View().Active() && |buf.Contents()| < |old(buf.Contents())|
                       && ParseAll(View(), buf.Contents(), rcvTime)
                          == ParseAll(old(View()), old(buf.Contents()), rcvTime)
      ensures !more ==> Outcome(ok, View(), buf.Contents())
                        == ParseAll(old(View()), old(buf.Contents()), rcvTime)
    {
      hide TakeLine;
      var crlf := buf.FindCrlf();
      if crlf == buf.writerIdx - buf.readerIdx { return true, false; }
      ok, more := TakeOne(buf, crlf, rcvTime);
    }

    /** `parse`; the loop would not progress in ExpBody or Done. */
    method Parse(buf: Buffer, rcvTime: int) returns (ok: bool)
      requires buf.Valid() && View().Active()
      modifies this, request, buf
      ensures buf.Valid() && buf.buf == old(buf.buf)
      ensures Outcome(ok, View(), buf.Contents()) == ParseAll(old(View()), old(buf.Contents()), rcvTime)
    {
      ghost var goal := ParseAll(View(), buf.Contents(), rcvTime);
      var more := true;
      ok := true;
      while more
        invariant buf.Valid() && buf.buf == old(buf.buf)
        invariant more ==> ok && View().Active() && ParseAll(View(), buf.Contents(), rcvTime) == goal
        invariant !more ==> Outcome(ok, View(), buf.Contents()) == goal
        decreases more, |buf.Contents()|
      {
        ok, more := ParseOne(buf, rcvTime);
      }
    }
  }
}
