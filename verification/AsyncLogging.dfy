/** The fixed-size log buffer (chtho/logging/FixedBuffer.h). */
module FixedBuffers {

  /** Size of the buffers the asynchronous logger uses (kLarge). */
  const LARGE: nat := 4_000_000

  type Line = string

  /** What a buffer holds after `reset` and a sequence of successful appends. */
  datatype Buf = Buf(lines: seq<Line>) {
    function Data(): string { Join(lines) }

    function Length(): nat { |Data()| }

    function Avail(): int { LARGE - Length() }

    function Reset(): Buf { Empty }

    /** `append`: all of the line or, without strictly more room than that, nothing. */
    function Append(line: Line): Buf {
      if Avail() > |line| then Buf(lines + [line]) else this
    }
  }

  const Empty := Buf([])

  function Join(lines: seq<Line>): string {
    if lines == [] then "" else lines[0] + Join(lines[1..])
  }

  lemma {:induction false} JoinSnoc(lines: seq<Line>, line: Line)
    ensures Join(lines + [line]) == Join(lines) + line
    decreases |lines|
  {
    if lines == [] {
      assert lines + [line] == [line] && [line][1..] == [];
    } else {
      assert (lines + [line])[1..] == lines[1..] + [line];
      JoinSnoc(lines[1..], line);
    }
  }

  class FixedBuffer {
    var data: array<char>
    var cur: nat
    ghost var content: Buf

    ghost predicate Valid()
      reads this, data
    {
      data.Length == LARGE && cur < LARGE && data[..cur] == content.Data()
    }

    constructor ()
      ensures Valid() && fresh(data) && content == Empty
    {
      data := new char[LARGE];
      cur, content := 0, Empty;
    }

    function Avail(): int
      reads this, data
      requires Valid()
      ensures Avail() == content.Avail()
    {
      assert |data[..cur]| == cur;
      data.Length - cur
    }

    method Reset()
      requires Valid()
      modifies this
      ensures Valid() && content == Empty && data == old(data)
    {
      cur, content := 0, Empty;
    }

    method AppendLine(line: Line)
      requires Valid()
      modifies this, data
      ensures Valid() && data == old(data) && content == old(content).Append(line)
    {
      if Avail() > |line| {
        ghost var head := data[..cur];
        for i := 0 to |line|
          modifies data
          invariant data[..cur + i] == head + line[..i]
        {
          data[cur + i] := line[i];
          assert data[..cur + i + 1] == data[..cur + i] + [line[i]];
        }
        JoinSnoc(content.lines, line);
        cur, content := cur + |line|, content.Append(line);
      }
    }
  }
}

/** Double buffering between front-end appenders and one writer thread
    (chtho/logging/AsyncLogging.cpp).

    `append` is one critical section; the writer swaps the full buffers out in another and
    then drops, writes and recycles outside the lock.  Waiting on the condition variable
    only decides when the swap happens, so the swap may come at any time. */
module AsyncLoggings {
  import opened FixedBuffers

  const DROP_ABOVE: nat := 25
  const KEEP: nat := 2

  /** A unique_ptr to a buffer. */
  datatype Ptr = Null | Ptr(buf: Buf)

  /** One call of the log file's `append`. */
  datatype Entry = Notice(count: int) | Block(lines: seq<Line>)

  /** Where the writer is in one turn of its loop. */
  datatype Phase = Top | Swapped | Writing(next: nat)

  datatype State = State(
    cur: Ptr, nxt: Ptr, bufs: seq<Buf>,         // shared
    phase: Phase, buf1: Ptr, buf2: Ptr, batch: seq<Buf>,  // the writer's own
    output: seq<Entry>,                         // what the file received
    appended: seq<Line>,                        // history: lines short enough for a buffer
    batches: seq<seq<Buf>>,                     // history: finished batches, as swapped out
    whole: seq<Buf>)                            // history: the current batch, as swapped out

  datatype Step =
    | Append(line: Line)
    | Swap
    | Drop
    | WriteOne
    | Recycle

  const Initial :=
    State(Ptr(Empty), Ptr(Empty), [], Top, Ptr(Empty), Ptr(Empty), [], [], [], [], [])

  predicate Enabled(s: State, a: Step) {
    match a
    case Append(_) => true
    case Swap => s.phase.Top?
    case Drop => s.phase.Swapped?
    case WriteOne => s.phase.Writing? && s.phase.next < |s.batch|
    case Recycle => s.phase.Writing? && s.phase.next >= |s.batch|
  }

  predicate Spare(p: Ptr) { p.Ptr? && p.buf.Length() == 0 }

  /** At most two buffers of a batch are kept for reuse. */
  function Reusable(batch: seq<Buf>): seq<Buf> { if |batch| > KEEP then batch[..KEEP] else batch }

  /** The assertions of the source and its pointer dereferences. */
  predicate Asserted(s: State, a: Step) {
    match a
    case Append(_) => s.cur.Ptr?
    case Swap => Spare(s.buf1) && Spare(s.buf2) && s.batch == [] && s.cur.Ptr?
    case Drop => s.batch != []
    case WriteOne => true
    case Recycle =>
      |Reusable(s.batch)| >= (if s.buf1.Null? then 1 else 0) + (if s.buf2.Null? then 1 else 0)
  }

  function Apply(s: State, a: Step): State
    requires Enabled(s, a) && Asserted(s, a)
  {
    match a
    case Append(line) =>
      var s' := s.(appended := if |line| < LARGE then s.appended + [line] else s.appended);
      if s.cur.buf.Avail() > |line| then s'.(cur := Ptr(s.cur.buf.Append(line)))
      else
        var spare := if s.nxt.Ptr? then s.nxt.buf else Empty;
        s'.(bufs := s.bufs + [s.cur.buf], cur := Ptr(spare.Append(line)), nxt := Null)
    case Swap =>
      var full := s.bufs + [s.cur.buf];
      var s' := s.(phase := Swapped, bufs := [], cur := s.buf1, buf1 := Null, batch := full, whole := full);
      if s.nxt.Null? then s'.(nxt := s.buf2, buf2 := Null) else s'
    case Drop =>
      if |s.batch| > DROP_ABOVE then
        s.(phase := Writing(0), output := s.output + [Notice(|s.batch| - KEEP)], batch := s.batch[..KEEP])
      else s.(phase := Writing(0))
    case WriteOne =>
      s.(phase := Writing(s.phase.next + 1), output := s.output + [Block(s.batch[s.phase.next].lines)])
    case Recycle =>
      var s' := s.(phase := Top, batch := [], batches := s.batches + [s.whole], whole := []);
      s'.(buf1 := if s.buf1.Null? then Ptr(Empty) else s.buf1,
          buf2 := if s.buf2.Null? then Ptr(Empty) else s.buf2)
  }

  predicate CanRun(s: State, run: seq<Step>)
    decreases |run|
  {
    run == [] ||
    (Enabled(s, run[0]) && Asserted(s, run[0]) && CanRun(Apply(s, run[0]), run[1..]))
  }

  function Exec(s: State, run: seq<Step>): State
    requires CanRun(s, run)
    decreases |run|
  {
    if run == [] then s else Exec(Apply(s, run[0]), run[1..])
  }

  // ---------------------------------------------------------------- what is conserved

  /** All lines of a sequence of buffers, in order. */
  function LinesOf(bs: seq<Buf>): seq<Line> {
    if bs == [] then [] else LinesOf(bs[..|bs| - 1]) + bs[|bs| - 1].lines
  }

  function AllLines(batches: seq<seq<Buf>>): seq<Line> {
    if batches == [] then [] else AllLines(batches[..|batches| - 1]) + LinesOf(batches[|batches| - 1])
  }

  /** The buffers of a batch that are written: all of them, or the first two of too many. */
  function Kept(batch: seq<Buf>): seq<Buf> {
    if |batch| > DROP_ABOVE then batch[..KEEP] else batch
  }

  function NoticeOf(batch: seq<Buf>): seq<Entry> {
    if |batch| > DROP_ABOVE then [Notice(|batch| - KEEP)] else []
  }

  function Blocks(bs: seq<Buf>): seq<Entry> {
    if bs == [] then [] else Blocks(bs[..|bs| - 1]) + [Block(bs[|bs| - 1].lines)]
  }

  /** What the file receives for a finished batch. */
  function Filed(batch: seq<Buf>): seq<Entry> { NoticeOf(batch) + Blocks(Kept(batch)) }

  function AllFiled(batches: seq<seq<Buf>>): seq<Entry> {
    if batches == [] then [] else AllFiled(batches[..|batches| - 1]) + Filed(batches[|batches| - 1])
  }

  /** What the file has received so far for the current batch. */
  function Partly(s: State): seq<Entry>
    requires s.phase.Writing? ==> s.phase.next <= |Kept(s.whole)|
  {
    if s.phase.Writing? then NoticeOf(s.whole) + Blocks(Kept(s.whole)[..s.phase.next]) else []
  }

  // ---------------------------------------------------------------- the invariant

  ghost predicate Pointers(s: State) {
    && s.cur.Ptr?
    && (s.nxt.Null? ==> s.bufs != [])
    && (s.nxt.Ptr? ==> s.nxt.buf == Empty)
    && (s.phase.Top? ==> s.buf1 == Ptr(Empty) && s.buf2 == Ptr(Empty) && s.batch == [] && s.whole == [])
    && (!s.phase.Top? ==>
          && s.buf1.Null? && s.whole != []
          && (s.buf2.Null? ==> |s.whole| >= 2)
          && (s.buf2.Ptr? ==> s.buf2.buf == Empty))
    && (s.phase.Swapped? ==> s.batch == s.whole)
    && (s.phase.Writing? ==> s.batch == Kept(s.whole) && s.phase.next <= |s.batch|)
  }

  ghost predicate LinesKept(s: State) {
    s.cur.Ptr? && s.appended == AllLines(s.batches) + LinesOf(s.whole) + LinesOf(s.bufs) + s.cur.buf.lines
  }

  ghost predicate OutputKept(s: State) {
    && (s.phase.Writing? ==> s.phase.next <= |Kept(s.whole)|)
    && s.output == AllFiled(s.batches) + Partly(s)
  }

  ghost predicate Conserved(s: State) { LinesKept(s) && OutputKept(s) }

  ghost predicate Inv(s: State) { Pointers(s) && Conserved(s) }

  lemma StepKeepsPointers(s: State, a: Step)
    requires Pointers(s) && Enabled(s, a)
    ensures Asserted(s, a) && Pointers(Apply(s, a))
  {
    assert Empty.Length() == 0;
  }

  lemma LinesOfSnoc(bs: seq<Buf>, b: Buf)
    ensures LinesOf(bs + [b]) == LinesOf(bs) + b.lines
  {
    assert (bs + [b])[..|bs + [b]| - 1] == bs;
  }

  lemma BlocksNext(bs: seq<Buf>, k: nat)
    requires k < |bs|
    ensures Blocks(bs[..k + 1]) == Blocks(bs[..k]) + [Block(bs[k].lines)]
  {
    assert bs[..k + 1][..k] == bs[..k];
  }

  lemma BatchesSnoc(batches: seq<seq<Buf>>, last: seq<Buf>)
    ensures AllLines(batches + [last]) == AllLines(batches) + LinesOf(last)
    ensures AllFiled(batches + [last]) == AllFiled(batches) + Filed(last)
  {
    assert (batches + [last])[..|batches + [last]| - 1] == batches;
  }

  lemma Regroup<T>(a: seq<T>, b: seq<T>, c: seq<T>, d: seq<T>)
    ensures a + b + c + d == a + b + (c + d) == a + (b + c) + d == a + (b + (c + d))
    ensures a + [] + b + c == a + b + c == a + (b + c) == a + (b + c) + [] + []
    ensures a + [] == a == [] + a
  {
  }

  /** A line goes to the end of the current buffer, or to the empty next one. */
  lemma AppendKeepsLines(s: State, line: Line)
    requires Pointers(s) && LinesKept(s)
    ensures LinesKept(Apply(s, Append(line)))
  {
    assert Empty.Length() == 0;
    var pre, l, c := AllLines(s.batches) + LinesOf(s.whole), LinesOf(s.bufs), s.cur.buf.lines;
    var added: seq<Line> := if |line| < LARGE then [line] else [];
    if s.cur.buf.Avail() > |line| {
      Regroup(pre, l, c, [line]);
    } else {
      LinesOfSnoc(s.bufs, s.cur.buf);
      Regroup(pre, l, c, added);
      assert Apply(s, Append(line)).cur.buf.lines == added;
    }
  }

  lemma AppendConserves(s: State, line: Line)
    requires Inv(s)
    ensures Conserved(Apply(s, Append(line)))
  {
    AppendKeepsLines(s, line);
    assert Partly(Apply(s, Append(line))) == Partly(s);
  }

  lemma SwapConserves(s: State)
    requires Inv(s) && s.phase.Top? && Asserted(s, Swap)
    ensures Conserved(Apply(s, Swap))
  {
    LinesOfSnoc(s.bufs, s.cur.buf);
    Regroup(AllLines(s.batches), LinesOf(s.bufs), s.cur.buf.lines, []);
  }

  lemma DropConserves(s: State)
    requires Inv(s) && Enabled(s, Drop) && Asserted(s, Drop)
    ensures Conserved(Apply(s, Drop))
  {
    hide AllLines, LinesOf, AllFiled;
    var filed, notice := AllFiled(s.batches), NoticeOf(s.whole);
    assert Kept(s.whole)[..0] == [];
    Regroup(filed, notice, [], []);
    Regroup(notice, [], [], []);
    assert Apply(s, Drop).output == filed + notice;
  }

  lemma WriteConserves(s: State)
    requires Inv(s) && Enabled(s, WriteOne)
    ensures Conserved(Apply(s, WriteOne))
  {
    var kept, k := Kept(s.whole), s.phase.next;
    BlocksNext(kept, k);
    Regroup(AllFiled(s.batches), NoticeOf(s.whole), Blocks(kept[..k]), [Block(kept[k].lines)]);
  }

  lemma RecycleKeepsLines(s: State)
    requires Pointers(s) && LinesKept(s) && Enabled(s, Recycle) && Asserted(s, Recycle)
    ensures LinesKept(Apply(s, Recycle))
  {
    BatchesSnoc(s.batches, s.whole);
    Regroup(AllLines(s.batches) + LinesOf(s.whole), LinesOf(s.bufs), s.cur.buf.lines, []);
  }

  /** A finished batch has been filed in full. */
  lemma RecycleConserves(s: State)
    requires Inv(s) && Enabled(s, Recycle) && Asserted(s, Recycle)
    ensures Conserved(Apply(s, Recycle))
  {
    RecycleKeepsLines(s);
    BatchesSnoc(s.batches, s.whole);
    assert Kept(s.whole)[..s.phase.next] == Kept(s.whole);
    Regroup(AllFiled(s.batches) + Filed(s.whole), [], [], []);
  }

  lemma StepKeepsInv(s: State, a: Step)
    requires Inv(s) && Enabled(s, a)
    ensures Asserted(s, a) && Inv(Apply(s, a))
  {
    StepKeepsPointers(s, a);
    match a
    case Append(line) => AppendConserves(s, line);
    case Swap => SwapConserves(s);
    case Drop => DropConserves(s);
    case WriteOne => WriteConserves(s);
    case Recycle => RecycleConserves(s);
  }

  lemma {:induction false} RunKeepsInv(s: State, run: seq<Step>)
    requires Inv(s) && CanRun(s, run)
    ensures Inv(Exec(s, run))
    decreases |run|
  {
    if run != [] {
      StepKeepsInv(s, run[0]);
      RunKeepsInv(Apply(s, run[0]), run[1..]);
    }
  }

  // ---------------------------------------------------------------- main results

  /** The assertions never fail and no null buffer is touched: whatever the interleaving
      so far, every step whose turn it is meets them. */
  lemma AssertionsHold(run: seq<Step>, a: Step)
    requires CanRun(Initial, run) && Enabled(Exec(Initial, run), a)
    ensures Asserted(Exec(Initial, run), a)
  {
    RunKeepsInv(Initial, run);
    StepKeepsPointers(Exec(Initial, run), a);
  }

  /** Spare buffers: both are there and empty at the top of every turn of the writer. */
  lemma SparesAtTop(run: seq<Step>)
    requires CanRun(Initial, run) && Exec(Initial, run).phase.Top?
    ensures Spare(Exec(Initial, run).buf1) && Spare(Exec(Initial, run).buf2)
  {
    AssertionsHold(run, Swap);
  }

  /** The lines of the run's appends that fit a buffer at all, in order. */
  function AppendedIn(run: seq<Step>): seq<Line> {
    if run == [] then [] else Fitting(run[0]) + AppendedIn(run[1..])
  }

  function Fitting(a: Step): seq<Line> { if a.Append? && |a.line| < LARGE then [a.line] else [] }

  lemma StepAppends(s: State, a: Step)
    requires Enabled(s, a) && Asserted(s, a)
    ensures Apply(s, a).appended == s.appended + Fitting(a)
  {
  }

  lemma {:induction false} RunAppends(s: State, run: seq<Step>)
    requires CanRun(s, run)
    ensures Exec(s, run).appended == s.appended + AppendedIn(run)
    decreases |run|
  {
    if run != [] {
      StepAppends(s, run[0]);
      hide Apply, Fitting;
      RunAppends(Apply(s, run[0]), run[1..]);
      Regroup(s.appended, Fitting(run[0]), AppendedIn(run[1..]), []);
    }
  }

  lemma AppendedFromStart(run: seq<Step>)
    requires CanRun(Initial, run)
    ensures Exec(Initial, run).appended == AppendedIn(run)
  {
    hide Exec, AppendedIn;
    RunAppends(Initial, run);
    Regroup(AppendedIn(run), [], [], []);
  }

  /** Whole lines are conserved in order: finished batches, the current batch, the full
      buffers and the current buffer hold exactly the lines appended; and the file holds,
      batch by batch, all of it or a notice and the first two buffers of more than 25. */
  lemma LinesConserved(run: seq<Step>)
    requires CanRun(Initial, run)
    ensures var s := Exec(Initial, run);
            s.cur.Ptr?
            && AppendedIn(run) == AllLines(s.batches) + LinesOf(s.whole) + LinesOf(s.bufs) + s.cur.buf.lines
            && (s.phase.Writing? ==> s.phase.next <= |Kept(s.whole)|)
            && s.output == AllFiled(s.batches) + Partly(s)
  {
    RunKeepsInv(Initial, run);
    AppendedFromStart(run);
  }

  function LinesIn(output: seq<Entry>): seq<Line> {
    if output == [] then []
    else LinesIn(output[..|output| - 1])
         + match output[|output| - 1] case Block(ls) => ls case Notice(_) => []
  }

  lemma {:induction false} LinesInAppend(a: seq<Entry>, b: seq<Entry>)
    ensures LinesIn(a + b) == LinesIn(a) + LinesIn(b)
    decreases |b|
  {
    if b == [] {
      assert a + b == a;
    } else {
      assert (a + b)[..|a + b| - 1] == a + b[..|b| - 1];
      LinesInAppend(a, b[..|b| - 1]);
    }
  }

  lemma {:induction false} LinesInBlocks(bs: seq<Buf>)
    ensures LinesIn(Blocks(bs)) == LinesOf(bs)
    decreases |bs|
  {
    if bs != [] {
      var init := bs[..|bs| - 1];
      LinesInBlocks(init);
      assert Blocks(bs)[..|Blocks(bs)| - 1] == Blocks(init);
    }
  }

  lemma {:induction false} LinesInFiled(batches: seq<seq<Buf>>)
    requires forall b :: b in batches ==> |b| <= DROP_ABOVE
    ensures LinesIn(AllFiled(batches)) == AllLines(batches)
    decreases |batches|
  {
    if batches != [] {
      var init, last := batches[..|batches| - 1], batches[|batches| - 1];
      hide Filed, LinesIn, LinesOf;
      LinesInFiled(init);
      assert last in batches;
      FiledWhole(last);
      LinesInAppend(AllFiled(init), Filed(last));
    }
  }

  lemma FiledWhole(batch: seq<Buf>)
    requires |batch| <= DROP_ABOVE
    ensures LinesIn(Filed(batch)) == LinesOf(batch)
  {
    LinesInBlocks(batch);
    assert Filed(batch) == Blocks(batch);
  }

  /** Without an oversized batch nothing is lost: between turns of the writer, the lines in
      the file followed by those still buffered are exactly the lines appended. */
  lemma NothingDropped(run: seq<Step>)
    requires CanRun(Initial, run) && Exec(Initial, run).phase.Top?
    requires forall b :: b in Exec(Initial, run).batches ==> |b| <= DROP_ABOVE
    ensures var s := Exec(Initial, run);
            s.cur.Ptr? && AppendedIn(run) == LinesIn(s.output) + LinesOf(s.bufs) + s.cur.buf.lines
  {
    var s := Exec(Initial, run);
    RunKeepsInv(Initial, run);
    AppendedFromStart(run);
    assert s.whole == [] && LinesOf([]) == [] && Partly(s) == [];
    LinesInFiled(s.batches);
    hide LinesIn, LinesOf, AllLines, AllFiled, Filed, CanRun, Exec, AppendedIn;
    Regroup(AllFiled(s.batches), [], [], []);
    Regroup(AllLines(s.batches), [], [], []);
  }

  // ---------------------------------------------------------------- who owns the buffers

  function Owns(p: Ptr): nat { if p.Ptr? then 1 else 0 }

  /** The buffers held by appenders and writer together. */
  function Buffers(s: State): nat {
    Owns(s.cur) + Owns(s.nxt) + |s.bufs| + Owns(s.buf1) + Owns(s.buf2) + |s.batch|
  }

  /** Each buffer has one owner: an append makes a new one exactly when it finds no room and
      no next buffer, the exchange and the writes neither make nor lose one, the drop gives
      up those past the second, and a turn ends with the two spares of the writer. */
  lemma BuffersCounted(s: State, a: Step)
    requires Pointers(s) && Enabled(s, a) && Asserted(s, a)
    ensures var s' := Apply(s, a);
            match a
            case Append(line) =>
              Buffers(s') == Buffers(s) + if s.cur.buf.Avail() <= |line| && s.nxt.Null? then 1 else 0
            case Swap => Buffers(s') == Buffers(s)
            case Drop => Buffers(s') == Buffers(s) - if |s.batch| > DROP_ABOVE then |s.batch| - KEEP else 0
            case WriteOne => Buffers(s') == Buffers(s)
            case Recycle => Buffers(s') == Owns(s.cur) + Owns(s.nxt) + |s.bufs| + 2
  {
  }

  // ---------------------------------------------------------------- one turn of the writer

  function Writes(n: nat): seq<Step> { seq(n, _ => WriteOne) }

  /** The writer's part of a turn after the swap, up to the top of its loop. */
  function RestOfTurn(n: nat): seq<Step> { Writes(n) + [Recycle] }

  lemma {:induction false} RestRuns(s: State)
    requires Inv(s) && s.phase.Writing?
    ensures var run := RestOfTurn(|s.batch| - s.phase.next);
            CanRun(s, run)
            && var s' := Exec(s, run);
               s'.phase.Top? && s'.batches == s.batches + [s.whole]
               && s'.cur == s.cur && s'.nxt == s.nxt && s'.bufs == s.bufs && s'.appended == s.appended
    decreases |s.batch| - s.phase.next
  {
    var n := |s.batch| - s.phase.next;
    var run := RestOfTurn(n);
    if n > 0 {
      var s1 := Apply(s, WriteOne);
      StepKeepsInv(s, WriteOne);
      assert run[0] == WriteOne && run[1..] == RestOfTurn(n - 1);
      RestRuns(s1);
    } else {
      StepKeepsInv(s, Recycle);
      assert run == [Recycle] && run[1..] == [] && CanRun(Apply(s, Recycle), []);
    }
  }

  /** A turn of the writer takes all that is buffered and files it: from the top of the loop
      with nothing appended meanwhile, the file gets the full buffers and the current one
      as one batch, and an empty buffer takes its place. */
  lemma TurnFiles(s: State)
    requires Inv(s) && s.phase.Top?
    ensures var full := s.bufs + [s.cur.buf];
            var run := [Swap, Drop] + RestOfTurn(|Kept(full)|);
            CanRun(s, run)
            && var s' := Exec(s, run);
               s'.phase.Top? && s'.output == s.output + Filed(full)
               && s'.bufs == [] && s'.cur == Ptr(Empty) && s'.appended == s.appended
  {
    var full := s.bufs + [s.cur.buf];
    var rest := RestOfTurn(|Kept(full)|);
    SwapThenDrop(s);
    var s2 := Apply(Apply(s, Swap), Drop);
    hide Inv, Apply, Enabled, Asserted;
    RestRuns(s2);
    TwoSteps(s, Swap, Drop, rest);
    FiledBehind(s, Exec(s2, rest), full, rest, s2);
  }

  lemma SwapThenDrop(s: State)
    requires Inv(s) && s.phase.Top?
    ensures Enabled(s, Swap) && Asserted(s, Swap)
    ensures var s1 := Apply(s, Swap);
            Enabled(s1, Drop) && Asserted(s1, Drop) && var s2 := Apply(s1, Drop);
            Inv(s2) && s2.phase == Writing(0) && s2.batch == Kept(s2.whole) && s2.whole == s.bufs + [s.cur.buf]
            && s2.batches == s.batches && s2.bufs == [] && s2.cur == Ptr(Empty) && s2.appended == s.appended
  {
    hide LinesOf, AllLines, Blocks, AllFiled;
    StepKeepsInv(s, Swap);
    StepKeepsInv(Apply(s, Swap), Drop);
  }

  lemma TwoSteps(s: State, a: Step, b: Step, rest: seq<Step>)
    requires Enabled(s, a) && Asserted(s, a)
    requires Enabled(Apply(s, a), b) && Asserted(Apply(s, a), b) && CanRun(Apply(Apply(s, a), b), rest)
    ensures CanRun(s, [a, b] + rest) && Exec(s, [a, b] + rest) == Exec(Apply(Apply(s, a), b), rest)
  {
    hide Apply, Enabled, Asserted;
    var run := [a, b] + rest;
    assert run[1..] == [b] + rest && run[1..][1..] == rest;
    assert CanRun(Apply(s, a), run[1..]);
  }

  lemma FiledBehind(s: State, s': State, full: seq<Buf>, rest: seq<Step>, s2: State)
    requires Inv(s) && s.phase.Top? && Inv(s2) && CanRun(s2, rest) && s' == Exec(s2, rest)
    requires s'.phase.Top? && s'.batches == s.batches + [full]
    ensures s'.output == s.output + Filed(full)
  {
    RunKeepsInv(s2, rest);
    BatchesSnoc(s.batches, full);
    Regroup(AllFiled(s.batches), [], [], []);
    Regroup(AllFiled(s'.batches), [], [], []);
  }

  // ---------------------------------------------------------------- the class

  class AsyncLogging {
    var curBuf: Ptr
    var nxtBuf: Ptr
    var bufs: seq<Buf>
    var phase: Phase
    var buf1: Ptr
    var buf2: Ptr
    var batch: seq<Buf>
    var output: seq<Entry>
    ghost var appended: seq<Line>
    ghost var batches: seq<seq<Buf>>
    ghost var whole: seq<Buf>

    ghost function View(): State
      reads this
    {
      State(curBuf, nxtBuf, bufs, phase, buf1, buf2, batch, output, appended, batches, whole)
    }

    ghost predicate Valid()
      reads this
    {
      Inv(View())
    }

    constructor ()
      ensures Valid() && View() == Initial
    {
      curBuf, nxtBuf, bufs := Ptr(Empty), Ptr(Empty), [];
      phase, buf1, buf2, batch := Top, Ptr(Empty), Ptr(Empty), [];
      output, appended, batches, whole := [], [], [], [];
    }

    /** `append`, under the lock. */
    method AppendLine(line: Line)
      requires Valid()
      modifies this
      ensures Valid() && View() == Apply(old(View()), Append(line))
    {
      StepKeepsInv(View(), Append(line));
      assert Inv(Apply(View(), Append(line)));
      PutLine(line);
    }

    method PutLine(line: Line)
      requires curBuf.Ptr?
      modifies this
      ensures View() == Apply(old(View()), Append(line))
    {
      if curBuf.buf.Avail() > |line| {
        curBuf := Ptr(curBuf.buf.Append(line));
      } else {
        bufs := bufs + [curBuf.buf];
        if nxtBuf.Ptr? {
          curBuf, nxtBuf := nxtBuf, Null;
        } else {
          curBuf := Ptr(Empty);
        }
        curBuf := Ptr(curBuf.buf.Append(line));
      }
      if |line| < LARGE { appended := appended + [line]; }
    }

    /** The writer's critical section after its wait. */
    method SwapBuffers()
      requires Valid() && phase.Top?
      modifies this
      ensures Valid() && View() == Apply(old(View()), Swap)
    {
      StepKeepsInv(View(), Swap);
      assert Inv(Apply(View(), Swap));
      Exchange();
    }

    /** The assertions at the top of the loop and the exchange of buffers. */
    method Exchange()
      requires Enabled(View(), Swap) && Asserted(View(), Swap)
      modifies this
      ensures View() == Apply(old(View()), Swap)
    {
      assert Spare(buf1) && Spare(buf2) && batch == [];
      bufs := bufs + [curBuf.buf];
      curBuf, buf1 := buf1, Null;
      batch, bufs := bufs, batch;
      if nxtBuf.Null? { nxtBuf, buf2 := buf2, Null; }
      phase, whole := Swapped, batch;
    }

    method DropExcess()
      requires Valid() && phase.Swapped?
      modifies this
      ensures Valid() && View() == Apply(old(View()), Drop)
    {
      StepKeepsInv(View(), Drop);
      assert Inv(Apply(View(), Drop));
      KeepFew();
    }

    /** The drop rule, with the assertion before it. */
    method KeepFew()
      requires Enabled(View(), Drop) && Asserted(View(), Drop)
      modifies `output, `batch, `phase
      ensures View() == Apply(old(View()), Drop)
    {
      assert batch != [];
      if |batch| > DROP_ABOVE {
        output := output + [Notice(|batch| - KEEP)];
        batch := batch[..KEEP];
      }
      phase := Writing(0);
    }

    method WriteNext()
      requires Valid() && Enabled(View(), WriteOne)
      modifies this
      ensures Valid() && View() == Apply(old(View()), WriteOne)
    {
      StepKeepsInv(View(), WriteOne);
      assert Inv(Apply(View(), WriteOne));
      FileNext();
    }

    /** The next buffer of the batch goes to the file. */
    method FileNext()
      requires Enabled(View(), WriteOne)
      modifies `output, `phase
      ensures View() == Apply(old(View()), WriteOne)
    {
      output := output + [Block(batch[phase.next].lines)];
      phase := Writing(phase.next + 1);
    }

    /** A missing spare is taken from the back of the batch and reset. */
    method Refill(p: Ptr) returns (q: Ptr)
      requires p.Null? ==> batch != []
      modifies `batch
      ensures q == if p.Null? then Ptr(Empty) else p
      ensures |batch| == |old(batch)| - if p.Null? then 1 else 0
    {
      q := p;
      if p.Null? {
        q, batch := Ptr(batch[|batch| - 1].Reset()), batch[..|batch| - 1];
      }
    }

    /** Two written buffers become the spares of the next turn. */
    method RefillSpares()
      requires |Reusable(batch)| >= (if buf1.Null? then 1 else 0) + (if buf2.Null? then 1 else 0)
      modifies `batch, `buf1, `buf2
      ensures buf1 == if old(buf1).Null? then Ptr(Empty) else old(buf1)
      ensures buf2 == if old(buf2).Null? then Ptr(Empty) else old(buf2)
      ensures batch == []
    {
      if |batch| > KEEP { batch := batch[..KEEP]; }
      buf1 := Refill(buf1);
      buf2 := Refill(buf2);
      batch := [];
    }

    method RecycleBuffers()
      requires Valid() && Enabled(View(), Recycle)
      modifies this
      ensures Valid() && View() == Apply(old(View()), Recycle)
    {
      StepKeepsInv(View(), Recycle);
      assert Inv(Apply(View(), Recycle));
      FinishTurn();
    }

    method FinishTurn()
      requires Enabled(View(), Recycle) && Asserted(View(), Recycle)
      modifies this
      ensures View() == Apply(old(View()), Recycle)
    {
      RefillSpares();
      phase, batches, whole := Top, batches + [whole], [];
    }
  }
}
