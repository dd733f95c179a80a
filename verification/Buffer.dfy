/** The byte buffer of the network layer (chtho/net/Buffer.h, chtho/net/Buffer.cpp).

    `Layout` is what the two indices and the vector size say; `Buffer` is the class
    itself.  Every method is tied to two views: the readable bytes (`Contents`), which
    behave as a byte deque, and the layout, which is what the capacity bound is about. */
module Buffers {
  import opened Common

  const PRE: nat := 8
  const INIT: nat := 1024
  const EXTRA: nat := 65536

  // ---------------------------------------------------------------- layout

  /** | prependable | readable | writable |, cut at reader, writer and size. */
  datatype Layout = Layout(reader: nat, writer: nat, size: nat) {
    ghost predicate Ok() { reader <= writer <= size }

    function Readable(): int { writer - reader }

    function Writable(): int { size - writer }
  }

  function FreshLayout(initSz: nat): Layout { Layout(PRE, PRE, PRE + initSz) }

  /** `ensure(len)`: keep, grow at the end, or move the readable bytes down to PRE. */
  function Ensured(l: Layout, len: nat): (r: Layout)
    requires l.Ok()
    ensures r.Ok() && r.Readable() == l.Readable() && r.Writable() >= len
    ensures r.size >= l.size
  {
    if l.Writable() >= len then l
    else if l.Writable() + l.reader < len + PRE then l.(size := l.writer + len)
    else Layout(PRE, PRE + l.Readable(), l.size)
  }

  function Appended(l: Layout, len: nat): Layout
    requires l.Ok()
  {
    var e := Ensured(l, len);
    e.(writer := e.writer + len)
  }

  function Retrieved(l: Layout, len: nat): Layout
    requires l.Ok() && len <= l.Readable()
  {
    if len < l.Readable() then l.(reader := l.reader + len) else l.(reader := PRE, writer := PRE)
  }

  datatype Op =
    | Append(len: nat)
    | Ensure(len: nat)
    | Retrieve(len: nat)
    | Prepend(len: nat)
    | Shrink(reserve: nat)
    | ReadFd(n: nat)

  /** What the assertions of the source ask of a caller. */
  ghost predicate Allowed(l: Layout, op: Op) {
    match op
    case Retrieve(len) => len <= l.Readable()
    case Prepend(len) => len <= l.reader
    case _ => true
  }

  ghost function Apply(l: Layout, op: Op): Layout
    requires l.Ok() && Allowed(l, op)
    requires l.size >= PRE
  {
    match op
    case Append(len) => Appended(l, len)
    case Ensure(len) => Ensured(l, len)
    case Retrieve(len) => Retrieved(l, len)
    case Prepend(len) => l.(reader := l.reader - len)
    case Shrink(reserve) =>
      Appended(Ensured(FreshLayout(INIT), l.Readable() + reserve), l.Readable())
    case ReadFd(n) =>
      if n <= l.Writable() then l.(writer := l.writer + n)
      else Appended(l.(writer := l.size), n - l.Writable())
  }

  /** Readable bytes plus requested length at the moment the operation asks for room. */
  ghost function Demand(l: Layout, op: Op): int {
    match op
    case Append(len) => l.Readable() + len
    case Ensure(len) => l.Readable() + len
    case Shrink(reserve) => l.Readable() + reserve
    case ReadFd(n) => if n <= l.Writable() then 0 else l.Readable() + n
    case _ => 0
  }

  /** A run of operations on a layout, each allowed and each asking for at most `m`. */
  ghost predicate RunWithin(l: Layout, ops: seq<Op>, m: nat)
    requires l.Ok() && l.size >= PRE
    decreases |ops|
  {
    ops == [] ||
    (Allowed(l, ops[0]) && Demand(l, ops[0]) <= m &&
     RunWithin(Apply(l, ops[0]), ops[1..], m))
  }

  ghost function Exec(l: Layout, ops: seq<Op>, m: nat): Layout
    requires l.Ok() && l.size >= PRE && RunWithin(l, ops, m)
    decreases |ops|
  {
    if ops == [] then l else Exec(Apply(l, ops[0]), ops[1..], m)
  }

  /** An empty buffer has its indices back at PRE: nothing but `retrieveAll` empties it. */
  ghost predicate Tidy(l: Layout) {
    l.Ok() && l.size >= PRE && (l.Readable() == 0 ==> l.reader == PRE)
  }

  ghost predicate HasShrink(ops: seq<Op>) { exists i :: 0 <= i < |ops| && ops[i].Shrink? }

  ghost function Bound(initSz: nat, m: nat, shrinks: bool): int {
    PRE + Max(Max(initSz, if shrinks then INIT else 0), Max(m, 2 * m - 2))
  }

  lemma StepBounded(l: Layout, op: Op, m: nat, b: int)
    requires Tidy(l) && Allowed(l, op) && Demand(l, op) <= m
    requires l.size <= b && b >= PRE + Max(m, 2 * m - 2)
    requires op.Shrink? ==> b >= PRE + INIT
    ensures Tidy(Apply(l, op)) && Apply(l, op).size <= b
  {
  }

  lemma {:induction false} RunBounded(l: Layout, ops: seq<Op>, m: nat, b: int)
    requires Tidy(l) && RunWithin(l, ops, m)
    requires l.size <= b && b >= PRE + Max(m, 2 * m - 2)
    requires HasShrink(ops) ==> b >= PRE + INIT
    ensures Exec(l, ops, m).size <= b
    decreases |ops|
  {
    if ops != [] {
      StepBounded(l, ops[0], m, b);
      RunBounded(Apply(l, ops[0]), ops[1..], m, b);
    }
  }

  /** Capacity over whole runs: although growth never compacts first, the vector never
      exceeds PRE + max(initSz, m, 2m - 2), where m bounds readable + requested. */
  lemma CapacityBounded(initSz: nat, ops: seq<Op>, m: nat)
    requires RunWithin(FreshLayout(initSz), ops, m)
    ensures Exec(FreshLayout(initSz), ops, m).size <= Bound(initSz, m, HasShrink(ops))
  {
    RunBounded(FreshLayout(initSz), ops, m, Bound(initSz, m, HasShrink(ops)));
  }

  /** The bound is attained: a buffer of m - 1 bytes, filled, read down to one byte and
      asked for m - 1 more grows to PRE + 2m - 2 without ever holding more than m. */
  lemma CapacityBoundAttained(m: nat)
    requires m >= 2
    ensures var ops := [Append(m - 1), Retrieve(m - 2), Append(m - 1)];
            RunWithin(FreshLayout(m - 1), ops, m) &&
            Exec(FreshLayout(m - 1), ops, m).size == Bound(m - 1, m, HasShrink(ops))
  {
    var l0 := FreshLayout(m - 1);
    var ops := [Append(m - 1), Retrieve(m - 2), Append(m - 1)];
    var l1 := Apply(l0, ops[0]);
    var l2 := Apply(l1, ops[1]);
    var l3 := Apply(l2, ops[2]);
    assert ops[1..] == [Retrieve(m - 2), Append(m - 1)];
    assert ops[1..][1..] == [Append(m - 1)];
    assert ops[1..][1..][1..] == [];
    assert RunWithin(l3, [], m);
    assert RunWithin(l2, ops[1..][1..], m);
    assert RunWithin(l1, ops[1..], m);
    assert Exec(l2, ops[1..][1..], m) == l3;
    assert Exec(l1, ops[1..], m) == l3;
    assert !HasShrink(ops);
  }

  // ---------------------------------------------------------------- text search

  predicate CrlfAt(s: string, k: int) {
    0 <= k && k + 1 < |s| && s[k] == '\r' && s[k + 1] == '\n'
  }

  /** First position of CR LF, or |s| when there is none. */
  function FindCRLF(s: string): (i: nat)
    ensures i <= |s| && (i < |s| ==> CrlfAt(s, i))
    ensures forall k :: 0 <= k < i ==> !CrlfAt(s, k)
  {
    if |s| < 2 then |s|
    else if CrlfAt(s, 0) then 0
    else
      assert forall k :: 1 <= k ==> CrlfAt(s, k) == CrlfAt(s[1..], k - 1);
      1 + FindCRLF(s[1..])
  }

  lemma Rejoin(before: string, data: string, n: nat)
    requires n <= |data|
    ensures before + data[..n] + data[n..] == before + data
  {
  }

  // ---------------------------------------------------------------- the class

  datatype ReadResult = Got(data: string) | Failed(errno: int)

  class Buffer {
    var buf: array<char>
    var readerIdx: nat
    var writerIdx: nat

    ghost predicate Valid()
      reads this
    {
      readerIdx <= writerIdx <= buf.Length && PRE <= buf.Length
    }

    /** The readable bytes. */
    ghost function Contents(): (s: string)
      requires Valid()
      reads this, buf
      ensures |s| == writerIdx - readerIdx
    {
      buf[readerIdx..writerIdx]
    }

    ghost function Shape(): Layout
      reads this
    {
      Layout(readerIdx, writerIdx, buf.Length)
    }

    constructor (initSz: nat)
      ensures Valid() && fresh(buf)
      ensures Contents() == [] && Shape() == FreshLayout(initSz)
    {
      buf := new char[PRE + initSz](_ => '\0');
      readerIdx, writerIdx := PRE, PRE;
    }

    /** `buf_.resize(size)` for a larger size: same bytes, then zeroes. */
    method Resize(size: nat)
      requires Valid() && size >= buf.Length
      modifies this
      ensures Valid() && fresh(buf) && buf.Length == size
      ensures readerIdx == old(readerIdx) && writerIdx == old(writerIdx)
      ensures Contents() == old(Contents())
    {
      var bigger := new char[size](_ => '\0');
      for i := 0 to buf.Length
        modifies bigger
        invariant forall k :: 0 <= k < i ==> bigger[k] == buf[k]
      {
        bigger[i] := buf[i];
      }
      assert bigger[readerIdx..writerIdx] == buf[readerIdx..writerIdx];
      buf := bigger;
    }

    /** Overlapping forward copy of the readable bytes down to PRE. */
    method Compact()
      requires Valid() && PRE < readerIdx
      modifies this, buf
      ensures Valid() && buf == old(buf)
      ensures Shape() == Layout(PRE, PRE + old(Shape()).Readable(), old(Shape()).size)
      ensures Contents() == old(Contents())
    {
      var readable := writerIdx - readerIdx;
      ghost var was := buf[..];
      for i := 0 to readable
        modifies buf
        invariant buf[PRE..PRE + i] == was[readerIdx..readerIdx + i]
        invariant buf[PRE + i..] == was[PRE + i..]
      {
        assert buf[readerIdx + i] == buf[PRE + i..][readerIdx - PRE] == was[readerIdx + i];
        ghost var tail := buf[PRE + i..];
        buf[PRE + i] := buf[readerIdx + i];
        assert buf[PRE + i + 1..] == tail[1..];
      }
      assert was[readerIdx..readerIdx + readable] == old(Contents());
      readerIdx, writerIdx := PRE, PRE + readable;
    }

    /** `expand` and `ensure`; the assertion kPre < readerIdx_ holds whenever it is reached. */
    method EnsureWritable(len: nat)
      requires Valid()
      modifies this, buf
      ensures Valid() && (buf == old(buf) || fresh(buf))
      ensures Shape() == Ensured(old(Shape()), len)
      ensures Contents() == old(Contents())
    {
      if buf.Length - writerIdx < len {
        if buf.Length - writerIdx + readerIdx < len + PRE {
          Resize(writerIdx + len);
        } else {
          assert PRE < readerIdx;
          Compact();
        }
      }
    }

    method AppendBytes(s: string)
      requires Valid()
      modifies this, buf
      ensures Valid() && (buf == old(buf) || fresh(buf))
      ensures Contents() == old(Contents()) + s
      ensures Shape() == Apply(old(Shape()), Append(|s|))
    {
      EnsureWritable(|s|);
      Fill(s);
    }

    /** The string overload of `append`, stated on the readable bytes alone. */
    method AppendText(s: string)
      requires Valid()
      modifies this, buf
      ensures Valid() && (buf == old(buf) || fresh(buf))
      ensures Contents() == old(Contents()) + s
    {
      AppendBytes(s);
    }

    /** Copies `s` to the write pointer and advances it. */
    method Fill(s: string)
      requires Valid() && writerIdx + |s| <= buf.Length
      modifies `writerIdx, buf
      ensures Valid() && Contents() == old(Contents()) + s
      ensures writerIdx == old(writerIdx) + |s|
    {
      ghost var head := buf[..writerIdx];
      for i := 0 to |s|
        modifies buf
        invariant buf[..writerIdx + i] == head + s[..i]
      {
        buf[writerIdx + i] := s[i];
        assert buf[..writerIdx + i + 1] == buf[..writerIdx + i] + [s[i]];
      }
      writerIdx := writerIdx + |s|;
      assert Contents() == (head + s)[readerIdx..];
    }

    method PrependBytes(s: string)
      requires Valid() && |s| <= readerIdx
      modifies this, buf
      ensures Valid() && buf == old(buf)
      ensures Contents() == s + old(Contents())
      ensures Shape() == Apply(old(Shape()), Prepend(|s|))
    {
      readerIdx := readerIdx - |s|;
      for i := 0 to |s|
        modifies buf
        invariant forall k :: 0 <= k < i ==> buf[readerIdx + k] == s[k]
        invariant forall k :: old(readerIdx) <= k < buf.Length ==> buf[k] == old(buf[k])
      {
        buf[readerIdx + i] := s[i];
      }
    }

    method RetrieveAll()
      requires Valid()
      modifies this
      ensures Valid() && buf == old(buf)
      ensures Contents() == []
      ensures Shape() == Layout(PRE, PRE, old(Shape()).size)
    {
      readerIdx, writerIdx := PRE, PRE;
    }

    method RetrieveBytes(len: nat)
      requires Valid() && len <= writerIdx - readerIdx
      modifies this
      ensures Valid() && buf == old(buf)
      ensures Contents() == old(Contents())[len..]
      ensures Shape() == Apply(old(Shape()), Retrieve(len))
    {
      if len < writerIdx - readerIdx {
        readerIdx := readerIdx + len;
      } else {
        RetrieveAll();
      }
    }

    method RetrieveAsString(len: nat) returns (s: string)
      requires Valid() && len <= writerIdx - readerIdx
      modifies this
      ensures Valid() && buf == old(buf)
      ensures s + Contents() == old(Contents()) && |s| == len
      ensures Shape() == Apply(old(Shape()), Retrieve(len))
    {
      s := buf[readerIdx..readerIdx + len];
      RetrieveBytes(len);
    }

    /** Moves the readable bytes into a new buffer of the default size with `reserve` to spare. */
    method ShrinkTo(reserve: nat)
      requires Valid()
      modifies this
      ensures Valid() && fresh(buf)
      ensures Contents() == old(Contents())
      ensures Shape() == Apply(old(Shape()), Shrink(reserve))
      ensures buf.Length - writerIdx >= reserve
    {
      var b := new Buffer(INIT);
      b.EnsureWritable(writerIdx - readerIdx + reserve);
      b.AppendBytes(buf[readerIdx..writerIdx]);
      buf, readerIdx, writerIdx := b.buf, b.readerIdx, b.writerIdx;
    }

    /** What one `readv` can deliver: the writable space, plus the stack buffer when that
        space is smaller than it. */
    ghost function ReadRoom(): int
      reads this
    {
      var w := buf.Length - writerIdx;
      if w < EXTRA then w + EXTRA else w
    }

    /** Scatter read: the kernel fills the writable space first and the stack buffer after it. */
    method ReadFrom(r: ReadResult) returns (n: int)
      requires Valid()
      requires r.Got? ==> |r.data| <= ReadRoom()
      modifies this, buf
      ensures Valid() && (buf == old(buf) || fresh(buf))
      ensures r.Got? ==> n == |r.data| && Contents() == old(Contents()) + r.data
      ensures r.Got? ==> Shape() == Apply(old(Shape()), ReadFd(|r.data|))
      ensures r.Failed? ==> n == -1 && Contents() == old(Contents()) && Shape() == old(Shape())
    {
      match r
      case Failed(_) =>
        n := -1;
      case Got(data) =>
        var writable := buf.Length - writerIdx;
        n := |data|;
        if n <= writable {
          Fill(data);
        } else {
          TakeOverflow(data, writable);
        }
    }

    /** More came than fits: the rest is appended from the stack buffer. */
    method TakeOverflow(data: string, writable: nat)
      requires Valid() && writable == buf.Length - writerIdx < |data|
      modifies this, buf
      ensures Valid() && (buf == old(buf) || fresh(buf))
      ensures Contents() == old(Contents()) + data
      ensures Shape() == Apply(old(Shape()), ReadFd(|data|))
    {
      ghost var before := Contents();
      Fill(data[..writable]);
      assert Contents() == before + data[..writable];
      AppendBytes(data[writable..]);
      Rejoin(before, data, writable);
    }

    method FindCrlf() returns (i: nat)
      requires Valid()
      ensures i == FindCRLF(Contents())
    {
      i := FindCRLF(buf[readerIdx..writerIdx]);
    }
  }
}
