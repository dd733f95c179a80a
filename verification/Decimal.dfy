/** Integer printing of the log stream (`convert`, chtho/logging/LogStream.h).

    The C++ code takes digits with `%` and `/` that truncate toward zero, so a negative
    number yields negative digits; a table mirrored around zero turns them into text, and
    the text, written low digit first, is reversed in place. */
module Decimals {

  function Abs(x: int): nat { if x < 0 then -x else x }

  /** Division and remainder by ten, truncating toward zero. */
  function TruncDiv10(x: int): (q: int)
    ensures Abs(q) == Abs(x) / 10
    ensures (x >= 0 ==> q >= 0) && (x <= 0 ==> q <= 0)
  {
    if x < 0 then -(-x / 10) else x / 10
  }

  function TruncMod10(x: int): (r: int)
    ensures Abs(r) == Abs(x) % 10 && -10 < r < 10
    ensures (x >= 0 ==> r >= 0) && (x <= 0 ==> r <= 0)
    ensures x == TruncDiv10(x) * 10 + r
  {
    if x < 0 then -(-x % 10) else x % 10
  }

  /** Digit table; `pzo` points at its middle. */
  const MIRRORED: string := "9876543210123456789"
  const PZO: nat := 9

  function DigitChar(d: nat): char
    requires d < 10
  {
    ('0' as int + d) as char
  }

  /** `pzo[lsd]`: the sign of the remainder does not show in its digit. */
  function MirroredDigit(lsd: int): (c: char)
    requires -10 < lsd < 10
    ensures c == DigitChar(Abs(lsd))
  {
    MIRRORED[PZO + lsd]
  }

  predicate IsDigit(c: char) { '0' <= c <= '9' }

  function DigitValue(c: char): nat
    requires IsDigit(c)
  {
    c as int - '0' as int
  }

  // ---------------------------------------------------------------- canonical text

  /** Decimal digits of n, high digit first. */
  function Digits(n: nat): (s: string)
    ensures |s| > 0
  {
    if n < 10 then [DigitChar(n)] else Digits(n / 10) + [DigitChar(n % 10)]
  }

  function Decimal(v: int): string { if v < 0 then "-" + Digits(-v) else Digits(v) }

  predicate AllDigits(s: string) { forall i :: 0 <= i < |s| ==> IsDigit(s[i]) }

  /** Digits without a needless leading zero. */
  predicate Plain(s: string) { |s| > 0 && AllDigits(s) && (s[0] == '0' ==> |s| == 1) }

  /** An optional minus sign and plain digits; zero has no sign. */
  predicate Canonical(s: string) {
    Plain(s) || (|s| > 1 && s[0] == '-' && Plain(s[1..]) && s[1] != '0')
  }

  function ReadDigits(s: string): nat
    requires AllDigits(s)
  {
    if s == [] then 0 else ReadDigits(s[..|s| - 1]) * 10 + DigitValue(s[|s| - 1])
  }

  function ReadDecimal(s: string): int
    requires Canonical(s)
  {
    if s[0] == '-' then -(ReadDigits(s[1..]) as int) else ReadDigits(s)
  }

  lemma {:induction false} DigitsRead(n: nat)
    ensures Plain(Digits(n)) && ReadDigits(Digits(n)) == n
    ensures Digits(n)[0] == '0' <==> n == 0
    decreases n
  {
    if n >= 10 {
      DigitsRead(n / 10);
      assert Digits(n)[..|Digits(n)| - 1] == Digits(n / 10);
    }
  }

  lemma {:induction false} ReadDigitsPositive(s: string)
    requires |s| > 0 && AllDigits(s) && s[0] != '0'
    ensures ReadDigits(s) > 0
    decreases |s|
  {
    if |s| > 1 { ReadDigitsPositive(s[..|s| - 1]); }
  }

  lemma {:induction false} PlainUnique(s: string)
    requires Plain(s)
    ensures Digits(ReadDigits(s)) == s
    decreases |s|
  {
    var init, last := s[..|s| - 1], s[|s| - 1];
    if |s| == 1 {
      assert s == [last] && ReadDigits(init) == 0;
    } else {
      PlainUnique(init);
      ReadDigitsPositive(init);
      assert s == init + [last];
    }
  }

  /** Printing is canonical and reads back to the same number. */
  lemma DecimalReadsBack(v: int)
    ensures Canonical(Decimal(v)) && ReadDecimal(Decimal(v)) == v
  {
    DigitsRead(Abs(v));
    if v < 0 { assert Decimal(v)[1..] == Digits(-v); }
  }

  /** Canonical text is unique: whatever canonical text reads to v is Decimal(v). */
  lemma DecimalUnique(s: string)
    requires Canonical(s)
    ensures Decimal(ReadDecimal(s)) == s
  {
    if s[0] == '-' {
      PlainUnique(s[1..]);
      ReadDigitsPositive(s[1..]);
      assert s == "-" + s[1..];
    } else {
      PlainUnique(s);
    }
  }

  // ---------------------------------------------------------------- the algorithm

  /** The same characters, last one first. */
  function Backwards(s: string): string { seq(|s|, k requires 0 <= k < |s| => s[|s| - 1 - k]) }

  /** It exchanges the parts of a text and is its own inverse. */
  lemma BackwardsLaws(a: string, b: string)
    ensures Backwards(a + b) == Backwards(b) + Backwards(a)
    ensures Backwards(Backwards(a)) == a
  {
  }

  /** Digits in the order the loop produces them, low digit first. */
  ghost function LowFirst(n: nat): string {
    if n < 10 then [DigitChar(n)] else [DigitChar(n % 10)] + LowFirst(n / 10)
  }

  lemma LowFirstStep(i: int)
    ensures var q := TruncDiv10(i);
            LowFirst(Abs(i)) == [MirroredDigit(TruncMod10(i))] + (if q != 0 then LowFirst(Abs(q)) else [])
    ensures TruncDiv10(i) != 0 ==> Abs(TruncDiv10(i)) < Abs(i)
  {
  }

  /** The digits in loop order are those of the number, backwards. */
  lemma {:induction false} LowFirstBackwards(n: nat)
    ensures Backwards(LowFirst(n)) == Digits(n) && |LowFirst(n)| == |Digits(n)|
    decreases n
  {
    if n >= 10 {
      LowFirstBackwards(n / 10);
      BackwardsLaws([DigitChar(n % 10)], LowFirst(n / 10));
    }
  }

  /** `std::reverse` on the first n characters: two ends that swap and close in. */
  method ReverseText(buf: array<char>, n: nat)
    requires n <= buf.Length
    modifies buf
    ensures buf[..n] == Backwards(old(buf[..n]))
    ensures forall k :: n <= k < buf.Length ==> buf[k] == old(buf[k])
  {
    var first, last := 0, n;
    while first + 1 < last
      invariant first <= last && first + last == n
      invariant forall k :: 0 <= k < buf.Length ==>
                  buf[k] == if first <= k < last || k >= n then old(buf[k]) else old(buf[n - 1 - k])
    {
      last := last - 1;
      buf[first], buf[last] := buf[last], buf[first];
      first := first + 1;
    }
  }

  /** The do-while loop: digits of `value`, low digit first. */
  method WriteLowFirst(buf: array<char>, value: int) returns (p: nat)
    requires |LowFirst(Abs(value))| < buf.Length
    modifies buf
    ensures p == |LowFirst(Abs(value))| && buf[..p] == LowFirst(Abs(value))
    ensures forall k :: p <= k < buf.Length ==> buf[k] == old(buf[k])
  {
    hide LowFirst, TruncDiv10, TruncMod10, MirroredDigit;
    ghost var all := LowFirst(Abs(value));
    var i, more := value, true;
    p := 0;
    while more
      invariant p <= |all|
      invariant all[p..] == if more then LowFirst(Abs(i)) else []
      invariant forall k :: 0 <= k < p ==> buf[k] == all[k]
      invariant forall k :: p <= k < buf.Length ==> buf[k] == old(buf[k])
      decreases |all| - p
    {
      LowFirstStep(i);
      assert all[p] == all[p..][0] && all[p + 1..] == all[p..][1..];
      var lsd := TruncMod10(i);
      i := TruncDiv10(i);
      buf[p] := MirroredDigit(lsd);
      p := p + 1;
      more := i != 0;
    }
  }

  /** `convert`: for every integer, whatever its width, the buffer holds its canonical
      decimal text followed by a terminator, and nothing past the terminator changes. */
  method Convert(buf: array<char>, value: int) returns (len: nat)
    requires |Decimal(value)| < buf.Length
    modifies buf
    ensures len == |Decimal(value)|
    ensures buf[..len] == Decimal(value) && buf[len] == '\0'
    ensures buf[len + 1..] == old(buf[len + 1..])
  {
    SignedBackwards(value);
    var p := WriteLowFirst(buf, value);
    len := Terminate(buf, p, value < 0);
    ReverseText(buf, len);
  }

  lemma SignedBackwards(v: int)
    ensures Backwards(LowFirst(Abs(v)) + (if v < 0 then ['-'] else [])) == Decimal(v)
    ensures |LowFirst(Abs(v))| + (if v < 0 then 1 else 0) == |Decimal(v)|
  {
    var t := LowFirst(Abs(v));
    LowFirstBackwards(Abs(v));
    BackwardsLaws(t, ['-']);
    assert t + [] == t;
  }

  /** The sign and the terminator behind the first n characters. */
  method Terminate(buf: array<char>, n: nat, negative: bool) returns (len: nat)
    requires n + (if negative then 1 else 0) < buf.Length
    modifies buf
    ensures len == n + (if negative then 1 else 0)
    ensures buf[..len] == old(buf[..n]) + (if negative then ['-'] else []) && buf[len] == '\0'
    ensures forall k :: len < k < buf.Length ==> buf[k] == old(buf[k])
  {
    len := n;
    if negative {
      buf[len] := '-';
      len := len + 1;
    }
    buf[len] := '\0';
  }
}
