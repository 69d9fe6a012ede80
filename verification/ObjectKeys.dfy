/** The printed part of an evidence object key (native/s3-archive.py:720-724), and the proof
    that it can be read back: distinct committed ranges never share a key. */
module ObjectKeys {
  const DIGITS := "0123456789"

  predicate IsDigit(c: char) { c in DIGITS }

  predicate AllDigits(s: string) {
    forall i :: 0 <= i < |s| ==> IsDigit(s[i])
  }

  function DigitValue(c: char): (v: nat)
    requires IsDigit(c)
    ensures v < 10 && DIGITS[v] == c
  {
    var v :| 0 <= v < 10 && DIGITS[v] == c;
    v
  }

  /** str(n) for a non-negative integer. */
  function Dec(n: nat): (s: string)
    ensures AllDigits(s) && s != []
  {
    if n < 10 then [DIGITS[n]] else Dec(n / 10) + [DIGITS[n % 10]]
  }

  function Zeros(k: nat): (s: string)
    ensures AllDigits(s) && |s| == k
  {
    if k == 0 then [] else Zeros(k - 1) + ['0']
  }

  /** f"{n:0{width}d}" */
  function Padded(n: nat, width: nat): (s: string)
    ensures AllDigits(s) && |s| >= width
  {
    var d := Dec(n);
    if |d| >= width then d else Zeros(width - |d|) + d
  }

  function Value(s: string): nat
    requires AllDigits(s)
  {
    if s == [] then 0 else Value(s[..|s| - 1]) * 10 + DigitValue(s[|s| - 1])
  }

  lemma {:induction false} ValueOfZeros(k: nat)
    ensures Value(Zeros(k)) == 0
  {
    if k > 0 {
      ValueOfZeros(k - 1);
      assert Zeros(k)[..k - 1] == Zeros(k - 1);
    }
  }

  lemma ValueSnoc(s: string, d: nat)
    requires AllDigits(s) && d < 10
    ensures AllDigits(s + [DIGITS[d]]) && Value(s + [DIGITS[d]]) == Value(s) * 10 + d
  {
    var t := s + [DIGITS[d]];
    assert t[..|t| - 1] == s;
  }

  lemma {:induction false} ValueOfDec(k: nat, n: nat)
    ensures Value(Zeros(k) + Dec(n)) == n
    decreases n
  {
    if n < 10 {
      ValueOfZeros(k);
      ValueSnoc(Zeros(k), n);
    } else {
      ValueOfDec(k, n / 10);
      ValueSnoc(Zeros(k) + Dec(n / 10), n % 10);
      assert Zeros(k) + Dec(n) == Zeros(k) + Dec(n / 10) + [DIGITS[n % 10]];
    }
  }

  /** Padding loses nothing: the number can be read back. */
  lemma PaddedRoundTrip(n: nat, width: nat)
    ensures Value(Padded(n, width)) == n
  {
    var d := Dec(n);
    if |d| >= width {
      ValueOfDec(0, n);
      assert Zeros(0) + d == d;
    } else {
      ValueOfDec(width - |d|, n);
    }
  }

  /** A digit run followed by a non-digit can only be cut in one place. */
  lemma {:induction false} FieldSplit(a: string, b: string, sep: char, x: string, y: string)
    requires AllDigits(a) && AllDigits(b) && !IsDigit(sep)
    requires a + [sep] + x == b + [sep] + y
    ensures a == b && x == y
  {
    var l, r := a + [sep] + x, b + [sep] + y;
    assert l[|a|] == sep && r[|b|] == sep;
    assert forall i :: 0 <= i < |a| ==> l[i] == a[i];
    assert forall i :: 0 <= i < |b| ==> r[i] == b[i];
    assert |a| == |b|;
    assert a == l[..|a|] && b == r[..|b|];
    assert x == l[|a| + 1..] && y == r[|b| + 1..];
  }

  /** Decimal digits without a leading zero. */
  lemma {:induction false} DecText(n: nat)
    ensures Value(Dec(n)) == n && (n > 0 ==> Dec(n)[0] != '0') && (n == 0 ==> Dec(n) == "0")
  {
    ValueOfDec(0, n);
    assert Zeros(0) + Dec(n) == Dec(n);
    if n >= 10 {
      DecText(n / 10);
    }
  }

  function Ten(width: nat): nat {
    if width == 0 then 1 else 10 * Ten(width - 1)
  }

  lemma {:induction false} DecLength(n: nat, width: nat)
    requires n < Ten(width) && width > 0
    ensures |Dec(n)| <= width
  {
    if n >= 10 {
      DecLength(n / 10, width - 1);
    }
  }

  /** Numbers of at most that many digits all print at the same width. */
  lemma PaddedWidth(n: nat, width: nat)
    requires n < Ten(width) && width > 0
    ensures |Padded(n, width)| == width
  {
    DecLength(n, width);
  }

  function EndPart(end: nat): string { Padded(end, 20) + ['-'] + [] }

  function RangePart(start: nat, end: nat): string { Padded(start, 20) + ['-'] + EndPart(end) }

  function GenerationPart(generation: nat, start: nat, end: nat): string {
    Padded(generation, 6) + ['/'] + RangePart(start, end)
  }

  function InodePart(inode: nat, generation: nat, start: nat, end: nat): string {
    Dec(inode) + ['-'] + (['g'] + GenerationPart(generation, start, end))
  }

  /** `{dev}-{ino}-g{generation:06d}/{start:020d}-{end:020d}-`, the key text before the digest. */
  function RangePath(device: nat, inode: nat, generation: nat, start: nat, end: nat): string {
    Dec(device) + ['-'] + InodePart(inode, generation, start, end)
  }

  /** The printed path, field by field. */
  lemma RangePathText(device: nat, inode: nat, generation: nat, start: nat, end: nat)
    ensures RangePath(device, inode, generation, start, end)
      == Dec(device) + "-" + (Dec(inode) + "-" + ("g" + (Padded(generation, 6) + "/" + (Padded(start, 20) + "-"
         + (Padded(end, 20) + "-")))))
  {
    hide Dec, Padded, AllDigits;
    assert EndPart(end) == Padded(end, 20) + "-";
  }

  lemma PaddedInjective(a: nat, b: nat, width: nat)
    requires Padded(a, width) == Padded(b, width)
    ensures a == b
  {
    PaddedRoundTrip(a, width);
    PaddedRoundTrip(b, width);
  }

  lemma PaddedField(a: nat, b: nat, width: nat, sep: char, x: string, y: string)
    requires !IsDigit(sep)
    requires Padded(a, width) + [sep] + x == Padded(b, width) + [sep] + y
    ensures a == b && x == y
  {
    FieldSplit(Padded(a, width), Padded(b, width), sep, x, y);
    PaddedInjective(a, b, width);
  }

  lemma RangePartInjective(s1: nat, e1: nat, s2: nat, e2: nat)
    requires RangePart(s1, e1) == RangePart(s2, e2)
    ensures s1 == s2 && e1 == e2
  {
    PaddedField(s1, s2, 20, '-', EndPart(e1), EndPart(e2));
    PaddedField(e1, e2, 20, '-', [], []);
  }

  lemma GenerationPartInjective(g1: nat, s1: nat, e1: nat, g2: nat, s2: nat, e2: nat)
    ensures GenerationPart(g1, s1, e1) == GenerationPart(g2, s2, e2) ==> g1 == g2 && s1 == s2 && e1 == e2
  {
    hide Padded, RangePart, AllDigits;
    if GenerationPart(g1, s1, e1) == GenerationPart(g2, s2, e2) {
      PaddedField(g1, g2, 6, '/', RangePart(s1, e1), RangePart(s2, e2));
      RangePartInjective(s1, e1, s2, e2);
    }
  }

  lemma DropG(x: string, y: string)
    requires ['g'] + x == ['g'] + y
    ensures x == y
  {
    assert x == (['g'] + x)[1..] && y == (['g'] + y)[1..];
  }

  /** The printed range is injective: key text is equal exactly for equal inode, generation and byte range. */
  lemma RangePathInjective(d1: nat, i1: nat, g1: nat, s1: nat, e1: nat,
                           d2: nat, i2: nat, g2: nat, s2: nat, e2: nat)
    ensures RangePath(d1, i1, g1, s1, e1) == RangePath(d2, i2, g2, s2, e2)
       <==> d1 == d2 && i1 == i2 && g1 == g2 && s1 == s2 && e1 == e2
  {
    hide Dec, GenerationPart, AllDigits;
    if RangePath(d1, i1, g1, s1, e1) == RangePath(d2, i2, g2, s2, e2) {
      FieldSplit(Dec(d1), Dec(d2), '-', InodePart(i1, g1, s1, e1), InodePart(i2, g2, s2, e2));
      FieldSplit(Dec(i1), Dec(i2), '-', ['g'] + GenerationPart(g1, s1, e1), ['g'] + GenerationPart(g2, s2, e2));
      DropG(GenerationPart(g1, s1, e1), GenerationPart(g2, s2, e2));
      GenerationPartInjective(g1, s1, e1, g2, s2, e2);
      PaddedInjective(d1, d2, 0);
      PaddedInjective(i1, i2, 0);
    }
  }
}
