/** The code generator the integration tests install
    (tests/UrlShortener.IntegrationTests/Support/IncrementingShortCodeGenerator.cs):
    a 32-bit counter, incremented on every call and formatted as `t` and
    at least seven digits. */
module IncrementingCodeGeneration {

  const MinInt32: int := -0x8000_0000
  const MaxInt32: int := 0x7FFF_FFFF

  predicate IsInt32(n: int) {
    MinInt32 <= n <= MaxInt32
  }

  /** `Interlocked.Increment`: wraps from `int.MaxValue` to `int.MinValue`. */
  function Increment32(n: int): (r: int)
    requires IsInt32(n)
    ensures IsInt32(r)
  {
    if n == MaxInt32 then MinInt32 else n + 1
  }

  /** The increment is `n + 1` modulo 2^32: the result is congruent to
      `n + 1`, and it is the only 32-bit value that is. */
  lemma Increment32IsWrappingIncrement(n: int, r: int)
    requires IsInt32(n)
    ensures (Increment32(n) - (n + 1)) % 0x1_0000_0000 == 0
    ensures IsInt32(r) && (r - (n + 1)) % 0x1_0000_0000 == 0 ==> r == Increment32(n)
  {
    if IsInt32(r) && (r - (n + 1)) % 0x1_0000_0000 == 0 {
      var d := r - Increment32(n);
      assert d % 0x1_0000_0000 == 0;
      assert -0x1_0000_0000 < d < 0x1_0000_0000;
    }
  }

  predicate IsDigit(c: char) {
    '0' <= c <= '9'
  }

  predicate AllDigits(s: string) {
    forall i :: 0 <= i < |s| ==> IsDigit(s[i])
  }

  function DigitChar(d: nat): char
    requires d < 10
  {
    ('0' as int + d) as char
  }

  /** The shortest decimal representation of `n`. */
  function Digits(n: nat): (s: string)
    ensures |s| >= 1 && AllDigits(s)
  {
    if n < 10 then [DigitChar(n)] else Digits(n / 10) + [DigitChar(n % 10)]
  }

  function Zeros(k: nat): (z: string)
    ensures |z| == k && AllDigits(z)
  {
    seq(k, _ => '0')
  }

  /** `s` left-padded with zeros to at least `width` characters. */
  function PadLeft(s: string, width: nat): (r: string)
    requires AllDigits(s)
    ensures AllDigits(r)
    ensures |r| == if |s| >= width then |s| else width
  {
    if |s| >= width then s else Zeros(width - |s|) + s
  }

  /** The custom numeric format "0000000": a minus sign for a negative
      value, then the magnitude's digits padded to seven. */
  function Format7(n: int): string {
    if n < 0 then "-" + PadLeft(Digits(-n), 7) else PadLeft(Digits(n), 7)
  }

  /** The code issued for counter value `n`. */
  function CodeFor(n: int): string {
    "t" + Format7(n)
  }

  /** The value of a decimal digit string. */
  function Value(s: string): nat
    requires AllDigits(s)
  {
    if s == [] then 0 else Value(s[..|s| - 1]) * 10 + (s[|s| - 1] as int - '0' as int)
  }

  /** `t`, then an optional minus sign, then at least seven digits. */
  predicate IsCodeShape(code: string) {
    && |code| >= 2 && code[0] == 't'
    && (code[1] == '-' ==> |code| >= 9 && AllDigits(code[2..]))
    && (code[1] != '-' ==> |code| >= 8 && AllDigits(code[1..]))
  }

  /** Reads a counter back from a code. */
  function ParseCode(code: string): int
    requires IsCodeShape(code)
  {
    if code[1] == '-' then -(Value(code[2..]) as int) else Value(code[1..])
  }

  lemma {:induction false} ValueOfDigits(n: nat)
    ensures Value(Digits(n)) == n
  {
    if n >= 10 {
      ValueOfDigits(n / 10);
      var s := Digits(n);
      assert s[..|s| - 1] == Digits(n / 10);
    }
  }

  lemma {:induction false} LeadingZerosHaveNoValue(k: nat, s: string)
    requires AllDigits(s)
    ensures Value(Zeros(k) + s) == Value(s)
    decreases |s|
  {
    var t := Zeros(k) + s;
    if s == [] {
      assert t == Zeros(k);
      ZerosHaveNoValue(k);
    } else {
      LeadingZerosHaveNoValue(k, s[..|s| - 1]);
      assert t[..|t| - 1] == Zeros(k) + s[..|s| - 1];
    }
  }

  lemma {:induction false} ZerosHaveNoValue(k: nat)
    ensures Value(Zeros(k)) == 0
  {
    if k > 0 {
      ZerosHaveNoValue(k - 1);
      assert Zeros(k)[..k - 1] == Zeros(k - 1);
    }
  }

  /** The padded digits of `m` read back as `m`. */
  lemma PaddedValue(m: nat)
    ensures var p := PadLeft(Digits(m), 7);
      |p| >= 7 && AllDigits(p) && Value(p) == m
  {
    var d := Digits(m);
    ValueOfDigits(m);
    if |d| < 7 {
      LeadingZerosHaveNoValue(7 - |d|, d);
    }
  }

  /** `t`, a minus sign and a digit string read back as the negated value. */
  lemma ParseNegativeDigits(p: string)
    requires |p| >= 7 && AllDigits(p)
    ensures IsCodeShape("t" + ("-" + p)) && ParseCode("t" + ("-" + p)) == -(Value(p) as int)
  {
    var code := "t" + ("-" + p);
    assert code[0] == 't' && code[1] == '-';
    assert code[2..] == p;
  }

  /** `t` and a digit string read back as the value. */
  lemma ParseUnsignedDigits(p: string)
    requires |p| >= 7 && AllDigits(p)
    ensures IsCodeShape("t" + p) && ParseCode("t" + p) == Value(p)
  {
    var code := "t" + p;
    assert code[0] == 't' && code[1] == p[0] && IsDigit(p[0]);
    assert code[1..] == p;
  }

  lemma NegativeCodeRoundTrip(n: int)
    requires n < 0
    ensures IsCodeShape(CodeFor(n)) && ParseCode(CodeFor(n)) == n
  {
    var m: nat := -n;
    var p := PadLeft(Digits(m), 7);
    assert CodeFor(n) == "t" + ("-" + p);
    PaddedValue(m);
    ParseNegativeDigits(p);
  }

  lemma NonNegativeCodeRoundTrip(n: nat)
    ensures IsCodeShape(CodeFor(n)) && ParseCode(CodeFor(n)) == n
  {
    var p := PadLeft(Digits(n), 7);
    assert CodeFor(n) == "t" + p;
    PaddedValue(n);
    ParseUnsignedDigits(p);
  }

  /** Every code reads back as the counter it was made from, so distinct
      counter values give distinct codes. */
  lemma CodeRoundTrip(n: int)
    ensures IsCodeShape(CodeFor(n)) && ParseCode(CodeFor(n)) == n
  {
    if n < 0 {
      NegativeCodeRoundTrip(n);
    } else {
      NonNegativeCodeRoundTrip(n);
    }
  }

  lemma CodesAreDistinct(a: int, b: int)
    requires a != b
    ensures CodeFor(a) != CodeFor(b)
  {
    CodeRoundTrip(a);
    CodeRoundTrip(b);
  }

  function Pow10(k: nat): nat {
    if k == 0 then 1 else 10 * Pow10(k - 1)
  }

  /** `n` has at most `k` digits iff it is below 10^k. */
  lemma {:induction false} DigitCount(n: nat, k: nat)
    requires k >= 1
    ensures |Digits(n)| <= k <==> n < Pow10(k)
  {
    if n >= 10 && k >= 2 {
      DigitCount(n / 10, k - 1);
    } else if n >= 10 {
      assert |Digits(n)| == |Digits(n / 10)| + 1;
    } else if k >= 2 {
      PowAtLeastTen(k);
    }
  }

  lemma {:induction false} PowAtLeastTen(k: nat)
    requires k >= 1
    ensures Pow10(k) >= 10
  {
    if k > 1 {
      PowAtLeastTen(k - 1);
    }
  }

  /** Codes are eight characters long exactly while the counter is between
      0 and 9,999,999. */
  lemma CodeLength(n: int)
    ensures |CodeFor(n)| == 8 <==> 0 <= n <= 9_999_999
  {
    var m: nat := if n < 0 then -n else n;
    DigitCount(m, 7);
    assert Pow10(7) == 10_000_000;
  }

  /** The first code is "t0000001". */
  lemma FirstCode()
    ensures CodeFor(1) == "t0000001"
  {
    assert Digits(1) == "1";
    assert Zeros(6) == "000000";
  }

  class IncrementingShortCodeGenerator {
    var counter: int
    /** The codes issued so far, in order. */
    ghost var issued: seq<string>

    /** The counter is a 32-bit value; until it wraps it equals the number of
        calls, and call `i` (from 1) issued `CodeFor(i)`. */
    ghost predicate Valid()
      reads this
    {
      && IsInt32(counter)
      && (|issued| <= MaxInt32 ==>
            counter == |issued| && forall i :: 0 <= i < |issued| ==> issued[i] == CodeFor(i + 1))
    }

    constructor ()
      ensures Valid() && counter == 0 && issued == []
    {
      counter := 0;
      issued := [];
    }

    /** Increments the counter and formats the new value; `length` is ignored. */
    method GenerateUniqueCode(length: int) returns (code: string)
      requires Valid()
      modifies this
      ensures Valid()
      ensures counter == Increment32(old(counter))
      ensures code == CodeFor(counter)
      ensures issued == old(issued) + [code]
    {
      counter := Increment32(counter);
      code := CodeFor(counter);
      issued := issued + [code];
    }
  }

  /** Until the counter wraps, the generator never issues a code twice. */
  lemma IssuedCodesAreDistinct(g: IncrementingShortCodeGenerator)
    requires g.Valid() && |g.issued| <= MaxInt32
    ensures forall i, j :: 0 <= i < j < |g.issued| ==> g.issued[i] != g.issued[j]
  {
    forall i, j | 0 <= i < j < |g.issued| ensures g.issued[i] != g.issued[j] {
      IssuedPairIsDistinct(g.issued, i, j);
    }
  }

  lemma IssuedPairIsDistinct(issued: seq<string>, i: int, j: int)
    requires forall k :: 0 <= k < |issued| ==> issued[k] == CodeFor(k + 1)
    requires 0 <= i < j < |issued|
    ensures issued[i] != issued[j]
  {
    CodesAreDistinct(i + 1, j + 1);
  }
}
