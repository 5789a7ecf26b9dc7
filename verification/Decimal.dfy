/** Unsigned 64-bit integers and their decimal text, as strconv.FormatUint and strconv.ParseUint give them. */
module Decimal {

  const TWO_TO_64: nat := 0x1_0000_0000_0000_0000

  type Uint64 = n: nat | n < 0x1_0000_0000_0000_0000

  datatype Option<+T> = None | Some(value: T) {
    function GetOr(default: T): T {
      if Some? then value else default
    }
  }

  /** Unsigned addition as Go performs it: modulo 2^64. */
  function WrappingAdd(a: Uint64, b: Uint64): Uint64 {
    (a + b) % TWO_TO_64
  }

  predicate IsDigit(c: char) {
    '0' <= c <= '9'
  }

  predicate AllDigits(s: string) {
    forall i :: 0 <= i < |s| ==> IsDigit(s[i])
  }

  function DigitChar(d: nat): char
    requires d < 10
  {
    '0' + (d as char)
  }

  function DigitValue(c: char): nat
    requires IsDigit(c)
  {
    (c - '0') as int
  }

  /** The decimal text of n: digits only, no leading zero (except for 0 itself). */
  function FormatUint(n: nat): (s: string)
    ensures 0 < |s| && AllDigits(s)
    ensures 1 < |s| ==> s[0] != '0'
    ensures n == 0 <==> s == "0"
  {
    if n < 10 then [DigitChar(n)] else FormatUint(n / 10) + [DigitChar(n % 10)]
  }

  /** The number a string of digits denotes, most significant digit first. */
  function Value(s: string): nat
    requires AllDigits(s)
  {
    if s == [] then 0 else 10 * Value(s[..|s| - 1]) + DigitValue(s[|s| - 1])
  }

  /** ParseUint(s, 10, 64): fails on the empty string, on a non-digit and on overflow; accepts leading zeros. */
  function ParseUint(s: string): Option<Uint64> {
    if s == [] || !AllDigits(s) || TWO_TO_64 <= Value(s) then None else Some(Value(s))
  }

  lemma {:induction false} ValueOfFormat(n: nat)
    ensures Value(FormatUint(n)) == n
  {
    if 10 <= n {
      ValueOfFormat(n / 10);
      var s := FormatUint(n);
      assert s[..|s| - 1] == FormatUint(n / 10);
    }
  }

  lemma {:induction false} FormatOfValue(s: string)
    requires AllDigits(s) && 0 < |s|
    requires 1 < |s| ==> s[0] != '0'
    ensures FormatUint(Value(s)) == s
    ensures 1 < |s| ==> 10 <= Value(s)
  {
    var front, d := s[..|s| - 1], DigitValue(s[|s| - 1]);
    assert s == front + [DigitChar(d)];
    if |s| == 1 {
      assert front == [];
    } else {
      assert front[0] == s[0];
      FormatOfValue(front);
      if |front| == 1 {
        assert front[..0] == [];
        assert Value(front) == DigitValue(s[0]);
      }
      var v := Value(front);
      assert 0 < v && (10 * v + d) / 10 == v && (10 * v + d) % 10 == d;
    }
  }

  lemma FormatThenParse(n: Uint64)
    ensures ParseUint(FormatUint(n)) == Some(n)
  {
    ValueOfFormat(n);
  }

  lemma FormatInjective(a: nat, b: nat)
    requires FormatUint(a) == FormatUint(b)
    ensures a == b
  {
    ValueOfFormat(a);
    ValueOfFormat(b);
  }

  function Pow10(k: nat): (p: nat)
    ensures 0 < p
  {
    if k == 0 then 1 else 10 * Pow10(k - 1)
  }

  lemma {:induction false} FormatLength(n: nat, k: nat)
    requires 0 < k && n < Pow10(k)
    ensures |FormatUint(n)| <= k
  {
    if 10 <= n {
      assert k != 1;
      FormatLength(n / 10, k - 1);
    }
  }

  lemma Uint64TextIsShort(n: Uint64)
    ensures |FormatUint(n)| <= 20
  {
    assert Pow10(4) == 10_000;
    assert Pow10(8) == 100_000_000;
    assert Pow10(12) == 1_000_000_000_000;
    assert Pow10(16) == 10_000_000_000_000_000;
    assert Pow10(20) == 100_000_000_000_000_000_000;
    FormatLength(n, 20);
  }
}
