/** `parsePositiveInt`: decimal digits accumulated in a 64-bit integer. */
module Integers {
  import opened Prelude

  const MODULUS: int := 0x1_0000_0000_0000_0000
  const LIMIT: int := 0x8000_0000_0000_0000

  /** The value a signed 64-bit integer holds after overflow. */
  function Wrap(n: int): (w: int)
    ensures -LIMIT <= w < LIMIT
    ensures -LIMIT <= n < LIMIT ==> w == n
  {
    (n + LIMIT) % MODULUS - LIMIT
  }

  predicate Digits(s: string) {
    forall k :: 0 <= k < |s| ==> '0' <= s[k] <= '9'
  }

  function DigitValue(c: char): int {
    c as int - '0' as int
  }

  /** The number the digits denote. */
  function Decimal(s: string): int {
    if s == "" then 0 else Decimal(s[..|s| - 1]) * 10 + DigitValue(s[|s| - 1])
  }

  lemma WrapStep(n: int, d: int)
    ensures Wrap(Wrap(n) * 10 + d) == Wrap(n * 10 + d)
  {
  }

  /** What the parser makes of a string: the wrapped value, if that is positive. */
  function PositiveInt(s: string): Option<int> {
    if s != "" && Digits(s) && Wrap(Decimal(s)) > 0 then Some(Wrap(Decimal(s))) else None
  }

  method ParsePositiveInt(s: string) returns (r: Option<int>)
    ensures r == PositiveInt(s)
  {
    if s == "" {
      return None;
    }
    var n := 0;
    for i := 0 to |s|
      invariant Digits(s[..i]) && n == Wrap(Decimal(s[..i]))
    {
      if s[i] < '0' || s[i] > '9' {
        return None;
      }
      assert s[..i + 1][..i] == s[..i];
      WrapStep(Decimal(s[..i]), DigitValue(s[i]));
      n := Wrap(n * 10 + DigitValue(s[i]));
    }
    assert s[..|s|] == s;
    if n <= 0 {
      return None;
    }
    return Some(n);
  }

  lemma {:induction false} DecimalNonNegative(s: string)
    requires Digits(s)
    ensures Decimal(s) >= 0
  {
    if s != "" {
      DecimalNonNegative(s[..|s| - 1]);
    }
  }

  /** Each further digit counts the number before it ten times. */
  lemma DecimalExactly(s: string, c: char)
    ensures Decimal("") == 0
    ensures '0' <= c <= '9' ==> Decimal(s + [c]) == Decimal(s) * 10 + (c as int - 48)
  {
    assert (s + [c])[..|s|] == s;
  }

  /**
   * Nothing but decimal digits is read, and as the positive 64-bit number that differs from the one written by a multiple
   * of two to the 64th.
   */
  lemma ReadsModulo(s: string, n: int)
    ensures PositiveInt(s) == Some(n) <==>
              && s != "" && (forall k :: 0 <= k < |s| ==> '0' <= s[k] <= '9')
              && 0 < n < 0x8000_0000_0000_0000 && (Decimal(s) - n) % 0x1_0000_0000_0000_0000 == 0
  {
    WrapModulo(Decimal(s), n);
  }

  lemma WrapModulo(d: int, n: int)
    ensures -LIMIT <= n < LIMIT ==> (Wrap(d) == n <==> (d - n) % 0x1_0000_0000_0000_0000 == 0)
  {
    var k := (d + LIMIT) / MODULUS;
    assert d == Wrap(d) + k * MODULUS;
    if (d - n) % MODULUS == 0 && -LIMIT <= n < LIMIT {
      var j := (d - n) / MODULUS;
      assert d - n == j * MODULUS;
      assert Wrap(d) - n == (j - k) * MODULUS;
    }
  }

  /** The number written is read exactly when it is positive and fits 64 bits. */
  lemma ExactWhenItFits(s: string)
    requires s != "" && Digits(s)
    ensures PositiveInt(s) == Some(Decimal(s)) <==> 0 < Decimal(s) < 0x8000_0000_0000_0000
  {
  }

  lemma {:induction false} DecimalByPrefixes(s: string, values: seq<int>, n: nat)
    requires n <= |s| && |values| == |s| + 1 && values[0] == 0
    requires forall k :: 0 <= k < |s| ==> values[k + 1] == values[k] * 10 + DigitValue(s[k])
    ensures Decimal(s[..n]) == values[n]
  {
    if n > 0 {
      DecimalByPrefixes(s, values, n - 1);
      assert s[..n][..n - 1] == s[..n - 1];
    }
  }

  /** Beyond that the parser still accepts some strings, as another number: here two to the 64th and one more. */
  lemma AcceptsOverflow()
    ensures PositiveInt("18446744073709551617") == Some(1)
  {
    var s := "18446744073709551617";
    DecimalByPrefixes(s, [
      0, 1, 18, 184, 1844, 18446, 184467,
      1844674, 18446744, 184467440, 1844674407, 18446744073, 184467440737, 1844674407370,
      18446744073709, 184467440737095, 1844674407370955, 18446744073709551, 184467440737095516, 1844674407370955161, 18446744073709551617], |s|);
    assert s[..|s|] == s;
  }
}
