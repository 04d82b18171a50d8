/** The order identifiers both creation handlers generate:
    `ORD-${Date.now()}-${suffix}`, where the suffix is up to nine base-36
    characters of `Math.random()`. The clock reading and the suffix are
    parameters. */
module OrderIds {

  function DigitChar(d: nat): (c: char)
    requires d < 10
    ensures '0' <= c <= '9'
  {
    (48 + d) as char
  }

  /** The decimal digits of `n`, as `String(n)` writes a whole number. */
  function Decimal(n: nat): (r: string)
    ensures |r| >= 1
    ensures forall k :: 0 <= k < |r| ==> '0' <= r[k] <= '9'
    ensures |r| == 1 <==> n < 10
  {
    if n < 10 then [DigitChar(n)] else Decimal(n / 10) + [DigitChar(n % 10)]
  }

  /** Different numbers are written differently. */
  lemma {:induction false} DecimalInjective(a: nat, b: nat)
    requires Decimal(a) == Decimal(b)
    ensures a == b
  {
    if a >= 10 && b >= 10 {
      var da := Decimal(a);
      assert da[..|da| - 1] == Decimal(a / 10);
      assert Decimal(b)[..|da| - 1] == Decimal(b / 10);
      DecimalInjective(a / 10, b / 10);
      assert DigitChar(a % 10) == da[|da| - 1] == DigitChar(b % 10);
    } else if a < 10 && b < 10 {
      assert DigitChar(a) == DigitChar(b);
    }
  }

  function OrderId(now: nat, suffix: string): string {
    "ORD-" + Decimal(now) + "-" + suffix
  }

  /** Two creations get the same identifier only if they read the same
      clock value and drew the same suffix. */
  lemma OrderIdInjective(t1: nat, s1: string, t2: nat, s2: string)
    requires OrderId(t1, s1) == OrderId(t2, s2)
    ensures t1 == t2 && s1 == s2
  {
    var d1 := Decimal(t1);
    var d2 := Decimal(t2);
    var id := OrderId(t1, s1);
    assert id == OrderId(t2, s2);
    assert forall k :: 0 <= k < |d1| ==> id[4 + k] == d1[k];
    assert forall k :: 0 <= k < |d2| ==> id[4 + k] == d2[k];
    assert id[4 + |d1|] == '-';
    assert id[4 + |d2|] == '-';
    assert |d1| == |d2|;
    assert d1 == id[4..4 + |d1|] == d2;
    DecimalInjective(t1, t2);
    assert s1 == id[5 + |d1|..] == s2;
  }
}
