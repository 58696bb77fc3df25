/**
 * Money on the client: amounts are whole cents, `parseFloat` either reads a
 * number or gives `NaN`, and `x.toFixed(2)` rounds to the nearest cent with
 * halves away from zero (it rounds the magnitude and then puts the sign back).
 */
module Money {
  import opened Text

  /** The result of `parseFloat` on a form field: a number of cents, or `NaN`. */
  datatype Number = Num(cents: int) | NaN

  /** `parseFloat(s) || 0`: `NaN` counts as zero. */
  function OrZero(n: Number): int
  {
    if n.Num? then n.cents else 0
  }

  /**
   * `(num / den).toFixed(2)` read back as cents, where `num / den` is a
   * number of cents: the nearest whole cent, halves away from zero.
   */
  function RoundCents(num: int, den: int): (r: int)
    requires den > 0
    ensures num >= 0 ==> 2 * den * r <= 2 * num + den < 2 * den * (r + 1)
    ensures num < 0 ==> 2 * den * -r <= 2 * -num + den < 2 * den * (-r + 1)
  {
    if num >= 0 then (2 * num + den) / (2 * den) else -((2 * -num + den) / (2 * den))
  }

  /** The rounded share is within half a cent of the exact quotient. */
  lemma RoundCentsNearest(num: int, den: int)
    requires den > 0
    ensures -den <= 2 * den * RoundCents(num, den) - 2 * num <= den
  {
  }

  /** A quotient that is already a whole number of cents is left as it is. */
  lemma RoundCentsExact(q: int, den: int)
    requires den > 0
    ensures RoundCents(q * den, den) == q
  {
    var r := RoundCents(q * den, den);
    RoundCentsNearest(q * den, den);
    assert -den <= 2 * den * (r - q) <= den;
    if r > q {
      MulAtLeastOne(2 * den, r - q);
    } else if r < q {
      MulAtLeastOne(2 * den, q - r);
    }
  }

  lemma MulAtLeastOne(a: int, b: int)
    requires a > 0 && b >= 1
    ensures a * b >= a
  {
  }

  function Magnitude(c: int): nat
  {
    if c < 0 then -c else c
  }

  /** The two digits after the decimal point of `m` cents. */
  function CentDigits(m: nat): string
  {
    var cents := m % 100;
    [DigitChar(cents / 10), DigitChar(cents % 10)]
  }

  /** `(c / 100).toFixed(2)` for a whole number of cents `c`. */
  function CentsText(c: int): (r: string)
    ensures |r| >= 4 && r[|r| - 3] == '.'
  {
    (if c < 0 then "-" else "") + NatToString(Magnitude(c) / 100) + "." + CentDigits(Magnitude(c))
  }

  /**
   * `(num / den).toFixed(2)` for a quotient of cents: the sign is written
   * first and the magnitude rounded, so a negative quotient that rounds to
   * zero keeps its minus sign.
   */
  function FixedText(num: int, den: int): (r: string)
    requires den > 0
    ensures RoundCents(num, den) != 0 ==> r == CentsText(RoundCents(num, den))
    ensures RoundCents(num, den) == 0 ==> r == (if num < 0 then "-0.00" else "0.00")
  {
    FixedTextSign(num, den);
    (if num < 0 then "-" else "") + CentsText(RoundCents(Magnitude(num), den))
  }

  lemma FixedTextSign(num: int, den: int)
    requires den > 0
    ensures var t := (if num < 0 then "-" else "") + CentsText(RoundCents(Magnitude(num), den));
      && (RoundCents(num, den) != 0 ==> t == CentsText(RoundCents(num, den)))
      && (RoundCents(num, den) == 0 ==> t == (if num < 0 then "-0.00" else "0.00"))
  {
    var k := RoundCents(Magnitude(num), den);
    assert k >= 0;
    if num < 0 {
      assert RoundCents(num, den) == -k;
      if k != 0 {
        assert Magnitude(-k) == k;
      } else {
        CentsTextZero();
      }
    } else {
      assert RoundCents(num, den) == k;
      CentsTextZero();
    }
  }

  lemma DigitCharInjective(x: nat, y: nat)
    requires x < 10 && y < 10 && DigitChar(x) == DigitChar(y)
    ensures x == y
  {
  }

  lemma CentDigitsInjective(x: nat, y: nat)
    requires CentDigits(x) == CentDigits(y)
    ensures x % 100 == y % 100
  {
    var p, q := x % 100, y % 100;
    DigitCharInjective(p / 10, q / 10);
    DigitCharInjective(p % 10, q % 10);
    assert p == 10 * (p / 10) + p % 10;
    assert q == 10 * (q / 10) + q % 10;
  }

  /** Different amounts print differently, so the printed text determines the amount. */
  lemma CentsTextInjective(a: int, b: int)
    requires CentsText(a) == CentsText(b)
    ensures a == b
  {
    var ma, mb := Magnitude(a), Magnitude(b);
    var ta, tb := CentsText(a), CentsText(b);
    var ha := (if a < 0 then "-" else "") + NatToString(ma / 100);
    var hb := (if b < 0 then "-" else "") + NatToString(mb / 100);
    assert ta == ha + "." + CentDigits(ma);
    assert tb == hb + "." + CentDigits(mb);
    assert ta[|ta| - 2..] == CentDigits(ma);
    assert tb[|tb| - 2..] == CentDigits(mb);
    CentDigitsInjective(ma, mb);
    assert ta[..|ta| - 3] == ha;
    assert tb[..|tb| - 3] == hb;
    SignedDigitsInjective(a < 0, b < 0, ma / 100, mb / 100);
  }

  lemma SignedDigitsInjective(na: bool, nb: bool, x: nat, y: nat)
    requires (if na then "-" else "") + NatToString(x) == (if nb then "-" else "") + NatToString(y)
    ensures na == nb && x == y
  {
    var ha := (if na then "-" else "") + NatToString(x);
    var hb := (if nb then "-" else "") + NatToString(y);
    assert ha[0] == hb[0];
    assert na == nb;
    if na {
      assert ha[1..] == NatToString(x);
      assert hb[1..] == NatToString(y);
    } else {
      assert ha == NatToString(x) && hb == NatToString(y);
    }
    NatToStringInjective(x, y);
  }

  /** "0.00", the text of zero. */
  lemma CentsTextZero()
    ensures CentsText(0) == "0.00"
  {
  }
}
