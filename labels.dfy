/**
 * The text of the category-axis labels: `SF<sf>` for spreading factors and
 * `<bw/1000> kHz` for bandwidths, as the dashboard script writes them with
 * template literals. Each label has an inverse reader, so distinct keys
 * always get distinct labels.
 */
module Labels {

  predicate IsDigit(c: char) {
    '0' <= c <= '9'
  }

  ghost predicate AllDigits(s: string) {
    forall i :: 0 <= i < |s| ==> IsDigit(s[i])
  }

  function DigitChar(d: nat): (c: char)
    requires d < 10
    ensures IsDigit(c)
  {
    (('0' as int) + d) as char
  }

  /** The value of a digit character; any other character reads as 0. */
  function DigitValue(c: char): nat {
    if IsDigit(c) then c as int - '0' as int else 0
  }

  /** The decimal numeral of `n`, without leading zeros. */
  function NatToString(n: nat): (s: string)
    ensures |s| >= 1 && AllDigits(s)
    ensures s[0] == '0' ==> n == 0
    decreases n
  {
    if n < 10 then [DigitChar(n)] else NatToString(n / 10) + [DigitChar(n % 10)]
  }

  /** Reads a string of digits as a natural number. */
  function ParseNat(s: string): nat {
    if |s| == 0 then 0 else 10 * ParseNat(s[..|s| - 1]) + DigitValue(s[|s| - 1])
  }

  lemma {:induction false} ParseNatRoundTrip(n: nat)
    ensures ParseNat(NatToString(n)) == n
    decreases n
  {
    if n >= 10 {
      var s := NatToString(n / 10);
      ParseNatRoundTrip(n / 10);
      assert (s + [DigitChar(n % 10)])[..|s|] == s;
    }
  }

  /** How a JavaScript template literal writes an integer-valued number. */
  function IntToString(i: int): string {
    if i < 0 then "-" + NatToString(-i) else NatToString(i)
  }

  function ParseInt(s: string): int {
    if |s| > 0 && s[0] == '-' then -(ParseNat(s[1..]) as int) else ParseNat(s)
  }

  lemma ParseIntRoundTrip(i: int)
    ensures ParseInt(IntToString(i)) == i
  {
    if i < 0 {
      ParseNatRoundTrip(-i);
      assert IntToString(i)[1..] == NatToString(-i);
    } else {
      ParseNatRoundTrip(i);
    }
  }

  /** The spreading-factor label `SF${sf}`. */
  function SfLabel(sf: int): string {
    "SF" + IntToString(sf)
  }

  /** Reads the spreading factor back out of its label. */
  function SfOfLabel(text: string): int {
    if |text| < 2 then 0 else ParseInt(text[2..])
  }

  lemma SfLabelRoundTrip(sf: int)
    ensures SfOfLabel(SfLabel(sf)) == sf
  {
    assert SfLabel(sf)[2..] == IntToString(sf);
    ParseIntRoundTrip(sf);
  }

  lemma SfLabelInjective(a: int, b: int)
    ensures SfLabel(a) == SfLabel(b) ==> a == b
  {
    SfLabelRoundTrip(a);
    SfLabelRoundTrip(b);
  }

  /**
   * The fractional part of a number of thousandths `r`, as JavaScript prints
   * it: nothing for a whole number, otherwise a point and one to three digits
   * with the trailing zeros dropped.
   */
  function Fraction(r: nat): string
    requires r < 1000
  {
    if r == 0 then ""
    else
      var d1, d2, d3 := r / 100, r / 10 % 10, r % 10;
      if d3 != 0 then ['.', DigitChar(d1), DigitChar(d2), DigitChar(d3)]
      else if d2 != 0 then ['.', DigitChar(d1), DigitChar(d2)]
      else ['.', DigitChar(d1)]
  }

  /** `v / 1000` written in decimal, as JavaScript prints the quotient of an integer by 1000. */
  function Thousandths(v: int): string {
    var m: nat := if v < 0 then -v else v;
    (if v < 0 then "-" else "") + NatToString(m / 1000) + Fraction(m % 1000)
  }

  /** The bandwidth label `${bw/1000} kHz`. */
  function BwLabel(bw: int): string {
    Thousandths(bw) + " kHz"
  }

  /** Index of the first '.' in `t`, or `|t|` when there is none. */
  function DotIndex(t: string): (k: nat)
    ensures k <= |t|
  {
    if |t| == 0 || t[0] == '.' then 0 else 1 + DotIndex(t[1..])
  }

  /** The digit at position `i` of a fraction, 0 past its end. */
  function FractionDigit(f: string, i: nat): nat {
    if i < |f| then DigitValue(f[i]) else 0
  }

  /** Reads the digits after the point as thousandths. */
  function FractionValue(f: string): nat {
    100 * FractionDigit(f, 0) + 10 * FractionDigit(f, 1) + FractionDigit(f, 2)
  }

  function UnsignedThousandthsValue(t: string): nat {
    var k := DotIndex(t);
    1000 * ParseNat(t[..k]) + (if k < |t| then FractionValue(t[k + 1..]) else 0)
  }

  /** Reads a decimal with at most three fractional digits as a number of thousandths. */
  function ThousandthsValue(t: string): int {
    if |t| > 0 && t[0] == '-' then -(UnsignedThousandthsValue(t[1..]) as int) else UnsignedThousandthsValue(t)
  }

  /** Reads the bandwidth in Hz back out of its label. */
  function BwOfLabel(text: string): int {
    if |text| < 4 then 0 else ThousandthsValue(text[..|text| - 4])
  }

  lemma {:induction false} DotIndexSkipsDigits(a: string, b: string)
    requires AllDigits(a)
    ensures DotIndex(a + b) == |a| + DotIndex(b)
    decreases |a|
  {
    if |a| > 0 {
      assert (a + b)[1..] == a[1..] + b;
      DotIndexSkipsDigits(a[1..], b);
    } else {
      assert a + b == b;
    }
  }

  lemma FractionRoundTrip(r: nat)
    requires 0 < r < 1000
    ensures |Fraction(r)| >= 2 && Fraction(r)[0] == '.'
    ensures |Fraction(r)| <= 4 && Fraction(r)[|Fraction(r)| - 1] != '0'
    ensures FractionValue(Fraction(r)[1..]) == r
  {
    var d1, d2, d3 := r / 100, r / 10 % 10, r % 10;
    assert r == 100 * d1 + 10 * d2 + d3;
  }

  lemma UnsignedRoundTrip(m: nat)
    ensures UnsignedThousandthsValue(NatToString(m / 1000) + Fraction(m % 1000)) == m
  {
    var q, r := NatToString(m / 1000), Fraction(m % 1000);
    var t := q + r;
    DotIndexSkipsDigits(q, r);
    assert t[..|q|] == q;
    ParseNatRoundTrip(m / 1000);
    if m % 1000 == 0 {
      assert t == q;
    } else {
      FractionRoundTrip(m % 1000);
      assert t[|q| + 1..] == r[1..];
    }
  }

  lemma ThousandthsRoundTrip(v: int)
    ensures ThousandthsValue(Thousandths(v)) == v
  {
    var m: nat := if v < 0 then -v else v;
    var u := NatToString(m / 1000) + Fraction(m % 1000);
    UnsignedRoundTrip(m);
    if v < 0 {
      assert Thousandths(v) == "-" + u;
      assert ("-" + u)[1..] == u;
    } else {
      assert Thousandths(v) == u;
      assert IsDigit(u[0]);
    }
  }

  lemma BwLabelRoundTrip(bw: int)
    ensures BwOfLabel(BwLabel(bw)) == bw
  {
    var t := Thousandths(bw);
    assert BwLabel(bw)[..|BwLabel(bw)| - 4] == t;
    ThousandthsRoundTrip(bw);
  }

  lemma BwLabelInjective(a: int, b: int)
    ensures BwLabel(a) == BwLabel(b) ==> a == b
  {
    BwLabelRoundTrip(a);
    BwLabelRoundTrip(b);
  }

  /** Labels the dashboard shows for sample spreading factors and bandwidths. */
  lemma LabelExamples()
    ensures SfLabel(7) == "SF7" && SfLabel(12) == "SF12"
    ensures BwLabel(125000) == "125 kHz"
    ensures BwLabel(62500) == "62.5 kHz"
    ensures BwLabel(7800) == "7.8 kHz"
  {
    assert NatToString(62) == "62" && Fraction(500) == ".5";
    assert NatToString(7) == "7" && Fraction(800) == ".8";
  }
}
