/** Base-10 numerals as JavaScript's `Number.prototype.toString()` and
    `toFixed(1)` produce them for integers, with the parsers that read them
    back. The parsers are the partners the round-trip lemmas relate to. */
module Decimal {

  predicate IsDigit(c: char) {
    '0' <= c <= '9'
  }

  predicate AllDigits(s: string) {
    forall i :: 0 <= i < |s| ==> IsDigit(s[i])
  }

  function DigitValue(c: char): (d: nat)
    requires IsDigit(c)
    ensures d < 10
  {
    c as int - '0' as int
  }

  function DigitChar(d: nat): (c: char)
    requires d < 10
    ensures IsDigit(c) && DigitValue(c) == d
  {
    ('0' as int + d) as char
  }

  /** A numeral in the form `toString()` writes it: one or more digits and
      no leading zero, except for `0` itself. */
  predicate IsCanonicalNat(s: string) {
    |s| >= 1 && AllDigits(s) && (|s| == 1 || s[0] != '0')
  }

  /** The shortest numeral of `n`: at least one digit and no leading zero. */
  function NatToString(n: nat): (s: string)
    ensures IsCanonicalNat(s)
    ensures s[0] == '0' ==> n == 0
  {
    if n < 10 then [DigitChar(n)] else NatToString(n / 10) + [DigitChar(n % 10)]
  }

  /** The value of a numeral, most significant digit first. */
  function ParseNat(s: string): nat
    requires AllDigits(s)
  {
    if s == [] then 0 else ParseNat(s[..|s| - 1]) * 10 + DigitValue(s[|s| - 1])
  }

  lemma {:induction false} ParseNatToString(n: nat)
    ensures ParseNat(NatToString(n)) == n
  {
    if n >= 10 {
      var p := NatToString(n / 10);
      var s := p + [DigitChar(n % 10)];
      assert s[..|s| - 1] == p;
      ParseNatToString(n / 10);
    }
  }

  /** A canonical numeral is the one `NatToString` writes for its value, so
      the value and canonical form together pin the string. */
  lemma {:induction false} CanonicalNatUnique(s: string)
    requires IsCanonicalNat(s)
    ensures NatToString(ParseNat(s)) == s
    decreases |s|
  {
    var p := s[..|s| - 1];
    var c := s[|s| - 1];
    if |s| == 1 {
      assert p == [];
      assert DigitChar(DigitValue(c)) == c;
    } else {
      assert p[0] == s[0];
      assert AllDigits(p);
      CanonicalNatUnique(p);
      assert ParseNat(p) >= 1 by {
        if |p| == 1 {
          assert p == [p[0]] && p[..0] == [];
        }
      }
      var n := ParseNat(s);
      assert n == ParseNat(p) * 10 + DigitValue(c);
      assert n / 10 == ParseNat(p) && n % 10 == DigitValue(c);
      assert DigitChar(DigitValue(c)) == c;
      assert s == p + [c];
    }
  }

  /** `i.toString()` for an integer `i`: a minus sign before the numeral of a negative value. */
  function IntToString(i: int): (s: string)
    ensures |s| >= 1
    ensures s[0] == '-' <==> i < 0
    ensures i < 0 ==> |s| >= 2 && AllDigits(s[1..])
    ensures i >= 0 ==> AllDigits(s)
    ensures IsIntNumeral(s) && IsCanonicalInt(s)
  {
    if i < 0 then "-" + NatToString(-i) else NatToString(i)
  }

  /** An optional minus sign followed by digits. */
  predicate IsIntNumeral(s: string) {
    |s| >= 1 && (s[0] == '-' ==> AllDigits(s[1..])) && (s[0] != '-' ==> AllDigits(s))
  }

  /** An integer numeral in the form `toString()` writes it: a canonical
      numeral, with a minus sign before any numeral but `0`. */
  predicate IsCanonicalInt(s: string) {
    |s| >= 1 &&
    if s[0] == '-' then IsCanonicalNat(s[1..]) && s[1..] != "0" else IsCanonicalNat(s)
  }

  /** Reads back what `IntToString` writes. */
  function ParseInt(s: string): int
    requires IsIntNumeral(s)
  {
    if s[0] == '-' then -(ParseNat(s[1..]) as int) else ParseNat(s)
  }

  lemma ParseIntToString(i: int)
    ensures ParseInt(IntToString(i)) == i
  {
    if i < 0 {
      assert IntToString(i)[1..] == NatToString(-i);
      ParseNatToString(-i);
    } else {
      ParseNatToString(i);
    }
  }

  /** The value and canonical form together pin an integer numeral. */
  lemma CanonicalIntUnique(s: string)
    requires IsCanonicalInt(s)
    ensures IsIntNumeral(s) && IntToString(ParseInt(s)) == s
  {
    if s[0] == '-' {
      CanonicalNatUnique(s[1..]);
      assert ParseNat(s[1..]) != 0;
      assert s == "-" + s[1..];
    } else {
      CanonicalNatUnique(s);
    }
  }

  /** The number of tenths `(n / unit).toFixed(1)` shows: `n / unit` rounded
      to the nearest tenth, an exact half rounded up. */
  function Tenths(n: nat, unit: nat): nat
    requires unit > 0
  {
    (10 * n + unit / 2) / unit
  }

  /** `(n / unit).toFixed(1)`: the whole part, a point and one decimal digit. */
  function ToFixed1(n: nat, unit: nat): (s: string)
    requires unit > 0
    ensures IsCanonicalFixed1(s)
  {
    var t := Tenths(n, unit);
    var w := NatToString(t / 10);
    assert (w + "." + [DigitChar(t % 10)])[..|w|] == w;
    w + "." + [DigitChar(t % 10)]
  }

  /** A numeral of the shape `ddd.d`. */
  predicate IsFixed1(s: string) {
    |s| >= 3 && s[|s| - 2] == '.' && IsDigit(s[|s| - 1]) && AllDigits(s[..|s| - 2])
  }

  /** A `ddd.d` numeral whose whole part is canonical, as `toFixed(1)` writes it. */
  predicate IsCanonicalFixed1(s: string) {
    IsFixed1(s) && IsCanonicalNat(s[..|s| - 2])
  }

  /** The number of tenths a numeral `ddd.d` denotes. */
  function ParseFixed1(s: string): nat
    requires IsFixed1(s)
  {
    ParseNat(s[..|s| - 2]) * 10 + DigitValue(s[|s| - 1])
  }

  /** The numeral `ToFixed1` writes denotes the value `n / unit` to within
      half a tenth: `10 * n / unit` lies in `[t - 1/2, t + 1/2)`. */
  lemma ToFixed1Value(n: nat, unit: nat)
    requires unit > 0 && unit % 2 == 0
    ensures var t := ParseFixed1(ToFixed1(n, unit));
      t * unit <= 10 * n + unit / 2 < t * unit + unit
  {
    var t := Tenths(n, unit);
    var w := NatToString(t / 10);
    var s := w + "." + [DigitChar(t % 10)];
    assert s[..|s| - 2] == w;
    ParseNatToString(t / 10);
    assert ParseFixed1(s) == t;
    DivBounds(10 * n + unit / 2, unit);
  }

  /** The number of tenths and canonical form together pin a `ddd.d` numeral. */
  lemma CanonicalFixed1Unique(s: string)
    requires IsCanonicalFixed1(s)
    ensures var t := ParseFixed1(s);
      s == NatToString(t / 10) + "." + [DigitChar(t % 10)]
  {
    var w := s[..|s| - 2];
    var c := s[|s| - 1];
    CanonicalNatUnique(w);
    var t := ParseFixed1(s);
    assert t / 10 == ParseNat(w) && t % 10 == DigitValue(c);
    assert DigitChar(DigitValue(c)) == c;
    assert s == w + "." + [c];
  }

  lemma DivBounds(x: nat, d: nat)
    requires d > 0
    ensures (x / d) * d <= x < (x / d) * d + d
  {
  }
}
