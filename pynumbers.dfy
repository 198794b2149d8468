/**
 * The small part of Python's numeric behaviour that the bill audit relies on:
 * `int` and `float` values (as exact integers and exact reals), `int(s)`,
 * `float(s)`, `s.replace(',', '')` and `round(x, 2)`.
 */
module PyNumbers {
  import opened Wrappers

  /** A number stored in a bill record: a Python `int` or a Python `float` (kept exact). */
  datatype Value = Int(i: int) | Num(x: real)

  function ToReal(v: Value): real
  {
    match v
    case Int(i) => i as real
    case Num(x) => x
  }

  /** Python's `+` on two numbers: `int + int` stays an `int`, anything else is a `float`. */
  function Plus(a: Value, b: Value): (r: Value)
    ensures ToReal(r) == ToReal(a) + ToReal(b)
    ensures r.Int? <==> a.Int? && b.Int?
  {
    if a.Int? && b.Int? then Int(a.i + b.i) else Num(ToReal(a) + ToReal(b))
  }

  function Abs(x: real): (r: real)
    ensures r >= 0.0 && (r == x || r == -x)
  {
    if x < 0.0 then -x else x
  }

  // ---------------------------------------------------------------- round(x, 2)

  /** Nearest integer to `y`, ties to the even one (the rounding rule of Python's `round`). */
  function RoundHalfEven(y: real): (n: int)
    ensures Abs(n as real - y) <= 0.5
    ensures y.Floor as real == y ==> n == y.Floor
  {
    var f := y.Floor;
    var d := y - f as real;
    if d < 0.5 then f
    else if d > 0.5 then f + 1
    else if f % 2 == 0 then f
    else f + 1
  }

  /** `round(x, 2)` on an exact value: the nearest multiple of 0.01, ties to the even multiple. */
  function Round2(x: real): (r: real)
    ensures Abs(r - x) <= 0.005
    ensures IsCents(r)
  {
    var n := RoundHalfEven(x * 100.0);
    HundredthsOf(n, x);
    n as real / 100.0
  }

  lemma HundredthsOf(n: int, x: real)
    requires Abs(n as real - x * 100.0) <= 0.5
    ensures Abs(n as real / 100.0 - x) <= 0.005
    ensures IsCents(n as real / 100.0)
  {
    var r := n as real / 100.0;
    assert r * 100.0 == n as real;
    assert (r - x) * 100.0 == n as real - x * 100.0;
  }

  /** `x` is a whole number of cents. */
  predicate IsCents(x: real)
  {
    (x * 100.0).Floor as real == x * 100.0
  }

  /** Rounding an amount that is already a whole number of cents changes nothing. */
  lemma Round2OfCents(x: real)
    requires IsCents(x)
    ensures Round2(x) == x
  {
    var n := RoundHalfEven(x * 100.0);
    assert n == (x * 100.0).Floor;
    assert n as real == x * 100.0;
  }

  /** Rounding twice is rounding once, so recomputing `components_sum` never drifts. */
  lemma Round2Idempotent(x: real)
    ensures Round2(Round2(x)) == Round2(x)
  {
    Round2OfCents(Round2(x));
  }

  /** `round(v, 2)`: an `int` comes back unchanged, a `float` is rounded to cents. */
  function Round2Value(v: Value): (r: Value)
    ensures ToReal(r) == Round2(ToReal(v))
    ensures r.Int? <==> v.Int?
  {
    match v
    case Int(i) =>
      Round2OfWhole(i);
      v
    case Num(x) => Num(Round2(x))
  }

  lemma Round2OfWhole(i: int)
    ensures Round2(i as real) == i as real
  {
    assert i as real * 100.0 == (100 * i) as real;
    assert ((100 * i) as real).Floor == 100 * i;
    Round2OfCents(i as real);
  }

  // ---------------------------------------------------------------- s.replace(',', '')

  /** `s.replace(',', '')`: every comma removed, everything else kept in order. */
  function StripCommas(s: string): (r: string)
    ensures ',' !in r
    ensures |r| <= |s|
    ensures ',' !in s ==> r == s
  {
    if s == [] then []
    else if s[0] == ',' then StripCommas(s[1..])
    else [s[0]] + StripCommas(s[1..])
  }

  /** Removing commas works piece by piece, so a thousands separator anywhere just disappears. */
  lemma {:induction false} StripCommasAppend(a: string, b: string)
    ensures StripCommas(a + b) == StripCommas(a) + StripCommas(b)
    decreases |a|
  {
    if a == [] {
      assert a + b == b;
    } else {
      assert (a + b)[0] == a[0];
      assert (a + b)[1..] == a[1..] + b;
      StripCommasAppend(a[1..], b);
    }
  }

  // ---------------------------------------------------------------- digits

  predicate IsDigit(c: char)
  {
    '0' <= c <= '9'
  }

  predicate AllDigits(s: string)
  {
    forall i :: 0 <= i < |s| ==> IsDigit(s[i])
  }

  function DigitValue(c: char): nat
    requires IsDigit(c)
  {
    c as int - '0' as int
  }

  function DigitChar(d: nat): (c: char)
    requires d < 10
    ensures IsDigit(c) && DigitValue(c) == d
  {
    ('0' as int + d) as char
  }

  function Pow10(n: nat): (p: nat)
    ensures p >= 1
  {
    if n == 0 then 1 else 10 * Pow10(n - 1)
  }

  /** The number a run of decimal digits denotes. */
  function DigitsValue(s: string): nat
    requires AllDigits(s)
    decreases |s|
  {
    if s == [] then 0 else DigitsValue(s[..|s| - 1]) * 10 + DigitValue(s[|s| - 1])
  }

  /** Position of the first `c` in `s`, or `|s|` when there is none. */
  function IndexOf(s: string, c: char): (i: nat)
    ensures i <= |s|
    ensures i < |s| ==> s[i] == c
    ensures forall j :: 0 <= j < i ==> s[j] != c
  {
    if s == [] then 0
    else if s[0] == c then 0
    else 1 + IndexOf(s[1..], c)
  }

  // ---------------------------------------------------------------- int(s) and float(s)

  /** `int(s)` for an optional sign followed by decimal digits; `None` is the `ValueError`. */
  function ParseInt(s: string): (r: Option<int>)
    ensures r.Some? ==> |s| > 0 && (IsDigit(s[0]) || s[0] == '+' || s[0] == '-')
    ensures r.Some? ==> forall i :: 0 < i < |s| ==> IsDigit(s[i])
  {
    if |s| > 0 && (s[0] == '+' || s[0] == '-') then
      var body := s[1..];
      if body != [] && AllDigits(body) then
        Some(if s[0] == '-' then -(DigitsValue(body) as int) else DigitsValue(body))
      else None
    else if s != [] && AllDigits(s) then Some(DigitsValue(s))
    else None
  }

  /** The value of the numeral `whole.frac`. */
  function DecimalValue(whole: string, frac: string): real
    requires AllDigits(whole) && AllDigits(frac)
  {
    DigitsValue(whole) as real + DigitsValue(frac) as real / Pow10(|frac|) as real
  }

  /** `float(s)` without its sign, for digits with at most one decimal point. */
  function ParseUnsignedDecimal(s: string): (r: Option<real>)
    ensures r.Some? ==> r.value >= 0.0
    ensures r.Some? ==> |s| > 0 && forall i :: 0 <= i < |s| ==> IsDigit(s[i]) || s[i] == '.'
    ensures r.Some? ==> forall i, j :: 0 <= i < j < |s| && s[i] == '.' ==> s[j] != '.'
  {
    var p := IndexOf(s, '.');
    if p == |s| then
      if s != [] && AllDigits(s) then Some(DigitsValue(s) as real) else None
    else
      var whole, frac := s[..p], s[p + 1..];
      if AllDigits(whole) && AllDigits(frac) && |whole| + |frac| > 0 then
        assert forall i :: 0 <= i < |s| && i != p ==> (i < p ==> s[i] == whole[i]) && (i > p ==> s[i] == frac[i - p - 1]);
        Some(DecimalValue(whole, frac))
      else None
  }

  /** `float(s)` for an optional sign followed by a decimal numeral; `None` is the `ValueError`. */
  function ParseFloat(s: string): (r: Option<real>)
    ensures r.Some? ==> |s| > 0 && (IsDigit(s[0]) || s[0] == '.' || s[0] == '+' || s[0] == '-')
    ensures r.Some? ==> forall i :: 0 < i < |s| ==> IsDigit(s[i]) || s[i] == '.'
    ensures r.Some? ==> forall i, j :: 0 <= i < j < |s| && s[i] == '.' ==> s[j] != '.'
  {
    if |s| > 0 && (s[0] == '+' || s[0] == '-') then
      match ParseUnsignedDecimal(s[1..])
      case None => None
      case Some(x) => Some(if s[0] == '-' then -x else x)
    else ParseUnsignedDecimal(s)
  }

  // ---------------------------------------------------------------- printing, the partner of parsing

  /** Decimal numeral of `n` without leading zeros, as a bill prints a kWh figure. */
  function NatText(n: nat): (s: string)
    ensures s != [] && AllDigits(s)
    decreases n
  {
    if n < 10 then [DigitChar(n)] else NatText(n / 10) + [DigitChar(n % 10)]
  }

  /** An amount of `c` cents printed as a bill prints money: whole part, a point, two digits. */
  function CentsText(c: nat): (s: string)
  {
    NatText(c / 100) + "." + [DigitChar(c % 100 / 10), DigitChar(c % 10)]
  }

  lemma {:induction false} DigitsValueOfNatText(n: nat)
    ensures DigitsValue(NatText(n)) == n
    decreases n
  {
    if n >= 10 {
      var s := NatText(n / 10) + [DigitChar(n % 10)];
      assert s[..|s| - 1] == NatText(n / 10);
      DigitsValueOfNatText(n / 10);
    }
  }

  /** `int(str(n)) == n`: a kWh figure printed on the bill reads back as itself. */
  lemma ParseIntOfNatText(n: nat)
    ensures ParseInt(NatText(n)) == Some(n)
  {
    DigitsValueOfNatText(n);
  }

  /** `float` of a printed money amount reads back the exact amount. */
  lemma ParseFloatOfCentsText(c: nat)
    ensures ParseFloat(CentsText(c)) == Some(c as real / 100.0)
  {
    var frac := [DigitChar(c % 100 / 10), DigitChar(c % 10)];
    assert CentsText(c) == NatText(c / 100) + ['.'] + frac;
    DecimalOfParts(NatText(c / 100), frac);
    CentsDecimalValue(c);
  }

  /** The whole part and the two cent digits of `c` cents denote `c / 100`. */
  lemma CentsDecimalValue(c: nat)
    ensures DecimalValue(NatText(c / 100), [DigitChar(c % 100 / 10), DigitChar(c % 10)]) == c as real / 100.0
  {
    var q, m := c / 100, c % 100;
    var frac := [DigitChar(m / 10), DigitChar(c % 10)];
    DigitsValueOfNatText(q);
    assert c % 10 == m % 10;
    TwoDigitsValue(m);
    assert DigitsValue(frac) == m;
    assert Pow10(|frac|) == 100;
    assert c == 100 * q + m;
  }

  /** A numeral with a whole part, a point and a fraction reads as whole plus fraction. */
  lemma DecimalOfParts(whole: string, frac: string)
    requires whole != [] && AllDigits(whole) && AllDigits(frac)
    ensures ParseFloat(whole + ['.'] + frac) == Some(DecimalValue(whole, frac))
  {
    var s := whole + ['.'] + frac;
    UnsignedDecimalOfParts(whole, frac);
    assert s[0] == whole[0];
  }

  lemma UnsignedDecimalOfParts(whole: string, frac: string)
    requires whole != [] && AllDigits(whole) && AllDigits(frac)
    ensures ParseUnsignedDecimal(whole + ['.'] + frac) == Some(DecimalValue(whole, frac))
  {
    var s := whole + ['.'] + frac;
    PointAfterDigits(whole, frac);
    assert IndexOf(s, '.') != |s|;
    assert s[..|whole|] == whole && s[|whole| + 1..] == frac;
  }

  lemma PointAfterDigits(whole: string, frac: string)
    requires AllDigits(whole)
    ensures IndexOf(whole + ['.'] + frac, '.') == |whole|
  {
    var s := whole + ['.'] + frac;
    assert s[|whole|] == '.';
    assert forall j :: 0 <= j < |whole| ==> s[j] == whole[j] && IsDigit(whole[j]);
  }

  lemma TwoDigitsValue(m: nat)
    requires m < 100
    ensures DigitsValue([DigitChar(m / 10), DigitChar(m % 10)]) == m
  {
    var hi, lo := DigitChar(m / 10), DigitChar(m % 10);
    var s := [hi, lo];
    assert s[..1] == [hi];
    assert [hi][..0] == [];
    assert DigitsValue([hi]) == m / 10;
    assert DigitsValue(s) == DigitsValue([hi]) * 10 + DigitValue(lo);
  }
}
