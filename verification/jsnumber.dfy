/**
 * The two conversions between numbers and text the system relies on, over exact reals:
 * `parseFloat` (text to number, NaN as `None`) and `Number.prototype.toFixed(2)`.
 */
module JsNumber {
  import opened Wrappers
  import opened Strings

  function Pow10(k: nat): (r: real)
    ensures r >= 1.0
  {
    if k == 0 then 1.0 else 10.0 * Pow10(k - 1)
  }

  /** The value of the digits `ds` read after a decimal point. */
  function Fraction(ds: string): (r: real)
    requires AllDigits(ds)
    ensures r >= 0.0
  {
    DigitsValue(ds) as real / Pow10(|ds|)
  }

  /** The number of decimal digits at the start of `s`. */
  function LeadingDigits(s: string): (r: nat)
    ensures r <= |s| && AllDigits(s[..r])
    ensures r < |s| ==> !IsDigit(s[r])
  {
    if |s| > 0 && IsDigit(s[0]) then
      var k := LeadingDigits(s[1..]);
      assert s[..k + 1] == [s[0]] + s[1..][..k];
      k + 1
    else 0
  }

  /**
   * The decimal part of a literal at the start of `u`: digits, optionally followed by a point
   * and more digits, with at least one digit in all. Its value and its length, or `None`.
   */
  function Mantissa(u: string): (r: Option<(real, nat)>)
    ensures r.Some? ==> r.value.0 >= 0.0 && 0 < r.value.1 <= |u|
  {
    var i := LeadingDigits(u);
    var whole := DigitsValue(u[..i]) as real;
    if i < |u| && u[i] == '.' then
      var rest := u[i + 1..];
      var f := LeadingDigits(rest);
      if i == 0 && f == 0 then None
      else Some((whole + Fraction(rest[..f]), i + 1 + f))
    else if i == 0 then None
    else Some((whole, i))
  }

  /**
   * An exponent at the start of `e`: `e` or `E`, an optional sign and at least one digit. Its
   * value and its length, or `None` when `e` does not start with a complete one.
   */
  function Exponent(e: string): (r: Option<(int, nat)>)
    ensures r.Some? ==> 2 <= r.value.1 <= |e|
  {
    if |e| >= 2 && (e[0] == 'e' || e[0] == 'E') then
      var start := if e[1] == '+' || e[1] == '-' then 2 else 1;
      var k := LeadingDigits(e[start..]);
      if k == 0 then None
      else
        var x: int := DigitsValue(e[start..][..k]);
        Some((if e[1] == '-' then -x else x, start + k))
    else None
  }

  /** The length of the exponent at the start of `e`, 0 when there is none. */
  function ExponentLength(e: string): (n: nat)
    ensures n <= |e|
  {
    match Exponent(e)
    case None => 0
    case Some((_, n)) => n
  }

  /** `v` times ten to the power `x`, one factor of ten at a time. */
  function Scale(v: real, x: int): (r: real)
    ensures v >= 0.0 ==> r >= 0.0
    decreases if x >= 0 then x else -x
  {
    if x == 0 then v
    else if x > 0 then 10.0 * Scale(v, x - 1)
    else Scale(v, x + 1) / 10.0
  }

  /** Scaling up by `x` multiplies by ten to the power `x`. */
  lemma {:induction false} ScaleUp(v: real, x: nat)
    ensures Scale(v, x) == v * Pow10(x)
  {
    if x > 0 {
      ScaleUp(v, x - 1);
      TenTimes(v, Pow10(x - 1));
    }
  }

  /** Scaling down by `x` is undone by multiplying by ten to the power `x`. */
  lemma {:induction false} ScaleDown(v: real, x: nat, y: int)
    requires x > 0 && y == -(x as int)
    ensures Scale(v, y) * Pow10(x) == v
  {
    if x == 1 {
      assert Pow10(1) == 10.0;
    } else {
      ScaleDown(v, x - 1, y + 1);
      TenthTimesTen(Scale(v, y + 1), Pow10(x - 1));
    }
  }

  lemma {:induction false} TenTimes(v: real, p: real)
    ensures 10.0 * (v * p) == v * (10.0 * p)
  {
  }

  lemma {:induction false} TenthTimesTen(q: real, p: real)
    ensures (q / 10.0) * (10.0 * p) == q * p
  {
  }

  /**
   * The longest prefix of `u` that reads as an unsigned decimal literal: the decimal part, then
   * an exponent when a complete one follows. `None` when no prefix qualifies.
   */
  function UnsignedPrefix(u: string): (r: Option<real>)
    ensures r.Some? <==> Mantissa(u).Some?
    ensures r.Some? ==> r.value >= 0.0
    ensures r.Some? && Exponent(u[Mantissa(u).value.1..]).None? ==> r.value == Mantissa(u).value.0
  {
    match Mantissa(u)
    case None => None
    case Some((v, m)) =>
      match Exponent(u[m..])
      case None => Some(v)
      case Some((x, _)) => Some(Scale(v, x))
  }

  /**
   * `parseFloat(s)`: leading white space is skipped, an optional sign is read, then the
   * longest decimal prefix; anything after it is ignored. `None` stands for NaN.
   */
  function ParseFloat(s: string): Option<real>
  {
    var t := TrimStart(s);
    if |t| > 0 && (t[0] == '+' || t[0] == '-') then
      match UnsignedPrefix(t[1..])
      case None => None
      case Some(v) => Some(if t[0] == '-' then -v else v)
    else UnsignedPrefix(t)
  }

  /** `u` is, in full, an unsigned decimal literal: the decimal part and an optional exponent. */
  predicate UnsignedLiteral(u: string) {
    match Mantissa(u)
    case None => false
    case Some((_, m)) => m + ExponentLength(u[m..]) == |u|
  }

  /**
   * `Number(s)` for a string: white space around the text is ignored, the empty text is 0, and
   * otherwise the whole text must be an optionally signed decimal literal. `None` is NaN.
   */
  function StringToNumber(s: string): (r: Option<real>)
    ensures Trim(s) == "" ==> r == Some(0.0)
    ensures r.Some? && Trim(s) != "" ==> r == ParseFloat(Trim(s))
  {
    var t := Trim(s);
    if t == "" then Some(0.0)
    else
      var u := if t[0] == '+' || t[0] == '-' then t[1..] else t;
      if UnsignedLiteral(u) then ParseFloat(t) else None
  }

  /** `Number` and `parseFloat` both read the decimal rendering of a natural number as that number. */
  lemma {:induction false} StringToNumberShowNat(n: nat)
    ensures StringToNumber(ShowNat(n)) == Some(n as real)
  {
    var s := ShowNat(n);
    TrimDigits(s);
    AllDigitsLeading(s);
    assert UnsignedLiteral(s);
    ParseShowNat(n);
  }

  /** `parseFloat` reads back the decimal rendering of every natural number. */
  lemma {:induction false} ParseShowNat(n: nat)
    ensures ParseFloat(ShowNat(n)) == Some(n as real)
  {
    ShowNatRoundTrip(n);
    ParseDigits(ShowNat(n));
  }

  /** `parseFloat` reads a non-empty run of digits as the number it spells. */
  lemma {:induction false} ParseDigits(s: string)
    requires |s| > 0 && AllDigits(s)
    ensures ParseFloat(s) == Some(DigitsValue(s) as real)
  {
    assert IsDigit(s[0]);
    assert TrimStart(s) == s;
    AllDigitsLeading(s);
    assert s[..|s|] == s;
    NoExponent(s[|s|..]);
  }

  /**
   * `parseFloat` and `Number` read `a` followed by `e` and `x` as `a` scaled up by `x` places,
   * which is `a` times ten to the power `x` (`ScaleUp`).
   */
  lemma {:induction false} ParseExponentText(a: nat, x: nat)
    ensures ParseFloat(ShowNat(a) + "e" + ShowNat(x)) == Some(Scale(a as real, x))
    ensures StringToNumber(ShowNat(a) + "e" + ShowNat(x)) == Some(Scale(a as real, x))
  {
    ShowNatRoundTrip(a);
    ShowNatRoundTrip(x);
    PositiveExponentLiteral(ShowNat(a), ShowNat(x), x);
  }

  /**
   * `parseFloat` and `Number` read `a` followed by `e-` and `-y` as `a` scaled down by `-y`
   * places, which multiplied by ten to the power `-y` gives back `a` (`ScaleDown`).
   */
  lemma {:induction false} ParseNegativeExponentText(a: nat, y: int)
    requires y < 0
    ensures ParseFloat(ShowNat(a) + "e-" + ShowNat(-y)) == Some(Scale(a as real, y))
    ensures StringToNumber(ShowNat(a) + "e-" + ShowNat(-y)) == Some(Scale(a as real, y))
  {
    ShowNatRoundTrip(a);
    ShowNatRoundTrip(-y);
    NegativeExponentLiteral(ShowNat(a), ShowNat(-y), y);
  }

  /** Digits, `e` and digits read as the first run scaled up by the second. */
  lemma {:induction false} PositiveExponentLiteral(w: string, xs: string, x: int)
    requires |w| > 0 && AllDigits(w) && |xs| > 0 && AllDigits(xs) && x == DigitsValue(xs)
    ensures ParseFloat(w + "e" + xs) == Some(Scale(DigitsValue(w) as real, x))
    ensures StringToNumber(w + "e" + xs) == ParseFloat(w + "e" + xs)
  {
    ExponentOfDigits(xs);
    assert w + "e" + xs == w + ("e" + xs);
    LiteralThenExponent(w, "e" + xs, x, 1 + |xs|);
  }

  /** Digits, `e-` and digits read as the first run scaled down by the second. */
  lemma {:induction false} NegativeExponentLiteral(w: string, xs: string, x: int)
    requires |w| > 0 && AllDigits(w) && |xs| > 0 && AllDigits(xs) && x == -(DigitsValue(xs) as int)
    ensures ParseFloat(w + "e-" + xs) == Some(Scale(DigitsValue(w) as real, x))
    ensures StringToNumber(w + "e-" + xs) == ParseFloat(w + "e-" + xs)
  {
    NegativeExponentOfDigits(xs);
    assert w + "e-" + xs == w + ("e-" + xs);
    LiteralThenExponent(w, "e-" + xs, x, 2 + |xs|);
  }

  /** Digits followed by a complete exponent `e` read, in full, as their value scaled by it. */
  lemma {:induction false} LiteralThenExponent(w: string, e: string, x: int, n: nat)
    requires |w| > 0 && AllDigits(w)
    requires Exponent(e) == Some((x, n)) && n == |e|
    ensures ParseFloat(w + e) == Some(Scale(DigitsValue(w) as real, x))
    ensures StringToNumber(w + e) == Some(Scale(DigitsValue(w) as real, x))
  {
    var s := w + e;
    LiteralThenExponentPrefix(w, e, x, n);
    LiteralThenExponentTrim(w, e, x, n);
    StartsWithDigit(s);
    LiteralNumber(s);
  }

  lemma {:induction false} LiteralThenExponentPrefix(w: string, e: string, x: int, n: nat)
    requires |w| > 0 && AllDigits(w)
    requires Exponent(e) == Some((x, n)) && n == |e|
    ensures |w + e| > 0 && IsDigit((w + e)[0])
    ensures UnsignedPrefix(w + e) == Some(Scale(DigitsValue(w) as real, x))
    ensures UnsignedLiteral(w + e)
  {
    DigitsThen(w, e);
    ScaledPrefix(w + e, DigitsValue(w) as real, |w|, x, n);
  }

  lemma {:induction false} LiteralThenExponentTrim(w: string, e: string, x: int, n: nat)
    requires |w| > 0 && AllDigits(w)
    requires Exponent(e) == Some((x, n)) && n == |e|
    ensures Trim(w + e) == w + e
  {
    var s := w + e;
    ExponentEndsInDigit(e);
    assert s[0] == w[0] && s[|s| - 1] == e[|e| - 1];
    TrimUnspaced(s);
  }

  /** Text that starts with a digit, has no white space at its end and is a literal in full: `Number` agrees with `parseFloat`. */
  lemma {:induction false} LiteralNumber(s: string)
    requires |s| > 0 && IsDigit(s[0]) && Trim(s) == s && UnsignedLiteral(s)
    ensures StringToNumber(s) == ParseFloat(s)
  {
  }

  /** Digits followed by text that starts with neither a digit nor a point: the decimal part is the digits. */
  lemma {:induction false} DigitsThen(w: string, e: string)
    requires |w| > 0 && AllDigits(w) && |e| > 0 && !IsDigit(e[0]) && e[0] != '.'
    ensures Mantissa(w + e) == Some((DigitsValue(w) as real, |w|))
    ensures (w + e)[|w|..] == e && IsDigit((w + e)[0])
  {
    var s := w + e;
    assert s[..|w|] == w && s[|w|] == e[0];
    MantissaOfDigits(s, |w|);
    assert s[0] == w[0];
  }

  lemma {:induction false} ScaledPrefix(u: string, v: real, m: nat, x: int, n: nat)
    requires Mantissa(u) == Some((v, m)) && Exponent(u[m..]) == Some((x, n))
    ensures UnsignedPrefix(u) == Some(Scale(v, x))
    ensures m + n == |u| ==> UnsignedLiteral(u)
  {
  }

  lemma {:induction false} ExponentEndsInDigit(e: string)
    requires Exponent(e).Some? && Exponent(e).value.1 == |e|
    ensures IsDigit(e[|e| - 1])
  {
    var start := if e[1] == '+' || e[1] == '-' then 2 else 1;
    var k := LeadingDigits(e[start..]);
    assert e[start..][..k][k - 1] == e[|e| - 1];
  }

  /** An exponent marker without digits after it is not read: `parseFloat("5e")` is 5, `Number("5e")` is NaN. */
  lemma {:induction false} IncompleteExponentIgnored(a: nat)
    ensures ParseFloat(ShowNat(a) + "e") == Some(a as real)
    ensures StringToNumber(ShowNat(a) + "e") == None
  {
    ShowNatRoundTrip(a);
    DigitsThenBareMarker(ShowNat(a));
    DigitsThenBareMarkerIsNaN(ShowNat(a));
  }

  lemma {:induction false} DigitsThenBareMarker(w: string)
    requires |w| > 0 && AllDigits(w)
    ensures ParseFloat(w + "e") == Some(DigitsValue(w) as real)
  {
    var s := w + "e";
    DigitsThen(w, "e");
    assert Exponent("e").None?;
    StartsWithDigit(s);
  }

  lemma {:induction false} DigitsThenBareMarkerIsNaN(w: string)
    requires |w| > 0 && AllDigits(w)
    ensures StringToNumber(w + "e") == None
  {
    var s := w + "e";
    DigitsThenBareMarkerNotLiteral(w);
    assert IsDigit(s[0]) by {
      assert s[0] == w[0];
    }
    assert s[|s| - 1] == 'e';
    TrimUnspaced(s);
    NotLiteralIsNaN(s);
  }

  lemma {:induction false} DigitsThenBareMarkerNotLiteral(w: string)
    requires |w| > 0 && AllDigits(w)
    ensures !UnsignedLiteral(w + "e")
  {
    DigitsThen(w, "e");
    assert Exponent("e").None?;
  }

  /** Text that starts with a digit, has no white space at its end and is not a literal in full: `Number` gives NaN. */
  lemma {:induction false} NotLiteralIsNaN(s: string)
    requires |s| > 0 && IsDigit(s[0]) && Trim(s) == s && !UnsignedLiteral(s)
    ensures StringToNumber(s) == None
  {
  }

  /** A run of `k` digits not followed by a digit or a point is a decimal part of its own value. */
  lemma {:induction false} MantissaOfDigits(s: string, k: nat)
    requires 0 < k <= |s| && AllDigits(s[..k]) && (k < |s| ==> !IsDigit(s[k]) && s[k] != '.')
    ensures Mantissa(s) == Some((DigitsValue(s[..k]) as real, k))
  {
    if k < |s| {
      AllDigitsLeadingThenStop(s, k);
    } else {
      assert s[..k] == s;
      AllDigitsLeading(s);
    }
  }

  /** `e` followed by a run of digits is a complete exponent of their value. */
  lemma {:induction false} ExponentOfDigits(xs: string)
    requires |xs| > 0 && AllDigits(xs)
    ensures Exponent("e" + xs) == Some((DigitsValue(xs) as int, 1 + |xs|))
  {
    var e := "e" + xs;
    assert e[1..] == xs && e[1] == xs[0];
    AllDigitsLeading(xs);
    assert xs[..|xs|] == xs;
  }

  /** `e-` followed by a run of digits is a complete exponent of their value, negated. */
  lemma {:induction false} NegativeExponentOfDigits(xs: string)
    requires |xs| > 0 && AllDigits(xs)
    ensures Exponent("e-" + xs) == Some((-(DigitsValue(xs) as int), 2 + |xs|))
  {
    var e := "e-" + xs;
    assert e[2..] == xs && e[1] == '-';
    AllDigitsLeading(xs);
    assert xs[..|xs|] == xs;
  }

  lemma {:induction false} AllDigitsLeading(s: string)
    requires AllDigits(s)
    ensures LeadingDigits(s) == |s|
  {
    if |s| > 0 {
      assert AllDigits(s[1..]) by {
        assert forall i :: 0 <= i < |s| - 1 ==> s[1..][i] == s[i + 1];
      }
      AllDigitsLeading(s[1..]);
    }
  }

  /**
   * `x.toFixed(2)`: the integer nearest to `100 * |x|` (the larger one on a tie), written
   * with exactly two digits after the point, after a minus sign when `x` is negative.
   */
  function ToFixed2(x: real): (s: string)
    ensures |s| >= 4 && s[|s| - 3] == '.' && AllDigits(s[|s| - 2..])
    ensures s[0] == '-' <==> x < 0.0
    ensures x >= 0.0 ==> AllDigits(s[..|s| - 3])
    ensures x < 0.0 ==> AllDigits(s[1..|s| - 3])
  {
    if x < 0.0 then
      var f := Fixed2(-x);
      Negated(f);
      "-" + f
    else Fixed2(x)
  }

  /** A minus sign in front keeps the two digits after the point. */
  lemma {:induction false} Negated(f: string)
    requires |f| >= 4 && f[|f| - 3] == '.' && AllDigits(f[..|f| - 3]) && AllDigits(f[|f| - 2..])
    ensures var s := "-" + f;
      && |s| >= 4 && s[|s| - 3] == '.' && AllDigits(s[|s| - 2..]) && AllDigits(s[1..|s| - 3])
  {
    var s := "-" + f;
    assert s[1..|s| - 3] == f[..|f| - 3];
    assert s[|s| - 2..] == f[|f| - 2..];
  }

  /** The digits of the whole part, a point, and exactly two digits. */
  function Fixed2(x: real): (s: string)
    requires x >= 0.0
    ensures |s| >= 4 && s[|s| - 3] == '.' && s[0] != '-'
    ensures AllDigits(s[..|s| - 3]) && AllDigits(s[|s| - 2..])
  {
    var n := Hundredths(x);
    var w := ShowNat(n / 100);
    var d := Pad2(n % 100);
    var s := w + "." + d;
    assert s[..|s| - 3] == w;
    assert s[|s| - 2..] == d;
    s
  }

  /** The integer `n` nearest to `100 * x`, the larger one on a tie. */
  function Hundredths(x: real): (n: nat)
    requires x >= 0.0
    ensures -0.5 < n as real - 100.0 * x <= 0.5
  {
    (100.0 * x + 0.5).Floor
  }

  /**
   * Reading back `toFixed(2)` gives a number within half a hundredth of the original:
   * `parseFloat(x.toFixed(2))` differs from a non-negative `x` by at most 0.005.
   */
  lemma {:induction false} ToFixed2ReadsBack(x: real)
    requires x >= 0.0
    ensures ParseFloat(ToFixed2(x)).Some?
    ensures var v := ParseFloat(ToFixed2(x)).value;
      v == Hundredths(x) as real / 100.0 && -0.005 <= v - x <= 0.005
  {
    var n := Hundredths(x);
    ParseFixedText(n / 100, n % 100);
    assert (n / 100) as real + (n % 100) as real / 100.0 == n as real / 100.0;
  }

  /** `parseFloat` reads `a.bb` as `a + bb/100`. */
  lemma {:induction false} ParseFixedText(a: nat, b: nat)
    requires b < 100
    ensures ParseFloat(ShowNat(a) + "." + Pad2(b)) == Some(a as real + b as real / 100.0)
  {
    var w := ShowNat(a);
    var d := Pad2(b);
    var s := w + "." + d;
    assert UnsignedPrefix(s) == Some(a as real + b as real / 100.0) by {
      UnsignedOfFixed(w, d);
      ShowNatRoundTrip(a);
    }
    assert ParseFloat(s) == UnsignedPrefix(s) by {
      assert s[0] == w[0];
      StartsWithDigit(s);
    }
  }

  /** Text that starts with a digit is read without a sign and without skipping anything. */
  lemma {:induction false} StartsWithDigit(s: string)
    requires |s| > 0 && IsDigit(s[0])
    ensures ParseFloat(s) == UnsignedPrefix(s)
  {
    assert !IsJsSpace(s[0]);
    assert TrimStart(s) == s;
  }

  lemma {:induction false} UnsignedOfFixed(w: string, d: string)
    requires |w| >= 1 && AllDigits(w) && |d| == 2 && AllDigits(d)
    ensures UnsignedPrefix(w + "." + d) == Some(DigitsValue(w) as real + DigitsValue(d) as real / 100.0)
  {
    FixedValue(w, d, w + "." + d);
  }

  /** `w.d` reads as the value of `w` plus that of `d` over a hundred. */
  lemma {:induction false} FixedValue(w: string, d: string, s: string)
    requires |w| >= 1 && AllDigits(w) && |d| == 2 && AllDigits(d) && s == w + "." + d
    ensures UnsignedPrefix(s) == Some(DigitsValue(w) as real + DigitsValue(d) as real / 100.0)
  {
    var i := |w|;
    FixedShape(w, d);
    UnsignedPrefixDecimal(s, i, 2);
    SameDigits(UnsignedPrefix(s), s[..i], w, s[i + 1..][..2], d);
  }

  lemma {:induction false} SameDigits(r: Option<real>, a: string, a': string, b: string, b': string)
    requires AllDigits(a) && AllDigits(b) && |b| == 2
    requires r == Some(DigitsValue(a) as real + Fraction(b)) && a == a' && b == b'
    ensures r == Some(DigitsValue(a') as real + DigitsValue(b') as real / 100.0)
  {
    assert Pow10(2) == 100.0 by {
      assert Pow10(1) == 10.0;
    }
  }

  /** The shape of `w.d`: the digits of `w`, the point, then the two digits of `d`. */
  lemma {:induction false} FixedShape(w: string, d: string)
    requires |w| >= 1 && AllDigits(w) && |d| == 2 && AllDigits(d)
    ensures var s := w + "." + d;
      && |w| < |s| && LeadingDigits(s) == |w| && s[|w|] == '.' && LeadingDigits(s[|w| + 1..]) == 2
      && s[..|w|] == w && s[|w| + 1..][..2] == d
  {
    var s := w + "." + d;
    assert s[..|w|] == w;
    AllDigitsLeadingThenStop(s, |w|);
    assert s[|w| + 1..] == d;
    AllDigitsLeading(d);
  }

  /** A literal of digits, a point and fraction digits, with nothing after, reads as their value. */
  lemma {:induction false} UnsignedPrefixDecimal(u: string, i: nat, f: nat)
    requires i > 0 && i < |u| && LeadingDigits(u) == i && u[i] == '.'
    requires LeadingDigits(u[i + 1..]) == f && i + 1 + f == |u|
    ensures UnsignedPrefix(u) == Some(DigitsValue(u[..i]) as real + Fraction(u[i + 1..][..f]))
  {
    MantissaPoint(u, i, f);
    NoExponent(u[i + 1 + f..]);
  }

  /** The decimal part of digits, a point and fraction digits. */
  lemma {:induction false} MantissaPoint(u: string, i: nat, f: nat)
    requires i < |u| && LeadingDigits(u) == i && u[i] == '.'
    requires LeadingDigits(u[i + 1..]) == f && (i > 0 || f > 0)
    ensures Mantissa(u) == Some((DigitsValue(u[..i]) as real + Fraction(u[i + 1..][..f]), i + 1 + f))
  {
  }

  lemma {:induction false} NoExponent(e: string)
    requires |e| == 0
    ensures Exponent(e).None?
  {
  }

  lemma {:induction false} AllDigitsLeadingThenStop(s: string, k: nat)
    requires k < |s| && AllDigits(s[..k]) && !IsDigit(s[k])
    ensures LeadingDigits(s) == k
  {
    if k > 0 {
      assert s[1..][..k - 1] == s[..k][1..];
      AllDigitsLeadingThenStop(s[1..], k - 1);
    }
  }
}
