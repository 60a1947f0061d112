/** When a number written with a fraction or an exponent is read as binary64 zero. */
module Decimals {
  import opened JsonText
  import G = JsonGrammar

  function Power(base: nat, n: nat): nat {
    if n == 0 then 1 else base * Power(base, n - 1)
  }

  predicate EndsMantissa(s: string) { s == "" || s[0] == 'e' || s[0] == 'E' }

  /** The digits in front of the exponent, without the point. */
  function MantissaDigits(s: string): (digits: string)
    ensures forall i | 0 <= i < |digits| :: IsDigit(digits[i])
  {
    if EndsMantissa(s) then ""
    else (if IsDigit(s[0]) then [s[0]] else "") + MantissaDigits(s[1..])
  }

  /** How many of them follow the point. */
  function Places(s: string, point: bool): nat {
    if EndsMantissa(s) then 0
    else (if point && IsDigit(s[0]) then 1 else 0) + Places(s[1..], point || s[0] == '.')
  }

  function Exponent(s: string): int {
    if s == "" then 0
    else if !EndsMantissa(s) then Exponent(s[1..])
    else
      var signed := |s| > 1 && (s[1] == '-' || s[1] == '+');
      var digits := s[if signed then 2 else 1..];
      Negate(signed && s[1] == '-', NumberOf(digits[..DigitCount(digits)]))
  }

  /** The least positive binary64 number is 2^-1074, and half of it rounds to zero. */
  const HALF_LEAST := 1075

  /** mantissa * 10^scale is at most half the least positive number. */
  predicate RoundsToZero(mantissa: nat, scale: int) {
    mantissa == 0 || (scale < 0 && mantissa * Power(2, HALF_LEAST) <= Power(10, -scale))
  }

  /** The number is read as 0.0 or -0.0. */
  predicate DecimalZero(spelling: string) {
    !IsWord(spelling) && RoundsToZero(NumberOf(MantissaDigits(spelling)), Exponent(spelling) - Places(spelling, false))
  }

  // ---------- where numbers as written and as read part ----------

  lemma {:induction false} PowerAdd(base: nat, a: nat, b: nat)
    ensures Power(base, a + b) == Power(base, a) * Power(base, b)
  {
    if a > 0 {
      PowerAdd(base, a - 1, b);
      Assoc(base, Power(base, a - 1), Power(base, b));
    }
  }

  lemma Assoc(a: nat, b: nat, c: nat)
    ensures (a * b) * c == a * (b * c)
  {
  }

  lemma {:induction false} PowerOfPower(base: nat, a: nat, b: nat)
    ensures Power(Power(base, a), b) == Power(base, a * b)
  {
    if b > 0 {
      PowerOfPower(base, a, b - 1);
      PowerAdd(base, a, a * (b - 1));
      assert a * b == a + a * (b - 1);
    }
  }

  lemma Product(a: nat, b: nat, x: nat, y: nat)
    requires 0 < a < b && 0 < x <= y
    ensures 0 < a * x < b * y
  {
    assert a * x <= a * y < b * y;
  }

  lemma {:induction false} PowerLess(a: nat, b: nat, n: nat)
    requires 0 < a < b
    ensures 0 < Power(a, n) <= Power(b, n) && (n > 0 ==> Power(a, n) < Power(b, n))
  {
    if n > 0 {
      PowerLess(a, b, n - 1);
      Product(a, b, Power(a, n - 1), Power(b, n - 1));
    }
  }

  lemma {:induction false} PowerGrows(base: nat, n: nat, m: nat)
    requires base > 0 && n <= m
    ensures 0 < Power(base, n) <= Power(base, m)
    decreases m
  {
    if m > n {
      PowerGrows(base, n, m - 1);
      var below := Power(base, m - 1);
      assert base * below >= below;
    } else if n > 0 {
      PowerGrows(base, n - 1, m - 1);
    }
  }

  /** (a + d)^n is at least the first two terms of its expansion. */
  lemma {:induction false} Bernoulli(a: nat, d: nat, n: nat)
    ensures Power(a + d, n + 1) >= Power(a, n + 1) + (n + 1) * d * Power(a, n)
  {
    if n > 0 {
      Bernoulli(a, d, n - 1);
      var whole, x, y := Power(a + d, n), Power(a, n), Power(a, n - 1);
      assert Power(a + d, n + 1) == (a + d) * whole && Power(a, n + 1) == a * x && x == a * y;
      hide Power;
      Expand(a, d, n, whole, x, y);
    } else {
      assert Power(a + d, 1) == (a + d) * Power(a + d, 0) && Power(a, 1) == a * Power(a, 0);
    }
  }

  lemma Expand(a: nat, d: nat, n: nat, whole: nat, x: nat, y: nat)
    requires whole >= x + n * d * y && x == a * y
    ensures (a + d) * whole >= a * x + (n + 1) * d * x
  {
    var e := n * d;
    var f := e * y;
    Below(x + f, whole, a + d);
    Spread(x, f, a + d);
    Spread(a, d, x);
    Spread(a, d, f);
    Swapped(a, e, y);
    Spread(e, d, x);
    Spread(n, 1, d);
    hide *;
    assert (a + d) * (x + f) == a * x + d * x + (a * f + d * f);
    assert a * f == e * x && (n + 1) * d == e + d;
  }

  lemma Spread(x: nat, y: nat, factor: nat)
    ensures (x + y) * factor == x * factor + y * factor && factor * (x + y) == x * factor + y * factor
  {
  }

  lemma Swapped(a: nat, e: nat, y: nat)
    ensures a * (e * y) == e * (a * y)
  {
  }

  lemma Below(x: nat, y: nat, factor: nat)
    requires x <= y
    ensures factor * x <= factor * y
  {
  }

  lemma CubesBelow(p: nat, q: nat, x: nat, y: nat)
    requires p * x <= q * y
    ensures p * p * p * (x * x * x) <= q * q * q * (y * y * y)
  {
    var u, v := p * x, q * y;
    Below(u, v, u);
    Below(u, v, v);
    Below(u * u, v * v, u);
    Below(u, v, v * v);
    assert u * u * u <= v * v * v;
    assert u * u * u == p * p * p * (x * x * x) && v * v * v == q * q * q * (y * y * y);
  }

  lemma Cube(base: nat, n: nat)
    ensures Power(base, 3 * n) == Power(base, n) * Power(base, n) * Power(base, n)
  {
    PowerAdd(base, n, n);
    PowerAdd(base, n + n, n);
    assert n + n + n == 3 * n;
  }

  /** 1.075^3 is at most 1.25, and 1.25^3 below 2. */
  lemma Ninth(x: nat, y: nat, x': nat, y': nat)
    requires 40 * x <= 43 * y && x' == x * x * x && y' == y * y * y
    ensures x' * x' * x' <= 2 * (y' * y' * y')
  {
    CubesBelow(40, 43, x, y);
    assert 4 * x' <= 5 * y';
    CubesBelow(4, 5, x', y');
  }

  lemma TwentySeven()
    ensures Power(1024, 27) <= 2 * Power(1000, 27)
  {
    hide *;
    ThreesAre();
    Cube(1024, 3);
    Cube(1000, 3);
    Cube(1024, 9);
    Cube(1000, 9);
    Ninth(Power(1024, 3), Power(1000, 3), Power(1024, 9), Power(1000, 9));
  }

  /** 1.024^3 is at most 1.075. */
  lemma ThreesAre()
    ensures 40 * Power(1024, 3) <= 43 * Power(1000, 3)
  {
    assert Power(1024, 3) == 1024 * 1024 * 1024 && Power(1000, 3) == 1000 * 1000 * 1000;
  }

  lemma FourthBelow(x: nat, y: nat)
    requires x <= 2 * y
    ensures x * x * x * x <= 16 * (y * y * y * y)
  {
    Below(x, 2 * y, x);
    Below(x, 2 * y, 2 * y);
    assert x * x <= 4 * (y * y);
    Below(x * x, 4 * (y * y), x * x);
    Below(x * x, 4 * (y * y), 4 * (y * y));
    assert x * x * (x * x) <= 16 * (y * y * (y * y));
  }

  lemma Fourth(base: nat, n: nat)
    ensures Power(base, 4 * n) == Power(base, n) * Power(base, n) * Power(base, n) * Power(base, n)
  {
    Cube(base, n);
    PowerAdd(base, 3 * n, n);
  }

  lemma PowersAre()
    ensures Power(2, 5) == 32 && Power(2, 10) == 1024 && Power(10, 3) == 1000 && Power(10, 5) == 100000
  {
    assert Power(2, 5) == 32;
    PowerAdd(2, 5, 5);
  }

  lemma HalfIs()
    ensures HALF_LEAST == 1075
  {
  }

  /** 2^1080 = 1024^108 is at most 16 * 10^324. */
  lemma TwosBelowTens()
    ensures Power(2, HALF_LEAST) <= Power(10, 324)
  {
    hide *;
    HalfIs();
    PowersAre();
    TwentySeven();
    PowerOfPower(2, 10, 108);
    PowerOfPower(10, 3, 108);
    PowerAdd(2, 1075, 5);
    Fourth(1024, 27);
    Fourth(1000, 27);
    FourthBelow(Power(1024, 27), Power(1000, 27));
  }

  /** With a^106 = t: (a + 24)^107 is at least 3568 * t when a is a thousand. */
  lemma Thousands()
    ensures Power(1024, 107) >= 3568 * Power(1000, 106)
  {
    hide *;
    Bernoulli(1000, 24, 106);
    PowerAdd(1000, 1, 106);
    PowerOne(1000);
  }

  lemma PowerOne(base: nat)
    ensures Power(base, 1) == base
  {
    assert Power(base, 0) == 1;
  }

  /** 1024^107 is at least 3.568 * 1000^107, and 2^1075 is 32 times that. */
  lemma TensBelowTwos()
    ensures Power(10, 323) < Power(2, HALF_LEAST)
  {
    hide *;
    HalfIs();
    PowersAre();
    Thousands();
    PowerOfPower(2, 10, 107);
    PowerOfPower(10, 3, 106);
    PowerAdd(2, 5, 1070);
    PowerAdd(10, 5, 318);
    PowerGrows(10, 0, 318);
  }

  predicate AllDigits(s: string) { forall i | 0 <= i < |s| :: IsDigit(s[i]) }

  lemma PowerParts(digits: string)
    requires digits != "" && AllDigits(digits)
    ensures
      var s := "1e-" + digits;
      NumberOf(MantissaDigits(s)) == 1 && Places(s, false) == 0 && Exponent(s) + NumberOf(digits) == 0 && !IsWord(s)
  {
    var s := "1e-" + digits;
    var t := s[1..];
    assert t[2..] == digits && EndsMantissa(t) && !EndsMantissa(s);
    CountedDigits(digits, "");
    assert digits + "" == digits && digits[..|digits|] == digits;
    assert MantissaDigits(t) == "" && MantissaDigits(s) == "1";
    assert "1"[..0] == "";
    assert NumberOf("1") == 1;
    hide DigitCount;
    hide MantissaDigits;
    hide NumberOf;
  }

  /** Ten to minus k is no zero as written; it is read as zero exactly from k = 324 on. */
  lemma TinyPowers(digits: string)
    requires digits != "" && AllDigits(digits)
    ensures DecimalZero("1e-" + digits) <==> NumberOf(digits) >= 324
  {
    PowerParts(digits);
    var k: int := NumberOf(digits);
    hide *;
    OneRounds(k);
    ZeroIs("1e-" + digits, k);
  }

  lemma ZeroIs(s: string, k: int)
    requires NumberOf(MantissaDigits(s)) == 1 && Places(s, false) == 0 && Exponent(s) == -k && !IsWord(s)
    ensures DecimalZero(s) <==> RoundsToZero(1, -k)
  {
    hide RoundsToZero;
    hide NumberOf;
    hide MantissaDigits;
    hide Places;
    hide Exponent;
  }

  lemma OneRounds(k: int)
    requires k >= 0
    ensures RoundsToZero(1, -k) <==> k >= 324
  {
    TwosBelowTens();
    TensBelowTwos();
    if k >= 324 { PowerGrows(10, 324, k); } else { PowerGrows(10, k, 323); }
    hide Power;
  }

  // ---------- the parts of a spelling ----------

  function Digits(fraction: string): string { if fraction == "" then "" else fraction[1..] }

  /** The power of ten an exponent stands for. */
  function PowerOf(power: string): int
    requires G.Power(power)
  {
    if power == "" then 0
    else if power[1] == '-' then PowerDigits(power, 2); 0 - NumberOf(power[2..])
    else if power[1] == '+' then PowerDigits(power, 2); NumberOf(power[2..])
    else PowerDigits(power, 1); NumberOf(power[1..])
  }

  lemma PowerDigits(power: string, from: nat)
    requires G.Power(power) && power != "" && (from == 2 <==> power[1] == '-' || power[1] == '+') && 1 <= from <= 2
    ensures from <= |power| && forall i | 0 <= i < |power[from..]| :: IsDigit(power[from..][i])
  {
  }

  lemma {:induction false} DigitsMantissa(w: string, rest: string)
    requires AllDigits(w)
    ensures MantissaDigits(w + rest) == w + MantissaDigits(rest)
    ensures forall point :: Places(w + rest, point) == (if point then |w| else 0) + Places(rest, point)
    ensures Exponent(w + rest) == Exponent(rest)
  {
    if w == "" {
      assert w + rest == rest;
    } else {
      assert (w + rest)[1..] == w[1..] + rest;
      DigitsMantissa(w[1..], rest);
      hide NumberOf;
      hide DigitCount;
    }
  }

  lemma PowerEnds(power: string)
    requires G.Power(power)
    ensures MantissaDigits(power) == "" && Places(power, false) == 0 && Places(power, true) == 0 && Exponent(power) == PowerOf(power)
  {
    if power != "" {
      var from := if power[1] == '-' || power[1] == '+' then 2 else 1;
      PowerDigits(power, from);
      var digits := power[from..];
      assert digits + "" == digits && digits[..|digits|] == digits;
      CountedDigits(digits, "");
      hide NumberOf;
      hide DigitCount;
    }
  }

  lemma FractionEnds(fraction: string, power: string)
    requires G.Fraction(fraction) && G.Power(power)
    ensures MantissaDigits(fraction + power) == Digits(fraction) && Places(fraction + power, false) == |Digits(fraction)|
    ensures Exponent(fraction + power) == PowerOf(power)
  {
    PowerEnds(power);
    if fraction == "" {
      assert fraction + power == power;
    } else {
      var s := fraction + power;
      assert s[1..] == fraction[1..] + power && fraction[1..] + "" == fraction[1..];
      DigitsMantissa(fraction[1..], power);
      hide NumberOf;
      hide Exponent;
      hide PowerOf;
      PointSkipped(s);
    }
  }

  lemma PointSkipped(s: string)
    requires s != "" && s[0] == '.'
    ensures MantissaDigits(s) == MantissaDigits(s[1..]) && Places(s, false) == Places(s[1..], true)
    ensures Exponent(s) == Exponent(s[1..])
  {
  }

  lemma MinusSkipped(s: string)
    requires s != "" && s[0] == '-'
    ensures MantissaDigits(s) == MantissaDigits(s[1..]) && Places(s, false) == Places(s[1..], false)
    ensures Exponent(s) == Exponent(s[1..])
  {
  }

  lemma UnsignedIs(w: string, f: string, e: string)
    requires G.Whole(w) && G.Fraction(f) && G.Power(e)
    ensures MantissaDigits(w + f + e) == w + Digits(f) && Places(w + f + e, false) == |Digits(f)|
    ensures Exponent(w + f + e) == PowerOf(e)
  {
    assert w + f + e == w + (f + e);
    DigitsMantissa(w, f + e);
    FractionEnds(f, e);
    hide *;
  }

  lemma PartsMantissa(s: string, w: string, f: string, e: string)
    requires G.Parts(s, w, f, e)
    ensures G.Power(e) && MantissaDigits(s) == w + Digits(f) && Places(s, false) == |Digits(f)| && Exponent(s) == PowerOf(e)
    ensures !IsWord(s)
  {
    UnsignedIs(w, f, e);
    NoWordParts(s, w, f, e);
    if s != w + f + e {
      assert s[1..] == w + f + e;
      MinusSkipped(s);
    }
    hide MantissaDigits;
    hide Places;
    hide Exponent;
    hide PowerOf;
  }

  /** A number written with these parts is read as zero exactly when it is at most half the least positive one. */
  lemma DecimalZeroIff(s: string, w: string, f: string, e: string)
    requires G.Parts(s, w, f, e)
    ensures AllDigits(w + Digits(f)) && G.Power(e)
    ensures
      var mantissa, scale := NumberOf(w + Digits(f)), PowerOf(e) - |Digits(f)|;
      DecimalZero(s) <==> mantissa == 0 || (scale < 0 && mantissa * Power(2, 1075) <= Power(10, -scale))
  {
    hide *;
    PartsMantissa(s, w, f, e);
    HalfIs();
    ZeroUnfolded(s, w + Digits(f), PowerOf(e) - |Digits(f)|);
  }

  lemma ZeroUnfolded(s: string, digits: string, scale: int)
    requires MantissaDigits(s) == digits && Exponent(s) - Places(s, false) == scale && !IsWord(s)
    ensures AllDigits(digits)
    ensures DecimalZero(s) <==> NumberOf(digits) == 0 || (scale < 0 && NumberOf(digits) * Power(2, HALF_LEAST) <= Power(10, -scale))
  {
    hide MantissaDigits;
    hide Places;
    hide Exponent;
    hide NumberOf;
    hide Power;
  }

  lemma NoWordParts(s: string, w: string, f: string, e: string)
    requires G.Parts(s, w, f, e)
    ensures !IsWord(s)
  {
    assert s[0] == w[0] || (s[0] == '-' && s[1] == w[0]);
  }
}
