/** Finite binary64 numbers (section 3.3 of IEEE 754-2019) and the integer mantissa and exponent stored for them. */
module Binary64 {
  const MIN_EXPONENT := -1074
  const MAX_EXPONENT := 971
  const MAX_MANTISSA := 0x1F_FFFF_FFFF_FFFF
  const HIDDEN_BIT := 0x10_0000_0000_0000

  function Pow2(n: nat): (p: nat)
    ensures p >= 1
  {
    if n == 0 then 1 else 2 * Pow2(n - 1)
  }

  /** (-1)^negative * c * 2^q. */
  datatype Finite = Finite(negative: bool, c: nat, q: int)

  /** The one representation each finite value has: normal, or subnormal with the least exponent. */
  predicate Canonical(d: Finite) {
    && MIN_EXPONENT <= d.q <= MAX_EXPONENT && d.c <= MAX_MANTISSA
    && (d.c >= HIDDEN_BIT || d.q == MIN_EXPONENT)
  }

  /** m * 2^e in units of the least subnormal; an integer for every exponent from -1074 on. */
  function Units(m: int, e: int): int
    requires e >= MIN_EXPONENT
  {
    var places: nat := e - MIN_EXPONENT;
    m * Pow2(places)
  }

  function Signed(d: Finite): int {
    var c: int := d.c;
    if d.negative then -c else c
  }

  function Value(d: Finite): int
    requires Canonical(d)
  {
    Units(Signed(d), d.q)
  }

  // ---------- the encoder ----------

  /** Halves numerator and denominator 2^k together while both are even. */
  function LowestTerms(n: int, k: nat): (r: (int, nat))
    ensures r.1 <= k && r.0 * Pow2(k - r.1) == n && (r.1 == 0 || r.0 % 2 == 1)
    decreases k
  {
    if k == 0 || n % 2 == 1 then (n, k) else LowestTerms(n / 2, k - 1)
  }

  /** The ratio n / 2^k in lowest terms. */
  function AsIntegerRatio(d: Finite): (int, nat)
    requires Canonical(d)
  {
    LowestTerms(Value(d), -MIN_EXPONENT)
  }

  function BitLength(n: nat): nat {
    if n == 0 then 0 else 1 + BitLength(n / 2)
  }

  function Abs(n: int): nat { if n < 0 then -n else n }

  function Max(a: int, b: int): int { if a < b then b else a }

  /** A right shift of a signed integer rounds towards minus infinity. */
  function ShiftRight(n: int, places: nat): int { n / Pow2(places) }

  datatype Mantissa = Whole(m: int) | SignedZero(negative: bool)

  datatype Encoded = Encoded(m: Mantissa, e: int)

  function Encode(d: Finite): Encoded
    requires Canonical(d)
  {
    if d.c == 0 then Encoded(SignedZero(d.negative), 0)
    else
      var (numerator, k) := AsIntegerRatio(d);
      var shift := Max(0, BitLength(Abs(numerator)) - 53);
      Encoded(Whole(ShiftRight(numerator, shift)), shift - k)
  }

  // ---------- the validator and the decoder ----------

  predicate Accepted(x: Encoded) {
    && MIN_EXPONENT <= x.e <= MAX_EXPONENT
    && (x.m.Whole? ==> -MAX_MANTISSA <= x.m.m <= MAX_MANTISSA)
  }

  /** The floating-point product m * 2^e, which is exact: shift the mantissa up while it fits. */
  function Normalised(negative: bool, c: nat, q: int): (d: Finite)
    requires c <= MAX_MANTISSA && MIN_EXPONENT <= q <= MAX_EXPONENT
    ensures Canonical(d) && d.negative == negative && Units(d.c, d.q) == Units(c, q)
    decreases q - MIN_EXPONENT
  {
    if c >= HIDDEN_BIT || q == MIN_EXPONENT then Finite(negative, c, q)
    else
      assert Pow2(q - MIN_EXPONENT) == 2 * Pow2(q - 1 - MIN_EXPONENT);
      Normalised(negative, 2 * c, q - 1)
  }

  function Decode(x: Encoded): Finite
    requires Accepted(x)
  {
    match x.m
    case SignedZero(negative) => Finite(negative, 0, MIN_EXPONENT)
    case Whole(m) => Normalised(m < 0, Abs(m), x.e)
  }

  // ---------- powers of two ----------

  lemma {:induction false} PowAdd(a: nat, b: nat)
    ensures Pow2(a + b) == Pow2(a) * Pow2(b)
  {
    if a > 0 { PowAdd(a - 1, b); }
  }

  lemma PowEven(a: nat)
    requires a > 0
    ensures Pow2(a) % 2 == 0
  {
    var half := Pow2(a - 1);
    assert Pow2(a) == 2 * half;
    hide Pow2;
    EvenDouble(half);
  }

  lemma EvenDouble(half: int)
    ensures (2 * half) % 2 == 0
  {
  }

  lemma Cancel(x: int, y: int, p: nat)
    requires p > 0 && x * p == y * p
    ensures x == y
  {
    if x < y { Grows(x, y, p); }
    if y < x { Grows(y, x, p); }
  }

  lemma Grows(x: int, y: int, p: nat)
    requires p > 0 && x < y
    ensures x * p + p <= y * p
  {
    AtLeast(y - x, p);
    Distribute(y, x, p);
  }

  lemma AtLeast(x: int, p: nat)
    requires x >= 1
    ensures x * p >= p
  {
    var rest := x - 1;
    Distribute(x, rest, p);
    assert rest * p >= 0;
  }

  lemma Distribute(x: int, y: int, p: int)
    ensures (x - y) * p == x * p - y * p
  {
  }

  lemma Negated(x: int, p: int)
    ensures (-x) * p == -(x * p)
  {
  }

  lemma Assoc(x: int, p: int, r: int)
    ensures (x * p) * r == x * (p * r)
  {
  }

  lemma EvenFactor(x: int, p: nat)
    requires p % 2 == 0
    ensures (x * p) % 2 == 0
  {
    var half := p / 2;
    assert p == 2 * half;
    Assoc(x, half, 2);
    assert x * p == 2 * (x * half);
  }

  lemma DividedBack(c: int, p: nat)
    requires p > 0
    ensures (c * p) / p == c
  {
    var r := c * p;
    Quotient(r, p);
    var q := r / p;
    if c < q { Grows(c, q, p); }
    if q < c { Grows(q, c, p); }
  }

  lemma Quotient(r: int, p: nat)
    requires p > 0
    ensures (r / p) * p <= r < (r / p) * p + p
  {
  }

  /** The length is what puts a number between two powers. */
  lemma {:induction false} LengthOf(n: nat, length: nat)
    requires length > 0 && Pow2(length - 1) <= n < Pow2(length)
    ensures BitLength(n) == length
    decreases length
  {
    if length > 1 {
      LengthOf(n / 2, length - 1);
    } else {
      assert Pow2(0) == 1 && Pow2(1) == 2;
      assert BitLength(n / 2) == 0;
    }
  }

  lemma {:induction false} LengthAtMost(n: nat, length: nat)
    requires n < Pow2(length)
    ensures BitLength(n) <= length
    decreases length
  {
    if n > 0 && length > 0 { LengthAtMost(n / 2, length - 1); }
  }

  lemma Bounds()
    ensures Pow2(52) == HIDDEN_BIT && Pow2(53) == MAX_MANTISSA + 1
  {
    PowSmall();
    hide Pow2;
    PowAdd(4, 4);
    PowAdd(8, 8);
    PowAdd(16, 4);
    PowAdd(16, 16);
    PowAdd(32, 20);
    PowAdd(1, 52);
  }

  lemma PowSmall()
    ensures Pow2(1) == 2 && Pow2(4) == 16
  {
  }

  lemma PowOne()
    ensures Pow2(1) == 2 && Pow2(0) == 1
  {
  }

  // ---------- the theorem ----------

  /** An odd numerator is no larger than the significand it came from. */
  lemma OddFits(n: int, a: nat, c: int, b: nat)
    requires n % 2 == 1 && n * Pow2(a) == c * Pow2(b)
    ensures b <= a && n * Pow2(a - b) == c && Abs(n) <= Abs(c)
  {
    if b > a {
      PowAdd(b - a, a);
      PowEven(b - a);
      hide Pow2;
      Assoc(c, Pow2(b - a), Pow2(a));
      Cancel(n, c * Pow2(b - a), Pow2(a));
      EvenFactor(c, Pow2(b - a));
    } else {
      PowAdd(a - b, b);
      hide Pow2;
      Assoc(n, Pow2(a - b), Pow2(b));
      Cancel(n * Pow2(a - b), c, Pow2(b));
      Smaller(n, Pow2(a - b), c);
    }
  }

  lemma Smaller(n: int, p: nat, c: int)
    requires p >= 1 && n * p == c
    ensures Abs(n) <= Abs(c)
  {
    Negated(n, p);
    var rest := p - 1;
    assert Abs(n) * rest >= 0;
    assert Abs(n) * p == Abs(n) + Abs(n) * rest;
  }

  lemma NoShift(n: int)
    requires Abs(n) <= MAX_MANTISSA
    ensures Max(0, BitLength(Abs(n)) - 53) == 0 && ShiftRight(n, 0) == n
  {
    Bounds();
    PowOne();
    hide Pow2;
    LengthAtMost(Abs(n), 53);
  }

  /** A numerator of a whole number: it is the significand shifted up, so the right shift drops zeros alone. */
  lemma WholeNumber(d: Finite, n: int)
    requires Canonical(d) && d.q >= 0 && n == Signed(d) * Pow2(d.q)
    ensures Max(0, BitLength(Abs(n)) - 53) == d.q && ShiftRight(n, d.q) == Signed(d)
  {
    var p := Pow2(d.q);
    Bounds();
    PowAdd(52, d.q);
    PowAdd(53, d.q);
    hide Pow2;
    Negated(d.c, p);
    assert d.c * p >= 0;
    Scaled(d.c, HIDDEN_BIT, MAX_MANTISSA + 1, p);
    LengthOf(Abs(n), 53 + d.q);
    DividedBack(Signed(d), p);
  }

  lemma Scaled(c: nat, low: nat, high: nat, p: nat)
    requires low <= c < high && p >= 1
    ensures low * p <= c * p < high * p
  {
    Grows(c, high, p);
    if low < c { Grows(low, c, p); }
  }

  lemma RatioIs(d: Finite)
    requires Canonical(d)
    ensures
      var (n, k) := AsIntegerRatio(d);
      k <= 1074 && n * Pow2(1074 - k) == Signed(d) * Pow2(d.q + 1074) && (k == 0 || n % 2 == 1)
  {
    hide Pow2;
    hide LowestTerms;
  }

  /** The shifted numerator and the exponent are in bounds and reproduce the value. */
  ghost predicate PartsExact(d: Finite, n: int, k: nat)
    requires Canonical(d)
  {
    var shift := Max(0, BitLength(Abs(n)) - 53);
    && MIN_EXPONENT <= shift - k <= MAX_EXPONENT && Abs(ShiftRight(n, shift)) <= MAX_MANTISSA
    && Units(ShiftRight(n, shift), shift - k) == Value(d)
  }

  lemma UnshiftedParts(d: Finite, n: int, k: nat)
    requires Canonical(d) && k <= 1074 && n * Pow2(1074 - k) == Signed(d) * Pow2(d.q + 1074)
    requires Abs(n) <= MAX_MANTISSA
    ensures PartsExact(d, n, k)
  {
    NoShift(n);
    hide Pow2;
    hide BitLength;
    hide ShiftRight;
  }

  lemma EncodeParts(d: Finite, n: int, k: nat)
    requires Canonical(d) && k <= 1074 && n * Pow2(1074 - k) == Signed(d) * Pow2(d.q + 1074) && (k == 0 || n % 2 == 1)
    ensures PartsExact(d, n, k)
  {
    hide PartsExact;
    if k > 0 {
      OddFits(n, 1074 - k, Signed(d), d.q + 1074);
      hide Pow2;
      UnshiftedParts(d, n, k);
    } else if d.q >= 0 {
      PowAdd(d.q, 1074);
      hide Pow2;
      Assoc(Signed(d), Pow2(d.q), Pow2(1074));
      Cancel(n, Signed(d) * Pow2(d.q), Pow2(1074));
      ShiftedParts(d, n);
    } else {
      PowAdd(-d.q, d.q + 1074);
      hide Pow2;
      Assoc(n, Pow2(-d.q), Pow2(d.q + 1074));
      Cancel(n * Pow2(-d.q), Signed(d), Pow2(d.q + 1074));
      Smaller(n, Pow2(-d.q), Signed(d));
      UnshiftedParts(d, n, k);
    }
  }

  lemma ShiftedParts(d: Finite, n: int)
    requires Canonical(d) && d.q >= 0 && n == Signed(d) * Pow2(d.q)
    ensures PartsExact(d, n, 0)
  {
    WholeNumber(d, n);
    hide Pow2;
    hide BitLength;
    hide ShiftRight;
  }

  /** Mantissa and exponent are in the validator's bounds and stand for the value exactly. */
  lemma EncodeExact(d: Finite)
    requires Canonical(d)
    ensures Accepted(Encode(d))
    ensures Encode(d).m.SignedZero? <==> d.c == 0
    ensures Encode(d).m.Whole? ==> Units(Encode(d).m.m, Encode(d).e) == Value(d)
  {
    if d.c == 0 {
      ZeroEncoded(d);
    } else {
      var (n, k) := AsIntegerRatio(d);
      RatioIs(d);
      EncodeParts(d, n, k);
      RatioEncoded(d, n, k);
    }
    hide *;
  }

  lemma ZeroEncoded(d: Finite)
    requires Canonical(d) && d.c == 0
    ensures Encode(d) == Encoded(SignedZero(d.negative), 0) && Accepted(Encode(d))
  {
    hide AsIntegerRatio;
    hide BitLength;
    hide ShiftRight;
  }

  lemma RatioEncoded(d: Finite, n: int, k: nat)
    requires Canonical(d) && d.c != 0 && AsIntegerRatio(d) == (n, k) && PartsExact(d, n, k)
    ensures Accepted(Encode(d)) && Encode(d).m.Whole? && Units(Encode(d).m.m, Encode(d).e) == Value(d)
  {
    hide AsIntegerRatio;
    hide BitLength;
    hide ShiftRight;
    hide Units;
    hide Value;
  }

  lemma SameSign(n: int, p: nat, m: int, r: nat)
    requires p >= 1 && r >= 1 && n * p == m * r
    ensures n < 0 <==> m < 0
  {
    if n < 0 { Grows(n, 0, p); }
    if m < 0 { Grows(m, 0, r); }
    if n >= 0 { assert n * p >= 0; }
    if m >= 0 { assert m * r >= 0; }
  }

  /** A finite value has one canonical representation, apart from the two zeros. */
  lemma CanonicalUnique(x: Finite, y: Finite)
    requires Canonical(x) && Canonical(y) && x.negative == y.negative && Units(x.c, x.q) == Units(y.c, y.q)
    ensures x == y
  {
    hide Pow2;
    if x.q < y.q {
      HigherExponent(x, y);
    } else if y.q < x.q {
      HigherExponent(y, x);
    } else {
      Cancel(x.c, y.c, Pow2(x.q + 1074));
    }
  }

  lemma HigherExponent(x: Finite, y: Finite)
    requires Canonical(x) && Canonical(y) && x.q < y.q
    ensures Units(x.c, x.q) < Units(y.c, y.q)
  {
    PowAdd(y.q - x.q, x.q + 1074);
    PowEven(y.q - x.q);
    var p, r := Pow2(x.q + 1074), Pow2(y.q - x.q);
    hide Pow2;
    assert r >= 2;
    Twice(y.c, r);
    Assoc(y.c, r, p);
    Scaled(x.c, 0, y.c * r, p);
  }

  lemma Twice(c: nat, r: nat)
    requires r >= 2
    ensures c * r >= 2 * c
  {
    assert c * (r - 2) >= 0;
  }

  /** What the validator accepts is a finite binary64 value, and decoding gives that very value. */
  lemma DecodeExact(x: Encoded)
    requires Accepted(x)
    ensures Canonical(Decode(x))
    ensures x.m.Whole? ==> Value(Decode(x)) == Units(x.m.m, x.e) && Decode(x).negative == (x.m.m < 0)
    ensures x.m.SignedZero? ==> Decode(x) == Finite(x.m.negative, 0, MIN_EXPONENT)
  {
    hide Pow2;
    hide Normalised;
    if x.m.Whole? {
      var d := Decode(x);
      Negated(d.c, Pow2(d.q + 1074));
      Negated(Abs(x.m.m), Pow2(x.e + 1074));
    }
  }

  /** Every finite value, both zeros included, comes back as it was. */
  lemma RoundTrip(d: Finite)
    requires Canonical(d)
    ensures Accepted(Encode(d)) && Decode(Encode(d)) == d
  {
    EncodeExact(d);
    var x := Encode(d);
    DecodeExact(x);
    var back := Decode(x);
    hide Pow2;
    hide Encode;
    hide Decode;
    if d.c != 0 {
      SameSign(x.m.m, Pow2(x.e + 1074), Signed(d), Pow2(d.q + 1074));
      Negated(d.c, Pow2(d.q + 1074));
      Negated(back.c, Pow2(back.q + 1074));
      CanonicalUnique(back, d);
    } else {
      ZeroBack(d);
    }
  }

  lemma ZeroBack(d: Finite)
    requires Canonical(d) && d.c == 0
    ensures Encode(d) == Encoded(SignedZero(d.negative), 0) && Decode(Encode(d)) == d
  {
  }
}
