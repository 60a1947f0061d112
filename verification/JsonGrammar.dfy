/** JSON as a grammar (RFC 8259, with NaN and the infinities), and that the reader reads exactly it. */
module JsonGrammar {
  import opened Wrappers
  import opened JsonText

  // ---------- numbers ----------

  predicate Gap(s: string) { forall i | 0 <= i < |s| :: s[i] == ' ' || s[i] == '\t' || s[i] == '\n' || s[i] == '\r' }

  predicate AllDigits(s: string) { |s| > 0 && forall i | 0 <= i < |s| :: '0' <= s[i] <= '9' }

  /** No leading zero. */
  predicate Whole(s: string) { AllDigits(s) && (s[0] == '0' ==> |s| == 1) }

  predicate Fraction(s: string) { s == "" || (s[0] == '.' && AllDigits(s[1..])) }

  predicate Power(s: string) {
    s == "" || ((s[0] == 'e' || s[0] == 'E') && AllDigits(if |s| > 1 && (s[1] == '+' || s[1] == '-') then s[2..] else s[1..]))
  }

  predicate Digital(s: string) { forall i | 0 <= i < |s| :: IsDigit(s[i]) }

  ghost predicate IntForm(s: string, n: int) {
    exists digits :: Whole(digits) && Digital(digits)
      && ((s == digits && n == NumberOf(digits)) || (s == "-" + digits && n == Negate(true, NumberOf(digits))))
  }

  /** Digits, then a fraction, an exponent or both. */
  predicate Parts(s: string, whole: string, fraction: string, power: string) {
    && Whole(whole) && Fraction(fraction) && Power(power) && fraction + power != ""
    && (s == whole + fraction + power || s == "-" + whole + fraction + power)
  }

  ghost predicate DecimalForm(s: string) { exists whole, fraction, power :: Parts(s, whole, fraction, power) }

  lemma WholeIs(t: string)
    requires LeadingDigits(t) > 0
    ensures Whole(t[..LeadingDigits(t)]) && Digital(t[..LeadingDigits(t)])
  {
    var w := t[..LeadingDigits(t)];
    assert w[0] == t[0];
    hide DigitCount;
    forall i | 0 <= i < |w| ensures IsDigit(w[i]) { assert w[i] == t[i]; }
  }

  lemma FractionIs(u: string)
    ensures Fraction(u[..FractionLength(u)])
  {
    var n := FractionLength(u);
    if n > 0 {
      var f := u[..n];
      assert f[1..] == u[1..][..n - 1];
      forall i | 0 <= i < |f[1..]| ensures IsDigit(f[1..][i]) { assert f[1..][i] == u[1..][i]; }
    }
  }

  lemma PowerIs(u: string)
    ensures Power(u[..ExponentLength(u)])
  {
    var n, sign := ExponentLength(u), ExponentSign(u);
    if n > 0 {
      var e := u[..n];
      assert DigitCount(u[sign..]) >= 1;
      var d := e[sign..];
      assert d == u[sign..][..n - sign];
      forall i | 0 <= i < |d| ensures IsDigit(d[i]) { assert d[i] == u[sign..][i]; }
      assert |e| > 1 && e[0] == u[0] && e[1] == u[1];
    }
    hide DigitCount;
  }

  lemma MagnitudeRead(s: string, sign: nat)
    requires sign <= 1 && sign <= |s|
    ensures
      var t := s[sign..];
      var u := t[LeadingDigits(t)..];
      ReadMagnitude(s, sign) ==
        if LeadingDigits(t) == 0 then None
        else if TailLength(u) > 0 then Some((Decimal(s[..sign + LeadingDigits(t) + TailLength(u)]), u[TailLength(u)..]))
        else Some((Int(Negate(sign == 1, NumberOf(t[..LeadingDigits(t)]))), u))
  {
    hide TailLength;
    hide NumberOf;
    hide DigitCount;
  }

  function Minus(sign: nat): string { if sign == 1 then "-" else "" }

  lemma DecimalParts(sign: nat, w: string, f: string, e: string)
    requires sign <= 1 && Whole(w) && Fraction(f) && Power(e) && f + e != ""
    ensures NumberForm(Decimal(Minus(sign) + w + f + e), Minus(sign) + w + f + e)
  {
    hide Whole;
    hide Fraction;
    hide Power;
    assert "" + w + f + e == w + f + e;
    assert Parts(Minus(sign) + w + f + e, w, f, e);
  }

  lemma IntParts(sign: nat, w: string)
    requires sign <= 1 && Whole(w) && Digital(w)
    ensures NumberForm(Int(Negate(sign == 1, NumberOf(w))), Minus(sign) + w)
  {
    hide Whole;
    hide Digital;
    hide NumberOf;
    assert "" + w == w;
  }

  lemma SplitAt(s: string, sign: nat, digits: nat, tail: nat)
    requires sign <= 1 && sign + digits + tail <= |s| && (sign == 1 ==> s[0] == '-')
    ensures
      var (t, u) := (s[sign..], s[sign..][digits..]);
      s == Minus(sign) + t[..digits] + u[..tail] + u[tail..] && s[..sign + digits + tail] == Minus(sign) + t[..digits] + u[..tail]
  {
  }

  /** What a number is read from. */
  lemma MagnitudeSound(s: string, sign: nat, v: Json, rest: string)
    requires sign <= 1 && sign <= |s| && (sign == 1 ==> s[0] == '-') && ReadMagnitude(s, sign) == Some((v, rest))
    ensures exists form :: s == form + rest && NumberForm(v, form)
  {
    hide *;
    var t := s[sign..];
    var digits := LeadingDigits(t);
    MagnitudeRead(s, sign);
    WholeIs(t);
    var w, u := t[..digits], t[digits..];
    var tail := TailLength(u);
    SplitAt(s, sign, digits, tail);
    if tail > 0 {
      TailIs(u);
      var f, e :| Fraction(f) && Power(e) && u[..tail] == f + e;
      DecimalParts(sign, w, f, e);
      assert Minus(sign) + w + (f + e) == Minus(sign) + w + f + e;
      assert s == (Minus(sign) + w + f + e) + rest;
    } else {
      IntParts(sign, w);
      assert u[..tail] == "" && u[tail..] == u && Minus(sign) + w + "" == Minus(sign) + w;
      assert s == (Minus(sign) + w) + rest;
    }
  }

  lemma TailLengthIs(u: string)
    ensures FractionLength(u) <= |u| && TailLength(u) == FractionLength(u) + ExponentLength(u[FractionLength(u)..])
  {
    hide FractionLength;
    hide ExponentLength;
  }

  lemma SplitTwo(u: string, n: nat, m: nat)
    requires n + m <= |u|
    ensures u[..n + m] == u[..n] + u[n..][..m]
  {
  }

  lemma TailIs(u: string)
    ensures exists f, e :: Fraction(f) && Power(e) && u[..TailLength(u)] == f + e
  {
    hide *;
    TailLengthIs(u);
    var n := FractionLength(u);
    var m := ExponentLength(u[n..]);
    FractionIs(u);
    PowerIs(u[n..]);
    SplitTwo(u, n, m);
  }

  ghost predicate NumberForm(v: Json, form: string) {
    (v.Int? && IntForm(form, v.number)) || (v.Decimal? && v.spelling == form && DecimalForm(form))
  }

  /** The first character decides that a number is read. */
  predicate StartsNumber(s: string) { s != "" && (IsDigit(s[0]) || (s[0] == '-' && |s| >= 2 && IsDigit(s[1]))) }

  lemma IntComplete(form: string, n: int, rest: string)
    requires IntForm(form, n) && Stops(rest)
    ensures StartsNumber(form) && ReadNumber(form + rest) == Some((Int(n), rest))
  {
    var digits :| Whole(digits) && Digital(digits)
      && ((form == digits && n == NumberOf(digits)) || (form == "-" + digits && n == Negate(true, NumberOf(digits))));
    var sign := if form == digits then 0 else 1;
    WholeGives(digits);
    hide *;
    CountedDigits(digits, rest);
    NoTail(rest);
    SignedText(form, digits, sign, rest);
    StartIs(form, sign);
    StopsIs(rest);
    NumberRead(form + rest, sign, digits, rest);
    NumberSign(form + rest, sign);
    NegateIs(sign, NumberOf(digits));
  }

  lemma NegateIs(sign: nat, n: nat)
    ensures Negate(sign == 1, n) == if sign == 1 then Negate(true, n) else n
  {
  }

  lemma StopsIs(rest: string)
    requires Stops(rest)
    ensures rest == "" || !IsDigit(rest[0])
  {
  }

  lemma WholeGives(digits: string)
    requires Whole(digits)
    ensures digits != "" && IsDigit(digits[0]) && digits[0] != '-' && (digits[0] == '0' ==> |digits| == 1)
    ensures forall i | 0 <= i < |digits| :: IsDigit(digits[i])
  {
  }

  lemma SignedText(form: string, digits: string, sign: nat, rest: string)
    requires digits != "" && digits[0] != '-' && ((sign == 0 && form == digits) || (sign == 1 && form == "-" + digits))
    ensures |form| > sign && form[sign] == digits[0] && (form + rest)[sign..] == digits + rest && form + rest != ""
    ensures (sign == 1 <==> (form + rest)[0] == '-') && (sign == 1 ==> form[0] == '-') && sign <= |form + rest|
  {
  }

  lemma NumberSign(s: string, sign: nat)
    requires sign <= 1 && sign <= |s|
    ensures s != "" && (sign == 1 <==> s[0] == '-') ==> ReadNumber(s) == ReadMagnitude(s, sign)
    ensures Negate(false, 0) == 0
  {
    hide ReadMagnitude;
  }

  lemma FractionCounted(f: string, e: string)
    requires Fraction(f) && Power(e)
    ensures FractionLength(f + e) == |f|
  {
    if f == "" {
      assert f + e == e;
    } else {
      assert (f + e)[1..] == f[1..] + e;
      CountedDigits(f[1..], e);
      hide DigitCount;
    }
  }

  lemma PowerCounted(e: string)
    requires Power(e)
    ensures ExponentLength(e) == |e|
  {
    if e != "" {
      var d := e[ExponentSign(e)..];
      assert d + "" == d;
      CountedDigits(d, "");
      hide DigitCount;
    }
  }

  lemma TailCounted(f: string, e: string)
    requires Fraction(f) && Power(e)
    ensures TailLength(f + e) == |f + e|
  {
    FractionCounted(f, e);
    PowerCounted(e);
    assert (f + e)[|f|..] == e;
    hide FractionLength;
    hide ExponentLength;
    hide Fraction;
    hide Power;
  }

  lemma WholeCounted(w: string, tail: string)
    requires Whole(w) && (tail == "" || !IsDigit(tail[0]))
    ensures LeadingDigits(w + tail) == |w|
  {
    CountedDigits(w, tail);
    hide DigitCount;
  }

  lemma TailFront(f: string, e: string)
    requires Fraction(f) && Power(e) && f + e != ""
    ensures !IsDigit((f + e)[0])
  {
  }

  lemma SpeltMagnitude(s: string, sign: nat, w: string, tail: string)
    requires sign <= 1 && sign <= |s| && s[sign..] == w + tail && tail != "" && w != ""
    requires LeadingDigits(w + tail) == |w| && TailLength(tail) == |tail|
    ensures ReadMagnitude(s, sign) == Some((Decimal(s), ""))
  {
    MagnitudeRead(s, sign);
    assert (w + tail)[|w|..] == tail && tail[|tail|..] == "" && s[..|s|] == s;
    hide *;
  }

  lemma DecimalComplete(form: string, rest: string)
    requires DecimalForm(form) && Stops(rest)
    ensures StartsNumber(form) && ReadNumber(form + rest) == Some((Decimal(form), rest)) && Spelt(form)
  {
    var w, f, e :| Parts(form, w, f, e);
    var sign := if form == w + f + e then 0 else 1;
    PartsAre(form, w, f, e);
    TailCounted(f, e);
    TailFront(f, e);
    WholeCounted(w, f + e);
    hide *;
    SpeltMagnitude(form, sign, w, f + e);
    MagnitudeStays(form, sign, rest);
    NumberSign(form + rest, sign);
    StartIs(form, sign);
    NumberSign(form, sign);
    SpeltFrom(form);
  }

  lemma PartsAre(form: string, w: string, f: string, e: string)
    requires Parts(form, w, f, e)
    ensures Whole(w) && w != "" && Fraction(f) && Power(e) && f + e != "" && IsDigit(w[0])
    ensures
      var sign := if form == w + f + e then 0 else 1;
      && sign <= |form| && form[sign..] == w + (f + e)
      && (sign == 1 <==> form[0] == '-') && form != "" && forall rest: string :: (form + rest)[0] == form[0]
  {
    hide Fraction;
    hide Power;
    if form == w + f + e {
      assert form[0] == w[0] && form[0..] == w + (f + e);
    } else {
      assert form == "-" + (w + f + e) && form[1..] == w + (f + e);
    }
  }

  lemma StartIs(form: string, sign: nat)
    requires sign <= 1 && |form| > sign && IsDigit(form[sign]) && (sign == 1 ==> form[0] == '-')
    ensures StartsNumber(form)
  {
  }

  lemma SpeltFrom(form: string)
    requires StartsNumber(form) && ReadNumber(form) == Some((Decimal(form), ""))
    ensures Spelt(form)
  {
    NoWord(form);
    hide WordAt;
    hide ReadNumber;
  }

  // ---------- strings ----------

  predicate HexIs(c: char, d: int) {
    || (0 <= d < 10 && c as int == '0' as int + d)
    || (10 <= d < 16 && (c as int == 'a' as int + (d - 10) || c as int == 'A' as int + (d - 10)))
  }

  ghost predicate Code(h: string, n: int) {
    |h| == 4 && exists a, b, c, d ::
      HexIs(h[0], a) && HexIs(h[1], b) && HexIs(h[2], c) && HexIs(h[3], d) && n == ((a * 16 + b) * 16 + c) * 16 + d
  }

  predicate Plain(form: string, c: char) { form == [c] && c as int >= 32 && c != '\"' && c != '\\' }

  predicate Short(form: string, c: char) {
    |form| == 2 && form[0] == '\\' &&
      match form[1]
      case '\"' => c == '\"'
      case '\\' => c == '\\'
      case '/' => c == '/'
      case 'b' => c as int == 8
      case 'f' => c as int == 12
      case 'n' => c as int == 10
      case 'r' => c as int == 13
      case 't' => c as int == 9
      case _ => false
  }

  ghost predicate Long(form: string, c: char) { |form| == 6 && form[..2] == "\\u" && Code(form[2..], c as int) }

  /** Two surrogates for a character beyond the 16-bit range. */
  ghost predicate Paired(form: string, c: char) {
    |form| == 12 && form[..2] == "\\u" && form[6..8] == "\\u"
    && exists high, low ::
      Code(form[2..6], high) && Code(form[8..], low) && 0xD800 <= high < 0xDC00 && 0xDC00 <= low < 0xE000
      && c as int == 0x1_0000 + (high - 0xD800) * 0x400 + (low - 0xDC00)
  }

  ghost predicate CharForm(form: string, c: char) { Plain(form, c) || Short(form, c) || Long(form, c) || Paired(form, c) }

  /** What stands between the quotes. */
  ghost predicate Body(body: string, text: string)
    decreases |text|
  {
    if text == "" then body == ""
    else exists k :: 0 < k <= |body| && CharForm(body[..k], text[0]) && Body(body[k..], text[1..])
  }

  lemma HexValueIs(c: char)
    ensures forall d :: HexValue(c) == Some(d) <==> HexIs(c, d)
    ensures HexValue(c).Some? ==> 0 <= HexValue(c).value < 16
  {
  }

  lemma FourHexSound(s: string)
    ensures FourHex(s).Some? ==> |s| >= 4 && Code(s[..4], FourHex(s).value) && 0 <= FourHex(s).value < 0x1_0000
  {
    if FourHex(s).Some? {
      HexValueIs(s[0]);
      HexValueIs(s[1]);
      HexValueIs(s[2]);
      HexValueIs(s[3]);
      var a, b, c, d := HexValue(s[0]).value, HexValue(s[1]).value, HexValue(s[2]).value, HexValue(s[3]).value;
      hide HexValue;
      hide HexIs;
      var h := s[..4];
      assert h[0] == s[0] && h[1] == s[1] && h[2] == s[2] && h[3] == s[3];
      assert HexIs(h[0], a) && HexIs(h[1], b) && HexIs(h[2], c) && HexIs(h[3], d);
    }
  }

  lemma FourHexComplete(s: string, n: int)
    requires |s| >= 4 && Code(s[..4], n)
    ensures FourHex(s) == Some(n)
  {
    HexValueIs(s[0]);
    HexValueIs(s[1]);
    HexValueIs(s[2]);
    HexValueIs(s[3]);
    hide HexValue;
    hide HexIs;
    var h := s[..4];
    assert h[0] == s[0] && h[1] == s[1] && h[2] == s[2] && h[3] == s[3];
  }

  lemma CodeSound(s: string, c: char, rest: string)
    requires s != "" && s[0] == 'u' && UnescapedCode(s) == Some((c, rest))
    ensures |rest| <= |s|
    ensures s == s[..|s| - |rest|] + rest && (Long("\\" + s[..|s| - |rest|], c) || Paired("\\" + s[..|s| - |rest|], c))
  {
    FourHexSound(s[1..]);
    var n := FourHex(s[1..]).value;
    assert s[1..][..4] == s[1..5];
    hide Code;
    if 0 <= n < 0xD800 || 0xE000 <= n < 0x1_0000 {
      var form := "\\" + s[..5];
      assert rest == s[5..] && form[..2] == "\\u" && form[2..] == s[1..5];
    } else {
      FourHexSound(s[7..]);
      var form := "\\" + s[..11];
      assert s[7..][..4] == s[7..11];
      assert rest == s[11..] && form[..2] == "\\u" && form[2..6] == s[1..5] && form[6..8] == s[5..7] && form[8..] == s[7..11];
      assert s[5..7] == "\\u";
    }
    hide FourHex;
  }

  lemma UnescapedSound(s: string, c: char, rest: string)
    requires Unescaped(s) == Some((c, rest))
    ensures |rest| <= |s|
    ensures s == s[..|s| - |rest|] + rest && |s| > |rest| && CharForm("\\" + s[..|s| - |rest|], c)
  {
    if s[0] == 'u' {
      CodeSound(s, c, rest);
    } else {
      var form := "\\" + s[..1];
      assert rest == s[1..] && form[1] == s[0] && |form| == 2;
      assert Short(form, c);
    }
    hide UnescapedCode;
    hide Long;
    hide Paired;
  }

  /** What one step of reading a string says. */
  lemma StringStep(s: string, text: string, rest: string)
    requires ReadString(s) == Some((text, rest))
    ensures s != ""
    ensures
      if s[0] == '\"' then text == "" && rest == s[1..]
      else if s[0] == '\\' then
        && Unescaped(s[1..]).Some? && text != "" && text[0] == Unescaped(s[1..]).value.0
        && ReadString(Unescaped(s[1..]).value.1) == Some((text[1..], rest))
      else s[0] as int >= 32 && text != "" && text[0] == s[0] && ReadString(s[1..]) == Some((text[1..], rest))
  {
    hide Unescaped;
  }

  lemma {:induction false} StringSound(s: string, text: string, rest: string)
    requires ReadString(s) == Some((text, rest))
    ensures exists body :: s == body + "\"" + rest && Body(body, text)
    decreases |s|
  {
    hide *;
    StringStep(s, text, rest);
    if s[0] == '\"' {
      NoBody();
      assert s == "" + "\"" + rest;
    } else if s[0] == '\\' {
      var (c, after) := Unescaped(s[1..]).value;
      UnescapedSound(s[1..], c, after);
      StringSound(after, text[1..], rest);
      var body :| after == body + "\"" + rest && Body(body, text[1..]);
      var form := "\\" + s[1..][..|s[1..]| - |after|];
      assert s == form + after;
      BodyStep(form, c, body, text);
      assert s == (form + body) + "\"" + rest;
    } else {
      StringSound(s[1..], text[1..], rest);
      var body :| s[1..] == body + "\"" + rest && Body(body, text[1..]);
      PlainIs(s[0]);
      BodyStep([s[0]], s[0], body, text);
      assert s == ([s[0]] + body) + "\"" + rest;
    }
  }

  lemma NoBody()
    ensures Body("", "")
  {
  }

  lemma PlainIs(c: char)
    requires c as int >= 32 && c != '\"' && c != '\\'
    ensures CharForm([c], c)
  {
  }

  lemma BodyStep(form: string, c: char, body: string, text: string)
    requires form != "" && CharForm(form, c) && text != "" && text[0] == c && Body(body, text[1..])
    ensures Body(form + body, text)
  {
    hide CharForm;
    var whole := form + body;
    assert whole[..|form|] == form && whole[|form|..] == body;
  }

  // ---------- and back ----------

  lemma LongComplete(form: string, c: char, rest: string)
    requires Long(form, c)
    ensures |form| > 1 && form[0] == '\\' && Unescaped(form[1..] + rest) == Some((c, rest))
  {
    var s := form[1..] + rest;
    assert form[..2][0] == form[0] && form[..2][1] == form[1];
    assert s[1..][..4] == form[2..] && s[5..] == rest;
    FourHexComplete(s[1..], c as int);
    hide FourHex;
    hide Code;
  }

  lemma PairText(form: string, rest: string)
    requires |form| == 12 && form[..2] == "\\u" && form[6..8] == "\\u"
    ensures
      var s := form[1..] + rest;
      && form[0] == '\\' && |s| >= 11 && s[0] == 'u' && s[5] == '\\' && s[6] == 'u' && s[11..] == rest
      && s[1..][..4] == form[2..6] && s[7..][..4] == form[8..]
  {
    var s := form[1..] + rest;
    assert form[..2][0] == form[0] && form[..2][1] == form[1];
    assert form[6..8][0] == form[6] && form[6..8][1] == form[7];
    assert s[1..][..4] == form[2..6] && s[7..][..4] == form[8..] && s[11..] == rest;
  }

  lemma PairRead(s: string, high: int, low: int)
    requires |s| >= 11 && s[0] == 'u' && s[5] == '\\' && s[6] == 'u'
    requires FourHex(s[1..]) == Some(high) && FourHex(s[7..]) == Some(low) && 0xD800 <= high < 0xDC00 && 0xDC00 <= low < 0xE000
    ensures Unescaped(s) == Some((((high - 0xD800) * 0x400 + (low - 0xDC00) + 0x1_0000) as char, s[11..]))
  {
    hide FourHex;
  }

  lemma PairComplete(form: string, c: char, rest: string)
    requires Paired(form, c)
    ensures |form| > 1 && form[0] == '\\' && Unescaped(form[1..] + rest) == Some((c, rest))
  {
    var high, low :| Code(form[2..6], high) && Code(form[8..], low) && 0xD800 <= high < 0xDC00 && 0xDC00 <= low < 0xE000
      && c as int == 0x1_0000 + (high - 0xD800) * 0x400 + (low - 0xDC00);
    hide *;
    PairText(form, rest);
    var s := form[1..] + rest;
    FourHexComplete(s[1..], high);
    FourHexComplete(s[7..], low);
    PairRead(s, high, low);
  }

  lemma ShortComplete(form: string, c: char, rest: string)
    requires Short(form, c)
    ensures Unescaped(form[1..] + rest) == Some((c, rest))
  {
    var s := form[1..] + rest;
    assert s[0] == form[1] && s[1..] == rest;
    hide UnescapedCode;
  }

  lemma CharComplete(form: string, c: char, tail: string)
    requires CharForm(form, c)
    ensures form != "" && (form[0] != '\\' ==> Plain(form, c))
    ensures form[0] == '\\' ==> Unescaped(form[1..] + tail) == Some((c, tail))
  {
    if Long(form, c) { LongComplete(form, c, tail); }
    if Paired(form, c) { PairComplete(form, c, tail); }
    if Short(form, c) { ShortComplete(form, c, tail); }
    hide Unescaped;
    hide Long;
    hide Paired;
  }

  lemma StringMore(s: string, c: char, after: string, text: string, rest: string)
    requires s != "" && s[0] != '\"' && ReadString(after) == Some((text, rest))
    requires if s[0] == '\\' then Unescaped(s[1..]) == Some((c, after)) else s[0] as int >= 32 && s[0] == c && s[1..] == after
    ensures ReadString(s) == Some(([c] + text, rest))
  {
    hide Unescaped;
  }

  lemma StringEnd(rest: string)
    ensures ReadString("\"" + rest) == Some(("", rest))
  {
    assert ("\"" + rest)[1..] == rest;
  }

  lemma BodyIs(body: string, text: string) returns (k: nat)
    requires Body(body, text)
    ensures text == "" ==> body == ""
    ensures text != "" ==> 0 < k <= |body| && CharForm(body[..k], text[0]) && Body(body[k..], text[1..])
  {
    k := 0;
    if text != "" {
      k :| 0 < k <= |body| && CharForm(body[..k], text[0]) && Body(body[k..], text[1..]);
    }
    hide CharForm;
  }

  lemma PlainGives(form: string, c: char)
    requires Plain(form, c)
    ensures form == [c] && c as int >= 32 && c != '\"'
  {
  }

  lemma QuoteForm(form: string, c: char)
    requires CharForm(form, c)
    ensures form != "" && form[0] != '\"'
  {
    if |form| >= 2 && form[..2] == "\\u" { assert form[..2][0] == form[0]; }
    hide Code;
  }

  lemma {:induction false} StringComplete(body: string, text: string, rest: string)
    requires Body(body, text)
    ensures ReadString(body + "\"" + rest) == Some((text, rest))
    decreases |text|
  {
    hide *;
    var s := body + "\"" + rest;
    var k := BodyIs(body, text);
    StringEnd(rest);
    if text == "" {
      assert s == "\"" + rest;
    } else {
      var form, tail := body[..k], body[k..] + "\"" + rest;
      CharComplete(form, text[0], tail);
      QuoteForm(form, text[0]);
      StringComplete(body[k..], text[1..], rest);
      assert s == form + tail && s[0] == form[0] && s[1..] == form[1..] + tail;
      assert [text[0]] + text[1..] == text;
      if form[0] != '\\' {
        PlainGives(form, text[0]);
        assert s[1..] == tail;
      }
      StringMore(s, text[0], tail, text[1..], rest);
    }
  }

  // ---------- values ----------

  predicate Enclosed(s: string, open: char, close: char) { |s| >= 2 && s[0] == open && s[|s| - 1] == close }

  function Inner(s: string): string
    requires |s| >= 2
  {
    s[1..|s| - 1]
  }

  /** Text of one element with gaps around it, and what follows. */
  predicate Cut(t: string, before: string, one: string, after: string, tail: string) {
    t == before + one + after + tail && Gap(before) && Gap(after)
  }

  predicate CutField(one: string, body: string, before: string, after: string, form: string) {
    one == "\"" + body + "\"" + before + ":" + after + form && Gap(before) && Gap(after)
  }

  /** `s` is the text of `v`, without a gap around it. */
  ghost predicate Forms(v: Json, s: string)
    decreases |s|, 0
  {
    match v
    case Null => s == "null"
    case Bool(truth) => s == if truth then "true" else "false"
    case Int(n) => IntForm(s, n)
    case Decimal(spelling) =>
      s == spelling && (s == "NaN" || s == "Infinity" || s == "-Infinity" || DecimalForm(s))
    case Str(text) => Enclosed(s, '\"', '\"') && Body(Inner(s), text)
    case Arr(items) => Enclosed(s, '[', ']') && if items == [] then Gap(Inner(s)) else ItemsForm(items, Inner(s))
    case Obj(fields) =>
      Enclosed(s, '{', '}') && ObjectForm(fields, Inner(s))
  }

  /** No fields, or fields of which a later one of the same name replaces the value of an earlier one. */
  ghost predicate ObjectForm(fields: seq<(string, Json)>, t: string)
    decreases |t|, 3
  {
    (fields == [] && Gap(t)) || exists raw :: raw != [] && fields == AsDict(raw) && FieldsForm(raw, t)
  }

  ghost predicate ItemsForm(items: seq<Json>, t: string)
    requires items != []
    decreases |t|, 1
  {
    exists before, one, after, tail ::
      Cut(t, before, one, after, tail) && Forms(items[0], one)
      && if |items| == 1 then tail == "" else tail != "" && tail[0] == ',' && ItemsForm(items[1..], tail[1..])
  }

  ghost predicate FieldForm(field: (string, Json), one: string)
    decreases |one|, 1
  {
    exists body, before, after, form ::
      CutField(one, body, before, after, form) && Body(body, field.0) && Forms(field.1, form)
  }

  ghost predicate FieldsForm(raw: seq<(string, Json)>, t: string)
    requires raw != []
    decreases |t|, 2
  {
    exists before, one, after, tail ::
      Cut(t, before, one, after, tail) && FieldForm(raw[0], one)
      && if |raw| == 1 then tail == "" else tail != "" && tail[0] == ',' && FieldsForm(raw[1..], tail[1..])
  }

  // ---------- what is read has the form ----------

  lemma {:induction false} SkipIs(s: string) returns (gap: string)
    ensures s == gap + SkipSpace(s) && Gap(gap) && (SkipSpace(s) != "" ==> !Space(SkipSpace(s)[0]))
  {
    gap := "";
    if s != "" && Space(s[0]) {
      gap := SkipIs(s[1..]);
      gap := [s[0]] + gap;
    }
  }

  lemma TextForm(body: string, text: string)
    requires Body(body, text)
    ensures Forms(Str(text), "\"" + body + "\"")
  {
    var s := "\"" + body + "\"";
    assert Inner(s) == body;
    hide Body;
  }

  lemma ItemsFormed(items: seq<Json>, t: string)
    requires items != [] && ItemsForm(items, t)
    ensures Forms(Arr(items), "[" + t + "]")
  {
    var s := "[" + t + "]";
    assert Inner(s) == t;
    hide ItemsForm;
  }

  lemma EmptyFormed(gap: string)
    requires Gap(gap)
    ensures Forms(Arr([]), "[" + gap + "]") && Forms(Obj([]), "{" + gap + "}")
  {
    assert Inner("[" + gap + "]") == gap && Inner("{" + gap + "}") == gap;
    hide Gap;
  }

  lemma FieldsFormed(raw: seq<(string, Json)>, t: string)
    requires raw != [] && FieldsForm(raw, t)
    ensures Forms(Obj(AsDict(raw)), "{" + t + "}")
  {
    var s := "{" + t + "}";
    assert Inner(s) == t;
    hide FieldsForm;
    hide AsDict;
    assert ObjectForm(AsDict(raw), t);
  }

  lemma ItemAlone(item: Json, one: string, before: string, after: string)
    requires Forms(item, one) && Gap(before) && Gap(after)
    ensures ItemsForm([item], before + one + after)
  {
    var t := before + one + after;
    assert Cut(t, before, one, after, "");
    hide Gap;
    hide Forms;
  }

  lemma ItemMore(item: Json, one: string, before: string, after: string, more: seq<Json>, t: string)
    requires Forms(item, one) && Gap(before) && Gap(after) && more != [] && ItemsForm(more, t)
    ensures ItemsForm([item] + more, before + one + after + "," + t)
  {
    var whole, tail := before + one + after + "," + t, "," + t;
    assert tail[1..] == t && ([item] + more)[1..] == more;
    assert whole == before + one + after + tail;
    assert Cut(whole, before, one, after, tail);
    hide Gap;
    hide Forms;
    hide ItemsForm;
    ItemsIntro([item] + more, whole, before, one, after, tail);
  }

  lemma ItemsIntro(items: seq<Json>, t: string, before: string, one: string, after: string, tail: string)
    requires |items| > 1 && Cut(t, before, one, after, tail) && Forms(items[0], one)
    requires tail != "" && tail[0] == ',' && ItemsForm(items[1..], tail[1..])
    ensures ItemsForm(items, t)
  {
    hide Cut;
    hide Forms;
  }

  lemma FieldAlone(field: (string, Json), one: string, before: string, after: string)
    requires FieldForm(field, one) && Gap(before) && Gap(after)
    ensures FieldsForm([field], before + one + after)
  {
    var t := before + one + after;
    assert Cut(t, before, one, after, "");
    hide Gap;
    hide FieldForm;
  }

  lemma FieldMore(
    field: (string, Json), one: string, before: string, after: string, more: seq<(string, Json)>, t: string)
    requires FieldForm(field, one) && Gap(before) && Gap(after) && more != [] && FieldsForm(more, t)
    ensures FieldsForm([field] + more, before + one + after + "," + t)
  {
    var whole, tail := before + one + after + "," + t, "," + t;
    assert tail[1..] == t && ([field] + more)[1..] == more;
    assert whole == before + one + after + tail;
    assert Cut(whole, before, one, after, tail);
    hide Gap;
    hide FieldForm;
    hide FieldsForm;
    FieldsIntro([field] + more, whole, before, one, after, tail);
  }

  lemma FieldsIntro(raw: seq<(string, Json)>, t: string, before: string, one: string, after: string, tail: string)
    requires |raw| > 1 && Cut(t, before, one, after, tail) && FieldForm(raw[0], one)
    requires tail != "" && tail[0] == ',' && FieldsForm(raw[1..], tail[1..])
    ensures FieldsForm(raw, t)
  {
    hide Cut;
    hide FieldForm;
  }

  lemma FieldIntro(field: (string, Json), body: string, before: string, after: string, form: string)
    requires Body(body, field.0) && Gap(before) && Gap(after) && Forms(field.1, form)
    ensures FieldForm(field, "\"" + body + "\"" + before + ":" + after + form)
  {
    var one := "\"" + body + "\"" + before + ":" + after + form;
    assert CutField(one, body, before, after, form);
    hide Body;
    hide Gap;
    hide Forms;
  }

  lemma WordSound(s: string, v: Json, n: nat)
    requires WordAt(s) == Some((v, n))
    ensures n <= |s| && Forms(v, s[..n]) && s == s[..n] + s[n..]
  {
  }

  lemma PlainSound(s: string, v: Json, rest: string)
    requires ReadPlain(s) == Some((v, rest))
    ensures exists form :: s == form + rest && Forms(v, form)
  {
    var word := WordAt(s);
    if word.Some? {
      WordSound(s, v, word.value.1);
    } else {
      var sign := if s != "" && s[0] == '-' then 1 else 0;
      MagnitudeSound(s, sign, v, rest);
      var form :| s == form + rest && NumberForm(v, form);
      hide WordAt;
      hide ReadMagnitude;
      hide IntForm;
      hide DecimalForm;
      assert Forms(v, form);
    }
    hide WordAt;
    hide ReadMagnitude;
  }

  /** What one step of reading a value says. */
  lemma ValueStep(s: string, v: Json, rest: string)
    requires ReadValue(s) == Some((v, rest))
    ensures s != ""
    ensures
      var t := SkipSpace(s[1..]);
      if s[0] == '\"' then v.Str? && ReadString(s[1..]) == Some((v.text, rest))
      else if s[0] == '{' then
        t != "" && v.Obj?
        && if t[0] == '}' then v == Obj([]) && rest == t[1..]
           else ReadFields(t).Some? && v == Obj(AsDict(ReadFields(t).value.0)) && rest == ReadFields(t).value.1
      else if s[0] == '[' then
        t != "" && v.Arr?
        && if t[0] == ']' then v == Arr([]) && rest == t[1..]
           else ReadItems(t) == Some((v.items, rest))
      else ReadPlain(s) == Some((v, rest))
  {
    hide ReadString;
    hide ReadFields;
    hide ReadItems;
    hide ReadPlain;
    hide AsDict;
    hide SkipSpace;
  }

  lemma ItemsStep(s: string, items: seq<Json>, rest: string)
    requires ReadItems(s) == Some((items, rest))
    ensures ReadValue(s).Some? && items != [] && items[0] == ReadValue(s).value.0
    ensures
      var t := SkipSpace(ReadValue(s).value.1);
      t != "" && if t[0] == ']' then items == [items[0]] && rest == t[1..]
                 else t[0] == ',' && ReadItems(SkipSpace(t[1..])) == Some((items[1..], rest)) && |items| > 1
  {
    hide ReadValue;
    hide SkipSpace;
    var t := SkipSpace(ReadValue(s).value.1);
    if t[0] == ',' { ItemsSome(SkipSpace(t[1..])); }
  }

  lemma ItemsSome(s: string)
    ensures ReadItems(s).Some? ==> ReadItems(s).value.0 != []
  {
    hide ReadValue;
    hide SkipSpace;
  }

  lemma FieldStep(s: string, field: (string, Json), rest: string)
    requires ReadField(s) == Some((field, rest))
    ensures s != "" && s[0] == '\"' && ReadString(s[1..]).Some? && field.0 == ReadString(s[1..]).value.0
    ensures
      var t := SkipSpace(ReadString(s[1..]).value.1);
      t != "" && t[0] == ':' && ReadValue(SkipSpace(t[1..])) == Some((field.1, rest))
  {
    hide ReadString;
    hide ReadValue;
    hide SkipSpace;
  }

  lemma FieldsStep(s: string, raw: seq<(string, Json)>, rest: string)
    requires ReadFields(s) == Some((raw, rest))
    ensures ReadField(s).Some? && raw != [] && raw[0] == ReadField(s).value.0
    ensures
      var t := SkipSpace(ReadField(s).value.1);
      t != "" && if t[0] == '}' then raw == [raw[0]] && rest == t[1..]
                 else t[0] == ',' && ReadFields(SkipSpace(t[1..])) == Some((raw[1..], rest)) && |raw| > 1
  {
    hide ReadField;
    hide SkipSpace;
    var t := SkipSpace(ReadField(s).value.1);
    if t[0] == ',' { FieldsSome(SkipSpace(t[1..])); }
  }

  lemma FieldsSome(s: string)
    ensures ReadFields(s).Some? ==> ReadFields(s).value.0 != []
  {
    hide ReadField;
    hide SkipSpace;
  }

  /** Whatever is read has the text of the value in front. */
  lemma {:induction false} ValueSound(s: string, v: Json, rest: string)
    requires ReadValue(s) == Some((v, rest))
    ensures exists form :: s == form + rest && Forms(v, form)
    decreases |s|, 0
  {
    hide *;
    ValueStep(s, v, rest);
    var gap := SkipIs(s[1..]);
    var t := SkipSpace(s[1..]);
    assert s == [s[0]] + (gap + t);
    if s[0] == '\"' {
      StringSound(s[1..], v.text, rest);
      var body :| s[1..] == body + "\"" + rest && Body(body, v.text);
      TextForm(body, v.text);
      assert s == ("\"" + body + "\"") + rest;
    } else if s[0] == '{' && t[0] == '}' {
      EmptyFormed(gap);
      assert s == ("{" + gap + "}") + rest;
    } else if s[0] == '[' && t[0] == ']' {
      EmptyFormed(gap);
      assert s == ("[" + gap + "]") + rest;
    } else if s[0] == '[' {
      ItemsSound(t, gap, v.items, rest);
      var inner :| gap + t == inner + "]" + rest && ItemsForm(v.items, inner);
      ItemsFormed(v.items, inner);
      assert s == ("[" + inner + "]") + rest;
    } else if s[0] == '{' {
      var raw := ReadFields(t).value.0;
      FieldsSound(t, gap, raw, rest);
      var inner :| gap + t == inner + "}" + rest && FieldsForm(raw, inner);
      FieldsFormed(raw, inner);
      assert s == ("{" + inner + "}") + rest;
    } else {
      PlainSound(s, v, rest);
    }
  }

  lemma {:induction false} ItemsSound(s: string, lead: string, items: seq<Json>, rest: string)
    requires ReadItems(s) == Some((items, rest)) && Gap(lead)
    ensures items != [] && exists t :: lead + s == t + "]" + rest && ItemsForm(items, t)
    decreases |s|, 1
  {
    hide *;
    ItemsStep(s, items, rest);
    var (v, u) := ReadValue(s).value;
    ValueSound(s, v, u);
    var one :| s == one + u && Forms(v, one);
    var after := SkipIs(u);
    var t := SkipSpace(u);
    if t[0] == ']' {
      ItemAlone(v, one, lead, after);
      assert lead + s == (lead + one + after) + "]" + rest;
    } else {
      var gap := SkipIs(t[1..]);
      ItemsSound(SkipSpace(t[1..]), gap, items[1..], rest);
      var inner :| gap + SkipSpace(t[1..]) == inner + "]" + rest && ItemsForm(items[1..], inner);
      ItemMore(v, one, lead, after, items[1..], inner);
      assert [v] + items[1..] == items;
      assert lead + s == (lead + one + after + "," + inner) + "]" + rest;
    }
  }

  lemma {:induction false} FieldSound(s: string, field: (string, Json), rest: string)
    requires ReadField(s) == Some((field, rest))
    ensures exists one :: s == one + rest && FieldForm(field, one)
    decreases |s|, 1
  {
    hide *;
    FieldStep(s, field, rest);
    var (key, u) := ReadString(s[1..]).value;
    StringSound(s[1..], key, u);
    var body :| s[1..] == body + "\"" + u && Body(body, key);
    var before := SkipIs(u);
    var t := SkipSpace(u);
    var after := SkipIs(t[1..]);
    ValueSound(SkipSpace(t[1..]), field.1, rest);
    var form :| SkipSpace(t[1..]) == form + rest && Forms(field.1, form);
    FieldIntro(field, body, before, after, form);
    assert s == ("\"" + body + "\"" + before + ":" + after + form) + rest;
  }

  lemma {:induction false} FieldsSound(s: string, lead: string, raw: seq<(string, Json)>, rest: string)
    requires ReadFields(s) == Some((raw, rest)) && Gap(lead)
    ensures raw != [] && exists t :: lead + s == t + "}" + rest && FieldsForm(raw, t)
    decreases |s|, 2
  {
    hide *;
    FieldsStep(s, raw, rest);
    var (field, u) := ReadField(s).value;
    FieldSound(s, field, u);
    var one :| s == one + u && FieldForm(field, one);
    var after := SkipIs(u);
    var t := SkipSpace(u);
    if t[0] == '}' {
      FieldAlone(field, one, lead, after);
      assert lead + s == (lead + one + after) + "}" + rest;
    } else {
      var gap := SkipIs(t[1..]);
      FieldsSound(SkipSpace(t[1..]), gap, raw[1..], rest);
      var inner :| gap + SkipSpace(t[1..]) == inner + "}" + rest && FieldsForm(raw[1..], inner);
      FieldMore(field, one, lead, after, raw[1..], inner);
      assert [field] + raw[1..] == raw;
      assert lead + s == (lead + one + after + "," + inner) + "}" + rest;
    }
  }

  // ---------- what has the form is read ----------

  /** A number must be followed by something that cannot continue it; other values may be followed by anything. */
  predicate Follows(v: Json, rest: string) { v.Int? || v.Decimal? ==> Stops(rest) }

  lemma {:induction false} GapSkipped(gap: string, s: string)
    requires Gap(gap) && (s == "" || !Space(s[0]))
    ensures SkipSpace(gap + s) == s
  {
    if gap == "" {
      assert gap + s == s;
    } else {
      assert (gap + s)[1..] == gap[1..] + s;
      GapSkipped(gap[1..], s);
    }
  }

  /** After a gap comes what stops a number when what follows the gap does. */
  lemma GapStops(gap: string, s: string)
    requires Gap(gap) && s != "" && (s[0] == ',' || s[0] == ']' || s[0] == '}')
    ensures Stops(gap + s) && !Space(s[0])
  {
    assert (gap + s)[0] == if gap == "" then s[0] else gap[0];
  }

  lemma NumberComplete(v: Json, form: string, rest: string)
    requires NumberForm(v, form) && Stops(rest)
    ensures StartsNumber(form) && ReadValue(form + rest) == Some((v, rest))
  {
    hide *;
    NumberIs(v, form);
    if v.Int? { IntComplete(form, v.number, rest); } else { DecimalComplete(form, rest); }
    StartStays(form, rest);
    NumberFront(form + rest);
  }

  lemma NumberIs(v: Json, form: string)
    requires NumberForm(v, form)
    ensures v.Int? ==> IntForm(form, v.number)
    ensures v.Decimal? ==> v.spelling == form && DecimalForm(form)
    ensures v.Int? || v.Decimal?
  {
    hide IntForm;
    hide DecimalForm;
  }

  lemma StartStays(form: string, rest: string)
    requires StartsNumber(form)
    ensures
      var s := form + rest;
      s != "" && (IsDigit(s[0]) || (s[0] == '-' && |s| >= 2 && IsDigit(s[1])))
  {
  }

  lemma WordComplete(form: string, rest: string)
    requires form == "NaN" || form == "Infinity" || form == "-Infinity"
    ensures ReadValue(form + rest) == Some((Decimal(form), rest))
  {
    hide ReadValue;
    hide ReadPlain;
    WordStays(form, rest);
    assert (form + rest)[0] == form[0];
    PlainFront(form + rest);
  }

  /** The front of a text that is no gap and closes nothing. */
  predicate Opens(form: string) { form != "" && !Space(form[0]) && form[0] != ']' && form[0] != '}' }

  lemma NumberOpens(v: Json, form: string)
    requires NumberForm(v, form)
    ensures Opens(form)
  {
    NumberComplete(v, form, "");
    hide *;
    StartOpens(form);
  }

  lemma StartOpens(form: string)
    requires StartsNumber(form)
    ensures Opens(form)
  {
  }

  lemma NumberFormed(v: Json, form: string)
    requires Forms(v, form) && (v.Int? || v.Decimal?)
    ensures v.Int? ==> NumberForm(v, form)
    ensures v.Decimal? ==> v.spelling == form && (form == "NaN" || form == "Infinity" || form == "-Infinity" || NumberForm(v, form))
  {
    hide IntForm;
    hide DecimalForm;
  }

  lemma OtherOpens(v: Json, form: string)
    requires Forms(v, form) && !v.Int? && (v.Decimal? ==> form == "NaN" || form == "Infinity" || form == "-Infinity")
    ensures Opens(form)
  {
    hide DecimalForm;
    hide Body;
    hide ItemsForm;
    hide ObjectForm;
    hide Gap;
  }

  lemma FormOpens(v: Json, form: string)
    requires Forms(v, form)
    ensures Opens(form)
    ensures v.Int? ==> NumberForm(v, form)
    ensures v.Decimal? ==> v.spelling == form && (form == "NaN" || form == "Infinity" || form == "-Infinity" || NumberForm(v, form))
  {
    hide *;
    if v.Int? || v.Decimal? { NumberFormed(v, form); }
    if NumberForm(v, form) { NumberOpens(v, form); } else { OtherOpens(v, form); }
  }

  lemma InnerIs(s: string)
    requires |s| >= 2
    ensures s == [s[0]] + Inner(s) + [s[|s| - 1]]
  {
  }

  /** The text of a value, whatever follows it, is read as the value. */
  lemma {:induction false} ValueComplete(v: Json, form: string, rest: string)
    requires Forms(v, form) && Follows(v, rest)
    ensures Opens(form) && ReadValue(form + rest) == Some((v, rest))
    decreases |form|, 0
  {
    hide *;
    FormOpens(v, form);
    match v
    case Null => ConstantComplete(v, form, rest);
    case Bool(_) => ConstantComplete(v, form, rest);
    case Int(n) =>
      FollowsIs(v, rest);
      NumberComplete(v, form, rest);
    case Decimal(spelling) =>
      FollowsIs(v, rest);
      if NumberForm(v, form) { NumberComplete(v, form, rest); } else { WordComplete(form, rest); }
    case Str(text) =>
      TextFormed(text, form);
      InnerIs(form);
      StringComplete(Inner(form), text, rest);
      StringRead(Inner(form) + "\"" + rest, text, rest);
      assert form + rest == "\"" + (Inner(form) + "\"" + rest);
    case Arr(items) =>
      ArrayFormed(items, form);
      InnerIs(form);
      var t := Inner(form);
      if items == [] {
        EmptyComplete(t, rest);
        assert form + rest == "[" + t + "]" + rest;
      } else {
        ItemsComplete(items, t, rest);
        assert form + rest == "[" + (t + "]" + rest);
        OpenArray(t + "]" + rest, items, rest);
      }
    case Obj(fields) =>
      ObjectFormed(fields, form);
      InnerIs(form);
      var t := Inner(form);
      var raw := ObjectCut(fields, t);
      if raw == [] {
        EmptyComplete(t, rest);
        assert form + rest == "{" + t + "}" + rest;
      } else {
        FieldsComplete(raw, t, rest);
        assert form + rest == "{" + (t + "}" + rest);
        OpenObject(t + "}" + rest, raw, rest);
      }
  }

  lemma FollowsIs(v: Json, rest: string)
    requires Follows(v, rest)
    ensures v.Int? || v.Decimal? ==> Stops(rest)
  {
  }

  lemma ConstantComplete(v: Json, form: string, rest: string)
    requires (v.Null? || v.Bool?) && Forms(v, form)
    ensures ReadValue(form + rest) == Some((v, rest))
  {
    hide ReadValue;
    WordRead(v, rest);
    assert form == Print(v);
  }

  lemma TextFormed(text: string, form: string)
    requires Forms(Str(text), form)
    ensures |form| >= 2 && form[0] == '\"' && form[|form| - 1] == '\"' && Body(Inner(form), text)
  {
    hide Body;
  }

  lemma ArrayFormed(items: seq<Json>, form: string)
    requires Forms(Arr(items), form)
    ensures |form| >= 2 && form[0] == '[' && form[|form| - 1] == ']'
    ensures if items == [] then Gap(Inner(form)) else ItemsForm(items, Inner(form))
  {
    hide Gap;
    hide ItemsForm;
  }

  lemma ObjectFormed(fields: seq<(string, Json)>, form: string)
    requires Forms(Obj(fields), form)
    ensures |form| >= 2 && form[0] == '{' && form[|form| - 1] == '}'
    ensures ObjectForm(fields, Inner(form))
  {
    hide ObjectForm;
  }

  lemma ObjectCut(fields: seq<(string, Json)>, t: string) returns (raw: seq<(string, Json)>)
    requires ObjectForm(fields, t)
    ensures raw == [] ==> fields == [] && Gap(t)
    ensures raw != [] ==> fields == AsDict(raw) && FieldsForm(raw, t)
  {
    raw := [];
    if !(fields == [] && Gap(t)) {
      raw :| raw != [] && fields == AsDict(raw) && FieldsForm(raw, t);
    }
    hide Gap;
    hide AsDict;
    hide FieldsForm;
  }

  lemma EmptyComplete(gap: string, rest: string)
    requires Gap(gap)
    ensures ReadValue("[" + gap + "]" + rest) == Some((Arr([]), rest))
    ensures ReadValue("{" + gap + "}" + rest) == Some((Obj([]), rest))
  {
    GapSkipped(gap, "]" + rest);
    GapSkipped(gap, "}" + rest);
    assert ("[" + gap + "]" + rest)[1..] == gap + ("]" + rest) && ("{" + gap + "}" + rest)[1..] == gap + ("}" + rest);
    assert ("]" + rest)[1..] == rest && ("}" + rest)[1..] == rest;
    hide SkipSpace;
    hide Gap;
  }

  lemma OpenArray(t: string, items: seq<Json>, rest: string)
    requires SkipSpace(t) != "" && SkipSpace(t)[0] != ']' && ReadItems(SkipSpace(t)) == Some((items, rest))
    ensures ReadValue("[" + t) == Some((Arr(items), rest))
  {
    hide ReadItems;
    hide SkipSpace;
    assert ("[" + t)[1..] == t;
  }

  lemma OpenObject(t: string, raw: seq<(string, Json)>, rest: string)
    requires SkipSpace(t) != "" && SkipSpace(t)[0] != '}' && ReadFields(SkipSpace(t)) == Some((raw, rest))
    ensures ReadValue("{" + t) == Some((Obj(AsDict(raw)), rest))
  {
    hide ReadFields;
    hide SkipSpace;
    hide AsDict;
    assert ("{" + t)[1..] == t;
  }

  lemma ItemsCut(items: seq<Json>, t: string) returns (before: string, one: string, after: string, tail: string)
    requires items != [] && ItemsForm(items, t)
    ensures t == before + one + after + tail && Gap(before) && Gap(after) && Forms(items[0], one)
    ensures if |items| == 1 then tail == "" else tail != "" && tail[0] == ',' && ItemsForm(items[1..], tail[1..])
  {
    before, one, after, tail :| Cut(t, before, one, after, tail) && Forms(items[0], one)
      && if |items| == 1 then tail == "" else tail != "" && tail[0] == ',' && ItemsForm(items[1..], tail[1..]);
    hide Gap;
    hide Forms;
    hide ItemsForm;
  }

  lemma ItemsRead(s: string, v: Json, u: string, rest: string, more: seq<Json>)
    requires ReadValue(s) == Some((v, u))
    requires
      var t := SkipSpace(u);
      t != "" && ((t[0] == ']' && more == [] && rest == t[1..])
                  || (t[0] == ',' && ReadItems(SkipSpace(t[1..])) == Some((more, rest))))
    ensures ReadItems(s) == Some(([v] + more, rest))
  {
    hide ReadValue;
    hide SkipSpace;
    assert [v] + [] == [v];
  }

  lemma {:induction false} ItemsComplete(items: seq<Json>, t: string, rest: string)
    requires items != [] && ItemsForm(items, t)
    ensures
      var s := SkipSpace(t + "]" + rest);
      s != "" && s[0] != ']' && ReadItems(s) == Some((items, rest))
    decreases |t|, 1
  {
    hide *;
    var before, one, after, tail := ItemsCut(items, t);
    var u := tail + "]" + rest;
    assert t + "]" + rest == before + (one + (after + u));
    GapStops(after, u);
    FollowsAny(items[0], after + u);
    ValueComplete(items[0], one, after + u);
    OpensIs(one, after + u);
    GapSkipped(before, one + (after + u));
    GapSkipped(after, u);
    if |items| > 1 {
      assert u[1..] == tail[1..] + "]" + rest;
      ItemsComplete(items[1..], tail[1..], rest);
    } else {
      assert u[1..] == rest;
    }
    ItemsRead(one + (after + u), items[0], after + u, rest, items[1..]);
    assert [items[0]] + items[1..] == items;
  }

  lemma FollowsAny(v: Json, rest: string)
    requires Stops(rest)
    ensures Follows(v, rest)
  {
  }

  lemma OpensIs(form: string, rest: string)
    requires Opens(form)
    ensures form + rest != "" && !Space((form + rest)[0]) && (form + rest)[0] != ']' && (form + rest)[0] != '}'
  {
  }

  lemma FieldCut(field: (string, Json), one: string) returns (body: string, before: string, after: string, form: string)
    requires FieldForm(field, one)
    ensures one == "\"" + body + "\"" + before + ":" + after + form && Gap(before) && Gap(after)
    ensures Body(body, field.0) && Forms(field.1, form)
  {
    body, before, after, form :| CutField(one, body, before, after, form) && Body(body, field.0) && Forms(field.1, form);
    hide Gap;
    hide Body;
    hide Forms;
  }

  lemma FieldReadBack(s: string, key: string, u: string, t: string, value: Json, rest: string)
    requires s != "" && s[0] == '\"' && ReadString(s[1..]) == Some((key, u)) && SkipSpace(u) == ":" + t
    requires ReadValue(SkipSpace(t)) == Some((value, rest))
    ensures ReadField(s) == Some(((key, value), rest))
  {
    hide ReadString;
    hide ReadValue;
    hide SkipSpace;
    assert (":" + t)[1..] == t;
  }

  lemma {:induction false} FieldComplete(field: (string, Json), one: string, rest: string)
    requires FieldForm(field, one) && Stops(rest)
    ensures one != "" && one[0] == '\"' && ReadField(one + rest) == Some((field, rest))
    decreases |one|, 1
  {
    hide *;
    var body, before, after, form := FieldCut(field, one);
    FollowsAny(field.1, rest);
    ValueComplete(field.1, form, rest);
    OpensIs(form, rest);
    GapSkipped(after, form + rest);
    var t := after + (form + rest);
    ColonIs(t);
    GapSkipped(before, ":" + t);
    StringComplete(body, field.0, before + (":" + t));
    var s := one + rest;
    assert s[1..] == body + "\"" + (before + (":" + t));
    FieldReadBack(s, field.0, before + (":" + t), t, field.1, rest);
  }

  lemma ColonIs(t: string)
    ensures ":" + t != "" && !Space((":" + t)[0])
  {
  }

  lemma FieldsCut(raw: seq<(string, Json)>, t: string) returns (before: string, one: string, after: string, tail: string)
    requires raw != [] && FieldsForm(raw, t)
    ensures t == before + one + after + tail && Gap(before) && Gap(after) && FieldForm(raw[0], one)
    ensures if |raw| == 1 then tail == "" else tail != "" && tail[0] == ',' && FieldsForm(raw[1..], tail[1..])
  {
    before, one, after, tail :| Cut(t, before, one, after, tail) && FieldForm(raw[0], one)
      && if |raw| == 1 then tail == "" else tail != "" && tail[0] == ',' && FieldsForm(raw[1..], tail[1..]);
    hide Gap;
    hide FieldForm;
    hide FieldsForm;
  }

  lemma FieldsRead(s: string, field: (string, Json), u: string, rest: string, more: seq<(string, Json)>)
    requires ReadField(s) == Some((field, u))
    requires
      var t := SkipSpace(u);
      t != "" && ((t[0] == '}' && more == [] && rest == t[1..])
                  || (t[0] == ',' && ReadFields(SkipSpace(t[1..])) == Some((more, rest))))
    ensures ReadFields(s) == Some(([field] + more, rest))
  {
    hide ReadField;
    hide SkipSpace;
    assert [field] + [] == [field];
  }

  lemma QuoteOpens(one: string, rest: string)
    requires one != "" && one[0] == '\"'
    ensures one + rest != "" && !Space((one + rest)[0]) && (one + rest)[0] != '}'
  {
  }

  lemma {:induction false} FieldsComplete(raw: seq<(string, Json)>, t: string, rest: string)
    requires raw != [] && FieldsForm(raw, t)
    ensures
      var s := SkipSpace(t + "}" + rest);
      s != "" && s[0] != '}' && ReadFields(s) == Some((raw, rest))
    decreases |t|, 2
  {
    hide *;
    var before, one, after, tail := FieldsCut(raw, t);
    var u := tail + "}" + rest;
    assert t + "}" + rest == before + (one + (after + u));
    GapStops(after, u);
    FieldComplete(raw[0], one, after + u);
    QuoteOpens(one, after + u);
    GapSkipped(before, one + (after + u));
    GapSkipped(after, u);
    if |raw| > 1 {
      assert u[1..] == tail[1..] + "}" + rest;
      FieldsComplete(raw[1..], tail[1..], rest);
    } else {
      assert u[1..] == rest;
    }
    FieldsRead(one + (after + u), raw[0], after + u, rest, raw[1..]);
    assert [raw[0]] + raw[1..] == raw;
  }

  // ---------- documents ----------

  /** A document is read as a value exactly when it is the text of the value with nothing but space around it. */
  lemma LoadsIff(s: string, v: Json)
    ensures Loads(s) == Some(v) <==> exists before, form, after :: Cut(s, before, form, after, "") && Forms(v, form)
  {
    if Loads(s) == Some(v) {
      var before := SkipIs(s);
      var t := SkipSpace(s);
      var rest := ReadValue(t).value.1;
      LoadsIs(s, v);
      hide *;
      ValueSound(t, v, rest);
      var form :| t == form + rest && Forms(v, form);
      var after := SkipIs(rest);
      CutIs(s, before, form, after, rest);
    }
    if before, form, after :| Cut(s, before, form, after, "") && Forms(v, form) {
      hide *;
      CutGives(s, before, form, after);
      FollowsAny(v, after);
      ValueComplete(v, form, after);
      OpensIs(form, after);
      GapSkipped(before, form + after);
      GapSkipped(after, "");
      assert after + "" == after;
      LoadsFrom(s, v, form + after, after);
    }
  }

  lemma LoadsIs(s: string, v: Json)
    requires Loads(s) == Some(v)
    ensures ReadValue(SkipSpace(s)).Some? && ReadValue(SkipSpace(s)).value.0 == v
    ensures SkipSpace(ReadValue(SkipSpace(s)).value.1) == ""
  {
    hide ReadValue;
    hide SkipSpace;
  }

  lemma LoadsFrom(s: string, v: Json, t: string, rest: string)
    requires SkipSpace(s) == t && ReadValue(t) == Some((v, rest)) && SkipSpace(rest) == ""
    ensures Loads(s) == Some(v)
  {
    hide ReadValue;
    hide SkipSpace;
  }

  lemma CutIs(s: string, before: string, form: string, after: string, rest: string)
    requires s == before + (form + rest) && rest == after + SkipSpace(rest) && SkipSpace(rest) == "" && Gap(before) && Gap(after)
    ensures Cut(s, before, form, after, "")
  {
    hide SkipSpace;
    hide Gap;
  }

  lemma CutGives(s: string, before: string, form: string, after: string)
    requires Cut(s, before, form, after, "")
    ensures s == before + (form + after) && Gap(before) && Gap(after) && Stops(after)
  {
  }

  /** A later field of a name gives the value, the first one the place. */
  lemma {:induction false} DictIs(raw: seq<(string, Json)>)
    ensures DistinctKeys(AsDict(raw))
    ensures forall key, value :: (key, value) in AsDict(raw) <==>
      exists k :: 0 <= k < |raw| && raw[k] == (key, value) && forall l | k < l < |raw| :: raw[l].0 != key
  {
    if raw != [] {
      var front, last := raw[..|raw| - 1], raw[|raw| - 1];
      assert raw == front + [last];
      DictIs(front);
      WithFieldIs(AsDict(front), last.0, last.1);
      forall key, value
        ensures (key, value) in AsDict(raw) <==>
          exists k :: 0 <= k < |raw| && raw[k] == (key, value) && forall l | k < l < |raw| :: raw[l].0 != key
      {
        LastWins(front, last, key, value);
      }
    }
  }

  lemma LastWins(front: seq<(string, Json)>, last: (string, Json), key: string, value: Json)
    ensures
      var raw := front + [last];
      (exists k :: 0 <= k < |raw| && raw[k] == (key, value) && forall l | k < l < |raw| :: raw[l].0 != key) <==>
      if key == last.0 then value == last.1
      else exists k :: 0 <= k < |front| && front[k] == (key, value) && forall l | k < l < |front| :: front[l].0 != key
  {
    var raw := front + [last];
    assert raw[|front|] == last;
    if key != last.0 {
      if k :| 0 <= k < |front| && front[k] == (key, value) && forall l | k < l < |front| :: front[l].0 != key {
        assert raw[k] == (key, value) && forall l | k < l < |raw| :: raw[l].0 != key;
      }
      if k :| 0 <= k < |raw| && raw[k] == (key, value) && forall l | k < l < |raw| :: raw[l].0 != key {
        assert k < |front| && front[k] == (key, value) && forall l | k < l < |front| :: raw[l] == front[l];
      }
    }
  }

  lemma {:induction false} WithFieldIs(fields: seq<(string, Json)>, key: string, value: Json)
    requires DistinctKeys(fields)
    ensures DistinctKeys(WithField(fields, key, value))
    ensures forall k, v :: (k, v) in WithField(fields, key, value) <==> if k == key then v == value else (k, v) in fields
  {
    if fields != [] {
      assert fields == [fields[0]] + fields[1..];
      if fields[0].0 != key {
        WithFieldIs(fields[1..], key, value);
        var more := WithField(fields[1..], key, value);
        forall j | 0 <= j < |more| ensures more[j].0 != fields[0].0 { assert (more[j].0, more[j].1) in more; }
      }
    }
  }
}
