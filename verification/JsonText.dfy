/** Compact JSON text (RFC 8259): the printer with string escaping, and a reader that takes a value off the front. */
module JsonText {
  import opened Wrappers

  /** `Decimal` keeps a number with a fraction or an exponent, or a word such as NaN, as it was spelt. */
  datatype Json =
    | Null
    | Bool(truth: bool)
    | Int(number: int)
    | Decimal(spelling: string)
    | Str(text: string)
    | Arr(items: seq<Json>)
    | Obj(fields: seq<(string, Json)>)

  // ---------- printing ----------

  function HexDigit(n: int): char
    requires 0 <= n < 16
  {
    if n < 10 then (n + '0' as int) as char else (n - 10 + 'a' as int) as char
  }

  function Escaped(c: char): string {
    match c
    case '\"' => "\\\""
    case '\\' => "\\\\"
    case '\n' => "\\n"
    case '\r' => "\\r"
    case '\t' => "\\t"
    case _ =>
      if c as int == 8 then "\\b"
      else if c as int == 12 then "\\f"
      else if c as int < 32 then "\\u00" + [HexDigit(c as int / 16), HexDigit(c as int % 16)]
      else [c]
  }

  function EscapedAll(text: string): string {
    if text == "" then "" else Escaped(text[0]) + EscapedAll(text[1..])
  }

  function Digits(n: nat): string
    ensures |Digits(n)| > 0
  {
    if n < 10 then [HexDigit(n)] else Digits(n / 10) + [HexDigit(n % 10)]
  }

  function PrintedInt(n: int): string {
    if n < 0 then "-" + Digits(-n) else Digits(n)
  }

  /** What the reader takes for one number with a fraction or an exponent, or for one of the three words. */
  predicate Spelt(spelling: string) { ReadPlain(spelling) == Some((Decimal(spelling), "")) }

  /** Values a document can hold: no key twice, and a number's spelling is one. */
  predicate Printable(v: Json) {
    match v
    case Decimal(spelling) => Spelt(spelling)
    case Arr(items) => forall i | 0 <= i < |items| :: Printable(items[i])
    case Obj(fields) => DistinctKeys(fields) && forall i | 0 <= i < |fields| :: Printable(fields[i].1)
    case _ => true
  }

  predicate DistinctKeys(fields: seq<(string, Json)>) {
    forall i, j | 0 <= i < j < |fields| :: fields[i].0 != fields[j].0
  }

  function Width(v: Json): nat {
    match v
    case Arr(items) => |items| + 1
    case Obj(fields) => |fields| + 1
    case _ => 0
  }

  function Print(v: Json): string
    requires Printable(v)
    decreases v, Width(v)
  {
    match v
    case Null => "null"
    case Bool(truth) => if truth then "true" else "false"
    case Int(n) => PrintedInt(n)
    case Decimal(spelling) => spelling
    case Str(text) => "\"" + EscapedAll(text) + "\""
    case Arr(items) => "[" + (if items == [] then "" else PrintItems(v, items, |items|)) + "]"
    case Obj(fields) => "{" + (if fields == [] then "" else PrintFields(v, fields, |fields|)) + "}"
  }

  /** The last `n` items. */
  function PrintItems(v: Json, items: seq<Json>, n: nat): string
    requires v == Arr(items) && Printable(v) && 0 < n <= |items|
    decreases v, n
  {
    var first := Print(items[|items| - n]);
    if n == 1 then first else first + "," + PrintItems(v, items, n - 1)
  }

  function PrintField(v: Json, fields: seq<(string, Json)>, n: nat): string
    requires v == Obj(fields) && Printable(v) && 0 < n <= |fields|
    decreases v, n, 0
  {
    var field := fields[|fields| - n];
    "\"" + EscapedAll(field.0) + "\":" + Print(field.1)
  }

  function PrintFields(v: Json, fields: seq<(string, Json)>, n: nat): string
    requires v == Obj(fields) && Printable(v) && 0 < n <= |fields|
    decreases v, n, 1
  {
    var first := PrintField(v, fields, n);
    if n == 1 then first else first + "," + PrintFields(v, fields, n - 1)
  }

  // ---------- reading ----------

  predicate Space(c: char) { c == ' ' || c == '\t' || c == '\n' || c == '\r' }

  function SkipSpace(s: string): (rest: string)
    ensures |rest| <= |s|
  {
    if s != "" && Space(s[0]) then SkipSpace(s[1..]) else s
  }

  function HexValue(c: char): Option<int> {
    if '0' <= c <= '9' then Some(c as int - '0' as int)
    else if 'a' <= c <= 'f' then Some(c as int - 'a' as int + 10)
    else if 'A' <= c <= 'F' then Some(c as int - 'A' as int + 10)
    else None
  }

  function FourHex(s: string): (r: Option<int>)
    ensures r.Some? ==> |s| >= 4
  {
    if |s| < 4 then None
    else
      var a, b, c, d := HexValue(s[0]), HexValue(s[1]), HexValue(s[2]), HexValue(s[3]);
      if a.None? || b.None? || c.None? || d.None? then None
      else Some(((a.value * 16 + b.value) * 16 + c.value) * 16 + d.value)
  }

  predicate High(n: int) { 0xD800 <= n < 0xDC00 }

  predicate Low(n: int) { 0xDC00 <= n < 0xE000 }

  /** The character a backslash escape stands for; `s` starts after the backslash. */
  function Unescaped(s: string): (r: Option<(char, string)>)
    ensures r.Some? ==> |r.value.1| < |s|
  {
    if s == "" then None
    else
      match s[0]
      case '\"' => Some(('\"', s[1..]))
      case '\\' => Some(('\\', s[1..]))
      case '/' => Some(('/', s[1..]))
      case 'b' => Some((8 as char, s[1..]))
      case 'f' => Some((12 as char, s[1..]))
      case 'n' => Some(('\n', s[1..]))
      case 'r' => Some(('\r', s[1..]))
      case 't' => Some(('\t', s[1..]))
      case 'u' => UnescapedCode(s)
      case _ => None
  }

  /** A pair of surrogates is one character. */
  function UnescapedCode(s: string): (r: Option<(char, string)>)
    requires s != ""
    ensures r.Some? ==> |r.value.1| < |s|
  {
    var n := FourHex(s[1..]);
    if n.None? then None
    else if 0 <= n.value < 0xD800 || 0xE000 <= n.value < 0x1_0000 then Some((n.value as char, s[5..]))
    else
      var m := if |s| >= 7 && s[5] == '\\' && s[6] == 'u' then FourHex(s[7..]) else None;
      if m.Some? && High(n.value) && Low(m.value)
      then Some((((n.value - 0xD800) * 0x400 + (m.value - 0xDC00) + 0x1_0000) as char, s[11..]))
      else None
  }

  /** The text of a string up to its closing quote; control characters are refused. */
  function ReadString(s: string): (r: Option<(string, string)>)
    ensures r.Some? ==> |r.value.1| < |s|
    decreases |s|
  {
    if s == "" then None
    else if s[0] == '\"' then Some(("", s[1..]))
    else if s[0] == '\\' then
      var c := Unescaped(s[1..]);
      if c.None? then None
      else
        var tail := ReadString(c.value.1);
        if tail.None? then None else Some(([c.value.0] + tail.value.0, tail.value.1))
    else if s[0] as int < 32 then None
    else
      var tail := ReadString(s[1..]);
      if tail.None? then None else Some(([s[0]] + tail.value.0, tail.value.1))
  }

  predicate IsDigit(c: char) { '0' <= c <= '9' }

  function DigitCount(s: string): (n: nat)
    ensures n <= |s| && (forall i | 0 <= i < n :: IsDigit(s[i])) && (n < |s| ==> !IsDigit(s[n]))
  {
    if s != "" && IsDigit(s[0]) then 1 + DigitCount(s[1..]) else 0
  }

  function NumberOf(digits: string): nat
    requires forall i | 0 <= i < |digits| :: IsDigit(digits[i])
  {
    if digits == "" then 0
    else
      var last := digits[|digits| - 1];
      assert IsDigit(last);
      NumberOf(digits[..|digits| - 1]) * 10 + (last as int - '0' as int)
  }

  function FractionLength(s: string): (n: nat)
    ensures n <= |s|
  {
    if |s| >= 2 && s[0] == '.' && IsDigit(s[1]) then 1 + DigitCount(s[1..]) else 0
  }

  function ExponentSign(s: string): nat { if |s| >= 2 && (s[1] == '+' || s[1] == '-') then 2 else 1 }

  function ExponentLength(s: string): (n: nat)
    ensures n <= |s|
  {
    var sign := ExponentSign(s);
    if |s| > sign && (s[0] == 'e' || s[0] == 'E') && IsDigit(s[sign]) then sign + DigitCount(s[sign..]) else 0
  }

  /** How many characters a fraction and an exponent take, if they are complete. */
  function TailLength(s: string): (n: nat)
    ensures n <= |s|
  {
    FractionLength(s) + ExponentLength(s[FractionLength(s)..])
  }

  /** The integer part: a zero stands alone. */
  function LeadingDigits(s: string): (n: nat)
    ensures n <= |s| && forall i | 0 <= i < n :: IsDigit(s[i])
  {
    if s != "" && s[0] == '0' then 1 else DigitCount(s)
  }

  function Negate(minus: bool, n: int): int { if minus then -n else n }

  function ReadNumber(s: string): (r: Option<(Json, string)>)
    ensures r.Some? ==> |r.value.1| < |s|
  {
    if s != "" && s[0] == '-' then ReadMagnitude(s, 1) else ReadMagnitude(s, 0)
  }

  function ReadMagnitude(s: string, sign: nat): (r: Option<(Json, string)>)
    requires sign <= 1 && sign <= |s|
    ensures r.Some? ==> |r.value.1| < |s|
  {
    var t := s[sign..];
    var digits := LeadingDigits(t);
    if digits == 0 then None
    else
      var tail := TailLength(t[digits..]);
      if tail > 0 then Some((Decimal(s[..sign + digits + tail]), t[digits..][tail..]))
      else Some((Int(Negate(sign == 1, NumberOf(t[..digits]))), t[digits..]))
  }

  predicate StartsWith(s: string, word: string) { |word| <= |s| && s[..|word|] == word }

  function WordAt(s: string): (r: Option<(Json, nat)>)
    ensures r.Some? ==> 0 < r.value.1 <= |s|
  {
    if StartsWith(s, "null") then Some((Null, 4))
    else if StartsWith(s, "true") then Some((Bool(true), 4))
    else if StartsWith(s, "false") then Some((Bool(false), 5))
    else if StartsWith(s, "NaN") then Some((Decimal("NaN"), 3))
    else if StartsWith(s, "Infinity") then Some((Decimal("Infinity"), 8))
    else if StartsWith(s, "-Infinity") then Some((Decimal("-Infinity"), 9))
    else None
  }

  /** A later field of the same name replaces the value of the earlier one, in its place. */
  function AsDict(pairs: seq<(string, Json)>): seq<(string, Json)> {
    if pairs == [] then []
    else WithField(AsDict(pairs[..|pairs| - 1]), pairs[|pairs| - 1].0, pairs[|pairs| - 1].1)
  }

  function WithField(fields: seq<(string, Json)>, key: string, value: Json): seq<(string, Json)> {
    if fields == [] then [(key, value)]
    else if fields[0].0 == key then [(key, value)] + fields[1..]
    else [fields[0]] + WithField(fields[1..], key, value)
  }

  /** The value at the very front of `s`, and what follows it. */
  function ReadValue(s: string): (r: Option<(Json, string)>)
    ensures r.Some? ==> |r.value.1| < |s|
    decreases |s|, 0
  {
    if s == "" then None
    else if s[0] == '\"' then
      var text := ReadString(s[1..]);
      if text.None? then None else Some((Str(text.value.0), text.value.1))
    else if s[0] == '{' then
      var t := SkipSpace(s[1..]);
      if t == "" then None
      else if t[0] == '}' then Some((Obj([]), t[1..]))
      else
        var pairs := ReadFields(t);
        if pairs.None? then None else Some((Obj(AsDict(pairs.value.0)), pairs.value.1))
    else if s[0] == '[' then
      var t := SkipSpace(s[1..]);
      if t == "" then None
      else if t[0] == ']' then Some((Arr([]), t[1..]))
      else
        var items := ReadItems(t);
        if items.None? then None else Some((Arr(items.value.0), items.value.1))
    else ReadPlain(s)
  }

  function ReadPlain(s: string): (r: Option<(Json, string)>)
    ensures r.Some? ==> |r.value.1| < |s|
  {
    var word := WordAt(s);
    if word.Some? then Some((word.value.0, s[word.value.1..])) else ReadNumber(s)
  }

  function ReadItems(s: string): (r: Option<(seq<Json>, string)>)
    ensures r.Some? ==> |r.value.1| < |s|
    decreases |s|, 1
  {
    var first := ReadValue(s);
    if first.None? then None
    else
      var t := SkipSpace(first.value.1);
      if t == "" then None
      else if t[0] == ']' then Some(([first.value.0], t[1..]))
      else if t[0] != ',' then None
      else
        var more := ReadItems(SkipSpace(t[1..]));
        if more.None? then None else Some(([first.value.0] + more.value.0, more.value.1))
  }

  function ReadField(s: string): (r: Option<((string, Json), string)>)
    ensures r.Some? ==> |r.value.1| < |s|
    decreases |s|, 1
  {
    if s == "" || s[0] != '\"' then None
    else
      var key := ReadString(s[1..]);
      if key.None? then None
      else
        var t := SkipSpace(key.value.1);
        if t == "" || t[0] != ':' then None
        else
          var value := ReadValue(SkipSpace(t[1..]));
          if value.None? then None else Some(((key.value.0, value.value.0), value.value.1))
  }

  function ReadFields(s: string): (r: Option<(seq<(string, Json)>, string)>)
    ensures r.Some? ==> |r.value.1| < |s|
    decreases |s|, 2
  {
    var first := ReadField(s);
    if first.None? then None
    else
      var t := SkipSpace(first.value.1);
      if t == "" then None
      else if t[0] == '}' then Some(([first.value.0], t[1..]))
      else if t[0] != ',' then None
      else
        var more := ReadFields(SkipSpace(t[1..]));
        if more.None? then None else Some(([first.value.0] + more.value.0, more.value.1))
  }

  /** A whole document: one value with nothing but space around it. */
  function Loads(s: string): Option<Json> {
    var value := ReadValue(SkipSpace(s));
    if value.None? || SkipSpace(value.value.1) != "" then None else Some(value.value.0)
  }

  // ---------- what is printed is read back ----------

  lemma EscapeBack(c: char, rest: string)
    ensures |Escaped(c)| >= 1 && Escaped(c)[0] != '\"'
    ensures Escaped(c)[0] != '\\' ==> Escaped(c) == [c] && c as int >= 32
    ensures Escaped(c)[0] == '\\' ==> Unescaped((Escaped(c) + rest)[1..]) == Some((c, rest))
  {
    var s := (Escaped(c) + rest)[1..];
    if 0 <= c as int < 32 && c !in "\n\r\t" && c as int != 8 && c as int != 12 {
      var high, low := HexDigit(c as int / 16), HexDigit(c as int % 16);
      assert s == "u00" + [high, low] + rest;
      assert s[1..][..4] == "00" + [high, low];
      assert HexValue(high) == Some(c as int / 16) && HexValue(low) == Some(c as int % 16);
      assert FourHex(s[1..]) == Some(c as int);
      assert s[5..] == rest;
    } else if Escaped(c)[0] == '\\' {
      assert s[1..] == rest;
    }
  }

  lemma {:induction false} StringBack(text: string, rest: string)
    ensures ReadString(EscapedAll(text) + "\"" + rest) == Some((text, rest))
  {
    if text == "" {
      assert EscapedAll(text) + "\"" + rest == "\"" + rest;
    } else {
      var tail := EscapedAll(text[1..]) + "\"" + rest;
      var s := EscapedAll(text) + "\"" + rest;
      assert s == Escaped(text[0]) + tail;
      EscapeBack(text[0], tail);
      StringBack(text[1..], rest);
      assert [text[0]] + text[1..] == text;
      if Escaped(text[0])[0] != '\\' { assert s[1..] == tail; }
    }
  }

  /** A number must be followed by something that cannot continue it. */
  predicate Stops(rest: string) {
    rest == "" || (!IsDigit(rest[0]) && rest[0] != '.' && rest[0] != 'e' && rest[0] != 'E')
  }

  lemma {:induction false} DigitsBack(n: nat)
    ensures forall i | 0 <= i < |Digits(n)| :: IsDigit(Digits(n)[i])
    ensures NumberOf(Digits(n)) == n && (Digits(n)[0] == '0' ==> n == 0)
    ensures n == 0 ==> Digits(n) == "0"
  {
    if n >= 10 {
      DigitsBack(n / 10);
      assert Digits(n)[..|Digits(n)| - 1] == Digits(n / 10);
    }
  }

  lemma {:induction false} CountedDigits(digits: string, rest: string)
    requires (forall i | 0 <= i < |digits| :: IsDigit(digits[i])) && (rest == "" || !IsDigit(rest[0]))
    ensures DigitCount(digits + rest) == |digits|
  {
    if digits == "" {
      assert digits + rest == rest;
    } else {
      assert (digits + rest)[1..] == digits[1..] + rest;
      CountedDigits(digits[1..], rest);
    }
  }

  lemma NoTail(rest: string)
    requires Stops(rest)
    ensures TailLength(rest) == 0
  {
  }

  lemma {:induction false} CountStays(s: string, rest: string)
    requires DigitCount(s) < |s| || rest == "" || !IsDigit(rest[0])
    ensures DigitCount(s + rest) == DigitCount(s)
  {
    if s == "" {
      assert s + rest == rest;
    } else {
      assert (s + rest)[1..] == s[1..] + rest;
      if IsDigit(s[0]) { CountStays(s[1..], rest); }
    }
  }

  lemma FractionStays(s: string, rest: string)
    requires Stops(rest)
    ensures FractionLength(s + rest) == FractionLength(s)
  {
    if |s| >= 2 {
      CountStays(s[1..], rest);
      assert (s + rest)[1..] == s[1..] + rest;
    } else if s == "" {
      assert s + rest == rest;
    }
    hide DigitCount;
  }

  lemma ExponentStays(s: string, rest: string)
    requires ExponentLength(s) == |s| && Stops(rest)
    ensures ExponentLength(s + rest) == |s|
  {
    if s == "" {
      assert s + rest == rest;
    } else {
      var sign := ExponentSign(s);
      CountStays(s[sign..], rest);
      assert (s + rest)[sign..] == s[sign..] + rest;
    }
    hide DigitCount;
  }

  /** A fraction and an exponent end where the text they were read from ended. */
  lemma TailStays(s: string, rest: string)
    requires TailLength(s) == |s| && Stops(rest)
    ensures TailLength(s + rest) == |s|
  {
    FractionStays(s, rest);
    var fraction := FractionLength(s);
    ExponentStays(s[fraction..], rest);
    assert (s + rest)[fraction..] == s[fraction..] + rest;
    hide FractionLength;
    hide ExponentLength;
  }

  lemma LeadingStays(s: string, rest: string)
    requires 0 < LeadingDigits(s) < |s|
    ensures LeadingDigits(s + rest) == LeadingDigits(s) && IsDigit(s[0])
  {
    if s[0] != '0' { CountStays(s, rest); }
  }

  lemma DecimalMagnitude(s: string, sign: nat)
    requires sign <= 1 && sign <= |s| && ReadMagnitude(s, sign) == Some((Decimal(s), ""))
    ensures
      var t := s[sign..];
      && 0 < LeadingDigits(t) < |t| && TailLength(t[LeadingDigits(t)..]) == |t[LeadingDigits(t)..]|
  {
    hide TailLength;
    hide DigitCount;
    hide NumberOf;
  }

  lemma MagnitudeIs(s: string, sign: nat, w: string, rest: string)
    requires sign <= 1 && sign <= |s| && s == w + rest && sign < |w|
    requires
      var t := s[sign..];
      0 < LeadingDigits(t) < |w| - sign && TailLength(t[LeadingDigits(t)..]) == |w| - sign - LeadingDigits(t)
    ensures ReadMagnitude(s, sign) == Some((Decimal(w), rest))
  {
    var t := s[sign..];
    var u := t[LeadingDigits(t)..];
    assert u[|w| - sign - LeadingDigits(t)..] == rest && s[..|w|] == w;
    hide TailLength;
    hide DigitCount;
    hide NumberOf;
  }

  lemma Suffix(t: string, n: nat, rest: string)
    requires n <= |t|
    ensures (t + rest)[n..] == t[n..] + rest
  {
  }

  lemma PartsStay(t: string, n: nat, x: string, rest: string)
    requires x == t + rest && n == LeadingDigits(t) && 0 < n < |t| && TailLength(t[n..]) == |t| - n && Stops(rest)
    ensures LeadingDigits(x) == n && TailLength(x[n..]) == |t| - n && IsDigit(t[0])
  {
    hide *;
    var u := t[n..];
    LeadingStays(t, rest);
    assert LeadingDigits(x) == n;
    TailStays(u, rest);
    Suffix(t, n, rest);
    assert x[n..] == u + rest;
  }

  lemma MagnitudeStays(s: string, sign: nat, rest: string)
    requires sign <= 1 && sign <= |s| && ReadMagnitude(s, sign) == Some((Decimal(s), "")) && Stops(rest)
    ensures ReadMagnitude(s + rest, sign) == Some((Decimal(s), rest))
    ensures |s| > sign && IsDigit(s[sign])
  {
    DecimalMagnitude(s, sign);
    hide *;
    var whole := s + rest;
    var t := s[sign..];
    assert whole[sign..] == t + rest;
    PartsStay(t, LeadingDigits(t), whole[sign..], rest);
    MagnitudeIs(whole, sign, s, rest);
  }

  lemma NumberRead(s: string, sign: nat, digits: string, rest: string)
    requires sign <= 1 && sign <= |s| && s[sign..] == digits + rest && digits != "" && IsDigit(digits[0])
    requires DigitCount(digits + rest) == |digits| && (digits[0] == '0' ==> |digits| == 1) && TailLength(rest) == 0
    requires forall i | 0 <= i < |digits| :: IsDigit(digits[i])
    ensures ReadMagnitude(s, sign) == Some((Int(Negate(sign == 1, NumberOf(digits))), rest))
  {
    hide DigitCount;
    hide NumberOf;
    hide TailLength;
    assert (digits + rest)[..|digits|] == digits && (digits + rest)[|digits|..] == rest;
  }

  lemma IntBack(n: int, rest: string)
    requires Stops(rest)
    ensures ReadNumber(PrintedInt(n) + rest) == Some((Int(n), rest))
  {
    var magnitude: nat := if n < 0 then -n else n;
    var digits := Digits(magnitude);
    DigitsBack(magnitude);
    assert IsDigit(digits[0]) && (digits[0] == '0' ==> |digits| == 1);
    CountedDigits(digits, rest);
    NoTail(rest);
    SignedDigits(n, digits, rest);
    hide *;
    NumberRead(PrintedInt(n) + rest, if n < 0 then 1 else 0, digits, rest);
  }

  lemma SignedDigits(n: int, digits: string, rest: string)
    requires digits == Digits(if n < 0 then -n else n) && |digits| > 0 && IsDigit(digits[0])
    ensures
      var s := PrintedInt(n) + rest;
      var sign := if n < 0 then 1 else 0;
      && sign <= |s| && s[sign..] == digits + rest && ReadNumber(s) == ReadMagnitude(s, sign)
      && Negate(sign == 1, if n < 0 then -n else n) == n
  {
    hide Digits;
    hide ReadMagnitude;
    assert (PrintedInt(n) + rest)[0] == if n < 0 then '-' else digits[0];
  }

  lemma {:induction false} NewField(fields: seq<(string, Json)>, key: string, value: Json)
    requires forall i | 0 <= i < |fields| :: fields[i].0 != key
    ensures WithField(fields, key, value) == fields + [(key, value)]
  {
    if fields != [] { NewField(fields[1..], key, value); }
  }

  lemma {:induction false} DictBack(fields: seq<(string, Json)>)
    requires DistinctKeys(fields)
    ensures AsDict(fields) == fields
  {
    if fields != [] {
      var before := fields[..|fields| - 1];
      DictBack(before);
      NewField(before, fields[|fields| - 1].0, fields[|fields| - 1].1);
    }
  }

  lemma FrontOf(v: Json)
    requires Printable(v)
    ensures |Print(v)| > 0 && !Space(Print(v)[0]) && Print(v)[0] != ']' && Print(v)[0] != '}'
    ensures v.Int? ==> (Print(v)[0] == '-' && |Print(v)| >= 2 && IsDigit(Print(v)[1])) || IsDigit(Print(v)[0])
    ensures v.Obj? ==> Print(v)[0] == '{'
  {
    hide PrintItems;
    hide PrintFields;
    hide EscapedAll;
    hide Digits;
    hide Spelt;
    if v.Int? { DigitsBack(if v.number < 0 then -v.number else v.number); }
    if v.Decimal? { DecimalFront(v.spelling); }
  }

  // one step of the reader each

  lemma StringRead(t: string, text: string, rest: string)
    requires ReadString(t) == Some((text, rest))
    ensures ReadValue("\"" + t) == Some((Str(text), rest))
  {
    assert ("\"" + t)[1..] == t;
  }

  lemma NotWord(s: string, word: string, i: nat)
    requires i < |s| && i < |word| && s[i] != word[i]
    ensures !StartsWith(s, word)
  {
    assert |word| <= |s| ==> s[..|word|][i] == s[i];
  }

  lemma NoWord(s: string)
    requires s != "" && (IsDigit(s[0]) || (s[0] == '-' && |s| >= 2 && IsDigit(s[1])))
    ensures WordAt(s) == None
  {
    NotWord(s, "null", 0);
    NotWord(s, "true", 0);
    NotWord(s, "false", 0);
    NotWord(s, "NaN", 0);
    NotWord(s, "Infinity", 0);
    NotWord(s, "-Infinity", if s[0] == '-' then 1 else 0);
    hide StartsWith;
  }

  lemma PlainFront(s: string)
    requires s != "" && s[0] != '\"' && s[0] != '{' && s[0] != '['
    ensures ReadValue(s) == ReadPlain(s)
  {
    hide ReadPlain;
    hide ReadString;
    hide ReadFields;
    hide ReadItems;
    hide SkipSpace;
    hide AsDict;
  }

  lemma NumberFront(s: string)
    requires s != "" && (IsDigit(s[0]) || (s[0] == '-' && |s| >= 2 && IsDigit(s[1])))
    ensures ReadValue(s) == ReadNumber(s)
  {
    hide ReadValue;
    PlainFront(s);
    NoWord(s);
    hide WordAt;
    hide ReadNumber;
  }

  predicate IsWord(spelling: string) { spelling == "NaN" || spelling == "Infinity" || spelling == "-Infinity" }

  lemma WordIs(s: string, spelling: string, n: nat)
    requires WordAt(s) == Some((Decimal(spelling), n))
    ensures n <= |s| && s[..n] == spelling && IsWord(spelling)
  {
  }

  lemma SpeltIs(spelling: string)
    requires Spelt(spelling)
    ensures IsWord(spelling) || (WordAt(spelling) == None && ReadNumber(spelling) == Some((Decimal(spelling), "")))
  {
    var word := WordAt(spelling);
    if word.Some? { WordIs(spelling, spelling, word.value.1); }
    hide WordAt;
    hide ReadNumber;
  }

  lemma DecimalFront(spelling: string)
    requires Spelt(spelling)
    ensures spelling != "" && (IsDigit(spelling[0]) || spelling[0] in "-NI")
  {
    SpeltIs(spelling);
    if !IsWord(spelling) { NumberStays(spelling, ""); }
    hide *;
  }

  lemma NumberStays(s: string, rest: string)
    requires ReadNumber(s) == Some((Decimal(s), "")) && Stops(rest)
    ensures s != "" && (IsDigit(s[0]) || (s[0] == '-' && |s| >= 2 && IsDigit(s[1])))
    ensures ReadNumber(s + rest) == Some((Decimal(s), rest))
  {
    MagnitudeStays(s, if s != "" && s[0] == '-' then 1 else 0, rest);
    hide ReadMagnitude;
  }

  lemma WordStays(spelling: string, rest: string)
    requires IsWord(spelling)
    ensures ReadPlain(spelling + rest) == Some((Decimal(spelling), rest))
  {
    var s := spelling + rest;
    assert s[..|spelling|] == spelling && s[|spelling|..] == rest;
    NotWord(s, "null", 0);
    NotWord(s, "true", 0);
    NotWord(s, "false", 0);
    if spelling != "NaN" { NotWord(s, "NaN", 0); }
    if spelling == "-Infinity" { NotWord(s, "Infinity", 0); }
    assert StartsWith(s, spelling);
    hide StartsWith;
    hide ReadNumber;
  }

  /** A spelling is read back in front of anything that cannot continue a number. */
  lemma DecimalBack(spelling: string, rest: string)
    requires Spelt(spelling) && Stops(rest)
    ensures ReadPlain(spelling + rest) == Some((Decimal(spelling), rest))
  {
    SpeltIs(spelling);
    if IsWord(spelling) {
      WordStays(spelling, rest);
    } else {
      NumberStays(spelling, rest);
      NoWord(spelling + rest);
    }
    hide WordAt;
    hide ReadNumber;
  }

  lemma WordRead(v: Json, rest: string)
    requires v.Null? || v.Bool?
    ensures ReadValue(Print(v) + rest) == Some((v, rest))
  {
    var s := Print(v) + rest;
    match v
    case Null =>
      assert StartsWith(s, "null") && s[4..] == rest;
    case Bool(true) =>
      assert StartsWith(s, "true") && s[4..] == rest;
    case Bool(false) =>
      assert StartsWith(s, "false") && s[5..] == rest;
  }

  lemma EmptyRead(rest: string)
    ensures ReadValue("[]" + rest) == Some((Arr([]), rest)) && ReadValue("{}" + rest) == Some((Obj([]), rest))
  {
    assert ("[]" + rest)[1..] == "]" + rest && ("{}" + rest)[1..] == "}" + rest;
    assert ("]" + rest)[1..] == rest && ("}" + rest)[1..] == rest;
  }

  lemma ArrayRead(t: string, items: seq<Json>, rest: string)
    requires t != "" && !Space(t[0]) && t[0] != ']' && ReadItems(t) == Some((items, rest))
    ensures ReadValue("[" + t) == Some((Arr(items), rest))
  {
    hide ReadItems;
    assert ("[" + t)[1..] == t;
  }

  lemma ObjectRead(t: string, pairs: seq<(string, Json)>, rest: string)
    requires t != "" && t[0] == '\"' && ReadFields(t) == Some((pairs, rest))
    ensures ReadValue("{" + t) == Some((Obj(AsDict(pairs)), rest))
  {
    hide ReadFields;
    hide AsDict;
    assert ("{" + t)[1..] == t;
  }

  lemma LastItem(s: string, item: Json, rest: string)
    requires ReadValue(s) == Some((item, "]" + rest))
    ensures ReadItems(s) == Some(([item], rest))
  {
    hide ReadValue;
    assert ("]" + rest)[1..] == rest;
  }

  lemma MoreItems(s: string, item: Json, t: string, more: seq<Json>, rest: string)
    requires t != "" && !Space(t[0]) && ReadValue(s) == Some((item, "," + t)) && ReadItems(t) == Some((more, rest))
    ensures ReadItems(s) == Some(([item] + more, rest))
  {
    hide ReadValue;
    assert ("," + t)[1..] == t;
  }

  lemma LastField(s: string, field: (string, Json), rest: string)
    requires ReadField(s) == Some((field, "}" + rest))
    ensures ReadFields(s) == Some(([field], rest))
  {
    hide ReadField;
    assert ("}" + rest)[1..] == rest;
  }

  lemma MoreFields(s: string, field: (string, Json), t: string, more: seq<(string, Json)>, rest: string)
    requires t != "" && !Space(t[0]) && ReadField(s) == Some((field, "," + t)) && ReadFields(t) == Some((more, rest))
    ensures ReadFields(s) == Some(([field] + more, rest))
  {
    hide ReadField;
    assert ("," + t)[1..] == t;
  }

  lemma FieldRead(t: string, key: string, u: string, value: Json, rest: string)
    requires ReadString(t) == Some((key, ":" + u)) && u != "" && !Space(u[0]) && ReadValue(u) == Some((value, rest))
    ensures ReadField("\"" + t) == Some(((key, value), rest))
  {
    hide ReadString;
    hide ReadValue;
    assert ("\"" + t)[1..] == t && (":" + u)[1..] == u;
  }

  /** Reading a printed value in front of anything gives the value and leaves the rest. */
  lemma {:induction false} ValueBack(v: Json, rest: string)
    requires Printable(v) && (v.Int? || v.Decimal? ==> Stops(rest))
    ensures ReadValue(Print(v) + rest) == Some((v, rest))
    decreases v, Width(v)
  {
    hide ReadValue;
    hide ReadItems;
    hide ReadFields;
    hide Print;
    hide PrintItems;
    hide PrintFields;
    hide Spelt;
    hide Stops;
    hide DistinctKeys;
    match v
    case Null => WordRead(v, rest);
    case Bool(_) => WordRead(v, rest);
    case Int(n) => IntRead(n, rest);
    case Decimal(spelling) => DecimalRead(spelling, rest);
    case Str(text) => TextRead(text, rest);
    case Arr(items) =>
      if items != [] { ItemsBack(v, items, |items|, rest); }
      ArrayBack(v, items, rest);
    case Obj(fields) =>
      if fields != [] { FieldsBack(v, fields, |fields|, rest); }
      ObjectBack(v, fields, rest);
  }

  lemma IntRead(n: int, rest: string)
    requires Stops(rest)
    ensures ReadValue(Print(Int(n)) + rest) == Some((Int(n), rest))
  {
    hide ReadValue;
    FrontOf(Int(n));
    hide PrintedInt;
    NumberFront(PrintedInt(n) + rest);
    IntBack(n, rest);
  }

  lemma DecimalRead(spelling: string, rest: string)
    requires Spelt(spelling) && Stops(rest)
    ensures ReadValue(Print(Decimal(spelling)) + rest) == Some((Decimal(spelling), rest))
  {
    hide ReadValue;
    hide ReadPlain;
    DecimalFront(spelling);
    PlainFront(spelling + rest);
    DecimalBack(spelling, rest);
  }

  lemma TextRead(text: string, rest: string)
    ensures ReadValue(Print(Str(text)) + rest) == Some((Str(text), rest))
  {
    hide ReadValue;
    hide EscapedAll;
    StringBack(text, rest);
    StringRead(EscapedAll(text) + "\"" + rest, text, rest);
    assert Print(Str(text)) + rest == "\"" + (EscapedAll(text) + "\"" + rest);
  }

  lemma ArrayBack(v: Json, items: seq<Json>, rest: string)
    requires v == Arr(items) && Printable(v)
    requires items != [] ==> ReadItems(PrintItems(v, items, |items|) + "]" + rest) == Some((items, rest))
    ensures ReadValue(Print(v) + rest) == Some((v, rest))
  {
    hide ReadValue;
    hide ReadItems;
    if items == [] {
      assert Print(v) == "[]";
      EmptyRead(rest);
    } else {
      FrontOfItems(v, items, |items|);
      var t := PrintItems(v, items, |items|) + "]" + rest;
      hide *;
      ArrayRead(t, items, rest);
      ArrayText(v, items, rest);
    }
  }

  lemma ArrayText(v: Json, items: seq<Json>, rest: string)
    requires v == Arr(items) && Printable(v) && items != []
    ensures Print(v) + rest == "[" + (PrintItems(v, items, |items|) + "]" + rest)
  {
    hide PrintItems;
  }

  lemma ObjectBack(v: Json, fields: seq<(string, Json)>, rest: string)
    requires v == Obj(fields) && Printable(v)
    requires fields != [] ==> ReadFields(PrintFields(v, fields, |fields|) + "}" + rest) == Some((fields, rest))
    ensures ReadValue(Print(v) + rest) == Some((v, rest))
  {
    hide ReadValue;
    hide ReadFields;
    if fields == [] {
      assert Print(v) == "{}";
      EmptyRead(rest);
    } else {
      DictBack(fields);
      FrontOfFields(v, fields, |fields|);
      var t := PrintFields(v, fields, |fields|) + "}" + rest;
      hide *;
      ObjectRead(t, fields, rest);
      ObjectText(v, fields, rest);
    }
  }

  lemma ObjectText(v: Json, fields: seq<(string, Json)>, rest: string)
    requires v == Obj(fields) && Printable(v) && fields != []
    ensures Print(v) + rest == "{" + (PrintFields(v, fields, |fields|) + "}" + rest)
  {
    hide PrintFields;
  }

  lemma FrontOfItems(v: Json, items: seq<Json>, n: nat)
    requires v == Arr(items) && Printable(v) && 0 < n <= |items|
    ensures |PrintItems(v, items, n)| > 0 && !Space(PrintItems(v, items, n)[0]) && PrintItems(v, items, n)[0] != ']'
  {
    FrontOf(items[|items| - n]);
  }

  lemma FrontOfFields(v: Json, fields: seq<(string, Json)>, n: nat)
    requires v == Obj(fields) && Printable(v) && 0 < n <= |fields|
    ensures |PrintFields(v, fields, n)| > 0 && PrintFields(v, fields, n)[0] == '\"' && !Space('\"')
  {
  }

  lemma {:induction false} ItemsBack(v: Json, items: seq<Json>, n: nat, rest: string)
    requires v == Arr(items) && Printable(v) && 0 < n <= |items|
    ensures ReadItems(PrintItems(v, items, n) + "]" + rest) == Some((items[|items| - n..], rest))
    decreases v, n
  {
    hide ReadItems;
    hide ReadValue;
    var item := items[|items| - n];
    var s := PrintItems(v, items, n) + "]" + rest;
    if n == 1 {
      assert s == Print(item) + ("]" + rest);
      ValueBack(item, "]" + rest);
      LastItem(s, item, rest);
      assert items[|items| - n..] == [item];
    } else {
      var t := PrintItems(v, items, n - 1) + "]" + rest;
      assert s == Print(item) + ("," + t);
      ValueBack(item, "," + t);
      ItemsBack(v, items, n - 1, rest);
      FrontOfItems(v, items, n - 1);
      MoreItems(s, item, t, items[|items| - (n - 1)..], rest);
      assert items[|items| - n..] == [item] + items[|items| - (n - 1)..];
    }
  }

  lemma {:induction false} FieldBack(v: Json, fields: seq<(string, Json)>, n: nat, after: string)
    requires v == Obj(fields) && Printable(v) && 0 < n <= |fields| && Stops(after)
    ensures ReadField(PrintField(v, fields, n) + after) == Some((fields[|fields| - n], after))
    decreases v, n, 0
  {
    hide ReadField;
    hide ReadValue;
    hide ReadString;
    hide PrintField;
    hide EscapedAll;
    var field := fields[|fields| - n];
    var u := Print(field.1) + after;
    var t := EscapedAll(field.0) + "\"" + (":" + u);
    StringBack(field.0, ":" + u);
    FrontOf(field.1);
    ValueBack(field.1, after);
    FieldRead(t, field.0, u, field.1, after);
    FieldText(v, fields, n, after);
  }

  lemma FieldText(v: Json, fields: seq<(string, Json)>, n: nat, after: string)
    requires v == Obj(fields) && Printable(v) && 0 < n <= |fields|
    ensures
      var field := fields[|fields| - n];
      PrintField(v, fields, n) + after == "\"" + (EscapedAll(field.0) + "\"" + (":" + (Print(field.1) + after)))
  {
    hide EscapedAll;
    hide Print;
  }

  lemma {:induction false} FieldsBack(v: Json, fields: seq<(string, Json)>, n: nat, rest: string)
    requires v == Obj(fields) && Printable(v) && 0 < n <= |fields|
    ensures ReadFields(PrintFields(v, fields, n) + "}" + rest) == Some((fields[|fields| - n..], rest))
    decreases v, n, 1
  {
    hide ReadFields;
    hide ReadField;
    hide PrintField;
    var field := fields[|fields| - n];
    var s := PrintFields(v, fields, n) + "}" + rest;
    if n == 1 {
      assert s == PrintField(v, fields, n) + ("}" + rest);
      FieldBack(v, fields, n, "}" + rest);
      LastField(s, field, rest);
      assert fields[|fields| - n..] == [field];
    } else {
      var t := PrintFields(v, fields, n - 1) + "}" + rest;
      assert s == PrintField(v, fields, n) + ("," + t);
      FieldBack(v, fields, n, "," + t);
      FieldsBack(v, fields, n - 1, rest);
      FrontOfFields(v, fields, n - 1);
      MoreFields(s, field, t, fields[|fields| - (n - 1)..], rest);
      assert fields[|fields| - n..] == [field] + fields[|fields| - (n - 1)..];
    }
  }

  lemma DocumentBack(v: Json)
    requires Printable(v)
    ensures Loads(Print(v)) == Some(v)
  {
    FrontOf(v);
    ValueBack(v, "");
    assert Print(v) + "" == Print(v);
  }
}
