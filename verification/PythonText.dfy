/** The few string operations of the host language that the text cores rely on. */
module PythonText {

  /** Characters that stripping removes at both ends. */
  predicate Blank(c: char) {
    var n := c as int;
    || 9 <= n <= 13 || 28 <= n <= 32 || n == 0x85 || n == 0xA0 || n == 0x1680 || 0x2000 <= n <= 0x200A
    || n == 0x2028 || n == 0x2029 || n == 0x202F || n == 0x205F || n == 0x3000
  }

  lemma BlanksAre(c: char)
    ensures Blank(c) <==> c in "\t\n\U{0B}\U{0C}\r\U{1C}\U{1D}\U{1E}\U{1F} \U{85}\U{A0}\U{1680}"
                               + "\U{2000}\U{2001}\U{2002}\U{2003}\U{2004}\U{2005}\U{2006}\U{2007}\U{2008}\U{2009}\U{200A}"
                               + "\U{2028}\U{2029}\U{202F}\U{205F}\U{3000}"
  {
  }

  predicate Stripped(s: string) { s == "" || (!Blank(s[0]) && !Blank(s[|s| - 1])) }

  /** The part of `s` between leading and trailing blanks. */
  function Strip(s: string): (r: string)
    ensures Stripped(r) && forall c | c in r :: c in s
    decreases |s|
  {
    if s == "" then ""
    else if Blank(s[0]) then Strip(s[1..])
    else if Blank(s[|s| - 1]) then Strip(s[..|s| - 1])
    else s
  }

  lemma {:induction false} StripLeading(s: string, c: char)
    requires Blank(c)
    ensures Strip([c] + s) == Strip(s)
  {
    assert ([c] + s)[1..] == s;
  }

  lemma {:induction false} StripTrailing(s: string, c: char)
    requires Blank(c)
    ensures Strip(s + [c]) == Strip(s)
    decreases |s|
  {
    if s == "" {
      assert s + [c] == [c];
    } else if Blank(s[0]) {
      assert (s + [c])[1..] == s[1..] + [c];
      StripTrailing(s[1..], c);
    } else {
      assert (s + [c])[..|s|] == s;
    }
  }

  predicate AllBlank(text: string) { forall i | 0 <= i < |text| :: Blank(text[i]) }

  /** Stripping takes off blanks at both ends and nothing else. */
  lemma {:induction false} StripParts(text: string) returns (before: string, after: string)
    ensures text == before + Strip(text) + after && AllBlank(before) && AllBlank(after)
    decreases |text|
  {
    StripStep(text);
    hide *;
    before, after := "", "";
    if text == "" {
      AllBlankMore("", "");
    } else if Blank(text[0]) {
      before, after := StripParts(text[1..]);
      AllBlankMore([text[0]], before);
      before := [text[0]] + before;
      assert text == [text[0]] + text[1..];
    } else if Blank(text[|text| - 1]) {
      before, after := StripParts(text[..|text| - 1]);
      AllBlankMore(after, [text[|text| - 1]]);
      after := after + [text[|text| - 1]];
      assert text == text[..|text| - 1] + [text[|text| - 1]];
    } else {
      AllBlankMore("", "");
    }
  }

  lemma StripStep(text: string)
    ensures
      if text == "" then Strip(text) == ""
      else if Blank(text[0]) then Strip(text) == Strip(text[1..])
      else if Blank(text[|text| - 1]) then Strip(text) == Strip(text[..|text| - 1])
      else Strip(text) == text
  {
    hide Blank;
  }

  lemma AllBlankMore(x: string, y: string)
    ensures (forall i | 0 <= i < |x| :: Blank(x[i])) && AllBlank(y) ==> AllBlank(x + y)
    ensures AllBlank(x) && (forall i | 0 <= i < |y| :: Blank(y[i])) ==> AllBlank(x + y)
    ensures AllBlank("")
  {
    hide Blank;
  }

  // ---------- splitting at a character ----------

  function Split(s: string, at: char): (parts: seq<string>)
    ensures |parts| >= 1
  {
    if s == "" then [""]
    else if s[0] == at then [""] + Split(s[1..], at)
    else
      var rest := Split(s[1..], at);
      [[s[0]] + rest[0]] + rest[1..]
  }

  function Join(parts: seq<string>, at: char): string
    requires |parts| >= 1
  {
    if |parts| == 1 then parts[0] else parts[0] + [at] + Join(parts[1..], at)
  }

  lemma {:induction false} SplitFree(s: string, at: char)
    ensures forall part, c | part in Split(s, at) && c in part :: c != at && c in s
  {
    if s != "" { SplitFree(s[1..], at); }
  }

  lemma {:induction false} SplitFirst(part: string, at: char, rest: string)
    requires at !in part
    ensures Split(part + [at] + rest, at) == [part] + Split(rest, at)
  {
    var s := part + [at] + rest;
    if part == "" {
      assert s == [at] + rest && s[1..] == rest;
    } else {
      assert s[1..] == part[1..] + [at] + rest;
      SplitFirst(part[1..], at, rest);
      assert [s[0]] + part[1..] == part;
    }
  }

  lemma {:induction false} SplitOne(part: string, at: char)
    requires at !in part
    ensures Split(part, at) == [part]
  {
    if part != "" {
      SplitOne(part[1..], at);
      assert [part[0]] + part[1..] == part;
    }
  }

  lemma {:induction false} SplitJoin(parts: seq<string>, at: char)
    requires |parts| >= 1 && forall part | part in parts :: at !in part
    ensures Split(Join(parts, at), at) == parts
  {
    if |parts| == 1 {
      SplitOne(parts[0], at);
    } else {
      SplitJoin(parts[1..], at);
      SplitFirst(parts[0], at, Join(parts[1..], at));
    }
  }

  // ---------- lines ----------

  predicate LineBreak(c: char) {
    var n := c as int;
    10 <= n <= 13 || 28 <= n <= 30 || n == 0x85 || n == 0x2028 || n == 0x2029
  }

  lemma LineBreaksAre(c: char)
    ensures LineBreak(c) <==> c in "\n\U{0B}\U{0C}\r\U{1C}\U{1D}\U{1E}\U{85}\U{2028}\U{2029}"
  {
  }

  /** The length of the first line with its line break; a carriage return and a line feed are one break. */
  function LineLength(s: string): (n: nat)
    requires s != ""
    ensures 0 < n <= |s|
  {
    if LineBreak(s[0]) then (if s[0] == '\r' && |s| > 1 && s[1] == '\n' then 2 else 1)
    else if |s| == 1 then 1
    else 1 + LineLength(s[1..])
  }

  /** The lines of `s`, each with its line break. */
  function Lines(s: string): seq<string>
    decreases |s|
  {
    if s == "" then [] else [s[..LineLength(s)]] + Lines(s[LineLength(s)..])
  }

  function Text(lines: seq<string>): string {
    if lines == [] then "" else lines[0] + Text(lines[1..])
  }

  predicate OneLine(l: string) { l != "" && LineLength(l) == |l| }

  predicate EndsBreak(l: string) { l != "" && LineBreak(l[|l| - 1]) }

  predicate EndsFeed(l: string) { l != "" && l[|l| - 1] == '\n' }

  predicate BareReturn(l: string) { l != "" && l[|l| - 1] == '\r' }

  /** A line stays apart from the text after it: it has a line break, and the two do not make a longer one. */
  predicate Joined(l: string, next: string) {
    EndsBreak(l) && !(BareReturn(l) && next != "" && next[0] == '\n')
  }

  predicate WellJoined(lines: seq<string>) { forall i | 0 <= i < |lines| - 1 :: Joined(lines[i], lines[i + 1]) }

  lemma {:induction false} LineIsOne(s: string)
    requires s != ""
    ensures OneLine(s[..LineLength(s)])
  {
    var l := s[..LineLength(s)];
    if !LineBreak(s[0]) && |s| > 1 {
      LineIsOne(s[1..]);
      assert l[1..] == s[1..][..LineLength(s[1..])];
    }
  }

  /** Exactly then a line is cut off before the text that follows it. */
  lemma {:induction false} JoinedLength(l: string, next: string)
    requires OneLine(l) && next != ""
    ensures LineLength(l + next) == |l| <==> Joined(l, next)
  {
    var s := l + next;
    if LineBreak(l[0]) {
      if |l| == 1 { assert s[1] == next[0]; }
    } else if |l| == 1 {
      assert s[1..] == next;
    } else {
      assert s[1..] == l[1..] + next;
      JoinedLength(l[1..], next);
    }
  }

  lemma {:induction false} LinesText(s: string)
    ensures Text(Lines(s)) == s && forall l | l in Lines(s) :: OneLine(l)
    decreases |s|
  {
    if s != "" {
      LineIsOne(s);
      LinesText(s[LineLength(s)..]);
      hide LineLength;
      hide OneLine;
      assert s[..LineLength(s)] + s[LineLength(s)..] == s;
    }
  }

  /** Lines put together are split into the same lines exactly when each stays apart from the next. */
  lemma {:induction false} LinesTextIff(lines: seq<string>)
    requires forall l | l in lines :: OneLine(l)
    ensures Lines(Text(lines)) == lines <==> WellJoined(lines)
  {
    if lines != [] {
      var l, rest := lines[0], lines[1..];
      var next := Text(rest);
      assert OneLine(l) && forall m | m in rest :: m in lines;
      if rest == [] {
        assert l + next == l && l[|l|..] == "";
      } else {
        assert rest[0] in lines && next[0] == rest[0][0];
        JoinedLength(l, next);
        LinesTextIff(rest);
        hide OneLine;
        hide LineLength;
        FirstLine(l, next);
        WellJoinedHead(lines);
        hide Lines;
        hide Joined;
        hide WellJoined;
      }
    }
  }

  lemma FirstLine(l: string, next: string)
    requires l != "" && next != ""
    ensures LineLength(l + next) == |l| ==> Lines(l + next) == [l] + Lines(next)
    ensures LineLength(l + next) != |l| ==> Lines(l + next)[0] != l
  {
    var s := l + next;
    assert s[..|l|] == l && s[|l|..] == next;
    assert Lines(s)[0] == s[..LineLength(s)];
    hide LineLength;
  }

  lemma WellJoinedHead(lines: seq<string>)
    requires |lines| > 1 && lines[1] != "" && Text(lines[1..]) != "" && Text(lines[1..])[0] == lines[1][0]
    ensures WellJoined(lines) <==> Joined(lines[0], Text(lines[1..])) && WellJoined(lines[1..])
  {
    hide Text;
    assert Joined(lines[0], Text(lines[1..])) <==> Joined(lines[0], lines[1]);
    hide Joined;
    var rest := lines[1..];
    if WellJoined(lines) {
      forall i | 0 <= i < |rest| - 1 ensures Joined(rest[i], rest[i + 1]) {
        assert Joined(lines[i + 1], lines[i + 1 + 1]);
      }
    }
    if WellJoined(rest) && Joined(lines[0], lines[1]) {
      forall i | 0 <= i < |lines| - 1 ensures Joined(lines[i], lines[i + 1]) {
        if i > 0 { assert Joined(rest[i - 1], rest[i]); }
      }
    }
  }

  /** A line without its line break. */
  function Bare(l: string): string {
    if |l| >= 2 && l[|l| - 2] == '\r' && l[|l| - 1] == '\n' then l[..|l| - 2]
    else if l != "" && LineBreak(l[|l| - 1]) then l[..|l| - 1]
    else l
  }

  predicate NoBreak(s: string) { forall c | c in s :: !LineBreak(c) }

  lemma {:induction false} BareClean(l: string)
    requires OneLine(l)
    ensures NoBreak(Bare(l))
  {
    if !LineBreak(l[0]) && |l| > 1 {
      var rest := l[1..];
      BareClean(rest);
      assert rest[|rest| - 1] == l[|l| - 1];
      assert |l| > 2 ==> rest[|rest| - 2] == l[|l| - 2];
      assert Bare(l) == [l[0]] + Bare(rest);
    }
  }

  lemma BareStrip(l: string)
    ensures Strip(Bare(l)) == Strip(l)
  {
    if Bare(l) != l {
      var last := l[|l| - 1];
      assert l == l[..|l| - 1] + [last];
      StripTrailing(l[..|l| - 1], last);
      if |Bare(l)| == |l| - 2 {
        assert l[..|l| - 1] == l[..|l| - 2] + ['\r'];
        StripTrailing(l[..|l| - 2], '\r');
      }
    }
  }

  /** Nothing, or one line break. */
  predicate Ending(s: string) { s == "" || (|s| == 1 && LineBreak(s[0])) }

  lemma {:induction false} CleanLine(s: string, ending: string)
    requires NoBreak(s) && Ending(ending) && s + ending != ""
    ensures OneLine(s + ending)
  {
    if s == "" {
      assert s + ending == ending;
    } else {
      assert (s + ending)[1..] == s[1..] + ending;
      if s[1..] + ending != "" { CleanLine(s[1..], ending); }
    }
  }
}
