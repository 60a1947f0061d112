/** A contract document that parses while a selection of it does not. */
module ContractWitness {
  import opened Wrappers
  import opened PythonText
  import opened ContractCatalog
  import opened ContractSelection

  /** A header, a rule, one row and a line after it, with what the row is narrowed to. */
  datatype Sample = Sample(header: string, rule: string, row: string, after: string, narrowed: string)
  {
    function Whole(): seq<string> { [header, rule, row, after] }
    function Selected(): seq<string> { [header, rule, narrowed, after] }
    function Merged(): seq<string> { [header, rule, narrowed + after] }
  }

  /** The row says `es`, the pair is one of them, and the narrowed row and the line after it are one line, no row. */
  ghost predicate Merging(d: Sample, es: seq<Entry>, capability: string, operation: string) {
    && OneLine(d.header) && OneLine(d.rule) && OneLine(d.row) && OneLine(d.after) && OneLine(d.narrowed + d.after)
    && Joined(d.header, d.rule) && Joined(d.rule, d.row) && Joined(d.row, d.after) && Joined(d.rule, d.narrowed + d.after)
    && IsHeader(CellsOf(d.header)) && IsSeparator(CellsOf(d.rule)) && |CellsOf(d.rule)| == |CellsOf(d.header)|
    && CellsOf(d.row) != [] && RowEntries(CellsOf(d.row)) == Some(es) && Distinct(es) && es != []
    && CellsOf(d.after) == [] && CellsOf(d.narrowed + d.after) == []
    && SelectedRow(d.row, capability, Some(operation)) == Some([d.narrowed])
  }

  lemma TableOf(rows: seq<seq<string>>, end: nat)
    requires 2 <= end <= |rows| && IsHeader(rows[0]) && IsSeparator(rows[1]) && |rows[1]| == |rows[0]|
    requires (end < |rows| ==> rows[end] == []) && forall k | 2 <= k < end :: rows[k] != []
    ensures TableRange(rows) == Some((2, end))
  {
    hide IsHeader;
    hide IsSeparator;
    assert TableAt(rows, 0);
    EndAt(rows, 2, end);
  }

  lemma LinesOf(lines: seq<string>)
    requires forall i | 0 <= i < |lines| :: OneLine(lines[i])
    requires WellJoined(lines)
    ensures Lines(Text(lines)) == lines
  {
    hide *;
    LinesTextIff(lines);
  }

  lemma WholeParses(d: Sample, es: seq<Entry>, capability: string, operation: string)
    requires Merging(d, es, capability, operation)
    ensures Lines(Text(d.Whole())) == d.Whole() && TableRange(AllCells(d.Whole())) == Some((2, 3))
    ensures Parse(Text(d.Whole())) == Success(es)
  {
    hide OneLine;
    hide Joined;
    hide CellsOf;
    hide RowEntries;
    hide IsHeader;
    hide IsSeparator;
    hide TableRange;
    hide Lines;
    hide Text;
    hide SelectedRow;
    hide Parse;
    hide Distinct;
    LinesOf(d.Whole());
    var rows := AllCells(d.Whole());
    TableOf(rows, 3);
    assert rows[2..3] == [rows[2]] && [rows[2]][1..] == [] && es + [] == es;
    assert TableEntries([rows[2]][1..]) == Some([]);
    ParseText(d.Whole(), 2, 3, es);
  }

  lemma SelectedMerges(d: Sample, es: seq<Entry>, capability: string, operation: string)
    requires Merging(d, es, capability, operation)
    requires TableRange(AllCells(d.Whole())) == Some((2, 3))
    ensures SelectedLines(d.Whole(), capability, Some(operation)) == Success(d.Selected())
    ensures Parse(Text(d.Selected())) == Failure
  {
    hide OneLine;
    hide Joined;
    hide CellsOf;
    hide RowEntries;
    hide IsHeader;
    hide IsSeparator;
    hide TableRange;
    hide Lines;
    hide Text;
    hide SelectedRow;
    hide SelectedRows;
    hide SelectedLines;
    hide Parse;
    assert d.Whole()[2..3] == [d.row];
    SelectedOne(d.row, capability, Some(operation));
    SelectedIs(d.Whole(), capability, Some(operation), 2, 3, [d.narrowed]);
    assert d.Whole()[..2] + [d.narrowed] + d.Whole()[3..] == d.Selected();
    TextMerges(d);
    LinesOf(d.Merged());
    var rows := AllCells(d.Merged());
    TableOf(rows, 2);
    assert rows[2..2] == [] && TableEntries([]) == Some([]);
    ParseText(d.Merged(), 2, 2, []);
  }

  lemma TextMerges(d: Sample)
    ensures Text(d.Selected()) == Text(d.Merged())
  {
    var x, y := d.Selected(), d.Merged();
    assert x[1..][1..][1..] == [d.after] && y[1..][1..] == [d.narrowed + d.after] && [d.after][1..] == [];
    assert Text([d.after]) == d.after && Text([d.narrowed + d.after]) == d.narrowed + d.after;
    assert x[1..][1..] == [d.narrowed, d.after] && [d.narrowed, d.after][1..] == [d.after];
    assert Text([d.narrowed, d.after]) == d.narrowed + d.after;
    assert Text(x[1..]) == d.rule + Text(x[1..][1..]) && Text(y[1..]) == d.rule + Text(y[1..][1..]);
  }

  // ---------- the document ----------

  function TwoCells(x: string, y: string): string { "| " + x + " | " + y + " |" }

  const RETURNED := Sample(
    TwoCells("capability", "operation") + "\n", TwoCells("-", "-") + "\n", TwoCells("`a`", "`x`,`y`") + "\r",
    "prose", TwoCells("`a`", "`x`"))

  lemma {:induction false} LowerSame(s: string)
    requires forall c | c in s :: !('A' <= c <= 'Z')
    ensures Lower(s) == s
  {
    if s != "" {
      assert (forall c | c in s[1..] :: c in s) && s[0] in s;
      LowerSame(s[1..]);
      assert [s[0]] + s[1..] == s;
    }
  }

  lemma JoinTwo(x: string, y: string, at: char)
    ensures Join([x, y], at) == x + [at] + y
  {
    assert [x, y][1..] == [y];
  }

  lemma PaddedTwo(x: string, y: string)
    ensures Rendered([x, y]) == TwoCells(x, y)
  {
    assert [x, y][1..] == [y] && [y][1..] == [];
    assert Padded([y]) == [" " + y + " "];
    assert Padded([x, y]) == [" " + x + " ", " " + y + " "];
    JoinTwo(" " + x + " ", " " + y + " ", '|');
  }

  /** A row of two clean cells, whatever line break ends it. */
  lemma RowOf(x: string, y: string, ending: string)
    requires CleanCells([x, y]) && Ending(ending)
    ensures CellsOf(TwoCells(x, y) + ending) == [x, y] && OneLine(TwoCells(x, y) + ending)
  {
    assert forall i | 0 <= i < 2 :: Stripped([x, y][i]) && '|' !in [x, y][i] && NoBreak([x, y][i]);
    hide *;
    PaddedTwo(x, y);
    RenderedCells([x, y], ending);
    RenderedLine([x, y], ending);
  }

  predicate Plain(s: string) {
    s != "" && s[0] != ' ' && s[|s| - 1] != ' ' && forall c | c in s :: ' ' <= c <= '~'
  }

  lemma PlainIs(s: string)
    requires Plain(s)
    ensures NoBreak(s) && Stripped(s)
  {
    assert s[0] in s && s[|s| - 1] in s;
  }

  /** A row of two plain cells, whatever line break ends it. */
  lemma PlainRow(x: string, y: string, ending: string)
    requires Plain(x) && Plain(y) && '|' !in x && '|' !in y && Ending(ending)
    ensures CellsOf(TwoCells(x, y) + ending) == [x, y] && OneLine(TwoCells(x, y) + ending)
  {
    PlainIs(x);
    PlainIs(y);
    hide NoBreak;
    hide Stripped;
    assert CleanCells([x, y]);
    hide *;
    RowOf(x, y, ending);
  }

  lemma HeaderFrom(x: string, y: string)
    requires Lower(x) == "capability" && Lower(y) == "operation"
    ensures IsHeader([x, y])
  {
    hide Lower;
  }

  lemma HeaderIs()
    ensures IsHeader(["capability", "operation"])
  {
    hide *;
    LowerSame("capability");
    LowerSame("operation");
    HeaderFrom("capability", "operation");
  }

  lemma HeaderRow()
    ensures OneLine(RETURNED.header) && CellsOf(RETURNED.header) == ["capability", "operation"]
  {
    assert Plain("capability") && Plain("operation") && Ending("\n");
    hide *;
    PlainRow("capability", "operation", "\n");
  }

  lemma RuleRow()
    ensures OneLine(RETURNED.rule) && CellsOf(RETURNED.rule) == ["-", "-"] && IsSeparator(["-", "-"])
  {
    assert Plain("-") && Ending("\n") && IsSeparator(["-", "-"]);
    hide *;
    PlainRow("-", "-", "\n");
  }

  lemma PairRow()
    ensures OneLine(RETURNED.row) && CellsOf(RETURNED.row) == ["`a`", "`x`,`y`"]
  {
    assert Plain("`a`") && Plain("`x`,`y`") && Ending("\r");
    hide *;
    PlainRow("`a`", "`x`,`y`", "\r");
  }

  /** A line without a break that does not end in a bar. */
  lemma PlainLine(l: string)
    requires Plain(l) && l[|l| - 1] != '|'
    ensures OneLine(l) && CellsOf(l) == []
  {
    PlainIs(l);
    assert l + "" == l && Ending("");
    CleanLine(l, "");
    assert Strip(l) == l;
    hide OneLine;
    hide NoBreak;
  }

  lemma OneName(name: string, code: string)
    requires Plain(name) && ',' !in name && code == "`" + name + "`"
    ensures CodeName(code) == Some(name)
  {
    PlainIs(name);
    hide *;
    NameBack(name);
  }

  lemma TwoCodes(x: string, y: string, a: string, b: string)
    requires CodeName(x) == Some(a) && CodeName(y) == Some(b) && ',' !in x && ',' !in y
    ensures CodeNames(x + [','] + y) == Some([a, b])
  {
    JoinTwo(x, y, ',');
    SplitJoin([x, y], ',');
    hide Split;
    hide CodeName;
    TwoNames(x, y, a, b);
  }

  lemma LetterName(c: char)
    requires 'a' <= c <= 'z'
    ensures CodeName(['`', c, '`']) == Some([c]) && ',' !in ['`', c, '`']
  {
    assert Plain([c]);
    assert ['`', c, '`'] == "`" + [c] + "`";
    hide *;
    OneName([c], ['`', c, '`']);
  }

  lemma NamesOfPair()
    ensures CodeName("`a`") == Some("a") && CodeNames("`x`,`y`") == Some(["x", "y"])
  {
    hide *;
    LetterName('a');
    LetterName('x');
    LetterName('y');
    TwoCodes(['`', 'x', '`'], ['`', 'y', '`'], ['x'], ['y']);
    assert ['`', 'x', '`'] + [','] + ['`', 'y', '`'] == "`x`,`y`";
  }

  lemma TwoNames(x: string, y: string, a: string, b: string)
    requires CodeName(x) == Some(a) && CodeName(y) == Some(b)
    ensures AllNames([x, y]) == Some([a, b])
  {
    hide CodeName;
    assert [x, y][1..] == [y] && [y][1..] == [];
    assert AllNames([]) == Some([]);
    assert [b] + [] == [b] && [a] + [b] == [a, b];
    assert AllNames([y]) == Some([b] + []);
  }

  lemma TwoEntries(capability: string, a: string, b: string)
    ensures Named(capability, [a, b]) == [Entry(capability, a), Entry(capability, b)]
  {
    assert [a, b][1..] == [b] && [b][1..] == [];
    assert Named(capability, [b]) == [Entry(capability, b)];
  }

  lemma EntriesOfRow(cell: string, names: string, capability: string, a: string, b: string)
    requires CodeName(cell) == Some(capability) && CodeNames(names) == Some([a, b])
    ensures RowEntries([cell, names]) == Some([Entry(capability, a), Entry(capability, b)])
  {
    hide CodeName;
    hide CodeNames;
    TwoEntries(capability, a, b);
  }

  lemma NarrowedOf(line: string, cell: string, names: string, capability: string, a: string, b: string)
    requires CellsOf(line) == [cell, names] && !EndsFeed(line)
    requires CodeName(cell) == Some(capability) && CodeNames(names) == Some([a, b])
    ensures SelectedRow(line, capability, Some(a)) == Some([TwoCells(cell, "`" + a + "`")])
  {
    hide CodeName;
    hide CodeNames;
    hide CellsOf;
    PaddedTwo(cell, "`" + a + "`");
    hide Rendered;
    hide TwoCells;
    var row := TwoCells(cell, "`" + a + "`");
    assert [cell, names][1 := "`" + a + "`"] == [cell, "`" + a + "`"];
    assert row + "" == row;
  }

  lemma PairRowSays()
    ensures RowEntries(CellsOf(RETURNED.row)) == Some([Entry("a", "x"), Entry("a", "y")])
    ensures SelectedRow(RETURNED.row, "a", Some("x")) == Some([RETURNED.narrowed])
  {
    assert !EndsFeed(RETURNED.row);
    hide *;
    PairRow();
    NamesOfPair();
    assert "`" + "x" + "`" == "`x`";
    EntriesOfRow("`a`", "`x`,`y`", "a", "x", "y");
    NarrowedOf(RETURNED.row, "`a`", "`x`,`y`", "a", "x", "y");
  }

  lemma PlainJoined(x: string, y: string, after: string)
    requires Plain(x) && Plain(y) && Plain(after)
    ensures
      var l := TwoCells(x, y) + after;
      Plain(l) && l[|l| - 1] == after[|after| - 1]
  {
  }

  lemma LinesAfter()
    ensures OneLine(RETURNED.after) && CellsOf(RETURNED.after) == []
    ensures OneLine(RETURNED.narrowed + RETURNED.after) && CellsOf(RETURNED.narrowed + RETURNED.after) == []
  {
    assert Plain("prose") && Plain("`a`") && Plain("`x`");
    hide *;
    PlainLine("prose");
    PlainJoined("`a`", "`x`", "prose");
    PlainLine(TwoCells("`a`", "`x`") + "prose");
  }

  lemma SeamsOf()
    ensures Joined(RETURNED.header, RETURNED.rule) && Joined(RETURNED.rule, RETURNED.row)
    ensures Joined(RETURNED.row, RETURNED.after) && Joined(RETURNED.rule, RETURNED.narrowed + RETURNED.after)
  {
    SeamOf(RETURNED.header, RETURNED.rule);
    SeamOf(RETURNED.rule, RETURNED.row);
    SeamOf(RETURNED.row, RETURNED.after);
    SeamOf(RETURNED.rule, RETURNED.narrowed + RETURNED.after);
  }

  lemma SeamOf(l: string, next: string)
    requires EndsBreak(l) && next != "" && next[0] != '\n'
    ensures Joined(l, next)
  {
  }

  lemma ReturnedMerging()
    ensures Merging(RETURNED, [Entry("a", "x"), Entry("a", "y")], "a", "x")
  {
    hide *;
    var d, es := RETURNED, [Entry("a", "x"), Entry("a", "y")];
    TwoApart(Entry("a", "x"), Entry("a", "y"));
    HeaderIs();
    HeaderRow();
    RuleRow();
    PairRow();
    PairRowSays();
    LinesAfter();
    SeamsOf();
    MergingIs(d, es, "a", "x");
  }

  lemma TwoApart(x: Entry, y: Entry)
    requires x != y
    ensures Distinct([x, y])
  {
  }

  lemma MergingIs(d: Sample, es: seq<Entry>, capability: string, operation: string)
    requires OneLine(d.header) && OneLine(d.rule) && OneLine(d.row) && OneLine(d.after) && OneLine(d.narrowed + d.after)
    requires Joined(d.header, d.rule) && Joined(d.rule, d.row) && Joined(d.row, d.after) && Joined(d.rule, d.narrowed + d.after)
    requires IsHeader(CellsOf(d.header)) && IsSeparator(CellsOf(d.rule)) && |CellsOf(d.rule)| == |CellsOf(d.header)|
    requires CellsOf(d.row) != [] && RowEntries(CellsOf(d.row)) == Some(es) && Distinct(es) && es != []
    requires CellsOf(d.after) == [] && CellsOf(d.narrowed + d.after) == []
    requires SelectedRow(d.row, capability, Some(operation)) == Some([d.narrowed])
    ensures Merging(d, es, capability, operation)
  {
  }

  /**
   * The document
   *   | capability | operation |
   *   | - | - |
   *   | `a` | `x`,`y` |
   *   prose
   * whose row ends in a bare carriage return parses to two pairs.  Select one of them, and the narrowed row
   * runs into the line after it: no row is left and parsing is refused.
   */
  lemma ReturnedRowMerges()
    ensures Parse(Text(RETURNED.Whole())) == Success([Entry("a", "x"), Entry("a", "y")])
    ensures SelectedLines(Lines(Text(RETURNED.Whole())), "a", Some("x")) == Success(RETURNED.Selected())
    ensures Parse(Text(RETURNED.Selected())) == Failure
    ensures !DocumentSeparable(Text(RETURNED.Whole()), "a", Some("x"))
  {
    var es := [Entry("a", "x"), Entry("a", "y")];
    hide *;
    ReturnedMerging();
    WholeParses(RETURNED, es, "a", "x");
    SelectedMerges(RETURNED, es, "a", "x");
    SelectionCommutesIff(Text(RETURNED.Whole()), "a", Some("x"), es);
    NotCommuting(Text(RETURNED.Whole()), es);
  }

  lemma NotCommuting(document: string, es: seq<Entry>)
    requires es == [Entry("a", "x"), Entry("a", "y")]
    requires SelectedLines(Lines(document), "a", Some("x")).Success?
    requires Parse(Text(SelectedLines(Lines(document), "a", Some("x")).value)) == Failure
    ensures !Commutes(document, "a", Some("x"), es)
  {
    hide Parse;
    hide Lines;
    hide Text;
    hide SelectedLines;
    assert Wanted(es[0], "a", Some("x"));
    assert Chosen(es, "a", Some("x")) != [];
  }
}
