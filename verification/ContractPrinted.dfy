/** Every printed contract table is read: text around it, a header of any width, a rule and printed rows. */
module ContractPrinted {
  import opened Wrappers
  import opened PythonText
  import opened ContractCatalog
  import opened ContractSelection

  // ---------- printing ----------

  function PrintCells(cells: seq<string>): string {
    if cells == [] then "|" else "| " + cells[0] + " " + PrintCells(cells[1..])
  }

  /** A row of the table: a capability, its operations, and the remaining cells. */
  datatype Row = Row(capability: string, operations: seq<string>, rest: seq<string>)
  {
    function Cells(): seq<string> { [Code(capability), CodeList(operations)] + rest }
  }

  function Code(name: string): string { "`" + name + "`" }

  function CodeList(names: seq<string>): string {
    if names == [] then ""
    else if |names| == 1 then Code(names[0])
    else Code(names[0]) + ", " + CodeList(names[1..])
  }

  function PrintRows(rows: seq<Row>): (lines: seq<string>)
    ensures |lines| == |rows| && forall i | 0 <= i < |rows| :: lines[i] == PrintCells(rows[i].Cells())
  {
    if rows == [] then [] else [PrintCells(rows[0].Cells())] + PrintRows(rows[1..])
  }

  /** The pairs the rows name, in order. */
  function Pairs(rows: seq<Row>): seq<Entry> {
    if rows == [] then [] else seq(|rows[0].operations|, i requires 0 <= i < |rows[0].operations| =>
                                     Entry(rows[0].capability, rows[0].operations[i])) + Pairs(rows[1..])
  }

  // ---------- what may be printed ----------

  /** A cell as it can stand between two bars of one line. */
  predicate CleanCell(cell: string) { Stripped(cell) && '|' !in cell && NoBreak(cell) }

  predicate CleanName(name: string) { CleanCell(name) && name != "" }

  predicate CleanRow(row: Row) {
    && CleanName(row.capability) && row.operations != []
    && (forall i | 0 <= i < |row.operations| :: CleanName(row.operations[i]) && ',' !in row.operations[i])
    && (forall i | 0 <= i < |row.rest| :: CleanCell(row.rest[i]))
  }

  /** The letters of a word in lower case, each in either case. */
  predicate AnyCase(s: string, word: string) {
    && |s| == |word|
    && forall i | 0 <= i < |s| :: s[i] == word[i] || ('A' <= s[i] <= 'Z' && s[i] as int + 32 == word[i] as int)
  }

  predicate Header(cells: seq<string>) {
    |cells| >= 2 && AnyCase(cells[0], "capability") && AnyCase(cells[1], "operation")
  }

  /** As many cells as the header, each of hyphens and colons. */
  predicate Rule(cells: seq<string>, width: nat) {
    && |cells| == width && width > 0
    && forall i | 0 <= i < |cells| :: |cells[i]| > 0 && forall j | 0 <= j < |cells[i]| :: cells[i][j] == '-' || cells[i][j] == ':'
  }

  /** No line is a header with a rule below it. */
  predicate NoTable(lines: seq<string>) {
    forall i | 0 <= i < |lines| - 1 :: !(Header(CellsOf(lines[i])) && Rule(CellsOf(lines[i + 1]), |CellsOf(lines[i])|))
  }

  // ---------- a printed line is read ----------

  lemma {:induction false} PrintedIs(cells: seq<string>)
    requires cells != []
    ensures PrintCells(cells) == Rendered(cells)
  {
    if |cells| > 1 {
      PrintedIs(cells[1..]);
      assert Padded(cells)[1..] == Padded(cells[1..]);
    } else {
      assert PrintCells(cells[1..]) == "|";
    }
  }

  lemma PrintedCells(cells: seq<string>)
    requires cells != [] && forall i | 0 <= i < |cells| :: CleanCell(cells[i])
    ensures CellsOf(PrintCells(cells)) == cells
  {
    PrintedIs(cells);
    hide *;
    CleanIs(cells);
    RenderedCells(cells, "");
    assert Rendered(cells) + "" == Rendered(cells);
  }

  lemma CleanIs(cells: seq<string>)
    requires forall i | 0 <= i < |cells| :: CleanCell(cells[i])
    ensures forall i | 0 <= i < |cells| :: Stripped(cells[i]) && '|' !in cells[i]
    ensures Ending("")
  {
  }

  // ---------- its cells are the names ----------

  lemma CodeIs(name: string, before: string)
    requires CleanName(name) && (before == "" || before == " ")
    ensures CodeName(before + Code(name)) == Some(name)
  {
    var value := Code(name);
    assert Strip(value) == value && value[1..|value| - 1] == name;
    if before == "" {
      assert before + value == value;
    } else {
      assert before + value == [' '] + value;
      StripLeading(value, ' ');
    }
  }

  lemma NamesHead(part: string, name: string, more: seq<string>, names: seq<string>)
    requires CodeName(part) == Some(name) && AllNames(more) == Some(names)
    ensures AllNames([part] + more) == Some([name] + names)
  {
    hide CodeName;
    assert ([part] + more)[1..] == more;
  }

  lemma CodePart(name: string, before: string)
    requires CleanName(name) && ',' !in name && (before == "" || before == " ")
    ensures ',' !in before + Code(name)
  {
  }

  lemma CodeListStep(names: seq<string>, before: string)
    requires |names| > 1
    ensures before + CodeList(names) == before + Code(names[0]) + [','] + (" " + CodeList(names[1..]))
  {
    CommaStep(before, Code(names[0]), CodeList(names[1..]));
    hide Code;
  }

  lemma CommaStep(before: string, code: string, rest: string)
    ensures before + (code + ", " + rest) == before + code + [','] + (" " + rest)
  {
    assert ", " == [','] + " ";
    assert before + (code + ([','] + " ") + rest) == before + code + [','] + (" " + rest);
  }

  lemma {:induction false} CodeListIs(names: seq<string>, before: string)
    requires names != [] && (before == "" || before == " ")
    requires forall i | 0 <= i < |names| :: CleanName(names[i]) && ',' !in names[i]
    ensures AllNames(Split(before + CodeList(names), ',')) == Some(names)
  {
    hide CodeName;
    hide CleanName;
    hide Split;
    hide Code;
    hide AllNames;
    var part, rest := before + Code(names[0]), names[1..];
    assert names == [names[0]] + rest;
    CodeIs(names[0], before);
    CodePart(names[0], before);
    if rest == [] {
      SplitOne(part, ',');
      NoNames();
      NamesHead(part, names[0], [], []);
      assert [part] + [] == [part];
    } else {
      CodeListIs(rest, " ");
      CodeListStep(names, before);
      SplitFirst(part, ',', " " + CodeList(rest));
      NamesHead(part, names[0], Split(" " + CodeList(rest), ','), rest);
    }
  }

  lemma NoNames()
    ensures AllNames([]) == Some([])
  {
  }

  lemma RowEntriesAre(row: Row)
    requires CleanRow(row)
    ensures |row.Cells()| >= 2
    ensures RowEntries(row.Cells()) == Some(Named(row.capability, row.operations))
    ensures CodeName(row.Cells()[0]) == Some(row.capability) && CodeNames(row.Cells()[1]) == Some(row.operations)
  {
    CodeIs(row.capability, "");
    CodeListIs(row.operations, "");
    assert "" + Code(row.capability) == Code(row.capability);
    assert "" + CodeList(row.operations) == CodeList(row.operations);
    hide CodeName;
    hide AllNames;
    hide Split;
    hide CodeList;
    hide Code;
  }

  lemma {:induction false} CodeListClean(names: seq<string>)
    requires names != [] && forall i | 0 <= i < |names| :: CleanName(names[i])
    ensures CleanCell(CodeList(names)) && CodeList(names) != "" && CodeList(names)[0] == '`'
  {
    if |names| > 1 { CodeListClean(names[1..]); }
  }

  lemma RowClean(row: Row)
    requires CleanRow(row)
    ensures row.Cells() != [] && forall i | 0 <= i < |row.Cells()| :: CleanCell(row.Cells()[i])
  {
    CodeListClean(row.operations);
    hide CodeList;
    assert CleanCell(Code(row.capability));
    hide CleanCell;
    hide Code;
    hide CleanName;
  }

  /** A printed row is read as its pairs. */
  lemma RowRead(row: Row)
    requires CleanRow(row)
    ensures CellsOf(PrintCells(row.Cells())) == row.Cells() && |row.Cells()| >= 2
    ensures RowEntries(CellsOf(PrintCells(row.Cells()))) == Some(Named(row.capability, row.operations))
  {
    hide *;
    RowClean(row);
    PrintedCells(row.Cells());
    RowEntriesAre(row);
  }

  lemma {:induction false} RowsRead(rows: seq<Row>)
    requires forall i | 0 <= i < |rows| :: CleanRow(rows[i])
    ensures TableEntries(AllCells(PrintRows(rows))) == Some(Pairs(rows))
    ensures |AllCells(PrintRows(rows))| == |rows| && forall i | 0 <= i < |rows| :: AllCells(PrintRows(rows))[i] != []
  {
    if rows != [] {
      RowRead(rows[0]);
      RowsRead(rows[1..]);
      var cells := AllCells(PrintRows(rows));
      assert PrintRows(rows)[1..] == PrintRows(rows[1..]);
      assert cells[1..] == AllCells(PrintRows(rows[1..]));
      PairsAre(rows);
      hide RowEntries;
      hide CellsOf;
      hide CleanRow;
      hide Pairs;
      hide PrintCells;
      forall i | 0 <= i < |rows| ensures cells[i] != [] {
        if i > 0 { assert cells[i] == AllCells(PrintRows(rows[1..]))[i - 1]; }
      }
    }
  }

  lemma PairsAre(rows: seq<Row>)
    requires rows != []
    ensures Pairs(rows) == Named(rows[0].capability, rows[0].operations) + Pairs(rows[1..])
  {
    var here := seq(|rows[0].operations|, i requires 0 <= i < |rows[0].operations| =>
                      Entry(rows[0].capability, rows[0].operations[i]));
    assert here == Named(rows[0].capability, rows[0].operations);
  }

  // ---------- header and rule ----------

  lemma {:induction false} LowerIs(s: string, word: string)
    requires forall i | 0 <= i < |word| :: 'a' <= word[i] <= 'z'
    ensures Lower(s) == word <==> AnyCase(s, word)
  {
    if s != "" && word != "" {
      LowerIs(s[1..], word[1..]);
      var c := if 'A' <= s[0] <= 'Z' then (s[0] as int + 32) as char else s[0];
      assert Lower(s) == [c] + Lower(s[1..]);
      assert Lower(s) == word <==> c == word[0] && Lower(s[1..]) == word[1..] by {
        assert word == [word[0]] + word[1..];
        if Lower(s) == word { assert Lower(s)[1..] == Lower(s[1..]); }
      }
      AnyCaseStep(s, word);
    } else if s != "" {
      assert |Lower(s)| > 0;
    }
  }

  lemma AnyCaseStep(s: string, word: string)
    requires s != "" && word != ""
    ensures AnyCase(s, word) <==>
      (s[0] == word[0] || ('A' <= s[0] <= 'Z' && s[0] as int + 32 == word[0] as int)) && AnyCase(s[1..], word[1..])
  {
    if AnyCase(s[1..], word[1..]) {
      forall i | 0 < i < |s| ensures s[i] == word[i] || ('A' <= s[i] <= 'Z' && s[i] as int + 32 == word[i] as int) {
        assert s[i] == s[1..][i - 1] && word[i] == word[1..][i - 1];
      }
    }
  }

  lemma HeaderIs(cells: seq<string>)
    ensures IsHeader(cells) <==> Header(cells)
  {
    if |cells| >= 2 {
      LowerIs(cells[0], "capability");
      LowerIs(cells[1], "operation");
    }
    hide Lower;
    hide AnyCase;
  }

  lemma RuleIs(cells: seq<string>, width: nat)
    ensures Rule(cells, width) <==> |cells| == width && IsSeparator(cells)
  {
    forall i | 0 <= i < |cells| ensures (forall c | c in cells[i] :: c == '-' || c == ':')
      <==> forall j | 0 <= j < |cells[i]| :: cells[i][j] == '-' || cells[i][j] == ':'
    {
      var cell := cells[i];
      assert forall j | 0 <= j < |cell| :: cell[j] in cell;
      assert forall c | c in cell :: exists j :: 0 <= j < |cell| && cell[j] == c;
    }
  }

  lemma TableIs(rows: seq<seq<string>>, i: nat)
    ensures TableAt(rows, i) <==> i + 1 < |rows| && Header(rows[i]) && Rule(rows[i + 1], |rows[i]|)
  {
    if i + 1 < |rows| {
      HeaderIs(rows[i]);
      RuleIs(rows[i + 1], |rows[i]|);
    }
    hide IsHeader;
    hide IsSeparator;
    hide Header;
    hide Rule;
  }

  /** A header is no rule: its first cell has letters. */
  lemma HeaderNoRule(cells: seq<string>, width: nat)
    requires Header(cells)
    ensures !Rule(cells, width)
  {
    assert cells[0][0] == 'c' || cells[0][0] as int + 32 == 'c' as int;
  }

  lemma RangeIs(rows: seq<seq<string>>, at: nat, end: nat)
    requires at + 2 <= end <= |rows| && Header(rows[at]) && Rule(rows[at + 1], |rows[at]|)
    requires forall i: nat | i + 1 < at :: !(Header(rows[i]) && Rule(rows[i + 1], |rows[i]|))
    requires (end < |rows| ==> rows[end] == []) && forall k | at + 2 <= k < end :: rows[k] != []
    ensures TableRange(rows) == Some((at + 2, end))
  {
    forall i: nat ensures TableAt(rows, i) <==> i + 1 < |rows| && Header(rows[i]) && Rule(rows[i + 1], |rows[i]|) {
      TableIs(rows, i);
    }
    HeaderNoRule(rows[at], if at > 0 then |rows[at - 1]| else 0);
    EndAt(rows, at + 2, end);
    hide Header;
    hide Rule;
    hide TableAt;
    hide TableEnd;
    assert TableAt(rows, at);
  }

  // ---------- a whole document ----------

  /** Text before, the table, and text after. */
  datatype Page = Page(prose: seq<string>, header: seq<string>, rule: seq<string>, rows: seq<Row>, after: seq<string>)
  {
    function Content(): seq<string> { prose + [PrintCells(header), PrintCells(rule)] + PrintRows(rows) + after }
  }

  /** Text without a table, a header and a rule of one width, printed rows, and no further row right after them. */
  predicate Printable(page: Page) {
    && NoTable(page.prose) && Header(page.header) && Rule(page.rule, |page.header|)
    && (forall i | 0 <= i < |page.header| :: CleanCell(page.header[i]))
    && (forall i | 0 <= i < |page.rows| :: CleanRow(page.rows[i]))
    && (page.after != [] ==> CellsOf(page.after[0]) == [])
  }

  lemma RuleClean(cells: seq<string>, width: nat)
    requires Rule(cells, width)
    ensures cells != [] && forall i | 0 <= i < |cells| :: CleanCell(cells[i])
  {
    forall i | 0 <= i < |cells| ensures CleanCell(cells[i]) {
      assert forall c | c in cells[i] :: c == '-' || c == ':';
      var cell := cells[i];
      assert cell[0] in cell && cell[|cell| - 1] in cell;
    }
  }

  /** The lines, part by part. */
  lemma ContentIs(page: Page)
    ensures
      var (content, at) := (page.Content(), |page.prose|);
      && |content| == at + 2 + |page.rows| + |page.after|
      && (forall i | 0 <= i < at :: content[i] == page.prose[i])
      && content[at] == PrintCells(page.header) && content[at + 1] == PrintCells(page.rule)
      && content[at + 2..at + 2 + |page.rows|] == PrintRows(page.rows)
      && (page.after != [] ==> content[at + 2 + |page.rows|] == page.after[0])
  {
    hide PrintCells;
    hide PrintRows;
  }

  lemma PrintableIs(page: Page)
    requires Printable(page)
    ensures NoTable(page.prose) && Header(page.header) && Rule(page.rule, |page.header|) && page.header != []
    ensures forall i | 0 <= i < |page.header| :: CleanCell(page.header[i])
    ensures forall i | 0 <= i < |page.rows| :: CleanRow(page.rows[i])
    ensures page.after != [] ==> CellsOf(page.after[0]) == []
  {
    hide NoTable;
    hide Rule;
    hide CleanCell;
    hide CleanRow;
    hide CellsOf;
  }

  lemma RangeOfContent(page: Page)
    requires Printable(page)
    ensures TableRange(AllCells(page.Content())) == Some((|page.prose| + 2, |page.prose| + 2 + |page.rows|))
    ensures AllCells(page.Content())[|page.prose| + 2..|page.prose| + 2 + |page.rows|] == AllCells(PrintRows(page.rows))
  {
    hide *;
    PrintableIs(page);
    ContentIs(page);
    RuleClean(page.rule, |page.header|);
    PrintedCells(page.header);
    PrintedCells(page.rule);
    RowsRead(page.rows);
    var content, at := page.Content(), |page.prose|;
    var end := at + 2 + |page.rows|;
    CellsSlice(content, at + 2, end);
    var rows := AllCells(content);
    forall i: nat | i + 1 < at ensures !(Header(rows[i]) && Rule(rows[i + 1], |rows[i]|)) {
      assert rows[i] == CellsOf(page.prose[i]) && rows[i + 1] == CellsOf(page.prose[i + 1]);
      NoTableAt(page.prose, i);
    }
    forall k | at + 2 <= k < end ensures rows[k] != [] {
      assert rows[k] == rows[at + 2..end][k - (at + 2)];
    }
    RangeIs(rows, at, end);
  }

  lemma NoTableAt(lines: seq<string>, i: nat)
    requires NoTable(lines) && i + 1 < |lines|
    ensures !(Header(CellsOf(lines[i])) && Rule(CellsOf(lines[i + 1]), |CellsOf(lines[i])|))
  {
  }

  lemma PairsNone(rows: seq<Row>)
    requires forall i | 0 <= i < |rows| :: CleanRow(rows[i])
    ensures Pairs(rows) == [] <==> rows == []
  {
    if rows != [] { PairsAre(rows); }
  }

  /**
   * A document whose lines are those of a page, whatever ends them, parses to exactly the pairs of its rows;
   * it is refused exactly when it has no rows or a pair twice.
   */
  lemma PageRead(page: Page, document: string)
    requires Printable(page) && BareAll(Lines(document)) == page.Content()
    ensures Parse(document) == if page.rows != [] && Distinct(Pairs(page.rows)) then Success(Pairs(page.rows)) else Failure
    ensures TableRange(AllCells(Lines(document))) == Some((|page.prose| + 2, |page.prose| + 2 + |page.rows|))
  {
    hide *;
    PrintableIs(page);
    RangeOfContent(page);
    RowsRead(page.rows);
    PairsNone(page.rows);
    BareCells(Lines(document));
    ParseWith(document, |page.prose| + 2, |page.prose| + 2 + |page.rows|, Pairs(page.rows));
  }

  lemma ParseWith(document: string, start: nat, end: nat, es: seq<Entry>)
    requires
      var rows := AllCells(BareAll(Lines(document)));
      TableRange(rows) == Some((start, end)) && start <= end <= |rows| && TableEntries(rows[start..end]) == Some(es)
    ensures Parse(document) == if es != [] && Distinct(es) then Success(es) else Failure
  {
    hide TableRange;
    hide TableEntries;
    hide Distinct;
    hide Lines;
    hide AllCells;
    hide BareAll;
  }

  // ---------- lines with their ends ----------

  /** Each line ends in a line feed, with or without a carriage return before it; the last may end the text. */
  predicate Ends(lines: seq<string>, ends: seq<string>) {
    && |ends| == |lines|
    && forall i | 0 <= i < |ends| ::
         ends[i] == "\n" || ends[i] == "\r\n" || (i == |ends| - 1 && ends[i] == "" && lines[i] != "")
  }

  lemma EndsCount(lines: seq<string>, ends: seq<string>)
    requires Ends(lines, ends)
    ensures |ends| == |lines|
  {
  }

  function WithEnds(lines: seq<string>, ends: seq<string>): (raw: seq<string>)
    requires |ends| == |lines|
    ensures |raw| == |lines| && forall i | 0 <= i < |raw| :: raw[i] == lines[i] + ends[i]
  {
    if lines == [] then [] else [lines[0] + ends[0]] + WithEnds(lines[1..], ends[1..])
  }

  lemma {:induction false} FeedLine(l: string, end: string)
    requires NoBreak(l) && (end == "\n" || end == "\r\n" || (end == "" && l != ""))
    ensures OneLine(l + end) && Bare(l + end) == l
    ensures end != "" ==> EndsBreak(l + end) && !BareReturn(l + end)
  {
    var s := l + end;
    if l == "" {
      assert s == end;
    } else {
      assert s[0] == l[0] && l[0] in l;
      assert s[1..] == l[1..] + end;
      if |l| > 1 || end != "" {
        assert NoBreak(l[1..]);
        FeedLine(l[1..], end);
      }
      assert end == "" ==> s == l && l[|l| - 1] in l;
      assert end == "\n" ==> s[..|s| - 1] == l && (|s| >= 2 ==> s[|s| - 2] in l);
      assert end == "\r\n" ==> s[..|s| - 2] == l;
    }
  }

  lemma LinesBack(lines: seq<string>, ends: seq<string>)
    requires Ends(lines, ends) && forall i | 0 <= i < |lines| :: NoBreak(lines[i])
    ensures BareAll(Lines(Text(WithEnds(lines, ends)))) == lines
  {
    var raw := WithEnds(lines, ends);
    forall i | 0 <= i < |raw| ensures OneLine(raw[i]) && Bare(raw[i]) == lines[i] && (i < |raw| - 1 ==> Joined(raw[i], raw[i + 1])) {
      FeedLine(lines[i], ends[i]);
    }
    hide OneLine;
    hide Joined;
    hide Bare;
    hide Lines;
    assert WellJoined(raw);
    LinesTextIff(raw);
  }

  /** On text: a printed page is read as the pairs of its rows. */
  lemma PageText(page: Page, ends: seq<string>)
    requires Printable(page) && Ends(page.Content(), ends)
    requires forall i | 0 <= i < |page.Content()| :: NoBreak(page.Content()[i])
    ensures
      var document := Text(WithEnds(page.Content(), ends));
      Parse(document) == if page.rows != [] && Distinct(Pairs(page.rows)) then Success(Pairs(page.rows)) else Failure
  {
    hide *;
    EndsCount(page.Content(), ends);
    LinesBack(page.Content(), ends);
    PageRead(page, Text(WithEnds(page.Content(), ends)));
  }

  // ---------- selecting from a page ----------

  /** The lines kept of a row: itself, itself narrowed to the one operation asked for, or none. */
  function KeptOf(row: Row, line: string, capability: string, operation: Option<string>): seq<string> {
    if row.capability != capability then []
    else if operation.None? then [line]
    else if operation.value in row.operations
    then [PrintCells([Code(capability), Code(operation.value)] + row.rest)
          + if line != "" && line[|line| - 1] == '\n' then "\n" else ""]
    else []
  }

  function Kept(rows: seq<Row>, lines: seq<string>, capability: string, operation: Option<string>): seq<string>
    requires |lines| == |rows|
  {
    if rows == [] then [] else KeptOf(rows[0], lines[0], capability, operation) + Kept(rows[1..], lines[1..], capability, operation)
  }

  lemma NarrowedIs(row: Row, line: string, operation: string)
    requires CellsOf(line) == row.Cells()
    ensures Narrowed(line, operation)
      == PrintCells([Code(row.capability), Code(operation)] + row.rest)
         + if line != "" && line[|line| - 1] == '\n' then "\n" else ""
  {
    var now := [Code(row.capability), Code(operation)] + row.rest;
    PrintedIs(now);
    assert row.Cells()[1 := Code(operation)] == now;
    hide CellsOf;
    hide CodeList;
    hide PrintCells;
    hide Rendered;
  }

  lemma RowKept(row: Row, line: string, capability: string, operation: Option<string>)
    requires CleanRow(row) && CellsOf(line) == row.Cells()
    ensures SelectedRow(line, capability, operation) == Some(KeptOf(row, line, capability, operation))
  {
    RowEntriesAre(row);
    if operation.Some? { NarrowedIs(row, line, operation.value); }
    hide Narrowed;
    hide CodeName;
    hide CodeNames;
    hide CellsOf;
    hide CodeList;
    hide PrintCells;
    hide CleanRow;
    hide Code;
  }

  lemma {:induction false} RowsKept(rows: seq<Row>, lines: seq<string>, capability: string, operation: Option<string>)
    requires |lines| == |rows| && forall i | 0 <= i < |rows| :: CleanRow(rows[i]) && CellsOf(lines[i]) == rows[i].Cells()
    ensures SelectedRows(lines, capability, operation) == Some(Kept(rows, lines, capability, operation))
  {
    hide SelectedRow;
    hide CellsOf;
    hide CleanRow;
    hide KeptOf;
    if rows != [] {
      RowKept(rows[0], lines[0], capability, operation);
      RowsKept(rows[1..], lines[1..], capability, operation);
    }
  }

  /** Selecting keeps every line outside the rows, and of the rows those asked for. */
  lemma PageSelected(page: Page, document: string, capability: string, operation: Option<string>)
    requires Printable(page) && BareAll(Lines(document)) == page.Content()
    ensures
      var (lines, start, end) := (Lines(document), |page.prose| + 2, |page.prose| + 2 + |page.rows|);
      && end <= |lines|
      && SelectedLines(lines, capability, operation)
         == Success(lines[..start] + Kept(page.rows, lines[start..end], capability, operation) + lines[end..])
  {
    hide *;
    PageRead(page, document);
    PrintableIs(page);
    ContentIs(page);
    var lines, start, end := Lines(document), |page.prose| + 2, |page.prose| + 2 + |page.rows|;
    forall i | 0 <= i < |page.rows| ensures CellsOf(lines[start..end][i]) == page.rows[i].Cells() {
      assert BareAll(lines)[start + i] == page.Content()[start..end][i] == PrintCells(page.rows[i].Cells());
      RowRead(page.rows[i]);
      SameCells(lines[start + i]);
    }
    SelectedWith(lines, start, end, page.rows, capability, operation);
  }

  lemma SameCells(line: string)
    ensures CellsOf(Bare(line)) == CellsOf(line)
  {
    BareStrip(line);
    hide Strip;
    hide Bare;
    hide Split;
  }

  lemma SelectedWith(lines: seq<string>, start: nat, end: nat, rows: seq<Row>, capability: string, operation: Option<string>)
    requires start <= end <= |lines| && TableRange(AllCells(lines)) == Some((start, end)) && |rows| == end - start
    requires forall i | 0 <= i < |rows| :: CleanRow(rows[i]) && CellsOf(lines[start..end][i]) == rows[i].Cells()
    ensures SelectedLines(lines, capability, operation)
            == Success(lines[..start] + Kept(rows, lines[start..end], capability, operation) + lines[end..])
  {
    RowsKept(rows, lines[start..end], capability, operation);
    hide TableRange;
    hide AllCells;
    hide SelectedRows;
    hide Kept;
    hide CellsOf;
    hide CleanRow;
  }
}
