/** Selecting rows of the contract document and parsing it commute. */
module ContractSelection {
  import opened Wrappers
  import opened PythonText
  import opened ContractCatalog

  predicate Wanted(e: Entry, capability: string, operation: Option<string>) {
    e.capability == capability && (operation.None? || e.operation == operation.value)
  }

  /** The entries a selection is for, in order. */
  function Chosen(es: seq<Entry>, capability: string, operation: Option<string>): seq<Entry> {
    if es == [] then []
    else (if Wanted(es[0], capability, operation) then [es[0]] else []) + Chosen(es[1..], capability, operation)
  }

  lemma {:induction false} ChosenConcat(xs: seq<Entry>, ys: seq<Entry>, capability: string, operation: Option<string>)
    ensures Chosen(xs + ys, capability, operation) == Chosen(xs, capability, operation) + Chosen(ys, capability, operation)
  {
    hide Wanted;
    if xs == [] {
      assert xs + ys == ys;
    } else {
      ChosenConcat(xs[1..], ys, capability, operation);
      hide Chosen;
      ChosenHead(xs, capability, operation);
      ChosenHead(xs + ys, capability, operation);
      assert (xs + ys)[1..] == xs[1..] + ys && (xs + ys)[0] == xs[0];
    }
  }

  lemma ChosenHead(es: seq<Entry>, capability: string, operation: Option<string>)
    requires es != []
    ensures Chosen(es, capability, operation)
            == (if Wanted(es[0], capability, operation) then [es[0]] else []) + Chosen(es[1..], capability, operation)
  {
    hide Wanted;
  }

  lemma {:induction false} ChosenIn(es: seq<Entry>, capability: string, operation: Option<string>)
    ensures forall e :: e in Chosen(es, capability, operation) <==> e in es && Wanted(e, capability, operation)
  {
    if es != [] { ChosenIn(es[1..], capability, operation); }
  }

  lemma {:induction false} ChosenDistinct(es: seq<Entry>, capability: string, operation: Option<string>)
    requires Distinct(es)
    ensures Distinct(Chosen(es, capability, operation))
  {
    if es != [] {
      assert Distinct(es[1..]);
      ChosenDistinct(es[1..], capability, operation);
      ChosenIn(es[1..], capability, operation);
      assert es[0] !in es[1..];
      var rest := Chosen(es[1..], capability, operation);
      assert forall i | 0 <= i < |rest| :: rest[i] in rest;
    }
  }

  /** One pair is listed at most once, so choosing it gives it alone. */
  lemma {:induction false} ChosenOne(es: seq<Entry>, capability: string, operation: string)
    requires Distinct(es)
    ensures Chosen(es, capability, Some(operation))
            == if Entry(capability, operation) in es then [Entry(capability, operation)] else []
  {
    if es != [] {
      assert Distinct(es[1..]);
      ChosenOne(es[1..], capability, operation);
      assert es[0] !in es[1..];
    }
  }

  // ---------- rendering a row and reading it again ----------

  lemma {:induction false} StripPadded(cells: seq<string>)
    requires forall i | 0 <= i < |cells| :: Stripped(cells[i])
    ensures StripAll(Padded(cells)) == cells
  {
    if cells != [] {
      StripLeading(cells[0] + " ", ' ');
      StripTrailing(cells[0], ' ');
      assert " " + cells[0] + " " == [' '] + (cells[0] + " ");
      StripPadded(cells[1..]);
    }
  }

  lemma SplitClean(inner: string, i: nat)
    requires i < |Split(inner, '|')|
    ensures '|' !in Strip(Split(inner, '|')[i]) && forall c | c in Strip(Split(inner, '|')[i]) :: c in inner
  {
    var part := Split(inner, '|')[i];
    SplitFree(inner, '|');
    assert part in Split(inner, '|');
    hide Split;
    assert forall c | c in Strip(part) :: c in part;
  }

  lemma InnerOf(line: string) returns (inner: string)
    requires CellsOf(line) != []
    ensures CellsOf(line) == StripAll(Split(inner, '|')) && forall c | c in inner :: c in Strip(line)
  {
    var s := Strip(line);
    inner := if |s| >= 2 then s[1..|s| - 1] else "";
  }

  /** Cells as they come out of a line: stripped, without a bar, and within the line. */
  lemma CellsClean(line: string)
    ensures forall i | 0 <= i < |CellsOf(line)| :: Stripped(CellsOf(line)[i]) && '|' !in CellsOf(line)[i]
    ensures forall i, c | 0 <= i < |CellsOf(line)| && c in CellsOf(line)[i] :: c in Strip(line)
  {
    hide *;
    if CellsOf(line) != [] {
      var inner := InnerOf(line);
      forall i | 0 <= i < |CellsOf(line)|
        ensures Stripped(CellsOf(line)[i]) && '|' !in CellsOf(line)[i] && forall c | c in CellsOf(line)[i] :: c in Strip(line)
      {
        SplitClean(inner, i);
      }
    }
  }

  lemma {:induction false} JoinClean(parts: seq<string>, at: char)
    requires |parts| >= 1 && !LineBreak(at) && forall part | part in parts :: NoBreak(part)
    ensures NoBreak(Join(parts, at))
  {
    assert parts[0] in parts;
    if |parts| > 1 { JoinClean(parts[1..], at); }
  }

  lemma RenderedCells(cells: seq<string>, ending: string)
    requires cells != [] && forall i | 0 <= i < |cells| :: Stripped(cells[i])
    requires forall i | 0 <= i < |cells| :: '|' !in cells[i]
    requires Ending(ending)
    ensures CellsOf(Rendered(cells) + ending) == cells
  {
    var padded := Padded(cells);
    var r := Rendered(cells);
    var inner := Join(padded, '|');
    assert r == "|" + inner + "|";
    assert Stripped(r) && Strip(r) == r;
    if ending == "" {
      assert r + ending == r;
    } else {
      assert r + ending == r + [ending[0]];
      StripTrailing(r, ending[0]);
    }
    assert r[1..|r| - 1] == inner;
    assert forall part | part in padded :: '|' !in part;
    SplitJoin(padded, '|');
    StripPadded(cells);
  }

  lemma RenderedLine(cells: seq<string>, ending: string)
    requires cells != [] && forall i | 0 <= i < |cells| :: NoBreak(cells[i])
    requires Ending(ending)
    ensures OneLine(Rendered(cells) + ending)
  {
    var padded := Padded(cells);
    assert forall part | part in padded :: NoBreak(part);
    JoinClean(padded, '|');
    CleanLine(Rendered(cells), ending);
  }

  lemma NameBack(name: string)
    requires Stripped(name) && name != "" && ',' !in name
    ensures CodeName("`" + name + "`") == Some(name) && CodeNames("`" + name + "`") == Some([name])
  {
    var value := "`" + name + "`";
    assert Strip(value) == value;
    assert value[1..|value| - 1] == name;
    SplitOne(value, ',');
    hide CodeName;
    hide Split;
    assert AllNames([value][1..]) == Some([]);
    assert [name] + [] == [name];
  }

  lemma {:induction false} NamesClean(parts: seq<string>, name: string)
    requires AllNames(parts).Some? && name in AllNames(parts).value
    ensures Stripped(name) && name != "" && exists i :: 0 <= i < |parts| && forall c | c in name :: c in parts[i]
  {
    if CodeName(parts[0]) == Some(name) {
      assert forall c | c in name :: c in parts[0];
    } else {
      NamesClean(parts[1..], name);
      var i :| 0 <= i < |parts[1..]| && forall c | c in name :: c in parts[1..][i];
      assert parts[1..][i] == parts[i + 1];
    }
  }

  /** An operation named in a cell is a stripped text without a comma, made of the characters of the cell. */
  lemma OperationClean(cell: string, name: string)
    requires CodeNames(cell).Some? && name in CodeNames(cell).value
    ensures Stripped(name) && name != "" && ',' !in name && forall c | c in name :: c in cell
  {
    var parts := Split(cell, ',');
    NamesClean(parts, name);
    SplitFree(cell, ',');
    var i :| 0 <= i < |parts| && forall c | c in name :: c in parts[i];
    assert parts[i] in parts;
  }

  // ---------- one row ----------

  lemma {:induction false} NamedChosen(capability: string, names: seq<string>, wanted: string)
    ensures Chosen(Named(capability, names), wanted, None) == if capability == wanted then Named(capability, names) else []
  {
    if names != [] { NamedChosen(capability, names[1..], wanted); }
  }

  lemma NamedIn(capability: string, names: seq<string>, operation: string)
    ensures Entry(capability, operation) in Named(capability, names) <==> operation in names
    ensures forall e | e in Named(capability, names) :: e.capability == capability
  {
    var es := Named(capability, names);
    if operation in names {
      var i :| 0 <= i < |names| && names[i] == operation;
      assert es[i] == Entry(capability, operation);
    }
  }

  ghost predicate RowSelected(line: string, es: seq<Entry>, kept: seq<string>, capability: string, operation: Option<string>) {
    if kept == [] then Chosen(es, capability, operation) == []
    else |kept| == 1 && OneLine(kept[0]) && CellsOf(kept[0]) != []
         && RowEntries(CellsOf(kept[0])) == Some(Chosen(es, capability, operation))
  }

  predicate CleanCells(cells: seq<string>) {
    forall i | 0 <= i < |cells| :: Stripped(cells[i]) && '|' !in cells[i] && NoBreak(cells[i])
  }

  lemma CleanCellsIs(cells: seq<string>)
    requires forall i | 0 <= i < |cells| :: Stripped(cells[i]) && '|' !in cells[i] && NoBreak(cells[i])
    ensures CleanCells(cells)
  {
  }

  lemma StripWithin(s: string, c: char)
    requires c in Strip(s)
    ensures c in s
  {
  }

  lemma NoBreakWithin(part: string, whole: string)
    requires NoBreak(whole) && forall c | c in part :: c in whole
    ensures NoBreak(part)
  {
  }

  lemma CellsWithin(line: string)
    requires OneLine(line)
    ensures CleanCells(CellsOf(line))
  {
    hide *;
    CellsClean(line);
    BareClean(line);
    BareStrip(line);
    forall i | 0 <= i < |CellsOf(line)| ensures NoBreak(CellsOf(line)[i]) {
      forall c | c in CellsOf(line)[i] ensures c in Bare(line) { StripWithin(Bare(line), c); }
      NoBreakWithin(CellsOf(line)[i], Bare(line));
    }
    CleanCellsIs(CellsOf(line));
  }

  lemma NarrowedCells(line: string, operation: string)
    requires OneLine(line) && |CellsOf(line)| >= 2
    requires CodeNames(CellsOf(line)[1]).Some? && operation in CodeNames(CellsOf(line)[1]).value
    ensures
      CleanCells(CellsOf(line)[1 := "`" + operation + "`"])
  {
    var was := CellsOf(line);
    CellsWithin(line);
    OperationClean(was[1], operation);
    hide CellsOf;
    hide Strip;
    hide OneLine;
    hide CodeNames;
    var cell := "`" + operation + "`";
    assert forall c | c in cell :: c == '`' || c in was[1];
    assert cell[0] == '`' && cell[|cell| - 1] == '`';
    assert Stripped(cell) && '|' !in cell && NoBreak(cell);
    var cells := was[1 := cell];
    assert CellsOf(line)[1 := "`" + operation + "`"] == cells;
    forall i | 0 <= i < |cells| ensures Stripped(cells[i]) && '|' !in cells[i] && NoBreak(cells[i]) {
      if i != 1 { assert cells[i] == was[i]; }
    }
  }

  /** The narrowed row says the one pair it was narrowed to. */
  lemma NarrowedRow(line: string, operation: string)
    requires OneLine(line) && |CellsOf(line)| >= 2 && CodeName(CellsOf(line)[0]).Some?
    requires CodeNames(CellsOf(line)[1]).Some? && operation in CodeNames(CellsOf(line)[1]).value
    ensures
      var cells := CellsOf(line)[1 := "`" + operation + "`"];
      && OneLine(Narrowed(line, operation)) && CellsOf(Narrowed(line, operation)) == cells
      && RowEntries(cells) == Some([Entry(CodeName(cells[0]).value, operation)])
  {
    var cells := CellsOf(line)[1 := "`" + operation + "`"];
    var ending := if EndsFeed(line) then "\n" else "";
    NarrowedCells(line, operation);
    OperationClean(CellsOf(line)[1], operation);
    NameBack(operation);
    hide CellsOf;
    hide CodeName;
    hide CodeNames;
    hide Rendered;
    hide Stripped;
    hide NoBreak;
    RenderedCells(cells, ending);
    RenderedLine(cells, ending);
    assert Named(CodeName(cells[0]).value, [operation]) == [Entry(CodeName(cells[0]).value, operation)];
  }

  lemma RowEntriesIs(cells: seq<string>, es: seq<Entry>)
    requires RowEntries(cells) == Some(es)
    ensures |cells| >= 2 && CodeName(cells[0]).Some? && CodeNames(cells[1]).Some?
    ensures es == Named(CodeName(cells[0]).value, CodeNames(cells[1]).value)
  {
  }

  lemma RowSelectedIs(line: string, es: seq<Entry>, kept: seq<string>, capability: string, operation: Option<string>)
    ensures RowSelected(line, es, kept, capability, operation) <==>
      if kept == [] then Chosen(es, capability, operation) == []
      else |kept| == 1 && OneLine(kept[0]) && CellsOf(kept[0]) != []
           && RowEntries(CellsOf(kept[0])) == Some(Chosen(es, capability, operation))
  {
  }

  /** A row that parses contributes the chosen ones of its entries. */
  lemma SelectedRowIs(line: string, capability: string, operation: Option<string>, es: seq<Entry>)
    requires OneLine(line) && RowEntries(CellsOf(line)) == Some(es) && Distinct(es)
    ensures SelectedRow(line, capability, operation).Some?
    ensures RowSelected(line, es, SelectedRow(line, capability, operation).value, capability, operation)
  {
    var cells := CellsOf(line);
    RowEntriesIs(cells, es);
    var name, names := CodeName(cells[0]).value, CodeNames(cells[1]).value;
    hide *;
    SelectedCases(line, capability, operation);
    RowSelectedIs(line, es, SelectedRow(line, capability, operation).value, capability, operation);
    NamedIn(name, names, "");
    if name != capability {
      NoneChosen(es, capability, operation, name);
    } else if operation.None? {
      NamedChosen(name, names, capability);
    } else {
      ChosenOne(es, capability, operation.value);
      NamedIn(name, names, operation.value);
      if operation.value in names { NarrowedRow(line, operation.value); }
    }
  }

  lemma SelectedCases(line: string, capability: string, operation: Option<string>)
    requires |CellsOf(line)| >= 2 && CodeName(CellsOf(line)[0]).Some? && CodeNames(CellsOf(line)[1]).Some?
    ensures
      var cells := CellsOf(line);
      SelectedRow(line, capability, operation) == Some(
        if CodeName(cells[0]) != Some(capability) then []
        else if operation.None? then [line]
        else if operation.value !in CodeNames(cells[1]).value then []
        else [Narrowed(line, operation.value)])
  {
    hide CellsOf;
    hide CodeName;
    hide CodeNames;
    hide Narrowed;
  }

  lemma {:induction false} NoneChosen(es: seq<Entry>, capability: string, operation: Option<string>, name: string)
    requires name != capability && forall e | e in es :: e.capability == name
    ensures Chosen(es, capability, operation) == []
  {
    if es != [] { NoneChosen(es[1..], capability, operation, name); }
  }

  // ---------- the table ----------

  lemma CellsHead(lines: seq<string>)
    requires lines != []
    ensures AllCells(lines)[0] == CellsOf(lines[0]) && AllCells(lines)[1..] == AllCells(lines[1..])
  {
  }

  lemma EntriesHead(rows: seq<seq<string>>, es: seq<Entry>)
    requires rows != [] && TableEntries(rows) == Some(es)
    ensures RowEntries(rows[0]).Some? && TableEntries(rows[1..]).Some?
    ensures es == RowEntries(rows[0]).value + TableEntries(rows[1..]).value
  {
  }

  lemma DistinctParts(xs: seq<Entry>, ys: seq<Entry>)
    requires Distinct(xs + ys)
    ensures Distinct(xs) && Distinct(ys)
  {
    assert forall i | 0 <= i < |xs| :: (xs + ys)[i] == xs[i];
    assert forall i | 0 <= i < |ys| :: (xs + ys)[|xs| + i] == ys[i];
  }

  /** Lines that are rows with these entries. */
  ghost predicate RowsSay(lines: seq<string>, es: seq<Entry>) {
    && (forall i | 0 <= i < |lines| :: OneLine(lines[i]) && CellsOf(lines[i]) != [])
    && TableEntries(AllCells(lines)) == Some(es)
  }

  lemma RowBefore(line: string, es: seq<Entry>, lines: seq<string>, more: seq<Entry>)
    requires OneLine(line) && CellsOf(line) != [] && RowEntries(CellsOf(line)) == Some(es) && RowsSay(lines, more)
    ensures RowsSay([line] + lines, es + more)
  {
    hide CellsOf;
    hide RowEntries;
    hide OneLine;
    var all := [line] + lines;
    assert all[1..] == lines;
    CellsHead(all);
    var rows := AllCells(all);
    assert rows[0] == CellsOf(line) && rows[1..] == AllCells(lines);
  }

  /** The selected lines are lines again, they are rows, and their entries are the chosen ones. */
  lemma {:induction false} SelectedRowsAre(lines: seq<string>, capability: string, operation: Option<string>, es: seq<Entry>)
    requires (forall i | 0 <= i < |lines| :: OneLine(lines[i])) && TableEntries(AllCells(lines)) == Some(es) && Distinct(es)
    ensures SelectedRows(lines, capability, operation).Some?
    ensures RowsSay(SelectedRows(lines, capability, operation).value, Chosen(es, capability, operation))
  {
    if lines == [] {
      assert AllCells(lines) == [];
    } else {
      hide *;
      var first, rest := RowsHead(lines, es);
      SelectedHead(lines, capability, operation);
      SelectedRowIs(lines[0], capability, operation, first);
      SelectedRowsAre(lines[1..], capability, operation, rest);
      ChosenConcat(first, rest, capability, operation);
      KeptBefore(lines, capability, operation, first, rest);
    }
  }

  lemma RowsHead(lines: seq<string>, es: seq<Entry>) returns (first: seq<Entry>, rest: seq<Entry>)
    requires lines != [] && TableEntries(AllCells(lines)) == Some(es) && Distinct(es)
    ensures RowEntries(CellsOf(lines[0])) == Some(first) && TableEntries(AllCells(lines[1..])) == Some(rest)
    ensures es == first + rest && Distinct(first) && Distinct(rest)
  {
    hide *;
    CellsHead(lines);
    EntriesHead(AllCells(lines), es);
    first, rest := RowEntries(CellsOf(lines[0])).value, TableEntries(AllCells(lines[1..])).value;
    DistinctParts(first, rest);
  }

  lemma SelectedHead(lines: seq<string>, capability: string, operation: Option<string>)
    requires lines != []
    ensures
      var first, more := SelectedRow(lines[0], capability, operation), SelectedRows(lines[1..], capability, operation);
      SelectedRows(lines, capability, operation) == if first.None? || more.None? then None else Some(first.value + more.value)
  {
    hide SelectedRow;
  }

  lemma KeptBefore(
    lines: seq<string>, capability: string, operation: Option<string>, first: seq<Entry>, rest: seq<Entry>)
    requires lines != []
    requires SelectedRow(lines[0], capability, operation).Some? && SelectedRows(lines[1..], capability, operation).Some?
    requires RowSelected(lines[0], first, SelectedRow(lines[0], capability, operation).value, capability, operation)
    requires RowsSay(SelectedRows(lines[1..], capability, operation).value, Chosen(rest, capability, operation))
    ensures RowsSay(SelectedRow(lines[0], capability, operation).value + SelectedRows(lines[1..], capability, operation).value,
                    Chosen(first, capability, operation) + Chosen(rest, capability, operation))
  {
    hide *;
    var kept, more := SelectedRow(lines[0], capability, operation).value, SelectedRows(lines[1..], capability, operation).value;
    RowSelectedIs(lines[0], first, kept, capability, operation);
    if kept == [] {
      assert kept + more == more;
      assert [] + Chosen(rest, capability, operation) == Chosen(rest, capability, operation);
    } else {
      assert kept == [kept[0]];
      RowBefore(kept[0], Chosen(first, capability, operation), more, Chosen(rest, capability, operation));
    }
  }

  // ---------- the whole document ----------

  lemma {:induction false} BareCells(lines: seq<string>)
    ensures AllCells(BareAll(lines)) == AllCells(lines)
  {
    if lines != [] {
      BareStrip(lines[0]);
      BareCells(lines[1..]);
      assert BareAll(lines)[1..] == BareAll(lines[1..]);
    }
  }

  lemma {:induction false} CellsConcat(xs: seq<string>, ys: seq<string>)
    ensures AllCells(xs + ys) == AllCells(xs) + AllCells(ys)
  {
    if xs == [] {
      assert xs + ys == ys;
    } else {
      assert (xs + ys)[1..] == xs[1..] + ys;
      CellsConcat(xs[1..], ys);
    }
  }

  lemma CellsOfParts(lines: seq<string>, kept: seq<string>, start: nat, end: nat)
    requires start <= end <= |lines|
    ensures AllCells(lines[..start] + kept + lines[end..]) == AllCells(lines)[..start] + AllCells(kept) + AllCells(lines)[end..]
    ensures AllCells(lines[start..end]) == AllCells(lines)[start..end]
  {
    hide *;
    CellsConcat(lines[..start] + kept, lines[end..]);
    CellsConcat(lines[..start], kept);
    CellsSlice(lines, 0, start);
    CellsSlice(lines, start, end);
    CellsSlice(lines, end, |lines|);
    assert lines[0..start] == lines[..start] && lines[end..|lines|] == lines[end..];
  }

  lemma CellsSlice(lines: seq<string>, from: nat, to: nat)
    requires from <= to <= |lines|
    ensures AllCells(lines[from..to]) == AllCells(lines)[from..to]
  {
    hide *;
  }

  lemma {:induction false} EndAt(rows: seq<seq<string>>, from: nat, end: nat)
    requires from <= end <= |rows| && (end < |rows| ==> rows[end] == []) && forall k | from <= k < end :: rows[k] != []
    ensures TableEnd(rows, from) == end
    decreases end - from
  {
    if from < end { EndAt(rows, from + 1, end); }
  }

  /** Replacing the rows of the table by other rows leaves the table where it is. */
  lemma TableStays(rows: seq<seq<string>>, kept: seq<seq<string>>, start: nat, end: nat)
    requires TableRange(rows) == Some((start, end)) && forall i | 0 <= i < |kept| :: kept[i] != []
    ensures TableRange(rows[..start] + kept + rows[end..]) == Some((start, start + |kept|))
  {
    var now := rows[..start] + kept + rows[end..];
    hide IsHeader;
    hide IsSeparator;
    assert forall k | 0 <= k < start :: now[k] == rows[k];
    assert forall k: nat | k + 1 < start :: TableAt(now, k) <==> TableAt(rows, k);
    assert TableAt(now, start - 2);
    forall k | start <= k < start + |kept| ensures now[k] != [] { assert now[k] == kept[k - start]; }
    if start + |kept| < |now| { assert now[start + |kept|] == rows[end]; }
    EndAt(now, start, start + |kept|);
  }

  lemma ParseIs(document: string, es: seq<Entry>)
    requires Parse(document) == Success(es)
    ensures
      var rows := AllCells(Lines(document));
      && TableRange(rows).Some? && es != [] && Distinct(es)
      && var (start, end) := TableRange(rows).value;
         start < end && TableEntries(rows[start..end]) == Some(es)
  {
    BareCells(Lines(document));
    hide TableRange;
    hide RowEntries;
    hide Lines;
  }

  lemma SelectedIs(
    lines: seq<string>, capability: string, operation: Option<string>, start: nat, end: nat, kept: seq<string>)
    requires TableRange(AllCells(lines)) == Some((start, end))
    requires SelectedRows(lines[start..end], capability, operation) == Some(kept)
    ensures SelectedLines(lines, capability, operation) == Success(lines[..start] + kept + lines[end..])
  {
    hide TableRange;
    hide SelectedRows;
  }

  lemma RowsSayIs(lines: seq<string>, es: seq<Entry>)
    requires RowsSay(lines, es)
    ensures forall i | 0 <= i < |lines| :: OneLine(lines[i]) && CellsOf(lines[i]) != []
    ensures TableEntries(AllCells(lines)) == Some(es) && |AllCells(lines)| == |lines|
    ensures forall i | 0 <= i < |AllCells(lines)| :: AllCells(lines)[i] != []
  {
    hide TableEntries;
    hide CellsOf;
    hide OneLine;
  }

  lemma Middle<T>(xs: seq<T>, ys: seq<T>, zs: seq<T>)
    ensures (xs + ys + zs)[|xs|..|xs| + |ys|] == ys
  {
  }

  lemma RowsReplaced(rows: seq<seq<string>>, kept: seq<seq<string>>, now: seq<seq<string>>, start: nat, end: nat)
    requires TableRange(rows) == Some((start, end)) && forall i | 0 <= i < |kept| :: kept[i] != []
    requires now == rows[..start] + kept + rows[end..]
    ensures TableRange(now) == Some((start, start + |kept|)) && start + |kept| <= |now| && now[start..start + |kept|] == kept
  {
    hide *;
    TableStays(rows, kept, start, end);
    Middle(rows[..start], kept, rows[end..]);
  }

  /** The rows of the table in the selected lines. */
  lemma KeptRows(lines: seq<string>, kept: seq<string>, now: seq<string>, start: nat, end: nat, es: seq<Entry>)
    requires TableRange(AllCells(lines)) == Some((start, end)) && RowsSay(kept, es)
    requires AllCells(now) == AllCells(lines)[..start] + AllCells(kept) + AllCells(lines)[end..]
    ensures TableRange(AllCells(now)) == Some((start, start + |kept|))
    ensures TableEntries(AllCells(now)[start..start + |kept|]) == Some(es)
  {
    hide *;
    RowsSayIs(kept, es);
    var rows, keptRows, nowRows := AllCells(lines), AllCells(kept), AllCells(now);
    RowsReplaced(rows, keptRows, nowRows, start, end);
  }

  lemma ParseText(lines: seq<string>, start: nat, end: nat, es: seq<Entry>)
    requires Lines(Text(lines)) == lines && Distinct(es)
    requires TableRange(AllCells(lines)) == Some((start, end)) && TableEntries(AllCells(lines)[start..end]) == Some(es)
    ensures Parse(Text(lines)) == if es == [] then Failure else Success(es)
  {
    BareCells(lines);
    hide TableRange;
    hide TableEntries;
    hide Lines;
    hide Text;
  }

  // ---------- when the selection can be read back ----------

  /** A row of the table that belongs to the capability. */
  predicate OfCapability(line: string, capability: string) {
    CellsOf(line) != [] && CodeName(CellsOf(line)[0]) == Some(capability)
  }

  /** A row that names the pair. */
  predicate NamesPair(line: string, capability: string, operation: string) {
    RowEntries(CellsOf(line)).Some? && Entry(capability, operation) in RowEntries(CellsOf(line)).value
  }

  /** The last row of the capability, or the line before the rows. */
  function LastOf(lines: seq<string>, start: nat, end: nat, capability: string): (k: nat)
    requires 0 < start <= end <= |lines|
    ensures start - 1 <= k < end || (k == start - 1 && start == end)
    decreases end
  {
    if start == end then start - 1
    else if OfCapability(lines[end - 1], capability) then end - 1
    else LastOf(lines, start, end - 1, capability)
  }

  /** The blank line after the table would complete the line break of line `k`. */
  predicate Swallowed(lines: seq<string>, k: nat, end: nat)
    requires k < end < |lines|
  {
    BareReturn(lines[k]) && lines[end] == "\n"
  }

  /**
   * What decides, on the document: with no line after the table nothing can go wrong.  Otherwise a chosen
   * pair needs the row that names it to end in a line feed; and where whole rows are kept or none is, the
   * line that then comes before the rest must not swallow a blank line.
   */
  ghost predicate Separable(lines: seq<string>, start: nat, end: nat, capability: string, operation: Option<string>)
    requires 0 < start <= end <= |lines|
  {
    || end == |lines|
    || match operation
       case None => !Swallowed(lines, LastOf(lines, start, end, capability), end)
       case Some(name) =>
         if exists i :: start <= i < end && NamesPair(lines[i], capability, name)
         then forall i | start <= i < end && NamesPair(lines[i], capability, name) :: EndsFeed(lines[i])
         else !Swallowed(lines, start - 1, end)
  }

  /** Rows of the capability, as they are. */
  function WholeRows(lines: seq<string>, capability: string): seq<string> {
    if lines == [] then []
    else
      var last := lines[|lines| - 1];
      WholeRows(lines[..|lines| - 1], capability) + if OfCapability(last, capability) then [last] else []
  }

  lemma {:induction false} SelectedConcat(xs: seq<string>, ys: seq<string>, capability: string, operation: Option<string>)
    requires SelectedRows(xs + ys, capability, operation).Some?
    ensures SelectedRows(xs, capability, operation).Some? && SelectedRows(ys, capability, operation).Some?
    ensures SelectedRows(xs + ys, capability, operation).value
            == SelectedRows(xs, capability, operation).value + SelectedRows(ys, capability, operation).value
  {
    hide SelectedRow;
    if xs == [] {
      assert xs + ys == ys;
    } else {
      assert (xs + ys)[1..] == xs[1..] + ys;
      SelectedConcat(xs[1..], ys, capability, operation);
    }
  }

  lemma SelectedOne(line: string, capability: string, operation: Option<string>)
    ensures SelectedRows([line], capability, operation) == SelectedRow(line, capability, operation)
  {
    hide SelectedRow;
    assert [line][1..] == [];
    assert SelectedRow(line, capability, operation).Some? ==>
      SelectedRow(line, capability, operation).value + [] == SelectedRow(line, capability, operation).value;
  }

  lemma WholeRow(line: string, capability: string)
    requires SelectedRow(line, capability, None).Some?
    ensures SelectedRow(line, capability, None).value == if OfCapability(line, capability) then [line] else []
  {
  }

  /** Selecting a capability keeps its rows as they are. */
  lemma {:induction false} WholeRowsSelected(lines: seq<string>, capability: string)
    requires SelectedRows(lines, capability, None).Some?
    ensures SelectedRows(lines, capability, None).value == WholeRows(lines, capability)
    decreases |lines|
  {
    hide SelectedRow;
    hide OfCapability;
    if lines != [] {
      var before, last := lines[..|lines| - 1], lines[|lines| - 1];
      assert lines == before + [last];
      SelectedConcat(before, [last], capability, None);
      hide SelectedRows;
      SelectedOne(last, capability, None);
      WholeRow(last, capability);
      WholeRowsSelected(before, capability);
    }
  }

  lemma RowFront(line: string)
    requires OneLine(line) && CellsOf(line) != []
    ensures line != "" && line[0] != '\n'
  {
    assert line[0] == '\n' ==> line == "\n";
    assert Strip("\n") == "";
  }

  /** Kept rows stay apart as the rows they were did, and the last of them is the last of the capability. */
  lemma {:induction false} WholeRowsJoined(lines: seq<string>, start: nat, end: nat, capability: string)
    requires 0 < start <= end <= |lines|
    requires forall i | start <= i < end :: OneLine(lines[i]) && CellsOf(lines[i]) != []
    requires forall i | start <= i < end - 1 :: EndsBreak(lines[i])
    ensures
      var kept := WholeRows(lines[start..end], capability);
      && WellJoined(kept) && (forall l | l in kept :: l != "" && l[0] != '\n')
      && (if kept == [] then LastOf(lines, start, end, capability) == start - 1
          else kept[|kept| - 1] == lines[LastOf(lines, start, end, capability)] && LastOf(lines, start, end, capability) >= start)
    decreases end
  {
    hide CellsOf;
    hide OneLine;
    hide OfCapability;
    hide EndsBreak;
    hide BareReturn;
    var body := lines[start..end];
    if start < end {
      assert body[..|body| - 1] == lines[start..end - 1] && body[|body| - 1] == lines[end - 1];
      WholeRowsJoined(lines, start, end - 1, capability);
      var before, kept := WholeRows(lines[start..end - 1], capability), WholeRows(body, capability);
      RowFront(lines[end - 1]);
      if OfCapability(lines[end - 1], capability) {
        assert kept == before + [lines[end - 1]];
        if before != [] { assert EndsBreak(before[|before| - 1]); }
        JoinedMore(before, lines[end - 1]);
      } else {
        assert kept == before;
      }
    }
  }

  lemma JoinedMore(before: seq<string>, l: string)
    requires WellJoined(before) && l != "" && l[0] != '\n' && (before != [] ==> EndsBreak(before[|before| - 1]))
    ensures WellJoined(before + [l])
  {
    hide EndsBreak;
    hide BareReturn;
    var all := before + [l];
    forall i | 0 <= i < |all| - 1 ensures Joined(all[i], all[i + 1]) {
      if i < |before| - 1 { assert Joined(before[i], before[i + 1]); }
    }
  }

  lemma NarrowedOnly(line: string, capability: string, operation: string, es: seq<Entry>)
    requires RowEntries(CellsOf(line)) == Some(es)
    ensures SelectedRow(line, capability, Some(operation))
            == Some(if NamesPair(line, capability, operation) then [Narrowed(line, operation)] else [])
    ensures NamesPair(line, capability, operation) ==> |CellsOf(line)| >= 2
  {
    RowEntriesIs(CellsOf(line), es);
    SelectedCases(line, capability, Some(operation));
    NamedIn(CodeName(CellsOf(line)[0]).value, CodeNames(CellsOf(line)[1]).value, operation);
    hide CellsOf;
    hide CodeName;
    hide CodeNames;
    hide Narrowed;
    hide SelectedRow;
  }

  /** Selecting a pair keeps the one row that names it, narrowed, or nothing. */
  lemma {:induction false} NarrowedSelected(lines: seq<string>, capability: string, operation: string, es: seq<Entry>)
    requires TableEntries(AllCells(lines)) == Some(es) && Distinct(es)
    ensures SelectedRows(lines, capability, Some(operation)).Some?
    ensures
      var kept := SelectedRows(lines, capability, Some(operation)).value;
      if Entry(capability, operation) in es
      then exists i :: 0 <= i < |lines| && OnlyNaming(lines, i, capability, operation)
                       && |CellsOf(lines[i])| >= 2 && kept == [Narrowed(lines[i], operation)]
      else kept == [] && forall i | 0 <= i < |lines| :: !NamesPair(lines[i], capability, operation)
  {
    if lines == [] {
      assert AllCells(lines) == [];
    } else {
      hide *;
      var first, rest := RowsHead(lines, es);
      SelectedHead(lines, capability, Some(operation));
      NarrowedOnly(lines[0], capability, operation, first);
      NarrowedSelected(lines[1..], capability, operation, rest);
      PairIn(lines[0], capability, operation, first);
      PairOnce(first, rest, Entry(capability, operation));
      NarrowedBefore(lines, capability, operation, first, rest);
    }
  }

  lemma PairIn(line: string, capability: string, operation: string, es: seq<Entry>)
    requires RowEntries(CellsOf(line)) == Some(es)
    ensures NamesPair(line, capability, operation) <==> Entry(capability, operation) in es
  {
  }

  lemma PairOnce(first: seq<Entry>, rest: seq<Entry>, e: Entry)
    requires Distinct(first + rest)
    ensures !(e in first && e in rest) && (e in first + rest <==> e in first || e in rest)
  {
    forall i, j | 0 <= i < |first| && 0 <= j < |rest| ensures first[i] != rest[j] {
      assert (first + rest)[i] != (first + rest)[|first| + j];
    }
  }

  /** Line `i` names the pair and no other line does. */
  ghost predicate OnlyNaming(lines: seq<string>, i: nat, capability: string, operation: string)
    requires i < |lines|
  {
    forall k | 0 <= k < |lines| :: NamesPair(lines[k], capability, operation) <==> k == i
  }

  lemma NarrowedBefore(lines: seq<string>, capability: string, operation: string, first: seq<Entry>, rest: seq<Entry>)
    requires lines != []
    requires SelectedRows(lines[1..], capability, Some(operation)).Some?
    requires SelectedRow(lines[0], capability, Some(operation))
             == Some(if NamesPair(lines[0], capability, operation) && |CellsOf(lines[0])| >= 2
                     then [Narrowed(lines[0], operation)] else [])
    requires NamesPair(lines[0], capability, operation) ==> |CellsOf(lines[0])| >= 2
    requires NamesPair(lines[0], capability, operation) <==> Entry(capability, operation) in first
    requires !(Entry(capability, operation) in first && Entry(capability, operation) in rest)
    requires
      var kept, tail := SelectedRows(lines[1..], capability, Some(operation)).value, lines[1..];
      if Entry(capability, operation) in rest
      then exists i :: 0 <= i < |tail| && OnlyNaming(tail, i, capability, operation)
                       && |CellsOf(tail[i])| >= 2 && kept == [Narrowed(tail[i], operation)]
      else kept == [] && forall i | 0 <= i < |tail| :: !NamesPair(tail[i], capability, operation)
    ensures
      var kept := SelectedRow(lines[0], capability, Some(operation)).value
                  + SelectedRows(lines[1..], capability, Some(operation)).value;
      if Entry(capability, operation) in first || Entry(capability, operation) in rest
      then exists i :: 0 <= i < |lines| && OnlyNaming(lines, i, capability, operation)
                       && |CellsOf(lines[i])| >= 2 && kept == [Narrowed(lines[i], operation)]
      else kept == [] && forall i | 0 <= i < |lines| :: !NamesPair(lines[i], capability, operation)
  {
    hide NamesPair;
    hide CellsOf;
    hide Narrowed;
    hide SelectedRow;
    hide SelectedRows;
    var tail := lines[1..];
    assert forall k | 0 < k < |lines| :: lines[k] == tail[k - 1];
    if Entry(capability, operation) in rest {
      var i :| 0 <= i < |tail| && OnlyNaming(tail, i, capability, operation)
               && |CellsOf(tail[i])| >= 2 && SelectedRows(tail, capability, Some(operation)).value == [Narrowed(tail[i], operation)];
      forall k | 0 <= k < |lines| ensures NamesPair(lines[k], capability, operation) <==> k == i + 1 {
        if k > 0 { assert NamesPair(tail[k - 1], capability, operation) <==> k - 1 == i; }
      }
      assert OnlyNaming(lines, i + 1, capability, operation) && lines[i + 1] == tail[i];
    } else if Entry(capability, operation) in first {
      assert OnlyNaming(lines, 0, capability, operation);
    }
  }

  // ---------- the theorem ----------

  /** Lines before, rows and lines after stay apart exactly when they do at the two seams. */
  lemma SeamIff(before: seq<string>, kept: seq<string>, after: seq<string>)
    requires before != [] && WellJoined(before) && WellJoined(kept) && WellJoined(after)
    requires kept != [] ==> Joined(before[|before| - 1], kept[0])
    ensures WellJoined(before + kept + after) <==>
      after == [] || Joined(if kept == [] then before[|before| - 1] else kept[|kept| - 1], after[0])
  {
    hide Joined;
    var all := before + kept + after;
    var last := |before| + |kept| - 1;
    forall i | 0 <= i < |all| - 1 && i != last ensures Joined(all[i], all[i + 1]) {
      if i < |before| - 1 {
        assert Joined(before[i], before[i + 1]);
      } else if i >= |before| && i < last {
        assert Joined(kept[i - |before|], kept[i - |before| + 1]);
      } else if i > last {
        assert Joined(after[i - last - 1], after[i - last - 1 + 1]);
      }
    }
    if after != [] && WellJoined(all) { assert Joined(all[last], all[last + 1]); }
  }

  lemma PartJoined(lines: seq<string>, from: nat, to: nat)
    requires WellJoined(lines) && from <= to <= |lines|
    ensures WellJoined(lines[from..to])
  {
    hide Joined;
    var part := lines[from..to];
    forall i | 0 <= i < |part| - 1 ensures Joined(part[i], part[i + 1]) {
      assert Joined(lines[from + i], lines[from + i + 1]);
    }
  }

  /** A document splits into lines, each of them one, that stay apart. */
  lemma DocumentLines(document: string)
    ensures forall i | 0 <= i < |Lines(document)| :: OneLine(Lines(document)[i])
    ensures WellJoined(Lines(document))
  {
    hide *;
    LinesText(document);
    LinesTextIff(Lines(document));
    assert forall i | 0 <= i < |Lines(document)| :: Lines(document)[i] in Lines(document);
  }

  lemma BreakBefore(lines: seq<string>, i: nat)
    requires WellJoined(lines) && i + 1 < |lines|
    ensures EndsBreak(lines[i])
  {
    assert Joined(lines[i], lines[i + 1]);
  }

  lemma JoinedTo(l: string, next: string)
    requires EndsBreak(l) && OneLine(next)
    ensures Joined(l, next) <==> !(BareReturn(l) && next == "\n")
  {
  }

  lemma JoinedToRow(l: string, row: string)
    requires EndsBreak(l) && row != "" && row[0] != '\n'
    ensures Joined(l, row)
  {
  }

  lemma NarrowedEnds(line: string, operation: string, next: string)
    requires |CellsOf(line)| >= 2
    ensures Narrowed(line, operation) != "" && Narrowed(line, operation)[0] == '|'
    ensures Joined(Narrowed(line, operation), next) <==> EndsFeed(line)
  {
    var row := Rendered(CellsOf(line)[1 := "`" + operation + "`"]);
    assert row[0] == '|' && row[|row| - 1] == '|';
    hide CellsOf;
    hide Rendered;
  }

  /** What a table of a document is made of. */
  lemma TableLines(document: string, start: nat, end: nat)
    requires TableRange(AllCells(Lines(document))) == Some((start, end))
    ensures 2 <= start <= end <= |Lines(document)|
    ensures forall i | start <= i < end :: CellsOf(Lines(document)[i]) != []
  {
    var rows := AllCells(Lines(document));
    hide Lines;
    hide CellsOf;
    hide FirstTable;
    assert forall i | start <= i < end :: rows[i] != [];
  }

  predicate AllOne(lines: seq<string>) { forall i | 0 <= i < |lines| :: OneLine(lines[i]) }

  ghost predicate LinesKept(document: string, kept: seq<string>, start: nat, end: nat)
    requires start <= end <= |Lines(document)|
  {
    var now := Lines(document)[..start] + kept + Lines(document)[end..];
    Lines(Text(now)) == now
  }

  lemma LinesKeptIff(document: string, kept: seq<string>, start: nat, end: nat)
    requires 0 < start < end <= |Lines(document)| && WellJoined(kept) && AllOne(kept)
    requires kept != [] ==> kept[0] != "" && kept[0][0] != '\n'
    ensures LinesKept(document, kept, start, end) <==>
      end == |Lines(document)|
      || Joined(if kept == [] then Lines(document)[start - 1] else kept[|kept| - 1], Lines(document)[end])
  {
    var lines := Lines(document);
    var before, after := lines[..start], lines[end..];
    var now := before + kept + after;
    hide Lines;
    hide OneLine;
    DocumentLines(document);
    forall l | l in now ensures OneLine(l) {
      assert l in before || l in kept || l in after;
    }
    hide *;
    LinesTextIff(now);
    PartJoined(lines, 0, start);
    PartJoined(lines, end, |lines|);
    assert lines[0..start] == before && lines[end..|lines|] == after;
    BreakBefore(lines, start - 1);
    if kept != [] { JoinedToRow(lines[start - 1], kept[0]); }
    SeamIff(before, kept, after);
    LinesKeptIs(document, kept, start, end);
  }

  lemma LinesKeptIs(document: string, kept: seq<string>, start: nat, end: nat)
    requires start <= end <= |Lines(document)|
    ensures
      var now := Lines(document)[..start] + kept + Lines(document)[end..];
      LinesKept(document, kept, start, end) <==> Lines(Text(now)) == now
  {
  }

  lemma KeptIff(document: string, kept: seq<string>, start: nat, end: nat, last: string)
    requires 0 < start < end <= |Lines(document)| && WellJoined(kept) && AllOne(kept)
    requires kept != [] ==> kept[0] != "" && kept[0][0] != '\n'
    requires last == if kept == [] then Lines(document)[start - 1] else kept[|kept| - 1]
    requires end < |Lines(document)| ==> EndsBreak(last)
    ensures LinesKept(document, kept, start, end) <==>
      end == |Lines(document)| || !(BareReturn(last) && Lines(document)[end] == "\n")
  {
    hide *;
    DocumentLines(document);
    LinesKeptIff(document, kept, start, end);
    if end < |Lines(document)| { JoinedTo(last, Lines(document)[end]); }
  }

  lemma RowsJoined(document: string, capability: string, start: nat, end: nat)
    requires 0 < start < end <= |Lines(document)|
    requires forall i | start <= i < end :: CellsOf(Lines(document)[i]) != []
    ensures
      var lines := Lines(document);
      var kept := WholeRows(lines[start..end], capability);
      var k := LastOf(lines, start, end, capability);
      && WellJoined(kept) && (kept != [] ==> kept[0] != "" && kept[0][0] != '\n')
      && lines[k] == (if kept == [] then lines[start - 1] else kept[|kept| - 1])
      && (end < |lines| ==> EndsBreak(lines[k]))
  {
    hide *;
    var lines := Lines(document);
    DocumentLines(document);
    forall i | start <= i < end - 1 ensures EndsBreak(lines[i]) { BreakBefore(lines, i); }
    WholeRowsJoined(lines, start, end, capability);
    var kept := WholeRows(lines[start..end], capability);
    if kept != [] { assert kept[0] in kept; }
    if end < |lines| { BreakBefore(lines, LastOf(lines, start, end, capability)); }
  }

  /** Whole rows: the lines come back exactly when no blank line is swallowed after the last kept one. */
  lemma WholeKeptIff(document: string, capability: string, start: nat, end: nat)
    requires 0 < start < end <= |Lines(document)|
    requires forall i | start <= i < end :: CellsOf(Lines(document)[i]) != []
    requires AllOne(WholeRows(Lines(document)[start..end], capability))
    ensures LinesKept(document, WholeRows(Lines(document)[start..end], capability), start, end)
            <==> Separable(Lines(document), start, end, capability, None)
  {
    hide *;
    RowsJoined(document, capability, start, end);
    KeptIff(document, WholeRows(Lines(document)[start..end], capability), start, end,
            Lines(document)[LastOf(Lines(document), start, end, capability)]);
    SeparableWhole(Lines(document), start, end, capability);
  }

  lemma SeparableWhole(lines: seq<string>, start: nat, end: nat, capability: string)
    requires 0 < start < end <= |lines|
    ensures Separable(lines, start, end, capability, None) <==>
      end == |lines| || !(BareReturn(lines[LastOf(lines, start, end, capability)]) && lines[end] == "\n")
  {
    hide LastOf;
  }

  /** One narrowed row: the lines come back exactly when the row it was ends in a line feed, or nothing follows. */
  lemma NarrowedKeptIff(document: string, line: string, operation: string, start: nat, end: nat)
    requires 0 < start < end <= |Lines(document)| && |CellsOf(line)| >= 2 && OneLine(Narrowed(line, operation))
    ensures LinesKept(document, [Narrowed(line, operation)], start, end) <==> end == |Lines(document)| || EndsFeed(line)
  {
    var kept := [Narrowed(line, operation)];
    NarrowedEnds(line, operation, if end < |Lines(document)| then Lines(document)[end] else "");
    assert WellJoined(kept) && AllOne(kept);
    hide *;
    LinesKeptIff(document, kept, start, end);
  }

  lemma NoneKeptIff(document: string, start: nat, end: nat)
    requires 0 < start < end <= |Lines(document)|
    ensures LinesKept(document, [], start, end) <==>
      end == |Lines(document)| || !(BareReturn(Lines(document)[start - 1]) && Lines(document)[end] == "\n")
  {
    assert WellJoined([]) && AllOne([]);
    hide *;
    DocumentLines(document);
    if end < |Lines(document)| { BreakBefore(Lines(document), start - 1); }
    KeptIff(document, [], start, end, Lines(document)[start - 1]);
  }

  lemma SeparableNamed(lines: seq<string>, start: nat, end: nat, capability: string, operation: string, i: nat)
    requires 0 < start <= i < end <= |lines| && NamesPair(lines[i], capability, operation)
    requires forall k | start <= k < end && NamesPair(lines[k], capability, operation) :: k == i
    ensures Separable(lines, start, end, capability, Some(operation)) <==> end == |lines| || EndsFeed(lines[i])
  {
    hide NamesPair;
  }

  lemma SeparableUnnamed(lines: seq<string>, start: nat, end: nat, capability: string, operation: string)
    requires 0 < start < end <= |lines| && forall k | start <= k < end :: !NamesPair(lines[k], capability, operation)
    ensures Separable(lines, start, end, capability, Some(operation)) <==>
      end == |lines| || !(BareReturn(lines[start - 1]) && lines[end] == "\n")
  {
    hide NamesPair;
  }

  lemma NamedKeptIff(document: string, capability: string, operation: string, start: nat, end: nat, i: nat)
    requires 0 < start < end <= |Lines(document)| && start + i < end
    requires OnlyNaming(Lines(document)[start..end], i, capability, operation)
    requires |CellsOf(Lines(document)[start + i])| >= 2 && OneLine(Narrowed(Lines(document)[start + i], operation))
    ensures LinesKept(document, [Narrowed(Lines(document)[start + i], operation)], start, end)
            <==> Separable(Lines(document), start, end, capability, Some(operation))
  {
    hide *;
    NarrowedKeptIff(document, Lines(document)[start + i], operation, start, end);
    OnlyNamingIs(Lines(document), start, end, i, capability, operation);
    SeparableNamed(Lines(document), start, end, capability, operation, start + i);
  }

  lemma UnnamedKeptIff(document: string, capability: string, operation: string, start: nat, end: nat)
    requires 0 < start < end <= |Lines(document)|
    requires forall k | 0 <= k < end - start :: !NamesPair(Lines(document)[start..end][k], capability, operation)
    ensures LinesKept(document, [], start, end) <==> Separable(Lines(document), start, end, capability, Some(operation))
  {
    hide *;
    var lines := Lines(document);
    NoneKeptIff(document, start, end);
    forall k | start <= k < end ensures !NamesPair(lines[k], capability, operation) {
      assert lines[k] == lines[start..end][k - start];
    }
    SeparableUnnamed(lines, start, end, capability, operation);
  }

  /** One pair: by the row that names it when there is one. */
  lemma PairKeptIff(document: string, capability: string, operation: string, start: nat, end: nat, es: seq<Entry>, kept: seq<string>)
    requires 0 < start < end <= |Lines(document)| && AllOne(kept)
    requires TableEntries(AllCells(Lines(document)[start..end])) == Some(es) && Distinct(es)
    requires SelectedRows(Lines(document)[start..end], capability, Some(operation)) == Some(kept)
    ensures LinesKept(document, kept, start, end) <==> Separable(Lines(document), start, end, capability, Some(operation))
  {
    hide *;
    var body := Lines(document)[start..end];
    NarrowedSelected(body, capability, operation, es);
    if Entry(capability, operation) in es {
      var i := NamingRow(body, capability, operation, kept);
      assert body[i] == Lines(document)[start + i];
      NamedKeptIff(document, capability, operation, start, end, i);
    } else {
      UnnamedKeptIff(document, capability, operation, start, end);
    }
  }

  lemma NamingRow(body: seq<string>, capability: string, operation: string, kept: seq<string>) returns (i: nat)
    requires AllOne(kept)
    requires exists i :: 0 <= i < |body| && OnlyNaming(body, i, capability, operation)
                         && |CellsOf(body[i])| >= 2 && kept == [Narrowed(body[i], operation)]
    ensures i < |body| && OnlyNaming(body, i, capability, operation)
    ensures |CellsOf(body[i])| >= 2 && kept == [Narrowed(body[i], operation)] && OneLine(Narrowed(body[i], operation))
  {
    hide *;
    i :| 0 <= i < |body| && OnlyNaming(body, i, capability, operation)
         && |CellsOf(body[i])| >= 2 && kept == [Narrowed(body[i], operation)];
    OneOf(kept);
  }

  lemma OneOf(lines: seq<string>)
    requires AllOne(lines) && lines != []
    ensures OneLine(lines[0])
  {
  }

  lemma OnlyNamingIs(lines: seq<string>, start: nat, end: nat, i: nat, capability: string, operation: string)
    requires start <= end <= |lines| && start + i < end && OnlyNaming(lines[start..end], i, capability, operation)
    ensures NamesPair(lines[start + i], capability, operation) && lines[start + i] == lines[start..end][i]
    ensures forall k | start <= k < end && NamesPair(lines[k], capability, operation) :: k == start + i
  {
    hide NamesPair;
    var body := lines[start..end];
    assert NamesPair(body[i], capability, operation);
    forall k | start <= k < end && NamesPair(lines[k], capability, operation) ensures k == start + i {
      assert lines[k] == body[k - start];
    }
  }

  /** The selection says the chosen entries, or is refused for want of any, and keeps all lines around its rows. */
  ghost predicate Commutes(document: string, capability: string, operation: Option<string>, es: seq<Entry>) {
    var selected := SelectedLines(Lines(document), capability, operation);
    var chosen := Chosen(es, capability, operation);
    && selected.Success?
    && Lines(Text(selected.value)) == selected.value
    && Parse(Text(selected.value)) == if chosen == [] then Failure else Success(chosen)
  }

  ghost predicate DocumentSeparable(document: string, capability: string, operation: Option<string>) {
    var table := TableRange(AllCells(Lines(document)));
    table.Some? && Separable(Lines(document), table.value.0, table.value.1, capability, operation)
  }

  /** On a document that parses the rows can always be selected. */
  lemma SelectionSucceeds(document: string, capability: string, operation: Option<string>, es: seq<Entry>)
    returns (start: nat, end: nat, kept: seq<string>)
    requires Parse(document) == Success(es)
    ensures TableRange(AllCells(Lines(document))) == Some((start, end)) && 2 <= start < end <= |Lines(document)|
    ensures forall i | start <= i < end :: CellsOf(Lines(document)[i]) != []
    ensures TableEntries(AllCells(Lines(document)[start..end])) == Some(es) && Distinct(es)
    ensures SelectedRows(Lines(document)[start..end], capability, operation) == Some(kept)
    ensures AllOne(kept) && RowsSay(kept, Chosen(es, capability, operation))
    ensures SelectedLines(Lines(document), capability, operation)
            == Success(Lines(document)[..start] + kept + Lines(document)[end..])
  {
    hide *;
    var lines := Lines(document);
    ParseIs(document, es);
    var table := TableRange(AllCells(lines)).value;
    start, end := table.0, table.1;
    TableLines(document, start, end);
    DocumentLines(document);
    CellsSlice(lines, start, end);
    var body := lines[start..end];
    forall i | 0 <= i < |body| ensures OneLine(body[i]) { assert body[i] == lines[start + i]; }
    SelectedRowsAre(body, capability, operation, es);
    kept := SelectedRows(body, capability, operation).value;
    RowsSayIs(kept, Chosen(es, capability, operation));
    AllOneIs(kept);
    SelectedIs(lines, capability, operation, start, end, kept);
  }

  lemma AllOneIs(lines: seq<string>)
    requires forall i | 0 <= i < |lines| :: OneLine(lines[i])
    ensures AllOne(lines)
  {
  }

  /** Once the lines come back the entries do. */
  lemma LinesDecide(document: string, kept: seq<string>, start: nat, end: nat, es: seq<Entry>)
    requires TableRange(AllCells(Lines(document))) == Some((start, end)) && RowsSay(kept, es) && Distinct(es)
    requires start <= end <= |Lines(document)| && LinesKept(document, kept, start, end)
    ensures Parse(Text(Lines(document)[..start] + kept + Lines(document)[end..])) == if es == [] then Failure else Success(es)
  {
    hide *;
    var lines := Lines(document);
    var now := lines[..start] + kept + lines[end..];
    LinesKeptIs(document, kept, start, end);
    CellsOfParts(lines, kept, start, end);
    KeptRows(lines, kept, now, start, end, es);
    ParseText(now, start, start + |kept|, es);
  }

  /**
   * A selection parses to exactly the chosen entries, in order, with every line around its rows as it was,
   * if and only if the document keeps it apart from what follows the table.
   */
  lemma SelectionCommutesIff(document: string, capability: string, operation: Option<string>, es: seq<Entry>)
    requires Parse(document) == Success(es)
    ensures Commutes(document, capability, operation, es) <==> DocumentSeparable(document, capability, operation)
  {
    hide *;
    var start, end, kept := SelectionSucceeds(document, capability, operation, es);
    var chosen := Chosen(es, capability, operation);
    ChosenDistinct(es, capability, operation);
    CommutesIs(document, capability, operation, es, start, end, kept);
    if LinesKept(document, kept, start, end) { LinesDecide(document, kept, start, end, chosen); }
    match operation
    case None =>
      WholeRowsSelected(Lines(document)[start..end], capability);
      WholeKeptIff(document, capability, start, end);
    case Some(name) =>
      PairKeptIff(document, capability, name, start, end, es, kept);
  }

  lemma CommutesIs(
    document: string, capability: string, operation: Option<string>, es: seq<Entry>, start: nat, end: nat, kept: seq<string>)
    requires TableRange(AllCells(Lines(document))) == Some((start, end)) && 0 < start <= end <= |Lines(document)|
    requires SelectedLines(Lines(document), capability, operation)
             == Success(Lines(document)[..start] + kept + Lines(document)[end..])
    ensures Commutes(document, capability, operation, es) <==>
      && LinesKept(document, kept, start, end)
      && Parse(Text(Lines(document)[..start] + kept + Lines(document)[end..]))
         == if Chosen(es, capability, operation) == [] then Failure else Success(Chosen(es, capability, operation))
    ensures DocumentSeparable(document, capability, operation) <==>
      Separable(Lines(document), start, end, capability, operation)
  {
    hide Parse;
    hide Lines;
    hide Text;
    hide TableRange;
    hide Separable;
    hide SelectedLines;
    hide Chosen;
  }
}
