/** Exactly which documents parse, and as what: the table, its rows and the names in its cells, told on the text. */
module ContractExact {
  import opened Wrappers
  import opened PythonText
  import opened ContractCatalog
  import opened ContractSelection
  import opened ContractPrinted

  // ---------- names in cells ----------

  /** Inline code around a name, with blanks around either. */
  ghost predicate Quoted(cell: string, name: string) {
    name != "" && Stripped(name)
    && exists before, left, right, after :: QuotedAt(cell, name, before, left, right, after)
  }

  predicate QuotedAt(cell: string, name: string, before: string, left: string, right: string, after: string) {
    && cell == before + "`" + left + name + right + "`" + after
    && AllBlank(before) && AllBlank(left) && AllBlank(right) && AllBlank(after)
  }

  lemma {:induction false} StripLead(before: string, s: string)
    requires AllBlank(before)
    ensures Strip(before + s) == Strip(s)
  {
    if before == "" {
      assert before + s == s;
    } else {
      assert before + s == [before[0]] + (before[1..] + s);
      StripLeading(before[1..] + s, before[0]);
      StripLead(before[1..], s);
    }
  }

  lemma {:induction false} StripTail(s: string, after: string)
    requires AllBlank(after)
    ensures Strip(s + after) == Strip(s)
    decreases |after|
  {
    if after == "" {
      assert s + after == s;
    } else {
      var front, last := after[..|after| - 1], after[|after| - 1];
      assert s + after == (s + front) + [last];
      StripTrailing(s + front, last);
      StripTail(s, front);
    }
  }

  lemma StripOf(before: string, s: string, after: string)
    requires AllBlank(before) && AllBlank(after) && Stripped(s)
    ensures Strip(before + s + after) == s
  {
    StripTail(before + s, after);
    StripLead(before, s);
    assert Strip(s) == s;
    hide AllBlank;
  }

  lemma CodeNameIff(cell: string, name: string)
    ensures CodeName(cell) == Some(name) <==> Quoted(cell, name)
  {
    if CodeName(cell) == Some(name) { CodeQuoted(cell, name); }
    if Quoted(cell, name) {
      var before, left, right, after :| QuotedAt(cell, name, before, left, right, after);
      QuotedCode(cell, name, before, left, right, after);
    }
    hide CodeName;
  }

  lemma CodeNameGives(cell: string, name: string)
    requires CodeName(cell) == Some(name)
    ensures
      var value := Strip(cell);
      && |value| >= 2 && value == "`" + value[1..|value| - 1] + "`" && Strip(value[1..|value| - 1]) == name
      && name != "" && Stripped(name)
  {
    hide Strip;
  }

  lemma Quotes(cell: string, name: string, before: string, left: string, right: string, after: string)
    requires name != "" && Stripped(name) && AllBlank(before) && AllBlank(left) && AllBlank(right) && AllBlank(after)
    requires cell == before + ("`" + (left + name + right) + "`") + after
    ensures Quoted(cell, name)
  {
    hide Stripped;
    hide AllBlank;
    assert cell == before + "`" + left + name + right + "`" + after;
    assert QuotedAt(cell, name, before, left, right, after);
  }

  lemma CodeQuoted(cell: string, name: string)
    requires CodeName(cell) == Some(name)
    ensures Quoted(cell, name)
  {
    hide *;
    var value := Strip(cell);
    CodeNameGives(cell, name);
    var before, after := StripParts(cell);
    var left, right := StripParts(value[1..|value| - 1]);
    Quotes(cell, name, before, left, right, after);
  }

  lemma QuotedCode(cell: string, name: string, before: string, left: string, right: string, after: string)
    requires name != "" && Stripped(name) && QuotedAt(cell, name, before, left, right, after)
    ensures CodeName(cell) == Some(name)
  {
    var inner := left + name + right;
    var value := "`" + inner + "`";
    assert cell == before + value + after;
    StripOf(before, value, after);
    assert value[1..|value| - 1] == inner;
    StripOf(left, name, right);
    hide Strip;
    hide AllBlank;
  }

  /** The cell names these operations, one between each two commas. */
  ghost predicate NamesAre(cell: string, names: seq<string>) {
    var parts := Split(cell, ',');
    |parts| == |names| && forall i | 0 <= i < |parts| :: Quoted(parts[i], names[i])
  }

  lemma {:induction false} AllNamesIff(parts: seq<string>, names: seq<string>)
    ensures AllNames(parts) == Some(names) <==> |parts| == |names| && forall i | 0 <= i < |parts| :: Quoted(parts[i], names[i])
  {
    hide CodeName;
    hide Quoted;
    if parts != [] && names != [] {
      CodeNameIff(parts[0], names[0]);
      AllNamesIff(parts[1..], names[1..]);
      assert names == [names[0]] + names[1..] && parts == [parts[0]] + parts[1..];
    }
  }

  // ---------- rows ----------

  /** The row names the entries: its capability with each of its operations. */
  ghost predicate RowNames(cells: seq<string>, es: seq<Entry>) {
    && |cells| >= 2 && |Split(cells[1], ',')| == |es|
    && forall i | 0 <= i < |es| :: Quoted(cells[0], es[i].capability) && Quoted(Split(cells[1], ',')[i], es[i].operation)
  }

  lemma OneName(cell: string, x: string, y: string)
    requires Quoted(cell, x) && Quoted(cell, y)
    ensures x == y
  {
    CodeNameIff(cell, x);
    CodeNameIff(cell, y);
    hide CodeName;
    hide Quoted;
  }

  lemma OperationsOf(es: seq<Entry>) returns (names: seq<string>)
    ensures |names| == |es| && forall i | 0 <= i < |es| :: names[i] == es[i].operation
  {
    names := seq(|es|, i requires 0 <= i < |es| => es[i].operation);
  }

  lemma RowEntriesIff(cells: seq<string>, es: seq<Entry>)
    ensures RowEntries(cells) == Some(es) <==> RowNames(cells, es)
  {
    if RowEntries(cells) == Some(es) {
      var capability, names := CodeName(cells[0]).value, CodeNames(cells[1]).value;
      CodeNameIff(cells[0], capability);
      AllNamesIff(Split(cells[1], ','), names);
    }
    if RowNames(cells, es) {
      var capability := es[0].capability;
      CodeNameIff(cells[0], capability);
      var names := OperationsOf(es);
      AllNamesIff(Split(cells[1], ','), names);
      forall i | 0 <= i < |es| ensures es[i].capability == capability { OneName(cells[0], es[i].capability, capability); }
      assert Named(capability, names) == es;
    }
    hide CodeName;
    hide AllNames;
    hide Quoted;
    hide Split;
    hide Named;
  }

  /** The rows name the entries, row after row. */
  ghost predicate RowsName(rows: seq<seq<string>>, es: seq<Entry>)
    decreases |rows|
  {
    if rows == [] then es == []
    else exists k :: 0 <= k <= |es| && RowNames(rows[0], es[..k]) && RowsName(rows[1..], es[k..])
  }

  lemma {:induction false} EntriesIff(rows: seq<seq<string>>, es: seq<Entry>)
    ensures TableEntries(rows) == Some(es) <==> RowsName(rows, es)
    decreases |rows|
  {
    hide RowEntries;
    hide RowNames;
    if rows != [] {
      if TableEntries(rows) == Some(es) {
        var first, more := RowEntries(rows[0]).value, TableEntries(rows[1..]).value;
        var k := |first|;
        assert es[..k] == first && es[k..] == more;
        RowEntriesIff(rows[0], es[..k]);
        EntriesIff(rows[1..], es[k..]);
      }
      if RowsName(rows, es) {
        var k :| 0 <= k <= |es| && RowNames(rows[0], es[..k]) && RowsName(rows[1..], es[k..]);
        RowEntriesIff(rows[0], es[..k]);
        EntriesIff(rows[1..], es[k..]);
        assert es[..k] + es[k..] == es;
      }
    }
  }

  // ---------- the document ----------

  /** The first header with a rule below it, and the rows up to the first line that is no row. */
  predicate IsTable(rows: seq<seq<string>>, at: nat, end: nat) {
    && at + 2 <= end <= |rows| && Header(rows[at]) && Rule(rows[at + 1], |rows[at]|)
    && (forall i | 0 <= i < at :: !(Header(rows[i]) && Rule(rows[i + 1], |rows[i]|)))
    && (forall k | at + 2 <= k < end :: rows[k] != []) && (end < |rows| ==> rows[end] == [])
  }

  lemma TableRangeIff(rows: seq<seq<string>>, at: nat, end: nat)
    ensures TableRange(rows) == Some((at + 2, end)) <==> IsTable(rows, at, end)
  {
    hide *;
    if IsTable(rows, at, end) {
      TableGives(rows, at, end);
      RangeIs(rows, at, end);
    }
    if TableRange(rows) == Some((at + 2, end)) {
      RangeGives(rows, at, end);
    }
  }

  lemma TableGives(rows: seq<seq<string>>, at: nat, end: nat)
    requires IsTable(rows, at, end)
    ensures at + 2 <= end <= |rows| && Header(rows[at]) && Rule(rows[at + 1], |rows[at]|)
    ensures forall i: nat | i + 1 < at :: !(Header(rows[i]) && Rule(rows[i + 1], |rows[i]|))
    ensures (forall k | at + 2 <= k < end :: rows[k] != []) && (end < |rows| ==> rows[end] == [])
  {
    hide Header;
    hide Rule;
  }

  lemma RangeGives(rows: seq<seq<string>>, at: nat, end: nat)
    requires TableRange(rows) == Some((at + 2, end))
    ensures IsTable(rows, at, end)
  {
    hide TableEnd;
    hide TableAt;
    hide Header;
    hide Rule;
    assert FirstTable(rows, 0) == Some(at);
    TableIs(rows, at);
    forall i | 0 <= i < at ensures !(Header(rows[i]) && Rule(rows[i + 1], |rows[i]|)) {
      TableIs(rows, i);
      assert !TableAt(rows, i);
    }
  }

  /** This is the table, and its rows name the entries. */
  ghost predicate TableNames(rows: seq<seq<string>>, at: nat, end: nat, es: seq<Entry>) {
    IsTable(rows, at, end) && RowsName(rows[at + 2..end], es)
  }

  lemma TableNamesIs(rows: seq<seq<string>>, at: nat, end: nat, es: seq<Entry>)
    ensures TableNames(rows, at, end, es) <==>
      IsTable(rows, at, end) && at + 2 <= end <= |rows| && RowsName(rows[at + 2..end], es)
  {
    hide Header;
    hide Rule;
    hide RowsName;
  }

  /**
   * A document parses to `es` exactly when its first table names `es`, in order, at least one pair and none twice.
   * Anything else is refused.
   */
  lemma ParseIff(document: string, es: seq<Entry>)
    ensures Parse(document) == Success(es) <==>
      var rows := AllCells(Lines(document));
      es != [] && Distinct(es) && exists at: nat, end: nat :: TableNames(rows, at, end, es)
  {
    hide *;
    BareCells(Lines(document));
    var rows := AllCells(Lines(document));
    if Parse(document) == Success(es) {
      var start, end := ParseGives(document, es);
      TableRangeIff(rows, start - 2, end);
      EntriesIff(rows[start..end], es);
      assert rows[start - 2 + 2..end] == rows[start..end];
      TableNamesIs(rows, start - 2, end, es);
    }
    if es != [] && Distinct(es) {
      if at: nat, end: nat :| TableNames(rows, at, end, es) {
        TableNamesIs(rows, at, end, es);
        TableRangeIff(rows, at, end);
        EntriesIff(rows[at + 2..end], es);
        ParseWith(document, at + 2, end, es);
      }
    }
  }

  lemma ParseGives(document: string, es: seq<Entry>) returns (start: nat, end: nat)
    requires Parse(document) == Success(es)
    ensures
      var rows := AllCells(BareAll(Lines(document)));
      TableRange(rows) == Some((start, end)) && 2 <= start <= end <= |rows| && TableEntries(rows[start..end]) == Some(es)
    ensures es != [] && Distinct(es)
  {
    hide TableRange;
    hide TableEntries;
    hide Distinct;
    hide Lines;
    hide AllCells;
    hide BareAll;
    var table := TableRange(AllCells(BareAll(Lines(document)))).value;
    start, end := table.0, table.1;
  }
}
