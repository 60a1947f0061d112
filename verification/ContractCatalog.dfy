/** The table of executable actions in the contract document: reading it, and selecting rows of it. */
module ContractCatalog {
  import opened Wrappers
  import opened PythonText

  datatype Entry = Entry(capability: string, operation: string)

  // ---------- cells and names ----------

  function StripAll(parts: seq<string>): (cells: seq<string>)
    ensures |cells| == |parts| && forall i | 0 <= i < |parts| :: cells[i] == Strip(parts[i])
  {
    if parts == [] then [] else [Strip(parts[0])] + StripAll(parts[1..])
  }

  function CellsOf(line: string): seq<string> {
    var s := Strip(line);
    if s == "" || s[0] != '|' || s[|s| - 1] != '|' then []
    else StripAll(Split(if |s| >= 2 then s[1..|s| - 1] else "", '|'))
  }

  /** The name in a cell of inline code, if it is one. */
  function CodeName(cell: string): Option<string> {
    var value := Strip(cell);
    if |value| < 3 || value[0] != '`' || value[|value| - 1] != '`' then None
    else
      var name := Strip(value[1..|value| - 1]);
      if name == "" then None else Some(name)
  }

  function AllNames(parts: seq<string>): Option<seq<string>> {
    if parts == [] then Some([])
    else
      var first, more := CodeName(parts[0]), AllNames(parts[1..]);
      if first.None? || more.None? then None else Some([first.value] + more.value)
  }

  function CodeNames(cell: string): Option<seq<string>> { AllNames(Split(cell, ',')) }

  // ---------- the table ----------

  function Lower(s: string): string {
    if s == "" then ""
    else [if 'A' <= s[0] <= 'Z' then (s[0] as int + 32) as char else s[0]] + Lower(s[1..])
  }

  predicate IsHeader(cells: seq<string>) {
    |cells| >= 2 && Lower(cells[0]) == "capability" && Lower(cells[1]) == "operation"
  }

  predicate IsSeparator(cells: seq<string>) {
    cells != [] && forall i | 0 <= i < |cells| :: cells[i] != "" && forall c | c in cells[i] :: c == '-' || c == ':'
  }

  predicate TableAt(rows: seq<seq<string>>, i: nat) {
    && i + 1 < |rows| && IsHeader(rows[i])
    && |rows[i + 1]| == |rows[i]| && IsSeparator(rows[i + 1])
  }

  function FirstTable(rows: seq<seq<string>>, i: nat): (r: Option<nat>)
    ensures r.Some? ==> i <= r.value && TableAt(rows, r.value) && forall k: nat | i <= k < r.value :: !TableAt(rows, k)
    ensures r.None? ==> forall k: nat | i <= k :: !TableAt(rows, k)
    decreases |rows| - i
  {
    if i + 1 >= |rows| then None
    else if TableAt(rows, i) then Some(i)
    else FirstTable(rows, i + 1)
  }

  function TableEnd(rows: seq<seq<string>>, end: nat): (r: nat)
    requires end <= |rows|
    ensures end <= r <= |rows| && (r < |rows| ==> rows[r] == []) && forall k | end <= k < r :: rows[k] != []
    decreases |rows| - end
  {
    if end == |rows| || rows[end] == [] then end else TableEnd(rows, end + 1)
  }

  function TableRange(rows: seq<seq<string>>): (r: Option<(nat, nat)>)
    ensures r.Some? ==> 2 <= r.value.0 <= r.value.1 <= |rows|
  {
    var header := FirstTable(rows, 0);
    if header.None? then None else Some((header.value + 2, TableEnd(rows, header.value + 2)))
  }

  // ---------- parsing ----------

  function Named(capability: string, names: seq<string>): (es: seq<Entry>)
    ensures |es| == |names| && forall i | 0 <= i < |names| :: es[i] == Entry(capability, names[i])
  {
    if names == [] then [] else [Entry(capability, names[0])] + Named(capability, names[1..])
  }

  function RowEntries(cells: seq<string>): Option<seq<Entry>> {
    if |cells| < 2 then None
    else
      var capability, names := CodeName(cells[0]), CodeNames(cells[1]);
      if capability.None? || names.None? then None else Some(Named(capability.value, names.value))
  }

  function TableEntries(rows: seq<seq<string>>): Option<seq<Entry>> {
    if rows == [] then Some([])
    else
      var first, more := RowEntries(rows[0]), TableEntries(rows[1..]);
      if first.None? || more.None? then None else Some(first.value + more.value)
  }

  predicate Distinct(es: seq<Entry>) { forall i, j | 0 <= i < j < |es| :: es[i] != es[j] }

  function AllCells(lines: seq<string>): (rows: seq<seq<string>>)
    ensures |rows| == |lines| && forall i | 0 <= i < |lines| :: rows[i] == CellsOf(lines[i])
  {
    if lines == [] then [] else [CellsOf(lines[0])] + AllCells(lines[1..])
  }

  function BareAll(lines: seq<string>): (bare: seq<string>)
    ensures |bare| == |lines| && forall i | 0 <= i < |lines| :: bare[i] == Bare(lines[i])
  {
    if lines == [] then [] else [Bare(lines[0])] + BareAll(lines[1..])
  }

  function ParseRows(rows: seq<seq<string>>): Result<seq<Entry>> {
    var table := TableRange(rows);
    if table.None? then Failure
    else
      var es := TableEntries(rows[table.value.0..table.value.1]);
      if es.None? || !Distinct(es.value) || es.value == [] then Failure else Success(es.value)
  }

  /** Executable pairs in document order; a malformed row, a repeated pair or an empty table is refused. */
  function Parse(document: string): Result<seq<Entry>> {
    ParseRows(AllCells(BareAll(Lines(document))))
  }

  lemma EntriesStep(rows: seq<seq<string>>, i: nat)
    requires i < |rows|
    ensures
      var first, more := RowEntries(rows[i]), TableEntries(rows[i + 1..]);
      TableEntries(rows[i..]) == if first.None? || more.None? then None else Some(first.value + more.value)
  {
    hide RowEntries;
    assert rows[i..][0] == rows[i] && rows[i..][1..] == rows[i + 1..];
  }

  /** Distinct entries stay distinct while new ones are added. */
  method AddEntries(entries: seq<Entry>, more: seq<Entry>) returns (ok: bool, now: seq<Entry>)
    requires Distinct(entries)
    ensures ok <==> Distinct(entries + more)
    ensures ok ==> now == entries + more
  {
    now := entries;
    for j := 0 to |more|
      invariant now == entries + more[..j] && Distinct(now)
    {
      if more[j] in now {
        assert entries + more == now + [more[j]] + more[j + 1..];
        Repeated(now, more[j], more[j + 1..]);
        return false, now;
      }
      now := now + [more[j]];
    }
    assert more[..|more|] == more;
    ok := true;
  }

  lemma Repeated(entries: seq<Entry>, e: Entry, more: seq<Entry>)
    requires e in entries
    ensures !Distinct(entries + [e] + more)
  {
    var i :| 0 <= i < |entries| && entries[i] == e;
    var all := entries + [e] + more;
    assert all[i] == e && all[|entries|] == e;
  }

  lemma DistinctFront(entries: seq<Entry>, more: seq<Entry>)
    requires Distinct(entries + more)
    ensures Distinct(entries)
  {
    assert forall i | 0 <= i < |entries| :: (entries + more)[i] == entries[i];
  }

  method EntriesOf(body: seq<seq<string>>) returns (result: Result<seq<Entry>>)
    ensures
      var es := TableEntries(body);
      result == if es.None? || !Distinct(es.value) then Failure else Success(es.value)
  {
    var entries: seq<Entry> := [];
    hide RowEntries;
    assert body[0..] == body;
    for i := 0 to |body|
      invariant Distinct(entries)
      invariant TableEntries(body).Some? <==> TableEntries(body[i..]).Some?
      invariant TableEntries(body).Some? ==> TableEntries(body).value == entries + TableEntries(body[i..]).value
    {
      EntriesStep(body, i);
      hide TableEntries;
      hide Distinct;
      var row := RowEntries(body[i]);
      if row.None? {
        return Failure;
      }
      var ok, now := AddEntries(entries, row.value);
      if TableEntries(body[i + 1..]).Some? {
        var rest := TableEntries(body[i + 1..]).value;
        assert entries + (row.value + rest) == entries + row.value + rest;
        if Distinct(entries + row.value + rest) { DistinctFront(entries + row.value, rest); }
      }
      if !ok {
        return Failure;
      }
      entries := now;
    }
    assert body[|body|..] == [] && entries + [] == entries;
    result := Success(entries);
  }

  method ParseActionContracts(document: string) returns (result: Result<seq<Entry>>)
    ensures result == Parse(document)
  {
    hide TableEntries;
    hide TableRange;
    hide Lines;
    hide Distinct;
    var rows := AllCells(BareAll(Lines(document)));
    var table := TableRange(rows);
    if table.None? {
      return Failure;
    }
    var entries := EntriesOf(rows[table.value.0..table.value.1]);
    result := if entries.Failure? || entries.value == [] then Failure else entries;
  }

  // ---------- selecting ----------

  function Padded(cells: seq<string>): (padded: seq<string>)
    ensures |padded| == |cells| && forall i | 0 <= i < |cells| :: padded[i] == " " + cells[i] + " "
  {
    if cells == [] then [] else [" " + cells[0] + " "] + Padded(cells[1..])
  }

  function Rendered(cells: seq<string>): string
    requires cells != []
  {
    "|" + Join(Padded(cells), '|') + "|"
  }

  /** A row with its operations narrowed to one; it keeps a line feed and no other line break. */
  function Narrowed(line: string, operation: string): string
    requires |CellsOf(line)| >= 2
  {
    Rendered(CellsOf(line)[1 := "`" + operation + "`"]) + if EndsFeed(line) then "\n" else ""
  }

  /** The lines a row contributes to a selection: itself, itself narrowed to one operation, or nothing. */
  function SelectedRow(line: string, capability: string, operation: Option<string>): Option<seq<string>> {
    var cells := CellsOf(line);
    if cells == [] || CodeName(cells[0]).None? then None
    else if CodeName(cells[0]) != Some(capability) then Some([])
    else if operation.None? then Some([line])
    else if |cells| < 2 || CodeNames(cells[1]).None? then None
    else if operation.value !in CodeNames(cells[1]).value then Some([])
    else
      Some([Narrowed(line, operation.value)])
  }

  function SelectedRows(lines: seq<string>, capability: string, operation: Option<string>): Option<seq<string>> {
    if lines == [] then Some([])
    else
      var first, more := SelectedRow(lines[0], capability, operation), SelectedRows(lines[1..], capability, operation);
      if first.None? || more.None? then None else Some(first.value + more.value)
  }

  /** All lines outside the table, with the selected rows in its place. */
  function SelectedLines(lines: seq<string>, capability: string, operation: Option<string>): Result<seq<string>> {
    var table := TableRange(AllCells(lines));
    if table.None? then Failure
    else
      var (start, end) := table.value;
      var rows := SelectedRows(lines[start..end], capability, operation);
      if rows.None? then Failure else Success(lines[..start] + rows.value + lines[end..])
  }

  lemma SelectedStep(lines: seq<string>, i: nat, capability: string, operation: Option<string>)
    requires i < |lines|
    ensures
      var first, more := SelectedRow(lines[i], capability, operation), SelectedRows(lines[i + 1..], capability, operation);
      SelectedRows(lines[i..], capability, operation)
      == if first.None? || more.None? then None else Some(first.value + more.value)
  {
    hide SelectedRow;
    assert lines[i..][0] == lines[i] && lines[i..][1..] == lines[i + 1..];
  }

  method SelectLines(body: seq<string>, capability: string, operation: Option<string>) returns (selected: Option<seq<string>>)
    ensures selected == SelectedRows(body, capability, operation)
  {
    var kept: seq<string> := [];
    hide SelectedRow;
    assert body[0..] == body;
    for i := 0 to |body|
      invariant SelectedRows(body, capability, operation).Some? <==> SelectedRows(body[i..], capability, operation).Some?
      invariant SelectedRows(body, capability, operation).Some? ==>
        SelectedRows(body, capability, operation).value == kept + SelectedRows(body[i..], capability, operation).value
    {
      SelectedStep(body, i, capability, operation);
      hide SelectedRows;
      var row := SelectedRow(body[i], capability, operation);
      if row.None? {
        return None;
      }
      if SelectedRows(body[i + 1..], capability, operation).Some? {
        var rest := SelectedRows(body[i + 1..], capability, operation).value;
        assert kept + (row.value + rest) == kept + row.value + rest;
      }
      kept := kept + row.value;
    }
    assert body[|body|..] == [] && kept + [] == kept;
    selected := Some(kept);
  }

  method SelectedContractDocument(document: string, capability: string, operation: Option<string>)
    returns (result: Result<string>)
    ensures
      var lines := SelectedLines(Lines(document), capability, operation);
      result == if lines.Failure? then Failure else Success(Text(lines.value))
  {
    hide SelectedRows;
    hide TableRange;
    hide Lines;
    var lines := Lines(document);
    var table := TableRange(AllCells(lines));
    if table.None? {
      return Failure;
    }
    var (start, end) := table.value;
    var selected := SelectLines(lines[start..end], capability, operation);
    if selected.None? {
      return Failure;
    }
    result := Success(Text(lines[..start] + selected.value + lines[end..]));
  }
}
