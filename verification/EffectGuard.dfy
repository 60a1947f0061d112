/** Provider receipts in the answers a turn's executed calls came back with. */
module EffectGuard {
  import opened Wrappers
  import opened JsonText
  import opened PythonText
  import opened Decimals

  const RECEIPT_FIELDS := {"openMessageId", "open_message_id", "openTaskId", "open_task_id"}
  const ENVELOPES := {"result", "data", "provider_result"}
  const MAX_ANSWER_DEPTH := 8

  // ---------- values ----------

  function Field(fields: seq<(string, Json)>, key: string): Option<Json> {
    if fields == [] then None
    else if fields[0].0 == key then Some(fields[0].1)
    else Field(fields[1..], key)
  }

  /** What a dictionary holds under a key; nothing for any other value. */
  function Get(v: Json, key: string): Option<Json> {
    if v.Obj? then Field(v.fields, key) else None
  }

  predicate Failed(v: Json) {
    Get(v, "success") == Some(Bool(false)) || Get(v, "ok") == Some(Bool(false))
  }

  predicate IsReceipt(key: string, v: Json) {
    key in RECEIPT_FIELDS && v.Str? && Strip(v.text) != ""
  }

  // ---------- collecting ----------

  function FieldReceipts(fields: seq<(string, Json)>): seq<string> {
    if fields == [] then []
    else
      (if IsReceipt(fields[0].0, fields[0].1) then [Strip(fields[0].1.text)] else [])
      + FieldReceipts(fields[1..])
  }

  function Child(v: Json, key: string): Json {
    if Get(v, key).Some? then Get(v, key).value else Null
  }

  function ReceiptsIn(v: Json, depth: nat): seq<string>
    decreases MAX_ANSWER_DEPTH + 1 - depth
  {
    if depth > MAX_ANSWER_DEPTH || !v.Obj? || Failed(v) then []
    else
      var result := Child(v, "result");
      (if result.Obj? && !Failed(result) then FieldReceipts(result.fields) else [])
      + ReceiptsIn(result, depth + 1)
      + ReceiptsIn(Child(v, "data"), depth + 1)
      + ReceiptsIn(Child(v, "provider_result"), depth + 1)
  }

  method CollectFields(fields: seq<(string, Json)>, found: seq<string>) returns (now: seq<string>)
    ensures now == found + FieldReceipts(fields)
  {
    hide IsReceipt;
    hide Strip;
    now := found;
    for i := 0 to |fields|
      invariant now + FieldReceipts(fields[i..]) == found + FieldReceipts(fields)
    {
      var (key, value) := fields[i];
      assert fields[i..][1..] == fields[i + 1..];
      if IsReceipt(key, value) {
        ReceiptIsText(key, value);
        now := now + [Strip(value.text)];
      }
    }
  }

  lemma ReceiptIsText(key: string, v: Json)
    requires IsReceipt(key, v)
    ensures v.Str?
  {
  }

  lemma ReceiptsInIs(v: Json, depth: nat)
    ensures
      if depth > MAX_ANSWER_DEPTH || !v.Obj? || Failed(v) then ReceiptsIn(v, depth) == []
      else
        var result := Child(v, "result");
        ReceiptsIn(v, depth) ==
          (if result.Obj? && !Failed(result) then FieldReceipts(result.fields) else [])
          + ReceiptsIn(result, depth + 1) + ReceiptsIn(Child(v, "data"), depth + 1)
          + ReceiptsIn(Child(v, "provider_result"), depth + 1)
  {
    hide Failed;
    hide FieldReceipts;
    hide Child;
  }

  method CollectReceipts(v: Json, found: seq<string>, depth: nat) returns (now: seq<string>)
    ensures now == found + ReceiptsIn(v, depth)
    decreases MAX_ANSWER_DEPTH + 1 - depth
  {
    ReceiptsInIs(v, depth);
    hide ReceiptsIn;
    hide Failed;
    hide FieldReceipts;
    hide Child;
    now := found;
    if depth > MAX_ANSWER_DEPTH || !v.Obj? || Failed(v) {
      return;
    }
    var result := Child(v, "result");
    if result.Obj? && !Failed(result) {
      now := CollectFields(result.fields, now);
    }
    now := CollectReceipts(result, now, depth + 1);
    now := CollectReceipts(Child(v, "data"), now, depth + 1);
    now := CollectReceipts(Child(v, "provider_result"), now, depth + 1);
  }

  // ---------- the path specification ----------

  /** The dictionary at the end of a path of envelope keys, when no dictionary on the way is marked failed. */
  predicate Reaches(v: Json, path: seq<string>, end: Json)
    decreases |path|
  {
    && v.Obj? && !Failed(v)
    && if path == [] then end == v
       else path[0] in ENVELOPES && Reaches(Child(v, path[0]), path[1..], end)
  }

  predicate Holds(end: Json, receipt: string) {
    end.Obj? && exists i :: 0 <= i < |end.fields| && IsReceipt(end.fields[i].0, end.fields[i].1)
                            && receipt == Strip(end.fields[i].1.text)
  }

  /** A path of at most `limit` keys, the last one `result`, leads to a dictionary with the receipt. */
  ghost predicate Reachable(v: Json, limit: int, receipt: string) {
    exists path, end :: 0 < |path| <= limit && path[|path| - 1] == "result" && Reaches(v, path, end) && Holds(end, receipt)
  }

  lemma {:induction false} FieldReceiptsIff(fields: seq<(string, Json)>, receipt: string)
    ensures receipt in FieldReceipts(fields) <==> Holds(Obj(fields), receipt)
  {
    if fields != [] {
      FieldReceiptsIff(fields[1..], receipt);
      if Holds(Obj(fields[1..]), receipt) {
        var i :| 0 <= i < |fields| - 1 && IsReceipt(fields[1..][i].0, fields[1..][i].1) && receipt == Strip(fields[1..][i].1.text);
        assert fields[1..][i] == fields[i + 1];
      }
      if Holds(Obj(fields), receipt) {
        var i :| 0 <= i < |fields| && IsReceipt(fields[i].0, fields[i].1) && receipt == Strip(fields[i].1.text);
        if i > 0 { assert fields[1..][i - 1] == fields[i]; }
      }
    }
  }

  lemma ReachableStep(v: Json, limit: int, receipt: string, key: string)
    requires v.Obj? && !Failed(v) && (key == "result" || key == "data" || key == "provider_result")
    requires Reachable(Child(v, key), limit, receipt)
    ensures Reachable(v, limit + 1, receipt)
  {
    var path, end :| 0 < |path| <= limit && path[|path| - 1] == "result" && Reaches(Child(v, key), path, end) && Holds(end, receipt);
    assert ([key] + path)[1..] == path;
    assert Reaches(v, [key] + path, end);
  }

  lemma ReachableHere(v: Json, limit: int, receipt: string)
    requires v.Obj? && !Failed(v) && limit >= 1
    requires Child(v, "result").Obj? && !Failed(Child(v, "result")) && Holds(Child(v, "result"), receipt)
    ensures Reachable(v, limit, receipt)
  {
    var path := ["result"];
    assert path[1..] == [];
    assert Reaches(v, path, Child(v, "result"));
  }

  /** The first key of a path either ends it or leads on. */
  lemma ReachableSplit(v: Json, limit: int, receipt: string)
    requires Reachable(v, limit, receipt)
    ensures v.Obj? && !Failed(v) && limit >= 1
    ensures
      || (Child(v, "result").Obj? && !Failed(Child(v, "result")) && Holds(Child(v, "result"), receipt))
      || Reachable(Child(v, "result"), limit - 1, receipt)
      || Reachable(Child(v, "data"), limit - 1, receipt)
      || Reachable(Child(v, "provider_result"), limit - 1, receipt)
  {
    var path, end :| 0 < |path| <= limit && path[|path| - 1] == "result" && Reaches(v, path, end) && Holds(end, receipt);
    hide Holds;
    hide Child;
    if |path| == 1 {
      assert path[0] == "result" && path[1..] == [];
      assert Reaches(Child(v, "result"), [], end);
    } else {
      assert path[1..][|path| - 2] == "result";
      assert Reaches(Child(v, path[0]), path[1..], end);
      assert Reachable(Child(v, path[0]), limit - 1, receipt);
    }
  }

  lemma ReceiptsOfOne(v: Json, depth: nat, receipt: string)
    requires depth <= MAX_ANSWER_DEPTH && v.Obj? && !Failed(v)
    ensures
      var result := Child(v, "result");
      receipt in ReceiptsIn(v, depth) <==>
        (result.Obj? && !Failed(result) && Holds(result, receipt))
        || receipt in ReceiptsIn(result, depth + 1) || receipt in ReceiptsIn(Child(v, "data"), depth + 1)
        || receipt in ReceiptsIn(Child(v, "provider_result"), depth + 1)
  {
    var result := Child(v, "result");
    if result.Obj? { FieldReceiptsIff(result.fields, receipt); }
    ReceiptsInIs(v, depth);
    hide ReceiptsIn;
    hide Failed;
    hide Holds;
    hide FieldReceipts;
    hide Child;
  }

  /** A receipt is collected exactly when such a path of the remaining length leads to it. */
  lemma {:induction false} ReceiptsIff(v: Json, depth: nat, receipt: string)
    ensures receipt in ReceiptsIn(v, depth) <==> Reachable(v, MAX_ANSWER_DEPTH + 1 - depth, receipt)
    decreases MAX_ANSWER_DEPTH + 1 - depth
  {
    hide *;
    var limit := MAX_ANSWER_DEPTH + 1 - depth;
    if Reachable(v, limit, receipt) { ReachableSplit(v, limit, receipt); }
    if depth > MAX_ANSWER_DEPTH || !v.Obj? || Failed(v) {
      ReceiptsInIs(v, depth);
    } else {
      var result := Child(v, "result");
      ReceiptsOfOne(v, depth, receipt);
      ReceiptsIff(result, depth + 1, receipt);
      ReceiptsIff(Child(v, "data"), depth + 1, receipt);
      ReceiptsIff(Child(v, "provider_result"), depth + 1, receipt);
      if result.Obj? && !Failed(result) && Holds(result, receipt) { ReachableHere(v, limit, receipt); }
      if Reachable(result, limit - 1, receipt) { ReachableStep(v, limit - 1, receipt, "result"); }
      if Reachable(Child(v, "data"), limit - 1, receipt) { ReachableStep(v, limit - 1, receipt, "data"); }
      if Reachable(Child(v, "provider_result"), limit - 1, receipt) { ReachableStep(v, limit - 1, receipt, "provider_result"); }
    }
  }

  // ---------- objects inside a text ----------

  datatype Span = Span(start: nat, end: nat, value: Json)

  function FindBrace(text: string, index: nat): (i: nat)
    requires index <= |text|
    ensures index <= i <= |text| && (i < |text| ==> text[i] == '{') && forall k | index <= k < i :: text[k] != '{'
    decreases |text| - index
  {
    if index == |text| || text[index] == '{' then index else FindBrace(text, index + 1)
  }

  /** Greedy decoding from `index` on: at each brace a value or, where there is none, the next brace. */
  function Spans(text: string, index: nat): (spans: seq<Span>)
    requires index <= |text|
    decreases |text| - index
  {
    var start := FindBrace(text, index);
    if start == |text| then []
    else
      var read := ReadValue(text[start..]);
      if read.None? then Spans(text, start + 1)
      else
        var end := |text| - |read.value.1|;
        [Span(start, end, read.value.0)] + Spans(text, end)
  }

  function Values(spans: seq<Span>): seq<Json> {
    if spans == [] then [] else [spans[0].value] + Values(spans[1..])
  }

  lemma ValuesOf(first: Span, rest: seq<Span>)
    ensures Values([first] + rest) == [first.value] + Values(rest)
  {
    assert ([first] + rest)[1..] == rest;
  }

  method LoadAll(text: string) returns (collected: seq<Json>)
    ensures collected == Values(Spans(text, 0))
  {
    var index := 0;
    collected := [];
    hide ReadValue;
    hide FindBrace;
    while index < |text|
      invariant index <= |text| && collected + Values(Spans(text, index)) == Values(Spans(text, 0))
      decreases |text| - index
    {
      var start := FindBrace(text, index);
      if start == |text| {
        break;
      }
      var read := ReadValue(text[start..]);
      if read.None? {
        index := start + 1;
      } else {
        ghost var spans := Spans(text, index);
        index := |text| - |read.value.1|;
        ValuesOf(Span(start, index, read.value.0), Spans(text, index));
        collected := collected + [read.value.0];
      }
    }
  }

  /** Each span starts at a brace and holds the value that is read there. */
  ghost predicate SpanRight(text: string, span: Span) {
    && span.start < span.end <= |text| && text[span.start] == '{'
    && ReadValue(text[span.start..]).Some? && ReadValue(text[span.start..]).value.0 == span.value
    && |ReadValue(text[span.start..]).value.1| == |text| - span.end
  }

  predicate Inside(spans: seq<Span>, p: nat) { exists i :: 0 <= i < |spans| && spans[i].start <= p < spans[i].end }

  lemma InsideMore(first: Span, spans: seq<Span>, p: nat)
    ensures Inside([first] + spans, p) <==> first.start <= p < first.end || Inside(spans, p)
  {
    var all := [first] + spans;
    assert all[0] == first;
    if Inside(spans, p) {
      var i :| 0 <= i < |spans| && spans[i].start <= p < spans[i].end;
      assert all[i + 1] == spans[i];
    }
  }

  lemma NextSpan(text: string, index: nat)
    requires index <= |text|
    ensures
      var start := FindBrace(text, index);
      if start == |text| then Spans(text, index) == []
      else
        var read := ReadValue(text[start..]);
        if read.None? then Spans(text, index) == Spans(text, start + 1)
        else
          var first := Span(start, |text| - |read.value.1|, read.value.0);
          SpanRight(text, first) && Spans(text, index) == [first] + Spans(text, first.end)
  {
    hide ReadValue;
    hide FindBrace;
  }

  /** Spans are disjoint and left to right, and a brace outside all of them starts no value. */
  ghost predicate SpansRight(text: string, index: nat, spans: seq<Span>) {
    && (forall i | 0 <= i < |spans| :: SpanRight(text, spans[i]) && index <= spans[i].start)
    && (forall i, j | 0 <= i < j < |spans| :: spans[i].end <= spans[j].start)
    && (forall p: nat | index <= p < |text| && text[p] == '{' && !Inside(spans, p) :: ReadValue(text[p..]).None?)
  }

  lemma SpansOrdered(text: string, index: nat, first: Span, rest: seq<Span>)
    requires SpanRight(text, first) && first.start < first.end && index <= first.start
    requires forall i | 0 <= i < |rest| :: SpanRight(text, rest[i]) && first.end <= rest[i].start
    requires forall i, j | 0 <= i < j < |rest| :: rest[i].end <= rest[j].start
    ensures
      var all := [first] + rest;
      && (forall i | 0 <= i < |all| :: SpanRight(text, all[i]) && index <= all[i].start)
      && (forall i, j | 0 <= i < j < |all| :: all[i].end <= all[j].start)
  {
    hide SpanRight;
    var all := [first] + rest;
    assert forall i | 1 <= i < |all| :: all[i] == rest[i - 1];
  }

  lemma NothingOutside(text: string, index: nat, first: Span, rest: seq<Span>)
    requires index <= first.start < first.end <= |text| && forall k | index <= k < first.start :: text[k] != '{'
    requires forall p: nat | first.end <= p < |text| && text[p] == '{' && !Inside(rest, p) :: ReadValue(text[p..]).None?
    ensures forall p: nat | index <= p < |text| && text[p] == '{' && !Inside([first] + rest, p) :: ReadValue(text[p..]).None?
  {
    hide ReadValue;
    forall p: nat | index <= p < |text| && text[p] == '{' && !Inside([first] + rest, p)
      ensures ReadValue(text[p..]).None?
    {
      InsideMore(first, rest, p);
      hide Inside;
    }
  }

  lemma SpanAdded(text: string, index: nat, first: Span, rest: seq<Span>)
    requires SpanRight(text, first) && SpansRight(text, first.end, rest)
    requires index <= first.start && forall k | index <= k < first.start :: text[k] != '{'
    ensures SpansRight(text, index, [first] + rest)
  {
    assert first.start < first.end <= |text|;
    hide ReadValue;
    hide SpanRight;
    hide Inside;
    SpansOrdered(text, index, first, rest);
    NothingOutside(text, index, first, rest);
  }

  lemma SpansLater(text: string, index: nat, later: nat, spans: seq<Span>)
    requires SpansRight(text, later, spans) && index < later <= |text| && ReadValue(text[later - 1..]).None?
    requires forall k | index <= k < later - 1 :: text[k] != '{'
    ensures SpansRight(text, index, spans)
  {
    hide ReadValue;
    hide SpanRight;
    hide Inside;
  }

  lemma NoSpans(text: string, index: nat)
    requires index <= |text| && forall k | index <= k < |text| :: text[k] != '{'
    ensures SpansRight(text, index, [])
  {
  }

  lemma {:induction false} SpansExact(text: string, index: nat)
    requires index <= |text|
    ensures SpansRight(text, index, Spans(text, index))
    decreases |text| - index
  {
    hide *;
    var start := FindBrace(text, index);
    NextSpan(text, index);
    if start == |text| {
      NoSpans(text, index);
    } else {
      var read := ReadValue(text[start..]);
      if read.None? {
        SpansExact(text, start + 1);
        SpansLater(text, index, start + 1, Spans(text, start + 1));
      } else {
        var first := Span(start, |text| - |read.value.1|, read.value.0);
        SpansExact(text, first.end);
        SpanAdded(text, index, first, Spans(text, first.end));
      }
    }
  }

  // ---------- printed objects between other text ----------

  /** `separators[0] object[0] separators[1] object[1] ...`, with text after the last one. */
  function Woven(objects: seq<Json>, separators: seq<string>, last: string): string
    requires |separators| == |objects| && forall i | 0 <= i < |objects| :: Printable(objects[i])
  {
    if objects == [] then last
    else separators[0] + Print(objects[0]) + Woven(objects[1..], separators[1..], last)
  }

  lemma {:induction false} NoBrace(text: string, index: nat)
    requires index <= |text| && forall k | index <= k < |text| :: text[k] != '{'
    ensures Spans(text, index) == []
  {
    assert FindBrace(text, index) == |text|;
  }

  lemma {:induction false} BraceAt(text: string, index: nat, start: nat)
    requires index <= start < |text| && text[start] == '{' && forall k | index <= k < start :: text[k] != '{'
    ensures FindBrace(text, index) == start
  {
  }

  lemma FirstBrace(text: string, index: nat, separator: string, value: Json, rest: string)
    requires value.Obj? && Printable(value) && forall k | 0 <= k < |separator| :: separator[k] != '{'
    requires index <= |text| && text[index..] == separator + Print(value) + rest
    ensures FindBrace(text, index) == index + |separator| && index + |separator| < |text|
    ensures text[index + |separator|..] == Print(value) + rest
  {
    FrontOf(value);
    hide Print;
    var start := index + |separator|;
    assert text[index..][|separator|..] == Print(value) + rest;
    assert text[start..] == Print(value) + rest;
    assert text[start] == (Print(value) + rest)[0] == '{';
    forall k | index <= k < start ensures text[k] != '{' {
      assert text[k] == text[index..][k - index] == separator[k - index];
    }
    BraceAt(text, index, start);
  }

  predicate BraceFree(text: string) { forall k | 0 <= k < |text| :: text[k] != '{' }

  /** Objects printed between separators without an opening brace come back, all of them and in order. */
  lemma {:induction false} WovenBack(text: string, index: nat, objects: seq<Json>, separators: seq<string>, last: string)
    requires |separators| == |objects| && forall i | 0 <= i < |objects| :: Printable(objects[i]) && objects[i].Obj?
    requires (forall i | 0 <= i < |separators| :: BraceFree(separators[i])) && BraceFree(last)
    requires index <= |text| && text[index..] == Woven(objects, separators, last)
    ensures Values(Spans(text, index)) == objects
    decreases |objects|
  {
    hide ReadValue;
    hide Print;
    hide Printable;
    hide Spans;
    hide FindBrace;
    if objects == [] {
      assert forall k | index <= k < |text| :: text[k] == text[index..][k - index];
      NoBrace(text, index);
    } else {
      var rest := Woven(objects[1..], separators[1..], last);
      FirstBrace(text, index, separators[0], objects[0], rest);
      hide Woven;
      hide BraceFree;
      var start := index + |separators[0]|;
      var end := |text| - |rest|;
      ValueBack(objects[0], rest);
      FrontOf(objects[0]);
      NextSpan(text, index);
      hide SpanRight;
      assert text[end..] == rest by { assert text[start..][end - start..] == rest; }
      WovenBack(text, end, objects[1..], separators[1..], last);
      ValuesOf(Span(start, end, objects[0]), Spans(text, end));
      hide Values;
      assert [objects[0]] + objects[1..] == objects;
    }
  }

  // ---------- the answers of a turn ----------

  /** Equal to the integer zero. */
  predicate IsZero(v: Json) {
    v == Int(0) || v == Bool(false) || (v.Decimal? && DecimalZero(v.spelling))
  }

  predicate Truthy(v: Json) {
    !v.Null? && !IsZero(v) && v != Str("") && v != Arr([]) && v != Obj([])
  }

  predicate TruthyField(v: Json, key: string) { Get(v, key).Some? && Truthy(Get(v, key).value) }

  predicate IsTextEntry(v: Json) { Get(v, "type") == Some(Str("text")) && Get(v, "text").Some? && Get(v, "text").value.Str? }

  function TextEntries(items: seq<Json>): seq<Json> {
    if items == [] then []
    else (if IsTextEntry(items[0]) then [Get(items[0], "text").value] else []) + TextEntries(items[1..])
  }

  function ToolAnswers(item: Json): seq<Json> {
    var result := Child(item, "result");
    if TruthyField(item, "error") then []
    else if !result.Obj? then (if Truthy(result) then [result] else [])
    else
      (if Child(result, "content").Arr? then TextEntries(Child(result, "content").items) else [])
      + (if Child(result, "structuredContent").Obj? then [Child(result, "structuredContent")] else [])
      + (if Get(result, "content").None? then [result] else [])
  }

  function ProviderAnswers(event: Json): seq<Json> {
    var item := Child(event, "item");
    if !item.Obj? then []
    else if Get(item, "type") == Some(Str("command_execution")) then
      var output := if TruthyField(item, "output") then Child(item, "output") else Child(item, "aggregated_output");
      if IsZero(Child(item, "exit_code")) && Truthy(output) then [output] else []
    else if Get(item, "type") == Some(Str("mcp_tool_call")) then ToolAnswers(item)
    else []
  }

  /** What iterating over the recorded receipt IDs yields; a value that cannot be iterated raises. */
  function RecordedIds(item: Json): Result<seq<Json>> {
    match Get(item, "provider_receipt_ids")
    case None => Success([])
    case Some(Arr(items)) => Success(items)
    case Some(Str(text)) => Success(seq(|text|, i requires 0 <= i < |text| => Str([text[i]])))
    case Some(Obj(fields)) => Success(seq(|fields|, i requires 0 <= i < |fields| => Str(fields[i].0)))
    case Some(_) => Failure
  }

  /** Recorded IDs are taken as they are; only blank ones are passed over. */
  function RecordedReceipts(ids: seq<Json>): seq<string> {
    if ids == [] then []
    else (if ids[0].Str? && Strip(ids[0].text) != "" then [ids[0].text] else []) + RecordedReceipts(ids[1..])
  }

  function AllReceipts(values: seq<Json>): seq<string> {
    if values == [] then [] else ReceiptsIn(values[0], 0) + AllReceipts(values[1..])
  }

  function AnswerReceipts(answer: Json): seq<string> {
    if answer.Str? then AllReceipts(Values(Spans(answer.text, 0))) else ReceiptsIn(answer, 0)
  }

  function AnswersReceipts(answers: seq<Json>): seq<string> {
    if answers == [] then [] else AnswerReceipts(answers[0]) + AnswersReceipts(answers[1..])
  }

  function EventReceipts(event: Json): Result<seq<string>> {
    var item := Child(event, "item");
    var ids := if item.Obj? then RecordedIds(item) else Success([]);
    if ids.Failure? then Failure else Success(RecordedReceipts(ids.value) + AnswersReceipts(ProviderAnswers(event)))
  }

  function FoundReceipts(events: seq<Json>): Result<seq<string>> {
    if events == [] then Success([])
    else
      var first, more := EventReceipts(events[0]), FoundReceipts(events[1..]);
      if first.Failure? || more.Failure? then Failure else Success(first.value + more.value)
  }

  /** `ordered` are the distinct elements of `found`, each where it was first seen. */
  ghost predicate FirstSeen(found: seq<string>, ordered: seq<string>) {
    && (forall r :: r in ordered <==> r in found)
    && Once(ordered)
    && forall i, j | 0 <= i < j < |ordered| :: Before(found, ordered[i], ordered[j])
  }

  /** Somewhere `a` occurs before every occurrence of `b`. */
  ghost predicate Before(found: seq<string>, a: string, b: string) {
    exists n :: 0 <= n < |found| && found[n] == a && b !in found[..n]
  }

  lemma BeforeMore(found: seq<string>, more: string, a: string, b: string)
    requires Before(found, a, b)
    ensures Before(found + [more], a, b)
  {
    var n :| 0 <= n < |found| && found[n] == a && b !in found[..n];
    assert (found + [more])[..n] == found[..n] && (found + [more])[n] == a;
  }

  lemma BeforeNew(found: seq<string>, a: string, b: string)
    requires a in found && b !in found
    ensures Before(found + [b], a, b)
  {
    var n :| 0 <= n < |found| && found[n] == a;
    assert (found + [b])[..n] == found[..n] && (found + [b])[n] == a;
    assert forall k | 0 <= k < n :: found[..n][k] in found;
  }

  lemma SeenMore(found: seq<string>, ordered: seq<string>, r: string)
    requires FirstSeen(found, ordered)
    ensures FirstSeen(found + [r], if r in ordered then ordered else ordered + [r])
  {
    var now := if r in ordered then ordered else ordered + [r];
    forall i, j | 0 <= i < j < |now| ensures Before(found + [r], now[i], now[j]) {
      if j < |ordered| {
        BeforeMore(found, r, now[i], now[j]);
      } else {
        assert ordered[i] in ordered;
        BeforeNew(found, now[i], r);
      }
    }
    hide Before;
  }

  method Distinct(found: seq<string>) returns (ordered: seq<string>)
    ensures FirstSeen(found, ordered)
  {
    ordered := [];
    hide Before;
    for i := 0 to |found|
      invariant FirstSeen(found[..i], ordered)
    {
      SeenMore(found[..i], ordered, found[i]);
      assert found[..i + 1] == found[..i] + [found[i]];
      if found[i] !in ordered {
        ordered := ordered + [found[i]];
      }
    }
    assert found[..|found|] == found;
  }

  method CollectAnswer(answer: Json, found: seq<string>) returns (now: seq<string>)
    ensures now == found + AnswerReceipts(answer)
  {
    hide ReceiptsIn;
    hide Spans;
    hide Values;
    if !answer.Str? {
      now := CollectReceipts(answer, found, 0);
      return;
    }
    now := found;
    var responses := LoadAll(answer.text);
    for i := 0 to |responses|
      invariant now + AllReceipts(responses[i..]) == found + AllReceipts(responses)
    {
      assert responses[i..][1..] == responses[i + 1..];
      now := CollectReceipts(responses[i], now, 0);
    }
  }

  method CollectEvent(event: Json, found: seq<string>) returns (result: Result<seq<string>>)
    ensures result.Success? <==> EventReceipts(event).Success?
    ensures result.Success? ==> result.value == found + EventReceipts(event).value
  {
    hide RecordedIds;
    hide RecordedReceipts;
    hide AnswerReceipts;
    hide ProviderAnswers;
    hide Child;
    var item := Child(event, "item");
    var ids := if item.Obj? then RecordedIds(item) else Success([]);
    if ids.Failure? {
      return Failure;
    }
    var now := found + RecordedReceipts(ids.value);
    var answers := ProviderAnswers(event);
    for i := 0 to |answers|
      invariant now + AnswersReceipts(answers[i..]) == found + RecordedReceipts(ids.value) + AnswersReceipts(answers)
    {
      assert answers[i..][1..] == answers[i + 1..];
      now := CollectAnswer(answers[i], now);
    }
    assert answers[|answers|..] == [] && now + [] == now;
    assert now == found + RecordedReceipts(ids.value) + AnswersReceipts(answers);
    result := Success(now);
  }

  lemma FoundStep(items: seq<Json>, i: nat)
    requires i < |items|
    ensures FoundReceipts(items[i..]).Success? <==> EventReceipts(items[i]).Success? && FoundReceipts(items[i + 1..]).Success?
    ensures FoundReceipts(items[i..]).Success? ==>
      FoundReceipts(items[i..]).value == EventReceipts(items[i]).value + FoundReceipts(items[i + 1..]).value
  {
    hide EventReceipts;
    var rest := items[i..];
    assert rest[0] == items[i] && rest[1..] == items[i + 1..];
    FoundMore(rest);
  }

  lemma FoundMore(rest: seq<Json>)
    requires rest != []
    ensures FoundReceipts(rest) ==
      if EventReceipts(rest[0]).Failure? || FoundReceipts(rest[1..]).Failure? then Failure
      else Success(EventReceipts(rest[0]).value + FoundReceipts(rest[1..]).value)
  {
    hide EventReceipts;
  }

  lemma NothingFound()
    ensures FoundReceipts([]) == Success([])
  {
  }

  /** The receipts of all completed calls, each once, in the order first seen. */
  method ProviderReceipts(events: Json) returns (result: Result<seq<string>>)
    ensures !events.Arr? ==> result == Success([])
    ensures events.Arr? ==> (result.Success? <==> FoundReceipts(events.items).Success?)
    ensures events.Arr? && result.Success? ==> FirstSeen(FoundReceipts(events.items).value, result.value)
  {
    hide *;
    if !events.Arr? {
      return Success([]);
    }
    var found: seq<string> := [];
    var items := events.items;
    assert items[0..] == items;
    for i := 0 to |items|
      invariant FoundReceipts(items).Success? <==> FoundReceipts(items[i..]).Success?
      invariant FoundReceipts(items).Success? ==> FoundReceipts(items).value == found + FoundReceipts(items[i..]).value
    {
      FoundStep(items, i);
      var now := CollectEvent(items[i], found);
      if now.Failure? {
        return Failure;
      }
      found := now.value;
    }
    NothingFound();
    assert items[|items|..] == [] && found + [] == found;
    var ordered := Distinct(found);
    result := Success(ordered);
  }
}
