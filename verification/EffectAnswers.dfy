/** Which receipts one event contributes, told on the fields of its item. */
module EffectAnswers {
  import opened Wrappers
  import opened JsonText
  import opened PythonText
  import opened Decimals
  import opened EffectGuard

  // ---------- fields and emptiness ----------

  /** The first entry of the dictionary under the key is `x`. */
  ghost predicate Under(v: Json, key: string, x: Json) {
    v.Obj? && exists i :: 0 <= i < |v.fields| && v.fields[i] == (key, x) && forall j | 0 <= j < i :: v.fields[j].0 != key
  }

  predicate Keyless(v: Json, key: string) { v.Obj? ==> forall i | 0 <= i < |v.fields| :: v.fields[i].0 != key }

  /** Equal to zero: the integer, false, or a decimal that is read as zero. */
  predicate Zero(v: Json) { v == Int(0) || v == Bool(false) || (v.Decimal? && DecimalZero(v.spelling)) }

  predicate Empty(v: Json) { v.Null? || Zero(v) || v == Str("") || v == Arr([]) || v == Obj([]) }

  /** Some character of the text is no blank. */
  predicate Says(text: string) { exists i :: 0 <= i < |text| && !Blank(text[i]) }

  lemma {:induction false} FieldIs(fields: seq<(string, Json)>, key: string)
    ensures
      match Field(fields, key)
      case Some(x) => Under(Obj(fields), key, x)
      case None => Keyless(Obj(fields), key)
  {
    if fields != [] && fields[0].0 != key {
      FieldIs(fields[1..], key);
      if Field(fields, key).Some? {
        var x, rest := Field(fields, key).value, fields[1..];
        var i :| 0 <= i < |rest| && rest[i] == (key, x) && forall j | 0 <= j < i :: rest[j].0 != key;
        assert fields[i + 1] == (key, x);
        forall j | 0 <= j < i + 1 ensures fields[j].0 != key {
          if j > 0 { assert fields[j] == rest[j - 1]; }
        }
      } else {
        forall i | 0 <= i < |fields| ensures fields[i].0 != key {
          if i > 0 { assert fields[i] == fields[1..][i - 1]; }
        }
      }
    }
  }

  lemma OneUnder(v: Json, key: string, x: Json, y: Json)
    requires Under(v, key, x) && Under(v, key, y)
    ensures x == y
  {
    var i :| 0 <= i < |v.fields| && v.fields[i] == (key, x) && forall j | 0 <= j < i :: v.fields[j].0 != key;
    var k :| 0 <= k < |v.fields| && v.fields[k] == (key, y) && forall j | 0 <= j < k :: v.fields[j].0 != key;
    assert !(i < k) && !(k < i);
  }

  lemma GetIs(v: Json, key: string)
    ensures forall x :: Get(v, key) == Some(x) <==> Under(v, key, x)
    ensures Get(v, key).None? <==> Keyless(v, key)
  {
    if v.Obj? {
      FieldIs(v.fields, key);
      forall x | Under(v, key, x) ensures Get(v, key) == Some(x) {
        if Get(v, key).Some? { OneUnder(v, key, x, Get(v, key).value); }
      }
    }
  }

  // ---------- the answers ----------

  /** The output of a command that ended with zero: `output`, or the aggregated one where that is empty. */
  ghost predicate FromCommand(item: Json, answer: Json) {
    && Under(item, "type", Str("command_execution")) && (exists code :: Under(item, "exit_code", code) && Zero(code))
    && !Empty(answer)
    && (Under(item, "output", answer)
        || (Under(item, "aggregated_output", answer) && !(exists x :: Under(item, "output", x) && !Empty(x))))
  }

  /** A text block of the content list. */
  ghost predicate InContent(result: Json, answer: Json) {
    exists content, i ::
      && Under(result, "content", content) && content.Arr? && 0 <= i < |content.items|
      && Under(content.items[i], "type", Str("text")) && Under(content.items[i], "text", answer) && answer.Str?
  }

  /** What a tool call without an error gave: its texts, its structured part, or the whole of a bare result. */
  ghost predicate FromTool(item: Json, answer: Json) {
    && Under(item, "type", Str("mcp_tool_call")) && !(exists x :: Under(item, "error", x) && !Empty(x))
    && exists result :: Under(item, "result", result) &&
         if result.Obj?
         then InContent(result, answer) || (Under(result, "structuredContent", answer) && answer.Obj?)
              || (answer == result && Keyless(result, "content"))
         else answer == result && !Empty(result)
  }

  lemma {:induction false} TextEntriesIff(items: seq<Json>, answer: Json)
    ensures answer in TextEntries(items) <==>
      exists i :: 0 <= i < |items| && Under(items[i], "type", Str("text")) && Under(items[i], "text", answer) && answer.Str?
  {
    if items != [] {
      TextEntriesIff(items[1..], answer);
      GetIs(items[0], "type");
      GetIs(items[0], "text");
      hide Get;
      hide Under;
      forall i | 0 <= i < |items[1..]| ensures items[1..][i] == items[i + 1] {
      }
      if i :| 0 <= i < |items| && Under(items[i], "type", Str("text")) && Under(items[i], "text", answer) && answer.Str? {
        if i > 0 { assert items[1..][i - 1] == items[i]; }
      }
    }
  }

  lemma TruthyIs(v: Json, key: string)
    ensures Truthy(v) <==> !Empty(v)
    ensures IsZero(v) <==> Zero(v)
    ensures TruthyField(v, key) <==> exists x :: Under(v, key, x) && !Empty(x)
  {
    GetIs(v, key);
    hide Get;
    hide Under;
    hide DecimalZero;
  }

  lemma ChildIs(v: Json, key: string)
    ensures forall x | Under(v, key, x) :: Child(v, key) == x
    ensures Child(v, key).Null? || Under(v, key, Child(v, key))
  {
    GetIs(v, key);
    hide Get;
    hide Under;
  }

  lemma ResultAnswers(item: Json, answer: Json)
    ensures
      var result := Child(item, "result");
      answer in ToolAnswers(item) <==>
        && !(exists x :: Under(item, "error", x) && !Empty(x))
        && if result.Obj?
           then InContent(result, answer) || (Under(result, "structuredContent", answer) && answer.Obj?)
                || (answer == result && Keyless(result, "content"))
           else answer == result && !Empty(result)
  {
    var result := Child(item, "result");
    TruthyIs(item, "error");
    TruthyIs(result, "");
    GetIs(result, "content");
    ChildIs(result, "content");
    ChildIs(result, "structuredContent");
    var content := Child(result, "content");
    if content.Arr? { TextEntriesIff(content.items, answer); }
    hide Child;
    hide Get;
    hide Under;
    hide Empty;
    hide TextEntries;
    hide Truthy;
    hide TruthyField;
    hide Keyless;
  }

  lemma ToolAnswersIff(item: Json, answer: Json)
    requires Under(item, "type", Str("mcp_tool_call"))
    ensures answer in ToolAnswers(item) <==> FromTool(item, answer)
  {
    ResultAnswers(item, answer);
    ChildIs(item, "result");
    hide ToolAnswers;
    hide Child;
    hide Under;
    hide Keyless;
    hide InContent;
  }

  lemma CommandAnswersIff(item: Json, answer: Json)
    requires Under(item, "type", Str("command_execution"))
    ensures
      var output := if TruthyField(item, "output") then Child(item, "output") else Child(item, "aggregated_output");
      IsZero(Child(item, "exit_code")) && Truthy(output) && answer == output <==> FromCommand(item, answer)
  {
    ChildIs(item, "output");
    ChildIs(item, "aggregated_output");
    ChildIs(item, "exit_code");
    TruthyIs(item, "output");
    TruthyIs(answer, "");
    TruthyIs(Child(item, "exit_code"), "");
    NullIs();
    hide Child;
    hide Under;
    hide Truthy;
    hide TruthyField;
    hide IsZero;
    hide Empty;
    hide Zero;
  }

  lemma NullIs()
    ensures Empty(Null) && !Zero(Null)
  {
  }

  /** The answers of an event, from what its item says. */
  lemma AnswersIff(event: Json, answer: Json)
    ensures answer in ProviderAnswers(event) <==>
      exists item :: Under(event, "item", item) && item.Obj? && (FromCommand(item, answer) || FromTool(item, answer))
  {
    var item := Child(event, "item");
    ChildIs(event, "item");
    GetIs(item, "type");
    if Under(item, "type", Str("command_execution")) { CommandAnswersIff(item, answer); }
    if Under(item, "type", Str("mcp_tool_call")) { ToolAnswersIff(item, answer); }
    OneType(item, answer);
    hide Child;
    hide Under;
    hide Get;
    hide ToolAnswers;
    hide Truthy;
    hide TruthyField;
    hide IsZero;
    hide FromCommand;
    hide FromTool;
  }

  lemma OneType(item: Json, answer: Json)
    ensures FromCommand(item, answer) ==> Under(item, "type", Str("command_execution")) && Get(item, "type") == Some(Str("command_execution"))
    ensures FromTool(item, answer) ==> Under(item, "type", Str("mcp_tool_call")) && Get(item, "type") == Some(Str("mcp_tool_call"))
  {
    GetIs(item, "type");
    hide Get;
    hide Under;
  }

  // ---------- the receipts ----------

  lemma StripIs(text: string)
    ensures Strip(text) != "" <==> Says(text)
  {
    var before, after := StripParts(text);
    hide Strip;
    if Strip(text) != "" {
      assert text[|before|] == Strip(text)[0];
    } else {
      assert text == before + after;
    }
  }

  /** A dictionary that says it failed. */
  ghost predicate SaysFailed(v: Json) { Under(v, "success", Bool(false)) || Under(v, "ok", Bool(false)) }

  /** The dictionary holds the receipt under one of the four names. */
  ghost predicate HoldsReceipt(v: Json, receipt: string) {
    v.Obj? && exists i ::
      (0 <= i < |v.fields| && IsName(v.fields[i].0)
       && v.fields[i].1.Str? && Says(v.fields[i].1.text) && receipt == Strip(v.fields[i].1.text))
  }

  predicate IsName(key: string) {
    key == "openMessageId" || key == "open_message_id" || key == "openTaskId" || key == "open_task_id"
  }

  /** The dictionary at the end of a path of `result`, `data` and `provider_result`, none on the way saying it failed. */
  ghost predicate Leads(v: Json, path: seq<string>, end: Json)
    decreases |path|
  {
    && v.Obj? && !SaysFailed(v)
    && if path == [] then end == v
       else (path[0] == "result" || path[0] == "data" || path[0] == "provider_result")
            && exists next :: Under(v, path[0], next) && Leads(next, path[1..], end)
  }

  /** At most nine keys, the last one `result`. */
  ghost predicate Contains(v: Json, receipt: string) {
    exists path, end :: 0 < |path| <= 9 && path[|path| - 1] == "result" && Leads(v, path, end) && HoldsReceipt(end, receipt)
  }

  lemma FailedIs(v: Json)
    ensures Failed(v) <==> SaysFailed(v)
  {
    GetIs(v, "success");
    GetIs(v, "ok");
    hide Get;
    hide Under;
  }

  lemma HoldsIs(v: Json, receipt: string)
    ensures Holds(v, receipt) <==> HoldsReceipt(v, receipt)
  {
    if v.Obj? {
      forall i | 0 <= i < |v.fields| && v.fields[i].1.Str? ensures Strip(v.fields[i].1.text) != "" <==> Says(v.fields[i].1.text) {
        StripIs(v.fields[i].1.text);
      }
    }
    hide Strip;
    hide Says;
  }

  lemma {:induction false} LeadsIs(v: Json, path: seq<string>, end: Json)
    ensures Reaches(v, path, end) <==> Leads(v, path, end)
    decreases |path|
  {
    FailedIs(v);
    hide Failed;
    hide SaysFailed;
    if path != [] {
      ChildIs(v, path[0]);
      LeadsIs(Child(v, path[0]), path[1..], end);
      hide Child;
      hide Under;
      NullLeadsNowhere(path[1..], end);
    }
  }

  lemma NullLeadsNowhere(path: seq<string>, end: Json)
    ensures !Reaches(Null, path, end)
  {
  }

  lemma ContainsIs(v: Json, receipt: string)
    ensures receipt in ReceiptsIn(v, 0) <==> Contains(v, receipt)
  {
    ReceiptsIff(v, 0, receipt);
    hide ReceiptsIn;
    hide Reaches;
    hide Leads;
    hide Holds;
    hide HoldsReceipt;
    if Reachable(v, 9, receipt) {
      var path, end :| 0 < |path| <= 9 && path[|path| - 1] == "result" && Reaches(v, path, end) && Holds(end, receipt);
      LeadsIs(v, path, end);
      HoldsIs(end, receipt);
    }
    if Contains(v, receipt) {
      var path, end :| 0 < |path| <= 9 && path[|path| - 1] == "result" && Leads(v, path, end) && HoldsReceipt(end, receipt);
      LeadsIs(v, path, end);
      HoldsIs(end, receipt);
    }
  }

  // ---------- one event ----------

  /** The answer contains it: as the value it is, or in one of the values inside its text. */
  ghost predicate AnswerContains(answer: Json, receipt: string) {
    if answer.Str?
    then exists i :: 0 <= i < |Spans(answer.text, 0)| && Contains(Spans(answer.text, 0)[i].value, receipt)
    else Contains(answer, receipt)
  }

  /** The item lists it among the recorded IDs, which may also be the characters of a text or the keys of a dictionary. */
  ghost predicate Recorded(item: Json, receipt: string) {
    Says(receipt)
    && exists ids :: Under(item, "provider_receipt_ids", ids) &&
         match ids
         case Arr(items) => Str(receipt) in items
         case Str(text) => |receipt| == 1 && receipt[0] in text
         case Obj(fields) => exists i :: 0 <= i < |fields| && fields[i].0 == receipt
         case _ => false
  }

  predicate Iterable(ids: Json) { ids.Arr? || ids.Str? || ids.Obj? }

  lemma {:induction false} AllReceiptsIff(spans: seq<Span>, receipt: string)
    ensures receipt in AllReceipts(Values(spans)) <==> exists i :: 0 <= i < |spans| && Contains(spans[i].value, receipt)
  {
    if spans != [] {
      ContainsIs(spans[0].value, receipt);
      AllReceiptsIff(spans[1..], receipt);
      ValuesOf(spans[0], spans[1..]);
      assert [spans[0]] + spans[1..] == spans;
      hide Values;
      hide ReceiptsIn;
      hide Contains;
      assert Values(spans)[1..] == Values(spans[1..]);
      if i :| 0 <= i < |spans[1..]| && Contains(spans[1..][i].value, receipt) { assert spans[i + 1] == spans[1..][i]; }
      if i :| 0 <= i < |spans| && Contains(spans[i].value, receipt) {
        if i > 0 { assert spans[1..][i - 1] == spans[i]; }
      }
    }
  }

  lemma AnswerIff(answer: Json, receipt: string)
    ensures receipt in AnswerReceipts(answer) <==> AnswerContains(answer, receipt)
  {
    hide ReceiptsIn;
    hide Contains;
    hide Spans;
    hide Values;
    if answer.Str? { AllReceiptsIff(Spans(answer.text, 0), receipt); } else { ContainsIs(answer, receipt); }
  }

  lemma {:induction false} AnswersOfIff(answers: seq<Json>, receipt: string)
    ensures receipt in AnswersReceipts(answers) <==> exists answer :: answer in answers && AnswerContains(answer, receipt)
  {
    hide AnswerReceipts;
    hide AnswerContains;
    if answers != [] {
      AnswerIff(answers[0], receipt);
      AnswersOfIff(answers[1..], receipt);
      assert answers == [answers[0]] + answers[1..];
    }
  }

  lemma {:induction false} RecordedIff(ids: seq<Json>, receipt: string)
    ensures receipt in RecordedReceipts(ids) <==> Str(receipt) in ids && Says(receipt)
  {
    if ids != [] {
      RecordedIff(ids[1..], receipt);
      assert ids == [ids[0]] + ids[1..];
      if ids[0].Str? { StripIs(ids[0].text); }
      hide Strip;
      hide Says;
    }
  }

  lemma RecordedIs(item: Json, receipt: string)
    ensures RecordedIds(item).Failure? <==> exists ids :: Under(item, "provider_receipt_ids", ids) && !Iterable(ids)
    ensures RecordedIds(item).Success? ==>
      (receipt in RecordedReceipts(RecordedIds(item).value) <==> Recorded(item, receipt))
  {
    GetIs(item, "provider_receipt_ids");
    if RecordedIds(item).Success? { RecordedIff(RecordedIds(item).value, receipt); }
    hide Get;
    hide Under;
    hide RecordedReceipts;
    hide Says;
    if Get(item, "provider_receipt_ids").Some? && RecordedIds(item).Success? { IdsAre(Get(item, "provider_receipt_ids").value, item, receipt); }
  }

  lemma IdsAre(ids: Json, item: Json, receipt: string)
    requires Get(item, "provider_receipt_ids") == Some(ids) && RecordedIds(item).Success?
    ensures Str(receipt) in RecordedIds(item).value <==>
      match ids
      case Arr(items) => Str(receipt) in items
      case Str(text) => |receipt| == 1 && receipt[0] in text
      case Obj(fields) => exists i :: 0 <= i < |fields| && fields[i].0 == receipt
      case _ => false
  {
    hide Get;
    var listed := RecordedIds(item).value;
    match ids
    case Str(text) =>
      assert |listed| == |text| && forall i | 0 <= i < |text| :: listed[i] == Str([text[i]]);
      if |receipt| == 1 && receipt[0] in text {
        var i :| 0 <= i < |text| && text[i] == receipt[0];
        assert listed[i] == Str([text[i]]) && [text[i]] == receipt;
      }
    case Obj(fields) =>
      assert |listed| == |fields| && forall i | 0 <= i < |fields| :: listed[i] == Str(fields[i].0);
      if i :| 0 <= i < |fields| && fields[i].0 == receipt { assert listed[i] == Str(receipt); }
    case _ =>
  }

  /** What one event contributes, and when reading it raises. */
  lemma EventIff(event: Json, receipt: string)
    ensures EventReceipts(event).Failure? <==>
      exists item, ids :: Under(event, "item", item) && item.Obj? && Under(item, "provider_receipt_ids", ids) && !Iterable(ids)
    ensures EventReceipts(event).Success? ==>
      (receipt in EventReceipts(event).value <==>
         exists item :: Under(event, "item", item) && item.Obj?
           && (Recorded(item, receipt)
               || exists answer :: (FromCommand(item, answer) || FromTool(item, answer)) && AnswerContains(answer, receipt)))
  {
    var item := Child(event, "item");
    ChildIs(event, "item");
    RecordedIs(item, receipt);
    AnswersOfIff(ProviderAnswers(event), receipt);
    forall answer ensures answer in ProviderAnswers(event) <==>
      exists x :: Under(event, "item", x) && x.Obj? && (FromCommand(x, answer) || FromTool(x, answer))
    {
      AnswersIff(event, answer);
    }
    NothingRecorded();
    hide Child;
    hide Under;
    hide ProviderAnswers;
    hide RecordedIds;
    hide RecordedReceipts;
    hide AnswersReceipts;
    hide AnswerContains;
    hide FromCommand;
    hide FromTool;
    hide Recorded;
    hide Iterable;
  }

  lemma NothingRecorded()
    ensures RecordedReceipts([]) == []
  {
  }
}
