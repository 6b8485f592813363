/** Reading a Responses request: messages, tool outputs and the part of a replayed history that is new
    (src/conversion/responses_to_chat.rs, src/conversion/mod.rs). */
module Requests {
  import opened Wrappers
  import opened Chat
  import opened ToolHistory

  datatype CallKind = FunctionCall | CustomToolCall | ToolSearchCall

  /** An input item, by the branch of `extract_request_with_context` that it takes. A call item's id is the first of
      its `call_id` and `id`; a missing JSON string is the empty string. */
  datatype InputItem =
    | TextItem(text: string)
    | CallItem(kind: CallKind, callId: Option<string>, name: string, namespace: Option<string>, arguments: string)
    | OutputItem(outputCallId: Option<string>, toolCallId: Option<string>, output: string)
    | ReasoningItem(summary: string)
    | MessageItem(role: Role, content: Content)
    | AgentMessage(agentContent: Option<Content>)
    | PartItem(part: Option<Content>)
    | NestedArray(items: seq<InputItem>)
    | OtherItem

  datatype Input = NoInput | InputText(text: string) | InputObject(item: InputItem) | InputArray(items: seq<InputItem>)
                 | InvalidInputValue

  datatype Body = Body(instructions: Option<string>, input: Input, previousResponseId: Option<string>)

  /** The chat name of a replayed call, and the id generated for a call item without one. */
  datatype Naming = Naming(chatName: (string, Option<string>) -> string, newId: nat -> string)

  // ---------- extraction ----------

  datatype Extraction = Extraction(messages: seq<Message>, outputs: seq<Message>, pending: seq<ToolCall>)

  function FlushPending(e: Extraction): Extraction {
    if e.pending == [] then e
    else Extraction(e.messages + [Message(Assistant, Text(""), e.pending, None, "")], e.outputs, [])
  }

  function Push(e: Extraction, m: Message): Extraction {
    var f := FlushPending(e);
    f.(messages := f.messages + [m])
  }

  function ItemRole(role: Role): Role {
    if role == Developer then System
    else if role == System || role == User || role == Assistant || role == Tool then role
    else User
  }

  /** The chat name of a replayed call. */
  function ReplayedName(item: InputItem, naming: Naming): string
    requires item.CallItem?
  {
    match item.kind
    case FunctionCall => naming.chatName(item.name, item.namespace)
    case CustomToolCall => naming.chatName(item.name, None)
    case ToolSearchCall => "tool_search"
  }

  function ExtractItem(e: Extraction, item: InputItem, naming: Naming, index: nat): Result<Extraction, HistoryError> {
    match item
    case TextItem(text) => Ok(Push(e, PlainMessage(User, Text(text))))
    case CallItem(kind, callId, name, namespace, arguments) =>
      if kind != ToolSearchCall && name == "" then Ok(e)
      else
        var chatName := ReplayedName(item, naming);
        var id := callId.GetOr(naming.newId(index));
        Ok(e.(pending := e.pending + [ToolCall(Some(id), chatName, arguments)]))
    case OutputItem(callId, _, output) =>
      if !IsCallId(callId) then Err(OutputRequiresCallId)
      else
        var f := FlushPending(e);
        Ok(f.(outputs := f.outputs + [ToolMessage(callId.value, output)]))
    case ReasoningItem(summary) =>
      if summary == "" then Ok(e) else Ok(Push(e, Message(Assistant, Text(""), [], None, summary)))
    case MessageItem(role, content) => Ok(Push(e, PlainMessage(ItemRole(role), content)))
    case AgentMessage(content) =>
      if content.None? then Ok(FlushPending(e)) else Ok(Push(e, PlainMessage(User, content.value)))
    case PartItem(part) =>
      if part.None? then Ok(e) else Ok(Push(e, PlainMessage(User, part.value)))
    case NestedArray(_) => Ok(e)
    case OtherItem => Ok(e)
  }

  /** The extraction from the first `n` items. */
  function ExtractItems(start: Extraction, items: seq<InputItem>, n: nat, naming: Naming)
    : Result<Extraction, HistoryError>
    requires n <= |items|
  {
    if n == 0 then Ok(start)
    else match ExtractItems(start, items, n - 1, naming)
      case Err(error) => Err(error)
      case Ok(e) => ExtractItem(e, items[n - 1], naming, n - 1)
  }

  function InputItems(input: Input): Option<seq<InputItem>> {
    match input
    case NoInput => Some([])
    case InputText(text) => Some([MessageItem(User, Text(text))])
    case InputObject(item) => Some([item])
    case InputArray(items) => Some(items)
    case InvalidInputValue => None
  }

  function StartOf(body: Body): Extraction {
    Extraction(if body.instructions.Some? then [PlainMessage(System, Text(body.instructions.value))] else [], [], [])
  }

  datatype Request = Request(messages: seq<Message>, outputs: seq<Message>)

  function Extract(body: Body, naming: Naming): Result<Request, HistoryError> {
    match InputItems(body.input)
    case None => Err(InvalidInput)
    case Some(items) =>
      match ExtractItems(StartOf(body), items, |items|, naming)
      case Err(error) => Err(error)
      case Ok(e) => Ok(Request(FlushPending(e).messages, FlushPending(e).outputs))
  }

  method ExtractRequest(body: Body, naming: Naming) returns (result: Result<Request, HistoryError>)
    ensures result == Extract(body, naming)
  {
    var messages: seq<Message> := [];
    if body.instructions.Some? {
      messages := [PlainMessage(System, Text(body.instructions.value))];
    }
    var items: seq<InputItem>;
    match body.input {
      case NoInput => items := [];
      case InputText(text) => items := [MessageItem(User, Text(text))];
      case InputObject(item) => items := [item];
      case InputArray(listed) => items := listed;
      case InvalidInputValue => return Err(InvalidInput);
    }
    var e := Extraction(messages, [], []);
    for i := 0 to |items|
      invariant ExtractItems(StartOf(body), items, i, naming) == Ok(e)
    {
      var next := ExtractItem(e, items[i], naming, i);
      if next.Err? {
        ErrorPersists(StartOf(body), items, i + 1, |items|, naming);
        return Err(next.error);
      }
      e := next.value;
    }
    e := FlushPending(e);
    return Ok(Request(e.messages, e.outputs));
  }

  lemma {:induction false} ErrorPersists(start: Extraction, items: seq<InputItem>, n: nat, m: nat, naming: Naming)
    requires n <= m <= |items| && ExtractItems(start, items, n, naming).Err?
    ensures ExtractItems(start, items, m, naming) == ExtractItems(start, items, n, naming)
    decreases m - n
  {
    if n < m {
      ErrorPersists(start, items, n + 1, m, naming);
    }
  }

  // ---------- ids of tool outputs ----------

  function OutputIds(outputs: seq<Message>): seq<string> {
    if outputs == [] then []
    else (if outputs[0].toolCallId.Some? then [outputs[0].toolCallId.value] else []) + OutputIds(outputs[1..])
  }

  predicate HasPreviousResponseId(body: Body) {
    IsCallId(body.previousResponseId)
  }

  function CollectItem(item: InputItem): set<string> {
    match item
    case CallItem(_, callId, _, _, _) => if IsCallId(callId) then {callId.value} else {}
    case NestedArray(items) => set i, id | 0 <= i < |items| && id in CollectItem(items[i]) :: id
    case _ => {}
  }

  /** The items of an item: itself, and for an array those of its items. */
  ghost predicate Holds(item: InputItem, inner: InputItem) {
    item == inner || (item.NestedArray? && exists i :: 0 <= i < |item.items| && Holds(item.items[i], inner))
  }

  /** The ids of the calls of any kind, at any depth. */
  lemma {:induction false} CollectedIds(item: InputItem, id: string)
    ensures id in CollectItem(item)
       <==> id != "" && exists inner :: Holds(item, inner) && inner.CallItem? && inner.callId == Some(id)
  {
    match item
    case NestedArray(items) =>
      forall i | 0 <= i < |items|
        ensures id in CollectItem(items[i])
           <==> id != "" && exists inner :: Holds(items[i], inner) && inner.CallItem? && inner.callId == Some(id)
      {
        CollectedIds(items[i], id);
      }
    case _ => assert Holds(item, item);
  }

  method CollectToolCallIds(item: InputItem, callIds: set<string>) returns (collected: set<string>)
    ensures collected == callIds + CollectItem(item)
    decreases item
  {
    collected := callIds;
    match item {
      case NestedArray(items) =>
        for i := 0 to |items|
          invariant forall id :: id in collected <==>
                      id in callIds || exists k :: 0 <= k < i && id in CollectItem(items[k])
        {
          collected := CollectToolCallIds(items[i], collected);
        }
        assert forall id :: id in CollectItem(item) <==> exists k :: 0 <= k < |items| && id in CollectItem(items[k]);
      case CallItem(_, callId, _, _, _) =>
        if IsCallId(callId) {
          collected := collected + {callId.value};
        }
      case _ =>
        assert CollectItem(item) == {};
    }
  }

  function CollectInput(input: Input): set<string> {
    match input
    case InputObject(item) => CollectItem(item)
    case InputArray(items) => CollectItem(NestedArray(items))
    case _ => {}
  }

  /** The ids that need a stored response: none when the request replays every call itself. */
  function FunctionOutputCallIds(body: Body, naming: Naming): Result<seq<string>, HistoryError> {
    match Extract(body, naming)
    case Err(error) => Err(error)
    case Ok(request) =>
      var ids := OutputIds(request.outputs);
      if ids == [] || HasPreviousResponseId(body) then Ok(ids)
      else if forall id :: id in ids ==> id in CollectInput(body.input) then Ok([])
      else Ok(ids)
  }

  // ---------- trimming of replayed history ----------

  /** The id of a tool output, as the trimming loop reads it. */
  function TrimId(item: InputItem): Option<string>
    requires item.OutputItem?
  {
    if item.outputCallId.Some? then item.outputCallId else item.toolCallId
  }

  predicate SeenCall(items: seq<InputItem>, n: nat, id: string)
    requires n <= |items|
  {
    exists j :: 0 <= j < n && items[j].CallItem? && IsCallId(items[j].callId) && items[j].callId.value == id
  }

  /** A wanted output whose call comes before it. */
  predicate MatchedAt(items: seq<InputItem>, wanted: set<string>, i: nat)
    requires i < |items|
  {
    && items[i].OutputItem?
    && IsCallId(TrimId(items[i]))
    && TrimId(items[i]).value in wanted
    && SeenCall(items, i, TrimId(items[i]).value)
  }

  ghost predicate IsMatched(items: seq<InputItem>, wanted: set<string>, n: nat, id: string)
    requires n <= |items|
  {
    exists i :: 0 <= i < n && MatchedAt(items, wanted, i) && TrimId(items[i]).value == id
  }

  function CutAfter(items: seq<InputItem>, wanted: set<string>, n: nat): (cut: nat)
    requires n <= |items|
    ensures cut <= n
    ensures cut > 0 ==> MatchedAt(items, wanted, cut - 1)
    ensures forall i :: cut <= i < n ==> !MatchedAt(items, wanted, i)
  {
    if n == 0 then 0
    else if MatchedAt(items, wanted, n - 1) then n
    else CutAfter(items, wanted, n - 1)
  }

  /** Where the new part starts, when every wanted output is matched. */
  ghost function TrimCut(items: seq<InputItem>, wanted: set<string>): Option<nat> {
    if forall id :: id in wanted ==> IsMatched(items, wanted, |items|, id)
    then Some(CutAfter(items, wanted, |items|)) else None
  }

  ghost function TrimSuffix(body: Body, naming: Naming, outputCallIds: seq<string>)
    : Result<Option<seq<Message>>, HistoryError>
  {
    if outputCallIds == [] || !body.input.InputArray? then Ok(None)
    else match TrimCut(body.input.items, ToSet(outputCallIds))
      case None => Ok(None)
      case Some(cut) =>
        match Extract(Body(None, InputArray(body.input.items[cut..]), None), naming)
        case Err(error) => Err(error)
        case Ok(request) => Ok(Some(request.messages))
  }

  predicate IsCallOf(item: InputItem, id: string) {
    item.CallItem? && IsCallId(item.callId) && item.callId.value == id
  }

  lemma SeenNext(items: seq<InputItem>, i: nat, id: string)
    requires i < |items|
    ensures SeenCall(items, i + 1, id) <==> SeenCall(items, i, id) || IsCallOf(items[i], id)
  {
  }

  predicate IsMatchOf(items: seq<InputItem>, wanted: set<string>, i: nat, id: string)
    requires i < |items|
  {
    MatchedAt(items, wanted, i) && TrimId(items[i]).value == id
  }

  lemma MatchedNext(items: seq<InputItem>, wanted: set<string>, i: nat, id: string)
    requires i < |items|
    ensures IsMatched(items, wanted, i + 1, id) <==> IsMatched(items, wanted, i, id) || IsMatchOf(items, wanted, i, id)
  {
    if IsMatched(items, wanted, i, id) {
      var k :| 0 <= k < i && MatchedAt(items, wanted, k) && TrimId(items[k]).value == id;
    }
  }

  lemma NothingMatched(items: seq<InputItem>, wanted: set<string>)
    ensures forall id :: !SeenCall(items, 0, id) && !IsMatched(items, wanted, 0, id)
  {
  }

  /** The loop over the items: where the last matched output ends, when every wanted id is matched. */
  method FindCut(items: seq<InputItem>, wanted: set<string>) returns (found: Option<nat>)
    ensures found == TrimCut(items, wanted)
  {
    hide SeenCall, IsMatched;
    NothingMatched(items, wanted);
    var seenCalls: set<string> := {};
    var matchedOutputs: set<string> := {};
    var lastOutputIndex: Option<nat> := None;
    for i := 0 to |items|
      invariant forall id :: id in seenCalls <==> SeenCall(items, i, id)
      invariant matchedOutputs <= wanted
      invariant forall id :: id in matchedOutputs <==> IsMatched(items, wanted, i, id)
      invariant CutAfter(items, wanted, i) == match lastOutputIndex case Some(k) => k + 1 case None => 0
    {
      forall id ensures SeenCall(items, i + 1, id) <==> SeenCall(items, i, id) || IsCallOf(items[i], id) {
        SeenNext(items, i, id);
      }
      forall id
        ensures IsMatched(items, wanted, i + 1, id)
            <==> IsMatched(items, wanted, i, id) || IsMatchOf(items, wanted, i, id)
      {
        MatchedNext(items, wanted, i, id);
      }
      match items[i] {
        case CallItem(_, callId, _, _, _) =>
          if IsCallId(callId) {
            seenCalls := seenCalls + {callId.value};
          }
        case OutputItem(_, _, _) =>
          var callId := TrimId(items[i]);
          if IsCallId(callId) && callId.value in wanted && callId.value in seenCalls {
            matchedOutputs := matchedOutputs + {callId.value};
            lastOutputIndex := Some(i);
          }
        case _ =>
      }
    }
    assert wanted <= matchedOutputs ==> matchedOutputs == wanted;
    if |matchedOutputs| != |wanted| {
      return None;
    }
    EqualSize(matchedOutputs, wanted);
    return Some(match lastOutputIndex case Some(k) => k + 1 case None => 0);
  }

  method TrimSelfContainedContinuationSuffix(body: Body, naming: Naming, outputCallIds: seq<string>)
      returns (result: Result<Option<seq<Message>>, HistoryError>)
    ensures result == TrimSuffix(body, naming, outputCallIds)
  {
    hide Extract, ToSet;
    if outputCallIds == [] {
      return Ok(None);
    }
    if !body.input.InputArray? {
      return Ok(None);
    }
    var items := body.input.items;
    var cut := FindCut(items, ToSet(outputCallIds));
    if cut.None? {
      return Ok(None);
    }
    var suffix := ExtractRequest(Body(None, InputArray(items[cut.value..]), None), naming);
    match suffix {
      case Err(error) => return Err(error);
      case Ok(request) => return Ok(Some(request.messages));
    }
  }

  lemma EqualSize<T>(a: set<T>, b: set<T>)
    requires a <= b && |a| == |b|
    ensures a == b
  {
    assert b == a + (b - a);
  }

  // ---------- trimming loses no tool output ----------

  predicate IsOutputOf(item: InputItem, id: string) {
    item.OutputItem? && item.outputCallId == Some(id)
  }

  lemma ItemOutputs(e: Extraction, item: InputItem, naming: Naming, index: nat)
    requires ExtractItem(e, item, naming, index).Ok?
    ensures item.OutputItem? ==> IsCallId(item.outputCallId)
    ensures ExtractItem(e, item, naming, index).value.outputs
         == e.outputs + if item.OutputItem? then [ToolMessage(item.outputCallId.value, item.output)] else []
  {
    assert e.outputs + [] == e.outputs;
  }

  /** The outputs extracted are those of the output items, in order, and each of these has an id. */
  lemma {:induction false} ExtractedOutputs(start: Extraction, items: seq<InputItem>, n: nat, naming: Naming)
    requires n <= |items| && start.outputs == [] && ExtractItems(start, items, n, naming).Ok?
    ensures forall i :: 0 <= i < n && items[i].OutputItem? ==>
              IsCallId(items[i].outputCallId)
              && items[i].outputCallId.value in OutputIds(ExtractItems(start, items, n, naming).value.outputs)
    ensures (forall i :: 0 <= i < n ==> !items[i].OutputItem?) ==>
        ExtractItems(start, items, n, naming).value.outputs == []
    decreases n
  {
    hide ExtractItem, OutputIds;
    if n > 0 {
      ExtractedOutputs(start, items, n - 1, naming);
      var e := ExtractItems(start, items, n - 1, naming).value;
      ItemOutputs(e, items[n - 1], naming, n - 1);
      assert e.outputs + [] == e.outputs;
      if items[n - 1].OutputItem? {
        OutputIdsSnoc(e.outputs, ToolMessage(items[n - 1].outputCallId.value, items[n - 1].output));
      }
    }
  }

  lemma {:induction false} OutputIdsSnoc(outputs: seq<Message>, m: Message)
    ensures OutputIds(outputs + [m]) == OutputIds(outputs) + if m.toolCallId.Some? then [m.toolCallId.value] else []
  {
    if outputs == [] {
      assert [m][1..] == [];
    } else {
      assert (outputs + [m])[1..] == outputs[1..] + [m];
      OutputIdsSnoc(outputs[1..], m);
    }
  }

  lemma {:induction false} ExtractNeedsIds(start: Extraction, items: seq<InputItem>, n: nat, naming: Naming)
    requires n <= |items| && forall i :: 0 <= i < n ==> !items[i].OutputItem?
    ensures ExtractItems(start, items, n, naming).Ok?
    decreases n
  {
    if n > 0 {
      ExtractNeedsIds(start, items, n - 1, naming);
    }
  }

  /** Item `j` is a call with this id, and item `i` after it an output for it. */
  predicate IsAnswered(items: seq<InputItem>, j: nat, i: nat, id: string)
    requires j < i < |items|
  {
    && id != "" && items[j].CallItem? && items[j].callId == Some(id) && items[i].OutputItem?
    && (if items[i].outputCallId.Some? then items[i].outputCallId == Some(id) else items[i].toolCallId == Some(id))
  }

  /** Item `i` is an output for some wanted id, after its call. */
  ghost predicate AnswersSome(items: seq<InputItem>, wanted: set<string>, i: nat)
    requires i < |items|
  {
    exists j, id :: 0 <= j < i && id in wanted && IsAnswered(items, j, i, id)
  }

  lemma MatchedMeans(items: seq<InputItem>, wanted: set<string>, i: nat, id: string)
    requires i < |items| && id in wanted
    ensures MatchedAt(items, wanted, i) && TrimId(items[i]).value == id
       <==> exists j :: 0 <= j < i && IsAnswered(items, j, i, id)
  {
    if MatchedAt(items, wanted, i) && TrimId(items[i]).value == id {
      var j :| 0 <= j < i && items[j].CallItem? && IsCallId(items[j].callId) && items[j].callId.value == id;
      assert IsAnswered(items, j, i, id);
    }
    if j :| 0 <= j < i && IsAnswered(items, j, i, id) {
      assert SeenCall(items, i, id);
    }
  }

  /** Trimming applies exactly if the input holds, for every wanted id, a call and after it an output; what is kept
      starts right after the last such output. */
  lemma TrimmingApplies(items: seq<InputItem>, wanted: set<string>)
    ensures TrimCut(items, wanted).Some? <==>
            forall id :: id in wanted ==> exists j, i :: 0 <= j < i < |items| && IsAnswered(items, j, i, id)
    ensures TrimCut(items, wanted).Some? ==>
              var cut := TrimCut(items, wanted).value;
              && cut <= |items|
              && (cut > 0 ==> AnswersSome(items, wanted, cut - 1))
              && forall j, i, id :: 0 <= j < i < |items| && id in wanted && IsAnswered(items, j, i, id) ==> i < cut
  {
    hide SeenCall, MatchedAt, IsAnswered;
    forall id | id in wanted
      ensures IsMatched(items, wanted, |items|, id)
         <==> exists j, i :: 0 <= j < i < |items| && IsAnswered(items, j, i, id)
    {
      MatchedAnywhere(items, wanted, id);
    }
    var cut := CutAfter(items, wanted, |items|);
    if cut > 0 {
      LastMatch(items, wanted, cut - 1);
    }
    forall j, i, id | 0 <= j < i < |items| && id in wanted && IsAnswered(items, j, i, id) ensures i < cut {
      MatchedMeans(items, wanted, i, id);
    }
  }

  lemma MatchedAnywhere(items: seq<InputItem>, wanted: set<string>, id: string)
    requires id in wanted
    ensures IsMatched(items, wanted, |items|, id)
       <==> exists j, i :: 0 <= j < i < |items| && IsAnswered(items, j, i, id)
  {
    hide SeenCall, IsAnswered;
    if IsMatched(items, wanted, |items|, id) {
      var i :| 0 <= i < |items| && MatchedAt(items, wanted, i) && TrimId(items[i]).value == id;
      MatchedMeans(items, wanted, i, id);
    }
    if j, i :| 0 <= j < i < |items| && IsAnswered(items, j, i, id) {
      MatchedMeans(items, wanted, i, id);
    }
  }

  lemma LastMatch(items: seq<InputItem>, wanted: set<string>, i: nat)
    requires i < |items| && MatchedAt(items, wanted, i)
    ensures AnswersSome(items, wanted, i)
  {
    hide IsAnswered;
    MatchedMeans(items, wanted, i, TrimId(items[i]).value);
  }

  /** Whenever trimming applies, the part kept holds no tool output at all, so nothing is lost by ignoring its
      outputs; and every output id of the request is answered before the cut by an output that follows its call. */
  lemma TrimmingDropsNoOutput(body: Body, naming: Naming)
    requires Extract(body, naming).Ok? && body.input.InputArray?
    requires TrimCut(body.input.items, ToSet(OutputIds(Extract(body, naming).value.outputs))).Some?
    ensures var items, ids := body.input.items, OutputIds(Extract(body, naming).value.outputs);
            var cut := TrimCut(items, ToSet(ids)).value;
            var suffix := Extract(Body(None, InputArray(items[cut..]), None), naming);
            && (forall i :: cut <= i < |items| ==> !items[i].OutputItem?)
            && suffix.Ok? && suffix.value.outputs == []
            && (forall id :: id in ids ==>
                exists i :: 0 <= i < cut && IsOutputOf(items[i], id) && SeenCall(items, i, id))
  {
    var items, ids := body.input.items, OutputIds(Extract(body, naming).value.outputs);
    var wanted := ToSet(ids);
    var cut := TrimCut(items, wanted).value;
    ExtractedOutputs(StartOf(body), items, |items|, naming);
    forall i | cut <= i < |items| ensures !items[i].OutputItem? {
      if items[i].OutputItem? {
        WantedOutputsComeBefore(items, wanted, i);
      }
    }
    var kept := Body(None, InputArray(items[cut..]), None);
    ExtractNeedsIds(StartOf(kept), items[cut..], |items[cut..]|, naming);
    ExtractedOutputs(StartOf(kept), items[cut..], |items[cut..]|, naming);
    forall id | id in ids
      ensures exists i :: 0 <= i < cut && IsOutputOf(items[i], id) && SeenCall(items, i, id)
    {
      assert IsMatched(items, wanted, |items|, id);
      var i :| 0 <= i < |items| && MatchedAt(items, wanted, i) && TrimId(items[i]).value == id;
      assert IsOutputOf(items[i], id);
    }
  }

  /** When every wanted id is matched, no wanted output comes after the last match: it would itself be one. */
  lemma WantedOutputsComeBefore(items: seq<InputItem>, wanted: set<string>, i: nat)
    requires i < |items| && items[i].OutputItem? && IsCallId(items[i].outputCallId)
    requires items[i].outputCallId.value in wanted
    requires forall id :: id in wanted ==> IsMatched(items, wanted, |items|, id)
    ensures i < CutAfter(items, wanted, |items|)
  {
    var id := items[i].outputCallId.value;
    assert IsMatched(items, wanted, |items|, id);
    var k :| 0 <= k < |items| && MatchedAt(items, wanted, k) && TrimId(items[k]).value == id;
    if k < i {
      assert SeenCall(items, i, id);
      assert MatchedAt(items, wanted, i);
    }
  }
}
