/** What reading a request keeps: its calls, and where tool messages can come from. */
module ExtractionFacts {
  import opened Wrappers
  import opened Chat
  import opened ToolHistory
  import opened Requests
  import opened Repair
  import opened Continuation

  // ---------- the calls of a request ----------

  /** The usable id under which a call item is replayed; calls without a name are dropped. */
  function ItemIds(item: InputItem, naming: Naming, index: nat): seq<string> {
    match item
    case CallItem(kind, callId, name, _, _) =>
      var id := callId.GetOr(naming.newId(index));
      if (kind != ToolSearchCall && name == "") || id == "" then [] else [id]
    case _ => []
  }

  function ReplayedIds(items: seq<InputItem>, n: nat, naming: Naming): seq<string>
    requires n <= |items|
  {
    if n == 0 then [] else ReplayedIds(items, n - 1, naming) + ItemIds(items[n - 1], naming, n - 1)
  }

  lemma {:induction false} CallIdsOfSnoc(calls: seq<ToolCall>, call: ToolCall)
    ensures CallIds(calls + [call]) == CallIds(calls) + if IsCallId(call.id) then [call.id.value] else []
  {
    if calls == [] {
      assert [call][1..] == [];
    } else {
      assert (calls + [call])[0] == calls[0] && (calls + [call])[1..] == calls[1..] + [call];
      CallIdsOfSnoc(calls[1..], call);
      ConcatAssoc(if IsCallId(calls[0].id) then [calls[0].id.value] else [], CallIds(calls[1..]),
                  if IsCallId(call.id) then [call.id.value] else []);
    }
  }

  /** The calls extracted so far, flushed or pending. */
  function ExtractedIds(e: Extraction): seq<string> {
    AllCallIds(e.messages) + CallIds(e.pending)
  }

  lemma FlushKeepsIds(e: Extraction)
    ensures ExtractedIds(FlushPending(e)) == ExtractedIds(e) && FlushPending(e).pending == []
  {
    hide AllCallIds;
    var flushed := Message(Assistant, Text(""), e.pending, None, "");
    AllCallIdsSnoc(e.messages, flushed);
    assert CallIds([]) == [];
    assert AllCallIds(e.messages) + CallIds(e.pending) + [] == AllCallIds(e.messages) + CallIds(e.pending);
  }

  lemma PushKeepsIds(e: Extraction, m: Message)
    requires m.toolCalls == []
    ensures ExtractedIds(Push(e, m)) == ExtractedIds(e)
  {
    hide AllCallIds, FlushPending;
    FlushKeepsIds(e);
    AllCallIdsSnoc(FlushPending(e).messages, m);
    assert AssistantIds(m) == [];
    assert AllCallIds(FlushPending(e).messages) + [] == AllCallIds(FlushPending(e).messages);
  }

  lemma ExtractItemIds(e: Extraction, item: InputItem, naming: Naming, index: nat)
    requires ExtractItem(e, item, naming, index).Ok?
    ensures ExtractedIds(ExtractItem(e, item, naming, index).value) == ExtractedIds(e) + ItemIds(item, naming, index)
  {
    hide AllCallIds, CallIds, FlushPending;
    assert ExtractedIds(e) + [] == ExtractedIds(e);
    FlushKeepsIds(e);
    match item
    case TextItem(text) => PushKeepsIds(e, PlainMessage(User, Text(text)));
    case CallItem(kind, callId, name, namespace, arguments) =>
      if kind == ToolSearchCall || name != "" {
        var f := ExtractItem(e, item, naming, index).value;
        CallIdsOfSnoc(e.pending, f.pending[|e.pending|]);
        ConcatAssoc(AllCallIds(e.messages), CallIds(e.pending), ItemIds(item, naming, index));
      }
    case OutputItem(_, _, _) =>
    case ReasoningItem(summary) => PushKeepsIds(e, Message(Assistant, Text(""), [], None, summary));
    case MessageItem(role, content) => PushKeepsIds(e, PlainMessage(ItemRole(role), content));
    case AgentMessage(content) =>
      if content.Some? {
        PushKeepsIds(e, PlainMessage(User, content.value));
      }
    case PartItem(part) =>
      if part.Some? {
        PushKeepsIds(e, PlainMessage(User, part.value));
      }
    case NestedArray(_) =>
    case OtherItem =>
  }

  lemma {:induction false} ExtractItemsIds(start: Extraction, items: seq<InputItem>, n: nat, naming: Naming)
    requires n <= |items| && ExtractItems(start, items, n, naming).Ok?
    ensures ExtractedIds(ExtractItems(start, items, n, naming).value)
        == ExtractedIds(start) + ReplayedIds(items, n, naming)
    decreases n
  {
    hide ExtractItem, ExtractedIds, ItemIds;
    if n == 0 {
      assert ExtractedIds(start) + [] == ExtractedIds(start);
    } else {
      ExtractItemsIds(start, items, n - 1, naming);
      ExtractItemIds(ExtractItems(start, items, n - 1, naming).value, items[n - 1], naming, n - 1);
      ConcatAssoc(ExtractedIds(start), ReplayedIds(items, n - 1, naming), ItemIds(items[n - 1], naming, n - 1));
    }
  }

  lemma StartHasNoIds(body: Body)
    ensures ExtractedIds(StartOf(body)) == []
  {
    if body.instructions.Some? {
      var m := PlainMessage(System, Text(body.instructions.value));
      AllCallIdsSnoc([], m);
      assert [] + [m] == [m] && AssistantIds(m) == [] && AllCallIds([]) == [] && CallIds([]) == [];
    }
  }

  /** The calls of the extracted messages are the replayed calls of the input, in order: none is lost, doubled or
      moved. */
  lemma ExtractedCalls(body: Body, naming: Naming)
    requires Extract(body, naming).Ok?
    ensures var items := InputItems(body.input).value;
            AllCallIds(Extract(body, naming).value.messages) == ReplayedIds(items, |items|, naming)
  {
    hide ExtractItems, AllCallIds, FlushPending;
    var items := InputItems(body.input).value;
    var e := ExtractItems(StartOf(body), items, |items|, naming).value;
    StartHasNoIds(body);
    ExtractItemsIds(StartOf(body), items, |items|, naming);
    FlushKeepsIds(e);
    var f := FlushPending(e);
    assert CallIds(f.pending) == [];
    assert AllCallIds(f.messages) + [] == AllCallIds(f.messages);
    assert [] + ReplayedIds(items, |items|, naming) == ReplayedIds(items, |items|, naming);
  }

  // ---------- tool messages ----------

  /** A message in the tool role; proper outputs come as output items. */
  predicate IsToolItem(item: InputItem) {
    item.MessageItem? && item.role == Tool
  }

  predicate NoToolItems(items: seq<InputItem>) {
    forall i :: 0 <= i < |items| ==> !IsToolItem(items[i])
  }

  /** A message in the tool role never gets a call id. */
  predicate ToolsLackIds(messages: seq<Message>) {
    forall m :: m in messages && m.role == Tool ==> !IsCallId(m.toolCallId)
  }

  lemma MessagesSnoc(messages: seq<Message>, m: Message)
    ensures NoToolMessage(messages + [m]) <==> NoToolMessage(messages) && m.role != Tool
    ensures ToolsLackIds(messages + [m]) <==> ToolsLackIds(messages) && (m.role == Tool ==> !IsCallId(m.toolCallId))
  {
    assert m in messages + [m] && forall x :: x in messages ==> x in messages + [m];
  }

  lemma FlushParts(e: Extraction)
    ensures var f := FlushPending(e);
            && f.outputs == e.outputs && (NoToolMessage(f.messages) <==> NoToolMessage(e.messages))
            && (ToolsLackIds(f.messages) <==> ToolsLackIds(e.messages))
  {
    hide NoToolMessage, ToolsLackIds;
    MessagesSnoc(e.messages, Message(Assistant, Text(""), e.pending, None, ""));
  }

  lemma PushParts(e: Extraction, m: Message)
    requires m.role == Tool ==> !IsCallId(m.toolCallId)
    ensures var f := Push(e, m);
            && f.outputs == e.outputs && (NoToolMessage(f.messages) <==> NoToolMessage(e.messages) && m.role != Tool)
            && (ToolsLackIds(f.messages) <==> ToolsLackIds(e.messages))
  {
    hide NoToolMessage, ToolsLackIds, FlushPending;
    FlushParts(e);
    MessagesSnoc(FlushPending(e).messages, m);
  }

  lemma AreOutputsSnoc(outputs: seq<Message>, callId: string, output: string)
    requires AreOutputs(outputs) && callId != ""
    ensures AreOutputs(outputs + [ToolMessage(callId, output)])
  {
  }

  lemma ExtractItemParts(e: Extraction, item: InputItem, naming: Naming, index: nat)
    requires AreOutputs(e.outputs) && ExtractItem(e, item, naming, index).Ok?
    ensures var f := ExtractItem(e, item, naming, index).value;
            && AreOutputs(f.outputs) && (ToolsLackIds(f.messages) <==> ToolsLackIds(e.messages))
            && (NoToolMessage(f.messages) <==> NoToolMessage(e.messages) && !IsToolItem(item))
  {
    hide NoToolMessage, ToolsLackIds, AreOutputs, FlushPending, Push;
    FlushParts(e);
    match item
    case TextItem(text) => PushParts(e, PlainMessage(User, Text(text)));
    case CallItem(_, _, _, _, _) =>
    case OutputItem(callId, _, output) => AreOutputsSnoc(FlushPending(e).outputs, callId.value, output);
    case ReasoningItem(summary) => PushParts(e, Message(Assistant, Text(""), [], None, summary));
    case MessageItem(role, content) => PushParts(e, PlainMessage(ItemRole(role), content));
    case AgentMessage(content) =>
      if content.Some? {
        PushParts(e, PlainMessage(User, content.value));
      }
    case PartItem(part) =>
      if part.Some? {
        PushParts(e, PlainMessage(User, part.value));
      }
    case NestedArray(_) =>
    case OtherItem =>
  }

  lemma {:induction false} ExtractItemsParts(start: Extraction, items: seq<InputItem>, n: nat, naming: Naming)
    requires NoToolMessage(start.messages) && AreOutputs(start.outputs) && n <= |items|
    requires ExtractItems(start, items, n, naming).Ok?
    ensures var e := ExtractItems(start, items, n, naming).value;
            && AreOutputs(e.outputs) && ToolsLackIds(e.messages)
            && (NoToolMessage(e.messages) <==> NoToolItems(items[..n]))
    decreases n
  {
    hide ExtractItem, NoToolMessage, AreOutputs, ToolsLackIds, NoToolItems, IsToolItem;
    if n == 0 {
      NothingLacksIds(start.messages);
    } else {
      ExtractItemsParts(start, items, n - 1, naming);
      ExtractItemParts(ExtractItems(start, items, n - 1, naming).value, items[n - 1], naming, n - 1);
      NoToolItemsSnoc(items, n - 1);
    }
  }

  lemma NothingLacksIds(messages: seq<Message>)
    requires NoToolMessage(messages)
    ensures ToolsLackIds(messages) && NoToolItems([])
  {
  }

  lemma NoToolItemsSnoc(items: seq<InputItem>, n: nat)
    requires n < |items|
    ensures NoToolItems(items[..n + 1]) <==> NoToolItems(items[..n]) && !IsToolItem(items[n])
  {
    hide IsToolItem;
    assert items[..n + 1][n] == items[n];
    assert forall i :: 0 <= i < n ==> items[..n + 1][i] == items[..n][i];
  }

  /** Outputs are tool messages with ids; the other messages are in the tool role exactly where the input says so, and
      then lack an id. */
  lemma ExtractedParts(body: Body, naming: Naming)
    requires Extract(body, naming).Ok?
    ensures var request := Extract(body, naming).value;
            && AreOutputs(request.outputs) && ToolsLackIds(request.messages)
            && (NoToolMessage(request.messages) <==> NoToolItems(InputItems(body.input).value))
  {
    hide ExtractItems, FlushPending;
    var items := InputItems(body.input).value;
    ExtractItemsParts(StartOf(body), items, |items|, naming);
    assert items[..|items|] == items;
    FlushParts(ExtractItems(StartOf(body), items, |items|, naming).value);
  }

  /** The part of the input whose messages follow the outputs. */
  ghost function KeptItems(body: Body, outputCallIds: seq<string>): seq<InputItem>
    requires InputItems(body.input).Some?
  {
    if outputCallIds == [] || !body.input.InputArray? || TrimCut(body.input.items, ToSet(outputCallIds)) == None
    then InputItems(body.input).value
    else body.input.items[TrimCut(body.input.items, ToSet(outputCallIds)).value..]
  }

  /** Trimming the input succeeds, and what is left brings a tool message exactly where the items kept say so. */
  lemma TrimmedParts(body: Body, naming: Naming)
    requires Extract(body, naming).Ok?
    ensures var request := Extract(body, naming).value;
            var ids := OutputIds(request.outputs);
            var trimmed := TrimSuffix(body, naming, ids);
            && trimmed.Ok?
            && var messages := trimmed.value.GetOr(request.messages);
               ToolsLackIds(messages) && (NoToolMessage(messages) <==> NoToolItems(KeptItems(body, ids)))
  {
    hide CutAfter, IsMatched, SeenCall, NoToolMessage, AreOutputs, ToolsLackIds, NoToolItems;
    ExtractedParts(body, naming);
    var ids := OutputIds(Extract(body, naming).value.outputs);
    if ids != [] && body.input.InputArray? && TrimCut(body.input.items, ToSet(ids)).Some? {
      TrimmingDropsNoOutput(body, naming);
      var cut := TrimCut(body.input.items, ToSet(ids)).value;
      assert cut <= |body.input.items|;
      ExtractedParts(Body(None, InputArray(body.input.items[cut..]), None), naming);
    }
  }

  /** A history with a tool message that lacks an id is refused. */
  lemma MissingIdRefused(messages: seq<Message>, m: Message)
    requires m in messages && m.role == Tool && !IsCallId(m.toolCallId)
    ensures Validate(messages).Err?
  {
    ValidateMeansOk(messages);
    var i :| 0 <= i < |messages| && messages[i] == m;
    assert !AnswersACall(messages, i);
  }

  /** More messages keep a valid history valid exactly if none is in the tool role, as those lack an id. */
  lemma UnansweringAccepted(messages: seq<Message>, extra: seq<Message>)
    requires Validate(messages).Ok? && ToolsLackIds(extra)
    ensures Validate(messages + extra).Ok? <==> NoToolMessage(extra)
  {
    if NoToolMessage(extra) {
      PlainMessagesAccepted(messages, extra);
    } else {
      var m :| m in extra && m.role == Tool;
      MissingIdRefused(messages + extra, m);
    }
  }

  lemma {:induction false} WeaveKeeps(messages: seq<Message>, outputs: seq<Message>, m: Message)
    requires m in messages
    ensures m in Weave(messages, outputs)
  {
    if m != messages[0] {
      WeaveKeeps(messages[1..], outputs, m);
    }
  }

  lemma UnansweringWeave(messages: seq<Message>, outputs: seq<Message>)
    requires ToolsLackIds(messages) && RepairStateless(messages, outputs).Ok?
    ensures NoToolMessage(messages)
  {
    if !NoToolMessage(messages) {
      var m :| m in messages && m.role == Tool;
      WeaveKeeps(messages, outputs, m);
      MissingIdRefused(Weave(messages, outputs), m);
    }
  }

  lemma {:induction false} OutputIdsNotEmpty(outputs: seq<Message>)
    requires AreOutputs(outputs)
    ensures forall id :: id in OutputIds(outputs) ==> id != ""
    ensures OutputIds(outputs) == [] <==> outputs == []
  {
    if outputs != [] {
      assert outputs[0] in outputs;
      OutputIdsNotEmpty(outputs[1..]);
    }
  }
}
