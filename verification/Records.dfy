/** What the stored record of an answer holds: the history it adds agrees with the output that the client gets, and
    with what the upstream sent. */
module Records {
  import opened Wrappers
  import opened Text
  import opened Think
  import opened ThinkKept
  import opened Chat
  import opened Items
  import opened SafeNames
  import opened Assembly
  import opened Steps
  import opened Views
  import opened StreamTexts
  import opened Fragments
  import opened NonStream
  import R = Refinement

  // ---------- output and history ----------

  predicate IsCallItem(item: Item) {
    item.FunctionCallItem? || item.CustomCallItem? || item.SearchCallItem?
  }

  /** The calls among the items, in order. */
  function CallItems(items: seq<Item>): seq<Item> {
    if items == [] then [] else (if IsCallItem(items[0]) then [items[0]] else []) + CallItems(items[1..])
  }

  /** The item is what the client gets for this call: completed, with its id, and as a call of the tool it was made
      to. */
  predicate IsItemOf(cfg: Config, call: ToolCall, item: Item) {
    && IsCallItem(item) && call.id == Some(item.callId)
    && item == ToolItem(cfg.tools, cfg.codec, item.id, Completed, item.callId, call.name, call.arguments,
                        item.reasoningCopy)
  }

  /** The last message of the history says what the output says: its reasoning, its text unless calls take its place,
      and its calls one for one and in order, whose ids are the pending ones. */
  ghost predicate Agrees(cfg: Config, r: StoredResponse)
    requires r.messages != []
  {
    var m, calls := r.messages[|r.messages| - 1], CallItems(r.output);
    && m.role == Assistant && m.content.Text? && m.toolCallId == None
    && (forall item :: item in r.output && item.ReasoningItem? ==> item.text == m.reasoning)
    && (m.reasoning != "" <==> r.output != [] && r.output[0].ReasoningItem?)
    && (forall item :: item in r.output && item.MessageItem? ==>
          item.status == Completed && item.text == m.content.text)
    && |calls| == |m.toolCalls| == |r.pendingCallIds|
    && forall j :: 0 <= j < |calls| ==>
         IsItemOf(cfg, m.toolCalls[j], calls[j]) && r.pendingCallIds[j] == calls[j].callId
  }

  lemma {:induction false} CallItemsAppend(a: seq<Item>, b: seq<Item>)
    ensures CallItems(a + b) == CallItems(a) + CallItems(b)
  {
    if a == [] {
      assert a + b == b && [] + CallItems(b) == CallItems(b);
    } else {
      assert (a + b)[0] == a[0] && (a + b)[1..] == a[1..] + b;
      CallItemsAppend(a[1..], b);
      ConcatAssoc(if IsCallItem(a[0]) then [a[0]] else [], CallItems(a[1..]), CallItems(b));
    }
  }

  lemma {:induction false} AllCallItems(items: seq<Item>)
    ensures (forall item :: item in items ==> IsCallItem(item)) ==> CallItems(items) == items
    ensures (forall item :: item in items ==> !IsCallItem(item)) ==> CallItems(items) == []
  {
    if items != [] {
      AllCallItems(items[1..]);
      assert items[0] in items && items == [items[0]] + items[1..];
    }
  }

  lemma ToolItemIs(cfg: Config, id: ItemId, callId: string, name: string, arguments: string, copy: string)
    ensures var item := ToolItem(cfg.tools, cfg.codec, id, Completed, callId, name, arguments, copy);
            IsCallItem(item) && item.id == id && item.callId == callId && item.reasoningCopy == copy
  {
  }

  lemma StreamedCalls(cfg: Config, calls: map<nat, Call>, keys: seq<nat>)
    requires forall k :: k in keys ==> k in calls
    ensures var items, replay, ids := FinalItems(cfg, calls, keys), FinalCalls(cfg, calls, keys), FinalIds(calls, keys);
            forall j :: 0 <= j < |keys| ==> IsItemOf(cfg, replay[j], items[j]) && ids[j] == items[j].callId
  {
    hide ToolItem, FinalArguments, FinalId;
    forall j | 0 <= j < |keys|
      ensures IsItemOf(cfg, FinalCalls(cfg, calls, keys)[j], FinalItems(cfg, calls, keys)[j])
      ensures FinalIds(calls, keys)[j] == FinalItems(cfg, calls, keys)[j].callId
    {
      var core := calls[keys[j]].core;
      ToolItemIs(cfg, CallItemId(keys[j]), FinalId(keys[j], core), core.name, FinalArguments(cfg, core), "");
    }
  }

  lemma WholeCalls(cfg: Config, calls: seq<WholeCall>, positions: seq<nat>, reasoning: string)
    requires Within(positions, |calls|)
    ensures var items, replay := WholeItems(cfg, calls, positions, reasoning), WholeToolCalls(cfg, calls, positions);
            forall j :: 0 <= j < |positions| ==>
              && IsItemOf(cfg, replay[j], items[j]) && WholeIds(calls, positions)[j] == items[j].callId
              && items[j].reasoningCopy == reasoning
  {
    hide ToolItem, WholeArguments, WholeId;
    forall j | 0 <= j < |positions|
      ensures IsItemOf(cfg, WholeToolCalls(cfg, calls, positions)[j], WholeItems(cfg, calls, positions, reasoning)[j])
      ensures WholeIds(calls, positions)[j] == WholeItems(cfg, calls, positions, reasoning)[j].callId
      ensures WholeItems(cfg, calls, positions, reasoning)[j].reasoningCopy == reasoning
    {
      var p := positions[j];
      ToolItemIs(cfg, DerivedId(WholeId(calls[p], p)), WholeId(calls[p], p), calls[p].name,
          WholeArguments(cfg, calls[p]), reasoning);
    }
  }

  /** Items that are no calls: the reasoning in front, the text before or after the calls. */
  ghost predicate AreParts(m: Message, reasoning: seq<Item>, before: seq<Item>, after: seq<Item>)
    requires m.content.Text?
  {
    && reasoning == (if m.reasoning != "" then [ReasoningItem(ReasoningId, m.reasoning)] else [])
    && (before == [] || before == [MessageItem(MessageId, Completed, m.content.text)])
    && (after == [] || after == [MessageItem(MessageId, Completed, m.content.text)])
  }

  lemma PartsAgree(cfg: Config, r: StoredResponse, m: Message, reasoning: seq<Item>, before: seq<Item>,
                   calls: seq<Item>, after: seq<Item>)
    requires r.messages != [] && r.messages[|r.messages| - 1] == m
    requires m.role == Assistant && m.content.Text? && m.toolCallId == None
    requires r.output == reasoning + before + calls + after && AreParts(m, reasoning, before, after)
    requires |calls| == |m.toolCalls| == |r.pendingCallIds|
    requires forall j :: 0 <= j < |calls| ==>
               IsItemOf(cfg, m.toolCalls[j], calls[j]) && r.pendingCallIds[j] == calls[j].callId
    ensures Agrees(cfg, r)
  {
    hide IsItemOf;
    ItemsAreCalls(cfg, m.toolCalls, calls);
    CallsAmong(m, reasoning, before, calls, after);
    ItemsAmong(m, reasoning, before, calls, after);
    FirstItem(m, reasoning, before, calls, after);
    hide CallItems, AreParts;
  }

  lemma CallsAmong(m: Message, reasoning: seq<Item>, before: seq<Item>, calls: seq<Item>, after: seq<Item>)
    requires m.content.Text? && AreParts(m, reasoning, before, after)
    requires forall item :: item in calls ==> IsCallItem(item)
    ensures CallItems(reasoning + before + calls + after) == calls
  {
    AllCallItems(calls);
    AllCallItems(reasoning);
    AllCallItems(before);
    AllCallItems(after);
    hide CallItems;
    CallItemsAppend(reasoning, before);
    CallItemsAppend(reasoning + before, calls);
    CallItemsAppend(reasoning + before + calls, after);
    assert [] + calls == calls && calls + [] == calls;
  }

  lemma ItemsAmong(m: Message, reasoning: seq<Item>, before: seq<Item>, calls: seq<Item>, after: seq<Item>)
    requires m.content.Text? && AreParts(m, reasoning, before, after)
    requires forall item :: item in calls ==> IsCallItem(item)
    ensures forall item :: item in reasoning + before + calls + after ==>
              && (item.ReasoningItem? ==> item.text == m.reasoning)
              && (item.MessageItem? ==> item.status == Completed && item.text == m.content.text)
  {
    forall item | item in reasoning + before + calls + after
      ensures item.ReasoningItem? ==> item.text == m.reasoning
      ensures item.MessageItem? ==> item.status == Completed && item.text == m.content.text
    {
      assert item in reasoning || item in before || item in calls || item in after;
    }
  }

  lemma FirstItem(m: Message, reasoning: seq<Item>, before: seq<Item>, calls: seq<Item>, after: seq<Item>)
    requires m.content.Text? && AreParts(m, reasoning, before, after)
    requires forall item :: item in calls ==> IsCallItem(item)
    ensures var output := reasoning + before + calls + after;
            m.reasoning != "" <==> output != [] && output[0].ReasoningItem?
  {
    var output := reasoning + before + calls + after;
    if m.reasoning == "" && output != [] {
      assert output == before + calls + after;
      assert output[0] in before || output[0] in calls || output[0] in after;
    }
  }

  lemma ItemsAreCalls(cfg: Config, replay: seq<ToolCall>, items: seq<Item>)
    requires |items| == |replay| && forall j :: 0 <= j < |items| ==> IsItemOf(cfg, replay[j], items[j])
    ensures forall item :: item in items ==> IsCallItem(item)
  {
    hide ToolItem;
  }

  /** For every state of the assembler, hence for every stream. */
  lemma StreamedRecordAgrees(cfg: Config, a: Asm)
    ensures Agrees(cfg, Record(cfg, a))
  {
    hide FinalItems, FinalCalls, FinalIds, IsItemOf, HasToolOutput, OutputKeys, Agrees;
    var r, m, keys := Record(cfg, a), AssistantMessage(cfg, a), OutputKeys(a);
    var text :=
      if a.content != "" && !HasToolOutput(a.calls) then [MessageItem(MessageId, Completed, a.content)] else [];
    var reasoning := if a.reasoning != "" then [ReasoningItem(ReasoningId, a.reasoning)] else [];
    StreamedCalls(cfg, a.calls, keys);
    assert reasoning + text + FinalItems(cfg, a.calls, keys) + [] == Output(cfg, a);
    PartsAgree(cfg, r, m, reasoning, text, FinalItems(cfg, a.calls, keys), []);
  }

  /** For every whole reply. */
  lemma WholeRecordAgrees(cfg: Config, reply: Reply)
    ensures Agrees(cfg, WholeRecord(cfg, reply))
    ensures forall item :: item in WholeOutput(cfg, reply) && IsCallItem(item) ==>
              item.reasoningCopy == WholeMessage(cfg, reply).reasoning
  {
    hide WholeItems, WholeToolCalls, WholeIds, IsItemOf, Agrees, Texts;
    var r, m := WholeRecord(cfg, reply), WholeMessage(cfg, reply);
    var positions := NamedPositions(reply.toolCalls, |reply.toolCalls|);
    hide NamedPositions;
    var (thought, answer) := Texts(reply);
    var text := if answer != "" && positions == [] then [MessageItem(MessageId, Completed, answer)] else [];
    var reasoning := if thought != "" then [ReasoningItem(ReasoningId, thought)] else [];
    var items := WholeItems(cfg, reply.toolCalls, positions, thought);
    WholeCalls(cfg, reply.toolCalls, positions, thought);
    assert reasoning + [] + items + text == WholeOutput(cfg, reply);
    PartsAgree(cfg, r, m, reasoning, [], items, text);
    forall item | item in WholeOutput(cfg, reply) && IsCallItem(item) ensures item.reasoningCopy == thought {
      assert item in reasoning || item in items || item in text;
      var j :| 0 <= j < |items| && items[j] == item;
    }
  }

  // ---------- what the upstream sent ----------

  /** The call that the fragments of index `k` make: under their last id that came in time, or a generated one, with
      all arguments in canonical form. */
  ghost predicate IsMadeOf(cfg: Config, own: seq<CallDelta>, k: nat, call: ToolCall) {
    && call.id == Some(if FoldCore(own).callId != "" then FoldCore(own).callId else "call_" + Decimal(k))
    && call.name == FoldCore(own).name && call.arguments == cfg.codec.canon(ArgumentTexts(own))
  }

  /** Exactly the indexes that got a name, in increasing order. */
  ghost predicate AreNamed(deltas: seq<CallDelta>, keys: seq<nat>) {
    && (forall k: nat :: k in keys <==> exists d :: d in Own(deltas, k) && d.name != "")
    && forall i, j :: 0 <= i < j < |keys| ==> keys[i] < keys[j]
  }

  /** The record of a stream holds the texts and the calls that the upstream sent: the texts as the splitter leaves
      them, and one call for each index that got a name. */
  lemma StreamIsRecorded(cfg: Config, choices: seq<Choice>) returns (keys: seq<nat>)
    ensures AreNamed(AllDeltas(choices), keys)
    ensures var m := AssistantMessage(cfg, FinishHead(cfg, AfterChoices(cfg, choices)));
            && (m.reasoning, AsText(m.content)) == SplitStream(choices)
            && |m.toolCalls| == |keys|
            && forall j :: 0 <= j < |keys| ==> IsMadeOf(cfg, Own(AllDeltas(choices), keys[j]), keys[j], m.toolCalls[j])
  {
    hide AfterChoices, FinishHead, RunFlush, RunChoices, SplitStream, FoldCore, Own, AllDeltas, Folded, SortedKeys,
         NamedKeys, HasToolOutput;
    var a, deltas := AfterChoices(cfg, choices), AllDeltas(choices);
    var head := FinishHead(cfg, a);
    ViewChoices(cfg, choices);
    HeadSteps(cfg, a);
    StreamIsSplit(choices);
    assert (head.reasoning, head.content) == SplitStream(choices);
    CallsAreTheirFragments(cfg, choices);
    R.NamedKeysAre(head.calls, SortedKeys(head.calls.Keys));
    keys := OutputKeys(head);
    assert forall k: nat :: k in keys <==> k in a.calls && !a.calls[k].done && a.calls[k].core.name != "";
    forall k: nat ensures k in keys <==> exists d :: d in Own(deltas, k) && d.name != "" {
      assert FoldedAt(a, deltas, k) by { FoldedHolds(a, deltas, k); }
      StartedMeans(Own(deltas, k));
    }
    forall j | 0 <= j < |keys|
      ensures IsMadeOf(cfg, Own(deltas, keys[j]), keys[j], FinalCalls(cfg, head.calls, keys)[j])
    {
      FoldedHolds(a, deltas, keys[j]);
      StartedMeans(Own(deltas, keys[j]));
    }
  }

  lemma FoldedHolds(a: Asm, deltas: seq<CallDelta>, k: nat)
    requires Folded(a, deltas)
    ensures FoldedAt(a, deltas, k)
  {
  }

  /** The thought and the answer of a whole reply: explicit reasoning and content as they are; otherwise those of the
      think block that the content begins with, or all content as answer if it has no whole one. */
  ghost predicate ReadsAs(reply: Reply, thought: string, answer: string) {
    if reply.reasoning != "" then thought == reply.reasoning && answer == reply.content
    else if "<think>" <= TrimStart(reply.content) && Find(TrimStart(reply.content)[7..], "</think>").Some? then
      var body := TrimStart(reply.content)[7..];
      var i := Find(body, "</think>").value;
      thought == Trim(body[..i]) && i + 8 <= |body| && IsAnswer(body[i + 8..], answer)
    else thought == "" && answer == reply.content
  }

  predicate IsSeparator(c: char) {
    c == '\r' || c == '\n' || c == '\t' || c == ' '
  }

  /** The rest without the separators in front. */
  ghost predicate IsAnswer(rest: string, answer: string) {
    && |answer| <= |rest| && rest[|rest| - |answer|..] == answer
    && (forall i :: 0 <= i < |rest| - |answer| ==> IsSeparator(rest[i])) && (answer != "" ==> !IsSeparator(answer[0]))
  }

  lemma {:induction false} StrippedIsAnswer(rest: string)
    ensures IsAnswer(rest, StripAnswerSeparator(rest))
  {
    if rest != "" && IsSeparator(rest[0]) {
      StrippedIsAnswer(rest[1..]);
      assert forall i :: 1 <= i < |rest| ==> rest[i] == rest[1..][i - 1];
    }
  }

  lemma TagIs(content: string)
    ensures HasLeadingOpenTag(content) <==> "<think>" <= TrimStart(content)
    ensures HasLeadingOpenTag(content) ==> AfterOpenTag(content) == TrimStart(content)[7..]
  {
  }

  /** A think block is whole exactly if the close tag comes. */
  lemma BodyReads(body: string)
    ensures match SplitThinkBody(body)
            case None => Find(body, "</think>") == None
            case Some((thought, answer)) =>
              && Find(body, "</think>").Some? && Find(body, "</think>").value + 8 <= |body|
              && thought == Trim(body[..Find(body, "</think>").value])
              && IsAnswer(body[Find(body, "</think>").value + 8..], answer)
  {
    hide Find, Trim, StripAnswerSeparator, IsAnswer;
    FoundFits(body);
    if Find(body, CLOSE_TAG).Some? {
      StrippedIsAnswer(body[Find(body, CLOSE_TAG).value + 8..]);
    }
  }

  lemma TextsRead(reply: Reply)
    ensures ReadsAs(reply, Texts(reply).0, Texts(reply).1)
  {
    hide TrimStart, Trim, Find, SplitThinkBody, IsAnswer, HasLeadingOpenTag, AfterOpenTag;
    TagIs(reply.content);
    if reply.reasoning == "" && HasLeadingOpenTag(reply.content) {
      BodyReads(AfterOpenTag(reply.content));
    }
  }

  /** The call under its own id, or one made from its position, with its arguments, or none, in canonical form. */
  ghost predicate IsCallFrom(cfg: Config, sent: WholeCall, p: nat, call: ToolCall) {
    && call.id == Some(if sent.id.Some? then sent.id.value else "call_" + Decimal(p)) && call.name == sent.name
    && call.arguments == cfg.codec.canon(if sent.arguments.Some? then sent.arguments.value else "{}")
  }

  /** The record of a whole reply holds what the reply says, and one call for each that has a name. */
  lemma WholeReplyIsRecorded(cfg: Config, reply: Reply)
    ensures var m, positions := WholeMessage(cfg, reply), NamedPositions(reply.toolCalls, |reply.toolCalls|);
            && ReadsAs(reply, m.reasoning, AsText(m.content)) && |m.toolCalls| == |positions|
            && forall j :: 0 <= j < |positions| ==>
                 IsCallFrom(cfg, reply.toolCalls[positions[j]], positions[j], m.toolCalls[j])
  {
    hide NamedPositions, Texts, ReadsAs;
    TextsRead(reply);
  }
}
