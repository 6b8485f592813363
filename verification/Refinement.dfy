/** The stream and the whole reply give the same response: however a reply is cut into chunks, the stream assembler ends
    with what `build_response` makes of the whole. */
module Refinement {
  import opened Wrappers
  import opened Text
  import opened Think
  import opened Chat
  import opened Items
  import opened Assembly
  import opened AssemblyFacts
  import opened ThinkKept
  import opened ThinkSplit
  import opened StreamTexts
  import opened Views
  import opened Steps
  import opened Fragments
  import opened Runs
  import opened NonStream

  // ---------- a reply cut into chunks ----------

  /** Fragments of one call: id and name may come in any of them, and more than once; the arguments come in pieces. */
  ghost predicate CutsCall(call: WholeCall, own: seq<CallDelta>) {
    && (forall d :: d in own ==> (d.id == "" || call.id == Some(d.id)) && (d.name == "" || d.name == call.name))
    && (call.id.Some? ==> exists d :: d in own && d.id == call.id.value)
    && (call.name != "" ==> exists d :: d in own && d.name == call.name)
    && ArgumentTexts(own) == call.arguments.GetOr("")
  }

  /** The chunks carry the reply: its texts, its finish reason and, for each call, its fragments at the call's position,
      interleaved in any way. */
  ghost predicate CutsInto(reply: Reply, choices: seq<Choice>) {
    && ReasoningText(choices) == reply.reasoning && ContentText(choices) == reply.content
    && LastFinish(choices) == reply.finishReason
    && forall k: nat :: CutsPosition(reply, Own(AllDeltas(choices), k), k)
  }

  ghost predicate CutsPosition(reply: Reply, own: seq<CallDelta>, k: nat) {
    if k < |reply.toolCalls| then CutsCall(reply.toolCalls[k], own) else own == []
  }

  // ---------- when both forms must agree ----------

  /** An empty id is kept by one form and replaced by the other; missing arguments are "{}" in one and "" in the
      other. */
  predicate IsComparable(cfg: Config, call: WholeCall) {
    call.name != "" ==>
      call.id != Some("") && (call.arguments.Some? || cfg.codec.canon("") == cfg.codec.canon("{}"))
  }

  predicate AllComparable(cfg: Config, reply: Reply) {
    forall i :: 0 <= i < |reply.toolCalls| ==> IsComparable(cfg, reply.toolCalls[i])
  }

  predicate HasNamedCall(calls: seq<WholeCall>) {
    exists i :: 0 <= i < |calls| && calls[i].name != ""
  }

  predicate HasVisibleCall(calls: seq<WholeCall>) {
    exists i :: 0 <= i < |calls| && Trim(calls[i].name) != ""
  }

  /** A blank name counts as a call in one form but does not suppress the answer text in the other. */
  predicate NamesAgree(reply: Reply) {
    HasNamedCall(reply.toolCalls) ==> HasVisibleCall(reply.toolCalls)
  }

  // ---------- the calls ----------

  /** Id and name of a call are those of some fragment. */
  lemma {:induction false} FoldedFromFragments(own: seq<CallDelta>)
    ensures var core := FoldCore(own);
            && (core.callId == "" || exists d :: d in own && d.id == core.callId)
            && (core.name == "" || exists d :: d in own && d.name == core.name)
    decreases |own|
  {
    if own != [] {
      var before, last := own[..|own| - 1], own[|own| - 1];
      FoldedFromFragments(before);
      assert forall d :: d in own <==> d in before || d == last;
    }
  }

  lemma CutCallName(call: WholeCall, own: seq<CallDelta>)
    requires CutsCall(call, own)
    ensures FoldCore(own).name == call.name
  {
    hide FoldCore;
    StartedMeans(own);
    FoldedFromFragments(own);
  }

  /** A named call is replayed alike by both forms exactly if it is comparable. */
  lemma CutCallAgrees(cfg: Config, call: WholeCall, own: seq<CallDelta>, k: nat)
    requires CutsCall(call, own) && call.name != ""
    ensures var core := FoldCore(own);
            && (FinalCall(cfg, k, core) == WholeToolCall(cfg, call, k) <==> IsComparable(cfg, call))
            && (IsComparable(cfg, call) ==>
                  FinalId(k, core) == WholeId(call, k) && FinalArguments(cfg, core) == WholeArguments(cfg, call))
  {
    hide FoldCore;
    CutCallName(call, own);
    StartedMeans(own);
    FoldedFromFragments(own);
  }

  lemma ItemsAgree(cfg: Config, call: WholeCall, own: seq<CallDelta>, k: nat, reasoning: string)
    requires CutsCall(call, own) && IsComparable(cfg, call) && call.name != ""
    ensures Erase(FinalItem(cfg, k, FoldCore(own))) == Erase(WholeItem(cfg, call, k, reasoning))
  {
    hide FoldCore, CutsCall, FinalId, WholeId, FinalArguments, WholeArguments;
    CutCallName(call, own);
    CutCallAgrees(cfg, call, own, k);
  }

  lemma EmptyTogether(a: seq<nat>, b: seq<nat>)
    requires forall k: nat :: k in a <==> k in b
    ensures a == [] <==> b == []
  {
    if a != [] {
      assert a[0] in a;
    }
    if b != [] {
      assert b[0] in b;
    }
  }

  /** Two increasing lists of the same elements are equal. */
  lemma {:induction false} SortedUnique(a: seq<nat>, b: seq<nat>)
    requires forall i, j :: 0 <= i < j < |a| ==> a[i] < a[j]
    requires forall i, j :: 0 <= i < j < |b| ==> b[i] < b[j]
    requires forall k: nat :: k in a <==> k in b
    ensures a == b
  {
    EmptyTogether(a, b);
    if a != [] {
      assert a[0] in a && a[0] in b;
      assert b[0] in b && b[0] in a;
      assert a[0] == b[0];
      forall k: nat ensures k in a[1..] <==> k in b[1..] {
        assert k in a[1..] <==> k in a && k != a[0];
        assert k in b[1..] <==> k in b && k != b[0];
      }
      SortedUnique(a[1..], b[1..]);
    }
  }

  lemma {:induction false} NamedKeysAre(calls: map<nat, Call>, keys: seq<nat>)
    requires forall k :: k in keys ==> k in calls
    requires forall i, j :: 0 <= i < j < |keys| ==> keys[i] < keys[j]
    ensures forall k :: k in NamedKeys(calls, keys) <==> k in keys && !calls[k].done && calls[k].core.name != ""
    ensures forall i, j :: 0 <= i < j < |NamedKeys(calls, keys)| ==>
        NamedKeys(calls, keys)[i] < NamedKeys(calls, keys)[j]
  {
    if keys != [] {
      var k, rest := keys[0], NamedKeys(calls, keys[1..]);
      NamedKeysAre(calls, keys[1..]);
      assert forall j :: j in keys <==> j == k || j in keys[1..];
      forall i | 0 <= i < |rest| ensures k < rest[i] {
        assert rest[i] in rest;
        var j :| 0 <= j < |keys[1..]| && keys[1..][j] == rest[i];
        assert keys[1..][j] == keys[j + 1];
      }
    }
  }

  /** Every position's fragments make the call at that position. */
  ghost predicate CallsCut(reply: Reply, calls: map<nat, Call>) {
    forall k: nat :: CallCut(reply, calls, k)
  }

  ghost predicate CallCut(reply: Reply, calls: map<nat, Call>, k: nat) {
    && (k in calls ==> k < |reply.toolCalls| && !calls[k].done)
    && (k < |reply.toolCalls| && k !in calls ==> reply.toolCalls[k].name == "")
    && (k in calls && k < |reply.toolCalls| ==>
          exists own :: CutsCall(reply.toolCalls[k], own) && calls[k].core == FoldCore(own))
  }

  lemma StreamCallsAreCut(cfg: Config, reply: Reply, choices: seq<Choice>)
    requires CutsInto(reply, choices)
    ensures CallsCut(reply, AfterChoices(cfg, choices).calls)
  {
    hide AfterChoices, Own, AllDeltas, FoldCore;
    CallsAreTheirFragments(cfg, choices);
    var calls := AfterChoices(cfg, choices).calls;
    forall k: nat ensures CallCut(reply, calls, k) {
      var own := Own(AllDeltas(choices), k);
      assert CutsPosition(reply, own, k) && FoldedAt(AfterChoices(cfg, choices), AllDeltas(choices), k);
      if k < |reply.toolCalls| && k in calls {
        assert CutsCall(reply.toolCalls[k], own) && calls[k].core == FoldCore(own);
      }
    }
  }

  lemma NamesOf(reply: Reply, calls: map<nat, Call>, k: nat)
    requires CallsCut(reply, calls)
    ensures k in calls ==> k < |reply.toolCalls| && calls[k].core.name == reply.toolCalls[k].name && !calls[k].done
    ensures k !in calls && k < |reply.toolCalls| ==> reply.toolCalls[k].name == ""
  {
    hide CutsCall, FoldCore;
    assert CallCut(reply, calls, k);
    if k in calls {
      var own :| CutsCall(reply.toolCalls[k], own) && calls[k].core == FoldCore(own);
      CutCallName(reply.toolCalls[k], own);
    }
  }

  lemma KeysAgree(reply: Reply, calls: map<nat, Call>)
    requires CallsCut(reply, calls)
    ensures NamedKeys(calls, SortedKeys(calls.Keys)) == NamedPositions(reply.toolCalls, |reply.toolCalls|)
  {
    hide CallsCut;
    var keys := SortedKeys(calls.Keys);
    NamedKeysAre(calls, keys);
    var named, positions := NamedKeys(calls, keys), NamedPositions(reply.toolCalls, |reply.toolCalls|);
    forall k: nat ensures k in named <==> k in positions {
      NamesOf(reply, calls, k);
      if k in positions {
        var j :| 0 <= j < |positions| && positions[j] == k;
      }
    }
    SortedUnique(named, positions);
  }

  lemma CallAgrees(cfg: Config, reply: Reply, calls: map<nat, Call>, k: nat, reasoning: string)
    requires CallsCut(reply, calls) && k in calls && calls[k].core.name != ""
    ensures k < |reply.toolCalls|
    ensures var call, core := reply.toolCalls[k], calls[k].core;
            && (FinalCall(cfg, k, core) == WholeToolCall(cfg, call, k) <==> IsComparable(cfg, call))
            && (IsComparable(cfg, call) ==>
                  FinalId(k, core) == WholeId(call, k)
                      && Erase(FinalItem(cfg, k, core)) == Erase(WholeItem(cfg, call, k, reasoning)))
  {
    hide CutsCall, FoldCore, FinalItem, FinalId, FinalCall, WholeItem, WholeId, WholeToolCall, Erase, IsComparable;
    assert CallCut(reply, calls, k);
    var call := reply.toolCalls[k];
    var own :| CutsCall(call, own) && calls[k].core == FoldCore(own);
    CutCallName(call, own);
    CutCallAgrees(cfg, call, own, k);
    if IsComparable(cfg, call) {
      ItemsAgree(cfg, call, own, k, reasoning);
    }
  }

  /** The replayed calls are the same exactly if all of them are comparable. */
  lemma CallsAgree(cfg: Config, reply: Reply, calls: map<nat, Call>, keys: seq<nat>)
    requires CallsCut(reply, calls) && keys == NamedPositions(reply.toolCalls, |reply.toolCalls|)
    requires forall k :: k in keys ==> k in calls && calls[k].core.name != ""
    ensures FinalCalls(cfg, calls, keys) == WholeToolCalls(cfg, reply.toolCalls, keys) <==> AllComparable(cfg, reply)
  {
    hide CallsCut, FinalCall, WholeToolCall, NamedPositions;
    forall i | 0 <= i < |keys|
      ensures FinalCall(cfg, keys[i], calls[keys[i]].core) == WholeToolCall(cfg, reply.toolCalls[keys[i]], keys[i])
              <==> IsComparable(cfg, reply.toolCalls[keys[i]])
    {
      CallAgrees(cfg, reply, calls, keys[i], "");
    }
    var streamed, whole := FinalCalls(cfg, calls, keys), WholeToolCalls(cfg, reply.toolCalls, keys);
    if streamed == whole {
      forall k: nat | k < |reply.toolCalls| ensures IsComparable(cfg, reply.toolCalls[k]) {
        if reply.toolCalls[k].name != "" {
          var i :| 0 <= i < |keys| && keys[i] == k;
          assert streamed[i] == whole[i];
        }
      }
    }
  }

  lemma FinalsAgree(cfg: Config, reply: Reply, calls: map<nat, Call>, keys: seq<nat>, reasoning: string)
    requires CallsCut(reply, calls) && AllComparable(cfg, reply)
    requires Within(keys, |reply.toolCalls|) && forall k :: k in keys ==> k in calls && calls[k].core.name != ""
    ensures FinalIds(calls, keys) == WholeIds(reply.toolCalls, keys)
    ensures EraseAll(FinalItems(cfg, calls, keys)) == EraseAll(WholeItems(cfg, reply.toolCalls, keys, reasoning))
  {
    hide CallsCut, FinalItem, FinalId, WholeItem, WholeId, Erase, IsComparable;
    forall i | 0 <= i < |keys|
      ensures FinalId(keys[i], calls[keys[i]].core) == WholeId(reply.toolCalls[keys[i]], keys[i])
      ensures Erase(FinalItem(cfg, keys[i], calls[keys[i]].core))
           == Erase(WholeItem(cfg, reply.toolCalls[keys[i]], keys[i], reasoning))
    {
      CallAgrees(cfg, reply, calls, keys[i], reasoning);
    }
  }

  lemma ToolOutputAgrees(reply: Reply, calls: map<nat, Call>)
    requires CallsCut(reply, calls)
    ensures HasToolOutput(calls) <==> HasVisibleCall(reply.toolCalls)
  {
    hide CallsCut, Trim, HasToolOutput;
    HasToolOutputMeans(calls);
    TrimNothing();
    if HasToolOutput(calls) {
      var k :| k in calls && !calls[k].done && Trim(calls[k].core.name) != "";
      NamesOf(reply, calls, k);
    }
    if HasVisibleCall(reply.toolCalls) {
      var i :| 0 <= i < |reply.toolCalls| && Trim(reply.toolCalls[i].name) != "";
      NamesOf(reply, calls, i);
    }
  }

  lemma NamedMeans(calls: seq<WholeCall>)
    ensures NamedPositions(calls, |calls|) != [] <==> HasNamedCall(calls)
    ensures HasVisibleCall(calls) ==> HasNamedCall(calls)
  {
    hide Trim;
    TrimNothing();
    var positions := NamedPositions(calls, |calls|);
    if i :| 0 <= i < |calls| && calls[i].name != "" {
      assert i in positions;
    }
    if positions != [] {
      assert positions[0] in positions;
    }
  }

  // ---------- the theorem ----------

  /** The answer text is put out by both forms or by neither, unless all names are blank and some is not empty. */
  lemma MessageAgrees(reply: Reply, calls: map<nat, Call>)
    requires CallsCut(reply, calls)
    ensures NamesAgree(reply) <==>
            (NamedPositions(reply.toolCalls, |reply.toolCalls|) != [] ==> HasToolOutput(calls))
    ensures HasToolOutput(calls) ==> NamedPositions(reply.toolCalls, |reply.toolCalls|) != []
  {
    hide CallsCut, HasToolOutput, HasNamedCall, HasVisibleCall, NamedPositions;
    ToolOutputAgrees(reply, calls);
    NamedMeans(reply.toolCalls);
  }

  /** The records agree exactly if the texts do and all calls are comparable. */
  lemma RecordsAgree(cfg: Config, reply: Reply, head: Asm)
    requires CallsCut(reply, head.calls)
    ensures SameRecord(Record(cfg, head), WholeRecord(cfg, reply))
       <==> (head.reasoning, head.content) == Texts(reply) && AllComparable(cfg, reply)
  {
    hide CallsCut, AllComparable, NamedKeys, NamedPositions, SortedKeys, FinalItems, FinalIds, FinalCalls, WholeItems,
         WholeIds, WholeToolCalls, Texts, WholeOutput, Output;
    var keys := NamedPositions(reply.toolCalls, |reply.toolCalls|);
    KeysAgree(reply, head.calls);
    CallsAgree(cfg, reply, head.calls, keys);
    if AllComparable(cfg, reply) {
      FinalsAgree(cfg, reply, head.calls, keys, "");
    }
    LastMessages(cfg.baseMessages, AssistantMessage(cfg, head), WholeMessage(cfg, reply));
  }

  lemma LastMessages(base: seq<Message>, one: Message, two: Message)
    ensures base + [one] == base + [two] <==> one == two
  {
    assert (base + [one])[|base|] == one && (base + [two])[|base|] == two;
  }

  lemma OutputsAgree(cfg: Config, reply: Reply, head: Asm)
    requires CallsCut(reply, head.calls) && AllComparable(cfg, reply)
    requires (head.reasoning, head.content) == Texts(reply)
    ensures EraseAll(Output(cfg, head)) == EraseAll(WholeOutput(cfg, reply))
        <==> NamesAgree(reply) || Texts(reply).1 == ""
  {
    hide CallsCut, AllComparable, NamesAgree, HasToolOutput, NamedKeys, NamedPositions, SortedKeys, FinalItems,
         FinalIds, FinalCalls, WholeItems, EraseAll, Texts;
    var calls, keys := head.calls, NamedPositions(reply.toolCalls, |reply.toolCalls|);
    KeysAgree(reply, calls);
    FinalsAgree(cfg, reply, calls, keys, head.reasoning);
    var thought := if head.reasoning != "" then [ReasoningItem(ReasoningId, head.reasoning)] else [];
    MessageAgrees(reply, calls);
    var message := if head.content != "" && keys == [] then [MessageItem(MessageId, Completed, head.content)] else [];
    if !NamesAgree(reply) && head.content != "" {
      assert |Output(cfg, head)| == |WholeOutput(cfg, reply)| + 1;
      return;
    }
    assert HeadItems(head) == thought + message;
    OrdersAgree(thought, FinalItems(cfg, calls, keys), WholeItems(cfg, reply.toolCalls, keys, head.reasoning), message);
  }

  /** One form puts the message before the calls, the other after them; there is never both. */
  lemma OrdersAgree(thought: seq<Item>, streamed: seq<Item>, whole: seq<Item>, message: seq<Item>)
    requires EraseAll(streamed) == EraseAll(whole) && (message == [] || streamed == [])
    ensures EraseAll(thought + message + streamed) == EraseAll(thought + whole + message)
  {
    hide EraseAll;
    assert |EraseAll(streamed)| == |streamed| && |EraseAll(whole)| == |whole|;
    if message == [] {
      assert thought + message == thought && thought + whole + message == thought + whole;
      EraseAllAppend(thought, streamed);
      EraseAllAppend(thought, whole);
    } else {
      assert thought + message + streamed == thought + message && thought + whole == thought;
    }
  }

  /** The same response but for the output list, random ids aside. */
  predicate SameRecord(streamed: StoredResponse, whole: StoredResponse) {
    && streamed.pendingCallIds == whole.pendingCallIds
    && streamed.messages == whole.messages
    && streamed.responseId == whole.responseId && streamed.createdAt == whole.createdAt
    && streamed.previousResponseId == whole.previousResponseId
  }

  /** However a reply is cut into chunks, its texts and its calls interleaved in any way, the stream announces the
      status of the whole reply. It stores the conversation and the pending ids that the non-streaming conversion
      stores exactly if the cutting keeps the texts and all named calls are comparable. Its output, up to random item
      ids and copies of the reasoning, is then the same too, exactly unless there is answer text and all named calls
      have blank names. */
  lemma StreamRefinesWholeReply(cfg: Config, reply: Reply, choices: seq<Choice>)
    requires CutsInto(reply, choices)
    ensures var b, whole := Finalize(cfg, AfterChoices(cfg, choices), true).0, WholeRecord(cfg, reply);
            && |b.stored| == 1
            && (SameRecord(b.stored[0], whole) <==> TextsKept(choices) && AllComparable(cfg, reply))
            && (SameRecord(b.stored[0], whole) ==>
                  (EraseAll(b.stored[0].output) == EraseAll(whole.output) <==>
                   NamesAgree(reply) || Texts(reply).1 == ""))
            && b.log != []
            && AnnouncesResponse(b, reply.finishReason)
  {
    hide AfterChoices, FinishHead, Finalize, RunFlush, RunChoices, CutsPosition, AllComparable, CallsCut, TextsKept,
         SplitStream, Output, OutputKeys, FinalIds, AssistantMessage, WholeOutput, WholeMessage, NamesAgree, Texts,
         EraseAll, SameRecord;
    var a := AfterChoices(cfg, choices);
    StreamUnfinished(cfg, choices);
    FinalizeEnds(cfg, a, true);
    ViewChoices(cfg, choices);
    HeadSteps(cfg, a);
    StreamIsSplit(choices);
    TextsAgree(reply, choices);
    StreamCallsAreCut(cfg, reply, choices);
    RecordsAgree(cfg, reply, FinishHead(cfg, a));
    if TextsKept(choices) && AllComparable(cfg, reply) {
      OutputsAgree(cfg, reply, FinishHead(cfg, a));
    }
  }

  // ---------- every reply can be cut ----------

  predicate IsUnclosed(content: string) {
    HasLeadingOpenTag(content) && Find(AfterOpenTag(content), CLOSE_TAG) == None
  }

  function WholeDelta(call: WholeCall, k: nat): CallDelta {
    CallDelta(Some(k), call.id.GetOr(""), call.name, call.arguments.GetOr(""))
  }

  /** All calls in one array, each in one fragment. */
  function WholeDeltas(calls: seq<WholeCall>, n: nat): (deltas: seq<CallDelta>)
    requires n <= |calls|
  {
    if n == 0 then [] else WholeDeltas(calls, n - 1) + [WholeDelta(calls[n - 1], n - 1)]
  }

  function OneChunk(reply: Reply): Choice {
    Choice(reply.reasoning, reply.content, Some(WholeDeltas(reply.toolCalls, |reply.toolCalls|)), reply.finishReason)
  }

  lemma OwnOfNothing(k: nat)
    ensures Own([], k) == []
  {
  }

  lemma {:induction false} OwnWholeDeltas(calls: seq<WholeCall>, n: nat, k: nat)
    requires n <= |calls|
    ensures Own(WholeDeltas(calls, n), k) == if k < n then [WholeDelta(calls[k], k)] else []
  {
    hide Own;
    if n == 0 {
      OwnOfNothing(k);
    } else {
      OwnWholeDeltas(calls, n - 1, k);
      OwnSnoc(WholeDeltas(calls, n - 1), WholeDelta(calls[n - 1], n - 1), k);
    }
  }

  lemma OneFragmentCuts(call: WholeCall, k: nat)
    ensures CutsCall(call, [WholeDelta(call, k)])
  {
    var own := [WholeDelta(call, k)];
    assert own[0] in own;
    assert own[..0] == [] && "" + own[0].arguments == own[0].arguments;
  }

  /** Sending a reply whole in one chunk is one way of cutting it; then only an unclosed think block is read
      otherwise. */
  lemma EveryReplyCanBeCut(reply: Reply)
    ensures CutsInto(reply, [OneChunk(reply)])
    ensures TextsKept([OneChunk(reply)]) <==> reply.reasoning != "" || !IsUnclosed(reply.content)
  {
    hide CutsCall, WholeDeltas, TextsKept;
    var choices := [OneChunk(reply)];
    OneChunkTexts(OneChunk(reply));
    forall k: nat ensures CutsPosition(reply, Own(AllDeltas(choices), k), k) {
      OwnWholeDeltas(reply.toolCalls, |reply.toolCalls|, k);
      if k < |reply.toolCalls| {
        OneFragmentCuts(reply.toolCalls[k], k);
      }
    }
    OneChunkKept(OneChunk(reply));
  }

  lemma OneChunkTexts(choice: Choice)
    ensures ReasoningText([choice]) == choice.reasoning && ContentText([choice]) == choice.content
    ensures AllDeltas([choice]) == choice.toolCalls.GetOr([]) && LastFinish([choice]) == choice.finishReason
  {
    assert [choice][..0] == [];
    assert "" + choice.reasoning == choice.reasoning && "" + choice.content == choice.content;
    assert [] + choice.toolCalls.GetOr([]) == choice.toolCalls.GetOr([]);
  }

  lemma OneChunkDetected(choice: Choice)
    ensures Detected([choice]) == if choice.reasoning != "" then [] else [choice.content]
    ensures choice.reasoning == "" ==> Undetected([choice]) == ""
  {
    hide ReasoningText, ContentText;
    OneChunkTexts(choice);
    FlattenCons(choice.content, []);
    FlattenNothing();
    assert [choice][..0] == [] && choice.content + "" == choice.content && [choice.content] + [] == [choice.content];
  }

  lemma OneChunkKept(choice: Choice)
    ensures TextsKept([choice]) <==> choice.reasoning != "" || !IsUnclosed(choice.content)
  {
    hide HasLeadingOpenTag, BlockIsKept, IsUnclosed, ReasoningText, Detected, Undetected, Flatten;
    OneChunkTexts(choice);
    OneChunkDetected(choice);
    NoTagInNothing();
    FlattenNothing();
    OneChunkBlock(choice.content);
  }

  lemma OneChunkBlock(content: string)
    ensures BlockIsKept([content], "") <==> !IsUnclosed(content)
  {
    hide HasLeadingOpenTag, AfterOpenTag, BodyIsKept, Find, Flatten, FromOpenTag, SplitThinkBody;
    FlattenNothing();
    FlattenCons(content, []);
    assert [content] + [] == [content] && content + "" == content;
    OneChunkOpens(content);
    if HasLeadingOpenTag(content) {
      OnePieceIsKept(AfterOpenTag(content));
    }
  }

  lemma OneChunkOpens(content: string)
    ensures FromOpenTag("", [content])
        == if HasLeadingOpenTag(content) then Some([AfterOpenTag(content)]) else None
  {
    hide HasLeadingOpenTag, AfterOpenTag;
    NoTagInNothing();
    assert "" + content == content;
    assert HasLeadingOpenTag(content) ==> [AfterOpenTag(content)] + [] == [AfterOpenTag(content)];
  }

  lemma OnePieceIsKept(body: string)
    ensures BodyIsKept([body], "") <==> Find(body, CLOSE_TAG).Some?
  {
    hide Find, StripAnswerSeparator, ThoughtIsKept;
    FlattenCons(body, []);
    FoundFits(body);
    assert [body] + [] == [body] && body + "" == body && StripAnswerSeparator("") == "";
  }

  /** Content that arrives in one piece without explicit reasoning is split as the whole reply is, unless it opens a
      think block and never closes it: the stream then takes all of it for reasoning, the whole reply keeps it as the
      answer. */
  lemma OnePieceAgrees(content: string)
    ensures var r := RunFlush(RunChoices(INITIAL_RUN, [Choice("", content, None, None)]));
            (r.reasoning, r.content) == Texts(Reply("", content, [], None)) <==> !IsUnclosed(content)
  {
    hide RunChoices, RunFlush, Texts, SplitStream, IsUnclosed;
    var choice := Choice("", content, None, None);
    OneChunkTexts(choice);
    StreamIsSplit([choice]);
    TextsAgree(Reply("", content, [], None), [choice]);
    OneChunkKept(choice);
  }

  // ---------- replies that the forms treat differently ----------

  lemma {:induction false} OneChunkOutcome(cfg: Config, reply: Reply)
    requires !IsUnclosed(reply.content)
    ensures var b, whole := Finalize(cfg, AfterChoices(cfg, [OneChunk(reply)]), true).0, WholeRecord(cfg, reply);
            && |b.stored| == 1
            && (SameRecord(b.stored[0], whole) <==> AllComparable(cfg, reply))
            && (SameRecord(b.stored[0], whole) ==>
                  (EraseAll(b.stored[0].output) == EraseAll(whole.output) <==>
                   NamesAgree(reply) || Texts(reply).1 == ""))
  {
    hide *;
    EveryReplyCanBeCut(reply);
    StreamRefinesWholeReply(cfg, reply, [OneChunk(reply)]);
  }

  /** Even in one chunk: an empty id, or missing arguments that the canonical form tells from "{}", make the records
      differ; a blank name beside an answer makes the outputs differ, though the records agree. */
  lemma FormsMayDiffer(cfg: Config)
    ensures var emptyId, missing, blank :=
              Reply("", "x", [WholeCall(Some(""), "f", Some("{}"))], None),
              Reply("", "x", [WholeCall(Some("c"), "f", None)], None),
              Reply("", "x", [WholeCall(Some("c"), " ", Some("{}"))], None);
            && Differs(cfg, emptyId)
            && (Differs(cfg, missing) <==> cfg.codec.canon("") != cfg.codec.canon("{}"))
            && !Differs(cfg, blank) && OutputDiffers(cfg, blank)
  {
    hide HasLeadingOpenTag, SplitLeadingThinkBlock, Finalize, AfterChoices, WholeRecord, SameRecord, EraseAll,
         IsUnclosed, Trim, OneChunk;
    assert !IsUnclosed("x") && SplitLeadingThinkBlock("x") == None by { NoTagInLetter(); }
    assert Trim(" ") == "" by { OneSpace(); }
    var f := WholeCall(Some(""), "f", Some("{}"));
    OneChunkOutcome(cfg, Reply("", "x", [f], None));
    assert !AllComparable(cfg, Reply("", "x", [f], None)) by { assert [f][0] == f; }
    OneChunkOutcome(cfg, Reply("", "x", [WholeCall(Some("c"), "f", None)], None));
    assert AllComparable(cfg, Reply("", "x", [WholeCall(Some("c"), "f", None)], None))
      <==> cfg.codec.canon("") == cfg.codec.canon("{}") by {
      assert [WholeCall(Some("c"), "f", None)][0].name == "f";
    }
    var blank := WholeCall(Some("c"), " ", Some("{}"));
    OneChunkOutcome(cfg, Reply("", "x", [blank], None));
    assert [blank][0] == blank;
  }

  ghost predicate Differs(cfg: Config, reply: Reply) {
    var b := Finalize(cfg, AfterChoices(cfg, [OneChunk(reply)]), true).0;
    |b.stored| != 1 || !SameRecord(b.stored[0], WholeRecord(cfg, reply))
  }

  ghost predicate OutputDiffers(cfg: Config, reply: Reply) {
    var b := Finalize(cfg, AfterChoices(cfg, [OneChunk(reply)]), true).0;
    |b.stored| != 1 || EraseAll(b.stored[0].output) != EraseAll(WholeRecord(cfg, reply).output)
  }

  lemma NoTagInLetter()
    ensures !IsUnclosed("x") && SplitLeadingThinkBlock("x") == None
  {
    assert TrimStart("x") == "x";
  }

  lemma OneSpace()
    ensures Trim(" ") == ""
  {
  }
}
