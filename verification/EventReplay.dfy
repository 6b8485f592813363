/** Replaying the events of a whole stream: when a client can follow it, and when that gives the final response. */
module EventReplay {
  import opened Wrappers
  import opened Text
  import opened Think
  import opened ThinkSplit
  import opened ToolTable
  import opened Items
  import opened Assembly
  import opened AssemblyFacts
  import opened Views
  import opened Steps
  import opened Fragments
  import opened Replay

  /** As `Follows`, with the closed items named. */
  ghost predicate FollowsWith(cfg: Config, a: Asm, items: seq<Item>) {
    && ClientOf(cfg, a).Some?
    && Tracks(cfg, a, ClientOf(cfg, a).value)
    && ClientOf(cfg, a).value.finished == items
  }

  // ---------- finishing one call ----------

  /** A slot whose call can be closed: its fragments were all sent, or none. */
  ghost predicate IsClosable(cfg: Config, c: Client, index: nat, k: nat, core: CallCore) {
    && IsOpen(c, index, CallItemId(k)) && core.callId != "" && c.slots[index].item == NewCall(cfg, k, core)
    && (c.slots[index].text == "" || (!IsCustom(cfg.tools, core.name) && c.slots[index].text == core.arguments))
  }

  ghost predicate ClosesSlot(c: Client, d: Client, index: nat, item: Item) {
    && |d.slots| == |c.slots| && index < |c.slots|
    && d.slots[index].item == c.slots[index].item && d.slots[index].done == Some(item)
    && (forall i :: 0 <= i < |c.slots| && i != index ==> d.slots[i] == c.slots[i])
    && d.finished == c.finished + [item]
  }

  lemma FinalItemId(cfg: Config, k: nat, core: CallCore)
    ensures FinalItem(cfg, k, core).id == CallItemId(k)
    ensures FinalItem(cfg, k, core).FunctionCallItem? || FinalItem(cfg, k, core).CustomCallItem?
            || FinalItem(cfg, k, core).SearchCallItem?
    ensures var item, arguments := FinalItem(cfg, k, core), FinalArguments(cfg, core);
            && (item.CustomCallItem? <==> IsCustom(cfg.tools, core.name))
            && (item.CustomCallItem? ==> item.input == CustomInput(cfg.codec, arguments))
            && (item.FunctionCallItem? ==> item.arguments == arguments)
  {
  }

  lemma CustomDoneClient(cfg: Config, a: Asm, c: Client, k: nat, index: nat, input: string)
    requires ClientOf(cfg, a) == Some(c) && IsOpen(c, index, CallItemId(k)) && c.slots[index].text == ""
    requires c.slots[index].item.CustomCallItem?
    ensures var b := if input != "" then Emit(a, CustomInputDelta(index, CallItemId(k), input)) else a;
            ClientOf(cfg, Emit(b, CustomInputDone(index, CallItemId(k), input)))
            == Some(c.(slots := c.slots[index := c.slots[index].(text := input)]))
  {
    hide Replayed;
    assert "" + input == input;
    var b := if input != "" then Emit(a, CustomInputDelta(index, CallItemId(k), input)) else a;
    EmitStep(cfg, a, CustomInputDelta(index, CallItemId(k), input));
    assert input == "" ==> c.slots[index := c.slots[index].(text := input)] == c.slots;
    EmitStep(cfg, b, CustomInputDone(index, CallItemId(k), input));
  }

  lemma CallDoneClient(cfg: Config, a: Asm, c: Client, k: nat, index: nat, core: CallCore)
    requires ClientOf(cfg, a) == Some(c) && IsClosable(cfg, c, index, k, core)
    ensures ClientOf(cfg, EmitCallDone(cfg, a, k, index, core)).Some?
    ensures ClosesSlot(c, ClientOf(cfg, EmitCallDone(cfg, a, k, index, core)).value, index, FinalItem(cfg, k, core))
  {
    hide ClientOf, Emit, FinalItem, CustomInput, IsCustom, NewItem, Completes, FinalArguments;
    FinalItemId(cfg, k, core);
    NewCallIs(cfg, k, core);
    var item := FinalItem(cfg, k, core);
    if IsCustom(cfg.tools, core.name) {
      var input := CustomInput(cfg.codec, FinalArguments(cfg, core));
      CustomDoneClient(cfg, a, c, k, index, input);
      var b := if input != "" then Emit(a, CustomInputDelta(index, CallItemId(k), input)) else a;
      EmitStep(cfg, Emit(b, CustomInputDone(index, CallItemId(k), input)), ItemDone(index, item));
    } else {
      var done := ArgumentsDone(index, CallItemId(k), core.callId, FinalArguments(cfg, core));
      assert cfg.codec.canon(core.arguments) == FinalArguments(cfg, core) by { CanonIs(cfg, core); }
      EmitStep(cfg, a, done);
      EmitStep(cfg, Emit(a, done), ItemDone(index, item));
    }
  }

  lemma CanonIs(cfg: Config, core: CallCore)
    ensures FinalArguments(cfg, core) == cfg.codec.canon(core.arguments)
  {
  }

  lemma CloseCallFollows(cfg: Config, a: Asm, k: nat, items: seq<Item>, c: Client)
    requires k in a.calls && ClientOf(cfg, a) == Some(c) && c.finished == items
    requires a.calls[k].outputIndex.Some? && a.calls[k].core.added && a.calls[k].core.callId != ""
        && a.calls[k].core.name != ""
    requires IsClosable(cfg, c, a.calls[k].outputIndex.value, k, a.calls[k].core)
    requires TracksBut(cfg, a, c, k)
    ensures FollowsWith(cfg, CloseCall(cfg, a, k), items + [FinalItem(cfg, k, a.calls[k].core)])
    ensures CloseCall(cfg, a, k).calls == a.calls[k := a.calls[k].(done := true)]
  {
    hide Replayed, FinalItem, IsCustom, EmitCallDone, ToolItem;
    var call := a.calls[k];
    var b := a.(calls := a.calls[k := call.(done := true)]);
    CallDoneClient(cfg, b, c, k, call.outputIndex.value, call.core);
    EmitCallDoneKeeps(cfg, b, k, call.outputIndex.value, call.core);
    var e := CloseCall(cfg, a, k);
    TracksClose(cfg, a, c, k, e, ClientOf(cfg, e).value);
  }

  /** Everything is tracked except the slot of one call, which may lag behind. */
  ghost predicate TracksBut(cfg: Config, a: Asm, c: Client, k: nat) {
    && |c.slots| == a.nextIndex
    && ReasoningTracked(a, c)
    && TextTracked(a, c)
    && (forall j :: j in a.calls && j != k ==> CallTracked(cfg, j, a.calls[j], c))
    && Owned(a, c)
  }

  predicate OnlyLogDiffers(a: Asm, b: Asm) {
    b == a.(sequence := b.sequence, log := b.log)
  }

  lemma EmitCallDoneKeeps(cfg: Config, a: Asm, k: nat, index: nat, core: CallCore)
    ensures OnlyLogDiffers(a, EmitCallDone(cfg, a, k, index, core))
  {
    hide FinalItem, IsCustom, CustomInput;
  }

  lemma TracksClose(cfg: Config, a: Asm, c: Client, k: nat, b: Asm, d: Client)
    requires TracksBut(cfg, a, c, k) && k in a.calls && a.calls[k].outputIndex.Some?
    requires a.calls[k].core.added && a.calls[k].core.callId != "" && a.calls[k].core.name != ""
    requires OnlyLogDiffers(a.(calls := a.calls[k := a.calls[k].(done := true)]), b)
    requires IsOpen(c, a.calls[k].outputIndex.value, CallItemId(k))
    requires c.slots[a.calls[k].outputIndex.value].item == NewCall(cfg, k, a.calls[k].core)
    requires ClosesSlot(c, d, a.calls[k].outputIndex.value, FinalItem(cfg, k, a.calls[k].core))
    ensures Tracks(cfg, b, d)
  {
    hide FinalItem, IsCustom, NewItem;
    NewCallIs(cfg, k, a.calls[k].core);
    forall j | j in b.calls ensures CallTracked(cfg, j, b.calls[j], d) {
      if j != k {
        assert CallTracked(cfg, j, a.calls[j], c);
      }
    }
    forall i | 0 <= i < |d.slots| ensures IsOwned(b, i, d.slots[i].item.id) {
      assert IsOwned(a, i, c.slots[i].item.id);
    }
  }

  lemma AnnouncedFollows(cfg: Config, a: Asm, k: nat, items: seq<Item>)
    requires FollowsWith(cfg, a, items) && k in a.calls && !a.calls[k].done && a.calls[k].core.name != ""
    ensures IsAnnounced(cfg, a, k, Announced(cfg, a, k), items)
  {
    hide Replayed, FinalItem, IsCustom, NewItem, ClientStep, StartTool, ClientOf;
    FinalIdStable(k, a.calls[k].core);
    var c := ClientOf(cfg, a).value;
    assert CallTracked(cfg, k, a.calls[k], c);
    if a.calls[k].core.added {
      NewCallIs(cfg, k, a.calls[k].core);
      assert TracksBut(cfg, a, c, k);
    } else {
      AnnouncedLate(cfg, a, k, c);
    }
  }

  /** The call is announced under its final id and can be closed; the others are as before. */
  ghost predicate IsAnnounced(cfg: Config, a: Asm, k: nat, b: Asm, items: seq<Item>)
    requires k in a.calls
  {
    && k in b.calls && ClientOf(cfg, b).Some? && ClientOf(cfg, b).value.finished == items
    && b.calls[k].outputIndex.Some? && b.calls[k].core.added && !b.calls[k].done
    && b.calls[k].core.callId == FinalId(k, a.calls[k].core)
    && b.calls[k].core == a.calls[k].core.(callId := FinalId(k, a.calls[k].core), added := true)
    && IsClosable(cfg, ClientOf(cfg, b).value, b.calls[k].outputIndex.value, k, b.calls[k].core)
    && TracksBut(cfg, b, ClientOf(cfg, b).value, k)
    && (forall j :: j in a.calls && j != k ==> j in b.calls && b.calls[j] == a.calls[j])
  }

  lemma AnnouncedLate(cfg: Config, a: Asm, k: nat, c: Client)
    requires ClientOf(cfg, a) == Some(c) && Tracks(cfg, a, c) && k in a.calls && !a.calls[k].done
    requires !a.calls[k].core.added && a.calls[k].core.name != "" && a.calls[k].outputIndex == None
    ensures IsAnnounced(cfg, a, k, Announced(cfg, a, k), c.finished)
  {
    hide Replayed, FinalItem, IsCustom, NewItem, ClientStep, Tracks, TracksBut, ToolItem;
    FinalIdStable(k, a.calls[k].core);
    var core := a.calls[k].core.(callId := FinalId(k, a.calls[k].core));
    var named := a.(calls := a.calls[k := a.calls[k].(core := core)]);
    assert |c.slots| == a.nextIndex by { TracksSlots(cfg, a, c); }
    StartToolClient(cfg, named, k, c);
    NewCallIs(cfg, k, core);
    var d := Client(c.slots + [Slot(NewCall(cfg, k, core), "", None)], c.finished);
    TracksButStart(cfg, a, c, k, StartTool(cfg, named, k), d);
  }

  lemma TracksSlots(cfg: Config, a: Asm, c: Client)
    requires Tracks(cfg, a, c)
    ensures |c.slots| == a.nextIndex
  {
  }

  lemma TracksButStart(cfg: Config, a: Asm, c: Client, k: nat, b: Asm, d: Client)
    requires Tracks(cfg, a, c) && k in a.calls && a.calls[k].outputIndex == None && k in b.calls
    requires b == a.(nextIndex := a.nextIndex + 1, sequence := b.sequence, log := b.log,
                     calls := a.calls[k := b.calls[k]])
    requires b.calls[k].outputIndex == Some(a.nextIndex)
    requires exists item: Item :: item.id == CallItemId(k) && d.slots == c.slots + [Slot(item, "", None)]
    ensures TracksBut(cfg, b, d, k)
  {
    hide FinalItem, IsCustom, NewItem;
  }

  lemma FinalIdStable(k: nat, core: CallCore)
    ensures FinalId(k, core) != ""
    ensures FinalId(k, core.(callId := FinalId(k, core), added := true)) == FinalId(k, core)
  {
  }

  lemma FinishCallFollows(cfg: Config, a: Asm, k: nat, items: seq<Item>)
    requires FollowsWith(cfg, a, items) && k in a.calls
    ensures var call := a.calls[k];
            FollowsWith(cfg, FinishCall(cfg, a, k),
                        items + if !call.done && call.core.name != "" then [FinalItem(cfg, k, call.core)] else [])
    ensures FinishCall(cfg, a, k).calls[k].done
  {
    hide Replayed, IsCustom, ToolItem, CloseCall, Announced;
    var call := a.calls[k];
    assert items + [] == items;
    if !call.done && call.core.name != "" {
      AnnouncedFollows(cfg, a, k, items);
      FinalIdStable(k, call.core);
      var b := Announced(cfg, a, k);
      CloseCallFollows(cfg, b, k, items, ClientOf(cfg, b).value);
      assert CloseCall(cfg, b, k) == FinishCall(cfg, a, k);
    } else if !call.done {
      MarkDoneFollows(cfg, a, k, items);
    }
  }

  lemma MarkDoneFollows(cfg: Config, a: Asm, k: nat, items: seq<Item>)
    requires FollowsWith(cfg, a, items) && k in a.calls && a.calls[k].core.name == ""
    ensures FollowsWith(cfg, a.(calls := a.calls[k := a.calls[k].(done := true)]), items)
  {
    hide Replayed, IsCustom, FinalItem;
    assert CallTracked(cfg, k, a.calls[k], ClientOf(cfg, a).value);
  }

  // ---------- the whole stream ----------

  lemma {:induction false} FinishCallsMark(cfg: Config, a: Asm, keys: seq<nat>, n: nat)
    requires n <= |keys| && forall k :: k in keys ==> k in a.calls
    requires forall i, j :: 0 <= i < j < |keys| ==> keys[i] < keys[j]
    ensures forall i :: 0 <= i < n ==> FinishCalls(cfg, a, keys, n).calls[keys[i]].done
    ensures forall i :: n <= i < |keys| ==> FinishCalls(cfg, a, keys, n).calls[keys[i]] == a.calls[keys[i]]
    decreases n
  {
    hide FinishCall;
    if n > 0 {
      FinishCallsMark(cfg, a, keys, n - 1);
      FinishCallSteps(cfg, FinishCalls(cfg, a, keys, n - 1), keys[n - 1]);
    }
  }

  lemma {:induction false} FinishCallsFollows(cfg: Config, a: Asm, keys: seq<nat>, n: nat, items: seq<Item>)
    requires FollowsWith(cfg, a, items)
    requires n <= |keys| && forall k :: k in keys ==> k in a.calls
    requires forall i, j :: 0 <= i < j < |keys| ==> keys[i] < keys[j]
    ensures FollowsWith(cfg, FinishCalls(cfg, a, keys, n),
                        items + FinalItems(cfg, a.calls, NamedKeys(a.calls, keys[..n])))
    decreases n
  {
    hide FollowsWith, FinishCall, FinalItem, NamedKeys, FinalItems;
    if n == 0 {
      EmptyFinals(cfg, a.calls);
      assert keys[..0] == [] && items + [] == items;
    } else {
      var m := n - 1;
      FinishCallsFollows(cfg, a, keys, m, items);
      FinishCallsMark(cfg, a, keys, m);
      var b, k := FinishCalls(cfg, a, keys, m), keys[m];
      var named := NamedKeys(a.calls, keys[..m]);
      FinishCallFollows(cfg, b, k, items + FinalItems(cfg, a.calls, named));
      NamedKeysSnoc(a.calls, keys, m);
      FinalsSnoc(cfg, a.calls, named, k);
      ConcatAssoc(items, FinalItems(cfg, a.calls, named), [FinalItem(cfg, k, a.calls[k].core)]);
      assert named + [] == named;
      assert items + FinalItems(cfg, a.calls, named) + [] == items + FinalItems(cfg, a.calls, named);
    }
  }

  // ---------- before the calls are finished ----------

  /** The reasoning item is closed, and so is the text item unless a tool call keeps it back. */
  lemma FinishHeadFollows(cfg: Config, a: Asm)
    requires Follows(cfg, a) && Running(cfg, a)
    ensures var b := FinishHead(cfg, a);
            && Follows(cfg, b) && b.calls == a.calls
            && (b.reasoningDone <==> b.reasoning != "") && (b.reasoningIndex.Some? <==> b.reasoning != "")
            && (b.textDone <==> a.textDone || (b.content != "" && !HasToolOutput(b.calls)))
            && (b.textDone ==> b.content != "")
            && (if Buffered(cfg) then b.textIndex.Some? ==> b.textDone else b.textIndex.Some? <==> b.content != "")
  {
    hide Follows, Flush, HasToolOutput, FinishText, FinishReasoning;
    FlushFollows(cfg, a);
    var b := Flush(cfg, a);
    FinishReasoningFollows(cfg, b);
    FinishReasoningEffect(b);
    ReasoningHasIndex(cfg, b);
    var c := if b.reasoning != "" then FinishReasoning(b) else b;
    FinishTextSteps(cfg, c);
    FinishReasoningSteps(c);
    if c.content != "" && !HasToolOutput(c.calls) {
      if Buffered(cfg) {
        FinishTextFollows(cfg, c);
        FinishTextEffect(cfg, c);
      } else if !c.textDone {
        CloseTextFollows(cfg, c);
      } else {
        AlreadyClosed(cfg, c);
      }
    }
  }

  lemma FinishTextEffect(cfg: Config, a: Asm)
    requires a.content != "" && !a.textDone && (a.reasoning != "" ==> a.reasoningDone)
    ensures var b := FinishText(cfg, a);
            && b.textDone && b.textIndex.Some? && b.content == a.content && b.reasoning == a.reasoning
            && b.reasoningDone == a.reasoningDone && b.reasoningIndex == a.reasoningIndex
  {
    hide EnsureTextStarted, Emit;
    FinishTextSteps(cfg, a);
    TextStartKeepsReasoning(a);
    EnsureTextSteps(a);
    var b := EnsureTextStarted(a);
    var index := b.textIndex.value;
    EmitKeepsHead(b, TextDelta(index, MessageId, b.content));
    var c := if Buffered(cfg) then Emit(b, TextDelta(index, MessageId, b.content)) else b;
    var d := Emit(c, TextDone(index, MessageId, c.content));
    var e := Emit(d, ContentPartDone(index, MessageId, d.content));
    EmitKeepsHead(c, TextDone(index, MessageId, c.content));
    EmitKeepsHead(d, ContentPartDone(index, MessageId, d.content));
    EmitKeepsHead(e, ItemDone(index, MessageItem(MessageId, Completed, e.content)));
  }

  lemma EmitKeepsHead(a: Asm, payload: Payload)
    ensures SameHead(a, Emit(a, payload))
  {
  }

  lemma TextStartKeepsReasoning(a: Asm)
    requires a.reasoning != "" ==> a.reasoningDone
    ensures var b := EnsureTextStarted(a); b.reasoningDone == a.reasoningDone && b.reasoningIndex == a.reasoningIndex
  {
  }

  lemma AlreadyClosed(cfg: Config, a: Asm)
    requires a.textDone
    ensures FinishText(cfg, a) == a
  {
  }

  lemma StartFollows(cfg: Config)
    ensures Follows(cfg, Start(INITIAL)) && Running(cfg, Start(INITIAL))
    ensures !Start(INITIAL).reasoningDone && !Start(INITIAL).textDone
  {
    EmitStep(cfg, INITIAL, Created);
    EmitStep(cfg, Emit(INITIAL, Created), StartedProgress);
  }

  // ---------- what a reader of the input can check ----------

  /** After `before`, this choice closes the reasoning item: by a tool_calls array after some reasoning, or, when text
      is announced as it comes, by the first text after some reasoning. */
  predicate ReasoningCloses(direct: bool, before: seq<Choice>, choice: Choice) {
    var r := RunChoices(INITIAL_RUN, before);
    var s := ReasonStep(r, choice.reasoning);
    var t := RunStep(s, choice.content);
    || (choice.toolCalls.Some? && ChoiceStep(r, choice).reasoning != "")
    || (direct && s.content == "" && t.content != "" && t.reasoning != "")
  }

  predicate ReasoningClosed(direct: bool, choices: seq<Choice>) {
    choices != []
    && var n := |choices| - 1;
       ReasoningClosed(direct, choices[..n]) || ReasoningCloses(direct, choices[..n], choices[n])
  }

  /** After `before`, this choice brings some index both its id and its name for the first time. */
  ghost predicate CallStarts(before: seq<Choice>, choice: Choice) {
    exists k: nat ::
      && FoldCore(Own(AllDeltas(before) + choice.toolCalls.GetOr([]), k)).added
      && !FoldCore(Own(AllDeltas(before), k)).added
  }

  /** When text is announced as it comes, a call that starts after some text closes the text item. */
  ghost predicate TextCloses(direct: bool, before: seq<Choice>, choice: Choice) {
    direct && ChoiceStep(RunChoices(INITIAL_RUN, before), choice).content != "" && CallStarts(before, choice)
  }

  ghost predicate TextClosed(direct: bool, choices: seq<Choice>) {
    choices != []
    && var n := |choices| - 1;
       TextClosed(direct, choices[..n]) || TextCloses(direct, choices[..n], choices[n])
  }

  /** Some choice brings reasoning after the reasoning item was closed, or content after the text item was. */
  ghost predicate IsLate(direct: bool, choices: seq<Choice>) {
    choices != []
    && var n := |choices| - 1;
       || IsLate(direct, choices[..n])
       || (choices[n].reasoning != "" && ReasoningClosed(direct, choices[..n]))
       || (choices[n].content != "" && TextClosed(direct, choices[..n]))
  }

  /** A tool_calls array after some reasoning. */
  predicate ClosesReasoning(choices: seq<Choice>, m: nat)
    requires m < |choices|
  {
    choices[m].toolCalls.Some? && RunChoices(INITIAL_RUN, choices[..m + 1]).reasoning != ""
  }

  /** Some choice brings reasoning after a tool_calls array that came after some reasoning. */
  ghost predicate ReasoningComesLate(choices: seq<Choice>) {
    exists m, n :: 0 <= m < n < |choices| && ClosesReasoning(choices, m) && choices[n].reasoning != ""
  }

  /** With declared tools only reasoning can come late. */
  lemma {:induction false} LateWithTools(choices: seq<Choice>)
    ensures !TextClosed(false, choices)
    ensures ReasoningClosed(false, choices) <==> exists m :: 0 <= m < |choices| && ClosesReasoning(choices, m)
    ensures IsLate(false, choices) <==> ReasoningComesLate(choices)
  {
    hide RunChoices, ChoiceStep, RunStep, ReasonStep, CallStarts;
    if choices != [] {
      var n := |choices| - 1;
      var before := choices[..n];
      LateWithTools(before);
      assert choices[..n + 1] == choices;
      assert RunChoices(INITIAL_RUN, choices) == ChoiceStep(RunChoices(INITIAL_RUN, before), choices[n]) by {
        OneMore(choices);
      }
      assert ClosesReasoning(choices, n) <==> ReasoningCloses(false, before, choices[n]);
      forall m | 0 <= m < n ensures ClosesReasoning(choices, m) <==> ClosesReasoning(before, m) {
        assert before[..m + 1] == choices[..m + 1];
      }
    }
  }

  lemma OneMore(choices: seq<Choice>)
    requires choices != []
    ensures RunChoices(INITIAL_RUN, choices)
         == ChoiceStep(RunChoices(INITIAL_RUN, choices[..|choices| - 1]), choices[|choices| - 1])
  {
  }

  // ---------- the whole stream ----------

  lemma StartsOnInput(cfg: Config, before: seq<Choice>, choice: Choice)
    ensures Starts(AfterChoices(cfg, before).calls, AfterChoices(cfg, before + [choice]).calls)
        <==> CallStarts(before, choice)
  {
    hide AfterChoices, Own, FoldCore;
    var all := before + [choice];
    CallsAreTheirFragments(cfg, before);
    CallsAreTheirFragments(cfg, all);
    SnocParts(before, choice);
    NoFragments();
    var a, b := AfterChoices(cfg, before), AfterChoices(cfg, all);
    forall k: nat
      ensures (k in b.calls && b.calls[k].core.added && !(k in a.calls && a.calls[k].core.added)) <==>
              FoldCore(Own(AllDeltas(before) + choice.toolCalls.GetOr([]), k)).added
              && !FoldCore(Own(AllDeltas(before), k)).added
    {
      assert FoldedAt(a, AllDeltas(before), k) && FoldedAt(b, AllDeltas(all), k);
    }
  }

  lemma ChoiceOnInput(cfg: Config, before: seq<Choice>, choice: Choice)
    ensures var a := AfterChoices(cfg, before);
            var s := AcceptReasoning(cfg, a, choice.reasoning);
            var t := AcceptText(cfg, s, choice.content);
            var b := AcceptChoice(cfg, a, choice);
            && ((ClosedByText(cfg, s, t) || (choice.toolCalls.Some? && b.reasoning != ""))
                <==> ReasoningCloses(!Buffered(cfg), before, choice))
            && (!Buffered(cfg) && b.content != "" && Starts(a.calls, b.calls)
                <==> TextCloses(!Buffered(cfg), before, choice))
  {
    hide AfterChoices, AcceptReasoning, AcceptText, AcceptChoice, RunChoices, ReasonStep, RunStep, ChoiceStep, Starts,
         CallStarts;
    var a := AfterChoices(cfg, before);
    ViewChoices(cfg, before);
    ReasoningSteps(cfg, a, choice.reasoning);
    TextSteps(cfg, AcceptReasoning(cfg, a, choice.reasoning), choice.content);
    ChoiceSteps(cfg, a, choice);
    StartsOnInput(cfg, before, choice);
    AfterOneMore(cfg, before, choice);
  }

  lemma AfterOneMore(cfg: Config, before: seq<Choice>, choice: Choice)
    ensures AfterChoices(cfg, before + [choice]) == AcceptChoice(cfg, AfterChoices(cfg, before), choice)
  {
    hide AcceptChoice;
    SnocParts(before, choice);
  }

  /** Before the end of any stream a client can follow the log exactly when nothing came late, and then holds what the
      assembler holds. */
  lemma {:induction false} StreamFollows(cfg: Config, choices: seq<Choice>)
    ensures var a, direct := AfterChoices(cfg, choices), !Buffered(cfg);
            if IsLate(direct, choices) then ClientOf(cfg, a) == None
            else && Follows(cfg, a) && Running(cfg, a)
                 && (a.reasoningDone <==> ReasoningClosed(direct, choices))
                 && (a.textDone <==> TextClosed(direct, choices))
    decreases |choices|
  {
    hide Follows, Running, AcceptChoice, Start, ClientOf, ReasoningCloses, TextCloses, Starts;
    if choices == [] {
      StartFollows(cfg);
    } else {
      var n := |choices| - 1;
      var before, last := choices[..n], choices[n];
      var a := AfterChoices(cfg, before);
      StreamFollows(cfg, before);
      assert before + [last] == choices;
      if IsLate(!Buffered(cfg), before) {
        ChoiceSteps(cfg, a, last);
        StaysBroken(cfg, a, AcceptChoice(cfg, a, last));
      } else {
        ChoiceFollows(cfg, a, last);
        ChoiceOnInput(cfg, before, last);
      }
    }
  }

  lemma FinalizeSteps(cfg: Config, a: Asm, works: bool)
    ensures a.log <= Finalize(cfg, a, works).0.log
  {
    hide FinishHead, FinishCalls, SortedKeys, Record, Output;
    BeforeRecordSteps(cfg, a);
  }

  ghost predicate AllClosed(c: Client) {
    forall i :: 0 <= i < |c.slots| ==> c.slots[i].done.Some?
  }

  lemma EverythingClosed(cfg: Config, a: Asm, c: Client)
    requires Tracks(cfg, a, c)
    requires (a.reasoningIndex.Some? ==> a.reasoningDone) && (a.textIndex.Some? ==> a.textDone)
    requires forall k :: k in a.calls ==> a.calls[k].done
    ensures AllClosed(c)
  {
    hide FinalItem, IsCustom;
    forall i | 0 <= i < |c.slots| ensures c.slots[i].done.Some? {
      assert IsOwned(a, i, c.slots[i].item.id);
      match c.slots[i].item.id
      case CallItemId(k) => assert CallTracked(cfg, k, a.calls[k], c);
      case _ =>
    }
  }

  /** A client that follows to the end closes every item and is left with the output, in any order. */
  ghost predicate GivesOutput(c: Client, output: seq<Item>) {
    AllClosed(c) && multiset(c.finished) == multiset(output)
  }

  /** Some call reaches the output under a name that is not blank. */
  ghost predicate HasVisibleName(choices: seq<Choice>) {
    exists k: nat :: Trim(FoldCore(Own(AllDeltas(choices), k)).name) != ""
  }

  /** The answer text of the whole stream. */
  function AnswerOf(choices: seq<Choice>): string {
    RunFlush(RunChoices(INITIAL_RUN, choices)).content
  }

  /** For every stream, with or without declared tools, and whatever the store answers: a client can follow the event
      log to its end if and only if nothing comes late. With declared tools every item is then closed exactly once, in
      the order of the terminal response, and the closed items are that response's output. Without them this is so, in
      any order, if and only if there is no answer text or no call with a name that is not blank. */
  lemma EventReplayGivesTheResponse(cfg: Config, choices: seq<Choice>, works: bool)
    ensures var a := AfterChoices(cfg, choices);
            var b, output := Finalize(cfg, a, works).0, Output(cfg, FinishHead(cfg, a));
            && (ClientOf(cfg, b).Some? <==> !IsLate(!Buffered(cfg), choices))
            && (Buffered(cfg) ==> (ClientOf(cfg, b).Some? <==> !ReasoningComesLate(choices)))
            && (ClientOf(cfg, b).Some? ==>
                  var c := ClientOf(cfg, b).value;
                  && (Buffered(cfg) ==> AllClosed(c) && c.finished == output)
                  && (!Buffered(cfg) ==>
                        (GivesOutput(c, output) <==> AnswerOf(choices) == "" || !HasVisibleName(choices)))
                  && (works ==>
                        && b.log != []
                        && b.log[|b.log| - 1].payload == Finished(CompletionStatus(b.finishReason), output)))
  {
    hide Follows, Running, FinishHead, ClientOf, FinishCalls, HeadItems, SortedKeys, Output, GivesOutput, AllClosed,
         AnswerOf, HasVisibleName, AfterChoices, Finalize, ReasoningComesLate, IsLate;
    var a := AfterChoices(cfg, choices);
    var result := Finalize(cfg, a, works).0;
    StreamFollows(cfg, choices);
    LateWithTools(choices);
    if IsLate(!Buffered(cfg), choices) {
      FinalizeSteps(cfg, a, works);
      StaysBroken(cfg, a, result);
    } else {
      NotEnded(cfg, a);
      StreamEnds(cfg, a, works);
      HeadOnInput(cfg, choices);
    }
  }

  lemma NotEnded(cfg: Config, a: Asm)
    requires Running(cfg, a)
    ensures !a.terminalEmitted
  {
  }

  lemma HeadOnInput(cfg: Config, choices: seq<Choice>)
    ensures var head := FinishHead(cfg, AfterChoices(cfg, choices));
            head.content == AnswerOf(choices) && (HasToolOutput(head.calls) <==> HasVisibleName(choices))
  {
    hide FinishHead, AfterChoices, RunFlush, RunChoices, FoldCore, Own, Trim, HasToolOutput;
    var a := AfterChoices(cfg, choices);
    ViewChoices(cfg, choices);
    HeadSteps(cfg, a);
    CallsAreTheirFragments(cfg, choices);
    HasToolOutputMeans(a.calls);
    NoFragments();
    TrimNothing();
    forall k: nat
      ensures (k in a.calls && !a.calls[k].done && Trim(a.calls[k].core.name) != "")
         <==> Trim(FoldCore(Own(AllDeltas(choices), k)).name) != ""
    {
      assert FoldedAt(a, AllDeltas(choices), k);
    }
  }

  lemma StreamEnds(cfg: Config, a: Asm, works: bool)
    requires Follows(cfg, a) && Running(cfg, a) && !a.terminalEmitted
    ensures var b, head := Finalize(cfg, a, works).0, FinishHead(cfg, a);
            && ClientOf(cfg, b).Some?
            && var c := ClientOf(cfg, b).value;
               && (Buffered(cfg) ==> AllClosed(c) && c.finished == Output(cfg, head))
               && (!Buffered(cfg) ==>
                     (GivesOutput(c, Output(cfg, head)) <==> head.content == "" || !HasToolOutput(head.calls)))
               && (works ==> b.log != []
                             && b.log[|b.log| - 1].payload
                                == Finished(CompletionStatus(b.finishReason), Output(cfg, head)))
  {
    hide Follows, FinishHead, FinishCalls, SortedKeys, Record, ClientOf, AllClosed, GivesOutput, Output, HasToolOutput;
    var head := FinishHead(cfg, a);
    FinishHeadFollows(cfg, a);
    CallsEnd(cfg, head);
    var keys := SortedKeys(head.calls.Keys);
    FinishCallsSteps(cfg, head, keys, |keys|);
    var c := FinishCalls(cfg, head, keys, |keys|);
    FinishedIsInvisible(cfg, c, c.stored + [Record(cfg, head)], CompletionStatus(c.finishReason), Output(cfg, head));
  }

  lemma FinishedIsInvisible(cfg: Config, a: Asm, stored: seq<StoredResponse>, incomplete: Option<IncompleteReason>,
                            output: seq<Item>)
    requires ClientOf(cfg, a).Some?
    ensures var b := Emit(a.(stored := stored), Finished(incomplete, output)).(terminalEmitted := true);
            ClientOf(cfg, b) == ClientOf(cfg, a) && b.log[|b.log| - 1].payload == Finished(incomplete, output)
  {
    hide Replayed;
    EmitStep(cfg, a.(stored := stored), Finished(incomplete, output));
  }

  /** The items closed for a stream whose head is finished, and whether they are the output. */
  lemma CallsEnd(cfg: Config, head: Asm)
    requires Follows(cfg, head) && (head.reasoningDone <==> head.reasoning != "")
    requires head.reasoningIndex.Some? <==> head.reasoning != ""
    requires (head.content != "" && !HasToolOutput(head.calls) ==> head.textDone)
        && (head.textDone ==> head.content != "")
    requires if Buffered(cfg) then
               (head.textIndex.Some? ==> head.textDone) && (head.textDone ==> !HasToolOutput(head.calls))
             else (head.textIndex.Some? <==> head.content != "")
    ensures var keys := SortedKeys(head.calls.Keys);
            var b := FinishCalls(cfg, head, keys, |keys|);
            && ClientOf(cfg, b).Some?
            && var c := ClientOf(cfg, b).value;
               && (Buffered(cfg) ==> AllClosed(c) && c.finished == Output(cfg, head))
               && (!Buffered(cfg) ==>
                     (GivesOutput(c, Output(cfg, head)) <==> head.content == "" || !HasToolOutput(head.calls)))
  {
    hide Tracks, FinishCalls, SortedKeys, Replayed, AllClosed, FinalItems, NamedKeys, HasToolOutput;
    var keys := SortedKeys(head.calls.Keys);
    var closed := ClientOf(cfg, head).value.finished;
    FinishCallsFollows(cfg, head, keys, |keys|, closed);
    FinishCallsMark(cfg, head, keys, |keys|);
    assert keys[..|keys|] == keys;
    FinishCallsSteps(cfg, head, keys, |keys|);
    var b := FinishCalls(cfg, head, keys, |keys|);
    TextMeansContent(cfg, head, ClientOf(cfg, head).value);
    ClosedOrOpen(cfg, b, ClientOf(cfg, b).value);
    HeadAgrees(cfg, head, closed, FinalItems(cfg, head.calls, NamedKeys(head.calls, keys)));
  }

  lemma TextMeansContent(cfg: Config, a: Asm, c: Client)
    requires Tracks(cfg, a, c)
    ensures a.textDone ==> a.textIndex.Some?
  {
  }

  /** Which head items are closed decides whether the closed items are the output. */
  lemma HeadAgrees(cfg: Config, head: Asm, closed: seq<Item>, calls: seq<Item>)
    requires AreClosed(cfg, head, closed) && (head.reasoningDone <==> head.reasoning != "")
    requires head.content != "" && !HasToolOutput(head.calls) ==> head.textDone
    requires head.textDone ==> head.content != ""
    requires Buffered(cfg) ==> (head.textDone <==> head.content != "" && !HasToolOutput(head.calls))
    ensures Buffered(cfg) ==> closed + calls == HeadItems(head) + calls
    ensures !Buffered(cfg) ==> (multiset(closed + calls) == multiset(HeadItems(head) + calls)
                                <==> (head.textDone ==> !HasToolOutput(head.calls)))
  {
    hide HasToolOutput;
    var text := MessageItem(MessageId, Completed, head.content);
    assert multiset(closed + calls) == multiset(closed) + multiset(calls);
    assert multiset(HeadItems(head) + calls) == multiset(HeadItems(head)) + multiset(calls);
    if head.textDone && HasToolOutput(head.calls) {
      assert multiset(closed)[text] == 1 && multiset(HeadItems(head))[text] == 0;
      assert (multiset(closed) + multiset(calls))[text] != (multiset(HeadItems(head)) + multiset(calls))[text];
    } else {
      assert ClosedHead(head) == HeadItems(head);
    }
  }

  /** After the calls: all closed, unless the text item was left open. */
  lemma ClosedOrOpen(cfg: Config, a: Asm, c: Client)
    requires Tracks(cfg, a, c) && (a.reasoningIndex.Some? ==> a.reasoningDone)
    requires forall k :: k in a.calls ==> a.calls[k].done
    ensures AllClosed(c) <==> (a.textIndex.Some? ==> a.textDone)
  {
    if a.textIndex.Some? && !a.textDone {
      assert c.slots[a.textIndex.value].done == None;
    } else {
      EverythingClosed(cfg, a, c);
    }
  }

  // ---------- without declared tools ----------

  /** A text, then a call of a tool that was never declared, then maybe more text. */
  function TextThenCall(text: string, call: CallDelta, more: string): seq<Choice> {
    [Choice("", text, None, None), Choice("", "", Some([call]), None)]
    + if more == "" then [] else [Choice("", more, None, None)]
  }

  /** The text begins no think block and the call is whole. */
  predicate IsTextThenCall(text: string, call: CallDelta) {
    && text != "" && !IsWhitespace(text[0]) && text[0] != '<'
    && call.index == Some(0) && call.id != "" && Trim(call.name) != ""
  }

  lemma PlainText(text: string)
    requires text != "" && !IsWhitespace(text[0]) && text[0] != '<'
    ensures RunStep(INITIAL_RUN, text) == SplitRun(Splitter(Done, ""), "", text)
  {
    hide InThinkStep, SplitThinkBody, TrimEnd;
    assert TrimStart(text) == text;
    OnePush(SplitRun(Splitter(Done, ""), "", ""), PushText(text));
    assert "" + text == text;
  }

  lemma OneDelta(d: CallDelta)
    requires d.index == Some(0) && d.id != "" && Trim(d.name) != ""
    ensures Own([], 0) == [] && !FoldCore([]).added
    ensures Own([d], 0) == [d] && FoldCore([d]).added && FoldCore([d]).name == d.name
  {
    hide Trim;
    TrimNothing();
    OwnSnoc([], d, 0);
    FoldSnoc([], d);
    assert [] + [d] == [d] && Own([], 0) == [];
  }

  /** Without declared tools the text item is closed when the call starts: the output then leaves it out, and more
      text is added to it all the same, which a client cannot follow. */
  lemma UndeclaredCallDropsClosedText(cfg: Config, text: string, call: CallDelta, more: string, works: bool)
    requires cfg.tools == EMPTY_TABLE && IsTextThenCall(text, call)
    ensures var a := AfterChoices(cfg, TextThenCall(text, call, more));
            var b := Finalize(cfg, a, works).0;
            if more == "" then
              ClientOf(cfg, b).Some? && !GivesOutput(ClientOf(cfg, b).value, Output(cfg, FinishHead(cfg, a)))
            else ClientOf(cfg, b) == None
  {
    hide RunStep, RunFlush, Finalize, AfterChoices, FinishHead, Output, ClientOf, GivesOutput, Own, FoldCore, Trim;
    var one, two := Choice("", text, None, None), Choice("", "", Some([call]), None);
    var choices, r := [one, two], SplitRun(Splitter(Done, ""), "", text);
    EventReplayGivesTheResponse(cfg, TextThenCall(text, call, more), works);
    PlainText(text);
    OneDelta(call);
    assert [one][..0] == [] && choices[..1] == [one] && [] + [call] == [call];
    assert RunStep(r, "") == r by { NoStep(r); }
    FlushEffect(r);
    assert RunChoices(INITIAL_RUN, [one]) == r && RunChoices(INITIAL_RUN, choices) == r;
    assert AllDeltas([]) == [] && AllDeltas([one]) == AllDeltas([]) + [] == [];
    assert choices[1] == two && AllDeltas(choices) == AllDeltas([one]) + [call] == [call];
    assert !IsLate(true, []) && !TextClosed(true, []) && [one][0] == one;
    assert !IsLate(true, [one]);
    assert !IsLate(true, choices);
    assert CallStarts([one], two);
    assert TextClosed(true, choices);
    if more == "" {
      assert TextThenCall(text, call, more) == choices;
      assert AnswerOf(choices) == text && HasVisibleName(choices);
    } else {
      var all := TextThenCall(text, call, more);
      assert all[..2] == choices && all[2].content == more;
    }
  }

  /** With declared tools: reasoning, an empty array of calls, and more reasoning is a stream that no client can
      follow. */
  lemma MoreReasoningIsLate(cfg: Config, thought: string, more: string, works: bool)
    requires Buffered(cfg) && thought != "" && more != ""
    ensures var choices := [Choice(thought, "", None, None), Choice("", "", Some([]), None),
        Choice(more, "", None, None)];
            ClientOf(cfg, Finalize(cfg, AfterChoices(cfg, choices), works).0) == None
  {
    hide RunStep, RunFlush, Finalize, AfterChoices, FinishHead, Output, ClientOf, GivesOutput, Own, FoldCore, Trim,
         IsLate;
    var one, two, three := Choice(thought, "", None, None), Choice("", "", Some([]), None),
        Choice(more, "", None, None);
    var choices, r := [one, two, three], SplitRun(Splitter(Done, ""), thought, "");
    assert choices[..2] == [one, two] && [one, two][..1] == [one] && [one][..0] == [] && "" + thought == thought;
    FlushEffect(INITIAL_RUN);
    FlushEffect(r);
    NoStep(r);
    assert RunChoices(INITIAL_RUN, [one]) == r && RunChoices(INITIAL_RUN, [one, two]) == r;
    assert ClosesReasoning(choices, 1) && choices[2].reasoning != "";
    EventReplayGivesTheResponse(cfg, choices, works);
  }
}
