/** What each operation of the assembler emits and what it changes. */
module Steps {
  import opened Wrappers
  import opened Think
  import opened ToolTable
  import opened Items
  import opened Assembly

  predicate IsTerminal(payload: Payload) {
    payload.Finished? || payload.Failed?
  }

  /** Events are added under the next numbers, none of them terminal and, in a quiet step, none an argument delta; the
      store is not touched. */
  ghost predicate Adds(a: Asm, b: Asm, quiet: bool) {
    && a.log <= b.log && b.sequence == a.sequence + |b.log| - |a.log|
    && (forall i :: |a.log| <= i < |b.log| ==>
          && b.log[i].sequence == a.sequence + i - |a.log| + 1
          && !IsTerminal(b.log[i].payload) && (quiet ==> !b.log[i].payload.ArgumentsDelta?))
    && b.stored == a.stored && b.terminalEmitted == a.terminalEmitted
  }

  function ViewOf(a: Asm): SplitRun {
    SplitRun(a.splitter, a.reasoning, a.content)
  }

  /** The texts, the calls and the finish reason are the same. */
  predicate SameView(a: Asm, b: Asm) {
    ViewOf(b) == ViewOf(a) && b.calls == a.calls && b.finishReason == a.finishReason
  }

  /** The reasoning and text items are as open or closed as before. */
  predicate SameHead(a: Asm, b: Asm) {
    && b.reasoningIndex == a.reasoningIndex && b.reasoningDone == a.reasoningDone
    && b.textIndex == a.textIndex && b.textDone == a.textDone
  }

  lemma AddsChain(a: Asm, b: Asm, c: Asm, quiet: bool)
    requires Adds(a, b, quiet) && Adds(b, c, quiet)
    ensures Adds(a, c, quiet)
  {
  }

  lemma NothingAdded(a: Asm)
    ensures Adds(a, a, true)
  {
  }

  /** One more quiet event. */
  lemma EmitSteps(a: Asm, b: Asm, payload: Payload)
    requires Adds(a, b, true) && !IsTerminal(payload) && !payload.ArgumentsDelta?
    ensures Adds(a, Emit(b, payload), true) && SameView(b, Emit(b, payload))
    ensures SameHead(b, Emit(b, payload))
  {
  }

  /** What is not in the log does not matter to it. */
  predicate SameLog(a: Asm, b: Asm) {
    b.log == a.log && b.sequence == a.sequence && b.stored == a.stored && b.terminalEmitted == a.terminalEmitted
  }

  lemma SameLogAdds(a: Asm, b: Asm, c: Asm, d: Asm, quiet: bool)
    requires Adds(b, c, quiet) && SameLog(a, b) && SameLog(c, d)
    ensures Adds(a, d, quiet)
  {
  }

  // ---------- items ----------

  lemma PushReasoningSteps(a: Asm, delta: string)
    ensures var b := PushReasoningDelta(a, delta);
            Adds(a, b, true) && SameView(a.(reasoning := a.reasoning + delta), b)
  {
    hide Adds, Emit;
    NothingAdded(a);
    var c := StartReasoning(a);
    if a.reasoningIndex.None? {
      var index := a.nextIndex;
      var b := a.(nextIndex := index + 1, reasoningIndex := Some(index));
      SameLogAdds(a, a, a, b, true);
      EmitSteps(a, b, ItemAdded(index, ReasoningItem(ReasoningId, "")));
      EmitSteps(a, Emit(b, ItemAdded(index, ReasoningItem(ReasoningId, ""))), SummaryPartAdded(index, ReasoningId));
    }
    var d := c.(reasoning := c.reasoning + delta);
    SameLogAdds(a, a, c, d, true);
    EmitSteps(a, d, ReasoningDelta(c.reasoningIndex.value, ReasoningId, delta));
  }

  lemma FinishReasoningSteps(a: Asm)
    ensures Adds(a, FinishReasoning(a), true) && SameView(a, FinishReasoning(a))
  {
    hide Adds, Emit;
    NothingAdded(a);
    var index := a.reasoningIndex.GetOr(0);
    var b := Emit(a, ReasoningTextDone(index, ReasoningId, a.reasoning));
    var c := Emit(b, SummaryPartDone(index, ReasoningId, a.reasoning));
    var d := Emit(c, ItemDone(index, ReasoningItem(ReasoningId, a.reasoning)));
    EmitSteps(a, a, ReasoningTextDone(index, ReasoningId, a.reasoning));
    EmitSteps(a, b, SummaryPartDone(index, ReasoningId, a.reasoning));
    EmitSteps(a, c, ItemDone(index, ReasoningItem(ReasoningId, a.reasoning)));
    SameLogAdds(a, a, d, d.(reasoningDone := true), true);
  }

  lemma EnsureTextSteps(a: Asm)
    ensures var b := EnsureTextStarted(a); Adds(a, b, true) && SameView(a, b) && b.textIndex.Some?
  {
    hide FinishReasoning;
    NothingAdded(a);
    FinishReasoningSteps(a);
  }

  lemma PushTextSteps(cfg: Config, a: Asm, text: string)
    ensures var b := PushTextDelta(cfg, a, text);
            Adds(a, b, true) && SameView(a.(content := a.content + text), b)
  {
    hide EnsureTextStarted;
    EnsureTextSteps(a);
  }

  lemma FinishTextSteps(cfg: Config, a: Asm)
    ensures Adds(a, FinishText(cfg, a), true) && SameView(a, FinishText(cfg, a))
  {
    hide EnsureTextStarted, Adds, Emit;
    NothingAdded(a);
    EnsureTextSteps(a);
    var b := EnsureTextStarted(a);
    var index := b.textIndex.value;
    EmitSteps(a, b, TextDelta(index, MessageId, b.content));
    var c := if Buffered(cfg) then Emit(b, TextDelta(index, MessageId, b.content)) else b;
    var d := Emit(c, TextDone(index, MessageId, c.content));
    var e := Emit(d, ContentPartDone(index, MessageId, d.content));
    var f := Emit(e, ItemDone(index, MessageItem(MessageId, Completed, e.content)));
    EmitSteps(a, c, TextDone(index, MessageId, c.content));
    EmitSteps(a, d, ContentPartDone(index, MessageId, d.content));
    EmitSteps(a, e, ItemDone(index, MessageItem(MessageId, Completed, e.content)));
    SameLogAdds(a, a, f, f.(textDone := true), true);
  }

  // ---------- texts ----------

  lemma {:induction false} PushesSteps(cfg: Config, a: Asm, pushes: seq<Push>)
    ensures var b := ApplyAll(cfg, a, pushes);
            && Adds(a, b, true) && ViewOf(b) == ApplyPushes(ViewOf(a), pushes)
            && b.calls == a.calls && b.finishReason == a.finishReason
    decreases |pushes|
  {
    hide Adds, PushReasoningDelta, PushTextDelta;
    if pushes == [] {
      assert Adds(a, a, true) by { NothingAdded(a); }
    } else {
      var first := ApplyPush(cfg, a, pushes[0]);
      PushReasoningSteps(a, pushes[0].text);
      PushTextSteps(cfg, a, pushes[0].text);
      PushesSteps(cfg, first, pushes[1..]);
      AddsChain(a, first, ApplyAll(cfg, a, pushes), true);
    }
  }

  lemma FlushSteps(cfg: Config, a: Asm)
    ensures var b := Flush(cfg, a);
            && Adds(a, b, true) && ViewOf(b) == RunFlush(ViewOf(a))
            && b.calls == a.calls && b.finishReason == a.finishReason
  {
    hide FlushStep, Adds;
    var (s, pushes) := FlushStep(a.splitter);
    PushesSteps(cfg, a.(splitter := s), pushes);
    SameLogAdds(a, a.(splitter := s), Flush(cfg, a), Flush(cfg, a), true);
  }

  /** Explicit reasoning ends the detection of a think block. */
  function ReasonStep(r: SplitRun, reasoning: string): SplitRun {
    if reasoning == "" then r
    else
      var f := if r.splitter.state == Done then r else RunFlush(r);
      f.(splitter := Splitter(Done, f.splitter.buffer), reasoning := f.reasoning + reasoning)
  }

  lemma ReasoningSteps(cfg: Config, a: Asm, reasoning: string)
    ensures var b := AcceptReasoning(cfg, a, reasoning);
            && Adds(a, b, true) && ViewOf(b) == ReasonStep(ViewOf(a), reasoning)
            && b.calls == a.calls && b.finishReason == a.finishReason
  {
    hide Flush, RunFlush, PushReasoningDelta, Adds;
    NothingAdded(a);
    FlushSteps(cfg, a);
    var b := DisableDetection(cfg, a);
    if a.splitter.state != Done {
      SameLogAdds(a, a, Flush(cfg, a), b, true);
    }
    PushReasoningSteps(b, reasoning);
    AddsChain(a, b, PushReasoningDelta(b, reasoning), true);
  }

  lemma TextSteps(cfg: Config, a: Asm, content: string)
    ensures var b := AcceptText(cfg, a, content);
            && Adds(a, b, true) && ViewOf(b) == RunStep(ViewOf(a), content)
            && b.calls == a.calls && b.finishReason == a.finishReason
  {
    hide ContentStep, Adds;
    NothingAdded(a);
    var (s, pushes) := ContentStep(a.splitter, content);
    PushesSteps(cfg, a.(splitter := s), pushes);
    if content != "" {
      SameLogAdds(a, a.(splitter := s), AcceptText(cfg, a, content), AcceptText(cfg, a, content), true);
    }
  }

  // ---------- tool calls ----------

  lemma StartToolSteps(cfg: Config, a: Asm, k: nat)
    requires k in a.calls
    ensures var b := StartTool(cfg, a, k);
            Adds(a, b, true) && SameView(a.(calls := b.calls), b) && SameHead(a, b)
  {
    hide ToolItem;
  }

  lemma EmitArgumentsSteps(cfg: Config, a: Asm, k: nat, part: string)
    ensures var b := EmitToolArguments(cfg, a, k, part); Adds(a, b, false) && SameView(a, b)
  {
    hide IsCustom;
  }

  lemma LouderAdds(a: Asm, b: Asm)
    requires Adds(a, b, true)
    ensures Adds(a, b, false)
  {
  }

  /** What comes before the announcement of a call that can start. */
  function BeforeStart(cfg: Config, a: Asm): Asm {
    FinishPendingReasoning(if !Buffered(cfg) && a.content != "" && !a.textDone then FinishText(cfg, a) else a)
  }

  lemma BeforeStartSteps(cfg: Config, a: Asm)
    ensures Adds(a, BeforeStart(cfg, a), true) && SameView(a, BeforeStart(cfg, a))
  {
    hide FinishText, FinishReasoning, Adds;
    NothingAdded(a);
    FinishTextSteps(cfg, a);
    var b := if !Buffered(cfg) && a.content != "" && !a.textDone then FinishText(cfg, a) else a;
    FinishReasoningSteps(b);
    AddsChain(a, b, FinishReasoning(b), true);
  }

  lemma EnsureToolSteps(cfg: Config, a: Asm, k: nat)
    requires k in a.calls
    ensures var b := EnsureToolStarted(cfg, a, k); Adds(a, b, false) && SameView(a.(calls := b.calls), b)
  {
    hide FinishText, FinishReasoning, StartTool, EmitToolArguments, Adds;
    NothingAdded(a);
    LouderAdds(a, a);
    BeforeStartSteps(cfg, a);
    var c := BeforeStart(cfg, a);
    if CanStart(a.calls[k].core) {
      var d := StartTool(cfg, c, k);
      StartToolSteps(cfg, c, k);
      AddsChain(a, c, d, true);
      LouderAdds(a, d);
      EmitArgumentsSteps(cfg, d, k, c.calls[k].core.arguments);
      AddsChain(a, d, EnsureToolStarted(cfg, a, k), false);
    }
  }

  lemma ToolDeltaSteps(cfg: Config, a: Asm, delta: CallDelta)
    ensures var b := AcceptToolDelta(cfg, a, delta); Adds(a, b, false) && SameView(a.(calls := b.calls), b)
  {
    hide EnsureToolStarted, EmitToolArguments, Adds;
    if delta.index.None? {
      NothingAdded(a);
      LouderAdds(a, a);
    } else {
      var k := delta.index.value;
      var m := MergeDelta(a, k, delta);
      var b := EnsureToolStarted(cfg, m, k);
      EnsureToolSteps(cfg, m, k);
      EmitArgumentsSteps(cfg, b, k, delta.arguments);
      AddsChain(m, b, EmitToolArguments(cfg, b, k, delta.arguments), false);
      SameLogAdds(a, m, AcceptToolDelta(cfg, a, delta), AcceptToolDelta(cfg, a, delta), false);
    }
  }

  lemma {:induction false} ToolDeltasSteps(cfg: Config, a: Asm, deltas: seq<CallDelta>)
    ensures var b := AcceptToolDeltas(cfg, a, deltas); Adds(a, b, false) && SameView(a.(calls := b.calls), b)
    decreases |deltas|
  {
    hide AcceptToolDelta, Adds;
    if deltas == [] {
      NothingAdded(a);
      LouderAdds(a, a);
    } else {
      var n := |deltas| - 1;
      var b := AcceptToolDeltas(cfg, a, deltas[..n]);
      ToolDeltasSteps(cfg, a, deltas[..n]);
      ToolDeltaSteps(cfg, b, deltas[n]);
      AddsChain(a, b, AcceptToolDelta(cfg, b, deltas[n]), false);
    }
  }

  // ---------- choices ----------

  /** A choice up to its tool calls. */
  function BeforeCalls(cfg: Config, a: Asm, choice: Choice): Asm {
    var c := AcceptText(cfg, AcceptReasoning(cfg, a, choice.reasoning), choice.content);
    if choice.toolCalls.Some? then FinishPendingReasoning(Flush(cfg, c)) else c
  }

  function ChoiceStep(r: SplitRun, choice: Choice): SplitRun {
    var t := RunStep(ReasonStep(r, choice.reasoning), choice.content);
    if choice.toolCalls.Some? then RunFlush(t) else t
  }

  lemma BeforeCallsSteps(cfg: Config, a: Asm, choice: Choice)
    ensures var b := BeforeCalls(cfg, a, choice);
            && Adds(a, b, true) && ViewOf(b) == ChoiceStep(ViewOf(a), choice)
            && b.calls == a.calls && b.finishReason == a.finishReason
  {
    hide AcceptReasoning, AcceptText, Flush, FinishReasoning, ReasonStep, RunStep, RunFlush, Adds;
    var b := AcceptReasoning(cfg, a, choice.reasoning);
    var c := AcceptText(cfg, b, choice.content);
    ReasoningSteps(cfg, a, choice.reasoning);
    TextSteps(cfg, b, choice.content);
    AddsChain(a, b, c, true);
    FlushSteps(cfg, c);
    var d := Flush(cfg, c);
    AddsChain(a, c, d, true);
    FinishReasoningSteps(d);
    AddsChain(a, d, FinishReasoning(d), true);
  }

  lemma ChoiceSteps(cfg: Config, a: Asm, choice: Choice)
    ensures var b := AcceptChoice(cfg, a, choice);
            && b == AcceptFinish(AcceptToolDeltas(cfg, BeforeCalls(cfg, a, choice), choice.toolCalls.GetOr([])),
                                 choice.finishReason)
            && Adds(a, b, false) && ViewOf(b) == ChoiceStep(ViewOf(a), choice)
            && b.finishReason == if choice.finishReason.Some? then choice.finishReason else a.finishReason
  {
    hide AcceptReasoning, AcceptText, Flush, FinishPendingReasoning, AcceptToolDelta, ChoiceStep;
    BeforeCallsSteps(cfg, a, choice);
    var b, deltas := BeforeCalls(cfg, a, choice), choice.toolCalls.GetOr([]);
    ToolDeltasSteps(cfg, b, deltas);
    LouderAdds(a, b);
    AddsChain(a, b, AcceptToolDeltas(cfg, b, deltas), false);
  }

  lemma {:induction false} ChoicesSteps(cfg: Config, a: Asm, choices: seq<Choice>)
    ensures Adds(a, AcceptAll(cfg, a, choices), false)
    decreases |choices|
  {
    hide AcceptChoice, Adds;
    if choices == [] {
      NothingAdded(a);
      LouderAdds(a, a);
    } else {
      var n := |choices| - 1;
      var b := AcceptAll(cfg, a, choices[..n]);
      ChoicesSteps(cfg, a, choices[..n]);
      ChoiceSteps(cfg, b, choices[n]);
      AddsChain(a, b, AcceptChoice(cfg, b, choices[n]), false);
    }
  }

  // ---------- the end ----------

  lemma HeadSteps(cfg: Config, a: Asm)
    ensures var b := FinishHead(cfg, a);
            && Adds(a, b, true) && ViewOf(b) == RunFlush(ViewOf(a))
            && b.calls == a.calls && b.finishReason == a.finishReason
  {
    hide Flush, FinishReasoning, FinishText, RunFlush, HasToolOutput, Adds;
    FlushSteps(cfg, a);
    var b := Flush(cfg, a);
    FinishReasoningSteps(b);
    var c := if b.reasoning != "" then FinishReasoning(b) else b;
    AddsChain(a, b, FinishReasoning(b), true);
    FinishTextSteps(cfg, c);
    AddsChain(a, c, FinishText(cfg, c), true);
  }

  lemma CallDoneSteps(cfg: Config, a: Asm, k: nat, index: nat, core: CallCore)
    ensures var b := EmitCallDone(cfg, a, k, index, core); Adds(a, b, true) && SameView(a, b) && SameHead(a, b)
  {
    hide FinalItem, CustomInput, IsCustom, Adds, Emit;
    NothingAdded(a);
    var arguments := FinalArguments(cfg, core);
    var input := CustomInput(cfg.codec, arguments);
    EmitSteps(a, a, CustomInputDelta(index, CallItemId(k), input));
    var c := if input != "" then Emit(a, CustomInputDelta(index, CallItemId(k), input)) else a;
    EmitSteps(a, c, CustomInputDone(index, CallItemId(k), input));
    EmitSteps(a, a, ArgumentsDone(index, CallItemId(k), core.callId, arguments));
    var b := if IsCustom(cfg.tools, core.name) then Emit(c, CustomInputDone(index, CallItemId(k), input))
             else Emit(a, ArgumentsDone(index, CallItemId(k), core.callId, arguments));
    EmitSteps(a, b, ItemDone(index, FinalItem(cfg, k, core)));
  }

  lemma FinishCallSteps(cfg: Config, a: Asm, k: nat)
    requires k in a.calls
    ensures var b := FinishCall(cfg, a, k);
            && Adds(a, b, true) && SameView(a.(calls := b.calls), b) && SameHead(a, b) && b.calls[k].done
            && forall j :: j in a.calls && j != k ==> b.calls[j] == a.calls[j]
  {
    hide EmitCallDone, ToolItem, FinalId, Adds;
    NothingAdded(a);
    var call := a.calls[k];
    var skipped := a.(calls := a.calls[k := call.(done := true)]);
    SameLogAdds(a, a, a, skipped, true);
    if !call.done && call.core.name != "" {
      var named := a.(calls := a.calls[k := call.(core := call.core.(callId := FinalId(k, call.core)))]);
      var b := Announced(cfg, a, k);
      if !call.core.added {
        StartToolSteps(cfg, named, k);
        SameLogAdds(a, named, b, b, true);
      }
      var core := b.calls[k].core.(callId := FinalId(k, b.calls[k].core));
      var c := b.(calls := b.calls[k := b.calls[k].(core := core, done := true)]);
      CallDoneSteps(cfg, c, k, b.calls[k].outputIndex.GetOr(0), core);
      SameLogAdds(a, a, b, c, true);
      AddsChain(a, c, FinishCall(cfg, a, k), true);
    }
  }

  lemma {:induction false} FinishCallsSteps(cfg: Config, a: Asm, keys: seq<nat>, n: nat)
    requires n <= |keys| && forall k :: k in keys ==> k in a.calls
    ensures var b := FinishCalls(cfg, a, keys, n);
            Adds(a, b, true) && SameView(a.(calls := b.calls), b) && SameHead(a, b)
    decreases n
  {
    hide FinishCall, Adds;
    if n == 0 {
      NothingAdded(a);
    } else {
      var b := FinishCalls(cfg, a, keys, n - 1);
      FinishCallsSteps(cfg, a, keys, n - 1);
      FinishCallSteps(cfg, b, keys[n - 1]);
      AddsChain(a, b, FinishCall(cfg, b, keys[n - 1]), true);
    }
  }

  /** All items are finished and nothing is stored yet. */
  function BeforeRecord(cfg: Config, a: Asm): Asm {
    var head := FinishHead(cfg, a);
    var keys := SortedKeys(head.calls.Keys);
    FinishCalls(cfg, head, keys, |keys|)
  }

  lemma BeforeRecordSteps(cfg: Config, a: Asm)
    ensures var head, b := FinishHead(cfg, a), BeforeRecord(cfg, a);
            Adds(a, b, true) && SameView(head.(calls := b.calls), b) && SameHead(head, b)
  {
    hide FinishHead, FinishCalls, SortedKeys, Adds;
    var head := FinishHead(cfg, a);
    var keys := SortedKeys(head.calls.Keys);
    HeadSteps(cfg, a);
    FinishCallsSteps(cfg, head, keys, |keys|);
    AddsChain(a, head, BeforeRecord(cfg, a), true);
  }
}
