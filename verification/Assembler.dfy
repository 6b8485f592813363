/** The stream assembler (src/conversion/stream_chat_to_responses.rs): every method updates the fields step by step, as
    the source does, and is proved against the state change that module Assembly describes. Emitting an event cannot
    fail, as in the only caller; storing the record can. */
module Assembler {
  import opened Wrappers
  import opened Text
  import opened Think
  import opened Chat
  import opened ToolTable
  import opened Items
  import opened SafeNames
  import opened Assembly
  import opened AssemblyFacts
  import opened Steps

  class StreamAssembler {
    const cfg: Config
    const bufferTextUntilToolDecision: bool
    var content: string
    var reasoning: string
    var toolCalls: map<nat, Call>
    var finishReason: Option<string>
    var sequence: nat
    var nextOutputIndex: nat
    var textOutputIndex: Option<nat>
    var reasoningOutputIndex: Option<nat>
    var textDone: bool
    var reasoningDone: bool
    var terminalEmitted: bool
    var thinkState: ThinkState
    var thinkBuffer: string
    /** What was sent downstream and what was stored. */
    var log: seq<Event>
    var stored: seq<StoredResponse>

    function Model(): Asm
      reads this
    {
      Asm(content, reasoning, toolCalls, finishReason, sequence, nextOutputIndex, textOutputIndex, reasoningOutputIndex,
          textDone, reasoningDone, terminalEmitted, Splitter(thinkState, thinkBuffer), log, stored)
    }

    predicate Valid()
      reads this
    {
      bufferTextUntilToolDecision == Buffered(cfg)
    }

    constructor (cfg: Config)
      ensures Valid() && this.cfg == cfg && Model() == INITIAL
    {
      this.cfg := cfg;
      bufferTextUntilToolDecision := cfg.tools.chatTools != [];
      content, reasoning, toolCalls, finishReason := "", "", map[], None;
      sequence, nextOutputIndex, textOutputIndex, reasoningOutputIndex := 0, 0, None, None;
      textDone, reasoningDone, terminalEmitted := false, false, false;
      thinkState, thinkBuffer := Detecting, "";
      log, stored := [], [];
    }

    method EmitEvent(payload: Payload)
      modifies this`sequence, this`log
      ensures Model() == Emit(old(Model()), payload)
    {
      sequence := sequence + 1;
      log := log + [Event(sequence, payload)];
    }

    method AllocateOutputIndex() returns (value: nat)
      modifies this`nextOutputIndex
      ensures value == old(nextOutputIndex) && nextOutputIndex == value + 1
    {
      value := nextOutputIndex;
      nextOutputIndex := nextOutputIndex + 1;
    }

    method Start()
      modifies this
      ensures Model() == Assembly.Start(old(Model()))
    {
      EmitEvent(Created);
      EmitEvent(StartedProgress);
    }

    // ---------- reasoning and text ----------

    method PushReasoningDelta(delta: string)
      modifies this
      ensures Model() == Assembly.PushReasoningDelta(old(Model()), delta)
    {
      if reasoningOutputIndex.None? {
        var index := AllocateOutputIndex();
        reasoningOutputIndex := Some(index);
        EmitEvent(ItemAdded(index, ReasoningItem(ReasoningId, "")));
        EmitEvent(SummaryPartAdded(index, ReasoningId));
      }
      reasoning := reasoning + delta;
      EmitEvent(ReasoningDelta(reasoningOutputIndex.value, ReasoningId, delta));
    }

    method FinishReasoningItem()
      modifies this
      ensures Model() == FinishReasoning(old(Model()))
    {
      if reasoningOutputIndex.None? || reasoningDone {
        return;
      }
      var index := reasoningOutputIndex.value;
      EmitEvent(ReasoningTextDone(index, ReasoningId, reasoning));
      EmitEvent(SummaryPartDone(index, ReasoningId, reasoning));
      EmitEvent(ItemDone(index, ReasoningItem(ReasoningId, reasoning)));
      reasoningDone := true;
    }

    method EnsureTextStarted()
      modifies this
      ensures Model() == Assembly.EnsureTextStarted(old(Model()))
    {
      if textOutputIndex.Some? {
        return;
      }
      if reasoning != "" && !reasoningDone {
        FinishReasoningItem();
      }
      var index := AllocateOutputIndex();
      textOutputIndex := Some(index);
      EmitEvent(ItemAdded(index, MessageItem(MessageId, InProgress, "")));
      EmitEvent(ContentPartAdded(index, MessageId));
    }

    method PushTextDelta(text: string)
      requires Valid()
      modifies this
      ensures Model() == Assembly.PushTextDelta(cfg, old(Model()), text)
    {
      if bufferTextUntilToolDecision {
        content := content + text;
        return;
      }
      EnsureTextStarted();
      content := content + text;
      EmitEvent(TextDelta(textOutputIndex.value, MessageId, text));
    }

    method FinishTextItem()
      requires Valid()
      modifies this
      ensures Model() == FinishText(cfg, old(Model()))
    {
      if content == "" || textDone {
        return;
      }
      EnsureTextStarted();
      var index := textOutputIndex.value;
      if bufferTextUntilToolDecision {
        EmitEvent(TextDelta(index, MessageId, content));
      }
      EmitEvent(TextDone(index, MessageId, content));
      EmitEvent(ContentPartDone(index, MessageId, content));
      EmitEvent(ItemDone(index, MessageItem(MessageId, Completed, content)));
      textDone := true;
    }

    // ---------- the think block ----------

    method DisableLeadingThinkDetection()
      requires Valid()
      modifies this
      ensures Model() == DisableDetection(cfg, old(Model()))
    {
      if thinkState != Done {
        FlushPendingThinkBuffer();
        thinkState := Done;
      }
    }

    method AcceptContentDelta(text: string)
      requires Valid()
      modifies this
      ensures Model() == AcceptContent(cfg, old(Model()), text)
    {
      hide SplitAtThinkClose, SplitLeadingThinkBlock, StripLeadingThinkOpenTag, SplitIncompleteThinkCloseSuffix;
      hide Assembly.PushReasoningDelta, Assembly.PushTextDelta, IsLeadingThinkPrefix, InThinkStep, ApplyAll;
      ghost var before := Model();
      ApplyNone(cfg, before.(splitter := Splitter(InThink, "")));
      ApplyNone(cfg, before.(splitter := Splitter(Detecting, thinkBuffer + text)));
      match thinkState {
        case Done =>
          PushTextDelta(text);
          ApplyOne(cfg, before, PushText(text));
        case Detecting =>
          thinkBuffer := thinkBuffer + text;
          var block := SplitLeadingThinkBlock(thinkBuffer);
          if block.Some? {
            var (thought, answer) := block.value;
            thinkBuffer := "";
            thinkState := Done;
            PushThoughtThenAnswer(thought, answer);
            return;
          }
          var opening := StripLeadingThinkOpenTag(thinkBuffer);
          if opening.Some? {
            thinkBuffer := "";
            thinkState := InThink;
            if opening.value != "" {
              SearchState("", opening.value);
              AcceptInThinkContent(opening.value);
            }
            return;
          }
          if IsLeadingThinkPrefix(thinkBuffer) {
            return;
          }
          var held := thinkBuffer;
          thinkBuffer := "";
          thinkState := Done;
          ghost var cleared := Model();
          PushTextDelta(held);
          ApplyOne(cfg, cleared, PushText(held));
        case InThink =>
          SearchState(thinkBuffer, text);
          AcceptInThinkContent(text);
      }
    }

    /** The two pushes that end a think block; the splitter state, reset beside them, plays no part in them. */
    method PushThoughtThenAnswer(thought: string, answer: string)
      requires Valid()
      modifies this
      ensures Model() == ApplyAll(cfg, old(Model()), NonEmptyReasoning(thought) + NonEmptyText(answer))
    {
      hide Assembly.PushReasoningDelta, Assembly.PushTextDelta;
      ghost var before := Model();
      ApplyBoth(cfg, before, thought, answer);
      if thought != "" {
        PushReasoningDelta(thought);
      }
      if answer != "" {
        PushTextDelta(answer);
      }
    }

    method AcceptInThinkContent(text: string)
      requires Valid()
      modifies this
      ensures var (s, pushes) := InThinkStep(old(thinkBuffer), text);
              var next := if s.state == Done then s else Splitter(old(thinkState), s.buffer);
              Model() == ApplyAll(cfg, old(Model()).(splitter := next), pushes)
    {
      hide SplitAtThinkClose, SplitIncompleteThinkCloseSuffix;
      hide Assembly.PushReasoningDelta, Assembly.PushTextDelta;
      thinkBuffer := thinkBuffer + text;
      var closed := SplitAtThinkClose(thinkBuffer);
      if closed.Some? {
        var (thought, answer) := closed.value;
        thinkBuffer := "";
        thinkState := Done;
        PushThoughtThenAnswer(thought, answer);
        return;
      }
      var (emit, keep) := SplitIncompleteThinkCloseSuffix(thinkBuffer);
      thinkBuffer := keep;
      ghost var before := Model();
      if emit != "" {
        PushReasoningDelta(emit);
        ApplyOne(cfg, before, PushReasoning(emit));
      }
    }

    method FlushPendingThinkBuffer()
      requires Valid()
      modifies this
      ensures Model() == Flush(cfg, old(Model()))
    {
      hide Assembly.PushReasoningDelta, Assembly.PushTextDelta;
      match thinkState {
        case Detecting =>
          if thinkBuffer != "" {
            var text := thinkBuffer;
            thinkBuffer := "";
            thinkState := Done;
            ghost var before := Model();
            PushTextDelta(text);
            ApplyOne(cfg, before, PushText(text));
          }
        case InThink =>
          var thought := thinkBuffer;
          thinkBuffer := "";
          thinkState := Done;
          ghost var before := Model();
          if thought != "" {
            PushReasoningDelta(thought);
            ApplyOne(cfg, before, PushReasoning(thought));
          }
        case Done =>
      }
    }

    // ---------- tool calls ----------

    method AcceptToolDelta(delta: CallDelta)
      requires Valid()
      modifies this
      ensures Model() == Assembly.AcceptToolDelta(cfg, old(Model()), delta)
    {
      hide Assembly.EnsureToolStarted, Assembly.EmitToolArguments;
      if delta.index.None? {
        return;
      }
      var index := delta.index.value;
      var entry := if index in toolCalls then toolCalls[index] else NEW_CALL;
      var emitArguments := false;
      var core := entry.core;
      if delta.id != "" {
        if core.added && core.callId != "" && core.callId != delta.id {
        } else if !core.added || core.callId == "" {
          core := core.(callId := delta.id);
        }
      }
      if delta.name != "" {
        if core.added && core.name != delta.name {
        } else if !core.added {
          core := core.(name := delta.name);
        }
      }
      if delta.arguments != "" {
        core := core.(arguments := core.arguments + delta.arguments);
        emitArguments := core.added;
      }
      assert entry.core.arguments + "" == entry.core.arguments;
      assert core == MergeCore(entry.core, delta);
      toolCalls := toolCalls[index := entry.(core := core)];
      EnsureToolStarted(index);
      if emitArguments {
        EmitToolArguments(index, delta.arguments);
      } else {
        NothingToEmit(cfg, Model(), index);
      }
    }

    method EnsureToolStarted(index: nat)
      requires Valid() && index in toolCalls
      modifies this
      ensures Model() == Assembly.EnsureToolStarted(cfg, old(Model()), index)
    {
      hide Assembly.EmitToolArguments, FinishText, FinishReasoning, Assembly.StartTool;
      var core := toolCalls[index].core;
      if core.added || core.callId == "" || core.name == "" {
        return;
      }
      FinishTextSteps(cfg, Model());
      FinishReasoningSteps(Model());
      if !bufferTextUntilToolDecision && content != "" && !textDone {
        FinishTextItem();
      }
      FinishTextSteps(cfg, Model());
      FinishReasoningSteps(Model());
      if reasoning != "" && !reasoningDone {
        FinishReasoningItem();
      }
      var pendingArguments := toolCalls[index].core.arguments;
      StartTool(index);
      if pendingArguments != "" {
        EmitToolArguments(index, pendingArguments);
      } else {
        NothingToEmit(cfg, Model(), index);
      }
    }

    /** Announcing a call under the next output index. */
    method StartTool(index: nat)
      requires index in toolCalls
      modifies this
      ensures Model() == Assembly.StartTool(cfg, old(Model()), index)
    {
      var outputIndex := AllocateOutputIndex();
      var call := toolCalls[index];
      toolCalls := toolCalls[index := call.(core := call.core.(added := true), outputIndex := Some(outputIndex))];
      var item := ToolItem(cfg.tools, cfg.codec, CallItemId(index), InProgress, call.core.callId, call.core.name, "",
          "");
      EmitEvent(ItemAdded(outputIndex, item));
    }

    method EmitToolArguments(index: nat, part: string)
      modifies this
      ensures Model() == Assembly.EmitToolArguments(cfg, old(Model()), index, part)
    {
      if part == "" || index !in toolCalls {
        return;
      }
      var entry := toolCalls[index];
      if !entry.core.added {
        return;
      }
      if IsCustom(cfg.tools, entry.core.name) {
        return;
      }
      if entry.outputIndex.None? {
        return;
      }
      EmitEvent(ArgumentsDelta(entry.outputIndex.value, CallItemId(index), entry.core.callId, part));
    }

    // ---------- chunks ----------

    method Accept(choices: seq<Choice>)
      requires Valid()
      modifies this
      ensures Model() == AcceptAll(cfg, old(Model()), choices)
    {
      hide AcceptChoice;
      for i := 0 to |choices|
        invariant Model() == AcceptAll(cfg, old(Model()), choices[..i])
      {
        assert choices[..i + 1][..i] == choices[..i];
        AcceptOne(choices[i]);
      }
      assert choices[..|choices|] == choices;
    }

    method AcceptOne(choice: Choice)
      requires Valid()
      modifies this
      ensures Model() == AcceptChoice(cfg, old(Model()), choice)
    {
      hide Assembly.PushReasoningDelta, DisableDetection, AcceptContent, Flush, FinishReasoning,
           Assembly.AcceptToolDelta;
      if choice.reasoning != "" {
        DisableLeadingThinkDetection();
        PushReasoningDelta(choice.reasoning);
      }
      if choice.content != "" {
        AcceptContentDelta(choice.content);
      }
      if choice.toolCalls.Some? {
        FlushPendingThinkBuffer();
        if reasoning != "" && !reasoningDone {
          FinishReasoningItem();
        }
        ghost var flushed := Model();
        var calls := choice.toolCalls.value;
        for i := 0 to |calls|
          invariant Model() == AcceptToolDeltas(cfg, flushed, calls[..i])
        {
          assert calls[..i + 1][..i] == calls[..i];
          AcceptToolDelta(calls[i]);
        }
        assert calls[..|calls|] == calls;
      }
      if choice.finishReason.Some? {
        finishReason := choice.finishReason;
      }
    }

    method MarkTruncatedAsLength()
      modifies this`finishReason
      ensures Model() == MarkTruncated(old(Model()))
    {
      if finishReason.None? {
        finishReason := Some("length");
      }
    }

    // ---------- the end ----------

    method Finalize(works: bool) returns (ok: bool)
      requires Valid()
      modifies this
      ensures (Model(), ok) == Assembly.Finalize(cfg, old(Model()), works)
    {
      hide Flush, FinishReasoning, FinishText, FinishCall, HasToolOutput, SortedKeys, Assembly.FinishHead, FinalItems,
           FinalIds, FinalCalls, NamedKeys, FinishCalls, HeadItems;
      if terminalEmitted {
        return true;
      }
      FinishHead();
      ghost var head := Model();
      var output := HeadOutput();
      var keys := SortedKeys(toolCalls.Keys);
      var replayCalls, pending, items := FinishToolCalls(keys);
      output := output + items;
      var assistant := Message(Assistant, Text(content), replayCalls, None, reasoning);
      FinishCallsSteps(cfg, head, keys, |keys|);
      if !works {
        return false;
      }
      stored := stored + [StoredResponse(cfg.responseId, cfg.baseMessages + [assistant], pending, output, cfg.createdAt,
                                         cfg.previousResponseId)];
      EmitEvent(Finished(CompletionStatus(finishReason), output));
      terminalEmitted := true;
      return true;
    }

    /** The head of the output list. */
    method HeadOutput() returns (output: seq<Item>)
      ensures output == HeadItems(Model())
    {
      hide HasToolOutput, Trim;
      var hasToolOutput := exists k :: k in toolCalls && !toolCalls[k].done && Trim(toolCalls[k].core.name) != "";
      HasToolOutputMeans(toolCalls);
      output := [];
      if reasoning != "" {
        output := output + [ReasoningItem(ReasoningId, reasoning)];
      }
      if content != "" && !hasToolOutput {
        output := output + [MessageItem(MessageId, Completed, content)];
      }
    }

    method FinishHead()
      requires Valid()
      modifies this
      ensures Model() == Assembly.FinishHead(cfg, old(Model()))
    {
      hide Flush, FinishReasoning, FinishText, HasToolOutput;
      FlushPendingThinkBuffer();
      if reasoning != "" {
        FinishReasoningItem();
      }
      var hasToolOutput := exists k :: k in toolCalls && !toolCalls[k].done && Trim(toolCalls[k].core.name) != "";
      HasToolOutputMeans(toolCalls);
      if content != "" && !hasToolOutput {
        FinishTextItem();
      }
    }

    /** The loop of `finalize` over the calls in key order. */
    method FinishToolCalls(keys: seq<nat>) returns (replayCalls: seq<ToolCall>, pending: seq<string>, items: seq<Item>)
      requires forall k :: k in keys ==> k in toolCalls
      requires forall i, j :: 0 <= i < j < |keys| ==> keys[i] < keys[j]
      modifies this
      ensures Model() == FinishCalls(cfg, old(Model()), keys, |keys|)
      ensures var named := NamedKeys(old(toolCalls), keys);
              && replayCalls == FinalCalls(cfg, old(toolCalls), named)
              && pending == FinalIds(old(toolCalls), named)
              && items == FinalItems(cfg, old(toolCalls), named)
    {
      hide FinishCall, NamedKeys, FinalCalls, FinalIds, FinalItems, FinalId, FinalItem, FinalCall;
      EmptyFinals(cfg, toolCalls);
      replayCalls, pending, items := [], [], [];
      ghost var calls := toolCalls;
      for i := 0 to |keys|
        invariant Model() == FinishCalls(cfg, old(Model()), keys, i)
        invariant forall k :: k in keys[i..] ==> k in toolCalls && toolCalls[k] == calls[k]
        invariant forall k :: k in keys[..i] ==> k in calls
        invariant replayCalls == FinalCalls(cfg, calls, NamedKeys(calls, keys[..i]))
        invariant pending == FinalIds(calls, NamedKeys(calls, keys[..i]))
        invariant items == FinalItems(cfg, calls, NamedKeys(calls, keys[..i]))
      {
        var key := keys[i];
        assert key in keys[i..];
        NamedKeysSnoc(calls, keys, i);
        ghost var named := NamedKeys(calls, keys[..i]);
        FinalsSnoc(cfg, calls, named, key);
        assert named + [] == named;
        FinishCallSteps(cfg, Model(), key);
        var call := toolCalls[key];
        FinishToolCall(key);
        if !call.done && call.core.name != "" {
          replayCalls := replayCalls + [FinalCall(cfg, key, call.core)];
          pending := pending + [FinalId(key, call.core)];
          items := items + [FinalItem(cfg, key, call.core)];
        }
      }
      assert keys[..|keys|] == keys;
    }

    method StartToolForFinalize(key: nat)
      requires key in toolCalls
      modifies this
      ensures Model() == Assembly.StartToolForFinalize(cfg, old(Model()), key)
    {
      hide Assembly.StartTool;
      var call := toolCalls[key];
      assert call.core == call.core.(callId := call.core.callId) && toolCalls == toolCalls[key := call];
      if call.core.callId == "" {
        toolCalls := toolCalls[key := call.(core := call.core.(callId := "call_" + Decimal(key)))];
      }
      StartTool(key);
    }

    /** One call of that loop. */
    method FinishToolCall(key: nat)
      requires key in toolCalls
      modifies this
      ensures Model() == FinishCall(cfg, old(Model()), key)
    {
      hide EmitCallDone, ToolItem;
      if toolCalls[key].done {
        return;
      }
      if toolCalls[key].core.name == "" {
        toolCalls := toolCalls[key := toolCalls[key].(done := true)];
        return;
      }
      if !toolCalls[key].core.added {
        StartToolForFinalize(key);
      }
      var call := toolCalls[key];
      if call.core.callId == "" {
        call := call.(core := call.core.(callId := "call_" + Decimal(key)));
      }
      toolCalls := toolCalls[key := call.(done := true)];
      EmitToolDone(key, call.outputIndex.GetOr(0), call.core);
    }

    /** The closing events of a call. */
    method EmitToolDone(key: nat, outputIndex: nat, core: CallCore)
      modifies this
      ensures Model() == EmitCallDone(cfg, old(Model()), key, outputIndex, core)
    {
      hide ToolItem, CustomInput, IsCustom;
      var arguments := cfg.codec.canon(core.arguments);
      var item := ToolItem(cfg.tools, cfg.codec, CallItemId(key), Completed, FinalId(key, core), core.name, arguments,
          "");
      if IsCustom(cfg.tools, core.name) {
        var input := CustomInput(cfg.codec, arguments);
        if input != "" {
          EmitEvent(CustomInputDelta(outputIndex, CallItemId(key), input));
        }
        EmitEvent(CustomInputDone(outputIndex, CallItemId(key), input));
      } else {
        EmitEvent(ArgumentsDone(outputIndex, CallItemId(key), core.callId, arguments));
      }
      EmitEvent(ItemDone(outputIndex, item));
    }

    method Fail(kind: string, message: string)
      modifies this
      ensures Model() == Assembly.Fail(old(Model()), kind, message)
    {
      if terminalEmitted {
        return;
      }
      EmitEvent(Failed(kind, Take(message, 1000)));
      terminalEmitted := true;
    }

    method HasSubstantiveOutput() returns (substantive: bool)
      ensures substantive == Assembly.HasSubstantiveOutput(Model())
    {
      hide Trim;
      substantive := || Trim(content) != "" || Trim(reasoning) != "" || Trim(thinkBuffer) != ""
        || exists k :: k in toolCalls && (|| toolCalls[k].core.added || Trim(toolCalls[k].core.arguments) != ""
                                          || Trim(toolCalls[k].core.name) != "");
    }
  }
}
