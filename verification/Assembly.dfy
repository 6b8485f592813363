/** What each operation of the stream assembler does to its state
    (src/conversion/stream_chat_to_responses.rs). */
module Assembly {
  import opened Wrappers
  import opened Text
  import opened Think
  import opened Chat
  import opened ToolTable
  import opened Items
  import opened SafeNames

  // ---------- upstream deltas ----------

  /** A fragment of a tool call; missing or empty strings are "". Arguments are already text. */
  datatype CallDelta = CallDelta(index: Option<nat>, id: string, name: string, arguments: string)

  /** One choice of a chunk: its delta and finish reason; missing texts are "". */
  datatype Choice = Choice(reasoning: string, content: string, toolCalls: Option<seq<CallDelta>>,
                           finishReason: Option<string>)

  // ---------- downstream events ----------

  datatype Payload =
    | Created
    | StartedProgress
    | ItemAdded(index: nat, item: Item)
    | SummaryPartAdded(index: nat, id: ItemId)
    | ReasoningDelta(index: nat, id: ItemId, text: string)
    | ReasoningTextDone(index: nat, id: ItemId, text: string)
    | SummaryPartDone(index: nat, id: ItemId, text: string)
    | ContentPartAdded(index: nat, id: ItemId)
    | TextDelta(index: nat, id: ItemId, text: string)
    | TextDone(index: nat, id: ItemId, text: string)
    | ContentPartDone(index: nat, id: ItemId, text: string)
    | ArgumentsDelta(index: nat, id: ItemId, callId: string, text: string)
    | ArgumentsDone(index: nat, id: ItemId, callId: string, text: string)
    | CustomInputDelta(index: nat, id: ItemId, text: string)
    | CustomInputDone(index: nat, id: ItemId, text: string)
    | ItemDone(index: nat, item: Item)
    | Finished(incomplete: Option<IncompleteReason>, output: seq<Item>)
    | Failed(kind: string, message: string)

  datatype Event = Event(sequence: nat, payload: Payload)

  // ---------- state ----------

  /** What the fragments of a call decide; `added` once the call has been announced. */
  datatype CallCore = CallCore(callId: string, name: string, arguments: string, added: bool)

  datatype Call = Call(core: CallCore, outputIndex: Option<nat>, done: bool)

  const NEW_CORE := CallCore("", "", "", false)
  const NEW_CALL := Call(NEW_CORE, None, false)

  datatype Config = Config(
    tools: Table,
    codec: Codec,
    baseMessages: seq<Message>,
    responseId: string,
    createdAt: int,
    previousResponseId: string)

  /** With declared tools, text is held back until it is known whether a tool is called. */
  predicate Buffered(cfg: Config) {
    cfg.tools.chatTools != []
  }

  datatype Asm = Asm(
    content: string,
    reasoning: string,
    calls: map<nat, Call>,
    finishReason: Option<string>,
    sequence: nat,
    nextIndex: nat,
    textIndex: Option<nat>,
    reasoningIndex: Option<nat>,
    textDone: bool,
    reasoningDone: bool,
    terminalEmitted: bool,
    splitter: Splitter,
    log: seq<Event>,
    stored: seq<StoredResponse>)

  const INITIAL := Asm("", "", map[], None, 0, 0, None, None, false, false, false, Splitter(Detecting, ""), [], [])

  function Emit(a: Asm, payload: Payload): Asm {
    a.(sequence := a.sequence + 1, log := a.log + [Event(a.sequence + 1, payload)])
  }

  function Start(a: Asm): Asm {
    Emit(Emit(a, Created), StartedProgress)
  }

  // ---------- reasoning ----------

  function StartReasoning(a: Asm): Asm {
    if a.reasoningIndex.Some? then a
    else
      var index := a.nextIndex;
      var b := a.(nextIndex := index + 1, reasoningIndex := Some(index));
      Emit(Emit(b, ItemAdded(index, ReasoningItem(ReasoningId, ""))), SummaryPartAdded(index, ReasoningId))
  }

  function PushReasoningDelta(a: Asm, delta: string): Asm {
    var b := StartReasoning(a);
    Emit(b.(reasoning := b.reasoning + delta), ReasoningDelta(b.reasoningIndex.value, ReasoningId, delta))
  }

  function FinishReasoning(a: Asm): Asm {
    if a.reasoningIndex.None? || a.reasoningDone then a
    else
      var index := a.reasoningIndex.value;
      var b := Emit(a, ReasoningTextDone(index, ReasoningId, a.reasoning));
      var c := Emit(b, SummaryPartDone(index, ReasoningId, a.reasoning));
      Emit(c, ItemDone(index, ReasoningItem(ReasoningId, a.reasoning))).(reasoningDone := true)
  }

  function FinishPendingReasoning(a: Asm): Asm {
    if a.reasoning != "" && !a.reasoningDone then FinishReasoning(a) else a
  }

  // ---------- text ----------

  function EnsureTextStarted(a: Asm): Asm {
    if a.textIndex.Some? then a
    else
      var b := FinishPendingReasoning(a);
      var index := b.nextIndex;
      var c := b.(nextIndex := index + 1, textIndex := Some(index));
      Emit(Emit(c, ItemAdded(index, MessageItem(MessageId, InProgress, ""))), ContentPartAdded(index, MessageId))
  }

  function PushTextDelta(cfg: Config, a: Asm, text: string): Asm {
    if Buffered(cfg) then a.(content := a.content + text)
    else
      var b := EnsureTextStarted(a);
      Emit(b.(content := b.content + text), TextDelta(b.textIndex.value, MessageId, text))
  }

  function FinishText(cfg: Config, a: Asm): Asm {
    if a.content == "" || a.textDone then a
    else
      var b := EnsureTextStarted(a);
      var index := b.textIndex.value;
      var c := if Buffered(cfg) then Emit(b, TextDelta(index, MessageId, b.content)) else b;
      var d := Emit(c, TextDone(index, MessageId, c.content));
      var e := Emit(d, ContentPartDone(index, MessageId, d.content));
      Emit(e, ItemDone(index, MessageItem(MessageId, Completed, e.content))).(textDone := true)
  }

  // ---------- the think splitter ----------

  function ApplyPush(cfg: Config, a: Asm, push: Push): Asm {
    match push
    case PushReasoning(text) => PushReasoningDelta(a, text)
    case PushText(text) => PushTextDelta(cfg, a, text)
  }

  function ApplyAll(cfg: Config, a: Asm, pushes: seq<Push>): Asm
    decreases |pushes|
  {
    if pushes == [] then a else ApplyAll(cfg, ApplyPush(cfg, a, pushes[0]), pushes[1..])
  }

  function AcceptContent(cfg: Config, a: Asm, text: string): Asm {
    var (s, pushes) := ContentStep(a.splitter, text);
    ApplyAll(cfg, a.(splitter := s), pushes)
  }

  function Flush(cfg: Config, a: Asm): Asm {
    var (s, pushes) := FlushStep(a.splitter);
    ApplyAll(cfg, a.(splitter := s), pushes)
  }

  function DisableDetection(cfg: Config, a: Asm): Asm {
    if a.splitter.state == Done then a
    else
      var b := Flush(cfg, a);
      b.(splitter := Splitter(Done, b.splitter.buffer))
  }

  // ---------- tool calls ----------

  function MergeCore(core: CallCore, delta: CallDelta): CallCore {
    CallCore(
      if delta.id != "" && (!core.added || core.callId == "") then delta.id else core.callId,
      if delta.name != "" && !core.added then delta.name else core.name,
      core.arguments + delta.arguments,
      core.added)
  }

  predicate CanStart(core: CallCore) {
    !core.added && core.callId != "" && core.name != ""
  }

  function EmitToolArguments(cfg: Config, a: Asm, k: nat, part: string): Asm {
    if part == "" || k !in a.calls || !a.calls[k].core.added || IsCustom(cfg.tools, a.calls[k].core.name)
       || a.calls[k].outputIndex.None? then a
    else
      var call := a.calls[k];
      Emit(a, ArgumentsDelta(call.outputIndex.value, CallItemId(k), call.core.callId, part))
  }

  /** The call is given the next output index and announced. */
  function StartTool(cfg: Config, a: Asm, k: nat): Asm
    requires k in a.calls
  {
    var core := a.calls[k].core;
    var index := a.nextIndex;
    var call := a.calls[k].(core := core.(added := true), outputIndex := Some(index));
    var item := ToolItem(cfg.tools, cfg.codec, CallItemId(k), InProgress, core.callId, core.name, "", "");
    Emit(a.(nextIndex := index + 1, calls := a.calls[k := call]), ItemAdded(index, item))
  }

  function EnsureToolStarted(cfg: Config, a: Asm, k: nat): Asm
    requires k in a.calls
  {
    if !CanStart(a.calls[k].core) then a
    else
      var b := if !Buffered(cfg) && a.content != "" && !a.textDone then FinishText(cfg, a) else a;
      var c := FinishPendingReasoning(b);
      EmitToolArguments(cfg, StartTool(cfg, c, k), k, c.calls[k].core.arguments)
  }

  function CallAt(a: Asm, k: nat): Call {
    if k in a.calls then a.calls[k] else NEW_CALL
  }

  function MergeDelta(a: Asm, k: nat, delta: CallDelta): Asm {
    var call := CallAt(a, k);
    a.(calls := a.calls[k := call.(core := MergeCore(call.core, delta))])
  }

  function AcceptToolDelta(cfg: Config, a: Asm, delta: CallDelta): Asm {
    if delta.index.None? then a
    else
      var k := delta.index.value;
      var b := EnsureToolStarted(cfg, MergeDelta(a, k, delta), k);
      if CallAt(a, k).core.added then EmitToolArguments(cfg, b, k, delta.arguments) else b
  }

  function AcceptToolDeltas(cfg: Config, a: Asm, deltas: seq<CallDelta>): Asm {
    if deltas == [] then a
    else AcceptToolDelta(cfg, AcceptToolDeltas(cfg, a, deltas[..|deltas| - 1]), deltas[|deltas| - 1])
  }

  // ---------- choices ----------

  function AcceptReasoning(cfg: Config, a: Asm, reasoning: string): Asm {
    if reasoning == "" then a else PushReasoningDelta(DisableDetection(cfg, a), reasoning)
  }

  function AcceptText(cfg: Config, a: Asm, content: string): Asm {
    if content == "" then a else AcceptContent(cfg, a, content)
  }

  function AcceptCalls(cfg: Config, a: Asm, toolCalls: Option<seq<CallDelta>>): Asm {
    if toolCalls.None? then a
    else AcceptToolDeltas(cfg, FinishPendingReasoning(Flush(cfg, a)), toolCalls.value)
  }

  function AcceptFinish(a: Asm, finishReason: Option<string>): Asm {
    if finishReason.None? then a else a.(finishReason := finishReason)
  }

  function AcceptChoice(cfg: Config, a: Asm, choice: Choice): Asm {
    var b := AcceptReasoning(cfg, a, choice.reasoning);
    var c := AcceptText(cfg, b, choice.content);
    var d := AcceptCalls(cfg, c, choice.toolCalls);
    AcceptFinish(d, choice.finishReason)
  }

  function AcceptAll(cfg: Config, a: Asm, choices: seq<Choice>): Asm {
    if choices == [] then a
    else AcceptChoice(cfg, AcceptAll(cfg, a, choices[..|choices| - 1]), choices[|choices| - 1])
  }

  /** The state before the end of a stream. */
  function AfterChoices(cfg: Config, choices: seq<Choice>): Asm {
    AcceptAll(cfg, Start(INITIAL), choices)
  }

  // ---------- the end of the stream ----------

  function Least(s: set<nat>): (k: nat)
    requires s != {}
    ensures k in s && forall j :: j in s ==> k <= j
  {
    LeastExists(s);
    var k :| k in s && forall j :: j in s ==> k <= j;
    k
  }

  lemma LeastExists(s: set<nat>)
    requires s != {}
    ensures exists k :: k in s && forall j :: j in s ==> k <= j
  {
    var k :| k in s;
    LeastUpTo(s, k);
  }

  lemma {:induction false} LeastUpTo(s: set<nat>, k: nat)
    requires k in s
    ensures exists least :: least in s && forall j :: j in s ==> least <= j
  {
    if j :| j in s && j < k {
      LeastUpTo(s, j);
    }
  }

  /** The keys in increasing order, as the ordered map is walked. */
  function SortedKeys(s: set<nat>): (keys: seq<nat>)
    ensures forall k :: k in keys <==> k in s
    ensures forall i, j :: 0 <= i < j < |keys| ==> keys[i] < keys[j]
  {
    if s == {} then [] else
    var k := Least(s);
    [k] + SortedKeys(s - {k})
  }

  predicate HasToolOutput(calls: map<nat, Call>) {
    exists k :: k in calls && !calls[k].done && Trim(calls[k].core.name) != ""
  }

  function FinalId(k: nat, core: CallCore): string {
    if core.callId == "" then "call_" + Decimal(k) else core.callId
  }

  function FinalArguments(cfg: Config, core: CallCore): string {
    cfg.codec.canon(core.arguments)
  }

  function FinalItem(cfg: Config, k: nat, core: CallCore): Item {
    ToolItem(cfg.tools, cfg.codec, CallItemId(k), Completed, FinalId(k, core), core.name, FinalArguments(cfg, core), "")
  }

  /** The call as the history keeps it. */
  function FinalCall(cfg: Config, k: nat, core: CallCore): ToolCall {
    ToolCall(Some(FinalId(k, core)), core.name, FinalArguments(cfg, core))
  }

  /** The calls that reach the output: those with a name. */
  function NamedKeys(calls: map<nat, Call>, keys: seq<nat>): (named: seq<nat>)
    requires forall k :: k in keys ==> k in calls
    ensures forall k :: k in named ==> k in keys && k in calls && !calls[k].done && calls[k].core.name != ""
  {
    if keys == [] then []
    else
      (if !calls[keys[0]].done && calls[keys[0]].core.name != "" then [keys[0]] else []) + NamedKeys(calls, keys[1..])
  }

  function FinalItems(cfg: Config, calls: map<nat, Call>, keys: seq<nat>): (items: seq<Item>)
    requires forall k :: k in keys ==> k in calls
    ensures |items| == |keys|
  {
    seq(|keys|, i requires 0 <= i < |keys| => FinalItem(cfg, keys[i], calls[keys[i]].core))
  }

  function FinalIds(calls: map<nat, Call>, keys: seq<nat>): (ids: seq<string>)
    requires forall k :: k in keys ==> k in calls
    ensures |ids| == |keys|
  {
    seq(|keys|, i requires 0 <= i < |keys| => FinalId(keys[i], calls[keys[i]].core))
  }

  function FinalCalls(cfg: Config, calls: map<nat, Call>, keys: seq<nat>): (replay: seq<ToolCall>)
    requires forall k :: k in keys ==> k in calls
    ensures |replay| == |keys|
  {
    seq(|keys|, i requires 0 <= i < |keys| => FinalCall(cfg, keys[i], calls[keys[i]].core))
  }

  /** A call that was never announced is announced now, under a generated id if it has none. */
  function StartToolForFinalize(cfg: Config, a: Asm, k: nat): Asm
    requires k in a.calls
  {
    var call := a.calls[k];
    StartTool(cfg, a.(calls := a.calls[k := call.(core := call.core.(callId := FinalId(k, call.core)))]), k)
  }

  function Announced(cfg: Config, a: Asm, k: nat): (b: Asm)
    requires k in a.calls
    ensures b.calls.Keys == a.calls.Keys
  {
    if a.calls[k].core.added then a else StartToolForFinalize(cfg, a, k)
  }

  function EmitCallDone(cfg: Config, a: Asm, k: nat, index: nat, core: CallCore): Asm {
    var arguments := FinalArguments(cfg, core);
    var input := CustomInput(cfg.codec, arguments);
    var b :=
      if IsCustom(cfg.tools, core.name) then
        var c := if input != "" then Emit(a, CustomInputDelta(index, CallItemId(k), input)) else a;
        Emit(c, CustomInputDone(index, CallItemId(k), input))
      else Emit(a, ArgumentsDone(index, CallItemId(k), core.callId, arguments));
    Emit(b, ItemDone(index, FinalItem(cfg, k, core)))
  }

  function CloseCall(cfg: Config, a: Asm, k: nat): Asm
    requires k in a.calls
  {
    var core := a.calls[k].core.(callId := FinalId(k, a.calls[k].core));
    var b := a.(calls := a.calls[k := a.calls[k].(core := core, done := true)]);
    EmitCallDone(cfg, b, k, a.calls[k].outputIndex.GetOr(0), core)
  }

  function FinishCall(cfg: Config, a: Asm, k: nat): (b: Asm)
    requires k in a.calls
    ensures b.calls.Keys == a.calls.Keys
  {
    var call := a.calls[k];
    if call.done then a
    else if call.core.name == "" then a.(calls := a.calls[k := call.(done := true)])
    else CloseCall(cfg, Announced(cfg, a, k), k)
  }

  function FinishCalls(cfg: Config, a: Asm, keys: seq<nat>, n: nat): (b: Asm)
    requires n <= |keys| && forall k :: k in keys ==> k in a.calls
    ensures b.calls.Keys == a.calls.Keys
  {
    if n == 0 then a else FinishCall(cfg, FinishCalls(cfg, a, keys, n - 1), keys[n - 1])
  }

  /** The items finished before the calls. */
  function FinishHead(cfg: Config, a: Asm): Asm {
    var b := Flush(cfg, a);
    var c := if b.reasoning != "" then FinishReasoning(b) else b;
    if c.content != "" && !HasToolOutput(c.calls) then FinishText(cfg, c) else c
  }

  function HeadItems(a: Asm): seq<Item> {
    (if a.reasoning != "" then [ReasoningItem(ReasoningId, a.reasoning)] else [])
    + (if a.content != "" && !HasToolOutput(a.calls) then [MessageItem(MessageId, Completed, a.content)] else [])
  }

  function OutputKeys(a: Asm): (keys: seq<nat>)
    ensures forall k :: k in keys ==> k in a.calls
  {
    NamedKeys(a.calls, SortedKeys(a.calls.Keys))
  }

  /** The output list, once the head items are finished. */
  function Output(cfg: Config, a: Asm): seq<Item> {
    HeadItems(a) + FinalItems(cfg, a.calls, OutputKeys(a))
  }

  function AssistantMessage(cfg: Config, a: Asm): Message {
    Message(Assistant, Text(a.content), FinalCalls(cfg, a.calls, OutputKeys(a)), None, a.reasoning)
  }

  function Record(cfg: Config, a: Asm): StoredResponse {
    StoredResponse(cfg.responseId, cfg.baseMessages + [AssistantMessage(cfg, a)], FinalIds(a.calls, OutputKeys(a)),
                   Output(cfg, a), cfg.createdAt, cfg.previousResponseId)
  }

  /** `works` is whether the store accepts the record; the second component is whether the call succeeds. */
  function Finalize(cfg: Config, a: Asm, works: bool): (Asm, bool) {
    if a.terminalEmitted then (a, true)
    else
      var b := FinishHead(cfg, a);
      var keys := SortedKeys(b.calls.Keys);
      var c := FinishCalls(cfg, b, keys, |keys|);
      if !works then (c, false)
      else
        var d := c.(stored := c.stored + [Record(cfg, b)]);
        (Emit(d, Finished(CompletionStatus(d.finishReason), Output(cfg, b))).(terminalEmitted := true), true)
  }

  function Fail(a: Asm, kind: string, message: string): Asm {
    if a.terminalEmitted then a
    else Emit(a, Failed(kind, Take(message, 1000))).(terminalEmitted := true)
  }

  function MarkTruncated(a: Asm): Asm {
    if a.finishReason.None? then a.(finishReason := Some("length")) else a
  }

  predicate HasSubstantiveOutput(a: Asm) {
    || Trim(a.content) != "" || Trim(a.reasoning) != "" || Trim(a.splitter.buffer) != ""
    || exists k :: k in a.calls && (|| a.calls[k].core.added || Trim(a.calls[k].core.arguments) != ""
                                    || Trim(a.calls[k].core.name) != "")
  }
}
