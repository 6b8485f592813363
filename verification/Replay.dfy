/** A client that rebuilds the output from the event log, and what each step of a stream does to it: an output index is
    added once, in order, changed only while it is open, and closed once, unless the step adds to a closed item. */
module Replay {
  import opened Wrappers
  import opened Text
  import opened Think
  import opened ToolTable
  import opened Items
  import opened Assembly
  import opened Steps
  import opened AssemblyFacts

  // ---------- the client ----------

  /** What a client holds for one output index: the item as it was announced, what was added to it, and the item as it
      was closed. */
  datatype Slot = Slot(item: Item, text: string, done: Option<Item>)

  datatype Client = Client(slots: seq<Slot>, finished: seq<Item>)

  const NEW_CLIENT := Client([], [])

  predicate IsOpen(c: Client, index: nat, id: ItemId) {
    index < |c.slots| && c.slots[index].item.id == id && c.slots[index].done == None
  }

  /** An item is announced in progress and empty, a call with its id. */
  predicate IsNew(item: Item) {
    match item
    case ReasoningItem(_, text) => text == ""
    case MessageItem(_, status, text) => status == InProgress && text == ""
    case FunctionCallItem(_, status, callId, _, _, arguments, _) =>
      status == InProgress && callId != "" && arguments == ""
    case CustomCallItem(_, status, callId, _, input, _) => status == InProgress && callId != "" && input == ""
    case SearchCallItem(_, status, callId, _, _) => status == InProgress && callId != ""
  }

  /** The same item, completed: of the same kind and, for a call, with the same id and tool. */
  predicate Completes(item: Item, done: Item) {
    && done.id == item.id
    && match item
       case ReasoningItem(_, _) => done.ReasoningItem?
       case MessageItem(_, _, _) => done.MessageItem? && done.status == Completed
       case FunctionCallItem(_, _, callId, name, namespace, _, _) =>
         && done.FunctionCallItem? && done.status == Completed && done.callId == callId && done.name == name
         && done.namespace == namespace
       case CustomCallItem(_, _, callId, name, _, _) =>
         done.CustomCallItem? && done.status == Completed && done.callId == callId && done.name == name
       case SearchCallItem(_, _, callId, _, _) =>
         done.SearchCallItem? && done.status == Completed && done.callId == callId
  }

  /** A call that takes arguments, with this id. */
  predicate TakesArguments(item: Item, callId: string) {
    (item.FunctionCallItem? || item.SearchCallItem?) && item.callId == callId
  }

  function Append(c: Client, index: nat, id: ItemId, text: string): Option<Client> {
    if IsOpen(c, index, id)
    then Some(c.(slots := c.slots[index := c.slots[index].(text := c.slots[index].text + text)]))
    else None
  }

  /** An announcement that the text of an open item is complete. */
  function Confirm(c: Client, index: nat, id: ItemId, text: string): Option<Client> {
    if IsOpen(c, index, id) && c.slots[index].text == text then Some(c) else None
  }

  /** What was added is what the closed item holds; arguments may also come without any fragments. */
  predicate TextAgrees(codec: Codec, text: string, item: Item) {
    match item
    case ReasoningItem(_, whole) => text == whole
    case MessageItem(_, _, whole) => text == whole
    case FunctionCallItem(_, _, _, _, _, arguments, _) => text == "" || codec.canon(text) == arguments
    case CustomCallItem(_, _, _, _, input, _) => text == input
    case SearchCallItem(_, _, _, _, _) => true
  }

  /** One event; `None` when it breaks the protocol. Fragments of a call started by its last event are not repeated, so
      arguments may also be complete without any. */
  function ClientStep(codec: Codec, c: Client, payload: Payload): Option<Client> {
    match payload
    case ItemAdded(index, item) =>
      if index == |c.slots| && IsNew(item) then Some(c.(slots := c.slots + [Slot(item, "", None)])) else None
    case SummaryPartAdded(index, id) => Confirm(c, index, id, "")
    case ContentPartAdded(index, id) => Confirm(c, index, id, "")
    case ReasoningDelta(index, id, text) => Append(c, index, id, text)
    case TextDelta(index, id, text) => Append(c, index, id, text)
    case ArgumentsDelta(index, id, callId, text) =>
      if IsOpen(c, index, id) && TakesArguments(c.slots[index].item, callId) then Append(c, index, id, text) else None
    case CustomInputDelta(index, id, text) =>
      if IsOpen(c, index, id) && c.slots[index].item.CustomCallItem? then Append(c, index, id, text) else None
    case ReasoningTextDone(index, id, text) => Confirm(c, index, id, text)
    case SummaryPartDone(index, id, text) => Confirm(c, index, id, text)
    case TextDone(index, id, text) => Confirm(c, index, id, text)
    case ContentPartDone(index, id, text) => Confirm(c, index, id, text)
    case CustomInputDone(index, id, text) =>
      if IsOpen(c, index, id) && c.slots[index].item.CustomCallItem? then Confirm(c, index, id, text) else None
    case ArgumentsDone(index, id, callId, text) =>
      if && IsOpen(c, index, id) && TakesArguments(c.slots[index].item, callId)
         && (c.slots[index].text == "" || codec.canon(c.slots[index].text) == text)
      then Some(c)
      else None
    case ItemDone(index, item) =>
      if && IsOpen(c, index, item.id) && Completes(c.slots[index].item, item)
         && TextAgrees(codec, c.slots[index].text, item)
      then Some(Client(c.slots[index := c.slots[index].(done := Some(item))], c.finished + [item]))
      else None
    case _ => Some(c)
  }

  function StepFrom(codec: Codec, c: Option<Client>, payload: Payload): Option<Client> {
    if c.None? then None else ClientStep(codec, c.value, payload)
  }

  function Replayed(codec: Codec, log: seq<Event>): Option<Client> {
    if log == [] then Some(NEW_CLIENT)
    else StepFrom(codec, Replayed(codec, log[..|log| - 1]), log[|log| - 1].payload)
  }

  function ClientOf(cfg: Config, a: Asm): Option<Client> {
    Replayed(cfg.codec, a.log)
  }

  lemma EmitStep(cfg: Config, a: Asm, payload: Payload)
    ensures ClientOf(cfg, Emit(a, payload)) == StepFrom(cfg.codec, ClientOf(cfg, a), payload)
  {
    var log := a.log + [Event(a.sequence + 1, payload)];
    assert log[..|log| - 1] == a.log;
  }

  lemma {:induction false} BrokenStaysBroken(codec: Codec, log: seq<Event>, longer: seq<Event>)
    requires log <= longer && Replayed(codec, log) == None
    ensures Replayed(codec, longer) == None
    decreases |longer|
  {
    if log != longer {
      BrokenStaysBroken(codec, log, longer[..|longer| - 1]);
    } else {
      assert log == longer;
    }
  }

  // ---------- what the client holds ----------

  const NEW_REASONING := ReasoningItem(ReasoningId, "")
  const NEW_MESSAGE := MessageItem(MessageId, InProgress, "")

  /** A call as it is announced. */
  function NewItem(cfg: Config, k: nat, callId: string, name: string): (item: Item)
    ensures item.id == CallItemId(k)
  {
    ToolItem(cfg.tools, cfg.codec, CallItemId(k), InProgress, callId, name, "", "")
  }

  function NewCall(cfg: Config, k: nat, core: CallCore): Item {
    NewItem(cfg, k, core.callId, core.name)
  }

  lemma NewCallIs(cfg: Config, k: nat, core: CallCore)
    requires core.callId != ""
    ensures var item := NewCall(cfg, k, core);
            && item.id == CallItemId(k) && IsNew(item)
            && (if IsCustom(cfg.tools, core.name) then item.CustomCallItem? else TakesArguments(item, core.callId))
            && Completes(item, FinalItem(cfg, k, core))
  {
    TrimNothing();
  }

  function ReasoningSlot(a: Asm): Slot {
    Slot(NEW_REASONING, a.reasoning, if a.reasoningDone then Some(ReasoningItem(ReasoningId, a.reasoning)) else None)
  }

  ghost predicate ReasoningTracked(a: Asm, c: Client) {
    match a.reasoningIndex
    case None => a.reasoning == "" && !a.reasoningDone
    case Some(i) => i < |c.slots| && c.slots[i] == ReasoningSlot(a)
  }

  function TextSlot(a: Asm): Slot {
    Slot(NEW_MESSAGE, a.content, if a.textDone then Some(MessageItem(MessageId, Completed, a.content)) else None)
  }

  ghost predicate TextTracked(a: Asm, c: Client) {
    match a.textIndex
    case None => !a.textDone
    case Some(i) => i < |c.slots| && c.slots[i] == TextSlot(a)
  }

  /** The fragments of a running call: none are sent for custom tools. */
  function SentArguments(cfg: Config, core: CallCore): string {
    if IsCustom(cfg.tools, core.name) then "" else core.arguments
  }

  function CallSlot(cfg: Config, k: nat, call: Call, text: string): Slot {
    Slot(NewCall(cfg, k, call.core), text, if call.done then Some(FinalItem(cfg, k, call.core)) else None)
  }

  ghost predicate CallTracked(cfg: Config, k: nat, call: Call, c: Client) {
    match call.outputIndex
    case None => !call.core.added && (call.done ==> call.core.name == "")
    case Some(i) =>
      && call.core.added && call.core.callId != "" && call.core.name != ""
      && i < |c.slots|
      && c.slots[i] == CallSlot(cfg, k, call, c.slots[i].text)
      && (!call.done ==> c.slots[i].text == SentArguments(cfg, call.core))
  }

  ghost predicate CallsTracked(cfg: Config, a: Asm, c: Client) {
    forall k :: k in a.calls ==> CallTracked(cfg, k, a.calls[k], c)
  }

  ghost predicate IsOwned(a: Asm, i: nat, id: ItemId) {
    match id
    case ReasoningId => a.reasoningIndex == Some(i)
    case MessageId => a.textIndex == Some(i)
    case CallItemId(k) => k in a.calls && a.calls[k].outputIndex == Some(i)
    case DerivedId(_) => false
  }

  ghost predicate Owned(a: Asm, c: Client) {
    forall i :: 0 <= i < |c.slots| ==> IsOwned(a, i, c.slots[i].item.id)
  }

  ghost predicate Tracks(cfg: Config, a: Asm, c: Client) {
    && |c.slots| == a.nextIndex
    && ReasoningTracked(a, c)
    && TextTracked(a, c)
    && CallsTracked(cfg, a, c)
    && Owned(a, c)
  }

  /** What has been closed before the calls: the reasoning, then the text. */
  function ClosedHead(a: Asm): seq<Item> {
    (if a.reasoningDone then [ReasoningItem(ReasoningId, a.reasoning)] else [])
    + (if a.textDone then [MessageItem(MessageId, Completed, a.content)] else [])
  }

  /** These head items are closed and no others; with declared tools in this order. */
  ghost predicate AreClosed(cfg: Config, a: Asm, finished: seq<Item>) {
    multiset(finished) == multiset(ClosedHead(a)) && (Buffered(cfg) ==> finished == ClosedHead(a))
  }

  lemma ClosedSame(cfg: Config, a: Asm, b: Asm, finished: seq<Item>)
    requires AreClosed(cfg, a, finished) && b.reasoningDone == a.reasoningDone && b.textDone == a.textDone
    requires (a.reasoningDone ==> b.reasoning == a.reasoning) && (a.textDone ==> b.content == a.content)
    ensures AreClosed(cfg, b, finished)
  {
    assert ClosedHead(b) == ClosedHead(a);
  }

  lemma ClosedReasoning(cfg: Config, a: Asm, b: Asm, finished: seq<Item>)
    requires AreClosed(cfg, a, finished) && !a.reasoningDone && (Buffered(cfg) ==> !a.textDone)
    requires b.reasoningDone && b.reasoning == a.reasoning && b.textDone == a.textDone && b.content == a.content
    ensures AreClosed(cfg, b, finished + [ReasoningItem(ReasoningId, a.reasoning)])
  {
    assert [] + [ReasoningItem(ReasoningId, a.reasoning)] == [ReasoningItem(ReasoningId, a.reasoning)];
  }

  lemma ClosedText(cfg: Config, a: Asm, b: Asm, finished: seq<Item>)
    requires AreClosed(cfg, a, finished) && !a.textDone
    requires b.reasoningDone == a.reasoningDone && b.reasoning == a.reasoning && b.textDone && b.content == a.content
    ensures AreClosed(cfg, b, finished + [MessageItem(MessageId, Completed, a.content)])
  {
    assert ClosedHead(b) == ClosedHead(a) + [MessageItem(MessageId, Completed, a.content)];
  }

  /** The client follows the assembler, and so far only head items are closed. */
  ghost predicate Follows(cfg: Config, a: Asm) {
    && ClientOf(cfg, a).Some?
    && Tracks(cfg, a, ClientOf(cfg, a).value)
    && AreClosed(cfg, a, ClientOf(cfg, a).value.finished)
  }

  /** No call is closed yet. With declared tools no text is announced; without them it is announced as it comes. */
  ghost predicate Running(cfg: Config, a: Asm) {
    && !a.terminalEmitted && (forall k :: k in a.calls ==> !a.calls[k].done)
    && (a.reasoning != "" ==> a.splitter.state != Detecting)
    && (a.reasoningDone ==> a.splitter.state == Done)
    && (a.reasoningIndex.Some? <==> a.reasoning != "")
    && TextRunning(cfg, a)
    && (!Buffered(cfg) && a.content != "" ==> a.splitter.state == Done)
  }

  ghost predicate TextRunning(cfg: Config, a: Asm) {
    && (if Buffered(cfg) then a.textIndex == None else a.textIndex.Some? <==> a.content != "")
    && (a.textDone ==> a.textIndex.Some?)
  }

  // ---------- reasoning ----------

  lemma StartReasoningFollows(cfg: Config, a: Asm)
    requires Follows(cfg, a)
    ensures Follows(cfg, StartReasoning(a))
  {
    hide Replayed, FinalItem, NewItem, IsCustom, AreClosed;
    if a.reasoningIndex == None {
      var index := a.nextIndex;
      var b := a.(nextIndex := index + 1, reasoningIndex := Some(index));
      EmitStep(cfg, b, ItemAdded(index, ReasoningItem(ReasoningId, "")));
      EmitStep(cfg, Emit(b, ItemAdded(index, ReasoningItem(ReasoningId, ""))), SummaryPartAdded(index, ReasoningId));
      ClosedSame(cfg, a, StartReasoning(a), ClientOf(cfg, a).value.finished);
    }
  }

  lemma ReasoningStarts(a: Asm)
    ensures StartReasoning(a).reasoningIndex.Some? && StartReasoning(a).reasoningDone == a.reasoningDone
  {
  }

  /** A reasoning delta is sent exactly while the reasoning item is open. */
  lemma PushReasoningFollows(cfg: Config, a: Asm, delta: string)
    requires Follows(cfg, a)
    ensures !a.reasoningDone ==> Follows(cfg, PushReasoningDelta(a, delta))
    ensures a.reasoningDone ==> ClientOf(cfg, PushReasoningDelta(a, delta)) == None
  {
    hide Replayed, FinalItem, NewItem, IsCustom, AreClosed, StartReasoning;
    StartReasoningFollows(cfg, a);
    ReasoningStarts(a);
    var b := StartReasoning(a);
    var c := PushReasoningDelta(a, delta);
    EmitStep(cfg, b.(reasoning := b.reasoning + delta), ReasoningDelta(b.reasoningIndex.value, ReasoningId, delta));
    if !a.reasoningDone {
      ClosedSame(cfg, b, c, ClientOf(cfg, b).value.finished);
    }
  }

  lemma FinishReasoningFollows(cfg: Config, a: Asm)
    requires Follows(cfg, a) && (Buffered(cfg) ==> !a.textDone)
    ensures Follows(cfg, FinishReasoning(a))
  {
    hide Replayed, ClientStep, FinalItem, IsCustom, AreClosed;
    if a.reasoningIndex.Some? && !a.reasoningDone {
      var index, client := a.reasoningIndex.value, ClientOf(cfg, a).value;
      var b := Emit(a, ReasoningTextDone(index, ReasoningId, a.reasoning));
      var c := Emit(b, SummaryPartDone(index, ReasoningId, a.reasoning));
      EmitStep(cfg, a, ReasoningTextDone(index, ReasoningId, a.reasoning));
      EmitStep(cfg, b, SummaryPartDone(index, ReasoningId, a.reasoning));
      EmitStep(cfg, c, ItemDone(index, ReasoningItem(ReasoningId, a.reasoning)));
      CloseReasoningSteps(cfg.codec, client, index, a.reasoning);
      var e := FinishReasoning(a);
      TracksReasoningDone(cfg, a, client, e, ClientOf(cfg, e).value);
      ClosedReasoning(cfg, a, e, client.finished);
    }
  }

  lemma CloseReasoningSteps(codec: Codec, c: Client, i: nat, text: string)
    requires i < |c.slots| && c.slots[i] == Slot(NEW_REASONING, text, None)
    ensures var item := ReasoningItem(ReasoningId, text);
            var c1 := StepFrom(codec, Some(c), ReasoningTextDone(i, ReasoningId, text));
            var c2 := StepFrom(codec, c1, SummaryPartDone(i, ReasoningId, text));
            StepFrom(codec, c2, ItemDone(i, item))
            == Some(Client(c.slots[i := Slot(NEW_REASONING, text, Some(item))], c.finished + [item]))
  {
  }

  lemma TracksReasoningDone(cfg: Config, a: Asm, c: Client, b: Asm, d: Client)
    requires Tracks(cfg, a, c) && a.reasoningIndex.Some? && !a.reasoningDone
    requires b == a.(sequence := b.sequence, log := b.log, reasoningDone := true)
    requires d.slots == c.slots[a.reasoningIndex.value := ReasoningSlot(b)]
    ensures Tracks(cfg, b, d)
  {
    hide FinalItem, IsCustom, NewItem;
    forall k | k in b.calls ensures CallTracked(cfg, k, b.calls[k], d) {
      assert CallTracked(cfg, k, a.calls[k], c);
    }
    forall i | 0 <= i < |d.slots| ensures IsOwned(b, i, d.slots[i].item.id) {
      assert IsOwned(a, i, c.slots[i].item.id);
    }
  }

  // ---------- text ----------

  /** The events of a whole text item, seen by the client. */
  lemma TextItemClient(cfg: Config, a: Asm, c: Client)
    requires ClientOf(cfg, a) == Some(c) && |c.slots| == a.nextIndex
    requires Buffered(cfg) && a.textIndex == None && !a.textDone && a.content != ""
        && (a.reasoning != "" ==> a.reasoningDone)
    ensures var item := MessageItem(MessageId, Completed, a.content);
            ClientOf(cfg, FinishText(cfg, a))
            == Some(Client(c.slots + [Slot(NEW_MESSAGE, a.content, Some(item))], c.finished + [item]))
  {
    hide ClientStep, Replayed, EnsureTextStarted;
    var index := a.nextIndex;
    var b := EnsureTextStarted(a);
    TextStartClient(cfg, a, c);
    var b1 := Emit(b, TextDelta(index, MessageId, a.content));
    var b2 := Emit(b1, TextDone(index, MessageId, a.content));
    var b3 := Emit(b2, ContentPartDone(index, MessageId, a.content));
    EmitStep(cfg, b, TextDelta(index, MessageId, a.content));
    EmitStep(cfg, b1, TextDone(index, MessageId, a.content));
    EmitStep(cfg, b2, ContentPartDone(index, MessageId, a.content));
    EmitStep(cfg, b3, ItemDone(index, MessageItem(MessageId, Completed, a.content)));
    CloseTextSteps(cfg.codec, c, a.content);
  }

  lemma CloseTextSteps(codec: Codec, c: Client, text: string)
    ensures var i, item := |c.slots|, MessageItem(MessageId, Completed, text);
            var c0 := Some(Client(c.slots + [Slot(NEW_MESSAGE, "", None)], c.finished));
            var c1 := StepFrom(codec, c0, TextDelta(i, MessageId, text));
            var c2 := StepFrom(codec, c1, TextDone(i, MessageId, text));
            var c3 := StepFrom(codec, c2, ContentPartDone(i, MessageId, text));
            StepFrom(codec, c3, ItemDone(i, item))
            == Some(Client(c.slots + [Slot(NEW_MESSAGE, text, Some(item))], c.finished + [item]))
  {
    var i, item := |c.slots|, MessageItem(MessageId, Completed, text);
    assert "" + text == text;
    assert (c.slots + [Slot(NEW_MESSAGE, "", None)])[i := Slot(NEW_MESSAGE, text, None)]
        == c.slots + [Slot(NEW_MESSAGE, text, None)];
    assert (c.slots + [Slot(NEW_MESSAGE, text, None)])[i := Slot(NEW_MESSAGE, text, Some(item))]
        == c.slots + [Slot(NEW_MESSAGE, text, Some(item))];
  }

  lemma TextStartClient(cfg: Config, a: Asm, c: Client)
    requires ClientOf(cfg, a) == Some(c) && |c.slots| == a.nextIndex
    requires a.textIndex == None && (a.reasoning != "" ==> a.reasoningDone)
    ensures ClientOf(cfg, EnsureTextStarted(a)) == Some(Client(c.slots + [Slot(NEW_MESSAGE, "", None)], c.finished))
    ensures var b := EnsureTextStarted(a);
            b.content == a.content && b.textIndex == Some(a.nextIndex) && b.textDone == a.textDone
  {
    hide Replayed;
    var index := a.nextIndex;
    var b := a.(nextIndex := index + 1, textIndex := Some(index));
    EmitStep(cfg, b, ItemAdded(index, MessageItem(MessageId, InProgress, "")));
    EmitStep(cfg, Emit(b, ItemAdded(index, MessageItem(MessageId, InProgress, ""))),
        ContentPartAdded(index, MessageId));
  }

  lemma NoTextYet(cfg: Config, a: Asm, c: Client)
    requires Tracks(cfg, a, c) && a.textIndex == None
    ensures |c.slots| == a.nextIndex && !a.textDone
  {
  }

  /** With declared tools the text item is announced and closed at once. */
  lemma FinishTextFollows(cfg: Config, a: Asm)
    requires Buffered(cfg) && Follows(cfg, a) && a.textIndex == None && (a.reasoning != "" ==> a.reasoningDone)
    requires a.reasoning == "" ==> !a.reasoningDone
    ensures Follows(cfg, FinishText(cfg, a))
  {
    hide Replayed, FinalItem, NewItem, IsCustom, AreClosed, Tracks;
    if a.content != "" {
      var c := ClientOf(cfg, a).value;
      NoTextYet(cfg, a, c);
      TextItemClient(cfg, a, c);
      var item := MessageItem(MessageId, Completed, a.content);
      TracksText(cfg, a, c, FinishText(cfg, a),
          Client(c.slots + [Slot(NEW_MESSAGE, a.content, Some(item))], c.finished + [item]));
      ClosedText(cfg, a, FinishText(cfg, a), c.finished);
    }
  }

  /** Without them it is already open and has all its text. */
  lemma CloseTextFollows(cfg: Config, a: Asm)
    requires !Buffered(cfg) && Follows(cfg, a) && a.textIndex.Some? && a.content != "" && !a.textDone
    ensures var b := FinishText(cfg, a);
            Follows(cfg, b) && b == a.(sequence := b.sequence, log := b.log, textDone := true)
  {
    hide Replayed, ClientStep, FinalItem, IsCustom, AreClosed;
    var index, client := a.textIndex.value, ClientOf(cfg, a).value;
    var b := Emit(a, TextDone(index, MessageId, a.content));
    var c := Emit(b, ContentPartDone(index, MessageId, a.content));
    EmitStep(cfg, a, TextDone(index, MessageId, a.content));
    EmitStep(cfg, b, ContentPartDone(index, MessageId, a.content));
    EmitStep(cfg, c, ItemDone(index, MessageItem(MessageId, Completed, a.content)));
    CloseOpenText(cfg.codec, client, index, a.content);
    var e := FinishText(cfg, a);
    TracksTextDone(cfg, a, client, e, ClientOf(cfg, e).value);
    ClosedText(cfg, a, e, client.finished);
  }

  lemma CloseOpenText(codec: Codec, c: Client, i: nat, text: string)
    requires i < |c.slots| && c.slots[i] == Slot(NEW_MESSAGE, text, None)
    ensures var item := MessageItem(MessageId, Completed, text);
            var c1 := StepFrom(codec, Some(c), TextDone(i, MessageId, text));
            var c2 := StepFrom(codec, c1, ContentPartDone(i, MessageId, text));
            StepFrom(codec, c2, ItemDone(i, item))
            == Some(Client(c.slots[i := Slot(NEW_MESSAGE, text, Some(item))], c.finished + [item]))
  {
  }

  lemma TracksTextDone(cfg: Config, a: Asm, c: Client, b: Asm, d: Client)
    requires Tracks(cfg, a, c) && a.textIndex.Some? && !a.textDone
    requires b == a.(sequence := b.sequence, log := b.log, textDone := true)
    requires d.slots == c.slots[a.textIndex.value := TextSlot(b)]
    ensures Tracks(cfg, b, d)
  {
    hide FinalItem, IsCustom, NewItem;
    forall k | k in b.calls ensures CallTracked(cfg, k, b.calls[k], d) {
      assert CallTracked(cfg, k, a.calls[k], c);
    }
    forall i | 0 <= i < |d.slots| ensures IsOwned(b, i, d.slots[i].item.id) {
      assert IsOwned(a, i, c.slots[i].item.id);
    }
  }

  /** A text item that opens: pending reasoning is closed first. */
  lemma TextStartFollows(cfg: Config, a: Asm)
    requires !Buffered(cfg) && Follows(cfg, a) && a.textIndex == None && a.content == "" && !a.textDone
    ensures var b := EnsureTextStarted(a);
            && Follows(cfg, b) && b.textIndex.Some?
            && b == a.(sequence := b.sequence, log := b.log, nextIndex := b.nextIndex, textIndex := b.textIndex,
                       reasoningDone := b.reasoningDone)
            && (b.reasoningDone <==> a.reasoningDone || a.reasoning != "")
  {
    hide Replayed, FinalItem, NewItem, IsCustom, AreClosed, FinishReasoning, EnsureTextStarted, Follows;
    FinishReasoningFollows(cfg, a);
    ReasoningHasIndex(cfg, a);
    TextStartEffect(a);
    FollowsTextStart(cfg, FinishPendingReasoning(a));
  }

  /** The item opens in a state without pending reasoning. */
  lemma FollowsTextStart(cfg: Config, f: Asm)
    requires !Buffered(cfg) && Follows(cfg, f) && f.textIndex == None && f.content == "" && !f.textDone
    requires f.reasoning != "" ==> f.reasoningDone
    ensures Follows(cfg, EnsureTextStarted(f))
  {
    hide Replayed, FinalItem, NewItem, IsCustom, AreClosed, FinishReasoning;
    TextStartClient(cfg, f, ClientOf(cfg, f).value);
    ClosedSame(cfg, f, EnsureTextStarted(f), ClientOf(cfg, f).value.finished);
  }

  /** Pending reasoning is closed before the text item opens, and only indexes and flags change. */
  lemma TextStartEffect(a: Asm)
    requires a.textIndex == None && (a.reasoning != "" ==> a.reasoningIndex.Some?)
    ensures var f, b := FinishPendingReasoning(a), EnsureTextStarted(a);
            && b == EnsureTextStarted(f) && (f.reasoning != "" ==> f.reasoningDone)
            && f.textIndex == None && f.content == a.content && f.textDone == a.textDone && b.textIndex.Some?
            && b == a.(sequence := b.sequence, log := b.log, nextIndex := b.nextIndex, textIndex := b.textIndex,
                       reasoningDone := b.reasoningDone)
            && (b.reasoningDone <==> a.reasoningDone || a.reasoning != "")
  {
    hide FinishReasoning;
    FinishReasoningEffect(a);
  }

  lemma FinishReasoningEffect(a: Asm)
    ensures var b := FinishReasoning(a);
            && b == a.(sequence := b.sequence, log := b.log, reasoningDone := b.reasoningDone)
            && (b.reasoningDone <==> a.reasoningDone || a.reasoningIndex.Some?)
  {
  }

  lemma ReasoningHasIndex(cfg: Config, a: Asm)
    requires Follows(cfg, a)
    ensures a.reasoning != "" || a.reasoningDone ==> a.reasoningIndex.Some?
  {
    hide Replayed;
  }

  lemma TracksText(cfg: Config, a: Asm, c: Client, b: Asm, d: Client)
    requires Tracks(cfg, a, c) && a.textIndex == None
    requires b == a.(nextIndex := a.nextIndex + 1, textIndex := Some(a.nextIndex), textDone := true,
                     sequence := b.sequence, log := b.log)
    requires d.slots == c.slots + [Slot(NEW_MESSAGE, a.content, Some(MessageItem(MessageId, Completed, a.content)))]
    ensures Tracks(cfg, b, d)
  {
    hide FinalItem, IsCustom;
  }

  // ---------- pushes of the think splitter ----------

  /** What pushing leaves alone. */
  predicate SameExceptText(a: Asm, b: Asm) {
    && b.calls == a.calls && b.textDone == a.textDone && b.terminalEmitted == a.terminalEmitted
    && b.splitter == a.splitter && b.finishReason == a.finishReason && b.stored == a.stored
  }

  predicate ReasoningIndexed(a: Asm) {
    a.reasoningIndex.Some? <==> a.reasoning != ""
  }

  /** Without declared tools the first text closes the reasoning that came before it. */
  predicate ClosedByText(cfg: Config, before: Asm, after: Asm) {
    !Buffered(cfg) && before.content == "" && after.content != "" && after.reasoning != ""
  }

  lemma PushThoughtFollows(cfg: Config, a: Asm, thought: string)
    requires Follows(cfg, a) && TextRunning(cfg, a) && !a.reasoningDone && thought != ""
    ensures var b := PushReasoningDelta(a, thought);
            && Follows(cfg, b) && SameExceptText(a, b) && TextRunning(cfg, b) && ReasoningIndexed(b)
            && b.content == a.content && b.reasoning == a.reasoning + thought && !b.reasoningDone
  {
    hide Follows;
    PushReasoningFollows(cfg, a, thought);
  }

  /** Text is sent exactly while the text item is open, or not yet announced. */
  lemma PushAnswerFollows(cfg: Config, a: Asm, answer: string)
    requires Follows(cfg, a) && TextRunning(cfg, a) && ReasoningIndexed(a) && answer != ""
    ensures var b := PushTextDelta(cfg, a, answer);
            && SameExceptText(a, b) && TextRunning(cfg, b) && ReasoningIndexed(b)
            && b.content == a.content + answer && b.reasoning == a.reasoning
            && (if a.textDone then ClientOf(cfg, b) == None else Follows(cfg, b))
            && (b.reasoningDone <==> a.reasoningDone || ClosedByText(cfg, a, b))
  {
    hide Replayed, FinalItem, NewItem, IsCustom, EnsureTextStarted, AreClosed;
    if Buffered(cfg) {
      ClosedSame(cfg, a, PushTextDelta(cfg, a, answer), ClientOf(cfg, a).value.finished);
    } else {
      TextOpen(cfg, a);
      var b := EnsureTextStarted(a);
      EmitStep(cfg, b.(content := b.content + answer), TextDelta(b.textIndex.value, MessageId, answer));
      if !a.textDone {
        ClosedSame(cfg, b, PushTextDelta(cfg, a, answer), ClientOf(cfg, b).value.finished);
      }
    }
  }

  lemma TextOpen(cfg: Config, a: Asm)
    requires !Buffered(cfg) && Follows(cfg, a) && TextRunning(cfg, a) && ReasoningIndexed(a)
    ensures var b := EnsureTextStarted(a);
            && Follows(cfg, b) && b.textIndex.Some?
            && b == a.(sequence := b.sequence, log := b.log, nextIndex := b.nextIndex, textIndex := b.textIndex,
                       reasoningDone := b.reasoningDone)
            && (b.reasoningDone <==> a.reasoningDone || (a.content == "" && a.reasoning != ""))
  {
    hide Follows;
    if a.textIndex == None {
      TextStartFollows(cfg, a);
    } else {
      AlreadyStarted(a);
    }
  }

  lemma AlreadyStarted(a: Asm)
    requires a.textIndex.Some?
    ensures EnsureTextStarted(a) == a
  {
  }

  lemma PushBothFollows(cfg: Config, a: Asm, thought: string, answer: string)
    requires Follows(cfg, a) && TextRunning(cfg, a) && ReasoningIndexed(a) && (thought != "" ==> !a.reasoningDone)
    ensures var b := ApplyAll(cfg, a, NonEmptyReasoning(thought) + NonEmptyText(answer));
            && SameExceptText(a, b) && TextRunning(cfg, b) && ReasoningIndexed(b)
            && b.content == a.content + answer && b.reasoning == a.reasoning + thought
            && (if answer != "" && a.textDone then ClientOf(cfg, b) == None else Follows(cfg, b))
            && (b.reasoningDone <==> a.reasoningDone || ClosedByText(cfg, a, b))
  {
    hide Follows, ClientOf, PushReasoningDelta, PushTextDelta, ApplyAll;
    ApplyBoth(cfg, a, thought, answer);
    assert a.content + "" == a.content && a.reasoning + "" == a.reasoning;
    var b := if thought == "" then a else PushReasoningDelta(a, thought);
    if thought != "" {
      PushThoughtFollows(cfg, a, thought);
    }
    if answer != "" {
      PushAnswerFollows(cfg, b, answer);
    }
  }

  /** The pushes of one splitter step: a thought, then an answer, either of which may be missing; none is reasoning once
      detection is over, and an answer ends it. */
  lemma StepPushes(s: Splitter, text: string) returns (thought: string, answer: string)
    requires text != ""
    ensures var (t, pushes) := ContentStep(s, text);
            && pushes == NonEmptyReasoning(thought) + NonEmptyText(answer)
            && (s.state == Done ==> thought == "" && answer == text && t.state == Done)
            && (thought != "" ==> t.state != Detecting) && (answer != "" ==> t.state == Done)
            && (s.state != Detecting ==> t.state != Detecting)
  {
    hide SplitAtThinkClose, SplitLeadingThinkBlock, StripLeadingThinkOpenTag, SplitIncompleteThinkCloseSuffix;
    hide IsLeadingThinkPrefix;
    EmptyPartLeft(s.buffer, text);
    assert forall x: string :: NonEmptyReasoning("") + NonEmptyText(x) == NonEmptyText(x);
    assert forall x: string :: NonEmptyReasoning(x) + NonEmptyText("") == NonEmptyReasoning(x);
    match s.state {
      case Done => thought, answer := "", text;
      case Detecting => thought, answer := DetectPushes(s.buffer + text);
      case InThink => thought, answer := InThinkPushes(s.buffer, text);
    }
  }

  lemma InThinkPushes(buffer: string, text: string) returns (thought: string, answer: string)
    ensures var (t, pushes) := InThinkStep(buffer, text);
            pushes == NonEmptyReasoning(thought) + NonEmptyText(answer) && t.state != Detecting
                && (answer != "" ==> t.state == Done)
  {
    hide SplitAtThinkClose, SplitIncompleteThinkCloseSuffix;
    var all := buffer + text;
    var closed := SplitAtThinkClose(all);
    if closed.Some? {
      thought, answer := closed.value.0, closed.value.1;
    } else {
      thought, answer := SplitIncompleteThinkCloseSuffix(all).0, "";
      assert NonEmptyReasoning(thought) + NonEmptyText("") == NonEmptyReasoning(thought);
    }
  }

  lemma DetectPushes(all: string) returns (thought: string, answer: string)
    requires all != ""
    ensures var (t, pushes) := DetectStep(all);
            && pushes == NonEmptyReasoning(thought) + NonEmptyText(answer)
            && (thought != "" ==> t.state != Detecting) && (answer != "" ==> t.state == Done)
  {
    hide SplitLeadingThinkBlock, StripLeadingThinkOpenTag, InThinkStep, IsLeadingThinkPrefix;
    var block, opening := SplitLeadingThinkBlock(all), StripLeadingThinkOpenTag(all);
    assert NonEmptyReasoning("") + NonEmptyText("") == []
        && NonEmptyReasoning("") + NonEmptyText(all) == [PushText(all)];
    if block.Some? {
      thought, answer := block.value.0, block.value.1;
    } else if opening.Some? && opening.value != "" {
      thought, answer := InThinkPushes("", opening.value);
    } else {
      thought, answer := "", if opening.None? && !IsLeadingThinkPrefix(all) then all else "";
    }
  }

  lemma EmptyPartLeft(a: string, b: string)
    requires b != ""
    ensures a + b != ""
  {
  }

  // ---------- steps of a running stream ----------

  /** Content keeps the protocol unless the text item was closed. */
  lemma AcceptTextFollows(cfg: Config, a: Asm, content: string)
    requires Follows(cfg, a) && Running(cfg, a)
    ensures var b := AcceptText(cfg, a, content);
            if content != "" && a.textDone then ClientOf(cfg, b) == None
            else
              && Follows(cfg, b) && Running(cfg, b) && b.textDone == a.textDone && b.calls == a.calls
              && (b.reasoningDone <==> a.reasoningDone || ClosedByText(cfg, a, b))
  {
    hide ContentStep, Follows, ApplyAll, ClientOf;
    if content != "" {
      var thought, answer := StepPushes(a.splitter, content);
      var (s, pushes) := ContentStep(a.splitter, content);
      SplitterIsInvisible(cfg, a, s);
      if a.textDone {
        ClosedTextEndsDetection(cfg, a);
      }
      PushBothFollows(cfg, a.(splitter := s), thought, answer);
    }
  }

  lemma ClosedTextEndsDetection(cfg: Config, a: Asm)
    requires Running(cfg, a) && a.textDone
    ensures a.splitter.state == Done && !Buffered(cfg)
  {
  }

  lemma SplitterIsInvisible(cfg: Config, a: Asm, s: Splitter)
    requires Follows(cfg, a)
    ensures Follows(cfg, a.(splitter := s))
  {
    hide Replayed, FinalItem, NewItem, IsCustom, AreClosed;
    ClosedSame(cfg, a, a.(splitter := s), ClientOf(cfg, a).value.finished);
  }

  lemma FlushPushes(s: Splitter) returns (thought: string, answer: string)
    ensures var (t, pushes) := FlushStep(s);
            && pushes == NonEmptyReasoning(thought) + NonEmptyText(answer)
            && (t.state == Done || (t == s && s == Splitter(Detecting, "") && thought == "" && answer == ""))
            && (s.state == Done ==> thought == "" && answer == "") && (s.state == Detecting ==> thought == "")
            && (s.state == InThink ==> answer == "")
  {
    assert forall x: string :: NonEmptyReasoning("") + NonEmptyText(x) == NonEmptyText(x);
    assert forall x: string :: NonEmptyReasoning(x) + NonEmptyText("") == NonEmptyReasoning(x);
    thought := if s.state == InThink then s.buffer else "";
    answer := if s.state == Detecting then s.buffer else "";
  }

  lemma FlushFollows(cfg: Config, a: Asm)
    requires Follows(cfg, a) && Running(cfg, a)
    ensures var b := Flush(cfg, a);
            && Follows(cfg, b) && Running(cfg, b) && b.reasoningDone == a.reasoningDone && b.textDone == a.textDone
            && (b.splitter.state != Done ==> b.splitter == Splitter(Detecting, "")) && b.calls == a.calls
  {
    hide FlushStep, Follows, ApplyAll, ClientOf;
    var thought, answer := FlushPushes(a.splitter);
    var (s, pushes) := FlushStep(a.splitter);
    SplitterIsInvisible(cfg, a, s);
    if a.textDone {
      ClosedTextEndsDetection(cfg, a);
    }
    PushBothFollows(cfg, a.(splitter := s), thought, answer);
    assert a.content + "" == a.content && a.reasoning + "" == a.reasoning;
  }

  lemma AcceptReasoningFollows(cfg: Config, a: Asm, reasoning: string)
    requires Follows(cfg, a) && Running(cfg, a)
    ensures var b := AcceptReasoning(cfg, a, reasoning);
            if reasoning != "" && a.reasoningDone then ClientOf(cfg, b) == None
            else
              && Follows(cfg, b) && Running(cfg, b) && b.reasoningDone == a.reasoningDone && b.textDone == a.textDone
              && b.calls == a.calls
  {
    hide Follows, Flush, ClientOf, PushReasoningDelta;
    if reasoning != "" {
      var b := DisableDetection(cfg, a);
      if a.splitter.state != Done {
        FlushFollows(cfg, a);
        SplitterIsInvisible(cfg, Flush(cfg, a), Splitter(Done, Flush(cfg, a).splitter.buffer));
      }
      if a.reasoningDone {
        PushReasoningFollows(cfg, b, reasoning);
      } else {
        PushThoughtFollows(cfg, b, reasoning);
      }
    }
  }

  // ---------- tool calls ----------

  /** After a tool_calls array was seen: pending reasoning is closed. */
  ghost predicate InCalls(cfg: Config, a: Asm) {
    Running(cfg, a) && (a.reasoning != "" ==> a.reasoningDone && a.splitter.state == Done)
  }

  lemma FinishPendingFollows(cfg: Config, a: Asm)
    requires Follows(cfg, a) && Running(cfg, a) && (a.reasoning != "" ==> a.splitter.state == Done)
    ensures var b := FinishPendingReasoning(a);
            && Follows(cfg, b) && InCalls(cfg, b) && b.reasoning == a.reasoning && b.content == a.content
            && b.calls == a.calls && b.textDone == a.textDone
            && (b.reasoningDone <==> a.reasoningDone || a.reasoning != "")
  {
    hide Follows;
    FinishReasoningFollows(cfg, a);
  }

  /** A call announced with everything received for it so far. */
  lemma StartToolFollows(cfg: Config, a: Asm, k: nat)
    requires Follows(cfg, a) && k in a.calls && CanStart(a.calls[k].core) && !a.calls[k].done
    ensures Follows(cfg, EmitToolArguments(cfg, StartTool(cfg, a, k), k, a.calls[k].core.arguments))
  {
    hide Replayed, FinalItem, NewItem, IsCustom, ToolItem, AreClosed;
    var core, c := a.calls[k].core, ClientOf(cfg, a).value;
    var started := StartTool(cfg, a, k);
    StartToolClient(cfg, a, k, c);
    var index := a.nextIndex;
    EmitStep(cfg, started, ArgumentsDelta(index, CallItemId(k), core.callId, core.arguments));
    var b := EmitToolArguments(cfg, started, k, core.arguments);
    var item := NewCall(cfg, k, core);
    var d := Client(c.slots + [Slot(item, SentArguments(cfg, core), None)], c.finished);
    NewCallIs(cfg, k, core);
    assert "" + core.arguments == core.arguments;
    assert (c.slots + [Slot(item, "", None)])[index := Slot(item, core.arguments, None)]
        == c.slots + [Slot(item, core.arguments, None)];
    assert ClientOf(cfg, b) == Some(d);
    TracksStart(cfg, a, c, k, b, d);
    ClosedSame(cfg, a, b, c.finished);
  }

  lemma StartToolClient(cfg: Config, a: Asm, k: nat, c: Client)
    requires ClientOf(cfg, a) == Some(c) && |c.slots| == a.nextIndex && k in a.calls && a.calls[k].core.callId != ""
    ensures ClientOf(cfg, StartTool(cfg, a, k))
         == Some(Client(c.slots + [Slot(NewCall(cfg, k, a.calls[k].core), "", None)], c.finished))
  {
    hide Replayed, IsNew, ToolItem;
    NewCallIs(cfg, k, a.calls[k].core);
    var core, index := a.calls[k].core, a.nextIndex;
    var call := a.calls[k].(core := core.(added := true), outputIndex := Some(index));
    var item := ToolItem(cfg.tools, cfg.codec, CallItemId(k), InProgress, core.callId, core.name, "", "");
    EmitStep(cfg, a.(nextIndex := index + 1, calls := a.calls[k := call]), ItemAdded(index, item));
  }

  lemma TracksStart(cfg: Config, a: Asm, c: Client, k: nat, b: Asm, d: Client)
    requires Tracks(cfg, a, c) && k in a.calls && CanStart(a.calls[k].core) && !a.calls[k].done
    requires b == a.(nextIndex := a.nextIndex + 1, sequence := b.sequence, log := b.log, calls := a.calls[k :=
                 a.calls[k].(core := a.calls[k].core.(added := true), outputIndex := Some(a.nextIndex))])
    requires d.slots
          == c.slots + [Slot(NewCall(cfg, k, a.calls[k].core), SentArguments(cfg, a.calls[k].core), None)]
    ensures Tracks(cfg, b, d)
  {
    hide FinalItem, IsCustom, ToolItem;
    NewCallIs(cfg, k, a.calls[k].core);
    assert CallTracked(cfg, k, a.calls[k], c);
  }

  /** A fragment of a call not yet announced. */
  lemma MergeNewFollows(cfg: Config, a: Asm, k: nat, delta: CallDelta)
    requires Follows(cfg, a) && InCalls(cfg, a) && !CallAt(a, k).core.added
    ensures Follows(cfg, MergeDelta(a, k, delta)) && InCalls(cfg, MergeDelta(a, k, delta))
  {
    hide Replayed, FinalItem, IsCustom, AreClosed, NewItem;
    if k in a.calls {
      assert CallTracked(cfg, k, a.calls[k], ClientOf(cfg, a).value);
    }
    ClosedSame(cfg, a, MergeDelta(a, k, delta), ClientOf(cfg, a).value.finished);
  }

  lemma RunningMerge(core: CallCore, delta: CallDelta)
    requires core.added && core.callId != ""
    ensures MergeCore(core, delta) == core.(arguments := core.arguments + delta.arguments)
  {
  }

  /** The client receives the fragment, unless the tool takes none. */
  lemma FragmentClient(cfg: Config, a: Asm, c: Client, k: nat, part: string)
    requires ClientOf(cfg, a) == Some(c) && k in a.calls && a.calls[k].core.added && a.calls[k].core.callId != ""
    requires a.calls[k].outputIndex.Some? && a.calls[k].outputIndex.value < |c.slots|
    requires var slot, core := c.slots[a.calls[k].outputIndex.value], a.calls[k].core;
             && slot.item == NewCall(cfg, k, core) && slot.done == None
             && if IsCustom(cfg.tools, core.name) then slot.text == "" else slot.text + part == core.arguments
    ensures var index, core := a.calls[k].outputIndex.value, a.calls[k].core;
            ClientOf(cfg, EmitToolArguments(cfg, a, k, part))
            == Some(c.(slots := c.slots[index := c.slots[index].(text := SentArguments(cfg, core))]))
  {
    hide Replayed, IsCustom, NewItem, Completes, IsNew;
    var call := a.calls[k];
    var index := call.outputIndex.value;
    NewCallIs(cfg, k, call.core);
    EmitStep(cfg, a, ArgumentsDelta(index, CallItemId(k), call.core.callId, part));
    assert c.slots[index].text + "" == c.slots[index].text && c.slots[index := c.slots[index]] == c.slots;
  }

  /** A fragment of a running call is sent on. */
  lemma MergeRunningFollows(cfg: Config, a: Asm, k: nat, delta: CallDelta)
    requires Follows(cfg, a) && InCalls(cfg, a) && k in a.calls && a.calls[k].core.added
    ensures var b := EmitToolArguments(cfg, MergeDelta(a, k, delta), k, delta.arguments);
            Follows(cfg, b) && InCalls(cfg, b)
  {
    hide Replayed, FinalItem, IsCustom, AreClosed, NewItem, EmitToolArguments;
    var c, call := ClientOf(cfg, a).value, a.calls[k];
    assert CallTracked(cfg, k, call, c);
    RunningMerge(call.core, delta);
    var m := MergeDelta(a, k, delta);
    var b := EmitToolArguments(cfg, m, k, delta.arguments);
    EmitKeeps(cfg, m, k, delta.arguments);
    EmitKeepsRest(cfg, m, k, delta.arguments);
    assert ClientOf(cfg, m) == Some(c);
    FragmentClient(cfg, m, c, k, delta.arguments);
    hide ClientOf, MergeDelta;
    TracksFragment(cfg, a, c, k, b, ClientOf(cfg, b).value);
    ClosedSame(cfg, a, b, c.finished);
  }

  lemma EmitKeepsRest(cfg: Config, a: Asm, k: nat, part: string)
    ensures var b := EmitToolArguments(cfg, a, k, part); b == a.(sequence := b.sequence, log := b.log)
  {
    hide IsCustom;
  }

  lemma TracksFragment(cfg: Config, a: Asm, c: Client, k: nat, b: Asm, d: Client)
    requires Tracks(cfg, a, c) && k in a.calls && k in b.calls && a.calls[k].core.added && !a.calls[k].done
    requires b == a.(sequence := b.sequence, log := b.log, calls := a.calls[k := b.calls[k]])
    requires b.calls[k] == a.calls[k].(core := a.calls[k].core.(arguments := b.calls[k].core.arguments))
    requires a.calls[k].outputIndex.Some? && a.calls[k].outputIndex.value < |c.slots|
    requires var index := a.calls[k].outputIndex.value;
             d.slots == c.slots[index := c.slots[index].(text := SentArguments(cfg, b.calls[k].core))]
    ensures Tracks(cfg, b, d)
  {
    hide FinalItem, IsCustom, NewItem;
    assert CallTracked(cfg, k, a.calls[k], c);
    forall j | j in b.calls ensures CallTracked(cfg, j, b.calls[j], d) {
      if j != k {
        assert CallTracked(cfg, j, a.calls[j], c);
      }
    }
    forall i | 0 <= i < |d.slots| ensures IsOwned(b, i, d.slots[i].item.id) {
      assert IsOwned(a, i, c.slots[i].item.id);
    }
  }

  /** Some call is announced in `after` that was not in `before`. */
  ghost predicate Starts(before: map<nat, Call>, after: map<nat, Call>) {
    exists k :: k in after && after[k].core.added && !(k in before && before[k].core.added)
  }

  ghost predicate KeepsStarted(before: map<nat, Call>, after: map<nat, Call>) {
    forall k :: k in before && before[k].core.added ==> k in after && after[k].core.added
  }

  /** What a fragment leaves alone. */
  predicate SameOpenItems(a: Asm, b: Asm) {
    && b.content == a.content && b.reasoning == a.reasoning && b.reasoningDone == a.reasoningDone
    && b.reasoningIndex == a.reasoningIndex && b.textIndex == a.textIndex && b.splitter == a.splitter
    && b.terminalEmitted == a.terminalEmitted
  }

  /** Without declared tools a call that starts closes the text item that came before it. */
  ghost predicate ClosedByCall(cfg: Config, before: Asm, after: Asm) {
    !Buffered(cfg) && before.content != "" && Starts(before.calls, after.calls)
  }

  lemma AcceptToolDeltaFollows(cfg: Config, a: Asm, delta: CallDelta)
    requires Follows(cfg, a) && InCalls(cfg, a)
    ensures var b := AcceptToolDelta(cfg, a, delta);
            && Follows(cfg, b) && InCalls(cfg, b) && SameOpenItems(a, b) && KeepsStarted(a.calls, b.calls)
            && (b.textDone <==> a.textDone || ClosedByCall(cfg, a, b))
  {
    hide Follows, EmitToolArguments, StartTool, FinishText, FinishReasoning;
    if delta.index.Some? {
      var k := delta.index.value;
      var m := MergeDelta(a, k, delta);
      EmitKeeps(cfg, m, k, delta.arguments);
      if CallAt(a, k).core.added {
        MergeRunningFollows(cfg, a, k, delta);
      } else {
        MergeNewFollows(cfg, a, k, delta);
        if CanStart(m.calls[k].core) {
          StartingFollows(cfg, m, k);
        }
      }
    }
  }

  lemma StartingFollows(cfg: Config, a: Asm, k: nat)
    requires Follows(cfg, a) && InCalls(cfg, a) && k in a.calls && CanStart(a.calls[k].core)
    ensures var b := EnsureToolStarted(cfg, a, k);
            && Follows(cfg, b) && InCalls(cfg, b) && SameOpenItems(a, b)
            && k in b.calls && b.calls[k].core.added && (forall j :: j != k ==> j in b.calls <==> j in a.calls)
            && (forall j :: j in a.calls && j != k ==> b.calls[j] == a.calls[j])
            && (b.textDone <==> a.textDone || (!Buffered(cfg) && a.content != ""))
  {
    hide Follows, EmitToolArguments, StartTool, FinishText, FinishReasoning;
    var closes := !Buffered(cfg) && a.content != "" && !a.textDone;
    if closes {
      CloseTextFollows(cfg, a);
    }
    var c := if closes then FinishText(cfg, a) else a;
    assert FinishPendingReasoning(c) == c;
    StartToolFollows(cfg, c, k);
    StartKeeps(cfg, c, k);
    EmitKeeps(cfg, StartTool(cfg, c, k), k, c.calls[k].core.arguments);
  }

  lemma EmitKeeps(cfg: Config, a: Asm, k: nat, part: string)
    ensures var b := EmitToolArguments(cfg, a, k, part);
            SameOpenItems(a, b) && b.calls == a.calls && b.textDone == a.textDone
  {
    hide IsCustom;
  }

  lemma StartKeeps(cfg: Config, a: Asm, k: nat)
    requires k in a.calls
    ensures var b := StartTool(cfg, a, k);
            && SameOpenItems(a, b) && b.textDone == a.textDone
            && b.calls == a.calls[k := a.calls[k].(core := a.calls[k].core.(added := true),
                outputIndex := Some(a.nextIndex))]
  {
    hide ToolItem;
  }

  lemma {:induction false} AcceptToolDeltasFollow(cfg: Config, a: Asm, deltas: seq<CallDelta>)
    requires Follows(cfg, a) && InCalls(cfg, a)
    ensures var b := AcceptToolDeltas(cfg, a, deltas);
            && Follows(cfg, b) && InCalls(cfg, b) && SameOpenItems(a, b) && KeepsStarted(a.calls, b.calls)
            && (b.textDone <==> a.textDone || ClosedByCall(cfg, a, b))
    decreases |deltas|
  {
    hide Follows, InCalls, AcceptToolDelta, ClosedByCall, KeepsStarted;
    if deltas == [] {
      NothingStarts(cfg, a);
    } else {
      var n := |deltas| - 1;
      AcceptToolDeltasFollow(cfg, a, deltas[..n]);
      var b := AcceptToolDeltas(cfg, a, deltas[..n]);
      AcceptToolDeltaFollows(cfg, b, deltas[n]);
      StartsChain(cfg, a, b, AcceptToolDelta(cfg, b, deltas[n]));
    }
  }

  lemma NothingStarts(cfg: Config, a: Asm)
    ensures KeepsStarted(a.calls, a.calls) && !ClosedByCall(cfg, a, a)
  {
  }

  lemma StartsChain(cfg: Config, a: Asm, b: Asm, c: Asm)
    requires KeepsStarted(a.calls, b.calls) && KeepsStarted(b.calls, c.calls) && b.content == a.content
    ensures KeepsStarted(a.calls, c.calls)
    ensures ClosedByCall(cfg, a, c) <==> ClosedByCall(cfg, a, b) || ClosedByCall(cfg, b, c)
  {
    if Starts(a.calls, b.calls) {
      var k :| k in b.calls && b.calls[k].core.added && !(k in a.calls && a.calls[k].core.added);
      assert k in c.calls && c.calls[k].core.added;
    }
  }

  // ---------- choices ----------

  lemma AcceptCallsFollows(cfg: Config, a: Asm, toolCalls: Option<seq<CallDelta>>)
    requires Follows(cfg, a) && Running(cfg, a)
    ensures var b := AcceptCalls(cfg, a, toolCalls);
            && Follows(cfg, b) && Running(cfg, b)
            && (b.reasoningDone <==> a.reasoningDone || (toolCalls.Some? && b.reasoning != ""))
            && (b.textDone <==> a.textDone || (!Buffered(cfg) && b.content != "" && Starts(a.calls, b.calls)))
  {
    hide Follows, Flush, FinishPendingReasoning, AcceptToolDeltas, Starts;
    if toolCalls.Some? {
      FlushFollows(cfg, a);
      var b := Flush(cfg, a);
      FinishPendingFollows(cfg, b);
      AcceptToolDeltasFollow(cfg, FinishPendingReasoning(b), toolCalls.value);
    } else {
      NoneStarts(a.calls);
    }
  }

  lemma NoneStarts(calls: map<nat, Call>)
    ensures !Starts(calls, calls)
  {
  }

  /** A choice keeps the protocol unless it brings reasoning after the reasoning item was closed, or content after the
      text item was. */
  lemma ChoiceFollows(cfg: Config, a: Asm, choice: Choice)
    requires Follows(cfg, a) && Running(cfg, a)
    ensures var b := AcceptChoice(cfg, a, choice);
            var s := AcceptReasoning(cfg, a, choice.reasoning);
            var t := AcceptText(cfg, s, choice.content);
            if (choice.reasoning != "" && a.reasoningDone) || (choice.content != "" && a.textDone)
            then ClientOf(cfg, b) == None
            else
              && Follows(cfg, b) && Running(cfg, b)
              && (b.reasoningDone <==>
                    a.reasoningDone || ClosedByText(cfg, s, t) || (choice.toolCalls.Some? && b.reasoning != ""))
              && (b.textDone <==> a.textDone || (!Buffered(cfg) && b.content != "" && Starts(a.calls, b.calls)))
  {
    hide Follows, AcceptReasoning, AcceptText, AcceptCalls, ClientOf, Running, Starts;
    AcceptReasoningFollows(cfg, a, choice.reasoning);
    var s := AcceptReasoning(cfg, a, choice.reasoning);
    var t := AcceptText(cfg, s, choice.content);
    if choice.reasoning != "" && a.reasoningDone {
      var rest := choice.(reasoning := "");
      assert AcceptChoice(cfg, s, rest) == AcceptChoice(cfg, a, choice) by { NoMoreReasoning(cfg, s, t); }
      ChoiceSteps(cfg, s, rest);
      StaysBroken(cfg, s, AcceptChoice(cfg, a, choice));
    } else {
      AcceptTextFollows(cfg, s, choice.content);
      if choice.content != "" && a.textDone {
        var rest := choice.(reasoning := "", content := "");
        assert AcceptChoice(cfg, t, rest) == AcceptChoice(cfg, a, choice) by { NoMoreReasoning(cfg, t, t); }
        ChoiceSteps(cfg, t, rest);
        StaysBroken(cfg, t, AcceptChoice(cfg, a, choice));
      } else {
        AcceptCallsFollows(cfg, t, choice.toolCalls);
        FinishFollows(cfg, AcceptCalls(cfg, t, choice.toolCalls), choice.finishReason);
      }
    }
  }

  lemma NoMoreReasoning(cfg: Config, a: Asm, b: Asm)
    ensures AcceptReasoning(cfg, a, "") == a && AcceptText(cfg, b, "") == b
  {
  }

  lemma FinishFollows(cfg: Config, a: Asm, finishReason: Option<string>)
    requires Follows(cfg, a) && Running(cfg, a)
    ensures Follows(cfg, AcceptFinish(a, finishReason)) && Running(cfg, AcceptFinish(a, finishReason))
  {
    hide Replayed, FinalItem, NewItem, IsCustom, AreClosed;
    ClosedSame(cfg, a, AcceptFinish(a, finishReason), ClientOf(cfg, a).value.finished);
  }

  lemma StaysBroken(cfg: Config, a: Asm, b: Asm)
    requires a.log <= b.log && ClientOf(cfg, a) == None
    ensures ClientOf(cfg, b) == None
  {
    BrokenStaysBroken(cfg.codec, a.log, b.log);
  }
}
