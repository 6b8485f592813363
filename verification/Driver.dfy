/** The driver of a streamed response (`stream_response` in src/server.rs): it decodes the upstream bytes, feeds
    the assembler, forwards its events, and ends the response exactly once. */
module Driver {
  import opened Wrappers
  import opened Text
  import opened Utf8
  import opened SsePayload
  import opened Items
  import opened Assembly
  import opened Assembler
  import opened EventReplay
  import opened Views
  import opened Runs
  import opened Steps

  /** A payload, as the JSON parser sees it. */
  datatype Parsed = NotJson(error: string) | ErrorValue(message: Option<string>) | Chunk(choices: seq<Choice>)

  /** What the driver cannot decide itself. `errorMessage` is the message in the data of an error event, `storeError` is
      None while the store works. */
  datatype Env = Env(
    parse: string -> Parsed,
    errorMessage: string -> Option<string>,
    isMultimodalError: string -> bool,
    multimodalMessage: string,
    storeError: Option<string>)

  datatype NetworkEvent = Bytes(bytes: seq<Byte>) | Broken(message: string)

  /** Input the upstream is known not to take, no free slot, a request it refuses, or a body stream. */
  datatype Upstream =
    Unsupported(message: string) | NoPermit | Rejected(message: string) | Streamed(events: seq<NetworkEvent>)

  /** What the client receives. */
  datatype Frame = EventFrame(event: Event) | DoneFrame

  function EventFrames(log: seq<Event>): (frames: seq<Frame>)
    ensures |frames| == |log| && forall i :: 0 <= i < |log| ==> frames[i] == EventFrame(log[i])
  {
    seq(|log|, i requires 0 <= i < |log| => EventFrame(log[i]))
  }

  /** The assembler and what was sent to the client so far. */
  datatype Run = Run(asm: Asm, frames: seq<Frame>)

  function Since(log: seq<Event>, n: nat): seq<Event> {
    if n <= |log| then log[n..] else []
  }

  /** The assembler goes on to `b` and sends each event it emits. */
  function Sent(run: Run, b: Asm): Run {
    Run(b, run.frames + EventFrames(Since(b.log, |run.asm.log|)))
  }

  /** The end mark is sent. */
  function Close(run: Run): Run {
    run.(frames := run.frames + [DoneFrame])
  }

  const DEFAULT_ERROR := "upstream stream error"
  const DONE_MARK := "[DONE]"

  // ---------- what one block does ----------

  /** What the driver makes of a block. */
  datatype Action =
    Ignore | AcceptChunk(choices: seq<Choice>) | Complete | FailAs(kind: string, message: string)

  /** A failure of the upstream. */
  function UpstreamFailure(env: Env, message: string): (failure: Action)
    ensures failure.FailAs?
  {
    if env.isMultimodalError(message) then FailAs("unsupported_multimodal_input", env.multimodalMessage)
    else FailAs("upstream_error", message)
  }

  function ErrorText(env: Env, data: Option<string>): string {
    if data.None? then DEFAULT_ERROR
    else if env.errorMessage(data.value).Some? then env.errorMessage(data.value).value
    else if Trim(data.value) != "" then data.value
    else DEFAULT_ERROR
  }

  function ActionOf(env: Env, block: string): Action {
    var data := SseData(block);
    if SseEvent(block) == Some("error") then UpstreamFailure(env, ErrorText(env, data))
    else if data.None? then Ignore
    else if Trim(data.value) == DONE_MARK then Complete
    else match env.parse(data.value)
      case NotJson(error) => FailAs("upstream_error", "failed to parse upstream SSE data as JSON: " + error)
      case ErrorValue(message) => UpstreamFailure(env, message.GetOr(DEFAULT_ERROR))
      case Chunk(choices) => AcceptChunk(choices)
  }

  function FinalizeOrFail(cfg: Config, env: Env, a: Asm): Asm {
    var (b, ok) := Finalize(cfg, a, env.storeError.None?);
    if ok then b else Fail(b, "internal_error", env.storeError.GetOr(""))
  }

  /** The second component is whether the response is over; the end mark is then sent. */
  function Act(cfg: Config, env: Env, run: Run, action: Action): (Run, bool) {
    match action
    case Ignore => (run, false)
    case AcceptChunk(choices) => (Sent(run, AcceptAll(cfg, run.asm, choices)), false)
    case Complete => (Close(Sent(run, FinalizeOrFail(cfg, env, run.asm))), true)
    case FailAs(kind, message) => (Close(Sent(run, Fail(run.asm, kind, message))), true)
  }

  function BlockStep(cfg: Config, env: Env, run: Run, block: string): (Run, bool) {
    Act(cfg, env, run, ActionOf(env, block))
  }

  function BlocksRun(cfg: Config, env: Env, run: Run, blocks: seq<string>): (Run, bool)
    decreases |blocks|
  {
    if blocks == [] then (run, false)
    else
      var (next, over) := BlockStep(cfg, env, run, blocks[0]);
      if over then (next, true) else BlocksRun(cfg, env, next, blocks[1..])
  }

  /** The body stream ended without an end mark: output that was seen is taken for cut short. */
  function EndAction(a: Asm): (Asm, Action) {
    if a.finishReason.Some? then (a, Complete)
    else if Assembly.HasSubstantiveOutput(a) then (MarkTruncated(a), Complete)
    else (a, FailAs("stream_truncated", "Upstream stream ended before sending finish_reason"))
  }

  function EndOfStream(cfg: Config, env: Env, run: Run): Run {
    var (a, action) := EndAction(run.asm);
    Act(cfg, env, run.(asm := a), action).0
  }

  // ---------- what a whole stream does ----------

  /** The bytes before the network breaks, if it does. */
  function Received(events: seq<NetworkEvent>): seq<Byte> {
    if events == [] || events[0].Broken? then [] else events[0].bytes + Received(events[1..])
  }

  function BreakMessage(events: seq<NetworkEvent>): Option<string> {
    if events == [] then None
    else if events[0].Broken? then Some(events[0].message)
    else BreakMessage(events[1..])
  }

  function Blocks(bytes: seq<Byte>): seq<string> {
    Sse.Texts(Sse.Feed(Sse.EMPTY, bytes).1)
  }

  /** The two opening events are sent before anything is known of the upstream. */
  function Begun(): Run {
    Sent(Run(INITIAL, []), Start(INITIAL))
  }

  /** The end of a stream that carried `bytes` and then broke, or just ended. */
  function StreamOutcome(cfg: Config, env: Env, bytes: seq<Byte>, breaks: Option<string>): Run {
    var (run, over) := BlocksRun(cfg, env, Begun(), Blocks(bytes));
    if over then run
    else if breaks.Some? then Act(cfg, env, run, UpstreamFailure(env, breaks.value)).0
    else EndOfStream(cfg, env, run)
  }

  function Outcome(cfg: Config, env: Env, upstream: Upstream): Run {
    match upstream
    case Unsupported(message) => Act(cfg, env, Begun(), FailAs("unsupported_multimodal_input", message)).0
    case NoPermit => Act(cfg, env, Begun(), FailAs("rate_limit_error", "adapter concurrency limit reached")).0
    case Rejected(message) => Act(cfg, env, Begun(), UpstreamFailure(env, message)).0
    case Streamed(events) => StreamOutcome(cfg, env, Received(events), BreakMessage(events))
  }

  // ---------- the driver ----------

  /** The connection to the client. */
  class Channel {
    var frames: seq<Frame>

    constructor ()
      ensures frames == []
    {
      frames := [];
    }

    /** Sends the events that the assembler emitted after the first `n`. */
    method SendSince(log: seq<Event>, n: nat)
      modifies this
      ensures frames == old(frames) + EventFrames(Since(log, n))
    {
      frames := frames + EventFrames(Since(log, n));
    }

    method SendDone()
      modifies this
      ensures frames == old(frames) + [DoneFrame]
    {
      frames := frames + [DoneFrame];
    }
  }

  function RunOf(assembler: StreamAssembler, tx: Channel): Run
    reads assembler, tx
  {
    Run(assembler.Model(), tx.frames)
  }

  method FailStream(assembler: StreamAssembler, tx: Channel, kind: string, message: string)
    modifies assembler, tx
    ensures RunOf(assembler, tx) == Sent(old(RunOf(assembler, tx)), Fail(old(assembler.Model()), kind, message))
  {
    hide Fail;
    var n := |assembler.log|;
    assembler.Fail(kind, message);
    tx.SendSince(assembler.log, n);
  }

  method FailWith(assembler: StreamAssembler, tx: Channel, env: Env, message: string)
    modifies assembler, tx
    ensures var failure := UpstreamFailure(env, message);
            RunOf(assembler, tx)
            == Sent(old(RunOf(assembler, tx)), Fail(old(assembler.Model()), failure.kind, failure.message))
  {
    hide Fail, Sent;
    if env.isMultimodalError(message) {
      FailStream(assembler, tx, "unsupported_multimodal_input", env.multimodalMessage);
    } else {
      FailStream(assembler, tx, "upstream_error", message);
    }
  }

  method FinalizeStream(assembler: StreamAssembler, tx: Channel, env: Env)
    requires assembler.Valid()
    modifies assembler, tx
    ensures RunOf(assembler, tx)
        == Sent(old(RunOf(assembler, tx)), FinalizeOrFail(assembler.cfg, env, old(assembler.Model())))
  {
    hide Assembly.Finalize, Fail;
    var n := |assembler.log|;
    var ok := assembler.Finalize(env.storeError.None?);
    if !ok {
      assembler.Fail("internal_error", env.storeError.GetOr(""));
    }
    tx.SendSince(assembler.log, n);
  }

  /** Every branch that ends the response sends the end mark; no other does. */
  method HandleBlock(assembler: StreamAssembler, tx: Channel, env: Env, block: string) returns (over: bool)
    requires assembler.Valid()
    modifies assembler, tx
    ensures (RunOf(assembler, tx), over) == BlockStep(assembler.cfg, env, old(RunOf(assembler, tx)), block)
  {
    hide FinalizeOrFail, Fail, AcceptAll, SseData, SseEvent, Trim, Since, UpstreamFailure;
    var event := SseEventFromBlock(block);
    var data := SseDataFromBlock(block);
    if event == Some("error") {
      var message := DEFAULT_ERROR;
      if data.Some? {
        var extracted := env.errorMessage(data.value);
        if extracted.Some? {
          message := extracted.value;
        } else if Trim(data.value) != "" {
          message := data.value;
        }
      }
      FailWith(assembler, tx, env, message);
      tx.SendDone();
      return true;
    }
    if data.None? {
      return false;
    }
    if Trim(data.value) == DONE_MARK {
      FinalizeStream(assembler, tx, env);
      tx.SendDone();
      return true;
    }
    match env.parse(data.value) {
      case NotJson(error) =>
        FailStream(assembler, tx, "upstream_error", "failed to parse upstream SSE data as JSON: " + error);
        tx.SendDone();
        return true;
      case ErrorValue(message) =>
        FailWith(assembler, tx, env, message.GetOr(DEFAULT_ERROR));
        tx.SendDone();
        return true;
      case Chunk(choices) =>
        var n := |assembler.log|;
        assembler.Accept(choices);
        tx.SendSince(assembler.log, n);
        return false;
    }
  }

  method HandleBlocks(assembler: StreamAssembler, tx: Channel, env: Env, blocks: seq<string>) returns (over: bool)
    requires assembler.Valid()
    modifies assembler, tx
    ensures (RunOf(assembler, tx), over) == BlocksRun(assembler.cfg, env, old(RunOf(assembler, tx)), blocks)
  {
    hide BlockStep;
    for i := 0 to |blocks|
      invariant BlocksRun(assembler.cfg, env, old(RunOf(assembler, tx)), blocks)
             == BlocksRun(assembler.cfg, env, RunOf(assembler, tx), blocks[i..])
    {
      assert blocks[i..][1..] == blocks[i + 1..];
      over := HandleBlock(assembler, tx, env, blocks[i]);
      if over {
        return true;
      }
    }
    return false;
  }

  method EndStream(assembler: StreamAssembler, tx: Channel, env: Env)
    requires assembler.Valid()
    modifies assembler, tx
    ensures RunOf(assembler, tx) == EndOfStream(assembler.cfg, env, old(RunOf(assembler, tx)))
  {
    hide FinalizeOrFail, Fail, Since, Assembly.HasSubstantiveOutput;
    if assembler.finishReason.Some? {
      FinalizeStream(assembler, tx, env);
    } else {
      var substantive := assembler.HasSubstantiveOutput();
      if substantive {
        assembler.MarkTruncatedAsLength();
        FinalizeStream(assembler, tx, env);
      } else {
        FailStream(assembler, tx, "stream_truncated", "Upstream stream ended before sending finish_reason");
      }
    }
    tx.SendDone();
  }

  /** What the client receives and what is stored depend on the bytes received and on how the stream ends, and on
      nothing else: not on how the network cuts the bytes. */
  method StreamResponse(cfg: Config, env: Env, upstream: Upstream)
      returns (frames: seq<Frame>, stored: seq<StoredResponse>)
    ensures frames == Outcome(cfg, env, upstream).frames
    ensures stored == Outcome(cfg, env, upstream).asm.stored
  {
    hide BlocksRun, EndOfStream, UpstreamFailure, Fail, Assembly.Start, Since, Sse.Feed;
    var assembler := new StreamAssembler(cfg);
    var tx := new Channel();
    assembler.Start();
    tx.SendSince(assembler.log, 0);
    assert RunOf(assembler, tx) == Begun();
    match upstream {
      case Unsupported(message) =>
        FailStream(assembler, tx, "unsupported_multimodal_input", message);
        tx.SendDone();
      case NoPermit =>
        FailStream(assembler, tx, "rate_limit_error", "adapter concurrency limit reached");
        tx.SendDone();
      case Rejected(message) =>
        FailWith(assembler, tx, env, message);
        tx.SendDone();
      case Streamed(events) =>
        ReadBody(assembler, tx, env, events);
    }
    frames, stored := tx.frames, assembler.stored;
    assert assembler.Model().stored == assembler.stored;
  }

  /** The loop over the body stream. */
  method ReadBody(assembler: StreamAssembler, tx: Channel, env: Env, events: seq<NetworkEvent>)
    requires assembler.Valid() && RunOf(assembler, tx) == Begun()
    modifies assembler, tx
    ensures RunOf(assembler, tx) == StreamOutcome(assembler.cfg, env, Received(events), BreakMessage(events))
  {
    hide BlocksRun, EndOfStream, UpstreamFailure, Begun, Since, Fail, Sse.Feed, Sse.Texts, Sse.NextDelimiter;
    var decoder := new Sse.SseDecoder();
    ghost var got: seq<Byte> := [];
    NothingYet(assembler.cfg, env, RunOf(assembler, tx));
    assert got + Received(events) == Received(events);
    for i := 0 to |events|
      invariant Received(events) == got + Received(events[i..]) && BreakMessage(events) == BreakMessage(events[i..])
      invariant Sse.Feed(Sse.EMPTY, got).0 == decoder.Model()
      invariant BlocksRun(assembler.cfg, env, Begun(), Blocks(got)) == (RunOf(assembler, tx), false)
      invariant fresh(decoder)
    {
      assert events[i..][1..] == events[i + 1..] && events[i..][0] == events[i];
      match events[i] {
        case Broken(message) =>
          assert got + [] == got;
          FailWith(assembler, tx, env, message);
          tx.SendDone();
          return;
        case Bytes(bytes) =>
          var blocks := decoder.ParseChatSseBytes(bytes);
          BlocksGrow(got, bytes);
          RunAppend(assembler.cfg, env, Begun(), Blocks(got), blocks);
          ConcatAssoc(got, bytes, Received(events[i + 1..]));
          got := got + bytes;
          var over := HandleBlocks(assembler, tx, env, blocks);
          if over {
            OverStays(assembler.cfg, env, got, Received(events[i + 1..]));
            return;
          }
      }
    }
    assert events[|events|..] == [] && got + [] == got;
    EndStream(assembler, tx, env);
  }

  lemma NothingYet(cfg: Config, env: Env, run: Run)
    ensures Blocks([]) == [] && BlocksRun(cfg, env, run, []) == (run, false)
    ensures Sse.Feed(Sse.EMPTY, []) == (Sse.EMPTY, [])
  {
    Sse.ChunkingIsInvisible(Sse.EMPTY, []);
  }

  lemma BlocksGrow(bytes: seq<Byte>, more: seq<Byte>)
    ensures var (d, pieces) := Sse.Feed(Sse.EMPTY, bytes);
            var (e, later) := Sse.Feed(d, more);
            && Sse.Feed(Sse.EMPTY, bytes + more).0 == e
            && Blocks(bytes + more) == Blocks(bytes) + Sse.Texts(later)
  {
    hide Sse.Feed;
    Sse.FeedTwo(Sse.EMPTY, bytes, more);
  }

  lemma {:induction false} RunAppend(cfg: Config, env: Env, run: Run, blocks: seq<string>, more: seq<string>)
    ensures var (next, over) := BlocksRun(cfg, env, run, blocks);
            BlocksRun(cfg, env, run, blocks + more) == if over then (next, true) else BlocksRun(cfg, env, next, more)
    decreases |blocks|
  {
    hide BlockStep;
    if blocks == [] {
      assert blocks + more == more;
    } else {
      assert (blocks + more)[1..] == blocks[1..] + more;
      var (next, over) := BlockStep(cfg, env, run, blocks[0]);
      if !over {
        RunAppend(cfg, env, next, blocks[1..], more);
      }
    }
  }

  /** Bytes after the end of the response are not read. */
  lemma OverStays(cfg: Config, env: Env, bytes: seq<Byte>, more: seq<Byte>)
    requires BlocksRun(cfg, env, Begun(), Blocks(bytes)).1
    ensures BlocksRun(cfg, env, Begun(), Blocks(bytes + more)) == BlocksRun(cfg, env, Begun(), Blocks(bytes))
  {
    hide BlocksRun, Sse.Feed, Begun;
    BlocksGrow(bytes, more);
    var later := Sse.Feed(Sse.Feed(Sse.EMPTY, bytes).0, more).1;
    RunAppend(cfg, env, Begun(), Blocks(bytes), Sse.Texts(later));
  }

  // ---------- streams of chunks ----------

  predicate GoesOn(action: Action) {
    action.Ignore? || action.AcceptChunk?
  }

  predicate IsErrorEvent(block: string) {
    SseEvent(block) == Some("error")
  }

  /** No error event, and the data are the end mark. */
  predicate IsEndMark(block: string) {
    !IsErrorEvent(block) && SseData(block).Some? && Trim(SseData(block).value) == "[DONE]"
  }

  /** The block carries a chunk, or no data at all. */
  predicate IsChunkBlock(env: Env, block: string) {
    && !IsErrorEvent(block) && !IsEndMark(block)
    && (SseData(block).Some? ==> env.parse(SseData(block).value).Chunk?)
  }

  /** The choices of the chunk. */
  function ChoicesIn(env: Env, block: string): seq<Choice> {
    if IsChunkBlock(env, block) && SseData(block).Some? then env.parse(SseData(block).value).choices else []
  }

  function AllChoices(env: Env, blocks: seq<string>): seq<Choice> {
    if blocks == [] then [] else ChoicesIn(env, blocks[0]) + AllChoices(env, blocks[1..])
  }

  /** What an action has the assembler accept. */
  function Accepted(action: Action): seq<Choice> {
    if action.AcceptChunk? then action.choices else []
  }

  /** The response goes on exactly after the chunks, and accepts their choices; it is completed exactly at the end
      mark. */
  lemma ActionMeans(env: Env, block: string)
    ensures var action := ActionOf(env, block);
            && (GoesOn(action) <==> IsChunkBlock(env, block)) && Accepted(action) == ChoicesIn(env, block)
            && (action == Complete <==> IsEndMark(block))
  {
    hide SseData, SseEvent, Trim;
  }

  // ---------- what one action does ----------

  /** The last event is a completed or incomplete response and its output was stored before, or it is a failure and
      nothing was stored. */
  ghost predicate EndsProperly(cfg: Config, b: Asm) {
    && Ended(b.log)
    && match b.log[|b.log| - 1].payload
       case Finished(_, output) => exists head :: b.stored == [Record(cfg, head)] && b.stored[0].output == output
       case _ => b.stored == []
  }

  ghost predicate Completed(b: Asm) {
    b.log != [] && b.log[|b.log| - 1].payload.Finished? && b.log[|b.log| - 1].payload.incomplete == None
  }

  /** A run that goes on has sent its events; one that is over has sent its events and one end mark after them. */
  predicate InStep(run: Run, over: bool) {
    run.frames == EventFrames(run.asm.log) + if over then [DoneFrame] else []
  }

  ghost predicate IsGoing(run: Run) {
    Unfinished(run.asm) && InStep(run, false)
  }

  /** From `run` to `next` events were only added, and sent; if the response is over, it ended as it should. */
  ghost predicate IsProper(cfg: Config, run: Run, next: Run, over: bool) {
    && run.asm.log <= next.asm.log
    && if over then EndsProperly(cfg, next.asm) && InStep(next, true) else IsGoing(next)
  }

  lemma EventFramesConcat(log: seq<Event>, more: seq<Event>)
    ensures EventFrames(log + more) == EventFrames(log) + EventFrames(more)
  {
  }

  /** Emitted events are sent once and in order. */
  lemma SentInStep(run: Run, b: Asm)
    requires InStep(run, false) && run.asm.log <= b.log
    ensures InStep(Sent(run, b), false) && InStep(Close(Sent(run, b)), true)
  {
    hide EventFrames;
    var before, later := run.asm.log, Since(b.log, |run.asm.log|);
    EventFramesConcat(before, later);
    assert b.log == before + later;
    assert EventFrames(before) + [] == EventFrames(before) && EventFrames(b.log) + [] == EventFrames(b.log);
  }

  lemma FailIsProper(cfg: Config, a: Asm, kind: string, message: string)
    requires Unfinished(a)
    ensures var b := Fail(a, kind, message); a.log <= b.log && EndsProperly(cfg, b) && !Completed(b)
  {
    FailEnds(a, kind, message);
    hide Unfinished, Ended;
  }

  lemma FinalizeOrFailEnds(cfg: Config, env: Env, a: Asm)
    requires Unfinished(a)
    ensures var b := FinalizeOrFail(cfg, env, a);
            && a.log <= b.log && EndsProperly(cfg, b)
            && (Completed(b) <==> env.storeError == None && IsOrdinary(a.finishReason))
            && (env.storeError == None ==> b.stored == [Record(cfg, FinishHead(cfg, a))])
  {
    hide Finalize, Fail, Unfinished, Numbered, NoTerminal, FinishHead, Output, AssistantMessage, FinalIds, OutputKeys,
         CompletionStatus, TellsReason, IsOrdinary;
    StatusTellsReason(a.finishReason);
    var works := env.storeError.None?;
    FinalizeEnds(cfg, a, works);
    FinalizeSteps(cfg, a, works);
    if !works {
      FailIsProper(cfg, Finalize(cfg, a, works).0, "internal_error", env.storeError.GetOr(""));
    }
  }

  lemma ActIsProper(cfg: Config, env: Env, run: Run, action: Action)
    requires IsGoing(run)
    ensures var (next, over) := Act(cfg, env, run, action);
            && IsProper(cfg, run, next, over)
            && (action.FailAs? ==> !Completed(next.asm))
  {
    hide FinalizeOrFail, Fail, AcceptAll, Unfinished, EndsProperly, Completed, InStep, Since, EventFrames, Adds;
    var a := run.asm;
    match action
    case Ignore =>
    case AcceptChunk(choices) =>
      ChoicesSteps(cfg, a, choices);
      var b := AcceptAll(cfg, a, choices);
      AddsUnfinished(a, b, false);
      AddsGrows(a, b, false);
      SentInStep(run, b);
    case Complete =>
      FinalizeOrFailEnds(cfg, env, a);
      SentInStep(run, FinalizeOrFail(cfg, env, a));
    case FailAs(kind, message) =>
      FailIsProper(cfg, a, kind, message);
      SentInStep(run, Fail(a, kind, message));
  }

  lemma AddsGrows(a: Asm, b: Asm, quiet: bool)
    requires Adds(a, b, quiet)
    ensures a.log <= b.log
  {
  }

  // ---------- what blocks do ----------

  lemma {:induction false} AcceptAllTwo(cfg: Config, a: Asm, one: seq<Choice>, two: seq<Choice>)
    ensures AcceptAll(cfg, a, one + two) == AcceptAll(cfg, AcceptAll(cfg, a, one), two)
    decreases |two|
  {
    hide AcceptChoice;
    if two == [] {
      assert one + two == one;
    } else {
      var n := |two| - 1;
      AcceptAllTwo(cfg, a, one, two[..n]);
      assert (one + two)[..|one + two| - 1] == one + two[..n];
    }
  }

  /** The response goes on exactly while all blocks carry chunks, and then the assembler has accepted their choices. */
  lemma {:induction false} ChunksAreAccepted(cfg: Config, env: Env, run: Run, blocks: seq<string>)
    ensures var (next, over) := BlocksRun(cfg, env, run, blocks);
            && (over <==> exists block :: block in blocks && !IsChunkBlock(env, block))
            && (!over ==> next.asm == AcceptAll(cfg, run.asm, AllChoices(env, blocks)))
            && (IsGoing(run) ==> IsProper(cfg, run, next, over))
    decreases |blocks|
  {
    hide ActionOf, AcceptAll, IsGoing, FinalizeOrFail, Fail, Since, IsChunkBlock, ChoicesIn;
    if blocks == [] {
      assert AcceptAll(cfg, run.asm, []) == run.asm by { NoChoices(cfg, run.asm); }
    } else {
      var action, rest := ActionOf(env, blocks[0]), blocks[1..];
      var (next, over) := Act(cfg, env, run, action);
      ActionMeans(env, blocks[0]);
      if IsGoing(run) {
        ActIsProper(cfg, env, run, action);
      }
      assert forall block :: block in blocks <==> block == blocks[0] || block in rest;
      if !over {
        ChunksAreAccepted(cfg, env, next, rest);
        AcceptAllTwo(cfg, run.asm, Accepted(action), AllChoices(env, rest));
        NoChoices(cfg, run.asm);
      } else {
        assert !IsChunkBlock(env, blocks[0]) && blocks[0] in blocks;
      }
    }
  }

  lemma NoChoices(cfg: Config, a: Asm)
    ensures AcceptAll(cfg, a, []) == a
  {
  }

  // ---------- whole runs ----------

  lemma BegunIsGoing()
    ensures IsGoing(Begun()) && Begun().asm.log == [Event(1, Created), Event(2, StartedProgress)]
  {
    assert EventFrames([]) == [];
    StartUnfinished();
    SentInStep(Run(INITIAL, []), Assembly.Start(INITIAL));
  }

  /** The end of a body stream completes a run, with a finish reason of its own making if need be, or fails it. */
  lemma EndActionMeans(a: Asm)
    ensures var (b, action) := EndAction(a);
            && b.log == a.log && (Unfinished(a) ==> Unfinished(b)) && !GoesOn(action)
            && (action == Complete && IsOrdinary(b.finishReason)
                <==> a.finishReason.Some? && IsOrdinary(a.finishReason))
  {
    hide Assembly.HasSubstantiveOutput;
  }

  /** Every run, whatever the upstream sends and whether or not a slot is free or the store works, begins with the two
      opening events and ends with its only terminal event; events are numbered 1, 2, 3, ...; a response is announced as
      completed or incomplete only after its output was stored. The frames sent are the events, once and in order, and
      after them the one end mark of the branch that ended the run. */
  lemma EveryRunEndsProperly(cfg: Config, env: Env, upstream: Upstream)
    ensures var run := Outcome(cfg, env, upstream);
            && [Event(1, Created), Event(2, StartedProgress)] <= run.asm.log
            && EndsProperly(cfg, run.asm) && InStep(run, true)
  {
    hide Act, UpstreamFailure, StreamOutcome, Begun, IsGoing, EndsProperly, InStep;
    BegunIsGoing();
    var run := Begun();
    match upstream {
      case Unsupported(message) => EndingIsProper(cfg, env, run, FailAs("unsupported_multimodal_input", message));
      case NoPermit => EndingIsProper(cfg, env, run, FailAs("rate_limit_error", "adapter concurrency limit reached"));
      case Rejected(message) => EndingIsProper(cfg, env, run, UpstreamFailure(env, message));
      case Streamed(events) => StreamIsProper(cfg, env, Received(events), BreakMessage(events));
    }
  }

  lemma StreamIsProper(cfg: Config, env: Env, bytes: seq<Byte>, breaks: Option<string>)
    ensures IsProper(cfg, Begun(), StreamOutcome(cfg, env, bytes, breaks), true)
  {
    hide BlocksRun, Act, UpstreamFailure, EndAction, Begun, IsGoing, EndsProperly, InStep, Blocks, Unfinished;
    BegunIsGoing();
    ChunksAreAccepted(cfg, env, Begun(), Blocks(bytes));
    var (next, over) := BlocksRun(cfg, env, Begun(), Blocks(bytes));
    if !over {
      if breaks.Some? {
        EndingIsProper(cfg, env, next, UpstreamFailure(env, breaks.value));
      } else {
        var (marked, action) := EndAction(next.asm);
        EndActionMeans(next.asm);
        MarkedIsGoing(next, marked);
        EndingIsProper(cfg, env, next.(asm := marked), action);
      }
    }
  }

  lemma MarkedIsGoing(run: Run, marked: Asm)
    requires IsGoing(run) && marked.log == run.asm.log && (Unfinished(run.asm) ==> Unfinished(marked))
    ensures IsGoing(run.(asm := marked))
  {
  }

  lemma EndingIsProper(cfg: Config, env: Env, run: Run, action: Action)
    requires IsGoing(run) && !GoesOn(action)
    ensures IsProper(cfg, run, Act(cfg, env, run, action).0, true)
  {
    hide FinalizeOrFail, Fail, Since, EndsProperly, InStep, IsGoing;
    ActIsProper(cfg, env, run, action);
  }

  /** What the client receives: exactly one end mark, the last frame, and right before it the only terminal event. */
  lemma FramesEndOnce(cfg: Config, env: Env, upstream: Upstream)
    ensures var frames := Outcome(cfg, env, upstream).frames;
            && |frames| >= 2 && frames[|frames| - 1] == DoneFrame
            && forall i :: 0 <= i < |frames| - 1 ==>
                 && frames[i].EventFrame? && frames[i].event.sequence == i + 1
                 && (IsTerminal(frames[i].event.payload) <==> i == |frames| - 2)
  {
    hide Outcome;
    EveryRunEndsProperly(cfg, env, upstream);
    var log := Outcome(cfg, env, upstream).asm.log;
    assert forall i :: 0 <= i < |log| - 1 ==> log[..|log| - 1][i] == log[i];
  }

  // ---------- when a response is completed ----------

  /** The number of leading blocks that carry chunks. */
  function FirstStop(env: Env, blocks: seq<string>): (n: nat)
    ensures n <= |blocks|
  {
    if blocks == [] || !IsChunkBlock(env, blocks[0]) then 0 else 1 + FirstStop(env, blocks[1..])
  }

  lemma {:induction false} FirstStopMeans(env: Env, blocks: seq<string>, n: nat)
    requires n <= |blocks|
    ensures n == FirstStop(env, blocks) <==>
            && (forall i :: 0 <= i < n ==> IsChunkBlock(env, blocks[i]))
            && (n < |blocks| ==> !IsChunkBlock(env, blocks[n]))
  {
    hide IsChunkBlock;
    if n > 0 && IsChunkBlock(env, blocks[0]) {
      FirstStopMeans(env, blocks[1..], n - 1);
      assert forall i :: 1 <= i < |blocks| ==> blocks[i] == blocks[1..][i - 1];
      assert (forall i :: 0 <= i < n ==> IsChunkBlock(env, blocks[i]))
        <==> forall i :: 0 <= i < n - 1 ==> IsChunkBlock(env, blocks[1..][i]) by {
        assert forall i :: 0 <= i < n - 1 ==> blocks[1..][i] == blocks[i + 1];
      }
    }
  }

  /** The choices of a stream up to the block that ends it. */
  function StreamChoices(env: Env, blocks: seq<string>): seq<Choice> {
    AllChoices(env, blocks[..FirstStop(env, blocks)])
  }

  /** The run up to the block that ends it, and that block. */
  lemma RunToStop(cfg: Config, env: Env, blocks: seq<string>) returns (run: Run)
    ensures run.asm == AfterChoices(cfg, StreamChoices(env, blocks)) && IsGoing(run)
    ensures var n := FirstStop(env, blocks);
            BlocksRun(cfg, env, Begun(), blocks)
            == if n < |blocks| then (BlockStep(cfg, env, run, blocks[n]).0, true) else (run, false)
  {
    hide Act, ActionOf, Assembly.Start, AcceptAll, AllChoices, FirstStop, IsGoing, IsChunkBlock;
    var n := FirstStop(env, blocks);
    FirstStopMeans(env, blocks, n);
    BegunIsGoing();
    ChunksAreAccepted(cfg, env, Begun(), blocks[..n]);
    assert forall block :: block in blocks[..n] ==> IsChunkBlock(env, block);
    run := BlocksRun(cfg, env, Begun(), blocks[..n]).0;
    RunAppend(cfg, env, Begun(), blocks[..n], blocks[n..]);
    assert blocks[..n] + blocks[n..] == blocks;
    if n < |blocks| {
      ActionMeans(env, blocks[n]);
      OverExactlyWhen(cfg, env, run, ActionOf(env, blocks[n]));
    }
  }

  lemma OverExactlyWhen(cfg: Config, env: Env, run: Run, action: Action)
    ensures Act(cfg, env, run, action).1 <==> !GoesOn(action)
  {
  }

  /** A response is reported as completed exactly when the store works, the last finish reason received is none of
      those for incomplete responses, and the stream ended with an end mark or, having brought a finish reason,
      without one but unbroken. */
  lemma CompletedExactlyWhen(cfg: Config, env: Env, events: seq<NetworkEvent>)
    ensures var blocks := Blocks(Received(events));
            var n, finish := FirstStop(env, blocks), LastFinish(StreamChoices(env, blocks));
            Completed(Outcome(cfg, env, Streamed(events)).asm) <==>
            (&& env.storeError == None && IsOrdinary(finish)
             && if n < |blocks| then IsEndMark(blocks[n]) else BreakMessage(events) == None && finish.Some?)
  {
    hide BlocksRun, FinalizeOrFail, Fail, Begun, Since, Unfinished, Blocks, StreamChoices, UpstreamFailure, ActionOf,
         EndAction, Completed, EndsProperly, AcceptAll, Record, FinishHead, IsOrdinary, FirstStop, IsGoing, IsEndMark,
         IsChunkBlock;
    var blocks := Blocks(Received(events));
    var n := FirstStop(env, blocks);
    FirstStopMeans(env, blocks, n);
    var run := RunToStop(cfg, env, blocks);
    StreamUnfinished(cfg, StreamChoices(env, blocks));
    ViewChoices(cfg, StreamChoices(env, blocks));
    FinalizeOrFailEnds(cfg, env, run.asm);
    if n < |blocks| {
      ActionMeans(env, blocks[n]);
      ActIsProper(cfg, env, run, ActionOf(env, blocks[n]));
    } else {
      ActIsProper(cfg, env, run, UpstreamFailure(env, BreakMessage(events).GetOr("")));
      var (marked, action) := EndAction(run.asm);
      EndActionMeans(run.asm);
      MarkedIsGoing(run, marked);
      ActIsProper(cfg, env, run.(asm := marked), action);
      FinalizeOrFailEnds(cfg, env, marked);
    }
  }
}
