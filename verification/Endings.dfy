/** How a streamed response ends, told by what the upstream sent and not by how the driver decides. */
module Endings {
  import opened Wrappers
  import opened Text
  import opened Utf8
  import opened SsePayload
  import opened Items
  import opened Assembly
  import opened Views
  import opened Runs
  import opened Driver

  // ---------- what the network delivered ----------

  function Delivered(chunks: seq<seq<Byte>>): seq<NetworkEvent> {
    seq(|chunks|, i requires 0 <= i < |chunks| => Bytes(chunks[i]))
  }

  /** All bytes are received, in order, up to the first break; nothing after it is. */
  lemma {:induction false} AllIsReceived(chunks: seq<seq<Byte>>, message: string, later: seq<NetworkEvent>)
    ensures Received(Delivered(chunks)) == Flatten(chunks) && BreakMessage(Delivered(chunks)) == None
    ensures var events := Delivered(chunks) + [Broken(message)] + later;
            Received(events) == Flatten(chunks) && BreakMessage(events) == Some(message)
    decreases |chunks|
  {
    var events := Delivered(chunks) + [Broken(message)] + later;
    if chunks == [] {
      assert events[0] == Broken(message);
    } else {
      AllIsReceived(chunks[1..], message, later);
      assert Delivered(chunks)[1..] == Delivered(chunks[1..]) && Delivered(chunks)[0] == Bytes(chunks[0]);
      assert events[1..] == Delivered(chunks[1..]) + [Broken(message)] + later && events[0] == Bytes(chunks[0]);
    }
  }

  // ---------- the last event ----------

  /** The last event is a failure of this kind with the first 1000 characters of this message; nothing was stored. */
  ghost predicate FailedWith(b: Asm, kind: string, message: string) {
    && b.stored == [] && b.log != []
    && var last := b.log[|b.log| - 1].payload;
       && last.Failed? && last.kind == kind
       && last.message <= message && |last.message| == if |message| <= 1000 then |message| else 1000
  }

  /** The failure that a message of the upstream is reported as. */
  ghost predicate FailedUpstream(env: Env, b: Asm, message: string) {
    if env.isMultimodalError(message) then FailedWith(b, "unsupported_multimodal_input", env.multimodalMessage)
    else FailedWith(b, "upstream_error", message)
  }

  /** With a working store the record of these choices was stored and announced, under the status of the last finish
      reason; with a failing one the store's error is reported and nothing was stored. */
  ghost predicate RespondsWith(cfg: Config, env: Env, b: Asm, choices: seq<Choice>) {
    match env.storeError
    case Some(error) => FailedWith(b, "internal_error", error)
    case None =>
      && b.stored == [Record(cfg, FinishHead(cfg, AfterChoices(cfg, choices)))] && b.log != []
      && AnnouncesResponse(b, LastFinish(choices))
  }

  lemma FailsWith(a: Asm, kind: string, message: string)
    requires Unfinished(a)
    ensures FailedWith(Fail(a, kind, message), kind, message)
  {
    hide Fail, Unfinished, Ended;
    FailEnds(a, kind, message);
  }

  lemma FailsUpstream(cfg: Config, env: Env, run: Run, message: string)
    requires Unfinished(run.asm)
    ensures FailedUpstream(env, Act(cfg, env, run, UpstreamFailure(env, message)).0.asm, message)
  {
    hide Fail, Unfinished, FailedWith, Since;
    if env.isMultimodalError(message) {
      FailsWith(run.asm, "unsupported_multimodal_input", env.multimodalMessage);
    } else {
      FailsWith(run.asm, "upstream_error", message);
    }
  }

  lemma Responds(cfg: Config, env: Env, choices: seq<Choice>)
    ensures RespondsWith(cfg, env, FinalizeOrFail(cfg, env, AfterChoices(cfg, choices)), choices)
  {
    hide Finalize, Fail, Unfinished, Numbered, NoTerminal, FinishHead, Record, AfterChoices, TellsReason,
         CompletionStatus, FailedWith;
    var a, works := AfterChoices(cfg, choices), env.storeError.None?;
    StreamUnfinished(cfg, choices);
    ViewChoices(cfg, choices);
    FinalizeEnds(cfg, a, works);
    if !works {
      FailsWith(Finalize(cfg, a, works).0, "internal_error", env.storeError.value);
    }
  }

  // ---------- the block that ends the response ----------

  /** The message that an error event reports: what its data say, the data themselves, or a stock text. */
  ghost predicate ReportsError(env: Env, data: Option<string>, message: string) {
    && (data.None? ==> message == "upstream stream error")
    && (data.Some? ==>
          match env.errorMessage(data.value)
          case Some(said) => message == said
          case None => message == if Trim(data.value) != "" then data.value else "upstream stream error")
  }

  /** What the first block that carries no chunk does to the response: an error event fails it, whatever its data are;
      the end mark completes it; an error value and data that are not JSON fail it. There is no other such block. */
  ghost predicate EndsAs(cfg: Config, env: Env, b: Asm, choices: seq<Choice>, block: string) {
    var data := SseData(block);
    if SseEvent(block) == Some("error") then exists message :: ReportsError(env, data, message)
                                                          && FailedUpstream(env, b, message)
    else
      && data.Some?
      && if Trim(data.value) == "[DONE]" then RespondsWith(cfg, env, b, choices)
         else match env.parse(data.value)
           case NotJson(error) => FailedWith(b, "upstream_error", UnreadableData(error))
           case ErrorValue(said) => FailedUpstream(env, b, said.GetOr("upstream stream error"))
           case Chunk(_) => false
  }

  function UnreadableData(error: string): string {
    "failed to parse upstream SSE data as JSON: " + error
  }

  lemma StopEnds(cfg: Config, env: Env, run: Run, choices: seq<Choice>, block: string)
    requires Unfinished(run.asm) && run.asm == AfterChoices(cfg, choices) && !IsChunkBlock(env, block)
    ensures EndsAs(cfg, env, BlockStep(cfg, env, run, block).0.asm, choices, block)
  {
    hide SseData, SseEvent, Trim, Fail, FinalizeOrFail, Unfinished, AfterChoices, FailedWith, FailedUpstream,
         RespondsWith, UpstreamFailure, Since;
    var data := SseData(block);
    if SseEvent(block) == Some("error") {
      FailsUpstream(cfg, env, run, ErrorText(env, data));
      assert ReportsError(env, data, ErrorText(env, data));
    } else if Trim(data.value) == "[DONE]" {
      Responds(cfg, env, choices);
    } else {
      match env.parse(data.value)
      case NotJson(error) => FailsWith(run.asm, "upstream_error", UnreadableData(error));
      case ErrorValue(said) => FailsUpstream(cfg, env, run, said.GetOr("upstream stream error"));
    }
  }

  /** For any bytes, however they are cut and end: if a block comes that carries no chunk, the first such block decides
      how the response ends, from the choices before it. Nothing after it matters. */
  lemma FirstStopDecides(cfg: Config, env: Env, events: seq<NetworkEvent>, n: nat)
    requires var blocks := Blocks(Received(events));
             && n < |blocks| && !IsChunkBlock(env, blocks[n])
             && forall i :: 0 <= i < n ==> IsChunkBlock(env, blocks[i])
    ensures var blocks := Blocks(Received(events));
            EndsAs(cfg, env, Outcome(cfg, env, Streamed(events)).asm, AllChoices(env, blocks[..n]), blocks[n])
  {
    hide BlocksRun, Blocks, IsChunkBlock, EndsAs, Begun, Act, ActionOf, UpstreamFailure, AfterChoices, Unfinished,
         InStep, FirstStop;
    var blocks := Blocks(Received(events));
    FirstStopMeans(env, blocks, n);
    var run := RunToStop(cfg, env, blocks);
    StopEnds(cfg, env, run, AllChoices(env, blocks[..n]), blocks[n]);
  }

  // ---------- streams that no block ends, and requests without a stream ----------

  /** If every block carries a chunk, a broken network fails the response with its message, and a stream that just
      ends after a finish reason completes it. */
  lemma UnstoppedStreams(cfg: Config, env: Env, events: seq<NetworkEvent>)
    requires forall block :: block in Blocks(Received(events)) ==> IsChunkBlock(env, block)
    ensures var choices := AllChoices(env, Blocks(Received(events)));
            var b := Outcome(cfg, env, Streamed(events)).asm;
            match BreakMessage(events)
            case Some(message) => FailedUpstream(env, b, message)
            case None => LastFinish(choices).Some? ==> RespondsWith(cfg, env, b, choices)
  {
    hide BlocksRun, Blocks, IsChunkBlock, Begun, Act, ActionOf, UpstreamFailure, AfterChoices, Unfinished, InStep,
         FirstStop, FailedUpstream, RespondsWith, Assembly.HasSubstantiveOutput, AllChoices;
    var blocks := Blocks(Received(events));
    FirstStopMeans(env, blocks, |blocks|);
    assert blocks[..|blocks|] == blocks;
    var run := RunToStop(cfg, env, blocks);
    ViewChoices(cfg, AllChoices(env, blocks));
    if BreakMessage(events).Some? {
      FailsUpstream(cfg, env, run, BreakMessage(events).value);
    } else if LastFinish(AllChoices(env, blocks)).Some? {
      Responds(cfg, env, AllChoices(env, blocks));
      Completes(cfg, env, run);
    }
  }

  lemma Completes(cfg: Config, env: Env, run: Run)
    ensures Act(cfg, env, run, Complete).0.asm == FinalizeOrFail(cfg, env, run.asm)
  {
  }

  /** A request that gets no stream fails: input the upstream is known not to take, no free slot, or a refusal. */
  lemma RefusedRequestsFail(cfg: Config, env: Env, message: string)
    ensures FailedWith(Outcome(cfg, env, Unsupported(message)).asm, "unsupported_multimodal_input", message)
    ensures FailedWith(Outcome(cfg, env, NoPermit).asm, "rate_limit_error", "adapter concurrency limit reached")
    ensures FailedUpstream(env, Outcome(cfg, env, Rejected(message)).asm, message)
  {
    hide Fail, Since, Unfinished, InStep, FailedWith, FailedUpstream, UpstreamFailure, Begun;
    BegunIsGoing();
    FailsWith(Begun().asm, "unsupported_multimodal_input", message);
    FailsWith(Begun().asm, "rate_limit_error", "adapter concurrency limit reached");
    FailsUpstream(cfg, env, Begun(), message);
  }
}
