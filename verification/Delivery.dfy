/** What the client makes of the frames it receives, for any bytes of the upstream. */
module Delivery {
  import opened Wrappers
  import opened Think
  import opened Items
  import opened Assembly
  import opened Replay
  import opened EventReplay
  import opened Views
  import opened Runs
  import opened Fragments
  import opened Driver

  /** The events among the frames. */
  function EventsIn(frames: seq<Frame>): seq<Event> {
    if frames == [] then []
    else
      var n := |frames| - 1;
      EventsIn(frames[..n]) + if frames[n].EventFrame? then [frames[n].event] else []
  }

  /** What a client holds that reads the frames. */
  function ClientGets(cfg: Config, frames: seq<Frame>): Option<Client> {
    Replayed(cfg.codec, EventsIn(frames))
  }

  lemma {:induction false} EventsOfLog(log: seq<Event>)
    ensures EventsIn(EventFrames(log)) == log
  {
    if log != [] {
      var n := |log| - 1;
      EventsOfLog(log[..n]);
      assert EventFrames(log)[..n] == EventFrames(log[..n]);
    }
  }

  lemma EventsInStep(run: Run)
    requires InStep(run, true)
    ensures EventsIn(run.frames) == run.asm.log
  {
    hide EventFrames;
    EventsOfLog(run.asm.log);
    var frames := run.frames;
    assert frames[..|frames| - 1] == EventFrames(run.asm.log) && frames[|frames| - 1] == DoneFrame;
    assert run.asm.log + [] == run.asm.log;
  }

  lemma FailIsInvisible(cfg: Config, a: Asm, kind: string, message: string)
    ensures ClientOf(cfg, Fail(a, kind, message)) == ClientOf(cfg, a) && Fail(a, kind, message).stored == a.stored
  {
    hide Replayed;
    if !a.terminalEmitted {
      var b := Fail(a, kind, message);
      assert b.log[..|b.log| - 1] == a.log;
      EmitStep(cfg, a, b.log[|a.log|].payload);
    }
  }

  // ---------- the end of a stream ----------

  /** What makes a stream without finish reason end as cut short. */
  const CUT := Choice("", "", None, Some("length"))

  /** It changes the finish reason and nothing else. */
  lemma CutChoice(cfg: Config, choices: seq<Choice>)
    requires LastFinish(choices) == None
    ensures var all := choices + [CUT];
            && AfterChoices(cfg, all) == MarkTruncated(AfterChoices(cfg, choices))
            && RunChoices(INITIAL_RUN, all) == RunChoices(INITIAL_RUN, choices) && AllDeltas(all) == AllDeltas(choices)
            && (IsLate(!Buffered(cfg), all) <==> IsLate(!Buffered(cfg), choices))
  {
    hide RunStep, ReasoningClosed, TextClosed;
    var all, n, r := choices + [CUT], |choices|, RunChoices(INITIAL_RUN, choices);
    assert all[..n] == choices && all[n] == CUT && AllDeltas(choices) + [] == AllDeltas(choices);
    ViewChoices(cfg, choices);
    NoMoreReasoning(cfg, AfterChoices(cfg, choices), AfterChoices(cfg, choices));
    assert RunStep(r, "") == r by { NoMoreText(r); }
  }

  lemma NoMoreText(r: SplitRun)
    ensures RunStep(r, "") == r
  {
  }

  /** A client that follows has the output that was stored. */
  ghost predicate HasOutput(cfg: Config, choices: seq<Choice>, c: Client, output: seq<Item>) {
    && (Buffered(cfg) ==> AllClosed(c) && c.finished == output)
    && (!Buffered(cfg) ==> (GivesOutput(c, output) <==> AnswerOf(choices) == "" || !HasVisibleName(choices)))
  }

  /** The client follows exactly if nothing came late, and has what was stored, if anything was. */
  ghost predicate IsDelivered(cfg: Config, choices: seq<Choice>, b: Asm) {
    && (ClientOf(cfg, b).Some? <==> !IsLate(!Buffered(cfg), choices))
    && (ClientOf(cfg, b).Some? && b.stored != [] ==>
        HasOutput(cfg, choices, ClientOf(cfg, b).value, b.stored[0].output))
  }

  lemma CompleteDelivers(cfg: Config, env: Env, choices: seq<Choice>)
    ensures IsDelivered(cfg, choices, FinalizeOrFail(cfg, env, AfterChoices(cfg, choices)))
  {
    hide Finalize, Fail, ClientOf, AfterChoices, IsLate, AnswerOf, HasVisibleName, GivesOutput, AllClosed, Output,
         FinishHead, AssistantMessage, FinalIds, OutputKeys, ReasoningComesLate, Numbered, NoTerminal;
    var a, works := AfterChoices(cfg, choices), env.storeError.None?;
    EventReplayGivesTheResponse(cfg, choices, works);
    StreamUnfinished(cfg, choices);
    FinalizeEnds(cfg, a, works);
    FailIsInvisible(cfg, Finalize(cfg, a, works).0, "internal_error", env.storeError.GetOr(""));
  }

  lemma FailureDelivers(cfg: Config, choices: seq<Choice>, kind: string, message: string)
    ensures IsDelivered(cfg, choices, Fail(AfterChoices(cfg, choices), kind, message))
  {
    hide Fail, AfterChoices, IsLate, Running, Replayed, Tracks, AreClosed, HasOutput, Numbered, NoTerminal;
    StreamFollows(cfg, choices);
    StreamUnfinished(cfg, choices);
    FailIsInvisible(cfg, AfterChoices(cfg, choices), kind, message);
  }

  /** For any bytes of the upstream, however they were cut and however the stream ended: a client can follow the
      frames it receives to their end exactly if no choice came late, and if a response was stored it then has that
      response's output, with declared tools always and in order, without them under the condition on answer text and
      names. */
  lemma ClientReceivesTheResponse(cfg: Config, env: Env, events: seq<NetworkEvent>)
    ensures var run, choices := Outcome(cfg, env, Streamed(events)), StreamChoices(env, Blocks(Received(events)));
            && (ClientGets(cfg, run.frames).Some? <==> !IsLate(!Buffered(cfg), choices))
            && (ClientGets(cfg, run.frames).Some? && run.asm.stored != [] ==>
                  HasOutput(cfg, choices, ClientGets(cfg, run.frames).value, run.asm.stored[0].output))
  {
    hide BlocksRun, FinalizeOrFail, Fail, Begun, Since, Blocks, StreamChoices, UpstreamFailure, ActionOf, EndAction,
         InStep, FirstStop, IsGoing, EndsProperly, EventFrames, EventsIn, Replayed, HasOutput, IsLate, AfterChoices;
    var blocks := Blocks(Received(events));
    var n, choices := FirstStop(env, blocks), StreamChoices(env, blocks);
    EveryRunEndsProperly(cfg, env, Streamed(events));
    EventsInStep(Outcome(cfg, env, Streamed(events)));
    FirstStopMeans(env, blocks, n);
    var run := RunToStop(cfg, env, blocks);
    if n < |blocks| {
      ActionMeans(env, blocks[n]);
      ActionDelivers(cfg, env, choices, run, ActionOf(env, blocks[n]));
    } else if BreakMessage(events).Some? {
      ActionDelivers(cfg, env, choices, run, UpstreamFailure(env, BreakMessage(events).value));
    } else {
      EndDelivers(cfg, env, choices, run);
    }
  }

  lemma ActionDelivers(cfg: Config, env: Env, choices: seq<Choice>, run: Run, action: Action)
    requires run.asm == AfterChoices(cfg, choices) && !GoesOn(action)
    ensures IsDelivered(cfg, choices, Act(cfg, env, run, action).0.asm)
  {
    hide FinalizeOrFail, Fail, AfterChoices, IsDelivered, Since;
    CompleteDelivers(cfg, env, choices);
    if action.FailAs? {
      FailureDelivers(cfg, choices, action.kind, action.message);
    }
  }

  lemma EndDelivers(cfg: Config, env: Env, choices: seq<Choice>, run: Run)
    requires run.asm == AfterChoices(cfg, choices)
    ensures IsDelivered(cfg, choices, EndOfStream(cfg, env, run).asm)
  {
    hide FinalizeOrFail, Fail, AfterChoices, Since, Assembly.HasSubstantiveOutput, RunChoices, AllDeltas, IsLate,
         ClientOf, AllClosed, GivesOutput;
    ViewChoices(cfg, choices);
    var a := run.asm;
    if a.finishReason.None? && Assembly.HasSubstantiveOutput(a) {
      CutChoice(cfg, choices);
      var marked := run.(asm := MarkTruncated(a));
      ActionDelivers(cfg, env, choices + [CUT], marked, Complete);
    } else {
      ActionDelivers(cfg, env, choices, run, EndAction(a).1);
    }
  }
}
