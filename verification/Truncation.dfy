/** What becomes of a body stream that ends without an end mark and without a finish reason. */
module Truncation {
  import opened Wrappers
  import opened Text
  import opened Think
  import opened Items
  import opened Assembly
  import opened Views
  import opened Steps
  import opened Fragments
  import opened Runs
  import opened Driver

  /** A text that is more than whitespace. */
  predicate IsVisible(s: string) {
    NoWs(s) != ""
  }

  lemma VisibleMeans(s: string)
    ensures IsVisible(s) <==> Trim(s) != ""
  {
    hide Trim, NoWs;
    NoWsTrim(s);
    TrimEnds(s);
    if Trim(s) != "" {
      NoWsKeeps(Trim(s));
    } else {
      NothingVisible();
    }
  }

  lemma TrimEnds(s: string)
    ensures Trim(s) != "" ==> !IsWhitespace(Trim(s)[|Trim(s)| - 1])
  {
  }

  lemma NothingVisible()
    ensures NoWs("") == ""
  {
  }

  lemma NoWsKeeps(s: string)
    requires s != "" && !IsWhitespace(s[|s| - 1])
    ensures NoWs(s) != ""
  {
    var n := |s| - 1;
    assert s == s[..n] + [s[n]];
    NoWsAppend(s[..n], [s[n]]);
  }

  lemma VisibleConcat(a: string, b: string)
    ensures IsVisible(a + b) <==> IsVisible(a) || IsVisible(b)
  {
    NoWsAppend(a, b);
  }

  /** The fragments of an index amount to a call, or to more than whitespace. */
  ghost predicate CallSeen(own: seq<CallDelta>) {
    || ((exists d :: d in own && d.id != "") && (exists d :: d in own && d.name != ""))
    || IsVisible(ArgumentTexts(own)) || IsVisible(FoldCore(own).name)
  }

  /** Something arrived that a reader could see: in the final texts, or at some index of the calls. */
  ghost predicate SomethingSeen(cfg: Config, choices: seq<Choice>) {
    var head := FinishHead(cfg, AfterChoices(cfg, choices));
    IsVisible(head.content) || IsVisible(head.reasoning) || exists k: nat :: CallSeen(Own(AllDeltas(choices), k))
  }

  /** Flushing moves the held-back text to one of the texts. */
  lemma FlushShows(r: SplitRun)
    requires r.splitter.state == Done ==> r.splitter.buffer == ""
    ensures var f := RunFlush(r);
            IsVisible(f.content) || IsVisible(f.reasoning)
            <==> IsVisible(r.content) || IsVisible(r.reasoning) || IsVisible(r.splitter.buffer)
  {
    hide IsVisible;
    var buffer := r.splitter.buffer;
    VisibleConcat(r.content, buffer);
    VisibleConcat(r.reasoning, buffer);
    NothingIsInvisible();
    match r.splitter.state
    case Done =>
    case Detecting =>
      OnePush(r.(splitter := Splitter(Done, "")), PushText(buffer));
    case InThink =>
      OnePush(r.(splitter := Splitter(Done, "")), PushReasoning(buffer));
  }

  lemma NothingIsInvisible()
    ensures !IsVisible("")
  {
  }

  // ---------- once detection is over nothing is held back ----------

  ghost predicate NothingHeld(r: SplitRun) {
    r.splitter.state == Done ==> r.splitter.buffer == ""
  }

  lemma {:induction false} PushesKeepSplitter(r: SplitRun, pushes: seq<Push>)
    ensures ApplyPushes(r, pushes).splitter == r.splitter
    decreases |pushes|
  {
    if pushes != [] {
      var next := match pushes[0]
        case PushReasoning(t) => r.(reasoning := r.reasoning + t)
        case PushText(t) => r.(content := r.content + t);
      PushesKeepSplitter(next, pushes[1..]);
    }
  }

  lemma StepsHoldNothing(r: SplitRun, text: string)
    requires NothingHeld(r)
    ensures NothingHeld(RunStep(r, text)) && NothingHeld(RunFlush(r))
  {
    hide ApplyPushes, SplitLeadingThinkBlock, StripLeadingThinkOpenTag, IsLeadingThinkPrefix, SplitAtThinkClose;
    hide SplitIncompleteThinkCloseSuffix;
    var (s, pushes) := ContentStep(r.splitter, text);
    PushesKeepSplitter(r.(splitter := s), pushes);
    var (f, flushed) := FlushStep(r.splitter);
    PushesKeepSplitter(r.(splitter := f), flushed);
  }

  lemma ReasonHoldsNothing(r: SplitRun, reasoning: string)
    requires NothingHeld(r)
    ensures NothingHeld(ReasonStep(r, reasoning))
  {
    hide ApplyPushes;
    var (f, flushed) := FlushStep(r.splitter);
    PushesKeepSplitter(r.(splitter := f), flushed);
  }

  lemma {:induction false} RunHoldsNothing(choices: seq<Choice>)
    ensures NothingHeld(RunChoices(INITIAL_RUN, choices))
    decreases |choices|
  {
    hide ReasonStep, RunStep, RunFlush, NothingHeld;
    if choices == [] {
      InitiallyNothing();
    } else {
      var n := |choices| - 1;
      var r, last := RunChoices(INITIAL_RUN, choices[..n]), choices[n];
      RunHoldsNothing(choices[..n]);
      ReasonHoldsNothing(r, last.reasoning);
      var s := ReasonStep(r, last.reasoning);
      StepsHoldNothing(s, last.content);
      StepsHoldNothing(RunStep(s, last.content), "");
    }
  }

  lemma InitiallyNothing()
    ensures NothingHeld(INITIAL_RUN)
  {
  }

  // ---------- the test of the driver ----------

  lemma CallShows(a: Asm, deltas: seq<CallDelta>, k: nat)
    requires FoldedAt(a, deltas, k)
    ensures CallSeen(Own(deltas, k)) <==>
            k in a.calls && (|| a.calls[k].core.added || Trim(a.calls[k].core.arguments) != ""
                             || Trim(a.calls[k].core.name) != "")
  {
    hide Trim, IsVisible, Own, FoldCore, ArgumentTexts;
    var own := Own(deltas, k);
    StartedMeans(own);
    VisibleMeans(ArgumentTexts(own));
    VisibleMeans(FoldCore(own).name);
    if own == [] {
      NothingFolded();
      NothingIsInvisible();
    }
  }

  lemma NothingFolded()
    ensures FoldCore([]) == NEW_CORE && ArgumentTexts([]) == ""
  {
  }

  /** `has_substantive_output` is true exactly when something was seen. */
  lemma SubstantiveMeansSeen(cfg: Config, choices: seq<Choice>)
    ensures Assembly.HasSubstantiveOutput(AfterChoices(cfg, choices)) <==> SomethingSeen(cfg, choices)
  {
    hide AfterChoices, FinishHead, RunFlush, RunChoices, IsVisible, Trim, Own, AllDeltas, CallSeen;
    var a := AfterChoices(cfg, choices);
    ViewChoices(cfg, choices);
    HeadSteps(cfg, a);
    RunHoldsNothing(choices);
    FlushShows(ViewOf(a));
    VisibleMeans(a.content);
    VisibleMeans(a.reasoning);
    VisibleMeans(a.splitter.buffer);
    CallsAreTheirFragments(cfg, choices);
    forall k: nat
      ensures CallSeen(Own(AllDeltas(choices), k)) <==>
              k in a.calls && (|| a.calls[k].core.added || Trim(a.calls[k].core.arguments) != ""
                               || Trim(a.calls[k].core.name) != "")
    {
      assert FoldedAt(a, AllDeltas(choices), k);
      CallShows(a, AllDeltas(choices), k);
    }
  }

  lemma MarkedRecord(cfg: Config, a: Asm)
    ensures Record(cfg, FinishHead(cfg, MarkTruncated(a))) == Record(cfg, FinishHead(cfg, a))
  {
    hide FinalItems, FinalIds, FinalCalls, NamedKeys, SortedKeys, HasToolOutput, RunFlush, FinishHead;
    HeadSteps(cfg, a);
    HeadSteps(cfg, MarkTruncated(a));
  }

  lemma MarkedFinalize(cfg: Config, env: Env, a: Asm)
    requires Unfinished(a) && a.finishReason == None && env.storeError == None
    ensures var b, record := FinalizeOrFail(cfg, env, MarkTruncated(a)), Record(cfg, FinishHead(cfg, MarkTruncated(a)));
            && b.log != [] && b.stored == [record]
            && b.log[|b.log| - 1].payload == Finished(Some(MaxOutputTokens), record.output)
  {
    hide Finalize, Fail, Record, FinishHead, Numbered, NoTerminal;
    FinalizeEnds(cfg, MarkTruncated(a), true);
  }

  lemma MarkedUnfinished(a: Asm)
    requires Unfinished(a)
    ensures Unfinished(MarkTruncated(a))
  {
  }

  lemma TruncatedOutcome(cfg: Config, env: Env, events: seq<NetworkEvent>) returns (run: Run)
    requires FirstStop(env, Blocks(Received(events))) == |Blocks(Received(events))| && BreakMessage(events) == None
    ensures run.asm == AfterChoices(cfg, StreamChoices(env, Blocks(Received(events))))
    ensures Outcome(cfg, env, Streamed(events)) == EndOfStream(cfg, env, run)
  {
    hide BlocksRun, Begun, Blocks, StreamChoices, FirstStop, EndOfStream, AfterChoices;
    run := RunToStop(cfg, env, Blocks(Received(events)));
  }

  ghost predicate IsTruncation(p: Payload) {
    p == Failed("stream_truncated", "Upstream stream ended before sending finish_reason")
  }

  lemma EndWithoutReason(cfg: Config, env: Env, run: Run, choices: seq<Choice>)
    requires run.asm == AfterChoices(cfg, choices) && env.storeError == None && LastFinish(choices) == None
    ensures var a := AfterChoices(cfg, choices);
            var b, record := EndOfStream(cfg, env, run).asm, Record(cfg, FinishHead(cfg, a));
            && b.log != []
            && if SomethingSeen(cfg, choices) then
                 b.stored == [record] && b.log[|b.log| - 1].payload == Finished(Some(MaxOutputTokens), record.output)
               else b.stored == [] && IsTruncation(b.log[|b.log| - 1].payload)
  {
    hide AfterChoices, Unfinished, SomethingSeen, FinalizeOrFail, Fail, Record, FinishHead, Numbered, NoTerminal,
         Assembly.HasSubstantiveOutput;
    var a := AfterChoices(cfg, choices);
    StreamUnfinished(cfg, choices);
    ViewChoices(cfg, choices);
    SubstantiveMeansSeen(cfg, choices);
    MarkedUnfinished(a);
    MarkedRecord(cfg, a);
    MarkedFinalize(cfg, env, a);
    FailEnds(a, "stream_truncated", "Upstream stream ended before sending finish_reason");
  }

  /** A body stream of chunks that ends unbroken, without end mark and finish reason: with a working store it is an
      incomplete response, cut short by length, with all its output stored, if anything was seen, and otherwise a
      failure. */
  lemma TruncatedStreams(cfg: Config, env: Env, events: seq<NetworkEvent>)
    requires FirstStop(env, Blocks(Received(events))) == |Blocks(Received(events))|
    requires BreakMessage(events) == None && env.storeError == None
    requires LastFinish(StreamChoices(env, Blocks(Received(events)))) == None
    ensures var choices := StreamChoices(env, Blocks(Received(events)));
            var b, record := Outcome(cfg, env, Streamed(events)).asm,
                Record(cfg, FinishHead(cfg, AfterChoices(cfg, choices)));
            && b.log != []
            && if SomethingSeen(cfg, choices) then
                 b.stored == [record] && b.log[|b.log| - 1].payload == Finished(Some(MaxOutputTokens), record.output)
               else b.stored == [] && IsTruncation(b.log[|b.log| - 1].payload)
  {
    hide Outcome, Received, Blocks, StreamChoices, SomethingSeen, Record, FinishHead, FirstStop, EndOfStream,
         AfterChoices;
    var run := TruncatedOutcome(cfg, env, events);
    EndWithoutReason(cfg, env, run, StreamChoices(env, Blocks(Received(events))));
  }
}
