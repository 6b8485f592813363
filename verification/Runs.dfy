/** What every step of the assembler keeps until the terminal event: events are numbered 1, 2, 3, ..., none is
    terminal and nothing is stored. */
module Runs {
  import opened Wrappers
  import opened Items
  import opened Assembly
  import opened Steps

  /** Sequence numbers are positions, counted from 1. */
  ghost predicate Numbered(log: seq<Event>) {
    forall i :: 0 <= i < |log| ==> log[i].sequence == i + 1
  }

  ghost predicate NoTerminal(log: seq<Event>) {
    forall i :: 0 <= i < |log| ==> !IsTerminal(log[i].payload)
  }

  ghost predicate Unfinished(a: Asm) {
    && !a.terminalEmitted && a.stored == []
    && |a.log| == a.sequence && Numbered(a.log) && NoTerminal(a.log)
  }

  /** What only adds events keeps a run unfinished. */
  lemma AddsUnfinished(a: Asm, b: Asm, quiet: bool)
    requires Unfinished(a) && Adds(a, b, quiet)
    ensures Unfinished(b)
  {
    forall i | 0 <= i < |b.log| ensures b.log[i].sequence == i + 1 && !IsTerminal(b.log[i].payload) {
      assert i < |a.log| ==> b.log[i] == a.log[i];
    }
  }

  lemma StartUnfinished()
    ensures Unfinished(Start(INITIAL))
  {
  }

  lemma StreamUnfinished(cfg: Config, choices: seq<Choice>)
    ensures Unfinished(AfterChoices(cfg, choices))
  {
    hide Unfinished, Adds, AcceptAll, Start;
    StartUnfinished();
    ChoicesSteps(cfg, Start(INITIAL), choices);
    AddsUnfinished(Start(INITIAL), AfterChoices(cfg, choices), false);
  }

  // ---------- the end ----------

  /** The last event announces the output of the stored record, under the status of this finish reason. */
  ghost predicate AnnouncesResponse(b: Asm, finishReason: Option<string>)
    requires |b.stored| == 1 && b.log != []
  {
    var last := b.log[|b.log| - 1].payload;
    last.Finished? && last.output == b.stored[0].output && TellsReason(last.incomplete, finishReason)
  }

  /** Exactly one terminal event, and it is the last. */
  ghost predicate Ended(log: seq<Event>) {
    log != [] && Numbered(log) && IsTerminal(log[|log| - 1].payload) && NoTerminal(log[..|log| - 1])
  }

  /** What a successful `finalize` leaves behind: the record, stored before the terminal event with its output. */
  ghost predicate EndedWith(cfg: Config, a: Asm, b: Asm) {
    var record := Record(cfg, FinishHead(cfg, a));
    && Ended(b.log) && b.terminalEmitted && b.stored == [record]
    && b.log[|b.log| - 1].payload == Finished(CompletionStatus(a.finishReason), record.output)
    && TellsReason(b.log[|b.log| - 1].payload.incomplete, a.finishReason)
  }

  /** With a working store a run ends with its response stored; with a failing one it is still open, so that it can be
      failed, and nothing is stored. */
  lemma FinalizeEnds(cfg: Config, a: Asm, works: bool)
    requires Unfinished(a)
    ensures var (b, ok) := Finalize(cfg, a, works);
            ok == works && if works then EndedWith(cfg, a, b) else Unfinished(b)
  {
    hide FinishHead, FinishCalls, SortedKeys, Output, AssistantMessage, FinalIds, OutputKeys, Adds, CompletionStatus,
         TellsReason;
    StatusTellsReason(a.finishReason);
    var head, c := FinishHead(cfg, a), BeforeRecord(cfg, a);
    HeadSteps(cfg, a);
    BeforeRecordSteps(cfg, a);
    AddsUnfinished(a, c, true);
    if works {
      var b := Finalize(cfg, a, works).0;
      assert b.log[..|b.log| - 1] == c.log;
      assert [] + [Record(cfg, head)] == [Record(cfg, head)];
    }
  }

  /** A failure ends the run; its message is cut after 1000 characters. */
  lemma FailEnds(a: Asm, kind: string, message: string)
    requires Unfinished(a)
    ensures var b := Fail(a, kind, message);
            && Ended(b.log) && b.terminalEmitted && b.stored == []
            && var last := b.log[|b.log| - 1].payload;
               && last.Failed? && last.kind == kind
               && last.message <= message && |last.message| == if |message| <= 1000 then |message| else 1000
  {
    var b := Fail(a, kind, message);
    assert b.log[..|b.log| - 1] == a.log;
  }
}
