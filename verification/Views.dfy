/** The assembler's texts are those of the think splitter alone, whatever else the stream carries. */
module Views {
  import opened Wrappers
  import opened Think
  import opened ThinkSplit
  import opened Assembly
  import opened Steps

  function RunChoices(r: SplitRun, choices: seq<Choice>): SplitRun {
    if choices == [] then r
    else ChoiceStep(RunChoices(r, choices[..|choices| - 1]), choices[|choices| - 1])
  }

  function LastFinish(choices: seq<Choice>): Option<string> {
    if choices == [] then None
    else if choices[|choices| - 1].finishReason.Some? then choices[|choices| - 1].finishReason
    else LastFinish(choices[..|choices| - 1])
  }

  lemma {:induction false} ViewChoices(cfg: Config, choices: seq<Choice>)
    ensures ViewOf(AfterChoices(cfg, choices)) == RunChoices(INITIAL_RUN, choices)
    ensures AfterChoices(cfg, choices).finishReason == LastFinish(choices)
    decreases |choices|
  {
    hide AcceptChoice, ChoiceStep;
    if choices != [] {
      var n := |choices| - 1;
      ViewChoices(cfg, choices[..n]);
      ChoiceSteps(cfg, AfterChoices(cfg, choices[..n]), choices[n]);
    }
  }

  // ---------- content-only streams ----------

  function Contents(choices: seq<Choice>): seq<string> {
    if choices == [] then [] else Contents(choices[..|choices| - 1]) + [choices[|choices| - 1].content]
  }

  ghost predicate ContentOnly(choices: seq<Choice>) {
    forall c :: c in choices ==> c.reasoning == "" && c.toolCalls == None
  }

  lemma {:induction false} ContentOnlyRun(choices: seq<Choice>)
    requires ContentOnly(choices)
    ensures RunChoices(INITIAL_RUN, choices) == RunFrom(INITIAL_RUN, Contents(choices))
    decreases |choices|
  {
    hide RunStep;
    if choices != [] {
      var n := |choices| - 1;
      assert choices[n] in choices;
      ContentOnlyRun(choices[..n]);
      RunFromSnoc(INITIAL_RUN, Contents(choices[..n]), choices[n].content);
    }
  }

  /** For a content-only stream the texts of the final response are those of the splitter: without a leading open tag
      the answer is the text received, with one nothing but whitespace is lost. */
  lemma AssemblerSplitsThinkBlock(cfg: Config, choices: seq<Choice>)
    requires ContentOnly(choices)
    ensures var text, a := Flatten(Contents(choices)), FinishHead(cfg, AfterChoices(cfg, choices));
            if !HasLeadingOpenTag(text) then a.content == text && a.reasoning == ""
            else (Opened(text, a.reasoning) && a.content == "") || Closed(text, a.reasoning, a.content)
  {
    hide RunFlush, RunFrom, FinishHead, AfterChoices;
    ViewChoices(cfg, choices);
    ContentOnlyRun(choices);
    HeadSteps(cfg, AfterChoices(cfg, choices));
    ThinkSplittingLosesOnlyWhitespace(Contents(choices));
  }
}
