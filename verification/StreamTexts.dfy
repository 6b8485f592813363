/** The texts that a stream ends with, said without the state of the think splitter, and when they are those of the
    whole reply. */
module StreamTexts {
  import opened Wrappers
  import opened Think
  import opened ThinkSplit
  import opened ThinkKept
  import opened Assembly
  import opened Views
  import opened Steps
  import opened NonStream

  function ReasoningText(choices: seq<Choice>): string {
    if choices == [] then "" else ReasoningText(choices[..|choices| - 1]) + choices[|choices| - 1].reasoning
  }

  function ContentText(choices: seq<Choice>): string {
    if choices == [] then "" else ContentText(choices[..|choices| - 1]) + choices[|choices| - 1].content
  }

  // ---------- the part of the content that is searched for a think block ----------

  /** Explicit reasoning ends the detection, and so do tool calls once there is content. */
  predicate DetectionEnded(choices: seq<Choice>) {
    choices != []
    && var before, last := choices[..|choices| - 1], choices[|choices| - 1];
       || DetectionEnded(before)
       || last.reasoning != ""
       || (last.toolCalls.Some? && ContentText(choices) != "")
  }

  /** The chunks of content that arrive while a think block is looked for. */
  function Detected(choices: seq<Choice>): seq<string> {
    if choices == [] then []
    else
      var before, last := choices[..|choices| - 1], choices[|choices| - 1];
      Detected(before) + if DetectionEnded(before) || last.reasoning != "" then [] else [last.content]
  }

  lemma {:induction false} DetectedMeans(choices: seq<Choice>)
    ensures Flatten(Detected(choices)) <= ContentText(choices)
    ensures !DetectionEnded(choices) ==>
        Flatten(Detected(choices)) == ContentText(choices) && ReasoningText(choices) == ""
    decreases |choices|
  {
    if choices != [] {
      var n := |choices| - 1;
      DetectedMeans(choices[..n]);
      FlattenSnoc(Detected(choices[..n]), choices[n].content);
      assert Detected(choices[..n]) + [] == Detected(choices[..n]);
    }
  }

  /** What arrives after the detection, which is answer text as it is. */
  function Undetected(choices: seq<Choice>): (tail: string)
    ensures Flatten(Detected(choices)) + tail == ContentText(choices)
  {
    DetectedMeans(choices);
    ContentText(choices)[|Flatten(Detected(choices))|..]
  }

  /** The reasoning and the answer that the stream ends with. */
  function SplitStream(choices: seq<Choice>): (string, string) {
    var (thought, answer) := SplitChunks(Detected(choices));
    (thought + ReasoningText(choices), answer + Undetected(choices))
  }

  // ---------- the splitter ends with these texts ----------

  lemma {:induction false} NothingRun(r: SplitRun, chunks: seq<string>)
    requires Flatten(chunks) == ""
    ensures RunFrom(r, chunks) == r
    decreases |chunks|
  {
    if chunks != [] {
      NothingRun(r, chunks[1..]);
    }
  }

  /** Flushing the splitter after these chunks. */
  lemma {:induction false} FlushedChunks(chunks: seq<string>)
    ensures var r, s := RunFlush(RunFrom(INITIAL_RUN, chunks)), SplitChunks(chunks);
            && (r.reasoning, r.content) == s
            && if Flatten(chunks) == "" then r == RunFrom(INITIAL_RUN, chunks) == INITIAL_RUN else Settled(r, s.0, s.1)
  {
    hide RunFrom, RunFlush, SplitChunks, Flatten;
    ChunkedSplit(chunks);
    if Flatten(chunks) == "" {
      NothingRun(INITIAL_RUN, chunks);
    }
  }

  /** Explicit reasoning flushes the splitter and ends the detection. */
  lemma ReasonFlushes(r: SplitRun, reasoning: string)
    requires reasoning != "" && RunFlush(r).splitter.buffer == ""
    ensures Settled(ReasonStep(r, reasoning), RunFlush(r).reasoning + reasoning, RunFlush(r).content)
  {
  }

  lemma SettledChoice(r: SplitRun, reasoning: string, content: string, choice: Choice)
    requires Settled(r, reasoning, content)
    ensures Settled(ChoiceStep(r, choice), reasoning + choice.reasoning, content + choice.content)
  {
    assert reasoning + "" == reasoning && content + "" == content;
    var s := ReasonStep(r, choice.reasoning);
    OnePush(s, PushText(choice.content));
  }

  lemma ReasonedChoice(r: SplitRun, choice: Choice)
    requires choice.reasoning != "" && RunFlush(r).splitter.buffer == ""
    ensures Settled(ChoiceStep(r, choice), RunFlush(r).reasoning + choice.reasoning,
                    RunFlush(r).content + choice.content)
  {
    ReasonFlushes(r, choice.reasoning);
    var s := ReasonStep(r, choice.reasoning);
    hide ReasonStep;
    SettledChoice(s, s.reasoning, s.content, choice.(reasoning := ""));
    assert s.reasoning + "" == s.reasoning;
  }

  lemma UnreasonedChoice(r: SplitRun, choice: Choice)
    requires choice.reasoning == ""
    ensures ChoiceStep(r, choice)
         == if choice.toolCalls.Some? then RunFlush(RunStep(r, choice.content)) else RunStep(r, choice.content)
  {
    hide RunStep, RunFlush;
  }

  /** While nothing ended the detection the splitter has read the content, in its chunks; then it is settled. */
  ghost predicate IsSplit(choices: seq<Choice>, r: SplitRun) {
    if DetectionEnded(choices) then Settled(r, SplitStream(choices).0, SplitStream(choices).1)
    else r == RunFrom(INITIAL_RUN, Detected(choices))
  }

  lemma {:induction false} ChoicesAreSplit(choices: seq<Choice>)
    ensures IsSplit(choices, RunChoices(INITIAL_RUN, choices))
    decreases |choices|
  {
    hide ChoiceStep, SplitChunks, RunFlush, RunFrom, RunStep, Flatten;
    if choices == [] {
      FlattenNothing();
      NothingRun(INITIAL_RUN, []);
    } else {
      var n := |choices| - 1;
      var before, last, r := choices[..n], choices[n], RunChoices(INITIAL_RUN, choices[..n]);
      var held := Detected(before);
      var (thought, answer) := SplitChunks(held);
      ChoicesAreSplit(before);
      DetectedMeans(before);
      if DetectionEnded(before) {
        assert Settled(ChoiceStep(r, last), SplitStream(choices).0, SplitStream(choices).1) by {
          hide Settled;
          assert Detected(choices) == held;
          SettledChoice(r, thought + ReasoningText(before), answer + Undetected(before), last);
          DropOfConcat(ContentText(before), last.content, |Flatten(held)|);
          ConcatAssoc(thought, ReasoningText(before), last.reasoning);
          ConcatAssoc(answer, Undetected(before), last.content);
        }
      } else if last.reasoning != "" {
        assert Settled(ChoiceStep(r, last), SplitStream(choices).0, SplitStream(choices).1) by {
          assert Detected(choices) == held;
          FlushedChunks(held);
          ReasonedChoice(r, last);
          assert "" + last.reasoning == last.reasoning;
          DropOfConcat(ContentText(before), last.content, |ContentText(before)|);
          assert ContentText(before)[|ContentText(before)|..] + last.content == last.content;
        }
      } else {
        assert IsSplit(choices, ChoiceStep(r, last)) by {
          var chunks := Detected(choices);
          var split := SplitChunks(chunks);
          UnreasonedChoice(r, last);
          RunFromSnoc(INITIAL_RUN, held, last.content);
          FlushedChunks(chunks);
          FlattenSnoc(held, last.content);
          assert Flatten(chunks) == ContentText(choices) && ReasoningText(choices) == "";
          assert split.0 + "" == split.0 && split.1 + "" == split.1;
        }
      }
    }
  }

  /** The stream ends with exactly these texts, whatever it carries besides. */
  lemma StreamIsSplit(choices: seq<Choice>)
    ensures var r := RunFlush(RunChoices(INITIAL_RUN, choices));
            (r.reasoning, r.content) == SplitStream(choices)
  {
    hide RunChoices, RunFlush, RunFrom, SplitChunks;
    ChoicesAreSplit(choices);
    var chunks := Detected(choices);
    if DetectionEnded(choices) {
      FlushEffect(RunChoices(INITIAL_RUN, choices));
    } else {
      FlushedChunks(chunks);
      DetectedMeans(choices);
      assert SplitChunks(chunks).0 + "" == SplitChunks(chunks).0 && SplitChunks(chunks).1 + "" == SplitChunks(chunks).1;
    }
  }

  // ---------- the same texts as the whole reply ----------

  /** With explicit reasoning the whole reply is not searched for a think block, so the stream must find none;
      without, the stream must find the block of the whole content. */
  predicate TextsKept(choices: seq<Choice>) {
    if ReasoningText(choices) != "" then !HasLeadingOpenTag(Flatten(Detected(choices)))
    else BlockIsKept(Detected(choices), Undetected(choices))
  }

  /** The stream ends with the reasoning and the answer of the whole reply exactly then. */
  lemma TextsAgree(reply: Reply, choices: seq<Choice>)
    requires ReasoningText(choices) == reply.reasoning && ContentText(choices) == reply.content
    ensures SplitStream(choices) == Texts(reply) <==> TextsKept(choices)
  {
    hide HasLeadingOpenTag, SplitLeadingThinkBlock, BlockIsKept, SplitBody, FromOpenTag, Detected, Undetected,
         ReasoningText, ContentText, Flatten;
    var chunks, tail := Detected(choices), Undetected(choices);
    var (thought, answer) := SplitChunks(chunks);
    if reply.reasoning == "" {
      SplitAgrees(chunks, tail);
      assert thought + "" == thought;
    } else {
      var text := Flatten(chunks);
      assert "" + text == text && "" + reply.reasoning == reply.reasoning;
      OpenTagMeans("", chunks);
      if HasLeadingOpenTag(text) {
        ChunkedAnswerIsShorter(chunks);
        assert |answer + tail| < |text + tail|;
      }
    }
  }
}
