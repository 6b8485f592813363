/** Separation of a leading think block from the answer text, whole and incremental
    (src/conversion/text.rs and the think-state methods of the stream assembler). */
module Think {
  import opened Wrappers
  import opened Text

  const OPEN_TAG := "<think>"
  const CLOSE_TAG := "</think>"

  // ---------- text.rs ----------

  function StripAnswerSeparator(s: string): (r: string)
    ensures NoWs(r) == NoWs(s)
    ensures |r| <= |s| && r == s[|s| - |r|..]
  {
    if s != [] && (s[0] == '\r' || s[0] == '\n' || s[0] == '\t' || s[0] == ' ')
    then StripAnswerSeparator(s[1..]) else s
  }

  predicate HasLeadingOpenTag(text: string) {
    OPEN_TAG <= TrimStart(text)
  }

  /** What follows the leading open tag. */
  function AfterOpenTag(text: string): string
    requires HasLeadingOpenTag(text)
  {
    TrimStart(text)[|OPEN_TAG|..]
  }

  function SplitLeadingThinkBlock(text: string): Option<(string, string)> {
    if HasLeadingOpenTag(text) then SplitThinkBody(AfterOpenTag(text)) else None
  }

  /** Thought and answer of what follows the open tag. */
  function SplitThinkBody(body: string): Option<(string, string)> {
    match Find(body, CLOSE_TAG)
    case None => None
    case Some(i) => Some((Trim(body[..i]), StripAnswerSeparator(body[i + |CLOSE_TAG|..])))
  }

  function StripLeadingThinkOpenTag(text: string): Option<string> {
    if HasLeadingOpenTag(text) then Some(Trim(AfterOpenTag(text))) else None
  }

  predicate IsLeadingThinkPrefix(text: string) {
    TrimStart(text) == [] || TrimStart(text) <= OPEN_TAG
  }

  function SplitAtThinkClose(text: string): Option<(string, string)> {
    match Find(text, CLOSE_TAG)
    case None => None
    case Some(i) => Some((text[..i], StripAnswerSeparator(text[i + |CLOSE_TAG|..])))
  }

  /** `keep` ends `text` and is the beginning, but not the whole, of the close tag. */
  predicate IsPartialClose(text: string, len: nat) {
    len < |CLOSE_TAG| && EndsWith(text, CLOSE_TAG[..len])
  }

  function SplitIncompleteThinkCloseSuffix(text: string): (r: (string, string))
    ensures r.0 + r.1 == text && IsPartialClose(text, |r.1|)
    ensures forall len: nat :: IsPartialClose(text, len) ==> len <= |r.1|
  {
    SplitIncompleteFrom(text, |CLOSE_TAG| - 1)
  }

  function SplitIncompleteFrom(text: string, len: nat): (r: (string, string))
    requires len < |CLOSE_TAG|
    ensures r.0 + r.1 == text && IsPartialClose(text, |r.1|)
    ensures forall n: nat :: n <= len && IsPartialClose(text, n) ==> n <= |r.1|
  {
    if len == 0 then (text, "")
    else if EndsWith(text, CLOSE_TAG[..len]) then (text[..|text| - len], text[|text| - len..])
    else SplitIncompleteFrom(text, len - 1)
  }

  // ---------- the incremental splitter ----------

  datatype ThinkState = Detecting | InThink | Done

  datatype Splitter = Splitter(state: ThinkState, buffer: string)

  /** What one step hands to the assembler. */
  datatype Push = PushReasoning(text: string) | PushText(text: string)

  function NonEmptyReasoning(text: string): seq<Push> {
    if text == "" then [] else [PushReasoning(text)]
  }

  function NonEmptyText(text: string): seq<Push> {
    if text == "" then [] else [PushText(text)]
  }

  function InThinkStep(buffer: string, text: string): (Splitter, seq<Push>) {
    var all := buffer + text;
    match SplitAtThinkClose(all)
    case Some((reasoning, answer)) => (Splitter(Done, ""), NonEmptyReasoning(reasoning) + NonEmptyText(answer))
    case None =>
      var (emit, keep) := SplitIncompleteThinkCloseSuffix(all);
      (Splitter(InThink, keep), NonEmptyReasoning(emit))
  }

  /** The search ends the block or goes on. */
  lemma SearchState(buffer: string, text: string)
    ensures InThinkStep(buffer, text).0.state == Done || InThinkStep(buffer, text).0.state == InThink
  {
  }

  function DetectStep(all: string): (Splitter, seq<Push>) {
    match SplitLeadingThinkBlock(all)
    case Some((reasoning, answer)) => (Splitter(Done, ""), NonEmptyReasoning(reasoning) + NonEmptyText(answer))
    case None =>
      match StripLeadingThinkOpenTag(all)
      case Some(start) => if start == "" then (Splitter(InThink, ""), []) else InThinkStep("", start)
      case None =>
        if IsLeadingThinkPrefix(all) then (Splitter(Detecting, all), [])
        else (Splitter(Done, ""), [PushText(all)])
  }

  function ContentStep(s: Splitter, text: string): (Splitter, seq<Push>) {
    match s.state
    case Done => (s, [PushText(text)])
    case Detecting => DetectStep(s.buffer + text)
    case InThink => InThinkStep(s.buffer, text)
  }

  function FlushStep(s: Splitter): (Splitter, seq<Push>) {
    match s.state
    case Done => (s, [])
    case Detecting => if s.buffer == "" then (s, []) else (Splitter(Done, ""), [PushText(s.buffer)])
    case InThink => (Splitter(Done, ""), NonEmptyReasoning(s.buffer))
  }

  // ---------- whole content-only streams ----------

  datatype SplitRun = SplitRun(splitter: Splitter, reasoning: string, content: string)

  const INITIAL_RUN := SplitRun(Splitter(Detecting, ""), "", "")

  function ApplyPushes(r: SplitRun, pushes: seq<Push>): SplitRun
    decreases |pushes|
  {
    if pushes == [] then r
    else
      var next := match pushes[0]
        case PushReasoning(t) => r.(reasoning := r.reasoning + t)
        case PushText(t) => r.(content := r.content + t);
      ApplyPushes(next, pushes[1..])
  }

  lemma OnePush(r: SplitRun, push: Push)
    ensures ApplyPushes(r, [push])
         == (match push
             case PushReasoning(text) => r.(reasoning := r.reasoning + text)
             case PushText(text) => r.(content := r.content + text))
  {
    assert [push][1..] == [];
  }

  function RunStep(r: SplitRun, text: string): SplitRun {
    if text == "" then r
    else
      var (s, pushes) := ContentStep(r.splitter, text);
      ApplyPushes(r.(splitter := s), pushes)
  }

  function RunFlush(r: SplitRun): SplitRun {
    var (s, pushes) := FlushStep(r.splitter);
    ApplyPushes(r.(splitter := s), pushes)
  }

  /** The state after feeding `chunks` to a splitter in state `r`. */
  function RunFrom(r: SplitRun, chunks: seq<string>): SplitRun
    decreases |chunks|
  {
    if chunks == [] then r else RunFrom(RunStep(r, chunks[0]), chunks[1..])
  }

  lemma {:induction false} RunFromSnoc(r: SplitRun, chunks: seq<string>, last: string)
    ensures RunFrom(r, chunks + [last]) == RunStep(RunFrom(r, chunks), last)
    decreases |chunks|
  {
    hide RunStep;
    var all := chunks + [last];
    if chunks == [] {
      assert all[0] == last && all[1..] == [];
    } else {
      assert all[0] == chunks[0] && all[1..] == chunks[1..] + [last];
      RunFromSnoc(RunStep(r, chunks[0]), chunks[1..], last);
    }
  }

  lemma FlattenSnoc(chunks: seq<string>, last: string)
    ensures Flatten(chunks + [last]) == Flatten(chunks) + last
  {
    FlattenAppend(chunks, [last]);
    assert Flatten([last]) == last;
  }

  lemma ApplyTwo(r: SplitRun, reasoning: string, answer: string)
    ensures ApplyPushes(r, NonEmptyReasoning(reasoning) + NonEmptyText(answer))
         == r.(reasoning := r.reasoning + reasoning, content := r.content + answer)
  {
    var pushes := NonEmptyReasoning(reasoning) + NonEmptyText(answer);
    if reasoning == "" {
      assert pushes == NonEmptyText(answer);
      assert r.reasoning + reasoning == r.reasoning;
    } else {
      assert pushes[1..] == NonEmptyText(answer);
    }
    assert answer == "" ==> r.content + answer == r.content;
    var mid := r.(reasoning := r.reasoning + reasoning);
    assert ApplyPushes(r, pushes) == ApplyPushes(mid, NonEmptyText(answer));
  }

  // ---------- finding the close tag ----------

  /** What is found stays the first occurrence when more text follows. */
  lemma FindExtends(text: string, more: string)
    requires Find(text, CLOSE_TAG).Some?
    ensures Find(text + more, CLOSE_TAG) == Find(text, CLOSE_TAG)
  {
    var i, j := Find(text, CLOSE_TAG).value, |CLOSE_TAG|;
    assert (text + more)[i..i + j] == text[i..i + j];
    assert OccursAt(text + more, CLOSE_TAG, i);
    var k := Find(text + more, CLOSE_TAG).value;
    assert (text + more)[k..k + j] == text[k..k + j];
    assert OccursAt(text, CLOSE_TAG, k);
  }

  /** An occurrence that no prefix holds ends after it. */
  lemma FindBeyond(front: string, more: string)
    requires Find(front, CLOSE_TAG) == None && Find(front + more, CLOSE_TAG).Some?
    ensures |front| < Find(front + more, CLOSE_TAG).value + |CLOSE_TAG| <= |front + more|
  {
    var i := Find(front + more, CLOSE_TAG).value;
    assert i + |CLOSE_TAG| <= |front| ==> OccursAt(front, CLOSE_TAG, i) by {
      if i + |CLOSE_TAG| <= |front| {
        SliceOfConcat(front, more, i, i + |CLOSE_TAG|);
      }
    }
  }

  lemma OccursAfter(front: string, tail: string, i: nat)
    ensures OccursAt(front + tail, CLOSE_TAG, |front| + i) <==> OccursAt(tail, CLOSE_TAG, i)
  {
    if i + |CLOSE_TAG| <= |tail| {
      assert (front + tail)[|front| + i..|front| + i + |CLOSE_TAG|] == tail[i..i + |CLOSE_TAG|];
    }
  }

  /** A front part in which no occurrence begins only shifts the search. */
  lemma FindShifts(front: string, tail: string)
    requires forall i: nat :: OccursAt(front + tail, CLOSE_TAG, i) ==> |front| <= i
    ensures Find(front + tail, CLOSE_TAG)
         == match Find(tail, CLOSE_TAG) case None => None case Some(j) => Some(|front| + j)
    ensures Find(tail, CLOSE_TAG).Some? ==> Find(tail, CLOSE_TAG).value + |CLOSE_TAG| <= |tail|
  {
    hide FindFrom;
    forall i: nat | OccursAt(front + tail, CLOSE_TAG, i) ensures OccursAt(tail, CLOSE_TAG, i - |front|) {
      OccursAfter(front, tail, i - |front|);
    }
    if Find(tail, CLOSE_TAG).Some? {
      OccursAfter(front, tail, Find(tail, CLOSE_TAG).value);
    }
  }

  // ---------- the incremental close-tag search ----------

  /** Nothing closed yet: `received` is what was emitted followed by the longest possible beginning of a close tag. */
  ghost predicate StillOpen(r: SplitRun, received: string) {
    && r.splitter.state == InThink && r.content == ""
    && received == r.reasoning + r.splitter.buffer
    && Find(received, CLOSE_TAG) == None
    && IsPartialClose(received, |r.splitter.buffer|)
    && forall len: nat :: IsPartialClose(received, len) ==> len <= |r.splitter.buffer|
  }

  /** The thought is over: what arrives is kept as it is. */
  predicate Settled(r: SplitRun, reasoning: string, content: string) {
    r == SplitRun(Splitter(Done, ""), reasoning, content)
  }

  /** The first part of a text can be forgotten up to a partial tag: no occurrence starts before it. */
  lemma NothingBeginsBefore(emitted: string, keep: string, more: string, i: nat)
    requires Find(emitted + keep, CLOSE_TAG) == None
    requires forall len: nat :: IsPartialClose(emitted + keep, len) ==> len <= |keep|
    requires OccursAt(emitted + (keep + more), CLOSE_TAG, i)
    ensures |emitted| <= i
  {
    var received, whole := emitted + keep, emitted + (keep + more);
    assert whole == received + more;
    if i + |CLOSE_TAG| <= |received| {
      SliceOfConcat(received, more, i, i + |CLOSE_TAG|);
      assert OccursAt(received, CLOSE_TAG, i);
    } else if i < |received| {
      var len := |received| - i;
      SliceOfConcat(received, more, i, |received|);
      assert received[i..] == whole[i..i + len];
      SubSlice(whole, i, i + |CLOSE_TAG|, len);
      assert IsPartialClose(received, len);
    }
  }

  /** A partial tag at the end of the whole text reaches back no further than the retained part. */
  lemma PartialSkipsEmitted(emitted: string, keep: string, more: string, len: nat)
    requires forall n: nat :: IsPartialClose(emitted + keep, n) ==> n <= |keep|
    ensures IsPartialClose(emitted + (keep + more), len) <==> IsPartialClose(keep + more, len)
  {
    var received, whole := emitted + keep, emitted + (keep + more);
    assert whole == received + more;
    if IsPartialClose(whole, len) && |more| <= len {
      var n := len - |more|;
      assert received[|received| - n..] == whole[|whole| - len..][..n] == CLOSE_TAG[..n];
      assert IsPartialClose(received, n);
    }
    if len <= |keep + more| {
      assert whole[|whole| - len..] == (keep + more)[|keep + more| - len..];
    }
  }

  /** What a chunk does to a splitter inside a think block. */
  lemma SearchEffect(r: SplitRun, text: string)
    requires r.splitter.state == InThink && r.content == "" && text != ""
    ensures var all := r.splitter.buffer + text;
            RunStep(r, text)
            == match SplitAtThinkClose(all)
               case Some((thought, answer)) => SplitRun(Splitter(Done, ""), r.reasoning + thought, answer)
               case None =>
                 var (emit, kept) := SplitIncompleteThinkCloseSuffix(all);
                 SplitRun(Splitter(InThink, kept), r.reasoning + emit, "")
  {
    hide SplitAtThinkClose, SplitIncompleteThinkCloseSuffix, ApplyPushes, NonEmptyReasoning, NonEmptyText;
    var all := r.splitter.buffer + text;
    match SplitAtThinkClose(all) {
      case Some((thought, answer)) =>
        ApplyTwo(r.(splitter := Splitter(Done, "")), thought, answer);
        assert "" + answer == answer;
      case None =>
        var (emit, kept) := SplitIncompleteThinkCloseSuffix(all);
        ApplyTwo(r.(splitter := Splitter(InThink, kept)), emit, "");
        NothingPushed(emit);
    }
  }

  /** The search need not look at what was emitted. */
  lemma SearchSkipsEmitted(r: SplitRun, received: string, text: string)
    requires StillOpen(r, received)
    ensures var all, split := received + text, SplitAtThinkClose(r.splitter.buffer + text);
            match Find(all, CLOSE_TAG)
            case None => split == None && all == r.reasoning + (r.splitter.buffer + text)
            case Some(i) =>
              && i + |CLOSE_TAG| <= |all| && split.Some?
              && r.reasoning + split.value.0 == all[..i]
              && split.value.1 == StripAnswerSeparator(all[i + |CLOSE_TAG|..])
  {
    hide Find, OccursAt, StripAnswerSeparator, SplitAtThinkClose, StillOpen;
    AllReceived(r, received, text);
    NothingBeginsInEmitted(r, received, text);
    SplitsBeyond(r.reasoning, r.splitter.buffer + text);
  }

  lemma AllReceived(r: SplitRun, received: string, text: string)
    requires StillOpen(r, received)
    ensures received + text == r.reasoning + (r.splitter.buffer + text)
  {
    hide Find, IsPartialClose;
    ConcatAssoc(r.reasoning, r.splitter.buffer, text);
  }

  lemma NothingBeginsInEmitted(r: SplitRun, received: string, text: string)
    requires StillOpen(r, received)
    ensures forall i: nat :: OccursAt(r.reasoning + (r.splitter.buffer + text), CLOSE_TAG, i) ==> |r.reasoning| <= i
  {
    hide Find, OccursAt, IsPartialClose;
    forall i: nat | OccursAt(r.reasoning + (r.splitter.buffer + text), CLOSE_TAG, i) ensures |r.reasoning| <= i {
      NothingBeginsBefore(r.reasoning, r.splitter.buffer, text, i);
    }
  }

  lemma SplitsBeyond(front: string, tail: string)
    requires forall i: nat :: OccursAt(front + tail, CLOSE_TAG, i) ==> |front| <= i
    ensures var all, split := front + tail, SplitAtThinkClose(tail);
            match Find(all, CLOSE_TAG)
            case None => split == None
            case Some(i) =>
              && i + |CLOSE_TAG| <= |all| && split.Some?
              && front + split.value.0 == all[..i]
              && split.value.1 == StripAnswerSeparator(all[i + |CLOSE_TAG|..])
  {
    hide Find, OccursAt, StripAnswerSeparator;
    FindShifts(front, tail);
    if Find(tail, CLOSE_TAG).Some? {
      var j := Find(tail, CLOSE_TAG).value;
      TakeOfTail(front, tail, j);
      DropOfTail(front, tail, j + |CLOSE_TAG|);
    }
  }

  /** Without a complete close tag the block stays open. */
  lemma SearchGoesOn(r: SplitRun, received: string, text: string)
    requires StillOpen(r, received) && text != "" && Find(received + text, CLOSE_TAG) == None
    ensures StillOpen(RunStep(r, text), received + text)
  {
    hide Find, IsPartialClose, SplitIncompleteThinkCloseSuffix, SplitAtThinkClose, RunStep;
    var emitted, keep := r.reasoning, r.splitter.buffer;
    var (emit, kept) := SplitIncompleteThinkCloseSuffix(keep + text);
    SearchSkipsEmitted(r, received, text);
    SearchEffect(r, text);
    ConcatAssoc(emitted, emit, kept);
    forall len: nat ensures IsPartialClose(received + text, len) <==> IsPartialClose(keep + text, len) {
      PartialSkipsEmitted(emitted, keep, text, len);
    }
  }

  lemma NothingPushed(text: string)
    ensures NonEmptyReasoning(text) + NonEmptyText("") == NonEmptyReasoning(text)
    ensures NonEmptyReasoning("") + NonEmptyText(text) == NonEmptyText(text)
  {
  }

  lemma RunStepAfterDone(r: SplitRun, text: string)
    requires r.splitter.state == Done
    ensures RunStep(r, text) == r.(content := r.content + text)
  {
    ApplyTwo(r, "", text);
    NothingPushed(text);
  }

  // ---------- the leading open tag ----------

  /** A leading open tag, once there, stays; and a text that can no longer grow one never does. */
  lemma LeadingTagIsStable(text: string, more: string)
    ensures HasLeadingOpenTag(text) ==>
              HasLeadingOpenTag(text + more) && AfterOpenTag(text + more) == AfterOpenTag(text) + more
    ensures !IsLeadingThinkPrefix(text) ==> !IsLeadingThinkPrefix(text + more)
    ensures !HasLeadingOpenTag(text) && !IsLeadingThinkPrefix(text) ==> !HasLeadingOpenTag(text + more)
  {
    hide TrimStart;
    TrimStartAppend(text, more);
    var t := TrimStart(text);
    if t != [] {
      TakeOfConcat(t, more, |t|);
      if |OPEN_TAG| <= |t| {
        TakeOfConcat(t, more, |OPEN_TAG|);
        DropOfConcat(t, more, |OPEN_TAG|);
      }
    }
  }

  lemma NoTagInNothing()
    ensures !HasLeadingOpenTag("") && IsLeadingThinkPrefix("")
  {
  }
}
