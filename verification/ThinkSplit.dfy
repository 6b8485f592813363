/** What the think splitter makes of a text cut into chunks, said without its state. */
module ThinkSplit {
  import opened Wrappers
  import opened Text
  import opened Think

  // ---------- the split, without the state ----------

  /** The chunks from the open tag on, if one comes; `held` came before them. */
  function FromOpenTag(held: string, chunks: seq<string>): (body: Option<seq<string>>)
    ensures body.Some? ==> body.value != []
    decreases |chunks|
  {
    if HasLeadingOpenTag(held) then Some([AfterOpenTag(held)] + chunks)
    else if chunks == [] then None
    else FromOpenTag(held + chunks[0], chunks[1..])
  }

  /** The answer that begins at `e`: the rest of the chunk that completes the close tag loses its leading separators,
      later chunks do not. */
  function AnswerFrom(chunks: seq<string>, e: nat): string
    decreases |chunks|
  {
    if chunks == [] then ""
    else if e <= |chunks[0]| then StripAnswerSeparator(chunks[0][e..]) + Flatten(chunks[1..])
    else AnswerFrom(chunks[1..], e - |chunks[0]|)
  }

  /** Thought and answer when all chunks are searched for the close tag. */
  function SearchSplit(chunks: seq<string>): (string, string) {
    var text := Flatten(chunks);
    match Find(text, CLOSE_TAG)
    case None => (text, "")
    case Some(i) => (text[..i], AnswerFrom(chunks, i + |CLOSE_TAG|))
  }

  /** Thought and answer of what follows the open tag. Its first chunk is trimmed as if the thought ended there. */
  function SplitBody(body: seq<string>): (string, string)
    requires body != []
  {
    match SplitThinkBody(body[0])
    case Some((thought, answer)) => (thought, answer + Flatten(body[1..]))
    case None => SearchSplit([Trim(body[0])] + body[1..])
  }

  /** The thought and the answer of a text that comes in these chunks. */
  function SplitChunks(chunks: seq<string>): (string, string) {
    match FromOpenTag("", chunks)
    case Some(body) => SplitBody(body)
    case None => ("", Flatten(chunks))
  }

  lemma {:induction false} OpenTagMeans(held: string, chunks: seq<string>)
    ensures var text, body := held + Flatten(chunks), FromOpenTag(held, chunks);
            && (body.Some? <==> HasLeadingOpenTag(text))
            && (body.Some? ==> Flatten(body.value) == AfterOpenTag(text))
    decreases |chunks|
  {
    hide HasLeadingOpenTag, AfterOpenTag;
    if HasLeadingOpenTag(held) {
      LeadingTagIsStable(held, Flatten(chunks));
      FlattenCons(AfterOpenTag(held), chunks);
    } else if chunks == [] {
      assert held + "" == held;
    } else {
      OpenTagMeans(held + chunks[0], chunks[1..]);
      ConcatAssoc(held, chunks[0], Flatten(chunks[1..]));
    }
  }

  lemma FlattenCons(first: string, rest: seq<string>)
    ensures Flatten([first] + rest) == first + Flatten(rest)
  {
    assert ([first] + rest)[1..] == rest;
  }

  // ---------- the search for the close tag ----------

  const IN_THINK := SplitRun(Splitter(InThink, ""), "", "")

  lemma {:induction false} SettledRun(r: SplitRun, chunks: seq<string>)
    requires r.splitter == Splitter(Done, "")
    ensures Settled(RunFrom(r, chunks), r.reasoning, r.content + Flatten(chunks))
    decreases |chunks|
  {
    hide RunStep;
    if chunks == [] {
      assert r.content + "" == r.content;
    } else {
      RunStepAfterDone(r, chunks[0]);
      SettledRun(RunStep(r, chunks[0]), chunks[1..]);
      ConcatAssoc(r.content, chunks[0], Flatten(chunks[1..]));
    }
  }

  /** The search goes on with `chunks` after `received`. */
  lemma {:induction false} SearchRun(r: SplitRun, received: string, chunks: seq<string>)
    requires StillOpen(r, received)
    ensures var text, end := received + Flatten(chunks), RunFrom(r, chunks);
            match Find(text, CLOSE_TAG)
            case None => StillOpen(end, text)
            case Some(i) =>
              && |received| < i + |CLOSE_TAG| <= |text|
              && Settled(end, text[..i], AnswerFrom(chunks, i + |CLOSE_TAG| - |received|))
    decreases |chunks|
  {
    hide RunStep, Find, StripAnswerSeparator, StillOpen, Flatten;
    if chunks == [] {
      FlattenNothing();
      assert received + "" == received;
      NothingClosed(r, received);
    } else {
      var first, rest := chunks[0], chunks[1..];
      var now := received + first;
      assert chunks == [first] + rest;
      FlattenCons(first, rest);
      ConcatAssoc(received, first, Flatten(rest));
      if Find(now, CLOSE_TAG) == None {
        if first == "" {
          assert now == received;
          NoStep(r);
        } else {
          SearchGoesOn(r, received, first);
        }
        SearchRun(RunStep(r, first), now, rest);
      } else {
        SearchEnds(r, received, first, rest);
      }
    }
  }

  lemma FlattenNothing()
    ensures Flatten<char>([]) == ""
  {
  }

  lemma NothingClosed(r: SplitRun, received: string)
    requires StillOpen(r, received)
    ensures Find(received, CLOSE_TAG) == None
  {
  }

  lemma NoStep(r: SplitRun)
    ensures RunStep(r, "") == r
  {
  }

  /** The chunk that completes the close tag. */
  lemma SearchEnds(r: SplitRun, received: string, first: string, rest: seq<string>)
    requires StillOpen(r, received) && Find(received + first, CLOSE_TAG).Some?
    ensures var text := received + (first + Flatten(rest));
            var i := Find(received + first, CLOSE_TAG).value;
            && Find(text, CLOSE_TAG) == Some(i) && |received| < i + |CLOSE_TAG| <= |received + first|
            && Settled(RunFrom(RunStep(r, first), rest), text[..i],
                       StripAnswerSeparator(first[i + |CLOSE_TAG| - |received|..]) + Flatten(rest))
  {
    hide RunFrom, RunStep, Find, StripAnswerSeparator, SplitAtThinkClose, Flatten, IsPartialClose;
    var i := Find(received + first, CLOSE_TAG).value;
    FindBeyond(received, first);
    SearchSkipsEmitted(r, received, first);
    SearchEffect(r, first);
    SettledRun(RunStep(r, first), rest);
    ConcatAssoc(received, first, Flatten(rest));
    FindExtends(received + first, Flatten(rest));
    TakeOfConcat(received + first, Flatten(rest), i);
    DropOfTail(received, first, i + |CLOSE_TAG| - |received|);
  }

  /** Inside a think block the chunking matters only to the answer: the block stays open exactly as long as the text
      received holds no close tag, everything but the longest possible start of a tag has been emitted, and the block
      closes at the first occurrence of the tag in the whole text. */
  lemma CloseTagSearch(chunks: seq<string>)
    ensures var text, r := Flatten(chunks), RunFrom(IN_THINK, chunks);
            if Find(text, CLOSE_TAG) == None then StillOpen(r, text)
            else Settled(r, SearchSplit(chunks).0, SearchSplit(chunks).1)
  {
    hide RunFrom, Find, Flatten, AnswerFrom, StillOpen;
    NothingSearched();
    SearchRun(IN_THINK, "", chunks);
    assert "" + Flatten(chunks) == Flatten(chunks);
  }

  lemma NothingSearched()
    ensures StillOpen(IN_THINK, "")
  {
  }

  lemma SearchFlush(chunks: seq<string>)
    ensures Settled(RunFlush(RunFrom(IN_THINK, chunks)), SearchSplit(chunks).0, SearchSplit(chunks).1)
  {
    hide RunFrom, RunFlush, Find, Flatten, IsPartialClose, AnswerFrom;
    CloseTagSearch(chunks);
    FlushEffect(RunFrom(IN_THINK, chunks));
  }

  lemma FlushEffect(r: SplitRun)
    requires r.splitter.state == Detecting ==> r.reasoning == r.content == ""
    requires r.splitter.state == Done ==> r.splitter.buffer == ""
    ensures RunFlush(r) == if r.splitter.state == InThink then
                             SplitRun(Splitter(Done, ""), r.reasoning + r.splitter.buffer, r.content)
                           else if r.splitter.buffer == "" then r
                           else SplitRun(Splitter(Done, ""), "", r.splitter.buffer)
  {
    var done := r.(splitter := Splitter(Done, ""));
    if r.splitter.state == InThink {
      ApplyTwo(done, r.splitter.buffer, "");
      NothingPushed(r.splitter.buffer);
      assert r.content + "" == r.content;
    } else if r.splitter.buffer != "" {
      OnePush(done, PushText(r.splitter.buffer));
      assert "" + r.splitter.buffer == r.splitter.buffer;
    }
  }

  // ---------- the search for the open tag ----------

  function Held(text: string): SplitRun {
    SplitRun(Splitter(Detecting, text), "", "")
  }

  /** Without an open tag all is held back as long as one may still come, and then passed on whole. */
  lemma {:induction false} DetectRun(held: string, chunks: seq<string>)
    requires !HasLeadingOpenTag(held) && IsLeadingThinkPrefix(held)
    ensures var r, text := RunFlush(RunFrom(Held(held), chunks)), held + Flatten(chunks);
            match FromOpenTag(held, chunks)
            case Some(body) => text != "" && Settled(r, SplitBody(body).0, SplitBody(body).1)
            case None => if text == "" then r == Held("") else Settled(r, "", text)
    decreases |chunks|
  {
    hide RunFlush, HasLeadingOpenTag, IsLeadingThinkPrefix, AfterOpenTag, SearchSplit, SplitThinkBody, Trim,
         InThinkStep;
    if chunks == [] {
      assert held + "" == held;
      FlushEffect(Held(held));
    } else {
      var first, rest := chunks[0], chunks[1..];
      var all := held + first;
      ConcatAssoc(held, first, Flatten(rest));
      if first == "" {
        assert all == held;
        NoStep(Held(held));
        DetectRun(held, rest);
      } else {
        assert RunStep(Held(held), first)
            == if HasLeadingOpenTag(all) then
                 match SplitThinkBody(AfterOpenTag(all))
                 case Some((thought, answer)) => SplitRun(Splitter(Done, ""), thought, answer)
                 case None => RunStep(IN_THINK, Trim(AfterOpenTag(all)))
               else if IsLeadingThinkPrefix(all) then Held(all) else SplitRun(Splitter(Done, ""), "", all)
        by {
          hide SplitThinkBody, InThinkStep, HasLeadingOpenTag, AfterOpenTag, Trim, IsLeadingThinkPrefix;
          var done := SplitRun(Splitter(Done, ""), "", "");
          match SplitLeadingThinkBlock(all) {
            case Some((thought, answer)) =>
              ApplyTwo(done, thought, answer);
              assert "" + thought == thought && "" + answer == answer;
            case None =>
              OnePush(done, PushText(all));
              assert "" + all == all;
              assert HasLeadingOpenTag(all) ==> "" + Trim(AfterOpenTag(all)) == Trim(AfterOpenTag(all));
          }
        }
        hide RunStep;
        if HasLeadingOpenTag(all) {
          var body := [AfterOpenTag(all)] + rest;
          assert FromOpenTag(all, rest) == Some(body) && body[1..] == rest;
          if SplitThinkBody(body[0]).Some? {
            SettledRun(RunStep(Held(held), first), rest);
            FlushEffect(RunFrom(Held(held), chunks));
          } else {
            var searched := [Trim(body[0])] + rest;
            assert searched[1..] == rest && searched[0] == Trim(body[0]);
            SearchFlush(searched);
          }
        } else if IsLeadingThinkPrefix(all) {
          DetectRun(all, rest);
        } else {
          LeadingTagIsStable(all, Flatten(rest));
          OpenTagMeans(all, rest);
          SettledRun(SplitRun(Splitter(Done, ""), "", all), rest);
          FlushEffect(RunFrom(SplitRun(Splitter(Done, ""), "", all), rest));
        }
      }
    }
  }

  /** For every chunking of a text the splitter ends with exactly this thought and answer. */
  lemma ChunkedSplit(chunks: seq<string>)
    ensures var r := RunFlush(RunFrom(INITIAL_RUN, chunks));
            && (r.reasoning, r.content) == SplitChunks(chunks)
            && if Flatten(chunks) == "" then r == INITIAL_RUN else r.splitter == Splitter(Done, "")
  {
    hide RunFrom, RunFlush, HasLeadingOpenTag, IsLeadingThinkPrefix, FromOpenTag, SplitBody;
    NoTagInNothing();
    DetectRun("", chunks);
    assert "" + Flatten(chunks) == Flatten(chunks);
  }

  // ---------- nothing but whitespace is lost ----------

  lemma NoWsOfTags(s: string)
    requires s == OPEN_TAG || s == CLOSE_TAG
    ensures NoWs(s) == s
  {
    assert |s| <= 8 ==> NoWs(s) == s by { NoWsVisible(s); }
  }

  lemma {:induction false} NoWsVisible(s: string)
    requires forall i :: 0 <= i < |s| ==> !IsWhitespace(s[i])
    ensures NoWs(s) == s
  {
    if s != [] {
      NoWsVisible(s[1..]);
    }
  }

  lemma NoWsAroundClose(text: string, i: nat)
    requires OccursAt(text, CLOSE_TAG, i)
    ensures NoWs(text) == NoWs(text[..i]) + CLOSE_TAG + NoWs(text[i + |CLOSE_TAG|..])
  {
    hide NoWs;
    var after := text[i + |CLOSE_TAG|..];
    assert text == text[..i] + CLOSE_TAG + after;
    NoWsAppend(text[..i] + CLOSE_TAG, after);
    NoWsAppend(text[..i], CLOSE_TAG);
    NoWsOfTags(CLOSE_TAG);
  }

  ghost predicate Opened(text: string, thought: string) {
    NoWs(text) == OPEN_TAG + NoWs(thought)
  }

  ghost predicate Closed(text: string, thought: string, answer: string) {
    NoWs(text) == OPEN_TAG + (NoWs(thought) + CLOSE_TAG + NoWs(answer))
  }

  lemma SearchKeeps(chunks: seq<string>)
    ensures var text, (thought, answer) := Flatten(chunks), SearchSplit(chunks);
            || (NoWs(text) == NoWs(thought) && answer == "")
            || NoWs(text) == NoWs(thought) + CLOSE_TAG + NoWs(answer)
  {
    hide NoWs, StripAnswerSeparator;
    var text := Flatten(chunks);
    if Find(text, CLOSE_TAG).Some? {
      var i := Find(text, CLOSE_TAG).value;
      NoWsAroundClose(text, i);
      AnswerKeeps(chunks, i + |CLOSE_TAG|);
    }
  }

  lemma {:induction false} AnswerKeeps(chunks: seq<string>, e: nat)
    requires e <= |Flatten(chunks)|
    ensures NoWs(AnswerFrom(chunks, e)) == NoWs(Flatten(chunks)[e..])
    decreases |chunks|
  {
    hide NoWs, StripAnswerSeparator;
    if chunks != [] {
      var first, rest := chunks[0], Flatten(chunks[1..]);
      if e <= |first| {
        DropOfConcat(first, rest, e);
        NoWsAppend(first[e..], rest);
        NoWsAppend(StripAnswerSeparator(first[e..]), rest);
      } else {
        AnswerKeeps(chunks[1..], e - |first|);
        DropOfTail(first, rest, e - |first|);
      }
    }
  }

  lemma BodyKeeps(body: seq<string>)
    requires body != []
    ensures var text, (thought, answer) := Flatten(body), SplitBody(body);
            || (NoWs(text) == NoWs(thought) && answer == "")
            || NoWs(text) == NoWs(thought) + CLOSE_TAG + NoWs(answer)
  {
    hide NoWs, StripAnswerSeparator, Trim, SearchSplit;
    var piece, rest := body[0], Flatten(body[1..]);
    NoWsAppend(piece, rest);
    if Find(piece, CLOSE_TAG).Some? {
      var i := Find(piece, CLOSE_TAG).value;
      var answer := StripAnswerSeparator(piece[i + |CLOSE_TAG|..]);
      NoWsAroundClose(piece, i);
      NoWsTrim(piece[..i]);
      NoWsAppend(answer, rest);
      ConcatAssoc(NoWs(piece[..i]) + CLOSE_TAG, NoWs(answer), NoWs(rest));
    } else {
      var searched := [Trim(piece)] + body[1..];
      SearchKeeps(searched);
      NoWsTrim(piece);
      NoWsAppend(Trim(piece), rest);
      assert searched[1..] == body[1..];
    }
  }

  /** A content-only stream, cut anywhere and flushed at its end: without a leading open tag the answer is exactly the
      text received; with one, deleting whitespace leaves the tag, the reasoning and, when the block was closed, the
      close tag and the answer, in this order and nothing else. */
  lemma {:induction false} ThinkSplittingLosesOnlyWhitespace(chunks: seq<string>)
    ensures var text, r := Flatten(chunks), RunFlush(RunFrom(INITIAL_RUN, chunks));
            if !HasLeadingOpenTag(text) then r.content == text && r.reasoning == ""
            else (Opened(text, r.reasoning) && r.content == "") || Closed(text, r.reasoning, r.content)
  {
    hide RunFrom, RunFlush, NoWs, SplitBody, FromOpenTag, HasLeadingOpenTag, AfterOpenTag, Flatten;
    ChunkedSplit(chunks);
    OpenTagMeans("", chunks);
    var text := Flatten(chunks);
    assert "" + text == text;
    if HasLeadingOpenTag(text) {
      BodyKeeps(FromOpenTag("", chunks).value);
      NoWsOfOpened(text);
    }
  }

  lemma NoWsOfOpened(text: string)
    requires HasLeadingOpenTag(text)
    ensures NoWs(text) == OPEN_TAG + NoWs(AfterOpenTag(text))
  {
    hide NoWs, TrimStart;
    NoWsTrimStart(text);
    assert TrimStart(text) == OPEN_TAG + AfterOpenTag(text);
    NoWsAppend(OPEN_TAG, AfterOpenTag(text));
    NoWsOfTags(OPEN_TAG);
  }
}
