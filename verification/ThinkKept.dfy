/** When cutting a text into chunks changes nothing about its think block. */
module ThinkKept {
  import opened Wrappers
  import opened Text
  import opened Think
  import opened ThinkSplit

  /** Thought and answer of a text that comes whole. */
  function WholeSplit(text: string): (string, string) {
    SplitLeadingThinkBlock(text).GetOr(("", text))
  }

  // ---------- the condition ----------

  predicate BeginsVisibly(s: string) {
    s != "" ==> !IsWhitespace(s[0])
  }

  predicate EndsVisibly(s: string) {
    s != "" ==> !IsWhitespace(s[|s| - 1])
  }

  /** Trimming the opening chunk takes nothing else from the thought, the first `i` characters of `opening + rest`, than
      trimming the thought. */
  predicate ThoughtIsKept(opening: string, rest: string, i: nat)
    requires i <= |opening + rest|
  {
    if i < |opening| then EndsVisibly(TrimStart(opening[..i]))
    else
      var later := rest[..i - |opening|];
      || later == ""
      || (EndsVisibly(later) && if Trim(opening) == "" then BeginsVisibly(later) else EndsVisibly(opening))
  }

  /** The chunk that completes the close tag brings some of the answer, or no later text begins with a separator. */
  predicate AnswerIsKept(body: seq<string>, e: nat, more: string)
    decreases |body|
  {
    if body == [] then false
    else if e <= |body[0]| then
      var later := Flatten(body[1..]) + more;
      StripAnswerSeparator(body[0][e..]) != "" || StripAnswerSeparator(later) == later
    else AnswerIsKept(body[1..], e - |body[0]|, more)
  }

  /** The chunks from the open tag on close the block, its thought survives the trimming of the opening chunk, and its
      answer the cut behind the close tag. */
  predicate BodyIsKept(body: seq<string>, more: string)
    requires body != []
  {
    var text := Flatten(body);
    && Find(text, CLOSE_TAG).Some?
    && var i := Find(text, CLOSE_TAG).value;
       && (i + |CLOSE_TAG| <= |body[0]| || ThoughtIsKept(body[0], Flatten(body[1..]), i))
       && AnswerIsKept(body, i + |CLOSE_TAG|, more)
  }

  /** Chunks read by the splitter, then more text passed on as it is, give what the whole text gives. Without a leading
      open tag in the chunks, the whole text must have no think block. */
  predicate BlockIsKept(chunks: seq<string>, more: string) {
    match FromOpenTag("", chunks)
    case Some(body) => BodyIsKept(body, more)
    case None => SplitLeadingThinkBlock(Flatten(chunks) + more) == None
  }

  // ---------- the answer ----------

  lemma {:induction false} StripConcat(x: string, y: string)
    ensures StripAnswerSeparator(x) + y == StripAnswerSeparator(x + y)
       <==> StripAnswerSeparator(x) != "" || StripAnswerSeparator(y) == y
  {
    if x == "" {
      assert x + y == y;
    } else {
      assert (x + y)[0] == x[0] && (x + y)[1..] == x[1..] + y;
      StripConcat(x[1..], y);
    }
  }

  lemma {:induction false} AnswerAgrees(body: seq<string>, e: nat, more: string)
    requires 0 < e <= |Flatten(body)|
    ensures AnswerFrom(body, e) + more == StripAnswerSeparator(Flatten(body)[e..] + more)
        <==> AnswerIsKept(body, e, more)
    decreases |body|
  {
    hide StripAnswerSeparator, Flatten;
    FlattenNothing();
    assert body != [] && body == [body[0]] + body[1..];
    var first, rest := body[0], Flatten(body[1..]);
    FlattenCons(first, body[1..]);
    if e <= |first| {
      DropOfConcat(first, rest, e);
      ConcatAssoc(first[e..], rest, more);
      ConcatAssoc(StripAnswerSeparator(first[e..]), rest, more);
      StripConcat(first[e..], rest + more);
    } else {
      DropOfTail(first, rest, e - |first|);
      AnswerAgrees(body[1..], e - |first|, more);
    }
  }

  // ---------- trimming ----------

  predicate IsBlank(s: string) {
    forall i :: 0 <= i < |s| ==> IsWhitespace(s[i])
  }

  lemma {:induction false} TrimStartBlank(s: string)
    requires IsBlank(s)
    ensures TrimStart(s) == ""
  {
    if s != "" {
      TrimStartBlank(s[1..]);
    }
  }

  lemma TrimStartVisible(s: string)
    ensures TrimStart(s) == s <==> BeginsVisibly(s)
  {
  }

  /** What ends with a visible character ends so whatever came before. */
  lemma TrimEndOfConcat(x: string, u: string)
    ensures TrimEnd(u) != "" ==> TrimEnd(x + u) == x + TrimEnd(u)
    ensures TrimEnd(u) == "" ==> TrimEnd(x + u) == TrimEnd(x)
  {
    if u == "" {
      assert x + u == x;
    } else {
      var n := |u| - 1;
      assert (x + u)[|x + u| - 1] == u[n] && (x + u)[..|x + u| - 1] == x + u[..n];
      TrimEndOfConcat(x, u[..n]);
    }
  }

  lemma TrimEndVisible(s: string)
    ensures TrimEnd(s) == s <==> EndsVisibly(s)
  {
  }

  /** A text with visible characters is its trimmed form between blanks. */
  lemma TrimParts(s: string) returns (before: string, after: string)
    ensures s == before + (Trim(s) + after) && IsBlank(before) && IsBlank(after)
    ensures BeginsVisibly(Trim(s)) && EndsVisibly(Trim(s)) && (Trim(s) == "" || EndsVisibly(s) ==> after == "")
  {
    hide TrimStart, TrimEnd;
    var tail := TrimStart(s);
    if TrimEnd(tail) == "" {
      assert tail == "";
      assert s == s + ("" + "");
      return s, "";
    }
    before, after := s[..|s| - |tail|], tail[|TrimEnd(tail)|..];
    assert tail == TrimEnd(tail) + after && s == before + tail;
    assert tail[|tail| - 1] == s[|s| - 1];
  }

  /** Blanks in front do not matter, nor does anything before a visible character. */
  lemma TrimOfParts(before: string, core: string, after: string)
    requires IsBlank(before) && BeginsVisibly(core) && core != ""
    ensures Trim(before + (core + after)) == if TrimEnd(after) == "" then TrimEnd(core) else core + TrimEnd(after)
  {
    hide TrimStart, TrimEnd;
    TrimStartBlank(before);
    TrimStartAppend(before, core + after);
    TrimStartVisible(core);
    TrimStartAppend(core, after);
    TrimEndOfConcat(core, after);
  }

  // ---------- the thought, when the opening chunk ends visibly ----------

  /** The opening chunk loses only blanks in front, or is nothing but blanks: the search finds the same place. */
  lemma SearchIsShifted(before: string, start: string, rest: string)
    requires IsBlank(before)
    ensures Find(before + start + rest, CLOSE_TAG)
         == match Find(start + rest, CLOSE_TAG) case None => None case Some(j) => Some(|before| + j)
  {
    hide Find;
    var text := before + (start + rest);
    ConcatAssoc(before, start, rest);
    assert forall i :: 0 <= i < |before| ==> text[i] == before[i];
    forall i: nat | OccursAt(text, CLOSE_TAG, i) ensures |before| <= i {
      assert text[i] == text[i..i + |CLOSE_TAG|][0] == '<';
    }
    FindShifts(before, start + rest);
  }

  lemma TrimmedMeans(s: string)
    ensures Trim(s) == s <==> BeginsVisibly(s) && EndsVisibly(s)
  {
    hide TrimStart, TrimEnd;
    TrimStartVisible(s);
    TrimEndVisible(s);
    assert Trim(s) == s ==> |TrimStart(s)| == |s|;
  }

  lemma BlankBefore(before: string, thought: string)
    requires IsBlank(before)
    ensures Trim(before + thought) == Trim(thought) && TrimStart(before + thought) == TrimStart(thought)
  {
    TrimStartBlank(before);
    TrimStartAppend(before, thought);
  }

  /** The thought found after an opening chunk that ends visibly or is blank. */
  lemma VisibleThought(before: string, start: string, rest: string, at: nat)
    requires IsBlank(before) && BeginsVisibly(start) && EndsVisibly(start) && (start == "" ==> Trim(before) == "")
    requires start != "" ==> EndsVisibly(before + start) && Trim(before + start) == start
    requires at <= |start + rest|
    ensures (start + rest)[..at] == Trim((before + start + rest)[..|before| + at])
       <==> ThoughtIsKept(before + start, rest, |before| + at)
  {
    hide TrimStart, TrimEnd, Trim, BeginsVisibly, EndsVisibly, IsBlank;
    var opening, thought := before + start, (start + rest)[..at];
    assert (before + start + rest)[..|before| + at] == before + thought by {
      ConcatAssoc(before, start, rest);
      TakeOfTail(before, start + rest, at);
    }
    BlankBefore(before, thought);
    TrimmedMeans(thought);
    if at < |start| {
      TakeOfConcat(start, rest, at);
      TakeOfTail(before, start, at);
      FrontOf(start, at);
    } else {
      TakeOfTail(start, rest, at - |start|);
      VisibleTogether(start, rest[..at - |start|]);
      assert start == "" ==> opening == before;
    }
  }

  /** A front part begins as visibly as the whole. */
  lemma FrontOf(s: string, n: nat)
    requires BeginsVisibly(s) && n <= |s|
    ensures BeginsVisibly(s[..n]) && TrimStart(s[..n]) == s[..n]
  {
    TrimStartVisible(s[..n]);
  }

  lemma VisibleTogether(s: string, later: string)
    requires BeginsVisibly(s) && EndsVisibly(s)
    ensures BeginsVisibly(s + later) && EndsVisibly(s + later)
       <==> later == "" || (EndsVisibly(later) && (s == "" ==> BeginsVisibly(later)))
  {
    assert s == "" ==> s + later == later;
    assert later == "" ==> s + later == s;
  }

  // ---------- the thought, when the opening chunk ends with blanks ----------

  /** Trimming creates no occurrence. */
  lemma NotFoundWithin(before: string, core: string, after: string)
    requires Find(before + (core + after), CLOSE_TAG) == None
    ensures Find(core, CLOSE_TAG) == None
  {
    forall i: nat | OccursAt(core, CLOSE_TAG, i)
      ensures OccursAt(before + (core + after), CLOSE_TAG, |before| + i)
    {
      var text := before + (core + after);
      assert text[|before| + i..|before| + i + |CLOSE_TAG|] == core[i..i + |CLOSE_TAG|];
    }
  }

  /** No tag reaches across a blank. */
  lemma NothingBeginsIn(opening: string, rest: string, i: nat)
    requires opening != "" && !EndsVisibly(opening) && Find(opening, CLOSE_TAG) == None
    requires OccursAt(opening + rest, CLOSE_TAG, i)
    ensures |opening| <= i
  {
    hide FindFrom;
    assert i + |CLOSE_TAG| <= |opening| ==> OccursAt(opening, CLOSE_TAG, i) by {
      if i + |CLOSE_TAG| <= |opening| {
        SliceOfConcat(opening, rest, i, i + |CLOSE_TAG|);
      }
    }
    if i < |opening| {
      TagChars(opening + rest, i, |opening| - 1);
    }
  }

  lemma TagChars(text: string, at: nat, k: nat)
    ensures OccursAt(text, CLOSE_TAG, at) && at <= k < at + |CLOSE_TAG| ==>
              !IsWhitespace(text[k]) && (text[k] == '<' <==> k == at)
  {
    assert OccursAt(text, CLOSE_TAG, at) && at <= k < at + |CLOSE_TAG| ==>
        text[k] == text[at..at + |CLOSE_TAG|][k - at];
  }

  /** Where the tag is found after the trimmed opening chunk. */
  lemma SpacedSearch(start: string, rest: string, j: nat)
    requires Find(start, CLOSE_TAG) == None && Find(rest, CLOSE_TAG) == Some(j)
    ensures var found := Find(start + rest, CLOSE_TAG);
            && found.Some?
            && if j == 0 || |start| <= found.value then found.value == |start| + j else found.value < |start|
  {
    hide OccursAt, FindFrom;
    var text := start + rest;
    OccursAfter(start, rest, j);
    var at := Find(text, CLOSE_TAG).value;
    if |start| <= at {
      OccursAfter(start, rest, at - |start|);
    } else {
      FindBeyond(start, rest);
      TagChars(text, at, |start|);
      TagChars(rest, j, 0);
    }
  }

  /** Blanks at the end of the opening chunk are lost to the thought, so it survives only if it ends there. */
  lemma SpacedTrim(before: string, start: string, after: string, later: string)
    requires IsBlank(before) && IsBlank(after) && after != ""
    requires start != "" && BeginsVisibly(start) && EndsVisibly(start)
    ensures var trimmed := Trim(before + (start + after) + later);
            |start| <= |trimmed| && (trimmed == start + later <==> later == "")
  {
    hide TrimStart, TrimEnd, Trim;
    var tail := TrimEnd(later);
    assert before + (start + after) + later == before + (start + (after + later));
    TrimOfParts(before, start, after + later);
    TrimEndVisible(start);
    TrimEndOfConcat(after, later);
    assert TrimEnd(after) == "";
    if tail != "" {
      assert start + (after + tail) == start + later ==> after + tail == later by {
        DropOfTail(start, after + tail, 0);
        DropOfTail(start, later, 0);
      }
      assert (EndsVisibly(tail) && !EndsVisibly(later)) || tail == later by { TrimEndVisible(later); }
      assert (after + tail)[|after + tail| - 1] == tail[|tail| - 1];
    }
  }

  // ---------- the thought, in general ----------

  /** The search after the trimmed opening chunk finds the close tag if the whole text has one, and yields the trimmed
      thought exactly if the thought is kept; it then ends at the same place. */
  lemma ThoughtSurvives(opening: string, rest: string, i: nat)
    requires Find(opening, CLOSE_TAG) == None && Find(opening + rest, CLOSE_TAG) == Some(i)
    ensures i + |CLOSE_TAG| <= |opening + rest|
    ensures Find(Trim(opening), CLOSE_TAG) == None && Find(Trim(opening) + rest, CLOSE_TAG).Some?
    ensures var start, at := Trim(opening), Find(Trim(opening) + rest, CLOSE_TAG).value;
            && at <= |start + rest|
            && ((start + rest)[..at] == Trim((opening + rest)[..i]) <==> ThoughtIsKept(opening, rest, i))
            && (ThoughtIsKept(opening, rest, i) ==> at + |opening| == i + |start|)
  {
    hide Find, TrimStart, TrimEnd, Trim;
    var start := Trim(opening);
    var before, after := TrimParts(opening);
    FindBeyond(opening, rest);
    NotFoundWithin(before, start, after);
    if after == "" {
      assert start + after == start && opening == before + start;
      assert start == "" ==> before == opening;
      SearchIsShifted(before, start, rest);
      VisibleThought(before, start, rest, i - |before|);
    } else {
      forall k: nat | OccursAt(opening + rest, CLOSE_TAG, k) ensures |opening| <= k {
        NothingBeginsIn(opening, rest, k);
      }
      FindShifts(opening, rest);
      var j := i - |opening|;
      SpacedSearch(start, rest, j);
      SpacedTrim(before, start, after, rest[..j]);
      TakeOfTail(opening, rest, j);
      TakeOfTail(start, rest, j);
    }
  }

  // ---------- the theorem ----------

  /** The split when the opening chunk holds the whole block, and when it does not. */
  lemma BodyParts(body: seq<string>)
    requires body != []
    ensures var opening, later, split := body[0], body[1..], SplitBody(body);
            && Flatten(body) == opening + Flatten(later)
            && match Find(opening, CLOSE_TAG)
               case Some(i) =>
                 && i + |CLOSE_TAG| <= |opening| && Find(Flatten(body), CLOSE_TAG) == Some(i)
                 && split == (Trim(opening[..i]), AnswerFrom(body, i + |CLOSE_TAG|))
               case None =>
                 var start := Trim(opening);
                 && Find(start, CLOSE_TAG) == None
                 && match Find(start + Flatten(later), CLOSE_TAG)
                    case None => split == (start + Flatten(later), "")
                    case Some(at) =>
                      && |start| < at + |CLOSE_TAG| <= |start + Flatten(later)|
                      && split == ((start + Flatten(later))[..at], AnswerFrom(later, at + |CLOSE_TAG| - |start|))
  {
    hide Find, TrimStart, TrimEnd, Trim, StripAnswerSeparator, Flatten;
    var opening, later := body[0], body[1..];
    assert body == [opening] + later;
    FlattenCons(opening, later);
    if Find(opening, CLOSE_TAG).Some? {
      FoundFits(opening);
      FindExtends(opening, Flatten(later));
    } else {
      var start := Trim(opening);
      assert Find(start, CLOSE_TAG) == None by {
        var before, after := TrimParts(opening);
        NotFoundWithin(before, start, after);
      }
      var searched := [start] + later;
      assert searched[0] == start && searched[1..] == later;
      FlattenCons(start, later);
      if Find(start + Flatten(later), CLOSE_TAG).Some? {
        FindBeyond(start, Flatten(later));
      }
    }
  }

  /** What is found in the chunks is the block of the whole text. */
  lemma ClosedAgrees(body: seq<string>, i: nat)
    requires body != [] && Find(Flatten(body), CLOSE_TAG) == Some(i)
    ensures i + |CLOSE_TAG| <= |Flatten(body)| && Flatten(body) == body[0] + Flatten(body[1..])
    ensures var kept := i + |CLOSE_TAG| <= |body[0]| || ThoughtIsKept(body[0], Flatten(body[1..]), i);
            && (SplitBody(body).0 == Trim(Flatten(body)[..i]) <==> kept)
            && (kept ==> SplitBody(body).1 == AnswerFrom(body, i + |CLOSE_TAG|))
  {
    hide Find, Trim, StripAnswerSeparator, ThoughtIsKept, Flatten, SplitBody;
    var opening, rest := body[0], Flatten(body[1..]);
    BodyParts(body);
    FoundFits(Flatten(body));
    if Find(opening, CLOSE_TAG).Some? {
      TakeOfConcat(opening, rest, i);
    } else {
      FindBeyond(opening, rest);
      ThoughtSurvives(opening, rest, i);
    }
  }

  lemma FoundFits(text: string)
    ensures Find(text, CLOSE_TAG).Some? ==> Find(text, CLOSE_TAG).value + |CLOSE_TAG| <= |text|
  {
  }

  /** Reading the chunks with the splitter and passing the rest on gives the thought and the answer of the whole text
      exactly when the block is kept. */
  lemma SplitAgrees(chunks: seq<string>, tail: string)
    ensures (SplitChunks(chunks).0, SplitChunks(chunks).1 + tail) == WholeSplit(Flatten(chunks) + tail)
       <==> BlockIsKept(chunks, tail)
  {
    hide HasLeadingOpenTag, AfterOpenTag, Flatten, SplitBody, FromOpenTag, Find, Trim, StripAnswerSeparator, AnswerFrom,
         AnswerIsKept, ThoughtIsKept;
    var text := Flatten(chunks);
    assert "" + text == text;
    OpenTagMeans("", chunks);
    LeadingTagIsStable(text, tail);
    if HasLeadingOpenTag(text) {
      var body := FromOpenTag("", chunks).value;
      var whole, split := Flatten(body), SplitBody(body);
      assert SplitThinkBody(whole + tail) == Some((split.0, split.1 + tail)) <==> BodyIsKept(body, tail) by {
        FoundFits(whole + tail);
        if Find(whole, CLOSE_TAG) == None {
          if Find(whole + tail, CLOSE_TAG).Some? {
            FindBeyond(whole, tail);
            var e := Find(whole + tail, CLOSE_TAG).value + |CLOSE_TAG|;
            assert |StripAnswerSeparator((whole + tail)[e..])| < |split.1 + tail|;
          }
        } else {
          var i := Find(whole, CLOSE_TAG).value;
          FoundFits(whole);
          FindExtends(whole, tail);
          TakeOfConcat(whole, tail, i);
          DropOfConcat(whole, tail, i + |CLOSE_TAG|);
          AnswerAgrees(body, i + |CLOSE_TAG|, tail);
          ClosedAgrees(body, i);
        }
      }
      hide SplitThinkBody, BodyIsKept;
      ChunkedAnswerIsShorter(chunks);
      assert |SplitChunks(chunks).1 + tail| < |text + tail|;
    } else {
      AnswerIsShorter(text + tail);
    }
  }

  lemma AnswerIsShorter(text: string)
    ensures SplitLeadingThinkBlock(text).Some? ==> |SplitLeadingThinkBlock(text).value.1| < |text|
  {
    hide Trim, Find;
  }

  lemma {:induction false} AnswerFits(chunks: seq<string>, e: nat)
    ensures |AnswerFrom(chunks, e)| <= |Flatten(chunks)|
    decreases |chunks|
  {
    if chunks != [] && e > |chunks[0]| {
      AnswerFits(chunks[1..], e - |chunks[0]|);
    }
  }

  /** A leading open tag is never part of the answer. */
  lemma ChunkedAnswerIsShorter(chunks: seq<string>)
    requires HasLeadingOpenTag(Flatten(chunks))
    ensures |SplitChunks(chunks).1| < |Flatten(chunks)|
  {
    hide Flatten, SplitBody, FromOpenTag, TrimStart;
    assert "" + Flatten(chunks) == Flatten(chunks);
    OpenTagMeans("", chunks);
    BodyAnswerFits(FromOpenTag("", chunks).value);
  }

  lemma BodyAnswerFits(body: seq<string>)
    requires body != []
    ensures |SplitBody(body).1| <= |Flatten(body)|
  {
    hide Flatten, SplitBody, Find, Trim, AnswerFrom;
    BodyParts(body);
    var opening, later := body[0], body[1..];
    var searched := Trim(opening) + Flatten(later);
    if Find(opening, CLOSE_TAG).Some? {
      AnswerFits(body, Find(opening, CLOSE_TAG).value + |CLOSE_TAG|);
    } else if Find(searched, CLOSE_TAG).Some? {
      AnswerFits(later, Find(searched, CLOSE_TAG).value + |CLOSE_TAG| - |Trim(opening)|);
    }
  }

  // ---------- trimming can make a close tag ----------

  lemma AfterTag(body: string)
    ensures HasLeadingOpenTag(OPEN_TAG + body) && AfterOpenTag(OPEN_TAG + body) == body
  {
    var text := OPEN_TAG + body;
    assert text[0] == OPEN_TAG[0] && text[..|OPEN_TAG|] == OPEN_TAG && text[|OPEN_TAG|..] == body;
    hide TrimStart;
    TrimStartVisible(text);
  }

  lemma TagHasNoBlank(k: nat)
    requires k < |CLOSE_TAG|
    ensures !IsWhitespace(CLOSE_TAG[k]) && (CLOSE_TAG[k] == '<' <==> k == 0)
  {
  }

  /** A space within the only close tag leaves a text without one. */
  lemma NoTag(text: string, k: nat)
    requires 0 < k < |CLOSE_TAG| && |text| > 1 + k && text[1 + k] == ' '
    requires forall j :: 0 <= j < |text| && text[j] == '<' ==> j == 1
    ensures Find(text, CLOSE_TAG) == None
  {
    hide FindFrom;
    forall i: nat ensures !OccursAt(text, CLOSE_TAG, i) {
      TagChars(text, i, i);
      TagChars(text, i, 1 + k);
    }
  }

  /** A text that begins with a character and the close tag. */
  lemma TagAfterOne(c: char, rest: string)
    requires c != '<'
    ensures var text := [c] + (CLOSE_TAG + rest);
            Find(text, CLOSE_TAG) == Some(1) && text[..1] == [c] && text[1 + |CLOSE_TAG|..] == rest
  {
    var text := [c] + (CLOSE_TAG + rest);
    assert text[..1] == [c] && text[1..1 + |CLOSE_TAG|] == CLOSE_TAG && text[1 + |CLOSE_TAG|..] == rest;
    TagChars(text, 0, 0);
    assert OccursAt(text, CLOSE_TAG, 1);
  }

  /** A close tag with a space in it, the text in front and the text behind. */
  lemma BrokenTag(k: nat)
    requires 0 < k < |CLOSE_TAG|
    ensures var start, rest := "a" + CLOSE_TAG[..k], CLOSE_TAG[k..] + "b";
            && BeginsVisibly(start) && EndsVisibly(start) && start + rest == ['a'] + (CLOSE_TAG + "b")
            && Find(start + " ", CLOSE_TAG) == None && Find(start + " " + rest, CLOSE_TAG) == None
            && rest[|CLOSE_TAG| - k..] == "b" == StripAnswerSeparator("b")
  {
    hide Find;
    var tag := CLOSE_TAG;
    var start, rest := "a" + tag[..k], tag[k..] + "b";
    var spaced := start + " ";
    TagHasNoBlank(k - 1);
    assert tag == tag[..k] + tag[k..];
    ConcatAssoc("a", tag[..k], rest);
    ConcatAssoc(tag[..k], tag[k..], "b");
    forall j | 0 <= j < |spaced + rest| && (spaced + rest)[j] == '<' ensures j == 1 {
      assert j <= k ==> (spaced + rest)[j] == start[j];
      assert k + 1 < j < |tag| + 2 ==> (spaced + rest)[j] == tag[j - 2];
      if 1 <= j <= k {
        TagHasNoBlank(j - 1);
      } else if k + 1 < j < |tag| + 2 {
        TagHasNoBlank(j - 2);
      }
    }
    NoTag(spaced + rest, k);
    assert forall j :: 0 <= j < |spaced| ==> (spaced + rest)[j] == spaced[j];
    NoTag(spaced, k);
  }

  /** The text has no close tag, and yet the stream ends the thought: trimming the first chunk joins the halves of
      one. */
  lemma TrimmingMakesATag(k: nat)
    requires 0 < k < |CLOSE_TAG|
    ensures var chunks := [OPEN_TAG + ("a" + CLOSE_TAG[..k] + " "), CLOSE_TAG[k..] + "b"];
            && SplitChunks(chunks) == ("a", "b")
            && SplitLeadingThinkBlock(Flatten(chunks)) == None && !BlockIsKept(chunks, "")
  {
    hide *;
    var opening, rest := "a" + CLOSE_TAG[..k] + " ", CLOSE_TAG[k..] + "b";
    BrokenTag(k);
    BrokenSplit(k);
    AfterTag(opening);
    NothingKept(OPEN_TAG + opening, rest);
  }

  /** The stream trims the blank away and finds the tag. */
  lemma BrokenSplit(k: nat)
    requires 0 < k < |CLOSE_TAG|
    ensures SplitBody(["a" + CLOSE_TAG[..k] + " ", CLOSE_TAG[k..] + "b"]) == ("a", "b")
  {
    hide *;
    var start, rest := "a" + CLOSE_TAG[..k], CLOSE_TAG[k..] + "b";
    BrokenTag(k);
    TagAfterOne('a', "b");
    TrimOneSpace(start);
    LaterAnswer(start + " ", rest, |CLOSE_TAG| - k);
    BodyParts([start + " ", rest]);
  }

  /** Without a close tag no block is kept. */
  lemma {:induction false} NothingKept(text: string, rest: string)
    requires HasLeadingOpenTag(text) && Find(AfterOpenTag(text) + rest, CLOSE_TAG) == None
    ensures SplitLeadingThinkBlock(Flatten([text, rest])) == None && !BlockIsKept([text, rest], "")
    ensures SplitChunks([text, rest]) == SplitBody([AfterOpenTag(text), rest])
  {
    hide HasLeadingOpenTag, AfterOpenTag, Flatten, Find, FromOpenTag, SplitBody, AnswerIsKept;
    OpenedChunks(text, rest);
  }

  lemma SpaceEndsNothing()
    ensures TrimEnd(" ") == ""
  {
  }

  lemma TrimOneSpace(s: string)
    requires s != "" && BeginsVisibly(s) && EndsVisibly(s)
    ensures Trim(s + " ") == s
  {
    hide TrimStart, TrimEnd;
    assert "" + (s + " ") == s + " ";
    TrimEndVisible(s);
    TrimOfParts("", s, " ");
    assert TrimEnd(" ") == "" by { SpaceEndsNothing(); }
  }

  lemma {:induction false} LaterAnswer(opening: string, later: string, e: nat)
    requires e <= |later|
    ensures [opening, later][1..] == [later] && Flatten([later]) == later
    ensures AnswerFrom([later], e) == StripAnswerSeparator(later[e..])
  {
    hide StripAnswerSeparator;
    assert [later][1..] == [] && later + "" == later;
    assert StripAnswerSeparator(later[e..]) + "" == StripAnswerSeparator(later[e..]);
  }

  lemma OpenedChunks(text: string, rest: string)
    requires HasLeadingOpenTag(text)
    ensures FromOpenTag("", [text, rest]) == Some([AfterOpenTag(text), rest])
    ensures Flatten([AfterOpenTag(text), rest]) == AfterOpenTag(text) + rest
    ensures HasLeadingOpenTag(Flatten([text, rest])) && AfterOpenTag(Flatten([text, rest])) == AfterOpenTag(text) + rest
  {
    hide HasLeadingOpenTag, AfterOpenTag, Flatten;
    var opening := AfterOpenTag(text);
    NoTagInNothing();
    assert "" + text == text && [text, rest][1..] == [rest] && [opening] + [rest] == [opening, rest];
    assert FromOpenTag(text, [rest]) == Some([opening, rest]);
    TwoChunks(opening, rest);
    TwoChunks(text, rest);
    LeadingTagIsStable(text, rest);
  }

  lemma TwoChunks(one: string, two: string)
    ensures Flatten([one, two]) == one + two
  {
    assert [one, two] == [one] + [two] && [two] == [two] + [] && two + "" == two;
    FlattenCons(one, [two]);
    FlattenCons(two, []);
  }
}
