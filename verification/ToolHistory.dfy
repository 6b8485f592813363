/** Validity of a tool history (src/codex_chat_history.rs) and normalisation of roles
    (src/conversion/responses_to_chat.rs). */
module ToolHistory {
  import opened Wrappers
  import opened Chat
  import Payload = SsePayload

  datatype HistoryError =
    | UnknownToolCall(callId: string)
    | DuplicateToolOutput(callId: string)
    | MissingToolCallId
    | NoPrecedingCall(callId: string)
    | OutputRequiresCallId
    | InvalidInput
    | NoStatelessCall
    | NoStoredResponse

  type Verdict = Result<(), HistoryError>

  // ---------- distinct outputs ----------

  ghost predicate IsFirstRepeat(callIds: seq<string>, j: nat)
    requires j < |callIds|
  {
    Distinct(callIds[..j]) && callIds[j] in callIds[..j]
  }

  method EnsureNoDuplicateCallOutputs(callIds: seq<string>) returns (verdict: Verdict)
    ensures verdict.Ok? <==> Distinct(callIds)
    ensures verdict == NoDuplicates(callIds)
    ensures verdict.Err? ==> exists j :: 0 <= j < |callIds| && IsFirstRepeat(callIds, j)
                                         && verdict.error == DuplicateToolOutput(callIds[j])
  {
    var seen: set<string> := {};
    for i := 0 to |callIds|
      invariant forall c :: c in seen <==> c in callIds[..i]
      invariant Distinct(callIds[..i])
      invariant NoDuplicatesFrom(callIds, i, seen) == NoDuplicates(callIds)
    {
      if callIds[i] in seen {
        assert IsFirstRepeat(callIds, i);
        return Err(DuplicateToolOutput(callIds[i]));
      }
      seen := seen + {callIds[i]};
      assert callIds[..i + 1] == callIds[..i] + [callIds[i]];
    }
    assert callIds[..|callIds|] == callIds;
    return Ok(());
  }

  function NoDuplicatesFrom(callIds: seq<string>, i: nat, seen: set<string>): Verdict
    requires i <= |callIds|
    decreases |callIds| - i
  {
    if i == |callIds| then Ok(())
    else if callIds[i] in seen then Err(DuplicateToolOutput(callIds[i]))
    else NoDuplicatesFrom(callIds, i + 1, seen + {callIds[i]})
  }

  function NoDuplicates(callIds: seq<string>): Verdict {
    NoDuplicatesFrom(callIds, 0, {})
  }

  lemma {:induction false} NoDuplicatesMeansDistinct(callIds: seq<string>, i: nat, seen: set<string>)
    requires i <= |callIds| && Distinct(callIds[..i]) && forall c :: c in seen <==> c in callIds[..i]
    ensures NoDuplicatesFrom(callIds, i, seen).Ok? <==> Distinct(callIds)
    decreases |callIds| - i
  {
    if i == |callIds| {
      assert callIds[..i] == callIds;
    } else if callIds[i] in seen {
      var k :| 0 <= k < i && callIds[k] == callIds[i];
    } else {
      assert callIds[..i + 1] == callIds[..i] + [callIds[i]];
      NoDuplicatesMeansDistinct(callIds, i + 1, seen + {callIds[i]});
    }
  }

  lemma {:induction false} RepeatIsReported(callIds: seq<string>, i: nat, seen: set<string>)
    requires i <= |callIds| && NoDuplicatesFrom(callIds, i, seen).Err?
    ensures var error := NoDuplicatesFrom(callIds, i, seen).error; error.DuplicateToolOutput? && error.callId in callIds
    decreases |callIds| - i
  {
    if callIds[i] !in seen {
      RepeatIsReported(callIds, i + 1, seen + {callIds[i]});
    }
  }

  // ---------- valid histories ----------

  /** A tool message names a call of an earlier assistant message that no earlier tool message has answered. */
  predicate AnswersACall(messages: seq<Message>, i: nat)
    requires i < |messages|
  {
    messages[i].role == Tool ==>
      && IsCallId(messages[i].toolCallId)
      && (exists j :: 0 <= j < i && messages[i].toolCallId.value in AssistantIds(messages[j]))
      && (forall j :: 0 <= j < i && messages[j].role == Tool ==> messages[j].toolCallId != messages[i].toolCallId)
  }

  predicate ToolHistoryOk(messages: seq<Message>) {
    forall i :: 0 <= i < |messages| ==> AnswersACall(messages, i)
  }

  function ToSet(s: seq<string>): set<string> {
    set x | x in s
  }

  /** The verdict on what follows a history with these calls seen and answered. */
  function Check(messages: seq<Message>, seen: set<string>, answered: set<string>): Verdict {
    if messages == [] then Ok(())
    else
      var m := messages[0];
      if m.role != Tool then Check(messages[1..], seen + ToSet(AssistantIds(m)), answered)
      else if !IsCallId(m.toolCallId) then Err(MissingToolCallId)
      else if m.toolCallId.value !in seen then Err(NoPrecedingCall(m.toolCallId.value))
      else if m.toolCallId.value in answered then Err(DuplicateToolOutput(m.toolCallId.value))
      else Check(messages[1..], seen, answered + {m.toolCallId.value})
  }

  function Validate(messages: seq<Message>): Verdict {
    Check(messages, {}, {})
  }

  /** The calls seen and answered before message `n`. */
  ghost predicate Before(messages: seq<Message>, n: nat, seen: set<string>, answered: set<string>)
    requires n <= |messages|
  {
    && (forall c :: c in seen <==> exists j :: 0 <= j < n && c in AssistantIds(messages[j]))
    && (forall c :: c in answered <==>
          exists j :: 0 <= j < n && messages[j].role == Tool && messages[j].toolCallId == Some(c))
    && (forall j :: 0 <= j < n && messages[j].role == Tool ==> IsCallId(messages[j].toolCallId))
  }

  lemma BeforeNext(messages: seq<Message>, n: nat, seen: set<string>, answered: set<string>)
    requires n < |messages| && Before(messages, n, seen, answered)
    requires messages[n].role == Tool ==> IsCallId(messages[n].toolCallId)
    ensures var m := messages[n];
            Before(messages, n + 1, seen + ToSet(AssistantIds(m)),
                   if m.role == Tool then answered + {m.toolCallId.value} else answered)
  {
    hide AssistantIds;
    forall c
      ensures (exists j :: 0 <= j < n + 1 && c in AssistantIds(messages[j]))
         <==> (exists j :: 0 <= j < n && c in AssistantIds(messages[j])) || c in AssistantIds(messages[n])
    {
    }
    forall c
      ensures (exists j :: 0 <= j < n + 1 && messages[j].role == Tool && messages[j].toolCallId == Some(c))
         <==> || (exists j :: 0 <= j < n && messages[j].role == Tool && messages[j].toolCallId == Some(c))
              || (messages[n].role == Tool && messages[n].toolCallId == Some(c))
    {
    }
  }

  lemma AnswersACallBefore(messages: seq<Message>, n: nat, seen: set<string>, answered: set<string>)
    requires n < |messages| && Before(messages, n, seen, answered) && messages[n].role == Tool
    ensures AnswersACall(messages, n) <==>
            IsCallId(messages[n].toolCallId) && messages[n].toolCallId.value in seen
            && messages[n].toolCallId.value !in answered
  {
  }

  lemma {:induction false} CheckFrom(messages: seq<Message>, n: nat, seen: set<string>, answered: set<string>)
    requires n <= |messages| && Before(messages, n, seen, answered)
    requires forall i :: 0 <= i < n ==> AnswersACall(messages, i)
    ensures Check(messages[n..], seen, answered).Ok? <==> ToolHistoryOk(messages)
    decreases |messages| - n
  {
    hide Before;
    if n < |messages| {
      var m := messages[n];
      assert messages[n..][0] == m && messages[n..][1..] == messages[n + 1..];
      if m.role == Tool {
        AnswersACallBefore(messages, n, seen, answered);
        if AnswersACall(messages, n) {
          BeforeNext(messages, n, seen, answered);
          assert seen + ToSet(AssistantIds(m)) == seen;
          CheckFrom(messages, n + 1, seen, answered + {m.toolCallId.value});
        }
      } else {
        BeforeNext(messages, n, seen, answered);
        CheckFrom(messages, n + 1, seen + ToSet(AssistantIds(m)), answered);
      }
    }
  }

  /** The check accepts exactly the histories in which every tool message answers an earlier, unanswered call. */
  lemma ValidateMeansOk(messages: seq<Message>)
    ensures Validate(messages).Ok? <==> ToolHistoryOk(messages)
  {
    CheckFrom(messages, 0, {}, {});
    assert messages[0..] == messages;
  }

  /** What is wrong with the first message that answers no call. */
  ghost predicate IsErrorAt(messages: seq<Message>, i: nat, error: HistoryError)
    requires i < |messages|
  {
    && messages[i].role == Tool && !AnswersACall(messages, i)
    && match messages[i].toolCallId
       case None => error == MissingToolCallId
       case Some(id) =>
         if id == "" then error == MissingToolCallId
         else if forall j :: 0 <= j < i ==> id !in AssistantIds(messages[j]) then error == NoPrecedingCall(id)
         else error == DuplicateToolOutput(id)
  }

  lemma {:induction false} ErrorFrom(messages: seq<Message>, n: nat, seen: set<string>, answered: set<string>)
    requires n <= |messages| && Before(messages, n, seen, answered)
    requires forall i :: 0 <= i < n ==> AnswersACall(messages, i)
    requires Check(messages[n..], seen, answered).Err?
    ensures exists i :: 0 <= i < |messages| && (forall j :: 0 <= j < i ==> AnswersACall(messages, j))
                        && IsErrorAt(messages, i, Check(messages[n..], seen, answered).error)
    decreases |messages| - n
  {
    hide Before;
    if n < |messages| {
      var m := messages[n];
      assert messages[n..][0] == m && messages[n..][1..] == messages[n + 1..];
      if m.role == Tool {
        AnswersACallBefore(messages, n, seen, answered);
        if AnswersACall(messages, n) {
          BeforeNext(messages, n, seen, answered);
          assert seen + ToSet(AssistantIds(m)) == seen;
          ErrorFrom(messages, n + 1, seen, answered + {m.toolCallId.value});
        } else {
          SeenBefore(messages, n, seen, answered);
          assert IsErrorAt(messages, n, Check(messages[n..], seen, answered).error);
        }
      } else {
        BeforeNext(messages, n, seen, answered);
        ErrorFrom(messages, n + 1, seen + ToSet(AssistantIds(m)), answered);
      }
    }
  }

  lemma SeenBefore(messages: seq<Message>, n: nat, seen: set<string>, answered: set<string>)
    requires n < |messages| && Before(messages, n, seen, answered)
    ensures forall id :: id in seen <==> exists j :: 0 <= j < n && id in AssistantIds(messages[j])
  {
  }

  /** The error names the first tool message that answers no call, and what is wrong with it. */
  lemma ErrorTellsFirst(messages: seq<Message>)
    requires Validate(messages).Err?
    ensures exists i :: 0 <= i < |messages| && (forall j :: 0 <= j < i ==> AnswersACall(messages, j))
                        && IsErrorAt(messages, i, Validate(messages).error)
  {
    assert messages[0..] == messages;
    ErrorFrom(messages, 0, {}, {});
  }

  method ValidateChatToolHistory(messages: seq<Message>) returns (verdict: Verdict)
    ensures verdict == Validate(messages)
    ensures verdict.Ok? <==> ToolHistoryOk(messages)
  {
    ValidateMeansOk(messages);
    var seenAssistantCalls: set<string> := {};
    var consumedToolOutputs: set<string> := {};
    assert messages[0..] == messages;
    for i := 0 to |messages|
      invariant Check(messages[i..], seenAssistantCalls, consumedToolOutputs) == Validate(messages)
    {
      var m := messages[i];
      assert messages[i..][0] == m && messages[i..][1..] == messages[i + 1..];
      if m.role == Assistant {
        ghost var seen := seenAssistantCalls;
        for k := 0 to |m.toolCalls|
          invariant seenAssistantCalls == seen + ToSet(CallIds(m.toolCalls[..k]))
        {
          CallIdsSnoc(m.toolCalls, k);
          if IsCallId(m.toolCalls[k].id) {
            seenAssistantCalls := seenAssistantCalls + {m.toolCalls[k].id.value};
          }
        }
        assert m.toolCalls[..|m.toolCalls|] == m.toolCalls;
        continue;
      }
      if m.role == Tool {
        if !IsCallId(m.toolCallId) {
          return Err(MissingToolCallId);
        }
        var callId := m.toolCallId.value;
        if callId !in seenAssistantCalls {
          return Err(NoPrecedingCall(callId));
        }
        if callId in consumedToolOutputs {
          return Err(DuplicateToolOutput(callId));
        }
        consumedToolOutputs := consumedToolOutputs + {callId};
      } else {
        assert seenAssistantCalls + ToSet([]) == seenAssistantCalls;
      }
    }
    return Ok(());
  }

  lemma {:induction false} CallIdsSnoc(calls: seq<ToolCall>, k: nat)
    requires k < |calls|
    ensures CallIds(calls[..k + 1]) == CallIds(calls[..k]) + if IsCallId(calls[k].id) then [calls[k].id.value] else []
  {
    if k == 0 {
      assert calls[..1][1..] == [];
    } else {
      assert calls[..k + 1][1..] == calls[1..][..k] && calls[..k][1..] == calls[1..][..k - 1];
      CallIdsSnoc(calls[1..], k - 1);
    }
  }

  // ---------- role normalisation ----------

  const SEPARATOR := "\n\n"

  predicate IsSystem(m: Message) {
    m.role == System || m.role == Developer
  }

  function NormalRole(role: Role): Role {
    if role == User || role == Assistant || role == Tool then role else User
  }

  function SystemChunk(m: Message): seq<string> {
    if IsSystem(m) && AsText(m.content) != "" then [AsText(m.content)] else []
  }

  function SystemChunks(messages: seq<Message>): seq<string> {
    if messages == [] then [] else SystemChunk(messages[0]) + SystemChunks(messages[1..])
  }

  function Other(m: Message): seq<Message> {
    if IsSystem(m) then [] else [m.(role := NormalRole(m.role))]
  }

  /** The other messages, in their order. */
  function Others(messages: seq<Message>): seq<Message> {
    if messages == [] then [] else Other(messages[0]) + Others(messages[1..])
  }

  function SystemPrefix(chunks: seq<string>): seq<Message> {
    if chunks == [] then [] else [PlainMessage(System, Text(Payload.Join(chunks, SEPARATOR)))]
  }

  function NormalizeRoles(messages: seq<Message>): seq<Message> {
    SystemPrefix(SystemChunks(messages)) + Others(messages)
  }

  lemma PartsFrom(messages: seq<Message>, i: nat)
    requires i < |messages|
    ensures SystemChunks(messages[i..]) == SystemChunk(messages[i]) + SystemChunks(messages[i + 1..])
    ensures Others(messages[i..]) == Other(messages[i]) + Others(messages[i + 1..])
  {
    hide SystemChunk, Other;
    assert messages[i..][0] == messages[i] && messages[i..][1..] == messages[i + 1..];
  }

  method NormalizeUpstreamRoles(messages: seq<Message>) returns (out: seq<Message>)
    ensures out == NormalizeRoles(messages)
  {
    hide SystemChunks, Others, AsText;
    var systemChunks: seq<string> := [];
    var rest: seq<Message> := [];
    assert messages[0..] == messages;
    assert systemChunks + SystemChunks(messages) == SystemChunks(messages)
        && rest + Others(messages) == Others(messages);
    for i := 0 to |messages|
      invariant systemChunks + SystemChunks(messages[i..]) == SystemChunks(messages)
      invariant rest + Others(messages[i..]) == Others(messages)
    {
      PartsFrom(messages, i);
      ConcatAssoc(systemChunks, SystemChunk(messages[i]), SystemChunks(messages[i + 1..]));
      ConcatAssoc(rest, Other(messages[i]), Others(messages[i + 1..]));
      assert systemChunks + [] == systemChunks && rest + [] == rest;
      var item := messages[i];
      if item.role == Developer {
        item := item.(role := System);
      }
      if item.role == System {
        var text := AsText(item.content);
        if text != "" {
          systemChunks := systemChunks + [text];
        }
        continue;
      }
      if !(item.role == User || item.role == Assistant || item.role == Tool) {
        item := item.(role := User);
      }
      rest := rest + [item];
    }
    NothingLeft(messages);
    assert systemChunks + [] == systemChunks && rest + [] == rest;
    if systemChunks != [] {
      out := [PlainMessage(System, Text(Payload.Join(systemChunks, SEPARATOR)))] + rest;
    } else {
      out := rest;
      assert [] + rest == rest;
    }
  }

  lemma NothingLeft(messages: seq<Message>)
    ensures SystemChunks(messages[|messages|..]) == [] && Others(messages[|messages|..]) == []
  {
  }

  lemma ChunksAreNotEmpty(messages: seq<Message>)
    ensures forall c :: c in SystemChunks(messages) ==> c != ""
  {
  }

  lemma JoinNotEmpty(chunks: seq<string>)
    requires chunks != [] && forall c :: c in chunks ==> c != ""
    ensures Payload.Join(chunks, SEPARATOR) != ""
  {
    assert chunks[0] in chunks;
  }

  lemma OthersAreNormal(messages: seq<Message>)
    ensures forall m :: m in Others(messages) ==> !IsSystem(m) && NormalRole(m.role) == m.role
  {
  }

  lemma {:induction false} NormalOthers(messages: seq<Message>)
    requires forall m :: m in messages ==> !IsSystem(m) && NormalRole(m.role) == m.role
    ensures Others(messages) == messages && SystemChunks(messages) == []
  {
    if messages != [] {
      assert messages[0] in messages;
      NormalOthers(messages[1..]);
      assert messages == [messages[0]] + messages[1..];
    }
  }

  /** At most one system message is left, in front, and it is there exactly when some system text was given. */
  lemma OneSystemMessageFirst(messages: seq<Message>)
    ensures forall i :: 0 <= i < |NormalizeRoles(messages)| && IsSystem(NormalizeRoles(messages)[i]) ==> i == 0
    ensures (exists m :: m in NormalizeRoles(messages) && IsSystem(m)) <==>
            (exists m :: m in messages && IsSystem(m) && AsText(m.content) != "")
  {
    OthersAreNormal(messages);
    ChunksExist(messages);
    var out := NormalizeRoles(messages);
    if SystemChunks(messages) != [] {
      assert IsSystem(out[0]);
    }
  }

  lemma ChunksExist(messages: seq<Message>)
    ensures SystemChunks(messages) != [] <==> exists m :: m in messages && IsSystem(m) && AsText(m.content) != ""
  {
    if messages != [] {
      ChunksExist(messages[1..]);
      assert messages == [messages[0]] + messages[1..];
      assert forall m :: m in messages <==> m == messages[0] || m in messages[1..];
    }
  }

  /** Normalising again changes nothing. */
  lemma NormalizeIsIdempotent(messages: seq<Message>)
    ensures NormalizeRoles(NormalizeRoles(messages)) == NormalizeRoles(messages)
  {
    var chunks, rest := SystemChunks(messages), Others(messages);
    OthersAreNormal(messages);
    NormalOthers(rest);
    ChunksAreNotEmpty(messages);
    if chunks == [] {
      assert SystemPrefix(chunks) + rest == rest;
    } else {
      JoinNotEmpty(chunks);
      var out := SystemPrefix(chunks) + rest;
      assert out[1..] == rest;
      assert SystemChunks(out) == [Payload.Join(chunks, SEPARATOR)] + [];
      assert Others(out) == [] + rest;
    }
  }

  lemma {:induction false} OthersAppend(a: seq<Message>, b: seq<Message>)
    ensures Others(a + b) == Others(a) + Others(b)
  {
    if a == [] {
      assert a + b == b && [] + Others(b) == Others(b);
    } else {
      assert (a + b)[0] == a[0] && (a + b)[1..] == a[1..] + b;
      OthersAppend(a[1..], b);
      ConcatAssoc(Other(a[0]), Others(a[1..]), Others(b));
    }
  }

  lemma {:induction false} ChunksAppend(a: seq<Message>, b: seq<Message>)
    ensures SystemChunks(a + b) == SystemChunks(a) + SystemChunks(b)
  {
    hide SystemChunk;
    if a == [] {
      assert a + b == b && [] + SystemChunks(b) == SystemChunks(b);
    } else {
      assert (a + b)[0] == a[0] && (a + b)[1..] == a[1..] + b;
      ChunksAppend(a[1..], b);
      ConcatAssoc(SystemChunk(a[0]), SystemChunks(a[1..]), SystemChunks(b));
    }
  }

  lemma {:induction false} JoinSnoc(chunks: seq<string>, chunk: string)
    ensures Payload.Join(chunks + [chunk], SEPARATOR)
         == if chunks == [] then chunk else Payload.Join(chunks, SEPARATOR) + SEPARATOR + chunk
  {
    if chunks == [] {
      assert [] + [chunk] == [chunk];
    } else {
      assert (chunks + [chunk])[0] == chunks[0] && (chunks + [chunk])[1..] == chunks[1..] + [chunk];
      JoinSnoc(chunks[1..], chunk);
      if |chunks| > 1 {
        ConcatAssoc(chunks[0] + SEPARATOR, Payload.Join(chunks[1..], SEPARATOR), SEPARATOR + chunk);
        ConcatAssoc(Payload.Join(chunks[1..], SEPARATOR), SEPARATOR, chunk);
        ConcatAssoc(Payload.Join(chunks, SEPARATOR), SEPARATOR, chunk);
      }
    }
  }

  /** What one more message adds: system text goes to the end of the system message in front, after a blank line, and
      makes one if there is none; any other message goes to the end as it is, an unknown role apart. */
  lemma NormalizeGrows(messages: seq<Message>, m: Message)
    ensures NormalizeRoles([]) == []
    ensures var before, after := NormalizeRoles(messages), NormalizeRoles(messages + [m]);
            var text := match m.content
                        case Text(text) => text
                        case Parts(_, rendered) => rendered
                        case NoContent => "";
            if m.role != System && m.role != Developer then
              after == before + [if m.role.OtherRole? || m.role.NoRole? then m.(role := User) else m]
            else if text == "" then after == before
            else if before != [] && before[0].role == System then
              after == [before[0].(content := Text(AsText(before[0].content) + "\n\n" + text))] + before[1..]
            else after == [Message(System, Text(text), [], None, "")] + before
  {
    assert AsText(m.content)
        == match m.content case Text(text) => text case Parts(_, rendered) => rendered case NoContent => "";
    var chunks, rest := SystemChunks(messages), Others(messages);
    OthersAppend(messages, [m]);
    ChunksAppend(messages, [m]);
    OneMessage(m);
    assert rest + [] == rest && chunks + [] == chunks;
    OthersAreNormal(messages);
    if IsSystem(m) && AsText(m.content) != "" {
      JoinSnoc(chunks, AsText(m.content));
      assert SystemPrefix(chunks) + rest == NormalizeRoles(messages);
      if chunks == [] {
        assert [] + rest == rest;
      } else {
        PrefixText(chunks);
        assert (SystemPrefix(chunks) + rest)[1..] == rest;
      }
    } else {
      ConcatAssoc(SystemPrefix(chunks), rest, Other(m));
    }
  }

  lemma OneMessage(m: Message)
    ensures Others([m]) == Other(m) && SystemChunks([m]) == SystemChunk(m)
  {
    assert [m][1..] == [] && Other(m) + [] == Other(m) && SystemChunk(m) + [] == SystemChunk(m);
  }

  lemma PrefixText(chunks: seq<string>)
    requires chunks != []
    ensures |SystemPrefix(chunks)| == 1
    ensures AsText(SystemPrefix(chunks)[0].content) == Payload.Join(chunks, SEPARATOR)
  {
  }

  lemma {:induction false} OthersCheck(messages: seq<Message>, seen: set<string>, answered: set<string>)
    ensures Check(Others(messages), seen, answered) == Check(messages, seen, answered)
  {
    if messages != [] {
      var m, rest := messages[0], messages[1..];
      var seen' := seen + ToSet(AssistantIds(m));
      if IsSystem(m) {
        assert seen' == seen;
        assert Others(messages) == Others(rest);
        OthersCheck(rest, seen, answered);
      } else {
        var n := m.(role := NormalRole(m.role));
        assert Others(messages)[0] == n && Others(messages)[1..] == Others(rest);
        OthersCheck(rest, seen', answered);
        OthersCheck(rest, seen, answered);
        if m.role == Tool && IsCallId(m.toolCallId) {
          OthersCheck(rest, seen, answered + {m.toolCallId.value});
        }
      }
    }
  }

  /** Normalisation neither creates nor hides a tool-history error: the verdict, error included, is the same. */
  lemma NormalizeKeepsVerdict(messages: seq<Message>)
    ensures Validate(NormalizeRoles(messages)) == Validate(messages)
  {
    OthersCheck(messages, {}, {});
    var prefix := SystemPrefix(SystemChunks(messages));
    if prefix == [] {
      assert prefix + Others(messages) == Others(messages);
    } else {
      var out := prefix + Others(messages);
      assert out[1..] == Others(messages);
      assert {} + ToSet(AssistantIds(out[0])) == {};
    }
  }
}
