/** Continuing a stored response: the messages sent upstream (`build_chat_payload`) and the choice of the response to
    continue (`previous_response` in src/server.rs). */
module Continuation {
  import opened Wrappers
  import opened Chat
  import opened ToolHistory
  import opened Requests
  import opened Repair
  import opened Items
  import opened StateStore

  // ---------- the messages sent upstream ----------

  /** Before roles are normalised. */
  ghost function Assemble(body: Body, previous: Option<seq<Message>>, request: Request, naming: Naming): Messages {
    if request.outputs == [] then
      Ok(previous.GetOr([]) + request.messages)
    else if previous.Some? then
      match TrimSuffix(body, naming, OutputIds(request.outputs))
      case Err(error) => Err(error)
      case Ok(trimmed) =>
        match RepairHistory(previous.value, request.outputs)
        case Err(error) => Err(error)
        case Ok(repaired) => Ok(repaired + trimmed.GetOr(request.messages))
    else match RepairStateless(request.messages, request.outputs)
      case Ok(repaired) => Ok(repaired)
      case Err(error) => Err(if error == NoStatelessCall then NoStoredResponse else error)
  }

  const EMPTY_USER_MESSAGE := PlainMessage(User, Text(""))

  ghost function BuildMessages(body: Body, previous: Option<seq<Message>>, naming: Naming): Messages {
    match Extract(body, naming)
    case Err(error) => Err(error)
    case Ok(request) =>
      match Assemble(body, previous, request, naming)
      case Err(error) => Err(error)
      case Ok(assembled) =>
        var messages := NormalizeRoles(if assembled == [] then [EMPTY_USER_MESSAGE] else assembled);
        match Validate(messages)
        case Err(error) => Err(error)
        case Ok(_) => Ok(messages)
  }

  method BuildChatMessages(body: Body, previous: Option<seq<Message>>, naming: Naming) returns (result: Messages)
    ensures result == BuildMessages(body, previous, naming)
    ensures result.Ok? ==> ToolHistoryOk(result.value)
  {
    var extracted := ExtractRequest(body, naming);
    if extracted.Err? {
      return Err(extracted.error);
    }
    var incoming, outputs := extracted.value.messages, extracted.value.outputs;
    var outputCallIds := OutputIds(outputs);
    var messages: seq<Message>;
    if outputs != [] {
      if previous.Some? {
        var trimmed := TrimSelfContainedContinuationSuffix(body, naming, outputCallIds);
        if trimmed.Err? {
          return Err(trimmed.error);
        }
        var repaired := RepairStoredHistory(previous.value, Some(outputs));
        if repaired.Err? {
          return Err(repaired.error);
        }
        messages := repaired.value + trimmed.value.GetOr(incoming);
      } else {
        var repaired := RepairStatelessHistory(incoming, outputs);
        if repaired.Err? {
          return Err(if repaired.error == NoStatelessCall then NoStoredResponse else repaired.error);
        }
        messages := repaired.value;
      }
    } else if previous.Some? {
      messages := previous.value + incoming;
    } else {
      assert [] + incoming == incoming;
      messages := incoming;
    }
    if messages == [] {
      messages := [EMPTY_USER_MESSAGE];
    }
    messages := NormalizeUpstreamRoles(messages);
    var verdict := ValidateChatToolHistory(messages);
    match verdict {
      case Err(error) => return Err(error);
      case Ok(_) => return Ok(messages);
    }
  }

  // ---------- the response to continue ----------

  function UnknownId(pending: seq<string>, ids: seq<string>): Option<string> {
    if ids == [] then None
    else if ids[0] !in pending then Some(ids[0])
    else UnknownId(pending, ids[1..])
  }

  /** `validate_requested_call_ids`: distinct and all pending. */
  function ValidateRequested(pending: seq<string>, ids: seq<string>): Verdict {
    match NoDuplicates(ids)
    case Err(error) => Err(error)
    case Ok(_) =>
      match UnknownId(pending, ids)
      case Some(id) => Err(UnknownToolCall(id))
      case None => Ok(())
  }

  lemma UnknownIdMeans(pending: seq<string>, ids: seq<string>)
    ensures UnknownId(pending, ids) == None <==> forall id :: id in ids ==> id in pending
  {
    if ids != [] {
      UnknownIdMeans(pending, ids[1..]);
      assert ids == [ids[0]] + ids[1..];
    }
  }

  ghost predicate IsFirstUnknown(pending: seq<string>, ids: seq<string>, j: nat)
    requires j < |ids|
  {
    ids[j] !in pending && forall i :: 0 <= i < j ==> ids[i] in pending
  }

  method ValidateRequestedCallIds(pending: seq<string>, requested: seq<string>) returns (verdict: Verdict)
    ensures verdict == ValidateRequested(pending, requested)
    ensures verdict.Ok? <==> Distinct(requested) && forall id :: id in requested ==> id in pending
    ensures Distinct(requested) ==>
              forall j :: 0 <= j < |requested| && IsFirstUnknown(pending, requested, j) ==>
                verdict == Err(UnknownToolCall(requested[j]))
  {
    UnknownIdMeans(pending, requested);
    var duplicates := EnsureNoDuplicateCallOutputs(requested);
    if duplicates.Err? {
      return duplicates;
    }
    for i := 0 to |requested|
      invariant UnknownId(pending, requested) == UnknownId(pending, requested[i..])
      invariant forall k :: 0 <= k < i ==> requested[k] in pending
    {
      assert requested[i..][1..] == requested[i + 1..];
      if requested[i] !in pending {
        return Err(UnknownToolCall(requested[i]));
      }
    }
    return Ok(());
  }

  ghost function PreviousResponse(rows: Rows, cutoff: int, body: Body, naming: Naming)
    : Result<Option<StoredResponse>, HistoryError>
  {
    match FunctionOutputCallIds(body, naming)
    case Err(error) => Err(error)
    case Ok(ids) =>
      match NoDuplicates(ids)
      case Err(error) => Err(error)
      case Ok(_) =>
        if !HasPreviousResponseId(body) && ids == [] then Ok(None)
        else
          var found := if HasPreviousResponseId(body) then Lookup(rows, cutoff, body.previousResponseId.value)
                       else FindUnique(rows, cutoff, ids);
          if found.None? then (if ids == [] then Ok(None) else Err(NoStoredResponse))
          else match ValidateRequested(found.value.pendingCallIds, ids)
            case Err(error) => Err(error)
            case Ok(_) => Ok(found)
  }

  method FindPreviousResponse(store: Store, now: int, body: Body, naming: Naming)
      returns (result: Result<Option<StoredResponse>, HistoryError>)
    ensures result == PreviousResponse(store.rows, now - store.ttl, body, naming)
  {
    var required := RequiredCallIds(body, naming);
    if required.Err? {
      return Err(required.error);
    }
    var ids := required.value;
    var duplicates := EnsureNoDuplicateCallOutputs(ids);
    if duplicates.Err? {
      return Err(duplicates.error);
    }
    if IsCallId(body.previousResponseId) {
      var previous := store.Get(body.previousResponseId.value, now);
      if previous.Some? {
        var verdict := ValidateRequestedCallIds(previous.value.pendingCallIds, ids);
        if verdict.Err? {
          return Err(verdict.error);
        }
      } else if ids != [] {
        return Err(NoStoredResponse);
      }
      return Ok(previous);
    }
    if ids == [] {
      return Ok(None);
    }
    var previous := store.FindByCallIds(ids, now);
    if previous.None? {
      return Err(NoStoredResponse);
    }
    var verdict := ValidateRequestedCallIds(previous.value.pendingCallIds, ids);
    if verdict.Err? {
      return Err(verdict.error);
    }
    return Ok(previous);
  }

  method RequiredCallIds(body: Body, naming: Naming) returns (result: Result<seq<string>, HistoryError>)
    ensures result == FunctionOutputCallIds(body, naming)
  {
    var extracted := ExtractRequest(body, naming);
    if extracted.Err? {
      return Err(extracted.error);
    }
    var ids := OutputIds(extracted.value.outputs);
    if ids == [] || HasPreviousResponseId(body) {
      return Ok(ids);
    }
    var contained := InputContainsAllToolCalls(body.input, ids);
    return Ok(if contained then [] else ids);
  }

  method InputContainsAllToolCalls(input: Input, ids: seq<string>) returns (contained: bool)
    ensures contained <==> forall id :: id in ids ==> id in CollectInput(input)
  {
    var callIds: set<string> := {};
    match input {
      case InputObject(item) => callIds := CollectToolCallIds(item, {});
      case InputArray(items) => callIds := CollectToolCallIds(NestedArray(items), {});
      case _ =>
    }
    assert callIds == CollectInput(input);
    contained := forall id :: id in ids ==> id in callIds;
  }

  // ---------- what a built history keeps ----------

  /** A history sent upstream is valid and already normalised. */
  lemma BuiltHistoryIsValid(body: Body, previous: Option<seq<Message>>, naming: Naming)
    requires BuildMessages(body, previous, naming).Ok?
    ensures var messages := BuildMessages(body, previous, naming).value;
            ToolHistoryOk(messages) && NormalizeRoles(messages) == messages
  {
    var messages := BuildMessages(body, previous, naming).value;
    ValidateMeansOk(messages);
    var request := Extract(body, naming).value;
    var assembled := Assemble(body, previous, request, naming).value;
    NormalizeIsIdempotent(if assembled == [] then [EMPTY_USER_MESSAGE] else assembled);
  }

  // ---------- continuing with tool outputs ----------

  /** The call ids that the tool messages answer. */
  function AnsweredIds(messages: seq<Message>): set<string> {
    if messages == [] then {}
    else
      (if messages[0].role == Tool && messages[0].toolCallId.Some? then {messages[0].toolCallId.value} else {})
      + AnsweredIds(messages[1..])
  }

  lemma {:induction false} CheckAppend(a: seq<Message>, b: seq<Message>, seen: set<string>, answered: set<string>)
    requires Check(a, seen, answered).Ok?
    ensures Check(a + b, seen, answered) == Check(b, seen + ToSet(AllCallIds(a)), answered + AnsweredIds(a))
  {
    if a == [] {
      assert a + b == b;
      assert seen + ToSet(AllCallIds(a)) == seen && answered + {} == answered;
    } else {
      var m, rest := a[0], a[1..];
      assert (a + b)[1..] == rest + b;
      assert ToSet(AllCallIds(a)) == ToSet(AssistantIds(m)) + ToSet(AllCallIds(rest));
      if m.role == Tool {
        CheckAppend(rest, b, seen, answered + {m.toolCallId.value});
        assert seen + ToSet(AllCallIds(a)) == seen + ToSet(AllCallIds(rest));
        assert answered + AnsweredIds(a) == answered + {m.toolCallId.value} + AnsweredIds(rest);
      } else {
        CheckAppend(rest, b, seen + ToSet(AssistantIds(m)), answered);
        assert seen + ToSet(AllCallIds(a)) == seen + ToSet(AssistantIds(m)) + ToSet(AllCallIds(rest));
        assert answered + AnsweredIds(a) == answered + AnsweredIds(rest);
      }
    }
  }

  lemma {:induction false} PlainIsAccepted(messages: seq<Message>, seen: set<string>, answered: set<string>)
    requires NoToolMessage(messages)
    ensures Check(messages, seen, answered).Ok?
  {
    if messages != [] {
      assert messages[0] in messages;
      PlainIsAccepted(messages[1..], seen + ToSet(AssistantIds(messages[0])), answered);
    }
  }

  lemma {:induction false} OutputsCheck(outputs: seq<Message>, seen: set<string>, answered: set<string>)
    requires AreOutputs(outputs)
    ensures Check(outputs, seen, answered).Ok? <==>
            (&& Distinct(OutputIds(outputs))
             && forall id :: id in OutputIds(outputs) ==> id in seen && id !in answered)
  {
    if outputs != [] {
      assert outputs[0] in outputs;
      var id, rest := outputs[0].toolCallId.value, OutputIds(outputs[1..]);
      OutputsCheck(outputs[1..], seen, answered + {id});
      assert OutputIds(outputs) == [id] + rest;
      DistinctCons(id, rest);
    }
  }

  /** Appending outputs to a valid history keeps it valid exactly when their ids are distinct, called and unanswered. */
  lemma OutputsAccepted(messages: seq<Message>, outputs: seq<Message>)
    requires Validate(messages).Ok? && AreOutputs(outputs)
    ensures Validate(messages + outputs).Ok? <==>
            (&& Distinct(OutputIds(outputs))
             && forall id :: id in OutputIds(outputs) ==> id in AllCallIds(messages) && id !in AnsweredIds(messages))
  {
    CheckAppend(messages, outputs, {}, {});
    OutputsCheck(outputs, {} + ToSet(AllCallIds(messages)), {} + AnsweredIds(messages));
  }

  /** More messages that are no tool outputs never spoil a valid history. */
  lemma PlainMessagesAccepted(messages: seq<Message>, extra: seq<Message>)
    requires Validate(messages).Ok? && NoToolMessage(extra)
    ensures Validate(messages + extra).Ok?
  {
    CheckAppend(messages, extra, {}, {});
    PlainIsAccepted(extra, {} + ToSet(AllCallIds(messages)), {} + AnsweredIds(messages));
  }
}
