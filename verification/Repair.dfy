/** Putting tool outputs back into a history (src/conversion/responses_to_chat.rs). */
module Repair {
  import opened Wrappers
  import opened Chat
  import opened ToolHistory
  import opened Requests

  type Messages = Result<seq<Message>, HistoryError>

  // ---------- stored histories ----------

  /** Outputs appended to a stored history. */
  function RepairHistory(messages: seq<Message>, outputs: seq<Message>): Messages {
    match NoDuplicates(OutputIds(outputs))
    case Err(error) => Err(error)
    case Ok(_) =>
      if exists m :: m in outputs && !IsCallId(m.toolCallId) then Err(OutputRequiresCallId)
      else match Validate(messages + outputs)
        case Err(error) => Err(error)
        case Ok(_) => Ok(messages + outputs)
  }

  method RepairStoredHistory(messages: seq<Message>, toolOutputs: Option<seq<Message>>) returns (result: Messages)
    ensures toolOutputs.None? ==> result == Ok(messages)
    ensures toolOutputs.Some? ==> result == RepairHistory(messages, toolOutputs.value)
  {
    if toolOutputs.None? {
      return Ok(messages);
    }
    var outputs := toolOutputs.value;
    var duplicates := EnsureNoDuplicateCallOutputs(OutputIds(outputs));
    if duplicates.Err? {
      return Err(duplicates.error);
    }
    var repaired := messages;
    for i := 0 to |outputs|
      invariant repaired == messages + outputs[..i]
      invariant forall m :: m in outputs[..i] ==> IsCallId(m.toolCallId)
    {
      if !IsCallId(outputs[i].toolCallId) {
        assert outputs[i] in outputs;
        return Err(OutputRequiresCallId);
      }
      repaired := repaired + [outputs[i]];
    }
    assert outputs[..|outputs|] == outputs;
    var verdict := ValidateChatToolHistory(repaired);
    match verdict {
      case Err(error) => return Err(error);
      case Ok(_) => return Ok(repaired);
    }
  }

  /** Outputs are appended if their ids are distinct, none is missing and the longer history is valid; otherwise the
      first of these that fails is reported. */
  lemma StoredRepairIsExact(messages: seq<Message>, outputs: seq<Message>)
    ensures var ids, result := OutputIds(outputs), RepairHistory(messages, outputs);
            if !Distinct(ids) then result.Err? && result.error.DuplicateToolOutput? && result.error.callId in ids
            else if exists m :: m in outputs && (m.toolCallId == None || m.toolCallId == Some("")) then
              result == Err(OutputRequiresCallId)
            else if ToolHistoryOk(messages + outputs) then result == Ok(messages + outputs)
            else result.Err? && Validate(messages + outputs) == Err(result.error)
  {
    var ids := OutputIds(outputs);
    assert ids[..0] == [];
    NoDuplicatesMeansDistinct(ids, 0, {});
    if NoDuplicates(ids).Err? {
      RepeatIsReported(ids, 0, {});
    }
    ValidateMeansOk(messages + outputs);
  }

  // ---------- histories replayed by the client ----------

  /** The outputs with a given id, in order. */
  function Matching(outputs: seq<Message>, id: string): seq<Message> {
    if outputs == [] then []
    else (if outputs[0].toolCallId == Some(id) then [outputs[0]] else []) + Matching(outputs[1..], id)
  }

  function Inserted(ids: seq<string>, outputs: seq<Message>): seq<Message> {
    if ids == [] then [] else Matching(outputs, ids[0]) + Inserted(ids[1..], outputs)
  }

  /** Each message, followed by the outputs of its calls in call order. */
  function Weave(messages: seq<Message>, outputs: seq<Message>): seq<Message> {
    if messages == [] then []
    else [messages[0]] + Inserted(AssistantIds(messages[0]), outputs) + Weave(messages[1..], outputs)
  }

  function RepairStateless(messages: seq<Message>, outputs: seq<Message>): Messages {
    match NoDuplicates(OutputIds(outputs))
    case Err(error) => Err(error)
    case Ok(_) =>
      if exists id :: id in OutputIds(outputs) && id !in AllCallIds(messages) then Err(NoStatelessCall)
      else match Validate(Weave(messages, outputs))
        case Err(error) => Err(error)
        case Ok(_) => Ok(Weave(messages, outputs))
  }

  lemma {:induction false} AllCallIdsSnoc(messages: seq<Message>, m: Message)
    ensures AllCallIds(messages + [m]) == AllCallIds(messages) + AssistantIds(m)
  {
    hide AssistantIds;
    if messages == [] {
      assert [m][1..] == [] && AllCallIds([]) == [] && [] + [m] == [m];
      assert [] + AssistantIds(m) == AssistantIds(m) + [] == AssistantIds(m);
    } else {
      assert (messages + [m])[0] == messages[0] && (messages + [m])[1..] == messages[1..] + [m];
      AllCallIdsSnoc(messages[1..], m);
      ConcatAssoc(AssistantIds(messages[0]), AllCallIds(messages[1..]), AssistantIds(m));
    }
  }

  /** One message with the outputs of its calls. */
  function Woven(m: Message, outputs: seq<Message>): seq<Message> {
    [m] + Inserted(AssistantIds(m), outputs)
  }

  lemma {:induction false} WeaveAppendOne(messages: seq<Message>, m: Message, outputs: seq<Message>)
    ensures Weave(messages + [m], outputs) == Weave(messages, outputs) + Woven(m, outputs)
  {
    hide Inserted, AssistantIds;
    if messages == [] {
      assert [m][1..] == [] && Weave([], outputs) == [] && [] + [m] == [m];
      assert [] + Woven(m, outputs) == Woven(m, outputs) + [] == Woven(m, outputs);
    } else {
      var first, rest := messages[0], messages[1..];
      assert (messages + [m])[0] == first && (messages + [m])[1..] == rest + [m];
      WeaveAppendOne(rest, m, outputs);
      ConcatAssoc(Woven(first, outputs), Weave(rest, outputs), Woven(m, outputs));
    }
  }

  lemma WeaveSnoc(messages: seq<Message>, outputs: seq<Message>, k: nat)
    requires k < |messages|
    ensures Weave(messages[..k + 1], outputs)
         == Weave(messages[..k], outputs) + [messages[k]] + Inserted(AssistantIds(messages[k]), outputs)
    ensures AllCallIds(messages[..k + 1]) == AllCallIds(messages[..k]) + AssistantIds(messages[k])
  {
    hide Weave, AllCallIds, Inserted, AssistantIds;
    assert messages[..k + 1] == messages[..k] + [messages[k]];
    WeaveAppendOne(messages[..k], messages[k], outputs);
    AllCallIdsSnoc(messages[..k], messages[k]);
    ConcatAssoc(Weave(messages[..k], outputs), [messages[k]], Inserted(AssistantIds(messages[k]), outputs));
  }

  lemma {:induction false} InsertedSnoc(ids: seq<string>, outputs: seq<Message>, k: nat)
    requires k < |ids|
    ensures Inserted(ids[..k + 1], outputs) == Inserted(ids[..k], outputs) + Matching(outputs, ids[k])
  {
    if k == 0 {
      assert ids[..1][1..] == [];
    } else {
      assert ids[..k + 1][1..] == ids[1..][..k] && ids[..k][1..] == ids[1..][..k - 1];
      InsertedSnoc(ids[1..], outputs, k - 1);
      ConcatAssoc(Matching(outputs, ids[0]), Inserted(ids[1..][..k - 1], outputs), Matching(outputs, ids[k]));
    }
  }

  lemma {:induction false} MatchingSnoc(outputs: seq<Message>, id: string, k: nat)
    requires k < |outputs|
    ensures Matching(outputs[..k + 1], id)
         == Matching(outputs[..k], id) + if outputs[k].toolCallId == Some(id) then [outputs[k]] else []
  {
    if k == 0 {
      assert outputs[..1][1..] == [];
    } else {
      assert outputs[..k + 1][1..] == outputs[1..][..k] && outputs[..k][1..] == outputs[1..][..k - 1];
      MatchingSnoc(outputs[1..], id, k - 1);
    }
  }

  lemma MatchingExists(outputs: seq<Message>, id: string)
    ensures Matching(outputs, id) != [] <==> id in OutputIds(outputs)
  {
  }

  /** The outputs inserted for one call id. */
  method InsertOutputs(outputs: seq<Message>, callId: string) returns (inserted: seq<Message>)
    ensures inserted == Matching(outputs, callId)
  {
    inserted := [];
    for i := 0 to |outputs|
      invariant inserted == Matching(outputs[..i], callId)
    {
      MatchingSnoc(outputs, callId, i);
      if outputs[i].toolCallId == Some(callId) {
        inserted := inserted + [outputs[i]];
      }
    }
    assert outputs[..|outputs|] == outputs;
  }

  method RepairStatelessHistory(messages: seq<Message>, outputs: seq<Message>) returns (result: Messages)
    ensures result == RepairStateless(messages, outputs)
  {
    var callIds := OutputIds(outputs);
    var duplicates := EnsureNoDuplicateCallOutputs(callIds);
    if duplicates.Err? {
      return Err(duplicates.error);
    }
    var repaired: seq<Message> := [];
    var replayed: set<string> := {};
    for i := 0 to |messages|
      invariant repaired == Weave(messages[..i], outputs)
      invariant forall id :: id in replayed <==> id in AllCallIds(messages[..i]) && id in OutputIds(outputs)
    {
      WeaveSnoc(messages, outputs, i);
      var more, added := RepairOne(messages[i], outputs);
      ConcatAssoc(repaired, [messages[i]], more);
      repaired := repaired + ([messages[i]] + more);
      replayed := replayed + added;
    }
    assert messages[..|messages|] == messages;
    if exists id :: id in callIds && id !in replayed {
      return Err(NoStatelessCall);
    }
    var verdict := ValidateChatToolHistory(repaired);
    match verdict {
      case Err(error) => return Err(error);
      case Ok(_) => return Ok(repaired);
    }
  }

  /** The outputs inserted after one message, and their ids. */
  method RepairOne(message: Message, outputs: seq<Message>) returns (more: seq<Message>, replayed: set<string>)
    ensures more == Inserted(AssistantIds(message), outputs)
    ensures forall id :: id in replayed <==> id in AssistantIds(message) && id in OutputIds(outputs)
  {
    more, replayed := [], {};
    if message.role != Assistant {
      return;
    }
    var toolCalls := CallIds(message.toolCalls);
    for k := 0 to |toolCalls|
      invariant more == Inserted(toolCalls[..k], outputs)
      invariant forall id :: id in replayed <==> id in toolCalls[..k] && id in OutputIds(outputs)
    {
      InsertedSnoc(toolCalls, outputs, k);
      MatchingExists(outputs, toolCalls[k]);
      var inserted := InsertOutputs(outputs, toolCalls[k]);
      more := more + inserted;
      if inserted != [] {
        replayed := replayed + {toolCalls[k]};
      }
      assert toolCalls[..k + 1] == toolCalls[..k] + [toolCalls[k]];
    }
    assert toolCalls[..|toolCalls|] == toolCalls;
  }

  // ---------- stateless repair is exact ----------

  predicate AreOutputs(outputs: seq<Message>) {
    forall m :: m in outputs ==> m.role == Tool && IsCallId(m.toolCallId)
  }

  /** The messages that are not tool outputs, and those that are. */
  function Without(messages: seq<Message>): seq<Message> {
    if messages == [] then [] else (if messages[0].role == Tool then [] else [messages[0]]) + Without(messages[1..])
  }

  function ToolsOf(messages: seq<Message>): seq<Message> {
    if messages == [] then [] else (if messages[0].role == Tool then [messages[0]] else []) + ToolsOf(messages[1..])
  }

  lemma {:induction false} PartsAppend(a: seq<Message>, b: seq<Message>)
    ensures Without(a + b) == Without(a) + Without(b) && ToolsOf(a + b) == ToolsOf(a) + ToolsOf(b)
  {
    if a == [] {
      assert a + b == b && [] + Without(b) == Without(b) && [] + ToolsOf(b) == ToolsOf(b);
    } else {
      assert (a + b)[0] == a[0] && (a + b)[1..] == a[1..] + b;
      PartsAppend(a[1..], b);
      ConcatAssoc(if a[0].role == Tool then [] else [a[0]], Without(a[1..]), Without(b));
      ConcatAssoc(if a[0].role == Tool then [a[0]] else [], ToolsOf(a[1..]), ToolsOf(b));
    }
  }

  lemma {:induction false} AllTools(outputs: seq<Message>)
    requires forall m :: m in outputs ==> m.role == Tool
    ensures Without(outputs) == [] && ToolsOf(outputs) == outputs
  {
    if outputs != [] {
      assert outputs[0] in outputs;
      AllTools(outputs[1..]);
      assert outputs == [outputs[0]] + outputs[1..];
    }
  }

  lemma MatchingAreOutputs(outputs: seq<Message>, id: string)
    ensures forall m :: m in Matching(outputs, id) ==> m in outputs && m.toolCallId == Some(id)
  {
  }

  lemma {:induction false} InsertedAreOutputs(ids: seq<string>, outputs: seq<Message>)
    ensures forall m :: m in Inserted(ids, outputs) ==> m in outputs && m.toolCallId.Some? && m.toolCallId.value in ids
  {
    if ids != [] {
      MatchingAreOutputs(outputs, ids[0]);
      InsertedAreOutputs(ids[1..], outputs);
    }
  }

  lemma {:induction false} InsertedAppend(a: seq<string>, b: seq<string>, outputs: seq<Message>)
    ensures Inserted(a + b, outputs) == Inserted(a, outputs) + Inserted(b, outputs)
  {
    if a == [] {
      assert a + b == b;
    } else {
      assert (a + b)[1..] == a[1..] + b;
      InsertedAppend(a[1..], b, outputs);
      ConcatAssoc(Matching(outputs, a[0]), Inserted(a[1..], outputs), Inserted(b, outputs));
    }
  }

  /** Without the outputs the incoming messages are unchanged and in order; the outputs follow the calls. */
  lemma {:induction false} WeaveParts(messages: seq<Message>, outputs: seq<Message>)
    requires NoToolMessage(messages) && AreOutputs(outputs)
    ensures Without(Weave(messages, outputs)) == messages
    ensures ToolsOf(Weave(messages, outputs)) == Inserted(AllCallIds(messages), outputs)
  {
    if messages != [] {
      var m, ids, rest := messages[0], AssistantIds(messages[0]), messages[1..];
      assert m in messages;
      InsertedAreOutputs(ids, outputs);
      WeavePartsStep(m, Inserted(ids, outputs), Weave(rest, outputs));
      WeaveParts(rest, outputs);
      InsertedAppend(ids, AllCallIds(rest), outputs);
      assert messages == [m] + rest;
    }
  }

  lemma WeavePartsStep(m: Message, inserted: seq<Message>, tail: seq<Message>)
    requires m.role != Tool && forall n :: n in inserted ==> n.role == Tool
    ensures Without([m] + inserted + tail) == [m] + Without(tail)
    ensures ToolsOf([m] + inserted + tail) == inserted + ToolsOf(tail)
  {
    AllTools(inserted);
    PartsAppend([m] + inserted, tail);
    PartsAppend([m], inserted);
    assert Without([m]) == [m] && ToolsOf([m]) == [];
    assert [m] + [] == [m] && [] + inserted == inserted;
  }

  lemma {:induction false} MatchingCount(outputs: seq<Message>, id: string, m: Message)
    ensures multiset(Matching(outputs, id))[m] == if m.toolCallId == Some(id) then multiset(outputs)[m] else 0
  {
    if outputs != [] {
      assert outputs == [outputs[0]] + outputs[1..];
      MatchingCount(outputs[1..], id, m);
    }
  }

  lemma {:induction false} InsertedCount(ids: seq<string>, outputs: seq<Message>, m: Message)
    requires m.toolCallId.Some?
    ensures multiset(Inserted(ids, outputs))[m] == multiset(ids)[m.toolCallId.value] * multiset(outputs)[m]
  {
    if ids != [] {
      MatchingCount(outputs, ids[0], m);
      InsertedCount(ids[1..], outputs, m);
      CountCons(ids, m.toolCallId.value);
      CountTimes(multiset(ids[1..])[m.toolCallId.value], multiset(outputs)[m]);
      assert multiset(Inserted(ids, outputs))
          == multiset(Matching(outputs, ids[0])) + multiset(Inserted(ids[1..], outputs));
    }
  }

  lemma CountCons(ids: seq<string>, id: string)
    requires ids != []
    ensures multiset(ids)[id] == (if ids[0] == id then 1 else 0) + multiset(ids[1..])[id]
  {
    assert ids == [ids[0]] + ids[1..];
  }

  lemma CountTimes(n: nat, c: nat)
    ensures (1 + n) * c == c + n * c
  {
  }

  ghost function Common(a: seq<string>, b: seq<string>): set<string> {
    set id | id in a && id in b
  }

  lemma CommonCons(a: seq<string>, b: seq<string>)
    requires a != []
    ensures Common(a, b) == (if a[0] in b then {a[0]} else {}) + Common(a[1..], b)
  {
    assert a == [a[0]] + a[1..];
  }

  /** Exactly the given ids, each at most once more than already answered. */
  ghost predicate AtMostOnce(ids: seq<string>, wanted: seq<string>, answered: set<string>) {
    forall id :: id in wanted ==> multiset(ids)[id] <= if id in answered then 0 else 1
  }

  lemma {:induction false} DistinctOutputsMatchOnce(outputs: seq<Message>, id: string)
    requires AreOutputs(outputs) && Distinct(OutputIds(outputs))
    ensures id !in OutputIds(outputs) ==> Matching(outputs, id) == []
    ensures id in OutputIds(outputs) ==> |Matching(outputs, id)| == 1
  {
    MatchingExists(outputs, id);
    if outputs != [] {
      var m, rest := outputs[0], outputs[1..];
      assert m in outputs;
      assert OutputIds(outputs) == [m.toolCallId.value] + OutputIds(rest);
      DistinctCons(m.toolCallId.value, OutputIds(rest));
      DistinctOutputsMatchOnce(rest, id);
    }
  }

  /** Outputs inserted for calls already seen are accepted when none is answered twice. */
  lemma {:induction false} CheckInserted(ids: seq<string>, outputs: seq<Message>, tail: seq<Message>,
                                         seen: set<string>, answered: set<string>) returns (after: set<string>)
    requires AreOutputs(outputs) && Distinct(OutputIds(outputs)) && forall id :: id in ids ==> id in seen && id != ""
    ensures after == answered + Common(ids, OutputIds(outputs))
    ensures Check(Inserted(ids, outputs) + tail, seen, answered).Ok? <==>
            AtMostOnce(ids, OutputIds(outputs), answered) && Check(tail, seen, after).Ok?
  {
    if ids == [] {
      assert Inserted(ids, outputs) + tail == tail;
      after := answered;
    } else {
      hide Check, AtMostOnce, Common, AreOutputs, Distinct;
      CommonCons(ids, OutputIds(outputs));
      var id, more := ids[0], Inserted(ids[1..], outputs);
      assert forall later :: later in ids[1..] ==> later in ids;
      DistinctOutputsMatchOnce(outputs, id);
      ConcatAssoc(Matching(outputs, id), more, tail);
      if id in OutputIds(outputs) {
        after := CheckInserted(ids[1..], outputs, tail, seen, answered + {id});
        AtMostOnceCons(ids, OutputIds(outputs), answered);
        CheckOne(outputs, id, more + tail, seen, answered);
      } else {
        assert Matching(outputs, id) + (more + tail) == more + tail;
        after := CheckInserted(ids[1..], outputs, tail, seen, answered);
        AtMostOnceSkip(ids, OutputIds(outputs), answered);
      }
    }
  }

  lemma CheckOne(outputs: seq<Message>, id: string, rest: seq<Message>, seen: set<string>, answered: set<string>)
    requires AreOutputs(outputs) && |Matching(outputs, id)| == 1 && id in seen
    ensures Check(Matching(outputs, id) + rest, seen, answered).Ok? <==>
            id !in answered && Check(rest, seen, answered + {id}).Ok?
  {
    var m := Matching(outputs, id)[0];
    MatchingAreOutputs(outputs, id);
    assert m in Matching(outputs, id);
    assert (Matching(outputs, id) + rest)[0] == m && (Matching(outputs, id) + rest)[1..] == rest;
  }

  lemma AtMostOnceSkip(ids: seq<string>, wanted: seq<string>, answered: set<string>)
    requires ids != [] && ids[0] !in wanted
    ensures AtMostOnce(ids, wanted, answered) <==> AtMostOnce(ids[1..], wanted, answered)
  {
    forall id | id in wanted ensures multiset(ids)[id] == multiset(ids[1..])[id] {
      CountCons(ids, id);
    }
  }

  lemma AtMostOnceCons(ids: seq<string>, wanted: seq<string>, answered: set<string>)
    requires ids != [] && ids[0] in wanted
    ensures AtMostOnce(ids, wanted, answered) <==>
            ids[0] !in answered && AtMostOnce(ids[1..], wanted, answered + {ids[0]})
  {
    forall id ensures multiset(ids)[id] == (if ids[0] == id then 1 else 0) + multiset(ids[1..])[id] {
      CountCons(ids, id);
    }
  }

  lemma AtMostOnceAppend(a: seq<string>, b: seq<string>, wanted: seq<string>, answered: set<string>)
    ensures AtMostOnce(a + b, wanted, answered) <==>
            AtMostOnce(a, wanted, answered) && AtMostOnce(b, wanted, answered + Common(a, wanted))
  {
    assert multiset(a + b) == multiset(a) + multiset(b);
  }

  lemma CallIdsAreNotEmpty(calls: seq<ToolCall>)
    ensures forall id :: id in CallIds(calls) ==> id != ""
  {
  }

  lemma {:induction false} CheckWeave(messages: seq<Message>, outputs: seq<Message>, seen: set<string>,
                                      answered: set<string>)
    requires NoToolMessage(messages) && AreOutputs(outputs) && Distinct(OutputIds(outputs))
    ensures Check(Weave(messages, outputs), seen, answered).Ok? <==>
            AtMostOnce(AllCallIds(messages), OutputIds(outputs), answered)
  {
    if messages != [] {
      var m, ids, rest := messages[0], AssistantIds(messages[0]), messages[1..];
      assert m in messages;
      var seen' := seen + ToSet(ids);
      var tail := Weave(rest, outputs);
      ConcatAssoc([m], Inserted(ids, outputs), tail);
      assert ([m] + (Inserted(ids, outputs) + tail))[1..] == Inserted(ids, outputs) + tail;
      CallIdsAreNotEmpty(m.toolCalls);
      var after := CheckInserted(ids, outputs, tail, seen', answered);
      CheckWeave(rest, outputs, seen', after);
      AtMostOnceAppend(ids, AllCallIds(rest), OutputIds(outputs), answered);
    }
  }

  /** A tool message stands right after the message of its call, or after other answers to that message. */
  ghost predicate FollowsItsCall(messages: seq<Message>, i: nat)
    requires i < |messages|
  {
    messages[i].role == Tool ==>
      && messages[i].toolCallId.Some?
      && exists j :: 0 <= j < i && messages[i].toolCallId.value in AssistantIds(messages[j])
                     && forall k :: j < k < i ==> messages[k].role == Tool
  }

  lemma {:induction false} OutputsFollowTheirCalls(messages: seq<Message>, outputs: seq<Message>)
    requires NoToolMessage(messages) && AreOutputs(outputs)
    ensures forall i :: 0 <= i < |Weave(messages, outputs)| ==> FollowsItsCall(Weave(messages, outputs), i)
  {
    hide Inserted, FollowsItsCall;
    if messages != [] {
      var m, answers, tail := messages[0], Inserted(AssistantIds(messages[0]), outputs), Weave(messages[1..], outputs);
      var front, woven := [m] + answers, Weave(messages, outputs);
      assert m in messages && woven == front + tail;
      OutputsFollowTheirCalls(messages[1..], outputs);
      InsertedAreOutputs(AssistantIds(m), outputs);
      forall i | 0 <= i < |woven| ensures FollowsItsCall(woven, i) {
        if i < |front| {
          AnswerFollows(m, answers, tail, i);
        } else {
          LaterFollows(front, tail, i - |front|);
        }
      }
    }
  }

  lemma AnswerFollows(m: Message, answers: seq<Message>, tail: seq<Message>, i: nat)
    requires m.role != Tool && i <= |answers|
    requires forall x :: x in answers ==>
               x.role == Tool && x.toolCallId.Some? && x.toolCallId.value in AssistantIds(m)
    ensures FollowsItsCall([m] + answers + tail, i)
  {
    var woven := [m] + answers + tail;
    assert woven[0] == m;
    assert forall k :: 1 <= k <= |answers| ==> woven[k] == answers[k - 1];
    if i > 0 {
      assert answers[i - 1] in answers && woven[i].toolCallId.value in AssistantIds(woven[0]);
    }
  }

  lemma LaterFollows(front: seq<Message>, tail: seq<Message>, i: nat)
    requires i < |tail| && FollowsItsCall(tail, i)
    ensures FollowsItsCall(front + tail, |front| + i)
  {
    if tail[i].role == Tool {
      var j :| 0 <= j < i && tail[i].toolCallId.value in AssistantIds(tail[j])
               && forall k :: j < k < i ==> tail[k].role == Tool;
      assert (front + tail)[|front| + j] == tail[j];
    }
  }

  /** The ids that are wanted, in order. */
  function Among(ids: seq<string>, wanted: seq<string>): seq<string> {
    if ids == [] then [] else (if ids[0] in wanted then [ids[0]] else []) + Among(ids[1..], wanted)
  }

  lemma {:induction false} OutputIdsAppend(a: seq<Message>, b: seq<Message>)
    ensures OutputIds(a + b) == OutputIds(a) + OutputIds(b)
  {
    if a == [] {
      assert a + b == b && [] + OutputIds(b) == OutputIds(b);
    } else {
      assert (a + b)[0] == a[0] && (a + b)[1..] == a[1..] + b;
      OutputIdsAppend(a[1..], b);
      ConcatAssoc(if a[0].toolCallId.Some? then [a[0].toolCallId.value] else [], OutputIds(a[1..]), OutputIds(b));
    }
  }

  /** The answers to a message come in the order of its calls. */
  lemma {:induction false} AnswersInCallOrder(ids: seq<string>, outputs: seq<Message>)
    requires AreOutputs(outputs) && Distinct(OutputIds(outputs))
    ensures OutputIds(Inserted(ids, outputs)) == Among(ids, OutputIds(outputs))
  {
    if ids != [] {
      hide Matching, Distinct;
      var answers, more := Matching(outputs, ids[0]), Inserted(ids[1..], outputs);
      DistinctOutputsMatchOnce(outputs, ids[0]);
      MatchingAreOutputs(outputs, ids[0]);
      AnswersInCallOrder(ids[1..], outputs);
      OutputIdsAppend(answers, more);
      if ids[0] in OutputIds(outputs) {
        assert answers == [answers[0]] && answers[0] in answers && OutputIds(answers[1..]) == [];
      } else {
        assert OutputIds([]) == [] && answers == [];
      }
    }
  }

  /** Stateless repair succeeds exactly when the output ids are distinct and each names one and only one call; the
      result is then the incoming messages in order with every output inserted once, right after its call. */
  lemma StatelessRepairIsExact(messages: seq<Message>, outputs: seq<Message>)
    requires NoToolMessage(messages) && AreOutputs(outputs)
    ensures RepairStateless(messages, outputs).Ok? <==>
            (&& Distinct(OutputIds(outputs))
             && forall id :: id in OutputIds(outputs) ==> multiset(AllCallIds(messages))[id] == 1)
    ensures RepairStateless(messages, outputs).Ok? ==>
              var result := RepairStateless(messages, outputs).value;
              && result == Weave(messages, outputs)
              && Without(result) == messages
              && multiset(ToolsOf(result)) == multiset(outputs)
              && forall i :: 0 <= i < |result| ==> FollowsItsCall(result, i)
  {
    NoDuplicatesMeansDistinct(OutputIds(outputs), 0, {});
    if Distinct(OutputIds(outputs)) {
      CheckWeave(messages, outputs, {}, {});
      assert forall id :: id in AllCallIds(messages) <==> multiset(AllCallIds(messages))[id] >= 1;
      if RepairStateless(messages, outputs).Ok? {
        EachOutputOnce(messages, outputs);
        OutputsFollowTheirCalls(messages, outputs);
      }
    }
  }

  lemma EachOutputOnce(messages: seq<Message>, outputs: seq<Message>)
    requires NoToolMessage(messages) && AreOutputs(outputs)
    requires forall id :: id in OutputIds(outputs) ==> multiset(AllCallIds(messages))[id] == 1
    ensures Without(Weave(messages, outputs)) == messages
    ensures multiset(ToolsOf(Weave(messages, outputs))) == multiset(outputs)
  {
    WeaveParts(messages, outputs);
    var tools := Inserted(AllCallIds(messages), outputs);
    InsertedAreOutputs(AllCallIds(messages), outputs);
    forall m ensures multiset(tools)[m] == multiset(outputs)[m] {
      if m in outputs {
        OutputOnce(AllCallIds(messages), outputs, m);
      }
    }
    assert multiset(tools) == multiset(outputs);
  }

  lemma OutputOnce(ids: seq<string>, outputs: seq<Message>, m: Message)
    requires m in outputs && AreOutputs(outputs)
    requires forall id :: id in OutputIds(outputs) ==> multiset(ids)[id] == 1
    ensures multiset(Inserted(ids, outputs))[m] == multiset(outputs)[m]
  {
    hide Inserted;
    OutputIdIn(outputs, m);
    InsertedCount(ids, outputs, m);
  }

  lemma OutputIdIn(outputs: seq<Message>, m: Message)
    requires m in outputs && m.toolCallId.Some?
    ensures m.toolCallId.value in OutputIds(outputs)
  {
  }
}
