/** Requests that replay the calls their outputs answer need no stored response. */
module SelfContained {
  import opened Wrappers
  import opened Chat
  import opened ToolHistory
  import opened Requests
  import opened Repair
  import opened StateStore
  import opened Continuation
  import opened ExtractionFacts

  /** Distinct outputs, each for exactly one replayed call, whose id is given in the input, and no tool-role message. */
  ghost predicate AnswersItself(body: Body, naming: Naming, ids: seq<string>)
    requires InputItems(body.input).Some?
  {
    var items := InputItems(body.input).value;
    && Distinct(ids) && NoToolItems(items)
    && (forall id :: id in ids ==> id in CollectInput(body.input))
    && forall id :: id in ids ==> multiset(ReplayedIds(items, |items|, naming))[id] == 1
  }

  /** A request with outputs that names no previous response is served without any stored response exactly when it
      answers itself, whatever the store holds. The messages sent are then its own, in order, with each output once,
      right after its call. */
  lemma SelfContainedRequests(rows: Rows, cutoff: int, body: Body, naming: Naming)
    requires Extract(body, naming).Ok?
    requires !HasPreviousResponseId(body) && Extract(body, naming).value.outputs != []
    ensures var request := Extract(body, naming).value;
            && (&& PreviousResponse(rows, cutoff, body, naming) == Ok(None)
                && BuildMessages(body, None, naming).Ok?
                <==> AnswersItself(body, naming, OutputIds(request.outputs)))
            && (BuildMessages(body, None, naming).Ok? ==>
                  BuildMessages(body, None, naming).value == NormalizeRoles(Weave(request.messages, request.outputs)))
  {
    hide Extract, FindUnique, ReplayedIds, CollectInput, NoToolItems, NoToolMessage, ToolsLackIds, RepairStateless,
         NormalizeRoles, Weave;
    var request := Extract(body, naming).value;
    var ids := OutputIds(request.outputs);
    ExtractedParts(body, naming);
    OutputIdsNotEmpty(request.outputs);
    ExtractedCalls(body, naming);
    if NoToolMessage(request.messages) {
      StatelessRepairIsExact(request.messages, request.outputs);
    } else if RepairStateless(request.messages, request.outputs).Ok? {
      UnansweringWeave(request.messages, request.outputs);
    }
    NothingRequired(rows, cutoff, body, naming, ids);
    if RepairStateless(request.messages, request.outputs).Ok? {
      StatelessIsValid(request.messages, request.outputs);
      NormalizeKeepsVerdict(Weave(request.messages, request.outputs));
    }
  }

  /** Without a stored response, distinct outputs of which one answers no replayed call are refused, and the client is
      told that there is no stored response for them. */
  lemma UnansweredOutputs(body: Body, naming: Naming, id: string)
    requires Extract(body, naming).Ok?
    requires var ids := OutputIds(Extract(body, naming).value.outputs);
             var items := InputItems(body.input).value;
             Distinct(ids) && id in ids && id !in ReplayedIds(items, |items|, naming)
    ensures BuildMessages(body, None, naming) == Err(NoStoredResponse)
  {
    hide Extract, ReplayedIds, Weave;
    var request := Extract(body, naming).value;
    ExtractedParts(body, naming);
    OutputIdsNotEmpty(request.outputs);
    ExtractedCalls(body, naming);
    var ids := OutputIds(request.outputs);
    assert ids[..0] == [];
    NoDuplicatesMeansDistinct(ids, 0, {});
  }

  /** The lookup is skipped exactly when all ids are given in the input. */
  lemma NothingRequired(rows: Rows, cutoff: int, body: Body, naming: Naming, ids: seq<string>)
    requires Extract(body, naming).Ok? && !HasPreviousResponseId(body)
    requires ids == OutputIds(Extract(body, naming).value.outputs) && ids != []
    ensures PreviousResponse(rows, cutoff, body, naming) == Ok(None)
       <==> forall id :: id in ids ==> id in CollectInput(body.input)
  {
    hide Extract, FindUnique, CollectInput;
    NoIdsNoDuplicates();
  }

  lemma NoIdsNoDuplicates()
    ensures NoDuplicates([]) == Ok(())
  {
  }

  lemma StatelessIsValid(messages: seq<Message>, outputs: seq<Message>)
    requires OutputIds(outputs) != [] && RepairStateless(messages, outputs).Ok?
    ensures Validate(RepairStateless(messages, outputs).value).Ok?
    ensures RepairStateless(messages, outputs).value != []
  {
    assert OutputIds(outputs)[0] in AllCallIds(messages);
  }
}
