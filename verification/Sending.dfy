/** The messages that a request sends upstream, told by what its items say. */
module Sending {
  import opened Wrappers
  import opened Chat
  import opened ToolHistory
  import opened Requests
  import opened Reading
  import opened Repair
  import opened Continuation
  import opened ExtractionFacts

  /** All that a request says. */
  function SaidBy(body: Body, naming: Naming): seq<Message> {
    Instructions(body) + ReadFrom(Listed(body.input), naming, 0)
  }

  /** What a continuation says after its outputs: when its items replay the calls of all its outputs, only what comes
      after the last of these outputs. */
  ghost function SaidAfter(body: Body, naming: Naming, ids: seq<string>): seq<Message> {
    if body.input.InputArray? && TrimCut(body.input.items, ToSet(ids)).Some? then
      ReadFrom(body.input.items[TrimCut(body.input.items, ToSet(ids)).value..], naming, 0)
    else SaidBy(body, naming)
  }

  /** The whole conversation: the stored one, the outputs, and what is said after them; without a stored one, each
      output right after its call. */
  ghost function Exchange(body: Body, previous: Option<seq<Message>>, naming: Naming): seq<Message> {
    var outputs := OutputsFrom(Listed(body.input), 0);
    match previous
    case None => if outputs == [] then SaidBy(body, naming) else Weave(SaidBy(body, naming), outputs)
    case Some(stored) =>
      stored + outputs + if outputs == [] then SaidBy(body, naming) else SaidAfter(body, naming, OutputIds(outputs))
  }

  lemma SuffixIsRead(body: Body, naming: Naming, ids: seq<string>)
    requires ids != [] && TrimSuffix(body, naming, ids).Ok? && Extract(body, naming).Ok?
    ensures TrimSuffix(body, naming, ids).value.GetOr(Extract(body, naming).value.messages)
         == SaidAfter(body, naming, ids)
  {
    hide Extract, ReadFrom, OutputsFrom, LacksId, IsMatched;
    RequestIsRead(body, naming);
    if body.input.InputArray? && TrimCut(body.input.items, ToSet(ids)).Some? {
      var kept := Body(None, InputArray(body.input.items[TrimCut(body.input.items, ToSet(ids)).value..]), None);
      RequestIsRead(kept, naming);
      assert [] + ReadFrom(Listed(kept.input), naming, 0) == ReadFrom(Listed(kept.input), naming, 0);
    }
  }

  /** Every accepted request sends exactly the conversation, its roles normalised; an empty one as an empty message of
      the user. */
  lemma WhatIsSent(body: Body, previous: Option<seq<Message>>, naming: Naming)
    requires BuildMessages(body, previous, naming).Ok?
    ensures var all := Exchange(body, previous, naming);
            BuildMessages(body, previous, naming).value
            == NormalizeRoles(if all == [] then [Message(User, Text(""), [], None, "")] else all)
  {
    hide Extract, ReadFrom, OutputsFrom, LacksId, TrimSuffix, SaidAfter, NormalizeRoles, Validate, Weave, TrimCut;
    RequestIsRead(body, naming);
    ExtractedParts(body, naming);
    var request := Extract(body, naming).value;
    OutputIdsNotEmpty(request.outputs);
    if request.outputs == [] {
      assert [] + request.messages == request.messages;
      assert previous.GetOr([]) + [] == previous.GetOr([]);
    } else if previous.Some? {
      SuffixIsRead(body, naming, OutputIds(request.outputs));
    }
  }

  /** Without a stored response and without outputs a request is accepted exactly if it can be read and says nothing in
      the tool role. */
  lemma PlainRequests(body: Body, naming: Naming)
    requires OutputsFrom(Listed(body.input), 0) == []
    ensures BuildMessages(body, None, naming).Ok?
       <==> Extract(body, naming).Ok? && forall m :: m in SaidBy(body, naming) ==> m.role != Tool
  {
    hide Extract, ReadFrom, OutputsFrom, LacksId, NormalizeRoles, Validate, ToolsLackIds;
    RequestIsRead(body, naming);
    if Extract(body, naming).Ok? {
      ExtractedParts(body, naming);
      var messages := Extract(body, naming).value.messages;
      var sent := if messages == [] then [EMPTY_USER_MESSAGE] else messages;
      assert [] + messages == messages && [] + sent == sent;
      NothingIsValid();
      NormalizeKeepsVerdict(sent);
      if messages == [] {
        PlainMessagesAccepted([], sent);
      } else {
        UnansweringAccepted([], messages);
      }
    }
  }

  lemma NothingIsValid()
    ensures Validate([]).Ok?
  {
  }
}
