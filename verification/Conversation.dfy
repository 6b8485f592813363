/** Conversations over any number of turns: what every stored record keeps, and when it can be continued. */
module Conversation {
  import opened Wrappers
  import opened Chat
  import opened ToolTable
  import opened DeclaredTools
  import opened ReplayedCalls
  import opened ToolHistory
  import opened Requests
  import opened Repair
  import opened Items
  import opened StateStore
  import opened ExtractionFacts
  import opened Continuation
  import A = Assembly
  import N = NonStream
  import D = Driver
  import R = Runs

  // ---------- sound records ----------

  function IdsOf(calls: seq<ToolCall>): (ids: seq<string>)
    ensures |ids| == |calls| && forall i :: 0 <= i < |ids| ==> ids[i] == calls[i].id.GetOr("")
  {
    seq(|calls|, i requires 0 <= i < |calls| => calls[i].id.GetOr(""))
  }

  /** The history is valid and ends with an assistant message, whose call ids, in order, are the pending ones. */
  ghost predicate IsSound(r: StoredResponse) {
    && r.messages != []
    && ToolHistoryOk(r.messages)
    && var last := r.messages[|r.messages| - 1];
       && last.role == Assistant
       && (forall i :: 0 <= i < |last.toolCalls| ==> last.toolCalls[i].id.Some?)
       && r.pendingCallIds == IdsOf(last.toolCalls)
  }

  ghost predicate AllSound(rows: Rows) {
    KeyedById(rows) && forall id :: id in rows ==> IsSound(rows[id])
  }

  lemma AnswerIsSound(r: StoredResponse, base: seq<Message>, answer: Message)
    requires Validate(base).Ok? && r.messages == base + [answer] && answer.role == Assistant
    requires forall i :: 0 <= i < |answer.toolCalls| ==> answer.toolCalls[i].id.Some?
    requires r.pendingCallIds == IdsOf(answer.toolCalls)
    ensures IsSound(r)
  {
    PlainMessagesAccepted(base, [answer]);
    ValidateMeansOk(r.messages);
  }

  lemma StreamRecordIsSound(cfg: A.Config, a: A.Asm)
    requires Validate(cfg.baseMessages).Ok?
    ensures IsSound(A.Record(cfg, a))
  {
    hide A.OutputKeys, A.Output, A.FinalArguments, A.FinalId;
    var calls := A.FinalCalls(cfg, a.calls, A.OutputKeys(a));
    assert A.FinalIds(a.calls, A.OutputKeys(a)) == IdsOf(calls);
    AnswerIsSound(A.Record(cfg, a), cfg.baseMessages, A.AssistantMessage(cfg, a));
  }

  lemma WholeRecordIsSound(cfg: A.Config, reply: N.Reply)
    requires Validate(cfg.baseMessages).Ok?
    ensures IsSound(N.WholeRecord(cfg, reply))
  {
    hide N.NamedPositions, N.WholeOutput, N.WholeArguments, N.WholeId, N.Texts;
    var positions := N.NamedPositions(reply.toolCalls, |reply.toolCalls|);
    var calls := N.WholeToolCalls(cfg, reply.toolCalls, positions);
    assert N.WholeIds(reply.toolCalls, positions) == IdsOf(calls);
    AnswerIsSound(N.WholeRecord(cfg, reply), cfg.baseMessages, N.WholeMessage(cfg, reply));
  }

  // ---------- turns ----------

  /** What comes of a request that is sent upstream; `NoAnswer` is a refused or failed non-streaming call. */
  datatype Answer =
    | StreamedAnswer(env: D.Env, upstream: D.Upstream)
    | WholeAnswer(reply: N.Reply, works: bool)
    | NoAnswer

  /** `searched` is the input as a JSON value, in which earlier searches have listed tools; `order` is the order in
      which the map of original names is walked. */
  datatype Turn = Turn(body: Body, tools: Option<seq<ToolDecl>>, searched: Option<Value>, order: seq<string>,
                       newId: nat -> string, codec: Codec, now: int, responseId: string, createdAt: int, answer: Answer)

  function TableOf(turn: Turn): Table {
    AddTools(EMPTY_TABLE, RequestTools(turn.tools, turn.searched))
  }

  function NamingFor(turn: Turn): Naming {
    NamingOf(TableOf(turn), turn.order, turn.newId)
  }

  function ConfigOf(turn: Turn, messages: seq<Message>): A.Config {
    A.Config(TableOf(turn), turn.codec, messages, turn.responseId, turn.createdAt,
        turn.body.previousResponseId.GetOr(""))
  }

  function StoredBy(cfg: A.Config, answer: Answer): seq<StoredResponse> {
    match answer
    case StreamedAnswer(env, upstream) => D.Outcome(cfg, env, upstream).asm.stored
    case WholeAnswer(reply, works) => if works then [N.WholeRecord(cfg, reply)] else []
    case NoAnswer => []
  }

  function PutAll(rows: Rows, records: seq<StoredResponse>): Rows
    decreases |records|
  {
    if records == [] then rows else PutAll(rows[records[0].responseId := records[0]], records[1..])
  }

  /** The messages sent upstream, when the request is accepted. */
  ghost function Accepted(rows: Rows, ttl: int, turn: Turn): Messages {
    match PreviousResponse(rows, turn.now - ttl, turn.body, NamingFor(turn))
    case Err(error) => Err(error)
    case Ok(previous) =>
      BuildMessages(turn.body, if previous.Some? then Some(previous.value.messages) else None, NamingFor(turn))
  }

  ghost function Step(rows: Rows, ttl: int, turn: Turn): Rows {
    match Accepted(rows, ttl, turn)
    case Err(_) => rows
    case Ok(messages) => PutAll(rows, StoredBy(ConfigOf(turn, messages), turn.answer))
  }

  ghost function RowsAfter(ttl: int, turns: seq<Turn>): Rows {
    if turns == [] then map[] else Step(RowsAfter(ttl, turns[..|turns| - 1]), ttl, turns[|turns| - 1])
  }

  /** One request, from its history to the stored record of its answer. */
  method Serve(store: Store, turn: Turn) returns (accepted: Messages)
    modifies store
    ensures accepted == Accepted(old(store.rows), store.ttl, turn)
    ensures store.rows == Step(old(store.rows), store.ttl, turn)
  {
    hide D.Outcome, N.WholeRecord, BuildMessages, PreviousResponse, AddTools;
    var context := new ToolContext();
    context.BuildWithInput(turn.tools, turn.searched);
    var tools := context.Model();
    var naming := NamingOf(tools, turn.order, turn.newId);
    assert naming == NamingFor(turn);
    var previous := FindPreviousResponse(store, turn.now, turn.body, naming);
    if previous.Err? {
      return Err(previous.error);
    }
    var history := if previous.value.Some? then Some(previous.value.value.messages) else None;
    accepted := BuildChatMessages(turn.body, history, naming);
    if accepted.Err? {
      return;
    }
    var cfg := A.Config(tools, turn.codec, accepted.value, turn.responseId, turn.createdAt,
                        turn.body.previousResponseId.GetOr(""));
    match turn.answer {
      case StreamedAnswer(env, upstream) =>
        var frames, stored := D.StreamResponse(cfg, env, upstream);
        for i := 0 to |stored|
          invariant PutAll(old(store.rows), stored) == PutAll(store.rows, stored[i..])
        {
          var ok := store.Put(stored[i], true);
          assert stored[i..][1..] == stored[i + 1..];
        }
        assert stored[|stored|..] == [];
        assert store.rows == PutAll(old(store.rows), StoredBy(cfg, turn.answer));
      case WholeAnswer(reply, works) =>
        var built := N.BuildResponse(cfg, reply, store, works);
        assert [N.WholeRecord(cfg, reply)][1..] == [];
        assert store.rows == PutAll(old(store.rows), StoredBy(cfg, turn.answer));
      case NoAnswer =>
        assert store.rows == PutAll(old(store.rows), StoredBy(cfg, turn.answer));
    }
  }

  // ---------- what a turn stores ----------

  /** A response was announced, streamed or whole. */
  ghost predicate IsAnswered(cfg: A.Config, answer: Answer) {
    match answer
    case StreamedAnswer(env, upstream) =>
      var log := D.Outcome(cfg, env, upstream).asm.log;
      log != [] && log[|log| - 1].payload.Finished?
    case WholeAnswer(_, works) => works
    case NoAnswer => false
  }

  /** The record of this turn: its ids and time, what it sent upstream, and one answer. */
  ghost predicate Remembers(r: StoredResponse, turn: Turn, sent: seq<Message>) {
    && r.responseId == turn.responseId && r.createdAt == turn.createdAt
    && r.previousResponseId == turn.body.previousResponseId.GetOr("")
    && |r.messages| == |sent| + 1 && r.messages[..|sent|] == sent && r.messages[|sent|].role == Assistant
  }

  /** The output that was announced. */
  ghost predicate HoldsAnnounced(r: StoredResponse, cfg: A.Config, answer: Answer) {
    answer.StreamedAnswer? ==>
      var log := D.Outcome(cfg, answer.env, answer.upstream).asm.log;
      log != [] && log[|log| - 1].payload.Finished? && log[|log| - 1].payload.output == r.output
  }

  predicate SameRow(rows: Rows, next: Rows, id: string) {
    (id in next <==> id in rows) && (id in rows ==> next[id] == rows[id])
  }

  lemma RecordRemembers(turn: Turn, sent: seq<Message>, a: A.Asm, reply: N.Reply)
    ensures Remembers(A.Record(ConfigOf(turn, sent), a), turn, sent)
    ensures Remembers(N.WholeRecord(ConfigOf(turn, sent), reply), turn, sent)
  {
    hide A.FinalCalls, A.OutputKeys, A.Output, A.FinalIds, N.WholeToolCalls, N.WholeIds, N.WholeOutput, N.Texts,
         N.NamedPositions, TableOf;
    var whole, streamed := N.WholeMessage(ConfigOf(turn, sent), reply), A.AssistantMessage(ConfigOf(turn, sent), a);
    assert (sent + [whole])[..|sent|] == sent && (sent + [streamed])[..|sent|] == sent;
  }

  lemma AnswersAreRecorded(turn: Turn, sent: seq<Message>)
    ensures var cfg := ConfigOf(turn, sent);
            var records := StoredBy(cfg, turn.answer);
            if IsAnswered(cfg, turn.answer) then
              |records| == 1 && Remembers(records[0], turn, sent) && HoldsAnnounced(records[0], cfg, turn.answer)
            else records == []
  {
    hide D.Outcome, N.WholeRecord, A.Record, ConfigOf, Remembers, R.Ended;
    var cfg := ConfigOf(turn, sent);
    match turn.answer {
      case StreamedAnswer(env, upstream) =>
        D.EveryRunEndsProperly(cfg, env, upstream);
        var b := D.Outcome(cfg, env, upstream).asm;
        assert b.log != [] by { EndedIsNotEmpty(b); }
        if b.stored != [] {
          var head :| b.stored == [A.Record(cfg, head)] && b.log[|b.log| - 1].payload.output == b.stored[0].output;
          RecordRemembers(turn, sent, head, N.Reply("", "", [], None));
        }
      case WholeAnswer(reply, _) => RecordRemembers(turn, sent, A.INITIAL, reply);
      case NoAnswer =>
    }
  }

  lemma EndedIsNotEmpty(b: A.Asm)
    requires R.Ended(b.log)
    ensures b.log != []
  {
  }

  lemma PutOne(rows: Rows, record: StoredResponse)
    ensures PutAll(rows, [record]) == rows[record.responseId := record]
  {
    assert [record][1..] == [];
  }

  /** A turn changes no row but its own. That one holds its record if a response was announced; otherwise, and if the
      request is refused, nothing changes at all. */
  lemma AnswersAreStored(rows: Rows, ttl: int, turn: Turn)
    ensures var next, accepted := Step(rows, ttl, turn), Accepted(rows, ttl, turn);
            && (forall id :: id != turn.responseId ==> SameRow(rows, next, id))
            && if accepted.Ok? && IsAnswered(ConfigOf(turn, accepted.value), turn.answer) then
                 && turn.responseId in next && Remembers(next[turn.responseId], turn, accepted.value)
                 && HoldsAnnounced(next[turn.responseId], ConfigOf(turn, accepted.value), turn.answer)
               else next == rows
  {
    hide Accepted, StoredBy, IsAnswered, HoldsAnnounced, ConfigOf;
    if Accepted(rows, ttl, turn).Ok? {
      var sent := Accepted(rows, ttl, turn).value;
      AnswersAreRecorded(turn, sent);
      var records := StoredBy(ConfigOf(turn, sent), turn.answer);
      if records != [] {
        PutOne(rows, records[0]);
        assert records == [records[0]];
      }
    }
  }

  /** Turns that answer under other ids leave a row alone. */
  lemma {:induction false} OthersLeaveRow(ttl: int, turns: seq<Turn>, after: seq<Turn>, id: string)
    requires id in RowsAfter(ttl, turns) && forall t :: t in after ==> t.responseId != id
    ensures var rows := RowsAfter(ttl, turns + after); id in rows && rows[id] == RowsAfter(ttl, turns)[id]
    decreases |after|
  {
    hide RowsAfter, Step;
    if after == [] {
      assert turns + after == turns;
    } else {
      var n := |after| - 1;
      OthersLeaveRow(ttl, turns, after[..n], id);
      assert turns + after == turns + after[..n] + [after[n]];
      assert after[n] in after;
      OneMoreTurn(ttl, turns + after[..n], after[n]);
      AnswersAreStored(RowsAfter(ttl, turns + after[..n]), ttl, after[n]);
      assert SameRow(RowsAfter(ttl, turns + after[..n]), RowsAfter(ttl, turns + after), id);
    }
  }

  lemma OneMoreTurn(ttl: int, turns: seq<Turn>, turn: Turn)
    ensures RowsAfter(ttl, turns + [turn]) == Step(RowsAfter(ttl, turns), ttl, turn)
  {
    hide Step;
    assert (turns + [turn])[..|turns + [turn]| - 1] == turns;
  }

  /** An announced response is found under its id, with its record, by every later request that comes in time, unless a
      later turn answered under the same id. */
  lemma AnswersAreFound(ttl: int, turns: seq<Turn>, turn: Turn, after: seq<Turn>, now: int)
    requires Accepted(RowsAfter(ttl, turns), ttl, turn).Ok?
    requires var sent := Accepted(RowsAfter(ttl, turns), ttl, turn).value;
             IsAnswered(ConfigOf(turn, sent), turn.answer)
    requires forall t :: t in after ==> t.responseId != turn.responseId
    ensures var found := Lookup(RowsAfter(ttl, turns + [turn] + after), now - ttl, turn.responseId);
            && (found.Some? <==> now <= turn.createdAt + ttl)
            && (found.Some? ==> Remembers(found.value, turn, Accepted(RowsAfter(ttl, turns), ttl, turn).value))
  {
    hide RowsAfter, Step, Accepted, IsAnswered, ConfigOf, HoldsAnnounced;
    OneMoreTurn(ttl, turns, turn);
    AnswersAreStored(RowsAfter(ttl, turns), ttl, turn);
    OthersLeaveRow(ttl, turns + [turn], after, turn.responseId);
  }

  /** The tools of a turn are those it declares and those its input has found, each under a chat name of its own. */
  lemma TurnKnowsItsTools(turn: Turn)
    ensures var found := if turn.searched.Some? then ListedBy(Inside(turn.searched.value)) else [];
            Lists(TableOf(turn), AllEntries(turn.tools.GetOr([]) + found))
  {
    hide Lists, AllEntries, AddTools;
    RequestToolsAre(turn.tools, turn.searched);
    ToolsAreListed(RequestTools(turn.tools, turn.searched));
  }

  // ---------- every reachable store is sound ----------

  lemma PutSound(rows: Rows, record: StoredResponse)
    requires AllSound(rows) && IsSound(record)
    ensures AllSound(PutAll(rows, [record]))
  {
    hide IsSound;
    PutOne(rows, record);
  }

  lemma StoredAreSound(cfg: A.Config, answer: Answer)
    requires Validate(cfg.baseMessages).Ok?
    ensures var records := StoredBy(cfg, answer); records == [] || (|records| == 1 && IsSound(records[0]))
  {
    hide D.Outcome, N.WholeRecord, IsSound, A.Record, R.Ended;
    match answer {
      case StreamedAnswer(env, upstream) =>
        D.EveryRunEndsProperly(cfg, env, upstream);
        var b := D.Outcome(cfg, env, upstream).asm;
        if b.stored != [] {
          var head :| b.stored == [A.Record(cfg, head)];
          StreamRecordIsSound(cfg, head);
        }
      case WholeAnswer(reply, _) => WholeRecordIsSound(cfg, reply);
      case NoAnswer =>
    }
  }

  lemma StepKeepsSound(rows: Rows, ttl: int, turn: Turn)
    requires AllSound(rows)
    ensures AllSound(Step(rows, ttl, turn))
  {
    hide BuildMessages, PreviousResponse, IsSound, StoredBy;
    if Accepted(rows, ttl, turn).Ok? {
      var previous := PreviousResponse(rows, turn.now - ttl, turn.body, NamingFor(turn)).value;
      BuiltHistoryIsValid(turn.body, if previous.Some? then Some(previous.value.messages) else None, NamingFor(turn));
      var messages := Accepted(rows, ttl, turn).value;
      ValidateMeansOk(messages);
      StoredAreSound(ConfigOf(turn, messages), turn.answer);
      var records := StoredBy(ConfigOf(turn, messages), turn.answer);
      if records != [] {
        PutSound(rows, records[0]);
        assert records == [records[0]];
      }
    }
  }

  /** After any turns, streamed or not, answered or failed, with a store that may refuse writes: every stored history is
      valid and ends with the assistant message whose call ids are the pending ones. */
  lemma {:induction false} EveryReachableStoreIsSound(ttl: int, turns: seq<Turn>)
    ensures AllSound(RowsAfter(ttl, turns))
    decreases |turns|
  {
    hide Step, IsSound;
    if turns != [] {
      EveryReachableStoreIsSound(ttl, turns[..|turns| - 1]);
      StepKeepsSound(RowsAfter(ttl, turns[..|turns| - 1]), ttl, turns[|turns| - 1]);
    }
  }

  // ---------- continuing ----------

  /** The outputs may be sent: distinct, all pending, none answered in the history already. */
  ghost predicate MayAnswer(r: StoredResponse, ids: seq<string>) {
    Distinct(ids) && forall id :: id in ids ==> id in r.pendingCallIds && id !in AnsweredIds(r.messages)
  }

  lemma {:induction false} CallIdsHold(calls: seq<ToolCall>, id: string)
    requires id in IdsOf(calls) && id != ""
    ensures id in CallIds(calls)
  {
    if calls[0].id.GetOr("") != id {
      var i :| 0 <= i < |calls| && IdsOf(calls)[i] == id;
      assert IdsOf(calls[1..])[i - 1] == id;
      CallIdsHold(calls[1..], id);
    }
  }

  lemma {:induction false} LastIdsAreIncluded(messages: seq<Message>, id: string)
    requires messages != [] && id in AssistantIds(messages[|messages| - 1])
    ensures id in AllCallIds(messages)
  {
    if |messages| > 1 {
      LastIdsAreIncluded(messages[1..], id);
    }
  }

  lemma PendingIsCalled(r: StoredResponse, id: string)
    requires IsSound(r) && id in r.pendingCallIds && id != ""
    ensures id in AllCallIds(r.messages)
  {
    var last := r.messages[|r.messages| - 1];
    CallIdsHold(last.toolCalls, id);
    LastIdsAreIncluded(r.messages, id);
  }

  /** Appending the outputs to a sound history. */
  lemma RepairAccepts(r: StoredResponse, outputs: seq<Message>)
    requires IsSound(r) && AreOutputs(outputs)
    requires forall id :: id in OutputIds(outputs) ==> id in r.pendingCallIds
    ensures RepairHistory(r.messages, outputs).Ok? <==> MayAnswer(r, OutputIds(outputs))
    ensures RepairHistory(r.messages, outputs).Ok? ==>
              RepairHistory(r.messages, outputs).value == r.messages + outputs && Validate(r.messages + outputs).Ok?
  {
    hide IsSound, Validate;
    var ids := OutputIds(outputs);
    assert ids[..0] == [];
    NoDuplicatesMeansDistinct(ids, 0, {});
    SoundIsValid(r);
    OutputsAccepted(r.messages, outputs);
    OutputIdsNotEmpty(outputs);
    forall id | id in ids ensures id in AllCallIds(r.messages) {
      PendingIsCalled(r, id);
    }
  }

  lemma SoundIsValid(r: StoredResponse)
    requires IsSound(r)
    ensures Validate(r.messages).Ok?
  {
    ValidateMeansOk(r.messages);
  }

  /** The outputs may be sent, and no message kept of the input is in the tool role. */
  ghost predicate MayContinue(r: StoredResponse, body: Body, ids: seq<string>) {
    InputItems(body.input).Some? && MayAnswer(r, ids) && NoToolItems(KeptItems(body, ids))
  }

  /** The messages for upstream exist exactly then. */
  lemma BuildAccepts(r: StoredResponse, body: Body, naming: Naming)
    requires IsSound(r) && Extract(body, naming).Ok?
    requires forall id :: id in OutputIds(Extract(body, naming).value.outputs) ==> id in r.pendingCallIds
    ensures BuildMessages(body, Some(r.messages), naming).Ok?
       <==> MayContinue(r, body, OutputIds(Extract(body, naming).value.outputs))
  {
    hide Extract, IsSound, Validate, NormalizeRoles, TrimSuffix, RepairHistory, AreOutputs, NoToolMessage, ToolsLackIds,
         NoToolItems, TrimCut;
    var request := Extract(body, naming).value;
    HasItems(body, naming);
    ExtractedParts(body, naming);
    TrimmedParts(body, naming);
    SoundIsValid(r);
    RepairAccepts(r, request.outputs);
    if request.outputs == [] {
      UnansweringAccepted(r.messages, request.messages);
      NormalizeKeepsVerdict(r.messages + request.messages);
      SoundNotEmpty(r, request.messages);
    } else if RepairHistory(r.messages, request.outputs).Ok? {
      OutputIdsNotEmpty(request.outputs);
      var trimmed := TrimSuffix(body, naming, OutputIds(request.outputs)).value.GetOr(request.messages);
      UnansweringAccepted(r.messages + request.outputs, trimmed);
      NormalizeKeepsVerdict(r.messages + request.outputs + trimmed);
      SoundNotEmpty(r, request.outputs);
    }
  }

  lemma HasItems(body: Body, naming: Naming)
    requires Extract(body, naming).Ok?
    ensures InputItems(body.input).Some?
  {
  }

  lemma SoundNotEmpty(r: StoredResponse, more: seq<Message>)
    requires IsSound(r)
    ensures r.messages + more != []
  {
  }

  /** The lookup meets this record: by the id the request names, or as the only response that holds the ids. */
  ghost predicate Finds(rows: Rows, cutoff: int, body: Body, naming: Naming, r: StoredResponse) {
    && Extract(body, naming).Ok?
    && var ids := OutputIds(Extract(body, naming).value.outputs);
       if HasPreviousResponseId(body) then Lookup(rows, cutoff, body.previousResponseId.value) == Some(r)
       else ids != [] && FunctionOutputCallIds(body, naming) == Ok(ids) && FindUnique(rows, cutoff, ids) == Some(r)
  }

  lemma PreviousIsFound(rows: Rows, cutoff: int, body: Body, naming: Naming, r: StoredResponse)
    requires Finds(rows, cutoff, body, naming, r)
    ensures var ids := OutputIds(Extract(body, naming).value.outputs);
            PreviousResponse(rows, cutoff, body, naming) == Ok(Some(r))
            <==> Distinct(ids) && forall id :: id in ids ==> id in r.pendingCallIds
  {
    hide Extract, FindUnique, Lookup;
    var ids := OutputIds(Extract(body, naming).value.outputs);
    assert ids[..0] == [];
    NoDuplicatesMeansDistinct(ids, 0, {});
    UnknownIdMeans(r.pendingCallIds, ids);
  }

  /** An empty previous id counts as none. */
  lemma EmptyIdIsNone(rows: Rows, cutoff: int, body: Body, naming: Naming)
    requires body.previousResponseId == Some("")
    ensures PreviousResponse(rows, cutoff, body, naming)
         == PreviousResponse(rows, cutoff, body.(previousResponseId := None), naming)
  {
    hide ExtractItems, FindUnique;
    assert Extract(body, naming) == Extract(body.(previousResponseId := None), naming);
  }

  /** A request for which no stored response is found starts from nothing if it needs none. Otherwise it is refused,
      and told that there is none unless its outputs repeat an id. */
  lemma UnknownResponses(rows: Rows, cutoff: int, body: Body, naming: Naming)
    requires Extract(body, naming).Ok?
    requires HasPreviousResponseId(body) ==> Lookup(rows, cutoff, body.previousResponseId.value) == None
    requires !HasPreviousResponseId(body) ==>
               FindUnique(rows, cutoff, FunctionOutputCallIds(body, naming).value) == None
    ensures var ids := FunctionOutputCallIds(body, naming).value;
            var found := PreviousResponse(rows, cutoff, body, naming);
            if ids == [] then found == Ok(None)
            else found.Err? && (Distinct(ids) ==> found.error == NoStoredResponse)
  {
    hide Extract, FindUnique, Lookup;
    var ids := FunctionOutputCallIds(body, naming).value;
    assert ids[..0] == [];
    NoDuplicatesMeansDistinct(ids, 0, {});
  }

  /** After any turns: a request that leads to a stored, unexpired response is continued from that response exactly
      when its outputs are distinct, all pending there, and not answered in its history, and no message kept of its
      input is in the tool role. */
  lemma ConversationsStayContinuable(ttl: int, turns: seq<Turn>, turn: Turn, r: StoredResponse)
    requires r.responseId in RowsAfter(ttl, turns) && RowsAfter(ttl, turns)[r.responseId] == r
    requires Finds(RowsAfter(ttl, turns), turn.now - ttl, turn.body, NamingFor(turn), r)
    ensures var rows := RowsAfter(ttl, turns);
            (&& PreviousResponse(rows, turn.now - ttl, turn.body, NamingFor(turn)) == Ok(Some(r))
             && Accepted(rows, ttl, turn).Ok?
             <==> MayContinue(r, turn.body, OutputIds(Extract(turn.body, NamingFor(turn)).value.outputs)))
  {
    hide RowsAfter, PreviousResponse, BuildMessages, Extract, IsSound;
    var rows := RowsAfter(ttl, turns);
    EveryReachableStoreIsSound(ttl, turns);
    PreviousIsFound(rows, turn.now - ttl, turn.body, NamingFor(turn), r);
    if forall id :: id in OutputIds(Extract(turn.body, NamingFor(turn)).value.outputs) ==> id in r.pendingCallIds {
      BuildAccepts(r, turn.body, NamingFor(turn));
    }
  }

  // ---------- histories only grow ----------

  lemma NormalizeKeepsOthers(messages: seq<Message>)
    ensures Others(NormalizeRoles(messages)) == Others(messages)
  {
    var prefix := SystemPrefix(SystemChunks(messages));
    OthersAppend(prefix, Others(messages));
    OthersAreNormal(messages);
    NormalOthers(Others(messages));
    assert Others(prefix) == [];
    assert [] + Others(messages) == Others(messages);
  }

  /** A continued history is sent whole: apart from the system text, which is merged into one message, the new messages
      follow the stored ones, of which none is lost, changed or moved. */
  lemma HistoriesOnlyGrow(body: Body, stored: seq<Message>, naming: Naming)
    requires BuildMessages(body, Some(stored), naming).Ok?
    ensures Others(stored) <= Others(BuildMessages(body, Some(stored), naming).value)
  {
    hide Extract, Validate, TrimSuffix, NormalizeRoles;
    var request := Extract(body, naming).value;
    var assembled := Assemble(body, Some(stored), request, naming).value;
    if request.outputs == [] {
      OthersAppend(stored, request.messages);
    } else {
      var trimmed := TrimSuffix(body, naming, OutputIds(request.outputs)).value.GetOr(request.messages);
      ConcatAssoc(stored, request.outputs, trimmed);
      OthersAppend(stored, request.outputs + trimmed);
    }
    NormalizeKeepsOthers(if assembled == [] then [EMPTY_USER_MESSAGE] else assembled);
  }
}
