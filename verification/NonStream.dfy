/** The response to a reply that arrives in one piece (src/conversion/chat_to_responses.rs). */
module NonStream {
  import opened Wrappers
  import opened Think
  import opened Chat
  import opened Items
  import opened SafeNames
  import opened StateStore
  import opened Assembly

  datatype WholeCall = WholeCall(id: Option<string>, name: string, arguments: Option<string>)

  /** The first choice: its message and finish reason. Missing texts are "", missing calls are []. */
  datatype Reply = Reply(reasoning: string, content: string, toolCalls: seq<WholeCall>, finishReason: Option<string>)

  /** Reasoning and answer: a leading think block counts only when there is no explicit reasoning. */
  function Texts(reply: Reply): (string, string) {
    if reply.reasoning != "" then (reply.reasoning, reply.content)
    else match SplitLeadingThinkBlock(reply.content)
      case Some(split) => split
      case None => ("", reply.content)
  }

  function WholeId(call: WholeCall, index: nat): string {
    call.id.GetOr("call_" + Decimal(index))
  }

  function WholeArguments(cfg: Config, call: WholeCall): string {
    cfg.codec.canon(call.arguments.GetOr("{}"))
  }

  function WholeItem(cfg: Config, call: WholeCall, index: nat, reasoning: string): Item {
    var callId := WholeId(call, index);
    ToolItem(cfg.tools, cfg.codec, DerivedId(callId), Completed, callId, call.name, WholeArguments(cfg, call),
        reasoning)
  }

  function WholeToolCall(cfg: Config, call: WholeCall, index: nat): ToolCall {
    ToolCall(Some(WholeId(call, index)), call.name, WholeArguments(cfg, call))
  }

  predicate Within(positions: seq<nat>, n: nat) {
    forall j :: 0 <= j < |positions| ==> positions[j] < n
  }

  /** The positions, below `n`, of the calls with a name. */
  function NamedPositions(calls: seq<WholeCall>, n: nat): (positions: seq<nat>)
    requires n <= |calls|
    ensures Within(positions, n) && forall i: nat :: i < n ==> (i in positions <==> calls[i].name != "")
    ensures forall i, j :: 0 <= i < j < |positions| ==> positions[i] < positions[j]
  {
    if n == 0 then []
    else NamedPositions(calls, n - 1) + if calls[n - 1].name != "" then [n - 1] else []
  }

  function WholeItems(cfg: Config, calls: seq<WholeCall>, positions: seq<nat>, reasoning: string): (items: seq<Item>)
    requires Within(positions, |calls|)
    ensures |items| == |positions|
  {
    seq(|positions|, i requires 0 <= i < |positions| => WholeItem(cfg, calls[positions[i]], positions[i], reasoning))
  }

  function WholeIds(calls: seq<WholeCall>, positions: seq<nat>): (ids: seq<string>)
    requires Within(positions, |calls|)
    ensures |ids| == |positions|
  {
    seq(|positions|, i requires 0 <= i < |positions| => WholeId(calls[positions[i]], positions[i]))
  }

  function WholeToolCalls(cfg: Config, calls: seq<WholeCall>, positions: seq<nat>): (replay: seq<ToolCall>)
    requires Within(positions, |calls|)
    ensures |replay| == |positions|
  {
    seq(|positions|, i requires 0 <= i < |positions| => WholeToolCall(cfg, calls[positions[i]], positions[i]))
  }

  function WholeOutput(cfg: Config, reply: Reply): seq<Item> {
    var (reasoning, content) := Texts(reply);
    var positions := NamedPositions(reply.toolCalls, |reply.toolCalls|);
    (if reasoning != "" then [ReasoningItem(ReasoningId, reasoning)] else [])
    + WholeItems(cfg, reply.toolCalls, positions, reasoning)
    + (if content != "" && positions == [] then [MessageItem(MessageId, Completed, content)] else [])
  }

  function WholeMessage(cfg: Config, reply: Reply): Message {
    var (reasoning, content) := Texts(reply);
    var positions := NamedPositions(reply.toolCalls, |reply.toolCalls|);
    Message(Assistant, Text(content), WholeToolCalls(cfg, reply.toolCalls, positions), None, reasoning)
  }

  function WholeRecord(cfg: Config, reply: Reply): StoredResponse {
    StoredResponse(cfg.responseId, cfg.baseMessages + [WholeMessage(cfg, reply)],
                   WholeIds(reply.toolCalls, NamedPositions(reply.toolCalls, |reply.toolCalls|)),
                   WholeOutput(cfg, reply), cfg.createdAt, cfg.previousResponseId)
  }

  datatype Built = Built(output: seq<Item>, incomplete: Option<IncompleteReason>)

  /** `works` is whether the store accepts the record; without it there is no response. */
  method BuildResponse(cfg: Config, reply: Reply, store: Store, works: bool) returns (built: Option<Built>)
    modifies store
    ensures var record := WholeRecord(cfg, reply);
            if works then
              && built.Some? && built.value.output == record.output
              && TellsReason(built.value.incomplete, reply.finishReason)
              && store.rows == old(store.rows)[record.responseId := record]
            else built == None && store.rows == old(store.rows)
  {
    hide SplitLeadingThinkBlock, WholeItems, WholeIds, WholeToolCalls, NamedPositions, TellsReason, CompletionStatus;
    var content, reasoning := reply.content, reply.reasoning;
    if reasoning == "" {
      var block := SplitLeadingThinkBlock(content);
      if block.Some? {
        reasoning, content := block.value.0, block.value.1;
      }
    }
    var output: seq<Item> := [];
    if reasoning != "" {
      output := [ReasoningItem(ReasoningId, reasoning)];
    }
    var items, pending, replayCalls := ConvertCalls(cfg, reply.toolCalls, reasoning);
    output := output + items;
    if content != "" && pending == [] {
      output := output + [MessageItem(MessageId, Completed, content)];
    } else {
      assert output + [] == output;
    }
    var assistant := Message(Assistant, Text(content), replayCalls, None, reasoning);
    var record := StoredResponse(cfg.responseId, cfg.baseMessages + [assistant], pending, output, cfg.createdAt,
                                 cfg.previousResponseId);
    var ok := store.Put(record, works);
    StatusTellsReason(reply.finishReason);
    return if ok then Some(Built(output, CompletionStatus(reply.finishReason))) else None;
  }

  method ConvertCalls(cfg: Config, calls: seq<WholeCall>, reasoning: string)
      returns (items: seq<Item>, pending: seq<string>, replayCalls: seq<ToolCall>)
    ensures var positions := NamedPositions(calls, |calls|);
            && items == WholeItems(cfg, calls, positions, reasoning)
            && pending == WholeIds(calls, positions)
            && replayCalls == WholeToolCalls(cfg, calls, positions)
  {
    hide ToolItem;
    items, pending, replayCalls := [], [], [];
    for index := 0 to |calls|
      invariant var positions := NamedPositions(calls, index);
                && items == WholeItems(cfg, calls, positions, reasoning)
                && pending == WholeIds(calls, positions)
                && replayCalls == WholeToolCalls(cfg, calls, positions)
    {
      var call := calls[index];
      ghost var before := NamedPositions(calls, index);
      if call.name == "" {
        assert before + [] == before;
        continue;
      }
      var callId := if call.id.Some? then call.id.value else "call_" + Decimal(index);
      var arguments := cfg.codec.canon(if call.arguments.Some? then call.arguments.value else "{}");
      replayCalls := replayCalls + [ToolCall(Some(callId), call.name, arguments)];
      pending := pending + [callId];
      items := items + [ToolItem(cfg.tools, cfg.codec, DerivedId(callId), Completed, callId, call.name, arguments,
          reasoning)];
      WholeSnoc(cfg, calls, before, index, reasoning);
    }
  }

  lemma WholeSnoc(cfg: Config, calls: seq<WholeCall>, positions: seq<nat>, k: nat, reasoning: string)
    requires k < |calls| && Within(positions, |calls|)
    ensures WholeItems(cfg, calls, positions + [k], reasoning)
         == WholeItems(cfg, calls, positions, reasoning) + [WholeItem(cfg, calls[k], k, reasoning)]
    ensures WholeIds(calls, positions + [k]) == WholeIds(calls, positions) + [WholeId(calls[k], k)]
    ensures WholeToolCalls(cfg, calls, positions + [k])
         == WholeToolCalls(cfg, calls, positions) + [WholeToolCall(cfg, calls[k], k)]
  {
    hide WholeItem, WholeId, WholeToolCall;
  }
}
