/** What the items of a request say, in order, told without the loop that reads them. */
module Reading {
  import opened Wrappers
  import opened Chat
  import opened ToolHistory
  import opened Requests

  // ---------- what one item says ----------

  /** A message, a call, an end of the calls before it, or nothing. */
  datatype Part = Says(message: Message) | Calls(call: ToolCall) | EndsCalls | SaysNothing

  /** A developer's message counts as system text, one in an unknown role as the user's. */
  function PartOf(item: InputItem, naming: Naming, index: nat): Part {
    match item
    case TextItem(text) => Says(Message(User, Text(text), [], None, ""))
    case MessageItem(role, content) =>
      Says(Message(match role
                   case System | User | Assistant | Tool => role
                   case Developer => System
                   case _ => User,
                   content, [], None, ""))
    case AgentMessage(Some(content)) => Says(Message(User, content, [], None, ""))
    case PartItem(Some(content)) => Says(Message(User, content, [], None, ""))
    case ReasoningItem(summary) =>
      if summary != "" then Says(Message(Assistant, Text(""), [], None, summary)) else SaysNothing
    case CallItem(kind, callId, name, namespace, arguments) =>
      if name == "" && kind != ToolSearchCall then SaysNothing
      else
        Calls(ToolCall(Some(callId.GetOr(naming.newId(index))),
                       match kind
                       case FunctionCall => naming.chatName(name, namespace)
                       case CustomToolCall => naming.chatName(name, None)
                       case ToolSearchCall => "tool_search",
                       arguments))
    case OutputItem(_, _, _) => EndsCalls
    case AgentMessage(None) => EndsCalls
    case _ => SaysNothing
  }

  // ---------- what the items say from one on ----------

  predicate Ends(part: Part) {
    part.Says? || part == EndsCalls
  }

  /** The first item from `k` on that says something else than calls. */
  function CallsEnd(items: seq<InputItem>, naming: Naming, k: nat): (n: nat)
    requires k <= |items|
    ensures k <= n <= |items| && forall j :: k <= j < n ==> !Ends(PartOf(items[j], naming, j))
    ensures n < |items| ==> Ends(PartOf(items[n], naming, n))
    decreases |items| - k
  {
    if k == |items| || Ends(PartOf(items[k], naming, k)) then k else CallsEnd(items, naming, k + 1)
  }

  /** The calls of the items from `k` up to `n`, in order. */
  function CallsIn(items: seq<InputItem>, naming: Naming, k: nat, n: nat): seq<ToolCall>
    requires k <= n <= |items|
    decreases n - k
  {
    if k == n then []
    else
      var part := PartOf(items[k], naming, k);
      (if part.Calls? then [part.call] else []) + CallsIn(items, naming, k + 1, n)
  }

  function CallsMessage(calls: seq<ToolCall>): Message {
    Message(Assistant, Text(""), calls, None, "")
  }

  /** One message for each item that says one. All calls up to the next item that says something else make one message,
      where the first of them stands. */
  function ReadFrom(items: seq<InputItem>, naming: Naming, k: nat): seq<Message>
    requires k <= |items|
    decreases |items| - k
  {
    if k == |items| then []
    else match PartOf(items[k], naming, k)
      case Says(message) => [message] + ReadFrom(items, naming, k + 1)
      case Calls(call) =>
        var n := CallsEnd(items, naming, k + 1);
        [CallsMessage([call] + CallsIn(items, naming, k + 1, n))] + ReadFrom(items, naming, n)
      case _ => ReadFrom(items, naming, k + 1)
  }

  /** One output for each output item. */
  function OutputsFrom(items: seq<InputItem>, k: nat): seq<Message>
    requires k <= |items|
    decreases |items| - k
  {
    if k == |items| then []
    else if items[k].OutputItem? then
      [Message(Tool, Text(items[k].output), [], Some(items[k].outputCallId.GetOr("")), "")] + OutputsFrom(items, k + 1)
    else OutputsFrom(items, k + 1)
  }

  // ---------- the loop reads this ----------

  /** What will have been read when the items from `n` on follow. */
  function Finished(e: Extraction, items: seq<InputItem>, naming: Naming, n: nat): seq<Message>
    requires n <= |items|
  {
    if e.pending == [] then e.messages + ReadFrom(items, naming, n)
    else
      var end := CallsEnd(items, naming, n);
      e.messages + ([CallsMessage(e.pending + CallsIn(items, naming, n, end))] + ReadFrom(items, naming, end))
  }

  /** What an item does to the messages read so far. */
  lemma ItemIsRead(e: Extraction, item: InputItem, naming: Naming, index: nat)
    requires ExtractItem(e, item, naming, index).Ok?
    ensures var f, flushed := ExtractItem(e, item, naming, index).value, FlushPending(e).messages;
            match PartOf(item, naming, index)
            case Says(message) => f.messages == flushed + [message] && f.pending == []
            case Calls(call) => f.messages == e.messages && f.pending == e.pending + [call]
            case EndsCalls => f.messages == flushed && f.pending == []
            case SaysNothing => f.messages == e.messages && f.pending == e.pending
  {
  }

  lemma OneMoreRead(e: Extraction, items: seq<InputItem>, naming: Naming, n: nat)
    requires n < |items| && ExtractItem(e, items[n], naming, n).Ok?
    ensures Finished(ExtractItem(e, items[n], naming, n).value, items, naming, n + 1) == Finished(e, items, naming, n)
  {
    hide ExtractItem, PartOf;
    ItemIsRead(e, items[n], naming, n);
    var f, rest := ExtractItem(e, items[n], naming, n).value, ReadFrom(items, naming, n + 1);
    match PartOf(items[n], naming, n)
    case Says(message) => ConcatAssoc(FlushPending(e).messages, [message], rest);
      ConcatAssoc(e.messages, [CallsMessage(e.pending)], [message] + rest);
      assert e.pending + [] == e.pending;
    case Calls(call) =>
      var end := CallsEnd(items, naming, n + 1);
      ConcatAssoc(e.pending, [call], CallsIn(items, naming, n + 1, end));
      assert [] + [call] == [call];
    case EndsCalls =>
      ConcatAssoc(e.messages, [CallsMessage(e.pending)], rest);
      assert e.pending + [] == e.pending;
    case SaysNothing =>
      assert forall calls: seq<ToolCall> :: [] + calls == calls;
  }

  lemma {:induction false} ItemsAreRead(start: Extraction, items: seq<InputItem>, n: nat, naming: Naming)
    requires n <= |items| && ExtractItems(start, items, n, naming).Ok?
    ensures var e := ExtractItems(start, items, n, naming).value;
            && Finished(e, items, naming, n) == Finished(start, items, naming, 0)
            && e.outputs + OutputsFrom(items, n) == start.outputs + OutputsFrom(items, 0)
    decreases n
  {
    hide ExtractItem, Finished;
    if n > 0 {
      var e := ExtractItems(start, items, n - 1, naming).value;
      ItemsAreRead(start, items, n - 1, naming);
      OneMoreRead(e, items, naming, n - 1);
      ItemOutputs(e, items[n - 1], naming, n - 1);
      ConcatAssoc(e.outputs, ExtractItems(start, items, n, naming).value.outputs[|e.outputs|..],
          OutputsFrom(items, n));
      assert [] + OutputsFrom(items, n) == OutputsFrom(items, n);
    }
  }

  // ---------- the theorem ----------

  predicate LacksId(item: InputItem) {
    item.OutputItem? && (item.outputCallId == None || item.outputCallId == Some(""))
  }

  lemma {:induction false} ErrorMeansNoId(start: Extraction, items: seq<InputItem>, n: nat, naming: Naming)
    requires n <= |items|
    ensures var result := ExtractItems(start, items, n, naming);
            if exists i :: 0 <= i < n && LacksId(items[i]) then result == Err(OutputRequiresCallId) else result.Ok?
    decreases n
  {
    if n > 0 {
      ErrorMeansNoId(start, items, n - 1, naming);
    }
  }

  function Instructions(body: Body): seq<Message> {
    if body.instructions.Some? then [Message(System, Text(body.instructions.value), [], None, "")] else []
  }

  /** The items of an input that is one: a text counts as a text item. */
  function Listed(input: Input): seq<InputItem> {
    match input
    case InputText(text) => [TextItem(text)]
    case InputObject(item) => [item]
    case InputArray(items) => items
    case _ => []
  }

  /** A request is read as its instructions followed by what its items say, and its outputs are those of its output
      items, in order. It is refused exactly if its input is no input, or some output item has no id. */
  lemma RequestIsRead(body: Body, naming: Naming)
    ensures var items := Listed(body.input);
            Extract(body, naming)
            == if body.input == InvalidInputValue then Err(InvalidInput)
               else if exists item :: item in items && LacksId(item) then Err(OutputRequiresCallId)
               else Ok(Request(Instructions(body) + ReadFrom(items, naming, 0), OutputsFrom(items, 0)))
  {
    hide ExtractItems;
    if InputItems(body.input).Some? {
      var items, start := InputItems(body.input).value, StartOf(body);
      ErrorMeansNoId(start, items, |items|, naming);
      if ExtractItems(start, items, |items|, naming).Ok? {
        var e := ExtractItems(start, items, |items|, naming).value;
        ItemsAreRead(start, items, |items|, naming);
        assert FlushPending(e).messages == Finished(e, items, naming, |items|) by {
          assert e.messages + [] == e.messages && e.pending + [] == e.pending;
        }
        assert e.outputs + [] == e.outputs && [] + OutputsFrom(items, 0) == OutputsFrom(items, 0);
      }
      TextIsAnItem(body.input, naming);
    }
  }

  lemma TextIsAnItem(input: Input, naming: Naming)
    requires InputItems(input).Some?
    ensures var items, listed := InputItems(input).value, Listed(input);
            && ReadFrom(items, naming, 0) == ReadFrom(listed, naming, 0)
            && OutputsFrom(items, 0) == OutputsFrom(listed, 0)
            && ((exists item :: item in items && LacksId(item)) <==> (exists item :: item in listed && LacksId(item)))
  {
    if input.InputText? {
      var text := input.text;
      var items, listed := [MessageItem(User, Text(text))], [TextItem(text)];
      assert ReadFrom(items, naming, 1) == [] == ReadFrom(listed, naming, 1);
      assert OutputsFrom(items, 1) == [] == OutputsFrom(listed, 1);
    }
  }

  // ---------- the ids of the calls ----------

  /** The ids given in an input are those of the calls that its items hold, at any depth. */
  lemma CollectedFromInput(input: Input, id: string)
    ensures id in CollectInput(input)
       <==> id != "" && exists item, inner :: item in Listed(input) && Holds(item, inner) && inner.CallItem?
                                              && inner.callId == Some(id)
  {
    match input
    case InputObject(item) => CollectedIds(item, id);
    case InputArray(items) =>
      var all := NestedArray(items);
      CollectedIds(all, id);
      if item, inner :| item in items && Holds(item, inner) && inner.CallItem? && inner.callId == Some(id) {
        var i :| 0 <= i < |items| && items[i] == item;
        assert Holds(all, inner);
      }
    case _ =>
  }
}
