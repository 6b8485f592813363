/** Output items of a response and the stored record of a response. */
module Items {
  import opened Wrappers
  import opened Text
  import opened Chat
  import opened ToolTable

  /** Item ids are random; what matters is which item they belong to. */
  datatype ItemId = ReasoningId | MessageId | CallItemId(index: nat) | DerivedId(callId: string)

  datatype Status = InProgress | Completed

  /** `reasoningCopy` is the copy of the reasoning that only non-streaming tool items carry. */
  datatype Item =
    | ReasoningItem(id: ItemId, text: string)
    | MessageItem(id: ItemId, status: Status, text: string)
    | FunctionCallItem(id: ItemId, status: Status, callId: string, name: string, namespace: string, arguments: string,
                       reasoningCopy: string)
    | CustomCallItem(id: ItemId, status: Status, callId: string, name: string, input: string, reasoningCopy: string)
    | SearchCallItem(id: ItemId, status: Status, callId: string, arguments: string, reasoningCopy: string)

  /** The item without its random id and without the copied reasoning. */
  function Erase(item: Item): Item {
    match item
    case ReasoningItem(_, text) => ReasoningItem(ReasoningId, text)
    case MessageItem(_, status, text) => MessageItem(MessageId, status, text)
    case FunctionCallItem(_, status, callId, name, namespace, arguments, _) =>
      FunctionCallItem(CallItemId(0), status, callId, name, namespace, arguments, "")
    case CustomCallItem(_, status, callId, name, input, _) =>
      CustomCallItem(CallItemId(0), status, callId, name, input, "")
    case SearchCallItem(_, status, callId, arguments, _) =>
      SearchCallItem(CallItemId(0), status, callId, arguments, "")
  }

  function EraseAll(items: seq<Item>): (r: seq<Item>)
    ensures |r| == |items| && forall i :: 0 <= i < |r| ==> r[i] == Erase(items[i])
  {
    seq(|items|, i requires 0 <= i < |items| => Erase(items[i]))
  }

  lemma EraseAllAppend(a: seq<Item>, b: seq<Item>)
    ensures EraseAll(a + b) == EraseAll(a) + EraseAll(b)
  {
  }

  /** JSON functions on tool arguments: the canonical form of a text, the "input" field of an object, and the object
      itself. */
  datatype Codec = Codec(canon: string -> string, inputField: string -> string, objectOf: string -> string)

  function CustomInput(codec: Codec, arguments: string): string {
    if Trim(arguments) == "" then "" else codec.inputField(arguments)
  }

  function SearchArguments(codec: Codec, arguments: string): string {
    if Trim(arguments) == "" then "{}" else codec.objectOf(arguments)
  }

  /** The item of a tool call, by the kind of the tool it was declared as. */
  function ToolItem(tools: Table, codec: Codec, id: ItemId, status: Status, callId: string, chatName: string,
                    arguments: string, reasoningCopy: string): Item
  {
    match LookupSpec(tools, chatName)
    case Some(spec) =>
      if spec.kind == Custom then
        CustomCallItem(id, status, callId, spec.name, CustomInput(codec, arguments), reasoningCopy)
      else if spec.kind == ToolSearch then
        SearchCallItem(id, status, callId, SearchArguments(codec, arguments), reasoningCopy)
      else
        FunctionCallItem(id, status, callId, spec.name, spec.namespace.GetOr(""), arguments, reasoningCopy)
    case None =>
      FunctionCallItem(id, status, callId, RestoreName(tools, chatName), "", arguments, reasoningCopy)
  }

  datatype StoredResponse = StoredResponse(
    responseId: string,
    messages: seq<Message>,
    pendingCallIds: seq<string>,
    output: seq<Item>,
    createdAt: int,
    previousResponseId: string)

  datatype IncompleteReason = MaxOutputTokens | ContentFilter

  /** `None` for a completed response. */
  function CompletionStatus(finishReason: Option<string>): Option<IncompleteReason> {
    match finishReason
    case None => None
    case Some(reason) =>
      if reason == "length" || reason == "max_tokens" then Some(MaxOutputTokens)
      else if reason == "content_filter" || reason == "safety" then Some(ContentFilter)
      else None
  }

  /** A response is cut short exactly for these finish reasons, and completed for all others and for none. */
  ghost predicate TellsReason(incomplete: Option<IncompleteReason>, finishReason: Option<string>) {
    && (incomplete == Some(MaxOutputTokens) <==> finishReason == Some("length") || finishReason == Some("max_tokens"))
    && (incomplete == Some(ContentFilter) <==>
        finishReason == Some("content_filter") || finishReason == Some("safety"))
  }

  /** None of the reasons for which a response is cut short. */
  ghost predicate IsOrdinary(finishReason: Option<string>) {
    && finishReason != Some("length") && finishReason != Some("max_tokens")
    && finishReason != Some("content_filter") && finishReason != Some("safety")
  }

  lemma StatusTellsReason(finishReason: Option<string>)
    ensures TellsReason(CompletionStatus(finishReason), finishReason)
    ensures CompletionStatus(finishReason) == None <==> IsOrdinary(finishReason)
  {
  }
}
