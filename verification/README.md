# A verified model of the Responses/Chat conversion engine

The adapter answers OpenAI Responses requests with a Chat Completions upstream. This project models its conversion engine
in Dafny and proves what the engine is for: streaming gives the same response as not streaming, the event log lets a client
rebuild that response, the network's cutting of bytes is invisible, and conversations can be continued with tool outputs
over any number of turns.

The files follow the path of a request and of its answer.

- **Requests and histories.** `Requests` reads a Responses request into messages and tool outputs and trims replayed history.
  `Repair` puts tool outputs back into a history. `ToolHistory` judges tool histories and normalises roles. `StateStore` is
  the store of responses, `Continuation` joins them: which stored response a request continues, and what is sent upstream.
  `Reading` says what the items of a request mean without the loop that reads them, and `Sending` what a request therefore
  sends. `ExtractionFacts` and `SelfContained` follow requests that replay their own calls.
- **Tool names.** `SafeNames` allocates bounded, collision-free chat names, `ToolTable` keeps the maps that restore them,
  `DeclaredTools` follows a declared tool to the items of its calls, and `ReplayedCalls` follows calls that a request
  replays back to the tool they name.
- **The upstream's bytes.** `Utf8` (section 4 of RFC 3629), `Sse` (the block decoder) and `SsePayload` (fields of a block, and
  a printer to state round trips with).
- **The stream assembler.** `Think` separates a think block from the answer, piece by piece; `ThinkSplit` says what comes
  out without the splitter's state, and `ThinkKept` when that is what the whole text gives. `Assembly` describes the state
  change of every operation of the assembler, and `Assembler` is the assembler itself, a class that updates its fields and
  is proved against `Assembly` with the help of `AssemblyFacts`. `Steps` says once for each operation which events it emits
  and which parts of the state it leaves alone; the invariants of the log, the texts and the calls rest on it. `Replay` and
  `EventReplay` rebuild the output from the event log, `Views` relates the assembler to the think splitter, `StreamTexts`
  says which texts any stream ends with, `Fragments` and `FragmentLog` follow tool-call fragments, and `Runs` follows
  terminal events and the store.
- **Whole replies and whole runs.** `NonStream` is the conversion of a reply that arrives in one piece, `Refinement` proves
  the stream equal to it. `Driver` runs a streamed response, `Endings` says how it ends by what the upstream sent,
  `Truncation` what becomes of one cut short, `Delivery` what the client makes of the frames it receives, and `Records` what
  the stored record of an answer holds. `Wire` puts decoder, driver and assembler together, and `Conversation` runs any
  number of turns against one store.
- **Init.** `Undo` is the undo log of `apply_writes_with_rollback`.

Conventions. A `string` is a sequence of Unicode scalar values; the decoder works on bytes. Random item ids are symbolic and
compared up to `Erase`. JSON is not modelled: parsing and printing are functions that the theorems quantify over. A store that
refuses a write, a refused or broken upstream and exhausted capacity are inputs of the theorems. Sending an event downstream
cannot fail, as in the only caller (src/server.rs:348-354).

## What the proofs say beyond the source

Where a natural claim is not true of the code, the code is kept and the exact condition is proved.

- `safe_name` may need one attempt more than there are used names plus one: a 64-character name that already ends like one of
  its own numbered candidates can collide with it. `SafeNames.AttemptsWithinUsedPlusOne` says for which names this happens;
  two functions of one such name are an input that reaches it (`SafeNames.ExtraAttempt`, `DeclaredTools.SameNameTwice`).
- Reasoning is appended to its item, and without declared tools text to its item, even when that item was closed before: the
  reasoning item by a `tool_calls` array or by announced text, the text item by a call that starts.
  `EventReplay.EventReplayGivesTheResponse` says that a client can follow the log exactly when nothing comes late in this
  sense, a condition on the choices received (`IsLate`). With declared tools only reasoning can come late, after a `tool_calls`
  array that came after other reasoning; `EventReplay.MoreReasoningIsLate` is such a stream.
- Without declared tools, a text item that a call closed is missing from the output list. The same theorem says that the closed
  items are the output exactly when there is no answer text or no call with a visible name;
  `EventReplay.UndeclaredCallDropsClosedText` shows both failures for all plain texts followed by a call.
- Blank tool names count as calls in the non-streaming form and, while streaming, do not suppress the answer text.
  `Refinement.StreamRefinesWholeReply` gives the exact condition under which the outputs agree, and
  `Refinement.FormsMayDiffer` a reply for which they do not.
- A leading think block is not always read alike. The stream trims the chunk that completes the open tag as if the thought
  ended there, cuts separators only from the rest of the chunk that completes the close tag, and takes a block that is never
  closed for reasoning, which the whole reply takes for answer text. `ThinkSplit.ChunkedSplit` gives what comes out of any
  chunks, `ThinkKept.SplitAgrees` the exact condition under which that is what the whole text gives (`BlockIsKept`), and
  `StreamTexts.TextsAgree` the condition for streams with explicit reasoning and calls in between (`TextsKept`).
- Trimming can even join the halves of a close tag that the text does not contain: the chunks `<think>a</thi ` and `nk>b` end
  with the reasoning `a` and the answer `b`, and so for a cut anywhere in the tag (`ThinkKept.TrimmingMakesATag`).
- A named call with an empty id, or with missing arguments that the canonical form tells from `{}`, is stored differently by the
  two forms; `Refinement.StreamRefinesWholeReply` makes this part of its condition (`AllComparable`),
  and `Refinement.FormsMayDiffer` has a reply for each.
- A call that a request replays is sent upstream under a chat name that may belong to another tool or to none: a plain name
  is looked up untrimmed among the original names, which need not tell one tool, and a search call always goes out as
  `tool_search`. `ReplayedCalls.ReplayedCallsNameTheirTools` gives the exact condition on the declarations, and
  `ReplayedCalls.ReplayedCallsMayMissTheirTools` two that fail it.
- A byte that no continuation can make valid stays at the head of the decoder's carry-over, and no later block is ever
  produced (`Sse.MalformedByteBlocks`); `Utf8.IncompleteMeans` tells it from a character that is merely cut.
- A message in the tool role in the input never gets a call id, so a request that keeps one is refused
  (`Conversation.BuildAccepts`, `SelfContained.SelfContainedRequests`).
- Rolling back restores all files exactly when the failing step left its own path as it was or an earlier step had saved that
  path (`Undo.RestoredExactly`); a log message that cannot be written leaves the earlier changes in place,
  before a step (`Undo.LogFailureKeepsChanges`), before the rollback (`Undo.UnannouncedRollback`) and in the middle of it
  (`Undo.StoppedUndoKeeps`).
- Payload lines that start with whitespace lose it (`SsePayload.PrintThenRead`), because `sse_data_from_block` trims all leading
  whitespace where section 9.2.6 of the HTML Living Standard removes one space.

## Model

| member | source | states |
|---|---|---|
| Think.SplitIncompleteThinkCloseSuffix | src/conversion/text.rs:195-203 | the text is cut in two, and the second part is the longest suffix that is a proper beginning of the close tag |
| Think.LeadingTagIsStable | src/conversion/text.rs:172-184 | a text with a leading open tag keeps it whatever follows, and a text that is no possible beginning of one never gets it: why detection may stop |
| ThinkSplit.CloseTagSearch | src/conversion/stream_chat_to_responses.rs:435-457 | from the start of a think block, for every chunking of the text that the splitter then reads, which is what is left of the trimmed opening piece and all later text: until a close tag has come, emitted reasoning plus retained buffer is that text and the retained part is the longest partial tag; the block closes at the first occurrence of the tag, exactly the text before it is reasoning, and only the rest of the chunk that completes the tag loses its leading separators |
| ThinkSplit.ChunkedSplit | src/conversion/stream_chat_to_responses.rs:400-478 | from the first chunk to the flush, for every chunking of every text: without a leading open tag all is answer; otherwise the block of the chunks up to the open tag with the later text as answer, or else the search for the close tag in that piece's trimmed thought and the later text |
| ThinkSplit.ThinkSplittingLosesOnlyWhitespace | src/conversion/stream_chat_to_responses.rs:400-478 | for every chunking and the final flush: without a leading open tag the answer is the exact text; with one, the text without whitespace is open tag and reasoning, or open tag, reasoning, close tag and answer, in this order |
| ThinkKept.SplitAgrees | src/conversion/text.rs:154-193 | chunks read by the splitter and more text after them give the thought and answer of the whole text if and only if the block closes within the chunks, trimming the opening piece takes nothing else from its thought than trimming the thought, and no separator at the start of its answer first comes in a later chunk; or, without an open tag in the chunks, the whole text has no block |
| ThinkKept.ThoughtSurvives | src/conversion/stream_chat_to_responses.rs:422-428 | the search that starts with the trimmed opening piece finds a close tag whenever the text has one, and finds the trimmed thought before it if and only if the blanks around the end of the piece do not matter |
| ThinkKept.TrimmingMakesATag | src/conversion/stream_chat_to_responses.rs:422-428 | wherever a close tag is broken by a blank at the end of the opening chunk: the text has no think block, and the stream makes reasoning and answer of it |
| Utf8.Split | src/upstream.rs:157-169 | decoded text and carry-over together are the bytes, and no further character can be read off the carry-over |
| Utf8.SplitUnique | src/upstream.rs:157-169 | the split is the only one with these properties |
| Utf8.SplitAppend | src/upstream.rs:151-169 | prepending the carry-over to later bytes decodes as if all bytes had come at once |
| Utf8.IncompleteMeans | src/upstream.rs:157-169 | bytes of which no character can be read can be completed to one if and only if they are a cut character, which is told by looking at them |
| Sse.NextSseBlockDelimiter | src/upstream.rs:179-189 | the position found is that of a delimiter, and no delimiter of either kind starts earlier |
| Sse.DelimiterStable | src/upstream.rs:179-189 | the first delimiter of a buffer stays the first one when more text follows |
| Sse.CutUnique | src/upstream.rs:171-177 | blocks and a rest without delimiter are recovered from their concatenation |
| Sse.SseDecoder.ParseChatSseBytes | src/upstream.rs:146-177 | buffer, carry-over and blocks after one call, updated in place, are those of the specification Feed |
| Sse.ChunkingIsInvisible | src/upstream.rs:146-189 | feeding bytes in any pieces gives the same blocks, buffer and carry-over as feeding them at once |
| Sse.NoByteIsLost | src/upstream.rs:146-189 | blocks with their delimiters, buffer and carry-over encode to exactly the bytes received; the buffer holds no delimiter and every block none inside |
| Sse.MalformedByteBlocks | src/upstream.rs:151-177 | once a malformed byte heads the carry-over, whatever follows in any pieces is only added to the carry-over: no text and no block comes out of it |
| SsePayload.SseDataFromBlock | src/upstream.rs:203-215 | the loop over lines joins the trimmed data fields |
| SsePayload.SseEventFromBlock | src/upstream.rs:191-201 | the loop over lines returns the first event field that is not blank |
| SsePayload.LineIsRead | src/upstream.rs:191-215 | how any line changes what a block says: a line that starts with `data:` puts its trimmed rest in front of the other data, the first one that starts with `event:` and says something names the event, all others are ignored, and a line may end with LF or CRLF |
| SsePayload.PrintThenRead | src/upstream.rs:203-215 | reading a printed payload gives it back if and only if none of its lines starts with whitespace |
| SsePayload.PrintThenParse | src/upstream.rs:146-215 | payloads printed as events and sent in arbitrary pieces are decoded into exactly the payloads, with nothing left over |
| SafeNames.CandidatesDiffer | src/conversion/tool_context.rs:340-349 | numbered candidates of one base are pairwise different |
| SafeNames.AttemptsBound | src/conversion/tool_context.rs:340-349 | at most one attempt more than there are used names can fail, so the loop ends |
| SafeNames.SafeNameIsFreshAndLegal | src/conversion/tool_context.rs:326-352 | the allocated name is unused, not empty, over letters, digits, underscore and hyphen, and at most 64 characters long |
| SafeNames.SafeNameReadsAlike | src/conversion/tool_context.rs:326-352 | the allocated name is the original, cut at 64 characters and with an underscore for every character that is not allowed, or `tool` for nothing, if that is free; otherwise a beginning of it with the first free number from 2 on |
| SafeNames.AttemptsWithinUsedPlusOne | src/conversion/tool_context.rs:326-352 | for every set of used names the loop ends within that many attempts plus one, if and only if the base does not end like one of its own full-length candidates |
| SafeNames.ExtraAttempt | src/conversion/tool_context.rs:326-352 | a full-length name ending in `_2` is its own first candidate: allocated a second time it takes three attempts and gets the suffix `_3` |
| ToolTable.ToolContext.AllocateSafeName | src/conversion/tool_context.rs:326-352 | the loop ends, returns an unused legal name and adds just this name to the used ones |
| ToolTable.ToolContext.AddChatTool | src/conversion/tool_context.rs:282-301 | all three tables get the same new chat name and nothing else changes |
| ToolTable.ToolContext.AddFunctionTool | src/conversion/tool_context.rs:229-280 | the tables after a function or namespace child are those of the specification; blank names change nothing |
| ToolTable.ToolContext.AddCustomTool | src/conversion/tool_context.rs:151-192 | likewise for custom tools |
| ToolTable.ToolContext.AddToolSearch | src/conversion/tool_context.rs:194-227 | likewise for the search tool |
| ToolTable.ToolContext.AddNamespace | src/conversion/tool_context.rs:119-149 | likewise for all children of a namespace, in order |
| ToolTable.ToolContext.AddResponseTool | src/conversion/tool_context.rs:99-117 | each kind of declaration takes its branch |
| ToolTable.ToolContext.AddAll | src/conversion/tool_context.rs:42-47 | a list of declarations, in order |
| ToolTable.ToolContext.CollectToolSearchOutputTools | src/conversion/tool_context.rs:303-324 | the recursion adds the tools that tool_search_output objects list at any depth of the input, outer ones first |
| ToolTable.SearchedIsListed | src/conversion/tool_context.rs:303-324 | the tools found are those listed by the objects of the value, at any depth, outer objects first |
| ToolTable.ToolContext.BuildWithInput | src/conversion/tool_context.rs:38-53 | the declared tools of the request, then those its input has found |
| ToolTable.RequestToolsAre | src/conversion/tool_context.rs:38-53 | the tools of a request are those it declares and then those that its input lists |
| ToolTable.ToolContext.ChatNameForResponseFunction | src/conversion/tool_context.rs:80-97 | the name returned is one that the tables allow, whatever the order in which the map is searched |
| ToolTable.TableIsConsistent | src/conversion/tool_context.rs:99-301 | after any additions the chat tools are distinct, are exactly the keys of both name maps, every specification agrees with its maps, and every declared tool is found |
| ToolTable.NamespacedNameRoundTrips | src/conversion/tool_context.rs:76-97 | the chat name found for a declared namespace and name looks up a specification with this namespace and name |
| ToolTable.PlainNameRoundTrips | src/conversion/tool_context.rs:55-97 | a declared name without namespace, that of the search tool included, is restored from any chat name it may be sent under |
| DeclaredTools.ToolsAreListed | src/conversion/tool_context.rs:99-301 | after any declarations the chat tools are the declared tools, one for one and in order, each with its kind, name and namespace, under distinct chat names |
| DeclaredTools.CallsComeBackAsDeclared | src/conversion/stream_chat_to_responses.rs:669-696 | a call made under the chat name of a declared tool becomes an item of that tool's kind, name and namespace, even when names clashed, with the input or arguments read off the call's; under any other name it stays as it is |
| DeclaredTools.SameNameTwice | src/conversion/tool_context.rs:229-301 | two functions declared under such a name reach this case |
| ReplayedCalls.NamingFits | src/conversion/tool_context.rs:80-97 | the naming built from the tables gives names that they allow, whatever the order in which the map is walked |
| ReplayedCalls.ReplayedCallsNameTheirTools | src/conversion/responses_to_chat.rs:330-424 | for any declarations and any declared tool: a replayed call of it is sent under a chat name of that very tool, in whatever order the map is walked, if and only if it is a namespace child, or its plain name is trimmed and the original of no other tool, or it is the search tool and the first whose name reads like its own |
| ReplayedCalls.ReplayedCallsMayMissTheirTools | src/conversion/responses_to_chat.rs:330-424 | two families of declarations that fail this: a function declared as `tool_search` before the search tool, and a function whose name has blanks around it |
| ToolHistory.EnsureNoDuplicateCallOutputs | src/codex_chat_history.rs:29-39 | accepts exactly distinct ids, and otherwise reports the first repeated one |
| ToolHistory.ValidateMeansOk | src/codex_chat_history.rs:61-109 | the check accepts exactly the histories in which every tool message names a call of an earlier assistant message that no earlier tool message has answered |
| ToolHistory.ErrorTellsFirst | src/codex_chat_history.rs:61-109 | the error is about the first tool message that answers no call, and tells whether it has no id, names no earlier call, or repeats an answer |
| ToolHistory.ValidateChatToolHistory | src/codex_chat_history.rs:61-109 | the loop over both sets decides this, with the error of the first offending message |
| ToolHistory.NormalizeUpstreamRoles | src/conversion/responses_to_chat.rs:511-541 | the loop gives the system texts joined in front and the other messages in order |
| ToolHistory.NormalizeGrows | src/conversion/responses_to_chat.rs:511-541 | what one more message adds: system text goes after a blank line to the end of the one system message in front; any other message goes to the end as it is, only an unknown role becomes the user's |
| ToolHistory.OneSystemMessageFirst | src/conversion/responses_to_chat.rs:511-541 | at most one system message is left, it is the first, and it exists if and only if some system message had text |
| ToolHistory.NormalizeIsIdempotent | src/conversion/responses_to_chat.rs:511-541 | normalising twice is normalising once |
| ToolHistory.NormalizeKeepsVerdict | src/conversion/responses_to_chat.rs:511-541 | the tool-history verdict, error included, is the same before and after |
| Requests.ExtractRequest | src/conversion/responses_to_chat.rs:262-502 | the loop with its pending calls gives the messages and outputs of the specification, or its error |
| Reading.RequestIsRead | src/conversion/responses_to_chat.rs:262-502 | a request is refused exactly if its input is none or an output item has no id; otherwise it reads as its instructions and then, in order, one message with the role and content of each item that says one, and one message for all calls up to the next item that says something else, each with its id, name and arguments; its outputs are those of its output items, in order |
| Reading.CollectedFromInput | src/conversion/mod.rs:45-78 | an id is taken from the input if and only if some call item in it has it, at any depth |
| Requests.CollectToolCallIds | src/conversion/mod.rs:54-78 | exactly the ids of the call items at any nesting depth are added |
| Requests.CollectedIds | src/conversion/mod.rs:54-78 | an id is collected if and only if a call item of any kind has it, at any depth |
| Requests.ExtractedOutputs | src/conversion/responses_to_chat.rs:262-502 | every tool-output item has an id and yields an output under that id; without such items there are no outputs |
| ExtractionFacts.ExtractedCalls | src/conversion/responses_to_chat.rs:262-502 | the calls of the extracted messages are the named call items of the input, in order: none lost, doubled or moved |
| ExtractionFacts.ExtractedParts | src/conversion/responses_to_chat.rs:262-502 | every output has a call id; the result has tool-role messages exactly if the input has, and these never have an id |
| ExtractionFacts.UnansweringAccepted | src/codex_chat_history.rs:61-109 | messages whose tool-role ones lack ids keep a valid history valid if and only if none is in the tool role |
| Requests.FindCut | src/conversion/responses_to_chat.rs:195-247 | the loop finds the end of the last matched output, if every wanted output is matched |
| Requests.TrimSelfContainedContinuationSuffix | src/conversion/responses_to_chat.rs:182-255 | the result is the extraction of the items after that cut |
| Requests.TrimmingApplies | src/conversion/responses_to_chat.rs:195-247 | the input is trimmed if and only if it holds, for every wanted id, a call and after it an output; what is kept starts right after the last such output |
| Requests.TrimmingDropsNoOutput | src/conversion/responses_to_chat.rs:182-255 | when trimming applies, the rest holds no tool-output item, its extraction succeeds with no outputs, and every requested output lies before the cut with its call before it |
| Repair.RepairStoredHistory | src/conversion/responses_to_chat.rs:543-586 | stored history plus outputs, if ids are distinct and present and the whole is valid; otherwise the first error |
| Repair.StoredRepairIsExact | src/conversion/responses_to_chat.rs:543-586 | outputs are appended if their ids are distinct, none lacks its id and the longer history is valid; otherwise the first of these that fails is the error |
| Repair.RepairStatelessHistory | src/conversion/responses_to_chat.rs:588-665 | the loops compute the woven history of the specification |
| Repair.StatelessRepairIsExact | src/conversion/responses_to_chat.rs:588-665 | without tool messages coming in, it succeeds if and only if the output ids are distinct and each names exactly one call; the result is the incoming messages in order with every output once, right after its assistant message in call order |
| Repair.AnswersInCallOrder | src/conversion/responses_to_chat.rs:588-665 | the answers to a message stand in the order of its calls |
| StateStore.Store.constructor | src/state.rs:32-44 | an empty store with its time to live |
| StateStore.Store.Put | src/state.rs:60-69 | replaces the row of this response id and no other, or nothing if the database refuses |
| StateStore.Store.Get | src/state.rs:71-90 | the row, if it is not older than the time to live |
| StateStore.FindUnique | src/state.rs:92-183 | a response is found if and only if it is unexpired, holds all wanted ids as pending, and no other unexpired response holds any of them |
| StateStore.Store.FindByCallIds | src/state.rs:92-183 | the loop with early exits finds exactly that response, for every order of rows and of ids |
| Continuation.BuildChatMessages | src/conversion/responses_to_chat.rs:43-113 | the messages sent upstream, or the first error; what is sent is a valid tool history |
| Sending.WhatIsSent | src/conversion/responses_to_chat.rs:43-113 | every accepted request sends exactly the stored messages, the outputs and what its kept items say, in this order and with roles normalised; without a stored response all its items say, with each output right after its call; nothing at all is sent as an empty user message |
| Sending.PlainRequests | src/conversion/responses_to_chat.rs:105-113 | without a stored response and outputs a request is accepted if and only if it can be read and says nothing in the tool role |
| Continuation.ValidateRequestedCallIds | src/codex_chat_history.rs:41-59 | accepts exactly distinct ids that are all pending |
| Continuation.RequiredCallIds | src/conversion/mod.rs:21-43 | the ids that need a stored response: none when the input holds all their calls |
| Continuation.InputContainsAllToolCalls | src/conversion/mod.rs:45-52 | true exactly when every id is collected from the input |
| SelfContained.SelfContainedRequests | src/conversion/mod.rs:15-52 | a request with outputs that names no previous response is served without any stored response, whatever the store holds, if and only if its output ids are distinct, given in the input and each those of exactly one replayed call, and its input has no tool-role message; what is sent is its own messages with each output right after its call |
| SelfContained.UnansweredOutputs | src/conversion/responses_to_chat.rs:83-103 | distinct outputs of which one answers no replayed call are refused as having no stored response |
| Continuation.FindPreviousResponse | src/server.rs:575-613 | the response to continue, found by its id or by call ids, or the error |
| Conversation.UnknownResponses | src/server.rs:575-613 | a request that leads to no stored response starts from nothing if it needs none, and is refused otherwise |
| Conversation.EmptyIdIsNone | src/server.rs:575-613 | an empty previous id counts as none |
| Continuation.BuiltHistoryIsValid | src/conversion/responses_to_chat.rs:108-113 | a built history is valid and already normalised |
| Continuation.OutputsAccepted | src/codex_chat_history.rs:61-109 | outputs appended to a valid history keep it valid if and only if their ids are distinct, called there and not answered there |
| Continuation.PlainMessagesAccepted | src/codex_chat_history.rs:61-109 | messages that are no tool outputs never spoil a valid history |
| Assembler.StreamAssembler.constructor | src/conversion/stream_chat_to_responses.rs:79-117 | the initial state |
| Assembler.StreamAssembler.EmitEvent | src/conversion/stream_chat_to_responses.rs:743-748 | appends the event under the next sequence number |
| Assembler.StreamAssembler.AllocateOutputIndex | src/conversion/stream_chat_to_responses.rs:717-721 | indexes are given out one by one |
| Assembler.StreamAssembler.Start | src/conversion/stream_chat_to_responses.rs:119-148 | the two opening events |
| Assembler.StreamAssembler.PushReasoningDelta | src/conversion/stream_chat_to_responses.rs:480-489 | the reasoning item is opened once, then text and event |
| Assembler.StreamAssembler.FinishReasoningItem | src/conversion/stream_chat_to_responses.rs:491-505 | the closing events, once |
| Assembler.StreamAssembler.PushTextDelta | src/conversion/stream_chat_to_responses.rs:507-515 | buffered or announced as it comes |
| Assembler.StreamAssembler.EnsureTextStarted | src/conversion/stream_chat_to_responses.rs:517-528 | pending reasoning is closed before the text item opens |
| Assembler.StreamAssembler.FinishTextItem | src/conversion/stream_chat_to_responses.rs:530-548 | the closing events with the whole text, once |
| Assembler.StreamAssembler.DisableLeadingThinkDetection | src/conversion/stream_chat_to_responses.rs:392-398 | what is held back is released, then nothing is detected any more |
| Assembler.StreamAssembler.AcceptContentDelta | src/conversion/stream_chat_to_responses.rs:400-433 | the splitter's step and the pushes it asks for, in this order |
| Assembler.StreamAssembler.AcceptInThinkContent | src/conversion/stream_chat_to_responses.rs:435-457 | likewise inside a think block |
| Assembler.StreamAssembler.FlushPendingThinkBuffer | src/conversion/stream_chat_to_responses.rs:459-478 | likewise for the flush |
| Assembler.StreamAssembler.AcceptToolDelta | src/conversion/stream_chat_to_responses.rs:550-610 | late ids and names, argument fragments, and what is announced and passed on |
| Assembler.StreamAssembler.EnsureToolStarted | src/conversion/stream_chat_to_responses.rs:612-648 | a call is announced once it has id and name, after closing text and reasoning, and then sends what was held back |
| Assembler.StreamAssembler.EmitToolArguments | src/conversion/stream_chat_to_responses.rs:650-667 | an arguments delta for a running call that is not custom |
| Assembler.StreamAssembler.Accept | src/conversion/stream_chat_to_responses.rs:150-183 | the choices of a chunk, one after the other |
| Assembler.StreamAssembler.AcceptOne | src/conversion/stream_chat_to_responses.rs:157-181 | reasoning, content, calls and finish reason of one choice, in this order |
| Assembler.StreamAssembler.MarkTruncatedAsLength | src/conversion/stream_chat_to_responses.rs:185-189 | only a missing finish reason is set |
| Assembler.StreamAssembler.FinishToolCalls | src/conversion/stream_chat_to_responses.rs:224-288 | the loop over the ordered calls: events, output items, pending ids and replayed calls |
| Assembler.StreamAssembler.FinishToolCall | src/conversion/stream_chat_to_responses.rs:225-287 | one call of this loop, announced late if need be |
| Assembler.StreamAssembler.EmitToolDone | src/conversion/stream_chat_to_responses.rs:271-283 | its closing events, by the kind of its tool |
| Assembler.StreamAssembler.StartToolForFinalize | src/conversion/stream_chat_to_responses.rs:368-390 | a late announcement under a generated id |
| Assembler.StreamAssembler.Finalize | src/conversion/stream_chat_to_responses.rs:191-343 | head items, calls, record and terminal event, also when the store refuses |
| Assembler.StreamAssembler.Fail | src/conversion/stream_chat_to_responses.rs:345-366 | one failure event with a bounded message, unless already ended |
| Replay.PushReasoningFollows | src/conversion/stream_chat_to_responses.rs:480-489 | a reasoning delta keeps the client in step if and only if the reasoning item is still open |
| EventReplay.StreamFollows | src/conversion/stream_chat_to_responses.rs:150-183 | before the end of any stream, with or without declared tools, a client can follow the log exactly when nothing came late, and then holds what the assembler holds; it expects every item to be announced empty and in progress, a call with its id, and every event on a call to name that call |
| EventReplay.EventReplayGivesTheResponse | src/conversion/stream_chat_to_responses.rs:191-343 | for every stream and store: the client can follow to the end if and only if no choice brings reasoning, or without declared tools text, after the item was closed, which with declared tools means reasoning after a calls array that came after reasoning; with declared tools indexes were then opened 0, 1, 2, ..., changed only while open, all closed once as the item announced, and the closed items in order are the terminal response's output; without them so, in any order, if and only if there is no answer text or no visibly named call |
| EventReplay.UndeclaredCallDropsClosedText | src/conversion/stream_chat_to_responses.rs:612-625 | without declared tools, for every text that begins with neither whitespace nor `<`, followed by a call with an id and a visible name: the output leaves the text item out, and any more text cannot be followed |
| EventReplay.MoreReasoningIsLate | src/conversion/stream_chat_to_responses.rs:480-489 | with declared tools, any reasoning, an empty calls array and any more reasoning is a stream that no client can follow |
| Views.ViewChoices | src/conversion/stream_chat_to_responses.rs:150-183 | texts and finish reason of the assembler depend only on the text parts of the choices, whatever the calls do |
| Views.AssemblerSplitsThinkBlock | src/conversion/stream_chat_to_responses.rs:400-478 | the splitting theorem for the assembler's own reasoning and content |
| Fragments.StartedMeans | src/conversion/stream_chat_to_responses.rs:576-648 | a call is announced if and only if some fragment brought an id and some a name; its arguments are the fragments in order |
| Fragments.IdentityIsLatest | src/conversion/stream_chat_to_responses.rs:583-596 | a call has the last id and the last name that came until both had come |
| Fragments.CallsAreTheirFragments | src/conversion/stream_chat_to_responses.rs:550-667 | for any stream the calls are exactly the indexes that received fragments, and each is what its own fragments make of it |
| Fragments.OutputIgnoresInterleaving | src/conversion/stream_chat_to_responses.rs:220-309 | streams with the same fragments per index and the same texts store the same record |
| FragmentLog.FragmentsAreConserved | src/conversion/stream_chat_to_responses.rs:550-667 | the argument deltas sent for an index that became a running, not custom call are exactly the fragments received, once and in order, under the call's id and output index; for any other index none is sent; `finalize` adds none |
| FragmentLog.IdentityIsSettled | src/conversion/stream_chat_to_responses.rs:583-596 | from announcement to the end of the stream a call keeps id, name and output index |
| Runs.StreamUnfinished | src/conversion/stream_chat_to_responses.rs:119-183 | until the end events are numbered 1, 2, 3, ..., none is terminal, nothing is stored |
| Runs.FinalizeEnds | src/conversion/stream_chat_to_responses.rs:191-343 | with a working store exactly one terminal event, the last, announces the output of the one stored record: cut short by length exactly for the finish reasons `length` and `max_tokens`, filtered exactly for `content_filter` and `safety`, completed for all others and for none; with a failing store the run stays open and nothing is stored |
| Runs.FailEnds | src/conversion/stream_chat_to_responses.rs:345-366 | a failure is the one terminal event, nothing is stored, and its message is cut after 1000 characters |
| NonStream.ConvertCalls | src/conversion/chat_to_responses.rs:56-141 | the loop over the calls: items, pending ids and replayed calls of the named ones, in order |
| NonStream.BuildResponse | src/conversion/chat_to_responses.rs:13-189 | output, status and stored record of a whole reply, the status by the same finish reasons as for a stream; nothing is returned or stored if the store refuses |
| Records.StreamedRecordAgrees | src/conversion/stream_chat_to_responses.rs:206-309 | the message a stream adds to the history says what its output says: the reasoning, the text unless calls take its place, and one call for each call item, in order, whose ids are the pending ones |
| Records.WholeRecordAgrees | src/conversion/chat_to_responses.rs:56-166 | the same for a whole reply, whose call items all carry the reasoning |
| Records.StreamIsRecorded | src/conversion/stream_chat_to_responses.rs:206-309 | the stored message holds the split of the texts received and, for exactly the indexes that got a name and in their order, a call with the id and name that came, or a generated id, and all arguments in canonical form |
| Records.WholeReplyIsRecorded | src/conversion/chat_to_responses.rs:29-166 | the stored message holds the explicit reasoning and the content as they are, or else the trimmed thought and the answer of a whole leading think block, and a call for each call with a name |
| StreamTexts.StreamIsSplit | src/conversion/stream_chat_to_responses.rs:150-189 | any stream ends with the split of the content chunks that came before explicit reasoning or calls ended the detection, all explicit reasoning added to its thought and all later content to its answer |
| StreamTexts.TextsAgree | src/conversion/chat_to_responses.rs:29-50 | the stream ends with the reasoning and answer of the whole reply if and only if, with explicit reasoning, no leading open tag was detected, and without it the block is kept |
| Refinement.CallsAgree | src/conversion/chat_to_responses.rs:56-141 | the calls of both forms are stored alike if and only if every named call has no empty id, and arguments or a canonical form that does not tell missing ones from `{}` |
| Refinement.OutputsAgree | src/conversion/stream_chat_to_responses.rs:206-288 | once the texts agree and the calls are comparable, the outputs are equal up to ids and reasoning copies, if and only if there is no answer text or some name is not blank or all are empty |
| Refinement.StreamRefinesWholeReply | src/conversion/stream_chat_to_responses.rs:150-343 | however a reply is cut, with texts and calls interleaved in any way, `accept` and `finalize` announce its output under the status that its finish reason demands of both forms, and store its messages and pending ids if and only if the texts are kept and all calls comparable; the outputs are then equal under the exact condition above |
| Refinement.EveryReplyCanBeCut | src/conversion/chat_to_responses.rs:29-50 | sending a reply whole in one chunk is one way of cutting it; this keeps the texts exactly unless a block without explicit reasoning is opened and not closed |
| Refinement.OnePieceAgrees | src/conversion/text.rs:154-184 | content that comes in one piece is split as the whole reply is, if and only if it does not open a think block without closing it |
| Refinement.FormsMayDiffer | src/conversion/chat_to_responses.rs:56-141 | replies in one chunk that the forms treat differently: an empty call id or, if the canonical form tells them from `{}`, missing arguments change the stored record; a blank name beside an answer changes only the output |
| Driver.HandleBlock | src/server.rs:398-491 | every branch for one block: error event, no data, end mark, error value, chunk, unreadable data; those that end the response send the end mark |
| Endings.FirstStopDecides | src/server.rs:398-491 | for any bytes, the first block that carries no chunk decides the end: an error event fails the response with the message its data give, whatever they are; the end mark stores and announces the response to the choices before it, or the store's error; an error value and data that are not JSON fail it; a failure stores nothing |
| Endings.UnstoppedStreams | src/server.rs:495-550 | if every block carries a chunk, a broken network fails the response with its message, and an end after a finish reason completes it |
| Endings.RefusedRequestsFail | src/server.rs:350-383 | known unsupported input, no free slot and a refusing upstream fail the response with their message and kind, and store nothing |
| Endings.AllIsReceived | src/server.rs:384-397 | the bytes that count are all those delivered, in order, up to the first break |
| Driver.HandleBlocks | src/server.rs:395-494 | blocks are handled in order until one ends the response |
| Driver.EndStream | src/server.rs:522-550 | the three ends of a body stream without end mark, and the end mark sent after each |
| Driver.ReadBody | src/server.rs:384-550 | the loop over the body stream: the outcome is a function of the bytes received and of how they end |
| Driver.StreamResponse | src/server.rs:339-565 | frames and stored record of a whole run depend on the bytes and the ending alone, not on how the network cuts them |
| Driver.EveryRunEndsProperly | src/server.rs:339-565 | for any upstream, capacity and store, also a run that is refused at once: the log begins with the two opening events and ends with its only terminal event, numbered 1, 2, 3, ...; completed or incomplete only after a record with the same output was stored, failed only with nothing stored; the frames sent are these events, in order and once, and then the one end mark of the branch that ended the run |
| Driver.FramesEndOnce | src/server.rs:339-565 | whichever branch ends the response, the client receives one end mark, last, right after the only terminal event |
| Driver.ChunksAreAccepted | src/server.rs:398-474 | the response goes on exactly while all blocks carry chunks, and then the assembler has accepted their choices |
| Driver.CompletedExactlyWhen | src/server.rs:389-550 | completed if and only if the store works, the last finish reason is none of `length`, `max_tokens`, `content_filter` and `safety`, and either the first block without a chunk is no error event and its data are the end mark, or there is no such block and the stream ended unbroken after a finish reason |
| Truncation.SubstantiveMeansSeen | src/conversion/stream_chat_to_responses.rs:704-711 | true exactly when the final texts are more than whitespace, or some index received a call or more than whitespace |
| Truncation.TruncatedStreams | src/server.rs:530-550 | a stream that ends unbroken without end mark and finish reason is an incomplete response with all its output stored if anything was seen, and otherwise the failure `stream_truncated` |
| Delivery.ClientReceivesTheResponse | src/server.rs:384-550 | for any bytes of the upstream, cut in any way and ended in any way: a client can follow the frames it receives if and only if no choice came late, and if a response was stored it then holds that output, with declared tools in order and all closed, without them under exactly the condition on answer text and names |
| Wire.WireRefinesWholeReply | src/server.rs:383-550 | a reply cut into chunks, printed as events, sent as bytes cut in any way and converted as a stream gives client and store what `build_response` gives for the whole reply, under exactly the conditions on texts, calls and names above |
| Conversation.StreamRecordIsSound | src/conversion/stream_chat_to_responses.rs:206-309 | a streamed record has a valid history that ends with the assistant message whose call ids, in order, are the pending ones |
| Conversation.WholeRecordIsSound | src/conversion/chat_to_responses.rs:144-166 | the same for a record of a whole reply |
| Conversation.Serve | src/server.rs:197-565 | one request from lookup to stored record; the tool table is built from its tools and what its input has found, and the names of replayed calls from that table |
| Conversation.TurnKnowsItsTools | src/server.rs:197-338 | the table of a turn lists the tools it declares and those its input has found, one for one and in order |
| Conversation.AnswersAreStored | src/conversion/stream_chat_to_responses.rs:289-309 | a turn changes no row but its own; that row then has the id and time of the turn, the previous id of its request, the messages sent and one assistant message, and the announced output, exactly if a response was announced; otherwise nothing changes |
| Conversation.AnswersAreFound | src/state.rs:60-90 | an announced response is found under its id by every later request within its time to live, and only then, unless a later turn answered under this id |
| Conversation.EveryReachableStoreIsSound | src/server.rs:197-565 | after any turns every stored record is sound |
| Conversation.BuildAccepts | src/conversion/responses_to_chat.rs:61-113 | from a sound record the messages are built if and only if the outputs are distinct and unanswered and no message kept of the input is in the tool role |
| Conversation.ConversationsStayContinuable | src/server.rs:575-613 | after any turns, a request that leads to a stored unexpired response is continued from it if and only if its outputs are distinct, all pending there and not answered in its history, and no message kept of its input is in the tool role |
| Conversation.HistoriesOnlyGrow | src/conversion/responses_to_chat.rs:61-113 | a continued history is sent whole: no stored message other than system text is lost, changed or moved |
| Undo.FileSystem.Apply | src/init.rs:416-477 | a write or delete changes its own path and returns what was there, or fails |
| Undo.FileSystem.Rollback | src/init.rs:484-498 | the saved contents, or their absence, are put back |
| Undo.FileSystem.ApplyWritesWithRollback | src/init.rs:355-381 | the loop with its undo log computes the run of the specification |
| Undo.AllApplied | src/init.rs:355-381 | without a fault every path has what the last change to it says, and all other paths are as before |
| Undo.PathRestored | src/init.rs:355-381 | after a failing step every path whose own undo steps succeed has its contents back, repeated paths included, even if other undo steps fail |
| Undo.RestoredExactly | src/init.rs:355-381 | when all undo steps succeed, the files are as before if and only if the failing step left its path as it was or an earlier step had saved it |
| Undo.FailedUndoLeaves | src/init.rs:355-381 | where the undo of the first change to a path fails, the path is left with what the failing undo left |
| Undo.UnannouncedRollback | src/init.rs:355-381 | a rollback that cannot be announced undoes nothing |
| Undo.StoppedUndoKeeps | src/init.rs:355-381 | an undo that cannot be logged is the last one: paths that only earlier steps touched keep what they wrote |
| Undo.LogFailureKeepsChanges | src/init.rs:355-381 | a log message that cannot be written stops the call and keeps the changes made so far |

## Left out

- HTTP routing, headers, timeouts, keep-alive, authorisation and token signing: library or foreign code; of the streaming driver only the decisions are kept.
- SQLite and serde: the store is a map with timestamps and a write that may be refused (a read that fails is not modelled); JSON parsing, printing and canonical form are functions the theorems quantify over.
- Usage and token counts, model names, metadata, tracing, `thinking_blocks` and the id in a response shell: copied, never decided on.
- Multimodal content: a message's content is a text, or parts with their raw and rendered form; the media guard of the request path is not part of this model, its verdict is an input of the driver.
- Tool schemas, descriptions and `tool_choice`: only names, kinds and namespaces matter to the tables.
- The early error answers of the two request handlers before anything is sent upstream: `Conversation.Accepted` gives the error, not its HTTP form.
- A turn holds its input twice, as items and as the JSON value in which earlier searches have listed tools; that both come from one text is not modelled. The order in which the map of original names is walked is a sequence given with the turn.
- Temporary files, parent directories and backups of `init`: only the contents of the target paths matter.
- Configuration, project discovery, registry, command line, Windows launcher: no invariant of the conversion engine.
- SafeNames.SafeNameIsFreshAndLegal: the suffix counter is unbounded; the length bound is stated below 2^31 - 16 used names, where the 32-bit counter of the source cannot overflow.
- Driver.StreamResponse: what the assembler emits during one of its calls is sent when the call returns, in the source while it runs; nothing else is sent in between. Body streams are finite, an endless upstream is not modelled; the record is put into the store by the caller of this method, in the source inside `finalize`.
- Sequence numbers and output indexes are unbounded where the source has 64 and 32 bits.
