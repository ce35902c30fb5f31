# chatbot-adverser core, modelled in Dafny

This project models the four pieces of sequential logic in chatbot-adverser, an AI chat application that calls
commerce tools of a mock ad server over MCP (the Model Context Protocol). It proves properties of each model.

- **`ChatStream`** models the server-side turn orchestrator `chatStream`.
  - It reads the completion stream chunk by chunk and forwards every non-empty text delta.
  - It accumulates partial tool calls in an array addressed by stream index. A cursor tracks the current index.
  - On a `tool_calls` finish reason it runs every accumulated call in array order. The block of events it yields
    has the form `tool_calls_start`, then `tool_call`/`tool_result`/`tool_error` for each call, then
    `tool_calls_end`.
  - It also models the conversion of registry tools into function-calling tool specs.
  - The handler's loops are methods (`AccumulateDeltas`, `ExecuteToolCalls`, `ProcessChunk`, `RunStream`). Each
    is proved against a specification function (`ApplyDeltas`, `ExecuteAll`, `Events`).
- **`RuntimeProvider`** models the client runtime provider.
  - `convertMessage` is modelled, with a proof that it loses nothing.
  - So is the wire form of the transcript sent with each turn. Each assistant message carries its tool calls,
    followed by one `tool` entry per call with a truthy result.
  - Per-chunk updates go to the turn's assistant message. There is a fallback for stream failure.
  - `onNew` is a method of the `Runtime` class, whose `messages` and `isRunning` fields it updates.
  - The end-to-end lemma connecting the two files is `ReplayedResults`.
    - Suppose the client replays an execution block of the orchestrator whose call ids are distinct. Then the
      next turn's wire form carries a tool entry for a call exactly when its arguments parsed, the tool returned,
      and the result is truthy.
    - The provider ignores `tool_error`. With distinct ids, a call whose tool failed is therefore resent as a call
      without a result.
      A call whose arguments did not parse is not resent at all.
- **`OfferFilter`** models the mock ad server's `get_commerce_offers` handler.
  - Keywords are the lower-cased query, split on whitespace runs, with empty pieces dropped.
  - An offer matches when its lower-cased title or description contains any keyword as a substring.
  - The result record carries `total` and echoes the query.
  - The keyword function is proved equal to an independent definition: the maximal non-whitespace runs of the
    lower-cased query.
- **`McpToolkit`** models the client toolkit adapter.
  - `jsonSchemaToZod` becomes `ToZod`, a translation into an inductive datatype of validator schemas.
  - `createMcpToolkit`'s loop becomes `BuildToolkit`, which builds a map keyed by tool name.
  - `Accepts` gives the validator schemas a meaning, and `SchemaAccepts` gives one to the JSON-Schema keywords
    that the translator reads.
  - The translation accepts every value the JSON Schema accepts, under two provisos (`CompleteSchema`). First,
    each `required` array lists all the property names. `UnlistedPropertyBecomesRequired` shows why: when
    `required` is an array, every property becomes required, whatever names the array lists. Second, the
    `properties` of each object schema is itself an object.
- **`Json`** is the JSON value type shared by all modules, with JavaScript truthiness over it.
- **`Mcp`** is the tool descriptor shared by the server-side and client-side tool conversions.

JavaScript's `JSON.parse`, `JSON.stringify` and the tool registry's `callTool` are function-typed parameters:
`ChatStream.Parser`, `RuntimeProvider.Stringify` and `ChatStream.ToolRunner`.

- Each `ChatStream.TurnEvent` stands for the JSON text the handler yields.
- The provider sees a chunk in one of three ways (`StreamChunk`):
  - as a parsed event;
  - as plain text, when `JSON.parse` or reading `.type` throws;
  - as JSON of no known type (`42`, `"hi"`, `{"type":"foo"}`), which it ignores. A plain-text chunk that happens
    to be valid JSON is therefore dropped.
- Message ids are parameters.
- A failure of the stream is a flag that takes effect after the chunks that arrived before it.

`chat.ts` never clears its `toolCalls` array after executing it. A stream with two chunks whose `finish_reason`
is `tool_calls` runs the first chunk's calls again on the second. The model keeps this behaviour:
`FinishEvents` runs the whole accumulated array.

## Model

| member | source | states |
|---|---|---|
| `Mcp.DescriptionOf` | packages/frontend/src/server/chat.ts:36 | the tool's own description when it is non-empty, otherwise `Execute <name>`; never empty |
| `ChatStream.ToOpenAITool` | packages/frontend/src/server/chat.ts:32-39 | kind `function`, name kept, description never empty (the tool's own when non-empty); parameters are the tool's input schema when truthy, else `{type:"object", properties:{}}`, so always truthy |
| `ChatStream.ToOpenAITools` | packages/frontend/src/server/chat.ts:32-39 | one spec per discovered tool, in discovery order |
| `ChatStream.ToolsOption` | packages/frontend/src/server/chat.ts:61 | the `tools` option is omitted exactly when no tool was discovered, and is otherwise the list itself |
| `ChatStream.ApplyDelta` | packages/frontend/src/server/chat.ts:86-98 | an index other than the cursor (re)initialises its slot: id and name from the delta or `""`, arguments just this delta's fragment; the cursor moves to it. A delta at the cursor only appends its fragment. The array grows only when the index is its length. Other slots never change. |
| `ChatStream.ApplyDeltas` | packages/frontend/src/server/chat.ts:81-100 | the accumulator stays well formed (cursor -1 or an existing slot) and the array never shrinks |
| `ChatStream.ArgumentsConcatenate` | packages/frontend/src/server/chat.ts:95-98 | continuing deltas at the cursor append their fragments in order to that slot only; cursor and length unchanged |
| `ChatStream.CallAccumulates` | packages/frontend/src/server/chat.ts:86-98 | a call opened by one delta and continued at the same index ends with the opening delta's id and name (later deltas never change them) and the concatenation of all fragments; the cursor is at its index, the array grows only when the index is new, and every other slot is unchanged |
| `ChatStream.ApplyDeltasAppend` | packages/frontend/src/server/chat.ts:81-100 | applying two delta lists one after the other is applying their concatenation, and the no-holes condition splits the same way |
| `ChatStream.ChunkedDeltas` | packages/frontend/src/server/chat.ts:72-100 | chunk boundaries do not matter: the accumulator after any chunk sequence is all its deltas applied as one list |
| `ChatStream.AccumulatorAfterLast` | packages/frontend/src/server/chat.ts:72-100 | a further chunk applies its deltas to the accumulator built so far |
| `ChatStream.SplitIndependent` | packages/frontend/src/server/chat.ts:81-98 | two chunk sequences that open the same call and carry the same concatenated fragments, split inside or across chunks, leave the same accumulator |
| `ChatStream.EventsOfLastChunk` | packages/frontend/src/server/chat.ts:72-141 | the last chunk yields its text, then the block over every call accumulated up to and including it |
| `ChatStream.FinishSeesAllDeltas` | packages/frontend/src/server/chat.ts:72-141 | a finishing chunk runs the calls that all the stream's deltas build as one list from the empty accumulator, whatever the chunk boundaries |
| `ChatStream.ExecuteCall` | packages/frontend/src/server/chat.ts:109-137 | a call yields `tool_call` then `tool_result`/`tool_error`, or only `tool_error` when its arguments do not parse; the last event is its only resolution and carries the call's id; it is a result exactly when parsing and execution both succeed, and then holds the tool's value |
| `ChatStream.EveryCallResolvedInOrder` | packages/frontend/src/server/chat.ts:108-138 | the resolution ids of a block are exactly the call ids in array order: every call is resolved once, and a failure never stops later calls |
| `ChatStream.ExecuteAllUnframed` | packages/frontend/src/server/chat.ts:108-138 | executing calls yields no text and no block marker |
| `ChatStream.ToolBlockFraming` | packages/frontend/src/server/chat.ts:103-141 | a block is emitted iff the finish reason is `tool_calls` and at least one call was accumulated; it starts with the only `tool_calls_start` and ends with the only `tool_calls_end` |
| `ChatStream.AccumulateDeltas` | packages/frontend/src/server/chat.ts:81-100 | the in-place loop over a chunk's tool-call deltas ends in the state `ApplyDeltas` specifies |
| `ChatStream.ExecuteToolCalls` | packages/frontend/src/server/chat.ts:108-138 | the sequential execution loop yields exactly `ExecuteAll` of the array |
| `ChatStream.ProcessChunk` | packages/frontend/src/server/chat.ts:73-141 | one iteration: the text event, the accumulator update, and the block on a `tool_calls` finish |
| `ChatStream.RunStream` | packages/frontend/src/server/chat.ts:65-142 | the handler yields exactly `Events` of the chunk sequence from the empty accumulator |
| `ChatStream.TextForwarded` | packages/frontend/src/server/chat.ts:76-78 | the text events of the whole stream are exactly the non-empty content deltas, each once, in order |
| `ChatStream.RunningShoesScenario` | packages/frontend/src/server/chat.ts:72-141 | a call split over two chunks followed by a `tool_calls` finish yields exactly start, call, result, end |
| `RuntimeProvider.ConvertMessage` | packages/app-tanstack-assistant-ui/src/components/MyRuntimeProvider.tsx:31-57 | id and role kept; a text part first iff the content is non-empty; then one part per tool call, in order, with the same id, name, args and result |
| `RuntimeProvider.ConvertMessageLossless` | packages/app-tanstack-assistant-ui/src/components/MyRuntimeProvider.tsx:31-57 | reading the parts back gives exactly the message's content and tool calls |
| `RuntimeProvider.WireCalls` | packages/app-tanstack-assistant-ui/src/components/MyRuntimeProvider.tsx:124-131 | one call descriptor per tool call, in order: id, `function`, name, stringified args |
| `RuntimeProvider.AnsweredCalls` | packages/app-tanstack-assistant-ui/src/components/MyRuntimeProvider.tsx:137 | exactly the calls whose result is truthy: each selected call is one of them, and each of them is selected |
| `RuntimeProvider.AnsweredCallsAppend` | packages/app-tanstack-assistant-ui/src/components/MyRuntimeProvider.tsx:136-137 | selection keeps call order: it distributes over concatenation |
| `RuntimeProvider.ToolEntries` | packages/app-tanstack-assistant-ui/src/components/MyRuntimeProvider.tsx:136-144 | exactly one `tool` entry per call with a truthy result, in call order; entry j carries the j-th such call's id and its stringified result |
| `RuntimeProvider.SerializeMessage` | packages/app-tanstack-assistant-ui/src/components/MyRuntimeProvider.tsx:113-150 | a user message gives one `user` entry; an assistant message without calls gives one `assistant` entry; one with calls gives an `assistant` entry listing every call, followed by exactly `ToolEntries` of its calls |
| `RuntimeProvider.SerializeAppend` | packages/app-tanstack-assistant-ui/src/components/MyRuntimeProvider.tsx:112-151 | the transcript's wire form is the concatenation of its messages' wire forms, in transcript order |
| `RuntimeProvider.ToolEntriesAbsent` | packages/app-tanstack-assistant-ui/src/components/MyRuntimeProvider.tsx:136-144 | no `tool` entry carries an id that no call has |
| `RuntimeProvider.ToolEntriesRoundTrip` | packages/app-tanstack-assistant-ui/src/components/MyRuntimeProvider.tsx:136-144 | with distinct call ids, the `tool` entry read back for a call is its stringified result when the result is truthy, and absent otherwise |
| `RuntimeProvider.SerializedResultRoundTrip` | packages/app-tanstack-assistant-ui/src/components/MyRuntimeProvider.tsx:119-146 | the same round trip over the message's whole wire form |
| `RuntimeProvider.SetResult` | packages/app-tanstack-assistant-ui/src/components/MyRuntimeProvider.tsx:196-200 | every record with the id gets the result; the others are unchanged |
| `RuntimeProvider.ApplyToMessage` | packages/app-tanstack-assistant-ui/src/components/MyRuntimeProvider.tsx:160-212 | a text event or non-JSON chunk appends to the content; `tool_call` appends one record without result and keeps earlier ones; `tool_result` sets the result on matching records only; any other event, and JSON of no known type, changes nothing; id and role always kept |
| `RuntimeProvider.LaterResultWins` | packages/app-tanstack-assistant-ui/src/components/MyRuntimeProvider.tsx:189-204 | a second `tool_result` for an id overwrites the first |
| `RuntimeProvider.Project` | packages/app-tanstack-assistant-ui/src/components/MyRuntimeProvider.tsx:156-214 | applying a chunk sequence keeps the message's id and role |
| `RuntimeProvider.ProjectAppend` | packages/app-tanstack-assistant-ui/src/components/MyRuntimeProvider.tsx:156-214 | applying `a + b` is applying `a`, then `b` |
| `RuntimeProvider.ProjectedContent` | packages/app-tanstack-assistant-ui/src/components/MyRuntimeProvider.tsx:160-212 | the final content is the starting content followed by the text payloads, in order |
| `RuntimeProvider.ApplyChunk` | packages/app-tanstack-assistant-ui/src/components/MyRuntimeProvider.tsx:162-212 | a chunk changes only the message with the turn's assistant id |
| `RuntimeProvider.ApplyChunks` | packages/app-tanstack-assistant-ui/src/components/MyRuntimeProvider.tsx:156-214 | after any chunk sequence every other message is unchanged, and the length is kept |
| `RuntimeProvider.FailTurn` | packages/app-tanstack-assistant-ui/src/components/MyRuntimeProvider.tsx:215-223 | the stream-failure fallback changes only the turn's message (its content becomes the notice, its tool calls stay) |
| `RuntimeProvider.TurnOutcome` | packages/app-tanstack-assistant-ui/src/components/MyRuntimeProvider.tsx:80-226 | a turn appends the user message and the assistant message and changes no earlier one; the assistant content is the streamed text, or the notice after a failure; its tool calls are the recorded ones |
| `RuntimeProvider.SentHistory` | packages/app-tanstack-assistant-ui/src/components/MyRuntimeProvider.tsx:92-112 | the history sent is the earlier transcript's wire form plus one `user` entry; the placeholder is not sent |
| `RuntimeProvider.ProjectCall` | packages/app-tanstack-assistant-ui/src/components/MyRuntimeProvider.tsx:169-204 | replaying one executed call's events appends its record (none if its arguments did not parse) and leaves the text alone |
| `RuntimeProvider.ProjectExecution` | packages/app-tanstack-assistant-ui/src/components/MyRuntimeProvider.tsx:169-204 | replaying a whole execution records exactly one entry per parsed call, in order, with the tool's value when it returned |
| `RuntimeProvider.ProjectToolBlock` | packages/app-tanstack-assistant-ui/src/components/MyRuntimeProvider.tsx:160-205 | the block markers change nothing; the block records exactly `Recorded` |
| `RuntimeProvider.RecordedResultParsed` | packages/app-tanstack-assistant-ui/src/components/MyRuntimeProvider.tsx:119-146 | with distinct call ids, a parsed call's record is read back from the wire form as the expected entry |
| `RuntimeProvider.UnparsedCallNotResent` | packages/app-tanstack-assistant-ui/src/components/MyRuntimeProvider.tsx:119-205 | a call whose arguments do not parse leaves only a `tool_error`, which the provider ignores, so the next wire form of a message without calls is a bare `assistant` entry: the call is not resent |
| `RuntimeProvider.RecordedResultUnparsed` | packages/app-tanstack-assistant-ui/src/components/MyRuntimeProvider.tsx:136-144 | an unparsed call has no `tool` entry |
| `RuntimeProvider.ReplayedResults` | packages/app-tanstack-assistant-ui/src/components/MyRuntimeProvider.tsx:136-204 | when the block's call ids are distinct, after it is replayed the next wire form has a `tool` entry for a call iff its arguments parsed, the tool returned, and the result is truthy; a `tool_error` leaves none |
| `RuntimeProvider.Runtime.constructor` | packages/app-tanstack-assistant-ui/src/components/MyRuntimeProvider.tsx:64-65 | empty transcript, not running |
| `RuntimeProvider.Runtime.OnNew` | packages/app-tanstack-assistant-ui/src/components/MyRuntimeProvider.tsx:80-226 | a non-text first part is rejected with the fixed error and changes nothing; otherwise the sent history is the wire form of the transcript plus the user message, the transcript becomes `TurnMessages`, and `isRunning` ends false |
| `OfferFilter.LowerChar` | packages/mock-mcp-adserver/src/server.ts:26-28 | an upper-case ASCII letter becomes the lower-case letter at the same alphabet position; other characters are kept; the result is never upper-case; whitespace stays whitespace |
| `OfferFilter.ToLower` | packages/mock-mcp-adserver/src/server.ts:26-28 | same length, lower-cased character by character |
| `OfferFilter.DropWs` | packages/mock-mcp-adserver/src/server.ts:26 | drops exactly the leading whitespace run |
| `OfferFilter.SplitFrom` | packages/mock-mcp-adserver/src/server.ts:26 | splitting always yields at least one piece |
| `OfferFilter.NonEmpty` | packages/mock-mcp-adserver/src/server.ts:26 | only non-empty pieces, each taken from the input |
| `OfferFilter.KeywordsAreWords` | packages/mock-mcp-adserver/src/server.ts:26 | the keywords are exactly the maximal non-whitespace runs of the lower-cased query |
| `OfferFilter.KeywordsAreLowerWords` | packages/mock-mcp-adserver/src/server.ts:26 | every keyword is non-empty, has no whitespace and no upper-case letter |
| `OfferFilter.WhitespaceQueryHasNoKeywords` | packages/mock-mcp-adserver/src/server.ts:26 | a whitespace-only query has no keywords |
| `OfferFilter.IncludesIsSubstring` | packages/mock-mcp-adserver/src/server.ts:32 | `includes` holds iff the word occurs at some position |
| `OfferFilter.AnyMatch` | packages/mock-mcp-adserver/src/server.ts:31-33 | true iff some keyword is in the lower-cased title or description |
| `OfferFilter.FilterOffers` | packages/mock-mcp-adserver/src/server.ts:24-45 | an offer is kept iff it is in the list and matches some keyword; a matching offer keeps its multiplicity, so nothing is dropped or duplicated |
| `OfferFilter.FilterIsSubsequence` | packages/mock-mcp-adserver/src/server.ts:24-45 | the filtered list is a subsequence of the offers, order kept |
| `OfferFilter.GetCommerceOffers` | packages/mock-mcp-adserver/src/server.ts:21-64 | an empty query returns the catalogue; otherwise exactly the offers that match a keyword, each as often as in the catalogue; `total` is the length and `query` is echoed |
| `OfferFilter.ResultInCatalogueOrder` | packages/mock-mcp-adserver/src/server.ts:23-46 | the result is always in catalogue order |
| `OfferFilter.WhitespaceQueryFindsNothing` | packages/mock-mcp-adserver/src/server.ts:23-46 | a non-empty, whitespace-only query finds no offer and a total of 0 |
| `OfferFilter.NoKeywordsNoOffers` | packages/mock-mcp-adserver/src/server.ts:31-33 | with no keywords nothing matches |
| `McpToolkit.Decimal` | packages/app-tanstack-assistant-ui/src/lib/mcp-toolkit.tsx:22 | the decimal key of an index is made of digits, has no leading zero, ends in its last digit and reads back as the index; one digit iff below 10 |
| `McpToolkit.DecimalInjective` | packages/app-tanstack-assistant-ui/src/lib/mcp-toolkit.tsx:22 | distinct indices get distinct keys (a corollary of the read-back) |
| `McpToolkit.Shape` | packages/app-tanstack-assistant-ui/src/lib/mcp-toolkit.tsx:21-24 | an object's shape has exactly its property names |
| `McpToolkit.ToZod` | packages/app-tanstack-assistant-ui/src/lib/mcp-toolkit.tsx:14-48 | a non-object schema gives `any`; the result is an object schema iff the type is `object` with truthy `properties`, and is then partial iff `required` is not an array |
| `McpToolkit.ObjectSchemaShape` | packages/app-tanstack-assistant-ui/src/lib/mcp-toolkit.tsx:20-25 | an object schema keeps exactly the property names, each translated recursively |
| `McpToolkit.PrimitiveSchemas` | packages/app-tanstack-assistant-ui/src/lib/mcp-toolkit.tsx:35-47 | `string`, `number`/`integer`, `boolean`, `array` (of the translated items, or of `any`) and `any` for every other type |
| `McpToolkit.RequiredNamesIgnored` | packages/app-tanstack-assistant-ui/src/lib/mcp-toolkit.tsx:28-31 | replacing the names in a `required` array never changes the translation |
| `McpToolkit.TranslationAcceptsValidInput` | packages/app-tanstack-assistant-ui/src/lib/mcp-toolkit.tsx:14-48 | when each `required` array lists every property name, the translation accepts every value the JSON Schema accepts |
| `McpToolkit.UnlistedPropertyBecomesRequired` | packages/app-tanstack-assistant-ui/src/lib/mcp-toolkit.tsx:28-31 | with `required: ["a"]` and properties `a`, `b`, the value `{"a": "x"}` satisfies the JSON Schema but the translation rejects it |
| `McpToolkit.PartialAcceptsEmptyObject` | packages/app-tanstack-assistant-ui/src/lib/mcp-toolkit.tsx:31 | without a `required` array the empty object is accepted |
| `McpToolkit.EntryOf` | packages/app-tanstack-assistant-ui/src/lib/mcp-toolkit.tsx:68-77 | the description defaults to `Execute <name>`; parameters are the translated input schema, or `z.object({})` when there is none |
| `McpToolkit.BuildToolkit` | packages/app-tanstack-assistant-ui/src/lib/mcp-toolkit.tsx:67-94 | the loop builds exactly `Toolkit` of the tool list |
| `McpToolkit.ToolkitKeys` | packages/app-tanstack-assistant-ui/src/lib/mcp-toolkit.tsx:67-75 | the toolkit has exactly one key per distinct tool name |
| `McpToolkit.LastToolWins` | packages/app-tanstack-assistant-ui/src/lib/mcp-toolkit.tsx:75-77 | each name's entry comes from the last tool with that name |

## Left out

- Network and transport code is not modelled. This covers the OpenAI client, MCP client connect/list/call/close, and
  the Express routing and MCP server registration in `server.ts`. Tool execution and `JSON.parse`/`JSON.stringify`
  are function-typed parameters. Tool discovery is the input list.
- Async generators, `for await` and promise sequencing are not modelled. Each stream is a finite sequence
  processed in order. A stream failure takes effect after the chunks that arrived before it.
- JSON numbers are integers: no fractions and no NaN.
- `toLowerCase` lower-cases ASCII letters only. `IsWhitespace` is the character class of the regular expression
  `\s`.
- Stream indices that skip a slot would leave holes in `chat.ts`'s array. The model requires each delta's index to
  be at most the array's length (`DeltasFit`, `ChunksFit`) instead of modelling JavaScript `undefined`.
- The provider's view of a chunk (`StreamChunk`) does not capture a JSON chunk of type `text` whose `content` is
  missing or not a string. Every text event carries a string.
- Ids come from `generateId`'s randomness. Here they are parameters, and `TurnOutcome` assumes they differ from
  the ids already in the transcript.
- React state and hooks are left out (`useState`, `useEffect` loading the toolkit, `useExternalStoreRuntime`,
  `useAui`). The provider's state is the `Runtime` class's two fields.
- The execute proxy of each toolkit entry is a foreign call into the MCP client.
- `Accepts` is a model of the validator library's behaviour on the schemas the translator produces. That library
  is not part of this model.
- The tool result in `server.ts` is wrapped in an MCP text content that holds indented JSON. Only the record before
  stringification is modelled. Offers carry only the fields the filter reads.
- Debug logging (`server.ts` 35-42, `chat.ts` 131) is left out.
- Key order is left out: `Object.entries` order, and the toolkit's key insertion order. Maps are unordered here.
- `ChatStream.ApplyDeltas`: states only well-formedness and growth of the accumulator. What it holds after a run
  of deltas is stated by `ArgumentsConcatenate` and `CallAccumulates`.
- `RuntimeProvider.ReplayedResults`, `RuntimeProvider.RecordedResultParsed`: assume the block's call ids are distinct.
  `chat.ts` gives every call opened without an id the id `""`, so ids can collide. A `tool_result` then sets the
  result on every record with that id, so a call whose tool failed can be resent with another call's result.
- `markdown-text.tsx`, `offers-tool-ui.tsx`, `routes/index.tsx`, `vite.config.ts` and `mcp-client.ts` are not
  part of this model.
