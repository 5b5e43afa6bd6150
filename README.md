# monster-chat, modelled in Dafny

monster-chat is a small chat application. A Flask server (`app.py`) relays
chat completions from OpenRouter, and a browser client (`script.js`) lets the
user pick a model and talk to it. This project models the sequential logic
at its core and proves properties of it:

- **The server's stream transformer.** `generate()` inside `chat_stream`
  (module `Relay`, `relay.dfy`) turns the upstream `data:` lines into one
  `chunk` frame per content delta. It answers the `[DONE]` marker with a
  single `done` frame that carries the accumulated text and the chunk count.
  Any exception becomes one final `error` frame.
- **The client's stream consumer.** The class `ChatApp` (module `Client`,
  `chat_app.dfy`) holds `messages`, `isTyping`, the input text and
  `currentStreamingMessage`. `sendMessage` and `sendStreamingMessage` push
  the user's message and an empty assistant message. The assistant message
  is then filled from the reads of the response: chunks append, `done`
  records the usage, and an error replaces the text.
- **The model catalogue.** `generate_model_categories` and the tag vocabulary
  are in `Tags` (`tags.dfy`). The `is_free` rule, `get_models`, the
  `/api/models` filters and `/api/categories` are in `Catalog`
  (`catalog.dfy`). The client's filter, `groupModelsByProvider`,
  `formatProviderName` and `truncateDescription` are in `Picker`
  (`picker.dfy`).
- **The upstream message list.** The last six history entries plus the new
  user message are built in `History` (`history.dfy`).
- **Both sides together.** `Pipeline` (`pipeline.dfy`) composes them:
  - frames written by the server and read by the client;
  - the history the client posts, read by the server;
  - the two price filters compared.

  One consequence it proves: the message being sent reaches the model twice.
  The client's `slice(-11, -1)` keeps the new user message in the posted
  history, and the server appends that message again.

Shared pieces:

- `Wrappers`: `Option` and `Result`.
- `Text`: prefix and substring tests, trimming, splitting, ASCII case
  mapping, code-point order, deduplication and filtering, with their lemmas.
- `PyData`: the Python values `json.loads` yields, with the exceptions
  `in`, `len`, `[]` and `.get` raise.
- `Js`: the JavaScript values `JSON.parse` yields, with truthiness, property
  access and `String(v)`.

`JSON.parse`, `json.loads`, `json.dumps` and `str(e)` are function
parameters. A reply is given as its HTTP status and the decoded text of
each read. Where the end-to-end lemmas need the JSON functions to agree,
`Pipeline.RoundTrips` states the agreement.

## Model

| member | source | states |
|---|---|---|
| Tags.TagRules | app.py:36-108 | a tag is generated exactly when one of the five rules produces it: modality, capability, keyword, provider or context length |
| Tags.KeywordTagsFromMembership | app.py:74-78 | the keyword loop adds a category exactly when the category is in the table and one of its keywords occurs in the text |
| Tags.KeywordSearchPerField | app.py:74 | a one-word keyword occurs in "name description id" exactly when it occurs in one of the three lower-cased fields |
| Tags.ModalityCategories | app.py:48-52 | 'vision' exactly when 'image' is an input modality; 'multimodal' exactly when 'text' and 'image' both are; so 'multimodal' never comes without 'vision' |
| Tags.ToolsCategory | app.py:55-57 | 'tools' exactly when 'tools' is a supported parameter |
| Tags.ReasoningCategory | app.py:55-95 | 'reasoning' exactly when it is a supported parameter, or a reasoning keyword occurs, or the provider is anthropic or deepseek |
| Tags.CodeCategory | app.py:62-95 | 'code' exactly when a code keyword occurs or the provider is deepseek |
| Tags.KeywordOnlyCategory | app.py:62-78 | every other keyword category is present exactly when one of its keywords occurs |
| Tags.ProviderOnlyCategory | app.py:81-95 | a provider-only tag is present exactly when the id's prefix before the first '/' is a key of the provider table that lists it |
| Tags.ProviderReasoningCode | app.py:82-92 | the provider table gives 'reasoning' only to anthropic and deepseek, and 'code' only to deepseek |
| Tags.ProviderRuleCases | app.py:82-95 | the provider table gives only provider-only tags, 'reasoning' and 'code' |
| Tags.KeywordCategoryRules | app.py:47-105 | a keyword category can otherwise come only from the capability rule ('reasoning') or the provider rule ('reasoning', 'code') |
| Tags.ContextCategoryRules | app.py:47-95 | no rule but the context bands gives a context tag |
| Tags.ProviderOnlyRules | app.py:47-78 | no rule but the provider table gives a provider-only tag |
| Tags.ContextCategories | app.py:98-105 | 'long-context' from 128000 up, 'medium-context' from 32000 to 127999, 'short-context' up to 8192; none for 8193-31999 or a non-integer length; so at most one |
| Tags.ParseName | app.py:434-461 | every tag's name is found in the label table under that tag |
| Tags.ParseSound | app.py:434-461 | a string is found in the label table only under its own name |
| Tags.NameInjective | app.py:434-461 | no two tags share a name |
| Catalog.ToEntry | app.py:171-181 | an entry keeps the record's id, carries `is_free` and always has categories |
| Catalog.EntryCategories | app.py:169-181 | an entry's categories are exactly the names of the tags generated for its record |
| Catalog.NamesMembership | app.py:108 | a string is among a tag set's names exactly when it names one of the tags |
| Catalog.ListedMembership | app.py:129-198 | `get_models` lists an entry exactly when it is built from a record the price filter keeps |
| Catalog.ListedUnfiltered | app.py:137-141 | a filter other than 'free' and 'paid' lists every record, in catalogue order |
| Catalog.ListedPriced | app.py:162-181 | every entry `get_models` builds has pricing and categories |
| Catalog.ListedSplit | app.py:135-140 | the 'free' and 'paid' listings split the full listing: as multisets they add up to it, and their lengths add up to the record count |
| Catalog.FilterPage | app.py:399-415 | 'free'/'paid' over an entry without pricing fails with KeyError('pricing'); otherwise the page is the entries passing both filters in their original order and multiplicity, `count` is its length, and it echoes both filters |
| Catalog.ServerFilteredInOrder | app.py:400-407 | the price comprehension followed by the category comprehension keeps, in order, exactly the entries passing both filters |
| Catalog.ListedFilter | app.py:397-403 | filtering the full listing by `is_free` gives, in order, what `get_models('free')` and `get_models('paid')` list |
| Catalog.EndpointAgreesWithGetModels | app.py:397-407 | for a catalogue that answered, every page succeeds and is `get_models(price)`, narrowed in order to the category unless it is 'all' |
| Catalog.FreeAndPaidPartition | app.py:400-412 | the 'free' and 'paid' pages split the catalogue: counts add to the record count, multisets to the full listing |
| Catalog.FallbackEndpoint | app.py:204-232 | on the fallback list, 'free' and 'paid' fail with KeyError('pricing'), and any category other than 'all' gives an empty page |
| Catalog.AllCategoriesMembership | app.py:427-430 | a tag is in the union exactly when some entry carries it |
| Catalog.CollectCategories | app.py:427-430 | the set loop ends with the union of every entry's categories |
| Catalog.ListedCategories | app.py:426-430 | the collected tags are exactly the names of the tags some catalogue record generates |
| Catalog.FallbackCategories | app.py:426-430 | the fallback list yields no categories |
| Catalog.TitleFrom | app.py:466 | `title()` upper-cases a character that follows a non-letter (or starts the text) and lower-cases one that follows a letter; the length and the letter positions are kept |
| Catalog.TitleIdempotent | app.py:466 | `title()` applied twice is `title()` applied once |
| Catalog.LabelOfTag | app.py:466 | a known tag is labelled from the table |
| Catalog.LabelOfOther | app.py:466 | any other string is labelled by its `title()` |
| Catalog.LabelledInOrder | app.py:463-467 | each collected tag appears exactly once, in strictly ascending code-point order, with its label |
| Catalog.LabelNext | app.py:463-467 | placing the least remaining tag next keeps the sorted, labelled, complete-so-far state |
| Catalog.GetCategories | app.py:422-472 | the category list holds each tag of `get_models('all')` exactly once, ascending, each with its label |
| Picker.VisibleMembership | script.js:198-210 | a model is shown exactly when it is in the catalogue, free under 'free', not free under 'paid', and carries the category unless that is 'all' |
| Picker.FreeAndPaidSplit | script.js:200-201 | with no category chosen, the free and paid lists together hold each model exactly once |
| Picker.UnfilteredShowsAll | script.js:198-210 | any other price filter, with no category chosen, shows every model in order |
| Picker.ProviderKey | script.js:235 | an id that is empty or starts with '/' gets 'other'; any other id gets its non-empty text before the first '/' |
| Picker.GroupModelsByProvider | script.js:231-243 | the keys are the provider keys in order of first appearance; each list holds exactly its provider's models, in order, and at least one |
| Picker.FilingGroups | script.js:234-240 | after k models the dictionary and key order are the grouping of the first k models |
| Picker.FileOne | script.js:235-239 | filing one more model (new list or push) keeps the dictionary in step with the models filed |
| Picker.FiledAll | script.js:231-243 | once every model is filed, the dictionary is the grouping of all of them |
| Picker.GroupsInOrder | script.js:215-228 | one option group per provider, in order of first appearance, each with exactly that provider's models |
| Picker.GroupedOnce | script.js:234-240 | every model is in its own provider's group and in no other, and that provider has a group |
| Picker.FormatProviderName | script.js:245-257 | each of the seven listed keys gets its hand-written label; a non-empty key gets a non-empty label |
| Picker.UnlistedLabel | script.js:256 | an unlisted key's label is the key with its first character upper-cased and the rest unchanged |
| Picker.TruncateDescription | script.js:394-397 | up to 200 characters are kept unchanged; a longer text becomes its first 200 characters and '...'; never more than 203 |
| Picker.TruncateIdempotent | script.js:394-397 | truncating twice is truncating once |
| History.ToOutgoing | app.py:245-248 | role and content are copied, defaulting to 'user' and '' |
| History.LastEntries | app.py:244 | `history[-6:]`: the last min(6, n) entries, in order |
| History.Prepared | app.py:240-254 | min(6, n) + 1 messages: the newest entries converted in order, then the user's message |
| History.PrepareMessages | app.py:243-254 | the loop builds exactly the prepared list |
| Js.Field | script.js:524-531 | a property read gives the object's own value when it has the key, and `undefined` otherwise |
| Relay.InspectDelta | app.py:527-533 | a delta whose content is a string is forwarded; any other content raises TypeError at `+=` |
| Relay.QuietPayloadSilent | app.py:527-530 | a payload with no 'choices', an empty 'choices', or a first delta without 'content' yields nothing |
| Relay.StripDone | app.py:519 | `'[DONE]'.strip()` is the marker itself |
| Relay.DoneMarkerLine | app.py:516-519 | `data: [DONE]` is the done marker |
| Relay.PaddedDoneMarkerLine | app.py:516-519 | whitespace around the marker is stripped before the test |
| Relay.UnspacedDoneMarkerLine | app.py:516 | `data:[DONE]`, without the space, is passed over |
| Relay.QuietLinePasses | app.py:513-539 | empty lines, lines without `data: `, undecodable JSON and quiet payloads yield nothing |
| Relay.Generate | app.py:501-542 | the loop yields exactly the frames `Frames` describes; a refused call yields exactly one error frame |
| Relay.RelayChunks | app.py:530-536 | the chunk frames carry the upstream deltas, in order |
| Relay.RelayPrefix | app.py:519-536 | every frame but the last is a chunk; a final done frame carries the accumulated text plus the chunks and the token count plus their number |
| Relay.RelayDone | app.py:519-522 | a done frame appears exactly when the marker is reached before the end and before a fault |
| Relay.RelayShape | app.py:509-536 | the four facts above, from any point of the stream |
| Relay.StreamFrames | app.py:509-536 | from the start: chunk texts are the deltas; a done frame appears exactly when the marker is reached, only last, with the concatenated chunks as content and the chunk count as `total_tokens` |
| Relay.DoneIsLast | app.py:519-522 | when every frame but the last is a chunk, a done frame can only be last |
| Relay.NoMarkerNoDone | app.py:512-542 | without the marker or a fault, the output is chunks only, plus one final error if reading the lines broke |
| Relay.FaultEnds | app.py:512-544 | an exception on a line ends the output: the chunks of the earlier deltas, then exactly one error frame with that exception |
| Relay.RaisingLineEndsStream | app.py:524-544 | a decoded payload whose inspection raises ends the stream with the earlier chunks and one error frame carrying the exception |
| Relay.InspectRaises | app.py:527-532 | a non-container payload, 'choices' without a length, a non-empty dict as 'choices' and a first choice without `.get` each raise the matching exception |
| Relay.PassingLinesIgnored | app.py:512-539 | lines that pass change nothing, wherever they occur before the rest |
| Relay.QuietLinesIgnored | app.py:513-539 | the quiet lines change nothing, wherever they occur before the rest |
| Relay.DoneStops | app.py:519-522 | nothing after the marker matters: neither later lines nor a later break |
| Client.CanSendIff | script.js:423-429 | sending is possible exactly when the input has a non-whitespace character, a model is chosen and no answer is pending |
| Client.HistoryWindow | script.js:501 | the up to ten messages before the last one, in order; none when there is at most one |
| Client.ApplyConcat | script.js:519-541 | a later part of the stream matters only when the earlier part did not stop it |
| Client.ChunksAppend | script.js:529-530 | without error or done frames the chunk texts are appended in order and the usage is untouched |
| Client.ErrorDiscards | script.js:524-527 | an error frame replaces the text with '💥 ' and the error, whatever came before, and stops reading |
| Client.DoneKeepsText | script.js:531-534 | a done frame keeps the text so far, records its usage, and nothing after it is read |
| Client.SkippedLines | script.js:519-539 | lines that are not data lines, or that fail to parse, leave the message unchanged |
| Client.WholeFrameAppends | script.js:516-530 | a whole chunk frame in one read appends its text |
| Client.SplitFrameIgnored | script.js:512-522 | a data line cut across two reads is not reassembled: neither half changes the message |
| Client.ChatApp.constructor | script.js:2-11 | no messages, no model, not typing, no streaming message, both filters 'all' |
| Client.ChatApp.PopulateModelSelect | script.js:194-229 | one option group per provider of the shown models, in order of first appearance, each with exactly that provider's shown models |
| Client.ChatApp.AddMessage | script.js:684-695 | the message is appended and nothing else changes |
| Client.ChatApp.UpdateStreamingMessage | script.js:587-592 | `String(content)` is appended to the streaming message; without one nothing changes; the streaming index stays inside the list (`Valid`) |
| Client.ChatApp.FinalizeStreamingMessage | script.js:610-612 | the usage is stored on the streaming message; without one nothing changes; the streaming index stays inside the list (`Valid`) |
| Client.ChatApp.HandleStreamingError | script.js:636-639 | the streaming message's text becomes '💥 ' and the error; without one nothing changes; the streaming index stays inside the list (`Valid`) |
| Client.ChatApp.HandleLine | script.js:519-541 | one line changes only the streaming message, as the event it classifies as says, and reports whether it returned; the streaming index stays inside the list (`Valid`) |
| Client.ChatApp.HandleChunk | script.js:516-541 | one read, split on newlines, is applied line by line until a line returns; the streaming index stays inside the list (`Valid`) |
| Client.ChatApp.ReadStream | script.js:512-542 | the reads are applied in order until a line returns; only the streaming message changes; the streaming index stays inside the list (`Valid`) |
| Client.ChatApp.SendStreamingMessage | script.js:477-550 | one assistant message is appended, holding the outcome of the reply; the posted history is `slice(-11, -1)`; afterwards not typing and no streaming message |
| Client.ChatApp.SendMessage | script.js:452-475 | when the guard fails nothing changes; otherwise the trimmed text is appended as a user message, the input is cleared, and the answer streamed |
| Client.ChatApp.Submit | script.js:457-474 | the user message and then the streamed answer are appended, the input is cleared, the model is kept, and the request carries the trimmed text and the window ending with the placeholder |
| Pipeline.FrameLines | app.py:536 | a frame's text splits on newlines into its data line and two empty lines |
| Pipeline.FrameClassified | script.js:520-535 | the client classifies a frame's data line as the frame it came from |
| Pipeline.FrameRead | script.js:516-541 | one frame in one read gives its event and two blank lines |
| Pipeline.TransmitRead | script.js:512-541 | reading the transmitted frames is applying the client's view of each frame in turn |
| Pipeline.SeenChunks | script.js:529-530 | chunk frames are seen as chunk events with the same text |
| Pipeline.ClientViewChunks | script.js:512-542 | chunk frames only: the message is their text, with no usage |
| Pipeline.ClientViewDone | script.js:531-534 | chunks then done: the chunks' text, and the done frame's token count as usage |
| Pipeline.ClientViewError | script.js:524-527 | chunks then an error: '💥 ' and the error text, or the chunks' text when the error text is empty |
| Pipeline.ChunkTextsConcat | script.js:529-530 | the chunk text of two event lists is the concatenation of their chunk texts |
| Pipeline.StreamReachesClient | app.py:509-536 | a stream reaching the marker ends on the client as the done frame's text (every delta) with its token count; a chunks-only stream as the deltas with no usage |
| Pipeline.RefusalReachesClient | app.py:505-507 | a refused request reaches the client as '💥 ' and the upstream error, or as an empty message when that error is empty |
| Pipeline.PostedEndsWithUser | script.js:501 | the posted history ends with the user message just added |
| Pipeline.SentBeforeLast | app.py:243-254 | the message before the server's own user message is the last history entry |
| Pipeline.CurrentMessageSentTwice | script.js:498-501 | the new user message is the last two messages the server sends upstream |
| Pipeline.FiltersAgree | script.js:200-207 | for an entry with pricing, the client's filter keeps a model exactly when the endpoint's filter does |
| Pipeline.UnpricedEntryDiffers | script.js:200-201 | an entry without pricing is shown as paid by the client, while the endpoint's 'paid' filter fails on it |

## Left out

- DOM rendering is left out: `renderMessage`, `renderStreamingMessage`, the typing indicator, status text, `marked`, `hljs`, scrolling and tabs. They only display the message list the model keeps.
- `fetch`, `response.body.getReader()`, `requests`, the Flask routes and `send_from_directory` are left out. A reply is given as its status and the list of texts its reads return.
- `TextDecoder` and UTF-8 decoding are left out. Reads and upstream lines are given already decoded.
- `JSON.parse`, `json.loads`, `json.dumps` and `str(e)` are parameters. The text of a raised exception is the `describe` parameter, applied to the kind of fault.
- JSON numbers are modelled by their integer value. Floating point is not modelled.
- Timestamps (`new Date()`, `datetime`) are not modelled.
- A reader that rejects in the middle of the stream is not modelled. `fetch` rejecting outright is (`Unreachable`).
- `sendRegularMessage` and `chat_with_model`'s reply handling are left out. `useStreaming` is always true; the message preparation they share is modelled.
- `chat_stream`'s request checks (missing data, model or message) are left out. So is `chat_with_model_streaming`'s own exception handling, beyond the failure dict `generate` receives.
- `response.iter_lines()` splitting is left out. Upstream lines are given already split.
- A posted `history` that is not a list is left out. Entries are JSON objects whose role and content the server reads.
- `load_api_key`, the upstream catalogue request and the random creature names are left out.
- `formatNumber`, `formatContextLength` and `formatTime` are left out. They are locale or float formatting.
- start.py is not part of this model.
- Tags.GenerateModelCategories: returns a set, because `list(set(categories))` has no order Python specifies; the list's order is not modelled.
- Catalog.TitleFrom: `str.title()` and the case mapping are modelled on ASCII letters only.
- Tags.KeywordTags: the keyword search lower-cases the name, description and id with ASCII rules only; Python's `str.lower()` is Unicode-aware (U+212A KELVIN SIGN lowers to 'k'), so a keyword written with such characters is missed here.
- Catalog.ToEntry: the entry's id is the record's id read as `model.get('id', '')`; the source builds it with `model.get('id')`, which is null for a record without an id, and a client would then fail on `model.id.split('/')` where the model files the entry under 'other'.
- Picker.Capitalize: `toUpperCase` is modelled on ASCII letters only.
- Picker.TruncateDescription: lengths are counted in code points, where JavaScript counts UTF-16 code units.
- Picker.GroupModelsByProvider: the key order of a JavaScript object is its insertion order only for keys that are not array indices. A provider key such as "123" would be listed first. Keys that clash with `Object.prototype` names (such as `constructor`) are not modelled.
- Picker.FormatProviderName: a key that names an `Object.prototype` property is not modelled.
- Client.ChatApp.SendMessage: the `isTyping = true` between the guard and the stream is not observable in the postconditions, because the send runs as one sequential step.
