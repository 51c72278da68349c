# File Organizer 2000: chat tool cards and the name proxy, in Dafny

This project models two pieces of File Organizer 2000.

- **The tool-invocation card of the AI chat** (`plugin/views/ai-chat/tool-invocation-handler.tsx`).
  When the assistant calls a tool, the chat shows a card with two parts: a title, which
  `getToolTitle` chooses from the tool's name, and a body, which `renderContent` chooses per tool.
  The body is a pending message while the tool runs and a settled message once the invocation
  carries a `result`. Two kinds of card start work of their own while pending:
  - the search card searches the vault for notes containing every word of the query as a whole
    word;
  - the YouTube card fetches a transcript and the video's title.

  Each of these hands what it got to the chat, then reports exactly one result through
  `addToolResult`, tagged with the invocation's `toolCallId`.
- **The `/api/name` route** (`app/pages/api/name.ts`). When `ENABLE_USER_MANAGEMENT` is `"true"`,
  the route checks the caller's key. It then forwards the request body to the OpenAI chat
  completions endpoint with the model forced to `gpt-4-turbo`, and relays the answer.

## Modules

| file | module | contents |
|---|---|---|
| `wrappers.dfy` | `Wrappers` | `Option` |
| `js_value.dfy` | `JsValue` | JSON values and the JavaScript conversions the card depends on: `String(v)` in template literals, truthiness, the loose comparison `v > 1`, and React's rendering of a value placed as a child (an object throws) |
| `text.dfy` | `Text` | ASCII lower-casing, `split(/\s+/)` and the whitespace runs it cuts at, the whitespace trimming `Number(s)` does, first-occurrence `replace`, and the whole-word pattern `(^\|\W)term(\W\|$)` |
| `note_search.dfy` | `NoteSearch` | `searchNotes` |
| `tool_dispatch.dfy` | `ToolDispatch` | `getToolTitle`, `renderContent` and the card, as a view descriptor |
| `tool_actions.dfy` | `ToolActions` | what the search and transcript actions call, in order. The chat's callbacks are a `ChatHost` object recording every call; the search card's React state is a `SearchHandlerState` object |
| `name_proxy.dfy` | `NameProxy` | the route as a decision function from its inputs to an `Exchange` (the response, the token checked, the request forwarded) |

### Inputs

These effects of the program are inputs to the model:
- the vault's files and contents (`VaultOutcome`);
- the transcript and title services (`FetchOutcome`);
- the key service's verdict (`Verification`);
- the upstream reply (`Upstream`);
- the two environment variables.

### How the card's body is modelled

A card body is a `View`, with three cases:
- `NoContent`: `renderContent` returned `null`;
- `Content`: lines of text, plus whether Confirm/Cancel buttons are shown and whether rendering started an action;
- `RenderFailure`: React would throw while rendering the value.

### Words a query matches

A query term matches where the regular expression `(^|\W)term(\W|$)` matches in the lower-cased
content. Word characters are ASCII `[A-Za-z0-9_]`. `\s` is the full ECMAScript whitespace set.

A query with leading or trailing whitespace gives an empty first or last term. That is modelled
as the source does it. For the empty term the pattern degenerates, and `Text.EmptyTermMatches`
states exactly which contents it then matches.

### The settled cards

The settled search card counts the results the component holds in its own React state, not the
settled `result`. The model makes that state an explicit input (`held`). A component mounted
with a result already present holds none, and shows the no-match line.

The settled YouTube card reads `result.error`. The line it shows depends on the value:

| settled result | line shown |
|---|---|
| an object with a truthy `error` | the error line |
| `null` | none: reading the property throws (`RenderFailure`) |
| any other value | the success line |

The chat delivers results as the `JSON.stringify` text that `handleAddResult` sent. For such a
string result, the error line therefore never shows.

## Model

| member | source | states |
|---|---|---|
| `ToolDispatch.ToolTitle` | plugin/views/ai-chat/tool-invocation-handler.tsx:181-206 | the title is never empty, and it is "Tool Invocation" exactly when the name is none of the ten known tool names |
| `ToolDispatch.ToolTitleRoundTrip` | plugin/views/ai-chat/tool-invocation-handler.tsx:181-206 | each known name's title maps back to that name alone. So the ten titles are distinct, and none of them is the fallback |
| `ToolDispatch.ToolName` | plugin/views/ai-chat/tool-invocation-handler.tsx:209-327 | every modelled tool has one of the ten known names |
| `ToolDispatch.ToolNameIdentifiesTool` | plugin/views/ai-chat/tool-invocation-handler.tsx:209-327 | two well-formed calls with the same name are the same tool. So dispatching on the name and dispatching on the call agree |
| `ToolDispatch.Render` | plugin/views/ai-chat/tool-invocation-handler.tsx:339-342 | the card's heading is the title of the invocation's tool name. The body is empty exactly for an unknown tool, and for a well-formed call the heading is the fallback title exactly then |
| `ToolDispatch.RenderContent` | plugin/views/ai-chat/tool-invocation-handler.tsx:208-329 | only an unknown tool has no body. Only a settled confirmation, transcript or file-activity card can fail to render. The Confirm/Cancel buttons show exactly on a pending confirmation, and a shown body has at least one line |
| `ToolDispatch.SearchView` | plugin/views/ai-chat/tool-invocation-handler.tsx:144-165 | one line and no buttons. The search starts exactly while pending, and the pending line ends in "...". A settled card holding results shows a number that reads back as the count held; one holding none shows the no-match line |
| `ToolDispatch.YouTubeView` | plugin/views/ai-chat/tool-invocation-handler.tsx:58-84 | a settled card fails to render exactly on a `null` result. Otherwise it is one line without buttons, and the fetch starts exactly while pending |
| `ToolDispatch.LastModifiedView` | plugin/views/ai-chat/tool-invocation-handler.tsx:266-289 | the card fails to render exactly when the settled count is or contains an object. Otherwise it is one line, with no buttons and no action, and the pending line ends in "..." |
| `ToolDispatch.ActionStartsOnlyWhenPending` | plugin/views/ai-chat/tool-invocation-handler.tsx:144-151 | rendering starts an action exactly for a search or transcript invocation without a result (lines 58-65 for the transcript) |
| `ToolDispatch.TwoPhaseToolsShowOneLine` | plugin/views/ai-chat/tool-invocation-handler.tsx:229-325 | the six one-line tools show a single line, with no buttons and no action, whether pending or settled |
| `ToolDispatch.TwoPhasePendingLine` | plugin/views/ai-chat/tool-invocation-handler.tsx:229-325 | while pending, each of the six shows one line ending in "..." |
| `ToolDispatch.TwoPhaseToolsSettledDiffers` | plugin/views/ai-chat/tool-invocation-handler.tsx:229-325 | for each of the six, the settled card differs from the pending card, whatever the result |
| `ToolDispatch.SettledLineOfTwoPhaseTools` | plugin/views/ai-chat/tool-invocation-handler.tsx:229-325 | four of the six ignore the result's value. The date-range and modify-note cards show `String(result)` after their fixed prefix |
| `ToolDispatch.LastModifiedFilesSettled` | plugin/views/ai-chat/tool-invocation-handler.tsx:266-289 | a falsy count gives the cannot-determine line. A truthy count is shown as React renders it, with "file" plural exactly when `count > 1`. An object count fails to render |
| `ToolDispatch.LastModifiedFilesNumber` | plugin/views/ai-chat/tool-invocation-handler.tsx:270-276 | a non-zero numeric count is shown as its decimal numeral, and the noun is plural exactly when the count exceeds one |
| `ToolDispatch.YouTubeSettled` | plugin/views/ai-chat/tool-invocation-handler.tsx:67-84 | a settled transcript card fails to render exactly on `null`. It shows the error line with `String(error)` exactly when there is a truthy `error`, and the success line otherwise |
| `ToolDispatch.SearchSettled` | plugin/views/ai-chat/tool-invocation-handler.tsx:153-165 | a settled search card shows "Found N matching notes" exactly when it holds N > 0 results, and the no-match line exactly when it holds none |
| `ToolDispatch.ConfirmationCard` | plugin/views/ai-chat/tool-invocation-handler.tsx:238-255 | the buttons are shown exactly while pending, below the question. For a settled result without objects the question is shown first and the result second, and a string result appears verbatim; an object result fails to render |
| `NoteSearch.SearchTerms` | plugin/views/ai-chat/tool-invocation-handler.tsx:102 | the terms are the pieces of a cut of the lower-cased query at its maximal whitespace runs: no term holds whitespace, interior terms are non-empty, and the terms with the runs put back between them give the lower-cased query. The first term is empty exactly when the query is empty or starts with whitespace, the last exactly when it is empty or ends with whitespace |
| `NoteSearch.AllTermsPresent` | plugin/views/ai-chat/tool-invocation-handler.tsx:109-112 | true exactly when every term occurs as a whole word in the content |
| `NoteSearch.ResultFor` | plugin/views/ai-chat/tool-invocation-handler.tsx:114-120 | a result carries the note's basename, path and full original content, and the reference "Search query: " followed by the query |
| `NoteSearch.SearchNotes` | plugin/views/ai-chat/tool-invocation-handler.tsx:100-127 | the search never returns more results than there are notes |
| `NoteSearch.NoteMatchesAllTerms` | plugin/views/ai-chat/tool-invocation-handler.tsx:102-112 | the lower-case, split and every-term pipeline decides exactly the match relation: every term of the lower-cased query occurs as a whole word in the lower-cased content |
| `NoteSearch.SearchNotesSpec` | plugin/views/ai-chat/tool-invocation-handler.tsx:100-127 | the output is the matching notes' results, one each, in vault order: the k-th result belongs to the k-th matching index, the indices strictly increase, and an index is among them exactly when its note matches |
| `NoteSearch.SearchIncludesExactlyMatches` | plugin/views/ai-chat/tool-invocation-handler.tsx:114-126 | every matching note's result is in the output, and every output entry is the result of some matching note |
| `NoteSearch.MatchIgnoresCase` | plugin/views/ai-chat/tool-invocation-handler.tsx:102-110 | matching gives the same answer after lower-casing content and query |
| `NoteSearch.TermsOfTwoWords` | plugin/views/ai-chat/tool-invocation-handler.tsx:102 | "a b" yields exactly the terms lower(a) and lower(b) |
| `NoteSearch.TwoWordQuery` | plugin/views/ai-chat/tool-invocation-handler.tsx:102-112 | a two-word query matches exactly the contents holding both words as whole words. The order of the words does not matter |
| `Text.Lower` | plugin/views/ai-chat/tool-invocation-handler.tsx:102 | lower-casing keeps the length and maps each character on its own |
| `Text.LowerIsLowerAndIdempotent` | plugin/views/ai-chat/tool-invocation-handler.tsx:107 | lower-cased text has no capital letter, and lower-casing it again changes nothing |
| `Text.SplitOnWhitespace` | plugin/views/ai-chat/tool-invocation-handler.tsx:102 | splitting always yields at least one piece. Where the pieces break the text is stated by `Text.SplitIsWhitespaceSplit` and `Text.WhitespaceSplitUnique` |
| `Text.SplitPiecesHaveNoWhitespace` | plugin/views/ai-chat/tool-invocation-handler.tsx:102 | no piece contains whitespace |
| `Text.SplitKeepsEveryOtherChar` | plugin/views/ai-chat/tool-invocation-handler.tsx:102 | the pieces joined together are the text with its whitespace removed. So no non-space character is lost, duplicated or reordered |
| `Text.SplitEmptyPieces` | plugin/views/ai-chat/tool-invocation-handler.tsx:102 | interior pieces are never empty. The first piece is empty exactly when the text is empty or starts with whitespace |
| `Text.SplitLastPiece` | plugin/views/ai-chat/tool-invocation-handler.tsx:102 | the last piece is empty exactly when the text is empty or ends with whitespace |
| `Text.SplitInterleaves` | plugin/views/ai-chat/tool-invocation-handler.tsx:102 | there is one separator fewer than pieces, every separator is a non-empty whitespace run, and the pieces with the separators put back between them give the text |
| `Text.SplitIsWhitespaceSplit` | plugin/views/ai-chat/tool-invocation-handler.tsx:102 | the pieces and separators of `split(/\s+/)` form a cut of the text at maximal whitespace runs |
| `Text.WhitespaceSplitUnique` | plugin/views/ai-chat/tool-invocation-handler.tsx:102 | any cut of a text at maximal whitespace runs is the one `split(/\s+/)` makes. So the pieces are determined by the text alone |
| `Text.SearchBounded` | plugin/views/ai-chat/tool-invocation-handler.tsx:110-111 | true exactly when the term occurs whole-word at some position from `from` on |
| `Text.MatchesBounded` | plugin/views/ai-chat/tool-invocation-handler.tsx:110-111 | `regex.test` is true exactly when the term occurs somewhere, preceded by the start or a non-word character and followed by a non-word character or the end |
| `Text.EmptyTermMatches` | plugin/views/ai-chat/tool-invocation-handler.tsx:110 | the empty term matches exactly the empty text, or a text with a non-word character at its start, at its end, or next to another one |
| `Text.FindFrom` | app/pages/api/name.ts:21 | the position found is an occurrence with none before it. When nothing is found, there is no occurrence anywhere from `from` on |
| `Text.RemoveFirst` | app/pages/api/name.ts:21 | without an occurrence the text is unchanged. Otherwise exactly the first occurrence is cut out, the text around it kept |
| `Text.RemoveFirstOfPrefixed` | app/pages/api/name.ts:21 | a text starting with the pattern loses exactly that prefix |
| `JsValue.IntToDecimal` | plugin/views/ai-chat/tool-invocation-handler.tsx:156 | the numeral reads back as the number, with a leading minus sign for a negative number. It has no leading zero: only 0 is written starting with '0', and the digit after a minus sign is never '0' |
| `JsValue.ParseDecimalOfNatToDecimal` | plugin/views/ai-chat/tool-invocation-handler.tsx:156 | reading a natural number's numeral back gives the number |
| `JsValue.StringToNumber` | plugin/views/ai-chat/tool-invocation-handler.tsx:273 | a string converts exactly when, with its whitespace trimmed, it is empty, all digits, or a single '+' or '-' followed by digits. The value is the digits' decimal value, negated after '-', and 0 for a blank string |
| `JsValue.ParseNumeral` | plugin/views/ai-chat/tool-invocation-handler.tsx:273 | a trimmed text converts exactly when it is empty, all digits, or one sign followed by digits; the value is the digits' decimal value, negated after '-' |
| `Text.TrimPadded` | plugin/views/ai-chat/tool-invocation-handler.tsx:273 | trimming whitespace around a text that neither starts nor ends with whitespace gives back that text |
| `JsValue.StringToNumberOfNumeral` | plugin/views/ai-chat/tool-invocation-handler.tsx:273 | the numeral an integer is written as reads back as that integer |
| `JsValue.NumeralRoundTrip` | plugin/views/ai-chat/tool-invocation-handler.tsx:273 | an integer's numeral with any whitespace around it reads back as the integer |
| `JsValue.PlusSignedNumeral` | plugin/views/ai-chat/tool-invocation-handler.tsx:273 | a leading plus sign before a numeral is accepted |
| `JsValue.MisplacedSignIsNaN` | plugin/views/ai-chat/tool-invocation-handler.tsx:273 | a sign inside the digits, as in "1-2", makes the string NaN |
| `JsValue.BareSigns` | plugin/views/ai-chat/tool-invocation-handler.tsx:273 | a sign with no digits after it is NaN |
| `JsValue.TemplateText` | plugin/views/ai-chat/tool-invocation-handler.tsx:233 | a number's `String(v)` reads back as the number, a string is its own text, and only the empty string and arrays print as nothing |
| `JsValue.Truthy` | plugin/views/ai-chat/tool-invocation-handler.tsx:270 | a value is truthy exactly when it is not one of `null`, `false`, `0` and `""` |
| `JsValue.GreaterThanOne` | plugin/views/ai-chat/tool-invocation-handler.tsx:273 | a value greater than one is truthy. For a number the comparison is the plain one, and `null`, booleans and objects are never greater than one |
| `JsValue.ChildText` | plugin/views/ai-chat/tool-invocation-handler.tsx:273 | a number or string child shows `String(v)`, `null` and booleans show nothing, and a non-array child fails exactly when it is an object |
| `JsValue.GreaterThanOneOfNumber` | plugin/views/ai-chat/tool-invocation-handler.tsx:273 | `n > 1` holds for the number n and for its numeral alike, exactly when n exceeds one |
| `JsValue.ChildTextFailsOnlyOnObjects` | plugin/views/ai-chat/tool-invocation-handler.tsx:273 | rendering a value as a child fails exactly when it is or contains an object. `null` and booleans render as nothing, and other scalars render as `String(v)` |
| `JsValue.ChildrenTextFailsOnlyOnObjects` | plugin/views/ai-chat/tool-invocation-handler.tsx:243 | an array child fails to render exactly when one of its elements fails |
| `ToolActions.SearchEvents` | plugin/views/ai-chat/tool-invocation-handler.tsx:129-142 | the one report, under the card's id, comes last. It is an error exactly when the vault could not be read, and the matches are handed to the chat first exactly when it could |
| `ToolActions.SearchReportsOnce` | plugin/views/ai-chat/tool-invocation-handler.tsx:129-142 | a search reports exactly one result under its own call id: the matches when the vault was read, `{error}` with the vault's message otherwise |
| `ToolActions.TranscriptEvents` | plugin/views/ai-chat/tool-invocation-handler.tsx:43-56 | the one report, under the card's id, comes last. It is an error exactly when a fetch failed, and the transcript and title are handed to the chat first exactly when both fetches succeeded |
| `ToolActions.TranscriptReportsOnce` | plugin/views/ai-chat/tool-invocation-handler.tsx:43-56 | a transcript fetch reports exactly one result under its own call id. It is an error exactly when a fetch failed, carries the first failure's message, and otherwise carries the transcript, the title and the video id |
| `ToolActions.ActionEvents` | plugin/views/ai-chat/tool-invocation-handler.tsx:43-65 | a render makes calls exactly for a pending search or transcript card (lines 144-151 for the search), and they end in the one report under the invocation's id |
| `ToolActions.RenderReportsOnceIfStarted` | plugin/views/ai-chat/tool-invocation-handler.tsx:144-151 | a render reports once, under the invocation's id, when it started an action, and never otherwise |
| `ToolActions.ChatHost.AddToolResult` | plugin/views/ai-chat/tool-invocation-handler.tsx:11 | the report is appended to the chat's record of calls |
| `ToolActions.ChatHost.OnSearchResults` | plugin/views/ai-chat/tool-invocation-handler.tsx:18-25 | the delivered results are appended to the chat's record of calls |
| `ToolActions.ChatHost.OnYoutubeTranscript` | plugin/views/ai-chat/tool-invocation-handler.tsx:13-17 | the delivered transcript is appended to the chat's record of calls |
| `ToolActions.SearchHandlerState.constructor` | plugin/views/ai-chat/tool-invocation-handler.tsx:99 | a search card starts out holding no results |
| `ToolActions.SearchHandlerState.SetResults` | plugin/views/ai-chat/tool-invocation-handler.tsx:133 | the held results become the search's results |
| `ToolActions.HandleAddResult` | plugin/views/ai-chat/tool-invocation-handler.tsx:177-179 | a result is reported under the card's call id, and nothing else is called |
| `ToolActions.HandleSearchNotes` | plugin/views/ai-chat/tool-invocation-handler.tsx:129-142 | appends the search's calls and exactly one report, equal to the value returned. It is an error exactly when the vault read failed. On success the card holds the matches; on failure its state is unchanged |
| `ToolActions.HandleYouTubeTranscript` | plugin/views/ai-chat/tool-invocation-handler.tsx:43-56 | appends the transcript's calls and exactly one report, equal to the value returned |
| `ToolActions.RenderToolInvocation` | plugin/views/ai-chat/tool-invocation-handler.tsx:208-227 | the card is the render of the invocation with the state as it was. The calls made are those of the started action, with one report more exactly when an action started. After a pending search over a readable vault the card holds the search's matches; after anything else its held results are unchanged. A settled invocation calls nothing |
| `NameProxy.ExtractToken` | app/pages/api/name.ts:21 | the token is the header itself exactly when "Bearer " does not occur in it, and otherwise is seven characters shorter |
| `NameProxy.BearerHeaderToken` | app/pages/api/name.ts:21 | a header in the Bearer scheme yields exactly the credentials after "Bearer " |
| `NameProxy.TokenFromInnerBearer` | app/pages/api/name.ts:21 | "Bearer " is cut out from the middle of a header too: after any text without a 'B', the text around it is kept, so "Token Bearer abc" yields "Token abc" |
| `NameProxy.UpstreamAuthorization` | app/pages/api/name.ts:38-50 | the outgoing header always starts with "Bearer " |
| `NameProxy.UpstreamAuthorizationRoundTrip` | app/pages/api/name.ts:38-50 | token extraction applied to the outgoing header gives back the configured key, or "" when the key is unset or empty |
| `NameProxy.ForwardBody` | app/pages/api/name.ts:40-44 | the forwarded body has the request's keys plus `model`. `model` is "gpt-4-turbo", and every other key keeps its value |
| `NameProxy.ForwardBodyOverridesModel` | app/pages/api/name.ts:40-44 | a client-supplied `model` makes no difference, and forcing the model twice is forcing it once |
| `NameProxy.Authenticate` | app/pages/api/name.ts:13-36 | the gate opens exactly when the flag is not "true" or a header carries a valid key. A refusal is 401 or 500 and carries the checked token exactly when a header is present. Only the invalid key's 401 `{message: "Unauthorized"}` is written to `res` |
| `NameProxy.Relay` | app/pages/api/name.ts:53-62 | the upstream's 401 becomes 401 `{message: "Invalid API key"}`. Any other upstream status with a JSON body becomes 200 with that JSON unchanged. Everything else becomes 500 `{message: "Error"}` |
| `NameProxy.Handle` | app/pages/api/name.ts:13-62 | the request is forwarded exactly when the flag is not "true" or a header carries a valid key. A token is checked exactly when the flag is "true" and a header is present. Every answer is 200, 401 or 500, and 200 only after forwarding |
| `NameProxy.NoGateUnlessEnabled` | app/pages/api/name.ts:13-37 | with the flag anything but "true", no token is checked and the answer is the upstream's relay, whatever the header or the key service say |
| `NameProxy.MissingHeaderRefused` | app/pages/api/name.ts:16-20 | with the flag on and the header missing or empty, the answer is 401 "No Authorization header", and nothing is checked or forwarded |
| `NameProxy.VerifyOutcomes` | app/pages/api/name.ts:21-35 | with the flag on, the token of the header is checked. A key-service error gives 500 "Internal Server Error", whatever validity would be. An invalid key gives 401 `{message: "Unauthorized"}`. Neither forwards, and a valid key forwards |
| `NameProxy.ForwardedRequest` | app/pages/api/name.ts:38-52 | a forwarded request carries the forced model and "Bearer " followed by the key, and the answer is the upstream's relay |
| `NameProxy.UnsentRefusals` | app/pages/api/name.ts:18-27 | as written, a missing header and a key-service error send no response at all, where the intended route sends 401 and 500 |
| `NameProxy.HandleAsWritten` | app/pages/api/name.ts:13-62 | as written, the route sends nothing exactly when the flag is "true" and the header is missing or the key service errs. Everywhere else it sends what the intended route sends |

## Findings

| source | as written | input that shows it | evidently intended | confidence | as-written member | corrected member |
|---|---|---|---|---|---|---|
| app/pages/api/name.ts:18-27 | the missing-header and key-service-error branches return a `new Response(...)` object. A Next.js pages API route answers only through `res`, so no response is sent and the request is left hanging | `ENABLE_USER_MANAGEMENT="true"` and no `Authorization` header, or a header when the key service returns an error | answer 401 "No Authorization header" and 500 "Internal Server Error", as the invalid-key branch does through `res`. Line 33 keeps the same `new Response` form commented out, replaced by a `res` write | high; not executed | `NameProxy.UnsentRefusals` (on `NameProxy.HandleAsWritten`) | `NameProxy.Handle` |

## Left out

- Rendering: the JSX markup, CSS classes and the `framer-motion` animation are not modelled. The card is a view descriptor (`Card`, `View`).
- Buttons: the Confirm/Cancel buttons have no click handlers, so clicking them changes nothing and is not modelled. Only their presence is.
- Re-renders: each render of a pending search or transcript card starts its action again. The model covers a single render (`RenderToolInvocation`); repeated renders and their repeated reports are not modelled.
- Concurrency: `Promise.all` reads notes concurrently. The model reads them in order, which gives the same output order. The vault read is an input that either yields every note or fails with the first error.
- Callbacks: `onSearchResults`, `onYoutubeTranscript` and `addToolResult` are assumed not to throw. A throwing callback would turn a success into a reported `{error}`.
- Payloads: `JSON.stringify` is left as an abstract payload constructor (`Payload`); the exact text is not modelled. The `error.message` of a failure is the failure's message.
- Tool arguments: they are typed fields of `ToolCall` (`days` is an integer). A missing or malformed argument, which would render as `undefined`, is not modelled.
- Numbers: JSON numbers are integers. Floating point, exponent notation and `undefined` are not modelled.
- `JsValue.StringToNumber`: models `Number(s)` for integer numerals only: optional surrounding whitespace, an optional sign, digits, or a blank string. JavaScript also reads decimals ("2.5"), exponents ("1e3"), hexadecimal, binary and octal literals ("0x10") and "Infinity" as numbers; the model reads them as NaN. So a settled file count of "2.5" gives "files" in the source but "file" in the model.
- `Text.LowerChar`: lower-cases ASCII letters only; Unicode case mapping is not modelled.
- `Text.MatchesBounded`: reads every term literally. A term containing a regular-expression metacharacter changes the pattern's meaning in the source, and can make `new RegExp` throw.
- Transcript parse error: the `catch` at plugin/views/ai-chat/tool-invocation-handler.tsx:67-76, with its "Error parsing the transcript result" line, is not modelled. Reading a property of the invocation object cannot throw, so that branch is unreachable.
- `NoteSearch.SearchNotes`: its own contract bounds only the length. The full characterisation is `NoteSearch.SearchNotesSpec`, stated over the ghost index sequence.
- Foreign calls: the YouTube transcript and title services, the Obsidian vault, Unkey's `verifyKey`, `fetch` to OpenAI, `process.env` and `console` are inputs or left out.
- `NameProxy.ExtractToken`: removes the first occurrence of the exact text "Bearer ", as the source does. It is not a parse of the Bearer scheme of section 2.1 of RFC 6750, so the scheme name is case-sensitive and an inner occurrence is cut out too.
- Request body: it is a JSON object (`map<string, Value>`). A non-object body spread into the forwarded data is not modelled.
