# Mist Sales Bot webhook relay, modelled in Dafny

The relay receives chat-message events from the Kommo CRM on `POST /webhook`.
Each event goes through four stages:

1. An HMAC signature gate that gives a verdict only when a signature and a secret are both present.
2. Extraction of the message, from flat form keys or from the nested `message.add[0]`.
3. An ordered cascade of early returns that classifies the message.
4. For an incoming lead message: the lead's recent chat history is fetched, a prompt is sent to an analysis service, and the result is posted back to the CRM as a note.

An outgoing (manager) message is not analysed. It is appended as one line of JSON to an append-only log file.

The model has five modules:

- `JsText` (js_text.dfy): the JavaScript behaviour the relay relies on.
  - Undefined fields and truthiness of string fields.
  - `a || b`, and template interpolation, which renders undefined as `"undefined"`.
  - `Array.prototype.join` and splitting on one character.
  - `String.prototype.trim`, with the WhiteSpace and LineTerminator set of ECMA-262 (sections 12.2 and 12.3).
- `Json` (json.dfy): the part of `JSON.stringify` the log uses.
  - String literals, following QuoteJSONString in section 25.5.2 of ECMA-262: short escapes, and `\u00xx` in lower-case hex for other control characters.
  - Non-negative integers in decimal.
  - A strict reader for both. The reader is the inverse that the round-trip lemmas use.
- `ChatHistory` (chat_history.dfy): `getChatHistory`.
  - The GET it sends: default limit 10, `sort=created_at`.
  - How each outcome of the GET is rendered as text.
- `OutgoingLog` (outgoing_log.dfy): `handleOutgoingMessage`.
  - The record, built with its `||` defaults.
  - Its JSON line, and a decoder for that line.
  - The log file, as a class `Log` whose `lines: seq<string>` field the method appends to.
- `Webhook` (webhook.dfy): the handler in index.js.
  - `Gate` is the decision made up to the analysis call; for an eligible message it includes the awaited history fetch that the prompt is built from. It yields `Forbidden`, `NoValidMessage`, `OutgoingLogged(record)`, `NotIncoming`, `Invalid` or `Analyze(entityId, prompt)`.
  - `Handle` returns the reply together with the external calls, in the order they are made.
  - `Serve` runs the handler against a `Log`.

The handler's collaborators are parameters, collected in `World`:

- the HMAC digest of the re-serialised body;
- the outcome of the history GET;
- the outcome of the analysis call;
- the outcome of the note POST;
- the clock.

`Config` holds `KOMMO_SECRET`, `KOMMO_DOMAIN` and `KOMMO_TOKEN`.

What the handler does that a reader might not expect:

- The note is posted to the legacy `/private/api/v2/json/leads/note/add` endpoint, with `note_type` "4", `element_type` "2" and `element_id`.
- A missing field of the analysis result appears in the note as the text `undefined`.
- The analysis receives the whole prompt: the context header, the history and the client's text.
- There is no technical-phrase denylist in this handler.

A null or undefined analysis result makes `result.language` throw, so the handler answers 500 in that case.

The `!text` condition on index.js:73 can never hold, because line 56 has already returned when the text is empty. `Classify` keeps it, and `InvalidExactly` shows the condition reduces to the id and the record type.

## Model

| member | source | states |
|---|---|---|
| Webhook.ForbiddenExactly | index.js:29-38 | The gate answers Forbidden exactly when a signature and a secret are both present and the digest differs from the signature. |
| Webhook.UnverifiedContinues | index.js:29-42 | Apart from a refused signature, the decision is the same as for a request without a signature. When the signature or the secret is missing, the digest is never consulted. |
| Webhook.FlatMessage | index.js:48-53 | The flat message has only the four message fields, and each equals the value of its flat `message[add][0][field]` key. |
| Webhook.FlatFormWins | index.js:47-54 | A non-empty flat text key makes the message the flat fields, whatever `message.add` holds. Otherwise the message is the first element of `message.add`, or there is none. |
| Webhook.NoValidMessageExactly | index.js:56-59 | Past the signature gate, the outcome is NoValidMessage exactly when the message, its text or its type is missing. The reply is then 200 "No valid message" and no external call is made. |
| Webhook.OutgoingAlwaysLogged | index.js:61-64 | An outgoing message with text is logged with the record of that message and the clock, whatever its entity fields are. The reply is 200 "Outgoing logged" and logging is the only call. |
| Webhook.OutgoingRecord | index.js:61-62 | The logged record is the record of the extracted message. |
| Webhook.NotIncomingExactly | index.js:66-69 | A message with text and type is NotIncoming exactly when its type is neither "outgoing" nor "incoming". |
| Webhook.InvalidExactly | index.js:71-76 | An incoming message with text is Invalid exactly when its entity id is empty or its entity type is not "lead". |
| Webhook.AnalyzeExactly | index.js:71-85 | A request reaches analysis exactly when it passes the signature gate and its message is eligible: incoming, with text, on a lead, with a non-empty id. The prompt is built from that lead's history and the client's text. |
| Webhook.ClassifyPartition | index.js:56-85 | The cascade never yields Forbidden. It sends a message to analysis exactly when the message is eligible. When it logs a message, that message has type "outgoing" and is not eligible. |
| Webhook.Prompt | index.js:81-83 | The prompt is the context header, then the history, then the joint text, then the client's text at the very end, with lengths adding up. |
| Webhook.NoteTextShape | index.js:89-96 | Trimming the template removes only its leading line feed and trailing whitespace. The note is the template's lines with their trailing whitespace dropped, and it starts with the header. |
| Webhook.NoteTextExact | index.js:89-96 | When the recommendation ends in a visible character, the note is exactly the template's lines. |
| Webhook.KeywordsShown | index.js:92 | Keywords that are not an array show as "-". An empty array shows as "", a one-item array as that item, and each further item is appended after ", ", so the items appear in order separated by ", ". |
| Webhook.StatusCodes | index.js:35-124 | The status is 403 exactly for a refused signature. It is 500 exactly when the analysis throws, resolves to nothing, or the note POST throws. It is 200 otherwise. |
| Webhook.NoCallsUnlessAnalyzed | index.js:56-76 | A request the cascade filters out makes no history fetch, analysis call or note post. An outgoing message makes the logging call alone; a refused, invalid or non-incoming request makes no call at all. |
| Webhook.NotePostedAfterAnalysis | index.js:98-119 | A note is posted only after the history fetch and the analysis, in that order. The analysis must have returned a result. The note is filed against the message's entity id and holds that result's note text. |
| Webhook.Serve | index.js:23-124 | The reply is the handler's reply. The log gains exactly the record line when an outgoing message is logged and the file is writable, and is otherwise unchanged. The log's validity is kept. |
| Webhook.Extract | index.js:47-54 | The message: the four flat fields when the flat text key is non-empty, otherwise the first element of `message.add`, if any. Specified by FlatMessage and FlatFormWins. |
| Webhook.Classify | index.js:56-85 | The early-return cascade on the extracted message, ending in NoValidMessage, OutgoingLogged, NotIncoming, Invalid or Analyze with the prompt. Specified by ClassifyPartition and the five *Exactly lemmas. |
| Webhook.Gate | index.js:29-85 | The signature verdict followed by the cascade on the extracted message. Specified by ForbiddenExactly, UnverifiedContinues and AnalyzeExactly. |
| Webhook.NoteText | index.js:89-96 | The trimmed note template filled from the analysis result. Specified by NoteTextShape, NoteTextExact and KeywordsShown. |
| Webhook.NoteFor | index.js:98-116 | The note POST: legacy note/add URL on the configured domain, the token as Authorization, `note_type` "4", `element_type` "2", `element_id` the entity id and the note text. Its use is stated by NotePostedAfterAnalysis. |
| Webhook.Handle | index.js:23-124 | The reply and the ordered external calls for a request. Specified by StatusCodes, NoCallsUnlessAnalyzed, NotePostedAfterAnalysis and the cascade lemmas. |
| ChatHistory.Render | utils/getChatHistory.js:28-43 | The history text for an outcome of the GET: the failure placeholder, the empty placeholder, or the per-message lines joined by line feeds. Specified by RenderPlaceholders and RenderLines. |
| ChatHistory.GetChatHistory | utils/getChatHistory.js:13-43 | Render applied to the outcome of the GET that QueryFor describes. |
| OutgoingLog.EncodeLine | utils/handleOutgoing.js:17-24 | `JSON.stringify` of the record followed by a line feed. Specified by LineRoundTrip and LineIsSingleLine. |
| Json.EscapeChar | utils/handleOutgoing.js:24 | The JSON escape of one character. Specified by ReadEscapedChar (it reads back as that character) and EscapeCharHasNoNewline. |
| ChatHistory.QueryFor | utils/getChatHistory.js:13-24 | The limit defaults to 10 when undefined. Sorting is by `created_at`, and the token is the Authorization header. |
| ChatHistory.MessagesOf | utils/getChatHistory.js:28 | Missing `data`, `_embedded` or `messages` gives the empty list. Otherwise the list is the messages as received. |
| ChatHistory.Speaker | utils/getChatHistory.js:35 | The speaker is "Менеджер" exactly when the direction is "out", and "Клиент" otherwise. |
| ChatHistory.Lines | utils/getChatHistory.js:34-37 | There is one line per message, in order, and each is that message's line. |
| ChatHistory.RenderPlaceholders | utils/getChatHistory.js:28-43 | A failed GET gives "Не удалось получить переписку.". A response without messages gives "Переписка пуста.". |
| ChatHistory.RenderLines | utils/getChatHistory.js:34-39 | Splitting the history on line feeds gives exactly one "<who>: <text>" line per message, in response order, with no trailing line feed. This holds when no text itself contains one. |
| OutgoingLog.RecordOf | utils/handleOutgoing.js:14-22 | The direction is "outgoing". The text is `msg.text` when truthy, else "". The entity id is `entity_id` when truthy, else `element_id`. The creation time is `created_at` when truthy, else the clock. |
| OutgoingLog.LineRoundTrip | utils/handleOutgoing.js:17-24 | Each log line decodes back to the record it was written from, with keys in the order entity_id, direction, text, created_at. |
| OutgoingLog.LineIsSingleLine | utils/handleOutgoing.js:24 | A log line ends with a line feed and contains no other, so each append adds exactly one line. |
| OutgoingLog.Log.HandleOutgoingMessage | utils/handleOutgoing.js:12-30 | The new lines are the old lines plus the record's line, so the old text is a prefix of the new text. A failed write leaves the log as it was, and the call itself never fails. The log stays valid. |
| Json.ReadQuoted | utils/handleOutgoing.js:24 | Reading a JSON-escaped string back gives the string and leaves what follows the closing quote. |
| Json.DecimalValue | utils/handleOutgoing.js:16 | The decimal form of the clock reading reads back as that number. |
| Json.EscapeHasNoNewline | utils/handleOutgoing.js:24 | No escaped string contains a raw line feed. |
| JsText.TrimShape | index.js:96 | `trim()` returns the infix of the string that starts where the leading whitespace ends. Only whitespace lies outside it, and it neither starts nor ends with whitespace. |
| JsText.TrimInfix | index.js:96 | The trimmed string is an infix with only whitespace around it. |
| JsText.TrimEnds | index.js:96 | The trimmed string is empty or has visible characters at both ends. |
| JsText.SplitJoin | utils/getChatHistory.js:39 | Splitting a join on its one-character separator gives the parts back when no part contains the separator. |
| JsText.JoinSnoc | index.js:92 | Joining one more item appends the separator and that item. |

## Left out

- Express setup, body parsing, the `/healthcheck` route and port binding (index.js:13-21, 127-128): these are HTTP plumbing. A reply is a status and a body text, and the body texts of `sendStatus` are Express's status texts "OK" and "Internal Server Error".
- The HMAC-SHA1 computation and the `URLSearchParams` re-serialisation (index.js:30-33): foreign crypto and library code. The digest is an uninterpreted function of the secret and the body.
- The axios calls: the history GET, the analysis POST (utils/analyze.js is not part of this model) and the note POST. They are represented by their outcomes in `World`.
- The outcome of the analysis is used only as a value. The model does not capture HTTP status codes, timeouts or retries.
- `dotenv` and `process.env`: the secret, domain and token are passed in `Config`, and `PORT` is left out.
- `console` logging on every path: it has no effect on replies or on the log.
- Body values that are not strings: form fields, message fields and analysis result fields are strings or undefined. The model does not capture nested objects in message fields, numbers, or a `message.add` that is not an array.
- Webhook.KeywordText: keyword items are strings only. The model does not capture undefined or null items, which `join` prints as the empty string, or items of other types.
- An array-valued `x-signature` header: the header is one string or absent.
- A field that is present but null is treated like a missing one.
- Webhook.Handle: a note POST is either one that completes or one that throws. The model does not capture a response body from it.
- OutgoingLog.Log.HandleOutgoingMessage: a failing `appendFileSync` appends nothing (`writable` is false). The model does not capture a partial write.
- OutgoingLog.Log.HandleOutgoingMessage: the log starts empty and only this method writes to it. The model does not capture content the file already held, or other writers.
- Concurrency between simultaneous webhook requests, and between appends to the log file.
- The technical-phrase denylist, other payload shapes (`data.message`, `payload`, `lead_id`) and the v4 notes endpoint do not occur in this version of the handler.
- Strings are sequences of Unicode scalar values, while JavaScript strings are UTF-16 code units. The model does not capture a lone surrogate, which `JSON.stringify` writes as `\udxxx`; well-formed text is unaffected.
- OutgoingLog.DecodeLine: a strict reader written for the proof. It accepts only the key order and form that `JSON.stringify` produces for these records, not arbitrary JSON.
