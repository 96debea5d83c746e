# Chat assistant backend: route policy model

A Dafny model of the decision logic in a small Express backend for a chat
assistant. It covers the three chat handlers (`GET /chat/history`,
`POST /chat`, `DELETE /chat/history`), the upload route (`POST /upload`) and
the Mongoose message schema. The database, the hosted text model, the file
system and the parsing libraries become parameters, so each handler is a
pure function. A chat handler takes the message store (a `seq<Message>`
in insertion order) and returns a status, a JSON body and the new store.

Modules:

- `Wrappers`: `Option` and `Result`.
- `Strings`: JavaScript truthiness of an optional string, `slice(0, n)` as a
  sequence prefix, and the `\s` regular-expression class.
- `Decimal`: JavaScript's rendering of a non-negative integer as a decimal
  numeral, with its inverse.
- `MessageSchema`: the `Message` record and schema validation. The role is
  an enumeration of `"user"` and `"ai"`, the text is required, and the
  store stamps `createdAt`.
- `MessageStore`: `save`, `find().sort({createdAt: 1})` and `deleteMany({})`
  over the sequence. Whether the database is reachable is an input to each.
- `Upstream`: what one model call yields: it threw, it had no
  `response.text`, or it produced text.
- `ChatRoute`: the chat handlers and their properties.
- `UploadNaming`: the name a stored upload gets.
- `UploadRoute`: media-type resolution, extractor dispatch, truncation,
  the analysis fallback and the response.

About the code as it stands:

- The code stores the assistant role as `"ai"`.
- A record has no `messageType` or `image` field.
- `POST /chat` does no keyword-based image routing.
- A failed save of the AI record answers 500, like a failed save of the
  user record. It is not only logged.

Mongoose's `required` check on a string rejects `undefined`, `null` and
`""`, and the model keeps that. As a result, a model answer whose text is
the empty string gets through the `result?.response?.text` guard: the guard
tests the accessor, not the value. The AI record then fails validation, and
the request answers 500 with only the user record stored
(`ChatRoute.EmptyModelTextFailsTheRequest`).

## Model

| member | source | states |
|---|---|---|
| `MessageSchema.ParseRole` | models/Message.js:5-8 | a role string is accepted exactly when it is `"user"` or `"ai"`, and an accepted role spells back to the same string |
| `MessageSchema.RoleRoundTrip` | models/Message.js:5-7 | each of the two roles survives being written and read back |
| `MessageSchema.Validate` | models/Message.js:3-16 | a draft is stored iff its role is present and in the enumeration and its text is present and non-empty; the stored record carries the draft's role and text and the store's clock reading |
| `MessageSchema.RoleIsRequired` | models/Message.js:8 | a draft without a role is refused |
| `MessageSchema.TextIsRequired` | models/Message.js:10-13 | a draft with missing or empty text is refused whatever its role |
| `MessageStore.Save` | routes/chat.js:36-37 | a save succeeds iff the database is reachable and the draft validates; it appends exactly one record, the validated one, leaves the earlier records as they were, and keeps the store schema-valid |
| `MessageStore.SortByTime` | routes/chat.js:16 | the history read is ordered by non-decreasing `createdAt` and is a permutation of the store |
| `MessageStore.SortedPermutationUnique` | routes/chat.js:16 | when creation times strictly increase in insertion order, the only sequence sorted by time that holds exactly the stored records is the store itself, so the history order does not depend on how ties are broken |
| `MessageStore.SortSortedIsIdentity` | routes/chat.js:16 | a store whose creation times strictly increase is read back in insertion order |
| `MessageStore.Find` | routes/chat.js:16 | a reachable find returns the records sorted by creation time as a permutation of the store; an unreachable one fails |
| `MessageStore.DeleteAll` | routes/chat.js:69 | a reachable bulk delete leaves no record |
| `ChatRoute.ReplyText` | routes/chat.js:40-50 | the reply is exactly the model's text whenever it produced one, and exactly the fixed apology when the call threw or had no `response.text` |
| `ChatRoute.GetHistory` | routes/chat.js:14-22 | history never changes the store; it answers 200 with the sorted permutation of the store iff the database is reachable, else 500 with the fixed error |
| `ChatRoute.PostChat` | routes/chat.js:27-61 | 400 iff the message is missing or empty, with the store unchanged; the user record is stored before anything else once its save succeeds; 200 iff both saves succeed and the reply is non-empty, and then exactly the user and AI records are appended and the body's reply is the AI record's text; 500 otherwise, with nothing or only the user record appended |
| `ChatRoute.ClearHistory` | routes/chat.js:67-75 | a reachable clear answers 200 with the confirmation and an empty store; otherwise 500 and the store is untouched |
| `ChatRoute.UpstreamFailureAbsorbed` | routes/chat.js:40-56 | a thrown model call or a missing `response.text` still ends in 200 with the apology, which is also what the AI record stores |
| `ChatRoute.UpstreamDoesNotDecideStatus` | routes/chat.js:41-56 | replacing a non-empty model answer by a failure changes neither the status, nor how many records are stored, nor the records up to and including the user record, nor the role and time of the AI record |
| `ChatRoute.EmptyModelTextFailsTheRequest` | routes/chat.js:45-60 | a model answer with empty text makes the AI save fail schema validation: 500, with only the user record stored |
| `ChatRoute.HandlersKeepStoreValid` | models/Message.js:10-13 | no chat handler ever puts a record without text into the store |
| `ChatRoute.ExchangeReadBackInOrder` | routes/chat.js:16-17 | with a clock that strictly advances, every read sorted by creation time after a successful exchange is the old history followed by the user record and then the AI record |
| `ChatRoute.ClearThenHistoryEmpty` | routes/chat.js:67-71 | clearing succeeds, also on an empty store, and the history read afterwards is empty |
| `Strings.Truncate` | routes/upload.js:119 | `s.slice(0, n)` yields the prefix of `s` whose length is the smaller of `n` and the length of `s` |
| `Decimal.Render` | routes/upload.js:26 | a number renders as a non-empty string of digits without a leading zero; zero renders as exactly `"0"` |
| `Decimal.ParseRender` | routes/upload.js:26 | reading a rendered number back gives the number |
| `Decimal.RenderInjective` | routes/upload.js:26 | distinct numbers render differently |
| `UploadNaming.Sanitize` | routes/upload.js:25 | the sanitized base contains no whitespace and is no longer than the base |
| `UploadNaming.SanitizeIsPerCharacter` | routes/upload.js:25 | the sanitized base keeps each non-whitespace character in place and turns each maximal whitespace run into a single hyphen |
| `UploadNaming.SanitizeIdempotent` | routes/upload.js:25 | a base without whitespace is kept as is, and sanitizing twice equals sanitizing once |
| `UploadNaming.StoredName` | routes/upload.js:23-28 | the stored name starts with the sanitized base and a hyphen and ends with the original extension; it has no whitespace when the extension has none |
| `UploadNaming.StoredNameMiddle` | routes/upload.js:26-27 | between the sanitized base plus a hyphen and the extension, the stored name holds two non-empty digit strings without leading zeros, joined by a hyphen, that a decimal parser reads back as the timestamp and then the random number |
| `UploadNaming.StoredNameDeterminesSuffix` | routes/upload.js:24-27 | for one original name, two uploads with different times or random numbers never get the same stored name |
| `UploadRoute.EffectiveType` | routes/upload.js:41 | the effective type is the declared one if present, else the looked-up one if present, else `application/octet-stream`; it is never empty |
| `UploadRoute.EffectiveTypeIsFirstTruthy` | routes/upload.js:41 | the effective type equals JavaScript's `||` chain, taken as the first truthy value of declared type, looked-up type and the octet-stream default |
| `UploadRoute.ChooseExtractor` | routes/upload.js:43-83 | exactly `application/pdf` goes to the PDF parser; otherwise `text/` goes to the text read, then `image/` to OCR, and anything else to the raw read |
| `UploadRoute.ChosenIsFirstAccepting` | routes/upload.js:43-83 | the chosen extractor is the first of PDF parse, text read, OCR and raw read whose own test accepts the type, so dispatch is ordered and first-match-wins |
| `UploadRoute.ExtractText` | routes/upload.js:40-84 | extraction never fails: the chosen extractor's text when it produced one, and `""` on any failure or missing result |
| `UploadRoute.ExtractUsesOnlyChosen` | routes/upload.js:43-83 | extractors other than the chosen one have no influence on the extracted text |
| `UploadRoute.Prompt` | routes/upload.js:103 | the prompt starts with the header naming the file, its declared type and its size, and what follows the header is the first 8000 characters of the extracted text (all of it when shorter) |
| `UploadRoute.Analysis` | routes/upload.js:101-111 | the analysis is the model's text, `""` when the call resolved without text, and after a thrown call the apology followed by a preview that is a prefix of at most 1000 characters of the text, or `<no text>` when the text is empty |
| `UploadRoute.PostUpload` | routes/upload.js:87-131 | never 500; 400 exactly when no file arrived; an unexpected error gives the fixed failure body with its message; otherwise the body carries the stored name, the original name, the declared type, the size, the URL of the stored file, `slice(0, 2000)` of the extracted text, and the analysis of the model's answer to the prompt |
| `UploadRoute.UrlNamesStoredFile` | routes/upload.js:93 | the returned URL ends with `/uploads/` followed by the stored file name |
| `UploadRoute.ResponseSeesOnlyPromptPrefix` | routes/upload.js:103-119 | two uploads that differ only in what the extractors yield, with extracted texts that agree on their first 8000 characters, get the same response |
| `UploadRoute.PlainTextExample` | routes/upload.js:54-62 | a `text/plain` upload of `"abc"` with an answering model returns `"abc"` as the extracted text and a non-empty analysis |

## Left out

- Each request is handled as one atomic transition and requests are modelled one at a time. In the code `POST /chat` awaits between its user save, its model call and its AI save (routes/chat.js:37, 42, 54), so another request's save or a `DELETE /chat/history` can land in between; the two-records-appended and read-back-order promises hold only without such interleaving.
- The hosted text model client (routes/chat.js:7-8, 42; routes/upload.js:37-38, 104) is a network call. Its outcome is an input: `Generation` in chat, and a function from prompt to `Generation` in upload.
- Mongoose and MongoDB (`save`, `find`, `deleteMany`, the connection in server.js) are a foreign driver. The store is a sequence, and whether each call reaches the database is a boolean input.
- `ChatRoute.ClearHistory`: a failed `deleteMany` is taken to leave the store unchanged. A partial delete before the failure is not modelled.
- `MessageStore.SortByTime`: records with equal `createdAt` keep insertion order. MongoDB promises no order among ties, so the contract states only sortedness and permutation.
- `POST /chat` bodies whose `message` is not a string (numbers, objects) are not modelled. The message is an optional string.
- Mongoose's own record identity (`_id`, `updatedAt`, `__v`) is not modelled. Only `createdAt` is, because it is the one field the routes order by.
- multer disk storage, the 20 MB size limit and its error path, creating the uploads directory, `fs` reads, pdf-parse and Tesseract are file I/O and foreign libraries. Their results are inputs.
- `Date.now()` and `Math.round(Math.random() * 1e9)` are non-deterministic. They are natural-number inputs, rendered as decimal numerals; JavaScript prints integers below 10^21 that way.
- Node's `path.extname`/`path.basename` splitting is not re-implemented. A file arrives already split into `base` and `ext`, and its original name is `base + ext`.
- `mime.lookup` is an input: its answer for the stored path.
- Where an unexpected error inside `POST /upload` comes from, and how `err?.message || String(err)` turns it into text, are not modelled. The error message is an input.
- JavaScript strings are UTF-16 and `slice` counts code units. The model uses sequences of Unicode scalar values, so truncation counts characters.
- Logging to the console is not modelled.
- routes/image.js (two network fetches and a base64 encoding) is not part of this model.
- server.js (Express wiring, CORS, listening, the global error handler) is not part of this model. It does not mount routes/upload.js, and the upload router is modelled as written.
