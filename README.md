# steffes-chatbot server core in Dafny

This project models the server logic of a Next.js chatbot that relays a conversation to a
language model. It also keeps a usage ledger and lists logged chats on an admin dashboard.
Three API routes are modelled:

- **Chat relay** (`pages/api/chat.ts`). If the system prompt is absent or empty, a default is
  used. The history window walks the messages newest first. It keeps a running token count
  that starts at the prompt's cost and stops at the first message that would break
  `tokenLimit` with 1000 tokens held in reserve. Each exchange is logged as a two-entry
  record. The logged copy of the response stream is materialised by concatenating its byte
  chunks into one buffer.
- **Usage ledger** (`pages/api/usage.ts`). The request body goes through a fixed sequence of
  checks. The user key is the trimmed identity user id, or `anonymous`. Event and summary ids
  are derived from it. The event document is created under its id, and a conflict on that id
  means the event was already recorded. After a successful create, the user's running
  summary is read and upserted, advanced by the event.
- **Dashboard chat listing** (`pages/api/dashboard/chats.ts`). A loosely typed stored chat
  record is projected onto a dashboard row. Malformed records are dropped. The handler
  keeps the rows that project, and maps a thrown error to a status code.

Modules: `Wrappers` (Option), `Json` (parsed JSON values with JavaScript's optional
chaining, `typeof` tests and truthiness), `Identities` (the caller identity), `Chat`,
`Usage` and `Dashboard`.

Several things the source gets from outside are parameters of the model:

- the tokenizer (`count: string -> nat`);
- the default system prompt (its file, `utils/app/const`, is not part of this model);
- the runtime's number-to-text conversion used in the event id (`Ledger.formatNumber`);
- date formatting (`isoOfMillis`, `now`);
- the caller identity (`Option<Identity>`);
- the store's failures (`Faults`).

The store is a `map<string, Doc>` field of the `Ledger` class. It is keyed by document id,
which matches the container's `/id` partition key.

The main results:

- **Window.** `Chat.SelectWindow` returns a contiguous suffix of the messages in
  chronological order. When the suffix is non-empty it fits the budget. The next older
  message would overflow, and a newest message that does not fit alone gives an empty
  window. `Chat.WindowIsLongestFittingSuffix` shows that no longer suffix fits either.
- **Stream bytes.** `Chat.CollectBytes` fills a buffer whose length is the summed chunk
  lengths. The result is the in-order concatenation of the chunks.
- **Ledger invariant.** `Usage.Ledger.Valid` is kept by every `Persist` and `Handle`, so it
  holds after any sequence of submissions. It says every user's stored summary equals the
  sum over the events whose summary update went through. While no summary update has
  failed, those are exactly the distinct event ids created, so a duplicate submission is
  never counted twice (`Usage.SubmitTwice`). This rests on the model's assumption that a
  create or upsert reported as failed wrote nothing (see "## Left out").
- **Log to dashboard.** `Dashboard.LoggedExchangeRow` shows that the row the dashboard
  builds from a logged record carries:
  - the record's id;
  - the content of the last message, whatever its role, as the question;
  - the first 500 characters of the answer;
  - the caller's identity;
  - the model's id and name.

Notes on how the source behaves, which the model follows:

- Each route module builds its own chat logger (`pages/api/chat.ts:15`,
  `pages/api/usage.ts:17`, `pages/api/dashboard/chats.ts:6`), with its own client and its own
  container creation. Each handler awaits its own module's container promise
  (`pages/api/chat.ts:28`, `pages/api/usage.ts:94`, `pages/api/dashboard/chats.ts:51`), which
  settles at most once, so one route's promise can be rejected while another's resolves. A
  promise is rejected when the credentials are missing (`steffes-packages/chat-logger/index.ts:24-26`)
  or when creating the container fails (`steffes-packages/chat-logger/index.ts:51-53`). In that
  case the chat request fails with a 500, because the await sits inside the handler's `try`.
  The usage handler skips the write, and the dashboard applies its error mapping.
- The logged user turn is the content of the last message of the unwindowed list,
  whatever its role. With no messages, reading the last message's content throws inside the
  detached logging task, so nothing is logged (`Chat.LogDocument` returns `None`).
- A `null` or missing usage body throws while its first field is read. The `catch` answers
  200 `{ok:false}`, not 400 (`Usage.Validate` returns `Threw`).

## Model

| member | source | states |
|---|---|---|
| `Chat.PromptToSend` | pages/api/chat.ts:30-33 | an absent or empty prompt is replaced by the default; a non-empty one is sent unchanged |
| `Chat.SelectWindow` | pages/api/chat.ts:35-49 | the window is a chronological contiguous suffix of the messages; when non-empty, prompt tokens + its tokens + 1000 <= tokenLimit; the next older message would overflow; a newest message that does not fit alone gives the empty window |
| `Chat.TakeFitting` | pages/api/chat.ts:38-49 | the loop returns the messages from some index on, in chronological order; they fit the budget when there are any, and the message just before them does not fit; the running count stays the prompt's tokens plus the selected messages' tokens |
| `Chat.WindowIsLongestFittingSuffix` | pages/api/chat.ts:44-46 | once the message before the window does not fit, no longer suffix fits: older messages are never reconsidered and the window is the longest fitting suffix |
| `Chat.SumTokensStep` | pages/api/chat.ts:42-48 | the suffix starting one message earlier costs that message's tokens more: the running count the loop keeps is the suffix's token sum |
| `Chat.SuffixFitsShorter` | pages/api/chat.ts:44-47 | dropping older messages from a fitting suffix keeps it fitting (token counts are non-negative) |
| `Chat.ConcatLength` | pages/api/chat.ts:104-105 | the concatenated bytes are as long as the summed chunk lengths |
| `Chat.ConcatAppend` | pages/api/chat.ts:106-110 | concatenation distributes over splitting the chunk list, so copying chunk by chunk builds the whole |
| `Chat.CollectBytes` | pages/api/chat.ts:103-110 | the buffer length is the sum of chunk lengths and its contents are the in-order concatenation of the chunks; the copy loop keeps pos = total length of the chunks copied so far |
| `Chat.CopyAt` | pages/api/chat.ts:108 | copying a chunk into the buffer at `pos` puts the chunk right after the bytes already there, leaves those bytes unchanged, and leaves every byte after the chunk unchanged |
| `Chat.LogDocument` | pages/api/chat.ts:63-78 | a record is logged exactly when there is a last message; it carries the given id and exactly two entries |
| `Dashboard.LoggedExchangeRow` | pages/api/chat.ts:65-76 | the dashboard row of a logged exchange has the record id, the last message's content as question, the first 500 characters of the answer, the caller's userId/userName/identityProvider (or none) and the model's id and name |
| `Dashboard.FirstOfKind` | pages/api/dashboard/chats.ts:78-79 | `find` stops at the first entry whose who.kind is the given kind, or finds none when no entry has it |
| `Dashboard.Snippet` | pages/api/dashboard/chats.ts:105 | the snippet is a prefix of the answer of length min(500, answer length) |
| `Dashboard.ToItem` | pages/api/dashboard/chats.ts:74-107 | null exactly when id is falsy or questionAnswerTuple is not an array; otherwise the row's id is the document's, its createdAt is the ISO text of a non-zero numeric `_ts` times 1000 (else now), the question is the first user entry's string message (else empty), the snippet is at most 500 characters of the first llm entry's string message, and the optional fields are set only from string values |
| `Dashboard.ProjectAll` | pages/api/dashboard/chats.ts:61-63 | never more rows than records; no rows when no record projects |
| `Dashboard.ProjectAllAppend` | pages/api/dashboard/chats.ts:61-63 | the rows of two batches are the rows of each, in query order |
| `Dashboard.ProjectAllSingle` | pages/api/dashboard/chats.ts:62-63 | a single record yields its row exactly when it projects, and nothing otherwise |
| `Dashboard.ErrorResponse` | pages/api/dashboard/chats.ts:66-70 | a numeric statusCode on the error is the status, else 500; status 500 answers 'Internal Server Error', any other status the error's message |
| `Dashboard.Handle` | pages/api/dashboard/chats.ts:37-71 | non-GET gets 405 'Method Not Allowed'; a listing gets 200 with the projected rows of the resources (or of none); a thrown error gets the error mapping |
| `Usage.Validate` | pages/api/usage.ts:26-61 | the five checks run in order and the first failing one decides the 400 message; a null or missing body throws; an accepted input carries the body's values, and modelId/pricingModelId only when they are strings |
| `Usage.Trim` | pages/api/usage.ts:121 | trim yields the substring of the input left after dropping white space at both ends: everything before and after it is white space, its own first and last characters are not, and it is empty exactly when the input is all white space |
| `Usage.UserKey` | pages/api/usage.ts:121 | the user key is never empty: the trimmed identity userId, or 'anonymous' when the identity is missing or its trimmed userId is empty |
| `Usage.SummaryIdInjective` | pages/api/usage.ts:125 | distinct users have distinct summary ids |
| `Usage.SummaryIdIsNoEventId` | pages/api/usage.ts:124-125 | no summary id equals an event id, so the upsert never overwrites an event |
| `Usage.EventIdHasPrefix` | pages/api/usage.ts:124 | every event id starts with 'usageEvent|' |
| `Usage.Ledger.EventFor` | pages/api/usage.ts:127-140 | the event document is keyed by the deterministic event id, belongs to the user key and adds this submission's cost, tokens and one message |
| `Usage.NextSummary` | pages/api/usage.ts:174-186 | the next summary's counters are the existing ones (or zero) plus the event's cost, input and output tokens and one message; createdAt kept or now, updatedAt now, other properties kept |
| `Usage.CreateKeepsTallies` | pages/api/usage.ts:143-144 | storing a new event document changes no user's summary and no counted total |
| `Usage.UpsertCountsEvent` | pages/api/usage.ts:171-188 | after the upsert, the event's user's summary equals the sum over the counted events including this one, and every other user's is unchanged |
| `Usage.Ledger.Record` | pages/api/usage.ts:142-188 | once the event id is free, the event is stored and listed as created; a failed summary step stores nothing more and counts one failure; otherwise the user's summary is replaced by the advanced one, the event is counted and that user's tally grows by exactly its delta; the ledger invariant is kept |
| `Usage.Ledger.Persist` | pages/api/usage.ts:91-196 | the outcome follows the order unavailable, conflict, create failure, summary failure, recorded; without a create nothing changes; a conflict leaves the store as it was; a create stores the event exactly once; a recorded event advances exactly its user's summary by its delta; the new state is exactly `Persisted` (unchanged, event stored, or event stored and the user's summary replaced by the advanced one); the ledger invariant is kept, and with no summary failure every summary equals the sum over the distinct events created |
| `Usage.Ledger.Handle` | pages/api/usage.ts:19-74 | non-POST gets 405 and writes nothing; a failed check gets 400 with its message and writes nothing; a throwing body read gets 200 {ok:false}; an accepted body gets 200 {ok:true} whatever the store did, and its new state is the one `Persisted` describes for that input: the event is stored unless the container is unavailable or the create fails, and a recorded event advances its user's summary by its delta |
| `Usage.SubmitTwice` | pages/api/usage.ts:142-149 | submitting the same event twice stores it once and advances the user's summary by exactly one event |

## Left out

- The tiktoken encoder is left out, because it is a foreign WASM library. It is the parameter `count`.
- `OpenAIStream`, `ReadableStream.tee()` and the detached logging task are left out, because they are concurrency and foreign code. The handler's 500 response on errors is left out for the same reason.
- Chat.CollectBytes: returns the concatenated bytes; the `TextDecoder` UTF-8 decoding of them is not modelled, and neither is the reader loop that gathers the chunks (the chunk sequence is the input).
- The chat logger is left out, because it is I/O and asynchronous initialisation (`steffes-packages/chat-logger/index.ts`). This covers Cosmos client construction, environment variables and the deferred container promise. A rejected promise is the fault `containerUnavailable` of a call. The model lets that fault vary from call to call, which is more general than a module's promise that settles at most once.
- When `databases.createIfNotExists` fails (`steffes-packages/chat-logger/index.ts:35`), its `catch` only logs (`steffes-packages/chat-logger/index.ts:54-56`) and the container promise never settles. Every later request then waits forever. A request that never answers is not modelled.
- `parseIdentityInfoFromHeaders`, `requireSwaRole` and the loops that copy headers into a `Headers` object are left out. Their file is not part of this model. The identity is an input, and a failed role check is a thrown value given to `Dashboard.Handle`.
- Usage.Ledger.Persist: an exception from the identity parser is not modelled; such an exception would make the handler answer 200 {ok:false}.
- Usage.Ledger.Persist: a create or upsert reported as failed is assumed to have written nothing. In the source, the store can commit a create and still report a failure, for example on a timeout. That event is then stored but never counted, because a retry takes the conflict return (`pages/api/usage.ts:147-148`). The ledger invariant does not hold in that case.
- Usage.Ledger.Persist: a failed summary query and a failed upsert are one fault (`summaryFails`), because both end in the same `catch` and write nothing.
- Usage.Ledger.Persist: each call runs atomically. In the source, two concurrent submissions for one user can interleave their query and upsert and lose an increment. This model does not capture that race.
- Usage.NextSummary: JavaScript number addition is exact `real` addition here. Rounding, `NaN` and infinities are not modelled, and no claim is made about floating-point precision.
- Usage.Ledger.EventFor: the template-string text of `assistantMessageIndex` comes from the parameter `formatNumber`. JavaScript's number formatting is not modelled.
- Dashboard.ToItem: string length and `slice(0, 500)` count Unicode scalar values, not UTF-16 code units.
- Dashboard.LoggedExchangeRow: does not state the row's `createdAt`. The store adds `_ts` when it saves a record, and the dashboard dates rows by it. The store's timestamping is not modelled.
- Dashboard.ToItem: the ISO date conversion is the parameter `isoOfMillis`. The RangeError it throws for out-of-range timestamps is not modelled.
- Dashboard.ToItem: property reads on arrays and strings (such as `length`) read as undefined. The source only reads property names that these values do not carry.
- `pages/dashboard.tsx` (the React UI) and `pages/api/dashboard/usage.ts` (two queries passed through) are left out. The 405 and error mapping of the latter are the ones modelled in `Dashboard`.
- The model's other configuration fields (beyond id, name and tokenLimit) are left out, because no modelled code reads them. Their type's file is not part of this model.
