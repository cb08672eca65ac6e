# Chat transcript core of the "Lucy" support widget, in Dafny

The widget is a floating chat window backed by a Next.js route and a MongoDB collection. This project models
its message lifecycle, in four parts:

- **The transcript route** (`app/api/messages/route.ts`), module `MessagesRoute`. Class `TranscriptStore` holds
  the `messages` collection as a sequence of documents in insertion order, plus the id generator.
  - `Post` validates the body. An ordinary turn stores the user's text and then the generated reply. A
    greeting stores the same text twice: once as a user document and once as a bot document, with one
    timestamp.
  - `Delete` refuses to clear once the collection holds 10 or more documents. Otherwise it empties the store.
  - `Get` lists every document in non-decreasing timestamp order, each with its id as a string, no id twice.
  - Storage faults are a parameter (`DbFault`), and so are the clock readings. A fault on the second write
    of a turn leaves the user document stored.
- **The completion provider** (`lib/gemini.ts`), module `Gemini`. It builds the prompt from a fixed persona
  prefix and the caller's message, and reads `candidates[0].content.parts[0].text` out of the upstream answer. It never fails:
  - a missing or empty text gives one apology;
  - a thrown call gives a different apology.
- **The conversation view** (`components/ChatModal.tsx`), module `ChatModal`. Class `ChatView` holds
  `messages`, `loading` and `showPrebuiltQuestions`.
  - Sending is optimistic: a temporary message first, then the server's two records, or its removal if the
    request throws.
  - The prebuilt questions are shown iff the loaded transcript is exactly one bot message that contains the
    marker "Hey! I am your assistant Lucy".
  - "New chat" resets the view whatever status the DELETE returned.
- **The input guard** (`components/MessageInput.tsx`), module `MessageInput`. Class `InputField` sends its text
  only when the text is not blank and no send is in flight, then clears the field. The `disabled` value the
  view passes for 10 or more messages is not a prop of the input, so it has no effect.

Module `Scenarios` composes the view with the route. `BootstrapThenReload` proves that a fresh bootstrap leaves
two documents in the store. So on reopening the widget the prebuilt questions stay hidden and the greeting
appears twice. `NewChatAtLimit` proves that "new chat" at the limit shows a fresh conversation while the store
grows by two documents.

Helper modules: `Text` models JavaScript's `trim`, `includes` and integer `toString`. `Messages` holds the
message types and the greeting text. `Wrappers` holds `Option`.

Behaviour of the code worth noting:

- A greeting POST stores two documents (user and bot), not one assistant message.
- An empty `content` string is rejected with 400, as is a missing or non-string one.
- A malformed upstream answer and a failed call produce two different apology strings.
- A POST answered with 400 or 500 leaves the temporary message on screen. Only a request that throws
  retracts it.
- The 10-message ceiling is advisory on the client too: the input ignores the `disabled` value.

## Model

| member | source | states |
|---|---|---|
| `Text.TrimStartStrips` | components/MessageInput.tsx:16 | the result is the suffix left after removing leading whitespace: everything removed is whitespace and what remains starts with a visible character |
| `Text.TrimEndStrips` | components/MessageInput.tsx:16 | the result is the prefix left after removing trailing whitespace: everything removed is whitespace and what remains ends with a visible character |
| `Text.BlankIffAllWhitespace` | components/MessageInput.tsx:16 | `!s.trim()` holds exactly when every character of `s` is whitespace |
| `Text.TrimmedEndsVisible` | components/ChatModal.tsx:102 | a text that is not blank trims to a string with a visible first and last character |
| `Text.ContainsIff` | components/ChatModal.tsx:82 | the left-to-right scan for `includes` is true exactly when the needle occurs at some index |
| `Text.DigitChar` | components/ChatModal.tsx:108 | a digit value below ten becomes the decimal digit character of that value |
| `Text.DigitValue` | components/ChatModal.tsx:108 | a digit character yields a value below ten that renders back to the same character |
| `Text.NatToString` | components/ChatModal.tsx:108 | `toString` of a clock reading is a non-empty string of decimal digits with no leading zero |
| `Text.ParseNatToString` | components/ChatModal.tsx:108 | reading back a rendered number gives that number |
| `Text.NatToStringInjective` | components/ChatModal.tsx:56 | distinct numbers render as distinct strings, so distinct clock readings give distinct local ids |
| `Messages.IdText` | app/api/messages/route.ts:16 | a stored id turned into a string is all digits and parses back to the id |
| `Messages.ToRecord` | app/api/messages/route.ts:14-17 | serialising a document keeps content, sender and timestamp, and its id string parses back to the stored id |
| `Messages.ToRecordIdsDistinct` | app/api/messages/route.ts:14-17 | documents with different ids serialise with different id strings |
| `Messages.GreetingHasMarker` | components/ChatModal.tsx:57-82 | the canonical greeting contains the marker the load path looks for |
| `Gemini.Prompt` | lib/gemini.ts:20 | the prompt is the fixed persona prefix followed by the caller's message |
| `Gemini.PromptInjective` | lib/gemini.ts:20 | distinct messages give distinct prompts |
| `Gemini.Complete` | lib/gemini.ts:30-38 | an extracted reply is never empty |
| `Gemini.GenerateReply` | lib/gemini.ts:8-39 | the prompt sent upstream is the persona prefix followed by the caller's message; the reply is never empty; it is the first candidate's first text when that text is non-empty; it is the "couldn't generate" apology when any level of the path is missing or the text is empty; it is the "error processing" apology when the call throws or the answer is `null` |
| `Gemini.FallbacksDiffer` | lib/gemini.ts:34-38 | the malformed-answer apology and the failed-call apology are different strings |
| `Gemini.OnlyFirstPartRead` | lib/gemini.ts:30-31 | whatever candidates and parts follow the first ones, a well-formed answer yields its first text, or the malformed-answer apology when that text is empty |
| `Gemini.EmptyCandidatesMalformed` | lib/gemini.ts:30-34 | an empty `candidates` array counts as a malformed answer, not as a failed call |
| `MessagesRoute.InsertByTime` | app/api/messages/route.ts:11 | inserting a document into a timestamp-sorted list keeps it sorted and grows it by one |
| `MessagesRoute.InsertAddsOne` | app/api/messages/route.ts:11 | inserting adds exactly that one document to the list's multiset |
| `MessagesRoute.SortByTime` | app/api/messages/route.ts:11 | sorting by timestamp yields a non-decreasing permutation of the documents |
| `MessagesRoute.Records` | app/api/messages/route.ts:14-17 | the formatting `map` keeps the number of documents |
| `MessagesRoute.RecordsAt` | app/api/messages/route.ts:14-17 | the formatting `map` serialises each document in place |
| `MessagesRoute.RecordsAppend` | app/api/messages/route.ts:14-17 | serialising a concatenation is the concatenation of the serialisations |
| `MessagesRoute.RecordsRemoveAt` | app/api/messages/route.ts:14-17 | the serialisation loses exactly that document's record when the document is removed |
| `MessagesRoute.RecordsFirst` | app/api/messages/route.ts:14-17 | the records of a non-empty list are the first document's record plus the records of the rest |
| `MessagesRoute.RecordsPreservePermutation` | app/api/messages/route.ts:11-17 | serialising two orderings of the same documents gives two orderings of the same records |
| `MessagesRoute.RecordsKeepOrder` | app/api/messages/route.ts:11-17 | a timestamp-sorted list stays sorted once serialised |
| `MessagesRoute.TranscriptStore.InsertOne` | app/api/messages/route.ts:39-43 | `insertOne` appends one document with a fresh id and changes nothing else |
| `MessagesRoute.TranscriptStore.Post` | app/api/messages/route.ts:26-94 | an unreadable body gives 500 and a bad `content` gives 400, neither storing anything; a failed connection or first insert gives 500 with nothing stored; a failed second insert gives 500 with the user document kept; a greeting stores the text as user and then as bot with one timestamp, returns only the bot record and calls no provider; the provider is called, with the prompt built from the user's text, exactly when an ordinary turn's user document was written; a turn stores the user text and then the generated reply and returns both; no size check, so the store grows by two at any size |
| `MessagesRoute.TranscriptStore.Delete` | app/api/messages/route.ts:97-115 | at 10 or more documents, 400 and nothing changes; below that the store is emptied, an already-empty store included; a connection or delete failure gives 500 with the store unchanged |
| `MessagesRoute.TranscriptStore.Get` | app/api/messages/route.ts:6-23 | a failed connection gives 500; otherwise the result holds every stored document, serialised, exactly once, in non-decreasing timestamp order, no two records sharing an id, and an empty store gives an empty list |
| `MessagesRoute.DistinctIdsCons` | app/api/messages/route.ts:11 | a list has no repeated id exactly when its head's id is not among its tail's and its tail has none |
| `MessagesRoute.InsertKeepsIdsDistinct` | app/api/messages/route.ts:11 | inserting a document by timestamp adds its id to the list's ids, and a new id keeps them distinct |
| `MessagesRoute.SortKeepsIdsDistinct` | app/api/messages/route.ts:11 | sorting by timestamp keeps the set of ids, and keeps them distinct |
| `ChatModal.GreetingMessage` | components/ChatModal.tsx:55-60 | the local greeting, shown alone, brings up the prebuilt questions (it is a bot message with the canonical text) |
| `ChatModal.GreetingIdsDistinct` | components/ChatModal.tsx:56 | greetings made at different clock readings get different `"greeting-"` ids |
| `ChatModal.TemporaryIdsDistinct` | components/ChatModal.tsx:107-112 | temporary messages made at different clock readings get different ids, whatever their texts |
| `ChatModal.GreetingIdIsItsOwn` | components/ChatModal.tsx:56 | a greeting's id never equals a temporary message's id nor a stored document's id string |
| `ChatModal.DropLast` | components/ChatModal.tsx:133 | `slice(0, -1)` gives back the list without its last element, and the empty list for the empty list |
| `ChatModal.ShowSuggestions` | components/ChatModal.tsx:78-83 | a loaded transcript shows the prebuilt questions iff it has exactly one message, from the bot, whose content contains the greeting marker |
| `ChatModal.GreetingAloneShowsSuggestions` | components/ChatModal.tsx:78-83 | a transcript holding only the greeting shows the prebuilt questions |
| `ChatModal.ChatView.constructor` | components/ChatModal.tsx:19-21 | the view starts with no messages, not loading and without prebuilt questions |
| `ChatModal.ChatView.FetchMessages` | components/ChatModal.tsx:47-99 | an empty transcript is replaced by the greeting with questions shown and the greeting is posted; a non-empty one is shown as loaded with questions per `ShowSuggestions`; a failed load shows the greeting and posts nothing |
| `ChatModal.ChatView.BeginSend` | components/ChatModal.tsx:101-115 | blank content changes nothing and sends nothing; otherwise questions are hidden, the temporary message is appended and `loading` set before the POST is issued |
| `ChatModal.ChatView.FinishSend` | components/ChatModal.tsx:127-143 | with both records in the answer the last message is replaced by them; a thrown request removes the last message; any other answer leaves the list; `loading` ends false |
| `ChatModal.ChatView.HandleSendMessage` | components/ChatModal.tsx:101-144 | a successful send ends with the pre-send list plus the two returned records, a thrown one with the pre-send list, an answer lacking a record with the temporary message kept; questions hidden and `loading` false afterwards |
| `ChatModal.ChatView.HandleNewChat` | components/ChatModal.tsx:153-185 | whatever status the DELETE answered with, the view becomes the greeting alone with questions shown and the greeting is posted; only a thrown DELETE leaves the view as it was |
| `ChatModal.SentBodyAccepted` | components/ChatModal.tsx:102-124 | the body posted for a non-blank message passes the route's validation |
| `MessageInput.InputField.constructor` | components/MessageInput.tsx:12 | the field starts empty |
| `MessageInput.InputField.OnChange` | components/MessageInput.tsx:28 | typing overwrites the field |
| `MessageInput.InputField.HandleSubmit` | components/MessageInput.tsx:14-20 | when the text is not blank and nothing is loading, the untrimmed text is sent and the field cleared; otherwise nothing is sent and the field keeps its text |
| `MessageInput.InputField.SendButtonDisabled` | components/MessageInput.tsx:36 | the send button is disabled exactly when a submit would send nothing |
| `MessageInput.SentTextVisible` | components/MessageInput.tsx:16-17 | a text that gets sent is non-empty and holds a visible character |
| `MessageInput.WhitespaceNeverSent` | components/MessageInput.tsx:16 | a whitespace-only text is never sent |
| `Scenarios.SendOutcomeOf` | components/ChatModal.tsx:127-136 | the widget sees both records exactly when the route answered a turn |
| `Scenarios.Reopen` | components/ChatModal.tsx:75-83 | opening the widget on a store of two or more documents shows exactly those records and hides the prebuilt questions |
| `Scenarios.Bootstrap` | components/ChatModal.tsx:53-74 | opening on an empty store shows the questions, and the greeting POST leaves exactly two documents: the greeting as user, then as bot, with one timestamp |
| `Scenarios.BootstrapThenReload` | components/ChatModal.tsx:53-83 | opening on an empty store shows the questions; the greeting POST leaves two documents; reopening loads both greeting records (user and bot) and hides the questions |
| `Scenarios.SendTurn` | components/ChatModal.tsx:101-144 | with a healthy store the view ends with its old list plus the stored user record and the returned bot record, and the store with two more documents, the user's text and then the generated reply; a blank text changes nothing |
| `Scenarios.SendTurnUnsaved` | components/ChatModal.tsx:101-144 | when the user document cannot be written the store is unchanged but the temporary message stays on screen |
| `Scenarios.NewChatAtLimit` | app/api/messages/route.ts:102-106 | at 10 or more documents the DELETE is refused, yet the view shows only the greeting and the store grows by the two greeting documents |
| `Scenarios.SubmitWhileDisabled` | components/ChatModal.tsx:285-289 | the widget's `disabled` value is true from 10 messages on, yet a non-blank text is still sent when not loading |
| `Scenarios.InputOpenAtLimit` | components/MessageInput.tsx:31-36 | from 10 messages on, while not loading the text box stays enabled and, for a non-blank text, so does the send button |

## Left out

- `lib/mongodb.ts`: the client, its connection cache and the environment checks are process setup. The same
  goes for the key check at `lib/gemini.ts:1-3`. A failed connection appears only as the `ConnectFails` fault.
- The HTTP calls, both the upstream one in `lib/gemini.ts` and every `fetch` in `ChatModal.tsx`. Each is
  replaced by its outcome, passed to the handler as a value (`Upstream`, `LoadOutcome`, `Delivery`,
  `SendOutcome`).
- `app/api/gemini/route.ts` is a thin pass-through to the completion provider and is not part of this model.
- Rendering is not part of this model: `components/MessageList.tsx`, `components/FloatingActionButton.tsx`,
  `app/page.tsx` and `app/layout.tsx`. The same goes for the click-outside listener and the
  `isLoadingMessages` spinner in `ChatModal.tsx`.
- `handlePrebuiltQuestion` only calls `handleSendMessage` with the question's text. It is covered by
  `HandleSendMessage` and has no member of its own.
- Clocks and id generation are abstract:
  - every clock reading (`Date.now`, `new Date`) is a natural-number parameter;
  - ISO-8601 formatting of timestamps is not modelled;
  - MongoDB ids are a counter in the store, rendered in decimal rather than as a 24-digit hexadecimal
    `ObjectId`. The code relies only on ids being unique.
- MessagesRoute.TranscriptStore.Get: states only non-decreasing timestamp order, a permutation and distinct ids. MongoDB
  fixes no order between equal timestamps; the model happens to use a stable sort, but nothing is claimed
  about ties.
- ChatModal.GreetingMessage and ChatModal.TemporaryMessage take their id and their timestamp from one clock
  reading `now`. The code reads the clock twice (`components/ChatModal.tsx:56` and `:59`, `:108` and `:111`),
  so the two can differ slightly; only the id's uniqueness across readings is stated.
- The returned `botMessage` timestamp comes from its own clock reading (`replyTime`). It is not claimed to
  equal the stored one (`botTime`).
- A deleteMany that fails (the `FirstWriteFails` fault on DELETE) is taken to leave the collection unchanged.
  Partial deletes are not modelled.
- ChatModal.ChatView.FetchMessages: the model has no case for a GET answered with 500. The code would store
  that `{ error }` object as `messages`, which is not a list, so a sequence cannot hold it.
- Gemini.GenerateReply: a `text` field that is truthy but not a string would be returned as is. The model
  types `text` as an optional string.
- `isGreeting` is reduced to its truth value. `content` is reduced to missing, string or other type.
- Concurrent or overlapping sends and React's state batching are not modelled: handlers run one at a time,
  so the temporary message is the last element when it is replaced or removed.
- `console.error` logging and the exact JSON error strings are not modelled; only the status each response
  carries is.
