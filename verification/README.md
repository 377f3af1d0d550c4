# Korean–English Telegram relay: store and relay rules in Dafny

This project models the core of a customer-service relay. Users write in Korean to a Telegram bot.
An operator reads the English translations in a web console and answers in English. The answer
is translated to Korean and delivered through the bot. The model covers five parts:

- the in-memory conversation store (`lib/store.ts`): an append-only log of messages plus a
  per-chat grouping that holds the same records;
- the `Conversation` summaries derived from the grouping, ranked by last activity;
- the bot's inbound `message` handler and the outbound `sendMessage` (`lib/telegram.ts`);
- the Telegram webhook `POST` handler (`app/api/webhook/route.ts`);
- the request checks of the translation API (`app/api/translate/route.ts`).

Every operation is a pure function from the store and the event to the new store and the
result. The translation gateway and the Telegram delivery call are function values passed in
(`Gateways.Translator`, `Gateways.Deliverer`). Each relay also returns the list of gateway calls
it made, in order, so "no delivery was attempted" and step order are part of its contract.
Timestamps are caller-supplied `nat` milliseconds. Ids are caller-supplied strings that no stored
message carries yet (`Store.Fresh`), which is what `generateId` intends.

The store keeps three views:

- the log;
- the grouping map;
- the key insertion order of that map, which is the order its `forEach` visits.

`Store.Valid` is the invariant. Ids are distinct. The groups are exactly the chat keys of the log.
Each group is the log filtered by chat key, in log order, so no group is empty. The key order is
the order in which chats first appeared. Every store operation keeps `Valid`. In the source, a
status change shows in the group because group and log share the record object. Here both views
are values, and `UpdateMessageStatus` updates both.

Files:

- `types.dfy`: records;
- `seqs.dfy`: keyed filtering;
- `sorting.dfy`: a stable insertion sort with its sortedness, permutation and stability lemmas;
- `jsvalues.dfy`: JavaScript truthiness, `||`, `toString` and `parseInt`;
- `store.dfy`, `conversations.dfy`;
- `gateways.dfy`, `http.dfy`;
- `telegram.dfy`, `webhook.dfy`, `translate_route.dfy`.

## Model

| member | source | states |
|---|---|---|
| Types.Stamp | lib/store.ts:14-18 | the stored message carries every field of the input, plus the given id and creation time |
| Store.AddMessage | lib/store.ts:13-29 | the returned record is the input with the fresh id and the given time; the log grows by exactly that record at its end; the record's chat group is the old group (or a new one) with the record appended; every other group is unchanged; the invariant is kept |
| Store.AddThenRead | lib/store.ts:13-34 | after an add, lookup by the new id finds the new record; that chat's thread is the old thread plus the record; every other chat's thread is unchanged |
| Store.KeyOrderFacts | lib/store.ts:22-26 | the map's key order has no repeats and lists exactly the chat keys of the log |
| Store.NoEmptyGroup | lib/store.ts:22-26 | in a valid store every group is non-empty |
| Store.ChatKeyHasMessagesConverse | lib/store.ts:22-26 | a chat key with no group has no message in the log |
| Store.GetMessagesByChatId | lib/store.ts:32-34 | the result is the chat's messages in insertion order, not re-sorted; it is empty exactly when no stored message has that chat key |
| Store.FindIndex | lib/store.ts:67 | the index of the first message with the id, or none exactly when no message has it |
| Store.GetMessageById | lib/store.ts:66-68 | returns none exactly when no stored message has the id; otherwise returns a stored message with that id |
| Store.UpdateMessageStatus | lib/store.ts:71-84 | for an unknown id it returns none and leaves the store unchanged; for a known id it returns the patched record; the log changes only at that record, which gets the new status; `sentAt` changes only when a time is given; all other fields stay; key order and other groups are unchanged; the change is visible through the chat's group; the invariant is kept |
| Store.UpdateThenRead | lib/store.ts:66-84 | after an update, lookup by the same id returns the record the update returned |
| Store.UpdateIdempotent | lib/store.ts:71-84 | repeating the same update leaves the store as the first update left it |
| Store.SameLogSameStore | lib/store.ts:3-5 | in valid stores the grouping and key order are determined by the log |
| Store.ClearAll | lib/store.ts:87-90 | after a reset the log, the groups and the key order are empty, and the store is valid |
| Store.ClearAllEmptiesChats | lib/store.ts:87-90 | after a reset every per-chat read is empty |
| Sorting.SortBySorted | lib/store.ts:43-45 | the sort's output is ordered by the key |
| Sorting.SortByPermutes | lib/store.ts:43-45 | the sort's output is a permutation of its input |
| Sorting.SortByStable | lib/store.ts:60-62 | elements with equal keys keep their relative input order |
| Sorting.SortByLast | lib/store.ts:46 | the last element after the sort is the last occurrence of a maximal key in the input |
| Sorting.SortByFirst | lib/store.ts:47 | the first element after the sort is the first occurrence of a minimal key in the input |
| Conversations.Summarize | lib/store.ts:41-56 | the count is the group length; the last message is the one the stable sort by creation time puts last; last activity is its creation time; user id and username come from the message the sort puts first |
| Conversations.CollectFacts | lib/store.ts:40-57 | visiting the groups in key order yields one summary per key, in that order, each summarizing that chat's messages |
| Conversations.UnsortedFacts | lib/store.ts:40-57 | before ranking there is one summary per chat key of the log, each summarizing that chat's messages, listed in the order in which the chats first appeared |
| Conversations.GetAllConversations | lib/store.ts:37-63 | one entry per chat key; each entry summarizes that chat's messages; last activity is non-increasing; entries with equal last activity keep the order in which their chats first appeared |
| Conversations.ClearAllNoConversations | lib/store.ts:87-90 | after a reset there are no conversations |
| JsValues.ParseIntOfIntToString | lib/telegram.ts:109-112 | `parseInt` of a printed integer gives back that integer |
| JsValues.ParseIntIgnoresTail | lib/telegram.ts:109 | `parseInt` reads the leading digits of a printed number and ignores any non-digit tail ("12ab" and "12x" give 12); only a lone "0" followed by "x" or "X" is read as hexadecimal instead |
| Telegram.SenderId | lib/telegram.ts:32 | the sender id, or 0 when there is no sender |
| Telegram.SenderName | lib/telegram.ts:33 | the name is never empty; it is the username when that is a non-empty string, else the first name when that is a non-empty string, else "Unknown", which is also the name when there is no sender |
| Telegram.HandleMessage | lib/telegram.ts:19-63 | a message from a non-private chat, or one without text, changes nothing and calls nothing; otherwise there is exactly one Korean-to-English translation call and exactly one record is appended: inbound, Korean, `sent`, the original text, the sender defaults, and the translation or (when it failed) the original text; other fresh ids stay fresh |
| Telegram.InboundTranslationNonEmpty | lib/openai.ts:41-44 | with a gateway that never returns an empty or untrimmed translation, every inbound record's translated text is non-empty |
| Telegram.NumericOrZero | lib/telegram.ts:155 | `parseInt(chatId) \|\| 0` is 0 for NaN and the parsed value otherwise |
| Telegram.RecordFailure | lib/telegram.ts:152-161 | appends exactly one `failed` outbound English record; it has platform id 0, no sent time, the translation it would have sent, and user id `parseInt(chatId) \|\| 0` |
| Telegram.RecordDelivery | lib/telegram.ts:121-132 | appends exactly one outbound English record; it carries the platform message id and the translation, and ends `sent` with the given sent time |
| Telegram.DeliverAndRecord | lib/telegram.ts:114-173 | one delivery call to the parsed chat id; a success yields the platform id and a `sent` record; a failure yields the message chosen by provider code (403, 400, other truthy code, none) and a `failed` record |
| Telegram.SendTranslated | lib/telegram.ts:106-174 | after a successful translation exactly one outbound record is appended; an unparsable chat key fails with the invalid-chat-id message, makes no delivery call and records a failure; otherwise the single delivery's outcome decides the result and the record's status |
| Telegram.SendMessage | lib/telegram.ts:81-175 | translation comes first; if it fails, the call fails with "Translation failed: …", makes no delivery and leaves the store unchanged; otherwise the parse, deliver and record steps follow as in `SendTranslated`; the invariant is kept |
| Telegram.ReplyToInboundChat | lib/telegram.ts:31-132 | replying to a chat that wrote in delivers to that chat's id, because the stored chat key parses back to it; the chat's thread then ends with the inbound message followed by the `sent` reply |
| Webhook.Post | app/api/webhook/route.ts:20-79 | a body that is not JSON gives 500 before the secret is looked at; a `null` body passes through the secret check (401 when rejected) and then gives 500 without changing the store; a configured secret with a missing or different header gives 401 and changes nothing; with no secret configured the check is skipped; an update without a relayable message gives `{ok:true}` and changes nothing; a private text message gives `{ok:true}` and appends the same inbound record as the bot handler, with the original text when translation fails |
| Webhook.PostMatchesHandleMessage | app/api/webhook/route.ts:38-67 | an accepted webhook update changes the store and calls the gateway exactly as the bot's handler does for the same message |
| TranslateRoute.ParseLang | app/api/translate/route.ts:16-28 | a language code is accepted exactly when it is "ko" or "en" |
| TranslateRoute.LangCodeRoundTrip | app/api/translate/route.ts:16-28 | accepted codes and languages correspond one to one |
| TranslateRoute.Post | app/api/translate/route.ts:4-40 | a body that is not JSON, or is `null`, gives 500 "Translation failed" without a translation call; otherwise checks run in order: a missing or empty field gives 400 "text, from, and to are required"; then a bad `from` gives 400; then a bad `to` gives 400; valid input (including `from` equal to `to`) makes exactly one translation call and returns the translation with 200, or 500 when the gateway fails; the status is 200 exactly for acceptable input with a successful translation |

## Left out

- The OpenAI client in `lib/openai.ts` is not modelled. Translation is a function value. Its one source-backed property, that a success is non-empty and trimmed (`lib/openai.ts:41-44`), is the predicate `Gateways.Honest`.
- Bot construction, `getBot`, `initTelegramBot` and the `TELEGRAM_BOT_TOKEN` / `OPENAI_API_KEY` checks are not modelled. They are configuration and foreign-library concerns. A missing token is assumed not to happen.
- `node-telegram-bot-api` is not modelled. Delivery is a function value returning either a platform id or the error's code, description and message.
- The UI (`app/page.tsx`, `components/`) is not modelled. It is rendering and browser I/O.
- `app/api/seed/route.ts` is not modelled. It calls `generateSampleData`, which is not part of this model.
- `app/api/messages/route.ts` and the `[chatId]` routes are not modelled. They are thin routing onto the store reads and `sendMessage` modelled here. The chat-thread `GET` route sorts by creation time. `getMessagesByChatId` itself returns insertion order, and `Store.GetMessagesByChatId` follows the store's code.
- Concurrency is not modelled. The source has no locking, and every operation is a single sequential step.
- The clock and randomness are parameters. `generateId`'s uniqueness is assumed through the `Fresh` precondition: `Date.now` plus a random suffix only intends uniqueness.
- Console logging and stack traces are not modelled.
- Numbers are unbounded integers. JavaScript's double precision for very large chat ids and `parseInt` results is not modelled.
- Request bodies are modelled as text that is not JSON (`Http.Malformed`), the JSON value `null` (`Http.Null`), or an object with string or absent fields (`Http.Parsed`). Other JSON values (numbers, arrays, fields of other types) are not modelled, nor webhook updates whose `message` lacks `chat`, which the source turns into 500 through its catch block.
- The `await` on the synchronous store calls in `sendMessage` is treated as a plain call.
