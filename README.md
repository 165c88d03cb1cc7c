# Weather subscription bot: registration flow and minute tick

A Telegram bot lets a chat subscribe to a daily weather forecast. It takes a
location share and a `HH:MM` time (UTC) and keeps one record per chat in a
document collection. A tick that runs every minute sends the forecast to every
active record whose time is the current minute.

This project models two parts of `index.js`:

- **The registration state machine.** `class Registration.Bot` holds the
  in-memory dictionary `userStates` and the collection `store`, both keyed by
  chat id. Each inbound event has its own method: `/subscribe`, a location
  share, a text message and `/unsubscribe`. Every method returns the kind of
  reply it sends. The outcome of each store call (the lookup, the upsert, the
  delete) is a boolean parameter, and each handler runs as one atomic step.
- **The minute tick.** `Scheduler.Tick` receives the collection by value,
  because the tick only reads it. It selects the due records (`Due`) and then
  runs the delivery loop. `Deliver` specifies that loop. For every chat, the
  fetch and both sends are given as an `Attempt`.

Supporting pure parts:

- `TimeKey` holds the `^\d{2}:\d{2}$` validator, reads a time as hour and
  minute, and cuts the tick's key out of the ISO timestamp.
- `WeatherText` holds the rule that capitalises the first character of the
  description.
- `Scenarios` runs multi-event conversations against a fresh `Bot`, and one
  registration followed by a tick.

The model follows the code in these places:

- `/subscribe` during a pending `AwaitingTime` flow is not ignored. Unless an
  active record exists, it overwrites the entry with `AwaitingLocation`, so an
  abandoned flow can be restarted (`Scenarios.RestartAbandonedFlow`).
- `/unsubscribe` drops the pending entry only when the delete succeeds. The
  `delete` sits inside the `try`.
- The tick does not ignore a failed fallback send. That send is awaited inside
  the inner `catch`, so its failure reaches the outer `catch`. The chats still
  left in the tick then get nothing (`TickEnd.AbortedAt`).
- `/subscribe` has no `catch`. If the lookup fails, the handler itself stops
  with no reply and changes neither `userStates` nor the collection. The
  rejection is unhandled, though, and what the process does with it is not
  part of the model (see `Registration.Bot.Subscribe` under "Left out").

## Model

| member | source | states |
|---|---|---|
| `TimeKey.TimeKeyExamples` | index.js:230 | `08:30` and `99:99` are accepted, with no range check. `8:30`, `08:30 ` (trailing space), `0830` and `08-30` are rejected. |
| `TimeKey.FormatParse` | index.js:230 | Every accepted answer is exactly two digits, a colon and two digits: writing back the hour and minute it is read as gives the same text. |
| `TimeKey.TickKey` | index.js:77-78 | Characters 11 to 16 of `toISOString()` are the instant's hour and minute written as `HH:MM`. The key always passes the validator and reads back as that hour and minute. |
| `TimeKey.DueAtSomeMinuteIff` | index.js:75-85 | An accepted time is the key of some tick if and only if its hour is below 24 and its minute below 60. A stored `99:99` is never due. |
| `WeatherText.UpperCase` | index.js:52 | The result is never a lower-case letter. A character that is not a lower-case letter is unchanged. A lower-case letter is changed, into a capital that `LowerCase` maps back to the same letter. |
| `WeatherText.Capitalise` | index.js:52 | The length is unchanged. Every character after the first is unchanged. The first character is the upper-casing of the original first character, so it is not a lower-case letter. |
| `WeatherText.CapitaliseIdempotent` | index.js:52 | Capitalising an already capitalised description changes nothing. |
| `WeatherText.CapitaliseKeeps` | index.js:52 | A description whose first character is not a lower-case letter is shown as it is. |
| `WeatherText.CapitaliseExample` | index.js:52 | `clear sky` is shown as `Clear sky`. |
| `Registration.NewRecord` | index.js:239-252 | The upserted record is keyed by the chat, is active, and holds exactly the given username, the captured location and the validated time. |
| `Registration.Bot.constructor` | index.js:21 | A new process starts with no pending flows and the collection as it was left. |
| `Registration.Bot.Subscribe` | index.js:169-181 | If the chat has an active record, the reply is its stored time and nothing changes. Otherwise the chat's entry becomes `AwaitingLocation`, overwriting any pending entry, and the store is untouched. If the lookup fails, there is no reply and no change. |
| `Registration.Bot.ShareLocation` | index.js:184-196 | Only a chat in `AwaitingLocation` moves, to `AwaitingTime` holding exactly the shared location, with the time prompt as reply. Every other state and every other chat stays the same and gets no reply. |
| `Registration.Bot.ReceiveText` | index.js:200-264 | Nothing changes and nothing is sent for: no text, empty text, a command, no entry, or an `AwaitingLocation` entry. A malformed answer gets the format error and keeps the entry with its location and the store. An accepted answer upserts the chat's record with the captured location, the time and `isActive`, and leaves every other record alone; if the write fails, the store is unchanged and the reply is the error. In both outcomes the entry is removed. |
| `Registration.Bot.ReceiveTextAsWritten` | index.js:235-262 | As written, an accepted answer always gets the database-error reply and writes no record. The entry is still removed. |
| `Registration.Bot.Unsubscribe` | index.js:123-139 | The chat's record is deleted, active or not. The reply is "unsubscribed" if and only if a record existed, and "never subscribed" otherwise. The entry is removed. If the delete fails, nothing changes, the entry included. |
| `Scheduler.Due` | index.js:82-85 | Every selected record is stored under its chat, is active and has the current key as its time. Every such record listed in the collection's order is selected. |
| `Scheduler.DueSelectsExactly` | index.js:82-85 | If the order lists each key once, a chat is selected if and only if its record is active with the current time. No chat is selected twice. |
| `Scheduler.DueDistinct` | index.js:82-85 | If the order has no repeated key, no chat appears twice among the selected records. |
| `Scheduler.AttemptOne` | index.js:92-99 | A due chat gets the forecast if and only if the fetch succeeds, the `weather` list is non-empty and the send succeeds. It gets the fallback if and only if that fails and the fallback send succeeds. The forecast carries the city and the capitalised first description. |
| `Scheduler.Deliver` | index.js:91-103 | In order, the i-th message is the outcome of the i-th selected record. The loop completes if and only if every record got one message. An abort stops at the first record that got none. |
| `Scheduler.DeliverReachesAll` | index.js:91-100 | If every fallback send succeeds, every selected record gets exactly one message and the tick completes. |
| `Scheduler.FetchFailureGetsFallback` | index.js:92-99 | A failed fetch gets that chat exactly the fallback, and the later records are still served. |
| `Scheduler.TickSendsOncePerChat` | index.js:82-100 | If the order has no repeated key, no chat gets two messages in one tick. |
| `Scheduler.Tick` | index.js:75-104 | A failed query sends nothing. Otherwise the tick's messages are `Deliver` over `Due` for the current key, from the first selected record on. The collection is taken by value and never written. |
| `Scheduler.TickSendsOnlyToDue` | index.js:82-99 | Every message of a tick goes to a chat whose stored record is active and has the current key as its time. |
| `Scenarios.RegisterFlow` | index.js:169-262 | `/subscribe`, a location share, then a valid time gives the replies prompt, prompt, confirmation. Exactly one active record is written, with that location and time. |
| `Scenarios.RegisterFlowAsWritten` | index.js:235-262 | The same conversation against the handler as written ends in the database-error reply. The store is unchanged and no flow is pending. |
| `Scenarios.SubscribeTwice` | index.js:172-176 | After a completed registration, `/subscribe` reports the stored time and leaves the record and the pending flows as they were. |
| `Scenarios.RetryAfterMalformed` | index.js:227-233 | After a malformed answer, a valid one still stores the location shared before it. |
| `Scenarios.RestartAbandonedFlow` | index.js:172-192 | `/subscribe` restarts a flow left in `AwaitingTime`. The record carries the second location shared. |
| `Scenarios.RegisterThenTick` | index.js:82-95 | After a registration, the tick at that minute delivers the chat its forecast with the capitalised description, when the fetch and the sends succeed. |

## Left out

- The Express webhook, `bot.processUpdate` and the Telegram transport: I/O only. Replies are tags, not texts. Handler sends are not awaited, so a failed reply has no effect on state.
- Command dispatch: I/O only. The `onText` patterns are unanchored, so a text containing `/subscribe` anywhere fires that handler, and one message can fire several handlers. The model calls each handler directly.
- The `/start` and `/list` handlers: message text and a per-record weather fetch, with no state change.
- `mongoose.connect`, process exit and the schema machinery: a foreign ORM. The collection is a map keyed by chat id. The order of the query results is the `order` parameter.
- `Registration.Bot.ReceiveText`: an absent username is stored as `None`. Whether Mongoose clears or keeps an earlier username in that case is not modelled.
- `getWeather` and axios: a network call. The fetch is an outcome in `Attempt`, and a missing API key is one way for it to fail.
- `Math.round` of the temperatures and the wind speed, and the Markdown layout of the forecast: floating point and presentation. A forecast carries only the city and the capitalised description. Coordinates are `real` values that are only copied.
- `WeatherText.UpperCase`: it maps only ASCII and Cyrillic (U+0430-U+045F, U+0491) lower-case letters. Other scripts, upper-casings longer than one character (such as `ß`) and lone surrogate halves from `charAt` are not modelled.
- The clock and the cron timer: the current instant is a `TimeKey.Instant`, and the tick takes the key as a parameter. ISO strings of years beyond 9999 (six-digit years) are not modelled.
- Concurrency between handlers that suspend on the store or the network: each handler is one atomic step.
- `Registration.Bot.Subscribe`: the unhandled rejection of a failed lookup is not modelled beyond the handler. On Node.js 15 and later an unhandled rejection ends the process by default, which loses every pending entry of `userStates`; the model only states that the handler itself changes nothing.
- `logger.js` and every log call: a thin logging wrapper.

## Findings

| source | as written | input that shows it | evidently intended | confidence | as-written member | corrected member |
|---|---|---|---|---|---|---|
| index.js:243 | The upsert's username is read as `msg.chat.from.username`. A Telegram `Chat` has no `from` field, so the read throws a TypeError inside the `try`, and the upsert is never issued. | Chat in `AwaitingTime` sends the text `08:30`: the reply is the database error, no record is written and the flow is dropped. | `msg.from.username`, the sender's username. The record is written and the confirmation is sent. | not executed; depends on the Telegram Bot API's `Chat` object having no `from` field | `Registration.Bot.ReceiveTextAsWritten`, `Scenarios.RegisterFlowAsWritten` | `Registration.Bot.ReceiveText`, `Scenarios.RegisterFlow` |
