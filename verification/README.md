# typedgram-bot routing core, modelled in Dafny

`TelegramTypedBot` extends a Telegram client with three things. It keeps
registries of actions keyed by command (`/hello`) or by event name
(`sticker`, `photo`, …). It keeps a store of pending responses, where a
handler waits for one user's next message in one chat. And it has a
dispatcher that sends every incoming message to exactly one place: the
pending wait, a command action, the missing-command action, the plain-text
action, an event action, or nowhere.

This model states the declared contract of `TelegramTypedBot` as its
TypeScript declaration file `lib/src/typedgram-bot.d.ts` gives it: the
class's fields, its protected helper signatures and its doc comments. The
implementation's method bodies are not modelled. The model is functional:
an immutable `Bot` record, pure transition functions, and a `Route`
datatype returned by dispatch.

Modules, leaves first:

- `Wrappers` (`wrappers.dfy`): `Option` and `Result`.
- `Messages` (`messages.dfy`): identifiers (number or string), the 13
  `TelegramEvent` kinds and their names, message content (text or an event
  kind), and handlers as opaque `Action` values.
- `Tickets` (`tickets.dfy`): the ticket of the pending-response store. It is
  the pair (chat id, user id).
- `Errors` (`errors.dfy`): the unregistered-action and response-timeout
  rejections.
- `Registry` (`registry.dfy`): string-keyed action maps. Registration is
  last-write-wins; lookup rejects an unknown key.
- `TypedBot` (`bot.dfy`): the bot state, plus `onCommand`, `execCommand`,
  `onEvent`, `execEvent`, `onPlainText`, `onMissingCommand`,
  `onInitialization`, `addToWaiting`, `removeFromWaiting`, `waitResponse`,
  and the firing of a wait's timer.
- `Dispatcher` (`dispatcher.dfy`): the `received*` chain.
- `Session` (`session.dfy`): traces of incoming messages, waits and timer
  expiries. Over a trace, a wait is settled at most once.

Parameters standing in for what the model does not see:

- The text-to-command-token rule (`commandOf: string -> string`). It is
  consulted only for texts that start with `'/'`.
- The resolver of each `waitResponse` promise (`Resolver`, an opaque id).
- Every action's body. An action is known only by its identity, and
  "running" it is the `Invocation(action, msg)` value.

## Model

| member | source | states |
|---|---|---|
| Messages.EventName | lib/src/typedgram-bot.d.ts:22-36 | every message kind fires an event name from the `TelegramEvent` key set, and that name is never `'text'` |
| Messages.EventKindOf | lib/src/typedgram-bot.d.ts:22-36 | a name stands for a kind exactly when it is a `TelegramEvent` key, and that kind's name is the name given |
| Messages.EventNameRoundTrip | lib/src/typedgram-bot.d.ts:22-36 | event names and kinds correspond one to one |
| Messages.TextIsNotAnEvent | lib/src/typedgram-bot.d.ts:16-19 | `'text'` is not among the `TelegramEvent` keys and names no event kind |
| Messages.EventOf | lib/src/typedgram-bot.d.ts:125 | the event delivering a message is `'text'` exactly for text messages; for any other message it names that message's kind |
| Tickets.TicketFromInfoInjective | lib/src/typedgram-bot.d.ts:121 | two (chat, user) pairs share a ticket only if they are equal |
| Tickets.SameConversationSameTicket | lib/src/typedgram-bot.d.ts:113-122 | a message's ticket depends only on its chat id and sender id: two messages share a ticket exactly when they come from the same user in the same chat |
| Registry.Register | lib/src/typedgram-bot.d.ts:131-141 | afterwards every listed key maps to the action, every unlisted key keeps its earlier entry, and the key set grows by exactly the listed keys |
| Registry.Exec | lib/src/typedgram-bot.d.ts:142-149 | rejects with an unregistered-action error exactly when the key is absent; otherwise yields the stored action applied to the message |
| Registry.ExecAfterRegister | lib/src/typedgram-bot.d.ts:131-149 | after a registration, a listed key runs the new action and any other key behaves as before |
| Registry.LastRegistrationWins | lib/src/typedgram-bot.d.ts:131-149 | a key registered twice runs only the later action |
| TypedBot.OnCommand | lib/src/typedgram-bot.d.ts:131-141 | every command in the one-or-many argument maps to the action; other commands keep their entries; nothing outside `commands` changes |
| TypedBot.ExecCommand | lib/src/typedgram-bot.d.ts:142-149 | rejects with an unregistered-action error exactly when the command is absent; otherwise yields the stored action applied to `msg` |
| TypedBot.OnEvent | lib/src/typedgram-bot.d.ts:150-159 | every event in the one-or-many argument maps to the action; other events keep their entries; nothing outside `events` changes |
| TypedBot.ExecEvent | lib/src/typedgram-bot.d.ts:160-167 | rejects with an unregistered-action error exactly when the event is absent; otherwise yields the stored action applied to `msg` |
| TypedBot.ExecCommandAfterOnCommand | lib/src/typedgram-bot.d.ts:131-149 | `execCommand` after `onCommand` runs the new action for a listed command and is unaffected for any other |
| TypedBot.ExecEventAfterOnEvent | lib/src/typedgram-bot.d.ts:150-167 | `execEvent` after `onEvent` runs the new action for a listed event and is unaffected for any other |
| TypedBot.OnPlainText | lib/src/typedgram-bot.d.ts:168-174 | installs the plain-text action and changes nothing else |
| TypedBot.OnMissingCommand | lib/src/typedgram-bot.d.ts:175-181 | installs the missing-command action and changes nothing else |
| TypedBot.OnInitialization | lib/src/typedgram-bot.d.ts:182-187 | installs the connection callback and changes nothing else |
| TypedBot.AddToWaiting | lib/src/typedgram-bot.d.ts:123 | the ticket holds the new resolver, replacing any earlier one; other tickets and the rest of the state are untouched |
| TypedBot.RemoveFromWaiting | lib/src/typedgram-bot.d.ts:124 | the ticket no longer holds a resolver; other tickets and the rest of the state are untouched |
| TypedBot.RemoveUndoesAdd | lib/src/typedgram-bot.d.ts:123-124 | removing a freshly added ticket restores the earlier state exactly |
| TypedBot.WaitResponse | lib/src/typedgram-bot.d.ts:112-120 | registers the resolver under the ticket of the user's message; the timeout is the argument when given and `responseTimeout` otherwise |
| TypedBot.Timeout | lib/src/typedgram-bot.d.ts:97-102 | a firing timer rejects the wait with a timeout error exactly when the ticket still has a pending resolver, and the ticket is absent afterwards |
| TypedBot.WaitThenTimeout | lib/src/typedgram-bot.d.ts:97-124 | a wait that times out is rejected with a timeout error for its own resolver, and the store is left as it was before the wait |
| TypedBot.TimeoutRejectsOnce | lib/src/typedgram-bot.d.ts:97-102 | a timer firing again rejects nothing and changes nothing |
| Dispatcher.ReceivedCommand | lib/src/typedgram-bot.d.ts:129 | a registered command runs its action; an unregistered one runs `missingAction` when set and is dropped otherwise |
| Dispatcher.ReceivedPlainText | lib/src/typedgram-bot.d.ts:130 | plain text runs `plainTextAction` when set and is dropped otherwise |
| Dispatcher.ReceivedText | lib/src/typedgram-bot.d.ts:128 | text with the `'/'` prefix runs the command's action on the message, or `missingAction` when the command is unregistered; any other text runs `plainTextAction` on the message; text never resolves a wait or runs an event |
| Dispatcher.ReceivedNonResponseMessage | lib/src/typedgram-bot.d.ts:127 | a text message takes exactly the text route; a non-text message runs the action registered under its kind's name on the message, and is dropped when there is none |
| Dispatcher.ReceivedResponseMessage | lib/src/typedgram-bot.d.ts:126 | the message resolves the given wait, whose ticket leaves the store; every other ticket keeps its resolver and nothing else changes |
| Dispatcher.ReceivedMessage | lib/src/typedgram-bot.d.ts:125-130 | a pending wait for the message's ticket takes the message and nothing else does; otherwise each route is taken exactly under its condition and runs that route's action (the command's, `missingAction`, `plainTextAction` or the event's) on the message, and the state is unchanged |
| Dispatcher.TextNeverRoutedToEvent | lib/src/typedgram-bot.d.ts:16-19 | a text message never runs an event action, even one registered under `'text'` |
| Dispatcher.ReplySettlesWait | lib/src/typedgram-bot.d.ts:112-127 | after `waitResponse`, the same user's next message in the same chat resolves that wait, whatever it says, and leaves nothing for the timer to reject |
| Dispatcher.TimedOutWaitReleasesConversation | lib/src/typedgram-bot.d.ts:97-125 | once a wait has timed out, the user's next message is routed as if the wait had never been made |
| Dispatcher.CommandAfterOnCommand | lib/src/typedgram-bot.d.ts:131-141 | with no pending wait, a command registered by `onCommand` runs its action |
| Dispatcher.MissingAfterOnMissingCommand | lib/src/typedgram-bot.d.ts:85-90 | with no pending wait, an unregistered command runs the action installed by `onMissingCommand` |
| Dispatcher.PlainTextAfterOnPlainText | lib/src/typedgram-bot.d.ts:91-96 | with no pending wait, text without the `'/'` prefix runs the action installed by `onPlainText` |
| Dispatcher.EventAfterOnEvent | lib/src/typedgram-bot.d.ts:150-159 | with no pending wait, a message of a kind registered by `onEvent` runs its action |
| Dispatcher.UnregisteredEventDropped | lib/src/typedgram-bot.d.ts:125-127 | a message of a kind with no registered action is dropped, with no error and no state change |
| Session.SettlementsBoundedByWaits | lib/src/typedgram-bot.d.ts:73-78 | over any trace, a ticket's settlements plus a wait still pending never exceed its registered waits plus a wait pending at the start |
| Session.SingleWaitSettlesAtMostOnce | lib/src/typedgram-bot.d.ts:97-126 | one `waitResponse` is resolved or timed out at most once, never both, whatever follows |
| Session.TrafficKeepsRegistries | lib/src/typedgram-bot.d.ts:60-72 | incoming messages, waits and timeouts never change the registries, the fallback actions or `responseTimeout` |

## Left out

- The constructor and `IServerOptions` (host, port, TLS): transport setup, which is network I/O.
- `_request` and the inherited `TelegramBot` send API: HTTP calls into the `node-telegram-bot-api` library, which is not part of this model.
- `fileType` / `Stream`: these matter only to send calls.
- The invocation of `initializationAction` on connection: a transport signal. Only its registration is modelled.
- Real timers and bluebird promise scheduling. A timer is the explicit `Timeout(ticket)` transition, and a timeout duration is an `int` number of milliseconds; fractional JavaScript numbers are not modelled.
- The string encoding of tickets. The declaration does not show how a ticket string is built, so a ticket is the pair (chat id, user id). The model therefore keeps the number `5` and the string `"5"` apart as identifiers, and cannot show whether the source's string form lets them collide.
- The command-token rule. `receivedCommand` receives a token cut from the text by a rule that is not in the declaration, so that rule is the parameter `commandOf`. Whitespace trimming of the text before the `'/'` test is not modelled either.
- Message payloads beyond chat id, sender id, text and kind; action bodies.
- What happens to a wait replaced by a second `waitResponse` on the same ticket. `addToWaiting` replaces the earlier resolver, and the earlier promise is then never resolved by a reply.
- Timeout: the replaced wait's own timeout rejection is not modelled. A timer is identified by its ticket only, so `Timeout` rejects and removes whatever resolver the ticket holds when it fires. After two waits on one ticket, the first wait's timer may therefore reject the newer wait. The source would reject the older promise; what it does to the newer entry depends on a method body that is not in the declaration.
- WaitResponse: `waitResponse` returns a function `(msg: Message) => Promise<Message>`, meant to run when the bot's own send promise resolves, and the wait is registered only when that function runs. The model folds the two stages into one: `WaitResponse` (and the `Await` step of a trace) models the call of the returned function. The ticket comes from the user's message passed to `waitResponse`; the sent message the returned function receives is not used.
- Registry.Exec: `commands` and `events` are plain JavaScript objects, so a lookup there also sees inherited properties such as `toString`. The model's maps hold only registered keys, so `execCommand("toString", msg)` rejects in the model; what the source does for such keys is not modelled.
- The values of `TelegramEvent`, which are declared only as `string`. The model takes each event name to be its key name (`sticker`, `new_chat_participant`, …), and registers and looks up events under those names.
