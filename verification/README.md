# discord2line relay: a Dafny model of the notification gate

discord2line listens to messages on a Discord server and forwards each
qualifying one to LINE Notify as a short text: the channel, the author's
nickname, the content and a (shortened) link to the message. A per-channel
cooldown stops it from spamming: after a notification for a channel, further
messages in that channel are dropped until `notification_interval` (sixty
seconds) has passed.

This project models the event handler `Handler::message` of `src/main.rs`
and the helpers it calls:

- `Discord` (`discord.dfy`): the message, the outcomes of the channel and
  member lookups, the eligibility filter and the channel-name and nickname
  fallbacks.
- `Shortener` (`shortener.dfy`): `shorten`, given the reply of the
  shortening service as an input, and the fallback to the original link.
- `Notifier` (`notifier.dfy`): `send` and `get_msg`, given the outcome of
  building the authorization header and sending the POST request as an input. Every failure is swallowed.
- `Gate` (`gate.dfy`): the cooldown table, the gate decision, the update of
  one message, whole runs of messages, and the cooldown invariant over a
  run.
- `Template` (`template.dfy`): the notification text and its inverse.
- `Relay` (`handler.dfy`): the `Handler` class with the table as a `map`
  field that `OnMessage` updates in place. Its contract ties the new table
  to `Gate.After` and the returned `Dispatch` to the filter, the gate and
  the composed text.

The tokio mutex is held from the gate check to the end of the handler. Each
call is therefore one atomic step on the table. Times are natural-number
ticks of a monotonic clock (nanoseconds, so the interval is
`60 * TicksPerSecond`). The handler reads the clock twice: once at the gate
check (`now`) and once when recording after the dispatch (`recordTime`).
The cooldown invariant assumes only that the clock never runs backwards
(`Gate.Monotone`).

Three behaviours of the code are easy to misread; the model follows the code:

- A channel lookup that succeeds but gives a channel outside any guild
  produces the empty name, not "Unknown channel". This comes from
  `unwrap_or_default`.
- The shortener treats a non-success HTTP status as success with the
  original URL. Only transport, body-read and JSON errors are errors, and
  the handler then falls back to the link itself.
- `send` returns an error only when the bearer token does not form a valid
  header value. Transport failures and error statuses are reported as
  success.

## Model

| member | source | states |
|---|---|---|
| `Discord.Eligible` | src/main.rs:24-32 | a message qualifies exactly when its author is not a bot, it has a guild and its content is non-empty |
| `Discord.ChannelName` | src/main.rs:45-48 | the guild channel's name when the lookup gives one; "Unknown channel" when the lookup fails; the empty string for a channel that is not a guild channel |
| `Discord.NickName` | src/main.rs:56-63 | the member's nickname when the message has a guild, the member lookup succeeds and a nickname is set; the author's account name in every other case |
| `Discord.ResolveNickName` | src/main.rs:56-63 | the handler's step-by-step overwrite of `nick_name` yields exactly `NickName` |
| `Shortener.Shorten` | src/main.rs:79-95 | fails exactly on a transport failure, or on a 2xx reply whose body is unreadable or has no `shorturl`; a 2xx reply with a parsed body gives its `shorturl`; any other status gives the original URL unchanged |
| `Shortener.MessageUrl` | src/main.rs:51-54 | the link used is the parsed short link when the service answers 2xx with a `shorturl`, and the original permalink on every other outcome |
| `Notifier.Send` | src/main.rs:108-132 | the only error is an invalid authorization header; transport failures and error statuses are reported as success |
| `Notifier.GetMsg` | src/main.rs:102-106 | a send error is logged and swallowed; it is logged exactly when the header was rejected |
| `Gate.Elapsed` | src/main.rs:38 | the time since the entry (entry plus elapsed is `now`), and zero when the entry lies after `now` |
| `Gate.ShouldNotify` | src/main.rs:37-40 | a channel with no entry always passes; with an entry not after `now`, it passes exactly when `last + interval <= now` |
| `Gate.After` | src/main.rs:24-42 | a notified message records `recordTime` for its channel and adds no other key; a filtered or suppressed message leaves the table unchanged; every other channel's entry is unchanged |
| `Gate.Notified` | src/main.rs:24-42 | the notifications of a run are at most as many as its messages, each one of them, and each eligible |
| `Gate.NotificationsSpaced` | src/main.rs:34-71 | with a clock that never runs backwards, two notifications for the same channel are at least `interval` apart (earlier record to later gate check), and the first one for a channel already in the table is at least `interval` after its entry |
| `Template.Compose` | src/main.rs:64-67 | the text is 27 template characters longer than its four fields together and ends with the link, character for character |
| `Template.Decompose` | src/main.rs:64-67 | reading a text back gives fields of the requested lengths |
| `Template.DecomposeCompose` | src/main.rs:64-67 | reading back a composed text recovers exactly the channel name, nickname, content and link it was built from |
| `Template.ComposeDecompose` | src/main.rs:64-67 | any text that reads back is exactly the template filled with the fields read |
| `Template.ComposeInjective` | src/main.rs:64-67 | two texts whose names and links have equal lengths are equal only when all four fields are |
| `Relay.Notification` | src/main.rs:43-67 | the text handed to the notifier reads back to the resolved channel name, nickname, message content and link, and is at least as long as the template plus the content |
| `Relay.Handler.constructor` | src/main.rs:142-145 | a new handler has the given interval and an empty table |
| `Relay.Handler.OnMessage` | src/main.rs:23-73 | a message is dropped exactly when it is from a bot, has no guild or is empty; it is suppressed exactly when it is eligible and fails the gate; it is sent exactly when it passes both, with the notification text, and any send error is only logged; the history of sent notifications grows by exactly this message when it is sent; the new table is `After` of the old one, whatever the send outcome, and it summarises the history of handled messages |
| `Relay.HandlerSpaced` | src/main.rs:34-71 | with a clock that never runs backwards, the notifications a handler has sent are at least its interval apart for each channel |
| `Relay.FirstMessagePasses` | src/main.rs:37-40 | a qualifying message in a channel with no entry is sent and its record time stored |
| `Relay.GateAfterRecord` | src/main.rs:37-71 | after a notification recorded at `t1`, a qualifying message in the same channel checked at `t2 >= t1` passes exactly when `t2 - t1 >= interval`, whether or not the first dispatch succeeded |
| `Relay.OriginalLinkOnShortenFailure` | src/main.rs:51-54 | when the shortener gives no short link, the notification ends with the original permalink unmodified |
| `Relay.HelloFromAlice` | src/main.rs:42-71 | "hello" from the member "Alice" in channel "general" with no prior entry is sent as "\ngeneralでAliceからの発言\n--------\nhello\n-------- " followed by the link, and its time is recorded for the channel |

## Left out

- The serenity client, its event loop, the `ready` callback and the start-up in `main` (src/main.rs:74-76, src/main.rs:134-155) are client-library plumbing. The model keeps only the construction of `Handler` (src/main.rs:142-145).
- The `Arc<Mutex<…>>` around the table is not modelled. Each handler call is one atomic sequential step, because the lock is held from the gate check to the end. Interleavings are not modelled.
- The HTTP requests to the shortener and to LINE Notify, the header construction and the JSON parsing are foreign calls. Their outcomes are the inputs `Shortener.Reply` and `Notifier.Delivery`. The rule that decides whether the bearer token forms a valid header value is therefore not modelled.
- The shortener's query string is built without URL-encoding. It is only sent over the network, so it is not modelled.
- Reads of environment variables and their panics are configuration I/O and are not modelled.
- The `println!` logging is not modelled. Only whether `get_msg` logs a send error is kept, as `Notifier.GetMsg`'s result.
- `Instant` and `Duration` are replaced by natural-number ticks. `Instant::elapsed` is modelled as saturating at zero (`Gate.Elapsed`).
- `msg.link()` and the Discord channel and member lookups are library calls. Their results are inputs: the message's `link` field, `ChannelLookup` and `MemberLookup`.
- The order of the calls inside the handler is not modelled, because their outcomes are independent inputs. In the code, shortening happens before the member lookup.
