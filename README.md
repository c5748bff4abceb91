# factorio-tg-bridge, modelled in Dafny

factorio-tg-bridge connects a Factorio server to one Telegram chat. A
watcher follows the game's log and turns chat, join and leave lines into
messages for the chat. A Telegram listener turns the chat's messages into
console commands for the game. A single bus task sits between the two and
routes every event to the other side. The three tasks share one bounded
channel of 16 events.

This model covers:

- the log-line parser `parse_log_line`, with its three regular expressions
  matched by hand: an unanchored leftmost search, a greedy `\w+`, and a
  `(.+)` that runs to the end of the line;
- the mapping from a parsed record to the event `read_line` sends, and the
  `read_log` loop over the log's lines;
- the `Event` type, the bounded channel and the `bus` loop with its calls on
  Telegram and on the game's remote console (RCON);
- the classification that the two Telegram handler endpoints perform.

Modules, one file each:

- `Wrappers`: `Option`.
- `Text`: substring and word-character predicates, and the greedy runs `\w+`
  and `.+`.
- `Events`: the `Event` type of `src/main.rs`.
- `Mpsc`: the channel, as a class with a `seq` buffer.
- `Runs`: the items a loop collects when each element yields at most one
  item.
- `Factorio`: the parser, `read_line` and `read_log`.
- `Bus`: the bus loop and the services it calls.
- `Telegram`: the message classification.
- `Scenarios`: the parser's unit tests and end-to-end paths.

A line holding `[CHAT] <user>: <msg>` does not always yield that record.
`regex_captures!` takes the leftmost position where the chat pattern
matches (src/factorio.rs:29). When an earlier match exists, for example
`<server>`'s, that earlier match decides (`Factorio.LeftmostChatDecides`,
`Scenarios.LeftmostChatWins`).

## Model

| member | source | states |
|---|---|---|
| Factorio.ParseLogLine | src/factorio.rs:26-50 | Any record has a `\w+` user name and a non-empty chat message without a line feed. A chat record needs `[CHAT]` in the line. A join record needs `[JOIN]` and no `[CHAT]`. A leave record needs `[LEAVE]`, no `[CHAT]` and no `[JOIN]`. So a line with no marker yields nothing, and a `[CHAT]` line never yields a join or leave record. |
| Factorio.ParsedFromLeftmostMatch | src/factorio.rs:28-47 | Every record comes from the leftmost match of its marker's pattern. A chat record's user is never `<server>`. |
| Factorio.ChatAt | src/factorio.rs:29 | Definition of the chat pattern tried at one start position: `\w+` first, then `<server>`. Characterised by `ChatAtIsMatch`. |
| Factorio.WordAlternative | src/factorio.rs:29 | Definition of the `\w+` alternative after `[CHAT] `: the longest word run, `: `, then the non-empty text up to the next line feed. Characterised by `ChatAtIsMatch`. |
| Factorio.ServerAlternative | src/factorio.rs:29 | Definition of the `<server>` alternative after `[CHAT] `. Characterised by `ChatAtIsMatch`. |
| Factorio.WordRecordAt | src/factorio.rs:41-45 | Definition of `marker (\w+) tail` tried at one start position. Characterised by `WordRecordAtIsMatch`. |
| Factorio.ChatAtIsMatch | src/factorio.rs:29 | Trying the chat regex at one position finds exactly the matches of `\[CHAT\] (\w+\|<server>): (.+)` there, in both directions. |
| Factorio.FirstChat | src/factorio.rs:29 | The unanchored search returns a position where the chat pattern matches with no match before it, or none when the pattern matches nowhere. |
| Factorio.WordRecordAtIsMatch | src/factorio.rs:41 | Trying `marker (\w+) tail` at one position finds exactly its matches there, in both directions, when the tail starts with a non-word character. |
| Factorio.FirstWordRecord | src/factorio.rs:41-45 | The unanchored search for the join or leave pattern returns the leftmost match, or none when the pattern matches nowhere. |
| Factorio.LeftmostChatDecides | src/factorio.rs:28-39 | For a line with a chat match and none before it: a `<server>` user gives no record, and any other user gives `Chat` with that user and message. |
| Factorio.LeftmostJoinDecides | src/factorio.rs:40-43 | For a line without `[CHAT]`, the leftmost join match gives `Join` with its user. |
| Factorio.LeftmostLeaveDecides | src/factorio.rs:44-47 | For a line without `[CHAT]` or `[JOIN]`, the leftmost leave match gives `Leave` with its user. |
| Factorio.ChatLineParses | src/factorio.rs:29-37 | `p + "[CHAT] " + u + ": " + m` gives `Chat(u, m)` for a word `u` and a one-line `m`, even when `m` contains `": "` or markers, behind any prefix without `[`. |
| Factorio.ServerChatIgnored | src/factorio.rs:29-32 | `p + "[CHAT] <server>: " + m` gives no record. |
| Factorio.JoinLineParses | src/factorio.rs:40-43 | `p + "[JOIN] " + u + " joined"` gives `Join(u)`. |
| Factorio.LeaveLineParses | src/factorio.rs:44-47 | `p + "[LEAVE] " + u + " left"` gives `Leave(u)`. |
| Factorio.ServerNameIsNotWord | src/factorio.rs:29-31 | No `\w+` user name equals `<server>`. |
| Factorio.ToEvent | src/factorio.rs:73-86 | Definition of the emoji templates. Characterised by `RecordOfToEvent` and `LineEvent`. |
| Factorio.RecordOfToEvent | src/factorio.rs:73-86 | The emoji template of a parsed record can be read back to that record. |
| Factorio.ToEventInjective | src/factorio.rs:73-86 | Two different parsed records never give the same Telegram message. |
| Factorio.LineEvent | src/factorio.rs:67-86 | A line gives an event exactly when it parses. The event is a game message that carries the whole record. It is silent exactly for join and leave. |
| Factorio.EventsOfCount | src/factorio.rs:97-98 | Each line gives at most one event. There is exactly one per line when every line parses. |
| Factorio.EventsOfNone | src/factorio.rs:97-98 | Lines give no events exactly when none of them parses. |
| Factorio.EventsOfSplit | src/factorio.rs:97-98 | The events of a run of lines are those of its first part, then those of the rest, in line order. |
| Factorio.ReadLineWith | src/factorio.rs:67-91 | For any line-to-event mapping: nothing is sent when the mapping gives nothing. Otherwise the event is appended to the channel, or the channel is unchanged and full, or it is unchanged and closed. |
| Factorio.ReadLogWith | src/factorio.rs:93-102 | For any line-to-event mapping, the channel gains the events of `lines[from..next]` in line order. The loop stops at the end of the lines, before an event that finds the channel full, or at a send into a closed channel. |
| Factorio.ReadLine | src/factorio.rs:67-91 | `read_line`: a send happens exactly when the line parses. A successful send appends the line's event. |
| Factorio.ReadLog | src/factorio.rs:93-102 | `read_log`: the channel gains the events of the lines read, in line order, and the loop stops as described for `ReadLogWith`. |
| Mpsc.Channel.constructor | src/main.rs:55 | A new channel is empty, with both ends alive. |
| Mpsc.Channel.Send | src/main.rs:55 | A send fails when the receiver is gone. At 16 queued events the producer waits. Otherwise the event goes at the back. The channel never holds more than 16. |
| Mpsc.Channel.Recv | src/main.rs:21 | A receive takes the front event. On an empty channel it waits while senders remain and reports the end when none remain. |
| Bus.CallsFor | src/main.rs:24-45 | Each event causes one or two calls, and the first is its request. There is a second call exactly for a command with a console answer, and it is the reply to that command's message carrying the answer. |
| Bus.Request | src/main.rs:24-45 | Definition of the first call an event causes. Characterised by `CallsFor` and `EveryEventOnce`. |
| Bus.Dispatch | src/main.rs:21-46 | Definition of the calls for a queue, in order, with the console answers numbered across the queue. `Run` is proved to make exactly these calls; `DispatchAppend`, `EveryEventOnce`, `ReplyFollowsCommand` and `FailedCommandsSkipped` characterise it. |
| Bus.Services.SendCmd | src/factorio.rs:110-118 | A console command is recorded, and its answer is the oracle's answer for that command's index. |
| Bus.Services.SendMessage | src/tg.rs:75-83 | Posting to the chat is recorded with its text and silent flag. |
| Bus.Services.ReplyMessage | src/tg.rs:85-94 | A reply is recorded with the message it answers and its text. |
| Bus.Handle | src/main.rs:24-45 | Handling one event makes exactly that event's calls. It uses one console answer for a Telegram message or command and none for a game message. |
| Bus.Run | src/main.rs:20-47 | The loop empties the channel and makes the calls for all queued events in FIFO order. It ends exactly when every sender is gone. |
| Bus.DispatchAppend | src/main.rs:21-46 | Handling a queue means handling its front part and then the rest. The rest sees the console answers after those the front part used. |
| Bus.EveryEventOnce | src/main.rs:21-46 | With replies left out, the calls are exactly one request per event, in order, whatever the services answer. |
| Bus.ReplyFollowsCommand | src/main.rs:35-40 | Every reply answers some Telegram command in the queue. The call just before it sends that command's text to the console. The reply goes to the command's message id and carries the console's answer to that command. |
| Bus.FailedCommandsSkipped | src/main.rs:41-43 | When every console command fails, no replies are made and the calls are the requests alone. |
| Telegram.Classify | src/tg.rs:36-64 | Only text and photo messages of the configured chat give an event. A text starting with `/` becomes a command with its message id and the text unchanged. Anything else becomes a chat line. |
| Telegram.ChatMessageRelayed | src/tg.rs:47 | A plain text becomes the sender's first name, then `": "`, then the text unchanged. |
| Telegram.PhotoIndistinguishableFromText | src/tg.rs:55-58 | A photo gives the same event as the text `[IMG]` from the same sender. |
| Telegram.ChatLineLeadingSlash | src/tg.rs:47 | A relayed chat line starts with `/` exactly when the sender's name does. |
| Telegram.OnMessage | src/tg.rs:37-63 | A handled message puts exactly its one event into the channel, or finds the channel full. Any other message leaves the channel unchanged. |
| Scenarios.ParsesChatTestCase | src/factorio.rs:127-133 | `"[CHAT] Foo: bar"` parses to `Chat("Foo", "bar")`. |
| Scenarios.ParsesJoinTestCase | src/factorio.rs:134-137 | `"[JOIN] user joined"` parses to `Join("user")`. |
| Scenarios.ParsesLeaveTestCase | src/factorio.rs:138-141 | `"[LEAVE] user left"` parses to `Leave("user")`. |
| Scenarios.IgnoresServerTestCase | src/factorio.rs:142 | `"[CHAT] <server>: hi"` parses to nothing. |
| Scenarios.LeftmostChatWins | src/factorio.rs:29 | A server line that quotes a player's chat line parses to nothing. |
| Scenarios.GameChatReachesTelegram | src/factorio.rs:73-77 | A game chat line becomes exactly one notifying Telegram post: the speech balloon, the user, `": "` and the message. |
| Scenarios.JoinReachesTelegram | src/factorio.rs:78-81 | A join line becomes exactly one silent Telegram post: the smiling face, the user and ` joined`. |
| Scenarios.LeaveReachesTelegram | src/factorio.rs:82-85 | A leave line becomes exactly one silent Telegram post: the waving hand, the user and ` left`. |
| Scenarios.TelegramCommandAnswered | src/main.rs:35-44 | A `/` command is sent to the console verbatim. On an answer, that answer is posted as a reply to the command's message. On a failure, nothing follows. |
| Scenarios.TelegramPhotoRelayed | src/tg.rs:55-60 | A photo reaches the console as `name: [IMG]`. |

## Left out

- `src/config.rs` is not part of this model. It loads arguments and environment variables into a global and has no logic of its own.
- Factorio's RCON client (`send_cmd`) is an oracle: `rcon(k)` is the answer to the `k`-th command, and `None` means a connection, authentication or execution failure.
- What Telegram answers to a send or a reply is not modelled. The bus only logs it, and `Bus.Services` only records the call.
- Following the log file (`linemux`) and its I/O errors are left out. The log is a given sequence of lines.
- Waiting is modelled as stopping. A send into a full channel makes the producer wait; `ReadLog` then returns the index to resume from. A receive from an empty open channel makes the bus wait; `Run` then returns. Interleaving of the three tasks is left out.
- The `tokio::select!` race with Ctrl-C, and so shutdown, are left out.
- Bus.Run: `main` keeps its sender `tx` alive for the whole run (src/main.rs:55-67), so in the program `rx.recv()` never yields `None` and the bus never takes the `closed` exit. The model keeps that exit for a channel whose senders are all gone.
- Logging is left out.
- Teloxide's dispatcher is left out. A message is reduced to its chat id, message id, optional sender first name and kind: text, photo or other.
- Rust's Unicode `\w` becomes ASCII letters, digits and `_`.
- Telegram.Classify: a handled message without a sender makes the source panic. The model requires a sender instead.
- Telegram.OnMessage: a send into a closed channel makes the source panic. The model requires a live receiver instead.
- Factorio.ReadLog: a send into a closed channel ends `read_log` with an error. The model reports it as the `ChannelClosed` outcome.
