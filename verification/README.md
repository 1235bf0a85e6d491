# Relevance relay: a Dafny model

This project models the decision and formatting core of a Telegram relay. A user
account watches a set of channels. Each new message from a watched channel goes to a
language model, which is asked whether the message is relevant to the user's query.
A relevant message is shown on the console and then relayed to the user. In
`monitor.py` it is relayed as a formatted Bot API message with a link back to the
original. In `telegram_monitor_simple.py` it is forwarded to the user's own account.
A companion bot (`bot_handler.py`) edits the query and the channel list, and lists
the account's channels in chunks of at most 3500 characters unless a single line is
longer.

The modules follow the source files:

- `Text` (text.dfy): Python values and the `str` operations the code relies on.
  - An attribute probe is `Option<Value>`, where `None` means the attribute is absent
    and `Value` is `None` or a string.
  - `getattr` with a default keeps falsy values, while `hasattr(x, a) and x.a` skips them.
  - `str.strip` removes exactly the characters `str.isspace` accepts.
  - `str.upper` is modelled on ASCII letters.
  - `str(int)`, `str.replace`, `str.join` and `+=` concatenation are written out.
- `Relevance` (relevance.dfy): `MistralAIProcessor` from `ai.py`.
  - The language model's reply is an input, with `None` standing for a call that raised.
  - The same class appears again, line for line, in `telegram_monitor_simple.py`, so it
    is modelled once and both monitors use it.
- `ChannelStore` (channel_store.py): the registry of channel names, a class over a
  `set<string>`. `get_monitored_channels` is proved to return the set sorted
  (Python's code-point order), each name once.
- `QueryStore` (query_store.py): the query file is a field holding `None` (no file),
  an unreadable document, or a parsed object with or without a "query" entry.
  Writing can complete, fail at open (file untouched), or fail part-way (file truncated).
- `Monitor` (monitor.py):
  - the event router `message_handler`, which re-reads the channel list and the query
    on every event;
  - the sender name, the deep link, and the Markdown notification built by `+=`;
  - the Bot API request of `send_message_via_bot`;
  - the logged excerpt of `process_new_message` and `generate_response`.
- `BotCommands` (bot_handler.py):
  - the argument parsing of `/setquery`, `/addchannel` and `/removechannel`, and their
    effect on the stores;
  - the channel lines of `/listchannels`, and its chunking loop with the invariants that
    loop keeps.
  - The separator in a channel line is kept as the file stores it: an em dash whose UTF-8
    bytes were decoded as cp1252, giving the three characters U+00E2 U+20AC U+201D.
- `SimpleMonitor` (telegram_monitor_simple.py): channels tracked by numeric id. Name
  lookups (`get_entity`) are a map from names to ids. A relevant message is forwarded
  to the logged-in user.

## Notes on the code

- Monitored channels are held in memory by `channel_store.py` and are not persisted.
- `send_message_via_bot` has no fallback delivery: a missing bot token or recipient, a
  non-200 status or a raised exception all simply return false. Forwarding to self
  exists only in the simple monitor, and there it is the primary delivery.
- The verdict is fail-open: a disabled processor, a raised call and an unrecognised
  reply all count as relevant.

## Model

| member | source | states |
|---|---|---|
| Text.LStripChar | bot_handler.py:104 | `lstrip("@")` returns a suffix of its input that does not start with '@', and every character it dropped was '@' |
| Text.StripLeftSpec | ai.py:101-103 | `lstrip()` returns a suffix whose first character is not whitespace, and every dropped character is whitespace in the sense of `str.isspace` |
| Text.StripRightSpec | ai.py:101-103 | `rstrip()` returns a prefix whose last character is not whitespace, and every dropped character is whitespace |
| Text.StripTrimmed | bot_handler.py:52 | `strip()` leaves no whitespace at either end, and leaves an already trimmed string unchanged |
| Text.StripIgnoresPadding | ai.py:101-103 | whitespace added around a string never changes what `strip()` returns |
| Text.StripUpperCommute | ai.py:101-103 | stripping then upper-casing equals upper-casing then stripping |
| Text.IntToString | monitor.py:125 | `str(n)` is all digits for n ≥ 0, and for n < 0 is a '-' followed by at least one digit |
| Text.NatToStringSpells | monitor.py:122-126 | the decimal digits of a natural number spell that number, and only 0 starts with '0' |
| Text.IntToStringSpells | monitor.py:122-126 | `str(n)` spells `n`: a '-' exactly when n is negative, then digits whose value is the magnitude of n, with no leading zero unless n is 0 |
| Text.ReplaceAbsent | monitor.py:125 | `replace` leaves a string unchanged when the first character of the pattern never occurs in it |
| Relevance.ParseVerdict | ai.py:101-110 | the verdict is NotRelevant exactly when the stripped, upper-cased reply starts with "NOT RELEVANT"; it is Relevant exactly when that text starts with "RELEVANT"; otherwise it is Unknown and carries the normalised text |
| Relevance.Processor.constructor | ai.py:28-72 | the processor is enabled exactly when LangChain imported, the argument key or the environment key is non-empty, and building the model raised nothing |
| Relevance.Processor.IsMessageRelevant | ai.py:87-113 | fail-open: a disabled processor says relevant; otherwise the answer is "not relevant" exactly when a reply arrived and its normalised text starts with "NOT RELEVANT" |
| Relevance.Processor.ProcessMessage | ai.py:74-85 | a result exists only when the processor is enabled, and it is then the model's reply |
| Relevance.VerdictIgnoresCaseAndPadding | ai.py:101-103 | surrounding whitespace and letter case never change the verdict |
| Relevance.NotRelevantExample | ai.py:101-106 | " not relevant\n" is a refusal |
| Relevance.RelevantExample | ai.py:101-108 | "Relevant." is accepted: only the prefix is checked |
| Relevance.RunTogetherIsUnknown | ai.py:105-110 | "NOTRELEVANT" matches neither prefix |
| Relevance.IrrelevantIsUnknown | ai.py:105-110 | "Irrelevant" matches neither prefix |
| Relevance.FailOpen | ai.py:92-113 | for an enabled processor: a raised call, an unknown reply and a Relevant reply all pass, and only a NotRelevant reply is refused |
| ChannelStore.HasLeast | channel_store.py:14 | every non-empty set of strings has a least element under Python's string order |
| ChannelStore.SortedList | channel_store.py:14 | `sorted(list(s))` is strictly increasing, holds exactly the elements of the set, and has the set's size |
| ChannelStore.Registry.constructor | channel_store.py:5-10 | the registry starts with the four built-in channel names |
| ChannelStore.Registry.Get | channel_store.py:12-14 | the listing is strictly sorted and holds exactly the registered names |
| ChannelStore.Registry.Add | channel_store.py:16-21 | the result is true exactly when the name was new; the set gains the name and nothing else |
| ChannelStore.Registry.Remove | channel_store.py:23-29 | the result is true exactly when the name was present; the set loses the name and nothing else |
| ChannelStore.AddTwiceRemoveTwice | channel_store.py:16-29 | adding a fresh name twice and removing it twice answers true, false, true, false and restores the set |
| QueryStore.ReadQuery | query_store.py:8-17 | the result is either the default query or the query stored in a parsed file, and a stored query is always returned |
| QueryStore.Store.GetCurrentQuery | query_store.py:8-17 | reading never fails: it returns the stored query or the default |
| QueryStore.Store.SetCurrentQuery | query_store.py:19-26 | the result is true exactly when the write completed; the file is then the new query, unchanged after a failed open, and truncated after a failed dump |
| QueryStore.WriteThenRead | query_store.py:8-26 | a completed write reads back as the query; a failed open reads back the old query; a failed dump reads back the default |
| QueryStore.SetThenGet | query_store.py:8-26 | setting a query and then getting it returns the same query |
| Monitor.ChatName | monitor.py:203 | the chat's title if it has one (even an empty one or `None`), else its username, else "Unknown" |
| Monitor.ChatNameKeepsFalsyTitle | monitor.py:203 | an empty or `None` title is still the chat name, and the username is not consulted |
| Monitor.TextForCheck | monitor.py:224-226 | the text sent to the relevance check is never empty: it is the message text when that is truthy, else the non-text sentinel |
| Monitor.SenderName | monitor.py:106-116 | the sender name is never empty. Its priority: first name, plus " " and the last name when there is one; else the title; else "@" and the handle; else "Unknown". Only truthy attributes count |
| Monitor.SenderNameSeesOnlyTruthy | monitor.py:108-116 | senders that differ only in absent, `None` or empty attributes get the same name |
| Monitor.ComputeSenderName | monitor.py:106-116 | the step-by-step sender name equals `SenderName` |
| Monitor.DeepLink | monitor.py:119-126 | a truthy username gives `https://t.me/<username>/<id>`; otherwise a chat id gives `https://t.me/c/<id with "-100" removed>/<id>`; otherwise there is no link |
| Monitor.ComputeMessageLink | monitor.py:118-126 | the step-by-step link equals `DeepLink` |
| Monitor.PrivateChatIdDropsLeadingPrefix | monitor.py:125 | the "-100" that `replace` removes can only be the leading one, so the rest of the id is kept |
| Monitor.PrivateLink | monitor.py:123-126 | without a username, the link path is the decimal id with a leading "-100" cut off, and nothing else changed |
| Monitor.SupergroupLink | monitor.py:125 | the supergroup id -(100 followed by some digits) links by those digits alone |
| Monitor.SupergroupIdStripped | monitor.py:125 | the id -1001234 links as "c/1234" |
| Monitor.BasicGroupLinkExample | monitor.py:123-126 | a basic group id such as -45 keeps its minus sign: "https://t.me/c/-45/3" |
| Monitor.PublicLinkExample | monitor.py:120-122 | a chat with username "abc" links message 42 as "https://t.me/abc/42" |
| Monitor.FormatBotMessage | monitor.py:128-141 | the message grown by `+=` is the concatenation of the notification's lines, in order |
| Monitor.UsernameTagAt | monitor.py:129-141 | only the third line starts with the username tag, and only when a username is shown |
| Monitor.LinkTagAt | monitor.py:137-141 | only the line before the message body starts with the link tag, and only when there is a link |
| Monitor.NotificationLayout | monitor.py:100-141 | the notification starts with the header and the channel line and ends with the message text or the media sentinel; it has a username line exactly when the username is truthy and not "N/A", and a link line exactly when a link exists |
| Monitor.LogText | monitor.py:318 | the logged excerpt is the text itself up to 100 characters; longer text becomes its first 100 characters followed by "..." |
| Monitor.GenerateResponse | monitor.py:21-47 | the answer is the model's non-empty reply when the processor is enabled, and the fixed apology otherwise |
| Monitor.ChannelMonitor.constructor | monitor.py:53-64 | the monitor keeps the bot token, the recipient and the processor |
| Monitor.ChannelMonitor.HandleMessage | monitor.py:218-257 | an unmonitored chat causes no call, and neither does a monitored chat without an `id` attribute, whose event ends when line 223 reads it; an admitted chat is checked against the query just read; a relevant message is displayed and then sent once each, in that order; an irrelevant one causes nothing further |
| Monitor.ChannelMonitor.SendMessageViaBot | monitor.py:92-173 | with no token or recipient, no request and false. Otherwise one POST to the bot's sendMessage URL, carrying the formatted notification as Markdown, with a link button exactly when there is a link. The result is true exactly on status 200 |
| BotCommands.CommandArgument | bot_handler.py:52 | the argument has no whitespace at either end, and text that does not start with the command is stripped as a whole |
| BotCommands.ArgumentAfterCommand | bot_handler.py:52 | the command, whitespace, an argument and more whitespace give back exactly the argument |
| BotCommands.ChannelArgument | bot_handler.py:94-104 | no channel exactly when the stripped argument is empty; otherwise what is left of the argument once its leading '@'s are dropped: a suffix that does not start with '@', every dropped character being '@' |
| BotCommands.ChannelArgumentOfHandle | bot_handler.py:94-104 | "@name" after the command gives "name" |
| BotCommands.ChannelArgumentOfName | bot_handler.py:94-104 | a bare name comes back as it is, and nothing at all is the error case |
| BotCommands.LoneAtSignBecomesEmptyName | bot_handler.py:96-104 | "/addchannel @" passes the emptiness test and adds the empty name |
| BotCommands.SetQuery | bot_handler.py:49-73 | an empty argument writes nothing and asks for a query; otherwise exactly one write, and the reply follows its outcome |
| BotCommands.AddChannelHandler | bot_handler.py:92-115 | an empty argument changes nothing. Otherwise the name joins the set; the reply says it was already there, or confirms and lists the sorted set |
| BotCommands.RemoveChannelHandler | bot_handler.py:117-140 | an empty argument changes nothing. Otherwise the name leaves the set; the reply says it was not there, or confirms and lists the sorted set |
| BotCommands.DialogTitle | bot_handler.py:234 | the title shown is never empty: a truthy title, else a truthy username, else the id |
| BotCommands.DialogLine | bot_handler.py:234-240 | a line is the title, then " (@username)" exactly when there is a username, then the separator and the id |
| BotCommands.ChannelLines | bot_handler.py:224-240 | the listing has at most one line per dialog; with `ChannelLinesAppend` and `ChannelLinesOne` it is exactly one line per listed dialog, in dialog order |
| BotCommands.ChannelLinesAppend | bot_handler.py:226-240 | the listing of two runs of dialogs is the first run's lines followed by the second's: lines come out in dialog order |
| BotCommands.ChannelLinesOne | bot_handler.py:227-240 | a single dialog gives exactly one line when it has an entity that is a channel or supergroup, and none otherwise |
| BotCommands.ChannelLinesComplete | bot_handler.py:226-240 | every dialog whose entity is a channel or supergroup has its line in the listing |
| BotCommands.ChannelLinesSound | bot_handler.py:226-240 | every line of the listing is the line of such a dialog |
| BotCommands.NoChannelNoLines | bot_handler.py:226-245 | with no channel dialog the listing is empty |
| BotCommands.ListChannelLines | bot_handler.py:224-240 | the loop's lines are exactly `ChannelLines` |
| BotCommands.SentTextLength | bot_handler.py:254-261 | the text sent for a chunk is one character shorter than the chunk's `current_len` |
| BotCommands.SendAndRestart | bot_handler.py:254-259 | when the next line would go over 3500, sending the chunk and restarting with the line keeps the chunking invariant |
| BotCommands.Extend | bot_handler.py:258-259 | when the next line fits, appending it keeps the chunking invariant |
| BotCommands.SendLast | bot_handler.py:260-261 | after the last line, sending the chunk if it is non-empty gives chunks that together hold all lines, in order |
| BotCommands.FillChunks | bot_handler.py:251-259 | the loop ends in the chunking invariant over all lines |
| BotCommands.ChunkLines | bot_handler.py:251-261 | the chunks hold all lines in order. A chunk over the budget holds one line. Each cut happens because the next line would not fit. The last chunk is non-empty. The first chunk is empty exactly when the first line alone is over the budget |
| BotCommands.Requester | bot_handler.py:181 | "@username" when the user has a truthy username; else the first name as an f-string shows it, whenever the attribute exists; else "You" |
| BotCommands.ChunkReplies | bot_handler.py:253-261 | the chunks are sent in order, each joined with newlines; sending stops at the first empty chunk, which is refused, and no reply is for an empty chunk |
| BotCommands.ListChannels | bot_handler.py:177-269 | missing credentials give one reply; no channels gives "No channels found". Otherwise the count comes first, then the chunks, then the tip, or "Failed to list channels" exactly when the first line alone is over the budget |
| SimpleMonitor.DropAt | telegram_monitor_simple.py:273-274 | exactly one leading '@' is dropped |
| SimpleMonitor.DropAtRemovesOnlyOne | telegram_monitor_simple.py:273-274 | "@@name" keeps its second '@' |
| SimpleMonitor.Resolvable | telegram_monitor_simple.py:288-306 | every name returned comes from the input and resolves, and every resolving input name is returned |
| SimpleMonitor.ResolvableAppend | telegram_monitor_simple.py:298-306 | filtering a list is filtering its front and then its back: names come out in input order |
| SimpleMonitor.ResolvableOne | telegram_monitor_simple.py:300-302 | a single name comes out once exactly when its lookup succeeds, and not at all otherwise |
| SimpleMonitor.TelegramChannelMonitor.constructor | telegram_monitor_simple.py:178-194 | the monitor starts with no channels and no user |
| SimpleMonitor.TelegramChannelMonitor.Start | telegram_monitor_simple.py:213-214 | logging in records the user to forward to, and the channels are unchanged |
| SimpleMonitor.TelegramChannelMonitor.ForwardMessageToSelf | telegram_monitor_simple.py:225-259 | the forward succeeds exactly when a user is known and the forward call did not raise |
| SimpleMonitor.TelegramChannelMonitor.AddChannelToMonitor | telegram_monitor_simple.py:261-286 | the result is true exactly when the name without its '@' resolves; the resolved id joins the set; a failed lookup changes nothing |
| SimpleMonitor.TelegramChannelMonitor.AddChannelsToMonitor | telegram_monitor_simple.py:288-306 | the names reported are exactly `Resolvable` in order, and the set gains exactly their ids |
| SimpleMonitor.TelegramChannelMonitor.HandleMessage | telegram_monitor_simple.py:311-356 | only a chat whose id is monitored is checked, against the fixed prompt. A relevant message is displayed, then forwarded once. It counts as forwarded exactly when a user is known and the forward call succeeded |
| SimpleMonitor.AddListTwice | telegram_monitor_simple.py:288-306 | adding the same list twice reports the same names both times, and the second pass adds no id |

## Left out

- Telethon transport: connecting, signing in (including two-factor), receiving events and
  `get_dialogs`. Dialogs, chats, senders and messages are inputs.
- The language-model and HTTP calls. Their results are inputs: the reply or `None`, the
  status or `None`.
- asyncio scheduling, `sleep` between additions, the `while is_connected()` loop, and
  concurrency between the bot and the monitors.
- Logging, console output and the ASCII-replace fallback for `UnicodeEncodeError`.
  Only the logged excerpt (`LogText`) is modelled.
- Monitor.ChannelMonitor.HandleMessage: assumes printing never raises. The two `print`
  calls at monitor.py:204 and monitor.py:220 are outside the `UnicodeEncodeError` guard,
  so a console that cannot encode the chat name ends the event at monitor.py:256 before
  the membership test; the model does not capture that outcome.
- `strftime`: the formatted date is an input string.
- `str.upper` beyond ASCII letters.
- A non-string "query" entry in the JSON file.
- `message.get_sender()` raising. The sender is an input, and a raised call is not modelled.
- The command-line and console front ends, and the startup checks of credentials in both
  monitors and in the bot's `main`. They are configuration I/O.
- `validate_channels_from_store`, `get_channel_info` and `run_monitor` in `monitor.py`,
  and the simple monitor's `process_new_message` and run loop. They only print or look
  up entities; the router records that the display step is taken.
- The wording of bot replies, and the replies of `/start`, `/showquery`, `/getmyid`,
  `/listmonitored` and of plain chat messages (`handle_message`).
- The authorisation flow inside `/listchannels`. `ListChannels` starts from an
  authorised session.
- `getattr(ent, "id", "")` when an entity has no id. Every entity is taken to carry a
  numeric id.
- ListChannels: states the shape of the reply sequence. The contents of the chunk
  replies are stated by `ChunkLines` and `ChunkReplies`.
