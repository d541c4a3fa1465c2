# LuckyBot, modelled in Dafny

LuckyBot is a modular IRC bot written in Python 2. It connects to one or
more IRC servers and parses each received line into a message. The main
loop is written to hand every message first to the server's protocol
handler and then to the plugins, which register handlers for bot commands,
user events, server replies and regular expressions, and for timers. As
written, the main loop and the settings reader cannot run: their modules
fail to import, and the handler raises on every line. The model describes
the loop as intended, and "## Left out" and "## Findings" name each of
those failures. This project models the
core of that system and proves what it promises:

- **The IRC line codec.** `parse_line` in both of its versions, the
  prefixed-message grammar of section 2.3.1 of RFC 1459, user masks,
  channel and text resolution, and bot-command extraction. The outgoing
  command renderers are paired with the parser, each proved to read back.
  Also modelled: the mIRC formatting codes and their removal, the PING
  answer, registration, and the joins after reply 001 (section 5.1 of
  RFC 2812).
- **The connection layer.** The line framer (`check_buffer`) that cuts the
  received byte stream into lines, and the outgoing writer. The
  asynchronous connection's FIFO queue of partially sent packets.
- **The plugin registry.** Loading, unloading and reloading plugins into
  six handler indices. Resolving a plugin by directory name or display
  name. Dispatching a message through the five stages of `check_event` in
  their fixed order, and firing the timers. The decorators that tag
  handlers, and the `load`/`unload`/`reload` commands of the
  plugin-management plugin.
- **Policies.** Authorisation by group rank. Lookup of language entries
  with fallback. The signal emitter. The process supervisor. The main
  loop's dead-connection handling. The server-section filter of the
  settings file.
- **Game-server queries.** The cursor-based packet reader, and the Source
  engine query protocol: challenge, info and rules answers, and split
  answers reassembled in fragment order. The status query of Call of Duty
  servers.
- **Plugin commands.** `plugins` of the bot-information plugin,
  `join`/`part`/`nick` of the bot-actions plugin, the RSS reader's read,
  list and submit commands, and the gameserver plugin's query, list and
  submit commands. Their argument checks (channel filter, `ip:port`, feed
  URL and name patterns) are modelled, as is the chunking of long lists
  into messages of about 250 or 255 characters.

Most Python exceptions the code raises (a missing attribute, `IndexError`,
`struct.error`, `ValueError` from `int()`) are modelled as error results
rather than excluded by preconditions. The exceptions not carried are each
listed under "## Left out": the names a module never imports
(luckybot/bot.py, luckybot/controller.py, luckybot/connections/async.py),
the `NotImplementedError` of the Call of Duty protocol's construction, and
the handler's `NameError` inside the main loop. State the source updates in place
is held in classes whose methods are proved against specification
functions: the registry, a packet's cursor, the connection buffers, the
timers' last calls, a command event's replies, and the plugins'
tables. Python 2 `str` is `string`; the game-server datagrams are
sequences of byte values.

Two behaviours are modelled as written because the model has no
intended version to set beside them:

- `plugins NAME` for a plugin with an `authors` entry calls
  `event.user.send_pm`, which the user proxy does not define, so the
  command raises after the header and description lines.
- `unload_plugin` deletes the plugin and returns true whenever the name
  resolves, so `unload`'s `could_not_unload_plugin` branch cannot be
  reached.

The decorators set the attribute `type`, while the plugin manager looks
for `handler_type`. The model treats the handler tag abstractly: the
corrected decorators set both.

## Model

| member | source | states |
|---|---|---|
| IrcFormat.ColorCode | luckybot/irc/__init__.py:20-48 | a colour name gives its own number, between 1 and 16; a method of `Format` is no number and raises; any other name falls back to 1 |
| IrcFormat.TwoDigits | luckybot/irc/__init__.py:50 | two decimal digits, zero padded, whose value is the number |
| IrcFormat.Color | luckybot/irc/__init__.py:37-50 | the colour character followed by two digits reading the colour's code; it raises exactly for the method names of `Format`, which `%02.f` cannot format |
| IrcFormat.ColorOfName | luckybot/irc/__init__.py:20-50 | a known colour is written with its own number, an unknown name with black's `\x0301`, and a method name raises |
| IrcFormat.DigitRun | luckybot/irc/__init__.py:89 | the length of the longest leading run of digits (the greedy `[0-9]+`) |
| IrcFormat.Remove | luckybot/irc/__init__.py:80-91 | the result is no longer than the input and holds none of the normal, bold, reverse and underline characters |
| IrcFormat.RemovePlain | luckybot/irc/__init__.py:89-91 | text without control characters comes back unchanged |
| IrcFormat.RemoveStylePrefix | luckybot/irc/__init__.py:64-91 | a leading normal, bold, reverse or underline character is dropped and nothing else changes |
| IrcFormat.RemoveColorGreedy | luckybot/irc/__init__.py:89 | a colour character is removed with its whole digit run, including digits of the text that follow the code |
| IrcFormat.RemoveColorPrefix | luckybot/irc/__init__.py:50-89 | a colour code followed by text that does not start with a digit is removed cleanly |
| IrcFormat.RemoveEatsLeadingDigits | luckybot/irc/__init__.py:89 | a red `5 apples` comes back as ` apples`: the greedy match eats the text's digit |
| IrcLine.AlnumRun | luckybot/protocols/irc.py:100 | the length of the longest leading run of letters and digits, the `[a-z0-9]+` group under `re.I` |
| IrcLine.FirstCommandAt | luckybot/protocols/irc.py:100 | the lazy sender group ends at the first position followed by ` word `, and at no earlier one |
| IrcLine.MatchLine | luckybot/protocols/irc.py:100-105 | a match yields a sender without newline and a command word, and the line starts with `:sender command ` |
| IrcLine.MatchLineFails | luckybot/protocols/irc.py:100-103 | there is no match exactly when the line has no newline or no ` word ` before its first newline (the source then raises `AttributeError`) |
| IrcLine.MatchLineOf | luckybot/protocols/irc.py:100-105 | a line built from a sender without spaces, a command word and parameters, ended by `\n` or `\r\n`, splits back into exactly those parts |
| IrcLine.FirstCommandAtIs | luckybot/protocols/irc.py:100 | when no space comes before a ` word `, the sender ends there |
| IrcLine.SplitUserMask | luckybot/protocols/irc.py:113-114 | a match splits the sender into nick, `!`, real name, `@`, host name, the nick holding no `!` and the real name no `@` |
| IrcLine.SplitUserMaskOf | luckybot/protocols/irc.py:113-133 | a mask built from its parts comes apart into those parts |
| IrcLine.NonSpaceRun | luckybot/protocols/irc.py:117 | the length of the longest leading run of non-space characters |
| IrcLine.ChannelOfShape | luckybot/protocols/irc.py:117-125 | the channel is the longest `#` and non-space run opening the parameters when there is one of at least two characters, otherwise the sender's nick |
| IrcLine.ChannelOfTarget | luckybot/protocols/irc.py:119-123 | a space-free `#name` at the head of the parameters is the channel |
| IrcLine.ExtractBotCommand | luckybot/protocols/irc.py:142-149 | a bot command is found exactly when the text starts with the prefix |
| IrcLine.ExtractBotCommandShape | luckybot/protocols/irc.py:143-149 | the command has no space, and the text is prefix and command, or prefix, command, a space and the arguments |
| IrcLine.ExtractBotCommandOf | luckybot/protocols/irc.py:143-149 | prefix, a space-free word, a space and arguments split back into that command and those arguments |
| IrcLine.ExtractBareBotCommand | luckybot/protocols/irc.py:144-149 | prefix and a word with nothing after it give that command with empty arguments |
| IrcLine.UserArgs | luckybot/protocols/irc.py:127-149 | the user arguments carry the command and the message text, never `type` or `raw`, and `bot_command` exactly for a PRIVMSG whose text starts with the prefix, together with `bot_args` as the split gives them |
| IrcLine.UserArgsFields | luckybot/protocols/irc.py:127-136 | sender, params, nick, real name, host name and channel are the matched pieces |
| IrcLine.ServerArgs | luckybot/protocols/irc.py:153-158 | the server arguments carry command and message and no nick, channel or bot command |
| IrcLine.ServerArgsFields | luckybot/protocols/irc.py:153-158 | sender and params are the matched pieces, the message is the parameters after the first `:`, and there is no real name or host name |
| IrcLine.ParseLine | luckybot/protocols/irc.py:86-164 | an empty line gives no message; a parsed message prints as the line; it is a raw message exactly when the line does not start with `:` |
| IrcLine.ParsePrefixed | luckybot/protocols/irc.py:98-162 | a prefixed line gives a user or server message whose raw text is the line |
| IrcLine.ParseLineKind | luckybot/protocols/irc.py:110-160 | a prefixed message is a user message iff its sender holds `@`, a server message otherwise, and a server message has no nick or channel; both carry command and message |
| IrcLine.ParseLineBotCommand | luckybot/protocols/irc.py:138-149 | a bot command is attached exactly to user PRIVMSG lines whose text starts with the prefix, and it is that text's split |
| IrcLine.PrefixedBotCommand | luckybot/protocols/irc.py:138-149 | the same for a prefixed line once it matched |
| IrcLine.LegacyParseLine | luckybot/irc/protocol/__init__.py:49-96 | an empty line gives `None`; a parsed message keeps the line as raw; a raw message has every other field empty |
| IrcLine.LegacyParsePrefixed | luckybot/irc/protocol/__init__.py:61-94 | a prefixed line gives a user or server message whose raw is the line |
| IrcLine.LegacyAsMessage | luckybot/irc/protocol/__init__.py:49-96 | the older parser's message keeps its kind and raw line, and every field it sets reads back as that attribute |
| IrcLine.LegacyParse | luckybot/irc/protocol/__init__.py:49-96 | an empty line gives no message, the parser's error is raised as is, and a parsed line gives the older parser's message |
| IrcLine.UserArgsAttrs | luckybot/protocols/irc.py:127-151 | a user message reads its command and text from its keyword arguments, and carries a bot command exactly for a PRIVMSG whose text starts with the prefix |
| IrcLine.ParsersAgree | luckybot/irc/protocol/__init__.py:58-96 | the two parsers give the same outcome and kind, and every field of the older message equals the attribute of the newer one, or is empty where the newer has none |
| IrcLine.PrefixedParsersAgree | luckybot/irc/protocol/__init__.py:61-94 | the same agreement for prefixed lines |
| IrcLine.UserFieldsMatch | luckybot/irc/protocol/__init__.py:90 | the older user message's fields are the newer one's attributes |
| IrcLine.ServerFieldsMatch | luckybot/irc/protocol/__init__.py:92 | the older server message's fields are the newer one's attributes, with nick, real name, host name and channel empty |
| IrcRender.ChannelName | luckybot/protocols/irc.py:208-209 | the name starts with `#`, ends with the given name and is at most one character longer; a name already starting with `#` is kept |
| IrcRender.Pm | luckybot/protocols/irc.py:166-175 | a PRIVMSG line ending in the message, holding a newline only when the target or the message does |
| IrcRender.Notice | luckybot/protocols/irc.py:177-186 | a NOTICE line ending in the message, holding a newline only when the target or the message does |
| IrcRender.Join | luckybot/protocols/irc.py:200-211 | a JOIN of a `#` channel ending in the given name, holding a newline only when the name does |
| IrcRender.Part | luckybot/protocols/irc.py:213-224 | a PART of a `#` channel ending in the given name, holding a newline only when the name does |
| IrcRender.SetNick | luckybot/protocols/irc.py:226-234 | a NICK line ending in the nickname, holding a newline only when the nickname does |
| IrcRender.Kick | luckybot/protocols/irc.py:236-246 | a KICK line ending in the reason, holding a newline only when the channel, the nickname or the reason does |
| IrcRender.Quit | luckybot/protocols/irc.py:248-256 | a QUIT line ending in the message, holding a newline only when the message does |
| IrcRender.Action | luckybot/irc/protocol/__init__.py:120-130 | a PRIVMSG whose text ends in the CTCP delimiter, holding a newline only when the target or the message does |
| IrcRender.ChannelNameIdempotent | luckybot/protocols/irc.py:208-209 | normalising twice is normalising once |
| IrcRender.JoinPartNormalised | luckybot/protocols/irc.py:200-224 | `join` and `part` of a name and of its normalised form send the same line, so `join("a") == join("#a")` |
| IrcRender.ActionAsWritten | luckybot/protocols/irc.py:188-198 | as written, every call raises `AttributeError` for `send_pm` |
| IrcRender.ReceivedCommandLine | luckybot/protocols/irc.py:100-105 | a rendered command line received with a sender prefix and a newline splits back into that sender, command and parameters |
| IrcRender.JoinReceived | luckybot/protocols/irc.py:200-211 | a rendered JOIN reads back as command `JOIN` with the normalised channel as parameters |
| IrcRender.PartReceived | luckybot/protocols/irc.py:213-224 | a rendered PART reads back as command `PART` with the normalised channel |
| IrcRender.SetNickReceived | luckybot/protocols/irc.py:226-234 | a rendered NICK reads back with the nickname as parameters |
| IrcRender.QuitReceived | luckybot/protocols/irc.py:248-256 | a rendered QUIT reads back with the quit message as parameters |
| IrcRender.ReceivedUserLine | luckybot/protocols/irc.py:98-151 | a user line to a channel with trailing text parses to the user message built from exactly those pieces, its channel being the target |
| IrcRender.UserSenderShape | luckybot/protocols/irc.py:110 | a sender built from a plain mask has no whitespace and holds `@`, so it is a user sender |
| IrcRender.TrailingParams | luckybot/protocols/irc.py:105-134 | parameters `target middle :text` survive stripping, their message is the text after the first colon and their channel is the target |
| IrcRender.ParseLineUserOf | luckybot/protocols/irc.py:98-151 | the user branch of the parser on a line with a user-mask sender and stripped parameters |
| IrcRender.ReceivedUserFields | luckybot/protocols/irc.py:127-151 | every attribute of such a user message: sender, nick, real name, host name, command, params, message, channel, and the bot command exactly for a prefixed PRIVMSG |
| IrcRender.PmReceived | luckybot/protocols/irc.py:166-175 | a channel PRIVMSG from `pm` reads back as a user message to that channel with that text, carrying a bot command exactly when the text starts with the prefix |
| IrcRender.NoticeReceived | luckybot/protocols/irc.py:177-186 | a NOTICE from `notice` reads back to that channel with that text and never as a bot command |
| IrcRender.ActionReceived | luckybot/irc/protocol/__init__.py:120-130 | an action reads back as a PRIVMSG to the channel whose text is the CTCP ACTION request |
| IrcRender.KickReceived | luckybot/protocols/irc.py:236-246 | a KICK reads back with the channel, the kicked nick in the parameters and the reason as the message |
| IrcMessage.KindCode | luckybot/protocols/base.py:18-20 | the three kinds are coded 0, 1 and 2 |
| IrcMessage.KindCodeInjective | luckybot/protocols/base.py:18-20 | distinct kinds have distinct codes |
| IrcMessage.NewMessage | luckybot/protocols/base.py:22-25 | a new message always has `type` and `raw`, holding the kind's code and the raw line |
| IrcMessage.NewMessageAttr | luckybot/protocols/base.py:27-31 | any other attribute is the keyword argument of that name, and reading one that was not passed raises |
| IrcMessage.GetAttr | luckybot/protocols/base.py:27-31 | an attribute is missing (AttributeError) exactly when it is neither `type`, `raw` nor a keyword argument; only `type` holds the kind |
| IrcMessage.Str | luckybot/protocols/base.py:33-34 | printing a message gives its raw line |
| IrcMessage.StrIsRaw | luckybot/protocols/base.py:33-34 | printing a message gives its raw line |
| IrcProtocolHandler.PingAnswer | luckybot/irc/protocol/handler.py:47-48 | at most one line is sent, and one exactly when the raw line starts with `PING` |
| IrcProtocolHandler.HandlerAgreesWithSession | luckybot/irc/protocol/handler.py:47-48 | for an unprefixed line the handler sends what the protocol session sends, and neither raises |
| IrcProtocolHandler.OnLineAsWritten | luckybot/irc/protocol/handler.py:47-53 | as written, the PING answer goes out on the connection and then every line raises `NameError` for `Message`; nothing else on the connection changes |
| IrcProtocolHandler.OnLine | luckybot/irc/protocol/handler.py:47-60 | with `Message` in scope, the PING answer goes out, the only reply handler (001) does nothing, and handling never raises |
| IrcProtocolSession.StartSequence | luckybot/protocols/irc.py:44-54 | USER comes first and NICK second, and NickServ is asked to identify exactly when a truthy password is set |
| IrcProtocolSession.JoinsFor | luckybot/protocols/irc.py:82-84 | one JOIN line per channel entry |
| IrcProtocolSession.WelcomeJoins | luckybot/protocols/irc.py:80-84 | one JOIN per comma-separated entry, in order, each joining the `#` channel named by the stripped entry |
| IrcProtocolSession.PingAnswered | luckybot/protocols/irc.py:66-67 | `PING :token` is answered with `PONG :token` and nothing else (sections 4.6.2-4.6.3 of RFC 1459) |
| IrcProtocolSession.Pong | luckybot/protocols/irc.py:66-67 | the answer starts with `PONG :` and carries the token of a `PING :token` line unchanged (section 4.6.3 of RFC 1459) |
| IrcProtocolSession.React | luckybot/protocols/irc.py:56-72 | a line that does not parse sends nothing and raises; a parsed line raises at most the `AttributeError` of an integer `channels` setting |
| IrcProtocolSession.PongOnlyForPing | luckybot/protocols/irc.py:63-72 | a line is answered with a PONG exactly when it starts with `PING`, and the PONG is the first line sent |
| IrcProtocolSession.WelcomeJoinLines | luckybot/protocols/irc.py:80-84 | every line the welcome sends is a JOIN |
| IrcProtocolSession.WelcomeReaction | luckybot/protocols/irc.py:69-84 | a server reply sends the JOINs when it is 001 (RPL_WELCOME, section 5.1 of RFC 2812) and nothing otherwise |
| IrcProtocolSession.IrcProtocol.constructor | luckybot/protocols/irc.py:32-40 | the protocol keeps its server connection |
| IrcProtocolSession.IrcProtocol.Start | luckybot/protocols/irc.py:44-54 | with a nickname set, the start lines are sent in order; without one `start` raises `KeyError` and sends nothing; nothing else on the connection changes |
| IrcProtocolSession.IrcProtocol.OnCommand001 | luckybot/protocols/irc.py:74-84 | the welcome lines are sent; an integer `channels` setting raises `AttributeError` |
| IrcProtocolSession.IrcProtocol.JoinAll | luckybot/protocols/irc.py:83-84 | the loop sends a JOIN for each stripped entry, in order |
| IrcProtocolSession.IrcProtocol.OnLine | luckybot/protocols/irc.py:56-72 | handling a received line sends exactly the lines the reaction describes and raises what it raises |
| IrcProtocolSession.IrcProtocol.OnMessage | luckybot/protocols/irc.py:65-72 | the same for a parsed message |
| IrcConnection.ConnectInfo | luckybot/connections/irc.py:50-61 | after `connect` the port is an integer and a nickname is set; no other setting changes and only `port` and `nickname` are added |
| IrcConnection.ConnectInfoIdempotent | luckybot/connections/irc.py:50-61 | connecting twice leaves the settings as connecting once |
| IrcConnection.ConnectPort | luckybot/connections/irc.py:51-61 | a missing port becomes 6667, an integer port is kept, text that `int()` accepts is converted and other text becomes 6667; a missing nickname becomes `LuckyBot` |
| IrcConnection.FrameRoundTrip | luckybot/connections/irc.py:104-113 | the emitted lines in order followed by what stays buffered give back the buffer |
| IrcConnection.FrameLines | luckybot/connections/irc.py:104-113 | every emitted line ends in its only newline, and what stays buffered holds no newline |
| IrcConnection.FrameChunks | luckybot/connections/irc.py:83-113 | the lines do not depend on how the stream is cut into chunks |
| IrcConnection.LinesStep | luckybot/connections/irc.py:104-110 | the first emitted line is the buffer up to and including its first newline, and the rest is framed from what follows |
| IrcConnection.NoNewlineNoLines | luckybot/connections/irc.py:104-106 | a buffer without a newline emits nothing and stays as it is |
| IrcConnection.Wire | luckybot/connections/irc.py:72 | one transmission per line |
| IrcConnection.Outgoing | luckybot/connections/irc.py:73 | one `data_out` signal per line |
| IrcConnection.WireAppend | luckybot/connections/irc.py:66-73 | sending two runs of lines sends them one after the other |
| IrcConnection.WireThen | luckybot/connections/irc.py:72 | sending `a` and then `b` transmits what sending `a + b` does |
| IrcConnection.OutgoingThen | luckybot/connections/irc.py:73 | the same for the `data_out` signals |
| IrcConnection.IrcServerConnection.constructor | luckybot/connections/irc.py:24-43 | a connection with a hostname starts with its settings, an empty buffer and nothing sent |
| IrcConnection.IrcServerConnection.Create | luckybot/connections/irc.py:36-37 | construction fails (`KeyError`) exactly when no hostname is given |
| IrcConnection.IrcServerConnection.Connect | luckybot/connections/irc.py:45-64 | the settings get their defaults, the socket is opened at hostname and port, and `connected` is emitted |
| IrcConnection.IrcServerConnection.Send | luckybot/connections/irc.py:66-73 | the line goes out with one newline appended and `data_out` carries the stripped line; nothing else changes |
| IrcConnection.IrcServerConnection.Recv | luckybot/connections/irc.py:75-87 | the data is returned as received; the completed lines are emitted as `data_in` in order and the buffer keeps the unfinished rest, which holds no newline; no data changes nothing |
| IrcConnection.IrcServerConnection.Close | luckybot/connections/irc.py:89-96 | `closed` is emitted and nothing else changes |
| IrcConnection.IrcServerConnection.CheckBuffer | luckybot/connections/irc.py:98-113 | every complete line of the buffer is emitted in order and dropped, and no newline stays |
| IrcConnection.IrcServerConnection.EmitFirstLine | luckybot/connections/irc.py:106-113 | the step that emits the first line and recurses while a newline remains |
| AsyncQueue.Unsent | luckybot/connections/async.py:46 | the unsent text is never longer than the packet's data |
| AsyncQueue.CompleteIffNothingUnsent | luckybot/connections/async.py:51-52 | a packet is complete exactly when nothing of it is left to send |
| AsyncQueue.ReadState | luckybot/connections/async.py:42-46 | `read(n)` is the first `n` characters of the unsent text, or all of it when shorter or when no limit is given |
| AsyncQueue.WriteEvent | luckybot/connections/async.py:186-192 | a write event on an empty queue leaves it empty |
| AsyncQueue.Datas | luckybot/connections/async.py:92 | one text per queued packet |
| AsyncQueue.WriteEventFifo | luckybot/connections/async.py:186-192 | only the head advances, by what the socket accepted; it leaves the queue only once complete, and every other packet stays as it was |
| AsyncQueue.WriteEventConsumes | luckybot/connections/async.py:186-192 | when the socket accepts `k` characters of what was read from the head, exactly the first `k` characters leave the pending text |
| AsyncQueue.WriteEventPending | luckybot/connections/async.py:186-192 | after a write event the pending text is the head's unsent rest followed by the other packets' |
| AsyncQueue.PendingAppend | luckybot/connections/async.py:86-92 | a packet added at the tail adds its text at the end of the pending text |
| AsyncQueue.OutgoingPacket.constructor | luckybot/connections/async.py:37-40 | a new packet has nothing sent and its length is that of its data |
| AsyncQueue.OutgoingPacket.Read | luckybot/connections/async.py:42-46 | reading gives the `read` of the packet's state |
| AsyncQueue.OutgoingPacket.Sent | luckybot/connections/async.py:48-49 | progress grows by exactly the count given |
| AsyncQueue.OutgoingPacket.IsComplete | luckybot/connections/async.py:51-52 | a packet is complete exactly when nothing of it is left to send |
| AsyncQueue.AsyncConnection.constructor | luckybot/connections/async.py:68-74 | a new connection has an empty send queue |
| AsyncQueue.AsyncConnection.Send | luckybot/connections/async.py:86-92 | a new packet with nothing sent joins the tail of the queue, so its text is sent after everything already queued |
| AsyncQueue.AsyncConnection.Readable | luckybot/connections/async.py:117-122 | a socket counts as readable exactly while connected |
| AsyncQueue.AsyncConnection.Writeable | luckybot/connections/async.py:124-130 | a socket counts as writable exactly while connected with a packet queued |
| AsyncQueue.AsyncConnection.HandleWriteEvent | luckybot/connections/async.py:180-192 | the head packet's next chunk of at most 2048 characters is handed to the socket and the queue becomes the write event's result; an empty queue hands over nothing |
| Signals.Calls | luckybot/signals.py:52-56 | one call per listener, so as many calls as listeners |
| Signals.CallsInOrder | luckybot/signals.py:51-56 | the i-th call goes to the i-th registered listener, with the positional arguments as given and the keyword arguments as left by the listeners up to and including it |
| Signals.UserdataCarriesOver | luckybot/signals.py:53-56 | a listener without userdata receives the userdata of the listener before it |
| Signals.SignalEmitter.constructor | luckybot/signals.py:20-23 | a new emitter has no listeners |
| Signals.SignalEmitter.AddListener | luckybot/signals.py:25-41 | registration succeeds iff the name is an available event; it appends the listener to the end of that name's list and leaves every other name untouched; an unknown name raises and changes nothing |
| Signals.SignalEmitter.EmitSignal | luckybot/signals.py:43-56 | the calls made are those of the registered listeners in order; a name with no listeners makes none, available or not |
| Auth.IsAllowed | luckybot/auth.py:31-57 | an unknown hostname, an unknown required group or a user group without a rank is refused; otherwise the answer is whether the required group's rank is at least the user's group's rank, both looked up in lower case |
| Auth.AllowedMonotone | luckybot/auth.py:55-57 | a user allowed for one group is allowed for every known group whose rank is not lower |
| Auth.MemberAllowed | luckybot/auth.py:43-57 | a user whose own group is the required (known) group is allowed |
| Auth.AllowedIgnoresCase | luckybot/auth.py:40-41 | the answer does not change when hostname and group are lower-cased first |
| IniConfig.Read | luckybot/language.py:57 | reading a file keeps every section already read, in place and in order, and adds each section the file names |
| IniConfig.HasOption | luckybot/language.py:81-89 | `has_option` of a section that was never read is false rather than an error |
| IniConfig.Get | luckybot/language.py:83-89 | the value is one stored in that section |
| IniConfig.GetIgnoresCase | luckybot/language.py:81-89 | option names are compared in lower case: two keys that agree in lower case are found or missed together and give the same value |
| LanguageEntries.Formatting | luckybot/language.py:70-75 | the formatting variables are exactly `c`, `b`, `u` and `n`, bound to the colour code of the configured colour and the bold, underline and normal characters |
| LanguageEntries.Source | luckybot/language.py:81-91 | an entry is only ever taken from a section that holds the key |
| LanguageEntries.Translate | luckybot/language.py:60-91 | the lookup raises only when no section was ever loaded (`IndexError`), and a key without an entry comes back as itself |
| LanguageEntries.NoFallbackFromLanguage | luckybot/language.py:81-91 | when the configured language has a section, the answer is its formatted and stripped entry, or the key itself when the entry is missing; english is never consulted |
| LanguageEntries.FallbackOrder | luckybot/language.py:84-91 | without the configured section, english is used when present, otherwise the first loaded section; with no section at all the lookup fails (the source's IndexError) |
| LanguageEntries.TranslatedIsStripped | luckybot/language.py:83-89 | a translated entry has no leading or trailing whitespace |
| LanguageEntries.Language.constructor | luckybot/language.py:26-45 | a missing or empty colour becomes `darkblue`; the parser and the available languages start empty and the format variables are the defaults |
| LanguageEntries.Language.LoadLanguage | luckybot/language.py:47-58 | the parser reads the file and the available languages become the parser's sections |
| LanguageEntries.Language.Call | luckybot/language.py:60-91 | the caller's keyword arguments and then the formatting variables are merged into the stored format variables, and the answer is the lookup formatted with the merged variables |
| LanguageEntries.FormattingWins | luckybot/language.py:77-79 | a formatting variable overrides a caller argument of the same name, a caller argument overrides an earlier stored one, and the rest is kept |
| LanguageEntries.VariablesPersist | luckybot/language.py:77-78 | a variable passed to one call is still there for a later call that does not pass it |
| LanguageEntries.LoadKeepsLanguages | luckybot/language.py:57-58 | a language that has a section keeps it after another file is read |
| Processes.Decide | luckybot/processes.py:44-61 | an alive server whose data does not start with `QUIT` is counted and not reconnected; a dead or quitting server never started is connected and counted; a dead started server is connected and counted only with keep-alive; a connected server is always counted |
| Processes.CountAlive | luckybot/processes.py:42-63 | each server adds at most one, so the count never exceeds the number of servers |
| Processes.AllAliveCounted | luckybot/processes.py:44-52 | with every server alive and none quitting, every server is counted |
| Processes.DeadStartedNotCounted | luckybot/processes.py:54-61 | without keep-alive a dead server that was started is not counted, so the count is below the number of servers |
| Processes.Server.constructor | luckybot/processes.py:54-58 | a new server has not been started and has not been connected |
| Processes.Server.Check | luckybot/processes.py:44-61 | one iteration: the server is counted and connected as the rule decides, `started` becomes true when it is connected, and its alive flag is left as it was |
| Processes.ProcessManager.constructor | luckybot/processes.py:31-32 | the manager keeps the servers and the keep-alive setting |
| Processes.ProcessManager.Seen | luckybot/processes.py:43-44 | one observed state per server |
| Processes.ProcessManager.CheckProcesses | luckybot/processes.py:34-63 | the returned count is the rule's count over all servers, at most their number, and each server is connected and marked started exactly when the rule says so |
| Processes.ProcessManager.Step | luckybot/processes.py:43-61 | the loop body for the i-th server applies the rule to it alone: servers already visited keep their new state and later ones are untouched |
| ServerSections.ServerConfigs | luckybot/bot.py:40-52 | the configurations of the server sections, never more than there are sections |
| ServerSections.ServerConfigsAppend | luckybot/bot.py:44-50 | filtering keeps the order of the sections |
| ServerSections.ServerConfigsMember | luckybot/bot.py:42-50 | a configuration is in the result iff some section matching `^Server(\d+)$` has exactly those options |
| ServerSections.NotServerSections | luckybot/bot.py:42-46 | `Bot`, a bare `Server` and names with anything before or after `Server<digits>` are not server sections |
| ServerSections.ServerSectionIgnoresCase | luckybot/bot.py:42 | `server12` and `SERVER1` are server sections: the match ignores case |
| ServerSections.CopyOptions | luckybot/bot.py:47-49 | the copying loop yields every option of the section with its value |
| ServerSections.GetServers | luckybot/bot.py:34-52 | one configuration per server section, in section order |
| Controller.Annotate | luckybot/controller.py:126-138 | marking keeps the message's type and raw line |
| Controller.AnnotateMarks | luckybot/controller.py:126-138 | a user PRIVMSG whose text starts with the prefix gets `bot_command` and `bot_args` as the command extraction gives them; no other attribute changes, and every other message is left as it is |
| Controller.AnnotateSplits | luckybot/controller.py:131-138 | prefix, command word, space and arguments give exactly that command and those arguments |
| Controller.Receive | luckybot/controller.py:118-144 | no data or empty data causes nothing; otherwise the marked message goes to `on_line` and then to `check_event` of the same server |
| Controller.ReceiveParses | luckybot/controller.py:118-144 | a received line reaches the handler and the plugins as the message the older `Protocol` of the handler makes of it, bot command marked; a line that makes that parser raise ends in its error |
| Controller.ReceiveIgnoresPrefix | luckybot/controller.py:118-144 | the server's `prefix` option plays no part: a line is parsed and dispatched the same with any setting |
| Controller.ReconnectGuardAsWritten | luckybot/controller.py:150 | the guard as written: with no `lastcheck` attribute it always lets the reconnect through |
| Controller.ReconnectEveryPassAsWritten | luckybot/controller.py:149-153 | as written, two dead observations one second apart both reconnect, where the intended guard refuses the second |
| Controller.Supervise | luckybot/controller.py:146-155 | a live server is left alone; a dead one counts one off `num_alive` without keep-alive, and with keep-alive is reconnected (its `last_check` set to now) only when the intended three-minute guard allows |
| Controller.ReconnectThrottled | luckybot/controller.py:149-153 | after a reconnect the same dead connection is not reconnected again within 180 seconds |
| Controller.Step | luckybot/controller.py:117-155 | one server's part of a pass leaves one new server state |
| Controller.Pass | luckybot/controller.py:117-155 | a pass leaves one state per server |
| Controller.PassOrder | luckybot/controller.py:141-144 | every message goes to the protocol handler right before it goes to the plugins, and only servers of the pass appear |
| Controller.PassAdvance | luckybot/controller.py:117-155 | a pass visits the servers one at a time and stops at the first whose line raises, leaving it and the later ones as they were |
| Controller.JoinAssociates | luckybot/controller.py:117 | the pieces of a pass can be grouped either way |
| Controller.PassDeadCount | luckybot/controller.py:154-155 | without keep-alive, a pass over dead quiet connections counts every one of them off `num_alive` |
| Controller.NumAliveSkipsZero | luckybot/controller.py:111-158 | with three servers of which two stay dead, `num_alive` goes 3, 1, -1 and never equals 0 at the test |
| Controller.Bot.constructor | luckybot/controller.py:105-111 | before the loop, `num_alive` is the number of servers |
| Controller.Bot.MainPass | luckybot/controller.py:114-158 | one pass of the loop: the events and new server states are those of the pass, `num_alive` goes down by its dead count, and the loop ends iff it is then 0 |
| Controller.Bot.Advance | luckybot/controller.py:117-155 | one iteration keeps the pass's progress invariant, or ends with the error the pass raises |
| Controller.Bot.Visit | luckybot/controller.py:118-155 | the loop body for one server: on success the state changes by exactly that server's step; on error nothing changes |
| Controller.GetServers | luckybot/controller.py:72-92 | one server per server section, in order, holding that section's options and not yet connected |
| PluginDecorators.WrapStr | luckybot/plugin/decorators.py:31 | a string becomes a one-item list; any other value is kept |
| PluginDecorators.WrapInt | luckybot/plugin/decorators.py:71 | an integer becomes a one-item list; any other value is kept |
| PluginDecorators.DecorateAsWritten | luckybot/plugin/decorators.py:29-34 | applied to a plain function, which has no `im_class`, the decorator raises `AttributeError` |
| PluginDecorators.CommandAsWritten | luckybot/plugin/decorators.py:20-36 | `@command` as written raises on every function defined in a class body |
| PluginDecorators.UserEventAsWritten | luckybot/plugin/decorators.py:38-55 | `@userevent` as written raises on every function defined in a class body |
| PluginDecorators.ServerReplyAsWritten | luckybot/plugin/decorators.py:57-76 | `@serverreply` as written raises on every function defined in a class body |
| PluginDecorators.Decorate | luckybot/plugin/decorators.py:29-34 | the function gains the handler tag, the `type` tag and the matcher list, and every other attribute keeps its value |
| PluginDecorators.Command | luckybot/plugin/decorators.py:20-36 | a command handler (type 1) whose `command` is the one string given, wrapped in a list, or the given collection |
| PluginDecorators.UserEvent | luckybot/plugin/decorators.py:38-55 | a user-event handler (type 2) whose `event` is the one name given, wrapped in a list, or the given collection |
| PluginDecorators.ServerReply | luckybot/plugin/decorators.py:57-76 | a server-reply handler (type 3) whose `event` wraps an integer code and keeps anything else, strings included |
| PluginManagement.TimerState.constructor | luckybot/plugin/managment.py:330 | a new timer object has its period and has never been called |
| PluginManagement.NewPlugin | luckybot/plugin/managment.py:42-58 | construction fails exactly when the class has no `PLUGIN_INFO`, with the source's message; otherwise the info gains `plugin_dir`, `dirname` and a `version` (empty when missing) and keeps every other entry |
| PluginManagement.OfTypeExact | luckybot/plugin/managment.py:72-90 | a callback is found for a type exactly when it is one of the plugin's public members tagged with that type, bound to the plugin |
| PluginManagement.DecoratedIsFound | luckybot/plugin/managment.py:83-89 | a public method decorated with `@command` is among the plugin's command handlers |
| PluginManagement.GetFunctionsForType | luckybot/plugin/managment.py:72-90 | the loop gives the plugin's handlers of the type, in `dir` order |
| PluginManagement.OfTypeStep | luckybot/plugin/managment.py:83-89 | one member of the scan appends itself exactly when it is a public handler of the type |
| PluginManagement.RemoveFirst | luckybot/plugin/managment.py:188 | `list.remove` takes away exactly one occurrence of the item |
| PluginManagement.RemoveAllCount | luckybot/plugin/managment.py:186-208 | removing a plugin's handlers one by one takes exactly their occurrences out of the index |
| PluginManagement.RemoveFirstAppended | luckybot/plugin/managment.py:188 | removing the first appended item that was not there before gives back the rest of the append |
| PluginManagement.RemoveAllAppended | luckybot/plugin/managment.py:128-133 | removing what was appended, none of it there before, restores the list |
| PluginManagement.LoadThenUnload | luckybot/plugin/managment.py:128-133 | loading and then unloading a plugin whose directory had no callback indexed leaves the index as it was |
| PluginManagement.ResolveByName | luckybot/plugin/managment.py:171-180 | a found name is a loaded plugin whose display name matches; not found means no loaded plugin has that display name |
| PluginManagement.ResolveFirst | luckybot/plugin/managment.py:173-177 | the first plugin in iteration order with the display name is the one chosen |
| PluginManagement.StageExact | luckybot/plugin/managment.py:284-290 | a stage raises exactly when some test raises, and otherwise calls exactly the callbacks whose test holds, in index order |
| PluginManagement.Select | luckybot/plugin/managment.py:295-297 | the callbacks selected are exactly those whose test is true |
| PluginManagement.Contains | luckybot/plugin/managment.py:296 | `in` on a list or tuple is membership; on an integer or `None` it raises |
| PluginManagement.MessageRegexpsOnlyForPrivmsg | luckybot/plugin/managment.py:313-321 | a message regular expression is called only for a user's PRIVMSG |
| PluginManagement.RawStage | luckybot/plugin/managment.py:281-290 | only raw regular expression handlers are called |
| PluginManagement.CommandStage | luckybot/plugin/managment.py:292-297 | only command handlers are called |
| PluginManagement.EventStage | luckybot/plugin/managment.py:299-311 | only the handlers of that event list are called |
| PluginManagement.MessageStage | luckybot/plugin/managment.py:313-321 | only message regular expression handlers are called |
| PluginManagement.Dispatch | luckybot/plugin/managment.py:269-321 | every handler called is registered; the raw regular expressions are called first, and an error among them ends the check |
| PluginManagement.StageCalls | luckybot/plugin/managment.py:284-290 | a stage only calls callbacks of its own index |
| PluginManagement.Timers | luckybot/plugin/managment.py:323-336 | a timer pass keeps the set of timer objects |
| PluginManagement.TimersStep | luckybot/plugin/managment.py:329-336 | one timer of the pass fires and has its last call moved to now exactly when it is due |
| PluginManagement.TimerRule | luckybot/plugin/managment.py:330-336 | a timer never called, or whose period has strictly passed, fires with its last call set to now; any other is left alone |
| PluginManagement.TimersDistinct | luckybot/plugin/managment.py:329-336 | with distinct timer objects, each timer fires exactly when it is due by its own last call, and the pass does not raise |
| PluginManagement.TimersNoRaise | luckybot/plugin/managment.py:329-336 | when every timer handler has a timer object, the pass does not raise |
| PluginManagement.TimersFiredFrom | luckybot/plugin/managment.py:329-336 | only timer handlers of the index fire |
| PluginManagement.AddAllAt | luckybot/plugin/managment.py:128-133 | loading appends the plugin's handlers of each type to that type's index |
| PluginManagement.RemoveAllOfAt | luckybot/plugin/managment.py:186-208 | unloading removes one occurrence of each of the plugin's handlers from the index of its type |
| PluginManagement.HoldsAfterAdd | luckybot/plugin/managment.py:128-133 | loading a plugin keeps every other plugin's handlers indexed |
| PluginManagement.HoldsAdded | luckybot/plugin/managment.py:128-133 | after loading, the plugin's own handlers are indexed |
| PluginManagement.FunctionsTyped | luckybot/plugin/managment.py:87-89 | every handler found for a type is tagged with that type |
| PluginManagement.CoversAfterLoad | luckybot/plugin/managment.py:128-134 | loading keeps every loaded plugin's handlers indexed, the new plugin's among them |
| PluginManagement.TypedRemove | luckybot/plugin/managment.py:186-208 | removal keeps every index holding only handlers of its type |
| PluginManagement.KeepOther | luckybot/plugin/managment.py:186-208 | removing one plugin's handlers keeps those of another |
| PluginManagement.OwnersDiffer | luckybot/plugin/managment.py:72-90 | plugins under different directory names share no bound handler |
| PluginManagement.HoldsAfterRemove | luckybot/plugin/managment.py:186-208 | unloading one plugin keeps another plugin's handlers indexed |
| PluginManagement.CoversAfterUnload | luckybot/plugin/managment.py:186-213 | unloading one plugin keeps every other plugin's handlers indexed |
| PluginManagement.Without | luckybot/plugin/managment.py:213 | deleting a key leaves exactly the other keys |
| PluginManagement.WithoutDistinct | luckybot/plugin/managment.py:213 | deleting a key keeps the keys distinct |
| PluginManagement.Instantiate | luckybot/plugin/managment.py:233-267 | a plugin made from `dir` and `name` records both in its info and carries `name` as its directory name |
| PluginManagement.ConsistentAfterLoad | luckybot/plugin/managment.py:123-134 | loading keeps the registry consistent: keys and order agree, each entry is stored under its directory name, and every handler is indexed under its type |
| PluginManagement.KeysAfterLoad | luckybot/plugin/managment.py:134 | storing a plugin adds its directory name to the keys, at the end of the iteration order when new |
| PluginManagement.EntriesAfterLoad | luckybot/plugin/managment.py:134 | every stored plugin is still stored under its own directory name |
| PluginManagement.ConsistentAfterUnload | luckybot/plugin/managment.py:185-213 | unloading keeps the registry consistent |
| PluginManagement.PluginManager.constructor | luckybot/plugin/managment.py:97-113 | a new manager has no plugins and six empty indices |
| PluginManagement.PluginManager.LoadPlugin | luckybot/plugin/managment.py:115-134 | a failed import or construction raises and changes nothing; otherwise `initialize` is called if defined, the plugin's handlers are appended to the six indices and it is stored under its directory name |
| PluginManagement.PluginManager.Extend | luckybot/plugin/managment.py:128-133 | the six `extend` calls append the plugin's handlers of each type and change nothing else |
| PluginManagement.PluginManager.UnloadPlugin | luckybot/plugin/managment.py:159-217 | an unresolved name gives false and changes nothing; a resolved one removes the plugin's handlers from every index, calls `destroy` if defined, deletes the plugin and gives true |
| PluginManagement.PluginManager.Evict | luckybot/plugin/managment.py:185-213 | the plugin's handlers are all indexed before removal, and afterwards the plugin, its handlers and its key are gone while `destroy` is recorded if defined |
| PluginManagement.PluginManager.Commit | luckybot/plugin/managment.py:134 | the registry takes exactly the given state |
| PluginManagement.PluginManager.CheckEvent | luckybot/plugin/managment.py:269-321 | the handlers called are those of the five stages of the dispatch, in order, and the pass raises where a test raises |
| PluginManagement.PluginManager.CheckTimers | luckybot/plugin/managment.py:323-336 | the timers called and every timer object's new last call are those of the timer pass |
| PluginManagement.PluginManager.FindByDisplayName | luckybot/plugin/managment.py:172-180 | the scan gives the display-name resolution of the name |
| PluginManagement.PluginManager.ReloadPlugin | luckybot/plugin/managment.py:219-230 | a name that is not a loaded directory name changes nothing; a loaded one is unloaded and loaded again from its own directory, ending up last in iteration order |
| PluginManagement.PluginManager.Reload | luckybot/plugin/managment.py:227-230 | unload then load from the recorded plugin directory; a failed load leaves the plugin unloaded |
| PluginManagement.ReplaceRemoved | luckybot/plugin/managment.py:229-230 | deleting a key and storing it again is the same as storing it over the old value |
| PluginManagement.After | luckybot/plugin/managment.py:329-336 | prepending calls already made keeps the pass's last calls and raise |
| PluginManagement.RunRawStage | luckybot/plugin/managment.py:281-290 | the raw loop calls what the raw stage calls |
| PluginManagement.RunCommandStage | luckybot/plugin/managment.py:292-297 | the command loop calls what the command stage calls |
| PluginManagement.RunMessageStage | luckybot/plugin/managment.py:313-321 | the message loop calls what the message stage calls |
| PluginManagement.RunEventStage | luckybot/plugin/managment.py:299-311 | the event loop calls what the event stage calls |
| PluginManagement.RunStage | luckybot/plugin/managment.py:284-290 | a stage loop calls, in order, what the stage calls, and stops where a test raises |
| PluginManagement.Shrink | luckybot/plugin/managment.py:186-208 | the six removal loops remove the plugin's handlers from every index |
| PluginManagement.RemoveHandlers | luckybot/plugin/managment.py:186-188 | one removal loop removes each of the plugin's handlers of the type once |
| PluginManagement.RemoveEach | luckybot/plugin/managment.py:187-188 | removing items one by one is the specification's removal |
| PluginManagement.RemoveAllStep | luckybot/plugin/managment.py:187-188 | one step of the removal loop keeps the rest removable |
| PluginManagement.WithoutKey | luckybot/plugin/managment.py:213 | the loop deletes the key from the iteration order |
| PluginManagementCommands.FirstLoadable | luckybot/plugins/plugin_managment/__init__.py:42-48 | the intended search: the directory found is the first from which the plugin loads; none is found exactly when it loads from none |
| PluginManagementCommands.FirstLoadableAt | luckybot/plugins/plugin_managment/__init__.py:42-48 | in the intended search, a directory that loads with none before it that does is the one found |
| PluginManagementCommands.TriedUpTo | luckybot/plugins/plugin_managment/__init__.py:42-48 | the intended loop, stopped at the first loading directory, has loaded the plugin from it |
| PluginManagementCommands.TriedAll | luckybot/plugins/plugin_managment/__init__.py:42-48 | the intended loop through directories none of which loads changes nothing |
| PluginManagementCommands.LoadLoop | luckybot/plugins/plugin_managment/__init__.py:42-48 | the loop as written: no directory leaves nothing loaded; otherwise the first directory either loads the plugin or its error leaves the loop, since `except PluginException` does not catch the manager's class |
| PluginManagementCommands.LoadLoopAgrees | luckybot/plugins/plugin_managment/__init__.py:42-48 | when the loop as written does not raise, it finds the directory the intended search finds |
| PluginManagementCommands.LoadStopsAtFirstFailure | luckybot/plugins/plugin_managment/__init__.py:42-48 | with the plugin only in the second directory, the loop as written ends with the first directory's error, where the intended search loads from the second |
| PluginManagementCommands.ManagementPlugin.constructor | luckybot/plugins/plugin_managment/__init__.py:15-22 | the plugin holds the manager, its plugin directories and its language |
| PluginManagementCommands.ManagementPlugin.Load | luckybot/plugins/plugin_managment/__init__.py:24-58 | without `head_admin` a notice and no change; an already loaded name a notice and no change; otherwise the channel is told the plugin loaded exactly when the first directory loads it, or gets the `error` entry with the first directory's error and the manager's exception class, or, with no directory, `could_not_load_plugin` and the class of `luckybot.plugin` |
| PluginManagementCommands.ManagementPlugin.LoadNew | luckybot/plugins/plugin_managment/__init__.py:42-54 | a name not yet loaded: the registry after the loop as written, loaded exactly when the first directory loads it, and the one reply the loop's outcome calls for |
| PluginManagementCommands.ManagementPlugin.TryDirs | luckybot/plugins/plugin_managment/__init__.py:42-48 | the loop as written: the registry and the error are those of the first directory's attempt, and the plugin ends up loaded exactly when that attempt loads it |
| PluginManagementCommands.ManagementPlugin.LoadFrom | luckybot/plugins/plugin_managment/__init__.py:43-46 | one attempt either adds the plugin, or raises the error of loading it and changes nothing |
| PluginManagementCommands.ManagementPlugin.Unload | luckybot/plugins/plugin_managment/__init__.py:60-86 | without `head_admin` a notice; a name that is not loaded a notice and no change; a loaded one is unloaded and the channel told so |
| PluginManagementCommands.ManagementPlugin.Reload | luckybot/plugins/plugin_managment/__init__.py:88-113 | without `head_admin` a notice; a name that is not loaded a notice and no change; a loaded one is reloaded, and the channel hears of success only when nothing raised, otherwise the error |
| PluginManagementCommands.ManagementPlugin.ReloadFrom | luckybot/plugins/plugin_managment/__init__.py:106 | `reload_plugin` gives the reload's state and raises exactly what loading raises |
| CommandEvents.ChannelPms | luckybot/plugin/proxy.py:29-30 | one channel message per text, in order |
| CommandEvents.ServerLines | luckybot/plugins/botactions/__init__.py:82-83 | one server line per item |
| CommandEvents.ServerLinesAt | luckybot/plugins/botactions/__init__.py:82-83 | the `i`-th line is rendered from the `i`-th item |
| CommandEvents.ServerLinesStep | luckybot/plugins/botactions/__init__.py:82-83 | one more item adds its line at the end |
| CommandEvents.Chunks | luckybot/plugins/botinfo/__init__.py:154-164 | no more messages than names (plus one for a buffer already begun); nothing for no names |
| CommandEvents.ChunksNotEmpty | luckybot/plugins/botinfo/__init__.py:163-164 | a buffer holding a name is always sent |
| CommandEvents.ChunksKeepNames | luckybot/plugins/botinfo/__init__.py:154-164 | the messages joined with `, ` are exactly all the names joined with `, `: none lost, changed or moved |
| CommandEvents.ChunksFull | luckybot/plugins/botinfo/__init__.py:159-161 | every message but the last was sent because the buffer had grown past the limit |
| CommandEvents.ChunksFlushed | luckybot/plugins/botinfo/__init__.py:154-164 | the list's messages are those the loop sent, followed by the left-over buffer |
| CommandEvents.FlushedStep | luckybot/plugins/botinfo/__init__.py:155-161 | one name either sends and empties the buffer, once it passes the limit, or lets it grow |
| CommandEvents.Event.constructor | luckybot/plugin/proxy.py:81-90 | a new event has the user, command, arguments and channel given, and nothing sent |
| CommandEvents.Event.Send | luckybot/plugin/proxy.py:29-59 | a send appends exactly that message |
| CommandEvents.Event.SendLines | luckybot/plugins/botactions/__init__.py:82-83 | sends one server line per item, in order |
| CommandEvents.Event.PmChunks | luckybot/plugins/botinfo/__init__.py:154-164 | the loop sends the chunks of the name list to the channel |
| CommandEvents.Event.AddName | luckybot/plugins/botinfo/__init__.py:155-161 | one pass keeps the buffer equal to the pending names each followed by `, ` and leaves the rest of the sends unchanged |
| CommandEvents.Event.AddNames | luckybot/plugins/botinfo/__init__.py:154-161 | the loop leaves the buffer holding the left-over names each followed by `, `, and has sent the messages flushed on the way |
| BotInfo.ConsistentIsKeyed | luckybot/plugins/botinfo/__init__.py:75-77 | a consistent registry stores every plugin under its directory name |
| BotInfo.Scan | luckybot/plugins/botinfo/__init__.py:72-82 | the search raises `KeyError` only for a plugin without a display name, and what it finds is a loaded directory name |
| BotInfo.ScanStep | luckybot/plugins/botinfo/__init__.py:75-78 | one plugin of the loop: a plugin without `name` raises; one whose name equals the name searched for, which is the name asked until a match and then the last match's directory name, becomes the match |
| BotInfo.ScanErrStays | luckybot/plugins/botinfo/__init__.py:75-78 | once the loop has raised, the remaining plugins change nothing |
| BotInfo.ScanErr | luckybot/plugins/botinfo/__init__.py:75-76 | the search raises exactly when some plugin has no display name |
| BotInfo.ScanNone | luckybot/plugins/botinfo/__init__.py:75-82 | nothing is found exactly when every plugin has a display name and none has the name asked for |
| BotInfo.ScanFirstFound | luckybot/plugins/botinfo/__init__.py:75-78 | the first plugin with the display name is found when no later plugin's display name is its directory name |
| BotInfo.ScanKeepsTheFirst | luckybot/plugins/botinfo/__init__.py:75-78 | of two plugins with the same display name the first is described: after a match the loop compares with the match's directory name |
| BotInfo.ScanFollowsTheNewName | luckybot/plugins/botinfo/__init__.py:75-78 | a plugin whose display name is the previous match's directory name becomes the match |
| BotInfo.SearchByName | luckybot/plugins/botinfo/__init__.py:72-82 | the loop computes the search, its `KeyError` included |
| BotInfo.Resolution | luckybot/plugins/botinfo/__init__.py:69-87 | a loaded directory name resolves to itself; anything found is loaded; otherwise nothing is found exactly when every plugin has a display name and none has the name |
| BotInfo.RawPieces | luckybot/plugins/botinfo/__init__.py:116-125 | one piece per docstring part |
| BotInfo.RawPiecesStep | luckybot/plugins/botinfo/__init__.py:116-125 | one more part adds its piece at the end |
| BotInfo.RawPiecesAt | luckybot/plugins/botinfo/__init__.py:116-125 | the `i`-th piece is made from the `i`-th part, between `{c}` and `{n}` when `i` is odd |
| BotInfo.DropLast3 | luckybot/plugins/botinfo/__init__.py:129 | `[0:-3]` drops the last three characters, and leaves nothing of a shorter text |
| BotInfo.Descriptions | luckybot/plugins/botinfo/__init__.py:110-129 | one description per command |
| BotInfo.Pieces | luckybot/plugins/botinfo/__init__.py:116-129 | one shown piece per docstring part |
| BotInfo.PiecesAt | luckybot/plugins/botinfo/__init__.py:116-129 | the `i`-th shown piece is made from the `i`-th part alone |
| BotInfo.StripWithin | luckybot/plugins/botinfo/__init__.py:120 | trimming adds no character |
| BotInfo.JoinWithin | luckybot/plugins/botinfo/__init__.py:125-129 | joining adds no character absent from the parts and the separator |
| BotInfo.TextWithin | luckybot/plugins/botinfo/__init__.py:119-120 | replacing newlines and trimming adds no character but spaces |
| BotInfo.PieceOneLine | luckybot/plugins/botinfo/__init__.py:119-120 | a shown piece holds no newline |
| BotInfo.TextOneLine | luckybot/plugins/botinfo/__init__.py:119-120 | newlines replaced by spaces and trimmed leave none |
| BotInfo.ColorPlain | luckybot/plugins/botinfo/__init__.py:127 | a colour code holds neither a newline nor a brace |
| BotInfo.DescriptionColours | luckybot/plugins/botinfo/__init__.py:116-129 | after formatting, odd-numbered parts, and only those, are shown in the default colour and closed by the normal code |
| BotInfo.DescriptionFields | luckybot/plugins/botinfo/__init__.py:127-128 | `c` and `n` are the two fields the description's `format` fills in |
| BotInfo.FormatNormalEnd | luckybot/plugins/botinfo/__init__.py:123-129 | `{n} - ` formats to the normal code and ` - ` |
| BotInfo.FormatTextEnd | luckybot/plugins/botinfo/__init__.py:123-129 | brace-free text then `{n} - ` formats to the text, the normal code and ` - ` |
| BotInfo.FormatColoured | luckybot/plugins/botinfo/__init__.py:117-129 | a coloured part formats to the colour, its text, the normal code and ` - ` |
| BotInfo.PieceFormat | luckybot/plugins/botinfo/__init__.py:116-129 | a brace-free part and its ` - ` format to its shown piece |
| BotInfo.TemplateStep | luckybot/plugins/botinfo/__init__.py:116-125 | one more part adds its raw piece and ` - ` |
| BotInfo.TemplateNext | luckybot/plugins/botinfo/__init__.py:116-125 | the `i`-th part adds its raw piece and ` - ` |
| BotInfo.TemplateFormat | luckybot/plugins/botinfo/__init__.py:116-129 | the text the loop builds from brace-free parts formats to every shown piece followed by ` - ` |
| BotInfo.DescriptionNoBraces | luckybot/plugins/botinfo/__init__.py:112-129 | a docstring without braces is described by its shown pieces joined with ` - `, the last ` - ` being cut off |
| BotInfo.DescriptionOfNoBraces | luckybot/plugins/botinfo/__init__.py:116-129 | the same for the parts of a docstring |
| BotInfo.DescriptionOfUnknownField | luckybot/plugins/botinfo/__init__.py:127-129 | a `{name}` in the first part that is neither `{c}` nor `{n}` makes the format raise `KeyError` |
| BotInfo.UnknownFieldFirst | luckybot/plugins/botinfo/__init__.py:127-129 | a text that starts with brace-free text and an unknown `{name}` raises `KeyError`, whatever follows |
| BotInfo.DescriptionOfLoneBrace | luckybot/plugins/botinfo/__init__.py:127-129 | a single `}` in the first part makes the format raise `ValueError` |
| BotInfo.LoneBraceFirst | luckybot/plugins/botinfo/__init__.py:127-129 | a text whose first brace is a single `}` raises `ValueError` |
| BotInfo.DescriptionOneLine | luckybot/plugins/botinfo/__init__.py:112-129 | a formatted description is a single line |
| BotInfo.TemplateOneLine | luckybot/plugins/botinfo/__init__.py:116-125 | the text the loop builds holds no newline |
| BotInfo.AliasLines | luckybot/plugins/botinfo/__init__.py:141-151 | one line per alias |
| BotInfo.AliasLinesStep | luckybot/plugins/botinfo/__init__.py:142-151 | one more alias adds its line at the end |
| BotInfo.AliasLinesAt | luckybot/plugins/botinfo/__init__.py:141-151 | every name after the first is announced as an alias of the first |
| BotInfo.DocLines | luckybot/plugins/botinfo/__init__.py:131-151 | a command's lines are its description line followed by one line per alias, and nothing when its description raised |
| BotInfo.CommandsLines | luckybot/plugins/botinfo/__init__.py:110-151 | no commands send nothing; the only error is a description that raised |
| BotInfo.CommandsLinesStep | luckybot/plugins/botinfo/__init__.py:110-151 | one more command adds its lines at the end, or its error when its description raised, and nothing after an earlier error |
| BotInfo.CommandsLinesNext | luckybot/plugins/botinfo/__init__.py:110-151 | the same for the `i`-th command |
| BotInfo.CommandsLinesStays | luckybot/plugins/botinfo/__init__.py:110-151 | after a description raised, later commands send nothing |
| BotInfo.CommandsLinesOk | luckybot/plugins/botinfo/__init__.py:110-151 | the list ends without error exactly when every description formats |
| BotInfo.CommandsLinesStop | luckybot/plugins/botinfo/__init__.py:110-139 | the first description that raises ends the list, after the lines of the commands before it |
| BotInfo.CommandsLinesCount | luckybot/plugins/botinfo/__init__.py:110-151 | every command contributes one line per name it answers to |
| BotInfo.Docs | luckybot/plugins/botinfo/__init__.py:106-110 | one description per command handler |
| BotInfo.DocsStep | luckybot/plugins/botinfo/__init__.py:110 | one more handler adds its description at the end |
| BotInfo.DocsAt | luckybot/plugins/botinfo/__init__.py:110-112 | the `i`-th description is that of the `i`-th handler |
| BotInfo.Header | luckybot/plugins/botinfo/__init__.py:89-93 | the colour, bold, the name and the version; the `KeyError` of `name`, else of `version`, when the info lacks one |
| BotInfo.Intro | luckybot/plugins/botinfo/__init__.py:89-96 | the header line, then the description line only when the plugin has one |
| BotInfo.CommandList | luckybot/plugins/botinfo/__init__.py:106-151 | nothing for a plugin without commands, otherwise the title first; it ends without error exactly when every description formats |
| BotInfo.Describe | luckybot/plugins/botinfo/__init__.py:89-151 | a colour that is no number raises before anything is sent, and so does a missing name or version; `authors` raises after the header and description, because `send_pm` does not exist; otherwise the full description, raising exactly when some docstring fails to format |
| BotInfo.Listed | luckybot/plugins/botinfo/__init__.py:154-157 | the display names in loading order, up to the first plugin without one, where the loop raises `KeyError` |
| BotInfo.ListKeepsNames | luckybot/plugins/botinfo/__init__.py:154-164 | the plugin list loses, changes and reorders no name, and every message but the last passed 250 characters |
| BotInfo.BotInfoPlugin.constructor | luckybot/plugins/botinfo/__init__.py:28-44 | the plugin holds the manager, the default colour, the command prefix and its language |
| BotInfo.BotInfoPlugin.Plugins | luckybot/plugins/botinfo/__init__.py:61-166 | without arguments the chunked list and the information line, or the messages sent before a plugin without a name raised; an unresolved name only `plugin_not_found`; a found plugin its description, raising exactly where that raises |
| BotInfo.BotInfoPlugin.FindPlugin | luckybot/plugins/botinfo/__init__.py:69-82 | the loop gives the resolution of the name |
| BotInfo.BotInfoPlugin.DescribePlugin | luckybot/plugins/botinfo/__init__.py:87-151 | sends what the description sends and raises what it raises |
| BotInfo.BotInfoPlugin.SendCommandList | luckybot/plugins/botinfo/__init__.py:106-151 | sends the command list and raises what it raises |
| BotInfo.BotInfoPlugin.SendCommands | luckybot/plugins/botinfo/__init__.py:110-151 | sends every command's lines, in order, and stops at the first description that raises |
| BotInfo.BotInfoPlugin.SendCommand | luckybot/plugins/botinfo/__init__.py:112-151 | sends one command's description line and alias lines, or nothing and the error when the description raises |
| BotInfo.BotInfoPlugin.SendAliases | luckybot/plugins/botinfo/__init__.py:141-151 | sends one alias line per name after the first |
| BotInfo.BotInfoPlugin.DescribeDoc | luckybot/plugins/botinfo/__init__.py:112-129 | the docstring loop and the format give the description |
| BotInfo.BotInfoPlugin.DescribeParts | luckybot/plugins/botinfo/__init__.py:116-125 | the loop builds every raw piece followed by ` - ` |
| BotInfo.BotInfoPlugin.AddPiece | luckybot/plugins/botinfo/__init__.py:116-125 | one part adds its raw piece and ` - ` to the text |
| PyFormat.FormatPlain | luckybot/plugins/botinfo/__init__.py:127-129 | `str.format` returns text without braces as it is |
| PyFormat.FormatConcat | luckybot/plugins/botinfo/__init__.py:127-129 | text that formats cleanly formats the same in front of any other text |
| PyFormat.FieldStep | luckybot/plugins/botinfo/__init__.py:127-129 | a replacement field is replaced by its value, or raises what looking it up raises |
| PyFormat.FormatKnownField | luckybot/plugins/botinfo/__init__.py:127-129 | `{name}` for a keyword argument is its value |
| PyFormat.FormatUnknownField | luckybot/plugins/botinfo/__init__.py:127-129 | `{name}` for no keyword argument raises `KeyError` at that field, whatever follows |
| PyFormat.FormatLoneClose | luckybot/plugins/botinfo/__init__.py:127-129 | a `}` that is not doubled raises `ValueError` |
| PyFormat.FormatUnclosed | luckybot/plugins/botinfo/__init__.py:127-129 | a `{` that no `}` closes raises `ValueError` |
| PyFormat.FormatKeepsOut | luckybot/plugins/botinfo/__init__.py:127-129 | a character in neither the text nor the arguments is not in the result |
| BotActions.Channels | luckybot/plugins/botactions/__init__.py:40-43 | the filter keeps at most every argument |
| BotActions.ChannelsMembers | luckybot/plugins/botactions/__init__.py:40-45 | an argument is joined exactly when it starts with `#` |
| BotActions.ChannelsConcat | luckybot/plugins/botactions/__init__.py:40-45 | channels are joined in the order of the arguments |
| BotActions.ChannelsStep | luckybot/plugins/botactions/__init__.py:40-45 | one argument adds itself exactly when it is a channel |
| BotActions.InvalidDropped | luckybot/plugins/botactions/__init__.py:40-43 | the filter drops something exactly when some argument is no channel |
| BotActions.JoinRepliesAsWritten | luckybot/plugins/botactions/__init__.py:38-48 | as written, `join` sends at most one line per argument |
| BotActions.JoinSilentOnInvalid | luckybot/plugins/botactions/__init__.py:39-48 | as written, `!join foo` sends nothing, not even the invalid-channel notice |
| BotActions.JoinNeverWarnsAsWritten | luckybot/plugins/botactions/__init__.py:39-48 | as written, `join` sends only JOIN lines, whatever the arguments |
| BotActions.JoinReplies | luckybot/plugins/botactions/__init__.py:38-48 | as intended, at most one line per argument plus the notice |
| BotActions.JoinRepliesCount | luckybot/plugins/botactions/__init__.py:38-48 | as intended, the JOIN lines of the channel arguments, then the notice when the filter dropped an argument |
| BotActions.JoinWarnsIffInvalid | luckybot/plugins/botactions/__init__.py:38-48 | as intended, the notice is sent exactly when some argument is no channel, and the lines before it are the JOINs of the channel arguments in order |
| BotActions.PartChannels | luckybot/plugins/botactions/__init__.py:64-76 | without arguments at most the current channel |
| BotActions.PartOnlyChannels | luckybot/plugins/botactions/__init__.py:64-76 | `part` leaves only channels, and every channel argument |
| BotActions.PartReplies | luckybot/plugins/botactions/__init__.py:78-83 | only the invalid-channel notice exactly when there is nothing to leave, otherwise one PART per channel |
| BotActions.NickReplies | luckybot/plugins/botactions/__init__.py:120-123 | a NICK line exactly when there are arguments, nothing otherwise |
| BotActions.JoinEach | luckybot/plugins/botactions/__init__.py:39-45 | the loop sends the JOIN lines of the channel arguments and sets the flag exactly when some argument is no channel |
| BotActions.JoinSkip | luckybot/plugins/botactions/__init__.py:41-43 | an argument that is no channel sends nothing and sets the flag |
| BotActions.JoinAdd | luckybot/plugins/botactions/__init__.py:45 | a channel argument sends its JOIN line |
| BotActions.JoinOne | luckybot/plugins/botactions/__init__.py:40-45 | one pass of the loop keeps its progress invariant |
| BotActions.CollectChannels | luckybot/plugins/botactions/__init__.py:69-76 | the loop collects exactly the channel arguments, in order |
| BotActions.ActionsPlugin.constructor | luckybot/plugins/botactions/__init__.py:16-23 | the plugin holds its language |
| BotActions.ActionsPlugin.Join | luckybot/plugins/botactions/__init__.py:25-48 | without `admin` only the permission notice; otherwise the intended replies of `join` |
| BotActions.ActionsPlugin.JoinAll | luckybot/plugins/botactions/__init__.py:38-48 | sends the intended replies of `join` |
| BotActions.ActionsPlugin.Part | luckybot/plugins/botactions/__init__.py:50-83 | without `admin` only the permission notice; otherwise the replies of `part` |
| BotActions.ActionsPlugin.Nick | luckybot/plugins/botactions/__init__.py:110-123 | without `admin` only the permission notice; otherwise the NICK line when there are arguments |
| Submissions.WordRun | luckybot/plugins/rssreader/__init__.py:139 | the run of leading word characters is as long as it can be |
| Submissions.WordRunOf | luckybot/plugins/rssreader/__init__.py:139 | a run of word characters followed by a non-word character is exactly the leading run |
| Submissions.UrlBodyOf | luckybot/plugins/rssreader/__init__.py:139-140 | a scheme of word characters, `://` and allowed characters matches up to the end |
| Submissions.ValidUrl | luckybot/plugins/rssreader/__init__.py:139-140 | an accepted URL's scheme is its whole leading run of word characters, followed by `://` and allowed characters up to the end or a final newline |
| Submissions.UrlBeforeNewline | luckybot/plugins/rssreader/__init__.py:139-140 | a final newline leaves the scheme where it was |
| Submissions.WordRunStops | luckybot/plugins/rssreader/__init__.py:139 | text after a run of word characters that has stopped does not extend it |
| Submissions.UrlAccepts | luckybot/plugins/rssreader/__init__.py:139-140 | every such URL is accepted, with or without one final newline |
| Submissions.UrlBodyShape | luckybot/plugins/rssreader/__init__.py:139-140 | a match splits into its scheme, `://` and the rest |
| Submissions.UrlShape | luckybot/plugins/rssreader/__init__.py:139-140 | nothing but such a URL, possibly followed by one newline, is accepted |
| Submissions.DropNewline | luckybot/plugins/rssreader/__init__.py:139 | a text ending in a newline is its start followed by the newline |
| Submissions.UrlWitness | luckybot/plugins/rssreader/__init__.py:139-140 | a URL of that shape has the shape |
| Submissions.NameChars | luckybot/plugins/rssreader/__init__.py:241-243 | a valid name is one or more letters, digits, `-`, `_` or `.`, with at most one final newline besides |
| Submissions.ValidName | luckybot/plugins/rssreader/__init__.py:241-243 | a valid name starts with a name character and ends with one or with a newline |
| Submissions.NameIsNoUrl | luckybot/plugins/rssreader/__init__.py:175-176 | a valid name is never taken for a URL, so a feed name is always looked up |
| Submissions.NameIsPlain | luckybot/plugins/rssreader/__init__.py:235-243 | a valid name holds no formatting for `Format.remove` to strip |
| RssReader.EntryOf | luckybot/plugins/rssreader/__init__.py:80-99 | an item's title is kept, and a missing description or link becomes the empty string |
| RssReader.Kept | luckybot/plugins/rssreader/__init__.py:90-101 | no more entries than items |
| RssReader.KeptStep | luckybot/plugins/rssreader/__init__.py:90-102 | one item adds its entry exactly when it is no advertisement |
| RssReader.KeptConcat | luckybot/plugins/rssreader/__init__.py:90-102 | entries keep the order of the items |
| RssReader.KeptMembers | luckybot/plugins/rssreader/__init__.py:90-101 | an entry is kept exactly when it comes from an item whose title does not start with `ADV:` |
| RssReader.Selection | luckybot/plugins/rssreader/__init__.py:79-102 | `read(max)` keeps at most `max` entries and at most one per item |
| RssReader.SelectionIsPrefix | luckybot/plugins/rssreader/__init__.py:79-102 | `read(max)` keeps the first `max` non-advertisement entries, or all of them when there are fewer: each skipped advertisement raises the bound by one |
| RssReader.SelectionReached | luckybot/plugins/rssreader/__init__.py:79 | once `max` entries are kept the loop has the whole selection |
| RssReader.RssFeed.constructor | luckybot/plugins/rssreader/__init__.py:37-38 | a new feed has its URL and nothing read yet |
| RssReader.RssFeed.Read | luckybot/plugins/rssreader/__init__.py:63-102 | the title is the channel's and the items are the selection of `read(max)` |
| RssReader.Names | luckybot/plugins/rssreader/__init__.py:238 | one name per feed row |
| RssReader.ApprovedNames | luckybot/plugins/rssreader/__init__.py:199-204 | at most one name per feed row |
| RssReader.UrlFor | luckybot/plugins/rssreader/__init__.py:142-158 | a URL found is that of an approved feed with the name; none exactly when no approved feed has it |
| RssReader.FeedUrl | luckybot/plugins/rssreader/__init__.py:168-178 | the feed to read, when there is one, has a non-empty URL |
| RssReader.ItemLines | luckybot/plugins/rssreader/__init__.py:188-189 | one line per entry |
| RssReader.ItemLinesStep | luckybot/plugins/rssreader/__init__.py:188-189 | one more entry adds its line at the end |
| RssReader.ReadReplies | luckybot/plugins/rssreader/__init__.py:161-191 | only `not_found` when no feed is found; nothing sent and the error raised when fetching fails; otherwise the feed's title first and at most one (for `last`) or five lines after it |
| RssReader.AddFeedOutcome | luckybot/plugins/rssreader/__init__.py:222-245 | a feed is added only with a valid name and URL under a name not in use, approved exactly when a moderator added it, and never registered as a command |
| RssReader.AddFeedNeedsTwoParts | luckybot/plugins/rssreader/__init__.py:223-227 | arguments without a space are a syntax error |
| RssReader.NamesAt | luckybot/plugins/rssreader/__init__.py:238 | the `i`-th name is that of the `i`-th row |
| RssReader.UrlForAdded | luckybot/plugins/rssreader/__init__.py:152-158 | an approved feed added under a new name is what that name finds |
| RssReader.ModeratorFeedReadable | luckybot/plugins/rssreader/__init__.py:245-247 | a feed a moderator adds can be read by its name at once |
| RssReader.RssPlugin.constructor | luckybot/plugins/rssreader/__init__.py:116-124 | the plugin holds its language and the feed table |
| RssReader.RssPlugin.Fresh | luckybot/plugins/rssreader/__init__.py:116-124 | a plugin on a new, empty table keeps its names distinct |
| RssReader.RssPlugin.ReadRss | luckybot/plugins/rssreader/__init__.py:160-191 | sends the replies of the read commands and raises the fetch error they raise |
| RssReader.RssPlugin.ShowFeed | luckybot/plugins/rssreader/__init__.py:187-189 | sends the title, then one line per item |
| RssReader.RssPlugin.SendItems | luckybot/plugins/rssreader/__init__.py:188-189 | sends one line per item, in order |
| RssReader.RssPlugin.ListFeeds | luckybot/plugins/rssreader/__init__.py:193-211 | sends the header, then the approved names in chunks of about 255 characters |
| RssReader.RssPlugin.AddFeed | luckybot/plugins/rssreader/__init__.py:213-251 | a feed that passes the checks is stored and the user told; otherwise the first error goes to the channel and the table is unchanged |
| RssReader.RssPlugin.Store | luckybot/plugins/rssreader/__init__.py:245-247 | the row is added at the end of the table, which keeps its names distinct |
| RssReader.AddedStaysDistinct | luckybot/plugins/rssreader/__init__.py:238-247 | adding a row under an unused name keeps the names distinct |
| GameserverCommands.GameOf | luckybot/plugins/gameserver/__init__.py:59-61 | an alias stands for a game exactly when it is `source`, `css` or `dods`, and the game is `source` |
| GameserverCommands.SplitAddress | luckybot/plugins/gameserver/__init__.py:103-108 | an address without `:` fails; otherwise the ip is everything before the first `:` and the port is what `int()` reads from the rest |
| GameserverCommands.AddressRoundTrip | luckybot/plugins/gameserver/__init__.py:103-106 | `ip:port` reads back as that ip and port |
| GameserverCommands.Names | luckybot/plugins/gameserver/__init__.py:229 | one name per preset |
| GameserverCommands.NamesAt | luckybot/plugins/gameserver/__init__.py:229 | the `i`-th name is that of the `i`-th preset |
| GameserverCommands.ApprovedNames | luckybot/plugins/gameserver/__init__.py:180-185 | at most one name per preset |
| GameserverCommands.Preset | luckybot/plugins/gameserver/__init__.py:90-97 | a preset found is an approved one with the name; none exactly when no approved preset has it |
| GameserverCommands.Supported | luckybot/plugins/gameserver/__init__.py:114-122 | a game is queried exactly when it is a supported alias; otherwise `not_supported` |
| GameserverCommands.Locate | luckybot/plugins/gameserver/__init__.py:84-122 | a located server is of a supported game; every failure is one of the four language keys the command raises |
| GameserverCommands.Chars | luckybot/plugins/gameserver/__init__.py:44-45 | a byte string read as text, character by character |
| GameserverCommands.GetVars | luckybot/plugins/gameserver/__init__.py:40-48 | the template's variables exist exactly when the server's info has the four fields it reads |
| GameserverCommands.GetVarsKeys | luckybot/plugins/gameserver/__init__.py:41-48 | the template gives exactly the six variables |
| GameserverCommands.GetVarsAddress | luckybot/plugins/gameserver/__init__.py:42-43 | the ip and port are those queried, the port as `str()` writes it |
| GameserverCommands.GetVarsServer | luckybot/plugins/gameserver/__init__.py:44-45 | the server's name and map are those of its info |
| GameserverCommands.ReadInfoHasVars | luckybot/plugins/gameserver/__init__.py:127-132 | every info answer the query reads gives all the template's variables |
| GameserverCommands.AnswerReplies | luckybot/plugins/gameserver/__init__.py:124-139 | the two template lines go to the channel exactly when the server answered and the template had its variables; otherwise one notice or `something_went_wrong` in private |
| GameserverCommands.StatsReplies | luckybot/plugins/gameserver/__init__.py:77-139 | a failure to locate the server is a notice with its key; otherwise the replies to the query's answer |
| GameserverCommands.AddOutcome | luckybot/plugins/gameserver/__init__.py:203-236 | a preset is added only under a valid name not in use, with game `source`, approved exactly when a moderator added it; each failure is one of the five keys |
| GameserverCommands.PresetAdded | luckybot/plugins/gameserver/__init__.py:90-97 | a preset added under a new name is found exactly when it is approved |
| GameserverCommands.AddedPresetFound | luckybot/plugins/gameserver/__init__.py:236-240 | a preset a moderator adds can be queried by name at once; one a user adds is not found until approved |
| GameserverCommands.AddedStaysDistinct | luckybot/plugins/gameserver/__init__.py:229-238 | adding under an unused name keeps the names distinct |
| GameserverCommands.GameserverPlugin.constructor | luckybot/plugins/gameserver/__init__.py:67-75 | the plugin holds its language and the preset table |
| GameserverCommands.GameserverPlugin.Fresh | luckybot/plugins/gameserver/__init__.py:67-75 | a plugin on a new, empty table keeps its names distinct |
| GameserverCommands.GameserverPlugin.GameserverStats | luckybot/plugins/gameserver/__init__.py:77-139 | sends the replies of `gameserver` |
| GameserverCommands.GameserverPlugin.Report | luckybot/plugins/gameserver/__init__.py:124-139 | sends the replies to the query's answer |
| GameserverCommands.GameserverPlugin.ListPresets | luckybot/plugins/gameserver/__init__.py:174-192 | sends the header, then the approved names in chunks of about 255 characters |
| GameserverCommands.GameserverPlugin.AddServer | luckybot/plugins/gameserver/__init__.py:194-242 | a preset that passes the checks is stored and the user told `add_success` or `needs_review`; otherwise the error goes to the channel and the table is unchanged |
| GamePackets.Index | luckybot/plugins/gameserver/serverstats/protocols/__init__.py:124 | Python's `data[k]` raises exactly outside `-len <= k < len`, and inside the packet gives the byte at `k` |
| GamePackets.Pack32 | luckybot/plugins/gameserver/serverstats/protocols/__init__.py:85 | a signed 32-bit value packs into four bytes |
| GamePackets.Unsigned32Bounds | luckybot/plugins/gameserver/serverstats/protocols/__init__.py:85 | four bytes read as an unsigned value are below 2^32 |
| GamePackets.UnpackPack | luckybot/plugins/gameserver/serverstats/protocols/__init__.py:85 | unpacking what was packed gives the value back |
| GamePackets.PackUnpack | luckybot/plugins/gameserver/serverstats/protocols/__init__.py:85 | packing what was unpacked gives the four bytes back |
| GamePackets.PackMinusOne | luckybot/plugins/gameserver/serverstats/protocols/__init__.py:85 | -1 packs as four `0xFF` bytes |
| GamePackets.StringFrom | luckybot/plugins/gameserver/serverstats/protocols/__init__.py:56-75 | `read_string` never moves the cursor back nor past the end, and moves it forward whenever it reads something |
| GamePackets.PrependNothing | luckybot/plugins/gameserver/serverstats/protocols/__init__.py:72 | prepending nothing to a read changes nothing |
| GamePackets.PrependTwice | luckybot/plugins/gameserver/serverstats/protocols/__init__.py:72 | prepending twice is prepending the concatenation |
| GamePackets.StringStopsAtNul | luckybot/plugins/gameserver/serverstats/protocols/__init__.py:56-75 | from a cursor inside the packet `read_string` gives the bytes before the first NUL, which hold none, and leaves the cursor just past that NUL or at the end |
| GamePackets.StringReadsBack | luckybot/plugins/gameserver/serverstats/protocols/__init__.py:56-75 | a NUL-terminated string written at the cursor is read back whole, and the cursor is left just past its NUL |
| GamePackets.IntDecodes | luckybot/plugins/gameserver/serverstats/protocols/__init__.py:77-88 | `read_int` succeeds exactly when four bytes lie at the cursor, gives the signed value whose packing they are, and moves the cursor by 4; on failure the cursor stays |
| GamePackets.ShortDecodes | luckybot/plugins/gameserver/serverstats/protocols/__init__.py:90-101 | `read_short` succeeds exactly when two bytes lie at the cursor and gives the little-endian unsigned value they make, moving the cursor by 2 |
| GamePackets.ByteAt | luckybot/plugins/gameserver/serverstats/protocols/__init__.py:116-127 | with `use_ord` a byte reads as a number below 256 |
| GamePackets.ByteReads | luckybot/plugins/gameserver/serverstats/protocols/__init__.py:116-127 | `read_byte` gives the byte at the cursor as a one-byte string or as its ordinal, and moves the cursor by one |
| GamePackets.OrdsRead | luckybot/plugins/gameserver/serverstats/protocols/__init__.py:129-142 | inside the packet `read_ord(n)` gives the decimal renderings of the next `n` bytes and moves the cursor by `n` |
| GamePackets.OrdsPastEnd | luckybot/plugins/gameserver/serverstats/protocols/__init__.py:129-142 | past the end of the packet `read_ord` raises `IndexError` with the cursor at the end |
| GamePackets.OrdReadsBack | luckybot/plugins/gameserver/serverstats/protocols/__init__.py:129-142 | one byte read with `read_ord` reads back through `int` as that byte |
| GamePackets.Packet.constructor | luckybot/plugins/gameserver/serverstats/protocols/__init__.py:33-43 | a new packet holds the data with the cursor at 0 |
| GamePackets.Packet.RemainingLength | luckybot/plugins/gameserver/serverstats/protocols/__init__.py:45-46 | the bytes after the cursor, zero exactly when the cursor is at or past the end |
| GamePackets.Packet.SetOffset | luckybot/plugins/gameserver/serverstats/protocols/__init__.py:48-54 | only a position inside the packet is taken; any other leaves the cursor |
| GamePackets.Packet.ReadString | luckybot/plugins/gameserver/serverstats/protocols/__init__.py:56-75 | the loop gives what `read_string` reads from the position given, and leaves the cursor where it does |
| GamePackets.Packet.ReadInt | luckybot/plugins/gameserver/serverstats/protocols/__init__.py:77-88 | gives what `read_int` reads and moves the cursor with it |
| GamePackets.Packet.ReadShort | luckybot/plugins/gameserver/serverstats/protocols/__init__.py:90-101 | gives what `read_short` reads and moves the cursor with it |
| GamePackets.Packet.ReadByte | luckybot/plugins/gameserver/serverstats/protocols/__init__.py:116-127 | gives what `read_byte` reads and moves the cursor with it |
| GamePackets.Packet.ReadOrd | luckybot/plugins/gameserver/serverstats/protocols/__init__.py:129-142 | the loop gives what `read_ord` reads, raising at the end of the packet |
| GamePackets.Packet.Skip | luckybot/plugins/gameserver/serverstats/protocols/__init__.py:158-163 | the cursor moves by the amount but never past the last byte |
| SourceQuery.Latin1 | luckybot/plugins/gameserver/serverstats/protocols/hl.py:41-44 | one byte per character, each its code |
| SourceQuery.GetQuery | luckybot/plugins/gameserver/serverstats/protocols/hl.py:49-71 | every query starts with four `0xFF`; `challenge` is the challenge request, `players` and `rules` carry the current challenge, and anything else is the info query |
| SourceQuery.QueryTypeByte | luckybot/plugins/gameserver/serverstats/protocols/hl.py:41-71 | the fifth byte tells the four kinds of query apart, in both directions |
| SourceQuery.Min | luckybot/plugins/gameserver/serverstats/protocols/hl.py:32-33 | the smallest key is a key no larger than any other |
| SourceQuery.HasMin | luckybot/plugins/gameserver/serverstats/protocols/hl.py:32-33 | every non-empty set of keys has a smallest one |
| SourceQuery.SortedKeys | luckybot/plugins/gameserver/serverstats/protocols/hl.py:32-33 | the keys, each once, in strictly ascending order |
| SourceQuery.SortedKeysComplete | luckybot/plugins/gameserver/serverstats/protocols/hl.py:32-33 | every key is listed |
| SourceQuery.SortDict | luckybot/plugins/gameserver/serverstats/protocols/hl.py:31-34 | one value per key |
| SourceQuery.SortDictOrder | luckybot/plugins/gameserver/serverstats/protocols/hl.py:31-34 | every value appears, and a value from a smaller key comes before one from a larger key |
| SourceQuery.JoinSingle | luckybot/plugins/gameserver/serverstats/protocols/hl.py:108-109 | an answer split in one fragment is that fragment |
| SourceQuery.Collect | luckybot/plugins/gameserver/serverstats/protocols/hl.py:92-106 | every later fragment is one more datagram received |
| SourceQuery.FieldsFrom | luckybot/plugins/gameserver/serverstats/protocols/hl.py:130-145 | reading a layout adds exactly its field names |
| SourceQuery.InfoKeys | luckybot/plugins/gameserver/serverstats/protocols/hl.py:130-147 | an info answer that could be read has all fourteen fields |
| SourceQuery.InfoLayoutNames | luckybot/plugins/gameserver/serverstats/protocols/hl.py:132-145 | the info layout names all fourteen fields |
| SourceQuery.InfoVersion | luckybot/plugins/gameserver/serverstats/protocols/hl.py:132 | the version is the first byte after the type byte, in decimal |
| SourceQuery.OrdFieldAt | luckybot/plugins/gameserver/serverstats/protocols/hl.py:132 | an ordinal field reads one byte in decimal |
| SourceQuery.InfoServerName | luckybot/plugins/gameserver/serverstats/protocols/hl.py:133 | the server name is the string after the version byte |
| SourceQuery.InfoLayoutDistinct | luckybot/plugins/gameserver/serverstats/protocols/hl.py:132-145 | the version and the server name are read once |
| SourceQuery.FieldsFirst | luckybot/plugins/gameserver/serverstats/protocols/hl.py:130-145 | the first field, not read again, keeps the value read first |
| SourceQuery.OrdOne | luckybot/plugins/gameserver/serverstats/protocols/hl.py:132 | one byte in decimal |
| SourceQuery.FieldsStep | luckybot/plugins/gameserver/serverstats/protocols/hl.py:130-145 | reading a layout is reading its first field, then the rest; an error ends it |
| SourceQuery.FieldsKeep | luckybot/plugins/gameserver/serverstats/protocols/hl.py:130-145 | a field not read again keeps its value |
| SourceQuery.RulePair | luckybot/plugins/gameserver/serverstats/protocols/hl.py:166-176 | a rule written as name, NUL, value, NUL and followed by an empty name is added with that value |
| SourceQuery.RuleRead | luckybot/plugins/gameserver/serverstats/protocols/hl.py:170-174 | the name, value and final empty name read in turn |
| SourceQuery.RuleSlices | luckybot/plugins/gameserver/serverstats/protocols/hl.py:170-174 | a rule written at the cursor splits into its name, its value and the final NUL |
| SourceQuery.EmptyAt | luckybot/plugins/gameserver/serverstats/protocols/hl.py:171 | a NUL at the cursor reads as the empty name that ends the rules |
| SourceQuery.NulFirst | luckybot/plugins/gameserver/serverstats/protocols/hl.py:170-174 | bytes followed by a NUL read as those bytes, the cursor just past the NUL |
| SourceQuery.ChallengeRenewsQuery | luckybot/plugins/gameserver/serverstats/protocols/hl.py:119-127 | a challenge answer to a players or rules query sends that query again with the new challenge |
| SourceQuery.ChallengeStored | luckybot/plugins/gameserver/serverstats/protocols/hl.py:119-123 | a challenge answer to a challenge request only stores the challenge |
| SourceQuery.UnknownTypeRejected | luckybot/plugins/gameserver/serverstats/protocols/hl.py:177-178 | an answer of any other type raises and changes nothing |
| SourceQuery.SortDictTwo | luckybot/plugins/gameserver/serverstats/protocols/hl.py:31-34 | two values in key order |
| SourceQuery.SplitReassembles | luckybot/plugins/gameserver/serverstats/protocols/hl.py:78-114 | a split answer in two fragments is put back together in fragment-number order, whichever arrives first, and parsed again; of two fragments with the same number the later is kept |
| SourceQuery.SplitTwo | luckybot/plugins/gameserver/serverstats/protocols/hl.py:88-114 | two fragments go through the dictionary of fragments |
| SourceQuery.ConcatPair | luckybot/plugins/gameserver/serverstats/protocols/hl.py:109 | joining two fragments concatenates them |
| SourceQuery.JoinTwo | luckybot/plugins/gameserver/serverstats/protocols/hl.py:106-109 | two fragments joined in the order of their numbers, the later one kept on a tie |
| SourceQuery.SourceProtocol.constructor | luckybot/plugins/gameserver/serverstats/protocols/hl.py:46-47 | nothing sent yet, and the challenge is the packing of -1 |
| SourceQuery.SourceProtocol.StartProtocol | luckybot/plugins/gameserver/serverstats/protocols/hl.py:46-47 | the challenge becomes the packing of -1 and nothing else changes |
| SourceQuery.SourceProtocol.Query | luckybot/plugins/gameserver/serverstats/__init__.py:82-93 | the query is sent, the next datagram received and parsed, as the specification of `query` says |
| SourceQuery.SourceProtocol.Parse | luckybot/plugins/gameserver/serverstats/protocols/hl.py:73-178 | the new state and error are those the specification of `parse` gives |
| SourceQuery.SourceProtocol.Challenge | luckybot/plugins/gameserver/serverstats/protocols/hl.py:119-127 | the challenge answer's state and error are those of its specification |
| SourceQuery.SourceProtocol.Split | luckybot/plugins/gameserver/serverstats/protocols/hl.py:81-114 | the split answer's state and error are those of its specification |
| SourceQuery.SourceProtocol.Fragments | luckybot/plugins/gameserver/serverstats/protocols/hl.py:92-106 | the first fragment is the rest of the packet and every later one the next datagram; only the datagrams read leave the queue |
| SourceQuery.SourceProtocol.Fragment | luckybot/plugins/gameserver/serverstats/protocols/hl.py:97-106 | one fragment's number and bytes are those its specification reads |
| SourceQuery.SourceProtocol.ReadField | luckybot/plugins/gameserver/serverstats/protocols/hl.py:132-145 | one field reads as its specification says, moving the cursor with it |
| SourceQuery.SourceProtocol.ReadInfo | luckybot/plugins/gameserver/serverstats/protocols/hl.py:128-147 | the fields of the info answer, read in order |
| SourceQuery.SourceProtocol.ReadRules | luckybot/plugins/gameserver/serverstats/protocols/hl.py:166-176 | the name/value pairs of the rules answer |
| CodQuery.RecordedKind | luckybot/plugins/gameserver/serverstats/protocols/cod.py:41-44 | the kind remembered is always `info` or `players`: the one requested when it is one of them, `info` otherwise |
| CodQuery.RecordedKindStable | luckybot/plugins/gameserver/serverstats/protocols/cod.py:41-44 | asking again for the remembered kind remembers the same kind |
| CodQuery.QueryStatusShape | luckybot/plugins/gameserver/serverstats/protocols/cod.py:34 | the request is the query header followed by the NUL-terminated text `getstatus`, which a packet reader reads back from offset 4 |
| CodQuery.QueryStatusSlices | luckybot/plugins/gameserver/serverstats/protocols/cod.py:34 | the request is fourteen bytes: header, `getstatus`, NUL |
| CodQuery.StatusTextNoNul | luckybot/plugins/gameserver/serverstats/protocols/cod.py:34 | `getstatus` holds no NUL |
| CodQuery.Cod4Protocol.constructor | luckybot/plugins/gameserver/serverstats/protocols/cod.py:29-34 | no kind has been requested yet |
| CodQuery.Cod4Protocol.GetQuery | luckybot/plugins/gameserver/serverstats/protocols/cod.py:36-46 | every request is the status query, and the kind is remembered |
| CodQuery.Cod4Protocol.Parse | luckybot/plugins/gameserver/serverstats/protocols/cod.py:48-54 | parsing fails exactly when no kind was ever requested, and otherwise decodes nothing |
| IrcProtocolSession.NoPingFromServer | luckybot/protocols/irc.py:66-67 | a prefixed line never counts as a PING, since its raw text starts with `:` |
| IrcConnection.WireAppendOnly | luckybot/connections/irc.py:66-72 | sending lines one after another puts them on the wire in that order, each with its newline |
| IrcConnection.OutgoingAppend | luckybot/connections/irc.py:66-73 | the `data_out` signals of lines sent one after another come in that order |
| Text.FindFirst | luckybot/connections/irc.py:104 | `find` gives the first occurrence of the character |
| Text.AfterFirstSplit | luckybot/protocols/irc.py:134 | the text after the first `:` is what follows it when the text is split there |
| Text.LowerIdempotent | luckybot/plugin/managment.py:296 | lower-casing twice is lower-casing once |
| Text.StripInside | luckybot/protocols/irc.py:105 | the stripped text sits inside the original with only whitespace around it |
| Text.SplitWhitespaceWord | luckybot/plugins/gameserver/__init__.py:84 | a single word splits into itself |
| Text.SplitOnceOf | luckybot/plugins/rssreader/__init__.py:223 | splitting once at the first separator takes apart what joining there built |
| Text.ParseIntDigits | luckybot/plugins/gameserver/__init__.py:106 | `int()` of a run of digits is its decimal value |
| Text.NatToStringRoundTrip | luckybot/plugins/gameserver/__init__.py:46-47 | `int(str(n)) == n` for a natural number |
| Text.IntToStringRoundTrip | luckybot/plugins/gameserver/__init__.py:43 | `int(str(i)) == i` for every integer, negative ones included |

## Left out

- Sockets, `select`/`poll`, the `multiprocessing` pipes and the GLib transport are not modelled. The number of sockets and the received data are parameters.
- The gameserver plugin's UDP socket is not modelled. Received datagrams are a queue parameter, and a socket error or timeout is the single outcome `QueryFailed`.
- `read_float`, and with it the players (`D`) answer of the Source query, are not modelled. Such an answer ends in `PlayersNotModelled`.
- Source split answers compressed with bz2 are not decompressed. They end in `CompressedNotModelled`.
- `Packet.unpack` is not modelled: it passes `struct.unpack` the wrong number of arguments, so it can only raise.
- Times (`datetime.now()`, `time.time()`) are integer ticks given as parameters.
- The `..protocol` import of the Call of Duty module is taken as resolving to the base packet protocol.
- `str.format` in the language object is an abstract rendering parameter. Language and settings files are given as their parsed sections; the ini text syntax is not modelled.
- Plugin database tables (`feeds`, `servers`) are fields of the plugin objects with lookups over them. The rssreader `db` module and SQL are not part of this model.
- `review_feed` and `review_servers` are not modelled. The RSS reader's `initialize`, which registers one command per stored feed, is not modelled either.
- Fetching and XML parsing of feeds are a `fetch` parameter. It fails with one of three errors: the `IOError` of `urlopen`, the `ParseError` of a document that is not XML, or the `AttributeError` of a missing `channel` or `title`. The "Could not parse XML" branch of `get_xml` (luckybot/plugins/rssreader/__init__.py:55-59) is not modelled. An `ElementTree` object is always true, so that branch is never taken.
- The `row['name']` subscript of `list_feeds` is taken to succeed.
- The stray `read_rss` method copied into the gameserver plugin (luckybot/plugins/gameserver/__init__.py:141-172) is not modelled; no command reaches it.
- The `exec` command and the bot-information `help` command are not modelled. Neither is the bot-information `initialize`, which loads its language file.
- Servers in the main loop are values in a sequence, so aliasing between them and their connections is not modelled.
- Regular-expression matching of plugin message and raw patterns is an uninterpreted parameter. The patterns of `parse_line` and the submission checks are modelled directly.
- The listener wiring of the IRC protocol's constructor is not modelled.
- Module import and reflection (`imp`, `inspect`, `gc`) are not modelled. The plugin a directory yields on import is a parameter (`Importer`), as is its instantiation.
- The forwarding of attribute access by the user and channel proxies is not modelled; replies are recorded on the command event.
- GameserverCommands.GetVarsAddress: states the port as `IntToString` of the integer rather than Python's `str()` of any object, which coincides for the integers the submit command stores.
- PluginManagement.ResolveFirst: iterates over plugins in the order they were loaded. Python 2 iterates a `dict` in hash order, so when two plugins share a display name, the model finds the first one loaded, where the source finds whichever the hash order yields first.
- PluginManagement.KeysAfterLoad: states that a stored plugin's directory name is added at the end of the keys. This is insertion order, not the hash order Python 2 gives `self.plugins.keys()`.
- PluginManagement.PluginManager.ReloadPlugin: moves a reloaded plugin's directory name to the end of the keys, as deleting and storing a key does in insertion order. Python 2's hash order would keep no such order.
- The `ImportError` or `SyntaxError` of a plugin module that fails to import is not a `PluginError` case. The `Importer` parameter yields a class or a `PluginException`, so such a failure is not modelled.
- luckybot/connections/async.py:60 defines `AsyncConnection(Connection)` without importing `Connection`, so importing the module raises `NameError`. The model describes the class as though the base class resolved.
- `poll` (luckybot/connections/async.py:149) calls `writable`, but the class defines `writeable`. The model's main loop asks `Writeable`, so it does not capture the `AttributeError` that call would raise.
- AsyncQueue.AsyncConnection.Readable: its contract says a socket is readable exactly while connected. This restates the assumption at luckybot/connections/async.py:117-122; nothing more is promised there.
- IniConfig.Get: a value is returned as stored. `ConfigParser.get` interpolates `%(name)s` references, and falls back to the `[DEFAULT]` section for a missing option; neither is modelled.
- IniConfig.Read: a `[DEFAULT]` section is listed among the sections like any other. `ConfigParser.sections()` leaves it out.
- Text.ParseInt: rejects whitespace between the sign and the digits, as in `int("- 5")`. Python 2 accepts it and gives -5.
- GamePackets.IntAt: a negative cursor is an error. The source reads with `struct.unpack_from` (luckybot/plugins/gameserver/serverstats/protocols/__init__.py:85 and :98), whose treatment of a negative offset is not modelled; no reader of the model moves the cursor below 0.
- GamePackets.ShortAt: a negative cursor is an error, for the same reason as `IntAt`.
- IrcFormat.ColorCode: only the methods `Format` defines are treated as attributes that are no colour. Attributes inherited from `object` and `type`, such as `__class__`, are treated as unknown names and give black.
- BotInfo.Describe: a format field with a conversion, a format spec, an attribute or an index (`{c!r}`, `{c:>3}`, `{c.x}`, `{c[0]}`) ends in `FieldNotModelled` instead of being formatted.
- BotInfo.Describe: the language lookup is taken to succeed. Its `IndexError` when no language was loaded (stated by `LanguageEntries.Translate`) is not carried into the description.
- BotInfo.Describe: a command handler whose `__doc__` is `None` is not modelled. Every docstring is a string.

- ServerSections.GetServers: luckybot/bot.py imports neither `re` nor `os` (its imports are lines 13-15), so `get_servers` raises `NameError` at bot.py:42 on every call, and importing the module already raises at bot.py:29 through the module-level `bot = LuckyBot()` of bot.py:59. The model describes the function as though both were imported.
- ServerSections.ServerConfigs: gives what `get_servers` would return if `re` were imported; as written it raises `NameError` (see `ServerSections.GetServers`).
- Controller.Receive: modelled as though `on_line` returned. As written it raises `NameError` on every line (the luckybot/irc/protocol/handler.py:50 row of "## Findings"), and `start` catches only `KeyboardInterrupt` (luckybot/controller.py:159-160), so `check_event` is never reached and the bot stops at the first line it receives.
- Controller.ReceiveParses: as for `Controller.Receive`, the line reaches `check_event` only in the loop as intended.
- Controller.PassOrder: the `on_line`/`check_event` pairs are those of the loop as intended; as written the first `on_line` raises and ends the loop (see `Controller.Receive`).
- Controller.Bot.MainPass: describes the loop as intended (see `Controller.Receive`). It also takes the loop as able to start: luckybot/controller.py:19 imports `PluginManager` from `luckybot.plugin`, whose luckybot/plugin/__init__.py does not define it, so importing the module raises `ImportError`; and controller.py:102 calls `PluginManager()` without the `bot` argument that luckybot/plugin/managment.py:97 requires.
- CodQuery.Cod4Protocol.constructor: builds the object. As written, `Cod4Protocol` does not define `start_protocol`, so the inherited `Protocol.__init__` (luckybot/plugins/gameserver/serverstats/__init__.py:77) calls the base one, which raises `NotImplementedError` (lines 79-80), and no such object can be made. `GetQuery` and `Parse` describe the methods of an object that could be.
- BotInfo.Docs: a command's names and docstring come from a `describe` parameter rather than from the handler's `command` list, so the `IndexError` of `function.command[0]` for an empty list (luckybot/plugins/botinfo/__init__.py:135) is not modelled.
- PluginManagement.RemoveFirst: callbacks compare as values, where `list.remove` compares bound methods by their instance; two plugins loaded under the same directory name are not told apart (also `PluginManagement.RemoveAllCount`).
- PluginManagement.PluginManager.CheckEvent: a handler that loads or unloads plugins, and so changes an index while `check_event` iterates over it, is not modelled; every stage runs over the index as it was when the pass began.
- Processes.Decide: the data is a parameter. What the `server.recv()` of luckybot/processes.py:47 takes off the connection is not modelled.
- IrcRender.Kick: the reason is a required parameter; the default `""` of luckybot/protocols/irc.py:236 is the call with the empty string.
- IrcRender.Quit: the message is a required parameter; the default `""` of luckybot/protocols/irc.py:248 is the call with the empty string.
## Findings

| source | as written | input that shows it | evidently intended | confidence | as-written member | corrected member |
|---|---|---|---|---|---|---|
| luckybot/controller.py:149-151 | the guard tests `hasattr(server, 'lastcheck')` but stores `last_check`, so it is always true and short-circuits past the misspelled `date_time` | a dead connection observed at ticks t and t+1 with keep_alive on: both passes reconnect | reconnect a dead server at most once every 180 seconds | medium, not executed | Controller.ReconnectEveryPassAsWritten | Controller.ReconnectThrottled |
| luckybot/plugins/botactions/__init__.py:39-48 | an invalid channel sets `errors`, but the notice tests `error`, which stays false | `!join foo` joins nothing and sends no notice | notify `invalid_channels` when some argument does not start with `#` | high, not executed | BotActions.JoinSilentOnInvalid | BotActions.JoinWarnsIffInvalid |
| luckybot/protocols/irc.py:198 | `action` calls `self.send_pm`, which the protocol does not define, so it raises | `action("#c", "waves")` raises AttributeError | return the PRIVMSG line `PRIVMSG #c :\x01ACTION waves\x01` | high, not executed | IrcRender.ActionAsWritten | IrcRender.ActionReceived |
| luckybot/irc/protocol/handler.py:50 | `Message.SERVER_MESSAGE` is read but `Message` is not imported there, so every line raises NameError (a PING after its PONG has gone out) | any parsed server reply, such as `:irc.x 001 bot :Welcome` | dispatch the reply to its `on_command_` handler | high, not executed | IrcProtocolHandler.OnLineAsWritten | IrcProtocolHandler.OnLine |
| luckybot/plugin/decorators.py:28-34 | the decorators set `func.im_class.has_commands`, but a plain function in a class body has no `im_class`, so decorating raises | decorating any method with `@command('x')` | tag the function so that the plugin manager finds it | high, not executed | PluginDecorators.CommandAsWritten | PluginManagement.DecoratedIsFound |
| luckybot/plugins/plugin_managment/__init__.py:42-46 | `except PluginException` names the class imported from `luckybot.plugin` (line 11), while `load_plugin` raises the class of luckybot/plugin/managment.py:32, so the first directory's failure is not caught and ends the command | plugin directories `[d1, d2]` with plugin `x` only in `d2`: `!load x` answers with the `error` entry for "Plugin x does not exist" and never tries `d2` | go on to the next directory after a failure, and load `x` from `d2` | high, not executed | PluginManagementCommands.LoadStopsAtFirstFailure | PluginManagementCommands.FirstLoadable |
