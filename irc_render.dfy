/**
 * The outgoing command lines of `IRCProtocol` in luckybot/protocols/irc.py
 * (`pm`, `notice`, `action`, `join`, `part`, `set_nick`, `kick`, `quit`);
 * luckybot/irc/protocol/__init__.py renders the same lines under the names
 * `send_pm`, `send_notice`, `send_action`, `join`, `part`, `set_nick` and
 * `kick`. None of them carries the trailing newline: the connection adds it.
 *
 * Each renderer is paired with the parser: the line it builds, received
 * from a user, splits back into the command and parameters it was built from.
 * And each line holds a newline only when one of its arguments does, so
 * that an argument without one cannot smuggle a second command onto the
 * connection.
 */
module IrcRender {
  import opened Wrappers
  import opened Text
  import opened IrcMessage
  import opened IrcLine

  /** `pm(dest, message)` / `send_pm` */
  function Pm(dest: string, message: string): (r: string)
    ensures StartsWith(r, "PRIVMSG ") && EndsWith(r, message)
    ensures '\n' in r <==> '\n' in dest || '\n' in message
  {
    "PRIVMSG " + dest + " :" + message
  }

  /** `notice(dest, message)` / `send_notice` */
  function Notice(dest: string, message: string): (r: string)
    ensures StartsWith(r, "NOTICE ") && EndsWith(r, message)
    ensures '\n' in r <==> '\n' in dest || '\n' in message
  {
    "NOTICE " + dest + " :" + message
  }

  /** The channel name `join` and `part` use: a `#` is put in front only
      when the name does not already start with one. */
  function ChannelName(channel: string): (r: string)
    ensures |r| > 0 && r[0] == '#'
    ensures |channel| <= |r| <= |channel| + 1 && EndsWith(r, channel)
    ensures StartsWith(channel, "#") ==> r == channel
    ensures '\n' in r <==> '\n' in channel
  {
    if StartsWith(channel, "#") then channel else "#" + channel
  }

  /** Normalising a channel name twice is normalising it once. */
  lemma ChannelNameIdempotent(channel: string)
    ensures ChannelName(ChannelName(channel)) == ChannelName(channel)
  {
    assert StartsWith(ChannelName(channel), "#");
  }

  lemma ChannelNameNoSpace(channel: string)
    requires NoSpace(channel)
    ensures NoSpace(ChannelName(channel))
  {
    var c := ChannelName(channel);
    forall x | 0 <= x < |c| ensures !IsSpace(c[x]) {
      if c != channel && x > 0 {
        assert c[x] == channel[x - 1];
      }
    }
  }

  /** A line made of a command head and a body starts with the head, ends
      like the body, and holds a newline only where one of the two does. */
  lemma HeadBody(head: string, body: string, tail: string)
    requires EndsWith(body, tail)
    ensures StartsWith(head + body, head) && EndsWith(head + body, tail)
    ensures '\n' in head + body <==> '\n' in head || '\n' in body
  {
    assert (head + body)[..|head|] == head;
    assert (head + body)[|head + body| - |tail|..] == body[|body| - |tail|..];
  }

  /** `join(channel)` */
  function Join(channel: string): (r: string)
    ensures StartsWith(r, "JOIN #") && EndsWith(r, channel)
    ensures '\n' in r <==> '\n' in channel
  {
    var name := ChannelName(channel);
    HeadBody("JOIN ", name, channel);
    assert ("JOIN " + name)[..6] == "JOIN #";
    "JOIN " + name
  }

  /** `part(channel)` */
  function Part(channel: string): (r: string)
    ensures StartsWith(r, "PART #") && EndsWith(r, channel)
    ensures '\n' in r <==> '\n' in channel
  {
    var name := ChannelName(channel);
    HeadBody("PART ", name, channel);
    assert ("PART " + name)[..6] == "PART #";
    "PART " + name
  }

  /** `join("a")`, `join("#a")` and `join(join-name)` send the same line. */
  lemma JoinPartNormalised(channel: string)
    ensures Join(channel) == Join(ChannelName(channel))
    ensures Part(channel) == Part(ChannelName(channel))
    ensures Join(channel) == Join("#" + channel) || StartsWith(channel, "#")
  {
    ChannelNameIdempotent(channel);
    var h := "#" + channel;
    assert StartsWith(h, "#");
  }

  /** `set_nick(nickname)` */
  function SetNick(nickname: string): (r: string)
    ensures StartsWith(r, "NICK ") && EndsWith(r, nickname)
    ensures '\n' in r <==> '\n' in nickname
  {
    "NICK " + nickname
  }

  /** `kick(channel, nickname, reason)` */
  function Kick(channel: string, nickname: string, reason: string): (r: string)
    ensures StartsWith(r, "KICK ") && EndsWith(r, reason)
    ensures '\n' in r <==> '\n' in channel || '\n' in nickname || '\n' in reason
  {
    "KICK " + channel + " " + nickname + " :" + reason
  }

  /** `quit(message)` */
  function Quit(message: string): (r: string)
    ensures StartsWith(r, "QUIT ") && EndsWith(r, message)
    ensures '\n' in r <==> '\n' in message
  {
    "QUIT " + message
  }

  /** The CTCP delimiter that brackets an action. */
  const CtcpDelim: char := '\U{01}'

  /** `send_action(dest, message)`: a PRIVMSG whose text is the CTCP
      ACTION request. This is also what `IRCProtocol.action` is meant to
      return (see `ActionAsWritten`). */
  function Action(dest: string, message: string): (r: string)
    ensures StartsWith(r, "PRIVMSG ") && r[|r| - 1] == CtcpDelim
    ensures '\n' in r <==> '\n' in dest || '\n' in message
  {
    Pm(dest, [CtcpDelim] + "ACTION " + message + [CtcpDelim])
  }

  datatype RenderError = NoSuchMethod(name: string)

  /** `IRCProtocol.action` as written: it calls `self.send_pm`, which
      `IRCProtocol` does not define, so every call raises AttributeError. */
  function ActionAsWritten(dest: string, message: string): (r: Result<string, RenderError>)
    ensures r.Err? && r.error.name == "send_pm"
  {
    Err(NoSuchMethod("send_pm"))
  }

  /** The prefix of a line sent by a user. */
  function UserSender(nick: string, realname: string, hostname: string): string {
    nick + "!" + realname + "@" + hostname
  }

  /** What a user mask needs to survive the round trip. */
  predicate PlainMask(nick: string, realname: string, hostname: string) {
    NoSpace(nick) && NoSpace(realname) && NoSpace(hostname) &&
    '!' !in nick && '@' !in realname
  }

  /** A rendered command line, received from the server with a prefix and a
      newline, splits back into that prefix, the command and its parameters. */
  lemma ReceivedCommandLine(sender: string, command: string, params: string)
    requires NoSpace(sender) && IsCommandWord(command)
    requires '\n' !in params && (params == [] || params[|params| - 1] != '\r')
    ensures MatchLine(":" + sender + " " + (command + " " + params) + "\n") ==
      Some(LineParts(sender, command, params))
  {
    assert ":" + sender + " " + (command + " " + params) + "\n" ==
      ":" + sender + " " + command + " " + params + "\n";
    assert ' ' !in sender && '\n' !in sender by {
      assert IsSpace(' ') && IsSpace('\n');
    }
    MatchLineOf(sender, command, params, "\n");
  }

  lemma JoinReceived(sender: string, channel: string)
    requires NoSpace(sender) && NoSpace(channel)
    ensures MatchLine(":" + sender + " " + Join(channel) + "\n") ==
      Some(LineParts(sender, "JOIN", ChannelName(channel)))
  {
    var c := ChannelName(channel);
    ChannelNameNoSpace(channel);
    assert IsSpace('\n') && IsSpace('\r');
    assert Join(channel) == "JOIN" + " " + c;
    ReceivedCommandLine(sender, "JOIN", c);
  }

  lemma PartReceived(sender: string, channel: string)
    requires NoSpace(sender) && NoSpace(channel)
    ensures MatchLine(":" + sender + " " + Part(channel) + "\n") ==
      Some(LineParts(sender, "PART", ChannelName(channel)))
  {
    var c := ChannelName(channel);
    ChannelNameNoSpace(channel);
    assert IsSpace('\n') && IsSpace('\r');
    assert Part(channel) == "PART" + " " + c;
    ReceivedCommandLine(sender, "PART", c);
  }

  lemma SetNickReceived(sender: string, nickname: string)
    requires NoSpace(sender) && NoSpace(nickname)
    ensures MatchLine(":" + sender + " " + SetNick(nickname) + "\n") ==
      Some(LineParts(sender, "NICK", nickname))
  {
    assert IsSpace('\n') && IsSpace('\r');
    assert SetNick(nickname) == "NICK" + " " + nickname;
    ReceivedCommandLine(sender, "NICK", nickname);
  }

  lemma QuitReceived(sender: string, message: string)
    requires NoSpace(sender) && '\n' !in message
    requires message == [] || message[|message| - 1] != '\r'
    ensures MatchLine(":" + sender + " " + Quit(message) + "\n") ==
      Some(LineParts(sender, "QUIT", message))
  {
    assert Quit(message) == "QUIT" + " " + message;
    ReceivedCommandLine(sender, "QUIT", message);
  }

  /**
   * A user line addressed to a channel `target`, possibly followed by more
   * space-separated words (`middle`), with trailing text after ` :`, parses
   * to a user message with the keyword arguments built from exactly those
   * pieces: the parameters come through unchanged, the text is the message
   * and the target is the channel.
   */
  lemma ReceivedUserLine(nick: string, realname: string, hostname: string, data: string,
                         command: string, target: string, middle: string, text: string, prefix: string)
    requires PlainMask(nick, realname, hostname) && IsCommandWord(command)
    requires |target| >= 2 && target[0] == '#' && NoSpace(target) && ':' !in target
    requires (middle == [] || middle[0] == ' ') && '\n' !in middle && ':' !in middle
    requires '\n' !in text && (text == [] || !IsSpace(text[|text| - 1]))
    requires data == ":" + UserSender(nick, realname, hostname) + " " + command + " " +
      (target + middle + " :" + text) + "\n"
    ensures ParseLine(data, Some(prefix)) ==
      Parsed(NewMessage(UserMessage, data,
        UserArgs(LineParts(UserSender(nick, realname, hostname), command, target + middle + " :" + text),
          UserMask(nick, realname, hostname), text, prefix)))
    ensures ChannelOf(target + middle + " :" + text, nick) == target
  {
    var sender := UserSender(nick, realname, hostname);
    var params := target + middle + " :" + text;
    UserSenderShape(nick, realname, hostname);
    SplitUserMaskOf(nick, realname, hostname);
    TrailingParams(params, target, middle, text, nick);
    ParseLineUserOf(data, sender, command, params, UserMask(nick, realname, hostname), text, prefix);
  }

  /** The sender built from a plain mask has no whitespace and holds `@`. */
  lemma UserSenderShape(nick: string, realname: string, hostname: string)
    requires PlainMask(nick, realname, hostname)
    ensures var sender := UserSender(nick, realname, hostname);
      NoSpace(sender) && ' ' !in sender && '\n' !in sender && '@' in sender
  {
    var sender := UserSender(nick, realname, hostname);
    forall x | 0 <= x < |sender| ensures !IsSpace(sender[x]) {
      if x < |nick| {
        assert sender[x] == nick[x];
      } else if x == |nick| || x == |nick| + 1 + |realname| {
      } else if x < |nick| + 1 + |realname| {
        assert sender[x] == realname[x - |nick| - 1];
      } else {
        assert sender[x] == hostname[x - |nick| - 2 - |realname|];
      }
    }
    assert IsSpace(' ') && IsSpace('\n');
    assert sender[|nick| + 1 + |realname|] == '@';
  }

  /** Trailing parameters `target middle :text` are already stripped, hold
      no newline, their text follows the first colon, and their channel is
      the target. */
  lemma TrailingParams(params: string, target: string, middle: string, text: string, nick: string)
    requires |target| >= 2 && target[0] == '#' && NoSpace(target) && ':' !in target
    requires (middle == [] || middle[0] == ' ') && '\n' !in middle && ':' !in middle
    requires '\n' !in text && (text == [] || !IsSpace(text[|text| - 1]))
    requires params == target + middle + " :" + text
    ensures '\n' !in params && params != [] && params[|params| - 1] != '\r'
    ensures Strip(params) == params
    ensures AfterFirst(params, ':') == text
    ensures ChannelOf(params, nick) == target
  {
    assert IsSpace('\n') && IsSpace('\r');
    assert params[|params| - 1] != '\r' && !IsSpace(params[|params| - 1]) by {
      if text == [] {
        assert params[|params| - 1] == ':';
      } else {
        assert params[|params| - 1] == text[|text| - 1];
      }
    }
    assert '\n' !in params by {
      assert params == target + (middle + " :" + text);
      assert '\n' !in middle + " :" + text;
    }
    assert Strip(params) == params by {
      assert params[0] == '#';
      StripTrimmed(params);
    }
    assert AfterFirst(params, ':') == text by {
      assert params == (target + middle + " ") + [':'] + text;
      assert ':' !in target + middle + " ";
      AfterFirstSplit(target + middle + " ", ':', text);
    }
    assert ChannelOf(params, nick) == target by {
      assert params == target + (middle + " :" + text);
      ChannelOfTarget(target, middle + " :" + text, nick);
    }
  }

  /** The user branch of the parser, for a line whose sender is a user
      mask and whose parameters are already stripped. */
  lemma ParseLineUserOf(data: string, sender: string, command: string, params: string,
                        mask: UserMask, text: string, prefix: string)
    requires NoSpace(sender) && '@' in sender && SplitUserMask(sender) == Some(mask)
    requires IsCommandWord(command)
    requires '\n' !in params && (params == [] || params[|params| - 1] != '\r')
    requires Strip(params) == params && AfterFirst(params, ':') == text
    requires data == ":" + sender + " " + command + " " + params + "\n"
    ensures ParseLine(data, Some(prefix)) ==
      Parsed(NewMessage(UserMessage, data, UserArgs(LineParts(sender, command, params), mask, text, prefix)))
  {
    var groups := LineParts(sender, command, params);
    assert ' ' !in sender && '\n' !in sender by {
      assert IsSpace(' ') && IsSpace('\n');
    }
    MatchLineOf(sender, command, params, "\n");
    ParseLineMatched(data, groups, Some(prefix));
    ParsePrefixedUser(data, groups, mask, prefix);
  }

  /** A prefixed line that the line pattern matches is parsed from its groups. */
  lemma ParseLineMatched(data: string, groups: LineParts, prefix: Option<string>)
    requires data != [] && data[0] == ':' && MatchLine(data) == Some(groups)
    ensures ParseLine(data, prefix) == ParsePrefixed(data, groups, prefix)
  {
  }

  /** Stripped groups whose sender is a user mask make a user message. */
  lemma ParsePrefixedUser(data: string, groups: LineParts, mask: UserMask, prefix: string)
    requires '@' in groups.sender && SplitUserMask(groups.sender) == Some(mask)
    requires Strip(groups.params) == groups.params
    ensures ParsePrefixed(data, groups, Some(prefix)) ==
      Parsed(NewMessage(UserMessage, data, UserArgs(groups, mask, AfterFirst(groups.params, ':'), prefix)))
  {
    assert groups.(params := Strip(groups.params)) == groups;
  }

  /** Every field of the message `ReceivedUserLine` describes. */
  lemma ReceivedUserFields(nick: string, realname: string, hostname: string, command: string,
                           params: string, text: string, prefix: string, data: string)
    ensures var m := NewMessage(UserMessage, data,
          UserArgs(LineParts(UserSender(nick, realname, hostname), command, params),
                   UserMask(nick, realname, hostname), text, prefix));
      m.kind == UserMessage && Str(m) == data &&
      TextAttr(m, "sender") == UserSender(nick, realname, hostname) &&
      TextAttr(m, "nick") == nick && TextAttr(m, "realname") == realname &&
      TextAttr(m, "hostname") == hostname &&
      TextAttr(m, "command") == command && TextAttr(m, "params") == params &&
      TextAttr(m, "message") == text && TextAttr(m, "channel") == ChannelOf(params, nick) &&
      (HasAttr(m, "bot_command") <==> command == "PRIVMSG" && StartsWith(text, prefix)) &&
      (HasAttr(m, "bot_command") ==>
        ExtractBotCommand(text, prefix) ==
          Some(BotCommand(TextAttr(m, "bot_command"), TextAttr(m, "bot_args"))))
  {
    var parts := LineParts(UserSender(nick, realname, hostname), command, params);
    var mask := UserMask(nick, realname, hostname);
    var args := UserArgs(parts, mask, text, prefix);
    UserArgsFields(parts, mask, text, prefix);
    NewMessageAttr(UserMessage, data, args, "sender");
    NewMessageAttr(UserMessage, data, args, "nick");
    NewMessageAttr(UserMessage, data, args, "realname");
    NewMessageAttr(UserMessage, data, args, "hostname");
    NewMessageAttr(UserMessage, data, args, "command");
    NewMessageAttr(UserMessage, data, args, "params");
    NewMessageAttr(UserMessage, data, args, "message");
    NewMessageAttr(UserMessage, data, args, "channel");
    NewMessageAttr(UserMessage, data, args, "bot_command");
    NewMessageAttr(UserMessage, data, args, "bot_args");
  }

  /** The line a user `nick!realname@hostname` sends, as the bot receives it. */
  function FromUser(nick: string, realname: string, hostname: string, line: string): string {
    ":" + UserSender(nick, realname, hostname) + " " + line + "\n"
  }

  /** A channel PRIVMSG rendered by `pm` and received from a user reads back
      as a user message to that channel with that text; it carries a bot
      command exactly when the text starts with the command prefix, and
      then the command is the one the text names. */
  lemma PmReceived(nick: string, realname: string, hostname: string,
                   channel: string, text: string, prefix: string)
    requires PlainMask(nick, realname, hostname)
    requires |channel| >= 2 && channel[0] == '#' && NoSpace(channel) && ':' !in channel
    requires '\n' !in text && (text == [] || !IsSpace(text[|text| - 1]))
    ensures ParseLine(FromUser(nick, realname, hostname, Pm(channel, text)), Some(prefix)).Parsed?
    ensures var m := ParseLine(FromUser(nick, realname, hostname, Pm(channel, text)), Some(prefix)).msg;
      m.kind == UserMessage && TextAttr(m, "nick") == nick && TextAttr(m, "command") == "PRIVMSG"
    ensures var m := ParseLine(FromUser(nick, realname, hostname, Pm(channel, text)), Some(prefix)).msg;
      TextAttr(m, "channel") == channel && TextAttr(m, "message") == text
    ensures var m := ParseLine(FromUser(nick, realname, hostname, Pm(channel, text)), Some(prefix)).msg;
      HasAttr(m, "bot_command") <==> StartsWith(text, prefix)
    ensures var m := ParseLine(FromUser(nick, realname, hostname, Pm(channel, text)), Some(prefix)).msg;
      HasAttr(m, "bot_command") ==>
        ExtractBotCommand(text, prefix) == Some(BotCommand(TextAttr(m, "bot_command"), TextAttr(m, "bot_args")))
  {
    var data := FromUser(nick, realname, hostname, Pm(channel, text));
    var params := channel + "" + " :" + text;
    assert data == ":" + UserSender(nick, realname, hostname) + " " + "PRIVMSG" + " " + params + "\n";
    assert IsCommandWord("PRIVMSG");
    ReceivedUserLine(nick, realname, hostname, data, "PRIVMSG", channel, "", text, prefix);
    ReceivedUserFields(nick, realname, hostname, "PRIVMSG", params, text, prefix, data);
  }

  /** A NOTICE reads back the same way, and never as a bot command. */
  lemma NoticeReceived(nick: string, realname: string, hostname: string,
                       channel: string, text: string, prefix: string)
    requires PlainMask(nick, realname, hostname)
    requires |channel| >= 2 && channel[0] == '#' && NoSpace(channel) && ':' !in channel
    requires '\n' !in text && (text == [] || !IsSpace(text[|text| - 1]))
    ensures ParseLine(FromUser(nick, realname, hostname, Notice(channel, text)), Some(prefix)).Parsed?
    ensures var m := ParseLine(FromUser(nick, realname, hostname, Notice(channel, text)), Some(prefix)).msg;
      m.kind == UserMessage && TextAttr(m, "nick") == nick && TextAttr(m, "command") == "NOTICE"
    ensures var m := ParseLine(FromUser(nick, realname, hostname, Notice(channel, text)), Some(prefix)).msg;
      TextAttr(m, "channel") == channel && TextAttr(m, "message") == text
    ensures var m := ParseLine(FromUser(nick, realname, hostname, Notice(channel, text)), Some(prefix)).msg;
      !HasAttr(m, "bot_command")
  {
    var data := FromUser(nick, realname, hostname, Notice(channel, text));
    var params := channel + "" + " :" + text;
    assert data == ":" + UserSender(nick, realname, hostname) + " " + "NOTICE" + " " + params + "\n";
    assert IsCommandWord("NOTICE");
    ReceivedUserLine(nick, realname, hostname, data, "NOTICE", channel, "", text, prefix);
    ReceivedUserFields(nick, realname, hostname, "NOTICE", params, text, prefix, data);
  }

  /** An action reads back as a PRIVMSG whose text is the CTCP ACTION
      request, between two CTCP delimiters. */
  lemma ActionReceived(nick: string, realname: string, hostname: string,
                       channel: string, message: string, prefix: string)
    requires PlainMask(nick, realname, hostname)
    requires |channel| >= 2 && channel[0] == '#' && NoSpace(channel) && ':' !in channel
    requires '\n' !in message
    ensures ParseLine(FromUser(nick, realname, hostname, Action(channel, message)), Some(prefix)).Parsed?
    ensures var m := ParseLine(FromUser(nick, realname, hostname, Action(channel, message)), Some(prefix)).msg;
      TextAttr(m, "command") == "PRIVMSG" && TextAttr(m, "channel") == channel
    ensures TextAttr(ParseLine(FromUser(nick, realname, hostname, Action(channel, message)), Some(prefix)).msg, "message") ==
      [CtcpDelim] + "ACTION " + message + [CtcpDelim]
  {
    var text := [CtcpDelim] + "ACTION " + message + [CtcpDelim];
    assert '\n' !in text;
    assert Action(channel, message) == Pm(channel, text);
    PmReceived(nick, realname, hostname, channel, text, prefix);
  }

  /** The received KICK line regrouped as the parser's head and parameters. */
  lemma KickLine(sender: string, channel: string, victim: string, reason: string)
    ensures ":" + sender + " " + Kick(channel, victim, reason) + "\n" ==
      ":" + sender + " " + "KICK" + " " + (channel + " " + victim + " :" + reason) + "\n"
  {
    assert Kick(channel, victim, reason) == "KICK" + " " + (channel + " " + victim + " :" + reason);
  }

  /** A kick reads back with the channel, the kicked nick in the parameters,
      and the reason as the message. */
  lemma KickReceived(nick: string, realname: string, hostname: string,
                     channel: string, victim: string, reason: string, prefix: string)
    requires PlainMask(nick, realname, hostname)
    requires |channel| >= 2 && channel[0] == '#' && NoSpace(channel) && ':' !in channel
    requires NoSpace(victim) && ':' !in victim
    requires '\n' !in reason && (reason == [] || !IsSpace(reason[|reason| - 1]))
    ensures ParseLine(FromUser(nick, realname, hostname, Kick(channel, victim, reason)), Some(prefix)).Parsed?
    ensures var m := ParseLine(FromUser(nick, realname, hostname, Kick(channel, victim, reason)), Some(prefix)).msg;
      m.kind == UserMessage && TextAttr(m, "command") == "KICK" && TextAttr(m, "channel") == channel
    ensures var m := ParseLine(FromUser(nick, realname, hostname, Kick(channel, victim, reason)), Some(prefix)).msg;
      TextAttr(m, "message") == reason && TextAttr(m, "params") == channel + " " + victim + " :" + reason
  {
    var middle := " " + victim;
    var data := FromUser(nick, realname, hostname, Kick(channel, victim, reason));
    var params := channel + middle + " :" + reason;
    assert params == channel + " " + victim + " :" + reason;
    var m := NewMessage(UserMessage, data,
      UserArgs(LineParts(UserSender(nick, realname, hostname), "KICK", params),
               UserMask(nick, realname, hostname), reason, prefix));
    assert ParseLine(data, Some(prefix)) == Parsed(m) && ChannelOf(params, nick) == channel by {
      assert '\n' !in middle && ':' !in middle by {
        assert IsSpace('\n');
      }
      KickLine(UserSender(nick, realname, hostname), channel, victim, reason);
      assert IsCommandWord("KICK");
      ReceivedUserLine(nick, realname, hostname, data, "KICK", channel, middle, reason, prefix);
    }
    assert m.kind == UserMessage && TextAttr(m, "command") == "KICK" && TextAttr(m, "channel") == channel &&
           TextAttr(m, "message") == reason && TextAttr(m, "params") == params by {
      ReceivedUserFields(nick, realname, hostname, "KICK", params, reason, prefix, data);
    }
  }
}
