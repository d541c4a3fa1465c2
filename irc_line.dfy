/**
 * Parsing one line received from an IRC server (section 2.3.1 of RFC 1459
 * gives the message grammar) the way `parse_line` does it in both
 * luckybot/protocols/irc.py and luckybot/irc/protocol/__init__.py: a leading
 * `:` marks a prefixed message, split by the pattern
 * `\:(.*?) ([a-z0-9]+) (.*?)\r?\n` (case-insensitive); a prefix holding `@`
 * is a user mask `nick!realname@hostname`.
 */
module IrcLine {
  import opened Wrappers
  import opened Text
  import opened IrcMessage

  /** `[a-z0-9]` under the case-insensitive flag. */
  predicate IsAlnum(c: char) {
    ('a' <= c <= 'z') || ('A' <= c <= 'Z') || IsDigit(c)
  }

  /** Length of the leading alphanumeric run. */
  function AlnumRun(s: string): (n: nat)
    ensures n <= |s|
    ensures forall j :: 0 <= j < n ==> IsAlnum(s[j])
    ensures n < |s| ==> !IsAlnum(s[n])
  {
    if s == [] || !IsAlnum(s[0]) then 0 else 1 + AlnumRun(s[1..])
  }

  /** `data[i]` is the space that ends the sender group: a non-empty
      alphanumeric run follows it, and then another space. */
  predicate CommandAt(data: string, i: int) {
    0 <= i < |data| && data[i] == ' ' &&
    var n := AlnumRun(data[i + 1..]);
    n > 0 && i + 1 + n < |data| && data[i + 1 + n] == ' '
  }

  /** The lazy sender group ends at the first such space in `[from, end)`. */
  function FirstCommandAt(data: string, from: nat, end: nat): (r: int)
    requires end <= |data|
    ensures r == -1 || (from <= r < end && CommandAt(data, r))
    ensures forall i :: from <= i < (if r == -1 then end else r) ==> !CommandAt(data, i)
    decreases end - from
  {
    if from >= end then -1
    else if CommandAt(data, from) then from
    else FirstCommandAt(data, from + 1, end)
  }

  /** The three groups of the line pattern, parameters not yet stripped. */
  datatype LineParts = LineParts(sender: string, command: string, params: string)

  /** Every alphanumeric character, and at least one. */
  predicate IsCommandWord(w: string) {
    |w| > 0 && forall j :: 0 <= j < |w| ==> IsAlnum(w[j])
  }

  /**
   * `re.match` of the line pattern on a line starting with `:`. `.` stops at
   * a newline, so everything happens before the first `\n`; the sender is
   * the shortest text after which ` word ` follows; the parameter group ends
   * at the first newline, without a `\r` just before it.
   */
  function MatchLine(data: string): (r: Option<LineParts>)
    requires |data| > 0 && data[0] == ':'
    ensures r.Some? ==> ('\n' !in r.value.sender && IsCommandWord(r.value.command))
    ensures r.Some? ==> StartsWith(data, ":" + r.value.sender + " " + r.value.command + " ")
  {
    var p := Find(data, '\n');
    if p == -1 then None
    else
      var i := FirstCommandAt(data, 1, p);
      if i == -1 then None
      else
        PartsAtShape(data, i, p);
        Some(PartsAt(data, i, p))
  }

  /** The parameter group: from `k` up to the newline at `p`, leaving out a
      `\r` right before the newline. */
  function ParamsBody(data: string, k: int, p: int): string
    requires 0 <= k <= p <= |data|
  {
    if p > k && data[p - 1] == '\r' then data[k..p - 1] else data[k..p]
  }

  lemma ParamsBodyOf(data: string, head: string, params: string, eol: string)
    requires params == [] || params[|params| - 1] != '\r'
    requires eol == "\n" || eol == "\r\n"
    requires data == head + params + eol
    ensures ParamsBody(data, |head|, |data| - 1) == params
  {
    var k := |head|;
    var p := |data| - 1;
    if eol == "\r\n" {
      assert data[p - 1] == '\r';
      assert data[k..p - 1] == params;
    } else {
      assert params != [] ==> data[p - 1] == params[|params| - 1];
      assert data[k..p] == params;
    }
  }

  /** The three groups once the sender ends at `i` and the first newline is at `p`. */
  function PartsAt(data: string, i: int, p: int): LineParts
    requires 1 <= i < p < |data| && data[0] == ':' && CommandAt(data, i) && data[p] == '\n'
  {
    var n := AlnumRun(data[i + 1..]);
    CommandEndsBeforeNewline(data, i, p);
    LineParts(data[1..i], data[i + 1..i + 1 + n], ParamsBody(data, i + 2 + n, p))
  }

  lemma PartsAtShape(data: string, i: int, p: int)
    requires 1 <= i < p < |data| && data[0] == ':' && CommandAt(data, i)
    requires data[p] == '\n' && '\n' !in data[..p]
    ensures var r := PartsAt(data, i, p);
      '\n' !in r.sender && IsCommandWord(r.command) &&
      StartsWith(data, ":" + r.sender + " " + r.command + " ")
  {
    var n := AlnumRun(data[i + 1..]);
    CommandEndsBeforeNewline(data, i, p);
    var sender := data[1..i];
    var command := data[i + 1..i + 1 + n];
    assert '\n' !in sender by {
      forall x | 0 <= x < |sender| ensures sender[x] != '\n' {
        assert sender[x] == data[..p][x + 1];
      }
    }
    assert IsCommandWord(command) by {
      forall x | 0 <= x < n ensures IsAlnum(command[x]) {
        assert command[x] == data[i + 1..][x];
      }
    }
    HeadLayout(data, i, n);
  }

  /** The command word and the space after it come before the newline. */
  lemma CommandEndsBeforeNewline(data: string, i: int, p: int)
    requires CommandAt(data, i) && i < p < |data| && data[p] == '\n'
    ensures i + 2 + AlnumRun(data[i + 1..]) <= p
  {
  }

  lemma HeadLayout(data: string, i: int, n: nat)
    requires 1 <= i && i + 2 + n <= |data| && data[0] == ':' && data[i] == ' ' && data[i + 1 + n] == ' '
    ensures data[..i + 2 + n] == ":" + data[1..i] + " " + data[i + 1..i + 1 + n] + " "
  {
    var h := ":" + data[1..i] + " " + data[i + 1..i + 1 + n] + " ";
    assert |h| == i + 2 + n;
    forall x | 0 <= x < i + 2 + n ensures data[x] == h[x] {
      if x == 0 {
      } else if x < i {
        assert h[x] == data[1..i][x - 1];
      } else if x == i {
      } else if x < i + 1 + n {
        assert h[x] == data[i + 1..i + 1 + n][x - i - 1];
      }
    }
  }

  /** No match exactly when there is no newline, or no ` word ` before it. */
  lemma MatchLineFails(data: string)
    requires |data| > 0 && data[0] == ':'
    ensures MatchLine(data).None? <==>
      ('\n' !in data || forall i :: 1 <= i < Find(data, '\n') ==> !CommandAt(data, i))
  {
  }

  /** A line built from a sender without spaces, a command word and
      parameters without a newline splits back into those three parts. */
  lemma MatchLineOf(sender: string, command: string, params: string, eol: string)
    requires ' ' !in sender && '\n' !in sender
    requires IsCommandWord(command)
    requires '\n' !in params && (params == [] || params[|params| - 1] != '\r')
    requires eol == "\n" || eol == "\r\n"
    ensures MatchLine(":" + sender + " " + command + " " + params + eol) ==
      Some(LineParts(sender, command, params))
  {
    var head := ":" + sender + " " + command + " ";
    var data := head + params + eol;
    var i := |sender| + 1;
    var p := |data| - 1;
    NewlineAtEnd(head + params, eol);
    assert Find(data, '\n') == p;
    HeadCommandAt(sender, command, params, eol);
    FirstCommandAtIs(data, 1, p, i);
    PartsAtOf(data, sender, command, params, eol);
  }

  /** The sender group ends at the first space when a command follows it. */
  lemma {:induction false} FirstCommandAtIs(data: string, from: nat, end: nat, i: nat)
    requires from <= i < end <= |data| && CommandAt(data, i)
    requires forall j :: from <= j < i ==> data[j] != ' '
    ensures FirstCommandAt(data, from, end) == i
    decreases i - from
  {
    if from < i {
      FirstCommandAtIs(data, from + 1, end, i);
    }
  }

  lemma NewlineAtEnd(s: string, eol: string)
    requires '\n' !in s && (eol == "\n" || eol == "\r\n")
    ensures Find(s + eol, '\n') == |s + eol| - 1
  {
    var d := s + eol;
    assert d[..|d| - 1] == s + eol[..|eol| - 1];
  }

  /** In a line `:sender command params` whose sender has no space, the
      sender group ends right after the sender. */
  lemma HeadCommandAt(sender: string, command: string, params: string, eol: string)
    requires ' ' !in sender && IsCommandWord(command)
    ensures var data := ":" + sender + " " + command + " " + params + eol;
      CommandAt(data, |sender| + 1) &&
      forall j :: 1 <= j < |sender| + 1 ==> data[j] != ' '
  {
    var data := ":" + sender + " " + command + " " + params + eol;
    var i := |sender| + 1;
    assert data[i + 1..] == command + (" " + params + eol);
    AlnumRunWord(command, " " + params + eol);
    forall j | 1 <= j < i ensures data[j] != ' ' {
      assert data[j] == sender[j - 1];
    }
  }

  lemma PartsAtOf(data: string, sender: string, command: string, params: string, eol: string)
    requires ' ' !in sender && '\n' !in sender
    requires IsCommandWord(command)
    requires '\n' !in params && (params == [] || params[|params| - 1] != '\r')
    requires eol == "\n" || eol == "\r\n"
    requires data == ":" + sender + " " + command + " " + params + eol
    requires CommandAt(data, |sender| + 1)
    ensures PartsAt(data, |sender| + 1, |data| - 1) == LineParts(sender, command, params)
  {
    HeadSlices(data, sender, command, params, eol);
    ParamsBodyOf(data, ":" + sender + " " + command + " ", params, eol);
    PartsAtIs(data, |sender| + 1, |data| - 1, sender, command, params);
  }

  lemma PartsAtIs(data: string, i: int, p: int, sender: string, command: string, params: string)
    requires 1 <= i < p < |data| && data[0] == ':' && CommandAt(data, i) && data[p] == '\n'
    requires data[1..i] == sender && AlnumRun(data[i + 1..]) == |command|
    requires data[i + 1..i + 1 + |command|] == command && ParamsBody(data, i + 2 + |command|, p) == params
    ensures PartsAt(data, i, p) == LineParts(sender, command, params)
  {
  }

  /** Where the sender and the command lie in a line. */
  lemma HeadSlices(data: string, sender: string, command: string, params: string, eol: string)
    requires IsCommandWord(command)
    requires data == ":" + sender + " " + command + " " + params + eol
    ensures data[1..|sender| + 1] == sender
    ensures data[|sender| + 2..|sender| + 2 + |command|] == command
    ensures AlnumRun(data[|sender| + 2..]) == |command|
  {
    var i := |sender| + 1;
    var tail := " " + (params + eol);
    assert data == ":" + sender + (" " + (command + tail));
    assert data[1..i] == sender;
    assert data[i + 1..] == command + tail;
    assert data[i + 1..][..|command|] == command;
    AlnumRunWord(command, tail);
  }

  lemma AlnumRunWord(w: string, rest: string)
    requires forall j :: 0 <= j < |w| ==> IsAlnum(w[j])
    requires rest != [] && rest[0] == ' '
    ensures AlnumRun(w + rest) == |w|
  {
    if w != [] {
      assert (w + rest)[1..] == w[1..] + rest;
      AlnumRunWord(w[1..], rest);
    } else {
      assert w + rest == rest;
    }
  }

  /** The groups of `(.*?)!(.*?)@(.*?)$` on a sender. */
  datatype UserMask = UserMask(nick: string, realname: string, hostname: string)

  /** The user-mask pattern: the nick ends at the first `!`, the real name at
      the first `@` after it; no match when either is missing. */
  function SplitUserMask(sender: string): (r: Option<UserMask>)
    ensures r.Some? ==> sender == r.value.nick + "!" + r.value.realname + "@" + r.value.hostname
    ensures r.Some? ==> '!' !in r.value.nick && '@' !in r.value.realname
  {
    var i := Find(sender, '!');
    if i == -1 then None
    else
      var j := FindFrom(sender, '@', i + 1);
      if j == -1 then None
      else
        var m := UserMask(sender[..i], sender[i + 1..j], sender[j + 1..]);
        assert sender == m.nick + "!" + m.realname + "@" + m.hostname;
        assert '@' !in m.realname by {
          forall x | 0 <= x < |m.realname| ensures m.realname[x] != '@' {
            assert m.realname[x] == sender[i + 1 + x];
          }
        }
        Some(m)
  }

  /** The mask comes apart into the pieces it was built from. */
  lemma SplitUserMaskOf(nick: string, realname: string, hostname: string)
    requires '!' !in nick && '@' !in realname
    ensures SplitUserMask(nick + "!" + realname + "@" + hostname) ==
      Some(UserMask(nick, realname, hostname))
  {
    var s := nick + "!" + realname + "@" + hostname;
    var i := |nick|;
    var j := i + 1 + |realname|;
    MaskSlices(nick, realname, hostname);
    FindAt(s, '!', i);
    forall x | i + 1 <= x < j ensures s[x] != '@' {
      assert s[x] == realname[x - i - 1];
    }
    FindFromAt(s, '@', i + 1, j);
  }

  /** The pieces of a mask sit where they were put. */
  lemma MaskSlices(nick: string, realname: string, hostname: string)
    ensures var s := nick + "!" + realname + "@" + hostname;
      var i := |nick|;
      var j := i + 1 + |realname|;
      |s| == j + 1 + |hostname| && s[..i] == nick && s[i] == '!' && s[i + 1..j] == realname &&
      s[j] == '@' && s[j + 1..] == hostname
  {
    var s := nick + "!" + realname + "@" + hostname;
    var i := |nick|;
    var j := i + 1 + |realname|;
    assert s[..i] == nick by {
      forall x | 0 <= x < i ensures s[x] == nick[x] {
      }
    }
    assert s[i + 1..j] == realname by {
      forall x | 0 <= x < |realname| ensures s[i + 1 + x] == realname[x] {
      }
    }
    assert s[j + 1..] == hostname by {
      forall x | 0 <= x < |hostname| ensures s[j + 1 + x] == hostname[x] {
      }
    }
  }

  /** The first occurrence is at `i` when `s[i]` is `c` and no earlier
      character is. */
  lemma FindAt(s: string, c: char, i: int)
    requires 0 <= i < |s| && s[i] == c && c !in s[..i]
    ensures Find(s, c) == i
  {
  }

  /** The first occurrence from `start` on is at `j` when `s[j]` is `c`
      and no character between is. */
  lemma FindFromAt(s: string, c: char, start: nat, j: int)
    requires start <= j < |s| && s[j] == c
    requires forall x :: start <= x < j ==> s[x] != c
    ensures FindFrom(s, c, start) == j
  {
  }

  /** Length of the leading run of characters other than a space. */
  function NonSpaceRun(s: string): (n: nat)
    ensures n <= |s| && ' ' !in s[..n]
    ensures n < |s| ==> s[n] == ' '
  {
    if s == [] || s[0] == ' ' then 0
    else
      var n := 1 + NonSpaceRun(s[1..]);
      assert s[..n] == [s[0]] + s[1..][..n - 1];
      n
  }

  /** `#([^ ]+)` matched at the start of the parameters gives the channel;
      otherwise the message was sent to the bot and the channel is the nick. */
  function ChannelOf(params: string, nick: string): string {
    if |params| >= 2 && params[0] == '#' && params[1] != ' ' then
      "#" + params[1..][..NonSpaceRun(params[1..])]
    else nick
  }

  /** The channel is the longest `#` and non-space run opening the
      parameters, when there is one at least two characters long. */
  lemma ChannelOfShape(params: string, nick: string)
    ensures var r := ChannelOf(params, nick);
      (|params| >= 2 && params[0] == '#' && params[1] != ' ' ==>
        |r| >= 2 && r[0] == '#' && ' ' !in r && StartsWith(params, r) &&
        (|r| == |params| || params[|r|] == ' ')) &&
      (!(|params| >= 2 && params[0] == '#' && params[1] != ' ') ==> r == nick)
  {
    if |params| >= 2 && params[0] == '#' && params[1] != ' ' {
      var n := NonSpaceRun(params[1..]);
      var r := "#" + params[1..][..n];
      assert params[..|r|] == r;
    }
  }

  /** A channel name without spaces at the head of the parameters is the channel. */
  lemma ChannelOfTarget(target: string, rest: string, nick: string)
    requires |target| >= 2 && target[0] == '#' && ' ' !in target
    requires rest == [] || rest[0] == ' '
    ensures ChannelOf(target + rest, nick) == target
  {
    var params := target + rest;
    assert params[1..] == target[1..] + rest;
    NonSpaceRunWord(target[1..], rest);
    assert params[1..][..|target| - 1] == target[1..];
  }

  lemma {:induction false} NonSpaceRunWord(w: string, rest: string)
    requires ' ' !in w && (rest == [] || rest[0] == ' ')
    ensures NonSpaceRun(w + rest) == |w|
  {
    if w != [] {
      assert (w + rest)[1..] == w[1..] + rest;
      NonSpaceRunWord(w[1..], rest);
    } else {
      assert w + rest == rest;
    }
  }

  /** The command name and arguments of a bot command. */
  datatype BotCommand = BotCommand(name: string, args: string)

  /**
   * The bot-command split applied to a PRIVMSG text: when the text starts
   * with the configured prefix, the command runs from the prefix to the
   * first space after it (or the end), the arguments from after that space.
   */
  function ExtractBotCommand(text: string, prefix: string): (r: Option<BotCommand>)
    ensures r.Some? <==> StartsWith(text, prefix)
  {
    if !StartsWith(text, prefix) then None
    else
      var sp := FindFrom(text, ' ', |prefix|);
      var end := if sp == -1 then |text| else sp;
      Some(BotCommand(text[|prefix|..end], if end + 1 <= |text| then text[end + 1..] else ""))
  }

  /** The command name has no space, and the text is the prefix, the name,
      and, when there are arguments, a space and the arguments. */
  lemma ExtractBotCommandShape(text: string, prefix: string)
    requires StartsWith(text, prefix)
    ensures var bc := ExtractBotCommand(text, prefix).value;
      ' ' !in bc.name &&
      (text == prefix + bc.name || text == prefix + bc.name + " " + bc.args)
  {
    var sp := FindFrom(text, ' ', |prefix|);
    var end := if sp == -1 then |text| else sp;
    var name := text[|prefix|..end];
    var args := if end + 1 <= |text| then text[end + 1..] else "";
    forall x | 0 <= x < |name| ensures name[x] != ' ' {
      assert name[x] == text[|prefix| + x];
    }
    assert text[..|prefix|] == prefix;
    if sp == -1 {
      assert text == prefix + name;
    } else {
      assert text == prefix + name + " " + args;
    }
  }

  /** A prefixed word followed by a space and arguments splits back into them. */
  lemma ExtractBotCommandOf(prefix: string, name: string, args: string)
    requires ' ' !in name
    ensures ExtractBotCommand(prefix + name + " " + args, prefix) == Some(BotCommand(name, args))
  {
    var text := prefix + name + " " + args;
    var end := |prefix| + |name|;
    assert text[..|prefix|] == prefix;
    assert text[end] == ' ';
    forall x | |prefix| <= x < end ensures text[x] != ' ' {
      assert text[x] == name[x - |prefix|];
    }
    assert FindFrom(text, ' ', |prefix|) == end;
    assert text[|prefix|..end] == name;
    assert text[end + 1..] == args;
  }

  /** A prefixed word with nothing after it is a command without arguments. */
  lemma ExtractBareBotCommand(prefix: string, name: string)
    requires ' ' !in name
    ensures ExtractBotCommand(prefix + name, prefix) == Some(BotCommand(name, ""))
  {
    var text := prefix + name;
    assert text[..|prefix|] == prefix;
    forall x | |prefix| <= x < |text| ensures text[x] != ' ' {
      assert text[x] == name[x - |prefix|];
    }
    assert FindFrom(text, ' ', |prefix|) == -1;
    assert text[|prefix|..|text|] == name;
  }

  /** Why a prefixed line raised instead of producing a message. */
  datatype ParseError =
    | NoMatch          // the line pattern did not match: AttributeError on `None.group`
    | NoUserMask       // a sender with `@` but not `nick!realname@host`: AttributeError
    | NoPrefixSetting  // the server section has no `prefix` option: KeyError

  datatype ParseOutcome = NoMessage | Parsed(msg: Message) | Raised(error: ParseError)

  /** The keyword arguments of a user message, bot command included when
      the line is a PRIVMSG whose text starts with the prefix. */
  function UserArgs(parts: LineParts, mask: UserMask, text: string, prefix: string): (r: map<string, string>)
    ensures "type" !in r && "raw" !in r
    ensures "command" in r && r["command"] == parts.command
    ensures "message" in r && r["message"] == text
    ensures "bot_command" in r <==> (parts.command == "PRIVMSG" && StartsWith(text, prefix))
    ensures "bot_command" in r ==> ("bot_args" in r &&
      ExtractBotCommand(text, prefix) == Some(BotCommand(r["bot_command"], r["bot_args"])))
  {
    var base := map[
      "sender" := parts.sender, "command" := parts.command, "params" := parts.params,
      "nick" := mask.nick, "realname" := mask.realname, "hostname" := mask.hostname,
      "message" := text, "channel" := ChannelOf(parts.params, mask.nick)];
    if parts.command == "PRIVMSG" && StartsWith(text, prefix) then
      var bc := ExtractBotCommand(text, prefix).value;
      base["bot_command" := bc.name]["bot_args" := bc.args]
    else base
  }

  /** The keyword arguments of a server message. */
  function ServerArgs(parts: LineParts): (r: map<string, string>)
    ensures "type" !in r && "raw" !in r
    ensures "command" in r && "message" in r
    ensures "nick" !in r && "channel" !in r && "bot_command" !in r
  {
    assert "channel"[1] != "command"[1] && "channel"[0] != "message"[0];
    map["sender" := parts.sender, "command" := parts.command, "params" := parts.params,
        "message" := AfterFirst(parts.params, ':')]
  }

  /** `IRCProtocol.parse_line(data)` with the server's `prefix` option. */
  function ParseLine(data: string, prefix: Option<string>): (r: ParseOutcome)
    ensures r.NoMessage? <==> data == []
    ensures r.Parsed? ==> Str(r.msg) == data
    ensures r.Parsed? && r.msg.kind == RawMessage <==> data != [] && data[0] != ':'
  {
    if data == [] then NoMessage
    else if data[0] != ':' then Parsed(NewMessage(RawMessage, data, map[]))
    else
      match MatchLine(data)
      case None => Raised(NoMatch)
      case Some(groups) => ParsePrefixed(data, groups, prefix)
  }

  /** A prefixed line once the line pattern matched: a user message when
      the sender holds `@`, a server message otherwise. */
  function ParsePrefixed(data: string, groups: LineParts, prefix: Option<string>): (r: ParseOutcome)
    ensures r.Parsed? ==> Str(r.msg) == data && r.msg.kind != RawMessage
    ensures !r.NoMessage?
  {
    var parts := groups.(params := Strip(groups.params));
    if '@' in parts.sender then
      match SplitUserMask(parts.sender)
      case None => Raised(NoUserMask)
      case Some(mask) =>
        if prefix.None? then Raised(NoPrefixSetting)
        else Parsed(NewMessage(UserMessage, data, UserArgs(parts, mask, AfterFirst(parts.params, ':'), prefix.value)))
    else Parsed(NewMessage(ServerMessage, data, ServerArgs(parts)))
  }

  /** Prefixed messages are server messages exactly when the sender has no `@`. */
  lemma ParseLineKind(data: string, prefix: Option<string>)
    requires ParseLine(data, prefix).Parsed?
    requires data[0] == ':'
    ensures var m := ParseLine(data, prefix).msg;
      var sender := MatchLine(data).value.sender;
      (m.kind == UserMessage <==> '@' in sender) &&
      (m.kind == ServerMessage <==> '@' !in sender) &&
      (m.kind == ServerMessage ==> !HasAttr(m, "nick") && !HasAttr(m, "channel")) &&
      (m.kind != RawMessage ==> HasAttr(m, "command") && HasAttr(m, "message"))
  {
    var groups := MatchLine(data).value;
    var parts := groups.(params := Strip(groups.params));
    assert parts.sender == groups.sender;
    assert ParseLine(data, prefix) == ParsePrefixed(data, groups, prefix);
    if '@' in parts.sender {
      var mask := SplitUserMask(parts.sender).value;
      var args := UserArgs(parts, mask, AfterFirst(parts.params, ':'), prefix.value);
      assert ParsePrefixed(data, groups, prefix) == Parsed(NewMessage(UserMessage, data, args));
    } else {
      assert ParsePrefixed(data, groups, prefix) == Parsed(NewMessage(ServerMessage, data, ServerArgs(parts)));
    }
  }

  /** A bot command is attached exactly to user PRIVMSG lines whose text
      starts with the prefix, and it is the split of that text. */
  lemma ParseLineBotCommand(data: string, prefix: string)
    requires ParseLine(data, Some(prefix)).Parsed?
    ensures var m := ParseLine(data, Some(prefix)).msg;
      HasAttr(m, "bot_command") <==>
        (m.kind == UserMessage && TextAttr(m, "command") == "PRIVMSG" &&
         StartsWith(TextAttr(m, "message"), prefix))
    ensures var m := ParseLine(data, Some(prefix)).msg;
      HasAttr(m, "bot_command") ==>
        ExtractBotCommand(TextAttr(m, "message"), prefix) ==
          Some(BotCommand(TextAttr(m, "bot_command"), TextAttr(m, "bot_args")))
  {
    if data[0] == ':' {
      PrefixedBotCommand(data, MatchLine(data).value, prefix);
    }
  }

  lemma PrefixedBotCommand(data: string, groups: LineParts, prefix: string)
    requires ParsePrefixed(data, groups, Some(prefix)).Parsed?
    ensures var m := ParsePrefixed(data, groups, Some(prefix)).msg;
      HasAttr(m, "bot_command") <==>
        (m.kind == UserMessage && TextAttr(m, "command") == "PRIVMSG" &&
         StartsWith(TextAttr(m, "message"), prefix))
    ensures var m := ParsePrefixed(data, groups, Some(prefix)).msg;
      HasAttr(m, "bot_command") ==>
        ExtractBotCommand(TextAttr(m, "message"), prefix) ==
          Some(BotCommand(TextAttr(m, "bot_command"), TextAttr(m, "bot_args")))
  {
    var parts := groups.(params := Strip(groups.params));
    var text := AfterFirst(parts.params, ':');
    if '@' in parts.sender {
      var mask := SplitUserMask(parts.sender).value;
      var args := UserArgs(parts, mask, text, prefix);
      assert ParsePrefixed(data, groups, Some(prefix)).msg == NewMessage(UserMessage, data, args);
      UserArgsAttrs(data, args, parts.command, text, prefix);
    } else {
      assert ParsePrefixed(data, groups, Some(prefix)).msg == NewMessage(ServerMessage, data, ServerArgs(parts));
      NewMessageAttr(ServerMessage, data, ServerArgs(parts), "bot_command");
    }
  }

  /** The attributes a user message reads from its keyword arguments. */
  lemma UserArgsAttrs(data: string, args: map<string, string>, command: string, text: string, prefix: string)
    requires "type" !in args && "raw" !in args
    requires "command" in args && args["command"] == command
    requires "message" in args && args["message"] == text
    requires "bot_command" in args <==> (command == "PRIVMSG" && StartsWith(text, prefix))
    requires "bot_command" in args ==> ("bot_args" in args &&
      ExtractBotCommand(text, prefix) == Some(BotCommand(args["bot_command"], args["bot_args"])))
    ensures var m := NewMessage(UserMessage, data, args);
      TextAttr(m, "command") == command && TextAttr(m, "message") == text &&
      (HasAttr(m, "bot_command") <==> (command == "PRIVMSG" && StartsWith(text, prefix))) &&
      (HasAttr(m, "bot_command") ==>
        ExtractBotCommand(text, prefix) == Some(BotCommand(TextAttr(m, "bot_command"), TextAttr(m, "bot_args"))))
  {
    NewMessageAttr(UserMessage, data, args, "command");
    NewMessageAttr(UserMessage, data, args, "message");
    NewMessageAttr(UserMessage, data, args, "bot_command");
    NewMessageAttr(UserMessage, data, args, "bot_args");
  }

  // ---------------------------------------------------------------------
  // The older parser of luckybot/irc/protocol/__init__.py, whose Message
  // has every field, defaulting to the empty string.

  datatype LegacyMessage = LegacyMessage(
    kind: Kind, raw: string, sender: string, command: string, params: string,
    nick: string, realname: string, hostname: string, message: string, channel: string)

  datatype LegacyOutcome = LegacyNone | LegacyParsed(msg: LegacyMessage) | LegacyRaised(error: ParseError)

  /** `Protocol.parse_line(data)` of the older module. */
  function LegacyParseLine(data: string): (r: LegacyOutcome)
    ensures r.LegacyNone? <==> data == []
    ensures r.LegacyParsed? ==> r.msg.raw == data
    ensures r.LegacyParsed? && r.msg.kind == RawMessage ==>
      r.msg == LegacyMessage(RawMessage, data, "", "", "", "", "", "", "", "")
  {
    if data == [] then LegacyNone
    else if data[0] != ':' then LegacyParsed(LegacyMessage(RawMessage, data, "", "", "", "", "", "", "", ""))
    else
      match MatchLine(data)
      case None => LegacyRaised(NoMatch)
      case Some(groups) => LegacyParsePrefixed(data, groups)
  }

  function LegacyParsePrefixed(data: string, groups: LineParts): (r: LegacyOutcome)
    ensures r.LegacyParsed? ==> r.msg.raw == data && r.msg.kind != RawMessage
    ensures !r.LegacyNone?
  {
    var parts := groups.(params := Strip(groups.params));
    var text := AfterFirst(parts.params, ':');
    if '@' in parts.sender then
      match SplitUserMask(parts.sender)
      case None => LegacyRaised(NoUserMask)
      case Some(mask) =>
        LegacyParsed(LegacyMessage(UserMessage, data, parts.sender, parts.command, parts.params,
          mask.nick, mask.realname, mask.hostname, text, ChannelOf(parts.params, mask.nick)))
    else
      LegacyParsed(LegacyMessage(ServerMessage, data, parts.sender, parts.command, parts.params,
        "", "", "", text, ""))
  }

  /** The fields both parsers produce. */
  const SharedFields: seq<string> :=
    ["sender", "command", "params", "nick", "realname", "hostname", "message", "channel"]

  function LegacyField(m: LegacyMessage, name: string): string {
    if name == "sender" then m.sender
    else if name == "command" then m.command
    else if name == "params" then m.params
    else if name == "nick" then m.nick
    else if name == "realname" then m.realname
    else if name == "hostname" then m.hostname
    else if name == "message" then m.message
    else if name == "channel" then m.channel
    else ""
  }

  /** The older parser's message as the controller reads it: every field
      is an attribute, the empty string where the line did not set it. */
  function LegacyAsMessage(lm: LegacyMessage): (m: Message)
    ensures m.kind == lm.kind && Str(m) == lm.raw
    ensures forall f :: f in SharedFields ==> GetAttr(m, f) == Some(Text(LegacyField(lm, f)))
  {
    var m := Message(lm.kind, lm.raw, map[
      "sender" := lm.sender, "command" := lm.command, "params" := lm.params,
      "nick" := lm.nick, "realname" := lm.realname, "hostname" := lm.hostname,
      "message" := lm.message, "channel" := lm.channel]);
    assert forall f :: f in SharedFields ==> f in m.extra && m.extra[f] == LegacyField(lm, f);
    m
  }

  /** `Protocol.parse_line(data)` of the older module in the shape the main
      loop calls a parser: the server's `prefix` option is not read. */
  function LegacyParse(data: string, prefix: Option<string>): (r: ParseOutcome)
    ensures r.NoMessage? <==> data == []
    ensures r.Raised? <==> LegacyParseLine(data).LegacyRaised?
    ensures r.Raised? ==> r.error == LegacyParseLine(data).error
    ensures r.Parsed? ==> LegacyParseLine(data).LegacyParsed? && r.msg == LegacyAsMessage(LegacyParseLine(data).msg)
  {
    match LegacyParseLine(data)
    case LegacyNone => NoMessage
    case LegacyRaised(e) => Raised(e)
    case LegacyParsed(lm) => Parsed(LegacyAsMessage(lm))
  }

  /** The two parsers agree: same outcome, same kind, and every shared field
      of the older message is the attribute of the newer one, or empty where
      the newer message has no such attribute. */
  lemma ParsersAgree(data: string, prefix: string)
    ensures ParseLine(data, Some(prefix)).NoMessage? <==> LegacyParseLine(data).LegacyNone?
    ensures ParseLine(data, Some(prefix)).Raised? <==> LegacyParseLine(data).LegacyRaised?
    ensures ParseLine(data, Some(prefix)).Parsed? ==>
      var m := ParseLine(data, Some(prefix)).msg;
      var lm := LegacyParseLine(data).msg;
      LegacyParseLine(data).LegacyParsed? && m.kind == lm.kind && Str(m) == lm.raw &&
      forall f :: f in SharedFields ==> LegacyField(lm, f) == TextAttr(m, f)
  {
    if data != [] && data[0] == ':' && MatchLine(data).Some? {
      PrefixedParsersAgree(data, MatchLine(data).value, prefix);
    }
  }

  lemma PrefixedParsersAgree(data: string, groups: LineParts, prefix: string)
    ensures ParsePrefixed(data, groups, Some(prefix)).Raised? <==>
      LegacyParsePrefixed(data, groups).LegacyRaised?
    ensures ParsePrefixed(data, groups, Some(prefix)).Parsed? ==>
      var m := ParsePrefixed(data, groups, Some(prefix)).msg;
      var lm := LegacyParsePrefixed(data, groups).msg;
      LegacyParsePrefixed(data, groups).LegacyParsed? && m.kind == lm.kind && Str(m) == lm.raw &&
      forall f :: f in SharedFields ==> LegacyField(lm, f) == TextAttr(m, f)
  {
    var parts := groups.(params := Strip(groups.params));
    var text := AfterFirst(parts.params, ':');
    if '@' in parts.sender && SplitUserMask(parts.sender).Some? {
      var mask := SplitUserMask(parts.sender).value;
      var lm := LegacyMessage(UserMessage, data, parts.sender, parts.command, parts.params,
        mask.nick, mask.realname, mask.hostname, text, ChannelOf(parts.params, mask.nick));
      assert LegacyParsePrefixed(data, groups) == LegacyParsed(lm);
      var m := NewMessage(UserMessage, data, UserArgs(parts, mask, text, prefix));
      assert ParsePrefixed(data, groups, Some(prefix)) == Parsed(m);
      UserFieldsMatch(data, parts, mask, text, prefix);
      FieldsAgree(lm, m);
    } else if '@' !in parts.sender {
      var lm := LegacyMessage(ServerMessage, data, parts.sender, parts.command, parts.params,
        "", "", "", text, "");
      assert LegacyParsePrefixed(data, groups) == LegacyParsed(lm);
      var m := NewMessage(ServerMessage, data, ServerArgs(parts));
      assert ParsePrefixed(data, groups, Some(prefix)) == Parsed(m);
      ServerFieldsMatch(data, parts, text);
      FieldsAgree(lm, m);
    }
  }

  lemma UserFieldsMatch(data: string, parts: LineParts, mask: UserMask, text: string, prefix: string)
    ensures FieldsMatch(
      LegacyMessage(UserMessage, data, parts.sender, parts.command, parts.params,
        mask.nick, mask.realname, mask.hostname, text, ChannelOf(parts.params, mask.nick)),
      NewMessage(UserMessage, data, UserArgs(parts, mask, text, prefix)))
  {
    var args := UserArgs(parts, mask, text, prefix);
    UserArgsFields(parts, mask, text, prefix);
    NewMessageAttr(UserMessage, data, args, "sender");
    NewMessageAttr(UserMessage, data, args, "command");
    NewMessageAttr(UserMessage, data, args, "params");
    NewMessageAttr(UserMessage, data, args, "nick");
    NewMessageAttr(UserMessage, data, args, "realname");
    NewMessageAttr(UserMessage, data, args, "hostname");
    NewMessageAttr(UserMessage, data, args, "message");
    NewMessageAttr(UserMessage, data, args, "channel");
  }

  lemma ServerFieldsMatch(data: string, parts: LineParts, text: string)
    requires text == AfterFirst(parts.params, ':')
    ensures FieldsMatch(
      LegacyMessage(ServerMessage, data, parts.sender, parts.command, parts.params,
        "", "", "", text, ""),
      NewMessage(ServerMessage, data, ServerArgs(parts)))
  {
    var args := ServerArgs(parts);
    ServerArgsFields(parts);
    NewMessageAttr(ServerMessage, data, args, "sender");
    NewMessageAttr(ServerMessage, data, args, "command");
    NewMessageAttr(ServerMessage, data, args, "params");
    NewMessageAttr(ServerMessage, data, args, "nick");
    NewMessageAttr(ServerMessage, data, args, "realname");
    NewMessageAttr(ServerMessage, data, args, "hostname");
    NewMessageAttr(ServerMessage, data, args, "message");
    NewMessageAttr(ServerMessage, data, args, "channel");
  }

  /** Field-by-field agreement, stated once per shared field. */
  predicate FieldsMatch(lm: LegacyMessage, m: Message) {
    lm.sender == TextAttr(m, "sender") && lm.command == TextAttr(m, "command") &&
    lm.params == TextAttr(m, "params") && lm.nick == TextAttr(m, "nick") &&
    lm.realname == TextAttr(m, "realname") && lm.hostname == TextAttr(m, "hostname") &&
    lm.message == TextAttr(m, "message") && lm.channel == TextAttr(m, "channel")
  }

  lemma FieldsAgree(lm: LegacyMessage, m: Message)
    requires FieldsMatch(lm, m)
    ensures forall f :: f in SharedFields ==> LegacyField(lm, f) == TextAttr(m, f)
  {
  }

  lemma UserArgsFields(parts: LineParts, mask: UserMask, text: string, prefix: string)
    ensures var r := UserArgs(parts, mask, text, prefix);
      "sender" in r && r["sender"] == parts.sender &&
      "params" in r && r["params"] == parts.params &&
      "nick" in r && r["nick"] == mask.nick &&
      "realname" in r && r["realname"] == mask.realname &&
      "hostname" in r && r["hostname"] == mask.hostname &&
      "channel" in r && r["channel"] == ChannelOf(parts.params, mask.nick)
  {
  }

  lemma ServerArgsFields(parts: LineParts)
    ensures var r := ServerArgs(parts);
      "sender" in r && r["sender"] == parts.sender &&
      "params" in r && r["params"] == parts.params &&
      "realname" !in r && "hostname" !in r &&
      r["command"] == parts.command && r["message"] == AfterFirst(parts.params, ':')
  {
  }
}
