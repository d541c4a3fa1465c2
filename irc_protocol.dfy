/**
 * The IRC conversation the bot keeps with one server: registration once
 * the connection is open, answers to PING, and joining the configured
 * channels once the server has welcomed the bot (reply 001 of section 5.1
 * of RFC 2812).
 */
module IrcProtocolSession {
  import opened Wrappers
  import opened Text
  import opened IrcMessage
  import opened IrcLine
  import opened IrcRender
  import opened IrcConnection

  /** The lines `start` sends: USER and NICK, then the NickServ
      identification when a password is set. */
  function StartLines(info: map<string, InfoValue>): seq<string>
    requires "nickname" in info
  {
    var nick := Render(info["nickname"]);
    var register := ["USER " + nick + " 1 * :LuckyBot", SetNick(nick)];
    if "password" in info && Truthy(info["password"])
    then register + [Pm("nickserv", "identify " + Render(info["password"]))]
    else register
  }

  /** Registration comes first, and NickServ is asked to identify the bot
      exactly when a password is set. */
  lemma StartSequence(info: map<string, InfoValue>)
    requires "nickname" in info
    ensures var lines := StartLines(info);
      var nick := Render(info["nickname"]);
      |lines| >= 2 && StartsWith(lines[0], "USER " + nick + " ") && lines[1] == "NICK " + nick &&
      (|lines| == 3 <==> "password" in info && Truthy(info["password"])) &&
      (|lines| == 3 ==> lines[2] == "PRIVMSG nickserv :identify " + Render(info["password"]))
  {
    var nick := Render(info["nickname"]);
    assert ("USER " + nick + " 1 * :LuckyBot")[..|"USER " + nick + " "|] == "USER " + nick + " ";
  }

  /** The JOIN lines for a comma-separated channel list. */
  function JoinsFor(channels: seq<string>): (r: seq<string>)
    ensures |r| == |channels|
  {
    seq(|channels|, i requires 0 <= i < |channels| => Join(Strip(channels[i])))
  }

  /** The lines `on_command_001` sends. */
  function WelcomeLines(info: map<string, InfoValue>): seq<string> {
    if "channels" in info && info["channels"].StrValue? then JoinsFor(SplitOn(info["channels"].s, ","))
    else []
  }

  /** One JOIN per comma-separated entry, each for a `#` channel named
      after the entry with surrounding whitespace removed. */
  lemma WelcomeJoins(channels: string)
    ensures var lines := WelcomeLines(map["channels" := StrValue(channels)]);
      |lines| == |SplitOn(channels, ",")| &&
      forall i :: 0 <= i < |lines| ==>
        StartsWith(lines[i], "JOIN #") && lines[i] == Join(Strip(SplitOn(channels, ",")[i]))
  {
    var parts := SplitOn(channels, ",");
    assert WelcomeLines(map["channels" := StrValue(channels)]) == JoinsFor(parts);
    forall i | 0 <= i < |parts|
      ensures StartsWith(JoinsFor(parts)[i], "JOIN #")
    {
      JoinShape(Strip(parts[i]));
    }
  }

  lemma JoinShape(channel: string)
    ensures StartsWith(Join(channel), "JOIN #")
  {
    var name := ChannelName(channel);
    assert name == "#" + name[1..];
    assert Join(channel) == "JOIN #" + name[1..];
    PrefixOf("JOIN #", name[1..]);
  }

  lemma PrefixOf(p: string, rest: string)
    ensures StartsWith(p + rest, p)
  {
    assert (p + rest)[..|p|] == p;
  }

  /** Why handling a line stopped early. */
  datatype LineError =
    | NoLine                    // an empty line: `None.raw` raises AttributeError
    | NotParsed(cause: ParseError)
    | ChannelsNotText           // an integer `channels` setting has no `split`

  /** The lines sent while handling one received line, and the error that
      ended the handling, if any. */
  datatype Reaction = Reaction(sent: seq<string>, raised: Option<LineError>)

  /** `"PONG :%s" % raw[6:]`, Python's slice being empty past the end. */
  function Pong(raw: string): (r: string)
    ensures StartsWith(r, "PONG :")
    ensures StartsWith(raw, "PING :") ==> "PING :" + r[6..] == raw
  {
    "PONG :" + (if |raw| >= 6 then raw[6..] else "")
  }

  function PrefixSetting(info: map<string, InfoValue>): Option<string> {
    if "prefix" in info then Some(Render(info["prefix"])) else None
  }

  /** What `on_line` does with one line: parse it, answer a PING, and on
      the server's welcome join the configured channels. */
  function React(info: map<string, InfoValue>, data: string): (r: Reaction)
    ensures !ParseLine(data, PrefixSetting(info)).Parsed? ==> r.sent == [] && r.raised.Some?
    ensures ParseLine(data, PrefixSetting(info)).Parsed? ==> r.raised.None? || r.raised == Some(ChannelsNotText)
  {
    match ParseLine(data, PrefixSetting(info))
    case NoMessage => Reaction([], Some(NoLine))
    case Raised(e) => Reaction([], Some(NotParsed(e)))
    case Parsed(m) => ReactTo(info, m)
  }

  /** The reaction to a parsed message. */
  function ReactTo(info: map<string, InfoValue>, m: Message): Reaction {
    var pong := if StartsWith(Str(m), "PING") then [Pong(Str(m))] else [];
    if m.kind == ServerMessage && TextAttr(m, "command") == "001" then
      if "channels" in info && info["channels"].IntValue? then Reaction(pong, Some(ChannelsNotText))
      else Reaction(pong + WelcomeLines(info), None)
    else Reaction(pong, None)
  }

  /** A PING from the server (section 4.6.2 of RFC 1459) is answered with a
      PONG carrying the text after `PING :` (section 4.6.3), and nothing
      else is sent. */
  lemma PingAnswered(info: map<string, InfoValue>, token: string)
    ensures React(info, "PING :" + token) == Reaction(["PONG :" + token], None)
  {
    var data := "PING :" + token;
    assert data[..4] == "PING";
    assert data[6..] == token;
    StrIsRaw(RawMessage, data, map[]);
  }

  /** A line is answered with a PONG exactly when it starts with PING, and
      the PONG comes before anything else the line causes. */
  lemma PongOnlyForPing(info: map<string, InfoValue>, data: string)
    requires ParseLine(data, PrefixSetting(info)).Parsed?
    ensures var sent := React(info, data).sent;
      StartsWith(data, "PING") <==> (|sent| > 0 && sent[0] == Pong(data))
  {
    var m := ParseLine(data, PrefixSetting(info)).msg;
    assert Str(m) == data;
    var sent := React(info, data).sent;
    if !StartsWith(data, "PING") && |sent| > 0 {
      WelcomeJoinLines(info);
      assert sent[0][0] == 'J';
      assert Pong(data)[0] == 'P';
    }
  }

  lemma WelcomeJoinLines(info: map<string, InfoValue>)
    ensures forall i :: 0 <= i < |WelcomeLines(info)| ==> |WelcomeLines(info)[i]| > 0 && WelcomeLines(info)[i][0] == 'J'
  {
  }

  /** The server's welcome makes the bot join its channels; no other
      server reply sends anything. */
  lemma WelcomeReaction(info: map<string, InfoValue>, data: string)
    requires ParseLine(data, PrefixSetting(info)).Parsed?
    requires ParseLine(data, PrefixSetting(info)).msg.kind == ServerMessage
    requires !("channels" in info && info["channels"].IntValue?)
    ensures var m := ParseLine(data, PrefixSetting(info)).msg;
      React(info, data) ==
        Reaction(if TextAttr(m, "command") == "001" then WelcomeLines(info) else [], None)
  {
    var m := ParseLine(data, PrefixSetting(info)).msg;
    assert React(info, data) == ReactTo(info, m);
    NoPingFromServer(data, m);
  }

  lemma NoPingFromServer(data: string, m: Message)
    requires data != [] && data[0] == ':' && Str(m) == data
    ensures !StartsWith(Str(m), "PING")
  {
    if |data| >= 4 {
      assert data[..4][0] == ':';
    }
  }

  lemma SentInOrder(lines: seq<string>, line: string)
    ensures Wire(lines) + Wire([line]) == Wire(lines + [line])
    ensures Outgoing(lines) + Outgoing([line]) == Outgoing(lines + [line])
  {
    WireAppend(lines, [line]);
  }

  class IrcProtocol {
    const server: IrcServerConnection

    /** Registering `start` and `on_line` as listeners of the server is
        the caller's wiring and is not part of this model. */
    constructor (server: IrcServerConnection)
      ensures this.server == server
    {
      this.server := server;
    }

    /** Registers with the server; without a nickname setting `start`
        raises `KeyError` before sending anything. */
    method Start() returns (ok: bool)
      modifies server
      ensures ok <==> "nickname" in old(server.info)
      ensures server.transmitted == old(server.transmitted) + Wire(if ok then StartLines(old(server.info)) else [])
      ensures server.signals == old(server.signals) + Outgoing(if ok then StartLines(old(server.info)) else [])
      ensures server.info == old(server.info) && server.buffer == old(server.buffer)
      ensures server.addresses == old(server.addresses)
    {
      if "nickname" !in server.info {
        return false;
      }
      var nick := Render(server.info["nickname"]);
      var user := "USER " + nick + " 1 * :LuckyBot";
      ghost var t0, s0 := server.transmitted, server.signals;
      server.Send(user);
      ghost var t1, s1 := server.transmitted, server.signals;
      server.Send(SetNick(nick));
      WireThen(t0, [user], [SetNick(nick)], t1, server.transmitted);
      OutgoingThen(s0, [user], [SetNick(nick)], s1, server.signals);
      ghost var sent := [user, SetNick(nick)];
      assert [user] + [SetNick(nick)] == sent;
      if "password" in server.info && Truthy(server.info["password"]) {
        var identify := Pm("nickserv", "identify " + Render(server.info["password"]));
        ghost var t2, s2 := server.transmitted, server.signals;
        server.Send(identify);
        WireThen(t0, sent, [identify], t2, server.transmitted);
        OutgoingThen(s0, sent, [identify], s2, server.signals);
        sent := sent + [identify];
      }
      assert sent == StartLines(server.info);
      return true;
    }

    /** Joins every channel of the `channels` setting; an integer setting
        has no `split` and raises `AttributeError`. */
    method OnCommand001() returns (ok: bool)
      modifies server
      ensures ok <==> !("channels" in old(server.info) && old(server.info)["channels"].IntValue?)
      ensures server.transmitted == old(server.transmitted) + Wire(WelcomeLines(old(server.info)))
      ensures server.signals == old(server.signals) + Outgoing(WelcomeLines(old(server.info)))
      ensures server.info == old(server.info) && server.buffer == old(server.buffer)
      ensures server.addresses == old(server.addresses)
    {
      if "channels" in server.info {
        match server.info["channels"]
        case IntValue(_) =>
          return false;
        case StrValue(s) =>
          JoinAll(SplitOn(s, ","));
      }
      return true;
    }

    /** The loop of `on_command_001`: a JOIN for each entry, stripped, in
        order. */
    method JoinAll(channels: seq<string>)
      modifies server
      ensures server.transmitted == old(server.transmitted) + Wire(JoinsFor(channels))
      ensures server.signals == old(server.signals) + Outgoing(JoinsFor(channels))
      ensures server.info == old(server.info) && server.buffer == old(server.buffer)
      ensures server.addresses == old(server.addresses)
    {
      ghost var lines := JoinsFor(channels);
      var i := 0;
      while i < |channels|
        invariant 0 <= i <= |channels|
        invariant server.transmitted == old(server.transmitted) + Wire(lines[..i])
        invariant server.signals == old(server.signals) + Outgoing(lines[..i])
        invariant server.info == old(server.info) && server.buffer == old(server.buffer)
        invariant server.addresses == old(server.addresses)
      {
        ghost var sent, emitted := server.transmitted, server.signals;
        server.Send(Join(Strip(channels[i])));
        WireStep(old(server.transmitted), lines, i, sent, server.transmitted);
        OutgoingStep(old(server.signals), lines, i, emitted, server.signals);
        i := i + 1;
      }
      assert lines[..i] == lines;
    }

    /** Handles one received line as `React` describes. */
    method OnLine(data: string) returns (r: Option<LineError>)
      modifies server
      ensures r == React(old(server.info), data).raised
      ensures server.transmitted == old(server.transmitted) + Wire(React(old(server.info), data).sent)
      ensures server.signals == old(server.signals) + Outgoing(React(old(server.info), data).sent)
      ensures server.info == old(server.info) && server.buffer == old(server.buffer)
      ensures server.addresses == old(server.addresses)
    {
      var parsed := ParseLine(data, PrefixSetting(server.info));
      if parsed.NoMessage? {
        return Some(NoLine);
      }
      if parsed.Raised? {
        return Some(NotParsed(parsed.error));
      }
      r := OnMessage(parsed.msg);
    }

    /** Handles a parsed message as `ReactTo` describes. */
    method OnMessage(m: Message) returns (r: Option<LineError>)
      modifies server
      ensures r == ReactTo(old(server.info), m).raised
      ensures server.transmitted == old(server.transmitted) + Wire(ReactTo(old(server.info), m).sent)
      ensures server.signals == old(server.signals) + Outgoing(ReactTo(old(server.info), m).sent)
      ensures server.info == old(server.info) && server.buffer == old(server.buffer)
      ensures server.addresses == old(server.addresses)
    {
      var pong: seq<string> := [];
      if StartsWith(Str(m), "PING") {
        pong := [Pong(Str(m))];
        server.Send(Pong(Str(m)));
      }
      if m.kind == ServerMessage && TextAttr(m, "command") == "001" {
        ghost var sent, emitted := server.transmitted, server.signals;
        var ok := OnCommand001();
        WireThen(old(server.transmitted), pong, WelcomeLines(old(server.info)), sent, server.transmitted);
        OutgoingThen(old(server.signals), pong, WelcomeLines(old(server.info)), emitted, server.signals);
        if !ok {
          return Some(ChannelsNotText);
        }
      }
      return None;
    }
  }
}
