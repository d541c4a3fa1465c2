/**
 * The bot's main loop: every pass reads what each server connection
 * received, parses it, marks bot commands with the configured command
 * prefix, hands the message first to the server's protocol handler and then
 * to the plugins, and then looks after connections that died: with
 * keep-alive on they are reconnected, otherwise they are counted off
 * `num_alive`, and the loop ends when that count is zero.
 */
module Controller {
  import opened Wrappers
  import opened Text
  import opened IrcMessage
  import opened IrcLine
  import opened IniConfig
  import opened ServerSections

  /** How often, in seconds, a dead connection may be reconnected. */
  const ReconnectInterval: int := 180

  /** A configured server: its options (`info`), whether its connection
      is alive, `last_check` (the time of the last reconnect, `None` until
      there was one), and how often `connect` was called on it. */
  datatype Server = Server(info: map<string, string>, alive: bool, lastCheck: Option<int>, connects: nat)
  {
    /** The `prefix` option the server's parser reads. */
    function Prefix(): Option<string> {
      if "prefix" in info then Some(info["prefix"]) else None
    }
  }

  /** What one pass did with a message: `server.handler.on_line(message)`
      or `plugins.check_event(message)`, `server` being the connection's
      position. */
  datatype Event = OnLine(server: nat, m: Message) | CheckEvent(server: nat, m: Message)

  /** Why a pass raised. */
  datatype ControllerError =
    | ParseFailed(error: ParseError)  // `parse_line` raised
    | NoCommandPrefix                 // the `Bot` section has no `command_prefix`

  /** The loop's settings: `keep_alive` and `command_prefix` of the `Bot`
      section, and the `parse_line` of the servers' protocol. */
  datatype Settings = Settings(keepAlive: bool, commandPrefix: Option<string>, parse: (string, Option<string>) -> ParseOutcome)

  predicate IsUserPrivmsg(m: Message) {
    m.kind == UserMessage && TextAttr(m, "command") == "PRIVMSG"
  }

  /** The bot-command marking of the main loop: a user PRIVMSG whose text
      starts with the command prefix gets `bot_command` and `bot_args`;
      every other message is left as it is. */
  function Annotate(m: Message, cmdPrefix: string): (r: Message)
    ensures r.kind == m.kind && r.raw == m.raw
  {
    if IsUserPrivmsg(m) && StartsWith(TextAttr(m, "message"), cmdPrefix) then
      var bc := ExtractBotCommand(TextAttr(m, "message"), cmdPrefix).value;
      m.(extra := m.extra["bot_command" := bc.name]["bot_args" := bc.args])
    else m
  }

  /** The marking sets a bot command exactly on the user PRIVMSG lines that
      start with the prefix, and leaves every other attribute alone. */
  lemma AnnotateMarks(m: Message, cmdPrefix: string)
    ensures var r := Annotate(m, cmdPrefix);
      IsUserPrivmsg(m) && StartsWith(TextAttr(m, "message"), cmdPrefix) ==>
        GetAttr(r, "bot_command").Some? && GetAttr(r, "bot_args").Some? &&
        ExtractBotCommand(TextAttr(m, "message"), cmdPrefix) ==
          Some(BotCommand(TextAttr(r, "bot_command"), TextAttr(r, "bot_args")))
    ensures var r := Annotate(m, cmdPrefix);
      forall a :: a != "bot_command" && a != "bot_args" ==> GetAttr(r, a) == GetAttr(m, a)
    ensures !(IsUserPrivmsg(m) && StartsWith(TextAttr(m, "message"), cmdPrefix)) ==> Annotate(m, cmdPrefix) == m
  {
  }

  /** A user PRIVMSG reading prefix, command word, a space and arguments
      is marked with exactly that command and those arguments; so, with
      prefix `!`, `!seen bob now` is command `seen` with arguments `bob now`. */
  lemma AnnotateSplits(m: Message, cmdPrefix: string, name: string, args: string)
    requires IsUserPrivmsg(m) && TextAttr(m, "message") == cmdPrefix + name + " " + args
    requires ' ' !in name
    ensures TextAttr(Annotate(m, cmdPrefix), "bot_command") == name
    ensures TextAttr(Annotate(m, cmdPrefix), "bot_args") == args
  {
    ExtractBotCommandOf(cmdPrefix, name, args);
    assert StartsWith(TextAttr(m, "message"), cmdPrefix) by {
      assert (cmdPrefix + name + " " + args)[..|cmdPrefix|] == cmdPrefix;
    }
  }

  /** The events one received line causes: none for no data; otherwise the
      parsed and marked message goes to `on_line` and then to
      `check_event`. The command prefix is read only for user PRIVMSGs. */
  function Receive(i: nat, data: Option<string>, prefix: Option<string>, parse: (string, Option<string>) -> ParseOutcome,
                   cmdPrefix: Option<string>): (r: Result<seq<Event>, ControllerError>)
    ensures r.Ok? && r.value != [] ==>
      |r.value| == 2 && r.value[0].OnLine? && r.value[1] == CheckEvent(i, r.value[0].m) && r.value[0].server == i
    ensures data.None? || data.value == [] ==> r == Ok([])
  {
    if data.None? || data.value == [] then Ok([])
    else
      match parse(data.value, prefix)
      case NoMessage => Ok([])  // not reached: the line is not empty
      case Raised(e) => Err(ParseFailed(e))
      case Parsed(m) =>
        if IsUserPrivmsg(m) && cmdPrefix.None? then Err(NoCommandPrefix)
        else
          var marked := if IsUserPrivmsg(m) then Annotate(m, cmdPrefix.value) else m;
          Ok([OnLine(i, marked), CheckEvent(i, marked)])
  }

  /** A received line reaches the protocol handler and the plugins as the
      message the older parser of `server.handler.protocol` makes of it,
      bot command marked. */
  lemma ReceiveParses(i: nat, data: string, prefix: Option<string>, cmdPrefix: string)
    requires data != []
    ensures match LegacyParseLine(data)
      case LegacyParsed(lm) =>
        var m := LegacyAsMessage(lm);
        Receive(i, Some(data), prefix, LegacyParse, Some(cmdPrefix)) == Ok([OnLine(i, Annotate(m, cmdPrefix)), CheckEvent(i, Annotate(m, cmdPrefix))])
      case LegacyRaised(e) => Receive(i, Some(data), prefix, LegacyParse, Some(cmdPrefix)) == Err(ParseFailed(e))
      case LegacyNone => false
  {
    match LegacyParseLine(data)
    case LegacyParsed(lm) =>
      var m := LegacyAsMessage(lm);
      assert LegacyParse(data, prefix) == Parsed(m);
      if !IsUserPrivmsg(m) {
        assert !(IsUserPrivmsg(m) && StartsWith(TextAttr(m, "message"), cmdPrefix));
      }
    case LegacyRaised(e) =>
      assert LegacyParse(data, prefix) == Raised(e);
    case LegacyNone =>
  }

  /** The server's `prefix` option plays no part: a line parses and is
      dispatched the same with or without one. */
  lemma ReceiveIgnoresPrefix(i: nat, data: Option<string>, p: Option<string>, q: Option<string>, cmdPrefix: Option<string>)
    ensures Receive(i, data, p, LegacyParse, cmdPrefix) == Receive(i, data, q, LegacyParse, cmdPrefix)
  {
    if data.Some? && data.value != [] {
      assert LegacyParse(data.value, p) == LegacyParse(data.value, q);
    }
  }

  /** The reconnect guard as written: `not hasattr(server, 'lastcheck') or
      (date_time.now() - server.last_check).seconds > 180`. The loop stores
      the time under `last_check`, never under `lastcheck`, and `date_time`
      is not a defined name: a server that has a `lastcheck` attribute would
      raise `NameError`. */
  function ReconnectGuardAsWritten(hasLastcheckAttr: bool, lastCheck: Option<int>, now: int): (r: Result<bool, string>)
    ensures !hasLastcheckAttr ==> r == Ok(true)
  {
    if !hasLastcheckAttr then Ok(true) else Err("NameError: date_time")
  }

  /** Nothing sets `lastcheck`, so as written every dead observation
      reconnects: two observations one second apart both do. */
  lemma ReconnectEveryPassAsWritten(t: int)
    ensures ReconnectGuardAsWritten(false, None, t) == Ok(true)
    ensures ReconnectGuardAsWritten(false, Some(t), t + 1) == Ok(true)
    ensures !MayReconnect(Some(t), t + 1)
  {
  }

  /** The guard as the comment states it: reconnect when there was no
      reconnect yet, or when the last was more than three minutes ago. */
  predicate MayReconnect(lastCheck: Option<int>, now: int) {
    lastCheck.None? || now - lastCheck.value > ReconnectInterval
  }

  /** What a pass did: the events in order, the servers' new state, how
      much `num_alive` went down, and what it raised. */
  datatype PassResult = PassResult(events: seq<Event>, after: seq<Server>, dead: nat, error: Option<ControllerError>)

  /** The dead-connection rule for one server. */
  function Supervise(s: Server, now: int, keepAlive: bool): (r: (Server, nat))
    ensures r.0.info == s.info && r.0.alive == s.alive
    ensures r.1 == (if !s.alive && !keepAlive then 1 else 0)
    ensures r.0.connects == s.connects + (if !s.alive && keepAlive && MayReconnect(s.lastCheck, now) then 1 else 0)
    ensures r.0.connects != s.connects ==> r.0.lastCheck == Some(now)
    ensures r.0.connects == s.connects ==> r.0.lastCheck == s.lastCheck
  {
    if s.alive then (s, 0)
    else if keepAlive then
      if MayReconnect(s.lastCheck, now) then (s.(lastCheck := Some(now), connects := s.connects + 1), 0)
      else (s, 0)
    else (s, 1)
  }

  /** Reconnects are at least three minutes apart: right after a
      reconnect, the same dead connection is not reconnected again until
      more than 180 seconds have passed. */
  lemma ReconnectThrottled(s: Server, now: int, later: int)
    requires !s.alive && MayReconnect(s.lastCheck, now)
    requires now <= later <= now + ReconnectInterval
    ensures var (next, _) := Supervise(s, now, true);
      next.connects == s.connects + 1 && Supervise(next, later, true).0 == next
  {
  }

  /** One server's part of a pass, `i` being its position. */
  function Step(i: nat, s: Server, data: Option<string>, now: int, st: Settings): (r: PassResult)
    ensures |r.after| == 1
  {
    match Receive(i, data, s.Prefix(), st.parse, st.commandPrefix)
    case Err(e) => PassResult([], [s], 0, Some(e))
    case Ok(events) =>
      var (next, dead) := Supervise(s, now, st.keepAlive);
      PassResult(events, [next], dead, None)
  }

  /** Two pieces of a pass one after the other; the first did not raise. */
  function Join(a: PassResult, b: PassResult): PassResult {
    PassResult(a.events + b.events, a.after + b.after, a.dead + b.dead, b.error)
  }

  /** The pass over servers `base`, `base + 1`, ...: it stops at the first
      server whose line raises, leaving that server and the later ones as
      they were. */
  function Pass(base: nat, servers: seq<Server>, data: seq<Option<string>>, now: int, st: Settings): (r: PassResult)
    requires |data| == |servers|
    ensures |r.after| == |servers|
    decreases |servers|
  {
    if servers == [] then PassResult([], [], 0, None)
    else
      var first := Step(base, servers[0], data[0], now, st);
      if first.error.Some? then PassResult([], servers, 0, first.error)
      else Join(first, Pass(base + 1, servers[1..], data[1..], now, st))
  }

  /** The events come in `on_line`/`check_event` pairs for one message. */
  predicate Paired(ev: seq<Event>)
    decreases |ev|
  {
    ev == [] || (|ev| >= 2 && ev[0].OnLine? && ev[1] == CheckEvent(ev[0].server, ev[0].m) && Paired(ev[2..]))
  }

  lemma {:induction false} PairedAppend(a: seq<Event>, b: seq<Event>)
    requires Paired(a) && Paired(b)
    ensures Paired(a + b)
    decreases |a|
  {
    if a != [] {
      assert (a + b)[2..] == a[2..] + b;
      PairedAppend(a[2..], b);
    } else {
      assert a + b == b;
    }
  }

  /** Every message goes to the protocol handler right before it goes to
      the plugins, and the messages come server by server. */
  lemma {:induction false} PassOrder(base: nat, servers: seq<Server>, data: seq<Option<string>>, now: int, st: Settings)
    requires |data| == |servers|
    ensures var ev := Pass(base, servers, data, now, st).events;
      Paired(ev) && forall e :: e in ev ==> base <= e.server < base + |servers|
    decreases |servers|
  {
    if servers != [] {
      var first := Step(base, servers[0], data[0], now, st);
      if first.error.None? {
        PassOrder(base + 1, servers[1..], data[1..], now, st);
        var rest := Pass(base + 1, servers[1..], data[1..], now, st).events;
        assert first.events == [] || (first.events[2..] == [] && Paired(first.events));
        PairedAppend(first.events, rest);
      }
    }
  }

  /** One more server of a pass: the pass so far, `done`, is followed by
      that server's step, which either raises and ends the pass or is
      joined to it. */
  lemma PassAdvance(start: seq<Server>, data: seq<Option<string>>, now: int, st: Settings,
                    whole: PassResult, done: PassResult, i: nat)
    requires |data| == |start| && i < |start| && done.error.None?
    requires whole == Join(done, Pass(i, start[i..], data[i..], now, st))
    ensures var step := Step(i, start[i], data[i], now, st);
      (step.error.Some? ==> whole == PassResult(done.events, done.after + start[i..], done.dead, step.error)) &&
      (step.error.None? ==> whole == Join(Join(done, step), Pass(i + 1, start[i + 1..], data[i + 1..], now, st)))
  {
    var step := Step(i, start[i], data[i], now, st);
    assert start[i..][0] == start[i] && data[i..][0] == data[i];
    assert start[i..][1..] == start[i + 1..] && data[i..][1..] == data[i + 1..];
    var rest := Pass(i + 1, start[i + 1..], data[i + 1..], now, st);
    if step.error.None? {
      JoinAssociates(done, step, rest);
    }
  }

  lemma ConcatAt<T>(a: seq<T>, b: seq<T>)
    requires |b| > 0
    ensures (a + b)[|a|] == b[0]
  {
  }

  lemma ReplaceFirst<T>(a: seq<T>, b: seq<T>, x: seq<T>)
    requires |b| > 0 && |x| == 1
    ensures (a + b)[|a| := x[0]] == (a + x) + b[1..]
  {
  }

  lemma JoinAssociates(a: PassResult, b: PassResult, c: PassResult)
    ensures Join(a, Join(b, c)) == Join(Join(a, b), c)
  {
    assert a.events + (b.events + c.events) == (a.events + b.events) + c.events;
    assert a.after + (b.after + c.after) == (a.after + b.after) + c.after;
  }

  /** With keep-alive off, `num_alive` goes down by one for every dead
      connection in every pass, so it never goes up. */
  lemma {:induction false} PassDeadCount(base: nat, servers: seq<Server>, data: seq<Option<string>>, now: int, st: Settings)
    requires |data| == |servers|
    requires forall j :: 0 <= j < |servers| ==> !servers[j].alive
    requires forall j :: 0 <= j < |data| ==> data[j].None?
    requires !st.keepAlive
    ensures Pass(base, servers, data, now, st).dead == |servers|
    decreases |servers|
  {
    if servers != [] {
      PassDeadCount(base + 1, servers[1..], data[1..], now, st);
    }
  }

  /** `num_alive` is the count of servers and is only compared with zero after
      a whole pass: with three servers of which two stay dead and quiet it
      goes 3, 1, -1, and the loop never ends. */
  lemma NumAliveSkipsZero(a: Server, b: Server, c: Server, now: int, later: int, st: Settings)
    requires a.alive && !b.alive && !c.alive && !st.keepAlive
    ensures var first := Pass(0, [a, b, c], [None, None, None], now, st);
      3 - first.dead == 1 &&
      1 - Pass(0, first.after, [None, None, None], later, st).dead == -1
  {
    PassDeadCount(1, [b, c], [None, None], now, st);
    assert [a, b, c][1..] == [b, c];
    var first := Pass(0, [a, b, c], [None, None, None], now, st);
    assert first.after == [a, b, c];
    PassDeadCount(1, [b, c], [None, None], later, st);
  }

  /** The main loop's state: the servers, the `keep_alive` and
      `command_prefix` settings, `num_alive`, and the calls made to the
      protocol handlers and the plugins so far. */
  class Bot {
    var servers: seq<Server>
    const settings: Settings
    var numAlive: int
    var events: seq<Event>

    /** `start()` before the loop: `num_alive` is the number of servers. */
    constructor (servers: seq<Server>, settings: Settings)
      ensures this.servers == servers && this.settings == settings
      ensures numAlive == |servers| && events == []
    {
      this.servers := servers;
      this.settings := settings;
      numAlive := |servers|;
      events := [];
    }

    /** One pass of the main loop at time `now`, `data[i]` being what the
        `i`-th connection's `recv` returned. It answers whether the loop
        ends, or what the pass raised. */
    method MainPass(data: seq<Option<string>>, now: int) returns (r: Result<bool, ControllerError>)
      requires |data| == |servers|
      modifies this
      ensures var p := Pass(0, old(servers), data, now, settings);
        events == old(events) + p.events && numAlive == old(numAlive) - p.dead && servers == p.after &&
        r == (if p.error.Some? then Err(p.error.value) else Ok(numAlive == 0))
    {
      ghost var start := servers;
      ghost var whole := Pass(0, start, data, now, settings);
      ghost var done := PassResult([], [], 0, None);
      ghost var events0, numAlive0 := events, numAlive;
      var i := 0;
      while i < |servers|
        invariant i <= |start| && Progress(start, data, now, events0, numAlive0, whole, done, i)
      {
        var error;
        error, done := Advance(i, data, now, start, events0, numAlive0, whole, done);
        if error.Some? {
          return Err(error.value);
        }
        i := i + 1;
      }
      assert start[i..] == [];
      return Ok(numAlive == 0);
    }

    /** How far a pass over `start` has come: the first `i` servers are
        done, with the events, new state and dead count of `done`, and the
        pass as a whole is `whole`. */
    ghost predicate Progress(start: seq<Server>, data: seq<Option<string>>, now: int, events0: seq<Event>, numAlive0: int,
                             whole: PassResult, done: PassResult, i: nat)
      reads this
    {
      |data| == |start| && i <= |start| && done.error.None? && |done.after| == i &&
      whole == Join(done, Pass(i, start[i..], data[i..], now, settings)) &&
      events == events0 + done.events && numAlive == numAlive0 - done.dead &&
      servers == done.after + start[i..]
    }

    /** One iteration of the pass: server `i` is visited. */
    method Advance(i: nat, data: seq<Option<string>>, now: int, ghost start: seq<Server>, ghost events0: seq<Event>, ghost numAlive0: int,
                   ghost whole: PassResult, ghost done: PassResult)
      returns (error: Option<ControllerError>, ghost done': PassResult)
      requires i < |start| && Progress(start, data, now, events0, numAlive0, whole, done, i)
      modifies this
      ensures error.None? ==> Progress(start, data, now, events0, numAlive0, whole, done', i + 1)
      ensures error.Some? ==>
        error == whole.error && events == events0 + whole.events && numAlive == numAlive0 - whole.dead && servers == whole.after
    {
      ConcatAt(done.after, start[i..]);
      assert start[i..][0] == start[i];
      ghost var step := Step(i, start[i], data[i], now, settings);
      PassAdvance(start, data, now, settings, whole, done, i);
      error := Visit(i, data[i], now);
      done' := done;
      if error.None? {
        ReplaceFirst(done.after, start[i..], step.after);
        assert start[i..][1..] == start[i + 1..];
        done' := Join(done, step);
      }
    }

    /** The loop body for the `i`-th server: its line is received and
        dispatched, and then its connection is looked after. */
    method Visit(i: nat, data: Option<string>, now: int) returns (error: Option<ControllerError>)
      requires i < |servers|
      modifies this
      ensures var step := Step(i, old(servers[i]), data, now, settings);
        error == step.error &&
        (error.None? ==> events == old(events) + step.events && numAlive == old(numAlive) - step.dead &&
                         servers == old(servers)[i := step.after[0]]) &&
        (error.Some? ==> events == old(events) && numAlive == old(numAlive) && servers == old(servers))
    {
      var server := servers[i];
      var received := Receive(i, data, server.Prefix(), settings.parse, settings.commandPrefix);
      if received.Err? {
        return Some(received.error);
      }
      events := events + received.value;
      if !server.alive {
        if settings.keepAlive {
          if MayReconnect(server.lastCheck, now) {
            server := server.(lastCheck := Some(now), connects := server.connects + 1);
          }
        } else {
          numAlive := numAlive - 1;
        }
      }
      servers := servers[i := server];
      return None;
    }
  }

  /** `get_servers()`: a server for every server section of the settings,
      in order, each holding that section's options and not yet connected. */
  method GetServers(p: ConfigParser) returns (servers: seq<Server>)
    ensures |servers| == |ServerConfigs(p, p.sections)|
    ensures forall i :: 0 <= i < |servers| ==> servers[i] == Server(ServerConfigs(p, p.sections)[i], false, None, 0)
  {
    var configs := ServerSections.GetServers(p);
    servers := [];
    for i := 0 to |configs|
      invariant |servers| == i
      invariant forall j :: 0 <= j < i ==> servers[j] == Server(configs[j], false, None, 0)
    {
      servers := servers + [Server(configs[i], false, None, 0)];
    }
  }
}
