/**
 * The gameserver plugin: `gameserver` shows the status of a game server
 * given by preset name or by game and address, `gameservers` lists the
 * approved presets, and `addgameserver` lets users submit a preset, which
 * is approved at once when a moderator submits it.
 *
 * Querying a server is the parameter `query`, which gives what the query
 * of the server's info came to; the plugin's database table of presets is
 * the field `servers` of the plugin.
 */
module GameserverCommands {
  import opened Wrappers
  import opened Text
  import opened IrcFormat
  import opened CommandEvents
  import opened Submissions
  import opened GamePackets
  import opened SourceQuery

  /** The aliases `SUPPORTED_GAMES` lists for its one game type, `source`. */
  const SourceAliases: seq<string> := ["source", "css", "dods"]

  /** The game type an alias stands for. */
  function GameOf(alias: string): (r: Option<string>)
    ensures r.Some? <==> alias in SourceAliases
    ensures r.Some? ==> r.value == "source" && r.value in SourceAliases
  {
    if alias in SourceAliases then Some("source") else None
  }

  /** `ip:port` split at its first `:`, the port read by `int()`; `None`
      where there is no `:` or the port is no integer. */
  function SplitAddress(s: string): (r: Option<(string, int)>)
    ensures ':' !in s ==> r.None?
    ensures r.Some? ==> var ip := r.value.0;
      ':' !in ip && |ip| < |s| && s[..|ip|] == ip && s[|ip|] == ':' && ParseInt(s[|ip| + 1..]) == Some(r.value.1)
  {
    var parts := SplitOnce(s, ':');
    if |parts| == 1 then None
    else
      assert s[..|parts[0]|] == parts[0] && s[|parts[0]| + 1..] == parts[1];
      match ParseInt(parts[1])
      case None => None
      case Some(port) => Some((parts[0], port))
  }

  /** An address written as `ip:port` reads back as that ip and port. */
  lemma AddressRoundTrip(ip: string, port: int)
    requires ':' !in ip
    ensures SplitAddress(ip + ":" + IntToString(port)) == Some((ip, port))
  {
    SplitOnceOf(ip, ':', IntToString(port));
    IntToStringRoundTrip(port);
  }

  /** A row of the plugin's server table. */
  datatype ServerRow = ServerRow(name: string, game: string, ip: string, port: int, approved: bool)

  function Names(servers: seq<ServerRow>): (r: seq<string>)
    ensures |r| == |servers|
  {
    if servers == [] then [] else Names(servers[..|servers| - 1]) + [servers[|servers| - 1].name]
  }

  lemma {:induction false} NamesAt(servers: seq<ServerRow>, i: int)
    requires 0 <= i < |servers|
    ensures Names(servers)[i] == servers[i].name
    decreases |servers|
  {
    if i < |servers| - 1 {
      NamesAt(servers[..|servers| - 1], i);
    }
  }

  /** The names of the approved presets, in table order. */
  function ApprovedNames(servers: seq<ServerRow>): (r: seq<string>)
    ensures |r| <= |servers|
  {
    if servers == [] then []
    else
      var last := servers[|servers| - 1];
      ApprovedNames(servers[..|servers| - 1]) + (if last.approved then [last.name] else [])
  }

  /** Whether a server of that name exists, approved or not. */
  predicate NameTaken(servers: seq<ServerRow>, name: string) {
    exists i :: 0 <= i < |servers| && servers[i].name == name
  }

  /** The first approved preset with that name. */
  function Preset(servers: seq<ServerRow>, name: string): (r: Option<ServerRow>)
    ensures r.Some? ==> r.value in servers && r.value.name == name && r.value.approved
    ensures r.None? <==> forall i :: 0 <= i < |servers| ==> !(servers[i].name == name && servers[i].approved)
  {
    if servers == [] then None
    else if servers[0].name == name && servers[0].approved then Some(servers[0])
    else
      var r := Preset(servers[1..], name);
      assert forall i :: 1 <= i < |servers| ==> servers[i] == servers[1..][i - 1];
      r
  }

  /** The server to query. */
  datatype Target = Target(game: string, ip: string, port: int)

  /** The game must be one the plugin supports. */
  function Supported(game: string, ip: string, port: int): (r: Result<Target, string>)
    ensures r.Ok? <==> game in SourceAliases
    ensures r.Ok? ==> r.value == Target(game, ip, port)
    ensures r.Err? ==> r.error == "not_supported"
  {
    if GameOf(game).None? then Err("not_supported") else Ok(Target(game, ip, port))
  }

  /** Where `gameserver` looks: one argument names a preset, two are a
      game and an address; the error is the language key to report. */
  function Locate(servers: seq<ServerRow>, args: string): (r: Result<Target, string>)
    ensures r.Ok? ==> r.value.game in SourceAliases
    ensures r.Err? ==> r.error in {"server_does_not_exists", "invalid_port", "gameserver_syntax", "not_supported"}
  {
    var argv := SplitWhitespace(args);
    if |argv| == 1 then
      match Preset(servers, Remove(argv[0]))
      case None => Err("server_does_not_exists")
      case Some(row) => Supported(row.game, row.ip, row.port)
    else if |argv| == 2 then
      match SplitAddress(argv[1])
      case None => Err("invalid_port")
      case Some(addr) => Supported(argv[0], addr.0, addr.1)
    else Err("gameserver_syntax")
  }

  /** What querying the server for its info came to: the info dictionary,
      an address that does not resolve (`socket.gaierror`), a
      `GameserverException` with its message, or any other failure. The
      Source protocol never yields `Refused`: its one `raise
      GameserverException` names a class `hl.py` does not import, so it
      raises `NameError`, a failure that ends as `QueryFailed`. */
  datatype Answer = Answered(info: map<InfoKey, Value>) | UnknownHost | Refused(message: string) | QueryFailed

  /** The characters of a byte string. */
  function Chars(b: seq<Byte>): (r: string)
    ensures |r| == |b|
    ensures forall i :: 0 <= i < |b| ==> r[i] as int == b[i]
  {
    if b == [] then [] else [b[0] as char] + Chars(b[1..])
  }

  /** `str(v)` of a value read from an answer. */
  function ValueText(v: Value): string {
    match v
    case Bytes(b) => Chars(b)
    case Number(n) => IntToString(n)
    case Digits(t) => t
  }

  /** `SourceTemplate.get_vars`; `None` where a key it reads is missing. */
  function GetVars(t: Target, info: map<InfoKey, Value>): (r: Option<map<string, string>>)
    ensures r.Some? <==> ServerName in info && MapName in info && NumPlayers in info && MaxPlayers in info
  {
    if ServerName in info && MapName in info && NumPlayers in info && MaxPlayers in info then
      Some(map[
        "ip" := t.ip,
        "port" := IntToString(t.port),
        "name" := ValueText(info[ServerName]),
        "map" := ValueText(info[MapName]),
        "num_players" := ValueText(info[NumPlayers]),
        "max_players" := ValueText(info[MaxPlayers])])
    else None
  }

  /** The template gets exactly the six variables. */
  lemma GetVarsKeys(t: Target, info: map<InfoKey, Value>)
    requires GetVars(t, info).Some?
    ensures GetVars(t, info).value.Keys == {"ip", "port", "name", "map", "num_players", "max_players"}
  {
  }

  /** Among them the address it queried, the port as `str()` writes it,
      which `IntToStringRoundTrip` reads back. */
  lemma GetVarsAddress(t: Target, info: map<InfoKey, Value>)
    requires GetVars(t, info).Some?
    ensures var vars := GetVars(t, info).value;
      "ip" in vars && vars["ip"] == t.ip && "port" in vars && vars["port"] == IntToString(t.port)
  {
  }

  /** And the server's name and map as text. */
  lemma GetVarsServer(t: Target, info: map<InfoKey, Value>)
    requires GetVars(t, info).Some?
    ensures var vars := GetVars(t, info).value;
      "name" in vars && vars["name"] == ValueText(info[ServerName]) &&
      "map" in vars && vars["map"] == ValueText(info[MapName])
  {
  }

  /** Every info answer the query can read gives all the template's
      variables. */
  lemma ReadInfoHasVars(t: Target, data: seq<Byte>, k: int)
    requires FieldsFrom(data, k, InfoLayout, map[]).Ok?
    ensures GetVars(t, FieldsFrom(data, k, InfoLayout, map[]).value).Some?
  {
    InfoKeys(data, k);
  }

  /** What `gameserver` sends once it knows the server: a notice for an
      address that does not resolve or a `GameserverException`, any other
      failure (an unknown answer type included, see `Answer`) as
      `something_went_wrong` in private, and otherwise the two template
      lines to the channel. */
  function AnswerReplies(t: Target, answer: Answer, lang: Lang): (r: seq<Sent>)
    ensures 1 <= |r| <= 2
    ensures |r| == 2 <==> answer.Answered? && GetVars(t, answer.info).Some?
    ensures |r| == 2 ==> r[0].ChannelPm? && r[1].ChannelPm?
    ensures |r| == 1 ==> r[0].UserNotice? || r[0] == UserPm(Entry(lang, "something_went_wrong"))
  {
    match answer
    case UnknownHost => [UserNotice(Entry(lang, "could_not_connect"))]
    case Refused(message) => [UserNotice(message)]
    case QueryFailed => [UserPm(Entry(lang, "something_went_wrong"))]
    case Answered(info) =>
      match GetVars(t, info)
      case None => [UserPm(Entry(lang, "something_went_wrong"))]
      case Some(vars) => [ChannelPm(lang("gameserver_template1", vars)), ChannelPm(lang("gameserver_template2", vars))]
  }

  /** What `gameserver` sends: an error in locating the server as a
      notice, and otherwise what the query's answer calls for. */
  function StatsReplies(servers: seq<ServerRow>, args: string, query: Target -> Answer, lang: Lang): (r: seq<Sent>)
    ensures Locate(servers, args).Err? ==> r == [UserNotice(Entry(lang, Locate(servers, args).error))]
    ensures Locate(servers, args).Ok? ==> r == AnswerReplies(Locate(servers, args).value, query(Locate(servers, args).value), lang)
  {
    match Locate(servers, args)
    case Err(key) => [UserNotice(Entry(lang, key))]
    case Ok(t) => AnswerReplies(t, query(t), lang)
  }

  /** What `addgameserver` does with its arguments: the first error found,
      or the preset to add. */
  function AddOutcome(servers: seq<ServerRow>, args: string, moderator: bool): (r: Result<ServerRow, string>)
    ensures r.Ok? ==> ValidName(r.value.name) && NoSpace(r.value.name) && !NameTaken(servers, r.value.name)
    ensures r.Ok? ==> r.value.game == "source" && r.value.approved == moderator
    ensures r.Err? ==> r.error in {"addgameserver_syntax", "not_supported", "invalid_port", "already_exists", "invalid_name"}
  {
    var argv := SplitWhitespace(Remove(args));
    if |argv| != 3 then Err("addgameserver_syntax")
    else
      match GameOf(argv[1])
      case None => Err("not_supported")
      case Some(game) =>
        match SplitAddress(argv[2])
        case None => Err("invalid_port")
        case Some(addr) =>
          var name := argv[0];
          if NameTaken(servers, name) then Err("already_exists")
          else if !ValidName(name) then Err("invalid_name")
          else Ok(ServerRow(name, game, addr.0, addr.1, moderator))
  }

  /** The first approved preset of a name nobody else uses is the one
      added last. */
  lemma {:induction false} PresetAdded(servers: seq<ServerRow>, row: ServerRow)
    requires !NameTaken(servers, row.name)
    ensures Preset(servers + [row], row.name) == if row.approved then Some(row) else None
    decreases |servers|
  {
    if servers == [] {
    } else {
      assert (servers + [row])[1..] == servers[1..] + [row];
      assert servers[0].name != row.name;
      assert !NameTaken(servers[1..], row.name) by {
        forall i | 0 <= i < |servers[1..]| ensures servers[1..][i].name != row.name {
          assert servers[1..][i] == servers[i + 1];
        }
      }
      PresetAdded(servers[1..], row);
    }
  }

  /** A preset a moderator adds can be queried by its name at once; one a
      user adds is not found until it is approved. */
  lemma AddedPresetFound(servers: seq<ServerRow>, args: string, moderator: bool)
    requires AddOutcome(servers, args, moderator).Ok?
    ensures var row := AddOutcome(servers, args, moderator).value;
      Locate(servers + [row], row.name) ==
        if moderator then Ok(Target(row.game, row.ip, row.port)) else Err("server_does_not_exists")
  {
    var row := AddOutcome(servers, args, moderator).value;
    SplitWhitespaceWord(row.name);
    NameIsPlain(row.name);
    PresetAdded(servers, row);
  }

  lemma AddedStaysDistinct(servers: seq<ServerRow>, row: ServerRow)
    requires Distinct(Names(servers)) && !NameTaken(servers, row.name)
    ensures Distinct(Names(servers + [row]))
  {
    var all := servers + [row];
    assert all[..|servers|] == servers;
    forall i | 0 <= i < |servers| ensures Names(servers)[i] != row.name {
      NamesAt(servers, i);
    }
    DistinctAppend(Names(servers), row.name);
  }

  class GameserverPlugin {
    const lang: Lang
    /** The preset table. */
    var servers: seq<ServerRow>

    constructor (lang: Lang, servers: seq<ServerRow>)
      ensures this.lang == lang && this.servers == servers
    {
      this.lang := lang;
      this.servers := servers;
    }

    /** The plugin on a freshly created, empty table. */
    constructor Fresh(lang: Lang)
      ensures this.lang == lang && this.servers == [] && Valid()
    {
      this.lang := lang;
      this.servers := [];
    }

    /** The table's names are unique. */
    ghost predicate Valid()
      reads this
    {
      Distinct(Names(servers))
    }

    /** `get_gameserver_stats`, the `gameserver` command. */
    method GameserverStats(event: Event, query: Target -> Answer)
      modifies event
      ensures event.sent == old(event.sent) + StatsReplies(servers, event.args, query, lang)
    {
      var target := Locate(servers, event.args);
      if target.Err? {
        event.Send(UserNotice(Entry(lang, target.error)));
        return;
      }
      Report(event, target.value, query(target.value));
    }

    /** Reports the answer of the server's query. */
    method Report(event: Event, t: Target, answer: Answer)
      modifies event
      ensures event.sent == old(event.sent) + AnswerReplies(t, answer, lang)
    {
      match answer
      case UnknownHost =>
        event.Send(UserNotice(Entry(lang, "could_not_connect")));
      case Refused(message) =>
        event.Send(UserNotice(message));
      case QueryFailed =>
        event.Send(UserPm(Entry(lang, "something_went_wrong")));
      case Answered(info) =>
        var vars := GetVars(t, info);
        if vars.None? {
          event.Send(UserPm(Entry(lang, "something_went_wrong")));
        } else {
          event.Send(ChannelPm(lang("gameserver_template1", vars.value)));
          event.Send(ChannelPm(lang("gameserver_template2", vars.value)));
        }
    }

    /** `gameservers`: the approved presets in messages of about 255
        characters. */
    method ListPresets(event: Event)
      modifies event
      ensures event.sent == old(event.sent) + [ChannelPm(Entry(lang, "available_presets"))] +
        ChannelPms(Chunks(ApprovedNames(servers), 255, []))
    {
      event.Send(ChannelPm(Entry(lang, "available_presets")));
      event.PmChunks(ApprovedNames(servers), 255);
    }

    /** `addgameserver NAME GAME IP:PORT`. */
    method AddServer(event: Event)
      requires Valid()
      modifies this, event
      ensures Valid()
      ensures match AddOutcome(old(servers), event.args, event.Allowed("moderator"))
        case Ok(row) =>
          servers == old(servers) + [row] &&
          event.sent == old(event.sent) + [UserNotice(Entry(lang, if row.approved then "add_success" else "needs_review"))]
        case Err(key) =>
          servers == old(servers) && event.sent == old(event.sent) + [ChannelPm(Entry(lang, key))]
    {
      var outcome := AddOutcome(servers, event.args, event.Allowed("moderator"));
      match outcome
      case Err(key) =>
        event.Send(ChannelPm(Entry(lang, key)));
      case Ok(row) =>
        AddedStaysDistinct(servers, row);
        servers := servers + [row];
        event.Send(UserNotice(Entry(lang, if event.Allowed("moderator") then "add_success" else "needs_review")));
    }
  }
}
