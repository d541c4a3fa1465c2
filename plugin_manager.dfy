/**
 * The plugin registry: loaded plugins by directory name, and six indices
 * of handler callbacks (commands, user events, server events, message
 * regular expressions, raw regular expressions and timers) that incoming
 * messages and the clock are dispatched over.
 *
 * Importing a plugin's module is file-system work; what the import gives
 * (the plugin class, or the error it raised) is a parameter. A callback is
 * a bound method: the plugin's directory name with the member it is bound
 * to. Regular-expression matching is an uninterpreted function parameter.
 */
module PluginManagement {
  import opened Wrappers
  import opened Text
  import opened IrcMessage
  import opened PluginDecorators

  const TypeRegexpRaw: int := 4
  const TypeRegexpMessage: int := 5
  const TypeTimer: int := 6

  /** The state a timer decorator attaches to a function: its period in
      seconds and the time of its last call. */
  class TimerState {
    const seconds: int
    var lastCall: Option<int>

    constructor (seconds: int)
      ensures this.seconds == seconds && lastCall == None
    {
      this.seconds := seconds;
      lastCall := None;
    }
  }

  /** An entry of `dir(plugin)`: its name, the attributes of its value, and
      the timer object attached to it, if any. */
  datatype Member = Member(name: string, attrs: map<string, PyValue>, timer: Option<TimerState>)

  /** A bound method: the directory name of the plugin it belongs to, and
      the member. */
  datatype Callback = Callback(owner: string, member: Member)

  /** What importing a plugin's module found: the `Plugin` subclass's
      `PLUGIN_INFO` (if it defines one), the members `dir` lists for an
      instance, in `dir`'s order, and whether it defines `initialize` and
      `destroy`. */
  datatype PluginClass = PluginClass(info: Option<map<string, string>>, members: seq<Member>,
                                     hasInitialize: bool, hasDestroy: bool)

  datatype Plugin = Plugin(dirname: string, info: map<string, string>, members: seq<Member>,
                           hasInitialize: bool, hasDestroy: bool)

  datatype PluginError = PluginException(message: string)

  /** `Plugin.__init__`: without `PLUGIN_INFO` it raises; otherwise the
      plugin's directory and directory name are recorded in its info, and
      a missing version becomes the empty string. */
  function NewPlugin(cls: PluginClass, pluginDir: string, dirname: string): (r: Result<Plugin, PluginError>)
    ensures r.Err? <==> cls.info.None?
    ensures r.Err? ==> r.error == PluginException("Plugin " + dirname + " has no PLUGIN_INFO defined")
    ensures r.Ok? ==>
      var info := r.value.info;
      r.value.dirname == dirname && r.value.members == cls.members &&
      info.Keys == cls.info.value.Keys + {"plugin_dir", "dirname", "version"} &&
      info["plugin_dir"] == pluginDir && info["dirname"] == dirname &&
      info["version"] == (if "version" in cls.info.value then cls.info.value["version"] else "") &&
      forall k :: k in cls.info.value && k !in {"plugin_dir", "dirname", "version"} ==> info[k] == cls.info.value[k]
  {
    match cls.info
    case None => Err(PluginException("Plugin " + dirname + " has no PLUGIN_INFO defined"))
    case Some(info) =>
      var withDirs := info["plugin_dir" := pluginDir]["dirname" := dirname];
      var full := if "version" in withDirs then withDirs else withDirs["version" := ""];
      Ok(Plugin(dirname, full, cls.members, cls.hasInitialize, cls.hasDestroy))
  }

  /** A public member carrying the handler type `t`. */
  predicate IsHandler(m: Member, t: int) {
    !StartsWith(m.name, "_") && HandlerTypeAttr in m.attrs && m.attrs[HandlerTypeAttr] == PyInt(t)
  }

  /** The members of `members` that are handlers of type `t`, bound to `owner`, in order. */
  function OfType(members: seq<Member>, owner: string, t: int): seq<Callback> {
    if members == [] then []
    else (if IsHandler(members[0], t) then [Callback(owner, members[0])] else []) + OfType(members[1..], owner, t)
  }

  /** `get_functions_for_type(t)` */
  function Functions(p: Plugin, t: int): seq<Callback> {
    OfType(p.members, p.dirname, t)
  }

  /** The handlers of a type are exactly the plugin's public members tagged
      with that type, each bound to the plugin. */
  lemma {:induction false} OfTypeExact(members: seq<Member>, owner: string, t: int, c: Callback)
    ensures c in OfType(members, owner, t) <==> c.owner == owner && c.member in members && IsHandler(c.member, t)
    decreases |members|
  {
    if members != [] {
      OfTypeExact(members[1..], owner, t, c);
      assert members == [members[0]] + members[1..];
    }
  }

  /** A decorated public method is found by the manager under its type. */
  lemma DecoratedIsFound(name: string, f: FunctionObject, command: PyValue, owner: string,
                         before: seq<Member>, after: seq<Member>)
    requires !StartsWith(name, "_")
    ensures var m := Member(name, Command(command, f).attrs, None);
      Callback(owner, m) in OfType(before + [m] + after, owner, TypeCommand)
  {
    var m := Member(name, Command(command, f).attrs, None);
    OfTypeExact(before + [m] + after, owner, TypeCommand, Callback(owner, m));
  }

  /** All six indices, in the source's declaration order. */
  datatype Indices = Indices(commands: seq<Callback>, userEvents: seq<Callback>, serverEvents: seq<Callback>,
                             messageRegexps: seq<Callback>, rawRegexps: seq<Callback>, timers: seq<Callback>)

  /** The index of handler type `t`. */
  function At(ix: Indices, t: int): seq<Callback> {
    if t == TypeCommand then ix.commands
    else if t == TypeUserEvent then ix.userEvents
    else if t == TypeServerEvent then ix.serverEvents
    else if t == TypeRegexpRaw then ix.rawRegexps
    else if t == TypeRegexpMessage then ix.messageRegexps
    else if t == TypeTimer then ix.timers
    else []
  }

  /** `xs.remove(x)`: the first occurrence of `x` is removed. */
  function RemoveFirst(xs: seq<Callback>, x: Callback): (r: seq<Callback>)
    requires x in xs
    ensures multiset(r) == multiset(xs) - multiset{x}
  {
    if xs[0] == x then
      assert xs == [x] + xs[1..];
      xs[1..]
    else
      assert xs == [xs[0]] + xs[1..];
      [xs[0]] + RemoveFirst(xs[1..], x)
  }

  /** One `remove` per element of `ys`, in order. */
  function RemoveAll(xs: seq<Callback>, ys: seq<Callback>): seq<Callback>
    requires multiset(ys) <= multiset(xs)
    decreases |ys|
  {
    if ys == [] then xs
    else
      assert ys == [ys[0]] + ys[1..];
      assert multiset(ys) == multiset{ys[0]} + multiset(ys[1..]);
      assert ys[0] in multiset(xs);
      assert ys[0] in xs;
      RemoveAll(RemoveFirst(xs, ys[0]), ys[1..])
  }

  /** Removing `ys` one by one takes exactly their occurrences away. */
  lemma {:induction false} RemoveAllCount(xs: seq<Callback>, ys: seq<Callback>)
    requires multiset(ys) <= multiset(xs)
    ensures multiset(RemoveAll(xs, ys)) == multiset(xs) - multiset(ys)
    decreases |ys|
  {
    if ys != [] {
      assert ys == [ys[0]] + ys[1..];
      assert multiset(ys) == multiset{ys[0]} + multiset(ys[1..]);
      assert ys[0] in multiset(xs);
      RemoveAllCount(RemoveFirst(xs, ys[0]), ys[1..]);
    }
  }

  lemma RemoveFirstAppended(xs: seq<Callback>, ys: seq<Callback>)
    requires ys != [] && ys[0] !in xs
    ensures ys[0] in xs + ys && RemoveFirst(xs + ys, ys[0]) == xs + ys[1..]
  {
    if xs != [] {
      assert (xs + ys)[1..] == xs[1..] + ys;
      RemoveFirstAppended(xs[1..], ys);
    }
  }

  /** Removing what was appended gives back what was there before, when
      none of it was there already. */
  lemma {:induction false} RemoveAllAppended(xs: seq<Callback>, ys: seq<Callback>)
    requires forall y :: y in ys ==> y !in xs
    ensures multiset(ys) <= multiset(xs + ys) && RemoveAll(xs + ys, ys) == xs
    decreases |ys|
  {
    assert multiset(xs + ys) == multiset(xs) + multiset(ys);
    if ys == [] {
      assert xs + ys == xs;
    } else {
      RemoveFirstAppended(xs, ys);
      RemoveAllAppended(xs, ys[1..]);
    }
  }

  /** A plugin loaded while no callback of its directory was indexed leaves
      no callback behind when it is unloaded. */
  lemma LoadThenUnload(index: seq<Callback>, p: Plugin, t: int)
    requires forall c :: c in index ==> c.owner != p.dirname
    ensures multiset(Functions(p, t)) <= multiset(index + Functions(p, t))
    ensures RemoveAll(index + Functions(p, t), Functions(p, t)) == index
  {
    forall y | y in Functions(p, t) ensures y !in index {
      OfTypeExact(p.members, p.dirname, t, y);
    }
    RemoveAllAppended(index, Functions(p, t));
  }

  /** Hooks called on plugins. */
  datatype Hook = Initialize(dirname: string) | Destroy(dirname: string)

  /** Why unloading raised: a plugin scanned for its display name has no
      `name` in its info (`KeyError`). */
  datatype UnloadError = NoDisplayName(dirname: string)

  /** The directory name `unload_plugin` resolves `name` to, scanning the
      plugins in `order` for a matching display name. */
  function ResolveByName(plugins: map<string, Plugin>, order: seq<string>, name: string): (r: Result<Option<string>, UnloadError>)
    requires forall k :: k in order ==> k in plugins
    ensures r.Ok? && r.value.Some? ==>
      r.value.value in order && "name" in plugins[r.value.value].info && plugins[r.value.value].info["name"] == name
    ensures r == Ok(None) ==> forall k :: k in order ==> !("name" in plugins[k].info && plugins[k].info["name"] == name)
  {
    if order == [] then Ok(None)
    else
      var info := plugins[order[0]].info;
      if "name" !in info then Err(NoDisplayName(order[0]))
      else if info["name"] == name then Ok(Some(order[0]))
      else ResolveByName(plugins, order[1..], name)
  }

  /** The first scanned plugin with the display name is the one chosen. */
  lemma {:induction false} ResolveFirst(plugins: map<string, Plugin>, order: seq<string>, name: string, i: nat)
    requires forall k :: k in order ==> k in plugins
    requires i < |order| && "name" in plugins[order[i]].info && plugins[order[i]].info["name"] == name
    requires forall j :: 0 <= j < i ==> "name" in plugins[order[j]].info && plugins[order[j]].info["name"] != name
    ensures ResolveByName(plugins, order, name) == Ok(Some(order[i]))
    decreases i
  {
    if i > 0 {
      ResolveFirst(plugins, order[1..], name, i - 1);
    }
  }

  /** The stages of `check_event`. */
  datatype Outcome = Outcome(calls: seq<Callback>, raised: bool)

  /** Calls every callback of `fs` for which `test` holds, in order;
      `test` gives `None` where evaluating it raises, which ends the pass. */
  function Stage(fs: seq<Callback>, test: Callback -> Option<bool>): Outcome {
    if fs == [] then Outcome([], false)
    else match test(fs[0])
      case None => Outcome([], true)
      case Some(hit) =>
        var rest := Stage(fs[1..], test);
        Outcome((if hit then [fs[0]] else []) + rest.calls, rest.raised)
  }

  /** A pass without errors calls exactly the callbacks whose test holds,
      in index order; a pass raises exactly when some test raises. */
  lemma {:induction false} StageExact(fs: seq<Callback>, test: Callback -> Option<bool>)
    ensures Stage(fs, test).raised <==> exists c :: c in fs && test(c).None?
    ensures !Stage(fs, test).raised ==> Stage(fs, test).calls == Select(fs, test)
    decreases |fs|
  {
    if fs != [] {
      StageExact(fs[1..], test);
      assert fs == [fs[0]] + fs[1..];
    }
  }

  /** The callbacks of `fs` whose test gives true, in order. */
  function Select(fs: seq<Callback>, test: Callback -> Option<bool>): (r: seq<Callback>)
    ensures forall i :: 0 <= i < |r| ==> r[i] in fs && test(r[i]) == Some(true)
    ensures forall i :: 0 <= i < |fs| && test(fs[i]) == Some(true) ==> fs[i] in r
  {
    if fs == [] then []
    else
      assert fs == [fs[0]] + fs[1..];
      (if test(fs[0]) == Some(true) then [fs[0]] else []) + Select(fs[1..], test)
  }

  /** One stage after another; a raise ends the sequence. */
  function Then(a: Outcome, b: Outcome): Outcome {
    if a.raised then a else Outcome(a.calls + b.calls, b.raised)
  }

  /** Python's `x in container` for a string `x`: membership in a list or
      tuple, a substring test on a string, and `TypeError` otherwise. */
  function Contains(container: PyValue, x: string): (r: Option<bool>)
    ensures container.PyList? || container.PyTuple? ==> r == Some(PyStr(x) in container.items)
    ensures (container.PyInt? || container.PyNone?) ==> r == None
  {
    match container
    case PyList(items) => Some(PyStr(x) in items)
    case PyTuple(items) => Some(PyStr(x) in items)
    case PyStr(s) => Some(InText(x, s))
    case _ => None
  }

  /** `x` occurs in `s` as a substring. */
  predicate InText(x: string, s: string)
    decreases |s|
  {
    |x| <= |s| && (s[..|x|] == x || InText(x, s[1..]))
  }

  /** A regular-expression handler's match against `text`; a handler
      without `pattern` or `modifiers` raises. */
  function RegexpTest(c: Callback, text: string, matches: (PyValue, PyValue, string) -> bool): Option<bool> {
    var a := c.member.attrs;
    if "pattern" in a && "modifiers" in a then Some(matches(a["pattern"], a["modifiers"], text)) else None
  }

  /** A command or event handler's test: its list contains `word`. */
  function ListTest(c: Callback, key: string, word: string): Option<bool> {
    if key in c.member.attrs then Contains(c.member.attrs[key], word) else None
  }

  /** A text attribute of the message; `None` where reading it raises. */
  function Attr(m: Message, name: string): Option<string> {
    match GetAttr(m, name)
    case Some(Text(t)) => Some(t)
    case _ => None
  }

  /** The raw stage: every raw regular expression against the raw line. */
  function RawStage(fs: seq<Callback>, m: Message, matches: (PyValue, PyValue, string) -> bool): (r: Outcome)
    ensures forall c :: c in r.calls ==> c in fs
  {
    StageCalls(fs, c => RegexpTest(c, m.raw, matches));
    Stage(fs, c => RegexpTest(c, m.raw, matches))
  }

  /** The command stage, for a message that carries a bot command; the
      command is compared in lower case. */
  function CommandStage(fs: seq<Callback>, m: Message): (r: Outcome)
    ensures forall c :: c in r.calls ==> c in fs
  {
    if fs != [] && HasAttr(m, "bot_command")
    then
      StageCalls(fs, c => ListTest(c, "command", Lower(TextAttr(m, "bot_command"))));
      Stage(fs, c => ListTest(c, "command", Lower(TextAttr(m, "bot_command"))))
    else Outcome([], false)
  }

  /** The server-event and user-event stages: for messages of `kind`, the
      handlers whose event list holds the message's command. */
  function EventStage(fs: seq<Callback>, m: Message, kind: Kind): (r: Outcome)
    ensures forall c :: c in r.calls ==> c in fs
  {
    if fs != [] && m.kind == kind then
      match Attr(m, "command")
      case None => Outcome([], true)
      case Some(cmd) =>
        StageCalls(fs, c => ListTest(c, "event", cmd));
        Stage(fs, c => ListTest(c, "event", cmd))
    else Outcome([], false)
  }

  /** The message stage: only a user's PRIVMSG, matched on its text. */
  function MessageStage(fs: seq<Callback>, m: Message, matches: (PyValue, PyValue, string) -> bool): (r: Outcome)
    ensures forall c :: c in r.calls ==> c in fs
  {
    if fs != [] && m.kind == UserMessage then
      match Attr(m, "command")
      case None => Outcome([], true)
      case Some(cmd) =>
        if cmd != "PRIVMSG" then Outcome([], false)
        else match Attr(m, "message")
          case None => Outcome([], true)
          case Some(text) =>
            StageCalls(fs, c => RegexpTest(c, text, matches));
            Stage(fs, c => RegexpTest(c, text, matches))
    else Outcome([], false)
  }

  /** `check_event`: raw regular expressions, then commands, server
      events, user events, and message regular expressions, each stage
      only for the messages it applies to. */
  function Dispatch(ix: Indices, m: Message, matches: (PyValue, PyValue, string) -> bool): (r: Outcome)
    ensures forall c :: c in r.calls ==>
      c in ix.rawRegexps || c in ix.commands || c in ix.serverEvents || c in ix.userEvents || c in ix.messageRegexps
    ensures RawStage(ix.rawRegexps, m, matches).calls <= r.calls
    ensures RawStage(ix.rawRegexps, m, matches).raised ==> r == RawStage(ix.rawRegexps, m, matches)
  {
    Then(Then(Then(Then(RawStage(ix.rawRegexps, m, matches), CommandStage(ix.commands, m)),
                   EventStage(ix.serverEvents, m, ServerMessage)),
              EventStage(ix.userEvents, m, UserMessage)),
         MessageStage(ix.messageRegexps, m, matches))
  }

  /** Only a user's PRIVMSG reaches the message regular expressions. */
  lemma MessageRegexpsOnlyForPrivmsg(ix: Indices, m: Message, matches: (PyValue, PyValue, string) -> bool, c: Callback)
    requires forall d :: d in ix.messageRegexps ==> IsHandler(d.member, TypeRegexpMessage)
    requires forall d :: d in ix.rawRegexps + ix.commands + ix.serverEvents + ix.userEvents ==> !IsHandler(d.member, TypeRegexpMessage)
    requires c in Dispatch(ix, m, matches).calls && IsHandler(c.member, TypeRegexpMessage)
    ensures m.kind == UserMessage && Attr(m, "command") == Some("PRIVMSG")
  {
    StageCalls(ix.rawRegexps, c => RegexpTest(c, m.raw, matches));
    StageCalls(ix.commands, c => ListTest(c, "command", Lower(TextAttr(m, "bot_command"))));
    if Attr(m, "command").Some? {
      StageCalls(ix.serverEvents, c => ListTest(c, "event", Attr(m, "command").value));
      StageCalls(ix.userEvents, c => ListTest(c, "event", Attr(m, "command").value));
    }
  }

  lemma {:induction false} StageCalls(fs: seq<Callback>, test: Callback -> Option<bool>)
    ensures forall c :: c in Stage(fs, test).calls ==> c in fs
    decreases |fs|
  {
    if fs != [] {
      StageCalls(fs[1..], test);
    }
  }

  /** One timer check: `fired` says whether the callback was called. */
  datatype TimerPass = TimerPass(fired: seq<Callback>, last: map<TimerState, Option<int>>, raised: bool)

  /** A timer that has never run is due; otherwise it is due once its
      period has passed, strictly. */
  predicate Due(last: Option<int>, seconds: int, now: int) {
    last.None? || last.value + seconds < now
  }

  /** Every timer object of `fs` has a last-call time in `last`. */
  predicate TimersKnown(fs: seq<Callback>, last: map<TimerState, Option<int>>) {
    forall i :: 0 <= i < |fs| && fs[i].member.timer.Some? ==> fs[i].member.timer.value in last
  }

  /** `check_timers` at time `now` over the timer objects' last-call times
      `last`; a timer callback without a timer object raises. */
  function Timers(fs: seq<Callback>, last: map<TimerState, Option<int>>, now: int): (r: TimerPass)
    requires TimersKnown(fs, last)
    ensures r.last.Keys == last.Keys
  {
    if fs == [] then TimerPass([], last, false)
    else match fs[0].member.timer
      case None => TimerPass([], last, true)
      case Some(t) =>
        if Due(last[t], t.seconds, now) then
          var rest := Timers(fs[1..], last[t := Some(now)], now);
          TimerPass([fs[0]] + rest.fired, rest.last, rest.raised)
        else
          Timers(fs[1..], last, now)
  }

  /** One timer of the pass: a due timer is recorded as fired and its
      last call moved to `now`; any other is passed over. */
  lemma TimersStep(fs: seq<Callback>, last: map<TimerState, Option<int>>, now: int, fired: seq<Callback>)
    requires fs != [] && TimersKnown(fs, last) && fs[0].member.timer.Some?
    ensures var t := fs[0].member.timer.value;
      TimersKnown(fs[1..], last) && TimersKnown(fs[1..], last[t := Some(now)]) &&
      After(fired, Timers(fs, last, now)) ==
        if Due(last[t], t.seconds, now) then After(fired + [fs[0]], Timers(fs[1..], last[t := Some(now)], now))
        else After(fired, Timers(fs[1..], last, now))
  {
    var t := fs[0].member.timer.value;
    assert forall i :: 0 <= i < |fs[1..]| ==> fs[1..][i] == fs[i + 1];
    if Due(last[t], t.seconds, now) {
      var rest := Timers(fs[1..], last[t := Some(now)], now);
      assert fired + ([fs[0]] + rest.fired) == fired + [fs[0]] + rest.fired;
    }
  }

  /** A timer that fires has its last call set to the current time; a
      timer that is not due is left as it was. */
  lemma TimerRule(c: Callback, t: TimerState, last: map<TimerState, Option<int>>, now: int)
    requires c.member.timer == Some(t) && t in last
    ensures Due(last[t], t.seconds, now) ==> Timers([c], last, now) == TimerPass([c], last[t := Some(now)], false)
    ensures !Due(last[t], t.seconds, now) ==> Timers([c], last, now) == TimerPass([], last, false)
  {
    assert [c][1..] == [];
  }

  /** With distinct timer objects, each timer fires exactly when it is due
      by its own last call. */
  lemma {:induction false} TimersDistinct(fs: seq<Callback>, last: map<TimerState, Option<int>>, now: int, c: Callback)
    requires forall c :: c in fs ==> c.member.timer.Some? && c.member.timer.value in last
    requires forall i, j :: 0 <= i < j < |fs| ==> fs[i].member.timer != fs[j].member.timer
    requires c in fs
    ensures var r := Timers(fs, last, now);
      !r.raised && (c in r.fired <==> Due(last[c.member.timer.value], c.member.timer.value.seconds, now))
    decreases |fs|
  {
    var t := fs[0].member.timer.value;
    if c == fs[0] {
      if |fs| > 1 {
        TimersNoRaise(fs[1..], last[t := Some(now)], now);
        TimersNoRaise(fs[1..], last, now);
        TimersFiredFrom(fs[1..], last[t := Some(now)], now);
        TimersFiredFrom(fs[1..], last, now);
      } else {
        assert fs[1..] == [];
      }
    } else {
      assert c in fs[1..];
      var other := c.member.timer.value;
      assert other != t by {
        var j :| 0 <= j < |fs| && fs[j] == c;
        assert j != 0;
      }
      forall i, j | 0 <= i < j < |fs[1..]| ensures fs[1..][i].member.timer != fs[1..][j].member.timer {
        assert fs[1..][i] == fs[i + 1] && fs[1..][j] == fs[j + 1];
      }
      if Due(last[t], t.seconds, now) {
        TimersDistinct(fs[1..], last[t := Some(now)], now, c);
      } else {
        TimersDistinct(fs[1..], last, now, c);
      }
    }
  }

  lemma {:induction false} TimersNoRaise(fs: seq<Callback>, last: map<TimerState, Option<int>>, now: int)
    requires forall c :: c in fs ==> c.member.timer.Some? && c.member.timer.value in last
    ensures !Timers(fs, last, now).raised
    decreases |fs|
  {
    if fs != [] {
      var t := fs[0].member.timer.value;
      TimersNoRaise(fs[1..], last[t := Some(now)], now);
      TimersNoRaise(fs[1..], last, now);
    }
  }

  lemma {:induction false} TimersFiredFrom(fs: seq<Callback>, last: map<TimerState, Option<int>>, now: int)
    requires forall c :: c in fs && c.member.timer.Some? ==> c.member.timer.value in last
    ensures forall c :: c in Timers(fs, last, now).fired ==> c in fs
    decreases |fs|
  {
    if fs != [] && fs[0].member.timer.Some? {
      var t := fs[0].member.timer.value;
      TimersFiredFrom(fs[1..], last[t := Some(now)], now);
      TimersFiredFrom(fs[1..], last, now);
    }
  }

  /** `get_functions_for_type(t)` on a plugin: its handlers of type `t`,
      bound to it, in `dir` order. */
  method GetFunctionsForType(p: Plugin, t: int) returns (functions: seq<Callback>)
    ensures functions == Functions(p, t)
  {
    functions := [];
    var i := 0;
    while i < |p.members|
      invariant 0 <= i <= |p.members|
      invariant functions + OfType(p.members[i..], p.dirname, t) == Functions(p, t)
    {
      OfTypeStep(functions, p.members, i, p.dirname, t);
      var member := p.members[i];
      if !StartsWith(member.name, "_") {
        if HandlerTypeAttr in member.attrs && member.attrs[HandlerTypeAttr] == PyInt(t) {
          functions := functions + [Callback(p.dirname, member)];
        }
      }
      i := i + 1;
    }
  }

  lemma OfTypeStep(functions: seq<Callback>, members: seq<Member>, i: nat, owner: string, t: int)
    requires i < |members|
    ensures var taken := if IsHandler(members[i], t) then functions + [Callback(owner, members[i])] else functions;
      functions + OfType(members[i..], owner, t) == taken + OfType(members[i + 1..], owner, t)
  {
    assert members[i..][1..] == members[i + 1..];
  }

  /** The indices after `load_plugin` extended each with the plugin's
      handlers of its type. */
  function AddAll(ix: Indices, p: Plugin): Indices {
    Indices(ix.commands + Functions(p, TypeCommand), ix.userEvents + Functions(p, TypeUserEvent),
            ix.serverEvents + Functions(p, TypeServerEvent), ix.messageRegexps + Functions(p, TypeRegexpMessage),
            ix.rawRegexps + Functions(p, TypeRegexpRaw), ix.timers + Functions(p, TypeTimer))
  }

  /** Loading appends the plugin's handlers of each type to that type's index. */
  lemma AddAllAt(ix: Indices, p: Plugin, t: int)
    requires 1 <= t <= 6
    ensures At(AddAll(ix, p), t) == At(ix, t) + Functions(p, t)
  {
  }

  /** Every loaded plugin's handlers are in the index of their type, and
      every index holds only handlers of its type. */
  ghost predicate Covers(plugins: map<string, Plugin>, ix: Indices) {
    (forall k :: k in plugins ==> Holds(ix, plugins[k])) && Typed(ix)
  }

  ghost predicate AllOfType(xs: seq<Callback>, t: int) {
    forall i :: 0 <= i < |xs| ==> IsHandler(xs[i].member, t)
  }

  ghost predicate Typed(ix: Indices) {
    AllOfType(ix.commands, TypeCommand) && AllOfType(ix.userEvents, TypeUserEvent) &&
    AllOfType(ix.serverEvents, TypeServerEvent) && AllOfType(ix.messageRegexps, TypeRegexpMessage) &&
    AllOfType(ix.rawRegexps, TypeRegexpRaw) && AllOfType(ix.timers, TypeTimer)
  }

  /** Each of the plugin's handler lists is contained in its index. */
  ghost predicate Holds(ix: Indices, p: Plugin) {
    multiset(Functions(p, TypeCommand)) <= multiset(ix.commands) &&
    multiset(Functions(p, TypeUserEvent)) <= multiset(ix.userEvents) &&
    multiset(Functions(p, TypeServerEvent)) <= multiset(ix.serverEvents) &&
    multiset(Functions(p, TypeRegexpMessage)) <= multiset(ix.messageRegexps) &&
    multiset(Functions(p, TypeRegexpRaw)) <= multiset(ix.rawRegexps) &&
    multiset(Functions(p, TypeTimer)) <= multiset(ix.timers)
  }

  /** The indices after `unload_plugin` removed the plugin's handlers. */
  function RemoveAllOf(ix: Indices, p: Plugin): Indices
    requires Holds(ix, p)
  {
    Indices(RemoveAll(ix.commands, Functions(p, TypeCommand)),
            RemoveAll(ix.userEvents, Functions(p, TypeUserEvent)),
            RemoveAll(ix.serverEvents, Functions(p, TypeServerEvent)),
            RemoveAll(ix.messageRegexps, Functions(p, TypeRegexpMessage)),
            RemoveAll(ix.rawRegexps, Functions(p, TypeRegexpRaw)),
            RemoveAll(ix.timers, Functions(p, TypeTimer)))
  }

  /** Unloading removes, from each index, one occurrence of each of the
      plugin's handlers of that index's type. */
  lemma RemoveAllOfAt(ix: Indices, p: Plugin, t: int)
    requires Holds(ix, p) && 1 <= t <= 6
    ensures multiset(Functions(p, t)) <= multiset(At(ix, t))
    ensures At(RemoveAllOf(ix, p), t) == RemoveAll(At(ix, t), Functions(p, t))
  {
    var r := RemoveAllOf(ix, p);
    if t == TypeCommand {
      assert At(r, t) == r.commands;
    } else if t == TypeUserEvent {
      assert At(r, t) == r.userEvents;
    } else if t == TypeServerEvent {
      assert At(r, t) == r.serverEvents;
    } else if t == TypeRegexpRaw {
      assert At(r, t) == r.rawRegexps;
    } else if t == TypeRegexpMessage {
      assert At(r, t) == r.messageRegexps;
    } else {
      assert At(r, t) == r.timers;
    }
  }

  lemma MultisetGrows(a: seq<Callback>, b: seq<Callback>, c: seq<Callback>)
    requires multiset(a) <= multiset(b)
    ensures multiset(a) <= multiset(b + c)
  {
    assert multiset(b + c) == multiset(b) + multiset(c);
  }

  lemma MultisetTail(b: seq<Callback>, c: seq<Callback>)
    ensures multiset(c) <= multiset(b + c)
  {
    assert multiset(b + c) == multiset(b) + multiset(c);
  }

  lemma HoldsAfterAdd(ix: Indices, q: Plugin, p: Plugin)
    requires Holds(ix, q)
    ensures Holds(AddAll(ix, p), q)
  {
    MultisetGrows(Functions(q, TypeCommand), ix.commands, Functions(p, TypeCommand));
    MultisetGrows(Functions(q, TypeUserEvent), ix.userEvents, Functions(p, TypeUserEvent));
    MultisetGrows(Functions(q, TypeServerEvent), ix.serverEvents, Functions(p, TypeServerEvent));
    MultisetGrows(Functions(q, TypeRegexpMessage), ix.messageRegexps, Functions(p, TypeRegexpMessage));
    MultisetGrows(Functions(q, TypeRegexpRaw), ix.rawRegexps, Functions(p, TypeRegexpRaw));
    MultisetGrows(Functions(q, TypeTimer), ix.timers, Functions(p, TypeTimer));
  }

  lemma HoldsAdded(ix: Indices, p: Plugin)
    ensures Holds(AddAll(ix, p), p)
  {
    MultisetTail(ix.commands, Functions(p, TypeCommand));
    MultisetTail(ix.userEvents, Functions(p, TypeUserEvent));
    MultisetTail(ix.serverEvents, Functions(p, TypeServerEvent));
    MultisetTail(ix.messageRegexps, Functions(p, TypeRegexpMessage));
    MultisetTail(ix.rawRegexps, Functions(p, TypeRegexpRaw));
    MultisetTail(ix.timers, Functions(p, TypeTimer));
  }

  lemma FunctionsTyped(p: Plugin, t: int)
    ensures AllOfType(Functions(p, t), t)
  {
    forall i | 0 <= i < |Functions(p, t)| ensures IsHandler(Functions(p, t)[i].member, t) {
      OfTypeExact(p.members, p.dirname, t, Functions(p, t)[i]);
    }
  }

  lemma TypedAppend(xs: seq<Callback>, p: Plugin, t: int)
    requires AllOfType(xs, t)
    ensures AllOfType(xs + Functions(p, t), t)
  {
    FunctionsTyped(p, t);
    var ys := xs + Functions(p, t);
    forall i | 0 <= i < |ys| ensures IsHandler(ys[i].member, t) {
      if i >= |xs| {
        assert ys[i] == Functions(p, t)[i - |xs|];
      }
    }
  }

  /** Loading keeps every plugin's handlers indexed, the new plugin's
      among them. */
  lemma CoversAfterLoad(plugins: map<string, Plugin>, ix: Indices, p: Plugin)
    requires Covers(plugins, ix)
    ensures Covers(plugins[p.dirname := p], AddAll(ix, p))
  {
    var loaded := plugins[p.dirname := p];
    forall k | k in loaded ensures Holds(AddAll(ix, p), loaded[k]) {
      if k == p.dirname {
        HoldsAdded(ix, p);
      } else {
        HoldsAfterAdd(ix, plugins[k], p);
      }
    }
    TypedAppend(ix.commands, p, TypeCommand);
    TypedAppend(ix.userEvents, p, TypeUserEvent);
    TypedAppend(ix.serverEvents, p, TypeServerEvent);
    TypedAppend(ix.messageRegexps, p, TypeRegexpMessage);
    TypedAppend(ix.rawRegexps, p, TypeRegexpRaw);
    TypedAppend(ix.timers, p, TypeTimer);
  }

  lemma RemoveAllSub(xs: seq<Callback>, ys: seq<Callback>, i: nat)
    requires multiset(ys) <= multiset(xs) && i < |RemoveAll(xs, ys)|
    ensures RemoveAll(xs, ys)[i] in xs
  {
    var r := RemoveAll(xs, ys);
    RemoveAllCount(xs, ys);
    assert r[i] in multiset(r);
  }

  lemma TypedRemove(xs: seq<Callback>, ys: seq<Callback>, t: int)
    requires multiset(ys) <= multiset(xs) && AllOfType(xs, t)
    ensures AllOfType(RemoveAll(xs, ys), t)
  {
    var r := RemoveAll(xs, ys);
    forall i | 0 <= i < |r| ensures IsHandler(r[i].member, t) {
      RemoveAllSub(xs, ys, i);
    }
  }

  /** Removing another plugin's handlers keeps these. */
  lemma KeepOther(xs: seq<Callback>, a: seq<Callback>, b: seq<Callback>)
    requires multiset(a) <= multiset(xs) && multiset(b) <= multiset(xs)
    requires forall c :: c in a ==> c !in b
    ensures multiset(a) <= multiset(RemoveAll(xs, b))
  {
    RemoveAllCount(xs, b);
    forall c | c in multiset(a) ensures multiset(a)[c] <= multiset(RemoveAll(xs, b))[c] {
      assert c !in b;
      assert multiset(b)[c] == 0;
    }
  }

  /** Plugins under different directory names share no handler. */
  lemma OwnersDiffer(q: Plugin, p: Plugin, t: int)
    requires q.dirname != p.dirname
    ensures forall c :: c in Functions(q, t) ==> c !in Functions(p, t)
  {
    forall c | c in Functions(q, t) ensures c !in Functions(p, t) {
      OfTypeExact(q.members, q.dirname, t, c);
      OfTypeExact(p.members, p.dirname, t, c);
    }
  }

  lemma KeepOtherOfType(xs: seq<Callback>, q: Plugin, p: Plugin, t: int)
    requires q.dirname != p.dirname
    requires multiset(Functions(q, t)) <= multiset(xs) && multiset(Functions(p, t)) <= multiset(xs)
    ensures multiset(Functions(q, t)) <= multiset(RemoveAll(xs, Functions(p, t)))
  {
    OwnersDiffer(q, p, t);
    KeepOther(xs, Functions(q, t), Functions(p, t));
  }

  lemma HoldsAfterRemove(ix: Indices, q: Plugin, p: Plugin)
    requires Holds(ix, q) && Holds(ix, p) && q.dirname != p.dirname
    ensures Holds(RemoveAllOf(ix, p), q)
  {
    KeepOtherOfType(ix.commands, q, p, TypeCommand);
    KeepOtherOfType(ix.userEvents, q, p, TypeUserEvent);
    KeepOtherOfType(ix.serverEvents, q, p, TypeServerEvent);
    KeepOtherOfType(ix.messageRegexps, q, p, TypeRegexpMessage);
    KeepOtherOfType(ix.rawRegexps, q, p, TypeRegexpRaw);
    KeepOtherOfType(ix.timers, q, p, TypeTimer);
  }

  /** Unloading one plugin keeps every other plugin's handlers indexed. */
  lemma CoversAfterUnload(plugins: map<string, Plugin>, ix: Indices, k: string)
    requires Covers(plugins, ix) && k in plugins
    requires forall j :: j in plugins ==> plugins[j].dirname == j
    ensures Holds(ix, plugins[k])
    ensures Covers(plugins - {k}, RemoveAllOf(ix, plugins[k]))
  {
    var p := plugins[k];
    var rest := plugins - {k};
    forall j | j in rest ensures Holds(RemoveAllOf(ix, p), rest[j]) {
      HoldsAfterRemove(ix, plugins[j], p);
    }
    TypedRemove(ix.commands, Functions(p, TypeCommand), TypeCommand);
    TypedRemove(ix.userEvents, Functions(p, TypeUserEvent), TypeUserEvent);
    TypedRemove(ix.serverEvents, Functions(p, TypeServerEvent), TypeServerEvent);
    TypedRemove(ix.messageRegexps, Functions(p, TypeRegexpMessage), TypeRegexpMessage);
    TypedRemove(ix.rawRegexps, Functions(p, TypeRegexpRaw), TypeRegexpRaw);
    TypedRemove(ix.timers, Functions(p, TypeTimer), TypeTimer);
  }

  /** `plugins` without `k`, in the same order. */
  function Without(order: seq<string>, k: string): (r: seq<string>)
    ensures forall x :: x in r <==> x in order && x != k
  {
    if order == [] then []
    else (if order[0] == k then [] else [order[0]]) + Without(order[1..], k)
  }

  lemma {:induction false} WithoutDistinct(order: seq<string>, k: string)
    requires Distinct(order)
    ensures Distinct(Without(order, k))
    decreases |order|
  {
    if order != [] {
      assert Distinct(order[1..]) by {
        forall i, j | 0 <= i < j < |order[1..]| ensures order[1..][i] != order[1..][j] {
          assert order[1..][i] == order[i + 1] && order[1..][j] == order[j + 1];
        }
      }
      WithoutDistinct(order[1..], k);
      var rest := Without(order[1..], k);
      var r := Without(order, k);
      if order[0] == k {
        assert r == rest;
      } else {
        assert r == [order[0]] + rest;
        forall i, j | 0 <= i < j < |r| ensures r[i] != r[j] {
          if i == 0 {
            assert r[j] == rest[j - 1];
            assert rest[j - 1] in order[1..];
            assert order[0] !in order[1..];
          } else {
            assert r[i] == rest[i - 1] && r[j] == rest[j - 1];
          }
        }
      }
    }
  }

  /** What loading a plugin from `dir` gives: the import's error, or the
      plugin class instantiated. */
  function Instantiate(loaded: Result<PluginClass, PluginError>, dir: string, name: string): (r: Result<Plugin, PluginError>)
    ensures r.Ok? ==> r.value.dirname == name && "dirname" in r.value.info && r.value.info["dirname"] == name &&
                      "plugin_dir" in r.value.info && r.value.info["plugin_dir"] == dir
  {
    match loaded
    case Err(e) => Err(e)
    case Ok(cls) => NewPlugin(cls, dir, name)
  }

  /** The directory name `unload_plugin` acts on: the name itself when it
      is a loaded directory, else the first plugin with that display name. */
  function Resolve(plugins: map<string, Plugin>, order: seq<string>, name: string): Result<Option<string>, UnloadError>
    requires forall k :: k in order ==> k in plugins
  {
    if name in plugins then Ok(Some(name)) else ResolveByName(plugins, order, name)
  }

  /** The registry's invariant on its values: `order` lists each loaded
      directory once, each plugin is stored under its own directory name,
      and the indices cover the loaded plugins. */
  ghost predicate Consistent(plugins: map<string, Plugin>, order: seq<string>, ix: Indices) {
    Distinct(order) &&
    (forall k :: k in plugins <==> k in order) &&
    (forall k :: k in plugins ==> plugins[k].dirname == k && "dirname" in plugins[k].info &&
                                  plugins[k].info["dirname"] == k && "plugin_dir" in plugins[k].info) &&
    Covers(plugins, ix)
  }

  lemma ConsistentAfterLoad(plugins: map<string, Plugin>, order: seq<string>, ix: Indices, p: Plugin)
    requires Consistent(plugins, order, ix)
    requires "dirname" in p.info && p.info["dirname"] == p.dirname && "plugin_dir" in p.info
    ensures Consistent(plugins[p.dirname := p], if p.dirname in plugins then order else order + [p.dirname], AddAll(ix, p))
  {
    if p.dirname !in plugins {
      DistinctAppend(order, p.dirname);
    }
    KeysAfterLoad(plugins, order, p);
    EntriesAfterLoad(plugins, p);
    CoversAfterLoad(plugins, ix, p);
  }

  lemma KeysAfterLoad(plugins: map<string, Plugin>, order: seq<string>, p: Plugin)
    requires forall k :: k in plugins <==> k in order
    ensures var order' := if p.dirname in plugins then order else order + [p.dirname];
      forall k :: k in plugins[p.dirname := p] <==> k in order'
  {
  }

  lemma EntriesAfterLoad(plugins: map<string, Plugin>, p: Plugin)
    requires forall k :: k in plugins ==> plugins[k].dirname == k && "dirname" in plugins[k].info &&
                                          plugins[k].info["dirname"] == k && "plugin_dir" in plugins[k].info
    requires "dirname" in p.info && p.info["dirname"] == p.dirname && "plugin_dir" in p.info
    ensures var loaded := plugins[p.dirname := p];
      forall k :: k in loaded ==> loaded[k].dirname == k && "dirname" in loaded[k].info &&
                                  loaded[k].info["dirname"] == k && "plugin_dir" in loaded[k].info
  {
  }

  lemma ConsistentAfterUnload(plugins: map<string, Plugin>, order: seq<string>, ix: Indices, k: string)
    requires Consistent(plugins, order, ix) && k in plugins
    ensures Holds(ix, plugins[k])
    ensures Consistent(plugins - {k}, Without(order, k), RemoveAllOf(ix, plugins[k]))
  {
    CoversAfterUnload(plugins, ix, k);
    WithoutDistinct(order, k);
  }

  class PluginManager {
    var plugins: map<string, Plugin>
    /** The order in which the plugin dictionary is iterated. */
    var order: seq<string>
    var commands: seq<Callback>
    var userEvents: seq<Callback>
    var serverEvents: seq<Callback>
    var messageRegexps: seq<Callback>
    var rawRegexps: seq<Callback>
    var timers: seq<Callback>
    /** The `initialize` and `destroy` calls made so far. */
    var hooks: seq<Hook>

    function Index(): Indices
      reads this
    {
      Indices(commands, userEvents, serverEvents, messageRegexps, rawRegexps, timers)
    }

    ghost predicate Valid()
      reads this
    {
      Consistent(plugins, order, Index())
    }

    constructor ()
      ensures Valid() && plugins == map[] && order == [] && hooks == []
      ensures Index() == Indices([], [], [], [], [], [])
    {
      plugins := map[];
      order := [];
      commands, userEvents, serverEvents, messageRegexps, rawRegexps, timers := [], [], [], [], [], [];
      hooks := [];
    }

    /** `load_plugin(dir, name)`: a plugin that fails to import or to
        construct raises and changes nothing; otherwise it is initialised,
        its handlers are appended to the indices, and it is stored under its
        directory name. */
    method LoadPlugin(dir: string, name: string, loaded: Result<PluginClass, PluginError>) returns (r: Option<PluginError>)
      requires Valid()
      modifies this
      ensures Valid()
      ensures Instantiate(loaded, dir, name).Err? ==>
        r == Some(Instantiate(loaded, dir, name).error) && plugins == old(plugins) && order == old(order) &&
        Index() == old(Index()) && hooks == old(hooks)
      ensures Instantiate(loaded, dir, name).Ok? ==>
        var p := Instantiate(loaded, dir, name).value;
        r == None && plugins == old(plugins)[name := p] &&
        order == (if name in old(plugins) then old(order) else old(order) + [name]) &&
        Index() == AddAll(old(Index()), p) &&
        hooks == old(hooks) + (if p.hasInitialize then [Initialize(name)] else [])
    {
      var made := Instantiate(loaded, dir, name);
      if made.Err? {
        return Some(made.error);
      }
      var plugin := made.value;
      var called := if plugin.hasInitialize then hooks + [Initialize(name)] else hooks;
      var order' := if name in plugins then order else order + [name];
      ConsistentAfterLoad(plugins, order, Index(), plugin);
      Extend(plugin);
      Commit(plugins[name := plugin], order', Index(), called);
      return None;
    }

    /** The six `extend` calls of `load_plugin`. */
    method Extend(plugin: Plugin)
      modifies this
      ensures Index() == AddAll(old(Index()), plugin)
      ensures plugins == old(plugins) && order == old(order) && hooks == old(hooks)
    {
      var c := GetFunctionsForType(plugin, TypeCommand);
      var u := GetFunctionsForType(plugin, TypeUserEvent);
      var s := GetFunctionsForType(plugin, TypeServerEvent);
      var raw := GetFunctionsForType(plugin, TypeRegexpRaw);
      var msg := GetFunctionsForType(plugin, TypeRegexpMessage);
      var tm := GetFunctionsForType(plugin, TypeTimer);
      Commit(plugins, order, Indices(commands + c, userEvents + u, serverEvents + s,
                                     messageRegexps + msg, rawRegexps + raw, timers + tm), hooks);
    }
  
    /** `unload_plugin(name)`: the name is resolved to a directory name
        (itself when loaded, else the first plugin with that display name);
        an unresolved name returns false and changes nothing; otherwise one
        occurrence of each of the plugin's handlers is removed from each
        index, its `destroy` is called, and it is deleted. */
    method UnloadPlugin(name: string) returns (r: Result<bool, UnloadError>)
      requires Valid()
      modifies this
      ensures Valid()
      ensures var target := Resolve(old(plugins), old(order), name);
        (target.Err? ==> r == Err(target.error)) &&
        (target == Ok(None) ==> r == Ok(false)) &&
        (target.Ok? && target.value.Some? ==> r == Ok(true))
      ensures r != Ok(true) ==>
        plugins == old(plugins) && order == old(order) && Index() == old(Index()) && hooks == old(hooks)
      ensures r == Ok(true) ==>
        var k := Resolve(old(plugins), old(order), name).value.value;
        k in old(plugins) && Holds(old(Index()), old(plugins)[k]) &&
        plugins == old(plugins) - {k} && order == Without(old(order), k) &&
        Index() == RemoveAllOf(old(Index()), old(plugins)[k]) &&
        hooks == old(hooks) + (if old(plugins)[k].hasDestroy then [Destroy(k)] else [])
    {
      var key := name;
      if name !in plugins {
        var found := FindByDisplayName(name);
        if found.Err? {
          return Err(found.error);
        }
        if found.value.None? {
          return Ok(false);
        }
        key := found.value.value;
      }
      Evict(key);
      return Ok(true);
    }

    /** The removal `unload_plugin` makes once the name is resolved. */
    method Evict(key: string)
      requires Valid() && key in plugins
      modifies this
      ensures Valid()
      ensures Holds(old(Index()), old(plugins)[key])
      ensures plugins == old(plugins) - {key} && order == Without(old(order), key)
      ensures Index() == RemoveAllOf(old(Index()), old(plugins)[key])
      ensures hooks == old(hooks) + (if old(plugins)[key].hasDestroy then [Destroy(key)] else [])
    {
      var plugin := plugins[key];
      ConsistentAfterUnload(plugins, order, Index(), key);
      var ix := Shrink(Index(), plugin);
      var rest := WithoutKey(order, key);
      var called := if plugin.hasDestroy then hooks + [Destroy(key)] else hooks;
      Commit(plugins - {key}, rest, ix, called);
    }

    /** Replaces the registry's state at once. */
    method Commit(plugins': map<string, Plugin>, order': seq<string>, ix: Indices, hooks': seq<Hook>)
      modifies this
      ensures plugins == plugins' && order == order' && Index() == ix && hooks == hooks'
    {
      plugins, order, hooks := plugins', order', hooks';
      commands, userEvents, serverEvents := ix.commands, ix.userEvents, ix.serverEvents;
      messageRegexps, rawRegexps, timers := ix.messageRegexps, ix.rawRegexps, ix.timers;
    }

    /** `check_event(proxy)`: the stages of `Dispatch`, in order; the
        handlers themselves are not run, only recorded. */
    method CheckEvent(m: Message, matches: (PyValue, PyValue, string) -> bool) returns (calls: seq<Callback>, raised: bool)
      ensures Outcome(calls, raised) == Dispatch(Index(), m, matches)
    {
      var o := RunRawStage(rawRegexps, m, matches);
      if !o.raised {
        var next := RunCommandStage(commands, m);
        o := Then(o, next);
      }
      if !o.raised {
        var next := RunEventStage(serverEvents, m, ServerMessage);
        o := Then(o, next);
      }
      if !o.raised {
        var next := RunEventStage(userEvents, m, UserMessage);
        o := Then(o, next);
      }
      if !o.raised {
        var next := RunMessageStage(messageRegexps, m, matches);
        o := Then(o, next);
      }
      return o.calls, o.raised;
    }

    /** The timer objects of the timer handlers. */
    ghost function TimerObjects(): set<TimerState>
      reads this
    {
      set i | 0 <= i < |timers| && timers[i].member.timer.Some? :: timers[i].member.timer.value
    }

    /** The last-call time of every timer object. */
    ghost function LastCalls(): map<TimerState, Option<int>>
      reads this, TimerObjects()
    {
      map t | t in TimerObjects() :: t.lastCall
    }

    /** `check_timers()` at time `now`: each due timer has its last call set
        to `now` and is called, in index order; a timer handler without a
        timer object raises. */
    method CheckTimers(now: int) returns (fired: seq<Callback>, raised: bool)
      modifies TimerObjects()
      ensures TimersKnown(timers, old(LastCalls()))
      ensures var pass := Timers(timers, old(LastCalls()), now);
        fired == pass.fired && raised == pass.raised &&
        forall t :: t in TimerObjects() ==> t in pass.last && t.lastCall == pass.last[t]
    {
      ghost var last := LastCalls();
      fired := [];
      var i := 0;
      while i < |timers|
        invariant 0 <= i <= |timers|
        invariant last.Keys == TimerObjects()
        invariant forall t :: t in last ==> t.lastCall == last[t]
        invariant TimersKnown(timers[i..], last)
        invariant Timers(timers, old(LastCalls()), now) == After(fired, Timers(timers[i..], last, now))
      {
        assert timers[i..][1..] == timers[i + 1..];
        var c := timers[i];
        match c.member.timer {
          case None =>
            return fired, true;
          case Some(t) =>
            assert t in TimerObjects();
            TimersStep(timers[i..], last, now, fired);
            if t.lastCall.None? || t.lastCall.value + t.seconds < now {
              t.lastCall := Some(now);
              last := last[t := Some(now)];
              fired := fired + [c];
            }
        }
        i := i + 1;
      }
      assert timers[i..] == [];
      raised := false;
    }

    /** The search of `unload_plugin` for a plugin with display name `name`. */
    method FindByDisplayName(name: string) returns (r: Result<Option<string>, UnloadError>)
      requires Valid()
      ensures r == ResolveByName(plugins, order, name)
      ensures r.Ok? && r.value.Some? ==> r.value.value in plugins
    {
      var i := 0;
      while i < |order|
        invariant 0 <= i <= |order|
        invariant ResolveByName(plugins, order, name) == ResolveByName(plugins, order[i..], name)
      {
        assert order[i..][1..] == order[i + 1..];
        var info := plugins[order[i]].info;
        if "name" !in info {
          return Err(NoDisplayName(order[i]));
        }
        if info["name"] == name {
          return Ok(Some(info["dirname"]));
        }
        i := i + 1;
      }
      assert order[i..] == [];
      return Ok(None);
    }

    /** `reload_plugin(name)`: only a loaded directory name is reloaded, by
        unloading it and loading it again from the directory it was loaded
        from; anything else changes nothing. */
    method ReloadPlugin(name: string, loaded: Result<PluginClass, PluginError>) returns (r: Option<PluginError>)
      requires Valid()
      modifies this
      ensures Valid()
      ensures name !in old(plugins) ==>
        r == None && plugins == old(plugins) && order == old(order) && Index() == old(Index()) && hooks == old(hooks)
      ensures name in old(plugins) ==>
        var p := old(plugins)[name];
        var removed := RemoveAllOf(old(Index()), p);
        var made := Instantiate(loaded, p.info["plugin_dir"], name);
        var unloaded := old(hooks) + (if p.hasDestroy then [Destroy(name)] else []);
        (made.Err? ==> r == Some(made.error) && plugins == old(plugins) - {name} &&
                       order == Without(old(order), name) && Index() == removed && hooks == unloaded) &&
        (made.Ok? ==> r == None && plugins == old(plugins)[name := made.value] &&
                      order == Without(old(order), name) + [name] &&
                      Index() == AddAll(removed, made.value) &&
                      hooks == unloaded + (if made.value.hasInitialize then [Initialize(name)] else []))
    {
      if name in plugins {
        r := Reload(name, loaded);
      } else {
        r := None;
      }
    }

    /** The body of `reload_plugin` for a loaded directory name. */
    method Reload(name: string, loaded: Result<PluginClass, PluginError>) returns (r: Option<PluginError>)
      requires Valid() && name in plugins
      modifies this
      ensures Valid()
      ensures var p := old(plugins)[name];
        var removed := RemoveAllOf(old(Index()), p);
        var made := Instantiate(loaded, p.info["plugin_dir"], name);
        var unloaded := old(hooks) + (if p.hasDestroy then [Destroy(name)] else []);
        (made.Err? ==> r == Some(made.error) && plugins == old(plugins) - {name} &&
                       order == Without(old(order), name) && Index() == removed && hooks == unloaded) &&
        (made.Ok? ==> r == None && plugins == old(plugins)[name := made.value] &&
                      order == Without(old(order), name) + [name] &&
                      Index() == AddAll(removed, made.value) &&
                      hooks == unloaded + (if made.value.hasInitialize then [Initialize(name)] else []))
    {
      var plugin := plugins[name];
      var dir := plugin.info["plugin_dir"];
      assert Resolve(plugins, order, name) == Ok(Some(name));
      var _ := UnloadPlugin(name);
      assert name !in plugins;
      r := LoadPlugin(dir, name, loaded);
      if r.None? {
        ReplaceRemoved(old(plugins), name, plugins[name]);
      }
    }
  }

  lemma ReplaceRemoved(plugins: map<string, Plugin>, k: string, p: Plugin)
    ensures (plugins - {k})[k := p] == plugins[k := p]
  {
  }

  /** A timer pass preceded by the callbacks `fired` already called. */
  function After(fired: seq<Callback>, pass: TimerPass): (r: TimerPass)
    ensures r.last == pass.last && r.raised == pass.raised && |r.fired| == |fired| + |pass.fired|
  {
    TimerPass(fired + pass.fired, pass.last, pass.raised)
  }

  /** The loop of the raw stage. */
  method RunRawStage(fs: seq<Callback>, m: Message, matches: (PyValue, PyValue, string) -> bool) returns (o: Outcome)
    ensures o == RawStage(fs, m, matches)
  {
    var calls, raised := RunStage(fs, c => RegexpTest(c, m.raw, matches));
    o := Outcome(calls, raised);
  }

  /** The loop of the command stage. */
  method RunCommandStage(fs: seq<Callback>, m: Message) returns (o: Outcome)
    ensures o == CommandStage(fs, m)
  {
    o := Outcome([], false);
    if fs != [] && HasAttr(m, "bot_command") {
      var word := Lower(TextAttr(m, "bot_command"));
      var calls, raised := RunStage(fs, c => ListTest(c, "command", word));
      o := Outcome(calls, raised);
    }
  }

  /** The loop of the message stage. */
  method RunMessageStage(fs: seq<Callback>, m: Message, matches: (PyValue, PyValue, string) -> bool) returns (o: Outcome)
    ensures o == MessageStage(fs, m, matches)
  {
    o := Outcome([], false);
    if fs != [] && m.kind == UserMessage {
      var command := Attr(m, "command");
      if command.None? {
        return Outcome([], true);
      }
      if command.value == "PRIVMSG" {
        var text := Attr(m, "message");
        if text.None? {
          return Outcome([], true);
        }
        var calls, raised := RunStage(fs, c => RegexpTest(c, text.value, matches));
        o := Outcome(calls, raised);
      }
    }
  }

  /** The loop of the server-event or user-event stage. */
  method RunEventStage(fs: seq<Callback>, m: Message, kind: Kind) returns (o: Outcome)
    ensures o == EventStage(fs, m, kind)
  {
    o := Outcome([], false);
    if fs != [] && m.kind == kind {
      var command := Attr(m, "command");
      if command.None? {
        return Outcome([], true);
      }
      var calls, raised := RunStage(fs, c => ListTest(c, "event", command.value));
      o := Outcome(calls, raised);
    }
  }

  /** One stage of `check_event`: the loop over one index. */
  method RunStage(fs: seq<Callback>, test: Callback -> Option<bool>) returns (calls: seq<Callback>, raised: bool)
    ensures Outcome(calls, raised) == Stage(fs, test)
  {
    calls := [];
    var i := 0;
    while i < |fs|
      invariant 0 <= i <= |fs|
      invariant Then(Outcome(calls, false), Stage(fs[i..], test)) == Stage(fs, test)
    {
      assert fs[i..][1..] == fs[i + 1..];
      var hit := test(fs[i]);
      if hit.None? {
        return calls, true;
      }
      if hit.value {
        calls := calls + [fs[i]];
      }
      i := i + 1;
    }
    assert fs[i..] == [];
    return calls, false;
  }

  /** The six removal loops of `unload_plugin`. */
  method Shrink(ix: Indices, plugin: Plugin) returns (r: Indices)
    requires Holds(ix, plugin)
    ensures r == RemoveAllOf(ix, plugin)
  {
    var c := RemoveHandlers(ix.commands, plugin, TypeCommand);
    var s := RemoveHandlers(ix.serverEvents, plugin, TypeServerEvent);
    var u := RemoveHandlers(ix.userEvents, plugin, TypeUserEvent);
    var m := RemoveHandlers(ix.messageRegexps, plugin, TypeRegexpMessage);
    var w := RemoveHandlers(ix.rawRegexps, plugin, TypeRegexpRaw);
    var t := RemoveHandlers(ix.timers, plugin, TypeTimer);
    r := Indices(c, u, s, m, w, t);
  }

  /** One removal loop of `unload_plugin`: the plugin's handlers of type
      `t`, each removed once from the index `xs`. */
  method RemoveHandlers(xs: seq<Callback>, p: Plugin, t: int) returns (r: seq<Callback>)
    requires multiset(Functions(p, t)) <= multiset(xs)
    ensures r == RemoveAll(xs, Functions(p, t))
  {
    var functions := GetFunctionsForType(p, t);
    r := RemoveEach(xs, functions);
  }

  /** `xs.remove(y)` for each `y` of `ys`, in order. */
  method RemoveEach(xs: seq<Callback>, ys: seq<Callback>) returns (r: seq<Callback>)
    requires multiset(ys) <= multiset(xs)
    ensures r == RemoveAll(xs, ys)
  {
    r := xs;
    var i := 0;
    while i < |ys|
      invariant 0 <= i <= |ys|
      invariant multiset(ys[i..]) <= multiset(r)
      invariant RemoveAll(r, ys[i..]) == RemoveAll(xs, ys)
    {
      RemoveAllStep(r, ys, i);
      r := RemoveFirst(r, ys[i]);
      i := i + 1;
    }
    assert ys[i..] == [];
  }

  lemma RemoveAllStep(r: seq<Callback>, ys: seq<Callback>, i: nat)
    requires i < |ys| && multiset(ys[i..]) <= multiset(r)
    ensures ys[i] in r && multiset(ys[i + 1..]) <= multiset(RemoveFirst(r, ys[i]))
    ensures RemoveAll(r, ys[i..]) == RemoveAll(RemoveFirst(r, ys[i]), ys[i + 1..])
  {
    assert ys[i..] == [ys[i]] + ys[i + 1..];
    assert multiset(ys[i..]) == multiset{ys[i]} + multiset(ys[i + 1..]);
    assert ys[i] in multiset(r);
  }

  /** `del plugins[key]` on the iteration order. */
  method WithoutKey(order: seq<string>, key: string) returns (r: seq<string>)
    ensures r == Without(order, key)
  {
    r := [];
    var i := |order|;
    while i > 0
      invariant 0 <= i <= |order|
      invariant r == Without(order[i..], key)
    {
      i := i - 1;
      assert order[i..][1..] == order[i + 1..];
      r := (if order[i] == key then [] else [order[i]]) + r;
    }
  }
}
