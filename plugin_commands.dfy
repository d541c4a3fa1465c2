/**
 * The plugin-management commands `load`, `unload` and `reload`: only a
 * head admin may use them, and each works on the bot's plugin registry
 * by a plugin's directory name.
 */
module PluginManagementCommands {
  import opened Wrappers
  import opened CommandEvents
  import opened PluginManagement

  /** What importing a plugin from each plugins directory gives. */
  type Importer = string -> Result<PluginClass, PluginError>

  /** Loading `name` from directory `dir` succeeds. */
  predicate Loads(importFrom: Importer, dir: string, name: string) {
    Instantiate(importFrom(dir), dir, name).Ok?
  }

  /** The first of `dirs` that `name` loads from, if any. */
  function FirstLoadable(dirs: seq<string>, name: string, importFrom: Importer): (r: Option<nat>)
    ensures r.Some? ==> r.value < |dirs| && Loads(importFrom, dirs[r.value], name)
    ensures r.Some? ==> forall j :: 0 <= j < r.value ==> !Loads(importFrom, dirs[j], name)
    ensures r.None? <==> forall j :: 0 <= j < |dirs| ==> !Loads(importFrom, dirs[j], name)
  {
    if dirs == [] then None
    else if Loads(importFrom, dirs[0], name) then Some(0)
    else match FirstLoadable(dirs[1..], name, importFrom)
      case None => None
      case Some(k) => Some(k + 1)
  }

  /** The directory that loads, with none before it that does, is the one
      found. */
  lemma FirstLoadableAt(dirs: seq<string>, name: string, importFrom: Importer, k: nat)
    requires k < |dirs| && Loads(importFrom, dirs[k], name)
    requires forall j :: 0 <= j < k ==> !Loads(importFrom, dirs[j], name)
    ensures FirstLoadable(dirs, name, importFrom) == Some(k)
  {
  }

  /** `type(e)` as the `error` entry prints it, for the two classes named
      `PluginException`: the one the plugin manager raises
      (luckybot/plugin/managment.py) and the one this plugin imports and
      raises itself (luckybot/plugin/__init__.py). */
  const ManagerExceptionType: string := "<class 'luckybot.plugin.managment.PluginException'>"
  const PluginExceptionType: string := "<class 'luckybot.plugin.PluginException'>"

  /** The `error` entry with an exception's text and class. */
  function Failure(lang: Lang, error: string, kind: string): string {
    lang("error", map["error" := error, "type" := kind])
  }

  /** `load`'s loop over the plugins directories as written. Its
      `except PluginException` names the class this plugin imports, not the
      one `load_plugin` raises, so it catches nothing: the first directory
      either loads the plugin, and the loop breaks, or its error leaves the
      loop and ends the command. The answer is the directory loaded from,
      if any. */
  function LoadLoop(dirs: seq<string>, name: string, importFrom: Importer): (r: Result<Option<nat>, PluginError>)
    ensures r == Ok(None) <==> dirs == []
    ensures r.Ok? && r.value.Some? ==> r.value.value < |dirs| && Loads(importFrom, dirs[r.value.value], name)
    ensures r.Err? <==> dirs != [] && !Loads(importFrom, dirs[0], name)
    ensures r.Err? ==> Instantiate(importFrom(dirs[0]), dirs[0], name) == Err(r.error)
  {
    if dirs == [] then Ok(None)
    else match Instantiate(importFrom(dirs[0]), dirs[0], name)
      case Ok(_) => Ok(Some(0))
      case Err(e) => Err(e)
  }

  /** When the loop as written does not raise, it finds the directory the
      intended search finds. */
  lemma LoadLoopAgrees(dirs: seq<string>, name: string, importFrom: Importer)
    ensures LoadLoop(dirs, name, importFrom).Ok? ==> LoadLoop(dirs, name, importFrom).value == FirstLoadable(dirs, name, importFrom)
  {
  }

  /** A plugin that exists only in the second directory: as written, `load`
      ends with the first directory's error, where the intended search
      loads it from the second. */
  lemma LoadStopsAtFirstFailure(dirs: seq<string>, name: string, importFrom: Importer)
    requires |dirs| >= 2 && !Loads(importFrom, dirs[0], name) && Loads(importFrom, dirs[1], name)
    ensures LoadLoop(dirs, name, importFrom) == Err(Instantiate(importFrom(dirs[0]), dirs[0], name).error)
    ensures FirstLoadable(dirs, name, importFrom) == Some(1)
  {
  }

  /** The registry after `plugin` was loaded under a new name. */
  ghost predicate Added(m: PluginManager, plugins: map<string, Plugin>, order: seq<string>, ix: Indices,
                        hooks: seq<Hook>, p: Plugin)
    reads m
  {
    m.plugins == plugins[p.dirname := p] && m.order == order + [p.dirname] && m.Index() == AddAll(ix, p) &&
    m.hooks == hooks + (if p.hasInitialize then [Initialize(p.dirname)] else [])
  }

  /** The registry as it was. */
  ghost predicate Kept(m: PluginManager, plugins: map<string, Plugin>, order: seq<string>, ix: Indices, hooks: seq<Hook>)
    reads m
  {
    m.plugins == plugins && m.order == order && m.Index() == ix && m.hooks == hooks
  }

  /** The registry with the plugin loaded from directory `k` unloaded. */
  ghost predicate Removed(m: PluginManager, plugins: map<string, Plugin>, order: seq<string>, ix: Indices,
                          hooks: seq<Hook>, k: string)
    requires k in plugins
    reads m
  {
    m.plugins == plugins - {k} && m.order == Without(order, k) &&
    Holds(ix, plugins[k]) && m.Index() == RemoveAllOf(ix, plugins[k]) &&
    m.hooks == hooks + (if plugins[k].hasDestroy then [Destroy(k)] else [])
  }

  /** The registry after `name` was tried in the directories `dirs` in
      turn, as the loop of `load` is meant to: loaded from the first that
      loads it, or unchanged. */
  ghost predicate TriedDirs(m: PluginManager, plugins: map<string, Plugin>, order: seq<string>, ix: Indices,
                            hooks: seq<Hook>, dirs: seq<string>, name: string, importFrom: Importer)
    reads m
  {
    match FirstLoadable(dirs, name, importFrom)
    case None => Kept(m, plugins, order, ix, hooks)
    case Some(k) => Added(m, plugins, order, ix, hooks, Instantiate(importFrom(dirs[k]), dirs[k], name).value)
  }

  /** What `load` tells the channel after its loop: success, the error the
      loop raised with the manager's exception class, or, when there was no
      directory to try, `could_not_load_plugin` raised with the class of
      `luckybot.plugin`. */
  function LoadReply(lang: Lang, name: string, loop: Result<Option<nat>, PluginError>): string {
    match loop
    case Err(e) => Failure(lang, e.message, ManagerExceptionType)
    case Ok(Some(_)) => lang("plugin_loaded", map["plugin" := name])
    case Ok(None) => Failure(lang, lang("could_not_load_plugin", map["plugin" := name]), PluginExceptionType)
  }

  /** The registry after `load`'s loop as written: the plugin added from
      the directory it loaded from, or the registry as it was. */
  ghost predicate Attempted(m: PluginManager, plugins: map<string, Plugin>, order: seq<string>, ix: Indices,
                            hooks: seq<Hook>, dirs: seq<string>, name: string, importFrom: Importer)
    reads m
  {
    match LoadLoop(dirs, name, importFrom)
    case Ok(Some(k)) => k < |dirs| && Added(m, plugins, order, ix, hooks, Instantiate(importFrom(dirs[k]), dirs[k], name).value)
    case _ => Kept(m, plugins, order, ix, hooks)
  }

  /** The intended loop stopped at the first directory that loads. */
  lemma TriedUpTo(m: PluginManager, plugins: map<string, Plugin>, order: seq<string>, ix: Indices, hooks: seq<Hook>,
                  dirs: seq<string>, name: string, importFrom: Importer, k: nat)
    requires k < |dirs| && Loads(importFrom, dirs[k], name)
    requires forall j :: 0 <= j < k ==> !Loads(importFrom, dirs[j], name)
    ensures Added(m, plugins, order, ix, hooks, Instantiate(importFrom(dirs[k]), dirs[k], name).value) ==>
      TriedDirs(m, plugins, order, ix, hooks, dirs, name, importFrom)
    ensures FirstLoadable(dirs, name, importFrom) == Some(k)
  {
    FirstLoadableAt(dirs, name, importFrom, k);
  }

  /** The intended loop went through every directory and none loads. */
  lemma TriedAll(m: PluginManager, plugins: map<string, Plugin>, order: seq<string>, ix: Indices, hooks: seq<Hook>,
                 dirs: seq<string>, name: string, importFrom: Importer)
    requires forall j :: 0 <= j < |dirs| ==> !Loads(importFrom, dirs[j], name)
    ensures Kept(m, plugins, order, ix, hooks) ==> TriedDirs(m, plugins, order, ix, hooks, dirs, name, importFrom)
    ensures FirstLoadable(dirs, name, importFrom).None?
  {
  }

  /** The plugin `reload` makes of loaded plugin `name`, from the
      directory it was loaded from. */
  function ReloadOf(plugins: map<string, Plugin>, name: string, importFrom: Importer): Result<Plugin, PluginError>
    requires name in plugins && "plugin_dir" in plugins[name].info
  {
    var dir := plugins[name].info["plugin_dir"];
    Instantiate(importFrom(dir), dir, name)
  }

  /** The plugin table and its order after `reload` of loaded plugin
      `name`: unloaded, and stored again, last, when it loaded. */
  ghost predicate Reloaded(m: PluginManager, plugins: map<string, Plugin>, order: seq<string>, name: string, importFrom: Importer)
    requires name in plugins && "plugin_dir" in plugins[name].info
    reads m
  {
    match ReloadOf(plugins, name, importFrom)
    case Ok(p) => m.plugins == plugins[name := p] && m.order == Without(order, name) + [name]
    case Err(_) => m.plugins == plugins - {name} && m.order == Without(order, name)
  }

  class ManagementPlugin {
    const manager: PluginManager
    /** `bot.plugins.plugin_dirs`, in the order they are tried. */
    const pluginDirs: seq<string>
    const lang: Lang

    constructor (manager: PluginManager, pluginDirs: seq<string>, lang: Lang)
      ensures this.manager == manager && this.pluginDirs == pluginDirs && this.lang == lang
    {
      this.manager := manager;
      this.pluginDirs := pluginDirs;
      this.lang := lang;
    }

    /** `load`: the first plugins directory is tried; its failure ends the
        command with the manager's error, and with no directory at all the
        command reports `could_not_load_plugin`. */
    method Load(event: Event, importFrom: Importer)
      requires manager.Valid()
      modifies event, manager
      ensures manager.Valid()
      ensures !event.Allowed("head_admin") ==>
        event.sent == old(event.sent) + [UserNotice(Entry(lang, "permission_denied"))] && unchanged(manager)
      ensures event.Allowed("head_admin") && event.args in old(manager.plugins) ==>
        event.sent == old(event.sent) + [UserNotice(Entry(lang, "plugin_already_loaded"))] && unchanged(manager)
      ensures event.Allowed("head_admin") && event.args !in old(manager.plugins) ==>
        Attempted(manager, old(manager.plugins), old(manager.order), old(manager.Index()), old(manager.hooks),
                  pluginDirs, event.args, importFrom) &&
        (event.args in manager.plugins <==> LoadLoop(pluginDirs, event.args, importFrom) == Ok(Some(0))) &&
        event.sent == old(event.sent) + [ChannelPm(LoadReply(lang, event.args, LoadLoop(pluginDirs, event.args, importFrom)))]
    {
      if !event.Allowed("head_admin") {
        event.Send(UserNotice(Entry(lang, "permission_denied")));
        return;
      }
      var name := event.args;
      if name in manager.plugins {
        event.Send(UserNotice(Entry(lang, "plugin_already_loaded")));
        return;
      }
      LoadNew(event, importFrom);
    }

    /** `load` of a name that is not loaded yet: the loop, then the reply. */
    method LoadNew(event: Event, importFrom: Importer)
      requires manager.Valid() && event.args !in manager.plugins
      modifies event, manager
      ensures manager.Valid()
      ensures Attempted(manager, old(manager.plugins), old(manager.order), old(manager.Index()), old(manager.hooks),
                        pluginDirs, event.args, importFrom)
      ensures event.args in manager.plugins <==> LoadLoop(pluginDirs, event.args, importFrom) == Ok(Some(0))
      ensures event.sent == old(event.sent) + [ChannelPm(LoadReply(lang, event.args, LoadLoop(pluginDirs, event.args, importFrom)))]
    {
      var name := event.args;
      var error := TryDirs(name, importFrom);
      var reply;
      if error.Some? {
        reply := Failure(lang, error.value.message, ManagerExceptionType);
      } else if name in manager.plugins {
        reply := lang("plugin_loaded", map["plugin" := name]);
      } else {
        reply := Failure(lang, lang("could_not_load_plugin", map["plugin" := name]), PluginExceptionType);
      }
      event.Send(ChannelPm(reply));
    }

    /** The loop of `load` over the plugins directories, as written: the
        first attempt either breaks the loop or raises out of it. */
    method TryDirs(name: string, importFrom: Importer) returns (error: Option<PluginError>)
      requires manager.Valid() && name !in manager.plugins
      modifies manager
      ensures manager.Valid()
      ensures Attempted(manager, old(manager.plugins), old(manager.order), old(manager.Index()), old(manager.hooks),
                        pluginDirs, name, importFrom)
      ensures error == (match LoadLoop(pluginDirs, name, importFrom) case Err(e) => Some(e) case Ok(_) => None)
      ensures name in manager.plugins <==> LoadLoop(pluginDirs, name, importFrom) == Ok(Some(0))
    {
      ghost var plugins0, order0, ix0, hooks0 := manager.plugins, manager.order, manager.Index(), manager.hooks;
      error := None;
      for i := 0 to |pluginDirs|
        invariant i == 0 && Kept(manager, plugins0, order0, ix0, hooks0)
      {
        error := LoadFrom(pluginDirs[i], name, importFrom);
        if error.Some? {
          // The manager's exception is not the class `except` names.
          return;
        }
        break;
      }
    }

    /** One `load_plugin(dir, name)` of that loop: it adds the plugin, or
        raises and changes nothing. */
    method LoadFrom(dir: string, name: string, importFrom: Importer) returns (error: Option<PluginError>)
      requires manager.Valid() && name !in manager.plugins
      modifies manager
      ensures manager.Valid()
      ensures error.None? <==> Loads(importFrom, dir, name)
      ensures error.Some? ==> Instantiate(importFrom(dir), dir, name) == Err(error.value)
      ensures error.None? ==> Added(manager, old(manager.plugins), old(manager.order), old(manager.Index()), old(manager.hooks),
                                    Instantiate(importFrom(dir), dir, name).value)
      ensures error.Some? ==> Kept(manager, old(manager.plugins), old(manager.order), old(manager.Index()), old(manager.hooks))
    {
      error := manager.LoadPlugin(dir, name, importFrom(dir));
    }

    /** `unload`: a loaded directory name is unloaded, which always
        succeeds; any other name is refused. */
    method Unload(event: Event)
      requires manager.Valid()
      modifies event, manager
      ensures manager.Valid()
      ensures !event.Allowed("head_admin") ==>
        event.sent == old(event.sent) + [UserNotice(Entry(lang, "permission_denied"))] && unchanged(manager)
      ensures event.Allowed("head_admin") && event.args !in old(manager.plugins) ==>
        event.sent == old(event.sent) + [UserNotice(Entry(lang, "plugin_not_loaded"))] && unchanged(manager)
      ensures event.Allowed("head_admin") && event.args in old(manager.plugins) ==>
        Removed(manager, old(manager.plugins), old(manager.order), old(manager.Index()), old(manager.hooks), event.args) &&
        event.sent == old(event.sent) + [ChannelPm(lang("plugin_unloaded", map["plugin" := event.args]))]
    {
      if !event.Allowed("head_admin") {
        event.Send(UserNotice(Entry(lang, "permission_denied")));
        return;
      }
      var name := event.args;
      if name !in manager.plugins {
        event.Send(UserNotice(Entry(lang, "plugin_not_loaded")));
        return;
      }
      assert Resolve(manager.plugins, manager.order, name) == Ok(Some(name));
      var r := manager.UnloadPlugin(name);
      if r == Ok(true) {
        event.Send(ChannelPm(lang("plugin_unloaded", map["plugin" := name])));
      } else {
        // `unload_plugin` of a loaded directory name returns true.
        assert false;
      }
    }

    /** `reload`: a loaded directory name is reloaded from the directory it
        came from; the success message is sent only when that raised
        nothing, and an error is reported otherwise. */
    method Reload(event: Event, importFrom: Importer)
      requires manager.Valid()
      modifies event, manager
      ensures manager.Valid()
      ensures !event.Allowed("head_admin") ==>
        event.sent == old(event.sent) + [UserNotice(Entry(lang, "permission_denied"))] && unchanged(manager)
      ensures event.Allowed("head_admin") && event.args !in old(manager.plugins) ==>
        event.sent == old(event.sent) + [UserNotice(Entry(lang, "plugin_not_loaded"))] && unchanged(manager)
      ensures event.Allowed("head_admin") && event.args in old(manager.plugins) ==>
        Reloaded(manager, old(manager.plugins), old(manager.order), event.args, importFrom) &&
        event.sent == old(event.sent) + [ChannelPm(
          match ReloadOf(old(manager.plugins), event.args, importFrom)
          case Ok(_) => lang("plugin_reloaded", map["plugin" := event.args])
          case Err(e) => Failure(lang, e.message, ManagerExceptionType))]
    {
      if !event.Allowed("head_admin") {
        event.Send(UserNotice(Entry(lang, "permission_denied")));
        return;
      }
      var name := event.args;
      if name !in manager.plugins {
        event.Send(UserNotice(Entry(lang, "plugin_not_loaded")));
        return;
      }
      var r := ReloadFrom(name, importFrom);
      if r.Some? {
        event.Send(ChannelPm(Failure(lang, r.value.message, ManagerExceptionType)));
      } else {
        event.Send(ChannelPm(lang("plugin_reloaded", map["plugin" := name])));
      }
    }

    /** `reload_plugin(name)` with the module found in the plugin's own
        directory. */
    method ReloadFrom(name: string, importFrom: Importer) returns (r: Option<PluginError>)
      requires manager.Valid() && name in manager.plugins
      modifies manager
      ensures manager.Valid()
      ensures Reloaded(manager, old(manager.plugins), old(manager.order), name, importFrom)
      ensures r == match ReloadOf(old(manager.plugins), name, importFrom) case Ok(_) => None case Err(e) => Some(e)
    {
      var dir := manager.plugins[name].info["plugin_dir"];
      r := manager.ReloadPlugin(name, importFrom(dir));
    }
  }
}
