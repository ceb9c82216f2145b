/**
 * The collaborators the plugin hooks drive, modelled at their boundary: the
 * renderer's plugin store (`usePluginStore`) and the plugin system with the
 * manager's registry of active plugins. Their implementations are not part
 * of this model; what they do is what the hooks rely on: the store is a map
 * from plugin id to entry, loading registers an activated plugin unless one
 * with its id is already active, and unloading always unregisters.
 */
module PluginRuntime {
  import opened Common
  import opened PluginTypes

  // ---------------------------------------------------------------------
  // The manager's registry, as values
  // ---------------------------------------------------------------------

  /** No two active plugins share an id. */
  predicate UniqueIds(plugins: seq<ActivePlugin>)
  {
    forall i, j :: 0 <= i < j < |plugins| ==> plugins[i].manifest.id != plugins[j].manifest.id
  }

  /** The ids of the given plugins. */
  function IdsOf(plugins: seq<ActivePlugin>): set<string>
  {
    set p | p in plugins :: p.manifest.id
  }

  /** `getPlugin(id)`: the active plugin with that id, if any. */
  function Find(plugins: seq<ActivePlugin>, id: string): (r: Option<ActivePlugin>)
    ensures r.None? <==> id !in IdsOf(plugins)
    ensures r.Some? ==> r.value in plugins && r.value.manifest.id == id
  {
    if plugins == [] then None
    else if plugins[0].manifest.id == id then Some(plugins[0])
    else
      var rest := Find(plugins[1..], id);
      assert plugins == [plugins[0]] + plugins[1..];
      rest
  }

  /** The registry after `unregisterPlugin(id)`: every plugin with that id removed. */
  function Unregistered(plugins: seq<ActivePlugin>, id: string): (r: seq<ActivePlugin>)
    ensures IdsOf(r) == IdsOf(plugins) - {id}
    ensures forall p :: p in r <==> p in plugins && p.manifest.id != id
    ensures UniqueIds(plugins) ==> UniqueIds(r)
  {
    if plugins == [] then []
    else
      var rest := Unregistered(plugins[1..], id);
      assert plugins == [plugins[0]] + plugins[1..];
      if plugins[0].manifest.id == id then rest
      else
        assert UniqueIds(plugins) ==> plugins[0].manifest.id !in IdsOf(plugins[1..]);
        [plugins[0]] + rest
  }

  /** The plugin a successful load registers: its manifest, persisted settings and the LLMs it registered. */
  function Loaded(record: PluginRecord, outcome: LoadOutcome): ActivePlugin
    requires outcome.Activated?
  {
    ActivePlugin(record.manifest, PluginContext(record.data.settings, outcome.llms))
  }

  /** Settings after `setCachedSettingValue(k, v)` for each entry in order. */
  function Overlay(settings: map<string, SettingValue>, entries: SettingEntries): map<string, SettingValue>
  {
    if entries == [] then settings
    else Overlay(settings, entries[..|entries| - 1])[entries[|entries| - 1].0 := entries[|entries| - 1].1]
  }

  /** A key that no entry mentions keeps its cached value (or stays absent). */
  lemma {:induction false} OverlayUntouched(settings: map<string, SettingValue>, entries: SettingEntries, key: string)
    requires forall i :: 0 <= i < |entries| ==> entries[i].0 != key
    ensures key in Overlay(settings, entries) <==> key in settings
    ensures key in settings ==> Overlay(settings, entries)[key] == settings[key]
  {
    if entries != [] {
      var n := |entries| - 1;
      forall i | 0 <= i < n ensures entries[..n][i].0 != key {
        assert entries[..n][i] == entries[i];
      }
      OverlayUntouched(settings, entries[..n], key);
    }
  }

  /** A submitted key ends with the value of its last entry. */
  lemma {:induction false} OverlayLastWins(settings: map<string, SettingValue>, entries: SettingEntries, i: nat)
    requires i < |entries|
    requires forall j :: i < j < |entries| ==> entries[j].0 != entries[i].0
    ensures entries[i].0 in Overlay(settings, entries)
    ensures Overlay(settings, entries)[entries[i].0] == entries[i].1
  {
    var n := |entries| - 1;
    if i < n {
      forall j | i < j < n ensures entries[..n][j].0 != entries[..n][i].0 {
        assert entries[..n][j] == entries[j];
      }
      OverlayLastWins(settings, entries[..n], i);
      assert entries[..n][i] == entries[i];
    }
  }

  /** One more entry is one more `setCachedSettingValue`. */
  lemma OverlaySnoc(settings: map<string, SettingValue>, entries: SettingEntries, key: string, value: SettingValue)
    ensures Overlay(settings, entries + [(key, value)]) == Overlay(settings, entries)[key := value]
  {
    assert (entries + [(key, value)])[..|entries|] == entries;
  }

  /** The registry with the entries applied to the cached settings of plugin `id`. */
  function CacheSettings(plugins: seq<ActivePlugin>, id: string, entries: SettingEntries): (r: seq<ActivePlugin>)
    ensures |r| == |plugins|
    ensures IdsOf(r) == IdsOf(plugins)
    ensures UniqueIds(plugins) ==> UniqueIds(r)
  {
    var r := seq(|plugins|, i requires 0 <= i < |plugins| =>
      if plugins[i].manifest.id == id
      then plugins[i].(context := plugins[i].context.(settings := Overlay(plugins[i].context.settings, entries)))
      else plugins[i]);
    assert forall i :: 0 <= i < |r| ==> r[i].manifest.id == plugins[i].manifest.id;
    assert IdsOf(r) == IdsOf(plugins) by {
      forall x | x in IdsOf(r) ensures x in IdsOf(plugins) {
        var p :| p in r && p.manifest.id == x;
        var i :| 0 <= i < |r| && r[i] == p;
        assert plugins[i] in plugins;
      }
      forall x | x in IdsOf(plugins) ensures x in IdsOf(r) {
        var p :| p in plugins && p.manifest.id == x;
        var i :| 0 <= i < |plugins| && plugins[i] == p;
        assert r[i] in r;
      }
    }
    r
  }

  /** Applying entries one after another to the registry is applying them together. */
  lemma CacheSettingsSnoc(plugins: seq<ActivePlugin>, id: string, entries: SettingEntries, key: string, value: SettingValue)
    ensures CacheSettings(CacheSettings(plugins, id, entries), id, [(key, value)]) ==
            CacheSettings(plugins, id, entries + [(key, value)])
  {
    var a := CacheSettings(CacheSettings(plugins, id, entries), id, [(key, value)]);
    var b := CacheSettings(plugins, id, entries + [(key, value)]);
    forall i | 0 <= i < |plugins| ensures a[i] == b[i] {
      if plugins[i].manifest.id == id {
        var s := plugins[i].context.settings;
        OverlaySnoc(s, entries, key, value);
        assert [(key, value)][..0] == [];
        assert Overlay(Overlay(s, entries), [(key, value)]) == Overlay(s, entries)[key := value];
      }
    }
  }

  /** Caching settings for plugin `id` touches that plugin's settings and nothing else. */
  lemma CacheSettingsEffect(plugins: seq<ActivePlugin>, id: string, entries: SettingEntries, i: nat)
    requires i < |plugins|
    ensures plugins[i].manifest.id != id ==> CacheSettings(plugins, id, entries)[i] == plugins[i]
    ensures plugins[i].manifest.id == id ==>
            && CacheSettings(plugins, id, entries)[i].manifest == plugins[i].manifest
            && CacheSettings(plugins, id, entries)[i].context.llms == plugins[i].context.llms
            && CacheSettings(plugins, id, entries)[i].context.settings == Overlay(plugins[i].context.settings, entries)
  {
  }

  // ---------------------------------------------------------------------
  // The store, the system and the backend, as objects the hooks update in place
  // ---------------------------------------------------------------------

  /**
   * The external calls made so far, in the order they were made. The store,
   * the plugin system and the backend share one trace and each appends to it
   * on every call, so orders across them can be stated.
   */
  class Trace {
    ghost var events: seq<Call>

    constructor ()
      ensures events == []
    {
      events := [];
    }
  }

  /** The renderer's plugin store: plugin id to `{manifest, enabled}`. */
  class PluginStore {
    var plugins: map<string, StoreEntry>
    const trace: Trace

    constructor (trace: Trace)
      ensures plugins == map[] && this.trace == trace
    {
      plugins := map[];
      this.trace := trace;
    }

    /** `getPlugin(id)`. */
    function GetPlugin(id: string): (r: Option<StoreEntry>)
      reads this
      ensures r.Some? <==> id in plugins
      ensures r.Some? ==> r.value == plugins[id]
    {
      if id in plugins then Some(plugins[id]) else None
    }

    /** `setPlugin(id, entry)`. */
    method SetPlugin(id: string, entry: StoreEntry)
      modifies this, trace
      ensures plugins == old(plugins)[id := entry]
      ensures trace.events == old(trace.events) + [Call.SetPlugin(id, entry)]
    {
      plugins := plugins[id := entry];
      trace.events := trace.events + [Call.SetPlugin(id, entry)];
    }

    /** `removePlugin(id)`. */
    method RemovePlugin(id: string)
      modifies this, trace
      ensures plugins == old(plugins) - {id}
      ensures trace.events == old(trace.events) + [Call.RemovePlugin(id)]
    {
      plugins := plugins - {id};
      trace.events := trace.events + [Call.RemovePlugin(id)];
    }
  }

  /**
   * The plugin system together with the manager's registry: `plugins` is what
   * `getPlugins()` returns, in registration order.
   */
  class PluginSystem {
    var plugins: seq<ActivePlugin>
    const trace: Trace

    /** At most one active plugin per id. */
    ghost predicate Valid()
      reads this
    {
      UniqueIds(plugins)
    }

    constructor (trace: Trace)
      ensures Valid() && plugins == [] && this.trace == trace
    {
      plugins := [];
      this.trace := trace;
    }

    /** The ids of the active plugins. */
    function Ids(): set<string>
      reads this
    {
      IdsOf(plugins)
    }

    /**
     * `loadPlugin(record)`: the plugin is registered when its code activated
     * and no plugin with its id is active; otherwise the call throws
     * (load or activation error, or duplicate registration) and the registry
     * is unchanged.
     */
    method LoadPlugin(record: PluginRecord, outcome: LoadOutcome) returns (ok: bool)
      requires Valid()
      modifies this, trace
      ensures Valid()
      ensures ok <==> outcome.Activated? && record.manifest.id !in old(Ids())
      ensures plugins == if ok then old(plugins) + [Loaded(record, outcome)] else old(plugins)
      ensures trace.events == old(trace.events) + [Call.LoadPlugin(record.manifest.id)]
    {
      ok := outcome.Activated? && record.manifest.id !in IdsOf(plugins);
      if ok {
        plugins := plugins + [Loaded(record, outcome)];
        assert forall i :: 0 <= i < |plugins| - 1 ==> plugins[i] in old(plugins);
      }
      trace.events := trace.events + [Call.LoadPlugin(record.manifest.id)];
    }

    /** `unloadPlugin(id)`: always completes; afterwards no plugin with that id is active. */
    method UnloadPlugin(id: string)
      requires Valid()
      modifies this, trace
      ensures Valid()
      ensures plugins == Unregistered(old(plugins), id)
      ensures Ids() == old(Ids()) - {id}
      ensures trace.events == old(trace.events) + [Call.UnloadPlugin(id)]
    {
      plugins := Unregistered(plugins, id);
      trace.events := trace.events + [Call.UnloadPlugin(id)];
    }

    /** `context.setCachedSettingValue(key, value)` on the context of active plugin `id`. */
    method SetCachedSettingValue(id: string, key: string, value: SettingValue)
      requires Valid()
      modifies this, trace
      ensures Valid()
      ensures plugins == CacheSettings(old(plugins), id, [(key, value)])
      ensures trace.events == old(trace.events) + [Call.SetCachedSettingValue(id, key, value)]
    {
      plugins := CacheSettings(plugins, id, [(key, value)]);
      trace.events := trace.events + [Call.SetCachedSettingValue(id, key, value)];
    }
  }

  /**
   * The plugin backend in the main process. What it replies is not part of
   * this model: each call is handed the reply it settles with and returns it.
   */
  class PluginBackend {
    const trace: Trace

    constructor (trace: Trace)
      ensures this.trace == trace
    {
      this.trace := trace;
    }

    /** `getAllPlugins()`. */
    method GetAllPlugins(reply: Reply<seq<PluginRecord>>) returns (r: Reply<seq<PluginRecord>>)
      modifies trace
      ensures r == reply
      ensures trace.events == old(trace.events) + [Call.GetAllPlugins]
    {
      r := reply;
      trace.events := trace.events + [Call.GetAllPlugins];
    }

    /** `getPlugin(id)`. */
    method GetPlugin(id: string, reply: Reply<PluginRecord>) returns (r: Reply<PluginRecord>)
      modifies trace
      ensures r == reply
      ensures trace.events == old(trace.events) + [Call.GetPlugin(id)]
    {
      r := reply;
      trace.events := trace.events + [Call.GetPlugin(id)];
    }

    /** `enablePlugin(id)`. */
    method EnablePlugin(id: string, reply: Settled) returns (r: Settled)
      modifies trace
      ensures r == reply
      ensures trace.events == old(trace.events) + [Call.EnablePlugin(id)]
    {
      r := reply;
      trace.events := trace.events + [Call.EnablePlugin(id)];
    }

    /** `disablePlugin(id)`. */
    method DisablePlugin(id: string, reply: Settled) returns (r: Settled)
      modifies trace
      ensures r == reply
      ensures trace.events == old(trace.events) + [Call.DisablePlugin(id)]
    {
      r := reply;
      trace.events := trace.events + [Call.DisablePlugin(id)];
    }

    /** `updatePluginSettings(id, settings)`. */
    method UpdatePluginSettings(id: string, settings: SettingEntries, reply: Settled) returns (r: Settled)
      modifies trace
      ensures r == reply
      ensures trace.events == old(trace.events) + [Call.UpdatePluginSettings(id, settings)]
    {
      r := reply;
      trace.events := trace.events + [Call.UpdatePluginSettings(id, settings)];
    }

    /** The `plugins.install` procedure of the main router. */
    method InstallPlugin(reply: Reply<Manifest>) returns (r: Reply<Manifest>)
      modifies trace
      ensures r == reply
      ensures trace.events == old(trace.events) + [Call.InstallPlugin]
    {
      r := reply;
      trace.events := trace.events + [Call.InstallPlugin];
    }

    /** `uninstallPlugin(id)`. */
    method UninstallPlugin(id: string, reply: Settled) returns (r: Settled)
      modifies trace
      ensures r == reply
      ensures trace.events == old(trace.events) + [Call.UninstallPlugin(id)]
    {
      r := reply;
      trace.events := trace.events + [Call.UninstallPlugin(id)];
    }
  }
}
