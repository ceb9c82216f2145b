/**
 * The host-side callbacks of src/features/plugins/hooks.ts with the React
 * wrappers taken off: bulk load on start-up, hot reload, and the enable,
 * disable, update-settings, install and uninstall mutations.
 *
 * Each awaited call into the backend or the plugin system is given its
 * outcome as a parameter (`Reply`, `Settled`, `LoadOutcome`); each host
 * method states the events it appends to the shared `Trace`.
 * A rejection the source does not catch ends the callback at that point.
 */
module PluginHooks {
  import opened Common
  import opened PluginTypes
  import opened PluginRuntime

  // ---------------------------------------------------------------------
  // Bulk load, as a function of the store
  // ---------------------------------------------------------------------

  /** No two records share a plugin id. */
  predicate DistinctIds(records: seq<PluginRecord>)
  {
    forall i, j :: 0 <= i < j < |records| ==> records[i].manifest.id != records[j].manifest.id
  }

  /** The ids of the given records. */
  function RecordIds(records: seq<PluginRecord>): set<string>
  {
    set r | r in records :: r.manifest.id
  }

  /** The store after the first loop: each record's manifest with its persisted `enabled`. */
  function Seeded(store: map<string, StoreEntry>, records: seq<PluginRecord>): map<string, StoreEntry>
  {
    if records == [] then store
    else
      var last := records[|records| - 1];
      Seeded(store, records[..|records| - 1])[last.manifest.id := StoreEntry(last.manifest, last.data.enabled)]
  }

  /** The store after the catch blocks: each failed record's manifest, disabled. */
  function MarkFailed(store: map<string, StoreEntry>, records: seq<PluginRecord>, failed: seq<bool>): map<string, StoreEntry>
    requires |failed| == |records|
  {
    if records == [] then store
    else
      var n := |records| - 1;
      var s := MarkFailed(store, records[..n], failed[..n]);
      if failed[n] then s[records[n].manifest.id := StoreEntry(records[n].manifest, false)] else s
  }

  /** The store once every load attempt of the bulk load has settled. */
  function BulkLoaded(store: map<string, StoreEntry>, records: seq<PluginRecord>, failed: seq<bool>): map<string, StoreEntry>
    requires |failed| == |records|
  {
    MarkFailed(Seeded(store, records), records, failed)
  }

  /** The first loop adds exactly the records' ids and leaves other entries alone. */
  lemma {:induction false} SeededOther(store: map<string, StoreEntry>, records: seq<PluginRecord>, id: string)
    requires id !in RecordIds(records)
    ensures id in Seeded(store, records) <==> id in store
    ensures id in store ==> Seeded(store, records)[id] == store[id]
  {
    if records != [] {
      var n := |records| - 1;
      assert records == records[..n] + [records[n]];
      assert RecordIds(records[..n]) <= RecordIds(records);
      SeededOther(store, records[..n], id);
    }
  }

  lemma {:induction false} SeededEntry(store: map<string, StoreEntry>, records: seq<PluginRecord>, i: nat)
    requires DistinctIds(records) && i < |records|
    ensures records[i].manifest.id in Seeded(store, records)
    ensures Seeded(store, records)[records[i].manifest.id] == StoreEntry(records[i].manifest, records[i].data.enabled)
  {
    var n := |records| - 1;
    if i < n {
      assert DistinctIds(records[..n]);
      SeededEntry(store, records[..n], i);
      assert records[..n][i] == records[i];
    }
  }

  lemma {:induction false} MarkFailedOther(store: map<string, StoreEntry>, records: seq<PluginRecord>, failed: seq<bool>, id: string)
    requires |failed| == |records| && id !in RecordIds(records)
    ensures id in MarkFailed(store, records, failed) <==> id in store
    ensures id in store ==> MarkFailed(store, records, failed)[id] == store[id]
  {
    if records != [] {
      var n := |records| - 1;
      assert records == records[..n] + [records[n]];
      assert RecordIds(records[..n]) <= RecordIds(records);
      MarkFailedOther(store, records[..n], failed[..n], id);
    }
  }

  lemma {:induction false} MarkFailedEntry(store: map<string, StoreEntry>, records: seq<PluginRecord>, failed: seq<bool>, i: nat)
    requires |failed| == |records| && DistinctIds(records) && i < |records|
    requires records[i].manifest.id in store
    ensures records[i].manifest.id in MarkFailed(store, records, failed)
    ensures MarkFailed(store, records, failed)[records[i].manifest.id] ==
            if failed[i] then StoreEntry(records[i].manifest, false) else store[records[i].manifest.id]
  {
    var n := |records| - 1;
    if i < n {
      assert DistinctIds(records[..n]);
      MarkFailedEntry(store, records[..n], failed[..n], i);
      assert records[..n][i] == records[i];
      assert failed[..n][i] == failed[i];
    } else {
      NotAmongEarlier(records, n);
      MarkFailedOther(store, records[..n], failed[..n], records[n].manifest.id);
    }
  }

  /**
   * Bulk load, per plugin: every listed plugin has a store entry with its
   * manifest; it is enabled exactly when it was persisted enabled and its
   * load attempt did not fail.
   */
  lemma BulkLoadedEntry(store: map<string, StoreEntry>, records: seq<PluginRecord>, failed: seq<bool>, i: nat)
    requires |failed| == |records| && DistinctIds(records) && i < |records|
    ensures records[i].manifest.id in BulkLoaded(store, records, failed)
    ensures BulkLoaded(store, records, failed)[records[i].manifest.id] ==
            StoreEntry(records[i].manifest, records[i].data.enabled && !failed[i])
  {
    SeededEntry(store, records, i);
    MarkFailedEntry(Seeded(store, records), records, failed, i);
  }

  /** Bulk load leaves the entries of plugins it did not list as they were. */
  lemma BulkLoadedOther(store: map<string, StoreEntry>, records: seq<PluginRecord>, failed: seq<bool>, id: string)
    requires |failed| == |records| && id !in RecordIds(records)
    ensures id in BulkLoaded(store, records, failed) <==> id in store
    ensures id in store ==> BulkLoaded(store, records, failed)[id] == store[id]
  {
    SeededOther(store, records, id);
    MarkFailedOther(Seeded(store, records), records, failed, id);
  }

  /**
   * With distinct record ids none of which is already active, an attempt
   * fails exactly when the plugin's code threw.
   */
  lemma AttemptsFailWhenThrew(plugins: seq<ActivePlugin>, records: seq<PluginRecord>, outcomes: seq<LoadOutcome>, i: nat)
    requires |outcomes| == |records| && i < |records|
    requires DistinctIds(records) && RecordIds(records) !! IdsOf(plugins)
    ensures Attempts(plugins, records, outcomes).1[i] <==> outcomes[i].Threw?
  {
    AttemptsRegistry(plugins, records, outcomes);
    if outcomes[i].Activated? {
      assert records[i] in records;
      AttemptsFresh(plugins, records, outcomes, i);
    }
  }

  /** A record whose id no earlier record has is not among the earlier ids. */
  lemma NotAmongEarlier(records: seq<PluginRecord>, i: nat)
    requires i < |records|
    requires forall k :: 0 <= k < i ==> records[k].manifest.id != records[i].manifest.id
    ensures records[i].manifest.id !in RecordIds(records[..i])
  {
    forall r | r in records[..i] ensures r.manifest.id != records[i].manifest.id {
      var k :| 0 <= k < i && records[..i][k] == r;
      assert records[k] == r;
    }
  }

  lemma RecordIdsSnoc(records: seq<PluginRecord>, i: nat)
    requires i < |records|
    ensures RecordIds(records[..i + 1]) == RecordIds(records[..i]) + {records[i].manifest.id}
  {
    assert records[..i + 1] == records[..i] + [records[i]];
  }

  /**
   * The registry after `loadPlugin` was attempted for each record in turn,
   * paired with which attempts failed: an attempt fails when the plugin's
   * code threw or a plugin with its id was already active.
   */
  function Attempts(plugins: seq<ActivePlugin>, records: seq<PluginRecord>, outcomes: seq<LoadOutcome>)
    : (r: (seq<ActivePlugin>, seq<bool>))
    requires |outcomes| == |records|
    ensures |r.1| == |records|
  {
    if records == [] then (plugins, [])
    else
      var n := |records| - 1;
      var (registry, failed) := Attempts(plugins, records[..n], outcomes[..n]);
      var ok := outcomes[n].Activated? && records[n].manifest.id !in IdsOf(registry);
      (if ok then registry + [Loaded(records[n], outcomes[n])] else registry, failed + [!ok])
  }

  /**
   * Properties of the settled bulk load: no active plugin is lost, only
   * listed plugins are added, ids stay unique, a plugin whose code threw is
   * marked failed, and a plugin whose attempt did not fail is registered.
   */
  lemma {:induction false} AttemptsRegistry(plugins: seq<ActivePlugin>, records: seq<PluginRecord>, outcomes: seq<LoadOutcome>)
    requires |outcomes| == |records|
    ensures IdsOf(plugins) <= IdsOf(Attempts(plugins, records, outcomes).0) <= IdsOf(plugins) + RecordIds(records)
    ensures UniqueIds(plugins) ==> UniqueIds(Attempts(plugins, records, outcomes).0)
    ensures forall i :: 0 <= i < |records| && outcomes[i].Threw? ==> Attempts(plugins, records, outcomes).1[i]
    ensures forall i :: 0 <= i < |records| && !Attempts(plugins, records, outcomes).1[i] ==>
              outcomes[i].Activated? && Loaded(records[i], outcomes[i]) in Attempts(plugins, records, outcomes).0
  {
    if records != [] {
      var n := |records| - 1;
      AttemptsRegistry(plugins, records[..n], outcomes[..n]);
      var (registry, failed) := Attempts(plugins, records[..n], outcomes[..n]);
      var (registry', failed') := Attempts(plugins, records, outcomes);
      RecordIdsSnoc(records, n);
      assert records[..n + 1] == records;
      assert failed'[..n] == failed;
      forall i | 0 <= i < n ensures records[..n][i] == records[i] && outcomes[..n][i] == outcomes[i] { }
      if registry' != registry {
        assert registry' == registry + [Loaded(records[n], outcomes[n])];
        assert IdsOf(registry') == IdsOf(registry) + {records[n].manifest.id};
        assert forall p :: p in registry ==> p in registry';
      }
    }
  }

  /** An activated plugin whose id was not active and not listed earlier is loaded. */
  lemma {:induction false} AttemptsFresh(plugins: seq<ActivePlugin>, records: seq<PluginRecord>, outcomes: seq<LoadOutcome>, i: nat)
    requires |outcomes| == |records| && i < |records|
    requires outcomes[i].Activated? && records[i].manifest.id !in IdsOf(plugins)
    requires forall k :: 0 <= k < i ==> records[k].manifest.id != records[i].manifest.id
    ensures !Attempts(plugins, records, outcomes).1[i]
  {
    var n := |records| - 1;
    if i < n {
      forall k | 0 <= k < i ensures records[..n][k].manifest.id != records[..n][i].manifest.id {
        assert records[..n][k] == records[k];
      }
      AttemptsFresh(plugins, records[..n], outcomes[..n], i);
    } else {
      AttemptsRegistry(plugins, records[..n], outcomes[..n]);
      NotAmongEarlier(records, n);
    }
  }

  /**
   * A plugin whose code threw is not registered by the bulk load: with
   * distinct record ids none of which was active, no attempt registers its id.
   */
  lemma {:induction false} AttemptsThrewAbsent(plugins: seq<ActivePlugin>, records: seq<PluginRecord>, outcomes: seq<LoadOutcome>, i: nat)
    requires |outcomes| == |records| && i < |records|
    requires DistinctIds(records) && RecordIds(records) !! IdsOf(plugins)
    requires outcomes[i].Threw?
    ensures records[i].manifest.id !in IdsOf(Attempts(plugins, records, outcomes).0)
  {
    var n := |records| - 1;
    var registry := Attempts(plugins, records[..n], outcomes[..n]).0;
    assert DistinctIds(records[..n]);
    assert RecordIds(records[..n]) <= RecordIds(records);
    if i < n {
      AttemptsThrewAbsent(plugins, records[..n], outcomes[..n], i);
      assert records[..n][i] == records[i];
    } else {
      AttemptsRegistry(plugins, records[..n], outcomes[..n]);
      NotAmongEarlier(records, n);
      assert records[n] in records;
    }
    if outcomes[n].Activated? {
      IdsOfSnoc(registry, Loaded(records[n], outcomes[n]));
    }
  }

  /** The ids of a registry with one more plugin. */
  lemma IdsOfSnoc(plugins: seq<ActivePlugin>, p: ActivePlugin)
    ensures IdsOf(plugins + [p]) == IdsOf(plugins) + {p.manifest.id}
  {
  }

  /** The store after the disable mutation settles: an existing entry is disabled, manifest kept. */
  function Disabled(store: map<string, StoreEntry>, id: string): (r: map<string, StoreEntry>)
    ensures r.Keys == store.Keys
    ensures id in store ==> r[id] == StoreEntry(store[id].manifest, false)
    ensures forall k :: k in store && k != id ==> r[k] == store[k]
  {
    if id in store then store[id := store[id].(enabled := false)] else store
  }

  /** One `loadPlugin` call per record, in order. */
  function LoadCalls(records: seq<PluginRecord>): (r: seq<Call>)
    ensures |r| == |records|
    ensures forall i :: 0 <= i < |r| ==> r[i] == LoadPlugin(records[i].manifest.id)
  {
    seq(|records|, i requires 0 <= i < |records| => LoadPlugin(records[i].manifest.id))
  }

  /** One `setCachedSettingValue` call per submitted entry, in order. */
  function SettingCalls(id: string, entries: SettingEntries): (r: seq<Call>)
    ensures |r| == |entries|
    ensures forall i :: 0 <= i < |r| ==> r[i] == SetCachedSettingValue(id, entries[i].0, entries[i].1)
  {
    seq(|entries|, i requires 0 <= i < |entries| => SetCachedSettingValue(id, entries[i].0, entries[i].1))
  }

  /** The store writes of the first loop of `loadPlugins`: one per record, in order. */
  function SeedWrites(records: seq<PluginRecord>): (r: seq<Call>)
    ensures |r| == |records|
    ensures forall i :: 0 <= i < |r| ==>
              r[i] == Call.SetPlugin(records[i].manifest.id, StoreEntry(records[i].manifest, records[i].data.enabled))
  {
    seq(|records|, i requires 0 <= i < |records| =>
      Call.SetPlugin(records[i].manifest.id, StoreEntry(records[i].manifest, records[i].data.enabled)))
  }

  /** The store writes of the `catch` blocks: one per failed attempt, in order. */
  function FailedWrites(records: seq<PluginRecord>, failed: seq<bool>): seq<Call>
    requires |failed| == |records|
  {
    if records == [] then []
    else
      var n := |records| - 1;
      FailedWrites(records[..n], failed[..n])
      + if failed[n] then [Call.SetPlugin(records[n].manifest.id, StoreEntry(records[n].manifest, false))] else []
  }

  // ---------------------------------------------------------------------
  // The host
  // ---------------------------------------------------------------------

  /**
   * The renderer side of the plugin runtime: the hooks' callbacks over the
   * store, the system and the backend, which all record their calls in
   * `trace`.
   */
  class PluginHost {
    const system: PluginSystem
    const store: PluginStore
    const backend: PluginBackend
    const trace: Trace

    ghost predicate Valid()
      reads system
    {
      && system.Valid()
      && system.trace == trace && store.trace == trace && backend.trace == trace
    }

    constructor (system: PluginSystem, store: PluginStore, backend: PluginBackend)
      requires system.Valid() && store.trace == system.trace && backend.trace == system.trace
      ensures Valid() && this.system == system && this.store == store && this.backend == backend
    {
      this.system := system;
      this.store := store;
      this.backend := backend;
      this.trace := system.trace;
    }

    /**
     * `loadPlugins` in `usePluginLoader`: fetch all records, seed the store
     * with each record's persisted `enabled`, then start every load
     * (`Promise.allSettled`); once they have settled, each failed attempt
     * leaves its plugin disabled in the store. One failure does not stop
     * the others.
     */
    method LoadPlugins(fetched: Reply<seq<PluginRecord>>, outcomes: seq<LoadOutcome>) returns (failed: seq<bool>)
      requires Valid()
      requires fetched.Resolved? ==> |outcomes| == |fetched.value|
      modifies system, store, trace
      ensures Valid()
      ensures fetched.Rejected? ==>
        && failed == [] && trace.events == old(trace.events) + [GetAllPlugins]
        && store.plugins == old(store.plugins) && system.plugins == old(system.plugins)
      ensures fetched.Resolved? ==>
        var records := fetched.value;
        && |failed| == |records|
        && trace.events == old(trace.events) + [GetAllPlugins] + SeedWrites(records) + LoadCalls(records)
                           + FailedWrites(records, failed)
        && store.plugins == BulkLoaded(old(store.plugins), records, failed)
        && (system.plugins, failed) == Attempts(old(system.plugins), records, outcomes)
        && old(system.Ids()) <= system.Ids()
        && (forall i :: 0 <= i < |records| && outcomes[i].Threw? ==> failed[i])
        && (forall i :: 0 <= i < |records| && outcomes[i].Activated?
              && records[i].manifest.id !in old(system.Ids())
              && (forall j :: 0 <= j < i ==> records[j].manifest.id != records[i].manifest.id)
              ==> !failed[i])
        && (forall i :: 0 <= i < |records| && !failed[i] ==>
              outcomes[i].Activated? && Loaded(records[i], outcomes[i]) in system.plugins)
        && (DistinctIds(records) && RecordIds(records) !! old(system.Ids()) ==>
              forall i :: 0 <= i < |records| && outcomes[i].Threw? ==> records[i].manifest.id !in system.Ids())
    {
      var reply := backend.GetAllPlugins(fetched);
      if reply.Rejected? {
        failed := [];
        return;
      }
      var records := reply.value;
      SeedStore(records);
      failed := StartLoads(records, outcomes);
      DisableFailed(records, failed);
      AttemptsRegistry(old(system.plugins), records, outcomes);
      forall i | 0 <= i < |records| && outcomes[i].Activated?
          && records[i].manifest.id !in old(system.Ids())
          && (forall j :: 0 <= j < i ==> records[j].manifest.id != records[i].manifest.id)
        ensures !failed[i]
      {
        AttemptsFresh(old(system.plugins), records, outcomes, i);
      }
      if DistinctIds(records) && RecordIds(records) !! old(system.Ids()) {
        forall i | 0 <= i < |records| && outcomes[i].Threw?
          ensures records[i].manifest.id !in system.Ids()
        {
          AttemptsThrewAbsent(old(system.plugins), records, outcomes, i);
        }
      }
    }

    /** The first loop of `loadPlugins`: one `setPlugin` per record. */
    method SeedStore(records: seq<PluginRecord>)
      requires store.trace == trace
      modifies store, trace
      ensures store.plugins == Seeded(old(store.plugins), records)
      ensures trace.events == old(trace.events) + SeedWrites(records)
    {
      for i := 0 to |records|
        invariant store.plugins == Seeded(old(store.plugins), records[..i])
        invariant trace.events == old(trace.events) + SeedWrites(records[..i])
      {
        var record := records[i];
        store.SetPlugin(record.manifest.id, StoreEntry(record.manifest, record.data.enabled));
        assert records[..i + 1][..i] == records[..i];
        assert SeedWrites(records[..i + 1]) == SeedWrites(records[..i]) + [SeedWrites(records[..i + 1])[i]];
      }
      assert records[..|records|] == records;
    }

    /**
     * The `allPlugins.map` of `loadPlugins`: every load is started, in array
     * order, before any `catch` block runs.
     */
    method StartLoads(records: seq<PluginRecord>, outcomes: seq<LoadOutcome>) returns (failed: seq<bool>)
      requires Valid() && |outcomes| == |records|
      modifies system, trace
      ensures Valid()
      ensures (system.plugins, failed) == Attempts(old(system.plugins), records, outcomes)
      ensures |failed| == |records|
      ensures trace.events == old(trace.events) + LoadCalls(records)
    {
      failed := [];
      for i := 0 to |records|
        invariant Valid()
        invariant (system.plugins, failed) == Attempts(old(system.plugins), records[..i], outcomes[..i])
        invariant |failed| == i
        invariant trace.events == old(trace.events) + LoadCalls(records[..i])
      {
        var record := records[i];
        var ok := system.LoadPlugin(record, outcomes[i]);
        ghost var failedBefore := failed;
        failed := failed + [!ok];
        assert records[..i + 1][..i] == records[..i];
        assert outcomes[..i + 1][..i] == outcomes[..i];
        assert failed[..i] == failedBefore;
        assert LoadCalls(records[..i + 1]) == LoadCalls(records[..i]) + [LoadPlugin(record.manifest.id)];
      }
      assert records[..|records|] == records;
      assert outcomes[..|outcomes|] == outcomes;
    }

    /** The `catch` blocks of `loadPlugins`: each failed plugin is stored disabled. */
    method DisableFailed(records: seq<PluginRecord>, failed: seq<bool>)
      requires store.trace == trace && |failed| == |records|
      modifies store, trace
      ensures store.plugins == MarkFailed(old(store.plugins), records, failed)
      ensures trace.events == old(trace.events) + FailedWrites(records, failed)
    {
      for i := 0 to |records|
        invariant store.plugins == MarkFailed(old(store.plugins), records[..i], failed[..i])
        invariant trace.events == old(trace.events) + FailedWrites(records[..i], failed[..i])
      {
        var record := records[i];
        if failed[i] {
          store.SetPlugin(record.manifest.id, StoreEntry(record.manifest, false));
        }
        assert records[..i + 1][..i] == records[..i];
        assert failed[..i + 1][..i] == failed[..i];
      }
      assert records[..|records|] == records;
      assert failed[..|failed|] == failed;
    }

    /**
     * `handleReloadPlugin`: fetch the fresh record, overwrite the store entry
     * under the requested id, then unload and load again. A rejection of any
     * awaited call is not caught and ends the handler there.
     */
    method HandleReloadPlugin(id: string, fetched: Reply<PluginRecord>, outcome: LoadOutcome) returns (loaded: bool)
      requires Valid()
      modifies system, store, trace
      ensures Valid()
      ensures fetched.Rejected? ==>
        && !loaded && trace.events == old(trace.events) + [GetPlugin(id)]
        && store.plugins == old(store.plugins) && system.plugins == old(system.plugins)
      ensures fetched.Resolved? ==>
        var latest := fetched.value;
        var entry := StoreEntry(latest.manifest, latest.data.enabled);
        && trace.events == old(trace.events) +
             [GetPlugin(id), Call.SetPlugin(id, entry), UnloadPlugin(id), LoadPlugin(latest.manifest.id)]
        && store.plugins == old(store.plugins)[id := entry]
        && (loaded <==> outcome.Activated? && latest.manifest.id !in IdsOf(Unregistered(old(system.plugins), id)))
        && (latest.manifest.id == id ==> (loaded <==> outcome.Activated?))
        && system.plugins == Unregistered(old(system.plugins), id) + (if loaded then [Loaded(latest, outcome)] else [])
    {
      loaded := false;
      var reply := backend.GetPlugin(id, fetched);
      if reply.Rejected? {
        return;
      }
      var latest := reply.value;
      store.SetPlugin(id, StoreEntry(latest.manifest, latest.data.enabled));
      system.UnloadPlugin(id);
      loaded := system.LoadPlugin(latest, outcome);
    }

    /**
     * The enable mutation: persist `enabled`, re-fetch the record, load it;
     * only when all three succeed is the store entry set to enabled.
     */
    method EnablePlugin(id: string, enabled: Settled, fetched: Reply<PluginRecord>, outcome: LoadOutcome)
      returns (succeeded: bool)
      requires Valid()
      modifies system, store, trace
      ensures Valid()
      ensures succeeded <==>
        enabled.Resolved? && fetched.Resolved? && outcome.Activated?
        && fetched.value.manifest.id !in old(system.Ids())
      ensures trace.events == old(trace.events)
        + [Call.EnablePlugin(id)]
        + (if enabled.Resolved? then [GetPlugin(id)] else [])
        + (if enabled.Resolved? && fetched.Resolved? then [LoadPlugin(fetched.value.manifest.id)] else [])
        + (if succeeded then [Call.SetPlugin(fetched.value.manifest.id, StoreEntry(fetched.value.manifest, true))] else [])
      ensures succeeded ==>
        && store.plugins == old(store.plugins)[fetched.value.manifest.id := StoreEntry(fetched.value.manifest, true)]
        && system.plugins == old(system.plugins) + [Loaded(fetched.value, outcome)]
      ensures !succeeded ==> store.plugins == old(store.plugins) && system.plugins == old(system.plugins)
    {
      succeeded := false;
      var persisted := backend.EnablePlugin(id, enabled);
      if persisted.Rejected? {
        return;
      }
      var reply := backend.GetPlugin(id, fetched);
      if reply.Rejected? {
        return;
      }
      var plugin := reply.value;
      succeeded := system.LoadPlugin(plugin, outcome);
      if succeeded {
        store.SetPlugin(plugin.manifest.id, StoreEntry(plugin.manifest, true));
      }
    }

    /**
     * The disable mutation: unload, then persist `disabled`; once settled,
     * either way, an existing store entry is marked disabled.
     */
    method DisablePlugin(id: string, disabled: Settled) returns (succeeded: bool)
      requires Valid()
      modifies system, store, trace
      ensures Valid()
      ensures succeeded <==> disabled.Resolved?
      ensures trace.events == old(trace.events) + [UnloadPlugin(id), Call.DisablePlugin(id)]
        + (if id in old(store.plugins) then [Call.SetPlugin(id, StoreEntry(old(store.plugins)[id].manifest, false))] else [])
      ensures system.plugins == Unregistered(old(system.plugins), id) && id !in system.Ids()
      ensures store.plugins == Disabled(old(store.plugins), id)
    {
      system.UnloadPlugin(id);
      var reply := backend.DisablePlugin(id, disabled);
      succeeded := reply.Resolved?;
      var entry := store.GetPlugin(id);
      if entry.None? {
        return;
      }
      store.SetPlugin(id, entry.value.(enabled := false));
    }

    /**
     * The update-settings mutation: persist the settings; on success, if the
     * plugin is active, cache each submitted entry in its context in order.
     */
    method UpdatePluginSettings(id: string, settings: SettingEntries, persisted: Settled) returns (applied: bool)
      requires Valid()
      modifies system, trace
      ensures Valid()
      ensures applied <==> persisted.Resolved? && id in old(system.Ids())
      ensures trace.events == old(trace.events) + [Call.UpdatePluginSettings(id, settings)]
        + (if applied then SettingCalls(id, settings) else [])
      ensures system.plugins == if applied then CacheSettings(old(system.plugins), id, settings) else old(system.plugins)
    {
      applied := false;
      var reply := backend.UpdatePluginSettings(id, settings, persisted);
      if reply.Rejected? {
        return;
      }
      var plugin := Find(system.plugins, id);
      if plugin.None? {
        return;
      }
      applied := true;
      ghost var before := system.plugins;
      ghost var eventsBefore := trace.events;
      assert settings[..0] == [];
      assert CacheSettings(before, id, []) == before;
      for i := 0 to |settings|
        invariant system.Valid()
        invariant system.plugins == CacheSettings(before, id, settings[..i])
        invariant trace.events == eventsBefore + SettingCalls(id, settings[..i])
      {
        var (key, value) := settings[i];
        system.SetCachedSettingValue(id, key, value);
        CacheSettingsSnoc(before, id, settings[..i], key, value);
        assert settings[..i + 1] == settings[..i] + [(key, value)];
        assert SettingCalls(id, settings[..i + 1]) == SettingCalls(id, settings[..i]) + [SetCachedSettingValue(id, key, value)];
      }
      assert settings[..|settings|] == settings;
    }

    /** The install mutation's `onSuccess`: a new store entry, disabled by default. */
    method InstallPlugin(installed: Reply<Manifest>)
      requires Valid()
      modifies store, trace
      ensures Valid()
      ensures trace.events == old(trace.events) + [Call.InstallPlugin]
        + (if installed.Resolved? then [Call.SetPlugin(installed.value.id, StoreEntry(installed.value, false))] else [])
      ensures store.plugins == if installed.Resolved?
        then old(store.plugins)[installed.value.id := StoreEntry(installed.value, false)]
        else old(store.plugins)
    {
      var reply := backend.InstallPlugin(installed);
      if reply.Resolved? {
        store.SetPlugin(reply.value.id, StoreEntry(reply.value, false));
      }
    }

    /** The uninstall mutation: unload, then uninstall; on success the store entry is removed. */
    method UninstallPlugin(id: string, uninstalled: Settled) returns (succeeded: bool)
      requires Valid()
      modifies system, store, trace
      ensures Valid()
      ensures succeeded <==> uninstalled.Resolved?
      ensures trace.events == old(trace.events) + [UnloadPlugin(id), Call.UninstallPlugin(id)]
        + (if succeeded then [Call.RemovePlugin(id)] else [])
      ensures system.plugins == Unregistered(old(system.plugins), id) && id !in system.Ids()
      ensures store.plugins == if succeeded then old(store.plugins) - {id} else old(store.plugins)
    {
      system.UnloadPlugin(id);
      var reply := backend.UninstallPlugin(id, uninstalled);
      succeeded := reply.Resolved?;
      if succeeded {
        store.RemovePlugin(id);
      }
    }
  }
}
