/**
 * Client checks: short sequences of host operations whose outcome follows
 * from the contracts of the hooks alone.
 */
module PluginScenarios {
  import opened Common
  import opened PluginTypes
  import opened PluginRuntime
  import opened PluginRegistry
  import opened PluginHooks

  /**
   * Install "weather" (disabled by default), enable it, change a setting,
   * then uninstall it.
   */
  method InstallEnableUninstall()
  {
    var trace := new Trace();
    var system := new PluginSystem(trace);
    var store := new PluginStore(trace);
    var backend := new PluginBackend(trace);
    var host := new PluginHost(system, store, backend);
    var weather := Manifest("weather", "Weather");
    host.InstallPlugin(Resolved(weather));
    assert store.plugins == map["weather" := StoreEntry(weather, false)];
    assert trace.events == [Call.InstallPlugin, Call.SetPlugin("weather", StoreEntry(weather, false))];

    var record := PluginRecord(weather, PluginData(true, map[]));
    ghost var before := trace.events;
    var ok := host.EnablePlugin("weather", Resolved(()), Resolved(record), Activated([]));
    assert ok;
    assert store.plugins["weather"].enabled;
    assert Find(system.plugins, "weather") == Some(Loaded(record, Activated([])));
    assert trace.events == before + [Call.EnablePlugin("weather"), GetPlugin("weather"), LoadPlugin("weather"),
                                     Call.SetPlugin("weather", StoreEntry(weather, true))];

    before := trace.events;
    var applied := host.UpdatePluginSettings("weather", [("unit", Text("celsius"))], Resolved(()));
    assert applied;
    CacheSettingsEffect([Loaded(record, Activated([]))], "weather", [("unit", Text("celsius"))], 0);
    OverlayLastWins(map[], [("unit", Text("celsius"))], 0);
    assert system.plugins[0].context.settings["unit"] == Text("celsius");
    assert trace.events == before + [Call.UpdatePluginSettings("weather", [("unit", Text("celsius"))]),
                                     SetCachedSettingValue("weather", "unit", Text("celsius"))];

    before := trace.events;
    ok := host.UninstallPlugin("weather", Resolved(()));
    assert "weather" !in store.plugins && "weather" !in system.Ids();
    assert trace.events == before + [UnloadPlugin("weather"), Call.UninstallPlugin("weather"), RemovePlugin("weather")];
  }

  /**
   * Two plugins that each register an LLM with the local id "model1": as
   * long as their namespaced ids differ, the registry keeps both.
   */
  lemma SameLocalIdTwoPlugins(buildId: (string, string) -> string, model1a: LLM, model1b: LLM)
    requires model1a.id == "model1" && model1b.id == "model1"
    requires buildId("a", "model1") != buildId("b", "model1")
    ensures var plugins := [ActivePlugin(Manifest("a", "A"), PluginContext(map[], [model1a])),
                            ActivePlugin(Manifest("b", "B"), PluginContext(map[], [model1b]))];
            && buildId("a", "model1") in RegisteredLLMs(buildId, plugins)
            && buildId("b", "model1") in RegisteredLLMs(buildId, plugins)
            && RegisteredLLMs(buildId, plugins)[buildId("a", "model1")] == model1a
            && RegisteredLLMs(buildId, plugins)[buildId("b", "model1")] == model1b
  {
    var a := ActivePlugin(Manifest("a", "A"), PluginContext(map[], [model1a]));
    var b := ActivePlugin(Manifest("b", "B"), PluginContext(map[], [model1b]));
    FlatLLMsAt([a, b], 0, 0);
    FlatLLMsAt([a, b], 1, 0);
    FlatLLMsLength([a, b]);
    assert [a, b][..0] == [] && [a, b][..1] == [a] && [a, b][1..] == [b] && [a][1..] == [] && [b][1..] == [];
    assert TotalLLMs([a]) == 1 && TotalLLMs([a, b]) == 2;
    var pairs := FlatLLMs([a, b]);
    assert pairs[0] == PluginLLM(a, model1a) && pairs[1] == PluginLLM(b, model1b);
    MapOfPairsLastWins(buildId, pairs, 0);
    MapOfPairsLastWins(buildId, pairs, 1);
  }
}
