/**
 * The LLM capability registry the renderer derives from the active plugins
 * (`getRegisteredLLMs` in `useRegisteredLLMs`, `getLLMs` in
 * `useRegisteredLLMsList`, src/features/plugins/hooks.ts).
 *
 * `buildNamespacedResourceId` is not part of this model: it is passed in as
 * `buildId`, and nothing is assumed about it (in particular not that it is
 * injective).
 */
module PluginRegistry {
  import opened PluginTypes

  /** One (plugin, llm) pair of the flat list. */
  datatype PluginLLM = PluginLLM(plugin: ActivePlugin, llm: LLM)

  /** The pairs one plugin contributes, in `context.getLLMs()` order. */
  function PairsOf(p: ActivePlugin): (r: seq<PluginLLM>)
    ensures |r| == |p.context.llms|
    ensures forall k :: 0 <= k < |r| ==> r[k] == PluginLLM(p, p.context.llms[k])
  {
    seq(|p.context.llms|, k requires 0 <= k < |p.context.llms| => PluginLLM(p, p.context.llms[k]))
  }

  /** `getLLMs`: `plugins.flatMap((plugin) => plugin.context.getLLMs().map(...))`. */
  function FlatLLMs(plugins: seq<ActivePlugin>): (r: seq<PluginLLM>)
    ensures forall k :: 0 <= k < |r| ==> r[k].plugin in plugins && r[k].llm in r[k].plugin.context.llms
  {
    if plugins == [] then []
    else
      var rest := FlatLLMs(plugins[1..]);
      assert forall p :: p in plugins[1..] ==> p in plugins;
      PairsOf(plugins[0]) + rest
  }

  /** The number of LLMs the given plugins register between them. */
  function TotalLLMs(plugins: seq<ActivePlugin>): nat
  {
    if plugins == [] then 0 else |plugins[0].context.llms| + TotalLLMs(plugins[1..])
  }

  /** The flat list of a concatenation is the concatenation of the flat lists. */
  lemma {:induction false} FlatLLMsAppend(a: seq<ActivePlugin>, b: seq<ActivePlugin>)
    ensures FlatLLMs(a + b) == FlatLLMs(a) + FlatLLMs(b)
  {
    if a == [] {
      assert a + b == b;
    } else {
      assert (a + b)[1..] == a[1..] + b;
      FlatLLMsAppend(a[1..], b);
    }
  }

  /** The flat list has one entry per registered LLM. */
  lemma {:induction false} FlatLLMsLength(plugins: seq<ActivePlugin>)
    ensures |FlatLLMs(plugins)| == TotalLLMs(plugins)
  {
    if plugins != [] {
      FlatLLMsLength(plugins[1..]);
    }
  }

  /**
   * Order: the k-th LLM of the i-th plugin sits right after the LLMs of all
   * earlier plugins.
   */
  lemma {:induction false} FlatLLMsAt(plugins: seq<ActivePlugin>, i: nat, k: nat)
    requires i < |plugins| && k < |plugins[i].context.llms|
    ensures TotalLLMs(plugins[..i]) + k < |FlatLLMs(plugins)|
    ensures FlatLLMs(plugins)[TotalLLMs(plugins[..i]) + k] == PluginLLM(plugins[i], plugins[i].context.llms[k])
  {
    FlatLLMsLength(plugins);
    if i == 0 {
      assert plugins[..0] == [];
    } else {
      FlatLLMsAt(plugins[1..], i - 1, k);
      assert plugins[1..][..i - 1] == plugins[..i][1..];
      assert plugins[..i][0] == plugins[0];
    }
  }

  /** Membership: a pair is listed exactly when its plugin is active and registers that LLM. */
  lemma {:induction false} FlatLLMsMembership(plugins: seq<ActivePlugin>, x: PluginLLM)
    ensures x in FlatLLMs(plugins) <==> x.plugin in plugins && x.llm in x.plugin.context.llms
  {
    if plugins != [] {
      FlatLLMsMembership(plugins[1..], x);
      assert plugins == [plugins[0]] + plugins[1..];
      if x.plugin == plugins[0] && x.llm in x.plugin.context.llms {
        var k :| 0 <= k < |x.plugin.context.llms| && x.plugin.context.llms[k] == x.llm;
        assert PairsOf(plugins[0])[k] == x;
      }
    }
  }

  /** The registry key of a pair: `buildNamespacedResourceId(plugin.manifest.id, llm.id)`. */
  function Key(buildId: (string, string) -> string, x: PluginLLM): string
  {
    buildId(x.plugin.manifest.id, x.llm.id)
  }

  /** The map obtained by `set`-ting the pairs of `pairs` one after another. */
  function MapOfPairs(buildId: (string, string) -> string, pairs: seq<PluginLLM>): map<string, LLM>
  {
    if pairs == [] then map[]
    else MapOfPairs(buildId, pairs[..|pairs| - 1])[Key(buildId, pairs[|pairs| - 1]) := pairs[|pairs| - 1].llm]
  }

  /** The registered-LLMs map: the flat list folded into a map, later entries winning. */
  function RegisteredLLMs(buildId: (string, string) -> string, plugins: seq<ActivePlugin>): map<string, LLM>
  {
    MapOfPairs(buildId, FlatLLMs(plugins))
  }

  /** The map's keys are exactly the keys of the listed pairs. */
  lemma {:induction false} MapOfPairsKeys(buildId: (string, string) -> string, pairs: seq<PluginLLM>, key: string)
    ensures key in MapOfPairs(buildId, pairs) <==> exists i :: 0 <= i < |pairs| && Key(buildId, pairs[i]) == key
  {
    if pairs != [] {
      var n := |pairs| - 1;
      MapOfPairsKeys(buildId, pairs[..n], key);
      if key in MapOfPairs(buildId, pairs[..n]) {
        var i :| 0 <= i < n && Key(buildId, pairs[..n][i]) == key;
        assert pairs[i] == pairs[..n][i];
      }
      if exists i :: 0 <= i < |pairs| && Key(buildId, pairs[i]) == key {
        var i :| 0 <= i < |pairs| && Key(buildId, pairs[i]) == key;
        if i < n {
          assert pairs[..n][i] == pairs[i];
        }
      }
    }
  }

  /** When several pairs share a key, the one visited last decides the value. */
  lemma {:induction false} MapOfPairsLastWins(buildId: (string, string) -> string, pairs: seq<PluginLLM>, i: nat)
    requires i < |pairs|
    requires forall j :: i < j < |pairs| ==> Key(buildId, pairs[j]) != Key(buildId, pairs[i])
    ensures Key(buildId, pairs[i]) in MapOfPairs(buildId, pairs)
    ensures MapOfPairs(buildId, pairs)[Key(buildId, pairs[i])] == pairs[i].llm
  {
    var n := |pairs| - 1;
    if i < n {
      forall j | i < j < n
        ensures Key(buildId, pairs[..n][j]) != Key(buildId, pairs[..n][i])
      {
        assert pairs[..n][j] == pairs[j];
      }
      MapOfPairsLastWins(buildId, pairs[..n], i);
      assert pairs[..n][i] == pairs[i];
    }
  }

  /** Adding one pair at the end is one more `set`. */
  lemma MapOfPairsSnoc(buildId: (string, string) -> string, pairs: seq<PluginLLM>, x: PluginLLM)
    ensures MapOfPairs(buildId, pairs + [x]) == MapOfPairs(buildId, pairs)[Key(buildId, x) := x.llm]
  {
    assert (pairs + [x])[..|pairs|] == pairs;
  }

  /** One more plugin in the walk appends its pairs. */
  lemma FlatLLMsSnoc(plugins: seq<ActivePlugin>, i: nat)
    requires i < |plugins|
    ensures FlatLLMs(plugins[..i + 1]) == FlatLLMs(plugins[..i]) + PairsOf(plugins[i])
  {
    assert plugins[..i + 1] == plugins[..i] + [plugins[i]];
    FlatLLMsAppend(plugins[..i], [plugins[i]]);
    assert [plugins[i]][1..] == [];
    assert FlatLLMs([plugins[i]]) == PairsOf(plugins[i]) + [];
  }

  /** One more LLM of the current plugin in the walk is one more `set`. */
  lemma WalkStep(buildId: (string, string) -> string, before: seq<PluginLLM>, p: ActivePlugin, j: nat)
    requires j < |p.context.llms|
    ensures MapOfPairs(buildId, before + PairsOf(p)[..j + 1]) ==
            MapOfPairs(buildId, before + PairsOf(p)[..j])[buildId(p.manifest.id, p.context.llms[j].id) := p.context.llms[j]]
  {
    assert before + PairsOf(p)[..j + 1] == (before + PairsOf(p)[..j]) + [PluginLLM(p, p.context.llms[j])];
    MapOfPairsSnoc(buildId, before + PairsOf(p)[..j], PluginLLM(p, p.context.llms[j]));
  }

  /**
   * `getRegisteredLLMs`: walk the plugins in `getPlugins()` order and, for
   * each, its LLMs in `getLLMs()` order, setting the namespaced id to the LLM.
   */
  method GetRegisteredLLMs(buildId: (string, string) -> string, plugins: seq<ActivePlugin>)
    returns (registered: map<string, LLM>)
    ensures registered == RegisteredLLMs(buildId, plugins)
  {
    registered := map[];
    for i := 0 to |plugins|
      invariant registered == MapOfPairs(buildId, FlatLLMs(plugins[..i]))
    {
      var plugin := plugins[i];
      var pluginLLMs := plugin.context.llms;
      ghost var before := FlatLLMs(plugins[..i]);
      assert before + PairsOf(plugin)[..0] == before;
      for j := 0 to |pluginLLMs|
        invariant registered == MapOfPairs(buildId, before + PairsOf(plugin)[..j])
      {
        var llm := pluginLLMs[j];
        WalkStep(buildId, before, plugin, j);
        registered := registered[buildId(plugin.manifest.id, llm.id) := llm];
      }
      assert PairsOf(plugin)[..|pluginLLMs|] == PairsOf(plugin);
      FlatLLMsSnoc(plugins, i);
    }
    assert plugins[..|plugins|] == plugins;
  }

  /**
   * The registry, stated over the plugins: a key is present exactly when some
   * active plugin registers an LLM that builds to it.
   */
  lemma RegisteredLLMsKeys(buildId: (string, string) -> string, plugins: seq<ActivePlugin>, key: string)
    ensures key in RegisteredLLMs(buildId, plugins) <==>
            exists p, llm :: p in plugins && llm in p.context.llms && buildId(p.manifest.id, llm.id) == key
  {
    var pairs := FlatLLMs(plugins);
    MapOfPairsKeys(buildId, pairs, key);
    if key in RegisteredLLMs(buildId, plugins) {
      var i :| 0 <= i < |pairs| && Key(buildId, pairs[i]) == key;
      FlatLLMsMembership(plugins, pairs[i]);
    }
    if exists p, llm :: p in plugins && llm in p.context.llms && buildId(p.manifest.id, llm.id) == key {
      var p, llm :| p in plugins && llm in p.context.llms && buildId(p.manifest.id, llm.id) == key;
      FlatLLMsMembership(plugins, PluginLLM(p, llm));
      var i :| 0 <= i < |pairs| && pairs[i] == PluginLLM(p, llm);
      assert Key(buildId, pairs[i]) == key;
    }
  }
}
