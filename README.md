# Plugin host and chat cache of the Limbo desktop app, in Dafny

This project models two parts of the renderer of the Limbo desktop chat app.

The first part is the host side of the plugin runtime (`src/features/plugins/hooks.ts`). The model covers:

- the LLM capability registry that the renderer builds from the active plugins;
- the flat list of (plugin, LLM) pairs;
- the bulk load of every installed plugin at start-up;
- the hot reload of one plugin;
- the enable, disable, update-settings, install and uninstall mutations.

The second part is the pair of helpers that keep the chat query cache in step after a chat is deleted or renamed (`src/features/chat/utils.ts`).

Files:

- `common.dfy` (module `Common`) defines `Option`, and `Reply` for how an awaited call settled.
- `plugin_types.dfy` (module `PluginTypes`) holds the manifests, persisted records, store entries, active plugins and their context state, the load outcomes, and the `Call` log entries.
- `plugin_registry.dfy` (module `PluginRegistry`) holds `getLLMs` as the function `FlatLLMs`, and `getRegisteredLLMs` as a method with nested loops. That method is proved equal to the flat list folded into a map.
- `plugin_runtime.dfy` (module `PluginRuntime`) models the store, the plugin system/manager and the backend at the boundary the hooks rely on, as classes that share one `Trace` of the calls made.
- `plugin_hooks.dfy` (module `PluginHooks`) has the class `PluginHost`, one method per callback, plus the specification functions and lemmas for the bulk load.
- `plugin_scenarios.dfy` (module `PluginScenarios`) has client checks. One installs, enables, configures and uninstalls a plugin. The other shows two plugins that both register `model1`.
- `chat_cache.dfy` (module `ChatCache`) has the list updaters as functions and the query cache as a class.

How the environment is modelled:

- Every awaited backend call gets its outcome as a parameter: `Reply<T>`, or `Settled` for calls that return nothing.
- Every `loadPlugin` attempt gets a `LoadOutcome` parameter: `Activated(llms)` or `Threw(cause)`.
- The store, the plugin system and the backend share one `Trace` object. Each of their methods appends its own `Call` to it when it runs, so the trace records the calls actually made, in order. Each host method states the events it appends, so ordering properties such as "unload before disable" are stated on the trace.
- `buildNamespacedResourceId` is a function-typed parameter `buildId`. Nothing is assumed about it; in particular, it need not be injective.

Two details of the hot reload, as the code has them:

- The bulk load's `catch` (hooks.ts:91-95) stores a plugin that failed to load as disabled. `handleReloadPlugin` (hooks.ts:110-121) catches nothing: the store entry is written before the reload, so it keeps the persisted `enabled` flag whatever the load does. `PluginHooks.PluginHost.HandleReloadPlugin` states exactly that.
- The reload writes the store under the requested `pluginId`. It then loads the freshly fetched record, whose manifest id is normally the same.

## Model

| member | source | states |
|---|---|---|
| `ChatCache.WithoutChat` | src/features/chat/utils.ts:18 | no chat with `chatId` survives; a chat is in the result exactly when it was in the input with another id; never longer than the input |
| `ChatCache.WithoutChatIsSubsequence` | src/features/chat/utils.ts:18 | the filtered list is a subsequence of the cached list (relative order kept) |
| `ChatCache.WithoutChatCounts` | src/features/chat/utils.ts:18 | every chat with another id is kept as many times as it occurs; chats with `chatId` occur zero times |
| `ChatCache.WithoutChatAppend` | src/features/chat/utils.ts:18 | filtering distributes over concatenation, so survivors keep their order |
| `ChatCache.WithoutChatNoMatch` | src/features/chat/utils.ts:18 | a list without `chatId` comes back unchanged |
| `ChatCache.WithoutChatIdempotent` | src/features/chat/utils.ts:13-19 | removing the same id twice equals removing it once |
| `ChatCache.RemoveListUpdater` | src/features/chat/utils.ts:13-19 | an absent list stays absent; a present list loses exactly the chats with `chatId` |
| `ChatCache.RemoveListUpdaterIdempotent` | src/features/chat/utils.ts:13-19 | applying the removal updater twice equals applying it once |
| `ChatCache.ReplaceChat` | src/features/chat/utils.ts:39-44 | length and ids are kept; each position with `updated.id` becomes `updated`; every other position is unchanged |
| `ChatCache.ReplaceChatNoMatch` | src/features/chat/utils.ts:39-44 | if no cached chat has `updated.id`, the list is unchanged |
| `ChatCache.ReplaceChatIdempotent` | src/features/chat/utils.ts:39-44 | replacing twice with the same chat equals replacing once |
| `ChatCache.ReplaceChatPresent` | src/features/chat/utils.ts:39-44 | `updated` appears in the result exactly when some cached chat had its id |
| `ChatCache.RemoveAfterReplace` | src/features/chat/utils.ts:13-44 | a rename followed by a delete of the same chat leaves the list that the delete alone leaves |
| `ChatCache.UpdateListUpdater` | src/features/chat/utils.ts:34-45 | an absent list stays absent; length is kept; matching positions become `updated` and others are unchanged; no match means the same list |
| `ChatCache.ChatQueryCache.RemoveChat` | src/features/chat/utils.ts:6-20 | the per-chat `get` entry for `chatId` is dropped, and the list entry becomes the removal updater's result, so it holds no chat with `chatId` |
| `ChatCache.ChatQueryCache.UpdateChat` | src/features/chat/utils.ts:22-46 | the per-chat entry for `updated.id` is set to `updated`, and the list entry becomes the update updater's result |
| `PluginRegistry.FlatLLMs` | src/features/plugins/hooks.ts:198-210 | `getLLMs`: every listed pair is an active plugin with one of its own LLMs (the other direction, order and length are in the rows below) |
| `PluginRegistry.PairsOf` | src/features/plugins/hooks.ts:202-209 | one pair per LLM of the plugin, in `getLLMs()` order |
| `PluginRegistry.FlatLLMsAppend` | src/features/plugins/hooks.ts:201-210 | the flat list of concatenated plugin lists is the concatenation of their flat lists |
| `PluginRegistry.FlatLLMsLength` | src/features/plugins/hooks.ts:201-210 | the flat list's length is the sum of the per-plugin LLM counts |
| `PluginRegistry.FlatLLMsAt` | src/features/plugins/hooks.ts:201-210 | the k-th LLM of the i-th plugin sits at offset (LLMs of the plugins before i) + k, so the list is in plugin order, then LLM order |
| `PluginRegistry.FlatLLMsMembership` | src/features/plugins/hooks.ts:201-210 | a (plugin, llm) pair is listed exactly when the plugin is active and registers that LLM |
| `PluginRegistry.MapOfPairsKeys` | src/features/plugins/hooks.ts:158-164 | the map's keys are exactly the namespaced ids of the visited pairs |
| `PluginRegistry.MapOfPairsLastWins` | src/features/plugins/hooks.ts:158-164 | when several pairs share a namespaced id, the value is the LLM of the one visited last |
| `PluginRegistry.GetRegisteredLLMs` | src/features/plugins/hooks.ts:154-167 | the nested `for` loops over `getPlugins()` and `getLLMs()` build exactly the flat list folded into a map with later writes winning |
| `PluginRegistry.RegisteredLLMsKeys` | src/features/plugins/hooks.ts:154-166 | a key is registered exactly when some active plugin registers an LLM whose namespaced id is that key |
| `PluginScenarios.SameLocalIdTwoPlugins` | src/features/plugins/hooks.ts:154-166 | plugins `a` and `b` may both register local id `model1`; when their namespaced ids differ, the map keeps both LLMs |
| `PluginRuntime.Find` | src/features/plugins/hooks.ts:306-310 | `getPlugin(id)` finds nothing exactly when no active plugin has the id; otherwise it returns an active plugin with that id |
| `PluginRuntime.Unregistered` | src/features/plugins/hooks.ts:119 | after unloading, exactly the plugins with another id remain; the id is no longer active; unique ids are preserved |
| `PluginRuntime.OverlayLastWins` | src/features/plugins/hooks.ts:312-314 | after the settings loop, each submitted key holds the value of its last entry |
| `PluginRuntime.OverlayUntouched` | src/features/plugins/hooks.ts:312-314 | a cached setting whose key was not submitted is unchanged, and an absent one stays absent |
| `PluginRuntime.CacheSettings` | src/features/plugins/hooks.ts:306-314 | caching settings for one plugin keeps the registry's length, ids and id uniqueness |
| `PluginRuntime.CacheSettingsSnoc` | src/features/plugins/hooks.ts:312-314 | caching one entry after a list of entries equals caching the extended list |
| `PluginRuntime.CacheSettingsEffect` | src/features/plugins/hooks.ts:312-314 | only the context settings of the plugin with that id change; its manifest and LLMs stay the same |
| `PluginRuntime.PluginStore.GetPlugin` | src/features/plugins/hooks.ts:278-282 | the store lookup is absent exactly when the id has no entry |
| `PluginRuntime.PluginSystem.LoadPlugin` | src/features/plugins/hooks.ts:90 | a load registers the plugin exactly when its code activated and its id was not active; ids stay unique |
| `PluginRuntime.PluginSystem.UnloadPlugin` | src/features/plugins/hooks.ts:119 | unloading always completes, and the id is no longer active afterwards |
| `PluginRuntime.PluginSystem.SetCachedSettingValue` | src/features/plugins/hooks.ts:313 | one cached write changes only the settings of the plugin with that id, keeps ids unique, and appends its call to the trace |
| `PluginRuntime.PluginStore.SetPlugin` | src/features/plugins/hooks.ts:80-85 | `setPlugin(id, entry)` maps `id` to `entry`, leaves every other entry as it was, and appends its call to the trace |
| `PluginRuntime.PluginStore.RemovePlugin` | src/features/plugins/hooks.ts:352 | `removePlugin(id)` drops exactly the entry for `id` and appends its call to the trace |
| `PluginHooks.BulkLoadedEntry` | src/features/plugins/hooks.ts:80-98 | after the bulk load settles, every listed plugin has a store entry with its manifest; it is enabled exactly when persisted enabled and its attempt did not fail |
| `PluginHooks.BulkLoadedOther` | src/features/plugins/hooks.ts:80-98 | the bulk load leaves store entries of unlisted plugins as they were |
| `PluginHooks.AttemptsRegistry` | src/features/plugins/hooks.ts:87-98 | after all attempts: no active plugin is lost, only listed ids are added, ids stay unique, a plugin whose code threw is marked failed, and a plugin whose attempt did not fail is registered with its context |
| `PluginHooks.AttemptsThrewAbsent` | src/features/plugins/hooks.ts:87-98 | with distinct ids, none already active, a plugin whose code threw is not among the active plugins after the bulk load |
| `PluginHooks.AttemptsFresh` | src/features/plugins/hooks.ts:87-98 | one plugin's failure does not stop a later one: an activated plugin whose id is new is loaded |
| `PluginHooks.AttemptsFailWhenThrew` | src/features/plugins/hooks.ts:87-98 | with distinct ids, none already active, an attempt fails exactly when its code threw |
| `PluginHooks.Disabled` | src/features/plugins/hooks.ts:276-288 | an existing entry becomes disabled with its manifest unchanged; other entries and the key set are unchanged |
| `PluginHooks.PluginHost.LoadPlugins` | src/features/plugins/hooks.ts:77-99 | the trace gets one `getAllPlugins`, then the seeding writes, then every `loadPlugin` in array order, then the `catch` writes; the store ends as `BulkLoaded`; the registry ends as `Attempts`; with distinct ids, none active, a plugin whose code threw is not active; a rejected fetch changes nothing |
| `PluginHooks.PluginHost.SeedStore` | src/features/plugins/hooks.ts:80-85 | one `setPlugin` per record, in order, with its manifest and persisted `enabled` |
| `PluginHooks.PluginHost.StartLoads` | src/features/plugins/hooks.ts:87-90 | every `loadPlugin` is started in array order, before any `catch` runs; the registry and the failed attempts are those of `Attempts` |
| `PluginHooks.PluginHost.DisableFailed` | src/features/plugins/hooks.ts:91-96 | one `setPlugin(..., enabled: false)` per failed attempt, and no other store write |
| `PluginHooks.PluginHost.HandleReloadPlugin` | src/features/plugins/hooks.ts:110-121 | the trace is `getPlugin`, the store write, `unloadPlugin(id)`, `loadPlugin(fresh)`; the registry loses the old plugin and gains the fresh one when it activates |
| `PluginHooks.PluginHost.EnablePlugin` | src/features/plugins/hooks.ts:243-259 | backend enable, then the re-fetch, then the load, each only after the previous succeeded; the entry is set to enabled, as the last call, only when all three succeed; otherwise nothing changes |
| `PluginHooks.PluginHost.DisablePlugin` | src/features/plugins/hooks.ts:272-288 | the trace has the unload before the backend disable; whether or not the disable succeeded, an existing entry is then written disabled with its manifest kept, and a missing entry stays missing |
| `PluginHooks.PluginHost.UpdatePluginSettings` | src/features/plugins/hooks.ts:302-315 | persist first; only on success and only for an active plugin, one `setCachedSettingValue` per submitted entry, in order; no context changes otherwise |
| `PluginHooks.PluginHost.InstallPlugin` | src/features/plugins/hooks.ts:324-330 | after the install call, a successful install writes a store entry with `enabled = false` |
| `PluginHooks.PluginHost.UninstallPlugin` | src/features/plugins/hooks.ts:345-353 | the trace has the unload before the backend uninstall, and the store removal last, only on success |

## Left out

- React machinery (`useState`, `useEffect`, `useMemo`, `useCallback`, context lookups, event subscriptions) and every hook whose body is only that, such as `useActivePlugin`, `usePluginList` and `usePluginContextSettings`. Only the callback bodies are modelled.
- The plugin manager, plugin system, module loader and plugin context are not part of this model. `PluginRuntime.PluginSystem` stands in for them at the boundary the hooks use:
  - a load registers an activated plugin unless its id is already active;
  - unloading always unregisters;
  - `setCachedSettingValue` overwrites one cached key.
- Module evaluation, activation hooks, the host-bridge error callback and the `state:changed` / `plugin:*` notifications are not modelled.
- `PluginRuntime.Loaded`: a freshly loaded plugin's context is assumed to start with exactly the persisted `data.settings`. The plugin context's own code is not part of this model; it may merge these values with the defaults of the declared settings schema.
- LLMs are registered only at activation (`LoadOutcome.Activated(llms)`). Later registrations by plugin code are not modelled.
- `buildNamespacedResourceId` is a parameter with no assumed properties, so whether ids can be extracted back out of it is not stated.
- `Promise.allSettled` in `loadPlugins`: as in the source, every `loadPlugin` is started in array order before any `catch` runs. The model then registers each plugin in array order, and runs the `catch` writes in array order. In the source both follow the order in which the loads complete, which is not modelled. With distinct ids, none of them active, the store and the set of active ids are the same for every completion order: an entry keeps its persisted `enabled` unless its code threw, in which case it is disabled, and an id is absent exactly when its code threw (`BulkLoadedEntry`, `AttemptsFailWhenThrew`, `AttemptsThrewAbsent`). The order of `getPlugins()` does depend on completion order. So the order of `getLLMs` and which LLM wins a shared key in `getRegisteredLLMs` are stated here only for array order.
- Concurrency between callbacks: each host callback is modelled as running alone and to completion. In the source, every `await` lets another callback run: in `loadPlugins` (hooks.ts:78, 87), `handleReloadPlugin` (hooks.ts:112-120), and the enable, disable and uninstall `mutationFn`s (hooks.ts:244-248, 273-274, 346-347). Nothing in hooks.ts serializes operations on the same plugin id. So each stated end state assumes no other callback runs in between: for example, that the plugin is unloaded after a disable or uninstall, and the store after a reload or bulk load. A `plugin:reload` arriving during a disable's `await disablePlugin` can leave the store disabled while the plugin is active again.
- `loadPlugins` (hooks.ts:87-90) and `handleReloadPlugin` (hooks.ts:120) call `loadPlugin` whatever the record's `data.enabled` is. The model's `loadPlugin` therefore registers a plugin persisted as disabled when its code activates. The plugin system's code is not part of this model, so whether it skips such records is not known; registering them is an assumption of the model.
- Backend, tRPC and IPC transport: each call is represented only by its outcome parameter and its `Call` log entry. A rejection that the source does not catch ends the callback. `unloadPlugin` is assumed never to reject.
- PluginHooks.PluginHost.EnablePlugin: the source's `onSuccess` spreads the whole record (including `data`) into the store entry. The model's `StoreEntry` keeps only `manifest` and `enabled`.
- Setting values: JavaScript numbers are modelled as integers. Only the fields the hooks touch are modelled: chats carry `id`, `name` and `createdAt`; manifests carry `id` and `name`.
- UI routes and components, Fuse fuzzy search, settings file I/O, the database migration and build configuration are out of scope.
- TanStack Query's own behaviour beyond one list entry and per-id `get` entries is not modelled (query-key prefix matching, observers, refetching).
