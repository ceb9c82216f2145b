/**
 * The values the plugin host passes around: persisted plugin records, the
 * entries of the renderer's plugin store, active plugins with their context
 * state, the outcome of a load attempt, and the external calls the host makes.
 */
module PluginTypes {

  /** The immutable descriptor of an installed plugin. */
  datatype Manifest = Manifest(id: string, name: string)

  /** A persisted setting value. */
  datatype SettingValue = Text(text: string) | Number(number: int) | Toggle(on: bool)

  /** Submitted settings as `Object.entries(settings)` yields them: key/value pairs in order. */
  type SettingEntries = seq<(string, SettingValue)>

  /** The persisted part of a plugin record besides its manifest. */
  datatype PluginData = PluginData(enabled: bool, settings: map<string, SettingValue>)

  /** A plugin record as the backend returns it from `getPlugin` / `getAllPlugins`. */
  datatype PluginRecord = PluginRecord(manifest: Manifest, data: PluginData)

  /** An LLM provider a plugin registers; `id` is local to the plugin. */
  datatype LLM = LLM(id: string, name: string)

  /** The state held by a running plugin's context: cached settings and registered LLMs. */
  datatype PluginContext = PluginContext(settings: map<string, SettingValue>, llms: seq<LLM>)

  /** A plugin the manager currently holds as running. */
  datatype ActivePlugin = ActivePlugin(manifest: Manifest, context: PluginContext)

  /** An entry of the renderer's plugin store (`usePluginStore`). */
  datatype StoreEntry = StoreEntry(manifest: Manifest, enabled: bool)

  /**
   * How an attempt to load and activate a plugin's code ends: activation ran
   * and the plugin registered `llms`, or loading or activation threw.
   */
  datatype LoadOutcome = Activated(llms: seq<LLM>) | Threw(cause: string)

  /**
   * An external call the host makes, recorded in the order it is made: the
   * backend's calls, the plugin system's, and the writes to the store.
   */
  datatype Call =
    | GetAllPlugins
    | GetPlugin(id: string)
    | EnablePlugin(id: string)
    | DisablePlugin(id: string)
    | UpdatePluginSettings(id: string, settings: SettingEntries)
    | InstallPlugin
    | UninstallPlugin(id: string)
    | LoadPlugin(id: string)
    | UnloadPlugin(id: string)
    | SetCachedSettingValue(id: string, key: string, value: SettingValue)
    | SetPlugin(id: string, entry: StoreEntry)
    | RemovePlugin(id: string)
}
