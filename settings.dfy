/** The plugin's persisted configuration: its defaults, how stored data is
    laid over them on load, and what a save writes. */
module Settings {
  import opened Embeds

  datatype Option<T> = None | Some(value: T)

  /** `MyPluginSettings`. */
  datatype PluginSettings = PluginSettings(isEnabled: bool, applyAllEmbed: bool, targets: seq<Embed>)

  /** `DEFAULT_SETTINGS`. */
  const DefaultSettings: PluginSettings := PluginSettings(true, false, [ImageNode, CanvasNode])

  lemma DefaultsAsDocumented()
    ensures DefaultSettings.isEnabled && !DefaultSettings.applyAllEmbed
    ensures DefaultSettings.targets == [ImageNode, CanvasNode]
    ensures Kinds(DefaultSettings.targets) == {ImageEmbed, CanvasEmbed}
    ensures HasType(ImageNode, DefaultSettings.targets) && HasType(CanvasNode, DefaultSettings.targets)
    ensures !HasType(MarkdownNode, DefaultSettings.targets)
    ensures NoDuplicateTypes(DefaultSettings.targets)
  {
    var ts := DefaultSettings.targets;
    assert ts[0].kind == ImageEmbed && ts[1].kind == CanvasEmbed;
  }

  /** What `loadData` returns: a plain object holding any subset of the keys. */
  datatype StoredData = StoredData(isEnabled: Option<bool>, applyAllEmbed: Option<bool>, targets: Option<seq<Embed>>)

  function Overlay<T>(stored: Option<T>, default: T): T {
    match stored
    case Some(v) => v
    case None => default
  }

  /** `Object.assign({}, DEFAULT_SETTINGS, loaded)`: each key present in the
      loaded object wins over the default, a stored target list replaces the
      default list wholesale, and no stored object at all gives the defaults.
      The loaded list is taken as it is, duplicates included. */
  function LoadedSettings(loaded: Option<StoredData>): (s: PluginSettings)
    ensures loaded.None? ==> s == DefaultSettings
    ensures loaded.Some? ==>
      && s.isEnabled == (if loaded.value.isEnabled.Some? then loaded.value.isEnabled.value else DefaultSettings.isEnabled)
      && s.applyAllEmbed == (if loaded.value.applyAllEmbed.Some? then loaded.value.applyAllEmbed.value else DefaultSettings.applyAllEmbed)
      && s.targets == (if loaded.value.targets.Some? then loaded.value.targets.value else DefaultSettings.targets)
  {
    match loaded
    case None => DefaultSettings
    case Some(d) =>
      PluginSettings(
        Overlay(d.isEnabled, DefaultSettings.isEnabled),
        Overlay(d.applyAllEmbed, DefaultSettings.applyAllEmbed),
        Overlay(d.targets, DefaultSettings.targets))
  }

  /** `saveData(settings)`: every key is written. Loading what was saved gives
      back the saved settings field for field. */
  function Persist(s: PluginSettings): (d: StoredData)
    ensures d.isEnabled.Some? && d.applyAllEmbed.Some? && d.targets.Some?
    ensures LoadedSettings(Some(d)) == s
  {
    StoredData(Some(s.isEnabled), Some(s.applyAllEmbed), Some(s.targets))
  }
}
