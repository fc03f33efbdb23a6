# Canvas card background remover — a Dafny model

This project models the core of an Obsidian plugin that makes canvas cards
transparent. The plugin keeps three settings:

- `isEnabled`: whether the plugin is on;
- `applyAllEmbed`: whether every card type is targeted;
- `targets`: the list of selected embed kinds (image, canvas, markdown).

The plugin writes one global `<style>` element. Its text is built by
`buildStyle` from a fixed CSS template with three sections: normal, focused
and hovered. Commands and a settings tab change the settings, save them, and
rebuild the style text.

The model has five modules, one per part of `main.ts`:

- `Embeds` (`embeds.dfy`) holds the closed catalogue of embed kinds. It has
  `indexInArr` and `hasType`, and the two edits a target toggle makes: `push`
  and `splice`. These are pure functions on `seq<Embed>`.
- `Styles` (`styles.dfy`) holds `buildStyle` as a pure function on strings:
  - the class suffix and the comment caption chosen from the node type;
  - the heading text of each section;
  - where the suffix is spliced into the rules;
  - the guarded, ordered accumulation of the sections.
- `Settings` (`settings.dfy`) holds the defaults, the key-by-key overlay that
  `loadSettings` performs, and what `saveSettings` writes.
- `PluginCore` (`plugin.dfy`) holds the style resolver as specification
  functions, and `class Plugin`. Its fields are:
  - the settings;
  - the text of the style element;
  - the persisted store.

  Its methods are `clearStyle`, `generateStyle` (a loop over the targets),
  `applySettings`, `loadSettings`/`onload`, `saveSettings`, `saveAndReload`,
  `onunload`, and the "Turn on" / "Turn off" commands. Each method is proved
  against the specification functions.
- `SettingsPanel` (`settings_tab.dfy`) holds `class SettingsTab`. It has one
  row per embed kind, `_refreshTargetFields` (two in-place loops over the
  rows), the state logic of `display`, and the `onChange` handlers of the
  "Enabled", "Apply to All Cards" and per-target toggles.

Persistence is asynchronous in the plugin. The model turns each save into a
boolean parameter, `saveSucceeded`:

- a successful save stores `Persist(settings)` and then reapplies the style;
- a rejected save runs the empty rejection handler, so both the store and the
  style element stay as they were.

A rejected save runs the empty rejection handler and does not reapply
(`main.ts:186-190`).

## Model

| member | source | states |
|---|---|---|
| Embeds.TypeNameInjective | main.ts:293 | comparing the `type` strings of two embeds, as `indexInArr` does, is the same as comparing their kinds |
| Embeds.AllEmbedsIsTheCatalogue | main.ts:37 | `AllEmbeds` lists every kind exactly once |
| Embeds.IndexInArr | main.ts:291-295 | the result is -1 or an index in range; at that index the type matches; no earlier index matches; -1 means no element matches |
| Embeds.HasType | main.ts:287-289 | true exactly when some element of the list has the target's type |
| Embeds.HasTypeIffInKinds | main.ts:287-289 | `hasType` is membership of the target's kind in the set of kinds of the list |
| Embeds.WithTarget | main.ts:264-268 | switching on an absent type pushes the target itself at the end; a present type (duplicates or not) leaves the list unchanged; so the old list is a prefix and at most one element is added; the kinds become the old kinds plus the target's; a list without duplicate types keeps none |
| Embeds.WithoutTarget | main.ts:269-273 | switching off an absent type leaves the list unchanged; for a present type, the list is one shorter, and every element before the first match keeps its place while every element after it moves down by one; on a duplicate-free list exactly the target's kind disappears and no duplicate appears |
| Embeds.ToggleSettlesMembership | main.ts:264-274 | after switching on, the type is present; after switching off a duplicate-free list, it is absent; so repeating the same toggle finds nothing to do |
| Embeds.WithTargetIdempotent | main.ts:264-268 | switching on twice equals switching on once |
| Embeds.WithoutTargetIdempotent | main.ts:269-273 | on a duplicate-free list, switching off twice equals switching off once |
| Embeds.WithoutUndoesWith | main.ts:264-273 | switching an absent type on and then off restores the original list |
| Embeds.WithUndoesWithoutUpToOrder | main.ts:264-273 | switching a present type off and then on keeps the same set of kinds, with the target moved to the end |
| Styles.SuffixAndLabel | main.ts:47-48 | an empty node type gives an empty class suffix and the caption `ALL`; a non-empty type gives `.type` for both |
| Styles.BuildStyle | main.ts:45-94 | the result is empty exactly when all three flags are false |
| Styles.BuildStyleOpensWithHeading | main.ts:49-82 | the text starts with a newline and the comment heading of the first enabled section, which names the caption and the state |
| Styles.BuildStyleIsOrderedSections | main.ts:45-94 | the text is the enabled sections, each after a newline, in the order normal, focus, hover, measured against an independent rendering of the list of enabled states |
| Styles.BuildStyleSplits | main.ts:49-92 | each flag contributes its own section whatever the other flags are |
| Styles.SectionLength | main.ts:50-90 | a section is its fixed text plus the class suffix twice (once per rule) and the caption once |
| Styles.FullStyleLength | main.ts:45-94 | the full three-section text is the fixed template length plus six copies of the suffix and three of the caption |
| Styles.LongerNodeTypeLongerStyle | main.ts:47-48 | a longer node type gives a strictly longer full stylesheet |
| Settings.DefaultsAsDocumented | main.ts:39-43 | the defaults are enabled, not apply-all, and targets `[Image, Canvas]`: image and canvas are selected, markdown is not, and there are no duplicates |
| Settings.LoadedSettings | main.ts:178-180 | with no stored object the result is the defaults; otherwise each stored key wins over its default, absent keys keep the default, and a stored target list replaces the default list as a whole |
| Settings.Persist | main.ts:182-184 | a save writes every key, and loading what was saved gives back the same settings |
| PluginCore.TargetBlockLongerThanAll | main.ts:125-130 | every per-target block is strictly longer than the all-types block |
| PluginCore.PerTargetStyleShape | main.ts:127-131 | the per-target text is empty exactly when there are no targets; otherwise it is longer than, and so different from, the all-types block |
| PluginCore.ResolvedStyleModes | main.ts:166-172 | off gives the empty text; the text equals the all-types block exactly when the plugin is on with apply-all; the text is empty exactly when the plugin is off or no target is selected without apply-all; on without apply-all gives the per-target text |
| PluginCore.ApplyAllIgnoresTargets | main.ts:125-126 | with apply-all on, the target list has no effect on the text |
| PluginCore.ToggleOnAppendsBlock | main.ts:264-268 | switching an absent target on appends exactly its block to the per-target text |
| PluginCore.PerTargetStyleSplitsAt | main.ts:128-130 | the per-target text is the blocks before a position, the block at it, and the blocks after it |
| PluginCore.ToggleOffDropsBlock | main.ts:269-273 | switching a present target off removes exactly the block of its first occurrence and keeps the blocks before and after it in order |
| PluginCore.Plugin.constructor | main.ts:96-101 | a new plugin holds the defaults, an empty style element and the given store |
| PluginCore.Plugin.ClearStyle | main.ts:117-120 | the style text becomes empty |
| PluginCore.Plugin.GenerateStyle | main.ts:122-134 | the style text becomes the all-types block under apply-all, and otherwise the in-order concatenation of the blocks of the given targets; the loop invariant is the text of the processed prefix |
| PluginCore.Plugin.ApplySettings | main.ts:166-172 | the style text becomes the resolved style of the current settings, whatever it was before |
| PluginCore.Plugin.OnUnload | main.ts:174-176 | the style text becomes empty |
| PluginCore.Plugin.LoadSettings | main.ts:178-180 | the settings become the overlay of the store on the defaults |
| PluginCore.Plugin.OnLoad | main.ts:136-145 | the settings are loaded, then the style text is the resolved style of the loaded settings |
| PluginCore.Plugin.SaveSettings | main.ts:182-184 | a successful save stores the persisted settings; a rejected one leaves the store as it was |
| PluginCore.Plugin.SaveAndReload | main.ts:186-190 | after a successful save, the store holds the settings and the style is reapplied; after a rejected save, the store and the style element are unchanged |
| PluginCore.Plugin.TurnOn | main.ts:148-155 | `isEnabled` becomes true and nothing else in the settings changes; then save and reload as above |
| PluginCore.Plugin.TurnOff | main.ts:156-163 | `isEnabled` becomes false; save and reload as above; after a successful save the style element is empty |
| SettingsPanel.NewField | main.ts:259-263 | a new row is enabled, has no inline display and has nothing saved; its toggle starts at the given value |
| SettingsPanel.Hidden | main.ts:205-209 | a hidden row is disabled with display `none`, and its saved slot holds the display it had |
| SettingsPanel.Shown | main.ts:212-215 | a shown row is enabled, and its display is whatever the saved slot holds |
| SettingsPanel.ShowUndoesHide | main.ts:203-218 | hiding then showing a row gives back its display |
| SettingsPanel.ShowIdempotent | main.ts:212-215 | showing twice equals showing once |
| SettingsPanel.HideTwiceLosesDisplay | main.ts:205-209 | hiding twice overwrites the saved slot with `none`, so a later show does not restore any other display |
| SettingsPanel.SettingsTab.constructor | main.ts:195-198 | the tab is bound to its plugin and has no rows yet |
| SettingsPanel.SettingsTab.RefreshTargetFields | main.ts:203-218 | every row is hidden when apply-all is on and shown otherwise; rows keep their number and order |
| SettingsPanel.SettingsTab.Display | main.ts:256-280 | one row per kind in catalogue order; each toggle starts on exactly when its kind is selected; rows are then disabled and hidden exactly when apply-all is on |
| SettingsPanel.SettingsTab.OnEnabledChange | main.ts:236-239 | `isEnabled` takes the new value and nothing else in the settings changes; then save and reload |
| SettingsPanel.SettingsTab.OnApplyAllChange | main.ts:249-253 | `applyAllEmbed` takes the new value and the targets are untouched; the rows are refreshed for the new value; then save and reload |
| SettingsPanel.SettingsTab.OnTargetChange | main.ts:263-274 | a toggle that matches the current membership changes nothing (no save, no reload); otherwise the targets become the pushed or spliced list, and then save and reload |

## Left out

- The DOM is not modelled. `getGlobalStyleEl` (main.ts:103-115) is reduced to the `styleText` field of the plugin: one element, created on demand.
- The Obsidian lifecycle is not modelled: `addSettingTab`, `addCommand` registration, and the construction of `Setting` and toggle widgets. Only the state changes of `onload`, of the command callbacks and of the `onChange` handlers are kept.
- The asynchronous ordering of `loadData`/`saveData` and promises is not modelled. Each save is atomic, and its outcome is a parameter.
- Byte-exact CSS text is not modelled. The seven fixed fragments of the rule text are unspecified constants in `Styles`. The model keeps:
  - the literal comment headings;
  - the two places per section where the class suffix is spliced in;
  - the section order and the flag that guards each section.
- Loaded data is not validated in the plugin, and the model does not validate it either. Values of the wrong type, `null` keys and unknown type strings cannot be written in the model: a stored target is always one of the three kinds, and a stored flag is a boolean or absent. Duplicate targets in stored data are kept, as in the plugin.
- Aliasing of the default list is not modelled. When the stored object has no `targets` key (or nothing is stored), `Object.assign` copies `DEFAULT_SETTINGS.targets` by reference, and a later `push`/`splice` also changes the default array. The model's lists are values. The plugin calls `loadSettings` only once per session, so this has no effect on its behaviour.
- The `savedDisplay` style property is modelled as a per-row slot that stores the string written to it. Browser handling of non-standard property names is not modelled.
- PluginCore.Plugin.constructor: before `onload`, the plugin's `settings` field is undefined. The model starts it at the defaults.
- SettingsPanel.SettingsTab.Display: the description rows ("Settings", "Cards", the label hint) and the initial values of the "Enabled" and "Apply to All Cards" toggles are widget state. They are not modelled.
