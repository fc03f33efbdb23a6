/** The settings tab: one row per embed kind, whose visibility follows the
    apply-all switch, and the change handlers of its three kinds of toggle. */
module SettingsPanel {
  import opened Embeds
  import opened Settings
  import opened PluginCore

  /** What the model keeps of one target row (a `Setting`): the kind it
      toggles, the value its toggle was created with, whether it is disabled,
      its element's `display` style, and the `savedDisplay` slot the tab
      stashes that style in while the row is hidden. */
  datatype TargetField = TargetField(
    target: Embed, initiallyOn: bool, disabled: bool, display: string, savedDisplay: string)

  /** A freshly built row: enabled, with no inline `display` and nothing saved. */
  function NewField(target: Embed, on: bool): (f: TargetField)
    ensures f.target == target && f.initiallyOn == on
    ensures !f.disabled && f.display == "" && f.savedDisplay == ""
  {
    TargetField(target, on, false, "", "")
  }

  /** The apply-all branch of `_refreshTargetFields` on one row: disable it,
      save its current display, hide it. */
  function Hidden(f: TargetField): (g: TargetField)
    ensures g.disabled && g.display == "none"
    ensures g.savedDisplay == f.display
    ensures g.target == f.target && g.initiallyOn == f.initiallyOn
  {
    f.(disabled := true, savedDisplay := f.display, display := "none")
  }

  /** The other branch: enable the row and put back the saved display. */
  function Shown(f: TargetField): (g: TargetField)
    ensures !g.disabled && g.display == f.savedDisplay
    ensures g.savedDisplay == f.savedDisplay
    ensures g.target == f.target && g.initiallyOn == f.initiallyOn
  {
    f.(disabled := false, display := f.savedDisplay)
  }

  /** Hiding a row and then showing it gives it back the display it had. */
  lemma ShowUndoesHide(f: TargetField)
    ensures Shown(Hidden(f)).display == f.display
    ensures Shown(Hidden(f)).disabled == false
    ensures !f.disabled ==> Shown(Hidden(f)) == f.(savedDisplay := f.display)
  {
  }

  /** Showing is idempotent: once shown, showing again changes nothing. */
  lemma ShowIdempotent(f: TargetField)
    ensures Shown(Shown(f)) == Shown(f)
  {
  }

  /** Hiding is not a faithful save: hiding twice overwrites the saved display
      with `none`, so a later show leaves the row hidden, whatever its display
      was at first. */
  lemma HideTwiceLosesDisplay(f: TargetField)
    ensures Hidden(Hidden(f)).savedDisplay == "none"
    ensures Shown(Hidden(Hidden(f))).display == "none"
    ensures f.display != "none" ==> Shown(Hidden(Hidden(f))).display != f.display
  {
  }

  /** `MySettingsTab`. */
  class SettingsTab {
    const plugin: Plugin
    var allTargetFields: seq<TargetField>

    constructor (plugin: Plugin)
      ensures this.plugin == plugin && allTargetFields == []
    {
      this.plugin := plugin;
      allTargetFields := [];
    }

    /** `_refreshTargetFields`: every row hidden when apply-all is on, every
        row shown otherwise; the rows stay in place and in order. */
    method RefreshTargetFields()
      modifies this`allTargetFields
      ensures |allTargetFields| == |old(allTargetFields)|
      ensures forall k :: 0 <= k < |allTargetFields| ==>
        allTargetFields[k] == if plugin.settings.applyAllEmbed then Hidden(old(allTargetFields)[k]) else Shown(old(allTargetFields)[k])
    {
      ghost var before := allTargetFields;
      if plugin.settings.applyAllEmbed {
        for i := 0 to |allTargetFields|
          invariant |allTargetFields| == |before|
          invariant forall k :: 0 <= k < i ==> allTargetFields[k] == Hidden(before[k])
          invariant forall k :: i <= k < |before| ==> allTargetFields[k] == before[k]
        {
          allTargetFields := allTargetFields[i := Hidden(allTargetFields[i])];
        }
      } else {
        for i := 0 to |allTargetFields|
          invariant |allTargetFields| == |before|
          invariant forall k :: 0 <= k < i ==> allTargetFields[k] == Shown(before[k])
          invariant forall k :: i <= k < |before| ==> allTargetFields[k] == before[k]
        {
          allTargetFields := allTargetFields[i := Shown(allTargetFields[i])];
        }
      }
    }

    /** The state logic of `display`: one fresh row per kind, in catalogue
        order, each toggle created on exactly when its kind is selected, then
        the visibility refresh. */
    method Display()
      modifies this`allTargetFields
      ensures |allTargetFields| == |AllEmbeds|
      ensures forall k :: 0 <= k < |AllEmbeds| ==>
        var f := allTargetFields[k];
        && f.target == AllEmbeds[k]
        && f.initiallyOn == HasType(AllEmbeds[k], plugin.settings.targets)
        && f.disabled == plugin.settings.applyAllEmbed
        && f.display == (if plugin.settings.applyAllEmbed then "none" else "")
        && f.savedDisplay == ""
    {
      allTargetFields := [];
      for i := 0 to |AllEmbeds|
        invariant |allTargetFields| == i
        invariant forall k :: 0 <= k < i ==>
          allTargetFields[k] == NewField(AllEmbeds[k], HasType(AllEmbeds[k], plugin.settings.targets))
      {
        var target := AllEmbeds[i];
        var isEnabled := HasType(target, plugin.settings.targets);
        allTargetFields := allTargetFields + [NewField(target, isEnabled)];
      }
      RefreshTargetFields();
    }

    /** The "Enabled" toggle. */
    method OnEnabledChange(value: bool, saveSucceeded: bool)
      modifies plugin
      ensures plugin.settings == old(plugin.settings).(isEnabled := value)
      ensures plugin.SavedAndReloaded(saveSucceeded, old(plugin.store), old(plugin.styleText))
    {
      plugin.settings := plugin.settings.(isEnabled := value);
      plugin.SaveAndReload(saveSucceeded);
    }

    /** The "Apply to All Cards" toggle: the rows are refreshed for the new
        value before the save; the target list is untouched. */
    method OnApplyAllChange(value: bool, saveSucceeded: bool)
      modifies plugin, this`allTargetFields
      ensures plugin.settings == old(plugin.settings).(applyAllEmbed := value)
      ensures |allTargetFields| == |old(allTargetFields)|
      ensures forall k :: 0 <= k < |allTargetFields| ==>
        allTargetFields[k] == if value then Hidden(old(allTargetFields)[k]) else Shown(old(allTargetFields)[k])
      ensures plugin.SavedAndReloaded(saveSucceeded, old(plugin.store), old(plugin.styleText))
    {
      plugin.settings := plugin.settings.(applyAllEmbed := value);
      RefreshTargetFields();
      plugin.SaveAndReload(saveSucceeded);
    }

    /** A target toggle: switching on pushes an absent target, switching off
        splices out the first element of a present one, and each real change
        is saved and reapplied. A switch that would not change the selection
        does nothing at all. */
    method OnTargetChange(target: Embed, value: bool, saveSucceeded: bool)
      modifies plugin
      ensures value == old(HasType(target, plugin.settings.targets)) ==>
        && plugin.settings == old(plugin.settings)
        && plugin.store == old(plugin.store)
        && plugin.styleText == old(plugin.styleText)
      ensures value != old(HasType(target, plugin.settings.targets)) ==>
        && plugin.settings == old(plugin.settings).(targets :=
             if value then WithTarget(old(plugin.settings.targets), target)
             else WithoutTarget(old(plugin.settings.targets), target))
        && plugin.SavedAndReloaded(saveSucceeded, old(plugin.store), old(plugin.styleText))
    {
      var targets := plugin.settings.targets;
      if value {
        if !HasType(target, targets) {
          plugin.settings := plugin.settings.(targets := targets + [target]);
          plugin.SaveAndReload(saveSucceeded);
        }
      } else {
        if HasType(target, targets) {
          var i := IndexInArr(target, targets);
          plugin.settings := plugin.settings.(targets := targets[..i] + targets[i + 1..]);
          plugin.SaveAndReload(saveSucceeded);
        }
      }
    }
  }
}
