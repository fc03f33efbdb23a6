/** The style resolver and the plugin object: the settings it holds, the text
    of its single global style element, and the store it saves to. */
module PluginCore {
  import opened Embeds
  import opened Styles
  import opened Settings

  /** The node type `generateStyle` passes for apply-all: the empty string,
      whose selectors match any card content. */
  const AnyNodeType: string := ""

  /** The block `generateStyle` writes when every embed type is targeted. */
  function AllStyle(): string {
    "\n" + BuildStyle(AnyNodeType, true, true, true)
  }

  /** The block `generateStyle` writes for one selected target. */
  function TargetBlock(e: Embed): string {
    "\n" + BuildStyle(TypeName(e.kind), true, true, true)
  }

  /** Blocks of a list of targets, concatenated in list order: the shape of
      the accumulating loop, for any block text. */
  function JoinBlocks(targets: seq<Embed>, block: Embed -> string): string {
    if targets == [] then ""
    else JoinBlocks(targets[..|targets| - 1], block) + block(targets[|targets| - 1])
  }

  /** The blocks of the targets, in list order, as `generateStyle` accumulates
      them. */
  function PerTargetStyle(targets: seq<Embed>): string {
    JoinBlocks(targets, TargetBlock)
  }

  /** The style element's text once `applySettings` has run: nothing when the
      plugin is off, the single all-types block when apply-all is on, and
      otherwise the per-target blocks. */
  function ResolvedStyle(s: PluginSettings): string {
    if !s.isEnabled then ""
    else if s.applyAllEmbed then AllStyle()
    else PerTargetStyle(s.targets)
  }

  /** One more target appends its block. */
  lemma JoinBlocksSnoc(ts: seq<Embed>, e: Embed, block: Embed -> string)
    ensures JoinBlocks(ts + [e], block) == JoinBlocks(ts, block) + block(e)
  {
    assert (ts + [e])[..|ts|] == ts;
  }

  /** The loop's step, on a prefix of the target list. */
  lemma JoinBlocksPrefixStep(targets: seq<Embed>, i: nat, block: Embed -> string)
    requires i < |targets|
    ensures JoinBlocks(targets[..i + 1], block) == JoinBlocks(targets[..i], block) + block(targets[i])
  {
    assert targets[..i + 1] == targets[..i] + [targets[i]];
    JoinBlocksSnoc(targets[..i], targets[i], block);
  }

  /** The joined text of two lists one after the other is the text of their
      concatenation. */
  lemma {:induction false} JoinBlocksAppend(ts: seq<Embed>, us: seq<Embed>, block: Embed -> string)
    ensures JoinBlocks(ts + us, block) == JoinBlocks(ts, block) + JoinBlocks(us, block)
  {
    if us == [] {
      assert ts + us == ts;
    } else {
      var init, last := us[..|us| - 1], us[|us| - 1];
      AppendSnoc(ts, us);
      JoinBlocksSnoc(ts + init, last, block);
      JoinBlocksAppend(ts, init, block);
    }
  }

  lemma AppendSnoc(ts: seq<Embed>, us: seq<Embed>)
    requires us != []
    ensures ts + us == (ts + us[..|us| - 1]) + [us[|us| - 1]]
  {
  }

  /** Dropping the element at `i` drops exactly its block, keeping the blocks
      before and after it in order. */
  lemma JoinBlocksDropAt(ts: seq<Embed>, i: nat, block: Embed -> string)
    requires i < |ts|
    ensures JoinBlocks(ts, block) == JoinBlocks(ts[..i], block) + block(ts[i]) + JoinBlocks(ts[i + 1..], block)
    ensures JoinBlocks(ts[..i] + ts[i + 1..], block) == JoinBlocks(ts[..i], block) + JoinBlocks(ts[i + 1..], block)
  {
    var before, after := ts[..i], ts[i + 1..];
    SplitAround(ts, i);
    JoinBlocksAppend(before + [ts[i]], after, block);
    JoinBlocksSnoc(before, ts[i], block);
    JoinBlocksAppend(before, after, block);
  }

  lemma SplitAround(ts: seq<Embed>, i: nat)
    requires i < |ts|
    ensures ts == (ts[..i] + [ts[i]]) + ts[i + 1..]
  {
  }

  /** When every block is longer than `n`, the joined text of a non-empty
      list is longer than `n` too. */
  lemma JoinBlocksLonger(ts: seq<Embed>, block: Embed -> string, n: nat)
    requires forall e :: |block(e)| > n
    ensures ts != [] ==> |JoinBlocks(ts, block)| > n
  {
  }

  /** Every target block is strictly longer than the all-types block: a type
      name has at least eleven characters, `ALL` has three and the empty
      suffix none. */
  lemma TargetBlockLongerThanAll(e: Embed)
    ensures |TargetBlock(e)| > |AllStyle()|
  {
    LongerNodeTypeLongerStyle(TypeName(e.kind), AnyNodeType);
  }

  /** The per-target text is empty exactly when there are no targets, and it
      never coincides with the all-types block. */
  lemma PerTargetStyleShape(ts: seq<Embed>)
    ensures PerTargetStyle(ts) == "" <==> ts == []
    ensures ts != [] ==> |PerTargetStyle(ts)| > |AllStyle()|
    ensures PerTargetStyle(ts) != AllStyle()
  {
    forall e ensures |TargetBlock(e)| > |AllStyle()| {
      TargetBlockLongerThanAll(e);
    }
    JoinBlocksLonger(ts, TargetBlock, |AllStyle()|);
  }

  /** Off, all and per-target are three mutually exclusive outcomes, told
      apart by the text alone: empty text means off or an empty selection,
      the all-types block means exactly enabled-with-apply-all. */
  lemma ResolvedStyleModes(s: PluginSettings)
    ensures !s.isEnabled ==> ResolvedStyle(s) == ""
    ensures ResolvedStyle(s) == "" <==> !s.isEnabled || (!s.applyAllEmbed && s.targets == [])
    ensures ResolvedStyle(s) == AllStyle() <==> s.isEnabled && s.applyAllEmbed
    ensures s.isEnabled && !s.applyAllEmbed ==> ResolvedStyle(s) == PerTargetStyle(s.targets)
  {
    PerTargetStyleShape(s.targets);
  }

  /** With apply-all on, the selected targets play no part in the text. */
  lemma ApplyAllIgnoresTargets(s: PluginSettings, other: seq<Embed>)
    requires s.applyAllEmbed
    ensures ResolvedStyle(s) == ResolvedStyle(s.(targets := other))
  {
  }

  /** Toggling an absent target on appends exactly its block to the text. */
  lemma ToggleOnAppendsBlock(ts: seq<Embed>, target: Embed)
    requires !HasType(target, ts)
    ensures PerTargetStyle(WithTarget(ts, target)) == PerTargetStyle(ts) + TargetBlock(target)
  {
    JoinBlocksSnoc(ts, target, TargetBlock);
  }

  /** The text splits around any one target's block. */
  lemma PerTargetStyleSplitsAt(ts: seq<Embed>, i: nat)
    requires i < |ts|
    ensures PerTargetStyle(ts) == PerTargetStyle(ts[..i]) + TargetBlock(ts[i]) + PerTargetStyle(ts[i + 1..])
  {
    JoinBlocksDropAt(ts, i, TargetBlock);
  }

  lemma ToggleOffDropsBlock(ts: seq<Embed>, target: Embed)
    requires HasType(target, ts)
    ensures var i := IndexInArr(target, ts);
      PerTargetStyle(WithoutTarget(ts, target)) == PerTargetStyle(ts[..i]) + PerTargetStyle(ts[i + 1..])
  {
    var i := IndexInArr(target, ts);
    assert WithoutTarget(ts, target) == ts[..i] + ts[i + 1..];
    JoinBlocksDropAt(ts, i, TargetBlock);
  }

  /** `MyPlugin`. */
  class Plugin {
    var settings: PluginSettings
    /** The `innerHTML` of the plugin's global `<style>` element. */
    var styleText: string
    /** What `loadData` would return: the last successful save, or what was
        there when the plugin started. */
    var store: Option<StoredData>

    /** The settings field is filled by `OnLoad`; until then it holds the
        defaults. The style element starts empty. */
    constructor (stored: Option<StoredData>)
      ensures settings == DefaultSettings && styleText == "" && store == stored
    {
      settings := DefaultSettings;
      styleText := "";
      store := stored;
    }

    /** The store and the style element after `saveAndReload`: both updated
        when the save succeeded, both as they were when it was rejected. */
    ghost predicate SavedAndReloaded(saveSucceeded: bool, storeBefore: Option<StoredData>, styleBefore: string)
      reads this
    {
      && store == (if saveSucceeded then Some(Persist(settings)) else storeBefore)
      && styleText == (if saveSucceeded then ResolvedStyle(settings) else styleBefore)
    }

    /** `clearStyle`. */
    method ClearStyle()
      modifies this`styleText
      ensures styleText == ""
    {
      styleText := "";
    }

    /** `generateStyle(targets)`: builds the text in a local accumulator, then
        overwrites the style element with it. */
    method GenerateStyle(targets: seq<Embed>)
      modifies this`styleText
      ensures styleText == if settings.applyAllEmbed then AllStyle() else PerTargetStyle(targets)
    {
      var innerHtml := "";
      if settings.applyAllEmbed {
        innerHtml := innerHtml + ("\n" + BuildStyle(AnyNodeType, true, true, true));
      } else {
        for i := 0 to |targets|
          invariant innerHtml == PerTargetStyle(targets[..i])
        {
          JoinBlocksPrefixStep(targets, i, TargetBlock);
          innerHtml := innerHtml + ("\n" + BuildStyle(TypeName(targets[i].kind), true, true, true));
        }
        assert targets[..|targets|] == targets;
      }
      styleText := innerHtml;
    }

    /** `applySettings`: clear, then regenerate only if the plugin is on. The
        result depends on the settings alone, never on the previous text. */
    method ApplySettings()
      modifies this`styleText
      ensures styleText == ResolvedStyle(settings)
    {
      ClearStyle();
      if settings.isEnabled {
        GenerateStyle(settings.targets);
      }
    }

    /** `onunload`. */
    method OnUnload()
      modifies this`styleText
      ensures styleText == ""
    {
      ClearStyle();
    }

    /** `loadSettings`. */
    method LoadSettings()
      modifies this`settings
      ensures settings == LoadedSettings(store)
    {
      settings := LoadedSettings(store);
    }

    /** The state logic of `onload`: load, then apply. */
    method OnLoad()
      modifies this`settings, this`styleText
      ensures settings == LoadedSettings(store)
      ensures styleText == ResolvedStyle(settings)
    {
      LoadSettings();
      ApplySettings();
    }

    /** `saveSettings`, with the outcome of `saveData` as a parameter. */
    method SaveSettings(saveSucceeded: bool)
      modifies this`store
      ensures store == if saveSucceeded then Some(Persist(settings)) else old(store)
    {
      if saveSucceeded {
        store := Some(Persist(settings));
      }
    }

    /** `saveAndReload`: reapply once the save has resolved; a rejected save
        runs the empty handler and leaves the style element as it was. */
    method SaveAndReload(saveSucceeded: bool)
      modifies this`store, this`styleText
      ensures SavedAndReloaded(saveSucceeded, old(store), old(styleText))
    {
      SaveSettings(saveSucceeded);
      if saveSucceeded {
        ApplySettings();
      }
    }

    /** The "Turn on" command. */
    method TurnOn(saveSucceeded: bool)
      modifies this
      ensures settings == old(settings).(isEnabled := true)
      ensures SavedAndReloaded(saveSucceeded, old(store), old(styleText))
    {
      settings := settings.(isEnabled := true);
      SaveAndReload(saveSucceeded);
    }

    /** The "Turn off" command. After a successful save the style element is
        empty, whatever the other settings are. */
    method TurnOff(saveSucceeded: bool)
      modifies this
      ensures settings == old(settings).(isEnabled := false)
      ensures SavedAndReloaded(saveSucceeded, old(store), old(styleText))
      ensures saveSucceeded ==> styleText == ""
    {
      settings := settings.(isEnabled := false);
      SaveAndReload(saveSucceeded);
    }
  }
}
