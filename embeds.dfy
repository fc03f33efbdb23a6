/** The closed catalogue of embed kinds the plugin can target, the lookup
    helpers of the settings tab (`indexInArr`, `hasType`) and the two edits a
    target toggle makes to the list of selected targets. */
module Embeds {

  /** The three canvas embed kinds; each is persisted by its type string. */
  datatype EmbedNodeType = ImageEmbed | CanvasEmbed | MarkdownEmbed

  /** The human-readable label of each kind, shown next to its toggle. */
  datatype EmbedNodeTypeDisplay = Image | Canvas | Markdown

  /** One selectable target. Loaded data is not validated, so the display
      label of a stored target need not match its type. */
  datatype Embed = Embed(kind: EmbedNodeType, display: EmbedNodeTypeDisplay)

  /** The type string of a kind: the CSS class the host gives its content node
      and the key under which a target is stored. */
  function TypeName(k: EmbedNodeType): (s: string)
    ensures 11 <= |s| <= 14
  {
    match k
    case ImageEmbed => "image-embed"
    case CanvasEmbed => "canvas-embed"
    case MarkdownEmbed => "markdown-embed"
  }

  /** Comparing type strings, as the source does, is comparing kinds. */
  lemma TypeNameInjective(a: EmbedNodeType, b: EmbedNodeType)
    ensures TypeName(a) == TypeName(b) <==> a == b
  {
  }

  const ImageNode: Embed := Embed(ImageEmbed, Image)
  const CanvasNode: Embed := Embed(CanvasEmbed, Canvas)
  const MarkdownNode: Embed := Embed(MarkdownEmbed, Markdown)

  /** The order in which the settings tab lists one toggle per kind. */
  const AllEmbeds: seq<Embed> := [ImageNode, CanvasNode, MarkdownNode]

  /** No two elements share a type: the set semantics of the target list. */
  ghost predicate NoDuplicateTypes(arr: seq<Embed>) {
    forall i, j :: 0 <= i < j < |arr| ==> arr[i].kind != arr[j].kind
  }

  /** The kinds present in a target list, forgetting order. */
  ghost function Kinds(arr: seq<Embed>): set<EmbedNodeType> {
    set i | 0 <= i < |arr| :: arr[i].kind
  }

  lemma AllEmbedsIsTheCatalogue()
    ensures NoDuplicateTypes(AllEmbeds)
    ensures forall k :: k in Kinds(AllEmbeds)
  {
    forall k ensures k in Kinds(AllEmbeds) {
      match k
      case ImageEmbed => assert AllEmbeds[0].kind == k;
      case CanvasEmbed => assert AllEmbeds[1].kind == k;
      case MarkdownEmbed => assert AllEmbeds[2].kind == k;
    }
  }

  /** `arr.findIndex` on equal type: the first index holding the target's
      type, or -1 when no element has it. */
  function IndexInArr(target: Embed, arr: seq<Embed>): (r: int)
    ensures -1 <= r < |arr|
    ensures 0 <= r ==> arr[r].kind == target.kind
    ensures forall j :: 0 <= j < |arr| && (r < 0 || j < r) ==> arr[j].kind != target.kind
  {
    if arr == [] then -1
    else if arr[0].kind == target.kind then 0
    else
      var r := IndexInArr(target, arr[1..]);
      if r < 0 then -1 else r + 1
  }

  /** `hasType`: some element has the target's type. */
  function HasType(target: Embed, arr: seq<Embed>): (b: bool)
    ensures b <==> exists i :: 0 <= i < |arr| && arr[i].kind == target.kind
  {
    IndexInArr(target, arr) >= 0
  }

  lemma HasTypeIffInKinds(target: Embed, arr: seq<Embed>)
    ensures HasType(target, arr) <==> target.kind in Kinds(arr)
  {
    if target.kind in Kinds(arr) {
      var i :| 0 <= i < |arr| && arr[i].kind == target.kind;
    }
  }

  /** The list after toggling `target` on: `push` when its type is absent,
      the same list when it is already there. */
  function WithTarget(arr: seq<Embed>, target: Embed): (r: seq<Embed>)
    ensures !HasType(target, arr) ==> r == arr + [target]
    ensures HasType(target, arr) ==> r == arr
    ensures arr <= r && |r| <= |arr| + 1
    ensures Kinds(r) == Kinds(arr) + {target.kind}
    ensures NoDuplicateTypes(arr) ==> NoDuplicateTypes(r)
  {
    var r := if HasType(target, arr) then arr else arr + [target];
    assert Kinds(r) == Kinds(arr) + {target.kind} by {
      HasTypeIffInKinds(target, arr);
      if r != arr {
        assert r[|arr|] == target;
        assert forall i :: 0 <= i < |arr| ==> r[i] == arr[i];
      }
    }
    r
  }

  /** The list after toggling `target` off: `splice(indexInArr(target), 1)`
      when its type is present, the same list when it is absent. */
  function WithoutTarget(arr: seq<Embed>, target: Embed): (r: seq<Embed>)
    ensures |r| == if HasType(target, arr) then |arr| - 1 else |arr|
    ensures !HasType(target, arr) ==> r == arr
    ensures HasType(target, arr) ==>
      var i := IndexInArr(target, arr);
      forall j :: 0 <= j < |r| ==> r[j] == arr[if j < i then j else j + 1]
    ensures NoDuplicateTypes(arr) ==> NoDuplicateTypes(r)
    ensures NoDuplicateTypes(arr) ==> Kinds(r) == Kinds(arr) - {target.kind}
  {
    if HasType(target, arr) then
      var i := IndexInArr(target, arr);
      SpliceOne(arr, i);
      arr[..i] + arr[i + 1..]
    else
      HasTypeIffInKinds(target, arr);
      arr
  }

  /** Removing the element at `i` shifts the later ones down by one; on a
      duplicate-free list it removes exactly that element's kind. */
  lemma SpliceOne(arr: seq<Embed>, i: nat)
    requires i < |arr|
    ensures var r := arr[..i] + arr[i + 1..];
      && |r| == |arr| - 1
      && (forall j :: 0 <= j < |r| ==> r[j] == arr[if j < i then j else j + 1])
      && (NoDuplicateTypes(arr) ==> NoDuplicateTypes(r))
      && (NoDuplicateTypes(arr) ==> Kinds(r) == Kinds(arr) - {arr[i].kind})
  {
    var r := arr[..i] + arr[i + 1..];
    assert forall j :: 0 <= j < |r| ==> r[j] == arr[if j < i then j else j + 1];
    if NoDuplicateTypes(arr) {
      forall k | k in Kinds(r) ensures k in Kinds(arr) - {arr[i].kind} {
        var j :| 0 <= j < |r| && r[j].kind == k;
        assert r[j] == arr[if j < i then j else j + 1];
      }
      forall k | k in Kinds(arr) - {arr[i].kind} ensures k in Kinds(r) {
        var j :| 0 <= j < |arr| && arr[j].kind == k;
        assert r[if j < i then j else j - 1] == arr[j];
      }
    }
  }

  /** After a toggle the target's membership is what was asked for, so the
      same toggle again finds nothing to do (off needs a duplicate-free list:
      it removes only the first occurrence). */
  lemma ToggleSettlesMembership(arr: seq<Embed>, target: Embed)
    ensures HasType(target, WithTarget(arr, target))
    ensures NoDuplicateTypes(arr) ==> !HasType(target, WithoutTarget(arr, target))
  {
    HasTypeIffInKinds(target, WithTarget(arr, target));
    HasTypeIffInKinds(target, WithoutTarget(arr, target));
  }

  /** Toggling on twice is toggling on once. */
  lemma WithTargetIdempotent(arr: seq<Embed>, target: Embed)
    ensures WithTarget(WithTarget(arr, target), target) == WithTarget(arr, target)
  {
    var once := WithTarget(arr, target);
    HasTypeIffInKinds(target, once);
  }

  /** Toggling off twice is toggling off once, on a duplicate-free list (with a
      duplicate the second call would remove the next occurrence). */
  lemma WithoutTargetIdempotent(arr: seq<Embed>, target: Embed)
    requires NoDuplicateTypes(arr)
    ensures WithoutTarget(WithoutTarget(arr, target), target) == WithoutTarget(arr, target)
  {
    var once := WithoutTarget(arr, target);
    HasTypeIffInKinds(target, once);
  }

  /** Toggling an absent target on and then off gives back the original list. */
  lemma WithoutUndoesWith(arr: seq<Embed>, target: Embed)
    requires !HasType(target, arr)
    ensures WithoutTarget(WithTarget(arr, target), target) == arr
  {
    var added := WithTarget(arr, target);
    assert added == arr + [target];
    assert IndexInArr(target, added) == |arr|;
  }

  /** Toggling a present target off and then on keeps the same kinds, with the
      target moved to the end. */
  lemma WithUndoesWithoutUpToOrder(arr: seq<Embed>, target: Embed)
    requires NoDuplicateTypes(arr) && HasType(target, arr)
    ensures Kinds(WithTarget(WithoutTarget(arr, target), target)) == Kinds(arr)
    ensures WithTarget(WithoutTarget(arr, target), target) == WithoutTarget(arr, target) + [target]
  {
    HasTypeIffInKinds(target, arr);
    HasTypeIffInKinds(target, WithoutTarget(arr, target));
  }
}
