/** `buildStyle`: the stylesheet text that makes the background and border of
    canvas cards of one embed type (or of every type) transparent, in the
    normal, focused and hovered states. */
module Styles {

  /** The three card states the stylesheet covers, in emission order. */
  datatype SectionState = Normal | Focus | Hover

  function StateName(st: SectionState): string {
    match st
    case Normal => "Normal"
    case Focus => "Focus"
    case Hover => "Hover"
  }

  function Rank(st: SectionState): nat {
    match st
    case Normal => 0
    case Focus => 1
    case Hover => 2
  }

  /** The class appended to `.canvas-node-content`: `.type`, or nothing, so
      that the selector matches every embed type. */
  function ClassSuffix(nodeType: string): string {
    if |nodeType| > 0 then "." + nodeType else ""
  }

  /** The name written in each section's comment: `.type`, or `ALL`. */
  function Label(nodeType: string): string {
    if |nodeType| > 0 then "." + nodeType else "ALL"
  }

  /** Suffix and caption agree for a named type; the empty type selects every
      card and is labelled `ALL`. */
  lemma SuffixAndLabel(nodeType: string)
    ensures nodeType == "" ==> ClassSuffix(nodeType) == "" && Label(nodeType) == "ALL"
    ensures nodeType != "" ==> ClassSuffix(nodeType) == Label(nodeType) == "." + nodeType
    ensures Label(nodeType) != ""
  {
  }

  /** The comment line that opens a section. */
  function Heading(st: SectionState, caption: string): string {
    CommentOpen + caption + CommentMid + StateName(st) + CommentClose
  }
  const CommentOpen: string := "\n\t\t/* "
  const CommentMid: string := ": "
  const CommentClose: string := " State */"

  // The fixed CSS text of the rules, split at the two places where the class
  // suffix is spliced in. Each fragment is a constant the model leaves
  // unspecified: the proofs depend only on where the suffix and the caption
  // go, never on the declarations themselves.
  const NormalOpen: string
  const NormalMid: string
  const FocusOpen: string
  const FocusMid: string
  const HoverOpen: string
  const HoverMid: string
  const RuleClose: string

  /** The two rules of a section: one for the card container, one for the
      content, both scoped to content nodes carrying `cls`. */
  function Rules(st: SectionState, cls: string): string {
    match st
    case Normal => NormalOpen + cls + NormalMid + cls + RuleClose
    case Focus => FocusOpen + cls + FocusMid + cls + RuleClose
    case Hover => HoverOpen + cls + HoverMid + cls + RuleClose
  }

  /** One section's template text. */
  function Section(st: SectionState, cls: string, caption: string): string {
    Heading(st, caption) + Rules(st, cls)
  }

  /** The accumulation `buildStyle` performs on its three section texts: each
      enabled one, preceded by a newline, appended in the order normal, focus,
      hover. */
  function Assemble(applyNormal: bool, applyFocus: bool, applyHover: bool,
                    normal: string, focus: string, hover: string): string
  {
    var withNormal := if applyNormal then "\n" + normal else "";
    var withFocus := withNormal + (if applyFocus then "\n" + focus else "");
    withFocus + (if applyHover then "\n" + hover else "")
  }

  /** `buildStyle(nodeType, applyNormal, applyFocus, applyHover)`: the sections
      for the node type's suffix and caption, assembled. */
  function BuildStyle(nodeType: string, applyNormal: bool, applyFocus: bool, applyHover: bool): (r: string)
    ensures r == "" <==> !applyNormal && !applyFocus && !applyHover
  {
    var cls, caption := ClassSuffix(nodeType), Label(nodeType);
    Assemble(applyNormal, applyFocus, applyHover, Section(Normal, cls, caption), Section(Focus, cls, caption), Section(Hover, cls, caption))
  }

  /** The text opens with the comment heading of the first enabled section,
      naming the node type's caption. */
  lemma BuildStyleOpensWithHeading(nodeType: string, applyNormal: bool, applyFocus: bool, applyHover: bool)
    ensures var r := BuildStyle(nodeType, applyNormal, applyFocus, applyHover);
      && (applyNormal ==> "\n" + Heading(Normal, Label(nodeType)) <= r)
      && (!applyNormal && applyFocus ==> "\n" + Heading(Focus, Label(nodeType)) <= r)
      && (!applyNormal && !applyFocus && applyHover ==> "\n" + Heading(Hover, Label(nodeType)) <= r)
  {
    var cls, caption := ClassSuffix(nodeType), Label(nodeType);
    var normal, focus, hover := Section(Normal, cls, caption), Section(Focus, cls, caption), Section(Hover, cls, caption);
    var r := Assemble(applyNormal, applyFocus, applyHover, normal, focus, hover);
    AssembleStartsWithFirst(applyNormal, applyFocus, applyHover, normal, focus, hover);
    if applyNormal {
      HeadingStartsSection(Normal, cls, caption);
      PrefixTransitive("\n" + Heading(Normal, caption), "\n" + normal, r);
    } else if applyFocus {
      HeadingStartsSection(Focus, cls, caption);
      PrefixTransitive("\n" + Heading(Focus, caption), "\n" + focus, r);
    } else if applyHover {
      HeadingStartsSection(Hover, cls, caption);
      PrefixTransitive("\n" + Heading(Hover, caption), "\n" + hover, r);
    }
  }

  lemma PrefixTransitive(a: string, b: string, c: string)
    requires a <= b && b <= c
    ensures a <= c
  {
  }

  lemma HeadingStartsSection(st: SectionState, cls: string, caption: string)
    ensures "\n" + Heading(st, caption) <= "\n" + Section(st, cls, caption)
  {
    ConcatAssociates("\n", Heading(st, caption), Rules(st, cls));
    PrefixOfConcat("\n" + Heading(st, caption), Rules(st, cls));
  }

  lemma ConcatAssociates(a: string, b: string, c: string)
    ensures a + (b + c) == (a + b) + c
  {
  }

  lemma PrefixOfConcat(a: string, b: string)
    ensures a <= a + b
  {
  }

  /** The assembled text is empty exactly when no flag is set, and begins with
      the first enabled section. */
  lemma AssembleStartsWithFirst(applyNormal: bool, applyFocus: bool, applyHover: bool,
                                normal: string, focus: string, hover: string)
    ensures var r := Assemble(applyNormal, applyFocus, applyHover, normal, focus, hover);
      (r == "" <==> !applyNormal && !applyFocus && !applyHover)
      && (applyNormal ==> "\n" + normal <= r)
      && (!applyNormal && applyFocus ==> "\n" + focus <= r)
      && (!applyNormal && !applyFocus && applyHover ==> "\n" + hover <= r)
  {
  }

  /** The states whose flag is set, in the order `buildStyle` emits them. */
  function EnabledStates(applyNormal: bool, applyFocus: bool, applyHover: bool): (r: seq<SectionState>)
    ensures Normal in r <==> applyNormal
    ensures Focus in r <==> applyFocus
    ensures Hover in r <==> applyHover
    ensures forall i, j :: 0 <= i < j < |r| ==> Rank(r[i]) < Rank(r[j])
  {
    (if applyNormal then [Normal] else [])
    + (if applyFocus then [Focus] else [])
    + (if applyHover then [Hover] else [])
  }

  function Pick(st: SectionState, normal: string, focus: string, hover: string): string {
    match st
    case Normal => normal
    case Focus => focus
    case Hover => hover
  }

  /** Reference rendering: the text of each listed state, preceded by a newline. */
  function RenderStates(states: seq<SectionState>, normal: string, focus: string, hover: string): string {
    if states == [] then ""
    else "\n" + Pick(states[0], normal, focus, hover) + RenderStates(states[1..], normal, focus, hover)
  }

  lemma {:induction false} RenderStatesAppend(a: seq<SectionState>, b: seq<SectionState>,
                                             normal: string, focus: string, hover: string)
    ensures RenderStates(a + b, normal, focus, hover)
         == RenderStates(a, normal, focus, hover) + RenderStates(b, normal, focus, hover)
  {
    if a != [] {
      assert (a + b)[0] == a[0] && (a + b)[1..] == a[1..] + b;
      RenderStatesAppend(a[1..], b, normal, focus, hover);
    } else {
      assert a + b == b;
    }
  }

  lemma RenderSingleState(st: SectionState, normal: string, focus: string, hover: string)
    ensures RenderStates([st], normal, focus, hover) == "\n" + Pick(st, normal, focus, hover)
  {
    assert [st][1..] == [];
  }

  /** The accumulator emits exactly the enabled sections, in rank order. */
  lemma AssembleIsOrderedSections(applyNormal: bool, applyFocus: bool, applyHover: bool,
                                  normal: string, focus: string, hover: string)
    ensures Assemble(applyNormal, applyFocus, applyHover, normal, focus, hover)
         == RenderStates(EnabledStates(applyNormal, applyFocus, applyHover), normal, focus, hover)
  {
    var n: seq<SectionState> := if applyNormal then [Normal] else [];
    var f: seq<SectionState> := if applyFocus then [Focus] else [];
    var h: seq<SectionState> := if applyHover then [Hover] else [];
    assert EnabledStates(applyNormal, applyFocus, applyHover) == n + f + h;
    RenderStatesAppend(n + f, h, normal, focus, hover);
    RenderStatesAppend(n, f, normal, focus, hover);
    RenderGuarded(applyNormal, Normal, normal, focus, hover);
    RenderGuarded(applyFocus, Focus, normal, focus, hover);
    RenderGuarded(applyHover, Hover, normal, focus, hover);
  }

  /** A state guarded by its flag renders as its section, or as nothing. */
  lemma RenderGuarded(flag: bool, st: SectionState, normal: string, focus: string, hover: string)
    ensures RenderStates(if flag then [st] else [], normal, focus, hover)
         == if flag then "\n" + Pick(st, normal, focus, hover) else ""
  {
    if flag {
      RenderSingleState(st, normal, focus, hover);
    }
  }

  /** `buildStyle` renders exactly the enabled sections, in rank order, with
      the suffix and caption chosen from the node type. */
  lemma BuildStyleIsOrderedSections(nodeType: string, applyNormal: bool, applyFocus: bool, applyHover: bool)
    ensures var cls, caption := ClassSuffix(nodeType), Label(nodeType);
      BuildStyle(nodeType, applyNormal, applyFocus, applyHover)
      == RenderStates(EnabledStates(applyNormal, applyFocus, applyHover),
                      Section(Normal, cls, caption), Section(Focus, cls, caption), Section(Hover, cls, caption))
  {
    var cls, caption := ClassSuffix(nodeType), Label(nodeType);
    AssembleIsOrderedSections(applyNormal, applyFocus, applyHover,
                              Section(Normal, cls, caption), Section(Focus, cls, caption), Section(Hover, cls, caption));
  }

  /** The accumulator is the concatenation of the guarded sections. */
  lemma AssembleSplits(applyNormal: bool, applyFocus: bool, applyHover: bool,
                       normal: string, focus: string, hover: string)
    ensures Assemble(applyNormal, applyFocus, applyHover, normal, focus, hover)
         == Assemble(applyNormal, false, false, normal, focus, hover)
          + Assemble(false, applyFocus, false, normal, focus, hover)
          + Assemble(false, false, applyHover, normal, focus, hover)
  {
    var n := if applyNormal then "\n" + normal else "";
    var f := if applyFocus then "\n" + focus else "";
    var h := if applyHover then "\n" + hover else "";
    assert Assemble(applyNormal, applyFocus, applyHover, normal, focus, hover) == n + f + h;
  }

  /** Each flag contributes its own section independently of the others. */
  lemma BuildStyleSplits(nodeType: string, applyNormal: bool, applyFocus: bool, applyHover: bool)
    ensures BuildStyle(nodeType, applyNormal, applyFocus, applyHover)
         == BuildStyle(nodeType, applyNormal, false, false)
          + BuildStyle(nodeType, false, applyFocus, false)
          + BuildStyle(nodeType, false, false, applyHover)
  {
    var cls, caption := ClassSuffix(nodeType), Label(nodeType);
    AssembleSplits(applyNormal, applyFocus, applyHover,
                   Section(Normal, cls, caption), Section(Focus, cls, caption), Section(Hover, cls, caption));
  }

  /** The length of a section's fixed text: everything but the spliced-in
      suffix and caption. */
  function FixedLength(st: SectionState): nat {
    |CommentOpen| + |CommentMid| + |StateName(st)| + |CommentClose| + |RuleClose|
    + match st
      case Normal => |NormalOpen| + |NormalMid|
      case Focus => |FocusOpen| + |FocusMid|
      case Hover => |HoverOpen| + |HoverMid|
  }

  /** The suffix and the caption enter a section only as spliced-in text: the
      suffix twice (once per rule) and the caption once. */
  lemma SectionLength(st: SectionState, cls: string, caption: string)
    ensures |Section(st, cls, caption)| == FixedLength(st) + 2 * |cls| + |caption|
  {
  }

  /** Length of the three-section stylesheet without its spliced-in text. */
  function TemplateLength(): nat {
    3 + FixedLength(Normal) + FixedLength(Focus) + FixedLength(Hover)
  }

  /** The full stylesheet for a node type grows by nine characters per
      character of its suffix-and-caption, six of them in selectors. */
  lemma FullStyleLength(nodeType: string)
    ensures |BuildStyle(nodeType, true, true, true)|
         == TemplateLength() + 6 * |ClassSuffix(nodeType)| + 3 * |Label(nodeType)|
  {
    var cls, caption := ClassSuffix(nodeType), Label(nodeType);
    AssembleAllLength(Section(Normal, cls, caption), Section(Focus, cls, caption), Section(Hover, cls, caption));
    SectionLength(Normal, cls, caption);
    SectionLength(Focus, cls, caption);
    SectionLength(Hover, cls, caption);
  }

  /** A longer node type gives a longer stylesheet; the empty node type gives
      the shortest one. */
  lemma LongerNodeTypeLongerStyle(a: string, b: string)
    requires |a| > |b|
    ensures |BuildStyle(a, true, true, true)| > |BuildStyle(b, true, true, true)|
  {
    FullStyleLength(a);
    FullStyleLength(b);
    SuffixAndLabel(a);
    SuffixAndLabel(b);
  }

  lemma AssembleAllLength(normal: string, focus: string, hover: string)
    ensures |Assemble(true, true, true, normal, focus, hover)| == 3 + |normal| + |focus| + |hover|
  {
  }
}
