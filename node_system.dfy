/** The node layer of the layered renderer, logic/systems/NodeSystem.ts:
    the data join by id, positioning through the projection, the style
    rules of `updateStyles`, and the back-to-front sort. Ghost and
    crystallized flags arrive with the data; nothing here derives them. */
module NodeSystem {
  import opened Wrappers
  import opened Helix
  import opened Strings
  import opened Seqs
  import opened Sorting
  import opened RenderCommon
  import DomainRules

  /** A node as this layer receives it. `updatedAt` is the `rawEntity`
      update time when there is one. */
  datatype SceneNode = SceneNode(
    id: string,
    caption: string,
    strand: Strand,
    index: nat,
    isGhost: bool,
    isCrystallized: bool,
    updatedAt: Option<int>)

  const GOLD: string := "#FFE580"
  const GRAD_GOLD: string := "url(#orbGradGold)"
  const GRAD_PURPLE: string := "url(#orbGradPurple)"
  const GRAD_DARK: string := "url(#orbGradDark)"
  const NO_FILL: string := "none"

  /** Labels longer than this are cut. */
  const LABEL_LIMIT: nat := 15
  /** Characters kept from a cut label, before the ellipsis. */
  const LABEL_KEEP: nat := 12

  predicate IsActive(n: SceneNode, active: Option<string>) {
    active == Some(n.id)
  }

  predicate IsSelected(n: SceneNode, selected: Option<string>) {
    selected == Some(n.id)
  }

  /** Ghosts are smallest, the hovered node pulses larger. */
  function HaloRadius(n: SceneNode, active: Option<string>): (r: real)
    ensures n.isGhost ==> r == 3.0
    ensures !n.isGhost ==> (r == 14.0 <==> IsActive(n, active))
    ensures r == 3.0 || r == 8.0 || r == 14.0
  {
    if n.isGhost then 3.0 else if IsActive(n, active) then 14.0 else 8.0
  }

  /** Crystallization overrides everything but ghosting; hovered and recent
      nodes glow in their strand's colour; the rest are dark. */
  function HaloFill(n: SceneNode, recent: set<string>, active: Option<string>): (f: string)
    ensures f == NO_FILL <==> n.isGhost
    ensures !n.isGhost && n.isCrystallized ==> f == GRAD_GOLD
    ensures !n.isGhost && !n.isCrystallized && (IsActive(n, active) || n.id in recent) ==>
              f == (if n.strand == A then GRAD_GOLD else GRAD_PURPLE)
    ensures f == GRAD_DARK <==> !n.isGhost && !n.isCrystallized && !IsActive(n, active) && n.id !in recent
  {
    if n.isGhost then NO_FILL
    else if n.isCrystallized then GRAD_GOLD
    else if IsActive(n, active) || n.id in recent then (if n.strand == A then GRAD_GOLD else GRAD_PURPLE)
    else GRAD_DARK
  }

  function HaloStroke(n: SceneNode, recent: set<string>, active: Option<string>): (c: string)
    ensures n.isGhost ==> c == "#333"
    ensures !n.isGhost && n.isCrystallized ==> c == GOLD
    ensures !n.isGhost && !n.isCrystallized ==> (c == "#FFFFFF" <==> n.id in recent || IsActive(n, active))
    ensures c in {"#333", GOLD, "#FFFFFF", "#555"}
  {
    if n.isGhost then "#333"
    else if n.isCrystallized then GOLD
    else if n.id in recent || IsActive(n, active) then "#FFFFFF" else "#555"
  }

  function HaloStrokeWidth(n: SceneNode, recent: set<string>, active: Option<string>): (w: real)
    ensures n.isGhost ==> w == 1.0
    ensures !n.isGhost ==> (w == 1.5 <==> n.isCrystallized || n.id in recent || IsActive(n, active))
    ensures !n.isGhost ==> (w == 0.5 <==> !(n.isCrystallized || n.id in recent || IsActive(n, active)))
  {
    if n.isGhost then 1.0
    else if n.isCrystallized || n.id in recent || IsActive(n, active) then 1.5 else 0.5
  }

  function HaloOpacity(n: SceneNode, recent: set<string>, active: Option<string>): (o: real)
    ensures n.isGhost ==> o == 0.2
    ensures !n.isGhost ==> (o == 1.0 <==> n.isCrystallized || IsActive(n, active))
    ensures !n.isGhost && !n.isCrystallized && !IsActive(n, active) ==> o == (if n.id in recent then 0.9 else 0.5)
    ensures 0.2 <= o <= 1.0
  {
    if n.isGhost then 0.2
    else if n.isCrystallized || IsActive(n, active) then 1.0
    else if n.id in recent then 0.9 else 0.5
  }

  function CoreRadius(n: SceneNode, active: Option<string>): (r: real)
    ensures r == 0.0 <==> n.isGhost
    ensures !n.isGhost ==> r == (if IsActive(n, active) then 4.0 else 2.5)
  {
    if n.isGhost then 0.0 else if IsActive(n, active) then 4.0 else 2.5
  }

  /** Crystallized cores are gold, question cores white hot, objective
      cores cool white; ghosting plays no part. */
  function CoreFill(n: SceneNode): (c: string)
    ensures n.isCrystallized ==> c == GOLD
    ensures !n.isCrystallized ==> c == (if n.strand == A then "#FFF" else "#E0E0FF")
  {
    if n.isCrystallized then GOLD else if n.strand == A then "#FFF" else "#E0E0FF"
  }

  /** Ghosts have no label; long labels are cut to 12 characters and an
      ellipsis, so no label exceeds 15 characters. */
  function LabelText(n: SceneNode): (t: string)
    ensures |t| <= LABEL_LIMIT
    ensures n.isGhost ==> t == ""
    ensures !n.isGhost && |n.caption| <= LABEL_LIMIT ==> t == n.caption
    ensures !n.isGhost && |n.caption| > LABEL_LIMIT ==> t == n.caption[..LABEL_KEEP] + "..." && StartsWith(n.caption, t[..LABEL_KEEP])
  {
    if n.isGhost then ""
    else if |n.caption| > LABEL_LIMIT then Take(n.caption, LABEL_KEEP) + "..."
    else n.caption
  }

  /** Labels show on hover or selection; crystallized labels show while in
      front; recent labels show unless far back. */
  function LabelOpacity(n: SceneNode, z: real, recent: set<string>, active: Option<string>, selected: Option<string>): (o: real)
    ensures IsActive(n, active) || IsSelected(n, selected) ==> o == 1.0
    ensures o == 0.9 <==> !IsActive(n, active) && !IsSelected(n, selected) && n.isCrystallized && z > -0.2
    ensures o == 0.8 <==> (!IsActive(n, active) && !IsSelected(n, selected) && !(n.isCrystallized && z > -0.2)
                           && n.id in recent && z > -0.5)
    ensures o == 0.0 || o == 0.8 || o == 0.9 || o == 1.0
  {
    if IsActive(n, active) || IsSelected(n, selected) then 1.0
    else if n.isCrystallized && z > -0.2 then 0.9
    else if n.id in recent && z > -0.5 then 0.8
    else 0.0
  }

  /** Depth scale of the whole group. */
  function GroupScale(z: real): (s: real)
    ensures -1.0 <= z <= 1.0 ==> 0.4 <= s <= 1.2
  {
    0.4 + ZNorm(z) * 0.8
  }

  /** Age decay: full opacity without an update time, otherwise the entropy
      rule of the domain. */
  function EntropyFactor(n: SceneNode, now: int): (e: real)
    ensures DomainRules.ENTROPY_FLOOR <= e <= 1.0
    ensures n.updatedAt.None? ==> e == 1.0
    ensures n.updatedAt.Some? ==> e == DomainRules.CalculateEntropy(n.updatedAt.value, now)
  {
    match n.updatedAt
    case None => 1.0
    case Some(u) => DomainRules.CalculateEntropy(u, now)
  }

  lemma ProductBounds(a: real, b: real)
    requires 0.1 <= a <= 1.0 && 0.3 <= b <= 1.0
    ensures 0.03 <= a * b <= 1.0
  {
    assert a * b >= 0.1 * b;
    assert a * b <= 1.0 * b;
  }

  /** Group opacity, in order of precedence: ghosts 0.1 (even hovered),
      hovered or selected 1, crystallized 1, otherwise depth times decay. */
  function GroupOpacity(n: SceneNode, z: real, active: Option<string>, selected: Option<string>, now: int): (o: real)
    ensures n.isGhost ==> o == 0.1
    ensures !n.isGhost && (IsActive(n, active) || IsSelected(n, selected) || n.isCrystallized) ==> o == 1.0
    ensures !n.isGhost && !IsActive(n, active) && !IsSelected(n, selected) && !n.isCrystallized ==>
              o == (0.1 + 0.9 * ZNorm(z)) * EntropyFactor(n, now)
    ensures -1.0 <= z <= 1.0 ==> 0.03 <= o <= 1.0
  {
    var entropyFactor := EntropyFactor(n, now);
    if n.isGhost then 0.1
    else if IsActive(n, active) || IsSelected(n, selected) then 1.0
    else if n.isCrystallized then 1.0
    else
      var depth := 0.1 + 0.9 * ZNorm(z);
      assert -1.0 <= z <= 1.0 ==> 0.03 <= depth * entropyFactor <= 1.0 by {
        if -1.0 <= z <= 1.0 {
          ProductBounds(depth, entropyFactor);
        }
      }
      depth * entropyFactor
  }

  /** The plain opacity: depth times age decay. */
  function Scaled(z: real, e: real): real {
    (0.1 + 0.9 * ZNorm(z)) * e
  }

  lemma ScaledMonotone(z: real, a: real, b: real)
    requires -1.0 <= z <= 1.0 && a <= b
    ensures Scaled(z, a) <= Scaled(z, b)
  {
    var d := 0.1 + 0.9 * ZNorm(z);
    assert d >= 0.0;
    assert d * b - d * a == d * (b - a);
  }

  lemma PlainOpacity(n: SceneNode, z: real, active: Option<string>, selected: Option<string>, now: int)
    requires IsPlain(n, active, selected)
    ensures GroupOpacity(n, z, active, selected, now) == Scaled(z, EntropyFactor(n, now))
  {
  }

  lemma EntropyFactorDecays(n: SceneNode, u1: int, u2: int, now: int)
    requires u2 <= u1
    ensures EntropyFactor(n.(updatedAt := Some(u2)), now) <= EntropyFactor(n.(updatedAt := Some(u1)), now)
  {
    DomainRules.EntropyMonotone(u1, u2, now);
  }

  predicate IsPlain(n: SceneNode, active: Option<string>, selected: Option<string>) {
    !n.isGhost && !IsActive(n, active) && !IsSelected(n, selected) && !n.isCrystallized
  }

  lemma PlainOpacityDecays(n: SceneNode, z: real, active: Option<string>, selected: Option<string>, u1: int, u2: int, now: int)
    requires -1.0 <= z <= 1.0 && u2 <= u1 && IsPlain(n, active, selected)
    ensures GroupOpacity(n.(updatedAt := Some(u2)), z, active, selected, now)
         <= GroupOpacity(n.(updatedAt := Some(u1)), z, active, selected, now)
  {
    var older, newer := n.(updatedAt := Some(u2)), n.(updatedAt := Some(u1));
    PlainOpacity(older, z, active, selected, now);
    PlainOpacity(newer, z, active, selected, now);
    EntropyFactorDecays(n, u1, u2, now);
    ScaledMonotone(z, EntropyFactor(older, now), EntropyFactor(newer, now));
  }

  /** A node fades as it ages, never brightens; ghost, hovered, selected
      and crystallized nodes do not age at all. */
  lemma GroupOpacityDecays(n: SceneNode, z: real, active: Option<string>, selected: Option<string>, u1: int, u2: int, now: int)
    requires -1.0 <= z <= 1.0 && u2 <= u1
    ensures GroupOpacity(n.(updatedAt := Some(u2)), z, active, selected, now)
         <= GroupOpacity(n.(updatedAt := Some(u1)), z, active, selected, now)
    ensures !IsPlain(n, active, selected) ==>
              (GroupOpacity(n.(updatedAt := Some(u2)), z, active, selected, now)
               == GroupOpacity(n.(updatedAt := Some(u1)), z, active, selected, now))
  {
    if IsPlain(n, active, selected) {
      PlainOpacityDecays(n, z, active, selected, u1, u2, now);
    }
  }

  datatype NodeStyle = NodeStyle(
    haloRadius: real,
    haloFill: string,
    haloStroke: string,
    haloStrokeWidth: real,
    haloOpacity: real,
    coreRadius: real,
    coreFill: string,
    labelText: string,
    labelOpacity: real,
    labelBold: bool,
    scale: real,
    opacity: real)

  /** Every attribute `updateStyles` sets on one node group. */
  function StyleOf(n: SceneNode, z: real, recent: set<string>, active: Option<string>, selected: Option<string>, now: int): NodeStyle {
    NodeStyle(HaloRadius(n, active), HaloFill(n, recent, active), HaloStroke(n, recent, active),
              HaloStrokeWidth(n, recent, active), HaloOpacity(n, recent, active),
              CoreRadius(n, active), CoreFill(n),
              LabelText(n), LabelOpacity(n, z, recent, active, selected), IsActive(n, active),
              GroupScale(z), GroupOpacity(n, z, active, selected, now))
  }

  /** A node group: its datum, the `_pos` the projection gave it, and its style. */
  datatype Group = Group(node: SceneNode, pos: HelixPoint, style: NodeStyle)

  function GroupDepth(g: Group): real {
    g.pos.z
  }

  function GroupOf(n: SceneNode, project: (nat, Strand) -> HelixPoint, recent: set<string>,
                   active: Option<string>, selected: Option<string>, now: int): Group
  {
    var p := project(n.index, n.strand);
    Group(n, p, StyleOf(n, p.z, recent, active, selected, now))
  }

  /** One group per datum, in data order: what the join produces. */
  function JoinedGroups(nodesData: seq<SceneNode>, project: (nat, Strand) -> HelixPoint, recent: set<string>,
                        active: Option<string>, selected: Option<string>, now: int): (r: seq<Group>)
    ensures |r| == |nodesData|
  {
    seq(|nodesData|, k requires 0 <= k < |nodesData| => GroupOf(nodesData[k], project, recent, active, selected, now))
  }

  /** The node layer: its groups in document order. */
  class NodeLayer {
    var groups: seq<Group>

    constructor ()
      ensures groups == []
    {
      groups := [];
    }

    /** `render`: after the join there is exactly one group per datum, every
        old group whose id is absent is gone, each group sits where the
        projection puts it, and the groups are ordered back to front by the
        stable sort (ties in data order): a permutation of the joined groups. */
    method Render(nodesData: seq<SceneNode>, recent: set<string>, active: Option<string>, selected: Option<string>,
                  project: (nat, Strand) -> HelixPoint, now: int)
      modifies this
      ensures |groups| == |nodesData|
      ensures forall g :: g in groups <==>
                exists k :: 0 <= k < |nodesData| && g == GroupOf(nodesData[k], project, recent, active, selected, now)
      ensures SortedBy(groups, GroupDepth)
      ensures multiset(groups) == multiset(JoinedGroups(nodesData, project, recent, active, selected, now))
      ensures groups == SortByKey(JoinedGroups(nodesData, project, recent, active, selected, now), GroupDepth)
    {
      var joined := Join(nodesData, recent, active, selected, project, now);
      assert joined == JoinedGroups(nodesData, project, recent, active, selected, now);
      groups := SortByKey(joined, GroupDepth);
      SortByKeySorted(joined, GroupDepth);
      SameElements(joined, groups);
    }
  }

  /** Enter plus update: one positioned, styled group per datum, in data order. */
  method Join(nodesData: seq<SceneNode>, recent: set<string>, active: Option<string>, selected: Option<string>,
              project: (nat, Strand) -> HelixPoint, now: int) returns (joined: seq<Group>)
    ensures |joined| == |nodesData|
    ensures forall k :: 0 <= k < |nodesData| ==> joined[k] == GroupOf(nodesData[k], project, recent, active, selected, now)
  {
    joined := [];
    var i := 0;
    while i < |nodesData|
      invariant 0 <= i <= |nodesData|
      invariant |joined| == i
      invariant forall k :: 0 <= k < i ==> joined[k] == GroupOf(nodesData[k], project, recent, active, selected, now)
    {
      var d := nodesData[i];
      var p := project(d.index, d.strand);
      joined := joined + [Group(d, p, StyleOf(d, p.z, recent, active, selected, now))];
      i := i + 1;
    }
  }

  lemma SameElements<T>(a: seq<T>, b: seq<T>)
    requires multiset(a) == multiset(b)
    ensures forall x :: x in a <==> x in b
  {
    forall x
      ensures x in a <==> x in b
    {
      assert x in a <==> x in multiset(a);
      assert x in b <==> x in multiset(b);
    }
  }
}
