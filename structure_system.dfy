/** The structural layers of the layered renderer,
    logic/systems/StructureSystem.ts: rungs between the two strands, dashed
    synapses between linked nodes, and the sampled strand polylines. The
    projection `(index, strand) -> point` is the caller's; random jitter on
    mutation links arrives as a parameter. */
module StructureSystem {
  import opened Wrappers
  import opened Helix
  import opened RenderCommon
  import opened StrandSampling
  import opened NodeSystem

  /** A rung of the ladder as this layer receives it. */
  datatype SceneStep = SceneStep(index: nat, question: Option<SceneNode>, objective: Option<SceneNode>)

  /** A synaptic link; `isMutation` is `type === 'MUTATION'`. */
  datatype SceneLink = SceneLink(source: SceneNode, target: SceneNode, isMutation: bool)

  const INTERVAL_IDLE: string := "#555566"
  const MUTATION_STROKE: string := "#FF2E5B"
  const LINK_STROKE: string := "#AACCFF"
  const MUTATION_DASH: string := "1 4"
  const LINK_DASH: string := "2 4"
  const SYNAPSE_WIDTH: real := 1.5
  const MUTATION_OPACITY: real := 0.6
  const FRONT_STRAND_OPACITY: real := 1.0
  const BACK_STRAND_OPACITY: real := 0.2
  /** Mutation control points wander up to this far either side. */
  const JITTER_SPAN: real := 50.0

  /** A missing end or a ghost end draws nothing. */
  predicate EndHidden(end: Option<SceneNode>) {
    end.None? || end.value.isGhost
  }

  predicate EndCrystallized(end: Option<SceneNode>) {
    end.Some? && end.value.isCrystallized
  }

  predicate EndRecent(end: Option<SceneNode>, recent: set<string>) {
    end.Some? && end.value.id in recent
  }

  /** The rung's `d`: nothing (the empty path) when both ends are hidden,
      otherwise the bowed curve from strand A to strand B. */
  function IntervalPath(s: SceneStep, project: (nat, Strand) -> HelixPoint, trig: Trig): (c: Option<QuadCurve>)
    requires Bounded(trig)
    ensures c.None? <==> EndHidden(s.question) && EndHidden(s.objective)
    ensures c.Some? ==> c.value == BowedCurve(Flat(project(s.index, A)), Flat(project(s.index, B)), trig)
    ensures c.Some? ==> c.value.start == Flat(project(s.index, A)) && c.value.end == Flat(project(s.index, B))
  {
    if EndHidden(s.question) && EndHidden(s.objective) then None
    else Some(BowedCurve(Flat(project(s.index, A)), Flat(project(s.index, B)), trig))
  }

  /** Crystallized ends turn a rung gold; recent ends do too; the rest are
      slate. */
  function IntervalStroke(s: SceneStep, recent: set<string>): (c: string)
    ensures EndCrystallized(s.question) || EndCrystallized(s.objective) ==> c == GOLD
    ensures c == GOLD <==> EndCrystallized(s.question) || EndCrystallized(s.objective)
                           || EndRecent(s.question, recent) || EndRecent(s.objective, recent)
    ensures c == GOLD || c == INTERVAL_IDLE
  {
    if EndCrystallized(s.question) || EndCrystallized(s.objective) then GOLD
    else if EndRecent(s.question, recent) || EndRecent(s.objective, recent) then GOLD
    else INTERVAL_IDLE
  }

  /** Rung width from strand A's depth. */
  function IntervalWidth(z: real): (w: real)
    ensures -1.0 <= z <= 1.0 ==> 0.5 <= w <= 2.5
    ensures w == 0.5 <==> z == -1.0
    ensures w == 2.5 <==> z == 1.0
  {
    0.5 + 2.0 * ZNorm(z)
  }

  /** Rung opacity from strand A's depth. */
  function IntervalOpacity(z: real): (o: real)
    ensures -1.0 <= z <= 1.0 ==> 0.2 <= o <= 1.0
    ensures o == 0.2 <==> z == -1.0
    ensures o == 1.0 <==> z == 1.0
  {
    0.2 + 0.8 * ZNorm(z)
  }

  datatype IntervalView = IntervalView(path: Option<QuadCurve>, stroke: string, strokeWidth: real, opacity: real)

  function IntervalOf(s: SceneStep, recent: set<string>, project: (nat, Strand) -> HelixPoint, trig: Trig): IntervalView
    requires Bounded(trig)
  {
    var zA := project(s.index, A).z;
    IntervalView(IntervalPath(s, project, trig), IntervalStroke(s, recent), IntervalWidth(zA), IntervalOpacity(zA))
  }

  /** `renderIntervals`: one path per step, in step order. */
  function Intervals(steps: seq<SceneStep>, recent: set<string>, project: (nat, Strand) -> HelixPoint, trig: Trig): (r: seq<IntervalView>)
    requires Bounded(trig)
    ensures |r| == |steps|
    ensures forall i :: 0 <= i < |steps| ==> r[i] == IntervalOf(steps[i], recent, project, trig)
    decreases |steps|
  {
    if steps == [] then [] else [IntervalOf(steps[0], recent, project, trig)] + Intervals(steps[1..], recent, project, trig)
  }

  /** Rungs fade and thin toward the back: a rung whose strand-A point is
      deeper is never wider nor brighter. */
  lemma IntervalDepthCue(s1: SceneStep, s2: SceneStep, recent: set<string>, project: (nat, Strand) -> HelixPoint, trig: Trig)
    requires Bounded(trig)
    requires project(s1.index, A).z <= project(s2.index, A).z
    ensures IntervalOf(s1, recent, project, trig).strokeWidth <= IntervalOf(s2, recent, project, trig).strokeWidth
    ensures IntervalOf(s1, recent, project, trig).opacity <= IntervalOf(s2, recent, project, trig).opacity
  {
    var z1, z2 := project(s1.index, A).z, project(s2.index, A).z;
    assert ZNorm(z1) <= ZNorm(z2);
  }

  function SynapseDash(k: SceneLink): (d: string)
    ensures d == MUTATION_DASH <==> k.isMutation
    ensures d == MUTATION_DASH || d == LINK_DASH
  {
    if k.isMutation then MUTATION_DASH else LINK_DASH
  }

  function SynapseStroke(k: SceneLink): (c: string)
    ensures c == MUTATION_STROKE <==> k.isMutation
    ensures c == MUTATION_STROKE || c == LINK_STROKE
  {
    if k.isMutation then MUTATION_STROKE else LINK_STROKE
  }

  /** Mutations always show at 0.6; other links are hidden without a focus,
      bright when they touch it and faint when they do not. */
  function SynapseOpacity(k: SceneLink, focus: Option<string>): (o: real)
    ensures k.isMutation ==> o == MUTATION_OPACITY
    ensures !k.isMutation ==> (o == 0.0 <==> focus.None?)
    ensures !k.isMutation ==> (o == 0.9 <==> focus.Some? && (focus.value == k.source.id || focus.value == k.target.id))
    ensures !k.isMutation && focus.Some? && focus.value != k.source.id && focus.value != k.target.id ==> o == 0.1
  {
    if k.isMutation then MUTATION_OPACITY
    else if focus.Some? then (if k.source.id == focus.value || k.target.id == focus.value then 0.9 else 0.1)
    else 0.0
  }

  function SceneNodeId(n: SceneNode): string {
    n.id
  }

  function SceneNodeIndex(n: SceneNode): nat {
    n.index
  }

  /** The synapse curve between its endpoints' rungs on their own strands:
      straight for ordinary links; for mutations the control point is moved
      sideways by `random * 50 - 25` for a `random` in [0, 1). */
  function SynapseCurve(k: SceneLink, allNodes: seq<SceneNode>, project: (nat, Strand) -> HelixPoint, random: real): (c: QuadCurve)
    ensures c.start == Flat(project(EndpointStep(allNodes, k.source.id, SceneNodeId, SceneNodeIndex), k.source.strand))
    ensures c.end == Flat(project(EndpointStep(allNodes, k.target.id, SceneNodeId, SceneNodeIndex), k.target.strand))
    ensures !k.isMutation ==> c == StraightCurve(c.start, c.end)
    ensures k.isMutation ==> (c.control.y == Midpoint(c.start, c.end).y
                              && c.control.x == Midpoint(c.start, c.end).x + (random * JITTER_SPAN - JITTER_SPAN / 2.0))
    ensures k.isMutation && 0.0 <= random < 1.0 ==>
              -JITTER_SPAN / 2.0 <= c.control.x - Midpoint(c.start, c.end).x < JITTER_SPAN / 2.0
  {
    var ps := Flat(project(EndpointStep(allNodes, k.source.id, SceneNodeId, SceneNodeIndex), k.source.strand));
    var pt := Flat(project(EndpointStep(allNodes, k.target.id, SceneNodeId, SceneNodeIndex), k.target.strand));
    var mid := Midpoint(ps, pt);
    if k.isMutation then QuadCurve(ps, Point2(mid.x + (random * JITTER_SPAN - JITTER_SPAN / 2.0), mid.y), pt)
    else StraightCurve(ps, pt)
  }

  datatype SynapseView = SynapseView(curve: QuadCurve, dash: string, stroke: string, strokeWidth: real, opacity: real)

  function SynapseOf(k: SceneLink, allNodes: seq<SceneNode>, focus: Option<string>,
                     project: (nat, Strand) -> HelixPoint, random: real): SynapseView
  {
    SynapseView(SynapseCurve(k, allNodes, project, random), SynapseDash(k), SynapseStroke(k), SYNAPSE_WIDTH,
                SynapseOpacity(k, focus))
  }

  /** `renderSynapses`: one path per link, in link order; `randoms[i]` is
      the draw for link `i`. */
  function Synapses(links: seq<SceneLink>, allNodes: seq<SceneNode>, focus: Option<string>,
                    project: (nat, Strand) -> HelixPoint, randoms: seq<real>): (r: seq<SynapseView>)
    requires |randoms| == |links|
    ensures |r| == |links|
    ensures forall i :: 0 <= i < |links| ==> r[i] == SynapseOf(links[i], allNodes, focus, project, randoms[i])
    decreases |links|
  {
    if links == [] then []
    else [SynapseOf(links[0], allNodes, focus, project, randoms[0])] + Synapses(links[1..], allNodes, focus, project, randoms[1..])
  }

  /** Hovering or selecting a node lights up exactly the ordinary links that
      touch it; mutation links are unaffected by focus. */
  lemma FocusLightsIncidentLinks(links: seq<SceneLink>, allNodes: seq<SceneNode>, active: Option<string>, selected: Option<string>,
                                  project: (nat, Strand) -> HelixPoint, randoms: seq<real>, i: nat)
    requires |randoms| == |links| && i < |links| && Truthy(active)
    ensures !links[i].isMutation ==>
              (Synapses(links, allNodes, FocusId(active, selected), project, randoms)[i].opacity == 0.9
               <==> active.value == links[i].source.id || active.value == links[i].target.id)
    ensures links[i].isMutation ==>
              Synapses(links, allNodes, FocusId(active, selected), project, randoms)[i].opacity
              == Synapses(links, allNodes, None, project, randoms)[i].opacity
  {
    assert FocusId(active, selected) == active;
  }

  datatype StrandView = StrandView(pointsA: seq<Point2>, pointsB: seq<Point2>, frontOpacity: real, backOpacity: real)

  /** `helixParams`. */
  datatype HelixParams = HelixParams(startY: real, stepSpacing: real, width: real, height: real, rotation: real)

  /** Both polylines hold the 4n+1 samples of the helix at their indices,
      drawn at full opacity in front and at 0.2 behind. */
  predicate SampledStrands(v: StrandView, stepCount: nat, params: HelixParams, trig: Trig)
    requires stepCount >= 1 && params.height != 0.0 && Bounded(trig)
  {
    && v.frontOpacity == FRONT_STRAND_OPACITY && v.backOpacity == BACK_STRAND_OPACITY
    && |v.pointsA| == SampleCount(stepCount) + 1 && |v.pointsB| == SampleCount(stepCount) + 1
    && (forall i :: 0 <= i < |v.pointsA| ==>
          && v.pointsA[i] == StrandPoint(i, A, stepCount, params.startY, params.stepSpacing, params.rotation, params.width, params.height, trig)
          && v.pointsB[i] == StrandPoint(i, B, stepCount, params.startY, params.stepSpacing, params.rotation, params.width, params.height, trig))
  }

  /** `renderStrands`: both polylines sampled four times per rung, drawn at
      full opacity in front and at 0.2 behind. Without rungs the source's
      sample positions are 0/0; the model draws no strands then. */
  method RenderStrands(stepCount: nat, params: HelixParams, trig: Trig) returns (strands: Option<StrandView>)
    requires params.height != 0.0 && Bounded(trig)
    ensures strands.None? <==> stepCount == 0
    ensures strands.Some? ==> stepCount >= 1 && SampledStrands(strands.value, stepCount, params, trig)
  {
    if stepCount == 0 {
      return None;
    }
    var pointsA, pointsB := SampleStrands(stepCount, params.startY, params.stepSpacing, params.rotation, params.width, params.height, trig);
    strands := Some(StrandView(pointsA, pointsB, FRONT_STRAND_OPACITY, BACK_STRAND_OPACITY));
  }

  datatype Structure = Structure(intervals: seq<IntervalView>, synapses: seq<SynapseView>, strands: Option<StrandView>)

  /** `render`: rungs, then synapses, then strands, each exactly as its own
      renderer draws it. */
  method Render(steps: seq<SceneStep>, links: seq<SceneLink>, allNodes: seq<SceneNode>, recent: set<string>,
                active: Option<string>, selected: Option<string>, project: (nat, Strand) -> HelixPoint,
                params: HelixParams, randoms: seq<real>, trig: Trig)
    returns (s: Structure)
    requires |randoms| == |links| && params.height != 0.0 && Bounded(trig)
    ensures s.intervals == Intervals(steps, recent, project, trig)
    ensures s.synapses == Synapses(links, allNodes, FocusId(active, selected), project, randoms)
    ensures s.strands.None? <==> steps == []
    ensures s.strands.Some? ==> |s.strands.value.pointsA| == 4 * |steps| + 1 && |s.strands.value.pointsB| == 4 * |steps| + 1
    ensures s.strands.Some? ==> |steps| >= 1 && SampledStrands(s.strands.value, |steps|, params, trig)
  {
    var intervals := Intervals(steps, recent, project, trig);
    var synapses := Synapses(links, allNodes, FocusId(active, selected), project, randoms);
    var strands := RenderStrands(|steps|, params, trig);
    s := Structure(intervals, synapses, strands);
  }
}
