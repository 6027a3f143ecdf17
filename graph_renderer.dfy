/** The interaction and physics controller of logic/GraphRenderer.ts: drag
    and hover state, the animation timer, and the per-frame geometry and
    styles computed by `tick`. The d3 selections become the values a frame
    would write into them. */
module GraphRenderer {
  import opened Wrappers
  import opened Helix
  import opened Seqs
  import opened Sorting
  import opened GraphAssembly
  import opened StrandSampling
  import opened RenderCommon

  /** Rotation per frame when the helix spins on its own. */
  const AMBIENT_VELOCITY: real := 0.005
  /** Rotation per pixel dragged. */
  const DRAG_ROTATION_GAIN: real := 0.005
  /** Spin per pixel of the last drag movement. */
  const DRAG_VELOCITY_GAIN: real := 0.001

  const DEFAULT_WIDTH: real := 800.0
  const DEFAULT_HEIGHT: real := 600.0

  const GOLD: string := "#FFE580"
  const INTERVAL_IDLE: string := "#333344"
  const GRAD_GOLD: string := "url(#orbGradGold)"
  const GRAD_PURPLE: string := "url(#orbGradPurple)"
  const GRAD_DARK: string := "url(#orbGradDark)"

  /** `helixHeight / (steps.length || 1)` */
  function StepSpacing(helixHeight: real, stepCount: nat): (r: real)
    ensures stepCount > 0 ==> r * stepCount as real == helixHeight
    ensures stepCount == 0 ==> r == helixHeight
    ensures helixHeight > 0.0 ==> r > 0.0
  {
    helixHeight / (if stepCount == 0 then 1 else stepCount) as real
  }

  /** What `getPoint` closes over in one frame. */
  datatype Layout = Layout(width: real, rotation: real, startY: real, helixHeight: real, stepSpacing: real)

  function LayoutOf(width: real, height: real, stepCount: nat, rotation: real): (l: Layout)
    requires height > 0.0
    ensures l.helixHeight > 0.0 && l.stepSpacing > 0.0
  {
    var d := HelixDimensions(height, stepCount);
    Layout(width, rotation, d.startY, d.height, StepSpacing(d.height, stepCount))
  }

  /** The rungs fill the helix: the base height of rank `n` for `n` rungs is
      the bottom of the helix. */
  lemma LadderSpansHelix(width: real, height: real, stepCount: nat, rotation: real)
    requires height > 0.0 && stepCount > 0
    ensures var l := LayoutOf(width, height, stepCount, rotation);
            l.startY + stepCount as real * l.stepSpacing == l.startY + l.helixHeight
  {
  }

  /** `getPoint(idx, strand)` */
  function PointAt(l: Layout, idx: int, strand: Strand, trig: Trig): HelixPoint
    requires l.helixHeight != 0.0 && Bounded(trig)
  {
    Point(l.startY + idx as real * l.stepSpacing, strand, l.rotation, l.width, l.startY, l.helixHeight, trig)
  }

  /** Node scale in a frame. */
  function NodeScale(z: real): (r: real)
    ensures -1.0 <= z <= 1.0 ==> 0.5 <= r <= 1.2
  {
    0.5 + ZNorm(z) * 0.7
  }

  /** Node opacity in a frame: selected and recent nodes are opaque, the
      others fade with depth. */
  function NodeOpacity(isSelected: bool, isRecent: bool, z: real): (r: real)
    ensures isSelected || isRecent ==> r == 1.0
    ensures !(isSelected || isRecent) && -1.0 <= z <= 1.0 ==> 0.2 <= r <= 0.7
  {
    if isSelected || isRecent then 1.0 else 0.2 + 0.5 * ZNorm(z)
  }

  /** Nearer nodes are drawn at least as large and as opaque as farther ones,
      and a highlighted node is never fainter than a plain one. */
  lemma NodeDepthCues(isSelected: bool, isRecent: bool, z1: real, z2: real)
    requires -1.0 <= z1 <= z2 <= 1.0
    ensures NodeScale(z1) <= NodeScale(z2)
    ensures NodeOpacity(isSelected, isRecent, z1) <= NodeOpacity(isSelected, isRecent, z2)
    ensures NodeOpacity(false, false, z2) < NodeOpacity(true, isRecent, z1)
  {
  }

  predicate StepIsRecent(s: Step, recent: set<string>) {
    (s.question.Some? && s.question.value.id in recent) || (s.objective.Some? && s.objective.value.id in recent)
  }

  function IntervalStroke(s: Step, recent: set<string>): (c: string)
    ensures c == GOLD <==> StepIsRecent(s, recent)
    ensures c == GOLD || c == INTERVAL_IDLE
  {
    if StepIsRecent(s, recent) then GOLD else INTERVAL_IDLE
  }

  datatype IntervalView = IntervalView(curve: QuadCurve, stroke: string, strokeWidth: real, opacity: real)

  /** One rung in a frame: a bowed curve between the two strands; width and
      opacity follow strand A's depth. */
  function IntervalOf(s: Step, l: Layout, recent: set<string>, trig: Trig): (v: IntervalView)
    requires l.helixHeight != 0.0 && Bounded(trig)
    ensures v.curve.start == Flat(PointAt(l, s.index, A, trig)) && v.curve.end == Flat(PointAt(l, s.index, B, trig))
    ensures v.stroke == IntervalStroke(s, recent)
    ensures 0.5 <= v.strokeWidth <= 2.0 && 0.3 <= v.opacity <= 0.7
  {
    var pA := PointAt(l, s.index, A, trig);
    var pB := PointAt(l, s.index, B, trig);
    var zNorm := ZNorm(pA.z);
    IntervalView(BowedCurve(Flat(pA), Flat(pB), trig), IntervalStroke(s, recent), 0.5 + 1.5 * zNorm, 0.3 + 0.4 * zNorm)
  }

  function Intervals(steps: seq<Step>, l: Layout, recent: set<string>, trig: Trig): (r: seq<IntervalView>)
    requires l.helixHeight != 0.0 && Bounded(trig)
    ensures |r| == |steps|
    ensures forall i :: 0 <= i < |steps| ==> r[i] == IntervalOf(steps[i], l, recent, trig)
    decreases |steps|
  {
    if steps == [] then [] else [IntervalOf(steps[0], l, recent, trig)] + Intervals(steps[1..], l, recent, trig)
  }

  datatype NodeView = NodeView(id: string, at: Point2, z: real, scale: real, opacity: real)

  function NodeViewOf(n: GraphNode, l: Layout, selected: Option<string>, recent: set<string>, trig: Trig): (v: NodeView)
    requires l.helixHeight != 0.0 && Bounded(trig)
    ensures v.id == n.id && v.z == PointAt(l, n.index, n.strand, trig).z
    ensures v.at == Flat(PointAt(l, n.index, n.strand, trig))
    ensures v.scale == NodeScale(v.z)
    ensures v.opacity == NodeOpacity(selected == Some(n.id), n.id in recent, v.z)
  {
    var p := PointAt(l, n.index, n.strand, trig);
    NodeView(n.id, Flat(p), p.z, NodeScale(p.z), NodeOpacity(selected == Some(n.id), n.id in recent, p.z))
  }

  function NodeViews(nodes: seq<GraphNode>, l: Layout, selected: Option<string>, recent: set<string>, trig: Trig): (r: seq<NodeView>)
    requires l.helixHeight != 0.0 && Bounded(trig)
    ensures |r| == |nodes|
    ensures forall i :: 0 <= i < |nodes| ==> r[i] == NodeViewOf(nodes[i], l, selected, recent, trig)
    decreases |nodes|
  {
    if nodes == [] then [] else [NodeViewOf(nodes[0], l, selected, recent, trig)] + NodeViews(nodes[1..], l, selected, recent, trig)
  }

  function NodeId(n: GraphNode): string {
    n.id
  }

  function NodeRank(n: GraphNode): nat {
    n.index
  }

  function ViewDepth(v: NodeView): real {
    v.z
  }

  /** Synapse opacity: hidden without a focus, bright on links touching the
      focus, faint on the others. */
  function SynapseOpacity(sourceId: string, targetId: string, focus: Option<string>): (r: real)
    ensures r == 0.0 <==> focus.None?
    ensures r == 0.6 <==> focus.Some? && (focus.value == sourceId || focus.value == targetId)
    ensures focus.Some? && focus.value != sourceId && focus.value != targetId ==> r == 0.05
  {
    if focus.Some? then (if sourceId == focus.value || targetId == focus.value then 0.6 else 0.05) else 0.0
  }

  datatype SynapseView = SynapseView(curve: QuadCurve, opacity: real)

  function SynapseOf(k: Link, nodes: seq<GraphNode>, l: Layout, focus: Option<string>, trig: Trig): (v: SynapseView)
    requires l.helixHeight != 0.0 && Bounded(trig)
    ensures v.curve == StraightCurve(Flat(PointAt(l, EndpointStep(nodes, k.source.id, NodeId, NodeRank), k.source.strand, trig)),
                                      Flat(PointAt(l, EndpointStep(nodes, k.target.id, NodeId, NodeRank), k.target.strand, trig)))
    ensures v.opacity == SynapseOpacity(k.source.id, k.target.id, focus)
  {
    var ps := PointAt(l, EndpointStep(nodes, k.source.id, NodeId, NodeRank), k.source.strand, trig);
    var pt := PointAt(l, EndpointStep(nodes, k.target.id, NodeId, NodeRank), k.target.strand, trig);
    SynapseView(StraightCurve(Flat(ps), Flat(pt)), SynapseOpacity(k.source.id, k.target.id, focus))
  }

  function Synapses(links: seq<Link>, nodes: seq<GraphNode>, l: Layout, focus: Option<string>, trig: Trig): (r: seq<SynapseView>)
    requires l.helixHeight != 0.0 && Bounded(trig)
    ensures |r| == |links|
    ensures forall i :: 0 <= i < |links| ==> r[i] == SynapseOf(links[i], nodes, l, focus, trig)
    decreases |links|
  {
    if links == [] then [] else [SynapseOf(links[0], nodes, l, focus, trig)] + Synapses(links[1..], nodes, l, focus, trig)
  }

  datatype StrandView = StrandView(pointsA: seq<Point2>, pointsB: seq<Point2>, frontOpacity: real, backOpacity: real)

  /** Front strands are drawn at opacity 0.9, back strands at 0.15. */
  const FRONT_STRAND_OPACITY: real := 0.9
  const BACK_STRAND_OPACITY: real := 0.15

  /** Everything one call of `tick` writes. Without rungs the strand sampling
      divides 0 by 0, so no strand is drawn. */
  datatype Frame = Frame(intervals: seq<IntervalView>, nodes: seq<NodeView>, synapses: seq<SynapseView>, strands: Option<StrandView>)

  /** The halo and core of a node as `renderStatic` styles them. */
  datatype StaticStyle = StaticStyle(haloRadius: real, haloFill: string, haloStroke: string, haloStrokeWidth: real,
                                     coreRadius: real, coreFill: string)

  /** Recent nodes glow in their strand's colour; every other node is a dark orb. */
  function StaticStyleOf(n: GraphNode, recent: set<string>): (s: StaticStyle)
    ensures s.haloRadius == 8.0
    ensures s.haloFill == GRAD_DARK <==> n.id !in recent
    ensures n.id in recent ==> s.haloFill == (if n.strand == A then GRAD_GOLD else GRAD_PURPLE)
    ensures (s.haloStroke, s.haloStrokeWidth, s.coreRadius, s.coreFill)
         == if n.id in recent then ("#FFFFFF", 1.0, 3.0, "#FFFFFF") else ("#444", 0.5, 2.0, "#555")
  {
    var isRecent := n.id in recent;
    StaticStyle(8.0,
                if !isRecent then GRAD_DARK else if n.strand == A then GRAD_GOLD else GRAD_PURPLE,
                if isRecent then "#FFFFFF" else "#444",
                if isRecent then 1.0 else 0.5,
                if isRecent then 3.0 else 2.0,
                if isRecent then "#FFFFFF" else "#555")
  }

  function StaticStyles(nodes: seq<GraphNode>, recent: set<string>): (r: seq<StaticStyle>)
    ensures |r| == |nodes| && forall i :: 0 <= i < |nodes| ==> r[i] == StaticStyleOf(nodes[i], recent)
    decreases |nodes|
  {
    if nodes == [] then [] else [StaticStyleOf(nodes[0], recent)] + StaticStyles(nodes[1..], recent)
  }

  datatype NodeAction = Select | Delete

  /** What a node click reports to the graph view's `onNodeAction`. */
  datatype ActionRequest = ActionRequest(id: string, kind: NodeKind, action: NodeAction)

  /** The frame `tick` draws for the given data, hover and selection, and layout:
      rungs in step order, nodes back to front, synapses in link order, and
      both strands sampled, at opacity 0.9 in front and 0.15 behind, when
      there is at least one rung. */
  ghost predicate FrameFor(frame: Frame, steps: seq<Step>, allNodes: seq<GraphNode>, links: seq<Link>, recent: set<string>,
                     active: Option<string>, selected: Option<string>, l: Layout, trig: Trig)
    requires l.helixHeight != 0.0 && Bounded(trig)
  {
    && frame.intervals == Intervals(steps, l, recent, trig)
    && frame.nodes == SortByKey(NodeViews(allNodes, l, selected, recent, trig), ViewDepth)
    && SortedBy(frame.nodes, ViewDepth)
    && frame.synapses == Synapses(links, allNodes, l, FocusId(active, selected), trig)
    && (|steps| == 0 <==> frame.strands.None?)
    && (frame.strands.Some? ==>
          && frame.strands.value.frontOpacity == FRONT_STRAND_OPACITY
          && frame.strands.value.backOpacity == BACK_STRAND_OPACITY
          && |frame.strands.value.pointsA| == SampleCount(|steps|) + 1
          && |frame.strands.value.pointsB| == SampleCount(|steps|) + 1
          && forall i :: 0 <= i < |frame.strands.value.pointsA| ==>
               && frame.strands.value.pointsA[i] == StrandPoint(i, A, |steps|, l.startY, l.stepSpacing, l.rotation, l.width, l.helixHeight, trig)
               && frame.strands.value.pointsB[i] == StrandPoint(i, B, |steps|, l.startY, l.stepSpacing, l.rotation, l.width, l.helixHeight, trig))
  }

  /** The layout work of `tick` once the rotation is known. */
  method ComposeFrame(steps: seq<Step>, allNodes: seq<GraphNode>, links: seq<Link>, recent: set<string>,
                      active: Option<string>, selected: Option<string>, l: Layout, trig: Trig)
    returns (frame: Frame)
    requires l.helixHeight != 0.0 && Bounded(trig)
    ensures FrameFor(frame, steps, allNodes, links, recent, active, selected, l, trig)
  {
    var intervals := Intervals(steps, l, recent, trig);
    var views := NodeViews(allNodes, l, selected, recent, trig);
    var ordered := SortByKey(views, ViewDepth);
    SortByKeySorted(views, ViewDepth);
    var synapses := Synapses(links, allNodes, l, FocusId(active, selected), trig);
    var strands: Option<StrandView> := None;
    if |steps| > 0 {
      var pointsA, pointsB := SampleStrands(|steps|, l.startY, l.stepSpacing, l.rotation, l.width, l.helixHeight, trig);
      strands := Some(StrandView(pointsA, pointsB, FRONT_STRAND_OPACITY, BACK_STRAND_OPACITY));
    }
    frame := Frame(intervals, ordered, synapses, strands);
  }

  class Renderer {
    var width: real
    var height: real
    var rotation: real
    var velocity: real
    var isDragging: bool
    var isPaused: bool
    /** The `lastX` the interaction handlers close over. */
    var lastX: real
    /** The id of the timer held in `timer`, if any. */
    var timer: Option<nat>
    /** Timers still firing: a stopped d3 timer stays referenced but no longer runs. */
    var runningTimers: set<nat>
    var nextTimerId: nat
    var steps: seq<Step>
    var allNodes: seq<GraphNode>
    var links: seq<Link>
    var recentNodeIds: set<string>
    var activeNodeId: Option<string>
    var selectedNodeId: Option<string>

    /** The container has a height, and at most the held timer is running. */
    predicate Valid()
      reads this
    {
      && height > 0.0
      && (forall t :: t in runningTimers ==> timer == Some(t))
      && (timer.Some? ==> timer.value < nextTimerId)
    }

    constructor ()
      ensures Valid()
      ensures width == DEFAULT_WIDTH && height == DEFAULT_HEIGHT
      ensures rotation == 0.0 && velocity == AMBIENT_VELOCITY
      ensures !isDragging && !isPaused && lastX == 0.0
      ensures timer == None && runningTimers == {}
      ensures steps == [] && allNodes == [] && links == [] && recentNodeIds == {}
      ensures activeNodeId == None && selectedNodeId == None
    {
      width, height := DEFAULT_WIDTH, DEFAULT_HEIGHT;
      rotation, velocity := 0.0, AMBIENT_VELOCITY;
      isDragging, isPaused, lastX := false, false, 0.0;
      timer, runningTimers, nextTimerId := None, {}, 0;
      steps, allNodes, links, recentNodeIds := [], [], [], {};
      activeNodeId, selectedNodeId := None, None;
    }

    /** mousedown: a drag starts at `clientX`. */
    method MouseDown(clientX: real)
      requires Valid()
      modifies this
      ensures Valid()
      ensures isDragging && lastX == clientX
      ensures rotation == old(rotation) && velocity == old(velocity) && isPaused == old(isPaused)
      ensures activeNodeId == old(activeNodeId) && selectedNodeId == old(selectedNodeId)
      ensures width == old(width) && height == old(height) && timer == old(timer) && runningTimers == old(runningTimers)
      ensures nextTimerId == old(nextTimerId)
      ensures steps == old(steps) && allNodes == old(allNodes) && links == old(links) && recentNodeIds == old(recentNodeIds)
    {
      isDragging := true;
      lastX := clientX;
    }

    /** mousemove: outside a drag nothing changes; during one the helix turns
      by the distance moved and keeps spinning in that direction. */
    method MouseMove(clientX: real)
      requires Valid()
      modifies this
      ensures Valid()
      ensures !old(isDragging) ==> rotation == old(rotation) && velocity == old(velocity) && lastX == old(lastX)
      ensures old(isDragging) ==>
        && rotation == old(rotation) + (clientX - old(lastX)) * DRAG_ROTATION_GAIN
        && velocity == (clientX - old(lastX)) * DRAG_VELOCITY_GAIN
        && lastX == clientX
      ensures isDragging == old(isDragging) && isPaused == old(isPaused)
      ensures activeNodeId == old(activeNodeId) && selectedNodeId == old(selectedNodeId)
      ensures width == old(width) && height == old(height) && timer == old(timer) && runningTimers == old(runningTimers)
      ensures nextTimerId == old(nextTimerId)
      ensures steps == old(steps) && allNodes == old(allNodes) && links == old(links) && recentNodeIds == old(recentNodeIds)
    {
      if !isDragging {
        return;
      }
      var delta := clientX - lastX;
      rotation := rotation + delta * DRAG_ROTATION_GAIN;
      lastX := clientX;
      velocity := delta * DRAG_VELOCITY_GAIN;
    }

    /** mouseup: the drag ends and the ambient spin resumes. */
    method MouseUp()
      requires Valid()
      modifies this
      ensures Valid()
      ensures !isDragging && velocity == AMBIENT_VELOCITY
      ensures rotation == old(rotation) && lastX == old(lastX) && isPaused == old(isPaused)
      ensures activeNodeId == old(activeNodeId) && selectedNodeId == old(selectedNodeId)
      ensures width == old(width) && height == old(height) && timer == old(timer) && runningTimers == old(runningTimers)
      ensures nextTimerId == old(nextTimerId)
      ensures steps == old(steps) && allNodes == old(allNodes) && links == old(links) && recentNodeIds == old(recentNodeIds)
    {
      isDragging := false;
      velocity := AMBIENT_VELOCITY;
    }

    /** mouseleave on the container: the same as mouseup. */
    method MouseLeave()
      requires Valid()
      modifies this
      ensures Valid()
      ensures !isDragging && velocity == AMBIENT_VELOCITY
      ensures rotation == old(rotation) && lastX == old(lastX) && isPaused == old(isPaused)
      ensures activeNodeId == old(activeNodeId) && selectedNodeId == old(selectedNodeId)
      ensures width == old(width) && height == old(height) && timer == old(timer) && runningTimers == old(runningTimers)
      ensures nextTimerId == old(nextTimerId)
      ensures steps == old(steps) && allNodes == old(allNodes) && links == old(links) && recentNodeIds == old(recentNodeIds)
    {
      MouseUp();
    }

    /** A click whose target is the container itself clears the selection;
      clicks on nodes stop propagating, so they never get here. */
    method ContainerClick(targetIsContainer: bool)
      requires Valid()
      modifies this
      ensures Valid()
      ensures selectedNodeId == if targetIsContainer then None else old(selectedNodeId)
      ensures rotation == old(rotation) && velocity == old(velocity) && lastX == old(lastX)
      ensures isDragging == old(isDragging) && isPaused == old(isPaused) && activeNodeId == old(activeNodeId)
      ensures width == old(width) && height == old(height) && timer == old(timer) && runningTimers == old(runningTimers)
      ensures nextTimerId == old(nextTimerId)
      ensures steps == old(steps) && allNodes == old(allNodes) && links == old(links) && recentNodeIds == old(recentNodeIds)
    {
      if targetIsContainer {
        selectedNodeId := None;
      }
    }

    /** Node mouseenter: ignored during a drag; otherwise the spin pauses and
      the node becomes the hovered one. */
    method NodeMouseEnter(id: string)
      requires Valid()
      modifies this
      ensures Valid()
      ensures old(isDragging) ==> isPaused == old(isPaused) && activeNodeId == old(activeNodeId)
      ensures !old(isDragging) ==> isPaused && activeNodeId == Some(id)
      ensures rotation == old(rotation) && velocity == old(velocity) && lastX == old(lastX)
      ensures isDragging == old(isDragging) && selectedNodeId == old(selectedNodeId)
      ensures width == old(width) && height == old(height) && timer == old(timer) && runningTimers == old(runningTimers)
      ensures nextTimerId == old(nextTimerId)
      ensures steps == old(steps) && allNodes == old(allNodes) && links == old(links) && recentNodeIds == old(recentNodeIds)
    {
      if isDragging {
        return;
      }
      isPaused := true;
      activeNodeId := Some(id);
    }

    /** Node mouseleave: the spin resumes and nothing is hovered. */
    method NodeMouseLeave()
      requires Valid()
      modifies this
      ensures Valid()
      ensures !isPaused && activeNodeId == None
      ensures rotation == old(rotation) && velocity == old(velocity) && lastX == old(lastX)
      ensures isDragging == old(isDragging) && selectedNodeId == old(selectedNodeId)
      ensures width == old(width) && height == old(height) && timer == old(timer) && runningTimers == old(runningTimers)
      ensures nextTimerId == old(nextTimerId)
      ensures steps == old(steps) && allNodes == old(allNodes) && links == old(links) && recentNodeIds == old(recentNodeIds)
    {
      isPaused := false;
      activeNodeId := None;
    }

    /** Node click: toggles the selection and reports the node to the graph
      view, as a deletion when shift is held and a selection otherwise. */
    method NodeClick(node: GraphNode, shiftKey: bool) returns (request: ActionRequest)
      requires Valid()
      modifies this
      ensures Valid()
      ensures old(selectedNodeId) == Some(node.id) ==> selectedNodeId == None
      ensures old(selectedNodeId) != Some(node.id) ==> selectedNodeId == Some(node.id)
      ensures request == ActionRequest(node.id, node.kind, if shiftKey then Delete else Select)
      ensures rotation == old(rotation) && velocity == old(velocity) && lastX == old(lastX)
      ensures isDragging == old(isDragging) && isPaused == old(isPaused) && activeNodeId == old(activeNodeId)
      ensures width == old(width) && height == old(height) && timer == old(timer) && runningTimers == old(runningTimers)
      ensures nextTimerId == old(nextTimerId)
      ensures steps == old(steps) && allNodes == old(allNodes) && links == old(links) && recentNodeIds == old(recentNodeIds)
    {
      selectedNodeId := if selectedNodeId == Some(node.id) then None else Some(node.id);
      request := ActionRequest(node.id, node.kind, if shiftKey then Delete else Select);
    }

    /** The graph view always passes a positive height (`clientHeight || 600`). */
    method UpdateDimensions(newWidth: real, newHeight: real)
      requires Valid() && newHeight > 0.0
      modifies this
      ensures Valid()
      ensures width == newWidth && height == newHeight
      ensures rotation == old(rotation) && velocity == old(velocity) && lastX == old(lastX)
      ensures isDragging == old(isDragging) && isPaused == old(isPaused)
      ensures activeNodeId == old(activeNodeId) && selectedNodeId == old(selectedNodeId)
      ensures timer == old(timer) && runningTimers == old(runningTimers) && nextTimerId == old(nextTimerId)
      ensures steps == old(steps) && allNodes == old(allNodes) && links == old(links) && recentNodeIds == old(recentNodeIds)
    {
      width := newWidth;
      height := newHeight;
    }

    /** Stores the assembled graph and restyles every node (`renderStatic`). */
    method UpdateData(newSteps: seq<Step>, newNodes: seq<GraphNode>, newLinks: seq<Link>, recentIds: set<string>)
      returns (styles: seq<StaticStyle>)
      requires Valid()
      modifies this
      ensures Valid()
      ensures steps == newSteps && allNodes == newNodes && links == newLinks && recentNodeIds == recentIds
      ensures styles == StaticStyles(newNodes, recentIds)
      ensures rotation == old(rotation) && velocity == old(velocity) && lastX == old(lastX)
      ensures isDragging == old(isDragging) && isPaused == old(isPaused)
      ensures activeNodeId == old(activeNodeId) && selectedNodeId == old(selectedNodeId)
      ensures width == old(width) && height == old(height)
      ensures timer == old(timer) && runningTimers == old(runningTimers) && nextTimerId == old(nextTimerId)
    {
      steps, allNodes, links, recentNodeIds := newSteps, newNodes, newLinks, recentIds;
      styles := StaticStyles(allNodes, recentNodeIds);
    }

    method SetSelected(nodeId: Option<string>)
      requires Valid()
      modifies this
      ensures Valid()
      ensures selectedNodeId == nodeId
      ensures rotation == old(rotation) && velocity == old(velocity) && lastX == old(lastX)
      ensures isDragging == old(isDragging) && isPaused == old(isPaused) && activeNodeId == old(activeNodeId)
      ensures width == old(width) && height == old(height)
      ensures timer == old(timer) && runningTimers == old(runningTimers) && nextTimerId == old(nextTimerId)
      ensures steps == old(steps) && allNodes == old(allNodes) && links == old(links) && recentNodeIds == old(recentNodeIds)
    {
      selectedNodeId := nodeId;
    }

    /** Stops the held timer, if any, then starts a fresh one: afterwards
      exactly one timer runs. */
    method Start()
      requires Valid()
      modifies this
      ensures Valid()
      ensures timer == Some(old(nextTimerId)) && runningTimers == {old(nextTimerId)}
      ensures nextTimerId == old(nextTimerId) + 1
      ensures rotation == old(rotation) && velocity == old(velocity) && lastX == old(lastX)
      ensures isDragging == old(isDragging) && isPaused == old(isPaused)
      ensures activeNodeId == old(activeNodeId) && selectedNodeId == old(selectedNodeId)
      ensures width == old(width) && height == old(height)
      ensures steps == old(steps) && allNodes == old(allNodes) && links == old(links) && recentNodeIds == old(recentNodeIds)
    {
      if timer.Some? {
        runningTimers := runningTimers - {timer.value};
      }
      assert runningTimers == {};
      timer := Some(nextTimerId);
      runningTimers := runningTimers + {nextTimerId};
      nextTimerId := nextTimerId + 1;
    }

    /** Stops the held timer, if any; the reference is kept. Without a timer
      nothing changes. */
    method Stop()
      requires Valid()
      modifies this
      ensures Valid()
      ensures runningTimers == {} && timer == old(timer) && nextTimerId == old(nextTimerId)
      ensures rotation == old(rotation) && velocity == old(velocity) && lastX == old(lastX)
      ensures isDragging == old(isDragging) && isPaused == old(isPaused)
      ensures activeNodeId == old(activeNodeId) && selectedNodeId == old(selectedNodeId)
      ensures width == old(width) && height == old(height)
      ensures steps == old(steps) && allNodes == old(allNodes) && links == old(links) && recentNodeIds == old(recentNodeIds)
    {
      if timer.Some? {
        runningTimers := runningTimers - {timer.value};
      }
    }

    /** One animation frame: the spin advances unless paused or dragged, then
      rungs, nodes (back to front), synapses and strands are laid out for the
      new rotation. */
    method Tick(trig: Trig) returns (frame: Frame)
      requires Valid() && Bounded(trig)
      modifies this
      ensures Valid()
      ensures rotation == if !old(isPaused) && !old(isDragging) then old(rotation) + old(velocity) else old(rotation)
      ensures FrameFor(frame, steps, allNodes, links, recentNodeIds, activeNodeId, selectedNodeId,
                       LayoutOf(width, height, |steps|, rotation), trig)
      ensures velocity == old(velocity) && lastX == old(lastX)
      ensures isDragging == old(isDragging) && isPaused == old(isPaused)
      ensures activeNodeId == old(activeNodeId) && selectedNodeId == old(selectedNodeId)
      ensures width == old(width) && height == old(height)
      ensures timer == old(timer) && runningTimers == old(runningTimers) && nextTimerId == old(nextTimerId)
      ensures steps == old(steps) && allNodes == old(allNodes) && links == old(links) && recentNodeIds == old(recentNodeIds)
    {
      if !isPaused && !isDragging {
        rotation := rotation + velocity;
      }
      var l := LayoutOf(width, height, |steps|, rotation);
      var current, nodes, synapseLinks, recent := steps, allNodes, links, recentNodeIds;
      frame := ComposeFrame(current, nodes, synapseLinks, recent, activeNodeId, selectedNodeId, l, trig);
    }
  }

  /** The sampled strands reach from the top of the helix to its bottom. */
  lemma StrandsSpanHelix(width: real, height: real, stepCount: nat, rotation: real)
    requires height > 0.0 && stepCount > 0
    ensures var l := LayoutOf(width, height, stepCount, rotation);
            && SampleY(0, stepCount, l.startY, l.stepSpacing) == l.startY
            && SampleY(SampleCount(stepCount), stepCount, l.startY, l.stepSpacing) == l.startY + l.helixHeight
  {
    var l := LayoutOf(width, height, stepCount, rotation);
    SampleSpan(stepCount, l.startY, l.stepSpacing);
    LadderSpansHelix(width, height, stepCount, rotation);
  }
}
