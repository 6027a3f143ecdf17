/** The graph assembly of components/GraphView.tsx: two record lists become
    the rank steps of the helix ladder, the flat node list, the id map, the
    id-ordered structural links and the set of "recent" ids. */
module GraphAssembly {
  import opened Wrappers
  import opened Domain
  import opened Strings
  import opened Seqs
  import opened Sorting
  import Helix

  datatype NodeKind = QuestionNode | ObjectiveNode

  /** A node: the record's fields plus `label` (here `caption`), `type`, `strand` and `index`.
      Objectives have no `linkedOKRIds`; the missing list is the empty one. */
  datatype GraphNode = GraphNode(
    id: string,
    caption: string,
    kind: NodeKind,
    strand: Helix.Strand,
    index: nat,
    linkedQuestionIds: seq<string>,
    linkedOKRIds: seq<string>,
    createdAt: int,
    updatedAt: int)

  /** One rung of the ladder: rank `index`, with the question and the
      objective of that rank when there are that many. */
  datatype Step = Step(index: nat, question: Option<GraphNode>, objective: Option<GraphNode>)

  datatype Link = Link(source: GraphNode, target: GraphNode)

  datatype Graph = Graph(
    steps: seq<Step>,
    nodes: seq<GraphNode>,
    nodeMap: map<string, GraphNode>,
    links: seq<Link>,
    recentIds: set<string>)

  /** The ladder always has at least this many rungs. */
  const MIN_STEPS: nat := 12

  /** How many nodes are highlighted as recent. */
  const RECENT_COUNT: nat := 3

  function Max3(a: nat, b: nat, c: nat): nat {
    if a >= b && a >= c then a else if b >= c then b else c
  }

  function QuestionNodeOf(q: Question, i: nat): GraphNode {
    GraphNode(q.id, q.title, QuestionNode, Helix.A, i, q.linkedQuestionIds, q.linkedOKRIds, q.createdAt, q.updatedAt)
  }

  function ObjectiveNodeOf(o: Objective, i: nat): GraphNode {
    GraphNode(o.id, o.title, ObjectiveNode, Helix.B, i, o.linkedQuestionIds, [], o.createdAt, o.updatedAt)
  }

  /** The comparator `b.createdAt - a.createdAt` sorts ascending by minus the
      creation time. */
  function QuestionAgeKey(q: Question): real {
    -(q.createdAt as real)
  }

  function ObjectiveAgeKey(o: Objective): real {
    -(o.createdAt as real)
  }

  function NewestFirstQuestions(qs: seq<Question>): seq<Question> {
    SortByKey(qs, QuestionAgeKey)
  }

  function NewestFirstObjectives(os: seq<Objective>): seq<Objective> {
    SortByKey(os, ObjectiveAgeKey)
  }

  /** The sorted copies hold the same records, newest first. */
  lemma NewestFirstOrder(qs: seq<Question>, os: seq<Objective>)
    ensures multiset(NewestFirstQuestions(qs)) == multiset(qs)
    ensures multiset(NewestFirstObjectives(os)) == multiset(os)
    ensures forall i, j :: 0 <= i < j < |qs| ==>
      NewestFirstQuestions(qs)[i].createdAt >= NewestFirstQuestions(qs)[j].createdAt
    ensures forall i, j :: 0 <= i < j < |os| ==>
      NewestFirstObjectives(os)[i].createdAt >= NewestFirstObjectives(os)[j].createdAt
  {
    SortByKeySorted(qs, QuestionAgeKey);
    SortByKeySorted(os, ObjectiveAgeKey);
    var sq := NewestFirstQuestions(qs);
    var so := NewestFirstObjectives(os);
    assert forall i, j :: 0 <= i < j < |qs| ==> QuestionAgeKey(sq[i]) <= QuestionAgeKey(sq[j]);
    assert forall i, j :: 0 <= i < j < |os| ==> ObjectiveAgeKey(so[i]) <= ObjectiveAgeKey(so[j]);
  }

  /** The rung of rank `i` over the sorted lists. */
  function StepAt(sq: seq<Question>, so: seq<Objective>, i: nat): Step {
    Step(i,
         if i < |sq| then Some(QuestionNodeOf(sq[i], i)) else None,
         if i < |so| then Some(ObjectiveNodeOf(so[i], i)) else None)
  }

  /** The nodes a rung contributes to the flat list, question first. */
  function StepNodes(s: Step): seq<GraphNode> {
    (if s.question.Some? then [s.question.value] else [])
    + (if s.objective.Some? then [s.objective.value] else [])
  }

  /** A step's nodes are its question and its objective. */
  lemma StepNodesMembership(s: Step, n: GraphNode)
    ensures n in StepNodes(s) <==> s.question == Some(n) || s.objective == Some(n)
  {
  }

  function FlatNodes(steps: seq<Step>): seq<GraphNode>
    decreases |steps|
  {
    if steps == [] then [] else FlatNodes(steps[..|steps| - 1]) + StepNodes(steps[|steps| - 1])
  }

  /** `nodeMap.set(id, node)` in list order: a later node overwrites an
      earlier one with the same id. */
  function NodeMapOf(nodes: seq<GraphNode>): map<string, GraphNode>
    decreases |nodes|
  {
    if nodes == [] then map[]
    else NodeMapOf(nodes[..|nodes| - 1])[nodes[|nodes| - 1].id := nodes[|nodes| - 1]]
  }

  /** Candidate targets: the linked question ids, then the linked OKR ids. */
  function Targets(n: GraphNode): seq<string> {
    n.linkedQuestionIds + n.linkedOKRIds
  }

  /** The links one source emits for the candidate ids `tids`, in order. */
  function LinksFrom(source: GraphNode, tids: seq<string>, m: map<string, GraphNode>): seq<Link>
    decreases |tids|
  {
    if tids == [] then []
    else
      var tid := tids[|tids| - 1];
      LinksFrom(source, tids[..|tids| - 1], m)
      + (if tid in m && LexLess(source.id, tid) then [Link(source, m[tid])] else [])
  }

  function StructuralLinks(nodes: seq<GraphNode>, m: map<string, GraphNode>): seq<Link>
    decreases |nodes|
  {
    if nodes == [] then []
    else
      var source := nodes[|nodes| - 1];
      StructuralLinks(nodes[..|nodes| - 1], m) + LinksFrom(source, Targets(source), m)
  }

  /** `rawEntity?.createdAt || 0`: no node carries a `rawEntity`, so every
      node's recency key is 0. */
  function RecentKey(n: GraphNode): real {
    0.0
  }

  function IdsOf(s: seq<GraphNode>): (r: set<string>)
    ensures |r| <= |s|
    ensures forall id :: id in r <==> exists i :: 0 <= i < |s| && s[i].id == id
    decreases |s|
  {
    if s == [] then {} else IdsOf(s[..|s| - 1]) + {s[|s| - 1].id}
  }

  function RecentIds(nodes: seq<GraphNode>): set<string> {
    IdsOf(Take(SortByKey(nodes, RecentKey), RECENT_COUNT))
  }

  predicate IdsDistinct(nodes: seq<GraphNode>) {
    forall i, j :: 0 <= i < j < |nodes| ==> nodes[i].id != nodes[j].id
  }

  /** The assembly: sorts copies of both lists newest first, builds the
      ladder, then the links, then the recent set. The input arrays are read
      but not modified, so the caller's lists keep their order. */
  method Assemble(questions: array<Question>, objectives: array<Objective>) returns (g: Graph)
    ensures var sq := NewestFirstQuestions(questions[..]);
            var so := NewestFirstObjectives(objectives[..]);
            forall i :: 0 <= i < |g.steps| ==> g.steps[i] == StepAt(sq, so, i)
    ensures |g.steps| == Max3(questions.Length, objectives.Length, MIN_STEPS)
    ensures forall i :: 0 <= i < |g.steps| ==>
              && g.steps[i].index == i
              && (g.steps[i].question.Some? <==> i < questions.Length)
              && (g.steps[i].objective.Some? <==> i < objectives.Length)
              && (g.steps[i].question.Some? ==>
                    g.steps[i].question.value.strand == Helix.A && g.steps[i].question.value.index == i)
              && (g.steps[i].objective.Some? ==>
                    g.steps[i].objective.value.strand == Helix.B && g.steps[i].objective.value.index == i)
    ensures g.nodes == FlatNodes(g.steps)
    ensures |g.nodes| == questions.Length + objectives.Length
    ensures g.nodeMap == NodeMapOf(g.nodes)
    ensures g.links == StructuralLinks(g.nodes, g.nodeMap)
    ensures g.recentIds == RecentIds(g.nodes)
    ensures g.recentIds == IdsOf(Take(g.nodes, RECENT_COUNT))
  {
    var sq := NewestFirstQuestions(questions[..]);
    var so := NewestFirstObjectives(objectives[..]);
    var steps, flat, nodeMap := BuildLadder(sq, so);
    var links := BuildLinks(flat, nodeMap);
    var sortedAll := SortByKey(flat, RecentKey);
    RecentIsPrefix(flat);
    g := Graph(steps, flat, nodeMap, links, IdsOf(Take(sortedAll, RECENT_COUNT)));
  }

  /** The `for` loop over the ranks, pushing rungs and nodes and filling the map. */
  method BuildLadder(sq: seq<Question>, so: seq<Objective>)
    returns (steps: seq<Step>, flat: seq<GraphNode>, nodeMap: map<string, GraphNode>)
    ensures |steps| == Max3(|sq|, |so|, MIN_STEPS)
    ensures forall k :: 0 <= k < |steps| ==> steps[k] == StepAt(sq, so, k)
    ensures flat == FlatNodes(steps)
    ensures |flat| == |sq| + |so|
    ensures nodeMap == NodeMapOf(flat)
  {
    var n := Max3(|sq|, |so|, MIN_STEPS);
    steps, flat, nodeMap := [], [], map[];
    var i := 0;
    while i < n
      invariant 0 <= i <= n
      invariant |steps| == i
      invariant forall k :: 0 <= k < i ==> steps[k] == StepAt(sq, so, k)
      invariant flat == FlatNodes(steps)
      invariant nodeMap == NodeMapOf(flat)
    {
      var step := Step(i, None, None);
      ghost var before := flat;
      if i < |sq| {
        var qNode := QuestionNodeOf(sq[i], i);
        step := step.(question := Some(qNode));
        NodeMapSnoc(flat, qNode);
        flat := flat + [qNode];
        nodeMap := nodeMap[qNode.id := qNode];
      }
      if i < |so| {
        var oNode := ObjectiveNodeOf(so[i], i);
        step := step.(objective := Some(oNode));
        NodeMapSnoc(flat, oNode);
        flat := flat + [oNode];
        nodeMap := nodeMap[oNode.id := oNode];
      }
      assert step == StepAt(sq, so, i);
      assert flat == before + StepNodes(step);
      FlatNodesSnoc(steps, step);
      steps := steps + [step];
      i := i + 1;
    }
    FlatNodesCount(steps, sq, so);
  }

  /** The nested `forEach` over sources and their candidate ids. */
  method BuildLinks(flat: seq<GraphNode>, nodeMap: map<string, GraphNode>) returns (links: seq<Link>)
    ensures links == StructuralLinks(flat, nodeMap)
  {
    links := [];
    var k := 0;
    while k < |flat|
      invariant 0 <= k <= |flat|
      invariant links == StructuralLinks(flat[..k], nodeMap)
    {
      var source := flat[k];
      var targets := Targets(source);
      var j := 0;
      while j < |targets|
        invariant 0 <= j <= |targets|
        invariant links == StructuralLinks(flat[..k], nodeMap) + LinksFrom(source, targets[..j], nodeMap)
      {
        var tid := targets[j];
        assert targets[..j + 1][..j] == targets[..j];
        if tid in nodeMap && LexLess(source.id, tid) {
          links := links + [Link(source, nodeMap[tid])];
        }
        j := j + 1;
      }
      assert targets[..j] == targets;
      assert flat[..k + 1][..k] == flat[..k];
      k := k + 1;
    }
    assert flat[..k] == flat;
  }

  lemma FlatNodesSnoc(steps: seq<Step>, step: Step)
    ensures FlatNodes(steps + [step]) == FlatNodes(steps) + StepNodes(step)
  {
    assert (steps + [step])[..|steps|] == steps;
  }

  lemma NodeMapSnoc(nodes: seq<GraphNode>, n: GraphNode)
    ensures NodeMapOf(nodes + [n]) == NodeMapOf(nodes)[n.id := n]
  {
    assert (nodes + [n])[..|nodes|] == nodes;
  }

  /** Rung `k` contributes a question for each of the first `|sq|` ranks and
      an objective for each of the first `|so|`, so the flat list has one
      entry per record. */
  lemma {:induction false} FlatNodesCount(steps: seq<Step>, sq: seq<Question>, so: seq<Objective>)
    requires forall k :: 0 <= k < |steps| ==> steps[k] == StepAt(sq, so, k)
    ensures |FlatNodes(steps)| == (if |steps| < |sq| then |steps| else |sq|) + (if |steps| < |so| then |steps| else |so|)
    decreases |steps|
  {
    if steps != [] {
      FlatNodesCount(steps[..|steps| - 1], sq, so);
    }
  }

  /** A node is in the flat list exactly when it is the question or the
      objective of some rung. */
  lemma {:induction false} FlatNodesMembership(steps: seq<Step>, n: GraphNode)
    ensures n in FlatNodes(steps) <==>
      exists k :: 0 <= k < |steps| && (steps[k].question == Some(n) || steps[k].objective == Some(n))
    decreases |steps|
  {
    if steps != [] {
      var init := steps[..|steps| - 1];
      var last := steps[|steps| - 1];
      FlatNodesMembership(init, n);
      assert FlatNodes(steps) == FlatNodes(init) + StepNodes(last);
      StepNodesMembership(last, n);
      if n in FlatNodes(init) {
        var k :| 0 <= k < |init| && (init[k].question == Some(n) || init[k].objective == Some(n));
        assert steps[k] == init[k];
      }
      if n in StepNodes(last) {
        assert steps[|steps| - 1] == last;
      }
      if exists k :: 0 <= k < |steps| && (steps[k].question == Some(n) || steps[k].objective == Some(n)) {
        var k :| 0 <= k < |steps| && (steps[k].question == Some(n) || steps[k].objective == Some(n));
        if k < |init| {
          assert init[k] == steps[k];
        }
      }
    }
  }

  /** Every id of the list is a key of the map, and each key maps to a node of
      the list carrying that id. */
  lemma {:induction false} NodeMapFacts(nodes: seq<GraphNode>)
    ensures forall id :: id in NodeMapOf(nodes) <==> exists i :: 0 <= i < |nodes| && nodes[i].id == id
    ensures forall id :: id in NodeMapOf(nodes) ==> NodeMapOf(nodes)[id].id == id && NodeMapOf(nodes)[id] in nodes
    decreases |nodes|
  {
    if nodes != [] {
      var init := nodes[..|nodes| - 1];
      NodeMapFacts(init);
      assert forall i :: 0 <= i < |init| ==> init[i] == nodes[i];
    }
  }

  /** When ids are distinct, each node is what the map holds for its id. */
  lemma {:induction false} NodeMapOfDistinct(nodes: seq<GraphNode>)
    requires IdsDistinct(nodes)
    ensures forall i :: 0 <= i < |nodes| ==> nodes[i].id in NodeMapOf(nodes) && NodeMapOf(nodes)[nodes[i].id] == nodes[i]
    decreases |nodes|
  {
    if nodes != [] {
      var init := nodes[..|nodes| - 1];
      NodeMapOfDistinct(init);
      forall i | 0 <= i < |nodes|
        ensures nodes[i].id in NodeMapOf(nodes) && NodeMapOf(nodes)[nodes[i].id] == nodes[i]
      {
        if i < |init| {
          assert init[i] == nodes[i];
        }
      }
    }
  }

  /** A link from `source` is emitted for each candidate id that is known and
      larger than the source's id, and for nothing else. */
  lemma {:induction false} LinksFromMembership(source: GraphNode, tids: seq<string>, m: map<string, GraphNode>, l: Link)
    ensures l in LinksFrom(source, tids, m) <==>
      l.source == source && exists t :: t in tids && t in m && LexLess(source.id, t) && l.target == m[t]
    decreases |tids|
  {
    if tids != [] {
      var init := tids[..|tids| - 1];
      var tid := tids[|tids| - 1];
      LinksFromMembership(source, init, m, l);
      assert tids == init + [tid];
      if l in LinksFrom(source, tids, m) && l !in LinksFrom(source, init, m) {
        assert tid in tids && l.target == m[tid];
      }
    }
  }

  /** A link is emitted exactly for a listed source and a known, larger
      candidate id of it. */
  lemma {:induction false} LinkMembership(nodes: seq<GraphNode>, m: map<string, GraphNode>, l: Link)
    ensures l in StructuralLinks(nodes, m) <==>
      l.source in nodes && exists t :: t in Targets(l.source) && t in m && LexLess(l.source.id, t) && l.target == m[t]
    decreases |nodes|
  {
    if nodes != [] {
      var init := nodes[..|nodes| - 1];
      var source := nodes[|nodes| - 1];
      LinkMembership(init, m, l);
      LinksFromMembership(source, Targets(source), m, l);
      assert nodes == init + [source];
    }
  }

  /** Every emitted link joins two listed nodes, its target is one of the
      source's candidate ids, and the source's id is the smaller; so no node
      links to itself. */
  lemma LinksWellFormed(nodes: seq<GraphNode>, l: Link)
    requires l in StructuralLinks(nodes, NodeMapOf(nodes))
    ensures l.source in nodes && l.target in nodes
    ensures l.target.id in NodeMapOf(nodes) && NodeMapOf(nodes)[l.target.id] == l.target
    ensures l.target.id in Targets(l.source)
    ensures LexLess(l.source.id, l.target.id)
    ensures l.source.id != l.target.id
  {
    var m := NodeMapOf(nodes);
    LinkMembership(nodes, m, l);
    NodeMapFacts(nodes);
    var t :| t in Targets(l.source) && t in m && LexLess(l.source.id, t) && l.target == m[t];
    assert l.target.id == t;
    LexLessIrreflexive(l.source.id);
  }

  /** No two links run in opposite directions between the same ids. */
  lemma NoOppositeLinks(nodes: seq<GraphNode>, l1: Link, l2: Link)
    requires l1 in StructuralLinks(nodes, NodeMapOf(nodes)) && l2 in StructuralLinks(nodes, NodeMapOf(nodes))
    ensures !(l1.source.id == l2.target.id && l1.target.id == l2.source.id)
  {
    LinksWellFormed(nodes, l1);
    LinksWellFormed(nodes, l2);
    LexLessAsymmetric(l1.source.id, l1.target.id);
  }

  /** Two distinct-id nodes naming each other yield exactly one link, from the
      side with the smaller id. */
  lemma MutualPairOneLink(nodes: seq<GraphNode>, a: GraphNode, b: GraphNode)
    requires IdsDistinct(nodes)
    requires a in nodes && b in nodes && a.id != b.id
    requires b.id in Targets(a) && a.id in Targets(b)
    ensures LexLess(a.id, b.id) ==> Link(a, b) in StructuralLinks(nodes, NodeMapOf(nodes))
    ensures LexLess(a.id, b.id) ==> Link(b, a) !in StructuralLinks(nodes, NodeMapOf(nodes))
    ensures Link(a, b) in StructuralLinks(nodes, NodeMapOf(nodes)) <==> !(Link(b, a) in StructuralLinks(nodes, NodeMapOf(nodes)))
  {
    var m := NodeMapOf(nodes);
    NodeMapOfDistinct(nodes);
    var ia :| 0 <= ia < |nodes| && nodes[ia] == a;
    var ib :| 0 <= ib < |nodes| && nodes[ib] == b;
    assert m[a.id] == a && m[b.id] == b;
    LinkMembership(nodes, m, Link(a, b));
    LinkMembership(nodes, m, Link(b, a));
    LexLessTotal(a.id, b.id);
    LexLessAsymmetric(a.id, b.id);
    if Link(b, a) in StructuralLinks(nodes, m) {
      LinksWellFormed(nodes, Link(b, a));
    }
    if Link(a, b) in StructuralLinks(nodes, m) {
      LinksWellFormed(nodes, Link(a, b));
    }
  }

  /** The recency sort has one key for every node, so the recent set is the
      ids of the first three flat nodes: at most three ids, all of listed nodes. */
  lemma RecentIsPrefix(nodes: seq<GraphNode>)
    ensures RecentIds(nodes) == IdsOf(Take(nodes, RECENT_COUNT))
    ensures |RecentIds(nodes)| <= RECENT_COUNT
    ensures RecentIds(nodes) <= IdsOf(nodes)
  {
    SortByConstantKeyIsIdentity(nodes, RecentKey);
    var p := Take(nodes, RECENT_COUNT);
    forall id | id in IdsOf(p)
      ensures id in IdsOf(nodes)
    {
      var i :| 0 <= i < |p| && p[i].id == id;
      assert nodes[i].id == id;
    }
  }
}
