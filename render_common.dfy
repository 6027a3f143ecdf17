/** Geometry and focus rules that both renderer generations share:
    logic/GraphRenderer.ts and logic/systems/StructureSystem.ts draw the same
    bowed rungs and midpoint synapses, normalise depth the same way, and
    resolve the focused node and link endpoints the same way. */
module RenderCommon {
  import opened Wrappers
  import opened Helix
  import opened Seqs

  datatype Point2 = Point2(x: real, y: real)

  /** The screen part of a helix point. */
  function Flat(p: HelixPoint): Point2 {
    Point2(p.x, p.y)
  }

  function Midpoint(a: Point2, b: Point2): Point2 {
    Point2((a.x + b.x) / 2.0, (a.y + b.y) / 2.0)
  }

  /** A quadratic Bezier `M start Q control end`. */
  datatype QuadCurve = QuadCurve(start: Point2, control: Point2, end: Point2)

  /** How far a rung bows, as a fraction of its length. */
  const BOW: real := 0.3

  /** The bowed rung: the control point sits above the midpoint by 0.3 of
      the distance between the ends, so it is never below it. */
  function BowedCurve(a: Point2, b: Point2, trig: Trig): (c: QuadCurve)
    requires Bounded(trig)
    ensures c.start == a && c.end == b
    ensures c.control.x == Midpoint(a, b).x && c.control.y <= Midpoint(a, b).y
    ensures Midpoint(a, b).y - c.control.y == BOW * trig.sqrt((a.x - b.x) * (a.x - b.x) + (a.y - b.y) * (a.y - b.y))
  {
    var dist := trig.sqrt((a.x - b.x) * (a.x - b.x) + (a.y - b.y) * (a.y - b.y));
    var m := Midpoint(a, b);
    QuadCurve(a, Point2(m.x, m.y - dist * BOW), b)
  }

  /** A curve whose control point is the midpoint: a straight segment. */
  function StraightCurve(a: Point2, b: Point2): (c: QuadCurve)
    ensures c.start == a && c.end == b && c.control == Midpoint(a, b)
  {
    QuadCurve(a, Midpoint(a, b), b)
  }

  /** Depth mapped from [-1, 1] to [0, 1]. */
  function ZNorm(z: real): (r: real)
    ensures -1.0 <= z <= 1.0 ==> 0.0 <= r <= 1.0
    ensures r == 0.0 <==> z == -1.0
    ensures r == 1.0 <==> z == 1.0
  {
    (z + 1.0) / 2.0
  }

  /** `activeId || selectedId`, kept only when truthy: the hovered node wins,
      the selected one stands in for it. */
  function FocusId(active: Option<string>, selected: Option<string>): (f: Option<string>)
    ensures f.Some? <==> Truthy(active) || Truthy(selected)
    ensures f.Some? ==> f.value != "" && (f == active || f == selected)
    ensures Truthy(active) ==> f == active
  {
    if Truthy(active) then active else if Truthy(selected) then selected else None
  }

  /** `nodes.find(n => n.id === id)?.index ?? 0`: the rank of the first node
      with that id, or 0 when there is none. */
  function EndpointStep<T>(nodes: seq<T>, id: string, idOf: T -> string, rankOf: T -> nat): (r: nat)
    ensures (forall i :: 0 <= i < |nodes| ==> idOf(nodes[i]) != id) ==> r == 0
    ensures forall i :: 0 <= i < |nodes| && idOf(nodes[i]) == id && (forall j :: 0 <= j < i ==> idOf(nodes[j]) != id) ==>
              r == rankOf(nodes[i])
  {
    match FindIndex(nodes, (n: T) => idOf(n) == id)
    case None => 0
    case Some(k) => rankOf(nodes[k])
  }
}
