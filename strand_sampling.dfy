/** The strand sampling loop shared by logic/GraphRenderer.ts (`tick`) and
    logic/systems/StructureSystem.ts (`renderStrands`): four samples per
    rung, from the top of the helix to the bottom, on both strands. */
module StrandSampling {
  import opened Helix
  import opened RenderCommon

  /** Samples per rung. */
  const SAMPLES_PER_STEP: nat := 4

  function SampleCount(stepCount: nat): nat {
    stepCount * SAMPLES_PER_STEP
  }

  /** Base height of sample `i`: `startY + (i / samples) * (steps * spacing)`.
      With no rungs this is 0/0 in the source, so at least one is required. */
  function SampleY(i: nat, stepCount: nat, startY: real, stepSpacing: real): real
    requires stepCount >= 1
  {
    startY + (i as real / SampleCount(stepCount) as real) * (stepCount as real * stepSpacing)
  }

  /** The `[x, y]` pair pushed for sample `i` of `strand`. */
  function StrandPoint(i: nat, strand: Strand, stepCount: nat, startY: real, stepSpacing: real,
                       rotation: real, width: real, helixHeight: real, trig: Trig): Point2
    requires stepCount >= 1 && helixHeight != 0.0 && Bounded(trig)
  {
    var p := Point(SampleY(i, stepCount, startY, stepSpacing), strand, rotation, width, startY, helixHeight, trig);
    Point2(p.x, p.y)
  }

  /** The `for (i = 0; i <= samples; i++)` loop filling `pointsA` and
      `pointsB`. Every sample stays within one amplitude of the centre line. */
  method SampleStrands(stepCount: nat, startY: real, stepSpacing: real, rotation: real,
                       width: real, helixHeight: real, trig: Trig)
    returns (pointsA: seq<Point2>, pointsB: seq<Point2>)
    requires stepCount >= 1 && helixHeight != 0.0 && Bounded(trig)
    ensures |pointsA| == SampleCount(stepCount) + 1 && |pointsB| == SampleCount(stepCount) + 1
    ensures forall i :: 0 <= i < |pointsA| ==>
      && pointsA[i] == StrandPoint(i, A, stepCount, startY, stepSpacing, rotation, width, helixHeight, trig)
      && pointsB[i] == StrandPoint(i, B, stepCount, startY, stepSpacing, rotation, width, helixHeight, trig)
    ensures forall i :: 0 <= i < |pointsA| ==>
      Abs(pointsA[i].x - width / 2.0) <= Abs(Amplitude(width)) && Abs(pointsB[i].x - width / 2.0) <= Abs(Amplitude(width))
  {
    var samples := SampleCount(stepCount);
    pointsA, pointsB := [], [];
    var i := 0;
    while i <= samples
      invariant 0 <= i <= samples + 1
      invariant |pointsA| == i && |pointsB| == i
      invariant forall k :: 0 <= k < i ==>
        && pointsA[k] == StrandPoint(k, A, stepCount, startY, stepSpacing, rotation, width, helixHeight, trig)
        && pointsB[k] == StrandPoint(k, B, stepCount, startY, stepSpacing, rotation, width, helixHeight, trig)
      invariant forall k :: 0 <= k < i ==>
        Abs(pointsA[k].x - width / 2.0) <= Abs(Amplitude(width)) && Abs(pointsB[k].x - width / 2.0) <= Abs(Amplitude(width))
    {
      var y := SampleY(i, stepCount, startY, stepSpacing);
      var pA := Point(y, A, rotation, width, startY, helixHeight, trig);
      var pB := Point(y, B, rotation, width, startY, helixHeight, trig);
      pointsA := pointsA + [Point2(pA.x, pA.y)];
      pointsB := pointsB + [Point2(pB.x, pB.y)];
      i := i + 1;
    }
  }

  lemma FractionMonotone(i: nat, j: nat, n: nat, len: real)
    requires n >= 1 && i <= j && len >= 0.0
    ensures (i as real / n as real) * len <= (j as real / n as real) * len
  {
    assert i as real / n as real <= j as real / n as real;
  }

  /** The samples run from the top of the helix (`startY`) to the last rung's
      base (`startY + steps * spacing`), descending the screen when the
      spacing is positive. */
  lemma SampleSpan(stepCount: nat, startY: real, stepSpacing: real)
    requires stepCount >= 1
    ensures SampleY(0, stepCount, startY, stepSpacing) == startY
    ensures SampleY(SampleCount(stepCount), stepCount, startY, stepSpacing) == startY + stepCount as real * stepSpacing
    ensures stepSpacing >= 0.0 ==> forall i: nat, j: nat :: i <= j ==>
      SampleY(i, stepCount, startY, stepSpacing) <= SampleY(j, stepCount, startY, stepSpacing)
  {
    var n := SampleCount(stepCount);
    assert n as real / n as real == 1.0;
    if stepSpacing >= 0.0 {
      forall i: nat, j: nat | i <= j
        ensures SampleY(i, stepCount, startY, stepSpacing) <= SampleY(j, stepCount, startY, stepSpacing)
      {
        assert stepCount as real * stepSpacing >= 0.0;
        FractionMonotone(i, j, n, stepCount as real * stepSpacing);
      }
    }
  }
}
