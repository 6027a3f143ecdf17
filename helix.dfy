/** The helix projection and sizing of utils/helixMath.ts.

    `Math.sin`, `Math.cos` and `Math.sqrt` are not interpreted: they arrive as a
    `Trig` value, and all the model assumes of them is that sine and cosine lie
    in [-1, 1] and a square root is not negative. */
module Helix {

  /** `Math.PI` as a double. */
  const PI: real := 3.141592653589793

  /** `HELIX_CONSTANTS` */
  const TILT: real := 0.3
  const AMP_LIMIT: real := 140.0
  const FREQ_CYCLES: real := 2.5

  /** Vertical room each item gets when the helix is sized. */
  const NODE_SPACING: real := 60.0

  datatype Strand = A | B

  /** The trigonometry the source calls. */
  datatype Trig = Trig(sin: real -> real, cos: real -> real, sqrt: real -> real)

  ghost predicate Bounded(t: Trig) {
    && (forall a :: -1.0 <= t.sin(a) <= 1.0)
    && (forall a :: -1.0 <= t.cos(a) <= 1.0)
    && (forall v :: t.sqrt(v) >= 0.0)
  }

  /** `HelixPoint`: screen position, depth `z` and the raw phase angle. */
  datatype HelixPoint = HelixPoint(x: real, y: real, z: real, angle: real)

  function Abs(v: real): real {
    if v < 0.0 then -v else v
  }

  function Min(a: real, b: real): real {
    if a <= b then a else b
  }

  function Max(a: real, b: real): real {
    if a >= b then a else b
  }

  /** `amp = Math.min(width * 0.2, AMP_LIMIT)` */
  function Amplitude(width: real): (amp: real)
    ensures amp <= AMP_LIMIT && amp <= width * 0.2
    ensures amp == width * 0.2 || amp == AMP_LIMIT
  {
    Min(width * 0.2, AMP_LIMIT)
  }

  /** Radians per pixel: 2.5 full turns over the helix height. */
  function Frequency(helixHeight: real): real
    requires helixHeight != 0.0
  {
    (5.0 * PI) / helixHeight
  }

  function PhaseOffset(strand: Strand): real {
    if strand == B then PI else 0.0
  }

  function Angle(yBase: real, strand: Strand, rotation: real, startY: real, helixHeight: real): real
    requires helixHeight != 0.0
  {
    (yBase - startY) * Frequency(helixHeight) + rotation + PhaseOffset(strand)
  }

  lemma ScaledByUnit(a: real, s: real)
    requires -1.0 <= s <= 1.0
    ensures Abs(a * s) <= Abs(a)
  {
    if a >= 0.0 {
      if s >= 0.0 { assert a * s <= a * 1.0; } else { assert a * s >= a * -1.0; }
    } else {
      if s >= 0.0 { assert a * s >= a * 1.0; } else { assert a * s <= a * -1.0; }
    }
  }

  /** `calculateHelixPoint`: depth is the cosine of the phase angle, so it lies in
      [-1, 1]; x swings by the amplitude times the sine around the vertical
      centre line, staying within one amplitude of it; the depth tilt moves y
      by depth times amplitude times `TILT`, at most `TILT` amplitudes off its
      base height. */
  function Point(yBase: real, strand: Strand, rotation: real, width: real, startY: real,
                 helixHeight: real, trig: Trig): (p: HelixPoint)
    requires helixHeight != 0.0
    requires Bounded(trig)
    ensures -1.0 <= p.z <= 1.0
    ensures Abs(p.x - width / 2.0) <= Abs(Amplitude(width))
    ensures Abs(p.y - yBase) <= TILT * Abs(Amplitude(width))
    ensures p.angle == Angle(yBase, strand, rotation, startY, helixHeight)
    ensures p.z == trig.cos(p.angle)
    ensures p.x == width / 2.0 + Amplitude(width) * trig.sin(p.angle)
    ensures p.y == yBase + p.z * Amplitude(width) * TILT
  {
    var amp := Amplitude(width);
    var angle := Angle(yBase, strand, rotation, startY, helixHeight);
    var z := trig.cos(angle);
    var sin := trig.sin(angle);
    OffsetsBounded(width, yBase, amp, sin, z);
    HelixPoint(width / 2.0 + amp * sin, yBase + z * amp * TILT, z, angle)
  }

  /** The sine swing and the depth tilt of a point stay within one amplitude
      and `TILT` amplitudes of the centre line and the base height. */
  lemma OffsetsBounded(width: real, yBase: real, amp: real, sin: real, z: real)
    requires -1.0 <= sin <= 1.0 && -1.0 <= z <= 1.0
    ensures Abs(width / 2.0 + amp * sin - width / 2.0) <= Abs(amp)
    ensures Abs(yBase + z * amp * TILT - yBase) <= TILT * Abs(amp)
  {
    ScaledByUnit(amp, sin);
    ScaledByUnit(amp * TILT, z);
    assert z * amp * TILT == (amp * TILT) * z;
  }

  /** The two strands are anti-phase: with everything else equal, strand B's
      angle is strand A's plus pi. */
  lemma AntiPhase(yBase: real, rotation: real, width: real, startY: real, helixHeight: real, trig: Trig)
    requires helixHeight != 0.0 && Bounded(trig)
    ensures Point(yBase, B, rotation, width, startY, helixHeight, trig).angle
         == Point(yBase, A, rotation, width, startY, helixHeight, trig).angle + PI
  {
  }

  /** Over the whole helix height the phase advances by `FREQ_CYCLES` full turns,
      whatever the height. */
  lemma TwistsPerHelix(strand: Strand, rotation: real, startY: real, helixHeight: real)
    requires helixHeight != 0.0
    ensures Angle(startY + helixHeight, strand, rotation, startY, helixHeight)
         - Angle(startY, strand, rotation, startY, helixHeight) == FREQ_CYCLES * 2.0 * PI
  {
    calc {
      Angle(startY + helixHeight, strand, rotation, startY, helixHeight) - Angle(startY, strand, rotation, startY, helixHeight);
      helixHeight * ((5.0 * PI) / helixHeight);
      FREQ_CYCLES * 2.0 * PI;
    }
  }

  /** The amplitude never exceeds `AMP_LIMIT`, and is non-negative for a
      non-negative width. */
  lemma AmplitudeBounds(width: real)
    ensures Amplitude(width) <= AMP_LIMIT
    ensures width >= 0.0 ==> 0.0 <= Amplitude(width)
  {
  }

  /** `calculateHelixDimensions` */
  datatype Dimensions = Dimensions(height: real, startY: real)

  /** The height is the larger of 80% of the container and 60 px per item, so
      it is at least both; the helix is centred on the container, so its start
      lies at most a tenth of the container height below the top (negative
      when the helix outgrows it). */
  function HelixDimensions(containerHeight: real, dataCount: int): (d: Dimensions)
    ensures d.height >= containerHeight * 0.8 && d.height >= dataCount as real * NODE_SPACING
    ensures d.height == containerHeight * 0.8 || d.height == dataCount as real * NODE_SPACING
    ensures d.startY + d.height / 2.0 == containerHeight / 2.0
    ensures d.startY <= containerHeight * 0.1
    ensures (containerHeight > 0.0 || dataCount > 0) ==> d.height > 0.0
  {
    var h := Max(containerHeight * 0.8, dataCount as real * NODE_SPACING);
    Dimensions(h, (containerHeight - h) / 2.0)
  }
}
