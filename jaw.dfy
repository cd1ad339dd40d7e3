/**
 * Jaw kinematics of the vessel-harvesting cutter: the trigger angle read from
 * the tracked trigger is clamped to its mechanical range and mapped linearly
 * to the opening angle of the moving jaw, and the jaw's local transform is
 * built as a rotation about the hinge pivot.
 */
module JawKinematics {
  import opened Transforms

  /** Trigger angle (degrees) at and below which the jaw is shut. */
  const TriggerLowDeg: real := 86.0
  /** Trigger angle (degrees) at and above which the jaw is fully open. */
  const TriggerHighDeg: real := 102.0
  /** Degrees of jaw opening per degree of trigger travel (negative: the jaw turns the other way). */
  const OpenGain: real := -2.2
  /** Distance of the hinge pivot from the cutter-tip origin, along -Z. */
  const PivotOffset: real := 20.0

  /** The hinge pivot, in cutter-tip coordinates. */
  const Pivot := Vec3(0.0, 0.0, -PivotOffset)

  /**
   * The trigger angle after the two guards of the handler: first raised to
   * `low`, then lowered to `high`.
   */
  function ClampTrigger(raw: real, low: real, high: real): (r: real)
    ensures low <= high ==> low <= r <= high
    ensures low <= raw <= high ==> r == raw
  {
    var raised := if raw < low then low else raw;
    if raised > high then high else raised
  }

  /** Jaw opening angle (degrees) for a raw trigger angle, for any range and gain. */
  function OpenAngle(raw: real, low: real, high: real, gain: real): real {
    (ClampTrigger(raw, low, high) - low) * gain
  }

  /** The opening angle with the handler's constants. */
  function JawOpenAngle(raw: real): real {
    OpenAngle(raw, TriggerLowDeg, TriggerHighDeg, OpenGain)
  }

  /**
   * The jaw's local transform for an opening angle, built with the same three
   * vtkTransform calls in the same order as the handler: translate by -20 on Z,
   * rotate about Y, translate by +20 on Z.  `cosSinDeg` gives the cosine and
   * sine of an angle in degrees, which VTK computes in floating point.
   */
  function JawTransform(openAngleDeg: real, cosSinDeg: real -> Rotor): Transform {
    var t := Translate(Identity, Vec3(0.0, 0.0, -PivotOffset));
    var t := RotateY(t, cosSinDeg(openAngleDeg));
    Translate(t, Vec3(0.0, 0.0, PivotOffset))
  }

  // ---------------------------------------------------------------------------
  // Clamping

  /** Clamping twice is clamping once. */
  lemma ClampIdempotent(raw: real, low: real, high: real)
    requires low <= high
    ensures ClampTrigger(ClampTrigger(raw, low, high), low, high) == ClampTrigger(raw, low, high)
  {
  }

  /** The clamped angle is the point of [low, high] nearest the raw angle. */
  lemma ClampIsNearest(raw: real, low: real, high: real, v: real)
    requires low <= v <= high
    ensures Dist(ClampTrigger(raw, low, high), raw) <= Dist(v, raw)
  {
  }

  function Dist(a: real, b: real): real {
    if a < b then b - a else a - b
  }

  lemma ClampMonotone(x: real, y: real, low: real, high: real)
    requires low <= high && x <= y
    ensures ClampTrigger(x, low, high) <= ClampTrigger(y, low, high)
  {
  }

  // ---------------------------------------------------------------------------
  // Opening angle, for any range low <= high and any non-positive gain

  lemma MulNonPos(a: real, b: real, gain: real)
    requires a <= b && gain <= 0.0
    ensures b * gain <= a * gain
  {
    assert b * gain - a * gain == (b - a) * gain;
  }

  lemma MulNeg(a: real, b: real, gain: real)
    requires a < b && gain < 0.0
    ensures b * gain < a * gain
  {
    assert b * gain - a * gain == (b - a) * gain;
  }

  /** The opening angle lies between the fully open angle and 0. */
  lemma OpenAngleRange(raw: real, low: real, high: real, gain: real)
    requires low <= high && gain <= 0.0
    ensures (high - low) * gain <= OpenAngle(raw, low, high, gain) <= 0.0
  {
    var c := ClampTrigger(raw, low, high);
    MulNonPos(0.0, c - low, gain);
    MulNonPos(c - low, high - low, gain);
  }

  /** More trigger never opens the jaw less. */
  lemma OpenAngleMonotone(x: real, y: real, low: real, high: real, gain: real)
    requires low <= high && gain <= 0.0 && x <= y
    ensures OpenAngle(y, low, high, gain) <= OpenAngle(x, low, high, gain)
  {
    ClampMonotone(x, y, low, high);
    MulNonPos(ClampTrigger(x, low, high) - low, ClampTrigger(y, low, high) - low, gain);
  }

  /** Inside the trigger range the opening angle is strictly decreasing. */
  lemma OpenAngleStrictlyDecreasing(x: real, y: real, low: real, high: real, gain: real)
    requires low <= x < y <= high && gain < 0.0
    ensures OpenAngle(y, low, high, gain) < OpenAngle(x, low, high, gain)
  {
    MulNeg(x - low, y - low, gain);
  }

  /** The jaw is shut exactly when the trigger is at or below the low bound. */
  lemma OpenAngleShut(raw: real, low: real, high: real, gain: real)
    requires low < high && gain < 0.0
    ensures OpenAngle(raw, low, high, gain) == 0.0 <==> raw <= low
  {
    var c := ClampTrigger(raw, low, high);
    if low < c {
      MulNeg(0.0, c - low, gain);
    }
  }

  /** The jaw is fully open exactly when the trigger is at or above the high bound. */
  lemma OpenAngleFullyOpen(raw: real, low: real, high: real, gain: real)
    requires low < high && gain < 0.0
    ensures OpenAngle(raw, low, high, gain) == (high - low) * gain <==> raw >= high
  {
    var c := ClampTrigger(raw, low, high);
    if c < high {
      MulNeg(c - low, high - low, gain);
    }
  }

  // ---------------------------------------------------------------------------
  // Opening angle with the handler's constants

  lemma JawOpenAngleRange(raw: real)
    ensures -35.2 <= JawOpenAngle(raw) <= 0.0
  {
    OpenAngleRange(raw, TriggerLowDeg, TriggerHighDeg, OpenGain);
  }

  lemma JawShut(raw: real)
    ensures JawOpenAngle(raw) == 0.0 <==> raw <= 86.0
  {
    OpenAngleShut(raw, TriggerLowDeg, TriggerHighDeg, OpenGain);
  }

  lemma JawFullyOpen(raw: real)
    ensures JawOpenAngle(raw) == -35.2 <==> raw >= 102.0
  {
    OpenAngleFullyOpen(raw, TriggerLowDeg, TriggerHighDeg, OpenGain);
  }

  // ---------------------------------------------------------------------------
  // The jaw transform is a rotation about the pivot

  /** The jaw transform moves the pivot to the origin, rotates about Y, and moves the pivot back. */
  lemma JawIsRotationAboutPivot(openAngleDeg: real, cosSinDeg: real -> Rotor, p: Vec3)
    ensures Apply(JawTransform(openAngleDeg, cosSinDeg), p)
         == Add(ApplyOp(RotationY(cosSinDeg(openAngleDeg)), Sub(p, Pivot)), Pivot)
  {
    var down := Vec3(0.0, 0.0, -PivotOffset);
    var up := Vec3(0.0, 0.0, PivotOffset);
    var r := cosSinDeg(openAngleDeg);
    var t1 := Translate(Identity, down);
    var t2 := RotateY(t1, r);
    var q := ApplyOp(RotationY(r), Add(p, up));
    calc {
      Apply(JawTransform(openAngleDeg, cosSinDeg), p);
      { ApplyAppend(t2, Translation(up), p); }
      Apply(t2, Add(p, up));
      { ApplyAppend(t1, RotationY(r), Add(p, up)); }
      Apply(t1, q);
      { ApplyAppend(Identity, Translation(down), q); }
      Apply(Identity, Add(q, down));
      { ApplyIdentity(Add(q, down)); }
      Add(q, down);
      { assert Add(p, up) == Sub(p, Pivot); }
      Add(ApplyOp(RotationY(r), Sub(p, Pivot)), Pivot);
    }
  }

  /** Every point of the hinge axis, the pivot among them (y = 0), stays where it is. */
  lemma JawFixesHingeAxis(openAngleDeg: real, cosSinDeg: real -> Rotor, y: real)
    ensures Apply(JawTransform(openAngleDeg, cosSinDeg), Vec3(0.0, y, -PivotOffset))
         == Vec3(0.0, y, -PivotOffset)
  {
    var p := Vec3(0.0, y, -PivotOffset);
    JawIsRotationAboutPivot(openAngleDeg, cosSinDeg, p);
    assert Sub(p, Pivot) == Vec3(0.0, y, 0.0);
    RotationYFixesAxis(cosSinDeg(openAngleDeg), y);
  }

  /** An opening angle of 0 moves no point, when the angle 0 has cosine 1 and sine 0. */
  lemma JawAtZeroIsIdentity(cosSinDeg: real -> Rotor, p: Vec3)
    requires cosSinDeg(0.0) == NoTurn
    ensures Apply(JawTransform(0.0, cosSinDeg), p) == p
  {
    JawIsRotationAboutPivot(0.0, cosSinDeg, p);
    RotationYNoTurn(Sub(p, Pivot));
  }

  /** The jaw turns in planes normal to the hinge axis. */
  lemma JawKeepsY(openAngleDeg: real, cosSinDeg: real -> Rotor, p: Vec3)
    ensures Apply(JawTransform(openAngleDeg, cosSinDeg), p).y == p.y
  {
    JawIsRotationAboutPivot(openAngleDeg, cosSinDeg, p);
    RotationYKeepsY(cosSinDeg(openAngleDeg), Sub(p, Pivot));
  }

  /** With a true cosine/sine pair, every point keeps its distance to the pivot. */
  lemma JawKeepsDistanceToPivot(openAngleDeg: real, cosSinDeg: real -> Rotor, p: Vec3)
    requires IsUnit(cosSinDeg(openAngleDeg))
    ensures NormSq(Sub(Apply(JawTransform(openAngleDeg, cosSinDeg), p), Pivot)) == NormSq(Sub(p, Pivot))
  {
    var r := cosSinDeg(openAngleDeg);
    var q := ApplyOp(RotationY(r), Sub(p, Pivot));
    calc {
      NormSq(Sub(Apply(JawTransform(openAngleDeg, cosSinDeg), p), Pivot));
      { JawIsRotationAboutPivot(openAngleDeg, cosSinDeg, p); }
      NormSq(Sub(Add(q, Pivot), Pivot));
      { SubAddCancel(q, Pivot); }
      NormSq(q);
      { RotationYKeepsNorm(r, Sub(p, Pivot)); }
      NormSq(Sub(p, Pivot));
    }
  }

  /** A trigger at or below its low bound leaves the jaw in its closed pose. */
  lemma ShutTriggerGivesIdentity(raw: real, cosSinDeg: real -> Rotor, p: Vec3)
    requires raw <= TriggerLowDeg && cosSinDeg(0.0) == NoTurn
    ensures Apply(JawTransform(JawOpenAngle(raw), cosSinDeg), p) == p
  {
    JawShut(raw);
    JawAtZeroIsIdentity(cosSinDeg, p);
  }
}
