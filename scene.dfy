/**
 * The part of the scene the trigger handler touches: linear transform nodes
 * looked up by name.  The handler reads the trigger angle, turns it into the
 * jaw's local transform and writes that transform into the one node it owns,
 * CutterMovingToCutterTip.
 */
module Scene {
  import opened Transforms
  import opened JawKinematics

  const TriggerToCutter := "TriggerToCutter"
  const CutterMovingToCutterTip := "CutterMovingToCutterTip"

  datatype Option<T> = None | Some(value: T)

  /** A linear transform node: its transform to its parent, and the name of the node it observes. */
  datatype TransformNode = TransformNode(toParent: Transform, parent: Option<string>)

  /** The two lookups the handler dereferences without a check that stops it. */
  datatype UpdateError = TriggerToCutterMissing | CutterMovingToCutterTipMissing

  datatype Result<T> = Ok(value: T) | Err(error: UpdateError)

  datatype Status = Updated | Aborted(error: UpdateError)

  /** The nodes after one run of the trigger handler. */
  function UpdatedNodes(nodes: map<string, TransformNode>, rawAngleDeg: real, cosSinDeg: real -> Rotor)
    : (r: Result<map<string, TransformNode>>)
    ensures r.Err? <==> TriggerToCutter !in nodes || CutterMovingToCutterTip !in nodes
    ensures r.Err? ==> (r.error == TriggerToCutterMissing <==> TriggerToCutter !in nodes)
    ensures r.Ok? ==> r.value.Keys == nodes.Keys
    ensures r.Ok? ==> forall name :: name in nodes && name != CutterMovingToCutterTip ==> r.value[name] == nodes[name]
    ensures r.Ok? ==> r.value[CutterMovingToCutterTip].parent == nodes[CutterMovingToCutterTip].parent
    ensures r.Ok? ==> r.value[CutterMovingToCutterTip].toParent == JawTransform(JawOpenAngle(rawAngleDeg), cosSinDeg)
  {
    if TriggerToCutter !in nodes then Err(TriggerToCutterMissing)
    else if CutterMovingToCutterTip !in nodes then Err(CutterMovingToCutterTipMissing)
    else
      var jaw := nodes[CutterMovingToCutterTip];
      Ok(nodes[CutterMovingToCutterTip := jaw.(toParent := JawTransform(JawOpenAngle(rawAngleDeg), cosSinDeg))])
  }

  class SceneNodes {
    var nodes: map<string, TransformNode>

    constructor (initial: map<string, TransformNode>)
      ensures nodes == initial
    {
      nodes := initial;
    }

    /**
     * The trigger handler.  `rawAngleDeg` is the angle, in degrees, between the
     * trigger direction and the shaft direction that VTK computes from the
     * TriggerToCutter transform; `cosSinDeg` is VTK's cosine and sine of an
     * angle given in degrees.
     */
    method UpdateTransforms(rawAngleDeg: real, cosSinDeg: real -> Rotor) returns (status: Status)
      modifies this
      ensures var r := UpdatedNodes(old(nodes), rawAngleDeg, cosSinDeg);
        match r
        case Ok(after) => status == Updated && nodes == after
        case Err(e) => status == Aborted(e) && nodes == old(nodes)
    {
      if TriggerToCutter !in nodes {
        return Aborted(TriggerToCutterMissing);
      }
      var triggerAngleDeg := rawAngleDeg;
      if triggerAngleDeg < TriggerLowDeg {
        triggerAngleDeg := TriggerLowDeg;
      }
      if triggerAngleDeg > TriggerHighDeg {
        triggerAngleDeg := TriggerHighDeg;
      }
      var openAngle := (triggerAngleDeg - TriggerLowDeg) * OpenGain;
      var transform := Translate(Identity, Vec3(0.0, 0.0, -PivotOffset));
      transform := RotateY(transform, cosSinDeg(openAngle));
      transform := Translate(transform, Vec3(0.0, 0.0, PivotOffset));
      if CutterMovingToCutterTip !in nodes {
        return Aborted(CutterMovingToCutterTipMissing);
      }
      nodes := nodes[CutterMovingToCutterTip := nodes[CutterMovingToCutterTip].(toParent := transform)];
      status := Updated;
    }
  }

  /** Running the handler twice with the same reading gives the same scene as running it once. */
  lemma UpdateIdempotent(nodes: map<string, TransformNode>, rawAngleDeg: real, cosSinDeg: real -> Rotor)
    requires UpdatedNodes(nodes, rawAngleDeg, cosSinDeg).Ok?
    ensures UpdatedNodes(UpdatedNodes(nodes, rawAngleDeg, cosSinDeg).value, rawAngleDeg, cosSinDeg)
         == UpdatedNodes(nodes, rawAngleDeg, cosSinDeg)
  {
    var once := UpdatedNodes(nodes, rawAngleDeg, cosSinDeg).value;
    var jaw := once[CutterMovingToCutterTip];
    assert jaw.(toParent := JawTransform(JawOpenAngle(rawAngleDeg), cosSinDeg)) == jaw;
    assert once[CutterMovingToCutterTip := jaw] == once;
  }

  /**
   * The jaw transform is replaced, not accumulated: two scenes that differ only
   * in the jaw node's previous transform end up identical.
   */
  lemma UpdateForgetsPreviousJaw(a: map<string, TransformNode>, b: map<string, TransformNode>,
                                 rawAngleDeg: real, cosSinDeg: real -> Rotor)
    requires a.Keys == b.Keys
    requires forall name :: name in a && name != CutterMovingToCutterTip ==> a[name] == b[name]
    requires CutterMovingToCutterTip in a ==> a[CutterMovingToCutterTip].parent == b[CutterMovingToCutterTip].parent
    ensures UpdatedNodes(a, rawAngleDeg, cosSinDeg) == UpdatedNodes(b, rawAngleDeg, cosSinDeg)
  {
    var ra, rb := UpdatedNodes(a, rawAngleDeg, cosSinDeg), UpdatedNodes(b, rawAngleDeg, cosSinDeg);
    if ra.Ok? {
      assert ra.value.Keys == rb.value.Keys;
      forall name | name in ra.value
        ensures ra.value[name] == rb.value[name]
      {
      }
      assert ra.value == rb.value;
    }
  }

  /** With the trigger released, the handler puts the jaw back in its closed pose. */
  lemma ReleasedTriggerClosesJaw(nodes: map<string, TransformNode>, rawAngleDeg: real, cosSinDeg: real -> Rotor)
    requires TriggerToCutter in nodes && CutterMovingToCutterTip in nodes
    requires rawAngleDeg <= TriggerLowDeg && cosSinDeg(0.0) == NoTurn
    ensures UpdatedNodes(nodes, rawAngleDeg, cosSinDeg).Ok?
    ensures forall p :: Apply(UpdatedNodes(nodes, rawAngleDeg, cosSinDeg).value[CutterMovingToCutterTip].toParent, p) == p
  {
    forall p {
      ShutTriggerGivesIdentity(rawAngleDeg, cosSinDeg, p);
    }
  }

  /** After the handler runs, the jaw node's transform keeps the hinge pivot in place. */
  lemma UpdatedJawFixesPivot(nodes: map<string, TransformNode>, rawAngleDeg: real, cosSinDeg: real -> Rotor)
    requires TriggerToCutter in nodes && CutterMovingToCutterTip in nodes
    ensures UpdatedNodes(nodes, rawAngleDeg, cosSinDeg).Ok?
    ensures Apply(UpdatedNodes(nodes, rawAngleDeg, cosSinDeg).value[CutterMovingToCutterTip].toParent, Pivot) == Pivot
  {
    JawFixesHingeAxis(JawOpenAngle(rawAngleDeg), cosSinDeg, 0.0);
  }
}
