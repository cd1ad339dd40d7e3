/**
 * Rigid transforms of 3-D space as a vtkTransform builds them: an ordered
 * concatenation of elementary operations, here translations and rotations
 * about the Y axis, together with the map of points that the concatenation
 * stands for.
 *
 * Rotations are kept abstract: a rotation about Y is given by the cosine and
 * sine of its angle (a Rotor), never by the angle itself, so no trigonometry
 * is needed here.
 */
module Transforms {

  datatype Vec3 = Vec3(x: real, y: real, z: real)

  const Origin := Vec3(0.0, 0.0, 0.0)

  function Add(a: Vec3, b: Vec3): Vec3 {
    Vec3(a.x + b.x, a.y + b.y, a.z + b.z)
  }

  function Sub(a: Vec3, b: Vec3): Vec3 {
    Vec3(a.x - b.x, a.y - b.y, a.z - b.z)
  }

  /** Squared Euclidean norm. */
  function NormSq(a: Vec3): real {
    a.x * a.x + a.y * a.y + a.z * a.z
  }

  /** Cosine and sine of a rotation angle. */
  datatype Rotor = Rotor(cos: real, sin: real)

  /** The rotor of the angle 0. */
  const NoTurn := Rotor(1.0, 0.0)

  /** Cosine and sine of one and the same angle satisfy cos^2 + sin^2 = 1. */
  predicate IsUnit(r: Rotor) {
    r.cos * r.cos + r.sin * r.sin == 1.0
  }

  /** The elementary operations a vtkTransform concatenates. */
  datatype Op =
    | Translation(offset: Vec3)
    | RotationY(rotor: Rotor)

  /**
   * One operation applied to a point.  The rotation matrix about Y is the one
   * VTK uses: rows (c, 0, s), (0, 1, 0), (-s, 0, c).
   */
  function ApplyOp(op: Op, p: Vec3): Vec3 {
    match op
    case Translation(v) => Add(p, v)
    case RotationY(r) => Vec3(r.cos * p.x + r.sin * p.z, p.y, -r.sin * p.x + r.cos * p.z)
  }

  /**
   * A concatenation of operations, in the order the calls were made.  In VTK's
   * default PreMultiply mode each call multiplies the current matrix on the
   * right, so the operation called last is the first one applied to a point.
   */
  datatype Transform = Transform(ops: seq<Op>)

  /** A freshly created vtkTransform. */
  const Identity := Transform([])

  /** The map of points a transform stands for. */
  function Apply(t: Transform, p: Vec3): Vec3
    decreases |t.ops|
  {
    if t.ops == [] then p
    else
      var n := |t.ops| - 1;
      Apply(Transform(t.ops[..n]), ApplyOp(t.ops[n], p))
  }

  /** vtkTransform::Translate(x, y, z). */
  function Translate(t: Transform, v: Vec3): Transform {
    Transform(t.ops + [Translation(v)])
  }

  /** vtkTransform::RotateY(angle), with the angle given by its rotor. */
  function RotateY(t: Transform, r: Rotor): Transform {
    Transform(t.ops + [RotationY(r)])
  }

  lemma ApplyIdentity(p: Vec3)
    ensures Apply(Identity, p) == p
  {
  }

  /** An operation concatenated last is applied first. */
  lemma ApplyAppend(t: Transform, op: Op, p: Vec3)
    ensures Apply(Transform(t.ops + [op]), p) == Apply(t, ApplyOp(op, p))
  {
    assert (t.ops + [op])[..|t.ops|] == t.ops;
  }

  /** A rotation about Y leaves every point of the Y axis where it is. */
  lemma RotationYFixesAxis(r: Rotor, y: real)
    ensures ApplyOp(RotationY(r), Vec3(0.0, y, 0.0)) == Vec3(0.0, y, 0.0)
  {
  }

  /** The origin case (y = 0) of RotationYFixesAxis. */
  lemma RotationYFixesOrigin(r: Rotor)
    ensures ApplyOp(RotationY(r), Origin) == Origin
  {
    RotationYFixesAxis(r, 0.0);
  }

  /** A rotation about Y moves points only in planes normal to Y. */
  lemma RotationYKeepsY(r: Rotor, p: Vec3)
    ensures ApplyOp(RotationY(r), p).y == p.y
  {
  }

  /** The rotation by the angle 0 moves nothing. */
  lemma RotationYNoTurn(p: Vec3)
    ensures ApplyOp(RotationY(NoTurn), p) == p
  {
  }

  lemma PlaneRotationKeepsNorm(c: real, s: real, x: real, y: real, z: real)
    requires c * c + s * s == 1.0
    ensures NormSq(Vec3(c * x + s * z, y, -s * x + c * z)) == NormSq(Vec3(x, y, z))
  {
    assert (c * x + s * z) * (c * x + s * z) + (-s * x + c * z) * (-s * x + c * z)
        == (c * c + s * s) * (x * x + z * z);
  }

  /** A rotation about Y by a true cosine/sine pair keeps every distance to the origin. */
  lemma RotationYKeepsNorm(r: Rotor, p: Vec3)
    requires IsUnit(r)
    ensures NormSq(ApplyOp(RotationY(r), p)) == NormSq(p)
  {
    PlaneRotationKeepsNorm(r.cos, r.sin, p.x, p.y, p.z);
  }

  lemma SubAddCancel(a: Vec3, b: Vec3)
    ensures Sub(Add(a, b), b) == a
  {
  }
}
