/** Exact-real stand-ins for the three.js math the posing tool uses: `Vector3`
    (add, sub, copy, per-axis component access), the rotation a quaternion
    applies, and the affine map a `matrixWorld` applies to a point. */
module Vectors {

  datatype Vec3 = Vec3(x: real, y: real, z: real)

  /** The three named components of a `Vector3`. */
  datatype Axis = X | Y | Z

  const Zero := Vec3(0.0, 0.0, 0.0)

  /** `a.clone().add(b)` */
  function Add(a: Vec3, b: Vec3): (r: Vec3)
    ensures forall k: Axis :: Get(r, k) == Get(a, k) + Get(b, k)
  {
    Vec3(a.x + b.x, a.y + b.y, a.z + b.z)
  }

  /** `a.clone().sub(b)`; `AddSub` shows that adding it to `b` gives back `a`. */
  function Sub(a: Vec3, b: Vec3): (r: Vec3)
    ensures r == Zero <==> a == b
  {
    Vec3(a.x - b.x, a.y - b.y, a.z - b.z)
  }

  function Neg(a: Vec3): (r: Vec3)
    ensures Add(a, r) == Zero
  {
    Vec3(-a.x, -a.y, -a.z)
  }

  function Dot(a: Vec3, b: Vec3): real
  {
    a.x * b.x + a.y * b.y + a.z * b.z
  }

  /** `v[axis]` */
  function Get(v: Vec3, a: Axis): real
  {
    match a
    case X => v.x
    case Y => v.y
    case Z => v.z
  }

  /** `v[axis] = value`: the chosen component is replaced, the others kept. */
  function With(v: Vec3, a: Axis, value: real): (r: Vec3)
    ensures Get(r, a) == value
    ensures forall k: Axis :: k != a ==> Get(r, k) == Get(v, k)
  {
    match a
    case X => v.(x := value)
    case Y => v.(y := value)
    case Z => v.(z := value)
  }

  /** `new Vector3(d, 0, 0)` and its two siblings: `d` along one axis. */
  function AlongAxis(a: Axis, d: real): (r: Vec3)
    ensures Get(r, a) == d
    ensures forall k: Axis :: k != a ==> Get(r, k) == 0.0
  {
    With(Zero, a, d)
  }

  /** A 3x3 matrix, given by its rows; `Apply` is the linear map it denotes.
      Rotation by a unit quaternion is such a map. */
  datatype Mat3 = Mat3(row0: Vec3, row1: Vec3, row2: Vec3)

  const Identity := Mat3(Vec3(1.0, 0.0, 0.0), Vec3(0.0, 1.0, 0.0), Vec3(0.0, 0.0, 1.0))

  function Apply(m: Mat3, v: Vec3): Vec3
  {
    Vec3(Dot(m.row0, v), Dot(m.row1, v), Dot(m.row2, v))
  }

  /** An affine map of points, the action of a `Matrix4` such as `matrixWorld`
      under `applyMatrix4`. */
  datatype Affine = Affine(linear: Mat3, translation: Vec3)

  function ApplyAffine(m: Affine, p: Vec3): Vec3
  {
    Add(Apply(m.linear, p), m.translation)
  }

  lemma AddSub(a: Vec3, b: Vec3)
    ensures Add(b, Sub(a, b)) == a
  {
  }

  lemma ApplyIdentity(v: Vec3)
    ensures Apply(Identity, v) == v
  {
  }

  lemma ApplyZero(m: Mat3)
    ensures Apply(m, Zero) == Zero
  {
  }

  /** Matrix application distributes over subtraction. */
  lemma ApplySub(m: Mat3, a: Vec3, b: Vec3)
    ensures Apply(m, Sub(a, b)) == Sub(Apply(m, a), Apply(m, b))
  {
  }
}
