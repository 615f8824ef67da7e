/**
 * The 4x4 pose matrix of the transform stack. The float and trigonometric
 * algebra of `mathutils` is not modelled: a matrix is the product, left to
 * right, of the operators that built it, and composing with `@` appends an
 * operator on the right (the object's local frame). Two different products may
 * stand for the same matrix; every equality proved here is the finer one.
 */
module Matrices {
  import opened Wrappers

  datatype Axis = X | Y | Z | Direction(x: real, y: real, z: real)

  datatype Op =
    | Diagonal(x: real, y: real, z: real)          // Matrix.Diagonal((x, y, z, 1.0))
    | Translation(dx: real, dy: real, dz: real)     // Matrix.Translation((x, y, z))
    | Rotation(angle: real, axis: Axis)             // Matrix.Rotation(angle, 4, axis)
    | Supplied(id: nat)                             // a matrix handed in by the caller

  type Matrix = seq<Op>

  /** `Matrix()`: the identity, the empty product. */
  const Identity: Matrix := []

  /** `m @ op`. */
  function Compose(m: Matrix, op: Op): Matrix
  {
    m + [op]
  }

  /** `matrix or Matrix()`: an omitted matrix stands for the identity. */
  function OrIdentity(m: Option<Matrix>): Matrix
  {
    if m.Some? then m.value else Identity
  }

  /** Python's `x or xyz` for an optional float: `None` and `0.0` both fall back. */
  function AxisOr(x: Option<real>, xyz: real): (r: real)
    ensures x.Some? && x.value != 0.0 ==> r == x.value
    ensures x.None? || x.value == 0.0 ==> r == xyz
  {
    if x.Some? && x.value != 0.0 then x.value else xyz
  }

  /** The operator of `scale(x, y, z, xyz)`: `diag(x or xyz, y or xyz, z or xyz, 1)`. */
  function Scaling(x: Option<real>, y: Option<real>, z: Option<real>, xyz: real): (op: Op)
    ensures op.Diagonal?
    ensures (x.None? || x == Some(0.0)) ==> op.x == xyz
    ensures (y.None? || y == Some(0.0)) ==> op.y == xyz
    ensures (z.None? || z == Some(0.0)) ==> op.z == xyz
  {
    Diagonal(AxisOr(x, xyz), AxisOr(y, xyz), AxisOr(z, xyz))
  }

  /** `m` is `base` followed by zero or more further operators. */
  predicate Extends(m: Matrix, base: Matrix)
  {
    |base| <= |m| && m[..|base|] == base
  }
}
