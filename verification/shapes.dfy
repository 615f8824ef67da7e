/**
 * The primitive wrappers (`torus`, `plane`, …, `cube`) of algorist/mesh_factory.py
 * and of both Context classes: each names a cache entry, picks a
 * `bpy.ops.mesh.primitive_*_add` operator and passes its own parameters on as
 * keyword arguments.
 */
module Shapes {
  import opened Keys

  datatype Primitive =
    | Torus(majorRadius: real, minorRadius: real)
    | Plane(size: real)
    | IcoSphere(radius: real, subdivisions: int)
    | UVSphere(radius: real, segments: int, ringCount: int)
    | Grid(size: real)
    | Cylinder(radius: real, depth: real)
    | Cone(radius1: real, radius2: real, depth: real)
    | Circle(radius: real, fillType: string)
    | Cube(sx: real, sy: real, sz: real)

  /** `cube()` with its default `size=(1, 1, 1)`. */
  const DefaultCube: Primitive := Cube(1.0, 1.0, 1.0)

  /** The cache name, the operator and the keyword arguments of one wrapper call. */
  datatype ShapeCall = ShapeCall(name: string, op: string, kwargs: seq<Item>)

  /**
   * What a wrapper passes to `shape`. The keyword names of one call are
   * distinct, and the cube's `size` reaches the operator halved, as `scale`
   * (the operator's unit cube is 2 wide).
   */
  function Call(p: Primitive): (c: ShapeCall)
    ensures DistinctNames(c.kwargs)
    ensures p.Cube? ==> c.kwargs == [("scale", Vector([p.sx / 2.0, p.sy / 2.0, p.sz / 2.0]))]
    ensures p.Cube? ==> c.name == "Cube" && c.op == "primitive_cube_add"
  {
    match p
    case Torus(a, b) =>
      ShapeCall("Torus", "primitive_torus_add", [("major_radius", Num(a)), ("minor_radius", Num(b))])
    case Plane(s) =>
      ShapeCall("Plane", "primitive_plane_add", [("size", Num(s))])
    case IcoSphere(r, n) =>
      ShapeCall("IcoSphere", "primitive_ico_sphere_add", [("radius", Num(r)), ("subdivisions", Count(n))])
    case UVSphere(r, s, n) =>
      ShapeCall("UVSphere", "primitive_uv_sphere_add",
                [("radius", Num(r)), ("segments", Count(s)), ("ring_count", Count(n))])
    case Grid(s) =>
      ShapeCall("Grid", "primitive_grid_add", [("size", Num(s))])
    case Cylinder(r, d) =>
      ShapeCall("Cylinder", "primitive_cylinder_add", [("radius", Num(r)), ("depth", Num(d))])
    case Cone(r1, r2, d) =>
      ShapeCall("Cone", "primitive_cone_add", [("radius1", Num(r1)), ("radius2", Num(r2)), ("depth", Num(d))])
    case Circle(r, f) =>
      ShapeCall("Circle", "primitive_circle_add", [("radius", Num(r)), ("fill_type", Text(f))])
    case Cube(x, y, z) =>
      ShapeCall("Cube", "primitive_cube_add", [("scale", Vector([x * 0.5, y * 0.5, z * 0.5]))])
  }

  /** The default cube passes the operator a scale of one half on every axis, so it is 1 wide. */
  lemma DefaultCubeHalfScale()
    ensures Call(DefaultCube).kwargs == [("scale", Vector([0.5, 0.5, 0.5]))]
  {
  }

  /**
   * A wrapper's cache name determines its operator, so a cache hit never
   * hands one wrapper a mesh that another wrapper's operator built.
   */
  lemma NameDeterminesOperator(p: Primitive, q: Primitive)
    requires Call(p).name == Call(q).name
    ensures Call(p).op == Call(q).op
  {
  }
}
