/**
 * `Context` of algorist/contextfree.py: a transform stack (matrix and colour),
 * a rule table and a mesh cache in one object. Its colour scope differs from
 * `Transform`'s: an explicit base colour is written into the current colour
 * before that colour is saved, so after the scope the explicit colour stays in
 * force. Shapes are placed with the current matrix and, on request, get a
 * material of the current colour linked to the object.
 */
module ContextFree {
  import opened Wrappers
  import opened Matrices
  import opened Colors
  import opened Keys
  import opened Host
  import opened Scopes
  import opened Shapes
  import opened Rules
  import Guard

  /** A `shape(name, shapefunc, create_material, **kwargs)` call with the operator `op`. */
  datatype Draw = Draw(name: string, op: string, kwargs: seq<Item>, createMaterial: bool)

  /** `shape.material_slots[0]` on an object whose mesh has no material slot: an IndexError. */
  datatype ShapeError = NoMaterialSlot

  /** The colour in force after block `b` ends normally, when it started under `c`. */
  function ColorAfter(b: Block<Draw>, c: Hsva): Hsva
    decreases b
  {
    match b
    case Do(_) => c
    case Seq(bs) => ColorAfterSeq(bs, c)
    case With(s, body) =>
      if s.Recolor? then (if s.color.Some? then s.color.value else c)
      else ColorAfter(body, c)
  }

  function ColorAfterSeq(bs: seq<Block<Draw>>, c: Hsva): Hsva
    decreases bs
  {
    if bs == [] then c else ColorAfter(bs[|bs| - 1], ColorAfterSeq(bs[..|bs| - 1], c))
  }

  /** The colour in force at each shape of `b` when `b` starts under `c`. */
  function Tints(b: Block<Draw>, c: Hsva): (ts: seq<Hsva>)
    decreases b
    ensures |ts| == |Actions(b)|
  {
    match b
    case Do(_) => [c]
    case Seq(bs) => TintsSeq(bs, c)
    case With(s, body) => Tints(body, ColorIn(c, s))
  }

  function TintsSeq(bs: seq<Block<Draw>>, c: Hsva): (ts: seq<Hsva>)
    decreases bs
    ensures |ts| == |ActionsSeq(bs)|
  {
    if bs == [] then []
    else TintsSeq(bs[..|bs| - 1], c) + Tints(bs[|bs| - 1], ColorAfterSeq(bs[..|bs| - 1], c))
  }

  lemma TintsStep(bs: seq<Block<Draw>>, i: nat, c: Hsva)
    requires i < |bs|
    ensures ColorAfterSeq(bs[..i + 1], c) == ColorAfter(bs[i], ColorAfterSeq(bs[..i], c))
    ensures TintsSeq(bs[..i + 1], c) == TintsSeq(bs[..i], c) + Tints(bs[i], ColorAfterSeq(bs[..i], c))
  {
    assert bs[..i + 1][..i] == bs[..i];
  }

  /** The material linked to a shape drawn with colour `c`. */
  function MaterialFor(d: Draw, c: Hsva, conv: RgbConversion): Option<Material>
  {
    if d.createMaterial then Some(Material(HsvaToRgba(c, conv))) else None
  }

  /**
   * The objects from index `from` on are the shapes `ds`, in order, placed
   * with the matrices `ms` and coloured with `cs`.
   */
  ghost predicate Shows(objs: seq<Object>, from: nat, ds: seq<Draw>, ms: seq<Matrix>, cs: seq<Hsva>, conv: RgbConversion)
  {
    |ds| == |ms| == |cs| && |objs| == from + |ds| &&
    forall i :: 0 <= i < |ds| ==> objs[from + i].world == ms[i] && objs[from + i].material == MaterialFor(ds[i], cs[i], conv)
  }

  lemma ShowsAppend(o1: seq<Object>, o2: seq<Object>, from: nat,
                    d1: seq<Draw>, m1: seq<Matrix>, c1: seq<Hsva>,
                    d2: seq<Draw>, m2: seq<Matrix>, c2: seq<Hsva>, conv: RgbConversion)
    requires Shows(o1, from, d1, m1, c1, conv) && o1 <= o2
    requires Shows(o2, |o1|, d2, m2, c2, conv)
    ensures Shows(o2, from, d1 + d2, m1 + m2, c1 + c2, conv)
  {
    forall i | 0 <= i < |d1| + |d2|
      ensures o2[from + i].world == (m1 + m2)[i]
      ensures o2[from + i].material == MaterialFor((d1 + d2)[i], (c1 + c2)[i], conv)
    {
      if i < |d1| {
        assert o1 == o2[..|o1|];
        assert o2[from + i] == o1[from + i];
      } else {
        assert from + i == |o1| + (i - |d1|);
      }
    }
  }

  /** A single shape drawn under matrix `m` and colour `c`. */
  lemma ShowsOne(objs: seq<Object>, from: nat, d: Draw, m: Matrix, c: Hsva, conv: RgbConversion)
    requires |objs| == from + 1 && objs[from].world == m && objs[from].material == MaterialFor(d, c, conv)
    ensures Shows(objs, from, [d], [m], [c], conv)
  {
  }

  /** One more statement of a sequence has run: its shapes follow those of the statements before it. */
  lemma ExecSeqStep(bs: seq<Block<Draw>>, i: nat, m: Matrix, c: Hsva, before: Hsva,
                    o0: seq<Object>, o1: seq<Object>, o2: seq<Object>, conv: RgbConversion)
    requires i < |bs| && before == ColorAfterSeq(bs[..i], c)
    requires o0 <= o1 && o1 <= o2
    requires Shows(o1, |o0|, ActionsSeq(bs[..i]), FramesSeq(bs[..i], m), TintsSeq(bs[..i], c), conv)
    requires Shows(o2, |o1|, Actions(bs[i]), Frames(bs[i], m), Tints(bs[i], before), conv)
    ensures o0 <= o2
    ensures ColorAfterSeq(bs[..i + 1], c) == ColorAfter(bs[i], before)
    ensures Shows(o2, |o0|, ActionsSeq(bs[..i + 1]), FramesSeq(bs[..i + 1], m), TintsSeq(bs[..i + 1], c), conv)
  {
    SeqStep(bs, i, m);
    TintsStep(bs, i, c);
    ShowsAppend(o1, o2, |o0|, ActionsSeq(bs[..i]), FramesSeq(bs[..i], m), TintsSeq(bs[..i], c),
                Actions(bs[i]), Frames(bs[i], m), Tints(bs[i], before), conv);
  }

  /** Keyword names are distinct in every shape call of `b`. */
  predicate DrawsWellFormed(b: Block<Draw>)
  {
    Every(b, (d: Draw) => DistinctNames(d.kwargs))
  }

  class Context {
    var matrix: Matrix
    var color: Hsva
    var cache: map<Key, nat>
    const rules: Registry
    const scene: Scene
    /** `colorsys.hsv_to_rgb`. */
    const conv: RgbConversion
    /** `Matrix.to_scale()`. */
    const scaleOf: Matrix -> Guard.Scale3
    /** How many times a shape operator ran: not in the source, kept for the proofs. */
    ghost var builds: nat

    /** The cache is sound for the scene's meshes, and the operator ran once per key. */
    ghost predicate Valid()
      reads this`cache, this`builds, scene
    {
      scene.Valid() && CacheSound(cache, scene.meshes) && builds == |cache|
    }

    /** `Context(matrix)`: the identity unless a matrix is given, colour (0, 0, 1, 1), nothing cached, no rules. */
    constructor (matrix: Option<Matrix>, scene: Scene, conv: RgbConversion, scaleOf: Matrix -> Guard.Scale3)
      requires scene.Valid()
      ensures Valid() && fresh(rules) && rules.Valid()
      ensures this.matrix == OrIdentity(matrix) && color == DefaultColor
      ensures cache == map[] && builds == 0 && rules.table == map[]
      ensures this.scene == scene && this.conv == conv && this.scaleOf == scaleOf
    {
      this.matrix := OrIdentity(matrix);
      color := DefaultColor;
      cache := map[];
      builds := 0;
      rules := new Registry();
      this.scene := scene;
      this.conv := conv;
      this.scaleOf := scaleOf;
    }

    /** The `color_rgba` property. */
    function ColorRgba(): (r: Rgba)
      reads this
      ensures r.a == color.a
    {
      HsvaToRgba(color, conv)
    }

    /** The scale the guard's minimum-scale check inspects: that of the context's own matrix. */
    function CurrentScale(): Guard.Scale3
      reads this
    {
      scaleOf(matrix)
    }

    /** `limit(max_depth, max_objects, min_scale)(func)`: a guard with fresh counters. */
    method Limit(maxDepth: int, maxObjects: int, minScale: Option<real>) returns (g: Guard.Guard)
      ensures fresh(g) && g.Valid()
      ensures g.config == Guard.Config(maxDepth, maxObjects, minScale)
      ensures g.depth == 0 && g.objects == 0
    {
      g := new Guard.Guard(Guard.Config(maxDepth, maxObjects, minScale));
    }

    /**
     * A call of a function decorated by `limit`, made now: the minimum-scale
     * check reads the scale of the current matrix.
     */
    method CallGuarded<V>(g: Guard.Guard, nested: seq<Guard.Invocation<V>>, result: V) returns (r: Option<V>)
      requires g.Valid()
      modifies g
      ensures g.Valid() && g.depth == old(g.depth) && g.objects > old(g.objects)
      ensures r.Some? <==> Guard.Check(g.config, old(g.depth) + 1, old(g.objects) + 1, CurrentScale()) == Guard.Run
      ensures r.Some? ==> r.value == result
    {
      r := g.Call(Guard.Invocation(CurrentScale(), nested, result));
    }

    /** `rule(weight)(func)` on this context's own table. */
    method Rule(weight: real, func: Production) returns (handle: RuleHandle)
      requires rules.Valid()
      modifies rules
      ensures rules.Valid() && rules.history == old(rules.history) + [Registration(weight, func)]
      ensures handle == RuleHandle(func.name)
      ensures rules.table == Appended(old(rules.table), weight, func)
    {
      handle := rules.Rule(weight, func);
    }

    /** `_invoke_rule(name, *args)` with the draw `u`: KeyError for an unknown name. */
    method InvokeRule<A, V>(name: string, u: real, args: A, call: (Production, A) -> V)
      returns (r: Result<V, DispatchError>, ghost chosen: int)
      requires rules.Valid() && 0.0 <= u < 1.0
      ensures name !in rules.table ==> r == Failure(UnknownRule(name))
      ensures name in rules.table ==> rules.table[name] != [] && Dispatched(rules.table[name], u, args, call, r, chosen)
    {
      r, chosen := rules.InvokeRule(name, u, args, call);
    }

    /**
     * The host calls of the miss path: the operator makes a mesh and an
     * object and makes the object the context object; the mesh gets an empty
     * material slot when a material is wanted.
     */
    method Spawn(op: string, kwargs: seq<Item>, createMaterial: bool) returns (obj: nat)
      requires scene.Valid()
      modifies scene
      ensures scene.Valid()
      ensures obj == |old(scene.objects)| && scene.objects == old(scene.objects) + [Object(op, |old(scene.meshes)|, Identity, [scene.collection], None)]
      ensures scene.meshes == old(scene.meshes) + [Mesh(op, [], kwargs, if createMaterial then [None] else [])]
    {
      var _ := scene.Create(op, [], kwargs, true);
      obj := scene.active.value;
      if createMaterial {
        ghost var created := scene.meshes;
        scene.AppendSlot(scene.objects[obj].mesh, None);
        assert created[|old(scene.meshes)|].slots + [None] == [None];
        assert scene.meshes == created[|old(scene.meshes)| := Mesh(op, [], kwargs, [None])];
      }
    }

    /** The hit path of `shape`: a new object around the cached mesh, linked to the context collection. */
    method Reuse(name: string, kwargs: seq<Item>) returns (obj: nat)
      requires Valid() && MeshKey(name, kwargs) in cache
      modifies scene
      ensures Valid()
      ensures obj == |old(scene.objects)|
      ensures scene.objects == old(scene.objects) + [Object(name, cache[MeshKey(name, kwargs)], Identity, [scene.collection], None)]
      ensures scene.meshes == old(scene.meshes)
    {
      obj := scene.NewObject(name, cache[MeshKey(name, kwargs)]);
      scene.Link(scene.collection, obj);
      assert [] + [scene.collection] == [scene.collection];
    }

    /** The miss path of `shape`: `Spawn`, and the new mesh is cached under the key. */
    method Build(name: string, op: string, kwargs: seq<Item>, createMaterial: bool) returns (obj: nat)
      requires Valid() && MeshKey(name, kwargs) !in cache
      modifies this`cache, this`builds, scene
      ensures Valid()
      ensures obj == |old(scene.objects)|
      ensures cache == old(cache)[MeshKey(name, kwargs) := |old(scene.meshes)|] && builds == old(builds) + 1
      ensures scene.objects == old(scene.objects) + [Object(op, |old(scene.meshes)|, Identity, [scene.collection], None)]
      ensures scene.meshes == old(scene.meshes) + [Mesh(op, [], kwargs, if createMaterial then [None] else [])]
    {
      var key := MeshKey(name, kwargs);
      obj := Spawn(op, kwargs, createMaterial);
      assert key.name == name && scene.meshes[|old(scene.meshes)|].kwargs == kwargs;
      assert old(scene.meshes) <= scene.meshes;
      CacheSoundExtend(cache, old(scene.meshes), scene.meshes, key, |old(scene.meshes)|);
      cache := cache[key := scene.objects[obj].mesh];
      builds := builds + 1;
    }

    /**
     * The cache half of `shape`: a hit makes a new object around the cached
     * mesh, linked to the context collection; a miss runs the operator, gives
     * its mesh an empty material slot when a material is wanted, and caches
     * the mesh.
     */
    method Fetch(name: string, op: string, kwargs: seq<Item>, createMaterial: bool) returns (obj: nat)
      requires Valid() && DistinctNames(kwargs)
      modifies this`cache, this`builds, scene
      ensures Valid()
      ensures forall k :: k in old(cache) ==> k in cache && cache[k] == old(cache)[k]
      ensures obj == |old(scene.objects)| && |scene.objects| == obj + 1 && scene.objects[..obj] == old(scene.objects)
      ensures MeshKey(name, kwargs) in cache && scene.objects[obj].mesh == cache[MeshKey(name, kwargs)]
      ensures scene.objects[obj].material == None
      ensures MeshKey(name, kwargs) in old(cache) ==>
        cache == old(cache) && builds == old(builds) && scene.meshes == old(scene.meshes)
      ensures MeshKey(name, kwargs) !in old(cache) ==>
        cache == old(cache)[MeshKey(name, kwargs) := |old(scene.meshes)|] && builds == old(builds) + 1 &&
        scene.meshes == old(scene.meshes) + [Mesh(op, [], kwargs, if createMaterial then [None] else [])]
    {
      if MeshKey(name, kwargs) in cache {
        obj := Reuse(name, kwargs);
      } else {
        obj := Build(name, op, kwargs, createMaterial);
      }
    }

    /**
     * `shape(name, shapefunc, create_material, **kwargs)`: `Fetch`, then the
     * object gets the current matrix and, with `create_material`, a material
     * of the current colour in slot 0, which fails with IndexError when the
     * cached mesh was built without a slot.
     */
    method Shape(name: string, op: string, kwargs: seq<Item>, createMaterial: bool) returns (r: Result<nat, ShapeError>)
      requires Valid() && DistinctNames(kwargs)
      modifies this`cache, this`builds, scene
      ensures Valid()
      ensures forall k :: k in old(cache) ==> k in cache && cache[k] == old(cache)[k]
      ensures |scene.objects| == |old(scene.objects)| + 1 && scene.objects[..|old(scene.objects)|] == old(scene.objects)
      ensures MeshKey(name, kwargs) in cache
      ensures scene.objects[|old(scene.objects)|].mesh == cache[MeshKey(name, kwargs)]
      ensures scene.objects[|old(scene.objects)|].world == matrix
      ensures r.Failure? <==>
        createMaterial && MeshKey(name, kwargs) in old(cache) && old(scene.meshes)[old(cache)[MeshKey(name, kwargs)]].slots == []
      ensures r.Success? ==>
        r.value == |old(scene.objects)| &&
        scene.objects[r.value].material == (if createMaterial then Some(Material(ColorRgba())) else None)
    {
      var obj := Fetch(name, op, kwargs, createMaterial);
      scene.SetWorld(obj, matrix);
      if createMaterial {
        var ok := scene.LinkSlotMaterial(obj, Material(ColorRgba()));
        if !ok {
          return Failure(NoMaterialSlot);
        }
      }
      r := Success(obj);
    }

    /** A wrapper such as `torus(..., create_material)`. */
    method Primitive(p: Primitive, createMaterial: bool) returns (r: Result<nat, ShapeError>)
      requires Valid()
      modifies this`cache, this`builds, scene
      ensures Valid()
      ensures forall k :: k in old(cache) ==> k in cache && cache[k] == old(cache)[k]
      ensures |scene.objects| == |old(scene.objects)| + 1
      ensures r.Success? ==> r.value == |old(scene.objects)| && scene.objects[r.value].world == matrix
    {
      var c := Call(p);
      r := Shape(c.name, c.op, c.kwargs, createMaterial);
    }

    /**
     * Runs a block. When it ends normally (`ok`), the matrix is the one it
     * started with, the colour is `ColorAfter` of it, and the new objects are
     * its shapes in order, each placed with the matrix and coloured with the
     * colour in force where it was drawn. An IndexError ends it early and
     * skips the restores of the scopes it leaves.
     */
    method Exec(b: Block<Draw>) returns (ok: bool)
      requires Valid() && DrawsWellFormed(b)
      modifies this, scene
      decreases b, 0
      ensures Valid()
      ensures forall k :: k in old(cache) ==> k in cache && cache[k] == old(cache)[k]
      ensures old(scene.objects) <= scene.objects
      ensures ok ==> matrix == old(matrix) && color == ColorAfter(b, old(color))
      ensures ok ==> Shows(scene.objects, |old(scene.objects)|, Actions(b), Frames(b, old(matrix)), Tints(b, old(color)), conv)
    {
      match b {
        case Do(d) =>
          var r := Shape(d.name, d.op, d.kwargs, d.createMaterial);
          ok := r.Success?;
          if ok {
            ShowsOne(scene.objects, r.value, d, matrix, color, conv);
          }
        case Seq(bs) => ok := ExecSeq(bs);
        case With(s, body) => ok := ExecWith(s, body);
      }
    }

    /** A `with` statement: the scope method that `s` names, around `body`. */
    method ExecWith(s: Scope, body: Block<Draw>) returns (ok: bool)
      requires Valid() && DrawsWellFormed(body)
      modifies this, scene
      decreases body, 2
      ensures Valid()
      ensures forall k :: k in old(cache) ==> k in cache && cache[k] == old(cache)[k]
      ensures old(scene.objects) <= scene.objects
      ensures ok ==> matrix == old(matrix) && color == ColorAfter(With(s, body), old(color))
      ensures ok ==> Shows(scene.objects, |old(scene.objects)|, Actions(With(s, body)), Frames(With(s, body), old(matrix)),
                           Tints(With(s, body), old(color)), conv)
    {
      match s {
        case ScaleBy(x, y, z, xyz) => ok := Scale(x, y, z, xyz, body);
        case TranslateBy(x, y, z) => ok := Translate(x, y, z, body);
        case RotateBy(angle, axis) => ok := Rotate(angle, axis, body);
        case Recolor(hue, saturation, value, alpha, base) => ok := Color(hue, saturation, value, alpha, base, body);
      }
    }

    /** Statements in order; the first IndexError ends the run. */
    method ExecSeq(bs: seq<Block<Draw>>) returns (ok: bool)
      requires Valid() && forall i :: 0 <= i < |bs| ==> DrawsWellFormed(bs[i])
      modifies this, scene
      decreases bs, 1
      ensures Valid()
      ensures forall k :: k in old(cache) ==> k in cache && cache[k] == old(cache)[k]
      ensures old(scene.objects) <= scene.objects
      ensures ok ==> matrix == old(matrix) && color == ColorAfterSeq(bs, old(color))
      ensures ok ==> Shows(scene.objects, |old(scene.objects)|, ActionsSeq(bs), FramesSeq(bs, old(matrix)),
                           TintsSeq(bs, old(color)), conv)
    {
      ok := true;
      var i := 0;
      while i < |bs|
        invariant 0 <= i <= |bs|
        invariant Valid()
        invariant forall k :: k in old(cache) ==> k in cache && cache[k] == old(cache)[k]
        invariant old(scene.objects) <= scene.objects
        invariant matrix == old(matrix) && color == ColorAfterSeq(bs[..i], old(color))
        invariant Shows(scene.objects, |old(scene.objects)|, ActionsSeq(bs[..i]), FramesSeq(bs[..i], matrix),
                        TintsSeq(bs[..i], old(color)), conv)
      {
        ghost var objs, before := scene.objects, color;
        ok := Exec(bs[i]);
        if !ok {
          return;
        }
        ExecSeqStep(bs, i, matrix, old(color), before, old(scene.objects), objs, scene.objects, conv);
        i := i + 1;
      }
      assert bs[..|bs|] == bs;
    }

    /** `with scale(x, y, z, xyz): body`. */
    method Scale(x: Option<real>, y: Option<real>, z: Option<real>, xyz: real, body: Block<Draw>) returns (ok: bool)
      requires Valid() && DrawsWellFormed(body)
      modifies this, scene
      decreases body, 1
      ensures Valid()
      ensures forall k :: k in old(cache) ==> k in cache && cache[k] == old(cache)[k]
      ensures old(scene.objects) <= scene.objects
      ensures ok ==> matrix == old(matrix) && color == ColorAfter(body, old(color))
      ensures ok ==> Shows(scene.objects, |old(scene.objects)|, Actions(body),
                           Frames(body, Compose(old(matrix), Scaling(x, y, z, xyz))), Tints(body, old(color)), conv)
    {
      var saved := matrix;
      matrix := Compose(matrix, Scaling(x, y, z, xyz));
      ok := Exec(body);
      if ok {
        matrix := saved;
      }
    }

    /** `with translate(x, y, z): body`. */
    method Translate(x: real, y: real, z: real, body: Block<Draw>) returns (ok: bool)
      requires Valid() && DrawsWellFormed(body)
      modifies this, scene
      decreases body, 1
      ensures Valid()
      ensures forall k :: k in old(cache) ==> k in cache && cache[k] == old(cache)[k]
      ensures old(scene.objects) <= scene.objects
      ensures ok ==> matrix == old(matrix) && color == ColorAfter(body, old(color))
      ensures ok ==> Shows(scene.objects, |old(scene.objects)|, Actions(body),
                           Frames(body, Compose(old(matrix), Translation(x, y, z))), Tints(body, old(color)), conv)
    {
      var saved := matrix;
      matrix := Compose(matrix, Translation(x, y, z));
      ok := Exec(body);
      if ok {
        matrix := saved;
      }
    }

    /** `with rotate(angle, axis): body`. */
    method Rotate(angle: real, axis: Axis, body: Block<Draw>) returns (ok: bool)
      requires Valid() && DrawsWellFormed(body)
      modifies this, scene
      decreases body, 1
      ensures Valid()
      ensures forall k :: k in old(cache) ==> k in cache && cache[k] == old(cache)[k]
      ensures old(scene.objects) <= scene.objects
      ensures ok ==> matrix == old(matrix) && color == ColorAfter(body, old(color))
      ensures ok ==> Shows(scene.objects, |old(scene.objects)|, Actions(body),
                           Frames(body, Compose(old(matrix), Rotation(angle, axis))), Tints(body, old(color)), conv)
    {
      var saved := matrix;
      matrix := Compose(matrix, Rotation(angle, axis));
      ok := Exec(body);
      if ok {
        matrix := saved;
      }
    }

    /**
     * `with color(hue, saturation, value, alpha, color): body`. An explicit
     * base colour replaces the current colour before it is saved, so it is
     * what the scope leaves behind.
     */
    method Color(hue: Option<real>, saturation: Option<real>, value: Option<real>, alpha: Option<real>,
                 base: Option<Hsva>, body: Block<Draw>) returns (ok: bool)
      requires Valid() && DrawsWellFormed(body)
      modifies this, scene
      decreases body, 1
      ensures Valid()
      ensures forall k :: k in old(cache) ==> k in cache && cache[k] == old(cache)[k]
      ensures old(scene.objects) <= scene.objects
      ensures ok ==> matrix == old(matrix) && color == (if base.Some? then base.value else old(color))
      ensures ok ==> Shows(scene.objects, |old(scene.objects)|, Actions(body), Frames(body, old(matrix)),
        Tints(body, ComposeColor(if base.Some? then base.value else old(color), hue, saturation, value, alpha)), conv)
    {
      if base.Some? {
        color := base.value;
      }
      var newColor := ComposeColor(color, hue, saturation, value, alpha);
      var current := color;
      color := newColor;
      ok := Exec(body);
      if ok {
        color := current;
      }
    }
  }

  /** A block in which no colour scope passes an explicit base colour leaves the colour as it found it. */
  lemma {:induction false} NoExplicitColorRestores(b: Block<Draw>, c: Hsva)
    requires !SetsColor(b)
    ensures ColorAfter(b, c) == c
    decreases b
  {
    match b
    case Do(_) =>
    case Seq(bs) => NoExplicitColorRestoresSeq(bs, c);
    case With(s, body) =>
      if !s.Recolor? {
        NoExplicitColorRestores(body, c);
      }
  }

  lemma {:induction false} NoExplicitColorRestoresSeq(bs: seq<Block<Draw>>, c: Hsva)
    requires forall i :: 0 <= i < |bs| ==> !SetsColor(bs[i])
    ensures ColorAfterSeq(bs, c) == c
    decreases bs
  {
    if bs != [] {
      NoExplicitColorRestoresSeq(bs[..|bs| - 1], c);
      NoExplicitColorRestores(bs[|bs| - 1], c);
    }
  }

  /**
   * A colour scope with an explicit base colour different from the current
   * one does not restore the current colour: the base colour stays in force.
   */
  lemma ExplicitColorStays(body: Block<Draw>, c: Hsva, base: Hsva, hue: Option<real>)
    requires base != c
    ensures ColorAfter(With(Recolor(hue, None, None, None, Some(base)), body), c) == base != c
  {
  }
}
