/**
 * `Context` of algorist/cfdg.py: a transform stack, a rule table and a mesh
 * cache, like `ContextFree.Context`, with three differences. There may be no
 * current colour at all, and then shapes get no material. The cache keeps a
 * pristine copy of each mesh and the collections of the first object, and
 * every shape, hit or miss, gets a mesh of its own. The colour is a material
 * appended to that mesh.
 */
module Cfdg {
  import opened Wrappers
  import opened Matrices
  import opened Colors
  import opened Keys
  import opened Host
  import opened Scopes
  import opened Shapes
  import opened Rules
  import Guard

  /** A `shape(name, shapefunc, **kwargs)` call with the operator `op`. */
  datatype Draw = Draw(name: string, op: string, kwargs: seq<Item>)

  /** A cache entry: the copied mesh and the collections of the object first built with it. */
  datatype Entry = Entry(mesh: nat, collections: seq<nat>)

  /** The colour in force inside scope `s` entered under `c`. */
  function OptionalColorIn(c: Option<Hsva>, s: Scope): (r: Option<Hsva>)
    ensures !s.Recolor? ==> r == c
    ensures s.Recolor? ==> (r.None? <==> s.color.None? && c.None?)
    ensures s.Recolor? && s.color.Some? ==> r.value == ComposeColor(s.color.value, s.hue, s.saturation, s.value, s.alpha)
    ensures s.Recolor? && s.color.None? && c.Some? ==> r.value == ComposeColor(c.value, s.hue, s.saturation, s.value, s.alpha)
  {
    if !s.Recolor? then c
    else if s.color.Some? then Some(ComposeColor(s.color.value, s.hue, s.saturation, s.value, s.alpha))
    else if c.None? then None
    else Some(ComposeColor(c.value, s.hue, s.saturation, s.value, s.alpha))
  }

  /** The colour in force after block `b` ends, when it started under `c`. */
  function ColorAfter(b: Block<Draw>, c: Option<Hsva>): Option<Hsva>
    decreases b
  {
    match b
    case Do(_) => c
    case Seq(bs) => ColorAfterSeq(bs, c)
    case With(s, body) =>
      if !s.Recolor? then ColorAfter(body, c)
      else if s.color.Some? then s.color
      else if c.None? then ColorAfter(body, c)
      else c
  }

  function ColorAfterSeq(bs: seq<Block<Draw>>, c: Option<Hsva>): Option<Hsva>
    decreases bs
  {
    if bs == [] then c else ColorAfter(bs[|bs| - 1], ColorAfterSeq(bs[..|bs| - 1], c))
  }

  /** The colour in force at each shape of `b` when `b` starts under `c`. */
  function Tints(b: Block<Draw>, c: Option<Hsva>): (ts: seq<Option<Hsva>>)
    decreases b
    ensures |ts| == |Actions(b)|
  {
    match b
    case Do(_) => [c]
    case Seq(bs) => TintsSeq(bs, c)
    case With(s, body) => Tints(body, OptionalColorIn(c, s))
  }

  function TintsSeq(bs: seq<Block<Draw>>, c: Option<Hsva>): (ts: seq<Option<Hsva>>)
    decreases bs
    ensures |ts| == |ActionsSeq(bs)|
  {
    if bs == [] then []
    else TintsSeq(bs[..|bs| - 1], c) + Tints(bs[|bs| - 1], ColorAfterSeq(bs[..|bs| - 1], c))
  }

  lemma TintsStep(bs: seq<Block<Draw>>, i: nat, c: Option<Hsva>)
    requires i < |bs|
    ensures ColorAfterSeq(bs[..i + 1], c) == ColorAfter(bs[i], ColorAfterSeq(bs[..i], c))
    ensures TintsSeq(bs[..i + 1], c) == TintsSeq(bs[..i], c) + Tints(bs[i], ColorAfterSeq(bs[..i], c))
  {
    assert bs[..i + 1][..i] == bs[..i];
  }

  /** The material slots of a shape's own mesh when it is drawn under `c`: one material of that colour, or none. */
  function SlotsFor(c: Option<Hsva>, conv: RgbConversion): seq<Option<Material>>
  {
    if c.Some? then [Some(Material(HsvaToRgba(c.value, conv)))] else []
  }

  /**
   * The objects from index `from` on are the shapes `ds`, in order, placed
   * with the matrices `ms`, each with a mesh of the requested geometry whose
   * slots hold the material of the colour in `cs`.
   */
  ghost predicate Shows(objs: seq<Object>, meshes: seq<Mesh>, from: nat, ds: seq<Draw>, ms: seq<Matrix>,
                        cs: seq<Option<Hsva>>, conv: RgbConversion)
  {
    |ds| == |ms| == |cs| && |objs| == from + |ds| &&
    forall i :: 0 <= i < |ds| ==>
      objs[from + i].world == ms[i] && objs[from + i].mesh < |meshes| &&
      MeshKey(ds[i].name, meshes[objs[from + i].mesh].kwargs) == MeshKey(ds[i].name, ds[i].kwargs) &&
      meshes[objs[from + i].mesh].slots == SlotsFor(cs[i], conv)
  }

  lemma ShowsAppend(o1: seq<Object>, mesh1: seq<Mesh>, o2: seq<Object>, mesh2: seq<Mesh>, from: nat,
                    d1: seq<Draw>, m1: seq<Matrix>, c1: seq<Option<Hsva>>,
                    d2: seq<Draw>, m2: seq<Matrix>, c2: seq<Option<Hsva>>, conv: RgbConversion)
    requires Shows(o1, mesh1, from, d1, m1, c1, conv) && o1 <= o2 && mesh1 <= mesh2
    requires Shows(o2, mesh2, |o1|, d2, m2, c2, conv)
    ensures Shows(o2, mesh2, from, d1 + d2, m1 + m2, c1 + c2, conv)
  {
    forall i | 0 <= i < |d1| + |d2|
      ensures o2[from + i].world == (m1 + m2)[i] && o2[from + i].mesh < |mesh2|
      ensures MeshKey((d1 + d2)[i].name, mesh2[o2[from + i].mesh].kwargs) == MeshKey((d1 + d2)[i].name, (d1 + d2)[i].kwargs)
      ensures mesh2[o2[from + i].mesh].slots == SlotsFor((c1 + c2)[i], conv)
    {
      if i < |d1| {
        assert o1 == o2[..|o1|] && mesh1 == mesh2[..|mesh1|];
        assert o2[from + i] == o1[from + i];
        var k := o1[from + i].mesh;
        assert o1[from + i].world == m1[i] && k < |mesh1| && mesh1[k].slots == SlotsFor(c1[i], conv);
        assert mesh2[k] == mesh1[k];
      } else {
        assert from + i == |o1| + (i - |d1|);
      }
    }
  }

  /** A single shape drawn under matrix `m` and colour `c`. */
  lemma ShowsOne(objs: seq<Object>, meshes: seq<Mesh>, from: nat, d: Draw, m: Matrix, c: Option<Hsva>, conv: RgbConversion)
    requires |objs| == from + 1 && objs[from].world == m && objs[from].mesh < |meshes|
    requires MeshKey(d.name, meshes[objs[from].mesh].kwargs) == MeshKey(d.name, d.kwargs)
    requires meshes[objs[from].mesh].slots == SlotsFor(c, conv)
    ensures Shows(objs, meshes, from, [d], [m], [c], conv)
  {
  }

  /** One more statement of a sequence has run: its shapes follow those of the statements before it. */
  lemma ExecSeqStep(bs: seq<Block<Draw>>, i: nat, m: Matrix, c: Option<Hsva>, before: Option<Hsva>,
                    o0: seq<Object>, h0: seq<Mesh>, o1: seq<Object>, h1: seq<Mesh>, o2: seq<Object>, h2: seq<Mesh>,
                    conv: RgbConversion)
    requires i < |bs| && before == ColorAfterSeq(bs[..i], c)
    requires o0 <= o1 && h0 <= h1 && o1 <= o2 && h1 <= h2
    requires Shows(o1, h1, |o0|, ActionsSeq(bs[..i]), FramesSeq(bs[..i], m), TintsSeq(bs[..i], c), conv)
    requires Shows(o2, h2, |o1|, Actions(bs[i]), Frames(bs[i], m), Tints(bs[i], before), conv)
    ensures o0 <= o2 && h0 <= h2
    ensures ColorAfterSeq(bs[..i + 1], c) == ColorAfter(bs[i], before)
    ensures Shows(o2, h2, |o0|, ActionsSeq(bs[..i + 1]), FramesSeq(bs[..i + 1], m), TintsSeq(bs[..i + 1], c), conv)
  {
    SeqStep(bs, i, m);
    TintsStep(bs, i, c);
    ShowsAppend(o1, h1, o2, h2, |o0|, ActionsSeq(bs[..i]), FramesSeq(bs[..i], m), TintsSeq(bs[..i], c),
                Actions(bs[i]), Frames(bs[i], m), Tints(bs[i], before), conv);
  }

  /** Keyword names are distinct in every shape call of `b`. */
  predicate DrawsWellFormed(b: Block<Draw>)
  {
    Every(b, (d: Draw) => DistinctNames(d.kwargs))
  }

  /**
   * Every cached copy exists, has no material slot and was built from
   * keyword arguments that give back its own key.
   */
  ghost predicate CopiesSound(cache: map<Key, Entry>, meshes: seq<Mesh>)
  {
    forall k :: k in cache ==>
      cache[k].mesh < |meshes| && meshes[cache[k].mesh].slots == [] &&
      MeshKey(k.name, meshes[cache[k].mesh].kwargs) == k
  }

  lemma CopiesSoundGrows(cache: map<Key, Entry>, h1: seq<Mesh>, h2: seq<Mesh>)
    requires CopiesSound(cache, h1) && h1 <= h2
    ensures CopiesSound(cache, h2)
  {
    forall k | k in cache ensures h2[cache[k].mesh] == h1[cache[k].mesh] {
      assert h1 == h2[..|h1|];
    }
  }

  lemma CopiesSoundExtend(cache: map<Key, Entry>, h1: seq<Mesh>, h2: seq<Mesh>, key: Key, e: Entry)
    requires CopiesSound(cache, h1) && h1 <= h2
    requires e.mesh < |h2| && h2[e.mesh].slots == [] && MeshKey(key.name, h2[e.mesh].kwargs) == key
    ensures CopiesSound(cache[key := e], h2)
  {
    CopiesSoundGrows(cache, h1, h2);
  }

  lemma CopiesSoundUpdate(cache: map<Key, Entry>, h: seq<Mesh>, m: nat, x: Mesh)
    requires CopiesSound(cache, h) && m < |h|
    requires forall k :: k in cache ==> cache[k].mesh != m
    ensures CopiesSound(cache, h[m := x])
  {
  }

  /**
   * Placing the last object (its world matrix, then extra slots on its own
   * mesh) keeps every object and mesh that existed before it was made.
   */
  lemma PlacedKeepsPrefixes(objects0: seq<Object>, meshes0: seq<Mesh>, objects: seq<Object>, meshes: seq<Mesh>,
                            obj: nat, m: Matrix, extra: seq<Option<Material>>)
    requires obj == |objects0| && |objects| == obj + 1 && objects[..obj] == objects0
    requires meshes0 <= meshes && |meshes0| <= objects[obj].mesh < |meshes| && meshes[objects[obj].mesh].slots == []
    ensures var own := objects[obj].mesh;
      var objects' := objects[obj := objects[obj].(world := m)];
      var meshes' := meshes[own := meshes[own].(slots := meshes[own].slots + extra)];
      |objects'| == obj + 1 && objects'[..obj] == objects0 && objects'[obj].world == m && objects'[obj].mesh == own &&
      meshes0 <= meshes' && |meshes'| == |meshes| && meshes'[own].kwargs == meshes[own].kwargs && meshes'[own].slots == extra
  {
    var own := objects[obj].mesh;
    assert objects[obj := objects[obj].(world := m)][..obj] == objects[..obj];
    assert meshes[own := meshes[own].(slots := meshes[own].slots + extra)][..|meshes0|] == meshes[..|meshes0|];
    assert [] + extra == extra;
  }

  class Context {
    var matrix: Matrix
    var color: Option<Hsva>
    var cache: map<Key, Entry>
    const rules: Registry
    const scene: Scene
    /** `colorsys.hsv_to_rgb`. */
    const conv: RgbConversion
    /** `Matrix.to_scale()`. */
    const scaleOf: Matrix -> Guard.Scale3
    /** How many times a shape operator ran: not in the source, kept for the proofs. */
    ghost var builds: nat

    /** The cache is sound for the scene's meshes, and the operator ran once per key. */
    ghost predicate Valid()
      reads this`cache, this`builds, scene
    {
      scene.Valid() && CopiesSound(cache, scene.meshes) && builds == |cache|
    }

    /** `Context(matrix, color)`: the identity unless a matrix is given, the colour as given (none by default). */
    constructor (matrix: Option<Matrix>, color: Option<Hsva>, scene: Scene, conv: RgbConversion,
                 scaleOf: Matrix -> Guard.Scale3)
      requires scene.Valid()
      ensures Valid() && fresh(rules) && rules.Valid()
      ensures this.matrix == OrIdentity(matrix) && this.color == color
      ensures cache == map[] && builds == 0 && rules.table == map[]
      ensures this.scene == scene && this.conv == conv && this.scaleOf == scaleOf
    {
      this.matrix := OrIdentity(matrix);
      this.color := color;
      cache := map[];
      builds := 0;
      rules := new Registry();
      this.scene := scene;
      this.conv := conv;
      this.scaleOf := scaleOf;
    }

    /** The `color_rgba` property, defined only while there is a colour. */
    function ColorRgba(): (r: Rgba)
      requires color.Some?
      reads this
      ensures r.a == color.value.a
    {
      HsvaToRgba(color.value, conv)
    }

    /** The scale the guard's minimum-scale check inspects: that of the context's own matrix. */
    function CurrentScale(): Guard.Scale3
      reads this
    {
      scaleOf(matrix)
    }

    /** `limit(max_depth, max_objects, min_scale)(func)`: a guard with fresh counters. */
    method Limit(maxDepth: int, maxObjects: int, minScale: Option<real>) returns (g: Guard.Guard)
      ensures fresh(g) && g.Valid()
      ensures g.config == Guard.Config(maxDepth, maxObjects, minScale)
      ensures g.depth == 0 && g.objects == 0
    {
      g := new Guard.Guard(Guard.Config(maxDepth, maxObjects, minScale));
    }

    /**
     * A call of a function decorated by `limit`, made now: the minimum-scale
     * check reads the scale of the current matrix.
     */
    method CallGuarded<V>(g: Guard.Guard, nested: seq<Guard.Invocation<V>>, result: V) returns (r: Option<V>)
      requires g.Valid()
      modifies g
      ensures g.Valid() && g.depth == old(g.depth) && g.objects > old(g.objects)
      ensures r.Some? <==> Guard.Check(g.config, old(g.depth) + 1, old(g.objects) + 1, CurrentScale()) == Guard.Run
      ensures r.Some? ==> r.value == result
    {
      r := g.Call(Guard.Invocation(CurrentScale(), nested, result));
    }

    /** `rule(weight)(func)` on this context's own table. */
    method Rule(weight: real, func: Production) returns (handle: RuleHandle)
      requires rules.Valid()
      modifies rules
      ensures rules.Valid() && rules.history == old(rules.history) + [Registration(weight, func)]
      ensures handle == RuleHandle(func.name)
      ensures rules.table == Appended(old(rules.table), weight, func)
    {
      handle := rules.Rule(weight, func);
    }

    /** `_invoke_rule(name, *args)` with the draw `u`: KeyError for an unknown name. */
    method InvokeRule<A, V>(name: string, u: real, args: A, call: (Production, A) -> V)
      returns (r: Result<V, DispatchError>, ghost chosen: int)
      requires rules.Valid() && 0.0 <= u < 1.0
      ensures name !in rules.table ==> r == Failure(UnknownRule(name))
      ensures name in rules.table ==> rules.table[name] != [] && Dispatched(rules.table[name], u, args, call, r, chosen)
    {
      r, chosen := rules.InvokeRule(name, u, args, call);
    }

    /** `for c in collections: c.objects.link(obj)`. */
    method LinkAll(obj: nat, cs: seq<nat>)
      requires scene.Valid() && obj < |scene.objects|
      modifies scene
      ensures scene.Valid()
      ensures scene.objects ==
        old(scene.objects)[obj := old(scene.objects)[obj].(collections := old(scene.objects)[obj].collections + cs)]
      ensures scene.meshes == old(scene.meshes) && scene.active == old(scene.active)
    {
      var i := 0;
      assert old(scene.objects)[obj].collections + cs[..0] == old(scene.objects)[obj].collections;
      while i < |cs|
        invariant 0 <= i <= |cs| && scene.Valid()
        invariant scene.objects ==
          old(scene.objects)[obj := old(scene.objects)[obj].(collections := old(scene.objects)[obj].collections + cs[..i])]
        invariant scene.meshes == old(scene.meshes) && scene.active == old(scene.active)
      {
        scene.Link(cs[i], obj);
        assert cs[..i + 1] == cs[..i] + [cs[i]];
        assert old(scene.objects)[obj].collections + cs[..i + 1] == old(scene.objects)[obj].collections + cs[..i] + [cs[i]];
        i := i + 1;
      }
      assert cs[..|cs|] == cs;
    }

    /**
     * The hit path of `shape`: a new object around a fresh copy of the cached
     * mesh, linked to the cached collections.
     */
    method Reuse(name: string, kwargs: seq<Item>) returns (obj: nat)
      requires Valid() && MeshKey(name, kwargs) in cache
      modifies scene
      ensures Valid()
      ensures obj == |old(scene.objects)|
      ensures scene.meshes == old(scene.meshes) + [old(scene.meshes)[cache[MeshKey(name, kwargs)].mesh]]
      ensures scene.objects ==
        old(scene.objects) + [Object(name, |old(scene.meshes)|, Identity, cache[MeshKey(name, kwargs)].collections, None)]
    {
      var e := cache[MeshKey(name, kwargs)];
      var copy := scene.CopyMesh(e.mesh);
      obj := scene.NewObject(name, copy);
      LinkAll(obj, e.collections);
      assert [] + e.collections == e.collections;
      CopiesSoundGrows(cache, old(scene.meshes), scene.meshes);
    }

    /**
     * The miss path of `shape`: the operator makes a mesh and an object, makes
     * the object the context object and links it to the context collection;
     * a copy of that mesh and that collection are cached under the key.
     */
    method Build(name: string, op: string, kwargs: seq<Item>) returns (obj: nat)
      requires Valid() && MeshKey(name, kwargs) !in cache
      modifies this`cache, this`builds, scene
      ensures Valid()
      ensures obj == |old(scene.objects)|
      ensures cache == old(cache)[MeshKey(name, kwargs) := Entry(|old(scene.meshes)| + 1, [scene.collection])]
      ensures builds == old(builds) + 1
      ensures scene.meshes == old(scene.meshes) + [Mesh(op, [], kwargs, []), Mesh(op, [], kwargs, [])]
      ensures scene.objects == old(scene.objects) + [Object(op, |old(scene.meshes)|, Identity, [scene.collection], None)]
    {
      var key := MeshKey(name, kwargs);
      var e;
      obj, e := Spawn(op, kwargs);
      assert key.name == name && scene.meshes[e.mesh].kwargs == kwargs;
      assert old(scene.meshes) <= scene.meshes;
      CopiesSoundExtend(cache, old(scene.meshes), scene.meshes, key, e);
      cache := cache[key := e];
      builds := builds + 1;
    }

    /** The host calls of the miss path: the operator's mesh and object, and a copy of the mesh. */
    method Spawn(op: string, kwargs: seq<Item>) returns (obj: nat, e: Entry)
      requires scene.Valid()
      modifies scene
      ensures scene.Valid()
      ensures obj == |old(scene.objects)|
      ensures scene.meshes == old(scene.meshes) + [Mesh(op, [], kwargs, []), Mesh(op, [], kwargs, [])]
      ensures scene.objects == old(scene.objects) + [Object(op, |old(scene.meshes)|, Identity, [scene.collection], None)]
      ensures e == Entry(|old(scene.meshes)| + 1, [scene.collection])
    {
      var _ := scene.Create(op, [], kwargs, true);
      obj := scene.active.value;
      var copy := scene.CopyMesh(scene.objects[obj].mesh);
      e := Entry(copy, scene.objects[obj].collections);
    }

    /**
     * The cache half of `shape`. Either way the new object owns a mesh made
     * by this call, with no material slot and of the requested geometry.
     */
    method Fetch(name: string, op: string, kwargs: seq<Item>) returns (obj: nat)
      requires Valid() && DistinctNames(kwargs)
      modifies this`cache, this`builds, scene
      ensures Valid()
      ensures forall k :: k in old(cache) ==> k in cache && cache[k] == old(cache)[k]
      ensures obj == |old(scene.objects)| && |scene.objects| == obj + 1 && scene.objects[..obj] == old(scene.objects)
      ensures old(scene.meshes) <= scene.meshes
      ensures |old(scene.meshes)| <= scene.objects[obj].mesh < |scene.meshes|
      ensures forall k :: k in cache ==> cache[k].mesh != scene.objects[obj].mesh
      ensures scene.meshes[scene.objects[obj].mesh].slots == []
      ensures MeshKey(name, scene.meshes[scene.objects[obj].mesh].kwargs) == MeshKey(name, kwargs)
      ensures MeshKey(name, kwargs) in cache
      ensures MeshKey(name, kwargs) in old(cache) ==>
        cache == old(cache) && builds == old(builds) &&
        scene.meshes == old(scene.meshes) + [old(scene.meshes)[old(cache)[MeshKey(name, kwargs)].mesh]] &&
        scene.objects[obj] == Object(name, |old(scene.meshes)|, Identity, old(cache)[MeshKey(name, kwargs)].collections, None)
      ensures MeshKey(name, kwargs) !in old(cache) ==>
        cache == old(cache)[MeshKey(name, kwargs) := Entry(|old(scene.meshes)| + 1, [scene.collection])] &&
        builds == old(builds) + 1 &&
        scene.meshes == old(scene.meshes) + [Mesh(op, [], kwargs, []), Mesh(op, [], kwargs, [])] &&
        scene.objects[obj] == Object(op, |old(scene.meshes)|, Identity, [scene.collection], None)
    {
      if MeshKey(name, kwargs) in cache {
        obj := Reuse(name, kwargs);
        assert scene.meshes[..|old(scene.meshes)|] == old(scene.meshes);
      } else {
        obj := Build(name, op, kwargs);
        assert scene.meshes[..|old(scene.meshes)|] == old(scene.meshes);
      }
    }

    /** `_assign_color(obj)`: with a colour, a material of that colour is appended to the object's mesh. */
    method AssignColor(obj: nat)
      requires Valid() && obj < |scene.objects|
      requires forall k :: k in cache ==> cache[k].mesh != scene.objects[obj].mesh
      modifies scene
      ensures Valid()
      ensures scene.meshes == old(scene.meshes)[old(scene.objects)[obj].mesh :=
        old(scene.meshes)[old(scene.objects)[obj].mesh].(slots := old(scene.meshes)[old(scene.objects)[obj].mesh].slots + SlotsFor(color, conv))]
      ensures scene.objects == old(scene.objects) && scene.active == old(scene.active)
    {
      if color.None? {
        assert old(scene.meshes)[scene.objects[obj].mesh].slots + [] == old(scene.meshes)[scene.objects[obj].mesh].slots;
        return;
      }
      scene.AppendSlot(scene.objects[obj].mesh, Some(Material(ColorRgba())));
      CopiesSoundUpdate(cache, old(scene.meshes), scene.objects[obj].mesh, scene.meshes[scene.objects[obj].mesh]);
    }

    /**
     * `shape(name, shapefunc, **kwargs)`: `Fetch`, then the object gets the
     * current matrix and its own mesh the material of the current colour, if
     * there is one. Meshes made before the call are left as they were.
     */
    method Shape(name: string, op: string, kwargs: seq<Item>) returns (obj: nat)
      requires Valid() && DistinctNames(kwargs)
      modifies this`cache, this`builds, scene
      ensures Valid()
      ensures forall k :: k in old(cache) ==> k in cache && cache[k] == old(cache)[k]
      ensures MeshKey(name, kwargs) in old(cache) ==> cache == old(cache) && builds == old(builds)
      ensures MeshKey(name, kwargs) !in old(cache) ==> MeshKey(name, kwargs) in cache && builds == old(builds) + 1
      ensures obj == |old(scene.objects)| && |scene.objects| == obj + 1 && scene.objects[..obj] == old(scene.objects)
      ensures old(scene.meshes) <= scene.meshes
      ensures scene.objects[obj].world == matrix
      ensures |old(scene.meshes)| <= scene.objects[obj].mesh < |scene.meshes|
      ensures MeshKey(name, scene.meshes[scene.objects[obj].mesh].kwargs) == MeshKey(name, kwargs)
      ensures scene.meshes[scene.objects[obj].mesh].slots == SlotsFor(color, conv)
    {
      obj := Fetch(name, op, kwargs);
      ghost var fetchedObjects, fetched := scene.objects, scene.meshes;
      ghost var own := scene.objects[obj].mesh;
      Place(obj);
      PlacedKeepsPrefixes(old(scene.objects), old(scene.meshes), fetchedObjects, fetched, obj, matrix, SlotsFor(color, conv));
    }

    /**
     * The tail of `shape`: `shape.matrix_world = self._matrix`, then
     * `_assign_color(shape)`. Only that object and its own mesh change.
     */
    method Place(obj: nat)
      requires Valid() && obj < |scene.objects|
      requires forall k :: k in cache ==> cache[k].mesh != scene.objects[obj].mesh
      modifies scene
      ensures Valid()
      ensures scene.objects == old(scene.objects)[obj := old(scene.objects)[obj].(world := matrix)]
      ensures var m := old(scene.objects)[obj].mesh;
        scene.meshes == old(scene.meshes)[m := old(scene.meshes)[m].(slots := old(scene.meshes)[m].slots + SlotsFor(color, conv))]
    {
      scene.SetWorld(obj, matrix);
      AssignColor(obj);
    }

    /** A wrapper such as `torus(...)`. */
    method Primitive(p: Primitive) returns (obj: nat)
      requires Valid()
      modifies this`cache, this`builds, scene
      ensures Valid()
      ensures forall k :: k in old(cache) ==> k in cache && cache[k] == old(cache)[k]
      ensures obj == |old(scene.objects)| && |scene.objects| == obj + 1
      ensures scene.objects[obj].world == matrix && scene.objects[obj].mesh < |scene.meshes|
      ensures scene.meshes[scene.objects[obj].mesh].slots == SlotsFor(color, conv)
    {
      var c := Call(p);
      obj := Shape(c.name, c.op, c.kwargs);
    }

    /**
     * Runs a block: the matrix ends as it started, the colour is
     * `ColorAfter` of the block, and the new objects are its shapes in order,
     * each placed with the matrix and coloured with the colour in force where
     * it was drawn. Meshes made before the block are left as they were.
     */
    method Exec(b: Block<Draw>)
      requires Valid() && DrawsWellFormed(b)
      modifies this, scene
      decreases b, 0
      ensures Valid()
      ensures forall k :: k in old(cache) ==> k in cache && cache[k] == old(cache)[k]
      ensures old(scene.objects) <= scene.objects
      ensures old(scene.meshes) <= scene.meshes
      ensures matrix == old(matrix) && color == ColorAfter(b, old(color))
      ensures Shows(scene.objects, scene.meshes, |old(scene.objects)|, Actions(b), Frames(b, old(matrix)), Tints(b, old(color)), conv)
    {
      match b {
        case Do(d) =>
          var obj := Shape(d.name, d.op, d.kwargs);
          ShowsOne(scene.objects, scene.meshes, obj, d, matrix, color, conv);
        case Seq(bs) => ExecSeq(bs);
        case With(s, body) => ExecWith(s, body);
      }
    }

    /** A `with` statement: the scope method that `s` names, around `body`. */
    method ExecWith(s: Scope, body: Block<Draw>)
      requires Valid() && DrawsWellFormed(body)
      modifies this, scene
      decreases body, 2
      ensures Valid()
      ensures forall k :: k in old(cache) ==> k in cache && cache[k] == old(cache)[k]
      ensures old(scene.objects) <= scene.objects
      ensures old(scene.meshes) <= scene.meshes
      ensures matrix == old(matrix) && color == ColorAfter(With(s, body), old(color))
      ensures Shows(scene.objects, scene.meshes, |old(scene.objects)|, Actions(With(s, body)), Frames(With(s, body), old(matrix)),
                    Tints(With(s, body), old(color)), conv)
    {
      match s {
        case ScaleBy(x, y, z, xyz) => Scale(x, y, z, xyz, body);
        case TranslateBy(x, y, z) => Translate(x, y, z, body);
        case RotateBy(angle, axis) => Rotate(angle, axis, body);
        case Recolor(hue, saturation, value, alpha, base) => Color(hue, saturation, value, alpha, base, body);
      }
    }

    /** Statements in order. */
    method ExecSeq(bs: seq<Block<Draw>>)
      requires Valid() && forall i :: 0 <= i < |bs| ==> DrawsWellFormed(bs[i])
      modifies this, scene
      decreases bs, 1
      ensures Valid()
      ensures forall k :: k in old(cache) ==> k in cache && cache[k] == old(cache)[k]
      ensures old(scene.objects) <= scene.objects
      ensures old(scene.meshes) <= scene.meshes
      ensures matrix == old(matrix) && color == ColorAfterSeq(bs, old(color))
      ensures Shows(scene.objects, scene.meshes, |old(scene.objects)|, ActionsSeq(bs), FramesSeq(bs, old(matrix)),
                    TintsSeq(bs, old(color)), conv)
    {
      var i := 0;
      while i < |bs|
        invariant 0 <= i <= |bs|
        invariant Valid()
        invariant forall k :: k in old(cache) ==> k in cache && cache[k] == old(cache)[k]
        invariant old(scene.objects) <= scene.objects
        invariant old(scene.meshes) <= scene.meshes
        invariant matrix == old(matrix) && color == ColorAfterSeq(bs[..i], old(color))
        invariant Shows(scene.objects, scene.meshes, |old(scene.objects)|, ActionsSeq(bs[..i]), FramesSeq(bs[..i], matrix),
                        TintsSeq(bs[..i], old(color)), conv)
      {
        ghost var objs, meshes, before := scene.objects, scene.meshes, color;
        Exec(bs[i]);
        ExecSeqStep(bs, i, matrix, old(color), before, old(scene.objects), old(scene.meshes),
                    objs, meshes, scene.objects, scene.meshes, conv);
        i := i + 1;
      }
      assert bs[..|bs|] == bs;
    }

    /** `with scale(x, y, z, xyz): body`. */
    method Scale(x: Option<real>, y: Option<real>, z: Option<real>, xyz: real, body: Block<Draw>)
      requires Valid() && DrawsWellFormed(body)
      modifies this, scene
      decreases body, 1
      ensures Valid()
      ensures forall k :: k in old(cache) ==> k in cache && cache[k] == old(cache)[k]
      ensures old(scene.objects) <= scene.objects
      ensures old(scene.meshes) <= scene.meshes
      ensures matrix == old(matrix) && color == ColorAfter(body, old(color))
      ensures Shows(scene.objects, scene.meshes, |old(scene.objects)|, Actions(body),
                    Frames(body, Compose(old(matrix), Scaling(x, y, z, xyz))), Tints(body, old(color)), conv)
    {
      var saved := matrix;
      matrix := Compose(matrix, Scaling(x, y, z, xyz));
      Exec(body);
      matrix := saved;
    }

    /** `with translate(x, y, z): body`. */
    method Translate(x: real, y: real, z: real, body: Block<Draw>)
      requires Valid() && DrawsWellFormed(body)
      modifies this, scene
      decreases body, 1
      ensures Valid()
      ensures forall k :: k in old(cache) ==> k in cache && cache[k] == old(cache)[k]
      ensures old(scene.objects) <= scene.objects
      ensures old(scene.meshes) <= scene.meshes
      ensures matrix == old(matrix) && color == ColorAfter(body, old(color))
      ensures Shows(scene.objects, scene.meshes, |old(scene.objects)|, Actions(body),
                    Frames(body, Compose(old(matrix), Translation(x, y, z))), Tints(body, old(color)), conv)
    {
      var saved := matrix;
      matrix := Compose(matrix, Translation(x, y, z));
      Exec(body);
      matrix := saved;
    }

    /** `with rotate(angle, axis): body`. */
    method Rotate(angle: real, axis: Axis, body: Block<Draw>)
      requires Valid() && DrawsWellFormed(body)
      modifies this, scene
      decreases body, 1
      ensures Valid()
      ensures forall k :: k in old(cache) ==> k in cache && cache[k] == old(cache)[k]
      ensures old(scene.objects) <= scene.objects
      ensures old(scene.meshes) <= scene.meshes
      ensures matrix == old(matrix) && color == ColorAfter(body, old(color))
      ensures Shows(scene.objects, scene.meshes, |old(scene.objects)|, Actions(body),
                    Frames(body, Compose(old(matrix), Rotation(angle, axis))), Tints(body, old(color)), conv)
    {
      var saved := matrix;
      matrix := Compose(matrix, Rotation(angle, axis));
      Exec(body);
      matrix := saved;
    }

    /**
     * `with color(hue, saturation, value, alpha, color): body`. An explicit
     * base colour replaces the current colour before it is saved, so it is
     * what the scope leaves behind. Without one and without a current colour
     * the scope only runs its body, and whatever colour the body leaves stays.
     */
    method Color(hue: Option<real>, saturation: Option<real>, value: Option<real>, alpha: Option<real>,
                 base: Option<Hsva>, body: Block<Draw>)
      requires Valid() && DrawsWellFormed(body)
      modifies this, scene
      decreases body, 1
      ensures Valid()
      ensures forall k :: k in old(cache) ==> k in cache && cache[k] == old(cache)[k]
      ensures old(scene.objects) <= scene.objects
      ensures old(scene.meshes) <= scene.meshes
      ensures matrix == old(matrix)
      ensures color == if base.Some? then base else if old(color).None? then ColorAfter(body, None) else old(color)
      ensures Shows(scene.objects, scene.meshes, |old(scene.objects)|, Actions(body), Frames(body, old(matrix)),
                    Tints(body, OptionalColorIn(old(color), Recolor(hue, saturation, value, alpha, base))), conv)
    {
      ghost var inner := OptionalColorIn(color, Recolor(hue, saturation, value, alpha, base));
      if base.Some? {
        color := base;
      } else if color.None? {
        assert inner == None;
        Exec(body);
        return;
      }
      var newColor := ComposeColor(color.value, hue, saturation, value, alpha);
      assert inner == Some(newColor);
      var current := color;
      color := Some(newColor);
      Exec(body);
      color := current;
    }
  }

  /** A block in which no colour scope passes an explicit base colour leaves the colour, or its absence, as it found it. */
  lemma {:induction false} NoExplicitColorRestores(b: Block<Draw>, c: Option<Hsva>)
    requires !SetsColor(b)
    ensures ColorAfter(b, c) == c
    decreases b
  {
    match b
    case Do(_) =>
    case Seq(bs) => NoExplicitColorRestoresSeq(bs, c);
    case With(s, body) =>
      if !s.Recolor? || c.None? {
        NoExplicitColorRestores(body, c);
      }
  }

  lemma {:induction false} NoExplicitColorRestoresSeq(bs: seq<Block<Draw>>, c: Option<Hsva>)
    requires forall i :: 0 <= i < |bs| ==> !SetsColor(bs[i])
    ensures ColorAfterSeq(bs, c) == c
    decreases bs
  {
    if bs != [] {
      NoExplicitColorRestoresSeq(bs[..|bs| - 1], c);
      NoExplicitColorRestores(bs[|bs| - 1], c);
    }
  }

  /**
   * Started without a colour, a block in which no colour scope passes an
   * explicit base colour draws every shape without a colour, so no shape gets
   * a material.
   */
  lemma {:induction false} UncoloredStaysUncolored(b: Block<Draw>)
    requires !SetsColor(b)
    ensures forall t :: t in Tints(b, None) ==> t == None
    decreases b
  {
    match b
    case Do(_) =>
    case Seq(bs) => UncoloredStaysUncoloredSeq(bs);
    case With(s, body) => UncoloredStaysUncolored(body);
  }

  lemma {:induction false} UncoloredStaysUncoloredSeq(bs: seq<Block<Draw>>)
    requires forall i :: 0 <= i < |bs| ==> !SetsColor(bs[i])
    ensures forall t :: t in TintsSeq(bs, None) ==> t == None
    decreases bs
  {
    if bs != [] {
      var n := |bs| - 1;
      UncoloredStaysUncoloredSeq(bs[..n]);
      NoExplicitColorRestoresSeq(bs[..n], None);
      UncoloredStaysUncolored(bs[n]);
    }
  }

  /**
   * Once a colour scope with an explicit base colour has run, the base colour
   * stays in force: a later scope without one composes on it.
   */
  lemma ExplicitColorPersists(body: Block<Draw>, later: Block<Draw>, c: Option<Hsva>, base: Hsva,
                              hue: Option<real>, saturation: Option<real>, value: Option<real>, alpha: Option<real>)
    ensures Tints(Seq([With(Recolor(None, None, None, None, Some(base)), body),
                       With(Recolor(hue, saturation, value, alpha, None), later)]), c)
         == Tints(body, Some(base)) + Tints(later, Some(ComposeColor(base, hue, saturation, value, alpha)))
  {
    var bs := [With(Recolor(None, None, None, None, Some(base)), body),
               With(Recolor(hue, saturation, value, alpha, None), later)];
    assert ComposeColor(base, None, None, None, None) == base;
    assert bs[..1][..0] == [];
    assert bs[..1] == [bs[0]];
    assert ColorAfterSeq(bs[..1], c) == Some(base);
    assert TintsSeq(bs[..1], c) == Tints(body, Some(base));
    assert OptionalColorIn(Some(base), bs[1].scope) == Some(ComposeColor(base, hue, saturation, value, alpha));
    assert Tints(bs[1], Some(base)) == Tints(later, Some(ComposeColor(base, hue, saturation, value, alpha)));
    assert TintsSeq(bs, c) == TintsSeq(bs[..1], c) + Tints(bs[1], ColorAfterSeq(bs[..1], c));
  }
}
