/**
 * `MeshFactory.create` of algorist/blender.py: the mesh cache keyed by
 * `(name, sorted(chain(args, kwargs.items())))`, for any creation function.
 * The module's `hsva_to_rgba` is the one of algorist/transform.py, modelled by
 * `Colors.HsvaToRgba`.
 */
module Blender {
  import opened Wrappers
  import opened Matrices
  import opened Keys
  import opened Host

  /**
   * A creation function: a `bpy.ops.mesh.primitive_*_add` operator, which
   * returns a status and sets the context object, or a function that returns
   * the object it made.
   */
  datatype Creator = Operator(op: string) | ObjectFunction(op: string)

  /**
   * Every cached mesh exists and was built from arguments that give back its
   * own key.
   */
  ghost predicate ChainCacheSound(cache: map<Key, nat>, meshes: seq<Mesh>)
  {
    forall k :: k in cache ==>
      cache[k] < |meshes| && ChainKey(k.name, meshes[cache[k]].args, meshes[cache[k]].kwargs) == Success(k)
  }

  /** Caching a new mesh under the key its own arguments give keeps the cache sound. */
  lemma ChainCacheSoundExtend(cache: map<Key, nat>, h1: seq<Mesh>, h2: seq<Mesh>, key: Key, m: nat)
    requires ChainCacheSound(cache, h1) && h1 <= h2
    requires m < |h2| && ChainKey(key.name, h2[m].args, h2[m].kwargs) == Success(key)
    ensures ChainCacheSound(cache[key := m], h2)
  {
    forall k | k in cache ensures h2[cache[k]] == h1[cache[k]] {
      assert h1 == h2[..|h1|];
    }
  }

  class MeshFactory {
    const scene: Scene
    var cache: map<Key, nat>
    /** How many times a creation function ran: not in the source, kept for the proofs. */
    ghost var builds: nat

    /**
     * Every cached mesh exists and was built from arguments that give back its
     * own key, and the creation function ran once per key.
     */
    ghost predicate Valid()
      reads this, scene
    {
      scene.Valid() && ChainCacheSound(cache, scene.meshes) && builds == |cache|
    }

    constructor (scene: Scene)
      requires scene.Valid()
      ensures Valid() && this.scene == scene
      ensures cache == map[] && builds == 0
    {
      this.scene := scene;
      cache := map[];
      builds := 0;
    }

    /**
     * `create(name, creation_func, *args, **kwargs)`. Building the key fails
     * with a TypeError, before anything else happens, when positional and
     * keyword arguments are both present. Otherwise a hit makes a new object
     * around the cached mesh and calls nothing; a miss calls the creation
     * function once, takes the object it returned or else the context object,
     * and caches that object's mesh.
     */
    method Create(name: string, creator: Creator, args: seq<real>, kwargs: seq<Item>)
      returns (r: Result<nat, SortError>)
      requires Valid()
      modifies this, scene
      ensures Valid()
      ensures r.Failure? <==> ChainKey(name, args, kwargs).Failure?
      ensures r.Failure? ==> cache == old(cache) && scene.meshes == old(scene.meshes) && scene.objects == old(scene.objects)
      ensures forall k :: k in old(cache) ==> k in cache && cache[k] == old(cache)[k]
      ensures r.Success? ==>
        var key := ChainKey(name, args, kwargs).value;
        r.value == |old(scene.objects)| && |scene.objects| == r.value + 1 &&
        scene.objects[..r.value] == old(scene.objects) &&
        key in cache && scene.objects[r.value].mesh == cache[key] &&
        (key in old(cache) ==>
          cache == old(cache) && builds == old(builds) && scene.meshes == old(scene.meshes) &&
          scene.objects[r.value] == Object(name, old(cache)[key], Identity, [scene.collection], None)) &&
        (key !in old(cache) ==>
          cache == old(cache)[key := |old(scene.meshes)|] && builds == old(builds) + 1 &&
          scene.meshes == old(scene.meshes) + [Mesh(creator.op, args, kwargs, [])])
    {
      var k := ChainKey(name, args, kwargs);
      if k.Failure? {
        return Failure(k.error);
      }
      var key := k.value;
      var obj: nat;
      if key in cache {
        obj := Reuse(name, key);
      } else {
        obj := Build(creator, args, kwargs, key);
      }
      r := Success(obj);
    }

    /** The hit path of `create`: a new object around the cached mesh, linked to the context collection. */
    method Reuse(name: string, key: Key) returns (obj: nat)
      requires Valid() && key in cache
      modifies scene
      ensures Valid()
      ensures obj == |old(scene.objects)|
      ensures scene.objects == old(scene.objects) + [Object(name, cache[key], Identity, [scene.collection], None)]
      ensures scene.meshes == old(scene.meshes)
    {
      obj := scene.NewObject(name, cache[key]);
      scene.Link(scene.collection, obj);
      assert [] + [scene.collection] == [scene.collection];
    }

    /**
     * The miss path of `create`: the creation function runs once; the object
     * is the one it returned or else the context object, and its mesh is
     * cached under the key.
     */
    method Build(creator: Creator, args: seq<real>, kwargs: seq<Item>, key: Key) returns (obj: nat)
      requires Valid() && key !in cache && ChainKey(key.name, args, kwargs) == Success(key)
      modifies this, scene
      ensures Valid()
      ensures obj == |old(scene.objects)|
      ensures cache == old(cache)[key := |old(scene.meshes)|] && builds == old(builds) + 1
      ensures scene.meshes == old(scene.meshes) + [Mesh(creator.op, args, kwargs, [])]
      ensures scene.objects == old(scene.objects) + [Object(creator.op, |old(scene.meshes)|, Identity, [scene.collection], None)]
    {
      match creator {
        case Operator(op) =>
          var _ := scene.Create(op, args, kwargs, true);
          obj := scene.active.value;
        case ObjectFunction(op) =>
          obj := scene.Create(op, args, kwargs, false);
      }
      ChainCacheSoundExtend(cache, old(scene.meshes), scene.meshes, key, |old(scene.meshes)|);
      cache := cache[key := scene.objects[obj].mesh];
      builds := builds + 1;
    }
  }

  /**
   * With positional arguments only, two calls whose arguments are a
   * permutation of each other hit the same cache entry, although the creation
   * function would receive them in different orders.
   */
  lemma PermutedArgumentsShareMesh(name: string, a1: seq<real>, a2: seq<real>, cache: map<Key, nat>)
    requires multiset(a1) == multiset(a2)
    requires ChainKey(name, a1, []).Success? && ChainKey(name, a1, []).value in cache
    ensures ChainKey(name, a2, []).Success? && ChainKey(name, a2, []).value in cache
    ensures cache[ChainKey(name, a2, []).value] == cache[ChainKey(name, a1, []).value]
  {
    ChainKeyIgnoresPositions(name, a1, a2);
  }
}
