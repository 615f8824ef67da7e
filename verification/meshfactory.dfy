/**
 * `MeshFactory` of algorist/mesh_factory.py: a cache from `(name, sorted
 * kwargs)` to the mesh a primitive operator built, so that later requests for
 * the same shape make a new object around the existing mesh instead of running
 * the operator again.
 */
module MeshFactories {
  import opened Wrappers
  import opened Matrices
  import opened Keys
  import opened Shapes
  import opened Host

  class MeshFactory {
    const scene: Scene
    var cache: map<Key, nat>
    /** How many times a creation operator ran: not in the source, kept for the proofs. */
    ghost var builds: nat

    /** The cache is sound for the scene's meshes, and the operator ran once per key. */
    ghost predicate Valid()
      reads this, scene
    {
      scene.Valid() && CacheSound(cache, scene.meshes) && builds == |cache|
    }

    constructor (scene: Scene)
      requires scene.Valid()
      ensures Valid() && this.scene == scene
      ensures cache == map[] && builds == 0
    {
      this.scene := scene;
      cache := map[];
      builds := 0;
    }

    /**
     * `shape(name, shapefunc, **kwargs)` where `shapefunc` is the operator
     * `op`. A hit makes a new object around the cached mesh, linked to the
     * context collection, and runs nothing; a miss runs the operator once and
     * caches the mesh of the object it made active. Either way the result uses
     * the cached mesh and no existing entry changes.
     */
    method Shape(name: string, op: string, kwargs: seq<Item>) returns (obj: nat)
      requires Valid() && DistinctNames(kwargs)
      modifies this, scene
      ensures Valid()
      ensures obj == |old(scene.objects)| && |scene.objects| == obj + 1
      ensures scene.objects[..obj] == old(scene.objects)
      ensures MeshKey(name, kwargs) in cache && scene.objects[obj].mesh == cache[MeshKey(name, kwargs)]
      ensures forall k :: k in old(cache) ==> k in cache && cache[k] == old(cache)[k]
      ensures MeshKey(name, kwargs) in old(cache) ==>
        cache == old(cache) && builds == old(builds) && scene.meshes == old(scene.meshes) &&
        scene.objects[obj] == Object(name, old(cache)[MeshKey(name, kwargs)], Identity, [scene.collection], None) &&
        scene.active == old(scene.active)
      ensures MeshKey(name, kwargs) !in old(cache) ==>
        cache == old(cache)[MeshKey(name, kwargs) := |old(scene.meshes)|] && builds == old(builds) + 1 &&
        scene.meshes == old(scene.meshes) + [Mesh(op, [], kwargs, [])] &&
        scene.objects[obj] == Object(op, |old(scene.meshes)|, Identity, [scene.collection], None) &&
        scene.active == Some(obj)
    {
      var key := MeshKey(name, kwargs);
      if key in cache {
        obj := scene.NewObject(name, cache[key]);
        scene.Link(scene.collection, obj);
      } else {
        var _ := scene.Create(op, [], kwargs, true);
        obj := scene.active.value;
        assert MeshKey(key.name, scene.meshes[|old(scene.meshes)|].kwargs) == key;
        CacheSoundExtend(cache, old(scene.meshes), scene.meshes, key, |old(scene.meshes)|);
        cache := cache[key := scene.objects[obj].mesh];
        builds := builds + 1;
      }
    }

    /** A wrapper such as `torus(...)`; `create_material`, which some of them accept, is dropped. */
    method Primitive(p: Primitive) returns (obj: nat)
      requires Valid()
      modifies this, scene
      ensures Valid()
      ensures obj == |old(scene.objects)| && |scene.objects| == obj + 1
      ensures MeshKey(Call(p).name, Call(p).kwargs) in cache
      ensures scene.objects[obj].mesh == cache[MeshKey(Call(p).name, Call(p).kwargs)]
    {
      var c := Call(p);
      obj := Shape(c.name, c.op, c.kwargs);
    }
  }

  /**
   * A request for a shape whose keyword arguments were seen before, in any
   * order, hits the cache: Shape then runs no operator and reuses the mesh.
   */
  lemma ReorderedRequestHits(name: string, k1: seq<Item>, k2: seq<Item>, cache: map<Key, nat>)
    requires DistinctNames(k1) && DistinctNames(k2) && multiset(k1) == multiset(k2)
    requires MeshKey(name, k1) in cache
    ensures MeshKey(name, k2) in cache && cache[MeshKey(name, k2)] == cache[MeshKey(name, k1)]
  {
    MeshKeyEquality(name, k1, name, k2);
  }
}
