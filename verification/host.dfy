/**
 * The part of Blender's state that the factories and contexts touch: mesh
 * datablocks, objects, the context object and the context collection. Blender
 * itself is not modelled; each host call the Python code makes (`bpy.ops.mesh.
 * primitive_*_add`, `bpy.data.objects.new`, `collection.objects.link`,
 * `mesh.copy()`, `mesh.materials.append`, the `matrix_world` setter and the
 * object-linked material slot) is one method here that returns a fresh index
 * where Blender returns a fresh datablock.
 */
module Host {
  import opened Wrappers
  import opened Matrices
  import opened Colors
  import opened Keys

  /** A material created for one colour; its node tree and blend mode are host details. */
  datatype Material = Material(color: Rgba)

  /** A mesh datablock: the call that built it, with its arguments, and its material slots. */
  datatype Mesh = Mesh(op: string, args: seq<real>, kwargs: seq<Item>, slots: seq<Option<Material>>)

  /**
   * An object: its name, the index of its mesh, its world matrix, the
   * collections it is linked to and the material linked to the object itself
   * (rather than to the shared mesh).
   */
  datatype Object = Object(name: string, mesh: nat, world: Matrix, collections: seq<nat>, material: Option<Material>)

  /** Every cached mesh exists and was built from keyword arguments that give back its own key. */
  ghost predicate CacheSound(cache: map<Key, nat>, meshes: seq<Mesh>)
  {
    forall k :: k in cache ==> cache[k] < |meshes| && MeshKey(k.name, meshes[cache[k]].kwargs) == k
  }

  /** Meshes added after the cached ones leave the cache sound. */
  lemma CacheSoundGrows(cache: map<Key, nat>, h1: seq<Mesh>, h2: seq<Mesh>)
    requires CacheSound(cache, h1) && h1 <= h2
    ensures CacheSound(cache, h2)
  {
    forall k | k in cache ensures h2[cache[k]] == h1[cache[k]] {
      assert h1 == h2[..|h1|];
    }
  }

  /** Caching a new mesh under the key its own keyword arguments give keeps the cache sound. */
  lemma CacheSoundExtend(cache: map<Key, nat>, h1: seq<Mesh>, h2: seq<Mesh>, key: Key, m: nat)
    requires CacheSound(cache, h1) && h1 <= h2
    requires m < |h2| && MeshKey(key.name, h2[m].kwargs) == key
    ensures CacheSound(cache[key := m], h2)
  {
    CacheSoundGrows(cache, h1, h2);
  }

  class Scene {
    var meshes: seq<Mesh>
    var objects: seq<Object>
    /** `bpy.context.object`. */
    var active: Option<nat>
    /** `bpy.context.collection`. */
    const collection: nat

    ghost predicate Valid()
      reads this
    {
      (forall i :: 0 <= i < |objects| ==> objects[i].mesh < |meshes|) &&
      (active.Some? ==> active.value < |objects|)
    }

    constructor (collection: nat)
      ensures Valid() && this.collection == collection
      ensures meshes == [] && objects == [] && active == None
    {
      this.collection := collection;
      meshes, objects, active := [], [], None;
    }

    /**
     * A creation call: a new mesh built by `op` from the arguments and a new
     * object using it, linked to the context collection. An operator
     * (`bpy.ops.mesh.primitive_*_add`) also makes the object the context
     * object; a function that returns the object it made leaves the context
     * object alone. Blender names the new object after the primitive
     * ("Torus"); the model names it after the call `op` instead, a stand-in
     * that no contract depends on.
     */
    method Create(op: string, args: seq<real>, kwargs: seq<Item>, makeActive: bool) returns (obj: nat)
      requires Valid()
      modifies this
      ensures Valid()
      ensures obj == |old(objects)|
      ensures meshes == old(meshes) + [Mesh(op, args, kwargs, [])]
      ensures objects == old(objects) + [Object(op, |old(meshes)|, Identity, [collection], None)]
      ensures active == if makeActive then Some(obj) else old(active)
    {
      obj := |objects|;
      objects := objects + [Object(op, |meshes|, Identity, [collection], None)];
      meshes := meshes + [Mesh(op, args, kwargs, [])];
      if makeActive {
        active := Some(obj);
      }
    }

    /** `bpy.data.objects.new(name, mesh)`: a new object, linked to no collection yet. */
    method NewObject(name: string, mesh: nat) returns (obj: nat)
      requires Valid() && mesh < |meshes|
      modifies this
      ensures Valid()
      ensures obj == |old(objects)|
      ensures objects == old(objects) + [Object(name, mesh, Identity, [], None)]
      ensures meshes == old(meshes) && active == old(active)
    {
      obj := |objects|;
      objects := objects + [Object(name, mesh, Identity, [], None)];
    }

    /** `c.objects.link(obj)`. */
    method Link(c: nat, obj: nat)
      requires Valid() && obj < |objects|
      modifies this
      ensures Valid()
      ensures objects == old(objects)[obj := old(objects)[obj].(collections := old(objects)[obj].collections + [c])]
      ensures meshes == old(meshes) && active == old(active)
    {
      objects := objects[obj := objects[obj].(collections := objects[obj].collections + [c])];
    }

    /** `mesh.copy()`: a new mesh datablock equal to the old one. */
    method CopyMesh(mesh: nat) returns (copy: nat)
      requires Valid() && mesh < |meshes|
      modifies this
      ensures Valid()
      ensures copy == |old(meshes)|
      ensures meshes == old(meshes) + [old(meshes)[mesh]]
      ensures objects == old(objects) && active == old(active)
    {
      copy := |meshes|;
      meshes := meshes + [meshes[mesh]];
    }

    /** `mesh.materials.append(slot)`. */
    method AppendSlot(mesh: nat, slot: Option<Material>)
      requires Valid() && mesh < |meshes|
      modifies this
      ensures Valid()
      ensures meshes == old(meshes)[mesh := old(meshes)[mesh].(slots := old(meshes)[mesh].slots + [slot])]
      ensures objects == old(objects) && active == old(active)
    {
      meshes := meshes[mesh := meshes[mesh].(slots := meshes[mesh].slots + [slot])];
    }

    /** `obj.matrix_world = m`. */
    method SetWorld(obj: nat, m: Matrix)
      requires Valid() && obj < |objects|
      modifies this
      ensures Valid()
      ensures objects == old(objects)[obj := old(objects)[obj].(world := m)]
      ensures meshes == old(meshes) && active == old(active)
    {
      objects := objects[obj := objects[obj].(world := m)];
    }

    /** Gives the object a material of its own. */
    method AttachMaterial(obj: nat, mat: Material)
      requires Valid() && obj < |objects|
      modifies this
      ensures Valid()
      ensures objects == old(objects)[obj := old(objects)[obj].(material := Some(mat))]
      ensures meshes == old(meshes) && active == old(active)
    {
      objects := objects[obj := objects[obj].(material := Some(mat))];
    }

    /**
     * `obj.material_slots[0].link = "OBJECT"` followed by
     * `obj.material_slots[0].material = mat`. An object has one slot per
     * material slot of its mesh, so without one the subscript raises
     * IndexError (`ok` is false) and nothing changes.
     */
    method LinkSlotMaterial(obj: nat, mat: Material) returns (ok: bool)
      requires Valid() && obj < |objects|
      modifies this
      ensures Valid()
      ensures ok <==> old(meshes)[old(objects)[obj].mesh].slots != []
      ensures objects == if ok then old(objects)[obj := old(objects)[obj].(material := Some(mat))] else old(objects)
      ensures meshes == old(meshes) && active == old(active)
    {
      ok := meshes[objects[obj].mesh].slots != [];
      if ok {
        objects := objects[obj := objects[obj].(material := Some(mat))];
      }
    }
  }
}
