/**
 * `Transform` of algorist/transform.py: a current matrix and colour, scoped
 * changes to either, and `apply`, which hands both to a `Transformer` wrapping
 * a Blender object. Every scope restores what it saved, so a block started
 * under some matrix and colour ends under the same ones, and each application
 * inside it sees the matrix and colour of the scopes around it.
 */
module Transforms {
  import opened Wrappers
  import opened Matrices
  import opened Colors
  import opened Host
  import opened Scopes

  /** A `Transformer` for the object with the given index. */
  datatype Transformer = Transformer(obj: nat)

  /** The colour in force at each action of `b` when `b` starts under `c`. */
  function Tints(b: Block<Transformer>, c: Hsva): (ts: seq<Hsva>)
    decreases b
    ensures |ts| == |Actions(b)|
  {
    match b
    case Do(_) => [c]
    case Seq(bs) => TintsSeq(bs, c)
    case With(s, body) => Tints(body, ColorIn(c, s))
  }

  function TintsSeq(bs: seq<Block<Transformer>>, c: Hsva): (ts: seq<Hsva>)
    decreases bs
    ensures |ts| == |ActionsSeq(bs)|
  {
    if bs == [] then [] else TintsSeq(bs[..|bs| - 1], c) + Tints(bs[|bs| - 1], c)
  }

  /** What one `apply` leaves on the scene's objects. */
  function Stamp(objs: seq<Object>, t: Transformer, m: Matrix, c: Hsva, conv: RgbConversion): (r: seq<Object>)
    ensures |r| == |objs|
  {
    if t.obj < |objs| then objs[t.obj := objs[t.obj].(world := m, material := Some(Material(HsvaToRgba(c, conv))))]
    else objs
  }

  /** What a series of `apply` calls leaves on the scene's objects; a later one overrides an earlier one. */
  function StampAll(objs: seq<Object>, ts: seq<Transformer>, ms: seq<Matrix>, cs: seq<Hsva>,
                    conv: RgbConversion): (r: seq<Object>)
    requires |ts| == |ms| == |cs|
    decreases |ts|
    ensures |r| == |objs|
  {
    if ts == [] then objs
    else
      var n := |ts| - 1;
      Stamp(StampAll(objs, ts[..n], ms[..n], cs[..n], conv), ts[n], ms[n], cs[n], conv)
  }

  lemma {:induction false} StampAllAppend(objs: seq<Object>, t1: seq<Transformer>, m1: seq<Matrix>, c1: seq<Hsva>,
                                          t2: seq<Transformer>, m2: seq<Matrix>, c2: seq<Hsva>, conv: RgbConversion)
    requires |t1| == |m1| == |c1| && |t2| == |m2| == |c2|
    ensures StampAll(objs, t1 + t2, m1 + m2, c1 + c2, conv)
         == StampAll(StampAll(objs, t1, m1, c1, conv), t2, m2, c2, conv)
    decreases |t2|
  {
    if t2 == [] {
      assert t1 + t2 == t1 && m1 + m2 == m1 && c1 + c2 == c1;
    } else {
      var n := |t2| - 1;
      StampAllAppend(objs, t1, m1, c1, t2[..n], m2[..n], c2[..n], conv);
      assert (t1 + t2)[..|t1| + n] == t1 + t2[..n];
      assert (m1 + m2)[..|t1| + n] == m1 + m2[..n];
      assert (c1 + c2)[..|t1| + n] == c1 + c2[..n];
    }
  }

  /** Unfolding the applications of a sequence at a prefix one statement longer. */
  lemma StampSeqStep(objs: seq<Object>, bs: seq<Block<Transformer>>, i: nat, m: Matrix, c: Hsva, conv: RgbConversion)
    requires i < |bs|
    ensures StampAll(objs, ActionsSeq(bs[..i + 1]), FramesSeq(bs[..i + 1], m), TintsSeq(bs[..i + 1], c), conv)
         == StampAll(StampAll(objs, ActionsSeq(bs[..i]), FramesSeq(bs[..i], m), TintsSeq(bs[..i], c), conv),
                     Actions(bs[i]), Frames(bs[i], m), Tints(bs[i], c), conv)
  {
    SeqStep(bs, i, m);
    assert bs[..i + 1][..i] == bs[..i];
    StampAllAppend(objs, ActionsSeq(bs[..i]), FramesSeq(bs[..i], m), TintsSeq(bs[..i], c),
                   Actions(bs[i]), Frames(bs[i], m), Tints(bs[i], c), conv);
  }

  /** Every application aims at an existing object. */
  predicate Aimed(b: Block<Transformer>, count: nat)
  {
    Every(b, (t: Transformer) => t.obj < count)
  }

  class Transform {
    var matrix: Matrix
    var color: Hsva
    /** `colorsys.hsv_to_rgb`. */
    const conv: RgbConversion

    /** `Transform(matrix, color)`: an omitted matrix is the identity. */
    constructor (matrix: Option<Matrix>, color: Hsva, conv: RgbConversion)
      ensures this.matrix == OrIdentity(matrix) && this.color == color && this.conv == conv
    {
      this.matrix := OrIdentity(matrix);
      this.color := color;
      this.conv := conv;
    }

    /** `Transform()`: the identity matrix and the colour (0, 0, 1, 1). */
    constructor Default(conv: RgbConversion)
      ensures matrix == Identity && color == DefaultColor && this.conv == conv
    {
      matrix := Identity;
      color := DefaultColor;
      this.conv := conv;
    }

    /** The `color_rgba` property. */
    function ColorRgba(): (r: Rgba)
      reads this
      ensures r.a == color.a
    {
      HsvaToRgba(color, conv)
    }

    /**
     * `apply(transformer)`: the object gets the current matrix as its world
     * matrix and is handed the current colour. `apply_color` is abstract in
     * the source; the model records the colour it receives as the object's
     * material.
     */
    method Apply(scene: Scene, t: Transformer)
      requires scene.Valid() && t.obj < |scene.objects|
      modifies scene
      ensures scene.Valid()
      ensures scene.objects == Stamp(old(scene.objects), t, matrix, color, conv)
      ensures scene.meshes == old(scene.meshes) && scene.active == old(scene.active)
    {
      scene.SetWorld(t.obj, matrix);
      scene.AttachMaterial(t.obj, Material(ColorRgba()));
    }

    /**
     * Runs a block: each `apply` in it stamps the matrix and colour of the
     * scopes around it, and the block ends with the matrix and colour it
     * started with.
     */
    method Exec(b: Block<Transformer>, scene: Scene)
      requires scene.Valid() && Aimed(b, |scene.objects|)
      modifies this, scene
      decreases b, 0
      ensures scene.Valid()
      ensures matrix == old(matrix) && color == old(color)
      ensures scene.objects == StampAll(old(scene.objects), Actions(b), Frames(b, old(matrix)), Tints(b, old(color)), conv)
      ensures scene.meshes == old(scene.meshes) && scene.active == old(scene.active)
    {
      match b {
        case Do(t) =>
          Apply(scene, t);
          assert [t][..0] == [] && [matrix][..0] == [] && [color][..0] == [];
        case Seq(bs) => ExecSeq(bs, scene);
        case With(s, body) =>
          match s {
            case ScaleBy(x, y, z, xyz) => Scale(x, y, z, xyz, body, scene);
            case TranslateBy(x, y, z) => Translate(x, y, z, body, scene);
            case RotateBy(angle, axis) => Rotate(angle, axis, body, scene);
            case Recolor(hue, saturation, value, alpha, base) => Color(hue, saturation, value, alpha, base, body, scene);
          }
      }
    }

    /** Statements in order: the applications of each follow those of the ones before it. */
    method ExecSeq(bs: seq<Block<Transformer>>, scene: Scene)
      requires scene.Valid() && forall i :: 0 <= i < |bs| ==> Aimed(bs[i], |scene.objects|)
      modifies this, scene
      decreases bs, 1
      ensures scene.Valid()
      ensures matrix == old(matrix) && color == old(color)
      ensures scene.objects == StampAll(old(scene.objects), ActionsSeq(bs), FramesSeq(bs, old(matrix)), TintsSeq(bs, old(color)), conv)
      ensures scene.meshes == old(scene.meshes) && scene.active == old(scene.active)
    {
      var i := 0;
      while i < |bs|
        invariant 0 <= i <= |bs|
        invariant scene.Valid() && matrix == old(matrix) && color == old(color)
        invariant scene.objects == StampAll(old(scene.objects), ActionsSeq(bs[..i]), FramesSeq(bs[..i], matrix), TintsSeq(bs[..i], color), conv)
        invariant |scene.objects| == |old(scene.objects)|
        invariant scene.meshes == old(scene.meshes) && scene.active == old(scene.active)
      {
        assert Aimed(bs[i], |old(scene.objects)|);
        Exec(bs[i], scene);
        StampSeqStep(old(scene.objects), bs, i, matrix, color, conv);
        i := i + 1;
      }
      assert bs[..|bs|] == bs;
    }

    /** `with scale(x, y, z, xyz): body`. */
    method Scale(x: Option<real>, y: Option<real>, z: Option<real>, xyz: real, body: Block<Transformer>, scene: Scene)
      requires scene.Valid() && Aimed(body, |scene.objects|)
      modifies this, scene
      decreases body, 1
      ensures scene.Valid()
      ensures matrix == old(matrix) && color == old(color)
      ensures scene.objects == StampAll(old(scene.objects), Actions(body),
                                        Frames(body, Compose(old(matrix), Scaling(x, y, z, xyz))), Tints(body, old(color)), conv)
      ensures scene.meshes == old(scene.meshes) && scene.active == old(scene.active)
    {
      var saved := matrix;
      matrix := Compose(matrix, Scaling(x, y, z, xyz));
      Exec(body, scene);
      matrix := saved;
    }

    /** `with translate(x, y, z): body`. */
    method Translate(x: real, y: real, z: real, body: Block<Transformer>, scene: Scene)
      requires scene.Valid() && Aimed(body, |scene.objects|)
      modifies this, scene
      decreases body, 1
      ensures scene.Valid()
      ensures matrix == old(matrix) && color == old(color)
      ensures scene.objects == StampAll(old(scene.objects), Actions(body),
                                        Frames(body, Compose(old(matrix), Translation(x, y, z))), Tints(body, old(color)), conv)
      ensures scene.meshes == old(scene.meshes) && scene.active == old(scene.active)
    {
      var saved := matrix;
      matrix := Compose(matrix, Translation(x, y, z));
      Exec(body, scene);
      matrix := saved;
    }

    /** `with rotate(angle, axis): body`. */
    method Rotate(angle: real, axis: Axis, body: Block<Transformer>, scene: Scene)
      requires scene.Valid() && Aimed(body, |scene.objects|)
      modifies this, scene
      decreases body, 1
      ensures scene.Valid()
      ensures matrix == old(matrix) && color == old(color)
      ensures scene.objects == StampAll(old(scene.objects), Actions(body),
                                        Frames(body, Compose(old(matrix), Rotation(angle, axis))), Tints(body, old(color)), conv)
      ensures scene.meshes == old(scene.meshes) && scene.active == old(scene.active)
    {
      var saved := matrix;
      matrix := Compose(matrix, Rotation(angle, axis));
      Exec(body, scene);
      matrix := saved;
    }

    /**
     * `with color(hue, saturation, value, alpha, color): body`. The colour
     * saved is the one from before the scope, even when an explicit base
     * colour is passed.
     */
    method Color(hue: Option<real>, saturation: Option<real>, value: Option<real>, alpha: Option<real>,
                 base: Option<Hsva>, body: Block<Transformer>, scene: Scene)
      requires scene.Valid() && Aimed(body, |scene.objects|)
      modifies this, scene
      decreases body, 1
      ensures scene.Valid()
      ensures matrix == old(matrix) && color == old(color)
      ensures scene.objects == StampAll(old(scene.objects), Actions(body), Frames(body, old(matrix)),
        Tints(body, ComposeColor(if base.Some? then base.value else old(color), hue, saturation, value, alpha)), conv)
      ensures scene.meshes == old(scene.meshes) && scene.active == old(scene.active)
    {
      var current := color;
      var baseColor := if base.Some? then base.value else color;
      color := ComposeColor(baseColor, hue, saturation, value, alpha);
      Exec(body, scene);
      color := current;
    }
  }

  /**
   * Every application inside a block runs under the matrix the block started
   * with, followed by the operators of the scopes around it.
   */
  lemma ApplicationsExtendStart(b: Block<Transformer>, m: Matrix)
    ensures forall i :: 0 <= i < |Actions(b)| ==> Extends(Frames(b, m)[i], m)
  {
    FramesExtend(b, m);
    forall i | 0 <= i < |Actions(b)| ensures Extends(Frames(b, m)[i], m) {
      assert Frames(b, m)[i] in Frames(b, m);
    }
  }

  /** An explicit base colour makes the colour in force inside the scope independent of the one outside. */
  lemma ExplicitBaseIgnoresCurrent(b: Block<Transformer>, s: Scope, c1: Hsva, c2: Hsva)
    requires s.Recolor? && s.color.Some?
    ensures Tints(With(s, b), c1) == Tints(With(s, b), c2)
  {
  }
}
