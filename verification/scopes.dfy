/**
 * The `with` scopes of algorist/transform.py and of both Context classes, and
 * the code that runs inside them. A `@contextmanager` method saves the current
 * value, installs a composed one, yields to the body of the `with` statement
 * and restores the saved value when the body finishes normally. The body is
 * user code; here it is a block: an action of the class at hand, statements in
 * order, or a nested scope.
 */
module Scopes {
  import opened Wrappers
  import opened Matrices
  import opened Colors

  /** The arguments of one scope: `scale`, `translate`, `rotate` or `color`. */
  datatype Scope =
    | ScaleBy(x: Option<real>, y: Option<real>, z: Option<real>, xyz: real)
    | TranslateBy(dx: real, dy: real, dz: real)
    | RotateBy(angle: real, axis: Axis)
    | Recolor(hue: Option<real>, saturation: Option<real>, value: Option<real>,
              alpha: Option<real>, color: Option<Hsva>)

  datatype Block<A> = Do(action: A) | Seq(blocks: seq<Block<A>>) | With(scope: Scope, body: Block<A>)

  /** `translate()` and `scale()` with their default arguments. */
  const NoTranslation: Scope := TranslateBy(0.0, 0.0, 0.0)
  const UnitScale: Scope := ScaleBy(None, None, None, 1.0)

  /** The matrix in force inside scope `s` entered under `m`; a colour scope leaves it alone. */
  function MatrixIn(m: Matrix, s: Scope): (r: Matrix)
    ensures s.Recolor? ==> r == m
    ensures !s.Recolor? ==> |r| == |m| + 1 && Extends(r, m)
  {
    match s
    case ScaleBy(x, y, z, xyz) => Compose(m, Scaling(x, y, z, xyz))
    case TranslateBy(x, y, z) => Compose(m, Translation(x, y, z))
    case RotateBy(angle, axis) => Compose(m, Rotation(angle, axis))
    case Recolor(_, _, _, _, _) => m
  }

  /**
   * The colour in force inside scope `s` entered under `c`: a colour scope
   * composes on its explicit base colour if one is given, else on `c`.
   */
  function ColorIn(c: Hsva, s: Scope): Hsva
  {
    if s.Recolor? then
      ComposeColor(if s.color.Some? then s.color.value else c, s.hue, s.saturation, s.value, s.alpha)
    else c
  }

  /** The actions of a block, in the order they run. */
  function Actions<A>(b: Block<A>): seq<A>
    decreases b
  {
    match b
    case Do(a) => [a]
    case Seq(bs) => ActionsSeq(bs)
    case With(_, body) => Actions(body)
  }

  function ActionsSeq<A>(bs: seq<Block<A>>): seq<A>
    decreases bs
  {
    if bs == [] then [] else ActionsSeq(bs[..|bs| - 1]) + Actions(bs[|bs| - 1])
  }

  /** The matrix in force at each action of `b` when `b` starts under `m`. */
  function Frames<A>(b: Block<A>, m: Matrix): (fs: seq<Matrix>)
    decreases b
    ensures |fs| == |Actions(b)|
  {
    match b
    case Do(_) => [m]
    case Seq(bs) => FramesSeq(bs, m)
    case With(s, body) => Frames(body, MatrixIn(m, s))
  }

  function FramesSeq<A>(bs: seq<Block<A>>, m: Matrix): (fs: seq<Matrix>)
    decreases bs
    ensures |fs| == |ActionsSeq(bs)|
  {
    if bs == [] then [] else FramesSeq(bs[..|bs| - 1], m) + Frames(bs[|bs| - 1], m)
  }

  /** Every action of `b` satisfies `p`. */
  predicate Every<A>(b: Block<A>, p: A -> bool)
    decreases b
  {
    match b
    case Do(a) => p(a)
    case Seq(bs) => forall i :: 0 <= i < |bs| ==> Every(bs[i], p)
    case With(_, body) => Every(body, p)
  }

  /** Some colour scope in `b` passes an explicit base colour. */
  predicate SetsColor<A>(b: Block<A>)
    decreases b
  {
    match b
    case Do(_) => false
    case Seq(bs) => exists i :: 0 <= i < |bs| && SetsColor(bs[i])
    case With(s, body) => (s.Recolor? && s.color.Some?) || SetsColor(body)
  }

  /**
   * Every action runs under the matrix it was started with, times the
   * operators of the scopes around it, outermost first: the matrix in force
   * always extends the one the block started with.
   */
  lemma {:induction false} FramesExtend<A>(b: Block<A>, m: Matrix)
    ensures forall f :: f in Frames(b, m) ==> Extends(f, m)
    decreases b
  {
    match b
    case Do(_) =>
    case Seq(bs) => FramesSeqExtend(bs, m);
    case With(s, body) =>
      var inner := MatrixIn(m, s);
      FramesExtend(body, inner);
      forall f | f in Frames(body, inner) ensures Extends(f, m) {
        assert f[..|inner|] == inner;
        assert inner[..|m|] == m;
        assert f[..|m|] == f[..|inner|][..|m|];
      }
  }

  lemma {:induction false} FramesSeqExtend<A>(bs: seq<Block<A>>, m: Matrix)
    ensures forall f :: f in FramesSeq(bs, m) ==> Extends(f, m)
    decreases bs
  {
    if bs != [] {
      FramesSeqExtend(bs[..|bs| - 1], m);
      FramesExtend(bs[|bs| - 1], m);
    }
  }

  /** Unfolding the sequence functions at a prefix one statement longer. */
  lemma SeqStep<A>(bs: seq<Block<A>>, i: nat, m: Matrix)
    requires i < |bs|
    ensures ActionsSeq(bs[..i + 1]) == ActionsSeq(bs[..i]) + Actions(bs[i])
    ensures FramesSeq(bs[..i + 1], m) == FramesSeq(bs[..i], m) + Frames(bs[i], m)
  {
    assert bs[..i + 1][..i] == bs[..i];
  }
}
