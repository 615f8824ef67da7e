/**
 * The recursion guard `limit` of algorist/core.py (repeated verbatim in
 * algorist/decorator.py and, reading the context's own matrix, in both Context
 * classes). Decorating a function creates a closure with two counters: `depth`,
 * the live nesting of guarded calls, and `objects`, the number of calls ever
 * attempted. A call raises both, then stops at the first of three soft limits
 * (depth, objects, minimum scale), runs the body only if none trips, and lowers
 * `depth` again.
 */
module Guard {
  import opened Wrappers

  const DefaultMaxDepth: int := 12
  const DefaultMaxObjects: int := 10000

  /** The per-axis scale of the inspected matrix, as `Matrix.to_scale()` decomposes it. */
  datatype Scale3 = Scale3(x: real, y: real, z: real)

  datatype Config = Config(maxDepth: int, maxObjects: int, minScale: Option<real>)

  /** The ValueError raised by `limit` itself, before any wrapper exists. */
  datatype ConfigError = MinScaleWithoutTransform

  /** `limit(max_depth, max_objects, min_scale, transform)` before it returns the decorator. */
  function Limit(maxDepth: int, maxObjects: int, minScale: Option<real>, hasTransform: bool)
    : (r: Result<Config, ConfigError>)
    ensures r.Failure? <==> minScale.Some? && !hasTransform
    ensures r.Success? ==> r.value.maxDepth == maxDepth && r.value.maxObjects == maxObjects
    ensures r.Success? ==> r.value.minScale == minScale
  {
    if !hasTransform && minScale.Some? then Failure(MinScaleWithoutTransform)
    else Success(Config(maxDepth, maxObjects, minScale))
  }

  /** Some scale component is at or below the configured minimum. */
  predicate BelowMinScale(minScale: Option<real>, s: Scale3)
  {
    minScale.Some? && (s.x <= minScale.value || s.y <= minScale.value || s.z <= minScale.value)
  }

  /** Which limit, if any, stops a call, given the counters after they were raised. */
  datatype Verdict = Run | TooDeep | TooMany | TooSmall

  /** The three checks in their fixed order; each one short-circuits the later ones. */
  function Check(c: Config, depth: int, objects: int, s: Scale3): (v: Verdict)
    ensures v == TooDeep <==> depth >= c.maxDepth
    ensures v == TooMany <==> depth < c.maxDepth && objects >= c.maxObjects
    ensures v == TooSmall <==> depth < c.maxDepth && objects < c.maxObjects && BelowMinScale(c.minScale, s)
    ensures v == Run <==> depth < c.maxDepth && objects < c.maxObjects && !BelowMinScale(c.minScale, s)
  {
    if depth >= c.maxDepth then TooDeep
    else if objects >= c.maxObjects then TooMany
    else if BelowMinScale(c.minScale, s) then TooSmall
    else Run
  }

  /**
   * What a guarded body does when it runs: the guarded calls it makes through
   * the same wrapper, in order (each with the scale in force when it is made),
   * and the value it returns.
   */
  datatype Invocation<V> = Invocation(scale: Scale3, nested: seq<Invocation<V>>, result: V)

  /**
   * How many nested levels run when the body does nothing but call its guarded
   * self again, starting from the counters `depth` and `objects`: the chain
   * stops at the first level where the raised depth or object count reaches its
   * limit, or at once when the scale is too small.
   */
  function ChainLength(c: Config, depth: int, objects: int, s: Scale3): nat
  {
    if BelowMinScale(c.minScale, s) then 0
    else
      var byDepth := c.maxDepth - 1 - depth;
      var byObjects := c.maxObjects - 1 - objects;
      var n := if byDepth < byObjects then byDepth else byObjects;
      if n < 0 then 0 else n
  }

  /**
   * A fresh guard whose object budget is not the binding limit lets a
   * self-recursive body run at exactly `max_depth - 1` levels.
   */
  lemma FreshChainStopsBelowMaxDepth(c: Config, s: Scale3)
    requires c.maxDepth >= 1 && c.maxObjects >= c.maxDepth && !BelowMinScale(c.minScale, s)
    ensures ChainLength(c, 0, 0, s) == c.maxDepth - 1
  {
  }

  /**
   * With the default limits (12 levels, 10000 objects) and no minimum scale, a
   * self-recursive body under a fresh guard runs at 11 levels.
   */
  lemma DefaultChainRunsElevenLevels(s: Scale3)
    ensures ChainLength(Config(DefaultMaxDepth, DefaultMaxObjects, None), 0, 0, s) == 11
  {
    FreshChainStopsBelowMaxDepth(Config(DefaultMaxDepth, DefaultMaxObjects, None), s);
  }

  /** Once the object count has reached its limit no later call runs its body. */
  lemma ExhaustedStaysExhausted(c: Config, objects: int, later: int, depth: int, s: Scale3)
    requires objects >= c.maxObjects && later >= objects
    ensures Check(c, depth, later, s) != Run
  {
  }

  /** The counters of one decorated function. */
  class Guard {
    const config: Config
    var depth: int
    var objects: int
    /** How many times the body has run: not in the source, kept for the proofs. */
    ghost var runs: nat

    /** The body never ran more often than calls were attempted, nor `max_objects - 1` times. */
    ghost predicate Valid()
      reads this
    {
      depth >= 0 && runs <= objects && (runs == 0 || runs < config.maxObjects)
    }

    /** `decorator(func)`: both counters start at zero. */
    constructor (config: Config)
      ensures Valid() && this.config == config
      ensures depth == 0 && objects == 0 && runs == 0
    {
      this.config := config;
      depth, objects, runs := 0, 0, 0;
    }

    /**
     * `wrapper(*args, **kwargs)` for a body described by `inv`. The result is
     * the body's value when no limit trips and `None` otherwise; `depth` is
     * back where it was and `objects` has grown.
     */
    method Call<V>(inv: Invocation<V>) returns (r: Option<V>)
      requires Valid()
      modifies this
      decreases inv
      ensures Valid()
      ensures depth == old(depth)
      ensures objects > old(objects)
      ensures runs >= old(runs) && runs - old(runs) <= objects - old(objects)
      ensures r.Some? <==> Check(config, old(depth) + 1, old(objects) + 1, inv.scale) == Run
      ensures r.Some? ==> r.value == inv.result
      ensures r.None? ==> runs == old(runs) && objects == old(objects) + 1
    {
      depth := depth + 1;
      objects := objects + 1;
      var verdict := Check(config, depth, objects, inv.scale);
      if verdict == Run {
        runs := runs + 1;
        var i := 0;
        while i < |inv.nested|
          invariant 0 <= i <= |inv.nested|
          invariant Valid() && depth == old(depth) + 1
          invariant objects > old(objects) && runs > old(runs)
          invariant runs - old(runs) <= objects - old(objects)
        {
          var _ := Call(inv.nested[i]);
          i := i + 1;
        }
        r := Some(inv.result);
      } else {
        r := None;
      }
      depth := depth - 1;
    }

    /**
     * `wrapper()` for a body that unconditionally calls its guarded self once
     * and does nothing else, at an unchanged scale. `ran` counts the levels at
     * which the body ran; `levels` lists their depths.
     */
    method CallSelf(s: Scale3) returns (ran: nat, ghost levels: seq<int>)
      requires Valid()
      modifies this
      decreases config.maxDepth - depth
      ensures Valid()
      ensures depth == old(depth)
      ensures ran == ChainLength(config, old(depth), old(objects), s)
      ensures objects == old(objects) + ran + 1 && runs == old(runs) + ran
      ensures |levels| == ran
      ensures forall i :: 0 <= i < ran ==> levels[i] == old(depth) + 1 + i < config.maxDepth
    {
      depth := depth + 1;
      objects := objects + 1;
      var verdict := Check(config, depth, objects, s);
      if verdict == Run {
        runs := runs + 1;
        var inner, innerLevels := CallSelf(s);
        ran, levels := inner + 1, [depth] + innerLevels;
      } else {
        ran, levels := 0, [];
      }
      depth := depth - 1;
    }
  }
}
