/**
 * The mesh-cache key. algorist/mesh_factory.py and both Context classes key a
 * primitive by `(name, tuple(sorted(kwargs.items())))`; algorist/blender.py by
 * `(name, tuple(sorted(itertools.chain(args, kwargs.items()))))`. Keyword items
 * compare by name first, and the names of one call are distinct, so their
 * values are never compared.
 */
module Keys {
  import opened Wrappers
  import opened Sorting

  /** A keyword argument's value: a float, an int, a string or a tuple of floats. */
  datatype Value = Num(x: real) | Count(n: int) | Text(s: string) | Vector(xs: seq<real>)

  type Item = (string, Value)

  /** An element of the key's tuple: a positional argument or a keyword item. */
  datatype Part = Arg(x: real) | Kw(name: string, value: Value)

  datatype Key = Key(name: string, parts: seq<Part>)

  /** `sorted` meets a float and a tuple: a TypeError. */
  datatype SortError = Unorderable

  /** Python's `<` on strings: code point by code point, a proper prefix first. */
  predicate StrLt(a: string, b: string)
    decreases |a|
  {
    if a == [] then b != []
    else if b == [] then false
    else if a[0] != b[0] then a[0] < b[0]
    else StrLt(a[1..], b[1..])
  }

  lemma {:induction false} StrLtIrreflexive(a: string)
    ensures !StrLt(a, a)
    decreases |a|
  {
    if a != [] { StrLtIrreflexive(a[1..]); }
  }

  lemma {:induction false} StrLtTransitive(a: string, b: string, c: string)
    requires StrLt(a, b) && StrLt(b, c)
    ensures StrLt(a, c)
    decreases |a|
  {
    if a != [] && b != [] && c != [] && a[0] == b[0] == c[0] {
      StrLtTransitive(a[1..], b[1..], c[1..]);
    }
  }

  lemma {:induction false} StrLtTotal(a: string, b: string)
    requires a != b
    ensures StrLt(a, b) || StrLt(b, a)
    decreases |a|
  {
    if a != [] && b != [] && a[0] == b[0] {
      assert a == [a[0]] + a[1..] && b == [b[0]] + b[1..];
      StrLtTotal(a[1..], b[1..]);
    }
  }

  /** The order `sorted` uses on keyword items of one call: by name. */
  function ItemLt(p: Item, q: Item): bool
  {
    StrLt(p.0, q.0)
  }

  function RealLt(x: real, y: real): bool
  {
    x < y
  }

  lemma ItemLtStrict()
    ensures StrictOrder(ItemLt)
  {
    forall a: Item ensures !ItemLt(a, a) {
      StrLtIrreflexive(a.0);
    }
    forall a: Item, b: Item, c: Item | ItemLt(a, b) && ItemLt(b, c) ensures ItemLt(a, c) {
      StrLtTransitive(a.0, b.0, c.0);
    }
  }

  /** The keyword names of one call are distinct: they come from a dict. */
  predicate DistinctNames(kwargs: seq<Item>)
  {
    forall i, j :: 0 <= i < j < |kwargs| ==> kwargs[i].0 != kwargs[j].0
  }

  lemma ItemLtTotal(kwargs: seq<Item>)
    requires DistinctNames(kwargs)
    ensures TotalOn(ItemLt, kwargs)
  {
    forall x, y | x in kwargs && y in kwargs && x != y ensures ItemLt(x, y) || ItemLt(y, x) {
      var i :| 0 <= i < |kwargs| && kwargs[i] == x;
      var j :| 0 <= j < |kwargs| && kwargs[j] == y;
      assert x.0 != y.0 by {
        if i < j { assert kwargs[i].0 != kwargs[j].0; } else { assert kwargs[j].0 != kwargs[i].0; }
      }
      StrLtTotal(x.0, y.0);
    }
  }

  function Keywords(items: seq<Item>): (ps: seq<Part>)
    ensures |ps| == |items|
  {
    seq(|items|, i requires 0 <= i < |items| => Kw(items[i].0, items[i].1))
  }

  function Positionals(xs: seq<real>): (ps: seq<Part>)
    ensures |ps| == |xs|
  {
    seq(|xs|, i requires 0 <= i < |xs| => Arg(xs[i]))
  }

  lemma KeywordsInjective(a: seq<Item>, b: seq<Item>)
    requires Keywords(a) == Keywords(b)
    ensures a == b
  {
    forall i | 0 <= i < |a| ensures a[i] == b[i] {
      assert Keywords(a)[i] == Keywords(b)[i];
    }
  }

  lemma PositionalsInjective(a: seq<real>, b: seq<real>)
    requires Positionals(a) == Positionals(b)
    ensures a == b
  {
    forall i | 0 <= i < |a| ensures a[i] == b[i] {
      assert Positionals(a)[i] == Positionals(b)[i];
    }
  }

  /** The key of mesh_factory.py, contextfree.py and cfdg.py. */
  function MeshKey(name: string, kwargs: seq<Item>): Key
  {
    Key(name, Keywords(Sort(kwargs, ItemLt)))
  }

  /**
   * Two calls get the same key exactly when they name the same shape and pass
   * the same keyword arguments, in whatever order.
   */
  lemma MeshKeyEquality(n1: string, k1: seq<Item>, n2: string, k2: seq<Item>)
    requires DistinctNames(k1) && DistinctNames(k2)
    ensures MeshKey(n1, k1) == MeshKey(n2, k2) <==> n1 == n2 && multiset(k1) == multiset(k2)
  {
    if MeshKey(n1, k1) == MeshKey(n2, k2) {
      KeywordsInjective(Sort(k1, ItemLt), Sort(k2, ItemLt));
      SortPermutes(k1, ItemLt);
      SortPermutes(k2, ItemLt);
    }
    if multiset(k1) == multiset(k2) {
      ItemLtStrict();
      ItemLtTotal(k1);
      SortOfPermutation(k1, k2, ItemLt);
    }
  }

  /**
   * The key of blender.py's `MeshFactory.create`. Positional arguments (floats
   * in this model) and keyword items are sorted together, which Python refuses
   * as soon as both kinds are present.
   */
  function ChainKey(name: string, args: seq<real>, kwargs: seq<Item>): (r: Result<Key, SortError>)
    ensures r.Failure? <==> args != [] && kwargs != []
    ensures args == [] ==> r == Success(MeshKey(name, kwargs))
    ensures kwargs == [] ==> r == Success(Key(name, Positionals(Sort(args, RealLt))))
  {
    if args != [] && kwargs != [] then Failure(Unorderable)
    else
      var ps := Positionals(Sort(args, RealLt));
      var ks := Keywords(Sort(kwargs, ItemLt));
      assert args == [] ==> ps + ks == ks;
      assert kwargs == [] ==> ps + ks == ps;
      Success(Key(name, ps + ks))
  }

  /**
   * With positional arguments only, two calls share a key exactly when they
   * pass the same arguments in any order: the position of an argument is lost.
   */
  lemma ChainKeyIgnoresPositions(name: string, a1: seq<real>, a2: seq<real>)
    ensures ChainKey(name, a1, []) == ChainKey(name, a2, []) <==> multiset(a1) == multiset(a2)
  {
    var s1, s2 := Sort(a1, RealLt), Sort(a2, RealLt);
    assert Sort([], ItemLt) == [];
    assert ChainKey(name, a1, []) == Success(Key(name, Positionals(s1))) by {
      assert Positionals(s1) + Keywords([]) == Positionals(s1);
    }
    assert ChainKey(name, a2, []) == Success(Key(name, Positionals(s2))) by {
      assert Positionals(s2) + Keywords([]) == Positionals(s2);
    }
    if Positionals(s1) == Positionals(s2) {
      PositionalsInjective(s1, s2);
      SortPermutes(a1, RealLt);
      SortPermutes(a2, RealLt);
    }
    if multiset(a1) == multiset(a2) {
      assert StrictOrder(RealLt);
      assert TotalOn(RealLt, a1);
      SortOfPermutation(a1, a2, RealLt);
    }
  }
}
