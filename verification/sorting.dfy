/**
 * Python's `sorted`, for the element types the cache keys sort: an insertion
 * sort by a strict order `lt`, and the facts the keys need about it: the
 * result is ordered, is a permutation of the input, and is the only ordered
 * permutation when `lt` is total on the elements.
 */
module Sorting {

  ghost predicate StrictOrder<T(!new)>(lt: (T, T) -> bool)
  {
    && (forall a :: !lt(a, a))
    && (forall a, b, c :: lt(a, b) && lt(b, c) ==> lt(a, c))
  }

  /** Any two different elements of `s` are comparable. */
  ghost predicate TotalOn<T>(lt: (T, T) -> bool, s: seq<T>)
  {
    forall x, y :: x in s && y in s && x != y ==> lt(x, y) || lt(y, x)
  }

  predicate SortedBy<T>(s: seq<T>, lt: (T, T) -> bool)
  {
    forall i, j :: 0 <= i < j < |s| ==> !lt(s[j], s[i])
  }

  /** Put `x` in front of the first element it is not above. */
  function Insert<T>(x: T, s: seq<T>, lt: (T, T) -> bool): seq<T>
  {
    if s == [] then [x]
    else if lt(s[0], x) then [s[0]] + Insert(x, s[1..], lt)
    else [x] + s
  }

  function Sort<T>(s: seq<T>, lt: (T, T) -> bool): seq<T>
  {
    if s == [] then [] else Insert(s[0], Sort(s[1..], lt), lt)
  }

  lemma {:induction false} InsertPermutes<T>(x: T, s: seq<T>, lt: (T, T) -> bool)
    ensures multiset(Insert(x, s, lt)) == multiset(s) + multiset{x}
  {
    if s != [] && lt(s[0], x) {
      InsertPermutes(x, s[1..], lt);
      assert s == [s[0]] + s[1..];
    }
  }

  lemma {:induction false} SortPermutes<T>(s: seq<T>, lt: (T, T) -> bool)
    ensures multiset(Sort(s, lt)) == multiset(s)
  {
    if s != [] {
      SortPermutes(s[1..], lt);
      InsertPermutes(s[0], Sort(s[1..], lt), lt);
      assert s == [s[0]] + s[1..];
    }
  }

  /** Inserting an element that is not below `lo` into elements that are not below `lo` gives such elements. */
  lemma InsertKeepsBound<T>(x: T, s: seq<T>, lo: T, lt: (T, T) -> bool)
    requires !lt(x, lo) && forall k :: 0 <= k < |s| ==> !lt(s[k], lo)
    ensures forall j :: 0 <= j < |Insert(x, s, lt)| ==> !lt(Insert(x, s, lt)[j], lo)
  {
    var r := Insert(x, s, lt);
    InsertPermutes(x, s, lt);
    forall j | 0 <= j < |r| ensures !lt(r[j], lo) {
      assert r[j] in multiset(r);
      if r[j] != x {
        assert r[j] in multiset(s);
        var k :| 0 <= k < |s| && s[k] == r[j];
      }
    }
  }

  lemma {:induction false} InsertSorted<T(!new)>(x: T, s: seq<T>, lt: (T, T) -> bool)
    requires StrictOrder(lt) && SortedBy(s, lt) && TotalOn(lt, [x] + s)
    ensures SortedBy(Insert(x, s, lt), lt)
  {
    if s == [] {
    } else if lt(s[0], x) {
      assert TotalOn(lt, [x] + s[1..]) by {
        forall y | y in [x] + s[1..] ensures y in [x] + s {
          if y != x { assert y in s[1..]; }
        }
      }
      InsertSorted(x, s[1..], lt);
      forall k | 0 <= k < |s[1..]| ensures !lt(s[1..][k], s[0]) {
        assert s[1..][k] == s[k + 1];
      }
      InsertKeepsBound(x, s[1..], s[0], lt);
      assert Insert(x, s, lt) == [s[0]] + Insert(x, s[1..], lt);
    } else {
      forall k | 0 <= k < |s| ensures !lt(s[k], x) {
        if k > 0 {
          assert !lt(s[k], s[0]);
          if x != s[0] {
            assert x in [x] + s && s[0] in [x] + s;
            assert lt(x, s[0]);
          }
        }
      }
    }
  }

  lemma {:induction false} SortSorted<T(!new)>(s: seq<T>, lt: (T, T) -> bool)
    requires StrictOrder(lt) && TotalOn(lt, s)
    ensures SortedBy(Sort(s, lt), lt)
  {
    if s != [] {
      assert TotalOn(lt, s[1..]) by {
        forall y | y in s[1..] ensures y in s { }
      }
      SortSorted(s[1..], lt);
      SortPermutes(s[1..], lt);
      assert TotalOn(lt, [s[0]] + Sort(s[1..], lt)) by {
        forall y | y in [s[0]] + Sort(s[1..], lt) ensures y in s {
          if y != s[0] {
            assert y in multiset(Sort(s[1..], lt));
            assert y in s[1..];
          }
        }
      }
      InsertSorted(s[0], Sort(s[1..], lt), lt);
    }
  }

  lemma SortedTail<T>(s: seq<T>, lt: (T, T) -> bool)
    requires s != [] && SortedBy(s, lt)
    ensures SortedBy(s[1..], lt)
  {
    forall i, j | 0 <= i < j < |s| - 1 ensures !lt(s[1..][j], s[1..][i]) {
      assert s[1..][j] == s[j + 1] && s[1..][i] == s[i + 1];
    }
  }

  lemma SortedHeadsEqual<T>(a: seq<T>, b: seq<T>, lt: (T, T) -> bool)
    requires a != [] && SortedBy(a, lt) && SortedBy(b, lt)
    requires multiset(a) == multiset(b) && TotalOn(lt, a)
    ensures b != [] && a[0] == b[0]
  {
    assert a[0] in multiset(b);
    var k :| 0 <= k < |b| && b[k] == a[0];
    assert b[0] in multiset(a);
    var m :| 0 <= m < |a| && a[m] == b[0];
    assert m == 0 || !lt(b[0], a[0]);
    assert k == 0 || !lt(a[0], b[0]);
    assert a[0] in a && b[0] in a;
  }

  /** Two ordered sequences with the same elements, under an order total on them, are equal. */
  lemma {:induction false} SortedUnique<T>(a: seq<T>, b: seq<T>, lt: (T, T) -> bool)
    requires SortedBy(a, lt) && SortedBy(b, lt)
    requires multiset(a) == multiset(b) && TotalOn(lt, a)
    ensures a == b
  {
    if a == [] {
      assert |b| == |multiset(b)| == 0;
    } else {
      SortedHeadsEqual(a, b, lt);
      assert multiset(a[1..]) == multiset(b[1..]) by {
        TailMultiset(a);
        TailMultiset(b);
      }
      SortedTail(a, lt);
      SortedTail(b, lt);
      TotalOnTail(a, lt);
      SortedUnique(a[1..], b[1..], lt);
      assert a == [a[0]] + a[1..] && b == [b[0]] + b[1..];
    }
  }

  lemma TailMultiset<T>(s: seq<T>)
    requires s != []
    ensures multiset(s[1..]) == multiset(s) - multiset{s[0]}
  {
    assert s == [s[0]] + s[1..];
  }

  lemma TotalOnTail<T>(s: seq<T>, lt: (T, T) -> bool)
    requires s != [] && TotalOn(lt, s)
    ensures TotalOn(lt, s[1..])
  {
    forall y | y in s[1..] ensures y in s { }
  }

  /** `Sort` is the only ordered permutation: any permutation of `s` sorts to the same sequence. */
  lemma SortOfPermutation<T(!new)>(s: seq<T>, t: seq<T>, lt: (T, T) -> bool)
    requires StrictOrder(lt) && TotalOn(lt, s) && multiset(s) == multiset(t)
    ensures Sort(s, lt) == Sort(t, lt)
  {
    assert TotalOn(lt, t) by {
      forall y | y in t ensures y in s { assert y in multiset(t); }
    }
    SortSorted(s, lt);
    SortSorted(t, lt);
    SortPermutes(s, lt);
    SortPermutes(t, lt);
    assert TotalOn(lt, Sort(s, lt)) by {
      forall y | y in Sort(s, lt) ensures y in s { assert y in multiset(Sort(s, lt)); }
    }
    SortedUnique(Sort(s, lt), Sort(t, lt), lt);
  }
}
