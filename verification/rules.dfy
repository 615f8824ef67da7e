/**
 * The weighted rule registry of algorist/rules.py (repeated in
 * algorist/decorator.py and owned by each Context of algorist/contextfree.py
 * and algorist/cfdg.py). Decorating a function with `rule(weight)` appends
 * `(last cumulative weight + weight, func)` to the list kept under the
 * function's `__name__`; calling the returned wrapper looks the name up again
 * and lets `random.choices(funcs, cum_weights=...)` pick one variant. The
 * random draw is a parameter; the pick is CPython's `bisect_right` over the
 * cumulative weights, searched in `[0, n - 1)`.
 */
module Rules {
  import opened Wrappers
  import opened Random

  /** A decorated function: its `__name__` and an identity telling same-named functions apart. */
  datatype Production = Production(name: string, id: nat)

  /** One application of `rule(weight)` to `func`. */
  datatype Registration = Registration(weight: real, func: Production)

  /** An entry of a rule's list: the cumulative weight and the function. */
  datatype Variant = Variant(cumWeight: real, func: Production)

  type Table = map<string, seq<Variant>>

  /** The wrapper `rule` returns: it carries the name and nothing else. */
  datatype RuleHandle = RuleHandle(name: string)

  /** `KeyError` for an unknown name; `ValueError` from `random.choices` for a total <= 0. */
  datatype DispatchError = UnknownRule(name: string) | NonPositiveTotal

  /** The weights of `rs` added up left to right. */
  function Total(rs: seq<Registration>): real
  {
    if rs == [] then 0.0 else Total(rs[..|rs| - 1]) + rs[|rs| - 1].weight
  }

  /** The list a rule should hold for the registrations `rs` of its name: prefix sums of the weights. */
  function Cumulate(rs: seq<Registration>): (vs: seq<Variant>)
    ensures |vs| == |rs|
    ensures forall i :: 0 <= i < |rs| ==> vs[i].func == rs[i].func
    ensures rs != [] ==> vs[|rs| - 1].cumWeight == Total(rs)
  {
    assert rs[..|rs|] == rs;
    seq(|rs|, i requires 0 <= i < |rs| => Variant(Total(rs[..i + 1]), rs[i].func))
  }

  /** The registrations of `h` whose function is called `name`, in order. */
  function Grouped(h: seq<Registration>, name: string): seq<Registration>
  {
    if h == [] then []
    else Grouped(h[..|h| - 1], name) + (if h[|h| - 1].func.name == name then [h[|h| - 1]] else [])
  }

  function Names(h: seq<Registration>): set<string>
  {
    set i | 0 <= i < |h| :: h[i].func.name
  }

  /**
   * The table a history of registrations leaves behind, described without the
   * update: every registered name maps to the prefix sums of its own
   * registrations.
   */
  function GroupedTable(h: seq<Registration>): Table
  {
    map n | n in Names(h) :: Cumulate(Grouped(h, n))
  }

  function CumWeights(vs: seq<Variant>): (cum: seq<real>)
    ensures |cum| == |vs|
    ensures forall i :: 0 <= i < |vs| ==> cum[i] == vs[i].cumWeight
  {
    seq(|vs|, i requires 0 <= i < |vs| => vs[i].cumWeight)
  }

  predicate NonDecreasing(a: seq<real>)
  {
    forall i, j :: 0 <= i < j < |a| ==> a[i] <= a[j]
  }

  /** A name that was registered has a non-empty list of variants. */
  lemma {:induction false} GroupedNonEmpty(h: seq<Registration>, name: string)
    requires name in Names(h)
    ensures Grouped(h, name) != []
    decreases |h|
  {
    var last := h[|h| - 1];
    if last.func.name != name {
      var i :| 0 <= i < |h| && h[i].func.name == name;
      assert h[..|h| - 1][i] == h[i];
      GroupedNonEmpty(h[..|h| - 1], name);
    }
  }

  lemma TableNonEmpty(h: seq<Registration>, name: string)
    requires name in GroupedTable(h)
    ensures GroupedTable(h)[name] != []
  {
    GroupedNonEmpty(h, name);
  }

  lemma TotalStep(rs: seq<Registration>, r: Registration)
    ensures Total(rs + [r]) == Total(rs) + r.weight
  {
    assert (rs + [r])[..|rs|] == rs;
  }

  /** Appending one registration appends one variant whose cumulative weight extends the last one. */
  lemma CumulateStep(rs: seq<Registration>, r: Registration)
    ensures Cumulate(rs + [r]) ==
      Cumulate(rs) + [Variant((if rs == [] then 0.0 else Cumulate(rs)[|rs| - 1].cumWeight) + r.weight, r.func)]
  {
    var t := rs + [r];
    forall i | 0 <= i < |rs| ensures Cumulate(t)[i] == Cumulate(rs)[i] {
      assert t[..i + 1] == rs[..i + 1];
    }
    assert t[..|t|] == t;
    TotalStep(rs, r);
  }

  lemma NamesStep(h: seq<Registration>, r: Registration)
    ensures Names(h + [r]) == Names(h) + {r.func.name}
  {
    var h' := h + [r];
    forall n | n in Names(h') ensures n in Names(h) + {r.func.name} {
      var i :| 0 <= i < |h'| && h'[i].func.name == n;
      if i < |h| { assert h[i].func.name == n; }
    }
    forall n | n in Names(h) ensures n in Names(h') {
      var i :| 0 <= i < |h| && h[i].func.name == n;
      assert h'[i].func.name == n;
    }
    assert h'[|h|].func.name == r.func.name;
  }

  lemma GroupedStep(h: seq<Registration>, r: Registration, name: string)
    ensures Grouped(h + [r], name) == Grouped(h, name) + (if r.func.name == name then [r] else [])
  {
    assert (h + [r])[..|h|] == h;
  }

  lemma TableKeys(h: seq<Registration>)
    ensures GroupedTable(h).Keys == Names(h)
  {
  }

  lemma TableStepAt(h: seq<Registration>, r: Registration, n: string)
    requires n in Names(h + [r])
    ensures n != r.func.name ==> n in Names(h) && GroupedTable(h + [r])[n] == GroupedTable(h)[n]
    ensures n == r.func.name ==> GroupedTable(h + [r])[n] == Cumulate(Grouped(h, n) + [r])
  {
    NamesStep(h, r);
    GroupedStep(h, r, n);
    var g' := Grouped(h + [r], n);
    assert GroupedTable(h + [r])[n] == Cumulate(g');
    if n != r.func.name {
      assert n in Names(h);
      assert g' == Grouped(h, n);
    }
  }

  /**
   * The update `rule(weight)(func)` makes: a new name gets the one-entry list
   * `[(weight, func)]`, a known name gets `(last cumulative + weight, func)`
   * appended, and no other name changes.
   */
  function Appended(t: Table, weight: real, func: Production): (t': Table)
    requires func.name in t ==> t[func.name] != []
    ensures t'.Keys == t.Keys + {func.name}
    ensures WellFormed(t) ==> WellFormed(t')
    ensures forall n :: n in t && n != func.name ==> t'[n] == t[n]
    ensures func.name !in t ==> t'[func.name] == [Variant(weight, func)]
    ensures func.name in t ==>
      var vs := t[func.name];
      t'[func.name] == vs + [Variant(vs[|vs| - 1].cumWeight + weight, func)]
  {
    var name := func.name;
    var variants := if name in t then t[name] else [];
    var lastWeight := if name in t then variants[|variants| - 1].cumWeight else 0.0;
    t[name := variants + [Variant(lastWeight + weight, func)]]
  }

  /** Every list in the table has at least one variant. */
  predicate WellFormed(t: Table)
  {
    forall n :: n in t ==> t[n] != []
  }

  /** The table that registering `h` one by one, from an empty table, leaves behind. */
  function TableOf(h: seq<Registration>): (t: Table)
    ensures WellFormed(t)
  {
    if h == [] then map[]
    else Appended(TableOf(h[..|h| - 1]), h[|h| - 1].weight, h[|h| - 1].func)
  }

  /** The registrations made one by one leave exactly the grouped prefix sums. */
  lemma {:induction false} TableMatchesGrouping(h: seq<Registration>)
    ensures TableOf(h) == GroupedTable(h)
    decreases |h|
  {
    if h == [] {
      assert GroupedTable(h) == map[];
    } else {
      var p, r := h[..|h| - 1], h[|h| - 1];
      assert h == p + [r];
      TableMatchesGrouping(p);
      RegistrationStep(p, r);
    }
  }

  /**
   * Registering one more function takes the grouped table of a history to the
   * grouped table of the extended history.
   */
  lemma RegistrationStep(h: seq<Registration>, r: Registration)
    ensures r.func.name in GroupedTable(h) ==> GroupedTable(h)[r.func.name] != []
    ensures GroupedTable(h + [r]) == Appended(GroupedTable(h), r.weight, r.func)
  {
    if r.func.name in GroupedTable(h) {
      TableNonEmpty(h, r.func.name);
    }
    var t, t' := GroupedTable(h), GroupedTable(h + [r]);
    var a := Appended(t, r.weight, r.func);
    assert t'.Keys == a.Keys by {
      NamesStep(h, r);
      TableKeys(h);
      TableKeys(h + [r]);
    }
    forall n | n in t' ensures t'[n] == a[n] {
      RegistrationStepAt(h, r, n);
    }
    TablesAgree(t', a);
  }

  /** Two tables with the same names and the same list under each name are equal. */
  lemma TablesAgree(t: Table, u: Table)
    requires t.Keys == u.Keys
    requires forall n :: n in t ==> t[n] == u[n]
    ensures t == u
  {
  }

  lemma RegistrationStepAt(h: seq<Registration>, r: Registration, n: string)
    requires r.func.name in GroupedTable(h) ==> GroupedTable(h)[r.func.name] != []
    requires n in GroupedTable(h + [r])
    ensures GroupedTable(h + [r])[n] == Appended(GroupedTable(h), r.weight, r.func)[n]
  {
    TableKeys(h + [r]);
    if n != r.func.name {
      OtherNameAt(h, r, n);
    } else if n in GroupedTable(h) {
      KnownNameAt(h, r);
    } else {
      NewNameAt(h, r);
    }
  }

  lemma OtherNameAt(h: seq<Registration>, r: Registration, n: string)
    requires r.func.name in GroupedTable(h) ==> GroupedTable(h)[r.func.name] != []
    requires n in Names(h + [r]) && n != r.func.name
    ensures n in GroupedTable(h + [r])
    ensures GroupedTable(h + [r])[n] == Appended(GroupedTable(h), r.weight, r.func)[n]
  {
    TableKeys(h);
    TableKeys(h + [r]);
    TableStepAt(h, r, n);
    AppendedAt(GroupedTable(h), r.weight, r.func, n);
  }

  lemma KnownNameAt(h: seq<Registration>, r: Registration)
    requires r.func.name in GroupedTable(h) && GroupedTable(h)[r.func.name] != []
    ensures r.func.name in GroupedTable(h + [r])
    ensures GroupedTable(h + [r])[r.func.name] == Appended(GroupedTable(h), r.weight, r.func)[r.func.name]
  {
    var name := r.func.name;
    var g := Grouped(h, name);
    assert name in GroupedTable(h + [r]) && GroupedTable(h + [r])[name] == Cumulate(g + [r]) by {
      NamesStep(h, r);
      TableKeys(h + [r]);
      TableStepAt(h, r, name);
    }
    assert g != [];
    KnownNameGrows(GroupedTable(h), GroupedTable(h + [r]), g, r);
  }

  /** Under a name that is already there, the grown list is the old one with one more variant. */
  lemma KnownNameGrows(t: Table, t': Table, g: seq<Registration>, r: Registration)
    requires r.func.name in t && t[r.func.name] == Cumulate(g) && g != []
    requires r.func.name in t' && t'[r.func.name] == Cumulate(g + [r])
    ensures t'[r.func.name] == Appended(t, r.weight, r.func)[r.func.name]
  {
    CumulateStep(g, r);
  }

  lemma NewNameAt(h: seq<Registration>, r: Registration)
    requires r.func.name !in GroupedTable(h)
    ensures r.func.name in GroupedTable(h + [r])
    ensures GroupedTable(h + [r])[r.func.name] == Appended(GroupedTable(h), r.weight, r.func)[r.func.name]
  {
    TableKeys(h + [r]);
    NamesStep(h, r);
    TableStepAt(h, r, r.func.name);
    NewNameStep(h, r);
    AppendedAt(GroupedTable(h), r.weight, r.func, r.func.name);
  }

  lemma AppendedAt(t: Table, weight: real, func: Production, n: string)
    requires func.name in t ==> t[func.name] != []
    ensures n != func.name && n in t ==> Appended(t, weight, func)[n] == t[n]
    ensures n == func.name && n in t ==>
      Appended(t, weight, func)[n] == t[n] + [Variant(t[n][|t[n]| - 1].cumWeight + weight, func)]
    ensures n == func.name && n !in t ==> Appended(t, weight, func)[n] == [Variant(weight, func)]
  {
  }

  lemma NewNameStep(h: seq<Registration>, r: Registration)
    requires r.func.name !in GroupedTable(h)
    ensures Cumulate(Grouped(h, r.func.name) + [r]) == [Variant(r.weight, r.func)]
  {
    var name := r.func.name;
    var g := Grouped(h, name);
    assert g == [] by {
      if g != [] { GroupedMember(h, name); }
    }
    CumulateStep(g, r);
    assert g + [r] == [r];
  }

  lemma {:induction false} GroupedMember(h: seq<Registration>, name: string)
    requires Grouped(h, name) != []
    ensures name in Names(h)
    decreases |h|
  {
    if h[|h| - 1].func.name != name {
      GroupedMember(h[..|h| - 1], name);
      var i :| 0 <= i < |h| - 1 && h[..|h| - 1][i].func.name == name;
      assert h[i].func.name == name;
    }
  }

  lemma PrefixTotalStep(rs: seq<Registration>, j: int)
    requires 0 <= j < |rs|
    ensures Total(rs[..j + 1]) == Total(rs[..j]) + rs[j].weight
  {
    assert rs[..j + 1][..j] == rs[..j];
  }

  /** With positive weights the cumulative weights strictly increase. */
  lemma {:induction false} CumulativeIncreasing(rs: seq<Registration>, i: int, j: int)
    requires forall k :: 0 <= k < |rs| ==> rs[k].weight > 0.0
    requires 0 <= i < j < |rs|
    ensures Cumulate(rs)[i].cumWeight < Cumulate(rs)[j].cumWeight
    decreases j - i
  {
    PrefixTotalStep(rs, j);
    if i < j - 1 {
      CumulativeIncreasing(rs, i, j - 1);
    }
  }

  lemma CumulateIncreases(rs: seq<Registration>)
    requires forall k :: 0 <= k < |rs| ==> rs[k].weight > 0.0
    ensures forall i, j :: 0 <= i < j < |rs| ==> Cumulate(rs)[i].cumWeight < Cumulate(rs)[j].cumWeight
  {
    forall i, j | 0 <= i < j < |rs| ensures Cumulate(rs)[i].cumWeight < Cumulate(rs)[j].cumWeight {
      CumulativeIncreasing(rs, i, j);
    }
  }

  /** With weights that are not negative the cumulative weights never decrease. */
  lemma {:induction false} CumulativeNonDecreasing(rs: seq<Registration>, i: int, j: int)
    requires forall k :: 0 <= k < |rs| ==> rs[k].weight >= 0.0
    requires 0 <= i <= j < |rs|
    ensures Cumulate(rs)[i].cumWeight <= Cumulate(rs)[j].cumWeight
    decreases j - i
  {
    if i < j {
      PrefixTotalStep(rs, j);
      CumulativeNonDecreasing(rs, i, j - 1);
    }
  }

  lemma {:induction false} GroupedWeights(h: seq<Registration>, name: string)
    ensures forall r :: r in Grouped(h, name) ==> r in h && r.func.name == name
    decreases |h|
  {
    if h != [] {
      GroupedWeights(h[..|h| - 1], name);
    }
  }

  /** A name has a list exactly when some registered function bears it. */
  lemma TableNames(h: seq<Registration>, name: string)
    ensures name in TableOf(h) <==> exists i :: 0 <= i < |h| && h[i].func.name == name
  {
    TableMatchesGrouping(h);
  }

  lemma TableIsCumulated(h: seq<Registration>, name: string)
    requires name in TableOf(h)
    ensures TableOf(h)[name] == Cumulate(Grouped(h, name))
  {
    TableMatchesGrouping(h);
    assert name in Names(h);
  }

  lemma CumulateRunningSums(rs: seq<Registration>)
    ensures forall i :: 0 <= i < |rs| ==> Cumulate(rs)[i].cumWeight == Total(rs[..i + 1])
  {
  }

  /**
   * The rule table of a history groups the functions by name: the list of a
   * name holds that name's functions in registration order, with the running
   * sums of their weights, the last of which is the sum of all of them.
   */
  lemma TableGroupsByName(h: seq<Registration>, name: string)
    requires name in TableOf(h)
    ensures var vs, g := TableOf(h)[name], Grouped(h, name);
      |vs| == |g| > 0 &&
      (forall i :: 0 <= i < |g| ==> vs[i].func == g[i].func && g[i].func.name == name && g[i] in h) &&
      (forall i :: 0 <= i < |g| ==> vs[i].cumWeight == Total(g[..i + 1])) &&
      vs[|vs| - 1].cumWeight == Total(g)
  {
    var g := Grouped(h, name);
    var vs := TableOf(h)[name];
    TableIsCumulated(h, name);
    CumulateRunningSums(g);
    GroupedNonEmpty(h, name);
    GroupedWeights(h, name);
    forall i | 0 <= i < |g| ensures vs[i].func == g[i].func && g[i].func.name == name && g[i] in h {
      assert g[i] in g;
    }
  }

  /**
   * When every weight is positive, each rule's cumulative weights strictly
   * increase, and the last is the sum of the rule's weights.
   */
  lemma CumulativeWeightsIncrease(h: seq<Registration>, name: string)
    requires forall r :: r in h ==> r.weight > 0.0
    requires name in TableOf(h)
    ensures var vs := TableOf(h)[name];
      forall i, j :: 0 <= i < j < |vs| ==> vs[i].cumWeight < vs[j].cumWeight
    ensures var vs := TableOf(h)[name];
      vs != [] && vs[|vs| - 1].cumWeight == Total(Grouped(h, name))
  {
    TableGroupsByName(h, name);
    var vs, g := TableOf(h)[name], Grouped(h, name);
    TableIsCumulated(h, name);
    CumulateIncreases(g);
  }

  /** When no weight is negative, each rule's cumulative weights never decrease. */
  lemma CumulativeWeightsSorted(h: seq<Registration>, name: string)
    requires forall r :: r in h ==> r.weight >= 0.0
    requires name in TableOf(h)
    ensures NonDecreasing(CumWeights(TableOf(h)[name]))
  {
    var g := Grouped(h, name);
    TableIsCumulated(h, name);
    GroupedWeights(h, name);
    forall k | 0 <= k < |g| ensures g[k].weight >= 0.0 {
      assert g[k] in g;
    }
    var vs := Cumulate(g);
    forall i, j | 0 <= i < j < |vs| ensures CumWeights(vs)[i] <= CumWeights(vs)[j] {
      CumulativeNonDecreasing(g, i, j);
    }
  }

  /**
   * `bisect.bisect_right(a, x, 0, hi)`: a binary search for the first index at
   * which `x < a[index]`. On a list that never decreases the result splits
   * `a[..hi]` into the entries at most `x` and those above it.
   */
  method BisectRight(a: seq<real>, x: real, hi: int) returns (lo: int)
    requires 0 <= hi <= |a|
    ensures 0 <= lo <= hi
    ensures NonDecreasing(a) ==> forall k :: 0 <= k < lo ==> a[k] <= x
    ensures NonDecreasing(a) ==> forall k :: lo <= k < hi ==> x < a[k]
  {
    lo := 0;
    var top := hi;
    while lo < top
      invariant 0 <= lo <= top <= hi
      invariant NonDecreasing(a) ==> forall k :: 0 <= k < lo ==> a[k] <= x
      invariant NonDecreasing(a) ==> forall k :: top <= k < hi ==> x < a[k]
    {
      var mid := (lo + top) / 2;
      if x < a[mid] {
        top := mid;
      } else {
        lo := mid + 1;
      }
    }
  }

  /** Variant `i` owns the draws `x` from its predecessor's cumulative weight up to its own. */
  predicate Selects(cum: seq<real>, x: real, i: int)
  {
    0 <= i < |cum| && (i == 0 || cum[i - 1] <= x) && x < cum[i]
  }

  /**
   * What `bisect_right(cum, x, 0, n - 1)` finds on cumulative weights that never
   * decrease, for a draw below the total, is the variant that owns the draw.
   */
  lemma BisectSelects(cum: seq<real>, x: real, i: int)
    requires NonDecreasing(cum) && |cum| >= 1 && 0.0 <= x < cum[|cum| - 1]
    requires 0 <= i <= |cum| - 1
    requires forall k :: 0 <= k < i ==> cum[k] <= x
    requires forall k :: i <= k < |cum| - 1 ==> x < cum[k]
    ensures Selects(cum, x, i)
  {
    if i < |cum| - 1 {
      assert x < cum[i];
    }
    if i > 0 {
      assert cum[i - 1] <= x;
    }
  }

  /** On cumulative weights that never decrease, at most one variant owns a draw. */
  lemma SelectionIsUnique(cum: seq<real>, x: real, i: int, j: int)
    requires NonDecreasing(cum) && Selects(cum, x, i) && Selects(cum, x, j)
    ensures i == j
  {
  }

  /**
   * The outcome of `random.choices(funcs, cum_weights=...)[0](*args)` over the
   * variants `vs` for the draw `u`: a total weight <= 0 is a ValueError;
   * otherwise exactly one variant, the `chosen` one, is called with the
   * caller's arguments and its result returned, and when the cumulative
   * weights never decrease it is the variant that owns `random() * total`, the draw `Prnd(total, u)`.
   */
  ghost predicate Dispatched<A, V>(vs: seq<Variant>, u: real, args: A, call: (Production, A) -> V,
                                   r: Result<V, DispatchError>, chosen: int)
    requires vs != [] && 0.0 <= u < 1.0
  {
    var total := vs[|vs| - 1].cumWeight;
    (total <= 0.0 ==> r == Failure(NonPositiveTotal)) &&
    (total > 0.0 ==>
      0 <= chosen < |vs| && r == Success(call(vs[chosen].func, args)) &&
      (NonDecreasing(CumWeights(vs)) ==> Selects(CumWeights(vs), Prnd(total, u), chosen)))
  }

  /** The body of `_invoke_rule` after the lookup. */
  method Choose<A, V>(vs: seq<Variant>, u: real, args: A, call: (Production, A) -> V)
    returns (r: Result<V, DispatchError>, ghost chosen: int)
    requires vs != [] && 0.0 <= u < 1.0
    ensures r.Failure? <==> vs[|vs| - 1].cumWeight <= 0.0
    ensures r.Success? ==> exists i :: 0 <= i < |vs| && r.value == call(vs[i].func, args)
    ensures Dispatched(vs, u, args, call, r, chosen)
  {
    var cum := CumWeights(vs);
    var total := cum[|cum| - 1];
    if total <= 0.0 {
      return Failure(NonPositiveTotal), 0;
    }
    var x := Prnd(total, u);
    var i := BisectRight(cum, x, |cum| - 1);
    if NonDecreasing(cum) {
      BisectSelects(cum, x, i);
    }
    r, chosen := Success(call(vs[i].func, args)), i;
  }

  /** A rule table kept by the program: `_RULES`, or a Context's `_rules`. */
  class Registry {
    var table: Table
    /** The registrations made so far: not in the source, kept for the proofs. */
    ghost var history: seq<Registration>

    ghost predicate Valid()
      reads this
    {
      table == TableOf(history)
    }

    /** `_RULES = {}`. */
    constructor ()
      ensures Valid() && table == map[] && history == []
    {
      table := map[];
      history := [];
    }

    /**
     * `rule(weight)(func)`: registers `func` under its `__name__` and returns
     * the wrapper, which knows only the name.
     */
    method Rule(weight: real, func: Production) returns (handle: RuleHandle)
      requires Valid()
      modifies this
      ensures Valid() && history == old(history) + [Registration(weight, func)]
      ensures handle == RuleHandle(func.name)
      ensures func.name in old(table) ==> old(table)[func.name] != []
      ensures table == Appended(old(table), weight, func)
    {
      var name := func.name;
      ghost var reg := Registration(weight, func);
      ghost var extended := history + [reg];
      assert extended[..|history|] == history && extended[|history|] == reg;
      assert name in table ==> table[name] != [];
      assert TableOf(extended) == Appended(table, weight, func);
      var variants: seq<Variant>;
      var lastWeight: real;
      if name !in table {
        variants, lastWeight := [], 0.0;
      } else {
        variants := table[name];
        lastWeight := variants[|variants| - 1].cumWeight;
      }
      table := table[name := variants + [Variant(lastWeight + weight, func)]];
      assert table == Appended(old(table), weight, func);
      history := extended;
      handle := RuleHandle(name);
    }

    /**
     * `_invoke_rule(name, *args)` with the draw `u = random.random()`: an
     * unknown name is a KeyError; a known one is dispatched over its list.
     */
    method InvokeRule<A, V>(name: string, u: real, args: A, call: (Production, A) -> V)
      returns (r: Result<V, DispatchError>, ghost chosen: int)
      requires Valid() && 0.0 <= u < 1.0
      ensures name !in table ==> r == Failure(UnknownRule(name))
      ensures name in table ==> table[name] != [] && Dispatched(table[name], u, args, call, r, chosen)
    {
      if name !in table {
        return Failure(UnknownRule(name)), 0;
      }
      r, chosen := Choose(table[name], u, args, call);
    }
  }
}
