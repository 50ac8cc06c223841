/** Sequence and map helpers shared by every component.  The recursive definitions peel the last
    element, so that a loop which appends to its result can use them directly as an invariant. */
module Collections {

  datatype Option<+T> = None | Some(value: T)

  /** The elements of `xs` that satisfy `p`, in order. */
  function Filter<T>(xs: seq<T>, p: T -> bool): (r: seq<T>)
    ensures |r| <= |xs|
    ensures forall x :: x in r ==> x in xs && p(x)
    ensures forall x :: x in xs && p(x) ==> x in r
  {
    if xs == [] then []
    else
      var front := Filter(xs[..|xs| - 1], p);
      assert forall x :: x in xs ==> x in xs[..|xs| - 1] || x == xs[|xs| - 1];
      if p(xs[|xs| - 1]) then front + [xs[|xs| - 1]] else front
  }

  function Map<S, T>(xs: seq<S>, f: S -> T): (r: seq<T>)
    ensures |r| == |xs|
    ensures forall i :: 0 <= i < |xs| ==> r[i] == f(xs[i])
  {
    seq(|xs|, i requires 0 <= i < |xs| => f(xs[i]))
  }

  /** How many elements of `xs` satisfy `p`. */
  function Count<T>(xs: seq<T>, p: T -> bool): nat {
    if xs == [] then 0
    else Count(xs[..|xs| - 1], p) + (if p(xs[|xs| - 1]) then 1 else 0)
  }

  ghost predicate Distinct<T>(xs: seq<T>) {
    forall i, j :: 0 <= i < j < |xs| ==> xs[i] != xs[j]
  }

  function Take<T>(xs: seq<T>, limit: nat): seq<T> {
    if |xs| <= limit then xs else xs[..limit]
  }

  /** A map lookup that, like reading a missing key of a map of slices, yields the empty sequence. */
  function Bucket<K, T>(m: map<K, seq<T>>, k: K): seq<T> {
    if k in m then m[k] else []
  }

  function HasKey<K(==), T>(key: T -> K, k: K): T -> bool {
    (x: T) => key(x) == k
  }

  /** The map a loop `m[key(x)] = append(m[key(x)], x)` builds. */
  function GroupBy<K, T>(xs: seq<T>, key: T -> K): map<K, seq<T>> {
    if xs == [] then map[]
    else
      var m := GroupBy(xs[..|xs| - 1], key);
      var x := xs[|xs| - 1];
      m[key(x) := Bucket(m, key(x)) + [x]]
  }

  method BuildGroups<K(==), T>(xs: seq<T>, key: T -> K) returns (m: map<K, seq<T>>)
    ensures m == GroupBy(xs, key)
    ensures forall k :: Bucket(m, k) == Filter(xs, HasKey(key, k))
  {
    m := map[];
    for i := 0 to |xs|
      invariant m == GroupBy(xs[..i], key)
    {
      assert xs[..i + 1][..i] == xs[..i];
      m := m[key(xs[i]) := Bucket(m, key(xs[i])) + [xs[i]]];
    }
    assert xs[..|xs|] == xs;
    forall k ensures Bucket(m, k) == Filter(xs, HasKey(key, k)) {
      GroupByIsFilter(xs, key, k);
    }
  }

  /** Every bucket of the grouped map is what filtering on that key alone gives. */
  lemma {:induction false} GroupByIsFilter<K, T>(xs: seq<T>, key: T -> K, k: K)
    ensures Bucket(GroupBy(xs, key), k) == Filter(xs, HasKey(key, k))
    ensures k in GroupBy(xs, key) <==> Filter(xs, HasKey(key, k)) != []
  {
    if xs != [] {
      GroupByIsFilter(xs[..|xs| - 1], key, k);
    }
  }

  lemma {:induction false} FilterAppend<T>(xs: seq<T>, ys: seq<T>, p: T -> bool)
    ensures Filter(xs + ys, p) == Filter(xs, p) + Filter(ys, p)
  {
    if ys == [] {
      assert xs + ys == xs;
    } else {
      assert (xs + ys)[..|xs + ys| - 1] == xs + ys[..|ys| - 1];
      FilterAppend(xs, ys[..|ys| - 1], p);
    }
  }

  lemma {:induction false} FilterCongruent<T>(xs: seq<T>, p: T -> bool, q: T -> bool)
    requires forall x :: x in xs ==> p(x) == q(x)
    ensures Filter(xs, p) == Filter(xs, q)
  {
    if xs != [] {
      FilterCongruent(xs[..|xs| - 1], p, q);
    }
  }

  /** Filtering by a weaker predicate first changes nothing. */
  lemma {:induction false} FilterImplied<T>(xs: seq<T>, p: T -> bool, q: T -> bool)
    requires forall x :: x in xs && q(x) ==> p(x)
    ensures Filter(Filter(xs, p), q) == Filter(xs, q)
  {
    if xs != [] {
      FilterImplied(xs[..|xs| - 1], p, q);
    }
  }

  lemma {:induction false} FilterTwice<T>(xs: seq<T>, p: T -> bool, q: T -> bool, both: T -> bool)
    requires forall x :: x in xs ==> both(x) == (p(x) && q(x))
    ensures Filter(Filter(xs, p), q) == Filter(xs, both)
  {
    if xs != [] {
      FilterTwice(xs[..|xs| - 1], p, q, both);
    }
  }

  /** Replacing one element moves a count by at most that element. */
  lemma {:induction false} CountUpdate<T>(xs: seq<T>, i: nat, x: T, p: T -> bool)
    requires i < |xs|
    ensures Count(xs[i := x], p) == Count(xs, p) - (if p(xs[i]) then 1 else 0) + (if p(x) then 1 else 0)
  {
    var n := |xs| - 1;
    if i == n {
      assert xs[i := x][..n] == xs[..n];
    } else {
      assert xs[i := x][..n] == xs[..n][i := x];
      CountUpdate(xs[..n], i, x, p);
    }
  }

  lemma {:induction false} CountWitness<T>(xs: seq<T>, p: T -> bool) returns (i: nat)
    requires Count(xs, p) > 0
    ensures i < |xs| && p(xs[i])
  {
    if p(xs[|xs| - 1]) {
      i := |xs| - 1;
    } else {
      i := CountWitness(xs[..|xs| - 1], p);
    }
  }

  lemma {:induction false} CountMember<T>(xs: seq<T>, i: nat, p: T -> bool)
    requires i < |xs| && p(xs[i])
    ensures Count(xs, p) > 0
  {
    if i < |xs| - 1 {
      CountMember(xs[..|xs| - 1], i, p);
    }
  }

  lemma {:induction false} CountTwo<T>(xs: seq<T>, p: T -> bool, i: nat, j: nat)
    requires i < j < |xs| && p(xs[i]) && p(xs[j])
    ensures Count(xs, p) > 1
  {
    var front := xs[..|xs| - 1];
    if j == |xs| - 1 {
      CountMember(front, i, p);
    } else {
      CountTwo(front, p, i, j);
    }
  }

  lemma {:induction false} CountIsLength<T>(xs: seq<T>, p: T -> bool)
    ensures |Filter(xs, p)| == Count(xs, p)
  {
    if xs != [] {
      CountIsLength(xs[..|xs| - 1], p);
    }
  }

  lemma {:induction false} CountImplied<T>(xs: seq<T>, p: T -> bool, q: T -> bool)
    requires forall x :: x in xs && p(x) ==> q(x)
    ensures Count(xs, p) <= Count(xs, q)
  {
    if xs != [] {
      CountImplied(xs[..|xs| - 1], p, q);
    }
  }

  lemma {:induction false} CountNone<T>(xs: seq<T>, p: T -> bool)
    requires forall x :: x in xs ==> !p(x)
    ensures Count(xs, p) == 0
  {
    if xs != [] {
      CountNone(xs[..|xs| - 1], p);
    }
  }

  /** An element that satisfies only the weaker predicate makes the count strictly smaller. */
  lemma {:induction false} CountStrict<T>(xs: seq<T>, p: T -> bool, q: T -> bool, i: nat)
    requires forall x :: x in xs && p(x) ==> q(x)
    requires i < |xs| && q(xs[i]) && !p(xs[i])
    ensures Count(xs, p) < Count(xs, q)
  {
    var front := xs[..|xs| - 1];
    if i == |xs| - 1 {
      CountImplied(front, p, q);
    } else {
      CountStrict(front, p, q, i);
    }
  }

  /** What a nested loop appends: the results of `f`, one after the other. */
  function FlatMap<S, T>(xs: seq<S>, f: S -> seq<T>): seq<T> {
    if xs == [] then [] else FlatMap(xs[..|xs| - 1], f) + f(xs[|xs| - 1])
  }

  lemma {:induction false} InFlatMap<S, T>(xs: seq<S>, f: S -> seq<T>, y: T)
    ensures y in FlatMap(xs, f) <==> exists x :: x in xs && y in f(x)
  {
    if xs != [] {
      var front, last := xs[..|xs| - 1], xs[|xs| - 1];
      InFlatMap(front, f, y);
      assert xs == front + [last];
    }
  }

  lemma FlatMapOne<S, T>(x: S, f: S -> seq<T>)
    ensures FlatMap([x], f) == f(x)
  {
    assert [x][..0] == [];
    assert FlatMap([x], f) == FlatMap([], f) + f(x);
  }

  lemma {:induction false} FlatMapBound<S, T>(xs: seq<S>, f: S -> seq<T>)
    requires forall x :: x in xs ==> |f(x)| <= 1
    ensures |FlatMap(xs, f)| <= |xs|
  {
    if xs != [] {
      FlatMapBound(xs[..|xs| - 1], f);
    }
  }

  /** The pigeonhole principle: where no element yields more than one result and there are as many results as
      elements, each yields exactly one, in order. */
  lemma {:induction false} OneEach<S, T>(xs: seq<S>, f: S -> seq<T>)
    requires forall x :: x in xs ==> |f(x)| <= 1
    requires |FlatMap(xs, f)| == |xs|
    ensures forall i :: 0 <= i < |xs| ==> f(xs[i]) == [FlatMap(xs, f)[i]]
  {
    if xs != [] {
      FlatMapBound(xs[..|xs| - 1], f);
      OneEach(xs[..|xs| - 1], f);
    }
  }

  lemma {:induction false} FlatMapNothing<S, T>(xs: seq<S>, x: S, n: nat, f: S -> seq<T>)
    requires f(x) == []
    ensures FlatMap(xs + Repeat(x, n), f) == FlatMap(xs, f)
  {
    if n == 0 {
      assert xs + Repeat(x, 0) == xs;
    } else {
      var longer := xs + Repeat(x, n);
      assert longer[..|longer| - 1] == xs + Repeat(x, n - 1);
      FlatMapNothing(xs, x, n - 1, f);
    }
  }

  function Repeat<T>(x: T, n: nat): seq<T> {
    seq(n, _ => x)
  }

  lemma InMap<S, T>(xs: seq<S>, f: S -> T, y: T)
    ensures y in Map(xs, f) <==> exists x :: x in xs && f(x) == y
  {
    if y in Map(xs, f) {
      var i :| 0 <= i < |xs| && Map(xs, f)[i] == y;
      assert xs[i] in xs;
    }
    if x :| x in xs && f(x) == y {
      var i :| 0 <= i < |xs| && xs[i] == x;
      assert Map(xs, f)[i] == y;
    }
  }

  lemma MapAppend<S, T>(xs: seq<S>, ys: seq<S>, f: S -> T)
    ensures Map(xs + ys, f) == Map(xs, f) + Map(ys, f)
  {
  }

  lemma MapSnoc<S, T>(xs: seq<S>, x: S, f: S -> T)
    ensures Map(xs + [x], f) == Map(xs, f) + [f(x)]
  {
  }

  lemma {:induction false} FilterAll<T>(xs: seq<T>, p: T -> bool)
    requires forall x :: x in xs ==> p(x)
    ensures Filter(xs, p) == xs
  {
    if xs != [] {
      FilterAll(xs[..|xs| - 1], p);
    }
  }

  lemma {:induction false} FilterNone<T>(xs: seq<T>, p: T -> bool)
    requires forall x :: x in xs ==> !p(x)
    ensures Filter(xs, p) == []
  {
    if xs != [] {
      FilterNone(xs[..|xs| - 1], p);
    }
  }

  lemma {:induction false} HeadIndex<T>(xs: seq<T>, p: T -> bool) returns (k: nat)
    requires Filter(xs, p) != []
    ensures k < |xs| && xs[k] == Filter(xs, p)[0] && p(xs[k])
    ensures forall j :: 0 <= j < k ==> !p(xs[j])
  {
    var front := xs[..|xs| - 1];
    if Filter(front, p) != [] {
      k := HeadIndex(front, p);
    } else {
      k := |front|;
      forall j | 0 <= j < k ensures !p(xs[j]) {
        assert front[j] in front;
      }
    }
  }

  lemma FirstIsHead<T>(xs: seq<T>, p: T -> bool, k: nat)
    requires k < |xs| && p(xs[k]) && forall j :: 0 <= j < k ==> !p(xs[j])
    ensures Filter(xs, p) != [] && Filter(xs, p)[0] == xs[k]
  {
    assert xs[k] in Filter(xs, p);
    var l := HeadIndex(xs, p);
  }

  /** Two heads that each have both properties are one. */
  lemma HeadsAgree<T>(xs: seq<T>, p: T -> bool, q: T -> bool)
    requires Filter(xs, p) != [] && Filter(xs, q) != []
    requires q(Filter(xs, p)[0]) && p(Filter(xs, q)[0])
    ensures Filter(xs, p)[0] == Filter(xs, q)[0]
  {
    var k := HeadIndex(xs, p);
    var l := HeadIndex(xs, q);
  }

  /** Only the element at `k` has the property. */
  ghost predicate OnlyAt<T>(xs: seq<T>, p: T -> bool, k: nat) {
    k < |xs| && forall j :: 0 <= j < |xs| ==> (p(xs[j]) <==> j == k)
  }

  lemma {:induction false} OneIsOnly<T>(xs: seq<T>, p: T -> bool) returns (k: nat)
    requires |Filter(xs, p)| == 1
    ensures OnlyAt(xs, p, k) && xs[k] == Filter(xs, p)[0]
  {
    var front := xs[..|xs| - 1];
    if p(xs[|front|]) {
      k := |front|;
      assert Filter(front, p) == [];
      forall j | 0 <= j < |front| ensures !p(xs[j]) {
        assert front[j] in front;
      }
    } else {
      k := OneIsOnly(front, p);
      assert forall j :: 0 <= j < |front| ==> front[j] == xs[j];
    }
  }

  lemma {:induction false} OnlyIsOne<T>(xs: seq<T>, p: T -> bool, k: nat)
    requires OnlyAt(xs, p, k)
    ensures Filter(xs, p) == [xs[k]]
  {
    var front := xs[..|xs| - 1];
    assert forall j :: 0 <= j < |front| ==> front[j] == xs[j];
    if k == |front| {
      FilterNone(front, p);
    } else {
      OnlyIsOne(front, p, k);
    }
  }
}
