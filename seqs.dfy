/** Generic list operations the screens and hooks are built from: filter, subsequence, toggle. */
module Seqs {

  /** `s.filter(p)`, kept in order; defined from the back so that a loop pushing onto a list follows it. */
  function Filter<T(==)>(s: seq<T>, p: T -> bool): (r: seq<T>)
    ensures |r| <= |s|
    ensures forall x | x in r :: x in s && p(x)
    ensures forall x | x in s && p(x) :: x in r
    decreases |s|
  {
    if s == [] then []
    else Filter(s[..|s| - 1], p) + (if p(s[|s| - 1]) then [s[|s| - 1]] else [])
  }

  /** Filtering keeps every passing value as often as it occurs and drops every other value entirely. */
  lemma {:induction false} FilterMultiplicity<T>(s: seq<T>, p: T -> bool)
    ensures forall x :: multiset(Filter(s, p))[x] == if p(x) then multiset(s)[x] else 0
    decreases |s|
  {
    if s != [] {
      var init, last := s[..|s| - 1], s[|s| - 1];
      FilterMultiplicity(init, p);
      assert s == init + [last];
    }
  }

  /** `a` is `b` with some elements left out and the rest in their original order. */
  predicate IsSubsequence<T(==)>(a: seq<T>, b: seq<T>)
    decreases |b|
  {
    if a == [] then true
    else if b == [] then false
    else if a[|a| - 1] == b[|b| - 1] then IsSubsequence(a[..|a| - 1], b[..|b| - 1])
    else IsSubsequence(a, b[..|b| - 1])
  }

  lemma {:induction false} FilterIsSubsequence<T>(s: seq<T>, p: T -> bool)
    ensures IsSubsequence(Filter(s, p), s)
    decreases |s|
  {
    if s != [] {
      var init := s[..|s| - 1];
      FilterIsSubsequence(init, p);
      if !p(s[|s| - 1]) {
        var f := Filter(init, p);
        assert Filter(s, p) == f;
        if f != [] {
          assert f[|f| - 1] in f;
        }
      } else {
        assert Filter(s, p)[..|Filter(s, p)| - 1] == Filter(init, p);
      }
    }
  }

  /** Filtering twice is filtering once by the conjunction. */
  lemma {:induction false} FilterFilter<T>(s: seq<T>, p: T -> bool, q: T -> bool, pq: T -> bool)
    requires forall x :: pq(x) == (p(x) && q(x))
    ensures Filter(Filter(s, p), q) == Filter(s, pq)
    decreases |s|
  {
    if s != [] {
      var init, last := s[..|s| - 1], s[|s| - 1];
      FilterFilter(init, p, q, pq);
      var fp := Filter(init, p);
      if p(last) {
        assert Filter(s, p) == fp + [last];
        assert (fp + [last])[..|fp + [last]| - 1] == fp;
      } else {
        assert Filter(s, p) == fp;
      }
    }
  }

  /** A filter every element passes keeps the whole list. */
  lemma {:induction false} FilterAll<T>(s: seq<T>, p: T -> bool)
    requires forall x | x in s :: p(x)
    ensures Filter(s, p) == s
    decreases |s|
  {
    if s != [] {
      FilterAll(s[..|s| - 1], p);
      assert s == s[..|s| - 1] + [s[|s| - 1]];
    }
  }

  /** A filter no element passes keeps nothing. */
  lemma FilterNone<T>(s: seq<T>, p: T -> bool)
    requires forall x | x in s :: !p(x)
    ensures Filter(s, p) == []
  {
    if Filter(s, p) != [] {
      assert Filter(s, p)[0] in Filter(s, p);
    }
  }

  /** Filtering a concatenation filters each part. */
  lemma {:induction false} FilterConcat<T>(a: seq<T>, b: seq<T>, p: T -> bool)
    ensures Filter(a + b, p) == Filter(a, p) + Filter(b, p)
    decreases |b|
  {
    if b == [] {
      assert a + b == a;
    } else {
      var bi := b[..|b| - 1];
      assert (a + b)[..|a + b| - 1] == a + bi;
      FilterConcat(a, bi, p);
    }
  }

  /** Filtering a list with one more element at the end. */
  lemma FilterSnoc<T>(s: seq<T>, x: T, p: T -> bool)
    ensures Filter(s + [x], p) == Filter(s, p) + (if p(x) then [x] else [])
  {
    assert (s + [x])[..|s|] == s;
  }

  /** Filters by predicates that agree on every element keep the same elements. */
  lemma {:induction false} FilterSamePredicate<T>(s: seq<T>, p: T -> bool, q: T -> bool)
    requires forall x | x in s :: p(x) == q(x)
    ensures Filter(s, p) == Filter(s, q)
    decreases |s|
  {
    if s != [] {
      FilterSamePredicate(s[..|s| - 1], p, q);
    }
  }

  /** No two elements of `s` share a key. */
  predicate DistinctBy<T, K(==)>(s: seq<T>, key: T -> K) {
    forall i, j | 0 <= i < j < |s| :: key(s[i]) != key(s[j])
  }

  /** A suffix holds only elements of the list and keeps its keys distinct. */
  lemma SuffixKeepsDistinct<T, K>(s: seq<T>, k: int, key: T -> K)
    requires 0 <= k <= |s| && DistinctBy(s, key)
    ensures forall x | x in s[k..] :: x in s
    ensures DistinctBy(s[k..], key)
  {
    forall i, j | 0 <= i < j < |s| - k ensures key(s[k..][i]) != key(s[k..][j]) {
      assert s[k..][i] == s[k + i] && s[k..][j] == s[k + j];
    }
  }

  /** Dropping the last element keeps keys distinct, and no earlier element shares its key. */
  lemma DistinctByInit<T, K>(s: seq<T>, key: T -> K)
    requires s != [] && DistinctBy(s, key)
    ensures DistinctBy(s[..|s| - 1], key)
    ensures forall x | x in s[..|s| - 1] :: key(x) != key(s[|s| - 1])
  {
    var init := s[..|s| - 1];
    forall x | x in init ensures key(x) != key(s[|s| - 1]) {
      var i :| 0 <= i < |init| && init[i] == x;
      assert s[i] == x;
    }
  }

  /** Filtering keeps keys distinct. */
  lemma {:induction false} FilterKeepsDistinct<T, K>(s: seq<T>, p: T -> bool, key: T -> K)
    requires DistinctBy(s, key)
    ensures DistinctBy(Filter(s, p), key)
    decreases |s|
  {
    if s != [] {
      var init, last := s[..|s| - 1], s[|s| - 1];
      FilterKeepsDistinct(init, p, key);
      var f := Filter(init, p);
      if p(last) {
        forall i | 0 <= i < |f| ensures key(f[i]) != key(last) {
          assert f[i] in init;
          var k :| 0 <= k < |init| && init[k] == f[i];
          assert s[k] == f[i];
        }
        assert Filter(s, p) == f + [last];
      }
    }
  }

  /** How many elements satisfy `p`. */
  function Count<T(==)>(s: seq<T>, p: T -> bool): nat {
    |Filter(s, p)|
  }

  /** `arr.includes(v) ? arr.filter(x => x !== v) : [...arr, v]` */
  function Toggle<T(==)>(arr: seq<T>, v: T): (r: seq<T>)
    ensures v in r <==> v !in arr
    ensures forall x | x in r && x != v :: x in arr
    ensures forall x | x in arr && x != v :: x in r
  {
    if v in arr then Filter(arr, x => x != v) else arr + [v]
  }

  /** Toggling a value that is absent, and then toggling it again, gives back the list exactly. */
  lemma ToggleTwiceRestores<T>(arr: seq<T>, v: T)
    requires v !in arr
    ensures Toggle(Toggle(arr, v), v) == arr
  {
    assert Toggle(arr, v) == arr + [v];
    FilterConcat(arr, [v], x => x != v);
    FilterAll(arr, x => x != v);
    assert Filter([v], x => x != v) == [];
  }

  /** The first `n` elements (`s.slice(0, n)`), all of them when there are fewer. */
  function Take<T>(s: seq<T>, n: int): (r: seq<T>)
    ensures |r| == if n <= 0 then 0 else if n < |s| then n else |s|
    ensures r == s[..|r|]
  {
    if n <= 0 then [] else if n < |s| then s[..n] else s
  }

  /** Filters applied one after another, in list order (`results = results.filter(...)` repeated). */
  function Chain<T(==)>(s: seq<T>, steps: seq<T -> bool>): seq<T>
    decreases |steps|
  {
    if steps == [] then s else Filter(Chain(s, steps[..|steps| - 1]), steps[|steps| - 1])
  }

  /** Running two lists of steps one after the other is running their concatenation. */
  lemma {:induction false} ChainConcat<T>(s: seq<T>, a: seq<T -> bool>, b: seq<T -> bool>)
    ensures Chain(s, a + b) == Chain(Chain(s, a), b)
    decreases |b|
  {
    if b == [] {
      assert a + b == a;
    } else {
      assert (a + b)[..|a + b| - 1] == a + b[..|b| - 1];
      ChainConcat(s, a, b[..|b| - 1]);
    }
  }

  /** `x` passes every step. */
  predicate AllOf<T>(steps: seq<T -> bool>, x: T) {
    forall i | 0 <= i < |steps| :: steps[i](x)
  }

  function AllOfFn<T>(steps: seq<T -> bool>): T -> bool {
    x => AllOf(steps, x)
  }

  lemma AllOfConcat<T>(a: seq<T -> bool>, b: seq<T -> bool>, x: T)
    ensures AllOf(a + b, x) <==> AllOf(a, x) && AllOf(b, x)
  {
    if AllOf(a, x) && AllOf(b, x) {
      forall i | 0 <= i < |a + b| ensures (a + b)[i](x) {
        if i >= |a| {
          assert (a + b)[i] == b[i - |a|];
        }
      }
    }
    if AllOf(a + b, x) {
      forall i | 0 <= i < |a| ensures a[i](x) {
        assert (a + b)[i] == a[i];
      }
      forall i | 0 <= i < |b| ensures b[i](x) {
        assert (a + b)[|a| + i] == b[i];
      }
    }
  }

  /** A step that is present only when `b` holds. */
  lemma AllOfOptional<T>(b: bool, f: T -> bool, x: T)
    ensures AllOf(if b then [f] else [], x) <==> (b ==> f(x))
  {
    if b {
      assert [f][0] == f;
    }
  }

  /** A chain of filters is one filter by the conjunction of its steps. */
  lemma {:induction false} ChainIsOneFilter<T>(s: seq<T>, steps: seq<T -> bool>)
    ensures Chain(s, steps) == Filter(s, AllOfFn(steps))
    decreases |steps|
  {
    if steps == [] {
      FilterAll(s, AllOfFn(steps));
    } else {
      var init, last := steps[..|steps| - 1], steps[|steps| - 1];
      ChainIsOneFilter(s, init);
      forall x ensures AllOfFn(steps)(x) == (AllOfFn(init)(x) && last(x)) {
        assert steps == init + [last];
        AllOfConcat(init, [last], x);
      }
      FilterFilter(s, AllOfFn(init), last, AllOfFn(steps));
    }
  }
}
