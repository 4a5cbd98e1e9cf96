/** Array operations of JavaScript used by the analyzers and the report
    views: `filter`, `slice(0, n)`, `map`, and counting. */
module Seqs {

  /** `s.filter(p)`: the elements of `s` that satisfy `p`, in order. */
  function Filter<T>(s: seq<T>, p: T -> bool): (r: seq<T>)
    ensures |r| <= |s|
    ensures forall i :: 0 <= i < |r| ==> r[i] in s && p(r[i])
    ensures forall i :: 0 <= i < |s| && p(s[i]) ==> s[i] in r
  {
    if s == [] then [] else (if p(s[0]) then [s[0]] else []) + Filter(s[1..], p)
  }

  /** An element of `s` is kept exactly when it satisfies the predicate. */
  lemma FilterMembership<T>(s: seq<T>, p: T -> bool, x: T)
    requires x in s
    ensures x in Filter(s, p) <==> p(x)
  {
  }

  /** `r` is `s` with some elements left out, the rest kept in order. */
  predicate IsSubsequence<T(==)>(r: seq<T>, s: seq<T>)
    decreases |s|
  {
    r == [] || (s != [] && (if r[0] == s[0] then IsSubsequence(r[1..], s[1..]) else IsSubsequence(r, s[1..])))
  }

  lemma {:induction false} SubsequenceOfItself<T>(s: seq<T>)
    ensures IsSubsequence(s, s)
    decreases |s|
  {
    if s != [] {
      SubsequenceOfItself(s[1..]);
    }
  }

  /** The filter keeps its elements in their original order. */
  lemma {:induction false} FilterIsSubsequence<T>(s: seq<T>, p: T -> bool)
    ensures IsSubsequence(Filter(s, p), s)
    decreases |s|
  {
    if s != [] {
      var r := Filter(s, p);
      FilterIsSubsequence(s[1..], p);
      if p(s[0]) {
        assert r[0] == s[0] && r[1..] == Filter(s[1..], p);
      } else {
        assert r == Filter(s[1..], p);
        assert r != [] ==> p(r[0]) && r[0] != s[0];
      }
    }
  }

  /** The filter takes each element at most as often as `s` has it. */
  lemma FilterSubMultiset<T>(s: seq<T>, p: T -> bool)
    ensures multiset(Filter(s, p)) <= multiset(s)
  {
    FilterPartition(s, p, (x: T) => !p(x));
  }

  lemma {:induction false} FilterConcat<T>(a: seq<T>, b: seq<T>, p: T -> bool)
    ensures Filter(a + b, p) == Filter(a, p) + Filter(b, p)
    decreases |a|
  {
    if a == [] {
      assert a + b == b;
    } else {
      assert (a + b)[1..] == a[1..] + b;
      FilterConcat(a[1..], b, p);
    }
  }

  /** Filtering a list that starts with `h`. */
  lemma FilterCons<T>(h: T, t: seq<T>, p: T -> bool)
    ensures Filter([h] + t, p) == (if p(h) then [h] else []) + Filter(t, p)
  {
    assert ([h] + t)[0] == h;
    assert ([h] + t)[1..] == t;
  }

  /** Processing one more element of the input extends the filtered list
      by that element exactly when it satisfies the predicate. */
  lemma FilterStep<T>(s: seq<T>, k: nat, p: T -> bool)
    requires k < |s|
    ensures Filter(s[..k + 1], p) == Filter(s[..k], p) + (if p(s[k]) then [s[k]] else [])
  {
    assert s[..k + 1] == s[..k] + [s[k]];
    FilterConcat(s[..k], [s[k]], p);
  }

  /** The filter of the first `k` elements, built element by element from
      the front, as a sequence of conditional `push` calls builds it. */
  function FilterUpTo<T>(s: seq<T>, k: nat, p: T -> bool): seq<T>
    requires k <= |s|
  {
    if k == 0 then [] else FilterUpTo(s, k - 1, p) + (if p(s[k - 1]) then [s[k - 1]] else [])
  }

  lemma {:induction false} FilterUpToIsFilter<T>(s: seq<T>, k: nat, p: T -> bool)
    requires k <= |s|
    ensures FilterUpTo(s, k, p) == Filter(s[..k], p)
  {
    if k == 0 {
      assert s[..0] == [];
    } else {
      FilterUpToIsFilter(s, k - 1, p);
      FilterStep(s, k - 1, p);
      assert FilterUpTo(s, k, p) == FilterUpTo(s, k - 1, p) + (if p(s[k - 1]) then [s[k - 1]] else []);
    }
  }

  /** `[x]` when `cond` holds and nothing otherwise: what an
      `if (cond) list.push(x)` adds to a list. */
  function When<T>(cond: bool, x: T): (r: seq<T>)
    ensures |r| <= 1
  {
    if cond then [x] else []
  }

  /** The images under `f` of the first `k` elements that satisfy `p`,
      built element by element from the front, as a sequence of
      conditional `push` calls builds them. */
  function MapFilterUpTo<T, U>(s: seq<T>, k: nat, p: T -> bool, f: T -> U): seq<U>
    requires k <= |s|
  {
    if k == 0 then [] else MapFilterUpTo(s, k - 1, p, f) + (if p(s[k - 1]) then [f(s[k - 1])] else [])
  }

  lemma {:induction false} MapFilterUpToIsMapFilter<T, U>(s: seq<T>, k: nat, p: T -> bool, f: T -> U)
    requires k <= |s|
    ensures MapFilterUpTo(s, k, p, f) == Map(FilterUpTo(s, k, p), f)
  {
    if k > 0 {
      MapFilterUpToIsMapFilter(s, k - 1, p, f);
      MapSnoc(FilterUpTo(s, k - 1, p), s[k - 1], f);
    }
  }

  /** After the last element, the pushes have produced `s.filter(p).map(f)`. */
  lemma MapFilterComplete<T, U>(s: seq<T>, p: T -> bool, f: T -> U)
    ensures MapFilterUpTo(s, |s|, p, f) == Map(Filter(s, p), f)
  {
    MapFilterUpToIsMapFilter(s, |s|, p, f);
    FilterUpToIsFilter(s, |s|, p);
    assert s[..|s|] == s;
  }

  lemma {:induction false} FilterIdentity<T>(s: seq<T>, p: T -> bool)
    requires forall i :: 0 <= i < |s| ==> p(s[i])
    ensures Filter(s, p) == s
    decreases |s|
  {
    if s != [] {
      FilterIdentity(s[1..], p);
    }
  }

  /** `s` sorted strictly by a numeric key. */
  predicate IncreasingBy<T>(s: seq<T>, key: T -> int) {
    forall i, j :: 0 <= i < j < |s| ==> key(s[i]) < key(s[j])
  }

  /** Filtering keeps the relative order of what it keeps. */
  lemma {:induction false} FilterKeepsIncreasing<T>(s: seq<T>, p: T -> bool, key: T -> int)
    requires IncreasingBy(s, key)
    ensures IncreasingBy(Filter(s, p), key)
    decreases |s|
  {
    if s != [] {
      var tail := s[1..];
      assert IncreasingBy(tail, key) by {
        forall i, j | 0 <= i < j < |tail| ensures key(tail[i]) < key(tail[j]) {
          assert tail[i] == s[i + 1] && tail[j] == s[j + 1];
        }
      }
      FilterKeepsIncreasing(tail, p, key);
      var rest := Filter(tail, p);
      assert AllAbove(rest, key(s[0]), key) by {
        assert AllAbove(tail, key(s[0]), key) by {
          forall i | 0 <= i < |tail| ensures key(s[0]) < key(tail[i]) {
            assert tail[i] == s[i + 1];
          }
        }
        FilterKeepsAbove(tail, p, key(s[0]), key);
      }
    }
  }

  predicate AllAbove<T>(s: seq<T>, bound: int, key: T -> int) {
    forall i :: 0 <= i < |s| ==> bound < key(s[i])
  }

  predicate AllBelow<T>(s: seq<T>, bound: int, key: T -> int) {
    forall i :: 0 <= i < |s| ==> key(s[i]) < bound
  }

  lemma {:induction false} FilterKeepsAbove<T>(s: seq<T>, p: T -> bool, bound: int, key: T -> int)
    requires AllAbove(s, bound, key)
    ensures AllAbove(Filter(s, p), bound, key)
    decreases |s|
  {
    if s != [] {
      FilterKeepsAbove(s[1..], p, bound, key);
    }
  }

  /** The number of elements of `s` that satisfy `p`. */
  function Count<T>(s: seq<T>, p: T -> bool): nat {
    |Filter(s, p)|
  }

  /** Processing one more element counts it exactly when it satisfies
      the predicate. */
  lemma CountStep<T>(s: seq<T>, k: nat, p: T -> bool)
    requires k < |s|
    ensures Count(s[..k + 1], p) == Count(s[..k], p) + (if p(s[k]) then 1 else 0)
  {
    FilterStep(s, k, p);
  }

  /** A predicate and its negation count every element exactly once. */
  lemma {:induction false} CountComplement<T>(s: seq<T>, p: T -> bool, q: T -> bool)
    requires forall x :: q(x) == !p(x)
    ensures Count(s, p) + Count(s, q) == |s|
    decreases |s|
  {
    if s != [] {
      CountComplement(s[1..], p, q);
    }
  }

  /** Two predicates that never hold together count each element at most
      once. */
  lemma {:induction false} CountDisjoint<T>(s: seq<T>, p: T -> bool, q: T -> bool)
    requires forall x :: !(p(x) && q(x))
    ensures Count(s, p) + Count(s, q) <= |s|
    decreases |s|
  {
    if s != [] {
      CountDisjoint(s[1..], p, q);
    }
  }

  /** `s.slice(0, n)`. */
  function Take<T>(s: seq<T>, n: nat): (r: seq<T>)
    ensures |r| <= n && |r| <= |s|
    ensures |r| == n || r == s
    ensures r == s[..|r|]
  {
    if |s| <= n then s else s[..n]
  }

  /** `s.map(f)`, element by element. */
  function Map<T, U>(s: seq<T>, f: T -> U): (r: seq<U>)
    ensures |r| == |s|
    ensures forall i :: 0 <= i < |s| ==> r[i] == f(s[i])
  {
    seq(|s|, i requires 0 <= i < |s| => f(s[i]))
  }

  lemma MapSnoc<T, U>(s: seq<T>, x: T, f: T -> U)
    ensures Map(s + [x], f) == Map(s, f) + [f(x)]
  {
  }

  lemma MapWhen<T, U>(s: seq<T>, cond: bool, x: T, f: T -> U)
    ensures Map(s + When(cond, x), f) == Map(s, f) + When(cond, f(x))
  {
  }

  /** Partitioning by a predicate and its negation neither loses nor
      invents elements. */
  lemma {:induction false} FilterPartition<T>(s: seq<T>, p: T -> bool, q: T -> bool)
    requires forall x :: q(x) == !p(x)
    ensures multiset(Filter(s, p)) + multiset(Filter(s, q)) == multiset(s)
    decreases |s|
  {
    if s != [] {
      var h := s[0];
      FilterPartition(s[1..], p, q);
      MultisetFilterHead(s, p);
      MultisetFilterHead(s, q);
      MultisetHead(s);
      assert p(h) != q(h);
    }
  }

  lemma MultisetFilterHead<T>(s: seq<T>, p: T -> bool)
    requires s != []
    ensures multiset(Filter(s, p)) == (if p(s[0]) then multiset{s[0]} else multiset{}) + multiset(Filter(s[1..], p))
  {
    assert Filter(s, p) == (if p(s[0]) then [s[0]] else []) + Filter(s[1..], p);
  }

  lemma MultisetHead<T>(s: seq<T>)
    requires s != []
    ensures multiset(s) == multiset{s[0]} + multiset(s[1..])
  {
    assert s == [s[0]] + s[1..];
  }

}
