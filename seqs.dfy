/**
 * The array operations the source chains after every aggregation:
 * `filter`, `at(-1)`, `slice(0, n)`, `reduce` into a sum, `[...new Set(xs)]`
 * and the stable `sort((a, b) => key(b) - key(a))`.
 */
module Seqs {
  import opened Wrappers

  /** `s.filter(p)`. */
  function Filter<T>(s: seq<T>, p: T -> bool): (r: seq<T>)
    ensures |r| <= |s|
    ensures forall i :: 0 <= i < |r| ==> r[i] in s && p(r[i])
    ensures forall i :: 0 <= i < |s| && p(s[i]) ==> s[i] in r
  {
    if s == [] then [] else (if p(s[0]) then [s[0]] else []) + Filter(s[1..], p)
  }

  /** `s.map(f).filter(x => x !== null)`: the present results of `f`, in order. */
  function FilterMap<T, U>(s: seq<T>, f: T -> Option<U>): (r: seq<U>)
    ensures |r| <= |s|
    decreases |s|
  {
    if s == [] then []
    else
      var y := f(s[|s| - 1]);
      FilterMap(s[..|s| - 1], f) + (if y.Some? then [y.value] else [])
  }

  /** One more element appends its result, when it has one. */
  lemma FilterMapSnoc<T, U>(s: seq<T>, f: T -> Option<U>, i: nat)
    requires i < |s|
    ensures FilterMap(s[..i + 1], f) == FilterMap(s[..i], f) + (if f(s[i]).Some? then [f(s[i]).value] else [])
  {
    assert s[..i + 1][..i] == s[..i];
  }

  /** The set of the images of the elements: what `new Set()` holds after adding `f(x)` for each `x`. */
  function Image<T, U>(s: seq<T>, f: T -> U): (r: set<U>)
    ensures forall i :: 0 <= i < |s| ==> f(s[i]) in r
    decreases |s|
  {
    if s == [] then {} else Image(s[..|s| - 1], f) + {f(s[|s| - 1])}
  }

  /** ... and nothing else. */
  lemma {:induction false} ImageOnly<T, U>(s: seq<T>, f: T -> U, y: U)
    requires y in Image(s, f)
    ensures exists i :: 0 <= i < |s| && f(s[i]) == y
    decreases |s|
  {
    if f(s[|s| - 1]) != y {
      ImageOnly(s[..|s| - 1], f, y);
      var i :| 0 <= i < |s| - 1 && f(s[..|s| - 1][i]) == y;
      assert s[..|s| - 1][i] == s[i];
    }
  }

  /** Filtering keeps everything when every element passes. */
  lemma {:induction false} FilterAll<T>(s: seq<T>, p: T -> bool)
    requires forall i :: 0 <= i < |s| ==> p(s[i])
    ensures Filter(s, p) == s
  {
    if s != [] {
      FilterAll(s[1..], p);
    }
  }

  function Count<T>(s: seq<T>, p: T -> bool): nat {
    |Filter(s, p)|
  }

  /** `s.at(-1)` on a non-empty array. */
  function Last<T>(s: seq<T>): T
    requires |s| > 0
  {
    s[|s| - 1]
  }

  /** `s.slice(0, n)`. */
  function Take<T>(s: seq<T>, n: nat): (r: seq<T>)
    ensures |r| == if n < |s| then n else |s|
    ensures r == s[..|r|]
  {
    if n < |s| then s[..n] else s
  }

  /** `s.reduce((acc, x) => acc + w(x), 0)`. */
  function Sum<T>(s: seq<T>, w: T -> int): int {
    if s == [] then 0 else Sum(s[..|s| - 1], w) + w(s[|s| - 1])
  }

  /** Replacing one element changes the sum by the difference of the weights. */
  lemma {:induction false} SumUpdate<T>(s: seq<T>, i: nat, x: T, w: T -> int)
    requires i < |s|
    ensures Sum(s[i := x], w) == Sum(s, w) - w(s[i]) + w(x)
    decreases |s|
  {
    var t := s[i := x];
    if i < |s| - 1 {
      assert t[..|t| - 1] == s[..|s| - 1][i := x];
      SumUpdate(s[..|s| - 1], i, x, w);
    } else {
      assert t[..|t| - 1] == s[..|s| - 1];
    }
  }

  /** The sum over a concatenation is the sum of the sums. */
  lemma {:induction false} SumConcat<T>(a: seq<T>, b: seq<T>, w: T -> int)
    ensures Sum(a + b, w) == Sum(a, w) + Sum(b, w)
    decreases |b|
  {
    if b != [] {
      assert (a + b)[..|a + b| - 1] == a + b[..|b| - 1];
      SumConcat(a, b[..|b| - 1], w);
    } else {
      assert a + b == a;
    }
  }

  /** Sums of two sequences agree when their weights agree element by element. */
  lemma {:induction false} SumPointwise<T, U>(s: seq<T>, t: seq<U>, w: T -> int, v: U -> int)
    requires |s| == |t|
    requires forall i :: 0 <= i < |s| ==> w(s[i]) == v(t[i])
    ensures Sum(s, w) == Sum(t, v)
    decreases |s|
  {
    if s != [] {
      SumPointwise(s[..|s| - 1], t[..|t| - 1], w, v);
    }
  }

  /** A sum of non-negative weights is non-negative; of weights at most one, at most the length. */
  lemma {:induction false} SumBounds<T>(s: seq<T>, w: T -> int)
    requires forall i :: 0 <= i < |s| ==> 0 <= w(s[i]) <= 1
    ensures 0 <= Sum(s, w) <= |s|
    decreases |s|
  {
    if s != [] {
      SumBounds(s[..|s| - 1], w);
    }
  }

  /** Unit weights sum to the length. */
  lemma {:induction false} SumOnes<T>(s: seq<T>, w: T -> int)
    requires forall i :: 0 <= i < |s| ==> w(s[i]) == 1
    ensures Sum(s, w) == |s|
    decreases |s|
  {
    if s != [] {
      SumOnes(s[..|s| - 1], w);
    }
  }

  /** `[...new Set(s)]`: the distinct elements in order of first occurrence. */
  function Distinct<T(==)>(s: seq<T>): (r: seq<T>)
    ensures forall i, j :: 0 <= i < j < |r| ==> r[i] != r[j]
    ensures forall i :: 0 <= i < |r| ==> r[i] in s
    ensures forall i :: 0 <= i < |s| ==> s[i] in r
    ensures |r| <= |s|
  {
    if s == [] then []
    else
      var d := Distinct(s[..|s| - 1]);
      assert forall i :: 0 <= i < |s| - 1 ==> s[i] in s[..|s| - 1];
      if s[|s| - 1] in d then d else d + [s[|s| - 1]]
  }

  /** One more element is appended to the distinct elements when it is new. */
  lemma DistinctSnoc<T>(s: seq<T>)
    requires s != []
    ensures Distinct(s) == if s[|s| - 1] in Distinct(s[..|s| - 1]) then Distinct(s[..|s| - 1])
                           else Distinct(s[..|s| - 1]) + [s[|s| - 1]]
  {
  }


  // ---------------------------------------------------------------------------
  // Stable sort, descending by a key

  /** Keys never increase along `s`. */
  predicate SortedDesc<T>(s: seq<T>, key: T -> real) {
    forall i, j :: 0 <= i < j < |s| ==> key(s[i]) >= key(s[j])
  }

  /** Places `x` before the first element whose key is not greater than its own. */
  function Insert<T>(x: T, s: seq<T>, key: T -> real): seq<T> {
    if s == [] || key(s[0]) <= key(x) then [x] + s else [s[0]] + Insert(x, s[1..], key)
  }

  /**
   * `Array.prototype.sort((a, b) => key(b) - key(a))`, which is stable:
   * elements with equal keys keep their input order.
   */
  function SortDesc<T>(s: seq<T>, key: T -> real): seq<T> {
    if s == [] then [] else Insert(s[0], SortDesc(s[1..], key), key)
  }

  /** The elements of `s` whose key is exactly `k`, in order. */
  function WithKey<T>(s: seq<T>, key: T -> real, k: real): seq<T> {
    if s == [] then [] else (if key(s[0]) == k then [s[0]] else []) + WithKey(s[1..], key, k)
  }

  lemma {:induction false} InsertPermutes<T>(x: T, s: seq<T>, key: T -> real)
    ensures multiset(Insert(x, s, key)) == multiset(s) + multiset{x}
    decreases |s|
  {
    if !(s == [] || key(s[0]) <= key(x)) {
      InsertPermutes(x, s[1..], key);
      assert s == [s[0]] + s[1..];
    }
  }

  lemma {:induction false} InsertSorted<T>(x: T, s: seq<T>, key: T -> real)
    requires SortedDesc(s, key)
    ensures SortedDesc(Insert(x, s, key), key)
    decreases |s|
  {
    if !(s == [] || key(s[0]) <= key(x)) {
      InsertSorted(x, s[1..], key);
      InsertPermutes(x, s[1..], key);
      var r := Insert(x, s[1..], key);
      forall j | 0 <= j < |r| ensures key(s[0]) >= key(r[j]) {
        assert r[j] in multiset(r);
        assert r[j] in multiset(s[1..]) || r[j] == x;
      }
    }
  }

  /** `WithKey` looks at the head of a sequence, then at the rest. */
  lemma WithKeyCons<T>(x: T, r: seq<T>, key: T -> real, k: real)
    ensures WithKey([x] + r, key, k) == (if key(x) == k then [x] else []) + WithKey(r, key, k)
  {
    assert ([x] + r)[0] == x;
    assert ([x] + r)[1..] == r;
  }

  lemma {:induction false} InsertWithKey<T>(x: T, s: seq<T>, key: T -> real, k: real)
    ensures WithKey(Insert(x, s, key), key, k) == (if key(x) == k then [x] else []) + WithKey(s, key, k)
    decreases |s|
  {
    if s == [] || key(s[0]) <= key(x) {
      WithKeyCons(x, s, key, k);
    } else {
      InsertWithKey(x, s[1..], key, k);
      WithKeyCons(s[0], Insert(x, s[1..], key), key, k);
      WithKeyCons(s[0], s[1..], key, k);
      assert [s[0]] + s[1..] == s;
    }
  }

  lemma {:induction false} SortDescSorted<T>(s: seq<T>, key: T -> real)
    ensures SortedDesc(SortDesc(s, key), key)
    decreases |s|
  {
    if s != [] {
      SortDescSorted(s[1..], key);
      InsertSorted(s[0], SortDesc(s[1..], key), key);
    }
  }

  lemma {:induction false} SortDescPermutes<T>(s: seq<T>, key: T -> real)
    ensures multiset(SortDesc(s, key)) == multiset(s)
    decreases |s|
  {
    if s != [] {
      SortDescPermutes(s[1..], key);
      InsertPermutes(s[0], SortDesc(s[1..], key), key);
      assert s == [s[0]] + s[1..];
    }
  }

  lemma {:induction false} SortDescStable<T>(s: seq<T>, key: T -> real, k: real)
    ensures WithKey(SortDesc(s, key), key, k) == WithKey(s, key, k)
    decreases |s|
  {
    if s != [] {
      SortDescStable(s[1..], key, k);
      InsertWithKey(s[0], SortDesc(s[1..], key), key, k);
      WithKeyCons(s[0], s[1..], key, k);
      assert [s[0]] + s[1..] == s;
    }
  }

  /** The sort yields a descending permutation of its input, and it is stable. */
  lemma SortDescSpec<T>(s: seq<T>, key: T -> real)
    ensures SortedDesc(SortDesc(s, key), key)
    ensures multiset(SortDesc(s, key)) == multiset(s)
    ensures |SortDesc(s, key)| == |s|
    ensures forall k :: WithKey(SortDesc(s, key), key, k) == WithKey(s, key, k)
  {
    SortDescSorted(s, key);
    SortDescPermutes(s, key);
    forall k ensures WithKey(SortDesc(s, key), key, k) == WithKey(s, key, k) {
      SortDescStable(s, key, k);
    }
    assert |multiset(SortDesc(s, key))| == |SortDesc(s, key)|;
    assert |multiset(s)| == |s|;
  }

  /** A subsequence taken by `filter` keeps the descending order. */
  lemma {:induction false} FilterSorted<T>(s: seq<T>, p: T -> bool, key: T -> real)
    requires SortedDesc(s, key)
    ensures SortedDesc(Filter(s, p), key)
    decreases |s|
  {
    if s != [] {
      FilterSorted(s[1..], p, key);
      var f := Filter(s[1..], p);
      if p(s[0]) {
        forall i, j | 0 <= i < j < |[s[0]] + f| ensures key(([s[0]] + f)[i]) >= key(([s[0]] + f)[j]) {
          if i == 0 {
            assert ([s[0]] + f)[j] in f;
            assert ([s[0]] + f)[j] in s[1..];
          }
        }
      }
    }
  }

  /**
   * In a descending sequence the last element that satisfies `p` has the
   * smallest key among all elements that satisfy `p`.
   */
  lemma LastOfFilterIsMin<T>(s: seq<T>, p: T -> bool, key: T -> real)
    requires SortedDesc(s, key)
    requires Filter(s, p) != []
    ensures forall x :: x in s && p(x) ==> key(x) >= key(Last(Filter(s, p)))
  {
    FilterSorted(s, p, key);
    var f := Filter(s, p);
    forall x | x in s && p(x) ensures key(x) >= key(Last(f)) {
      assert x in f;
      var i :| 0 <= i < |f| && f[i] == x;
      if i < |f| - 1 {
        assert key(f[i]) >= key(f[|f| - 1]);
      }
    }
  }

  /**
   * `filter(p).at(-1)` is an element of `s` after which no element satisfies
   * `p`: it is the last one that does.
   */
  lemma {:induction false} LastOfFilterIndex<T>(s: seq<T>, p: T -> bool) returns (j: nat)
    requires Filter(s, p) != []
    ensures j < |s| && s[j] == Last(Filter(s, p))
    ensures forall i :: j < i < |s| ==> !p(s[i])
    decreases |s|
  {
    var rest := Filter(s[1..], p);
    if rest != [] {
      var k := LastOfFilterIndex(s[1..], p);
      j := k + 1;
      assert Filter(s, p) == (if p(s[0]) then [s[0]] else []) + rest;
      forall i | j < i < |s| ensures !p(s[i]) {
        assert s[i] == s[1..][i - 1];
      }
    } else {
      j := 0;
      forall i | 0 < i < |s| ensures !p(s[i]) {
        assert s[i] == s[1..][i - 1];
      }
    }
  }

  // ---------------------------------------------------------------------------
  // Permutations

  /** Removing one element keeps the rest of a multiset. */
  lemma RemoveAt<T>(t: seq<T>, k: nat)
    requires k < |t|
    ensures multiset(t[..k] + t[k + 1..]) == multiset(t) - multiset{t[k]}
  {
    assert t == t[..k] + [t[k]] + t[k + 1..];
  }

  /** The element at `k` of the shortened sequence is the one at `k` or `k + 1` of the original. */
  lemma RemoveAtIndex<T>(t: seq<T>, k: nat, m: nat)
    requires k < |t| && m < |t| - 1
    ensures (t[..k] + t[k + 1..])[m] == t[if m < k then m else m + 1]
  {
  }

  /** An element of the multiset of a sequence sits at some index. */
  lemma IndexOf<T>(t: seq<T>, x: T) returns (k: nat)
    requires x in multiset(t)
    ensures k < |t| && t[k] == x
  {
    assert x in t;
    k :| 0 <= k < |t| && t[k] == x;
  }

  lemma SumRemove<T>(t: seq<T>, k: nat, w: T -> int)
    requires k < |t|
    ensures Sum(t, w) == Sum(t[..k] + t[k + 1..], w) + w(t[k])
  {
    var p := t[..k + 1];
    assert t == p + t[k + 1..];
    SumConcat(p, t[k + 1..], w);
    assert p[..|p| - 1] == t[..k];
    SumConcat(t[..k], t[k + 1..], w);
  }

  /** The sum does not depend on the order of the elements. */
  lemma {:induction false} SumPermutation<T>(s: seq<T>, t: seq<T>, w: T -> int)
    requires multiset(s) == multiset(t)
    ensures Sum(s, w) == Sum(t, w)
    decreases |s|
  {
    if s == [] {
      assert |t| == |multiset(t)|;
    } else {
      var x := s[|s| - 1];
      var s' := s[..|s| - 1];
      assert s == s' + [x];
      var k := IndexOf(t, x);
      var t' := t[..k] + t[k + 1..];
      RemoveAt(t, k);
      assert multiset(s') == multiset(t');
      SumPermutation(s', t', w);
      SumRemove(t, k, w);
    }
  }

  /** A sequence without repetitions has as many members as elements. */
  lemma {:induction false} DistinctCard<T>(s: seq<T>)
    requires forall i, j :: 0 <= i < j < |s| ==> s[i] != s[j]
    ensures |set x | x in s| == |s|
    decreases |s|
  {
    if s != [] {
      var pre := s[..|s| - 1];
      DistinctCard(pre);
      assert (set x | x in s) == (set x | x in pre) + {s[|s| - 1]};
      assert s[|s| - 1] !in pre;
    }
  }

  predicate DistinctKeys<T, K(==)>(s: seq<T>, f: T -> K) {
    forall i, j :: 0 <= i < j < |s| ==> f(s[i]) != f(s[j])
  }

  lemma DistinctKeysRemove<T, K>(s: seq<T>, k: nat, f: T -> K)
    requires k < |s| && DistinctKeys(s, f)
    ensures DistinctKeys(s[..k] + s[k + 1..], f)
    ensures var s' := s[..k] + s[k + 1..]; forall m :: 0 <= m < |s'| ==> f(s'[m]) != f(s[k])
  {
    var s' := s[..k] + s[k + 1..];
    forall i, j | 0 <= i < j < |s'| ensures f(s'[i]) != f(s'[j]) {
      RemoveAtIndex(s, k, i);
      RemoveAtIndex(s, k, j);
    }
    forall m | 0 <= m < |s'| ensures f(s'[m]) != f(s[k]) {
      RemoveAtIndex(s, k, m);
    }
  }

  /** The sort keeps exactly the elements of its input. */
  lemma SortDescMembers<T>(s: seq<T>, key: T -> real)
    ensures forall i :: 0 <= i < |SortDesc(s, key)| ==> SortDesc(s, key)[i] in s
    ensures forall j :: 0 <= j < |s| ==> s[j] in SortDesc(s, key)
  {
    var t := SortDesc(s, key);
    SortDescSpec(s, key);
    forall i | 0 <= i < |t| ensures t[i] in s {
      assert t[i] in multiset(t);
    }
    forall j | 0 <= j < |s| ensures s[j] in t {
      assert s[j] in multiset(s);
    }
  }

  /** An element the sort-and-cut leaves out has a key no greater than any element kept. */
  lemma SortDescCut<T>(s: seq<T>, key: T -> real, n: nat, x: T)
    requires x in s && x !in Take(SortDesc(s, key), n)
    ensures forall i :: 0 <= i < |Take(SortDesc(s, key), n)| ==> key(Take(SortDesc(s, key), n)[i]) >= key(x)
  {
    var t := SortDesc(s, key);
    SortDescSpec(s, key);
    SortDescMembers(s, key);
    var j :| 0 <= j < |s| && s[j] == x;
    var m :| 0 <= m < |t| && t[m] == x;
    assert m >= |Take(t, n)|;
  }

  /** Elements whose keys are pairwise different stay so under any permutation. */
  lemma {:induction false} DistinctKeysPermutation<T, K>(s: seq<T>, t: seq<T>, f: T -> K)
    requires multiset(s) == multiset(t)
    requires DistinctKeys(s, f)
    ensures DistinctKeys(t, f)
    decreases |t|
  {
    if t != [] {
      var k := IndexOf(s, t[0]);
      var s' := s[..k] + s[k + 1..];
      RemoveAt(s, k);
      DistinctKeysRemove(s, k, f);
      assert t == [t[0]] + t[1..];
      assert multiset(s') == multiset(t[1..]);
      DistinctKeysPermutation(s', t[1..], f);
      forall j | 0 < j < |t| ensures f(t[0]) != f(t[j]) {
        assert t[j] == t[1..][j - 1];
        var m := IndexOf(s', t[j]);
      }
    }
  }
}
