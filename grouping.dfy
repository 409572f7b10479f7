/**
 * The group-and-accumulate loop that every aggregation of the source repeats:
 *
 *   for (const row of rows) {
 *     const existing = map.get(key(row))
 *     if (existing) update existing with row   // step
 *     else map.set(key(row), fresh entry)       // init
 *   }
 *
 * A JavaScript `Map` iterates in insertion order and `set` on a present key
 * keeps its position, so the map is an insertion-ordered sequence of groups.
 * `GroupRows` is the specification, `Aggregate` the loop proved equal to it.
 */
module Grouping {
  import opened Seqs

  datatype Group<K, A> = Group(key: K, acc: A)

  /** Where `k` sits among the groups, or `|gs|` when it is absent (`map.get` is undefined). */
  function IndexOfKey<K(==), A>(gs: seq<Group<K, A>>, k: K): (i: nat)
    ensures i <= |gs|
    ensures i < |gs| ==> gs[i].key == k
    ensures forall j :: 0 <= j < i ==> gs[j].key != k
  {
    if |gs| == 0 then 0 else if gs[0].key == k then 0 else 1 + IndexOfKey(gs[1..], k)
  }

  /** One iteration of the loop. */
  function AddRow<K(==), V, A>(gs: seq<Group<K, A>>, r: V, key: V -> K, init: V -> A, step: (A, V) -> A)
    : seq<Group<K, A>>
  {
    var i := IndexOfKey(gs, key(r));
    if i == |gs| then gs + [Group(key(r), init(r))]
    else gs[i := Group(key(r), step(gs[i].acc, r))]
  }

  /** The map after the whole loop, as an insertion-ordered sequence of groups. */
  function GroupRows<K(==), V, A>(rows: seq<V>, key: V -> K, init: V -> A, step: (A, V) -> A)
    : seq<Group<K, A>>
    decreases |rows|
  {
    if rows == [] then []
    else AddRow(GroupRows(rows[..|rows| - 1], key, init, step), rows[|rows| - 1], key, init, step)
  }

  /** The rows whose key is `k`, in input order. */
  function RowsWithKey<K(==), V>(rows: seq<V>, key: V -> K, k: K): seq<V>
    decreases |rows|
  {
    if rows == [] then []
    else
      var rest := RowsWithKey(rows[..|rows| - 1], key, k);
      if key(rows[|rows| - 1]) == k then rest + [rows[|rows| - 1]] else rest
  }

  /** Folding the rows of one group, the first through `init`, the others through `step`. */
  function Fold<V, A>(rs: seq<V>, init: V -> A, step: (A, V) -> A): A
    requires |rs| > 0
  {
    if |rs| == 1 then init(rs[0]) else step(Fold(rs[..|rs| - 1], init, step), rs[|rs| - 1])
  }

  predicate KeysDistinct<K(==), A>(gs: seq<Group<K, A>>) {
    forall i, j :: 0 <= i < j < |gs| ==> gs[i].key != gs[j].key
  }

  lemma {:induction false} RowsWithKeyMember<K, V>(rows: seq<V>, key: V -> K, k: K)
    ensures forall x :: x in RowsWithKey(rows, key, k) ==> x in rows && key(x) == k
    ensures RowsWithKey(rows, key, k) == [] <==> forall x :: x in rows ==> key(x) != k
    decreases |rows|
  {
    if rows != [] {
      var pre := rows[..|rows| - 1];
      RowsWithKeyMember(pre, key, k);
      assert forall x :: x in rows <==> x in pre || x == rows[|rows| - 1];
    }
  }

  /** The first row of a key's group is the first row of the input with that key. */
  lemma {:induction false} RowsWithKeyFirst<K, V>(rows: seq<V>, key: V -> K, k: K, n: nat)
    requires n < |rows| && key(rows[n]) == k
    requires forall m :: 0 <= m < n ==> key(rows[m]) != k
    ensures RowsWithKey(rows, key, k) != [] && RowsWithKey(rows, key, k)[0] == rows[n]
    decreases |rows|
  {
    if n < |rows| - 1 {
      RowsWithKeyFirst(rows[..|rows| - 1], key, k, n);
    } else {
      var pre := rows[..|rows| - 1];
      RowsWithKeyMember(pre, key, k);
      assert forall x :: x in pre ==> key(x) != k;
    }
  }

  /**
   * The keys of the grouping: distinct, at most one group per row, a group
   * for every row's key, and no group without a row.
   */
  lemma {:induction false} GroupRowsKeys<K, V, A>(rows: seq<V>, key: V -> K, init: V -> A, step: (A, V) -> A)
    ensures var gs := GroupRows(rows, key, init, step);
      && KeysDistinct(gs)
      && |gs| <= |rows|
      && (forall r :: r in rows ==> IndexOfKey(gs, key(r)) < |gs|)
      && (forall i :: 0 <= i < |gs| ==> RowsWithKey(rows, key, gs[i].key) != [])
    decreases |rows|
  {
    if rows != [] {
      var pre := rows[..|rows| - 1];
      var r := rows[|rows| - 1];
      var gs := GroupRows(pre, key, init, step);
      GroupRowsKeys(pre, key, init, step);
      AddRowKeys(gs, r, key, init, step);
      var gs' := GroupRows(rows, key, init, step);
      assert gs' == AddRow(gs, r, key, init, step);
      var k := key(r);
      assert forall x :: x in rows <==> x in pre || x == r;
      RowsWithKeyMember(rows, key, k);
      forall j | 0 <= j < |gs| ensures RowsWithKey(rows, key, gs[j].key) != [] {
        RowsWithKeyMember(pre, key, gs[j].key);
        RowsWithKeyMember(rows, key, gs[j].key);
      }
      forall x | x in rows ensures IndexOfKey(gs', key(x)) < |gs'| {
        if x in pre {
          assert gs'[IndexOfKey(gs, key(x))].key == key(x);
        }
      }
    }
  }

  /** One iteration keeps the keys distinct and in place, and adds at most the row's key at the end. */
  lemma AddRowKeys<K, V, A>(gs: seq<Group<K, A>>, r: V, key: V -> K, init: V -> A, step: (A, V) -> A)
    requires KeysDistinct(gs)
    ensures var gs' := AddRow(gs, r, key, init, step);
      && KeysDistinct(gs')
      && |gs| <= |gs'| <= |gs| + 1
      && (forall j :: 0 <= j < |gs| ==> gs'[j].key == gs[j].key)
      && (forall j :: |gs| <= j < |gs'| ==> gs'[j].key == key(r))
      && IndexOfKey(gs', key(r)) < |gs'|
  {
    var i := IndexOfKey(gs, key(r));
    var gs' := AddRow(gs, r, key, init, step);
    assert gs'[i].key == key(r);
  }

  /** The keys of the map, in insertion order. */
  function Keys<K, A>(gs: seq<Group<K, A>>): (ks: seq<K>)
    ensures |ks| == |gs| && forall i :: 0 <= i < |gs| ==> ks[i] == gs[i].key
  {
    seq(|gs|, i requires 0 <= i < |gs| => gs[i].key)
  }

  function RowKeys<K, V>(rows: seq<V>, key: V -> K): (ks: seq<K>)
    ensures |ks| == |rows| && forall i :: 0 <= i < |rows| ==> ks[i] == key(rows[i])
  {
    seq(|rows|, i requires 0 <= i < |rows| => key(rows[i]))
  }

  /** A new key is appended; an existing group keeps its key and place. */
  lemma KeysAddRow<K, V, A>(gs: seq<Group<K, A>>, r: V, key: V -> K, init: V -> A, step: (A, V) -> A)
    ensures Keys(AddRow(gs, r, key, init, step)) ==
      if key(r) in Keys(gs) then Keys(gs) else Keys(gs) + [key(r)]
  {
    var i := IndexOfKey(gs, key(r));
    if key(r) in Keys(gs) {
      var j :| 0 <= j < |gs| && Keys(gs)[j] == key(r);
      assert i <= j;
    }
  }

  /** The map's keys are the distinct keys of the rows, in order of first appearance. */
  lemma {:induction false} GroupKeys<K, V, A>(rows: seq<V>, key: V -> K, init: V -> A, step: (A, V) -> A)
    ensures Keys(GroupRows(rows, key, init, step)) == Distinct(RowKeys(rows, key))
    decreases |rows|
  {
    var ks := RowKeys(rows, key);
    if rows == [] {
      assert ks == [];
    } else {
      var pre := rows[..|rows| - 1];
      GroupKeys(pre, key, init, step);
      KeysAddRow(GroupRows(pre, key, init, step), rows[|rows| - 1], key, init, step);
      assert ks[..|ks| - 1] == RowKeys(pre, key);
    }
  }

  /** Each group's accumulator is the fold of exactly the rows carrying its key, in input order. */
  lemma {:induction false} GroupRowsAcc<K, V, A>(rows: seq<V>, key: V -> K, init: V -> A, step: (A, V) -> A)
    ensures var gs := GroupRows(rows, key, init, step);
      forall i :: 0 <= i < |gs| ==>
        RowsWithKey(rows, key, gs[i].key) != []
        && gs[i].acc == Fold(RowsWithKey(rows, key, gs[i].key), init, step)
    decreases |rows|
  {
    GroupRowsKeys(rows, key, init, step);
    if rows != [] {
      var pre := rows[..|rows| - 1];
      var r := rows[|rows| - 1];
      var gs := GroupRows(pre, key, init, step);
      GroupRowsAcc(pre, key, init, step);
      GroupRowsKeys(pre, key, init, step);
      var k := key(r);
      var i := IndexOfKey(gs, k);
      var gs' := GroupRows(rows, key, init, step);
      assert gs' == AddRow(gs, r, key, init, step);
      forall j | 0 <= j < |gs'|
        ensures gs'[j].acc == Fold(RowsWithKey(rows, key, gs'[j].key), init, step)
      {
        if j < |gs| && j != i {
          assert gs'[j] == gs[j];
          assert gs[j].key != k;
          assert RowsWithKey(rows, key, gs[j].key) == RowsWithKey(pre, key, gs[j].key);
        } else if j == i && i < |gs| {
          var rk := RowsWithKey(pre, key, k);
          assert RowsWithKey(rows, key, k) == rk + [r];
          assert (rk + [r])[..|rk + [r]| - 1] == rk;
        } else {
          assert forall x :: x in pre ==> key(x) != k;
          RowsWithKeyMember(pre, key, k);
          assert RowsWithKey(rows, key, k) == [r];
        }
      }
    }
  }

  /** A measure that `init` starts at a row's weight and `step` raises by it. */
  lemma {:induction false} FoldSum<V, A>(rs: seq<V>, init: V -> A, step: (A, V) -> A, m: A -> int, w: V -> int)
    requires |rs| > 0
    requires forall r :: m(init(r)) == w(r)
    requires forall a, r :: m(step(a, r)) == m(a) + w(r)
    ensures m(Fold(rs, init, step)) == Sum(rs, w)
    decreases |rs|
  {
    if |rs| > 1 {
      FoldSum(rs[..|rs| - 1], init, step, m, w);
    } else {
      assert rs[..0] == [];
    }
  }

  /** A field that `init` copies from the row and `step` leaves alone is the first row's. */
  lemma {:induction false} FoldKeepsFirst<V, A, B>(rs: seq<V>, init: V -> A, step: (A, V) -> A, f: A -> B, g: V -> B)
    requires |rs| > 0
    requires forall r :: f(init(r)) == g(r)
    requires forall a, r :: f(step(a, r)) == f(a)
    ensures f(Fold(rs, init, step)) == g(rs[0])
    decreases |rs|
  {
    if |rs| > 1 {
      FoldKeepsFirst(rs[..|rs| - 1], init, step, f, g);
    }
  }

  /** `Array.from(map.values())`. */
  function Values<K, A>(gs: seq<Group<K, A>>): (r: seq<A>)
    ensures |r| == |gs| && forall i :: 0 <= i < |gs| ==> r[i] == gs[i].acc
  {
    seq(|gs|, i requires 0 <= i < |gs| => gs[i].acc)
  }

  /** A set that `init` starts with the row's image and `step` extends with it is the image of the rows. */
  lemma {:induction false} FoldSet<V, A, B>(rs: seq<V>, init: V -> A, step: (A, V) -> A, f: A -> set<B>, g: V -> B)
    requires |rs| > 0
    requires forall r :: f(init(r)) == {g(r)}
    requires forall a, r :: f(step(a, r)) == f(a) + {g(r)}
    ensures f(Fold(rs, init, step)) == Image(rs, g)
    decreases |rs|
  {
    if |rs| > 1 {
      FoldSet(rs[..|rs| - 1], init, step, f, g);
    } else {
      assert rs[..0] == [];
    }
  }

  /** Each group's set is the image of the group's rows. */
  lemma GroupSets<K, V, A, B>(rows: seq<V>, key: V -> K, init: V -> A, step: (A, V) -> A, f: A -> set<B>, g: V -> B)
    requires forall r :: f(init(r)) == {g(r)}
    requires forall a, r :: f(step(a, r)) == f(a) + {g(r)}
    ensures forall i :: 0 <= i < |GroupRows(rows, key, init, step)| ==>
      f(GroupRows(rows, key, init, step)[i].acc) == Image(RowsWithKey(rows, key, GroupRows(rows, key, init, step)[i].key), g)
  {
    var gs := GroupRows(rows, key, init, step);
    GroupRowsAcc(rows, key, init, step);
    GroupRowsKeys(rows, key, init, step);
    forall i | 0 <= i < |gs| ensures f(gs[i].acc) == Image(RowsWithKey(rows, key, gs[i].key), g) {
      FoldSet(RowsWithKey(rows, key, gs[i].key), init, step, f, g);
    }
  }

  /** A property that `init` establishes and `step` keeps holds of the fold. */
  lemma {:induction false} FoldInvariant<V, A>(rs: seq<V>, init: V -> A, step: (A, V) -> A, P: A -> bool)
    requires |rs| > 0
    requires forall r :: P(init(r))
    requires forall a, r :: P(a) ==> P(step(a, r))
    ensures P(Fold(rs, init, step))
    decreases |rs|
  {
    if |rs| > 1 {
      FoldInvariant(rs[..|rs| - 1], init, step, P);
    }
  }

  /** ... and so of every group's accumulator. */
  lemma GroupInvariant<K, V, A>(rows: seq<V>, key: V -> K, init: V -> A, step: (A, V) -> A, P: A -> bool)
    requires forall r :: P(init(r))
    requires forall a, r :: P(a) ==> P(step(a, r))
    ensures forall i :: 0 <= i < |GroupRows(rows, key, init, step)| ==> P(GroupRows(rows, key, init, step)[i].acc)
  {
    var gs := GroupRows(rows, key, init, step);
    GroupRowsAcc(rows, key, init, step);
    GroupRowsKeys(rows, key, init, step);
    forall i | 0 <= i < |gs| ensures P(gs[i].acc) {
      FoldInvariant(RowsWithKey(rows, key, gs[i].key), init, step, P);
    }
  }

  /** An accumulator that records its row's key, and keeps it, records its group's key. */
  lemma GroupAccKey<K, V, A>(rows: seq<V>, key: V -> K, init: V -> A, step: (A, V) -> A, f: A -> K)
    requires forall r :: f(init(r)) == key(r)
    requires forall a, r :: f(step(a, r)) == f(a)
    ensures forall i :: 0 <= i < |GroupRows(rows, key, init, step)| ==>
      f(GroupRows(rows, key, init, step)[i].acc) == GroupRows(rows, key, init, step)[i].key
  {
    var gs := GroupRows(rows, key, init, step);
    GroupRowsAcc(rows, key, init, step);
    forall i | 0 <= i < |gs| ensures f(gs[i].acc) == gs[i].key {
      var rs := RowsWithKey(rows, key, gs[i].key);
      FoldKeepsFirst(rs, init, step, f, key);
      RowsWithKeyMember(rows, key, gs[i].key);
      assert rs[0] in rs;
    }
  }

  /** A measure that `init` starts at a row's weight and `step` raises by it is, per group, the sum over its rows. */
  lemma GroupSums<K, V, A>(rows: seq<V>, key: V -> K, init: V -> A, step: (A, V) -> A, m: A -> int, w: V -> int)
    requires forall r :: m(init(r)) == w(r)
    requires forall a, r :: m(step(a, r)) == m(a) + w(r)
    ensures forall i :: 0 <= i < |GroupRows(rows, key, init, step)| ==>
      m(GroupRows(rows, key, init, step)[i].acc) == Sum(RowsWithKey(rows, key, GroupRows(rows, key, init, step)[i].key), w)
  {
    var gs := GroupRows(rows, key, init, step);
    GroupRowsAcc(rows, key, init, step);
    GroupRowsKeys(rows, key, init, step);
    forall i | 0 <= i < |gs| ensures m(gs[i].acc) == Sum(RowsWithKey(rows, key, gs[i].key), w) {
      FoldSum(RowsWithKey(rows, key, gs[i].key), init, step, m, w);
    }
  }

  /** Summed over all groups, such a measure gives the sum over all rows. */
  lemma {:induction false} GroupTotal<K, V, A>(rows: seq<V>, key: V -> K, init: V -> A, step: (A, V) -> A,
                                              m: A -> int, w: V -> int)
    requires forall r :: m(init(r)) == w(r)
    requires forall a, r :: m(step(a, r)) == m(a) + w(r)
    ensures Sum(Values(GroupRows(rows, key, init, step)), m) == Sum(rows, w)
    decreases |rows|
  {
    if rows != [] {
      var pre := rows[..|rows| - 1];
      var r := rows[|rows| - 1];
      var gs := GroupRows(pre, key, init, step);
      GroupTotal(pre, key, init, step, m, w);
      var i := IndexOfKey(gs, key(r));
      if i == |gs| {
        var vs := Values(gs + [Group(key(r), init(r))]);
        assert vs[..|gs|] == Values(gs);
      } else {
        assert Values(gs[i := Group(key(r), step(gs[i].acc, r))]) == Values(gs)[i := step(gs[i].acc, r)];
        SumUpdate(Values(gs), i, step(gs[i].acc, r), m);
      }
    }
  }

  /** Fields that `init` copies from a row and `step` leaves alone come, per group, from its first row. */
  lemma GroupKeepsFirst<K, V, A, B>(rows: seq<V>, key: V -> K, init: V -> A, step: (A, V) -> A, f: A -> B, g: V -> B)
    requires forall r :: f(init(r)) == g(r)
    requires forall a, r :: f(step(a, r)) == f(a)
    ensures forall i :: 0 <= i < |GroupRows(rows, key, init, step)| ==>
      RowsWithKey(rows, key, GroupRows(rows, key, init, step)[i].key) != [] &&
      f(GroupRows(rows, key, init, step)[i].acc) == g(RowsWithKey(rows, key, GroupRows(rows, key, init, step)[i].key)[0])
  {
    var gs := GroupRows(rows, key, init, step);
    GroupRowsAcc(rows, key, init, step);
    GroupRowsKeys(rows, key, init, step);
    forall i | 0 <= i < |gs| ensures f(gs[i].acc) == g(RowsWithKey(rows, key, gs[i].key)[0]) {
      FoldKeepsFirst(RowsWithKey(rows, key, gs[i].key), init, step, f, g);
    }
  }

  /** The loop of every aggregation site: one pass, one lookup per row. */
  method Aggregate<K(==), V, A>(rows: seq<V>, key: V -> K, init: V -> A, step: (A, V) -> A)
    returns (gs: seq<Group<K, A>>)
    ensures gs == GroupRows(rows, key, init, step)
  {
    gs := [];
    for n := 0 to |rows|
      invariant gs == GroupRows(rows[..n], key, init, step)
    {
      var r := rows[n];
      var k := key(r);
      var i := 0;
      while i < |gs| && gs[i].key != k
        invariant 0 <= i <= |gs|
        invariant forall j :: 0 <= j < i ==> gs[j].key != k
      {
        i := i + 1;
      }
      assert i == IndexOfKey(gs, k);
      if i == |gs| {
        gs := gs + [Group(k, init(r))];
      } else {
        gs := gs[i := Group(k, step(gs[i].acc, r))];
      }
      assert rows[..n + 1][..n] == rows[..n];
    }
    assert rows[..|rows|] == rows;
  }
}
