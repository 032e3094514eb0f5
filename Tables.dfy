/** The dataframe primitives the dashboard is built from, restated over
    sequences of rows: a boolean-mask filter, a group-by that counts and sums
    per key, and a sort of the resulting groups by a score. */
module Tables {

  datatype Option<T> = None | Some(value: T)

  // ---------------------------------------------------------------------
  // Boolean masks

  /** The rows of `s` that satisfy `p`, in their original order. */
  function Filter<T(!new)>(s: seq<T>, p: T -> bool): (r: seq<T>)
    ensures |r| <= |s|
    ensures forall x :: x in r <==> x in s && p(x)
  {
    if s == [] then []
    else
      var rest := Filter(s[1..], p);
      assert forall x :: x in s <==> x == s[0] || x in s[1..];
      if p(s[0]) then [s[0]] + rest else rest
  }

  /** A masked row keeps its multiplicity; an unmasked row disappears. */
  lemma {:induction false} FilterMultiplicity<T(!new)>(s: seq<T>, p: T -> bool, x: T)
    ensures multiset(Filter(s, p))[x] == if p(x) then multiset(s)[x] else 0
  {
    if s != [] {
      FilterMultiplicity(s[1..], p, x);
      assert s == [s[0]] + s[1..];
    }
  }

  /** Masking a concatenation masks each part: together with
      `Filter([x], p) == if p(x) then [x] else []` this fixes the order of the
      kept rows to be their order in the input. */
  lemma {:induction false} FilterAppend<T(!new)>(a: seq<T>, b: seq<T>, p: T -> bool)
    ensures Filter(a + b, p) == Filter(a, p) + Filter(b, p)
  {
    if a != [] {
      FilterAppend(a[1..], b, p);
      assert (a + b)[1..] == a[1..] + b;
    } else {
      assert a + b == b;
    }
  }

  /** A mask that holds on every row keeps the table unchanged. */
  lemma {:induction false} FilterKeepsAll<T(!new)>(s: seq<T>, p: T -> bool)
    requires forall x :: x in s ==> p(x)
    ensures Filter(s, p) == s
  {
    if s != [] {
      FilterKeepsAll(s[1..], p);
    }
  }

  // ---------------------------------------------------------------------
  // Reference definitions: counts and sums over the rows themselves

  function SumOf<T>(rows: seq<T>, val: T -> int): int
  {
    if rows == [] then 0 else val(rows[0]) + SumOf(rows[1..], val)
  }

  /** Number of rows whose key is `k`. */
  function CountKey<T, K(==,!new)>(rows: seq<T>, key: T -> K, k: K): nat
  {
    if rows == [] then 0
    else (if key(rows[0]) == k then 1 else 0) + CountKey(rows[1..], key, k)
  }

  /** Sum of `val` over the rows whose key is `k`. */
  function SumKey<T, K(==,!new)>(rows: seq<T>, key: T -> K, val: T -> int, k: K): int
  {
    if rows == [] then 0
    else (if key(rows[0]) == k then val(rows[0]) else 0) + SumKey(rows[1..], key, val, k)
  }

  /** The keys that occur in the rows. */
  function KeySet<T, K(==,!new)>(rows: seq<T>, key: T -> K): set<K>
  {
    if rows == [] then {} else {key(rows[0])} + KeySet(rows[1..], key)
  }

  /** Masking rows can only lower a per-key sum of non-negative values. */
  lemma {:induction false} SumKeyFilterAtMost<T(!new), K(!new)>(rows: seq<T>, p: T -> bool, key: T -> K, val: T -> int, k: K)
    requires forall x :: x in rows ==> val(x) >= 0
    ensures SumKey(Filter(rows, p), key, val, k) <= SumKey(rows, key, val, k)
  {
    if rows != [] {
      SumKeyFilterAtMost(rows[1..], p, key, val, k);
      assert rows[0] in rows;
      if p(rows[0]) {
        assert Filter(rows, p) == [rows[0]] + Filter(rows[1..], p);
        assert ([rows[0]] + Filter(rows[1..], p))[1..] == Filter(rows[1..], p);
      }
    }
  }

  /** Masking rows can only remove keys. */
  lemma {:induction false} KeySetFilter<T(!new), K(!new)>(rows: seq<T>, p: T -> bool, key: T -> K)
    ensures KeySet(Filter(rows, p), key) <= KeySet(rows, key)
  {
    if rows != [] {
      KeySetFilter(rows[1..], p, key);
      if p(rows[0]) {
        assert ([rows[0]] + Filter(rows[1..], p))[1..] == Filter(rows[1..], p);
      }
    }
  }

  // ---------------------------------------------------------------------
  // Groups: one (key, size, total) row per distinct key

  datatype Group<K> = Group(key: K, size: nat, total: int)

  function Keys<K(==)>(gs: seq<Group<K>>): set<K>
  {
    if gs == [] then {} else {gs[0].key} + Keys(gs[1..])
  }

  predicate DistinctKeys<K(==)>(gs: seq<Group<K>>)
  {
    gs == [] || (gs[0].key !in Keys(gs[1..]) && DistinctKeys(gs[1..]))
  }

  /** Size of the first group with key `k`, or 0 if there is none. */
  function SizeAt<K(==)>(gs: seq<Group<K>>, k: K): nat
  {
    if gs == [] then 0 else if gs[0].key == k then gs[0].size else SizeAt(gs[1..], k)
  }

  /** Total of the first group with key `k`, or 0 if there is none. */
  function TotalAt<K(==)>(gs: seq<Group<K>>, k: K): int
  {
    if gs == [] then 0 else if gs[0].key == k then gs[0].total else TotalAt(gs[1..], k)
  }

  function Sizes<K(==)>(gs: seq<Group<K>>): nat
  {
    if gs == [] then 0 else gs[0].size + Sizes(gs[1..])
  }

  function Totals<K(==)>(gs: seq<Group<K>>): int
  {
    if gs == [] then 0 else gs[0].total + Totals(gs[1..])
  }

  /** `gs` is the group-by of `rows` on `key`, summing `val`: one group per
      key present, each with the number of its rows and the sum of their
      values, no empty group, and the counts and sums add up to the table's. */
  ghost predicate IsGrouping<T, K(!new)>(gs: seq<Group<K>>, rows: seq<T>, key: T -> K, val: T -> int)
  {
    && DistinctKeys(gs)
    && (forall g :: g in gs ==> g.size >= 1)
    && Keys(gs) == KeySet(rows, key)
    && (forall k :: SizeAt(gs, k) == CountKey(rows, key, k))
    && (forall k :: TotalAt(gs, k) == SumKey(rows, key, val, k))
    && Sizes(gs) == |rows|
    && Totals(gs) == SumOf(rows, val)
  }

  /** Adds one row with key `k` and value `v` to the groups. */
  function Bump<K(==,!new)>(gs: seq<Group<K>>, k: K, v: int): (r: seq<Group<K>>)
    ensures Keys(r) == Keys(gs) + {k}
    ensures forall j :: SizeAt(r, j) == SizeAt(gs, j) + (if j == k then 1 else 0)
    ensures forall j :: TotalAt(r, j) == TotalAt(gs, j) + (if j == k then v else 0)
    ensures Sizes(r) == Sizes(gs) + 1 && Totals(r) == Totals(gs) + v
    ensures DistinctKeys(gs) ==> DistinctKeys(r)
    ensures (forall g :: g in gs ==> g.size >= 1) ==> forall g :: g in r ==> g.size >= 1
  {
    if gs == [] then [Group(k, 1, v)]
    else if gs[0].key == k then
      var r := [Group(k, gs[0].size + 1, gs[0].total + v)] + gs[1..];
      assert r[1..] == gs[1..];
      r
    else
      var rest := Bump(gs[1..], k, v);
      var r := [gs[0]] + rest;
      assert r[1..] == rest;
      r
  }

  /** Group-by: the groups of `rows` on `key`, in no particular order. */
  function GroupRows<T, K(==,!new)>(rows: seq<T>, key: T -> K, val: T -> int): (gs: seq<Group<K>>)
    ensures IsGrouping(gs, rows, key, val)
  {
    if rows == [] then []
    else Bump(GroupRows(rows[1..], key, val), key(rows[0]), val(rows[0]))
  }

  /** A group list over an empty key set is empty, so a grouping of no rows has no groups. */
  lemma GroupingOfNothing<T, K(!new)>(gs: seq<Group<K>>, key: T -> K, val: T -> int)
    requires IsGrouping(gs, [], key, val)
    ensures gs == []
  {
  }

  /** Each listed group carries its key's row count and value sum, and its key occurs in the rows. */
  lemma GroupOfKey<T, K(!new)>(gs: seq<Group<K>>, rows: seq<T>, key: T -> K, val: T -> int, i: nat)
    requires IsGrouping(gs, rows, key, val) && i < |gs|
    ensures gs[i].size == CountKey(rows, key, gs[i].key) >= 1
    ensures gs[i].total == SumKey(rows, key, val, gs[i].key)
    ensures gs[i].key in KeySet(rows, key)
  {
    DistinctAt(gs, i);
    assert gs[i] in gs;
    MemberKey(gs, i);
  }

  lemma {:induction false} MemberKey<K>(gs: seq<Group<K>>, i: nat)
    requires i < |gs|
    ensures gs[i].key in Keys(gs)
  {
    if i > 0 {
      MemberKey(gs[1..], i - 1);
    }
  }

  /** With distinct keys, looking a group up by its key finds that group. */
  lemma {:induction false} DistinctAt<K>(gs: seq<Group<K>>, i: nat)
    requires DistinctKeys(gs) && i < |gs|
    ensures SizeAt(gs, gs[i].key) == gs[i].size && TotalAt(gs, gs[i].key) == gs[i].total
    ensures forall j :: 0 <= j < |gs| && j != i ==> gs[j].key != gs[i].key
  {
    if i > 0 {
      DistinctAt(gs[1..], i - 1);
      MemberKey(gs[1..], i - 1);
    } else {
      forall j | 0 < j < |gs| ensures gs[j].key != gs[0].key {
        MemberKey(gs[1..], j - 1);
      }
    }
  }

  // ---------------------------------------------------------------------
  // Sorting the groups

  predicate SortedBy<K(==)>(gs: seq<Group<K>>, score: Group<K> -> int)
  {
    forall i, j :: 0 <= i < j < |gs| ==> score(gs[i]) <= score(gs[j])
  }

  /** Puts `x` in front of the first element that does not score below it. */
  function Insert<K(==,!new)>(x: Group<K>, s: seq<Group<K>>, score: Group<K> -> int): (r: seq<Group<K>>)
    ensures multiset(r) == multiset(s) + multiset{x}
  {
    if s == [] || score(x) <= score(s[0]) then [x] + s
    else
      assert s == [s[0]] + s[1..];
      [s[0]] + Insert(x, s[1..], score)
  }

  /** Inserting a group that scores at least `lo` into groups that all do keeps them all at least `lo`. */
  lemma {:induction false} InsertAbove<K(!new)>(x: Group<K>, s: seq<Group<K>>, score: Group<K> -> int, lo: int)
    requires lo <= score(x) && forall i :: 0 <= i < |s| ==> lo <= score(s[i])
    ensures forall i :: 0 <= i < |Insert(x, s, score)| ==> lo <= score(Insert(x, s, score)[i])
  {
    if s != [] && score(x) > score(s[0]) {
      InsertAbove(x, s[1..], score, lo);
      assert Insert(x, s, score) == [s[0]] + Insert(x, s[1..], score);
    }
  }

  /** Insertion keeps a sorted list sorted. */
  lemma {:induction false} InsertSorted<K(!new)>(x: Group<K>, s: seq<Group<K>>, score: Group<K> -> int)
    requires SortedBy(s, score)
    ensures SortedBy(Insert(x, s, score), score)
  {
    if s != [] && score(x) > score(s[0]) {
      InsertSorted(x, s[1..], score);
      InsertAbove(x, s[1..], score, score(s[0]));
      assert Insert(x, s, score) == [s[0]] + Insert(x, s[1..], score);
    }
  }

  /** Inserting a group adds its key, size and total, and keeps keys distinct when its key is new. */
  lemma {:induction false} InsertTallies<K(!new)>(x: Group<K>, s: seq<Group<K>>, score: Group<K> -> int)
    ensures Keys(Insert(x, s, score)) == Keys(s) + {x.key}
    ensures Sizes(Insert(x, s, score)) == Sizes(s) + x.size
    ensures Totals(Insert(x, s, score)) == Totals(s) + x.total
    ensures x.key !in Keys(s) && DistinctKeys(s) ==>
              DistinctKeys(Insert(x, s, score))
              && (forall k :: SizeAt(Insert(x, s, score), k) == if k == x.key then x.size else SizeAt(s, k))
              && (forall k :: TotalAt(Insert(x, s, score), k) == if k == x.key then x.total else TotalAt(s, k))
  {
    var r := Insert(x, s, score);
    if s == [] || score(x) <= score(s[0]) {
      assert r == [x] + s;
      assert r[1..] == s;
    } else {
      var rest := Insert(x, s[1..], score);
      InsertTallies(x, s[1..], score);
      assert r == [s[0]] + rest;
      assert r[1..] == rest;
      if x.key !in Keys(s) && DistinctKeys(s) {
        forall k ensures SizeAt(r, k) == (if k == x.key then x.size else SizeAt(s, k))
                    && TotalAt(r, k) == (if k == x.key then x.total else TotalAt(s, k)) {
          assert s[0].key != x.key;
        }
      }
    }
  }

  /** Insertion sort of groups by ascending `score`. */
  function SortBy<K(==,!new)>(gs: seq<Group<K>>, score: Group<K> -> int): (r: seq<Group<K>>)
    ensures multiset(r) == multiset(gs)
    ensures SortedBy(r, score)
    ensures Keys(r) == Keys(gs)
    ensures Sizes(r) == Sizes(gs) && Totals(r) == Totals(gs)
    ensures DistinctKeys(gs) ==>
              DistinctKeys(r)
              && (forall k :: SizeAt(r, k) == SizeAt(gs, k))
              && (forall k :: TotalAt(r, k) == TotalAt(gs, k))
  {
    if gs == [] then []
    else
      assert gs == [gs[0]] + gs[1..];
      InsertTallies(gs[0], SortBy(gs[1..], score), score);
      InsertSorted(gs[0], SortBy(gs[1..], score), score);
      Insert(gs[0], SortBy(gs[1..], score), score)
  }

  /** Sorting a grouping gives the same grouping. */
  lemma SortKeepsGrouping<T, K(!new)>(gs: seq<Group<K>>, rows: seq<T>, key: T -> K, val: T -> int, score: Group<K> -> int)
    requires IsGrouping(gs, rows, key, val)
    ensures IsGrouping(SortBy(gs, score), rows, key, val)
  {
    var r := SortBy(gs, score);
    forall g | g in r ensures g.size >= 1 {
      assert multiset(r)[g] > 0;
      assert g in gs;
    }
  }

  /** Sorted by a score that separates distinct keys, distinct keys come out strictly ascending. */
  lemma StrictlySorted<K(!new)>(gs: seq<Group<K>>, score: Group<K> -> int)
    requires DistinctKeys(gs) && SortedBy(gs, score)
    requires forall g: Group<K>, h: Group<K> :: g.key != h.key ==> score(g) != score(h)
    ensures forall i, j :: 0 <= i < j < |gs| ==> score(gs[i]) < score(gs[j])
  {
    forall i, j | 0 <= i < j < |gs| ensures score(gs[i]) < score(gs[j]) {
      DistinctAt(gs, i);
    }
  }
}
