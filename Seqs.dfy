/**
 * Sequence helpers shared by the model: counting, first-seen de-duplication,
 * filtering, per-key sums of (key, amount) pairs, lookups by id and a stable
 * insertion sort.  Functions that fold a sequence recurse on its last element,
 * so that "the first k+1 elements" unfolds to "the first k elements, then one
 * more", which is how the loops of the model proceed.
 */
module Seqs {
  import opened Results

  /** Number of occurrences of `x` in `s`. */
  function Count<T(==)>(s: seq<T>, x: T): (n: nat)
    ensures n <= |s|
    ensures n > 0 <==> x in s
  {
    if s == [] then 0
    else
      assert s == s[..|s| - 1] + [s[|s| - 1]];
      Count(s[..|s| - 1], x) + (if s[|s| - 1] == x then 1 else 0)
  }

  lemma CountSnoc<T>(s: seq<T>, y: T, x: T)
    ensures Count(s + [y], x) == Count(s, x) + (if y == x then 1 else 0)
  {
    assert (s + [y])[..|s|] == s;
  }

  ghost predicate NoDup<T>(s: seq<T>) {
    forall i, j :: 0 <= i < j < |s| ==> s[i] != s[j]
  }

  /** The elements of `s` without repetitions, in order of first appearance. */
  function Distinct<T(==,!new)>(s: seq<T>): (d: seq<T>)
    ensures NoDup(d)
    ensures forall x :: x in d <==> x in s
    ensures |d| <= |s|
  {
    if s == [] then []
    else
      assert s == s[..|s| - 1] + [s[|s| - 1]];
      var d := Distinct(s[..|s| - 1]);
      if s[|s| - 1] in d then d else d + [s[|s| - 1]]
  }

  lemma DistinctSnoc<T(!new)>(s: seq<T>, y: T)
    ensures Distinct(s + [y]) == if y in Distinct(s) then Distinct(s) else Distinct(s) + [y]
  {
    assert (s + [y])[..|s|] == s;
  }

  /** The keys of a sequence of (key, amount) pairs. */
  function Keys<K, V>(s: seq<(K, V)>): (ks: seq<K>)
    ensures |ks| == |s|
    ensures forall i :: 0 <= i < |s| ==> ks[i] == s[i].0
  {
    seq(|s|, i requires 0 <= i < |s| => s[i].0)
  }

  lemma KeysSnoc<K, V>(s: seq<(K, V)>, p: (K, V))
    ensures Keys(s + [p]) == Keys(s) + [p.0]
  {
  }

  /** Sum of the amounts paired with key `k`. */
  function SumFor<K(==)>(s: seq<(K, real)>, k: K): real
  {
    if s == [] then 0.0
    else SumFor(s[..|s| - 1], k) + (if s[|s| - 1].0 == k then s[|s| - 1].1 else 0.0)
  }

  lemma SumForSnoc<K>(s: seq<(K, real)>, p: (K, real), k: K)
    ensures SumFor(s + [p], k) == SumFor(s, k) + (if p.0 == k then p.1 else 0.0)
  {
    assert (s + [p])[..|s|] == s;
  }

  lemma {:induction false} SumForAppend<K>(s: seq<(K, real)>, t: seq<(K, real)>, k: K)
    ensures SumFor(s + t, k) == SumFor(s, k) + SumFor(t, k)
  {
    if t == [] {
      assert s + t == s;
    } else {
      var init, p := t[..|t| - 1], t[|t| - 1];
      assert s + t == (s + init) + [p];
      assert t == init + [p];
      SumForAppend(s, init, k);
      SumForSnoc(s + init, p, k);
      SumForSnoc(init, p, k);
    }
  }

  lemma {:induction false} SumForAbsent<K>(s: seq<(K, real)>, k: K)
    requires k !in Keys(s)
    ensures SumFor(s, k) == 0.0
  {
    if s != [] {
      assert Keys(s[..|s| - 1]) == Keys(s)[..|s| - 1];
      SumForAbsent(s[..|s| - 1], k);
    }
  }

  /** `m` maps exactly the keys of `pairs`, each to the sum of the amounts paired with it. */
  ghost predicate SumsOf<K(!new)>(m: map<K, real>, pairs: seq<(K, real)>) {
    && (forall k :: k in m <==> k in Keys(pairs))
    && (forall k :: k in m ==> m[k] == SumFor(pairs, k))
  }

  /** `m[k] = (m[k] || 0) + v`. */
  function AddTo<K>(m: map<K, real>, k: K, v: real): map<K, real> {
    m[k := (if k in m then m[k] else 0.0) + v]
  }

  /** Adding one pair to a per-key accumulator keeps it the per-key sum. */
  lemma AddToSumsOf<K(!new)>(m: map<K, real>, pairs: seq<(K, real)>, p: (K, real))
    requires SumsOf(m, pairs)
    ensures SumsOf(AddTo(m, p.0, p.1), pairs + [p])
  {
    KeysSnoc(pairs, p);
    if p.0 !in m {
      SumForAbsent(pairs, p.0);
    }
    forall k | k in AddTo(m, p.0, p.1)
      ensures AddTo(m, p.0, p.1)[k] == SumFor(pairs + [p], k)
    {
      SumForSnoc(pairs, p, k);
    }
  }

  /** Sum of all amounts. */
  function Total<K>(s: seq<(K, real)>): real
  {
    if s == [] then 0.0 else Total(s[..|s| - 1]) + s[|s| - 1].1
  }

  lemma TotalSnoc<K>(s: seq<(K, real)>, p: (K, real))
    ensures Total(s + [p]) == Total(s) + p.1
  {
    assert (s + [p])[..|s|] == s;
  }

  lemma {:induction false} TotalAppend<K>(s: seq<(K, real)>, t: seq<(K, real)>)
    ensures Total(s + t) == Total(s) + Total(t)
  {
    if t == [] {
      assert s + t == s;
    } else {
      var init, p := t[..|t| - 1], t[|t| - 1];
      assert s + t == (s + init) + [p];
      assert t == init + [p];
      TotalAppend(s, init);
      TotalSnoc(s + init, p);
      TotalSnoc(init, p);
    }
  }

  /** `r * v`, as a function so that equal factors give equal products. */
  function Times(r: real, v: real): real {
    r * v
  }

  lemma TimesAdd(r: real, a: real, b: real)
    ensures Times(r, a + b) == Times(r, a) + Times(r, b)
  {
  }

  /** Every amount multiplied by `r`, keys unchanged. */
  function Scale<K>(r: real, s: seq<(K, real)>): (t: seq<(K, real)>)
    ensures |t| == |s|
  {
    if s == [] then [] else Scale(r, s[..|s| - 1]) + [(s[|s| - 1].0, Times(r, s[|s| - 1].1))]
  }

  lemma ScaleSnoc<K>(r: real, s: seq<(K, real)>, p: (K, real))
    ensures Scale(r, s + [p]) == Scale(r, s) + [(p.0, Times(r, p.1))]
  {
    var t := s + [p];
    assert t[..|t| - 1] == s;
  }

  /** Scaling every amount scales the sum of every key. */
  lemma {:induction false} ScaleSumFor<K>(r: real, s: seq<(K, real)>, k: K)
    ensures SumFor(Scale(r, s), k) == Times(r, SumFor(s, k))
  {
    if s != [] {
      var init, p := s[..|s| - 1], s[|s| - 1];
      ScaleSumFor(r, init, k);
      SumForSnoc(Scale(r, init), (p.0, Times(r, p.1)), k);
      if p.0 == k {
        TimesAdd(r, SumFor(init, k), p.1);
      }
    }
  }

  /** Scaling every amount scales the total. */
  lemma {:induction false} ScaleTotal<K>(r: real, s: seq<(K, real)>)
    ensures Total(Scale(r, s)) == Times(r, Total(s))
  {
    if s != [] {
      var init, p := s[..|s| - 1], s[|s| - 1];
      ScaleTotal(r, init);
      TotalSnoc(Scale(r, init), (p.0, Times(r, p.1)));
      TimesAdd(r, Total(init), p.1);
    }
  }

  lemma {:induction false} ScaleKeys<K>(r: real, s: seq<(K, real)>)
    ensures Keys(Scale(r, s)) == Keys(s)
  {
    if s != [] {
      var init, p := s[..|s| - 1], s[|s| - 1];
      ScaleKeys(r, init);
      KeysSnoc(Scale(r, init), (p.0, Times(r, p.1)));
      KeysSnoc(init, p);
      assert s == init + [p];
    }
  }

  /** When every amount is 0, every key sums to 0. */
  lemma {:induction false} SumForZero<K>(s: seq<(K, real)>, k: K)
    requires forall i :: 0 <= i < |s| ==> s[i].1 == 0.0
    ensures SumFor(s, k) == 0.0
  {
    if s != [] {
      SumForZero(s[..|s| - 1], k);
    }
  }

  /** With no negative amount, one key's sum lies between 0 and the total. */
  lemma {:induction false} SumForBounds<K>(s: seq<(K, real)>, k: K)
    requires forall i :: 0 <= i < |s| ==> s[i].1 >= 0.0
    ensures 0.0 <= SumFor(s, k) <= Total(s)
  {
    if s != [] {
      SumForBounds(s[..|s| - 1], k);
    }
  }

  /** Sum, over the keys listed in `ks`, of the amounts paired with each. */
  function SumGroups<K(==)>(ks: seq<K>, s: seq<(K, real)>): real
  {
    if ks == [] then 0.0 else SumGroups(ks[..|ks| - 1], s) + SumFor(s, ks[|ks| - 1])
  }

  lemma {:induction false} SumGroupsSnoc<K>(ks: seq<K>, s: seq<(K, real)>, p: (K, real))
    requires NoDup(ks)
    ensures SumGroups(ks, s + [p]) == SumGroups(ks, s) + (if p.0 in ks then p.1 else 0.0)
  {
    if ks != [] {
      var init := ks[..|ks| - 1];
      assert ks == init + [ks[|ks| - 1]];
      SumGroupsSnoc(init, s, p);
      SumForSnoc(s, p, ks[|ks| - 1]);
    }
  }

  /**
   * Grouping pairs by key and summing every group gives the total of all
   * amounts: no pair is lost or counted twice.
   */
  lemma {:induction false} GroupedTotal<K(!new)>(s: seq<(K, real)>)
    ensures SumGroups(Distinct(Keys(s)), s) == Total(s)
  {
    if s != [] {
      var init, p := s[..|s| - 1], s[|s| - 1];
      assert s == init + [p];
      GroupedTotal(init);
      KeysSnoc(init, p);
      DistinctSnoc(Keys(init), p.0);
      TotalSnoc(init, p);
      var d := Distinct(Keys(init));
      SumGroupsSnoc(d, init, p);
      if p.0 !in d {
        SumForAbsent(init, p.0);
        SumForSnoc(init, p, p.0);
        assert (d + [p.0])[..|d|] == d;
      }
    }
  }

  /** Sum, over the values listed in `ks`, of their number of occurrences in `s`. */
  function SumCounts<T(==)>(ks: seq<T>, s: seq<T>): nat
  {
    if ks == [] then 0 else SumCounts(ks[..|ks| - 1], s) + Count(s, ks[|ks| - 1])
  }

  lemma {:induction false} SumCountsSnoc<T>(ks: seq<T>, s: seq<T>, y: T)
    requires NoDup(ks)
    ensures SumCounts(ks, s + [y]) == SumCounts(ks, s) + (if y in ks then 1 else 0)
  {
    if ks != [] {
      var init := ks[..|ks| - 1];
      assert ks == init + [ks[|ks| - 1]];
      SumCountsSnoc(init, s, y);
      CountSnoc(s, y, ks[|ks| - 1]);
    }
  }

  /** The occurrence counts of the distinct values of `s` add up to `|s|`. */
  lemma {:induction false} CountsPartition<T(!new)>(s: seq<T>)
    ensures SumCounts(Distinct(s), s) == |s|
  {
    if s != [] {
      var init, y := s[..|s| - 1], s[|s| - 1];
      assert s == init + [y];
      CountsPartition(init);
      DistinctSnoc(init, y);
      var d := Distinct(init);
      SumCountsSnoc(d, init, y);
      if y !in d {
        CountSnoc(init, y, y);
        assert (d + [y])[..|d|] == d;
      }
    }
  }

  /** `Array.prototype.filter`: the elements satisfying `p`, in their original order. */
  function Filter<T(==,!new)>(s: seq<T>, p: T -> bool): (r: seq<T>)
    ensures forall x :: x in r <==> x in s && p(x)
    ensures |r| <= |s|
  {
    if s == [] then []
    else
      var init, last := s[..|s| - 1], s[|s| - 1];
      assert s == init + [last];
      Filter(init, p) + if p(last) then [last] else []
  }

  /** Filtering keeps every copy of a kept element and no copy of a dropped one. */
  lemma {:induction false} FilterMultiset<T(!new)>(s: seq<T>, p: T -> bool, x: T)
    ensures multiset(Filter(s, p))[x] == if p(x) then multiset(s)[x] else 0
  {
    if s != [] {
      var init, last := s[..|s| - 1], s[|s| - 1];
      assert s == init + [last];
      FilterMultiset(init, p, x);
    }
  }

  lemma AppendAssoc<T>(a: seq<T>, b: seq<T>, c: seq<T>)
    ensures a + b + c == a + (b + c)
  {
  }

  /** Filtering a sequence with one more element at the end. */
  lemma FilterSnoc<T(!new)>(s: seq<T>, x: T, p: T -> bool)
    ensures Filter(s + [x], p) == Filter(s, p) + if p(x) then [x] else []
  {
    var u := s + [x];
    assert u[..|u| - 1] == s;
  }

  /** Filtering distributes over concatenation, so it keeps the original order. */
  lemma {:induction false} FilterAppend<T(!new)>(s: seq<T>, t: seq<T>, p: T -> bool)
    ensures Filter(s + t, p) == Filter(s, p) + Filter(t, p)
  {
    if t == [] {
      assert s + t == s;
    } else {
      var init, last := t[..|t| - 1], t[|t| - 1];
      FilterAppend(s, init, p);
      assert t == init + [last];
      assert s + t == (s + init) + [last];
      FilterSnoc(s + init, last, p);
      FilterSnoc(init, last, p);
      AppendAssoc(Filter(s, p), Filter(init, p), if p(last) then [last] else []);
    }
  }

  /** A filter that every element passes returns the sequence itself. */
  lemma {:induction false} FilterAll<T(!new)>(s: seq<T>, p: T -> bool)
    requires forall i :: 0 <= i < |s| ==> p(s[i])
    ensures Filter(s, p) == s
  {
    if s != [] {
      var init := s[..|s| - 1];
      assert s == init + [s[|s| - 1]];
      FilterAll(init, p);
    }
  }

  /** Filtering a sequence without repetitions leaves one without repetitions. */
  lemma {:induction false} FilterNoDup<T(!new)>(s: seq<T>, p: T -> bool)
    requires NoDup(s)
    ensures NoDup(Filter(s, p))
  {
    if s != [] {
      var init, last := s[..|s| - 1], s[|s| - 1];
      assert s == init + [last];
      assert NoDup(init);
      FilterNoDup(init, p);
      assert last !in init;
    }
  }

  /** `x` occurs in `s` at some position before an occurrence of `y`. */
  ghost predicate Before<T>(s: seq<T>, x: T, y: T) {
    exists a, b :: 0 <= a < b < |s| && s[a] == x && s[b] == y
  }

  /** Filtering keeps the relative order: two kept elements appear in the input in the same order. */
  lemma {:induction false} FilterOrder<T(!new)>(s: seq<T>, p: T -> bool)
    ensures forall i, j :: 0 <= i < j < |Filter(s, p)| ==> Before(s, Filter(s, p)[i], Filter(s, p)[j])
  {
    if s != [] {
      var init, last := s[..|s| - 1], s[|s| - 1];
      assert s == init + [last];
      FilterOrder(init, p);
      var r, q := Filter(s, p), Filter(init, p);
      assert r == q + if p(last) then [last] else [];
      forall i, j | 0 <= i < j < |r| ensures Before(s, r[i], r[j]) {
        if j < |q| {
          assert r[i] == q[i] && r[j] == q[j];
          assert Before(init, q[i], q[j]);
          var a, b :| 0 <= a < b < |init| && init[a] == q[i] && init[b] == q[j];
          assert s[a] == r[i] && s[b] == r[j];
        } else {
          assert r[i] == q[i] && q[i] in q;
          var a :| 0 <= a < |init| && init[a] == q[i];
          assert s[a] == r[i] && s[|s| - 1] == r[j];
        }
      }
    }
  }

  /** `findIndex`: the first position whose key is `x`, if any. */
  function IndexOf<T>(s: seq<T>, key: T -> int, x: int): (r: Option<nat>)
    ensures r.None? <==> forall i :: 0 <= i < |s| ==> key(s[i]) != x
    ensures r.Some? ==> r.value < |s| && key(s[r.value]) == x
    ensures r.Some? ==> forall j :: 0 <= j < r.value ==> key(s[j]) != x
  {
    if s == [] then None
    else if key(s[0]) == x then Some(0)
    else match IndexOf(s[1..], key, x)
      case None => None
      case Some(i) => Some(i + 1)
  }

  /** `Math.max(...s.map(key))` on a non-empty sequence. */
  function MaxOf<T>(s: seq<T>, key: T -> int): (m: int)
    requires |s| > 0
    ensures forall i :: 0 <= i < |s| ==> key(s[i]) <= m
    ensures exists i :: 0 <= i < |s| && key(s[i]) == m
  {
    if |s| == 1 then key(s[0])
    else
      var rest := MaxOf(s[1..], key);
      assert forall i :: 1 <= i < |s| ==> s[i] == s[1..][i - 1];
      if key(s[0]) >= rest then key(s[0]) else rest
  }

  ghost predicate SortedBy<T>(s: seq<T>, key: T -> real) {
    forall i, j :: 0 <= i < j < |s| ==> key(s[i]) <= key(s[j])
  }

  /** Inserts `x` after every element whose key is at most `key(x)`. */
  function InsertAsc<T(==)>(t: seq<T>, x: T, key: T -> real): (r: seq<T>)
    ensures multiset(r) == multiset(t) + multiset{x}
    ensures |r| == |t| + 1
  {
    if t == [] then [x]
    else if key(x) < key(t[0]) then [x] + t
    else
      assert t == [t[0]] + t[1..];
      [t[0]] + InsertAsc(t[1..], x, key)
  }

  /** A bound below every key and below the inserted key stays below every key. */
  lemma InsertAscBound<T>(t: seq<T>, x: T, key: T -> real, bound: real)
    requires forall i :: 0 <= i < |t| ==> bound <= key(t[i])
    requires bound <= key(x)
    ensures forall i :: 0 <= i < |t| + 1 ==> bound <= key(InsertAsc(t, x, key)[i])
  {
    var r := InsertAsc(t, x, key);
    forall i | 0 <= i < |r| ensures bound <= key(r[i]) {
      assert r[i] in multiset(r);
      if r[i] != x {
        assert r[i] in multiset(t);
        var k :| 0 <= k < |t| && t[k] == r[i];
      }
    }
  }

  lemma {:induction false} InsertAscSorted<T>(t: seq<T>, x: T, key: T -> real)
    requires SortedBy(t, key)
    ensures SortedBy(InsertAsc(t, x, key), key)
  {
    var r := InsertAsc(t, x, key);
    if t == [] {
    } else if key(x) < key(t[0]) {
      assert r == [x] + t;
      forall i, j | 0 <= i < j < |r| ensures key(r[i]) <= key(r[j]) {
        assert r[j] == t[j - 1];
        if i > 0 {
          assert r[i] == t[i - 1];
        }
      }
    } else {
      var tail := t[1..];
      var rest := InsertAsc(tail, x, key);
      assert SortedBy(tail, key);
      InsertAscSorted(tail, x, key);
      assert r == [t[0]] + rest;
      InsertAscBound(tail, x, key, key(t[0]));
      forall i, j | 0 <= i < j < |r| ensures key(r[i]) <= key(r[j]) {
        assert r[j] == rest[j - 1];
        if i > 0 {
          assert r[i] == rest[i - 1];
        }
      }
    }
  }

  /**
   * A stable sort ascending by `key`, the behaviour of `Array.prototype.sort`
   * with a comparator that orders by that key.
   */
  function SortAsc<T(==)>(s: seq<T>, key: T -> real): (r: seq<T>)
    ensures multiset(r) == multiset(s)
    ensures |r| == |s|
    ensures SortedBy(r, key)
  {
    if s == [] then []
    else
      assert s == s[..|s| - 1] + [s[|s| - 1]];
      var t := SortAsc(s[..|s| - 1], key);
      InsertAscSorted(t, s[|s| - 1], key);
      InsertAsc(t, s[|s| - 1], key)
  }

  /** An element is in the sorted sequence exactly when it is in the input. */
  lemma SortAscMembers<T>(s: seq<T>, key: T -> real)
    ensures forall x :: x in SortAsc(s, key) <==> x in s
  {
    var r := SortAsc(s, key);
    forall x ensures x in r <==> x in s {
      assert x in r <==> x in multiset(r);
      assert x in s <==> x in multiset(s);
    }
  }

  /** A filter that no element passes returns nothing. */
  lemma {:induction false} FilterNone<T(!new)>(s: seq<T>, p: T -> bool)
    requires forall y :: y in s ==> !p(y)
    ensures Filter(s, p) == []
  {
    if s != [] {
      var init := s[..|s| - 1];
      assert s == init + [s[|s| - 1]];
      FilterNone(init, p);
    }
  }

  /**
    * Inserting into a sorted sequence keeps the elements with key `k` in order,
    * with `x` last among them when its key is `k`.
    */
  lemma {:induction false} InsertAscStable<T(!new)>(t: seq<T>, x: T, key: T -> real, k: real, p: T -> bool)
    requires SortedBy(t, key)
    requires forall y :: p(y) <==> key(y) == k
    ensures Filter(InsertAsc(t, x, key), p) == Filter(t, p) + if p(x) then [x] else []
  {
    var px := if p(x) then [x] else [];
    assert Filter([x], p) == px by {
      FilterSnoc([], x, p);
      assert [] + [x] == [x];
    }
    if t == [] {
      assert InsertAsc(t, x, key) == [x];
      assert Filter(t, p) == [];
    } else if key(x) < key(t[0]) {
      assert InsertAsc(t, x, key) == [x] + t;
      FilterAppend([x], t, p);
      if p(x) {
        InsertBeforeLarger(t, key, k, p);
      }
    } else {
      var rest := InsertAsc(t[1..], x, key);
      assert InsertAsc(t, x, key) == [t[0]] + rest;
      assert SortedBy(t[1..], key) by {
        forall a, b | 0 <= a < b < |t[1..]| ensures key(t[1..][a]) <= key(t[1..][b]) {
          assert t[1..][a] == t[a + 1] && t[1..][b] == t[b + 1];
        }
      }
      InsertAscStable(t[1..], x, key, k, p);
      FilterCons(t[0], rest, t[1..], px, p);
      assert t == [t[0]] + t[1..];
    }
  }

  /** Putting the same element in front of two sequences keeps a relation between their filters. */
  lemma FilterCons<T(!new)>(h: T, s: seq<T>, t: seq<T>, tail: seq<T>, p: T -> bool)
    requires Filter(s, p) == Filter(t, p) + tail
    ensures Filter([h] + s, p) == Filter([h] + t, p) + tail
  {
    FilterAppend([h], s, p);
    FilterAppend([h], t, p);
    AppendAssoc(Filter([h], p), Filter(t, p), tail);
  }

  /** No element of a sorted sequence passes when the key sought is below its first key. */
  lemma InsertBeforeLarger<T(!new)>(t: seq<T>, key: T -> real, k: real, p: T -> bool)
    requires SortedBy(t, key) && t != [] && k < key(t[0])
    requires forall y :: p(y) <==> key(y) == k
    ensures Filter(t, p) == []
  {
    forall y | y in t ensures !p(y) {
      var j :| 0 <= j < |t| && t[j] == y;
      assert key(t[0]) <= key(t[j]);
    }
    FilterNone(t, p);
  }

  /**
    * The sort is stable: the elements sharing a key come out in the order they
    * went in.
    */
  lemma {:induction false} SortAscStable<T(!new)>(s: seq<T>, key: T -> real, k: real, p: T -> bool)
    requires forall y :: p(y) <==> key(y) == k
    ensures Filter(SortAsc(s, key), p) == Filter(s, p)
  {
    if s != [] {
      var init, last := s[..|s| - 1], s[|s| - 1];
      assert s == init + [last];
      SortAscStable(init, key, k, p);
      InsertAscStable(SortAsc(init, key), last, key, k, p);
      FilterSnoc(init, last, p);
    }
  }

  /** `f` summed over a sequence, front to back. */
  function SumOf<T>(s: seq<T>, f: T -> int): int {
    if s == [] then 0 else f(s[0]) + SumOf(s[1..], f)
  }

  lemma {:induction false} SumOfAppend<T>(a: seq<T>, b: seq<T>, f: T -> int)
    ensures SumOf(a + b, f) == SumOf(a, f) + SumOf(b, f)
  {
    if a == [] {
      assert a + b == b;
    } else {
      SumOfAppend(a[1..], b, f);
      assert (a + b)[1..] == a[1..] + b;
    }
  }

  lemma {:induction false} SumOfInsertAsc<T>(t: seq<T>, x: T, key: T -> real, f: T -> int)
    ensures SumOf(InsertAsc(t, x, key), f) == SumOf(t, f) + f(x)
  {
    if t != [] && key(x) >= key(t[0]) {
      SumOfInsertAsc(t[1..], x, key, f);
      assert ([t[0]] + InsertAsc(t[1..], x, key))[1..] == InsertAsc(t[1..], x, key);
    } else if t != [] {
      assert ([x] + t)[1..] == t;
    }
  }

  /** Sorting does not change a sum over the elements. */
  lemma {:induction false} SumOfSortAsc<T>(s: seq<T>, key: T -> real, f: T -> int)
    ensures SumOf(SortAsc(s, key), f) == SumOf(s, f)
  {
    if s != [] {
      var init, last := s[..|s| - 1], s[|s| - 1];
      assert s == init + [last];
      SumOfSortAsc(init, key, f);
      SumOfInsertAsc(SortAsc(init, key), last, key, f);
      assert SortAsc(s, key) == InsertAsc(SortAsc(init, key), last, key);
      SumOfAppend(init, [last], f);
      assert SumOf([last], f) == f(last) by {
        assert [last][1..] == [];
      }
    }
  }

  /** No two elements of `s` share a value of `g`. */
  ghost predicate NoDupBy<T, K>(s: seq<T>, g: T -> K) {
    forall i, j :: 0 <= i < j < |s| ==> g(s[i]) != g(s[j])
  }

  lemma {:induction false} InsertAscNoDupBy<T, K>(t: seq<T>, x: T, key: T -> real, g: T -> K)
    requires NoDupBy(t, g)
    requires forall y :: y in t ==> g(y) != g(x)
    ensures NoDupBy(InsertAsc(t, x, key), g)
  {
    var r := InsertAsc(t, x, key);
    if t == [] {
    } else if key(x) < key(t[0]) {
      forall i, j | 0 <= i < j < |r| ensures g(r[i]) != g(r[j]) {
        assert r[j] == t[j - 1];
        if i > 0 {
          assert r[i] == t[i - 1];
        }
      }
    } else {
      var tail := t[1..];
      var rest := InsertAsc(tail, x, key);
      assert NoDupBy(tail, g);
      InsertAscNoDupBy(tail, x, key, g);
      forall y | y in rest ensures g(t[0]) != g(y) {
        assert y in multiset(rest);
        if y != x {
          assert y in multiset(tail);
          var k :| 0 <= k < |tail| && tail[k] == y;
          assert tail[k] == t[k + 1];
        }
      }
      forall i, j | 0 <= i < j < |r| ensures g(r[i]) != g(r[j]) {
        assert r[j] == rest[j - 1];
        if i > 0 {
          assert r[i] == rest[i - 1];
        }
      }
    }
  }

  /** Sorting keeps the values of `g` distinct when they were. */
  lemma {:induction false} SortAscNoDupBy<T, K>(s: seq<T>, key: T -> real, g: T -> K)
    requires NoDupBy(s, g)
    ensures NoDupBy(SortAsc(s, key), g)
  {
    if s != [] {
      var init, last := s[..|s| - 1], s[|s| - 1];
      assert NoDupBy(init, g);
      SortAscNoDupBy(init, key, g);
      var t := SortAsc(init, key);
      forall y | y in t ensures g(y) != g(last) {
        assert y in multiset(t);
        var k :| 0 <= k < |init| && init[k] == y;
      }
      InsertAscNoDupBy(t, last, key, g);
    }
  }

  /** `Array.prototype.map`. */
  function MapSeq<T, U>(s: seq<T>, f: T -> U): (r: seq<U>)
    ensures |r| == |s|
    ensures forall i :: 0 <= i < |s| ==> r[i] == f(s[i])
  {
    seq(|s|, i requires 0 <= i < |s| => f(s[i]))
  }

  /**
   * Filtering, mapping, filtering the images and then sorting yields exactly
   * the kept images of the kept elements.
   */
  lemma SortedImages<T(!new), U(!new)>(s: seq<T>, p: T -> bool, f: T -> U, q: U -> bool, key: U -> real)
    ensures forall y :: y in SortAsc(Filter(MapSeq(Filter(s, p), f), q), key) <==>
      q(y) && exists x :: x in s && p(x) && y == f(x)
  {
    var kept := Filter(s, p);
    var images := MapSeq(kept, f);
    var chosen := Filter(images, q);
    SortAscMembers(chosen, key);
    forall y ensures y in images <==> exists x :: x in s && p(x) && y == f(x) {
      if y in images {
        var i :| 0 <= i < |images| && images[i] == y;
        assert kept[i] in kept;
      }
      if x :| x in s && p(x) && y == f(x) {
        var i :| 0 <= i < |kept| && kept[i] == x;
        assert images[i] == y;
      }
    }
  }
}
