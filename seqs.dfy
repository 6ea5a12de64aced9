/** Sequence helpers for the slicing, de-duplication and counting the
    extension does with arrays, `Set`s and plain objects. */
module Seqs {

  /** `s.slice(-cap)` for a positive `cap`: the last `cap` elements, or all of `s`. */
  function TakeLast<T>(s: seq<T>, cap: nat): (r: seq<T>)
    ensures |r| == if |s| <= cap then |s| else cap
    ensures r == s[|s| - |r|..]
  {
    if |s| <= cap then s else s[|s| - cap..]
  }

  /** `s.slice(0, n)`: the first `n` elements, or all of `s`. */
  function Take<T>(s: seq<T>, n: nat): (r: seq<T>)
    ensures |r| == if |s| <= n then |s| else n
    ensures r == s[..|r|]
  {
    if |s| <= n then s else s[..n]
  }

  predicate NoDuplicates<T(==)>(s: seq<T>) {
    forall i, j :: 0 <= i < j < |s| ==> s[i] != s[j]
  }

  /** How often `x` occurs in `s`. */
  function Count<T(==)>(s: seq<T>, x: T): nat {
    if s == [] then 0 else Count(s[..|s| - 1], x) + (if s[|s| - 1] == x then 1 else 0)
  }

  /** Counting is the multiplicity in the multiset of `s`. */
  lemma {:induction false} CountIsMultiplicity<T>(s: seq<T>, x: T)
    ensures Count(s, x) == multiset(s)[x]
  {
    if s != [] {
      CountIsMultiplicity(s[..|s| - 1], x);
      assert s == s[..|s| - 1] + [s[|s| - 1]];
    }
  }

  /** The elements of `s` in order of first occurrence, each once: what
      `Array.from` gives for a JavaScript `Set` filled from `s` by `add`. */
  function Distinct<T(==)>(s: seq<T>): (r: seq<T>)
    ensures NoDuplicates(r)
    ensures forall x :: x in r ==> x in s
    ensures |r| <= |s|
  {
    if s == [] then []
    else
      var p := s[..|s| - 1];
      assert s == p + [s[|s| - 1]];
      var r := Distinct(p);
      if s[|s| - 1] in r then r else r + [s[|s| - 1]]
  }

  /** Membership in `Distinct(s)` agrees with membership in `s`. */
  lemma {:induction false} DistinctMembership<T>(s: seq<T>, x: T)
    ensures x in Distinct(s) <==> x in s
  {
    if s != [] {
      var p, y := s[..|s| - 1], s[|s| - 1];
      DistinctMembership(p, x);
      assert s == p + [y];
      DistinctLast(p, y);
    }
  }

  /** The position where `x` first occurs in `s`. */
  function FirstIndex<T(==)>(s: seq<T>, x: T): (i: nat)
    requires x in s
    ensures i < |s| && s[i] == x && x !in s[..i]
  {
    if s[0] == x then 0 else 1 + FirstIndex(s[1..], x)
  }

  /** Appending to `s` does not move the first occurrence of something already in it. */
  lemma FirstIndexExtend<T>(s: seq<T>, t: seq<T>, x: T)
    requires x in s
    ensures FirstIndex(s + t, x) == FirstIndex(s, x)
  {
    var i, j := FirstIndex(s, x), FirstIndex(s + t, x);
    assert j >= i by {
      assert forall k :: 0 <= k < i ==> (s + t)[k] == s[..i][k];
    }
    assert j <= i by {
      assert (s + t)[i] == x;
      assert forall k :: 0 <= k < j ==> (s + t)[k] == (s + t)[..j][k];
    }
  }

  /** `Distinct` lists elements in the order in which they first occur. */
  lemma {:induction false} DistinctFirstSeenOrder<T>(s: seq<T>, i: nat, j: nat)
    requires i < j < |Distinct(s)|
    ensures FirstIndex(s, Distinct(s)[i]) < FirstIndex(s, Distinct(s)[j])
  {
    var p, y := s[..|s| - 1], s[|s| - 1];
    assert s == p + [y];
    var r := Distinct(p);
    FirstIndexExtend(p, [y], r[i]);
    if j < |r| {
      FirstIndexExtend(p, [y], r[j]);
      DistinctFirstSeenOrder(p, i, j);
    } else {
      DistinctMembership(p, y);
      assert FirstIndex(s, y) == |p|;
    }
  }

  /** The concatenation of the sequences in `ss`, in order. */
  function Flatten<T>(ss: seq<seq<T>>): seq<T> {
    if ss == [] then [] else Flatten(ss[..|ss| - 1]) + ss[|ss| - 1]
  }

  lemma FlattenSnoc<T>(ss: seq<seq<T>>, i: nat)
    requires i < |ss|
    ensures Flatten(ss[..i + 1]) == Flatten(ss[..i]) + ss[i]
  {
    assert ss[..i + 1][..i] == ss[..i];
  }

  /** Sum of `m[k]` over the keys listed in `keys`; a key missing from `m` adds nothing. */
  function SumOver<K>(keys: seq<K>, m: map<K, nat>): nat {
    if keys == [] then 0
    else
      var k := keys[|keys| - 1];
      SumOver(keys[..|keys| - 1], m) + (if k in m then m[k] else 0)
  }

  /** The occurrence counts of a sequence, one entry per element. */
  function CountMap<T(==)>(s: seq<T>): map<T, nat> {
    map x | x in s :: Count(s, x)
  }

  lemma CountSnoc<T>(p: seq<T>, y: T, x: T)
    ensures Count(p + [y], x) == Count(p, x) + (if y == x then 1 else 0)
  {
    assert (p + [y])[..|p|] == p;
  }

  /** One more occurrence bumps its entry, or creates it at one. */
  lemma CountMapSnoc<T>(p: seq<T>, y: T)
    ensures CountMap(p + [y]) == CountMap(p)[y := if y in p then CountMap(p)[y] + 1 else 1]
  {
    var m, m' := CountMap(p), CountMap(p + [y]);
    forall x | x in m' ensures m'[x] == m[y := if y in p then m[y] + 1 else 1][x] {
      CountSnoc(p, y, x);
      if x !in p {
        CountIsMultiplicity(p, x);
      }
    }
  }

  /** One more element adds itself to the end of `Distinct`, unless it is there already. */
  lemma DistinctLast<T>(p: seq<T>, y: T)
    ensures Distinct(p + [y]) == if y in Distinct(p) then Distinct(p) else Distinct(p) + [y]
  {
    assert (p + [y])[..|p|] == p;
  }

  /** Sum of the counts in `s` of the elements of `keys`. */
  function SumCounts<T(==)>(keys: seq<T>, s: seq<T>): nat {
    if keys == [] then 0 else SumCounts(keys[..|keys| - 1], s) + Count(s, keys[|keys| - 1])
  }

  /** Over keys that occur in `s`, summing the count table is summing the counts. */
  lemma {:induction false} SumOverCountMap<T>(keys: seq<T>, s: seq<T>)
    requires forall k :: k in keys ==> k in s
    ensures SumOver(keys, CountMap(s)) == SumCounts(keys, s)
  {
    if keys != [] {
      SumOverCountMap(keys[..|keys| - 1], s);
    }
  }

  /** One more element of `s` adds one to the sum exactly when it is one of the keys. */
  lemma {:induction false} SumCountsSnoc<T>(keys: seq<T>, p: seq<T>, y: T)
    requires NoDuplicates(keys)
    ensures SumCounts(keys, p + [y]) == SumCounts(keys, p) + (if y in keys then 1 else 0)
  {
    if keys != [] {
      var ks, z := keys[..|keys| - 1], keys[|keys| - 1];
      assert keys == ks + [z];
      SumCountsSnoc(ks, p, y);
      CountSnoc(p, y, z);
    }
  }

  lemma SumCountsLast<T>(keys: seq<T>, y: T, s: seq<T>)
    ensures SumCounts(keys + [y], s) == SumCounts(keys, s) + Count(s, y)
  {
    assert (keys + [y])[..|keys|] == keys;
  }

  /** Every element is counted once under its first occurrence. */
  lemma {:induction false} DistinctCountsSum<T>(s: seq<T>)
    ensures SumCounts(Distinct(s), s) == |s|
  {
    if s != [] {
      var p, y := s[..|s| - 1], s[|s| - 1];
      assert s == p + [y];
      DistinctCountsSum(p);
      DistinctMembership(p, y);
      DistinctLast(p, y);
      SumCountsSnoc(Distinct(p), p, y);
      if y !in p {
        SumCountsLast(Distinct(p), y, s);
        CountSnoc(p, y, y);
        CountIsMultiplicity(p, y);
      }
    }
  }

  /** The counts over the distinct elements add up to the length. */
  lemma CountsSumToLength<T>(s: seq<T>)
    ensures SumOver(Distinct(s), CountMap(s)) == |s|
  {
    SumOverCountMap(Distinct(s), s);
    DistinctCountsSum(s);
  }

  /** A sequence without duplicates has as many elements as its set. */
  lemma {:induction false} NoDuplicatesCardinality<T>(s: seq<T>)
    requires NoDuplicates(s)
    ensures |set x | x in s| == |s|
  {
    if s != [] {
      var p, y := s[..|s| - 1], s[|s| - 1];
      assert s == p + [y];
      NoDuplicatesCardinality(p);
      assert (set x | x in s) == (set x | x in p) + {y};
    }
  }

  /** `Distinct(s)` has as many elements as `s` has different values. */
  lemma DistinctCardinality<T>(s: seq<T>)
    ensures |Distinct(s)| == |set x | x in s|
  {
    NoDuplicatesCardinality(Distinct(s));
    forall x ensures x in Distinct(s) <==> x in s {
      DistinctMembership(s, x);
    }
    assert (set x | x in Distinct(s)) == (set x | x in s);
  }
}
