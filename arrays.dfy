/**
 * The JavaScript array operations the stores and pages are built from
 * (`findIndex`, `find`, `filter`, `filter(..).length`, `reduce` with `+`),
 * specialised to the only predicate shape the source uses: a record field
 * compared for equality with a value. `key` projects the field.
 */
module Arrays {
  import opened Wrappers

  /** `s.findIndex(x => key(x) === k)`: the first matching position, or -1. */
  function FirstIndexBy<T, K(==)>(s: seq<T>, key: T -> K, k: K): (r: int)
    ensures -1 <= r < |s|
    ensures r >= 0 ==> key(s[r]) == k && forall j :: 0 <= j < r ==> key(s[j]) != k
    ensures r < 0 <==> forall j :: 0 <= j < |s| ==> key(s[j]) != k
  {
    if s == [] then -1
    else if key(s[0]) == k then 0
    else
      var j := FirstIndexBy(s[1..], key, k);
      assert forall i :: 1 <= i < |s| ==> s[i] == s[1..][i - 1];
      if j < 0 then -1 else j + 1
  }

  /** The last matching position, or -1 (the entry a `Map` built from `s` keeps for `k`). */
  function LastIndexBy<T, K(==)>(s: seq<T>, key: T -> K, k: K): (r: int)
    ensures -1 <= r < |s|
    ensures r >= 0 ==> key(s[r]) == k && forall j :: r < j < |s| ==> key(s[j]) != k
    ensures r < 0 <==> forall j :: 0 <= j < |s| ==> key(s[j]) != k
  {
    if s == [] then -1
    else if key(s[|s| - 1]) == k then |s| - 1
    else LastIndexBy(s[..|s| - 1], key, k)
  }

  /** `s.find(x => key(x) === k)`: the first matching element, if any. */
  function FindBy<T, K(==)>(s: seq<T>, key: T -> K, k: K): (r: Option<T>)
    ensures r.Some? ==> exists i :: 0 <= i < |s| && s[i] == r.value && key(s[i]) == k &&
                                    forall j :: 0 <= j < i ==> key(s[j]) != k
    ensures r.None? <==> forall i :: 0 <= i < |s| ==> key(s[i]) != k
  {
    var i := FirstIndexBy(s, key, k);
    if i >= 0 then Some(s[i]) else None
  }

  /** `s.filter(x => key(x) === k)`: the matching elements, in their order. */
  function FilterBy<T, K(==)>(s: seq<T>, key: T -> K, k: K): (r: seq<T>)
    ensures |r| <= |s|
    ensures forall i :: 0 <= i < |r| ==> key(r[i]) == k && r[i] in s
    ensures forall i :: 0 <= i < |s| && key(s[i]) == k ==> s[i] in r
  {
    if s == [] then []
    else (if key(s[0]) == k then [s[0]] else []) + FilterBy(s[1..], key, k)
  }

  /** `s.filter(x => key(x) !== k)`: the non-matching elements, in their order. */
  function RemoveBy<T, K(==)>(s: seq<T>, key: T -> K, k: K): (r: seq<T>)
    ensures |r| <= |s|
    ensures forall i :: 0 <= i < |r| ==> key(r[i]) != k && r[i] in s
    ensures forall i :: 0 <= i < |s| && key(s[i]) != k ==> s[i] in r
  {
    if s == [] then []
    else (if key(s[0]) != k then [s[0]] else []) + RemoveBy(s[1..], key, k)
  }

  /** `s.filter(x => key(x) === k).length`. */
  function CountBy<T, K(==)>(s: seq<T>, key: T -> K, k: K): (r: nat)
    ensures r <= |s|
    ensures r == 0 <==> forall i :: 0 <= i < |s| ==> key(s[i]) != k
  {
    var r := FilterBy(s, key, k);
    assert r != [] ==> key(r[0]) == k && r[0] in s;
    |r|
  }

  /** `s.reduce((sum, x) => sum + f(x), 0)`: a left fold. */
  function SumBy<T>(s: seq<T>, f: T -> int): (r: int)
    ensures (forall i :: 0 <= i < |s| ==> f(s[i]) >= 0) ==> r >= 0
    ensures (forall i :: 0 <= i < |s| ==> f(s[i]) == 0) ==> r == 0
  {
    if s == [] then 0 else SumBy(s[..|s| - 1], f) + f(s[|s| - 1])
  }

  /**
   * The stores' upsert: the first element whose key equals `key(x)` is
   * overwritten with `replacement`; when there is none, `x` is appended.
   */
  function ReplaceOrAppend<T, K(==)>(s: seq<T>, key: T -> K, x: T, replacement: T): (r: seq<T>)
    ensures FirstIndexBy(s, key, key(x)) >= 0 ==>
              |r| == |s| && r[FirstIndexBy(s, key, key(x))] == replacement &&
              forall j :: 0 <= j < |s| && j != FirstIndexBy(s, key, key(x)) ==> r[j] == s[j]
    ensures FirstIndexBy(s, key, key(x)) < 0 ==> |r| == |s| + 1 && r[..|s|] == s && r[|s|] == x
  {
    var i := FirstIndexBy(s, key, key(x));
    if i >= 0 then s[i := replacement] else s + [x]
  }

  // ---------------------------------------------------------------------
  // Order and partition facts

  /** Filtering distributes over concatenation, so it keeps relative order. */
  lemma {:induction false} FilterByAppend<T, K>(a: seq<T>, b: seq<T>, key: T -> K, k: K)
    ensures FilterBy(a + b, key, k) == FilterBy(a, key, k) + FilterBy(b, key, k)
  {
    if a == [] {
      assert a + b == b;
    } else {
      assert (a + b)[1..] == a[1..] + b;
      FilterByAppend(a[1..], b, key, k);
    }
  }

  /** The same for the complementary filter. */
  lemma {:induction false} RemoveByAppend<T, K>(a: seq<T>, b: seq<T>, key: T -> K, k: K)
    ensures RemoveBy(a + b, key, k) == RemoveBy(a, key, k) + RemoveBy(b, key, k)
  {
    if a == [] {
      assert a + b == b;
    } else {
      assert (a + b)[1..] == a[1..] + b;
      RemoveByAppend(a[1..], b, key, k);
    }
  }

  /** Every element goes to exactly one of the filter and its complement. */
  lemma {:induction false} FilterRemovePartition<T, K>(s: seq<T>, key: T -> K, k: K)
    ensures |FilterBy(s, key, k)| + |RemoveBy(s, key, k)| == |s|
  {
    if s != [] {
      FilterRemovePartition(s[1..], key, k);
    }
  }

  /** Removing a key no element carries leaves the sequence as it was. */
  lemma {:induction false} RemoveAbsent<T, K>(s: seq<T>, key: T -> K, k: K)
    requires forall i :: 0 <= i < |s| ==> key(s[i]) != k
    ensures RemoveBy(s, key, k) == s
  {
    if s != [] {
      RemoveAbsent(s[1..], key, k);
      assert [s[0]] + s[1..] == s;
    }
  }

  /** Two filters for different keys select disjoint parts, so their sizes add up to at most |s|. */
  lemma {:induction false} TwoCountsBounded<T, K>(s: seq<T>, key: T -> K, k1: K, k2: K)
    requires k1 != k2
    ensures CountBy(s, key, k1) + CountBy(s, key, k2) <= |s|
  {
    if s != [] {
      TwoCountsBounded(s[1..], key, k1, k2);
    }
  }

  /** Counting splits off the first element. */
  lemma CountByCons<T, K>(s: seq<T>, key: T -> K, k: K)
    requires s != []
    ensures CountBy(s, key, k) == (if key(s[0]) == k then 1 else 0) + CountBy(s[1..], key, k)
  {
  }

  /** Appending one element adds its value to the fold. */
  lemma SumByAppend<T>(s: seq<T>, x: T, f: T -> int)
    ensures SumBy(s + [x], f) == SumBy(s, f) + f(x)
  {
    assert (s + [x])[..|s|] == s;
  }

  /** The fold of a concatenation is the sum of the two folds. */
  lemma {:induction false} SumByConcat<T>(a: seq<T>, b: seq<T>, f: T -> int)
    ensures SumBy(a + b, f) == SumBy(a, f) + SumBy(b, f)
  {
    if b != [] {
      var b' := b[..|b| - 1];
      assert (a + b)[..|a + b| - 1] == a + b';
      SumByConcat(a, b', f);
    } else {
      assert a + b == a;
    }
  }

  /**
   * Splitting by a key splits any other count: what the filter keeps plus
   * what its complement keeps.
   */
  lemma {:induction false} CountSplitBy<T, K, V>(s: seq<T>, key: T -> K, k: K, key2: T -> V, v: V)
    ensures CountBy(RemoveBy(s, key, k), key2, v) + CountBy(FilterBy(s, key, k), key2, v) == CountBy(s, key2, v)
  {
    if s != [] {
      CountSplitBy(s[1..], key, k, key2, v);
      var head := [s[0]];
      assert head[1..] == [];
      FilterByAppend(if key(s[0]) != k then head else [], RemoveBy(s[1..], key, k), key2, v);
      FilterByAppend(if key(s[0]) == k then head else [], FilterBy(s[1..], key, k), key2, v);
    }
  }

  /** The fold splits off the first element. */
  lemma SumByCons<T>(x: T, t: seq<T>, f: T -> int)
    ensures SumBy([x] + t, f) == f(x) + SumBy(t, f)
  {
    SumByConcat([x], t, f);
    assert [x][..0] == [];
  }

  /** The same split for a sum. */
  lemma {:induction false} SumSplitBy<T, K>(s: seq<T>, key: T -> K, k: K, f: T -> int)
    ensures SumBy(RemoveBy(s, key, k), f) + SumBy(FilterBy(s, key, k), f) == SumBy(s, f)
  {
    if s != [] {
      var x, t := s[0], s[1..];
      var kept, dropped := RemoveBy(t, key, k), FilterBy(t, key, k);
      SumSplitBy(t, key, k, f);
      assert s == [x] + t;
      SumByCons(x, t, f);
      if key(x) == k {
        assert RemoveBy(s, key, k) == kept;
        assert FilterBy(s, key, k) == [x] + dropped;
        SumByCons(x, dropped, f);
      } else {
        assert FilterBy(s, key, k) == dropped;
        assert RemoveBy(s, key, k) == [x] + kept;
        SumByCons(x, kept, f);
      }
    }
  }

  /** A counted filter grows by one exactly when the appended element matches. */
  lemma CountByAppend<T, K>(s: seq<T>, x: T, key: T -> K, k: K)
    ensures CountBy(s + [x], key, k) == CountBy(s, key, k) + (if key(x) == k then 1 else 0)
  {
    FilterByAppend(s, [x], key, k);
    assert [x][1..] == [];
  }

  // ---------------------------------------------------------------------
  // Upsert and lookup facts

  /** After an upsert, looking up the key finds the written element. */
  lemma UpsertThenFind<T, K>(s: seq<T>, key: T -> K, x: T, replacement: T)
    requires key(replacement) == key(x)
    ensures FindBy(ReplaceOrAppend(s, key, x, replacement), key, key(x)) ==
            Some(if FirstIndexBy(s, key, key(x)) >= 0 then replacement else x)
  {
    var i := FirstIndexBy(s, key, key(x));
    var r := ReplaceOrAppend(s, key, x, replacement);
    var i' := FirstIndexBy(r, key, key(x));
    if i >= 0 {
      assert r[i] == replacement;
      assert i' == i;
    } else {
      assert r[|s|] == x;
      assert i' == |s|;
    }
  }

  /** After removing a key, looking it up finds nothing. */
  lemma RemoveThenFind<T, K>(s: seq<T>, key: T -> K, k: K)
    ensures FindBy(RemoveBy(s, key, k), key, k) == None
  {
  }
}
