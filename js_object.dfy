/**
 * A plain JavaScript object used as a dictionary, and the order in which
 * `Object.keys` / `Object.entries` list its keys.
 *
 * Section 10.1.11.1 of ECMA-262 (OrdinaryOwnPropertyKeys) lists the keys that
 * are array indices first, in ascending numeric order, and then the other
 * string keys in the order they were created.
 */
module JsObject {
  import opened JsString

  /** A property that may be absent. */
  datatype Option<T> = None | Some(value: T)

  predicate Distinct<T(==)>(s: seq<T>) {
    forall i, j :: 0 <= i < j < |s| ==> s[i] != s[j]
  }

  /** The index of the first occurrence of k in s. */
  function FirstIndex<K(==)>(s: seq<K>, k: K): (r: nat)
    requires k in s
    ensures r < |s| && s[r] == k
    ensures forall j :: 0 <= j < r ==> s[j] != k
  {
    if s[0] == k then 0 else 1 + FirstIndex(s[1..], k)
  }

  lemma {:induction false} FirstIndexAt<K>(s: seq<K>, k: K, i: nat)
    requires i < |s| && s[i] == k
    requires forall j :: 0 <= j < i ==> s[j] != k
    ensures FirstIndex(s, k) == i
  {
  }

  /** Putting more elements in front moves the first occurrence of an element that is not among them. */
  lemma {:induction false} FirstIndexAfter<K>(front: seq<K>, back: seq<K>, k: K)
    requires k !in front && k in back
    ensures FirstIndex(front + back, k) == |front| + FirstIndex(back, k)
  {
    if front == [] {
      assert front + back == back;
    } else {
      assert (front + back)[1..] == front[1..] + back;
      FirstIndexAfter(front[1..], back, k);
    }
  }

  /** The own properties of an object: keys in creation order, and their values. */
  datatype Dict<K(==), V> = Dict(keys: seq<K>, vals: map<K, V>) {
    predicate Valid() {
      Distinct(keys) && vals.Keys == set k | k in keys
    }
  }

  function Empty<K(==), V>(): (d: Dict<K, V>)
    ensures d.Valid() && d.keys == []
  {
    Dict([], map[])
  }

  /**
   * `obj[k] = v`: a new key is created after the existing ones, an existing
   * key keeps its place and only its value changes.
   */
  function Put<K(==), V>(d: Dict<K, V>, k: K, v: V): (r: Dict<K, V>)
    ensures r.vals == d.vals[k := v]
    ensures k in d.vals ==> r.keys == d.keys
    ensures k !in d.vals ==> r.keys == d.keys + [k]
  {
    if k in d.vals then Dict(d.keys, d.vals[k := v]) else Dict(d.keys + [k], d.vals[k := v])
  }

  /** Setting a property keeps every key listed once, with a value. */
  lemma {:induction false} PutValid<K, V>(d: Dict<K, V>, k: K, v: V)
    requires d.Valid()
    ensures Put(d, k, v).Valid()
  {
  }

  // ---------------------------------------------------------------------------
  // Key order

  /** Both keys are array indices and the first is not above the second. */
  predicate IndexLe(a: string, b: string) {
    IsArrayIndex(a) && IsArrayIndex(b) && ArrayIndexValue(a) <= ArrayIndexValue(b)
  }

  /** All keys are array indices, listed in ascending numeric order. */
  predicate AscendingIndices(ks: seq<string>) {
    (forall i :: 0 <= i < |ks| ==> IsArrayIndex(ks[i])) &&
    (forall i, j :: 0 <= i < j < |ks| ==> IndexLe(ks[i], ks[j]))
  }

  /** The array-index keys, in their creation order. */
  function IndexKeys(ks: seq<string>): (r: seq<string>)
    ensures forall k :: k in r <==> k in ks && IsArrayIndex(k)
    ensures |r| <= |ks|
  {
    if ks == [] then []
    else (if IsArrayIndex(ks[0]) then [ks[0]] else []) + IndexKeys(ks[1..])
  }

  /** The other keys, in their creation order. */
  function OtherKeys(ks: seq<string>): (r: seq<string>)
    ensures forall k :: k in r <==> k in ks && !IsArrayIndex(k)
    ensures |r| <= |ks|
  {
    if ks == [] then []
    else (if IsArrayIndex(ks[0]) then [] else [ks[0]]) + OtherKeys(ks[1..])
  }

  lemma {:induction false} SplitKeysPermutation(ks: seq<string>)
    ensures multiset(IndexKeys(ks)) + multiset(OtherKeys(ks)) == multiset(ks)
  {
    if ks != [] {
      var x, rest := ks[0], ks[1..];
      SplitKeysPermutation(rest);
      assert multiset(ks) == multiset{x} + multiset(rest) by {
        assert ks == [x] + rest;
      }
      if IsArrayIndex(x) {
        assert IndexKeys(ks) == [x] + IndexKeys(rest);
        assert OtherKeys(ks) == OtherKeys(rest);
      } else {
        assert IndexKeys(ks) == IndexKeys(rest);
        assert OtherKeys(ks) == [x] + OtherKeys(rest);
      }
    }
  }

  /** Inserts an array-index key into an ascending list of them. */
  function InsertIndexKey(k: string, sorted: seq<string>): (r: seq<string>)
    requires IsArrayIndex(k) && AscendingIndices(sorted)
    ensures AscendingIndices(r)
    ensures multiset(r) == multiset(sorted) + multiset{k}
    ensures |r| == |sorted| + 1
  {
    if sorted == [] || ArrayIndexValue(k) <= ArrayIndexValue(sorted[0]) then
      InsertFirst(k, sorted);
      [k] + sorted
    else
      AscendingTail(sorted);
      var rest := InsertIndexKey(k, sorted[1..]);
      InsertAfterFirst(k, sorted, rest);
      [sorted[0]] + rest
  }

  lemma {:induction false} AscendingTail(sorted: seq<string>)
    requires AscendingIndices(sorted) && sorted != []
    ensures AscendingIndices(sorted[1..])
  {
    var tail := sorted[1..];
    assert forall i :: 0 <= i < |tail| ==> tail[i] == sorted[i + 1];
  }

  /** A key not above the first of an ascending list goes in front of it. */
  lemma {:induction false} InsertFirst(k: string, sorted: seq<string>)
    requires IsArrayIndex(k) && AscendingIndices(sorted)
    requires sorted == [] || ArrayIndexValue(k) <= ArrayIndexValue(sorted[0])
    ensures AscendingIndices([k] + sorted)
    ensures multiset([k] + sorted) == multiset(sorted) + multiset{k}
  {
    assert forall j :: 0 <= j < |sorted| ==> IndexLe(sorted[0], sorted[j]);
    ConsAscending(k, sorted);
  }

  /** A key above the first of an ascending list goes among the others. */
  lemma {:induction false} InsertAfterFirst(k: string, sorted: seq<string>, rest: seq<string>)
    requires IsArrayIndex(k) && AscendingIndices(sorted) && sorted != []
    requires ArrayIndexValue(sorted[0]) <= ArrayIndexValue(k)
    requires AscendingIndices(rest) && multiset(rest) == multiset(sorted[1..]) + multiset{k}
    ensures AscendingIndices([sorted[0]] + rest)
    ensures multiset([sorted[0]] + rest) == multiset(sorted) + multiset{k}
  {
    assert sorted == [sorted[0]] + sorted[1..];
    var tail := sorted[1..];
    assert forall j :: 0 <= j < |tail| ==> IndexLe(sorted[0], tail[j]) by {
      assert forall j :: 0 <= j < |tail| ==> tail[j] == sorted[j + 1];
    }
    BelowAll(sorted[0], k, tail, rest);
    ConsAscending(sorted[0], rest);
  }

  /** A key not above any key of an ascending list can go in front of it. */
  lemma {:induction false} ConsAscending(head: string, rest: seq<string>)
    requires IsArrayIndex(head) && AscendingIndices(rest)
    requires forall j :: 0 <= j < |rest| ==> ArrayIndexValue(head) <= ArrayIndexValue(rest[j])
    ensures AscendingIndices([head] + rest)
  {
    var r := [head] + rest;
    forall i, j | 0 <= i < j < |r|
      ensures IndexLe(r[i], r[j])
    {
      assert r[j] == rest[j - 1];
      if i > 0 {
        assert r[i] == rest[i - 1];
      }
    }
  }

  /** A key not above `k` nor above any key of `tail` is not above any key of `tail` with `k` added. */
  lemma {:induction false} BelowAll(head: string, k: string, tail: seq<string>, rest: seq<string>)
    requires IsArrayIndex(head) && IsArrayIndex(k) && ArrayIndexValue(head) <= ArrayIndexValue(k)
    requires forall j :: 0 <= j < |tail| ==> IndexLe(head, tail[j])
    requires multiset(rest) == multiset(tail) + multiset{k}
    ensures forall j :: 0 <= j < |rest| ==> IndexLe(head, rest[j])
  {
    forall j | 0 <= j < |rest|
      ensures IndexLe(head, rest[j])
    {
      assert rest[j] in multiset(rest);
      if rest[j] != k {
        assert rest[j] in multiset(tail);
        var i :| 0 <= i < |tail| && tail[i] == rest[j];
      }
    }
  }

  /** The array-index keys in ascending numeric order. */
  function SortIndexKeys(ks: seq<string>): (r: seq<string>)
    requires forall i :: 0 <= i < |ks| ==> IsArrayIndex(ks[i])
    ensures AscendingIndices(r)
    ensures multiset(r) == multiset(ks)
    ensures |r| == |ks|
  {
    if ks == [] then []
    else
      assert ks == [ks[0]] + ks[1..];
      InsertIndexKey(ks[0], SortIndexKeys(ks[1..]))
  }

  /** The order of `Object.keys(obj)` for an object whose keys were created in the order `ks`. */
  function OwnKeyOrder(ks: seq<string>): (r: seq<string>)
    ensures forall k :: k in r <==> k in ks
  {
    var sorted := SortIndexKeys(IndexKeys(ks));
    assert forall k :: k in sorted <==> k in multiset(IndexKeys(ks));
    sorted + OtherKeys(ks)
  }

  /** Equal multisets keep a list free of repetitions. */
  lemma {:induction false} DistinctPermutation<T>(a: seq<T>, b: seq<T>)
    requires Distinct(a) && multiset(a) == multiset(b)
    ensures Distinct(b)
  {
    forall i, j | 0 <= i < j < |b|
      ensures b[i] != b[j]
    {
      if b[i] == b[j] {
        RepeatCountsTwice(b, i, j);
        DistinctCountsOnce(a, b[i]);
      }
    }
  }

  /** An element at two positions occurs at least twice. */
  lemma {:induction false} RepeatCountsTwice<T>(b: seq<T>, i: nat, j: nat)
    requires i < j < |b| && b[i] == b[j]
    ensures multiset(b)[b[i]] >= 2
  {
    assert b == b[..j] + b[j..];
    assert b[..j][i] == b[i] && b[j..][0] == b[j];
    assert multiset(b) == multiset(b[..j]) + multiset(b[j..]);
    assert b[i] in multiset(b[..j]) && b[j] in multiset(b[j..]);
  }

  lemma {:induction false} DistinctCountsOnce<T>(a: seq<T>, x: T)
    requires Distinct(a)
    ensures multiset(a)[x] <= 1
  {
    if a != [] {
      assert a == [a[0]] + a[1..];
      assert Distinct(a[1..]);
      DistinctCountsOnce(a[1..], x);
      if a[0] == x {
        assert x !in a[1..];
      }
    }
  }

  /**
   * `Object.keys` lists every own key exactly once: first the array indices
   * in ascending numeric order, then the other keys in creation order.
   */
  lemma {:induction false} OwnKeyOrderSpec(ks: seq<string>)
    requires Distinct(ks)
    ensures var r := OwnKeyOrder(ks); var n := |IndexKeys(ks)|;
      && multiset(r) == multiset(ks)
      && Distinct(r)
      && n <= |r|
      && AscendingIndices(r[..n])
      && r[n..] == OtherKeys(ks)
      && (forall i :: n <= i < |r| ==> !IsArrayIndex(r[i]))
  {
    OwnKeyOrderPermutation(ks);
    OwnKeyOrderShape(ks);
  }

  /** `Object.keys` lists the own keys, each as often as it was created. */
  lemma {:induction false} OwnKeyOrderPermutation(ks: seq<string>)
    requires Distinct(ks)
    ensures multiset(OwnKeyOrder(ks)) == multiset(ks)
    ensures Distinct(OwnKeyOrder(ks))
  {
    var r := OwnKeyOrder(ks);
    SplitKeysPermutation(ks);
    assert r == SortIndexKeys(IndexKeys(ks)) + OtherKeys(ks);
    assert multiset(r) == multiset(ks);
    DistinctPermutation(ks, r);
  }

  /** The first `n` keys are the ascending indices, the rest the other keys. */
  lemma {:induction false} OwnKeyOrderShape(ks: seq<string>)
    ensures var r := OwnKeyOrder(ks); var n := |IndexKeys(ks)|;
      && n <= |r|
      && AscendingIndices(r[..n])
      && r[n..] == OtherKeys(ks)
      && (forall i :: n <= i < |r| ==> !IsArrayIndex(r[i]))
  {
    var sorted, others := SortIndexKeys(IndexKeys(ks)), OtherKeys(ks);
    assert OwnKeyOrder(ks) == sorted + others;
    ConcatParts(sorted, others);
    forall i | 0 <= i < |others|
      ensures !IsArrayIndex(others[i])
    {
      assert others[i] in others;
    }
  }

  /** The two parts of a concatenation, by slice and by position. */
  lemma {:induction false} ConcatParts<T>(a: seq<T>, b: seq<T>)
    ensures (a + b)[..|a|] == a && (a + b)[|a|..] == b
    ensures forall i :: |a| <= i < |a + b| ==> (a + b)[i] == b[i - |a|]
  {
  }

  /** In an ascending list of array indices, the smaller index comes first. */
  lemma {:induction false} AscendingPositions(ks: seq<string>, i: nat, j: nat)
    requires AscendingIndices(ks) && i < |ks| && j < |ks|
    requires ArrayIndexValue(ks[i]) < ArrayIndexValue(ks[j])
    ensures i < j
  {
  }

  /** Behind an ascending run of array indices sits every key that is not one. */
  lemma {:induction false} OtherKeyAfterIndices(r: seq<string>, n: nat, j: nat)
    requires n <= |r| && AscendingIndices(r[..n])
    requires j < |r| && !IsArrayIndex(r[j])
    ensures n <= j
  {
    assert forall i :: 0 <= i < n ==> IsArrayIndex(r[i]) by {
      assert forall i :: 0 <= i < n ==> r[i] == r[..n][i];
    }
  }

  /** Keeping only the keys that are not array indices keeps their relative order. */
  lemma {:induction false} OtherKeysOrder(ks: seq<string>, a: string, b: string)
    requires a in ks && b in ks && !IsArrayIndex(a) && !IsArrayIndex(b)
    requires FirstIndex(ks, a) < FirstIndex(ks, b)
    ensures a in OtherKeys(ks) && b in OtherKeys(ks)
    ensures FirstIndex(OtherKeys(ks), a) < FirstIndex(OtherKeys(ks), b)
  {
    if ks[0] == a {
      assert OtherKeys(ks) == [a] + OtherKeys(ks[1..]);
    } else {
      assert ks[0] != b;
      OtherKeysOrder(ks[1..], a, b);
      if IsArrayIndex(ks[0]) {
        assert OtherKeys(ks) == OtherKeys(ks[1..]);
      } else {
        assert OtherKeys(ks) == [ks[0]] + OtherKeys(ks[1..]);
      }
    }
  }
}
