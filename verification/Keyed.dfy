/** Sequences of entries tagged with a stream index, and the stable sort by that index. */
module Keyed {
  datatype Entry<+T> = Entry(key: nat, val: T)

  function ByKey<T>(s: seq<Entry<T>>, k: nat): seq<Entry<T>> {
    if s == [] then []
    else if s[0].key == k then [s[0]] + ByKey(s[1..], k)
    else ByKey(s[1..], k)
  }

  ghost predicate Sorted<T>(s: seq<Entry<T>>) {
    forall i, j :: 0 <= i < j < |s| ==> s[i].key <= s[j].key
  }

  /** `x` stood before every entry of `s`, so among equal keys it stays first. */
  function Insert<T>(x: Entry<T>, s: seq<Entry<T>>): (r: seq<Entry<T>>)
    ensures |r| == |s| + 1
  {
    if s == [] || x.key <= s[0].key then [x] + s else [s[0]] + Insert(x, s[1..])
  }

  function StableSort<T>(s: seq<Entry<T>>): (r: seq<Entry<T>>)
    ensures |r| == |s|
  {
    if s == [] then [] else Insert(s[0], StableSort(s[1..]))
  }

  /** The entries with keys from `lo` up to `hi`, one key after the other. */
  function InKeyOrder<T>(s: seq<Entry<T>>, lo: nat, hi: nat): seq<Entry<T>>
    requires lo <= hi
    decreases hi - lo
  {
    if lo == hi then [] else ByKey(s, lo) + InKeyOrder(s, lo + 1, hi)
  }

  lemma ByKeyCons<T>(x: Entry<T>, s: seq<Entry<T>>, k: nat)
    ensures ByKey([x] + s, k) == if x.key == k then [x] + ByKey(s, k) else ByKey(s, k)
  {
    assert ([x] + s)[1..] == s;
  }

  lemma {:induction false} ByKeyConcat<T>(a: seq<Entry<T>>, b: seq<Entry<T>>, k: nat)
    ensures ByKey(a + b, k) == ByKey(a, k) + ByKey(b, k)
  {
    if a == [] {
      assert a + b == b;
    } else {
      assert (a + b)[1..] == a[1..] + b;
      ByKeyConcat(a[1..], b, k);
    }
  }

  ghost predicate KeysIn<T>(s: seq<Entry<T>>, lo: nat, hi: nat) {
    forall i :: 0 <= i < |s| ==> lo <= s[i].key < hi
  }

  lemma {:induction false} InsertKeysIn<T>(x: Entry<T>, s: seq<Entry<T>>, lo: nat, hi: nat)
    requires lo <= x.key < hi && KeysIn(s, lo, hi)
    ensures KeysIn(Insert(x, s), lo, hi)
  {
    if s != [] && x.key > s[0].key {
      InsertKeysIn(x, s[1..], lo, hi);
    }
  }

  lemma {:induction false} SortKeysIn<T>(s: seq<Entry<T>>, lo: nat, hi: nat)
    requires KeysIn(s, lo, hi)
    ensures KeysIn(StableSort(s), lo, hi)
  {
    if s != [] {
      SortKeysIn(s[1..], lo, hi);
      InsertKeysIn(s[0], StableSort(s[1..]), lo, hi);
    }
  }

  /** A strict bound on every key. */
  function Above<T>(s: seq<Entry<T>>): (hi: nat)
    ensures KeysIn(s, 0, hi)
  {
    if s == [] then 0
    else
      var rest := Above(s[1..]);
      if s[0].key < rest then rest else s[0].key + 1
  }

  lemma {:induction false} InsertSorted<T>(x: Entry<T>, s: seq<Entry<T>>)
    requires Sorted(s)
    ensures Sorted(Insert(x, s))
  {
    if s != [] && x.key > s[0].key {
      InsertSorted(x, s[1..]);
      var hi := Above([x] + s);
      assert x == ([x] + s)[0];
      assert forall i :: 1 <= i < |s| ==> s[i] == ([x] + s)[i + 1];
      InsertKeysIn(x, s[1..], s[0].key, hi);
    }
  }

  lemma {:induction false} InsertKeepsStreams<T>(x: Entry<T>, s: seq<Entry<T>>, k: nat)
    ensures ByKey(Insert(x, s), k) == ByKey([x], k) + ByKey(s, k)
  {
    ByKeyConcat([x], s, k);
    if s != [] && x.key > s[0].key {
      assert s == [s[0]] + s[1..];
      InsertKeepsStreams(x, s[1..], k);
      ByKeyConcat([s[0]], Insert(x, s[1..]), k);
      ByKeyConcat([s[0]], s[1..], k);
    }
  }

  /** The sort orders by key and permutes nothing within a key. */
  lemma {:induction false} StableSortCorrect<T>(s: seq<Entry<T>>)
    ensures Sorted(StableSort(s))
    ensures forall k :: ByKey(StableSort(s), k) == ByKey(s, k)
  {
    if s != [] {
      StableSortCorrect(s[1..]);
      InsertSorted(s[0], StableSort(s[1..]));
      forall k ensures ByKey(StableSort(s), k) == ByKey(s, k) {
        InsertKeepsStreams(s[0], StableSort(s[1..]), k);
        assert s == [s[0]] + s[1..];
        ByKeyConcat([s[0]], s[1..], k);
      }
    }
  }

  lemma {:induction false} AbsentKey<T>(s: seq<Entry<T>>, k: nat)
    requires forall i :: 0 <= i < |s| ==> s[i].key != k
    ensures ByKey(s, k) == []
  {
    if s != [] {
      AbsentKey(s[1..], k);
    }
  }

  /** Keys below every entry contribute nothing. */
  lemma {:induction false} SkipAbsent<T>(s: seq<Entry<T>>, lo: nat, mid: nat, hi: nat)
    requires lo <= mid <= hi
    requires forall i :: 0 <= i < |s| ==> mid <= s[i].key
    ensures InKeyOrder(s, lo, hi) == InKeyOrder(s, mid, hi)
    decreases mid - lo
  {
    if lo < mid {
      AbsentKey(s, lo);
      SkipAbsent(s, lo + 1, mid, hi);
    }
  }

  lemma {:induction false} InKeyOrderCons<T>(x: Entry<T>, s: seq<Entry<T>>, hi: nat)
    requires x.key < hi
    requires forall i :: 0 <= i < |s| ==> x.key <= s[i].key
    ensures InKeyOrder([x] + s, 0, hi) == [x] + InKeyOrder(s, 0, hi)
  {
    var k := x.key;
    SkipAbsent([x] + s, 0, k, hi);
    SkipAbsent(s, 0, k, hi);
    forall j | k + 1 <= j < hi ensures ByKey([x] + s, j) == ByKey(s, j) {
      ByKeyConcat([x], s, j);
    }
    InKeyOrderAgree([x] + s, s, k + 1, hi);
    ByKeyConcat([x], s, k);
    assert ByKey([x], k) == [x];
    var rest := InKeyOrder(s, k + 1, hi);
    assert ([x] + ByKey(s, k)) + rest == [x] + (ByKey(s, k) + rest);
  }

  /** Only the per-key streams matter to InKeyOrder. */
  lemma {:induction false} InKeyOrderAgree<T>(a: seq<Entry<T>>, b: seq<Entry<T>>, lo: nat, hi: nat)
    requires lo <= hi
    requires forall k :: lo <= k < hi ==> ByKey(a, k) == ByKey(b, k)
    ensures InKeyOrder(a, lo, hi) == InKeyOrder(b, lo, hi)
    decreases hi - lo
  {
    if lo < hi {
      InKeyOrderAgree(a, b, lo + 1, hi);
    }
  }

  /** A sorted sequence is its streams, laid end to end in key order. */
  lemma {:induction false} SortedIsInKeyOrder<T>(s: seq<Entry<T>>, hi: nat)
    requires Sorted(s)
    requires KeysIn(s, 0, hi)
    ensures s == InKeyOrder(s, 0, hi)
  {
    if s == [] {
      SkipAbsent(s, 0, hi, hi);
    } else {
      assert s == [s[0]] + s[1..];
      SortedIsInKeyOrder(s[1..], hi);
      InKeyOrderCons(s[0], s[1..], hi);
    }
  }

  lemma {:induction false} SortedStreams<T>(s: seq<Entry<T>>, hi: nat)
    requires KeysIn(s, 0, hi)
    ensures StableSort(s) == InKeyOrder(s, 0, hi)
  {
    StableSortCorrect(s);
    SortKeysIn(s, 0, hi);
    SortedIsInKeyOrder(StableSort(s), hi);
    InKeyOrderAgree(StableSort(s), s, 0, hi);
  }
}
