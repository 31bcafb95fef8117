/**
 * A PHP array with integer keys and string values, as the scan model keeps
 * its global ignore index (the site option `defender_scan_ignore_index`).
 *
 * A PHP array is an ordered map: it is modelled as its entries in iteration
 * order, each entry carrying its key. Keys matter here: `unset` removes by
 * key and leaves a hole, and `$a[] = $v` appends under the largest key plus
 * one, not under the count.
 */
module PhpArrays {
  import opened Wrappers
  import opened Sequences

  /** One `key => value` pair. */
  datatype Entry = Entry(key: nat, value: string)

  /** Keys grow along the iteration order (which also makes them distinct). */
  predicate KeysIncreasing(a: seq<Entry>) {
    forall i, j :: 0 <= i < j < |a| ==> a[i].key < a[j].key
  }

  /** No value occurs twice. */
  predicate DistinctValues(a: seq<Entry>) {
    forall i, j :: 0 <= i < j < |a| ==> a[i].value != a[j].value
  }

  function Keys(a: seq<Entry>): set<nat> {
    set e | e in a :: e.key
  }

  /** in_array($v, $a, true) is `v in Values(a)`. */
  function Values(a: seq<Entry>): set<string> {
    set e | e in a :: e.value
  }

  /** The key `$a[] = $v` uses: the largest key plus one, 0 when the array is empty. */
  function NextKey(a: seq<Entry>): (k: nat)
    ensures forall e :: e in a ==> e.key < k
    ensures a == [] ==> k == 0
    ensures a != [] ==> exists e :: e in a && k == e.key + 1
    decreases |a|
  {
    if a == [] then 0
    else
      var rest := NextKey(a[1..]);
      if a[0].key + 1 >= rest then a[0].key + 1 else rest
  }

  /** $a[] = $v */
  function Push(a: seq<Entry>, v: string): seq<Entry> {
    a + [Entry(NextKey(a), v)]
  }

  lemma PushKeepsKeysIncreasing(a: seq<Entry>, v: string)
    requires KeysIncreasing(a)
    ensures KeysIncreasing(Push(a, v))
  {
    var r := Push(a, v);
    forall i, j | 0 <= i < j < |r| ensures r[i].key < r[j].key {
      if j == |a| {
        assert r[i] in a;
      }
    }
  }

  lemma ValuesSnoc(a: seq<Entry>, e: Entry)
    ensures Values(a + [e]) == Values(a) + {e.value}
    ensures Keys(a + [e]) == Keys(a) + {e.key}
  {
    assert forall x :: x in a + [e] <==> x in a || x == e;
  }

  lemma ValuesInit(a: seq<Entry>)
    requires a != []
    ensures Values(a) == Values(a[..|a| - 1]) + {a[|a| - 1].value}
    ensures Keys(a) == Keys(a[..|a| - 1]) + {a[|a| - 1].key}
  {
    assert a == a[..|a| - 1] + [a[|a| - 1]];
    ValuesSnoc(a[..|a| - 1], a[|a| - 1]);
  }

  /**
   * array_search($v, $a) with string values: the key of the first entry whose
   * value is `v`; `None` is PHP's `false`.
   */
  function Search(a: seq<Entry>, v: string): (r: Option<nat>)
    ensures r.None? <==> v !in Values(a)
    ensures r.Some? ==> Entry(r.value, v) in a
    decreases |a|
  {
    if a == [] then None
    else
      var found := Search(a[..|a| - 1], v);
      ValuesInit(a);
      if found.Some? then found
      else if a[|a| - 1].value == v then Some(a[|a| - 1].key)
      else None
  }

  /** The key array_search returns belongs to the first entry holding `v`. */
  lemma {:induction false} SearchFindsFirst(a: seq<Entry>, v: string, i: nat)
    requires i < |a| && a[i].value == v
    requires forall j :: 0 <= j < i ==> a[j].value != v
    ensures Search(a, v) == Some(a[i].key)
    decreases |a|
  {
    var init := a[..|a| - 1];
    if i < |a| - 1 {
      SearchFindsFirst(init, v, i);
    } else {
      forall e | e in init ensures e.value != v {
        var j :| 0 <= j < |init| && init[j] == e;
        assert a[j] == e;
      }
    }
  }

  lemma SplitLast(a: seq<Entry>)
    requires a != []
    ensures forall e :: e in a <==> e in a[..|a| - 1] || e == a[|a| - 1]
  {
    assert a == a[..|a| - 1] + [a[|a| - 1]];
  }

  lemma SnocKeysIncreasing(r: seq<Entry>, e: Entry)
    requires KeysIncreasing(r)
    requires forall x :: x in r ==> x.key < e.key
    ensures KeysIncreasing(r + [e])
  {
    forall i, j | 0 <= i < j < |r| + 1 ensures (r + [e])[i].key < (r + [e])[j].key {
      if j == |r| {
        assert r[i] in r;
      }
    }
  }

  lemma SnocDistinctValues(r: seq<Entry>, e: Entry)
    requires DistinctValues(r)
    requires e.value !in Values(r)
    ensures DistinctValues(r + [e])
  {
    forall i, j | 0 <= i < j < |r| + 1 ensures (r + [e])[i].value != (r + [e])[j].value {
      if j == |r| {
        assert r[i] in r;
      }
    }
  }

  /** Filtering keeps the order of the keys and the distinctness of the values. */
  lemma {:induction false} FilterKeepsOrder(a: seq<Entry>, keep: Entry -> bool)
    ensures KeysIncreasing(a) ==> KeysIncreasing(Filter(a, keep))
    ensures DistinctValues(a) ==> DistinctValues(Filter(a, keep))
    decreases |a|
  {
    if a != [] {
      var init := a[..|a| - 1];
      var last := a[|a| - 1];
      FilterKeepsOrder(init, keep);
      var f := Filter(init, keep);
      if keep(last) {
        if KeysIncreasing(a) {
          forall x | x in f ensures x.key < last.key {
            var j :| 0 <= j < |init| && init[j] == x;
            assert a[j] == x;
          }
          SnocKeysIncreasing(f, last);
        }
        if DistinctValues(a) {
          forall x | x in f ensures x.value != last.value {
            var j :| 0 <= j < |init| && init[j] == x;
            assert a[j] == x;
          }
          SnocDistinctValues(f, last);
        }
      }
    }
  }

  /** unset($a[$k]): drops the entry under key `k`, if any; every other entry keeps its key. */
  function Unset(a: seq<Entry>, k: nat): (r: seq<Entry>)
    ensures forall e :: e in r <==> e in a && e.key != k
    ensures KeysIncreasing(a) ==> KeysIncreasing(r)
  {
    FilterKeepsOrder(a, (e: Entry) => e.key != k);
    Filter(a, (e: Entry) => e.key != k)
  }

  predicate Falsy(s: string) {
    s == "" || s == "0"
  }

  /** array_filter($a) without a callback: drops the entries whose value is falsy, keys kept. */
  function FilterFalsy(a: seq<Entry>): (r: seq<Entry>)
    ensures forall e :: e in r <==> e in a && !Falsy(e.value)
  {
    Filter(a, (e: Entry) => !Falsy(e.value))
  }

  /**
   * array_unique($a): keeps, for each value, the first entry that holds it,
   * with its key; the order is kept.
   */
  function Unique(a: seq<Entry>): (r: seq<Entry>)
    ensures forall e :: e in r ==> e in a
    ensures Values(r) == Values(a)
    decreases |a|
  {
    if a == [] then []
    else
      var init := a[..|a| - 1];
      var last := a[|a| - 1];
      var u := Unique(init);
      ValuesInit(a);
      SplitLast(a);
      if last.value in Values(init) then u
      else
        ValuesSnoc(u, last);
        u + [last]
  }

  /** array_unique leaves distinct values, each under the key array_search finds for it, in key order. */
  lemma {:induction false} UniqueProperties(a: seq<Entry>)
    ensures DistinctValues(Unique(a))
    ensures forall e :: e in Unique(a) ==> Search(a, e.value) == Some(e.key)
    ensures KeysIncreasing(a) ==> KeysIncreasing(Unique(a))
    decreases |a|
  {
    if a != [] {
      var init := a[..|a| - 1];
      var last := a[|a| - 1];
      var u := Unique(init);
      UniqueProperties(init);
      ValuesInit(a);
      SplitLast(a);
      if last.value !in Values(init) {
        SnocDistinctValues(u, last);
        if KeysIncreasing(a) {
          forall x | x in u ensures x.key < last.key {
            var j :| 0 <= j < |init| && init[j] == x;
            assert a[j] == x;
          }
          SnocKeysIncreasing(u, last);
        }
      }
    }
  }

  /** The clean-up both ignore operations finish with: array_filter(array_unique($a)). */
  function Normalize(a: seq<Entry>): (r: seq<Entry>)
    ensures DistinctValues(r)
    ensures forall e :: e in r ==> e in a && !Falsy(e.value)
    ensures Values(r) == set v | v in Values(a) && !Falsy(v)
    ensures KeysIncreasing(a) ==> KeysIncreasing(r)
  {
    var u := Unique(a);
    UniqueProperties(a);
    FilterKeepsOrder(u, (e: Entry) => !Falsy(e.value));
    var r := FilterFalsy(u);
    assert forall v :: v in Values(r) <==> v in Values(u) && !Falsy(v) by {
      forall v | v in Values(u) && !Falsy(v) ensures v in Values(r) {
        var e :| e in u && e.value == v;
        assert e in r;
      }
    }
    r
  }

  lemma {:induction false} UniqueOfDistinct(a: seq<Entry>)
    requires DistinctValues(a)
    ensures Unique(a) == a
    decreases |a|
  {
    if a != [] {
      var init := a[..|a| - 1];
      var last := a[|a| - 1];
      UniqueOfDistinct(init);
      forall e | e in init ensures e.value != last.value {
        var j :| 0 <= j < |init| && init[j] == e;
        assert a[j] == e;
      }
      assert a == init + [last];
    }
  }

  /** A normalized array is left as it is by a second clean-up. */
  lemma NormalizeIdempotent(a: seq<Entry>)
    requires DistinctValues(a)
    requires forall e :: e in a ==> !Falsy(e.value)
    ensures Normalize(a) == a
  {
    UniqueOfDistinct(a);
    FilterKeepsAll(a, (e: Entry) => !Falsy(e.value));
  }
}
