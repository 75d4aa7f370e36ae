/** Insertion-ordered dictionaries with string keys, as Python's `dict`
    behaves since 3.7: an association sequence whose keys are distinct;
    storing under a new key appends it, storing under an existing key
    replaces the value and keeps the key where it was. */
module Assoc {

  import opened Wrappers

  /** The keys in insertion order (`list(d.keys())`). */
  function Keys<V>(m: seq<(string, V)>): (ks: seq<string>)
    ensures |ks| == |m|
    ensures forall i :: 0 <= i < |m| ==> ks[i] == m[i].0
  {
    seq(|m|, i requires 0 <= i < |m| => m[i].0)
  }

  /** The values in insertion order (`list(d.values())`). */
  function Values<V>(m: seq<(string, V)>): (vs: seq<V>)
    ensures |vs| == |m|
    ensures forall i :: 0 <= i < |m| ==> vs[i] == m[i].1
  {
    seq(|m|, i requires 0 <= i < |m| => m[i].1)
  }

  /** What every Python dict satisfies: no key twice. */
  predicate UniqueKeys<V>(m: seq<(string, V)>) {
    forall i, j :: 0 <= i < j < |m| ==> m[i].0 != m[j].0
  }

  /** The position of the first entry stored under `k`. */
  function IndexOfKey<V>(m: seq<(string, V)>, k: string): (i: nat)
    requires k in Keys(m)
    ensures i < |m| && m[i].0 == k
    ensures forall j :: 0 <= j < i ==> m[j].0 != k
    decreases |m|
  {
    if m[0].0 == k then 0
    else
      assert k in Keys(m[1..]) by {
        var j :| 0 <= j < |m| && Keys(m)[j] == k;
        assert Keys(m[1..])[j - 1] == k;
      }
      1 + IndexOfKey(m[1..], k)
  }

  /** `d.get(k)`. */
  function Lookup<V>(m: seq<(string, V)>, k: string): (r: Option<V>)
    ensures r.None? <==> k !in Keys(m)
    ensures r.Some? ==> (k, r.value) in m
  {
    if k in Keys(m) then Some(m[IndexOfKey(m, k)].1) else None
  }

  /** `d[k] = v`: the key keeps its position when present and is appended
      otherwise. */
  function Put<V>(m: seq<(string, V)>, k: string, v: V): (r: seq<(string, V)>)
    ensures Keys(r) == if k in Keys(m) then Keys(m) else Keys(m) + [k]
    ensures UniqueKeys(m) ==> UniqueKeys(r)
  {
    if k in Keys(m) then
      var r := m[IndexOfKey(m, k) := (k, v)];
      assert Keys(r) == Keys(m);
      r
    else
      var r := m + [(k, v)];
      KeysSnoc(m, (k, v));
      r
  }

  /** Appending an entry appends its key. */
  lemma KeysSnoc<V>(m: seq<(string, V)>, e: (string, V))
    ensures Keys(m + [e]) == Keys(m) + [e.0]
  {
    assert forall i :: 0 <= i < |m| ==> (m + [e])[i] == m[i];
  }

  /** The keys of a non-empty map: those of all but its last entry, then
      the last entry's. */
  lemma KeysInit<V>(m: seq<(string, V)>)
    requires |m| > 0
    ensures Keys(m) == Keys(m[..|m| - 1]) + [m[|m| - 1].0]
  {
    assert m == m[..|m| - 1] + [m[|m| - 1]];
    KeysSnoc(m[..|m| - 1], m[|m| - 1]);
  }

  /** `PutLookup` when `k` is already stored: its entry is replaced in place. */
  lemma PutLookupPresent<V>(m: seq<(string, V)>, k: string, v: V, k': string)
    requires k in Keys(m)
    ensures Lookup(Put(m, k, v), k') == if k' == k then Some(v) else Lookup(m, k')
  {
    var i := IndexOfKey(m, k);
    var r := m[i := (k, v)];
    assert Put(m, k, v) == r;
    assert Keys(r) == Keys(m);
    assert IndexOfKey(r, k) == i;
    if k' != k && k' in Keys(m) {
      var a, b := IndexOfKey(r, k'), IndexOfKey(m, k');
      assert a != i && b != i;
      assert r[b].0 == k' && m[a].0 == k';
    }
  }

  /** `PutLookup` when `k` is new: its entry is appended. */
  lemma PutLookupAbsent<V>(m: seq<(string, V)>, k: string, v: V, k': string)
    requires k !in Keys(m)
    ensures Lookup(Put(m, k, v), k') == if k' == k then Some(v) else Lookup(m, k')
  {
    var r := m + [(k, v)];
    assert Put(m, k, v) == r;
    KeysSnoc(m, (k, v));
    assert IndexOfKey(r, k) == |m|;
    if k' != k && k' in Keys(m) {
      var a, b := IndexOfKey(r, k'), IndexOfKey(m, k');
      assert r[b].0 == k';
    }
  }

  /** After `d[k] = v`, `k` holds `v` and every other key what it held. */
  lemma PutLookup<V>(m: seq<(string, V)>, k: string, v: V, k': string)
    ensures Lookup(Put(m, k, v), k') == if k' == k then Some(v) else Lookup(m, k')
  {
    if k in Keys(m) {
      PutLookupPresent(m, k, v, k');
    } else {
      PutLookupAbsent(m, k, v, k');
    }
  }

  /** In a dict, looking a key up finds exactly the pair stored under it. */
  lemma LookupIn<V>(m: seq<(string, V)>, k: string, v: V)
    requires UniqueKeys(m)
    ensures Lookup(m, k) == Some(v) <==> (k, v) in m
  {
    if (k, v) in m {
      var j :| 0 <= j < |m| && m[j] == (k, v);
      assert Keys(m)[j] == k;
      assert IndexOfKey(m, k) == j;
    }
  }

  /** The entry at position `i` of a dict is what a lookup of its key gives. */
  lemma LookupAt<V>(m: seq<(string, V)>, i: nat)
    requires UniqueKeys(m) && i < |m|
    ensures Lookup(m, m[i].0) == Some(m[i].1)
  {
    assert Keys(m)[i] == m[i].0;
    assert IndexOfKey(m, m[i].0) == i;
  }
}
