/** Python's `dict` with string keys, where insertion order matters: a
    sequence of entries with distinct keys. Assigning to a key already
    present overwrites the value in place; a new key goes to the end. */
module Dicts {
  import opened Wrappers

  type Dict<V> = seq<(string, V)>

  /** Keys are distinct. */
  ghost predicate Valid<V>(d: Dict<V>) {
    forall i, j :: 0 <= i < j < |d| ==> d[i].0 != d[j].0
  }

  /** `d.get(k)`. */
  function Get<V>(d: Dict<V>, k: string): (r: Option<V>)
    ensures r.None? <==> forall i :: 0 <= i < |d| ==> d[i].0 != k
    ensures r.Some? ==> exists i :: 0 <= i < |d| && d[i] == (k, r.value)
  {
    if |d| == 0 then None
    else if d[0].0 == k then Some(d[0].1)
    else
      var r := Get(d[1..], k);
      assert r.Some? ==> exists i :: 0 <= i < |d[1..]| && d[1..][i] == (k, r.value);
      r
  }

  /** The keys, in insertion order. */
  function Keys<V>(d: Dict<V>): (r: seq<string>)
    ensures |r| == |d|
    ensures forall i :: 0 <= i < |d| ==> r[i] == d[i].0
  {
    if |d| == 0 then [] else [d[0].0] + Keys(d[1..])
  }

  /** `d[k] = v`. */
  function Put<V>(d: Dict<V>, k: string, v: V): (r: Dict<V>)
    ensures Get(r, k) == Some(v)
    ensures forall k' :: k' != k ==> Get(r, k') == Get(d, k')
    ensures Get(d, k).Some? ==> |r| == |d| && Keys(r) == Keys(d)
    ensures Get(d, k).None? ==> r == d + [(k, v)]
  {
    if |d| == 0 then [(k, v)]
    else if d[0].0 == k then [(k, v)] + d[1..]
    else
      var r := [d[0]] + Put(d[1..], k, v);
      assert r[1..] == Put(d[1..], k, v);
      r
  }

  /** Writing keeps the keys distinct. */
  lemma {:induction false} PutValid<V>(d: Dict<V>, k: string, v: V)
    requires Valid(d)
    ensures Valid(Put(d, k, v))
    decreases |d|
  {
    if |d| > 0 && d[0].0 != k {
      var t := Put(d[1..], k, v);
      PutValid(d[1..], k, v);
      assert forall i :: 0 <= i < |d[1..]| ==> d[1..][i].0 != d[0].0;
      assert Get(t, d[0].0).None?;
      assert Put(d, k, v) == [d[0]] + t;
    }
  }

  lemma PutKeepsValid<V>(d: Dict<V>, k: string, v: V)
    ensures Valid(d) ==> Valid(Put(d, k, v))
  {
    if Valid(d) {
      PutValid(d, k, v);
    }
  }

  /** The keys listed are the keys present. */
  lemma KeysPresent<V>(d: Dict<V>)
    ensures forall k :: k in Keys(d) <==> Get(d, k).Some?
  {
    forall k | k in Keys(d) ensures Get(d, k).Some? {
      var i :| 0 <= i < |d| && Keys(d)[i] == k;
    }
  }
}
