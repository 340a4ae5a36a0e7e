/**
 * Insertion-ordered dictionaries with string keys, as Python's `dict[str, V]`: a sequence of
 * (key, value) pairs with distinct keys, where assigning an existing key replaces its value in
 * place and assigning a new key appends it at the end.
 */
module Dict {
  import opened Wrappers

  type Dict<V> = seq<(string, V)>

  predicate DistinctKeys<V>(d: Dict<V>) {
    forall i, j :: 0 <= i < j < |d| ==> d[i].0 != d[j].0
  }

  predicate HasKey<V>(d: Dict<V>, k: string) {
    exists i :: 0 <= i < |d| && d[i].0 == k
  }

  /** The position of the first entry with key `k` at or after `from`. */
  function IndexFrom<V>(d: Dict<V>, k: string, from: nat): (r: Option<nat>)
    ensures r.Some? ==> from <= r.value < |d| && d[r.value].0 == k
    ensures r.Some? ==> forall j :: from <= j < r.value ==> d[j].0 != k
    ensures r.None? ==> forall j :: from <= j < |d| ==> d[j].0 != k
    decreases |d| - from
  {
    if from >= |d| then None
    else if d[from].0 == k then Some(from)
    else IndexFrom(d, k, from + 1)
  }

  function IndexOf<V>(d: Dict<V>, k: string): (r: Option<nat>)
    ensures r.Some? <==> HasKey(d, k)
    ensures r.Some? ==> r.value < |d| && d[r.value].0 == k
    ensures r.Some? ==> forall j :: 0 <= j < r.value ==> d[j].0 != k
  {
    IndexFrom(d, k, 0)
  }

  /** `d.get(k)`. */
  function Get<V>(d: Dict<V>, k: string): (r: Option<V>)
    ensures r.Some? <==> HasKey(d, k)
  {
    match IndexOf(d, k)
    case Some(i) => Some(d[i].1)
    case None => None
  }

  /** `d[k] = v`. */
  function Put<V>(d: Dict<V>, k: string, v: V): (r: Dict<V>)
    ensures Get(r, k) == Some(v)
    ensures forall k' :: k' != k ==> Get(r, k') == Get(d, k')
    ensures HasKey(d, k) ==> |r| == |d| && forall i :: 0 <= i < |d| ==> r[i].0 == d[i].0
    ensures !HasKey(d, k) ==> r == d + [(k, v)]
    ensures DistinctKeys(d) ==> DistinctKeys(r)
  {
    match IndexOf(d, k)
    case Some(i) =>
      var r := d[i := (k, v)];
      assert IndexOf(r, k) == Some(i) by { assert r[i].0 == k; }
      forall k' | k' != k
        ensures Get(r, k') == Get(d, k')
      {
        assert forall j :: 0 <= j < |d| && j != i ==> r[j] == d[j];
        assert IndexOf(r, k') == IndexOf(d, k') by {
          if HasKey(d, k') {
            var m := IndexOf(d, k').value;
            assert r[m].0 == k';
          }
        }
      }
      r
    case None =>
      var r := d + [(k, v)];
      assert IndexOf(r, k) == Some(|d|) by { assert r[|d|].0 == k; }
      forall k' | k' != k
        ensures Get(r, k') == Get(d, k')
      {
        assert IndexOf(r, k') == IndexOf(d, k') by {
          if HasKey(d, k') {
            var m := IndexOf(d, k').value;
            assert r[m].0 == k';
          }
        }
      }
      r
  }
}
