/** Python's `dict` with string keys: an insertion-ordered list of entries
    whose keys are pairwise distinct. */
module Dicts {
  import opened Wrappers

  predicate DistinctKeys<V>(items: seq<(string, V)>) {
    forall i, j :: 0 <= i < j < |items| ==> items[i].0 != items[j].0
  }

  type Dict<V> = items: seq<(string, V)> | DistinctKeys(items) witness []

  /** `list(d.keys())`, in insertion order. */
  function Keys<V>(d: seq<(string, V)>): (ks: seq<string>)
    ensures |ks| == |d|
    ensures forall i :: 0 <= i < |d| ==> ks[i] == d[i].0
  {
    seq(|d|, i requires 0 <= i < |d| => d[i].0)
  }

  /** The position of key `k` in `d`, if it is there. */
  function Find<V>(d: seq<(string, V)>, k: string): (r: Option<nat>)
    ensures r.Some? ==> r.value < |d| && d[r.value].0 == k
    ensures r.None? ==> k !in Keys(d)
  {
    if d == [] then None
    else if d[|d| - 1].0 == k then Some(|d| - 1)
    else
      assert Keys(d) == Keys(d[..|d| - 1]) + [d[|d| - 1].0];
      Find(d[..|d| - 1], k)
  }

  /** `d.get(k)`. */
  function Get<V>(d: Dict<V>, k: string): (r: Option<V>)
    ensures r.Some? <==> k in Keys(d)
    ensures forall i :: 0 <= i < |d| && d[i].0 == k ==> r == Some(d[i].1)
  {
    match Find(d, k)
    case None => None
    case Some(i) => assert Keys(d)[i] == k; Some(d[i].1)
  }

  /** `d[k] = v`: an existing key keeps its place and takes the new value,
      a new key goes at the end. */
  function Put<V>(d: Dict<V>, k: string, v: V): (r: Dict<V>)
    ensures Keys(r) == if k in Keys(d) then Keys(d) else Keys(d) + [k]
    ensures k !in Keys(d) ==> r == d + [(k, v)]
    ensures Get(r, k) == Some(v)
    ensures forall k' :: k' != k ==> Get(r, k') == Get(d, k')
  {
    match Find(d, k)
    case None =>
      assert Keys(d + [(k, v)]) == Keys(d) + [k];
      d + [(k, v)]
    case Some(i) =>
      assert Keys(d)[i] == k;
      assert Keys(d[i := (k, v)]) == Keys(d);
      d[i := (k, v)]
  }

  /** The keys of a dictionary are those of its entries but the last, then the
      last entry's key, which is none of the others. */
  lemma KeysFront<V>(d: Dict<V>)
    requires d != []
    ensures Keys(d) == Keys(d[..|d| - 1]) + [d[|d| - 1].0]
    ensures d[|d| - 1].0 !in Keys(d[..|d| - 1])
  {
    assert Keys(d) == Keys(d[..|d| - 1]) + [d[|d| - 1].0];
  }

  /** Looking a key up splits into the last entry and the entries before it. */
  lemma GetLast<V>(d: Dict<V>, k: string)
    requires d != []
    ensures Get(d, k) == if d[|d| - 1].0 == k then Some(d[|d| - 1].1) else Get(d[..|d| - 1], k)
  {
    var front: Dict<V> := d[..|d| - 1];
    if d[|d| - 1].0 != k && k in Keys(d) {
      var i :| 0 <= i < |d| && Keys(d)[i] == k;
      assert Keys(front)[i] == k;
    }
  }
}
