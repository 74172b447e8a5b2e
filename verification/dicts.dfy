/** Python dictionaries as the dashboard uses them: `dict.get` with a default,
    and dictionaries that remember their insertion order. */
module Dicts {
  import opened Wrappers

  /** `m.get(k, default)`. */
  function GetOr<V>(m: map<string, V>, k: string, default: V): (r: V)
    ensures k in m ==> r == m[k]
    ensures k !in m ==> r == default
  {
    if k in m then m[k] else default
  }

  /** One key/value pair of an insertion-ordered dictionary. */
  datatype Item<V> = Item(key: string, value: V)

  /** The keys of an ordered dictionary, in insertion order (what iterating a Python dict yields). */
  function Keys<V>(d: seq<Item<V>>): (ks: seq<string>)
    ensures |ks| == |d|
    ensures forall i :: 0 <= i < |d| ==> ks[i] == d[i].key
  {
    seq(|d|, i requires 0 <= i < |d| => d[i].key)
  }

  /** No key occurs twice: every Python dict has this shape. */
  predicate Distinct(ks: seq<string>) {
    forall i, j :: 0 <= i < j < |ks| ==> ks[i] != ks[j]
  }

  /** The position of key `k`: the first item that carries it. */
  function IndexOf<V>(d: seq<Item<V>>, k: string): (i: nat)
    requires k in Keys(d)
    ensures i < |d| && d[i].key == k
    ensures forall j :: 0 <= j < i ==> d[j].key != k
  {
    if d[0].key == k then 0
    else
      assert Keys(d) == [d[0].key] + Keys(d[1..]);
      1 + IndexOf(d[1..], k)
  }

  /** `d[k]` when present. */
  function Find<V>(d: seq<Item<V>>, k: string): (r: Option<V>)
    ensures r.None? <==> k !in Keys(d)
    ensures r.Some? ==> exists i :: 0 <= i < |d| && d[i] == Item(k, r.value)
  {
    if k in Keys(d) then Some(d[IndexOf(d, k)].value) else None
  }

  /** `d[k] = v`: an existing key keeps its position and gets the new value,
      a new key is appended at the end. */
  function Put<V>(d: seq<Item<V>>, k: string, v: V): (r: seq<Item<V>>)
    ensures k in Keys(d) ==> Keys(r) == Keys(d)
    ensures k !in Keys(d) ==> r == d + [Item(k, v)]
    ensures Find(r, k) == Some(v)
  {
    if k in Keys(d) then
      var i := IndexOf(d, k);
      var r := d[i := Item(k, v)];
      assert Keys(r) == Keys(d);
      assert IndexOf(r, k) == i by { IndexOfSameKeys(d, r, k); }
      r
    else
      var r := d + [Item(k, v)];
      assert k in Keys(r) by { assert Keys(r)[|d|] == k; }
      r
  }

  /** Two dictionaries with the same key sequence place every key at the same position. */
  lemma IndexOfSameKeys<V>(d: seq<Item<V>>, e: seq<Item<V>>, k: string)
    requires Keys(d) == Keys(e)
    requires k in Keys(d)
    ensures IndexOf(d, k) == IndexOf(e, k)
  {
  }

  /** Assigning to one key leaves every other key's value unchanged. */
  lemma PutKeepsOthers<V>(d: seq<Item<V>>, k: string, v: V, k': string)
    requires k' != k
    ensures Find(Put(d, k, v), k') == Find(d, k')
  {
    var r := Put(d, k, v);
    if k' in Keys(d) {
      var i := IndexOf(d, k');
      assert Keys(r)[i] == k';
      assert k' in Keys(r);
      if k in Keys(d) {
        IndexOfSameKeys(d, r, k');
      } else {
        assert IndexOf(r, k') == i by {
          var j := IndexOf(r, k');
          assert r[j].key == k';
          assert j < |d|;
        }
      }
    } else {
      forall j | 0 <= j < |r|
        ensures Keys(r)[j] != k'
      {
        if j < |d| { assert Keys(d)[j] == r[j].key; }
      }
    }
  }
}
