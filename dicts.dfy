/** Python's insertion-ordered dictionaries with string keys, as both the
    recorder and the hotkey listener use them for their keybind maps. */
module Dicts {

  datatype Option<T> = None | Some(value: T)

  /** One key/value pair of a dictionary. */
  datatype Item<V> = Item(key: string, value: V)

  /** No key appears twice. */
  predicate IsDict<V>(s: seq<Item<V>>) {
    forall i, j :: 0 <= i < j < |s| ==> s[i].key != s[j].key
  }

  /** A dictionary: its items in insertion order, each key once. */
  type Dict<V> = s: seq<Item<V>> | IsDict(s) witness []

  /** `d.get(k)`: the value stored under `k`, if any. */
  function Get<V>(s: seq<Item<V>>, k: string): (r: Option<V>)
    ensures r.None? <==> forall i :: 0 <= i < |s| ==> s[i].key != k
    ensures r.Some? ==> exists i :: 0 <= i < |s| && s[i] == Item(k, r.value)
  {
    if s == [] then None
    else if s[0].key == k then Some(s[0].value)
    else
      var r := Get(s[1..], k);
      assert r.Some? ==> exists i :: 0 <= i < |s[1..]| && s[1..][i] == Item(k, r.value);
      r
  }

  /** The set of keys. */
  function Keys<V>(s: seq<Item<V>>): (r: set<string>)
    ensures forall k :: k in r <==> Get(s, k).Some?
  {
    if s == [] then {} else {s[0].key} + Keys(s[1..])
  }

  /** In a dictionary the value under a key is the one stored at that key's position. */
  lemma {:induction false} GetAt<V>(d: Dict<V>, i: nat)
    requires i < |d|
    ensures Get(d, d[i].key) == Some(d[i].value)
  {
    if i > 0 {
      assert d[0].key != d[i].key;
      var tail: Dict<V> := d[1..];
      assert tail[i - 1] == d[i];
      GetAt(tail, i - 1);
    }
  }

  /** `d[k] = v` for a key already present: the value is replaced and the
      key keeps its position. */
  function Replace<V>(d: Dict<V>, k: string, v: V): (r: Dict<V>)
    requires k in Keys(d)
    ensures |r| == |d|
    ensures forall i :: 0 <= i < |d| ==> r[i].key == d[i].key
    ensures forall x :: Get(r, x) == if x == k then Some(v) else Get(d, x)
  {
    var r := seq(|d|, i requires 0 <= i < |d| => if d[i].key == k then Item(k, v) else d[i]);
    assert IsDict(r);
    forall x ensures Get(r, x) == if x == k then Some(v) else Get(d, x) {
      if Get(d, x).Some? {
        var i :| 0 <= i < |d| && d[i].key == x;
        GetAt(d, i);
        GetAt(r, i);
      }
    }
    r
  }

  /** Looking a key up after appending an item: the earlier binding wins, and
      the new item is found only when the key was absent. */
  lemma {:induction false} GetSnoc<V>(s: seq<Item<V>>, x: Item<V>, k: string)
    ensures Get(s + [x], k) == if Get(s, k).Some? then Get(s, k) else if x.key == k then Some(x.value) else None
  {
    if s == [] {
      assert s + [x] == [x];
    } else {
      assert (s + [x])[1..] == s[1..] + [x];
      GetSnoc(s[1..], x, k);
    }
  }
}
