/** A JavaScript `Map`: a key/value table that remembers the order in which
    keys were first inserted. Setting an existing key replaces its value in place. */
module JsMap {

  datatype OrderedMap<K, V> = OrderedMap(keys: seq<K>, entries: map<K, V>) {

    /** The order lists exactly the keys of the table, and is as long as the table is
        large, so every key occurs in it once (see KeysDistinct). */
    ghost predicate Valid() {
      |keys| == |entries| &&
      (forall k <- entries :: k in keys) && (forall i :: 0 <= i < |keys| ==> keys[i] in entries)
    }

    predicate Has(k: K) {
      k in entries
    }

    /** `map.set(k, v)`: a new key goes to the end, an existing key keeps its place. */
    function Set(k: K, v: V): (m: OrderedMap<K, V>)
      requires Valid()
      ensures m.Valid()
      ensures m.entries == entries[k := v]
      ensures m.keys == if k in entries then keys else keys + [k]
    {
      if k in entries then OrderedMap(keys, entries[k := v])
      else OrderedMap(keys + [k], entries[k := v])
    }

    /** `[...map.entries()]`: the pairs in insertion order. */
    function Entries(): (r: seq<(K, V)>)
      requires Valid()
      ensures |r| == |keys|
      ensures forall i :: 0 <= i < |r| ==> r[i] == (keys[i], entries[keys[i]])
    {
      seq(|keys|, i requires 0 <= i < |keys| => (keys[i], entries[keys[i]]))
    }
  }

  /** The elements of a sequence, collected from the front. */
  ghost function Elements<K>(s: seq<K>): (r: set<K>)
    ensures (forall x <- r :: x in s) && (forall i :: 0 <= i < |s| ==> s[i] in r)
  {
    if s == [] then {} else Elements(s[..|s| - 1]) + {s[|s| - 1]}
  }

  /** A sequence has at most as many distinct elements as positions. */
  lemma {:induction false} ElementsBound<K>(s: seq<K>)
    ensures |Elements(s)| <= |s|
  {
    if s != [] {
      ElementsBound(s[..|s| - 1]);
    }
  }

  /** An element occurring twice leaves fewer distinct elements than positions. */
  lemma {:induction false} ElementsRepeat<K>(s: seq<K>, i: nat, j: nat)
    requires i < j < |s|
    ensures s[i] == s[j] ==> |Elements(s)| < |s|
  {
    var init := s[..|s| - 1];
    if j == |s| - 1 {
      assert s[i] == init[i];
      ElementsBound(init);
    } else {
      assert s[i] == init[i] && s[j] == init[j];
      ElementsRepeat(init, i, j);
    }
  }

  /** No key occurs twice in the insertion order. */
  lemma {:induction false} KeysDistinct<K, V>(m: OrderedMap<K, V>)
    requires m.Valid()
    ensures forall i, j :: 0 <= i < j < |m.keys| ==> m.keys[i] != m.keys[j]
  {
    assert Elements(m.keys) == m.entries.Keys;
    forall i, j | 0 <= i < j < |m.keys| ensures m.keys[i] != m.keys[j] {
      ElementsRepeat(m.keys, i, j);
    }
  }

  /** The values stored under the keys, in the keys' order. */
  function ValuesOf<K, V>(keys: seq<K>, entries: map<K, V>): (r: seq<V>)
    requires forall i :: 0 <= i < |keys| ==> keys[i] in entries
    ensures |r| == |keys| && forall i :: 0 <= i < |keys| ==> r[i] == entries[keys[i]]
  {
    if keys == [] then [] else [entries[keys[0]]] + ValuesOf(keys[1..], entries)
  }

  function Empty<K, V>(): (m: OrderedMap<K, V>)
    ensures m.Valid() && m.keys == [] && m.entries == map[]
  {
    OrderedMap([], map[])
  }

  /** Setting a key that is already present neither grows the table nor moves any key;
      setting a fresh key grows it by exactly one. */
  lemma SetSize<K, V>(m: OrderedMap<K, V>, k: K, v: V)
    requires m.Valid()
    ensures |m.Set(k, v).Entries()| == |m.Entries()| + (if m.Has(k) then 0 else 1)
    ensures m.Set(k, v).Entries()[..|m.keys|] ==
            seq(|m.keys|, i requires 0 <= i < |m.keys| => (m.keys[i], if m.keys[i] == k then v else m.entries[m.keys[i]]))
  {
  }

  /** `set` never moves a key that was already there. */
  lemma SetKeepsOrder<K, V>(m: OrderedMap<K, V>, k: K, v: V)
    requires m.Valid()
    ensures m.keys <= m.Set(k, v).keys
  {
  }
}
