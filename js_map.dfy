/** A JavaScript `Map` with string keys: a dictionary that remembers the
    order in which its keys were first set. */
module JsMaps {
  import opened Js

  datatype JsMap<V> = JsMap(keys: seq<string>, values: map<string, V>) {
    /** Every key once, in insertion order, and exactly the keys of the
        dictionary. */
    predicate Valid() {
      (forall i, j :: 0 <= i < j < |keys| ==> keys[i] != keys[j]) &&
      (forall k :: k in values ==> k in keys) && (forall k :: k in keys ==> k in values)
    }

    /** `map.get(k)`, with `None` for `undefined`. */
    function Get(k: string): (r: Option<V>)
      ensures r.Some? <==> k in values
      ensures r.Some? ==> r.value == values[k]
    {
      if k in values then Some(values[k]) else None
    }

    /** `map.has(k)` */
    predicate Has(k: string) {
      k in values
    }

    /** `map.set(k, v)`: an existing key keeps its place, a new key goes
        last. */
    function Set(k: string, v: V): (r: JsMap<V>)
      requires Valid()
      ensures r.Valid()
      ensures r.values == values[k := v]
      ensures k in values ==> r.keys == keys
      ensures k !in values ==> r.keys == keys + [k]
    {
      if k in values then JsMap(keys, values[k := v]) else JsMap(keys + [k], values[k := v])
    }

    /** `Array.from(map.values())` */
    function Values(): (r: seq<V>)
      requires Valid()
      ensures |r| == |keys|
      ensures forall i :: 0 <= i < |keys| ==> r[i] == values[keys[i]]
    {
      seq(|keys|, i requires 0 <= i < |keys| => values[keys[i]])
    }

    function Size(): nat {
      |keys|
    }
  }

  /** `new Map()`, and what `map.clear()` leaves. */
  function Empty<V>(): (m: JsMap<V>)
    ensures m.Valid() && m.keys == [] && m.values == map[]
  {
    JsMap([], map[])
  }

  /** `map.get` after `map.set` sees the new value for that key and the old
      value for every other key. */
  lemma GetAfterSet<V>(m: JsMap<V>, k: string, v: V, other: string)
    requires m.Valid()
    ensures m.Set(k, v).Get(k) == Some(v)
    ensures other != k ==> m.Set(k, v).Get(other) == m.Get(other)
    ensures m.Set(k, v).Size() == if m.Has(k) then m.Size() else m.Size() + 1
  {
  }

  /** Setting a key to the value it already holds changes nothing. */
  lemma SetUnchanged<V>(m: JsMap<V>, k: string, v: V)
    requires m.Valid() && k in m.values && m.values[k] == v
    ensures m.Set(k, v) == m
  {
  }

  /** A list of distinct names without its last one: still distinct, and
      without the last name. */
  lemma DistinctSnoc(names: seq<string>)
    requires |names| > 0
    requires forall i, j :: 0 <= i < j < |names| ==> names[i] != names[j]
    ensures var init := names[..|names| - 1];
      && (forall i, j :: 0 <= i < j < |init| ==> init[i] != init[j])
      && names[|names| - 1] !in init
      && forall x :: x in names <==> x in init || x == names[|names| - 1]
  {
    var init := names[..|names| - 1];
    assert names == init + [names[|names| - 1]];
    forall i | 0 <= i < |init| ensures init[i] != names[|names| - 1] {
      assert init[i] == names[i];
    }
  }

  /** The keys of a list of entries, in list order. */
  function EntryKeys<V>(entries: seq<(string, V)>): (ks: seq<string>)
    ensures |ks| == |entries|
    ensures forall i :: 0 <= i < |entries| ==> ks[i] == entries[i].0
  {
    seq(|entries|, i requires 0 <= i < |entries| => entries[i].0)
  }

  /** Setting the keys of a list one after the other, in list order:
      `for (const [k, v] of entries) map.set(k, v)`. */
  function SetAll<V>(m: JsMap<V>, entries: seq<(string, V)>): (r: JsMap<V>)
    requires m.Valid()
    ensures r.Valid()
    ensures forall k :: k in r.values <==> k in m.values || k in EntryKeys(entries)
    decreases |entries|
  {
    if |entries| == 0 then m
    else
      var init := entries[..|entries| - 1];
      var last := entries[|entries| - 1];
      assert EntryKeys(entries) == EntryKeys(init) + [last.0];
      SetAll(m, init).Set(last.0, last.1)
  }

  /** One more entry of the list is one more `set`. */
  lemma SetAllPrefix<V>(m: JsMap<V>, entries: seq<(string, V)>, i: nat)
    requires m.Valid() && i < |entries|
    ensures SetAll(m, entries[..i + 1]) == SetAll(m, entries[..i]).Set(entries[i].0, entries[i].1)
  {
    assert entries[..i + 1][..i] == entries[..i];
  }

  /** A key takes the value of its last occurrence in the list. */
  lemma {:induction false} SetAllLast<V>(m: JsMap<V>, entries: seq<(string, V)>, i: nat)
    requires m.Valid()
    requires i < |entries|
    requires forall j :: i < j < |entries| ==> entries[j].0 != entries[i].0
    ensures SetAll(m, entries).Get(entries[i].0) == Some(entries[i].1)
    decreases |entries|
  {
    if i < |entries| - 1 {
      SetAllLast(m, entries[..|entries| - 1], i);
    }
  }

  /** Keys that the list does not mention keep their value. */
  lemma {:induction false} SetAllUntouched<V>(m: JsMap<V>, entries: seq<(string, V)>, k: string)
    requires m.Valid()
    requires k !in EntryKeys(entries)
    ensures SetAll(m, entries).Get(k) == m.Get(k)
    decreases |entries|
  {
    if |entries| > 0 {
      var init := entries[..|entries| - 1];
      assert EntryKeys(entries) == EntryKeys(init) + [entries[|entries| - 1].0];
      SetAllUntouched(m, init, k);
    }
  }

  /** Starting from an empty map, the keys come in the order of their first
      occurrence; with distinct keys that is the list's own order. */
  lemma {:induction false} SetAllDistinctKeys<V>(entries: seq<(string, V)>)
    requires forall i, j :: 0 <= i < j < |entries| ==> entries[i].0 != entries[j].0
    ensures SetAll(Empty(), entries).keys == EntryKeys(entries)
    decreases |entries|
  {
    if |entries| > 0 {
      var init := entries[..|entries| - 1];
      assert forall i, j :: 0 <= i < j < |init| ==> init[i].0 != init[j].0 by {
        assert forall i :: 0 <= i < |init| ==> init[i] == entries[i];
      }
      SetAllDistinctKeys(init);
      LastKeyIsNew(entries);
      EntryKeysSnoc(entries);
    }
  }

  /** With distinct keys, the last key is not set by the entries before
      it. */
  lemma LastKeyIsNew<V>(entries: seq<(string, V)>)
    requires |entries| > 0
    requires forall i, j :: 0 <= i < j < |entries| ==> entries[i].0 != entries[j].0
    ensures entries[|entries| - 1].0 !in SetAll(Empty(), entries[..|entries| - 1]).values
  {
    var init := entries[..|entries| - 1];
    assert forall i :: 0 <= i < |init| ==> EntryKeys(init)[i] != entries[|entries| - 1].0;
  }

  lemma EntryKeysSnoc<V>(entries: seq<(string, V)>)
    requires |entries| > 0
    ensures EntryKeys(entries) == EntryKeys(entries[..|entries| - 1]) + [entries[|entries| - 1].0]
  {
  }
}
