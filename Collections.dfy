/**
 * The `Collection` of `@discordjs/collection` the managers cache into: a
 * `Map` from string keys to values that remembers insertion order.
 * `set` on a new key appends it; `set` on a present key replaces the value
 * in place; `values()` and `find` walk the keys in insertion order.
 */
module Collections {
  import opened Wrappers

  datatype Collection<V> = Collection(order: seq<string>, items: map<string, V>) {

    /** Each key appears once in `order`, and `order` lists exactly the keys of `items`. */
    ghost predicate Valid() {
      && (forall i, j :: 0 <= i < j < |order| ==> order[i] != order[j])
      && (forall k :: k in items <==> k in order)
    }

    predicate Has(k: string) {
      k in items
    }

    function Size(): nat {
      |order|
    }

    /** `collection.set(k, v)`. */
    function Set(k: string, v: V): (c: Collection<V>)
      requires Valid()
      ensures c.Valid()
      ensures c.items == items[k := v]
      ensures c.order == if Has(k) then order else order + [k]
    {
      Collection(if k in items then order else order + [k], items[k := v])
    }

    /** `[...collection.values()]`: the values in insertion order. */
    function Values(): (vs: seq<V>)
      requires Valid()
      ensures |vs| == |order|
      ensures forall i :: 0 <= i < |order| ==> vs[i] == items[order[i]]
    {
      seq(|order|, i requires 0 <= i < |order| => items[order[i]])
    }
  }

  function Empty<V>(): (c: Collection<V>)
    ensures c.Valid() && c.Size() == 0
  {
    Collection([], map[])
  }

  /** The collection after `c.set(k, v)` for each `(k, v)` of `entries`, in order. */
  function SetAll<V>(c: Collection<V>, entries: seq<(string, V)>): (r: Collection<V>)
    requires c.Valid()
    ensures r.Valid()
    decreases |entries|
  {
    if entries == [] then c
    else
      var last := entries[|entries| - 1];
      SetAll(c, entries[..|entries| - 1]).Set(last.0, last.1)
  }

  /** The keys of `entries`. */
  function KeysOf<V>(entries: seq<(string, V)>): set<string> {
    set i | 0 <= i < |entries| :: entries[i].0
  }

  /**
   * Storing entries never removes a key or moves one: the old insertion
   * order is a prefix of the new one, and the keys are the old keys plus the
   * stored ones.
   */
  lemma {:induction false} SetAllKeys<V>(c: Collection<V>, entries: seq<(string, V)>)
    requires c.Valid()
    ensures c.order <= SetAll(c, entries).order
    ensures SetAll(c, entries).items.Keys == c.items.Keys + KeysOf(entries)
    decreases |entries|
  {
    if entries != [] {
      var n := |entries| - 1;
      SetAllKeys(c, entries[..n]);
      KeysOfSnoc(entries);
    }
  }

  lemma KeysOfSnoc<V>(entries: seq<(string, V)>)
    requires entries != []
    ensures KeysOf(entries) == KeysOf(entries[..|entries| - 1]) + {entries[|entries| - 1].0}
  {
    var n := |entries| - 1;
    assert forall i :: 0 <= i < n ==> entries[..n][i] == entries[i];
    forall k | k in KeysOf(entries) ensures k in KeysOf(entries[..n]) + {entries[n].0} {
      var i :| 0 <= i < |entries| && entries[i].0 == k;
      if i < n { assert entries[..n][i].0 == k; }
    }
  }

  /** A key that no entry stores keeps its value. */
  lemma {:induction false} SetAllKeeps<V>(c: Collection<V>, entries: seq<(string, V)>, k: string)
    requires c.Valid()
    requires k in c.items && k !in KeysOf(entries)
    ensures k in SetAll(c, entries).items && SetAll(c, entries).items[k] == c.items[k]
    decreases |entries|
  {
    if entries != [] {
      var n := |entries| - 1;
      KeysOfSnoc(entries);
      SetAllKeeps(c, entries[..n], k);
    }
  }

  /** A stored key holds the value of its last entry. */
  lemma {:induction false} SetAllLast<V>(c: Collection<V>, entries: seq<(string, V)>, i: nat)
    requires c.Valid()
    requires i < |entries|
    requires forall j :: i < j < |entries| ==> entries[j].0 != entries[i].0
    ensures entries[i].0 in SetAll(c, entries).items
    ensures SetAll(c, entries).items[entries[i].0] == entries[i].1
    decreases |entries|
  {
    var n := |entries| - 1;
    var prefix := entries[..n];
    var before := SetAll(c, prefix);
    assert SetAll(c, entries).items == before.items[entries[n].0 := entries[n].1];
    if i < n {
      assert prefix[i] == entries[i];
      assert forall j :: i < j < |prefix| ==> prefix[j].0 != prefix[i].0 by {
        forall j | i < j < |prefix|
          ensures prefix[j].0 != prefix[i].0
        {
          assert prefix[j] == entries[j];
        }
      }
      SetAllLast(c, prefix, i);
    }
  }

  /** `find(p)` over values in insertion order: the first value that satisfies `p`. */
  function FindFirst<V>(vs: seq<V>, p: V -> bool): (r: Option<V>)
    ensures r.None? <==> forall i :: 0 <= i < |vs| ==> !p(vs[i])
    ensures r.Some? ==> exists i :: 0 <= i < |vs| && vs[i] == r.value && p(vs[i]) && forall j :: 0 <= j < i ==> !p(vs[j])
    decreases |vs|
  {
    if vs == [] then None
    else if p(vs[0]) then Some(vs[0])
    else
      var r := FindFirst(vs[1..], p);
      assert r.Some? ==> exists i :: 1 <= i < |vs| && vs[i] == r.value && p(vs[i]) && forall j :: 0 <= j < i ==> !p(vs[j]) by {
        if r.Some? {
          var i :| 0 <= i < |vs[1..]| && vs[1..][i] == r.value && p(vs[1..][i]) && forall j :: 0 <= j < i ==> !p(vs[1..][j]);
          assert vs[i + 1] == r.value && p(vs[i + 1]);
          assert forall j :: 1 <= j < i + 1 ==> !p(vs[j]) by {
            assert forall j :: 1 <= j < i + 1 ==> vs[j] == vs[1..][j - 1];
          }
        }
      }
      r
  }
}
