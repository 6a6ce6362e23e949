/**
 * What the item and summoner-spell managers share: a cache-aside lookup
 * over an in-memory `Collection` that is refilled from the whole data-dragon
 * file, and a case-insensitive search by name.
 *
 * The loader (local storage, then the CDN) is abstracted to its result:
 * `entries`, the `(key, data)` pairs of the loaded object in `Object.keys`
 * order.
 */
module DataDragon {
  import opened Wrappers
  import opened Text
  import opened Collections

  /** The `(key, value)` pairs built from the loaded `(key, data)` pairs, in order. */
  function Built<D, V>(entries: seq<(string, D)>, build: (string, D) -> V): (es: seq<(string, V)>)
    ensures |es| == |entries|
    ensures forall i :: 0 <= i < |entries| ==> es[i] == (entries[i].0, build(entries[i].0, entries[i].1))
  {
    seq(|entries|, i requires 0 <= i < |entries| => (entries[i].0, build(entries[i].0, entries[i].1)))
  }

  /** The cache after `_fetchAll`: every loaded value stored when `cacheResult` is set. */
  function Refilled<D, V>(c: Collection<V>, entries: seq<(string, D)>, build: (string, D) -> V, cacheResult: bool): Collection<V>
    requires c.Valid()
  {
    if cacheResult then SetAll(c, Built(entries, build)) else c
  }

  /** One more loaded entry is one more `set` of the value built from it. */
  lemma RefillStep<D, V>(c: Collection<V>, entries: seq<(string, D)>, build: (string, D) -> V, i: nat)
    requires c.Valid()
    requires i < |entries|
    ensures SetAll(c, Built(entries[..i + 1], build))
         == SetAll(c, Built(entries[..i], build)).Set(entries[i].0, build(entries[i].0, entries[i].1))
  {
    var longer := Built(entries[..i + 1], build);
    assert longer[..i] == Built(entries[..i], build);
  }

  /** The outcome of `fetch(key, { force, cache })`. */
  function FetchResult<D, V>(c: Collection<V>, key: string, force: bool, cacheResult: bool,
                             entries: seq<(string, D)>, build: (string, D) -> V, missing: string): Result<V, string>
    requires c.Valid()
  {
    if c.Has(key) && !force then Success(c.items[key])
    else
      var after := Refilled(c, entries, build, cacheResult);
      if after.Has(key) then Success(after.items[key]) else Failure(missing)
  }

  /** `name.toLowerCase().includes(query.toLowerCase())`. */
  predicate NameMatches(name: string, query: string) {
    Includes(Lower(name), Lower(query))
  }

  /** `cache.find(v => v.name.toLowerCase().includes(query.toLowerCase()))`. */
  function FindByName<V>(vs: seq<V>, nameOf: V -> string, query: string): (r: Option<V>)
    ensures r.None? <==> forall i :: 0 <= i < |vs| ==> !NameMatches(nameOf(vs[i]), query)
    ensures r.Some? ==> exists i :: 0 <= i < |vs| && vs[i] == r.value && NameMatches(nameOf(vs[i]), query) &&
                                    forall j :: 0 <= j < i ==> !NameMatches(nameOf(vs[j]), query)
  {
    FindFirst(vs, v => NameMatches(nameOf(v), query))
  }

  predicate DistinctKeys<D>(entries: seq<(string, D)>) {
    forall i, j :: 0 <= i < j < |entries| ==> entries[i].0 != entries[j].0
  }

  // ---------------------------------------------------------------------------
  // Properties

  /**
   * With `cacheResult` set, the refill stores, under every loaded key, the
   * value built from that key and its data, keeps every key already cached
   * (with its value when the load does not have it) and keeps their order.
   * Without it the cache is unchanged.
   */
  lemma RefilledSpec<D, V>(c: Collection<V>, entries: seq<(string, D)>, build: (string, D) -> V, cacheResult: bool)
    requires c.Valid()
    requires DistinctKeys(entries)
    ensures !cacheResult ==> Refilled(c, entries, build, cacheResult) == c
    ensures cacheResult ==> c.order <= Refilled(c, entries, build, cacheResult).order
    ensures cacheResult ==> Refilled(c, entries, build, cacheResult).items.Keys == c.items.Keys + KeysOf(entries)
    ensures cacheResult ==> forall i :: 0 <= i < |entries| ==>
      Refilled(c, entries, build, cacheResult).items[entries[i].0] == build(entries[i].0, entries[i].1)
    ensures cacheResult ==> forall k :: k in c.items && k !in KeysOf(entries) ==>
      Refilled(c, entries, build, cacheResult).items[k] == c.items[k]
  {
    if cacheResult {
      var es := Built(entries, build);
      SetAllKeys(c, es);
      assert KeysOf(es) == KeysOf(entries) by {
        forall k | k in KeysOf(es) ensures k in KeysOf(entries) {
          var i :| 0 <= i < |es| && es[i].0 == k;
          assert entries[i].0 == k;
        }
        forall k | k in KeysOf(entries) ensures k in KeysOf(es) {
          var i :| 0 <= i < |entries| && entries[i].0 == k;
          assert es[i].0 == k;
        }
      }
      forall i | 0 <= i < |entries| ensures SetAll(c, es).items[entries[i].0] == build(entries[i].0, entries[i].1) {
        SetAllLast(c, es, i);
      }
      forall k | k in c.items && k !in KeysOf(entries) ensures SetAll(c, es).items[k] == c.items[k] {
        SetAllKeeps(c, es, k);
      }
    }
  }

  /**
   * A cached key is answered from the cache unless forced. Otherwise the
   * data is reloaded, and with `cacheResult` set the fetch succeeds exactly
   * when the key was cached or loaded, answering the freshly built value for
   * a loaded key. Without `cacheResult` the reload stores nothing, so the
   * fetch answers the value already cached, stale or not, or rejects.
   */
  lemma FetchSpec<D, V>(c: Collection<V>, key: string, force: bool, cacheResult: bool,
                        entries: seq<(string, D)>, build: (string, D) -> V, missing: string)
    requires c.Valid()
    requires DistinctKeys(entries)
    ensures c.Has(key) && !force ==> FetchResult(c, key, force, cacheResult, entries, build, missing) == Success(c.items[key])
    ensures (!c.Has(key) || force) && cacheResult ==>
      (FetchResult(c, key, force, cacheResult, entries, build, missing).Success? <==> key in c.items || key in KeysOf(entries))
    ensures (!c.Has(key) || force) && cacheResult ==> forall i :: 0 <= i < |entries| && entries[i].0 == key ==>
      FetchResult(c, key, force, cacheResult, entries, build, missing) == Success(build(key, entries[i].1))
    ensures !cacheResult ==>
      FetchResult(c, key, force, cacheResult, entries, build, missing) == if c.Has(key) then Success(c.items[key]) else Failure(missing)
    ensures FetchResult(c, key, force, cacheResult, entries, build, missing).Failure? ==>
      FetchResult(c, key, force, cacheResult, entries, build, missing).error == missing
  {
    RefilledSpec(c, entries, build, cacheResult);
  }

  /**
   * Without `cacheResult`, a key that is not cached is never found: the
   * reload does not store what it loaded, so the fetch rejects.
   */
  lemma FetchUncachedWithoutCaching<D, V>(c: Collection<V>, key: string, force: bool,
                                          entries: seq<(string, D)>, build: (string, D) -> V, missing: string)
    requires c.Valid() && !c.Has(key)
    ensures FetchResult(c, key, force, false, entries, build, missing) == Failure(missing)
  {
  }

  /** The search ignores (ASCII) case: queries that lower-case alike find the same value. */
  lemma {:induction false} FindByNameIgnoresCase<V>(vs: seq<V>, nameOf: V -> string, q1: string, q2: string)
    requires Lower(q1) == Lower(q2)
    ensures FindByName(vs, nameOf, q1) == FindByName(vs, nameOf, q2)
    decreases |vs|
  {
    if vs != [] {
      FindByNameIgnoresCase(vs[1..], nameOf, q1, q2);
    }
  }
}
