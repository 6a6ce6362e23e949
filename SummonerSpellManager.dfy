/** The summoner-spell manager: summoner spells of the data dragon, cached by their key. */
module SummonerSpellManager {
  import opened Wrappers
  import opened Collections
  import opened DataDragon

  const NoSuchSpell := "There is no spell with that ID"

  /** The part of a spell's data-dragon entry the model keeps. */
  datatype SummonerSpellData = SummonerSpellData(id: string, name: string)

  datatype SummonerSpell = SummonerSpell(id: string, name: string)

  /** `new SummonerSpell(client, data)`: the spell is built from its data alone. */
  function NewSpell(key: string, data: SummonerSpellData): SummonerSpell {
    SummonerSpell(data.id, data.name)
  }

  function SpellName(spell: SummonerSpell): string {
    spell.name
  }

  class SummonerSpellManager {
    var cache: Collection<SummonerSpell>

    ghost predicate Valid()
      reads this
    {
      cache.Valid()
    }

    constructor ()
      ensures Valid() && cache.Size() == 0
    {
      cache := Empty();
    }

    /** `_fetchAll({ cache })`: builds a spell for every loaded key, storing it when `cacheResult` is set. */
    method FetchAll(spells: seq<(string, SummonerSpellData)>, cacheResult: bool) returns (r: Collection<SummonerSpell>)
      requires Valid()
      modifies this`cache
      ensures Valid()
      ensures cache == Refilled(old(cache), spells, NewSpell, cacheResult)
      ensures r == cache
    {
      for i := 0 to |spells|
        invariant cache.Valid()
        invariant cacheResult ==> cache == SetAll(old(cache), Built(spells[..i], NewSpell))
        invariant !cacheResult ==> cache == old(cache)
      {
        var key := spells[i].0;
        var summonerSpell := NewSpell(key, spells[i].1);
        if cacheResult {
          RefillStep(old(cache), spells, NewSpell, i);
          cache := cache.Set(key, summonerSpell);
        }
      }
      assert spells[..|spells|] == spells;
      r := cache;
    }

    /** `fetch(key, { force, cache })`: the cached spell unless forced, else reload and look again. */
    method Fetch(key: string, force: bool, cacheResult: bool, spells: seq<(string, SummonerSpellData)>) returns (r: Result<SummonerSpell, string>)
      requires Valid()
      modifies this`cache
      ensures Valid()
      ensures r == FetchResult(old(cache), key, force, cacheResult, spells, NewSpell, NoSuchSpell)
      ensures cache == if old(cache).Has(key) && !force then old(cache) else Refilled(old(cache), spells, NewSpell, cacheResult)
    {
      if cache.Has(key) && !force {
        r := Success(cache.items[key]);
      } else {
        var _ := FetchAll(spells, cacheResult);
        if cache.Has(key) {
          r := Success(cache.items[key]);
        } else {
          r := Failure(NoSuchSpell);
        }
      }
    }

    /**
     * `fetchByName(name, { force, cache })`: reloads only an empty cache or
     * when forced, then finds the first cached spell whose name contains
     * `name`, ignoring case.
     */
    method FetchByName(name: string, force: bool, cacheResult: bool, spells: seq<(string, SummonerSpellData)>) returns (r: Option<SummonerSpell>)
      requires Valid()
      modifies this`cache
      ensures Valid()
      ensures cache == if old(cache).Size() == 0 || force then Refilled(old(cache), spells, NewSpell, cacheResult) else old(cache)
      ensures r == FindByName(cache.Values(), SpellName, name)
    {
      if cache.Size() == 0 || force {
        var _ := FetchAll(spells, cacheResult);
      }
      r := FindByName(cache.Values(), SpellName, name);
    }
  }
}
