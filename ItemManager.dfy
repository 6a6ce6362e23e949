/** The item manager: items of the data dragon, cached by their id. */
module ItemManager {
  import opened Wrappers
  import opened Collections
  import opened DataDragon

  const NoSuchItem := "There is no item with that ID"

  /** The part of an item's data-dragon entry the model keeps. */
  datatype ItemData = ItemData(name: string)

  datatype Item = Item(id: string, name: string)

  /** `new Item(client, key, data)`: the item takes its id from the key. */
  function NewItem(key: string, data: ItemData): Item {
    Item(key, data.name)
  }

  function ItemName(item: Item): string {
    item.name
  }

  class ItemManager {
    var cache: Collection<Item>

    ghost predicate Valid()
      reads this
    {
      cache.Valid()
    }

    constructor ()
      ensures Valid() && cache.Size() == 0
    {
      cache := Empty();
    }

    /** `_fetchAll({ cache })`: builds an item for every loaded key, storing it when `cacheResult` is set. */
    method FetchAll(items: seq<(string, ItemData)>, cacheResult: bool) returns (r: Collection<Item>)
      requires Valid()
      modifies this`cache
      ensures Valid()
      ensures cache == Refilled(old(cache), items, NewItem, cacheResult)
      ensures r == cache
    {
      for i := 0 to |items|
        invariant cache.Valid()
        invariant cacheResult ==> cache == SetAll(old(cache), Built(items[..i], NewItem))
        invariant !cacheResult ==> cache == old(cache)
      {
        var key := items[i].0;
        var item := NewItem(key, items[i].1);
        if cacheResult {
          RefillStep(old(cache), items, NewItem, i);
          cache := cache.Set(key, item);
        }
      }
      assert items[..|items|] == items;
      r := cache;
    }

    /** `fetch(key, { force, cache })`: the cached item unless forced, else reload and look again. */
    method Fetch(key: string, force: bool, cacheResult: bool, items: seq<(string, ItemData)>) returns (r: Result<Item, string>)
      requires Valid()
      modifies this`cache
      ensures Valid()
      ensures r == FetchResult(old(cache), key, force, cacheResult, items, NewItem, NoSuchItem)
      ensures cache == if old(cache).Has(key) && !force then old(cache) else Refilled(old(cache), items, NewItem, cacheResult)
    {
      if cache.Has(key) && !force {
        r := Success(cache.items[key]);
      } else {
        var _ := FetchAll(items, cacheResult);
        if cache.Has(key) {
          r := Success(cache.items[key]);
        } else {
          r := Failure(NoSuchItem);
        }
      }
    }

    /**
     * `fetchByName(name, { force, cache })`: reloads only an empty cache or
     * when forced, then finds the first cached item whose name contains
     * `name`, ignoring case.
     */
    method FetchByName(name: string, force: bool, cacheResult: bool, items: seq<(string, ItemData)>) returns (r: Option<Item>)
      requires Valid()
      modifies this`cache
      ensures Valid()
      ensures cache == if old(cache).Size() == 0 || force then Refilled(old(cache), items, NewItem, cacheResult) else old(cache)
      ensures r == FindByName(cache.Values(), ItemName, name)
    {
      if cache.Size() == 0 || force {
        var _ := FetchAll(items, cacheResult);
      }
      r := FindByName(cache.Values(), ItemName, name);
    }
  }
}
