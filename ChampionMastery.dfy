/**
 * The champion-mastery manager of one summoner: a cache of masteries keyed
 * by champion id, the ranking the cache is read in (`sortedCache`), the
 * n-th highest lookup, and the total mastery score.
 *
 * Responses of the remote API are inputs: `Success` carries the data the
 * request returned, `Failure` the reason it was rejected with.
 */
module ChampionMastery {
  import opened Wrappers
  import opened Text
  import opened Sorting
  import opened Collections

  /** The mastery of one champion; `championId` is the champion's string id. */
  datatype ChampionMastery = ChampionMastery(championId: string, level: int, points: int)

  const InvalidChampion := "Invalid champion ID"
  const NegativeRank := "The value of `n` must be >= 0."

  function MissingRank(n: nat): string {
    "This summoner does not have mastery points for " + NatToString(n) + " champions"
  }

  /**
   * Which of the three lists of `sortedCache` a mastery goes to: 0 for
   * level 7, 1 for level 6, 2 below level 6; 3 for levels above 7, which no
   * list takes.
   */
  function Tier(m: ChampionMastery): int {
    if m.level == 7 then 0 else if m.level == 6 then 1 else if m.level < 6 then 2 else 3
  }

  /** The sort key of `(a, b) => b.points - a.points`: most points first. */
  function PointsDescending(m: ChampionMastery): int {
    -m.points
  }

  function ByPoints(ms: seq<ChampionMastery>): seq<ChampionMastery> {
    SortBy(ms, PointsDescending)
  }

  /** Level 7, then level 6, then below 6, each by points, most first. */
  function Ranked(vs: seq<ChampionMastery>): seq<ChampionMastery> {
    ByPoints(WithKey(vs, Tier, 0)) + ByPoints(WithKey(vs, Tier, 1)) + ByPoints(WithKey(vs, Tier, 2))
  }

  /** `sortedCache`: the cached masteries, ranked. */
  function SortedCache(c: Collection<ChampionMastery>): seq<ChampionMastery>
    requires c.Valid()
  {
    Ranked(c.Values())
  }

  /** `(championId, mastery)` pairs in the order of the response. */
  function Keyed(ms: seq<ChampionMastery>): (es: seq<(string, ChampionMastery)>)
    ensures |es| == |ms|
    ensures forall i :: 0 <= i < |ms| ==> es[i] == (ms[i].championId, ms[i])
  {
    seq(|ms|, i requires 0 <= i < |ms| => (ms[i].championId, ms[i]))
  }

  // ---------------------------------------------------------------------------
  // Properties of the ranking

  /**
   * Ranked order: a lower tier (higher level group) first, and within one
   * tier the points never increase.
   */
  ghost predicate RankOrdered(r: seq<ChampionMastery>) {
    forall i, j :: 0 <= i < j < |r| ==>
      Tier(r[i]) < Tier(r[j]) || (Tier(r[i]) == Tier(r[j]) && r[i].points >= r[j].points)
  }

  ghost predicate TiersWithin(r: seq<ChampionMastery>, lo: int, hi: int) {
    forall i :: 0 <= i < |r| ==> lo <= Tier(r[i]) <= hi
  }

  lemma TierPart(ms: seq<ChampionMastery>, t: int)
    ensures TiersWithin(ByPoints(WithKey(ms, Tier, t)), t, t)
    ensures RankOrdered(ByPoints(WithKey(ms, Tier, t)))
  {
    var part := WithKey(ms, Tier, t);
    var sorted := ByPoints(part);
    WithKeyAll(ms, Tier, t);
    SortBySorted(part, PointsDescending);
    forall i | 0 <= i < |sorted| ensures Tier(sorted[i]) == t {
      assert sorted[i] in multiset(part);
      var k :| 0 <= k < |part| && part[k] == sorted[i];
    }
  }

  lemma ConcatRanked(x: seq<ChampionMastery>, y: seq<ChampionMastery>, lo: int, mid: int, hi: int)
    requires RankOrdered(x) && RankOrdered(y)
    requires lo <= mid < hi
    requires TiersWithin(x, lo, mid) && TiersWithin(y, mid + 1, hi)
    ensures RankOrdered(x + y)
    ensures TiersWithin(x + y, lo, hi)
  {
    var r := x + y;
    assert forall i :: 0 <= i < |r| ==> r[i] == if i < |x| then x[i] else y[i - |x|];
    forall i, j | 0 <= i < j < |r|
      ensures Tier(r[i]) < Tier(r[j]) || (Tier(r[i]) == Tier(r[j]) && r[i].points >= r[j].points)
    {
      if j < |x| {
        assert r[i] == x[i] && r[j] == x[j];
      } else if i >= |x| {
        assert r[i] == y[i - |x|] && r[j] == y[j - |x|];
      } else {
        assert r[i] == x[i] && r[j] == y[j - |x|];
      }
    }
  }

  /**
   * Every level-7 mastery precedes every level-6 one, which precedes every
   * one below 6; within a level group points never increase; nothing above
   * level 7 appears.
   */
  lemma RankedOrdered(vs: seq<ChampionMastery>)
    ensures forall i :: 0 <= i < |Ranked(vs)| ==> Ranked(vs)[i].level <= 7
    ensures RankOrdered(Ranked(vs))
  {
    var a, b, d := ByPoints(WithKey(vs, Tier, 0)), ByPoints(WithKey(vs, Tier, 1)), ByPoints(WithKey(vs, Tier, 2));
    TierPart(vs, 0);
    TierPart(vs, 1);
    TierPart(vs, 2);
    ConcatRanked(a, b, 0, 0, 1);
    ConcatRanked(a + b, d, 0, 1, 2);
    var r := Ranked(vs);
    assert r == (a + b) + d;
    assert TiersWithin(r, 0, 2);
    forall i | 0 <= i < |r|
      ensures r[i].level <= 7
    {
      assert Tier(r[i]) <= 2;
    }
  }

  /**
   * The ranking is a permutation of the masteries of level 7 or less: each
   * such mastery occurs as often as in `vs`, any other never.
   */
  lemma RankedPermutation(vs: seq<ChampionMastery>, m: ChampionMastery)
    ensures multiset(Ranked(vs))[m] == if m.level <= 7 then multiset(vs)[m] else 0
  {
    var a, b, d := ByPoints(WithKey(vs, Tier, 0)), ByPoints(WithKey(vs, Tier, 1)), ByPoints(WithKey(vs, Tier, 2));
    assert multiset(Ranked(vs)) == multiset(a) + multiset(b) + multiset(d);
    WithKeyCount(vs, Tier, 0, m);
    WithKeyCount(vs, Tier, 1, m);
    WithKeyCount(vs, Tier, 2, m);
  }

  /** The head of the ranking is a highest mastery. */
  lemma RankedHeadIsHighest(vs: seq<ChampionMastery>, m: ChampionMastery)
    requires m in vs && m.level <= 7
    ensures |Ranked(vs)| > 0
    ensures Tier(Ranked(vs)[0]) <= Tier(m)
    ensures Tier(Ranked(vs)[0]) == Tier(m) ==> Ranked(vs)[0].points >= m.points
  {
    RankedPermutation(vs, m);
    RankedOrdered(vs);
    var r := Ranked(vs);
    assert m in multiset(r);
    var k :| 0 <= k < |r| && r[k] == m;
    if k > 0 {
      assert Tier(r[0]) < Tier(r[k]) || (Tier(r[0]) == Tier(r[k]) && r[0].points >= r[k].points);
    }
  }

  // ---------------------------------------------------------------------------
  // The manager

  class ChampionMasteryManager {
    var cache: Collection<ChampionMastery>
    var totalScore: int

    ghost predicate Valid()
      reads this
    {
      cache.Valid()
    }

    constructor ()
      ensures Valid()
      ensures cache.Size() == 0 && totalScore == 0
    {
      cache := Empty();
      totalScore := 0;
    }

    /** `refreshAll()`: stores every mastery of the response under its champion id. */
    method RefreshAll(response: Result<seq<ChampionMastery>, string>) returns (r: Result<Collection<ChampionMastery>, string>)
      requires Valid()
      modifies this`cache
      ensures Valid()
      ensures response.Failure? ==> cache == old(cache) && r == Failure(response.error)
      ensures response.Success? ==> cache == SetAll(old(cache), Keyed(response.value)) && r == Success(cache)
    {
      if response.Failure? {
        return Failure(response.error);
      }
      var dataList := response.value;
      ghost var entries := Keyed(dataList);
      for i := 0 to |dataList|
        invariant cache.Valid()
        invariant cache == SetAll(old(cache), entries[..i])
      {
        var mastery := dataList[i];
        assert entries[..i + 1][..i] == entries[..i];
        cache := cache.Set(mastery.championId, mastery);
      }
      assert entries[..|dataList|] == entries;
      r := Success(cache);
    }

    /**
     * `fetch(id, { force, cache })`: the cached mastery unless forced,
     * otherwise the response of the request, stored when `cache` is set.
     * `championExists` is whether the champion lookup found `id`.
     */
    method Fetch(id: string, championExists: bool, force: bool, cacheResult: bool,
                 response: Result<ChampionMastery, string>) returns (r: Result<ChampionMastery, string>)
      requires Valid()
      modifies this`cache
      ensures Valid()
      ensures !championExists ==> r == Failure(InvalidChampion) && cache == old(cache)
      ensures championExists && old(cache).Has(id) && !force ==> r == Success(old(cache).items[id]) && cache == old(cache)
      ensures championExists && (!old(cache).Has(id) || force) ==>
        && r == response
        && cache == if response.Success? && cacheResult then old(cache).Set(id, response.value) else old(cache)
    {
      if !championExists {
        r := Failure(InvalidChampion);
      } else if cache.Has(id) && !force {
        r := Success(cache.items[id]);
      } else if response.Failure? {
        r := Failure(response.error);
      } else {
        var mastery := response.value;
        if cacheResult {
          cache := cache.Set(id, mastery);
        }
        r := Success(mastery);
      }
    }

    /**
     * `highest(n)`: rejects a negative `n`; otherwise refreshes only an empty
     * cache and answers the `n`-th entry of `sortedCache`, if there is one.
     */
    method Highest(n: int, response: Result<seq<ChampionMastery>, string>) returns (r: Result<ChampionMastery, string>)
      requires Valid()
      modifies this`cache
      ensures Valid()
      ensures n < 0 ==> r == Failure(NegativeRank) && cache == old(cache)
      ensures n >= 0 && old(cache).Size() > 0 ==> cache == old(cache)
      ensures n >= 0 && old(cache).Size() == 0 && response.Failure? ==> r == Failure(response.error) && cache == old(cache)
      ensures n >= 0 && old(cache).Size() == 0 && response.Success? ==> cache == SetAll(old(cache), Keyed(response.value))
      ensures n >= 0 && (old(cache).Size() > 0 || response.Success?) ==>
        r == if n < |SortedCache(cache)| then Success(SortedCache(cache)[n]) else Failure(MissingRank(n))
    {
      if n < 0 {
        return Failure(NegativeRank);
      }
      if cache.Size() == 0 {
        var refreshed := RefreshAll(response);
        if refreshed.Failure? {
          return Failure(refreshed.error);
        }
      }
      var ordered := SortedCache(cache);
      if n < |ordered| {
        r := Success(ordered[n]);
      } else {
        r := Failure(MissingRank(n));
      }
    }

    /** `updateTotalScore()`: the score the request returned becomes `totalScore`. */
    method UpdateTotalScore(response: Result<int, string>) returns (r: Result<int, string>)
      modifies this`totalScore
      ensures r == response
      ensures totalScore == if response.Success? then response.value else old(totalScore)
    {
      if response.Success? {
        totalScore := response.value;
      }
      r := response;
    }
  }
}
