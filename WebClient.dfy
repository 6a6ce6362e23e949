/**
 * The shieldbow web client: URL generation for the three CDNs, the patch
 * taken from the version, and the version selection of `initialize`.
 * Fetches are inputs: the versions response, the list of all versions and
 * the set of URLs that answer.
 */
module WebClient {
  import opened Wrappers
  import opened Text
  import opened Collections

  datatype Source = DDragon | CDragon | Meraki
  datatype ImageSource = DDragonImage | CDragonImage

  /** A thrown `Error` with its message, or the `TypeError` of reading a patch that is not there. */
  datatype ClientError = ClientFailure(message: string) | MissingPatch

  const NotInitialized := ClientFailure("Client has not been initialized.")
  const NoSupportedVersion := ClientFailure("IMPOSSIBLE: Could not find a version that is supported by the CDragon.")

  datatype Bases = Bases(dDragon: string, cDragon: string, meraki: string)

  datatype FetchConfig = FetchConfig(cache: bool, ignoreCache: bool, noVersion: bool)
  /** `config.defaultFetchOptions`: every field may be left undefined. */
  datatype FetchOptions = FetchOptions(cache: Option<bool>, ignoreCache: Option<bool>, noVersion: Option<bool>)
  datatype CdnConfig = CdnConfig(dDragon: Option<string>, cDragon: Option<string>, meraki: Option<string>)
  /** The part of `ClientConfig` that `initialize` reads; an absent config is one whose fields are all `None`. */
  datatype ClientConfig = ClientConfig(cdn: CdnConfig, region: Option<string>, locale: Option<string>,
                                       version: Option<string>, defaultFetchOptions: FetchOptions)
  /** The versions file of a region: its current version `v` and locale `l`. */
  datatype VersionsResponse = VersionsResponse(v: string, l: string)

  const DefaultFetchConfig := FetchConfig(true, false, false)

  // ---------------------------------------------------------------------
  // The patch: the first match of /\d+\.\d+/ in the version.
  // ---------------------------------------------------------------------

  /** `s[i..d]` is a run of digits, `s[d]` a dot and `s[d+1..k]` a run of digits. */
  ghost predicate PatternAt(s: string, i: int, d: int, k: int) {
    0 <= i < d && d + 1 < k <= |s|
    && (forall m :: i <= m < d ==> IsDigit(s[m]))
    && s[d] == '.'
    && (forall m :: d < m < k ==> IsDigit(s[m]))
  }

  /** The end of the longest run of digits that starts at `i`. */
  function DigitsEnd(s: string, i: nat): (j: nat)
    requires i <= |s|
    ensures i <= j <= |s|
    ensures forall m :: i <= m < j ==> IsDigit(s[m])
    ensures j == |s| || !IsDigit(s[j])
    decreases |s| - i
  {
    if i < |s| && IsDigit(s[i]) then DigitsEnd(s, i + 1) else i
  }

  /** Start, dot and end of the leftmost, greedy match at or after `from`. */
  function PatchSpan(s: string, from: nat): (r: Option<(nat, nat, nat)>)
    requires from <= |s|
    ensures r.Some? ==> from <= r.value.0 < r.value.1 < r.value.2 <= |s|
    decreases |s| - from
  {
    if from == |s| then None
    else
      var d := DigitsEnd(s, from);
      if from < d && d + 1 < |s| && s[d] == '.' && IsDigit(s[d + 1]) then Some((from, d, DigitsEnd(s, d + 1)))
      else PatchSpan(s, from + 1)
  }

  /** `version.match(patchRegex)!.shift()!`; `None` is the `TypeError` of calling `shift` on the `null` of a version with no match. */
  function PatchOf(version: string): Option<string> {
    match PatchSpan(version, 0)
    case None => None
    case Some(t) => Some(version[t.0..t.2])
  }

  /** The only candidate dot after `i` is the end of its digit run. */
  lemma NoPatternAt(s: string, i: nat)
    requires i < |s|
    requires var d := DigitsEnd(s, i); !(i < d && d + 1 < |s| && s[d] == '.' && IsDigit(s[d + 1]))
    ensures forall d, k :: !PatternAt(s, i, d, k)
  {
    var j := DigitsEnd(s, i);
    forall d, k | PatternAt(s, i, d, k)
      ensures false
    {
    }
  }

  /** What the scan finds is a match whose digit runs are as long as they go. */
  lemma {:induction false} PatchSpanMatch(s: string, from: nat)
    requires from <= |s|
    ensures PatchSpan(s, from).Some? ==>
      var (i, d, k) := PatchSpan(s, from).value;
      PatternAt(s, i, d, k) && (k == |s| || !IsDigit(s[k]))
    decreases |s| - from
  {
    if from < |s| {
      var d := DigitsEnd(s, from);
      if from < d && d + 1 < |s| && s[d] == '.' && IsDigit(s[d + 1]) {
        var k := DigitsEnd(s, d + 1);
        assert PatchSpan(s, from) == Some((from, d, k));
        assert PatternAt(s, from, d, k);
      } else {
        assert PatchSpan(s, from) == PatchSpan(s, from + 1);
        PatchSpanMatch(s, from + 1);
      }
    }
  }

  /** No match starts before the one the scan finds, and when it finds none there is none. */
  lemma {:induction false} PatchSpanLeftmost(s: string, from: nat)
    requires from <= |s|
    ensures PatchSpan(s, from).Some? ==> forall i, d, k :: from <= i < PatchSpan(s, from).value.0 ==> !PatternAt(s, i, d, k)
    ensures PatchSpan(s, from).None? ==> forall i, d, k :: from <= i ==> !PatternAt(s, i, d, k)
    decreases |s| - from
  {
    if from < |s| {
      var d := DigitsEnd(s, from);
      if !(from < d && d + 1 < |s| && s[d] == '.' && IsDigit(s[d + 1])) {
        assert PatchSpan(s, from) == PatchSpan(s, from + 1);
        NoPatternAt(s, from);
        PatchSpanLeftmost(s, from + 1);
      }
    }
  }

  /** A version `x.y` followed by nothing or by a non-digit has the patch `x.y`. */
  lemma PatchOfVersion(x: string, y: string, rest: string)
    requires IsNumeral(x) && IsNumeral(y)
    requires rest == [] || !IsDigit(rest[0])
    ensures PatchOf(x + "." + y + rest) == Some(x + "." + y)
  {
    var s := x + "." + y + rest;
    var k := |x| + 1 + |y|;
    assert forall m :: 0 <= m < |x| ==> s[m] == x[m];
    assert forall m :: |x| < m < k ==> s[m] == y[m - |x| - 1];
    assert s[|x|] == '.';
    assert PatternAt(s, 0, |x|, k);
    PatchSpanMatch(s, 0);
    PatchSpanLeftmost(s, 0);
    var (i, d, e) := PatchSpan(s, 0).value;
    assert i == 0;
    assert d == |x|;
    if |rest| > 0 {
      assert s[k] == rest[0];
    }
    assert e == k;
    assert s[..k] == x + "." + y;
  }

  /** `13.1.1` has the patch `13.1`. */
  lemma PatchExample(version: string)
    requires version == "13.1.1"
    ensures PatchOf(version) == Some("13.1")
  {
    assert version == "13" + "." + "1" + ".1";
    assert IsNumeral("13") && IsNumeral("1") && !IsDigit(".1"[0]);
    PatchOfVersion("13", "1", ".1");
    assert "13" + "." + "1" == "13.1";
  }

  // ---------------------------------------------------------------------
  // URLs: `generateUrl` and `generateImageUrl`, after `ensureInitialized`.
  // ---------------------------------------------------------------------

  predicate EndsWith(s: string, suffix: string) {
    |suffix| <= |s| && s[|s| - |suffix|..] == suffix
  }

  lemma ConcatFrames(base: string, middle: string, path: string)
    ensures StartsWith(base + middle + path, base) && EndsWith(base + middle + path, path)
    ensures base + middle + path == base + (middle + path)
  {
    assert (base + middle + path)[..|base|] == base;
    assert (base + middle + path)[|base + middle|..] == path;
  }

  lemma Framed(base: string, path: string)
    ensures StartsWith(base + path, base) && EndsWith(base + path, path)
  {
    assert (base + path)[..|base|] == base;
    assert (base + path)[|base|..] == path;
  }

  function BaseOf(b: Bases, source: Source): string {
    match source
    case DDragon => b.dDragon
    case CDragon => b.cDragon
    case Meraki => b.meraki
  }

  /** `generateUrl(path, source, noVersion)` with the client's bases, version and locale. */
  function Url(b: Bases, version: Option<string>, locale: string, path: string, source: Source, noVersion: bool): (r: Result<string, ClientError>)
    ensures version.None? <==> r == Failure(NotInitialized)
    ensures r.Success? ==> StartsWith(r.value, BaseOf(b, source)) && EndsWith(r.value, path)
    ensures r.Failure? && version.Some? ==> source == CDragon && !noVersion && PatchOf(version.value).None? && r.error == MissingPatch
    ensures version.Some? && (noVersion || source == Meraki) ==> r == Success(BaseOf(b, source) + path)
    ensures version.Some? && source == DDragon && !noVersion ==> r == Success(b.dDragon + version.value + "/data/" + locale + "/" + path)
    ensures version.Some? && source == CDragon && !noVersion ==>
      r == if PatchOf(version.value).Some? then Success(b.cDragon + PatchOf(version.value).value + "/" + path) else Failure(MissingPatch)
  {
    if version.None? then Failure(NotInitialized)
    else
      match source
      case DDragon =>
        if noVersion then
          Framed(b.dDragon, path);
          Success(b.dDragon + path)
        else
          ConcatFrames(b.dDragon, version.value + "/data/" + locale + "/", path);
          Success(b.dDragon + version.value + "/data/" + locale + "/" + path)
      case CDragon =>
        if noVersion then
          Framed(b.cDragon, path);
          Success(b.cDragon + path)
        else (
          match PatchOf(version.value)
          case None => Failure(MissingPatch)
          case Some(p) =>
            ConcatFrames(b.cDragon, p + "/", path);
            Success(b.cDragon + p + "/" + path))
      case Meraki =>
        Framed(b.meraki, path);
        Success(b.meraki + path)
  }

  /** `generateImageUrl(path, source)`. */
  function ImageUrl(b: Bases, version: Option<string>, path: string, source: ImageSource): (r: Result<string, ClientError>)
    ensures version.None? <==> r == Failure(NotInitialized)
    ensures r.Success? ==> EndsWith(r.value, path)
    ensures r.Success? && source == DDragonImage ==> StartsWith(r.value, b.dDragon + version.value + "/img/")
    ensures r.Success? && source == CDragonImage ==> StartsWith(r.value, b.cDragon)
    ensures r.Failure? && version.Some? ==> source == CDragonImage && PatchOf(version.value).None?
    ensures version.Some? && source == DDragonImage ==> r == Success(b.dDragon + version.value + "/img/" + path)
    ensures version.Some? && source == CDragonImage ==>
      r == if PatchOf(version.value).Some? then Success(b.cDragon + PatchOf(version.value).value + "/" + path) else Failure(MissingPatch)
  {
    if version.None? then Failure(NotInitialized)
    else
      match source
      case DDragonImage =>
        Framed(b.dDragon + version.value + "/img/", path);
        Success(b.dDragon + version.value + "/img/" + path)
      case CDragonImage =>
        match PatchOf(version.value)
        case None => Failure(MissingPatch)
        case Some(p) =>
          ConcatFrames(b.cDragon, p + "/", path);
          Success(b.cDragon + p + "/" + path)
  }

  /**
   * Without the version part, a URL depends neither on the version nor on the
   * locale; meraki URLs never do. Stated as a relation between two clients'
   * states, which the per-call contract of `Url` leaves implicit.
   */
  lemma UrlWithoutVersion(b: Bases, v1: string, v2: string, l1: string, l2: string, path: string, source: Source, noVersion: bool)
    requires noVersion || source == Meraki
    ensures Url(b, Some(v1), l1, path, source, noVersion) == Url(b, Some(v2), l2, path, source, noVersion)
    ensures Url(b, Some(v1), l1, path, source, noVersion) == Success(BaseOf(b, source) + path)
  {
  }

  /** A cDragon image URL is the cDragon data URL of the same path, with the version part. */
  lemma CDragonImageIsVersionedUrl(b: Bases, version: Option<string>, locale: string, path: string)
    ensures ImageUrl(b, version, path, CDragonImage) == Url(b, version, locale, path, CDragon, false)
    ensures version.Some? && PatchOf(version.value).Some? ==>
      ImageUrl(b, version, path, CDragonImage) == Success(b.cDragon + PatchOf(version.value).value + "/" + path)
  {
  }

  /** For a version `x.y…`, the cDragon URL with the version part and the cDragon image URL carry the patch `x.y`. */
  lemma CDragonVersionedUrl(b: Bases, x: string, y: string, rest: string, locale: string, path: string)
    requires IsNumeral(x) && IsNumeral(y)
    requires rest == [] || !IsDigit(rest[0])
    ensures Url(b, Some(x + "." + y + rest), locale, path, CDragon, false) == Success(b.cDragon + x + "." + y + "/" + path)
    ensures ImageUrl(b, Some(x + "." + y + rest), path, CDragonImage) == Success(b.cDragon + x + "." + y + "/" + path)
  {
    PatchOfVersion(x, y, rest);
    assert b.cDragon + (x + "." + y) + "/" + path == b.cDragon + x + "." + y + "/" + path;
  }

  /** A version with no `digits.digits` in it makes every versioned cDragon URL fail, and no other URL. */
  lemma MissingPatchOnlyCDragon(b: Bases, version: string, locale: string, path: string)
    requires forall i, d, k :: !PatternAt(version, i, d, k)
    ensures Url(b, Some(version), locale, path, CDragon, false) == Failure(MissingPatch)
    ensures ImageUrl(b, Some(version), path, CDragonImage) == Failure(MissingPatch)
    ensures Url(b, Some(version), locale, path, DDragon, false).Success?
    ensures ImageUrl(b, Some(version), path, DDragonImage).Success?
  {
    PatchSpanMatch(version, 0);
  }

  // ---------------------------------------------------------------------
  // Version selection and rollback in `initialize`.
  // ---------------------------------------------------------------------

  ghost predicate Distinct(s: seq<string>) {
    forall i, j :: 0 <= i < j < |s| ==> s[i] != s[j]
  }

  /** `allVersions.indexOf(v)`. */
  function VersionIndex(all: seq<string>, v: string): (r: int)
    ensures -1 <= r < |all|
    ensures r == -1 <==> v !in all
    ensures 0 <= r ==> all[r] == v && v !in all[..r]
  {
    if all == [] then -1
    else if all[0] == v then 0
    else
      var i := VersionIndex(all[1..], v);
      if i == -1 then -1
      else
        assert all[..i + 1] == [all[0]] + all[1..][..i];
        i + 1
  }

  lemma DistinctIndex(all: seq<string>, j: int)
    requires Distinct(all) && 0 <= j < |all|
    ensures VersionIndex(all, all[j]) == j
  {
  }

  /**
   * `allVersions.at(allVersions.indexOf(v) + 1)`, kept only when truthy: the
   * version after `v` in the list, or the first one when `v` is not listed.
   */
  function RollBack(all: seq<string>, v: string): (r: Option<string>)
    ensures r.None? <==> VersionIndex(all, v) + 1 == |all| || all[VersionIndex(all, v) + 1] == ""
    ensures v !in all && all != [] && all[0] != "" ==> r == Some(all[0])
    ensures r.Some? ==> r.value in all && r.value != ""
    ensures r.Some? ==> r.value == all[VersionIndex(all, v) + 1]
    ensures r.Some? && Distinct(all) ==> VersionIndex(all, r.value) == VersionIndex(all, v) + 1
  {
    var next := VersionIndex(all, v) + 1;
    if next < |all| && all[next] != "" then
      DistinctIndexWhen(all, next);
      Some(all[next])
    else None
  }

  lemma DistinctIndexWhen(all: seq<string>, j: int)
    requires 0 <= j < |all|
    ensures Distinct(all) ==> VersionIndex(all, all[j]) == j
  {
    if Distinct(all) {
      DistinctIndex(all, j);
    }
  }

  /** `allVersions.find((v) => v.startsWith(prefix))`. */
  function FindPrefixed(all: seq<string>, prefix: string): (r: Option<string>)
    ensures r.None? <==> forall i :: 0 <= i < |all| ==> !StartsWith(all[i], prefix)
    ensures r.Some? ==> exists i :: 0 <= i < |all| && all[i] == r.value && StartsWith(all[i], prefix)
                                     && forall j :: 0 <= j < i ==> !StartsWith(all[j], prefix)
  {
    FindFirst(all, (v: string) => StartsWith(v, prefix))
  }

  /** The version after the configured prefix is applied to the fetched one. */
  function SelectVersion(all: seq<string>, configured: Option<string>, fetched: string): (r: string)
    ensures configured.None? ==> r == fetched
    ensures r == fetched || (configured.Some? && r != "" && FindPrefixed(all, configured.value) == Some(r))
    ensures configured.Some? && FindPrefixed(all, configured.value).None? ==> r == fetched
    ensures configured.Some? && FindPrefixed(all, configured.value).Some? && FindPrefixed(all, configured.value).value != "" ==>
      r == FindPrefixed(all, configured.value).value
    ensures configured.Some? && FindPrefixed(all, configured.value) == Some("") ==> r == fetched
  {
    if configured.None? then fetched
    else
      match FindPrefixed(all, configured.value)
      case Some(m) => if m != "" then m else fetched
      case None => fetched
  }

  /**
   * The `if (typeof config?.version === 'string')` step of `initialize`, on the
   * version fetched so far: the statements `Initialize` runs, specified by the
   * function `SelectVersion`.
   */
  method ApplyConfiguredVersion(all: seq<string>, configured: Option<string>, current: string) returns (v: string)
    ensures v == SelectVersion(all, configured, current)
  {
    v := current;
    if configured.Some? {
      var latestMatch := FindPrefixed(all, configured.value);
      if latestMatch.Some? && latestMatch.value != "" {
        v := latestMatch.value;
      }
    }
  }

  /** The two Aatrox files whose presence shows that both dragons serve a version. */
  function AatroxUrls(b: Bases, locale: string, noVersion: bool, v: string): Result<(string, string), ClientError> {
    var data := Url(b, Some(v), locale, "champion/Aatrox.json", DDragon, noVersion);
    var bin := Url(b, Some(v), locale, "game/data/characters/aatrox/aatrox.bin.json", CDragon, noVersion);
    if bin.Failure? then Failure(bin.error) else Success((data.value, bin.value))
  }

  predicate Served(urls: (string, string), reachable: set<string>) {
    urls.0 in reachable && urls.1 in reachable
  }

  /** The version the rollback loop stops at, and whether `initialize` goes on or throws there. */
  datatype Settled = Settled(version: string, outcome: Outcome<ClientError>)

  /** The rollback loop of `initialize`, started at `v`. */
  function Settle(b: Bases, locale: string, noVersion: bool, all: seq<string>, reachable: set<string>, v: string): Settled
    requires Distinct(all)
    decreases |all| - VersionIndex(all, v)
  {
    match AatroxUrls(b, locale, noVersion, v)
    case Failure(e) => Settled(v, Fail(e))
    case Success(urls) =>
      if Served(urls, reachable) then Settled(v, Pass)
      else
        match RollBack(all, v)
        case None => Settled(v, Fail(NoSupportedVersion))
        case Some(p) => Settle(b, locale, noVersion, all, reachable, p)
  }

  /**
   * `target` lies on the rollback chain from `v`, and every version before it
   * on the chain has both Aatrox URLs but is not served.
   */
  ghost predicate PassedOver(b: Bases, locale: string, noVersion: bool, all: seq<string>, reachable: set<string>, v: string, target: string)
    requires Distinct(all)
    decreases |all| - VersionIndex(all, v)
  {
    || v == target
    || (&& AatroxUrls(b, locale, noVersion, v).Success?
        && !Served(AatroxUrls(b, locale, noVersion, v).value, reachable)
        && RollBack(all, v).Some?
        && PassedOver(b, locale, noVersion, all, reachable, RollBack(all, v).value, target))
  }

  /**
   * The loop stops at a version both dragons serve, or throws; it only ever
   * moves to versions later in the list, i.e. older ones.
   */
  lemma {:induction false} SettleSpec(b: Bases, locale: string, noVersion: bool, all: seq<string>, reachable: set<string>, v: string)
    requires Distinct(all)
    ensures var s := Settle(b, locale, noVersion, all, reachable, v);
      && (s.outcome == Pass ==> AatroxUrls(b, locale, noVersion, s.version).Success? && Served(AatroxUrls(b, locale, noVersion, s.version).value, reachable))
      && (s.outcome == Fail(NoSupportedVersion) ==>
            && AatroxUrls(b, locale, noVersion, s.version).Success?
            && !Served(AatroxUrls(b, locale, noVersion, s.version).value, reachable)
            && RollBack(all, s.version).None?)
      && (s.outcome.Fail? && s.outcome != Fail(NoSupportedVersion) ==>
            AatroxUrls(b, locale, noVersion, s.version) == Failure(s.outcome.error))
      && PassedOver(b, locale, noVersion, all, reachable, v, s.version)
      && (s.version == v || (s.version in all && VersionIndex(all, s.version) > VersionIndex(all, v)))
    decreases |all| - VersionIndex(all, v)
  {
    match AatroxUrls(b, locale, noVersion, v)
    case Failure(e) =>
    case Success(urls) =>
      if !Served(urls, reachable) {
        match RollBack(all, v)
        case None =>
        case Some(p) =>
          SettleSpec(b, locale, noVersion, all, reachable, p);
      }
  }

  /** With duplicates in the list, the rollback returns to where it was: `a, b, a` cycles. */
  lemma RollBackCycles(all: seq<string>, a: string, b: string)
    requires all == [a, b, a] && a != "" && b != "" && a != b
    ensures RollBack(all, a) == Some(b) && RollBack(all, b) == Some(a)
  {
  }

  /**
   * The loop of `initialize` that rolls the version back, one list entry at a
   * time, until both dragons serve the Aatrox files of the version.
   */
  method RollBackUntilServed(b: Bases, locale: string, noVersion: bool, all: seq<string>, reachable: set<string>, start: string)
    returns (s: Settled)
    requires Distinct(all)
    ensures s == Settle(b, locale, noVersion, all, reachable, start)
  {
    var version := start;
    var urls := AatroxUrls(b, locale, noVersion, version);
    while urls.Success? && !Served(urls.value, reachable)
      invariant urls == AatroxUrls(b, locale, noVersion, version)
      invariant Settle(b, locale, noVersion, all, reachable, version) == Settle(b, locale, noVersion, all, reachable, start)
      decreases |all| - VersionIndex(all, version)
    {
      var previousPatch := RollBack(all, version);
      if previousPatch.None? {
        return Settled(version, Fail(NoSupportedVersion));
      }
      version := previousPatch.value;
      urls := AatroxUrls(b, locale, noVersion, version);
    }
    if urls.Failure? {
      return Settled(version, Fail(urls.error));
    }
    s := Settled(version, Pass);
  }

  /** `config.defaultFetchOptions`, each undefined field taking its default. */
  function ResolveFetchOptions(options: FetchOptions): (r: FetchConfig)
    ensures options.cache.Some? ==> r.cache == options.cache.value
    ensures options.ignoreCache.Some? ==> r.ignoreCache == options.ignoreCache.value
    ensures options.noVersion.Some? ==> r.noVersion == options.noVersion.value
    ensures options.cache.None? ==> r.cache
    ensures options.ignoreCache.None? ==> !r.ignoreCache
    ensures options.noVersion.None? ==> !r.noVersion
  {
    FetchConfig(options.cache.GetOr(DefaultFetchConfig.cache),
                options.ignoreCache.GetOr(DefaultFetchConfig.ignoreCache),
                options.noVersion.GetOr(DefaultFetchConfig.noVersion))
  }

  /** No options give the constructor's defaults; full options are taken as they are. */
  lemma ResolveFetchOptionsDefaults(c: FetchConfig)
    ensures ResolveFetchOptions(FetchOptions(None, None, None)) == DefaultFetchConfig
    ensures ResolveFetchOptions(FetchOptions(Some(c.cache), Some(c.ignoreCache), Some(c.noVersion))) == c
  {
  }

  class Client {
    var dDragonBase: string
    var cDragonBase: string
    var merakiBase: string
    var region: string
    var locale: string
    /** `None` until `initialize` has fetched a version. */
    var version: Option<string>
    var defaultFetchOptions: FetchConfig

    /** The default CDN bases are parameters: the constants they come from are not part of this model. */
    constructor (dDragonDefault: string, cDragonDefault: string, merakiDefault: string)
      ensures dDragonBase == dDragonDefault && cDragonBase == cDragonDefault && merakiBase == merakiDefault
      ensures version.None? && region == "na" && locale == "en_US"
      ensures defaultFetchOptions == DefaultFetchConfig
    {
      dDragonBase := dDragonDefault;
      cDragonBase := cDragonDefault;
      merakiBase := merakiDefault;
      version := None;
      region := "na";
      locale := "en_US";
      defaultFetchOptions := DefaultFetchConfig;
    }

    function CurrentBases(): Bases
      reads this
    {
      Bases(dDragonBase, cDragonBase, merakiBase)
    }

    /**
     * The `patch` getter: the first `digits.digits` of the version, greedy.
     * Reading it before `initialize`, or on a version without such a run, is
     * a `TypeError`.
     */
    function Patch(): (r: Option<string>)
      reads this
      ensures version.None? ==> r.None?
      ensures version.Some? ==> r == PatchOf(version.value)
      ensures r.Some? ==> exists i, d, k :: PatternAt(version.value, i, d, k) && r.value == version.value[i..k]
      ensures version.Some? && r.None? ==> forall i, d, k :: !PatternAt(version.value, i, d, k)
    {
      if version.None? then None
      else
        PatchSpanMatch(version.value, 0);
        PatchSpanLeftmost(version.value, 0);
        PatchOf(version.value)
    }

    /**
     * `generateUrl(path, source = 'dDragon', noVersion = !!defaultFetchOptions.noVersion)`:
     * an argument left out is `None` and takes its default.
     */
    function GenerateUrl(path: string, source: Option<Source>, noVersion: Option<bool>): (r: Result<string, ClientError>)
      reads this
      ensures r == Url(CurrentBases(), version, locale, path, source.GetOr(DDragon), noVersion.GetOr(defaultFetchOptions.noVersion))
      ensures version.None? <==> r == Failure(NotInitialized)
      ensures version.Some? && source.None? && noVersion.None? && !defaultFetchOptions.noVersion ==>
        r == Success(dDragonBase + version.value + "/data/" + locale + "/" + path)
      ensures version.Some? && source.None? && noVersion.None? && defaultFetchOptions.noVersion ==>
        r == Success(dDragonBase + path)
    {
      Url(CurrentBases(), version, locale, path, source.GetOr(DDragon), noVersion.GetOr(defaultFetchOptions.noVersion))
    }

    /** `generateImageUrl(path, source = 'dDragon')`. */
    function GenerateImageUrl(path: string, source: Option<ImageSource>): (r: Result<string, ClientError>)
      reads this
      ensures r == ImageUrl(CurrentBases(), version, path, source.GetOr(DDragonImage))
      ensures version.None? <==> r == Failure(NotInitialized)
      ensures version.Some? && source.None? ==> r == Success(dDragonBase + version.value + "/img/" + path)
      ensures version.Some? && source == Some(CDragonImage) ==>
        r == if Patch().Some? then Success(cDragonBase + Patch().value + "/" + path) else Failure(MissingPatch)
    {
      ImageUrl(CurrentBases(), version, path, source.GetOr(DDragonImage))
    }

    /**
     * The Aatrox URLs `initialize` checks are `generateUrl` with the default
     * `noVersion`: the default fetch options in force before `initialize`
     * resolves the configured ones.
     */
    lemma AatroxUrlsAreGenerated(v: string)
      requires version == Some(v)
      ensures AatroxUrls(CurrentBases(), locale, defaultFetchOptions.noVersion, v).Success? ==>
        && GenerateUrl("champion/Aatrox.json", None, None).Success?
        && GenerateUrl("game/data/characters/aatrox/aatrox.bin.json", Some(CDragon), None).Success?
        && AatroxUrls(CurrentBases(), locale, defaultFetchOptions.noVersion, v).value
           == (GenerateUrl("champion/Aatrox.json", None, None).value,
               GenerateUrl("game/data/characters/aatrox/aatrox.bin.json", Some(CDragon), None).value)
      ensures AatroxUrls(CurrentBases(), locale, defaultFetchOptions.noVersion, v).Failure? <==>
        GenerateUrl("game/data/characters/aatrox/aatrox.bin.json", Some(CDragon), None).Failure?
    {
    }

    /**
     * `initialize(config)` after the fetcher is set up: CDN bases (as written,
     * `cdn.cDragon` goes to the dDragon base and `cdn.dDragon` to the cDragon
     * base), region, the fetched version and locale, the configured version
     * prefix, the rollback loop, then the default fetch options.
     */
    method Initialize(config: ClientConfig, fetched: VersionsResponse, allVersions: seq<string>, reachable: set<string>)
      returns (r: Outcome<ClientError>)
      requires Distinct(allVersions)
      modifies this
      ensures dDragonBase == config.cdn.cDragon.GetOr(old(dDragonBase))
      ensures cDragonBase == config.cdn.dDragon.GetOr(old(cDragonBase))
      ensures merakiBase == config.cdn.meraki.GetOr(old(merakiBase))
      ensures region == config.region.GetOr(old(region))
      ensures locale == fetched.l
      ensures var s := Settle(CurrentBases(), locale, old(defaultFetchOptions).noVersion, allVersions, reachable,
                              SelectVersion(allVersions, config.version, fetched.v));
              version == Some(s.version) && r == s.outcome
      ensures defaultFetchOptions == if r == Pass then ResolveFetchOptions(config.defaultFetchOptions) else old(defaultFetchOptions)
    {
      dDragonBase := config.cdn.cDragon.GetOr(dDragonBase);
      cDragonBase := config.cdn.dDragon.GetOr(cDragonBase);
      merakiBase := config.cdn.meraki.GetOr(merakiBase);
      region := config.region.GetOr(region);
      locale := config.locale.GetOr(locale);

      version := Some(fetched.v);
      locale := fetched.l;

      var chosen := ApplyConfiguredVersion(allVersions, config.version, version.value);
      version := Some(chosen);
      var settled := RollBackUntilServed(CurrentBases(), locale, defaultFetchOptions.noVersion, allVersions, reachable, version.value);
      version := Some(settled.version);
      if settled.outcome.Fail? {
        return settled.outcome;
      }
      defaultFetchOptions := ResolveFetchOptions(config.defaultFetchOptions);
      r := Pass;
    }
  }
}
