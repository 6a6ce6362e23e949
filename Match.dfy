/**
 * A match built from the raw match data of the API: the malformed-data check
 * that makes construction fail, the platform-to-region mapping, and the
 * split of the participants into the blue (team 100) and red (team 200) side.
 */
module Match {
  import opened Wrappers
  import opened Sorting

  const Malformed := "Match data received is malformed."

  datatype Participant = Participant(puuid: string, teamId: int)

  datatype TeamData = TeamData(teamId: int, win: bool)

  /** The `info` part of the raw match data, with the fields the model reads. */
  datatype MatchInfo = MatchInfo(
    gameCreation: int,
    gameStartTimestamp: int,
    gameDuration: int,
    gameEndTimestamp: int,
    gameId: int,
    gameMode: string,
    gameName: string,
    gameType: string,
    gameVersion: string,
    mapId: int,
    platformId: string,
    queueId: int,
    tournamentCode: string,
    participants: seq<Participant>,
    teams: seq<TeamData>)

  datatype MatchData = MatchData(matchId: string, dataVersion: string, info: MatchInfo)

  datatype Region = BR | EUNE | EUW | JP | KR | LAN | LAS | NA | OCE | TR | RU

  datatype Side = Blue | Red

  /** One side of the match: its team entry, if any, and its participants. */
  datatype Team = Team(data: Option<TeamData>, participants: seq<Participant>)

  datatype Match = Match(
    id: string,
    version: string,
    createdTimestamp: int,
    startTimestamp: int,
    duration: int,
    endTimestamp: int,
    gameId: int,
    gameMode: string,
    gameName: string,
    gameType: string,
    gameVersion: string,
    mapId: int,
    region: Region,
    queueId: int,
    tournamentCode: string,
    teams: map<Side, Team>)

  /** `_isDataMalformed`: the traits of a bugged match, checked in order. */
  predicate IsDataMalformed(info: MatchInfo) {
    if info.gameCreation == 0 then true
    else if info.gameDuration == 0 then true
    else if |info.gameMode| == 0 then true
    else if |info.gameName| == 0 then true
    else if |info.gameType| == 0 then true
    else if |info.gameVersion| == 0 then true
    else if |info.participants| == 0 then true
    else |info.teams| == 0
  }

  /** `_regionFromPlatformId`: ten known platforms; every other id is North America. */
  function RegionFromPlatformId(platformId: string): Region {
    match platformId
    case "BR1" => BR
    case "EUN1" => EUNE
    case "EUW1" => EUW
    case "JP1" => JP
    case "KR" => KR
    case "LA1" => LAN
    case "LA2" => LAS
    case "OC1" => OCE
    case "TR1" => TR
    case "RU" => RU
    case _ => NA
  }

  /** The platform id of each region other than North America. */
  function PlatformOf(r: Region): string
    requires r != NA
  {
    match r
    case BR => "BR1"
    case EUNE => "EUN1"
    case EUW => "EUW1"
    case JP => "JP1"
    case KR => "KR"
    case LAN => "LA1"
    case LAS => "LA2"
    case OCE => "OC1"
    case TR => "TR1"
    case RU => "RU"
  }

  const KnownPlatforms: set<string> := {"BR1", "EUN1", "EUW1", "JP1", "KR", "LA1", "LA2", "OC1", "TR1", "RU"}

  function TeamIdOf(p: Participant): int {
    p.teamId
  }

  /**
   * `participants.filter(p => p.teamId === teamId)`: each participant of the
   * team as often as it occurs, and no one else.
   */
  function OnTeam(ps: seq<Participant>, teamId: int): (r: seq<Participant>)
    ensures |r| <= |ps|
    ensures forall p :: multiset(r)[p] == if p.teamId == teamId then multiset(ps)[p] else 0
    ensures forall p :: p in r <==> p in ps && p.teamId == teamId
  {
    var r := WithKey(ps, TeamIdOf, teamId);
    WithKeyCounts(ps, TeamIdOf, teamId);
    WithKeyLength(ps, TeamIdOf, teamId);
    r
  }

  /** The filter keeps the participants' order: it distributes over concatenation and keeps or drops each one. */
  lemma OnTeamOrder(a: seq<Participant>, b: seq<Participant>, p: Participant, teamId: int)
    ensures OnTeam(a + b, teamId) == OnTeam(a, teamId) + OnTeam(b, teamId)
    ensures OnTeam([p], teamId) == if p.teamId == teamId then [p] else []
  {
    WithKeyConcat(a, b, TeamIdOf, teamId);
    assert [p][1..] == [];
    assert WithKey([p], TeamIdOf, teamId) == (if p.teamId == teamId then [p] else []) + WithKey([], TeamIdOf, teamId);
  }

  /** `teams.find(t => t.teamId === teamId)`. */
  function FindTeam(ts: seq<TeamData>, teamId: int): (r: Option<TeamData>)
    ensures r.None? <==> forall i :: 0 <= i < |ts| ==> ts[i].teamId != teamId
    ensures r.Some? ==> r.value.teamId == teamId && r.value in ts
    ensures r.Some? ==> exists i :: 0 <= i < |ts| && ts[i] == r.value && forall j :: 0 <= j < i ==> ts[j].teamId != teamId
    decreases |ts|
  {
    if ts == [] then None
    else if ts[0].teamId == teamId then Some(ts[0])
    else
      var r := FindTeam(ts[1..], teamId);
      assert r.Some? ==> exists i :: 1 <= i < |ts| && ts[i] == r.value && forall j :: 0 <= j < i ==> ts[j].teamId != teamId by {
        if r.Some? {
          var i :| 0 <= i < |ts[1..]| && ts[1..][i] == r.value && forall j :: 0 <= j < i ==> ts[1..][j].teamId != teamId;
          assert ts[i + 1] == r.value;
          assert forall j :: 1 <= j < i + 1 ==> ts[j] == ts[1..][j - 1];
        }
      }
      r
  }

  /**
   * The match constructor: fails with the malformed-data error exactly when
   * the data is malformed; otherwise copies the data, maps the platform to its
   * region and gives each side its team entry and participants.
   */
  function NewMatch(data: MatchData): (r: Result<Match, string>)
    ensures r.Failure? <==> IsDataMalformed(data.info)
    ensures r.Failure? ==> r.error == Malformed
    ensures r.Success? ==> r.value.id == data.matchId && r.value.region == RegionFromPlatformId(data.info.platformId)
    ensures r.Success? ==> r.value.version == data.dataVersion && r.value.gameId == data.info.gameId
    ensures r.Success? ==> r.value.createdTimestamp == data.info.gameCreation && r.value.startTimestamp == data.info.gameStartTimestamp
    ensures r.Success? ==> r.value.duration == data.info.gameDuration && r.value.endTimestamp == data.info.gameEndTimestamp
    ensures r.Success? ==> r.value.gameMode == data.info.gameMode && r.value.gameName == data.info.gameName && r.value.gameType == data.info.gameType
    ensures r.Success? ==> r.value.gameVersion == data.info.gameVersion && r.value.mapId == data.info.mapId
    ensures r.Success? ==> r.value.queueId == data.info.queueId && r.value.tournamentCode == data.info.tournamentCode
    ensures r.Success? ==> r.value.teams.Keys == {Blue, Red}
    ensures r.Success? ==> r.value.teams[Blue].participants == OnTeam(data.info.participants, 100)
    ensures r.Success? ==> r.value.teams[Red].participants == OnTeam(data.info.participants, 200)
    ensures r.Success? ==> forall p :: p in r.value.teams[Blue].participants <==> p in data.info.participants && p.teamId == 100
    ensures r.Success? ==> forall p :: p in r.value.teams[Red].participants <==> p in data.info.participants && p.teamId == 200
    ensures r.Success? ==> r.value.teams[Blue].data == FindTeam(data.info.teams, 100)
    ensures r.Success? ==> r.value.teams[Red].data == FindTeam(data.info.teams, 200)
  {
    var info := data.info;
    if IsDataMalformed(info) then Failure(Malformed)
    else
      var blue := Team(FindTeam(info.teams, 100), OnTeam(info.participants, 100));
      var red := Team(FindTeam(info.teams, 200), OnTeam(info.participants, 200));
      Success(Match(
        data.matchId, data.dataVersion,
        info.gameCreation, info.gameStartTimestamp, info.gameDuration, info.gameEndTimestamp,
        info.gameId, info.gameMode, info.gameName, info.gameType, info.gameVersion, info.mapId,
        RegionFromPlatformId(info.platformId), info.queueId, info.tournamentCode,
        map[Blue := blue, Red := red]))
  }

  // ---------------------------------------------------------------------------
  // Properties

  /** Malformed data is data with any of the listed defects, and only that. */
  lemma MalformedIff(info: MatchInfo)
    ensures IsDataMalformed(info) <==>
      || info.gameCreation == 0 || info.gameDuration == 0
      || info.gameMode == [] || info.gameName == [] || info.gameType == [] || info.gameVersion == []
      || info.participants == [] || info.teams == []
  {
  }

  /** Each known platform maps to its own region and back. */
  lemma KnownPlatformsRoundTrip(r: Region)
    requires r != NA
    ensures PlatformOf(r) in KnownPlatforms
    ensures RegionFromPlatformId(PlatformOf(r)) == r
  {
  }

  /** The result is North America exactly for ids outside the ten known ones (NA1 included). */
  lemma DefaultRegion(platformId: string)
    ensures RegionFromPlatformId(platformId) == NA <==> platformId !in KnownPlatforms
    ensures platformId in KnownPlatforms ==> PlatformOf(RegionFromPlatformId(platformId)) == platformId
  {
  }

  /** The ten known ids map to pairwise distinct regions. */
  lemma KnownPlatformsDistinct(p: string, q: string)
    requires p in KnownPlatforms && q in KnownPlatforms && p != q
    ensures RegionFromPlatformId(p) != RegionFromPlatformId(q)
  {
    DefaultRegion(p);
    DefaultRegion(q);
  }

  /**
   * The two sides split the participants: nobody is on both, and blue, red
   * and the participants of any other team add up to all of them.
   */
  lemma {:induction false} SidesPartition(ps: seq<Participant>)
    ensures |OnTeam(ps, 100)| + |OnTeam(ps, 200)| + |OtherTeams(ps)| == |ps|
    ensures forall p :: !(p in OnTeam(ps, 100) && p in OnTeam(ps, 200))
    decreases |ps|
  {
    if ps != [] {
      SidesPartition(ps[1..]);
    }
  }

  /** The participants on neither side. */
  function OtherTeams(ps: seq<Participant>): (r: seq<Participant>)
    ensures forall p :: p in r ==> p in ps && p.teamId != 100 && p.teamId != 200
    decreases |ps|
  {
    if ps == [] then []
    else (if ps[0].teamId != 100 && ps[0].teamId != 200 then [ps[0]] else []) + OtherTeams(ps[1..])
  }
}
