/** The counting and collecting in historical_roster_fetcher.js: the set of
    rostered player ids, the per-season roster summary, and the diagnosis that
    compares a completed season with the current one. The league requests are
    replaced by the data they return (None when a request failed). */
module RosterFetcher {
  import opened Wrappers
  import opened JsText

  /** An entry of `roster.entries`; `playerId` may be missing. */
  datatype RosterEntry = RosterEntry(playerId: Option<JsId>)

  /** An element of `data.rosters`: `entries` is `roster.entries`, None when
      `roster` or `entries` is missing. */
  datatype RosterTeam = RosterTeam(id: JsId, entries: Option<seq<RosterEntry>>)

  /** An element of `data.teams`. */
  datatype LeagueTeam = LeagueTeam(id: JsId)

  /** What `fetchSeasonRosters` assembles; `teams` and `rosters` may be missing. */
  datatype LeagueData = LeagueData(teams: Option<seq<LeagueTeam>>, rosters: Option<seq<RosterTeam>>)

  /** What `analyzeRosterData` returns; `teamsWithRosters` is absent for missing data. */
  datatype RosterSummary = RosterSummary(hasRosters: bool, playerCount: nat, teamsWithRosters: Option<nat>)

  /** The four outcomes of the season comparison. */
  datatype Diagnosis = CurrentSeasonNotReady | CannotRetrieveRosters | EverythingWorks | UnexpectedResults

  /** JavaScript truthiness of an id: not 0 and not the empty string. */
  predicate Truthy(id: JsId)
  {
    match id
    case Num(n) => n != 0
    case Str(s) => s != ""
  }

  /** `team.roster?.entries || []`. */
  function EntriesOf(rt: RosterTeam): seq<RosterEntry>
  {
    rt.entries.GetOr([])
  }

  ghost predicate InEntries(entries: seq<RosterEntry>, id: JsId)
  {
    exists j :: 0 <= j < |entries| && entries[j].playerId == Some(id)
  }

  /** Some entry of some roster team carries `id`. */
  ghost predicate Listed(rosters: seq<RosterTeam>, id: JsId)
  {
    exists i :: 0 <= i < |rosters| && InEntries(EntriesOf(rosters[i]), id)
  }

  // ---------------------------------------------------------------------------
  // extractRosteredPlayerIds (historical_roster_fetcher.js:149-164)
  // ---------------------------------------------------------------------------

  /** The set of truthy player ids over all entries of all roster teams. */
  method ExtractRosteredPlayerIds(data: Option<LeagueData>) returns (rosteredPlayers: set<JsId>)
    ensures data.None? || data.value.rosters.None? ==> rosteredPlayers == {}
    ensures forall id :: id in rosteredPlayers <==>
              data.Some? && data.value.rosters.Some? && Truthy(id) && Listed(data.value.rosters.value, id)
  {
    rosteredPlayers := {};
    if data.None? || data.value.rosters.None? {
      return;
    }
    var rosters := data.value.rosters.value;
    var i := 0;
    while i < |rosters|
      invariant 0 <= i <= |rosters|
      invariant forall id :: id in rosteredPlayers <==> Truthy(id) && Listed(rosters[..i], id)
    {
      var entries := EntriesOf(rosters[i]);
      var j := 0;
      while j < |entries|
        invariant 0 <= j <= |entries|
        invariant forall id :: id in rosteredPlayers <==>
                    Truthy(id) && (Listed(rosters[..i], id) || InEntries(entries[..j], id))
      {
        var playerId := entries[j].playerId;
        if playerId.Some? && Truthy(playerId.value) {
          rosteredPlayers := rosteredPlayers + {playerId.value};
        }
        PrefixEntries(entries, j);
        j := j + 1;
      }
      assert entries[..j] == entries;
      PrefixRosters(rosters, i);
      i := i + 1;
    }
    assert rosters[..i] == rosters;
  }

  lemma PrefixEntries(entries: seq<RosterEntry>, j: nat)
    requires j < |entries|
    ensures forall id :: InEntries(entries[..j + 1], id) <==> InEntries(entries[..j], id) || entries[j].playerId == Some(id)
  {
    forall id ensures InEntries(entries[..j + 1], id) <==> InEntries(entries[..j], id) || entries[j].playerId == Some(id) {
      if InEntries(entries[..j + 1], id) {
        var k :| 0 <= k < j + 1 && entries[..j + 1][k].playerId == Some(id);
        if k < j {
          assert entries[..j][k] == entries[k];
        }
      }
      if InEntries(entries[..j], id) {
        var k :| 0 <= k < j && entries[..j][k].playerId == Some(id);
        assert entries[..j + 1][k] == entries[k];
      }
      if entries[j].playerId == Some(id) {
        assert entries[..j + 1][j] == entries[j];
      }
    }
  }

  lemma PrefixRosters(rosters: seq<RosterTeam>, i: nat)
    requires i < |rosters|
    ensures forall id :: Listed(rosters[..i + 1], id) <==> Listed(rosters[..i], id) || InEntries(EntriesOf(rosters[i]), id)
  {
    forall id ensures Listed(rosters[..i + 1], id) <==> Listed(rosters[..i], id) || InEntries(EntriesOf(rosters[i]), id) {
      if Listed(rosters[..i + 1], id) {
        var k :| 0 <= k < i + 1 && InEntries(EntriesOf(rosters[..i + 1][k]), id);
        if k < i {
          assert rosters[..i][k] == rosters[k];
        }
      }
      if Listed(rosters[..i], id) {
        var k :| 0 <= k < i && InEntries(EntriesOf(rosters[..i][k]), id);
        assert rosters[..i + 1][k] == rosters[k];
      }
      if InEntries(EntriesOf(rosters[i]), id) {
        assert rosters[..i + 1][i] == rosters[i];
      }
    }
  }

  // ---------------------------------------------------------------------------
  // analyzeRosterData (historical_roster_fetcher.js:75-147)
  // ---------------------------------------------------------------------------

  /** `rosters.find(rt => rt.id === id)`: the first roster team with that id. */
  function FindRoster(rosters: seq<RosterTeam>, id: JsId): (r: Option<RosterTeam>)
    ensures r.Some? ==> exists k :: 0 <= k < |rosters| && rosters[k] == r.value && r.value.id == id &&
                          forall m :: 0 <= m < k ==> rosters[m].id != id
    ensures r.None? ==> forall k :: 0 <= k < |rosters| ==> rosters[k].id != id
  {
    if rosters == [] then None
    else if rosters[0].id == id then Some(rosters[0])
    else
      var r := FindRoster(rosters[1..], id);
      assert r.Some? ==> exists k :: 0 <= k < |rosters[1..]| && rosters[1..][k] == r.value && r.value.id == id &&
                          forall m :: 0 <= m < k ==> rosters[1..][m].id != id;
      assert r.Some? ==> exists k :: 1 <= k < |rosters| && rosters[k] == r.value && r.value.id == id &&
                          forall m :: 1 <= m < k ==> rosters[m].id != id;
      r
  }

  /** The number of roster entries of `team`: those of the first roster team
      with the same id, none when there is no such team or no rosters. */
  function RosterSize(rosters: Option<seq<RosterTeam>>, team: LeagueTeam): nat
  {
    if rosters.None? then 0
    else
      var rt := FindRoster(rosters.value, team.id);
      if rt.None? then 0 else |EntriesOf(rt.value)|
  }

  /** `totalPlayers` after the teams in `teams`. */
  function TotalPlayers(rosters: Option<seq<RosterTeam>>, teams: seq<LeagueTeam>): nat
  {
    if teams == [] then 0
    else TotalPlayers(rosters, teams[..|teams| - 1]) + RosterSize(rosters, teams[|teams| - 1])
  }

  /** `teamsWithRosters` after the teams in `teams`. */
  function TeamsWithRosters(rosters: Option<seq<RosterTeam>>, teams: seq<LeagueTeam>): nat
  {
    if teams == [] then 0
    else TeamsWithRosters(rosters, teams[..|teams| - 1]) + (if RosterSize(rosters, teams[|teams| - 1]) > 0 then 1 else 0)
  }

  /** `data.teams`, or none. */
  function TeamsOf(data: LeagueData): seq<LeagueTeam>
  {
    data.teams.GetOr([])
  }

  /** `analyzeRosterData(data, seasonYear).hasRosters`. */
  predicate HasRosters(data: Option<LeagueData>)
  {
    data.Some? && TeamsWithRosters(data.value.rosters, TeamsOf(data.value)) > 0
  }

  method AnalyzeRosterData(data: Option<LeagueData>) returns (r: RosterSummary)
    ensures data.None? ==> r == RosterSummary(false, 0, None)
    ensures data.Some? ==>
              var teams, rosters := TeamsOf(data.value), data.value.rosters;
              r == RosterSummary(TeamsWithRosters(rosters, teams) > 0, TotalPlayers(rosters, teams),
                                 Some(TeamsWithRosters(rosters, teams)))
    ensures r.hasRosters <==> HasRosters(data)
    ensures r.teamsWithRosters.Some? ==> r.teamsWithRosters.value <= |TeamsOf(data.value)|
    ensures r.teamsWithRosters.Some? ==> r.teamsWithRosters.value <= r.playerCount
  {
    if data.None? {
      return RosterSummary(false, 0, None);
    }
    var totalPlayers := 0;
    var teamsWithRosters := 0;
    var teams := TeamsOf(data.value);
    var rosters := data.value.rosters;
    if |teams| > 0 {
      var idx := 0;
      while idx < |teams|
        invariant 0 <= idx <= |teams|
        invariant totalPlayers == TotalPlayers(rosters, teams[..idx])
        invariant teamsWithRosters == TeamsWithRosters(rosters, teams[..idx])
      {
        assert teams[..idx + 1][..idx] == teams[..idx];
        var team := teams[idx];
        var teamRoster := if rosters.Some? then FindRoster(rosters.value, team.id) else None;
        var rosterEntries := if teamRoster.Some? then EntriesOf(teamRoster.value) else [];
        if |rosterEntries| > 0 {
          totalPlayers := totalPlayers + |rosterEntries|;
          teamsWithRosters := teamsWithRosters + 1;
        }
        idx := idx + 1;
      }
      assert teams[..idx] == teams;
    }
    CountBounds(rosters, teams);
    r := RosterSummary(teamsWithRosters > 0, totalPlayers, Some(teamsWithRosters));
  }

  /** Each counted team has at least one player, and no team is counted twice. */
  lemma {:induction false} CountBounds(rosters: Option<seq<RosterTeam>>, teams: seq<LeagueTeam>)
    ensures TeamsWithRosters(rosters, teams) <= |teams|
    ensures TeamsWithRosters(rosters, teams) <= TotalPlayers(rosters, teams)
  {
    if teams != [] {
      CountBounds(rosters, teams[..|teams| - 1]);
    }
  }

  /** Some team has rosters exactly when some player was counted. */
  lemma {:induction false} HasRostersIff(rosters: Option<seq<RosterTeam>>, teams: seq<LeagueTeam>)
    ensures TeamsWithRosters(rosters, teams) > 0 <==> TotalPlayers(rosters, teams) > 0
  {
    if teams != [] {
      HasRostersIff(rosters, teams[..|teams| - 1]);
    }
  }

  /** Some team has rosters exactly when some team's first matching roster has entries. */
  lemma {:induction false} CountedTeamExists(rosters: Option<seq<RosterTeam>>, teams: seq<LeagueTeam>)
    ensures TeamsWithRosters(rosters, teams) > 0 <==> exists k :: 0 <= k < |teams| && RosterSize(rosters, teams[k]) > 0
  {
    if teams != [] {
      var init := teams[..|teams| - 1];
      CountedTeamExists(rosters, init);
      if TeamsWithRosters(rosters, init) > 0 {
        var k :| 0 <= k < |init| && RosterSize(rosters, init[k]) > 0;
        assert teams[k] == init[k];
      }
      if exists k :: 0 <= k < |teams| && RosterSize(rosters, teams[k]) > 0 {
        var k :| 0 <= k < |teams| && RosterSize(rosters, teams[k]) > 0;
        if k < |init| {
          assert init[k] == teams[k];
        }
      }
    }
  }

  /** Missing data, or data without rosters, has no rosters. */
  lemma NoRostersWithoutData(data: Option<LeagueData>)
    requires data.None? || data.value.rosters.None? || data.value.teams.None?
    ensures !HasRosters(data)
  {
    if data.Some? {
      NoRosterNoCount(data.value.rosters, TeamsOf(data.value));
    }
  }

  lemma {:induction false} NoRosterNoCount(rosters: Option<seq<RosterTeam>>, teams: seq<LeagueTeam>)
    requires rosters.None? || teams == []
    ensures TeamsWithRosters(rosters, teams) == 0
  {
    if teams != [] {
      NoRosterNoCount(rosters, teams[..|teams| - 1]);
    }
  }

  // ---------------------------------------------------------------------------
  // compareSeasons (historical_roster_fetcher.js:170-293)
  // ---------------------------------------------------------------------------

  /** The diagnosis chain: one case for each pair of `hasRosters` answers. */
  function Diagnose(has2025: bool, has2026: bool): Diagnosis
  {
    if has2025 && !has2026 then CurrentSeasonNotReady
    else if !has2025 && !has2026 then CannotRetrieveRosters
    else if has2025 && has2026 then EverythingWorks
    else UnexpectedResults
  }

  /** Every diagnosis belongs to exactly one pair of answers. */
  lemma DiagnosisDeterminesAnswers(a1: bool, a2: bool, b1: bool, b2: bool)
    requires Diagnose(a1, a2) == Diagnose(b1, b2)
    ensures a1 == b1 && a2 == b2
  {
  }

  /** The comparison: both seasons are analysed; for a season with rosters
      the ids to save are extracted; then the diagnosis is made. */
  method CompareSeasons(data2025: Option<LeagueData>, data2026: Option<LeagueData>)
    returns (diagnosis: Diagnosis, ids2025: Option<set<JsId>>, ids2026: Option<set<JsId>>)
    ensures diagnosis == Diagnose(HasRosters(data2025), HasRosters(data2026))
    ensures ids2025.Some? <==> HasRosters(data2025)
    ensures ids2026.Some? <==> HasRosters(data2026)
    ensures ids2025.Some? ==> forall id :: id in ids2025.value <==>
              data2025.value.rosters.Some? && Truthy(id) && Listed(data2025.value.rosters.value, id)
    ensures ids2026.Some? ==> forall id :: id in ids2026.value <==>
              data2026.value.rosters.Some? && Truthy(id) && Listed(data2026.value.rosters.value, id)
  {
    var results2025 := AnalyzeRosterData(data2025);
    ids2025 := None;
    if results2025.hasRosters {
      var playerIds2025 := ExtractRosteredPlayerIds(data2025);
      ids2025 := Some(playerIds2025);
    }
    var results2026 := AnalyzeRosterData(data2026);
    ids2026 := None;
    if results2026.hasRosters {
      var playerIds2026 := ExtractRosteredPlayerIds(data2026);
      ids2026 := Some(playerIds2026);
    }
    diagnosis := Diagnose(results2025.hasRosters, results2026.hasRosters);
  }
}
