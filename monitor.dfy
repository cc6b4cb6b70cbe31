/** The monitoring cycle of monitor.js: `processGame`'s walk over a box score
    with the module-level `alertedPlayers` set, `monitorGames`' walk over the
    schedule, and the batched `sendAlertEmail`. Network requests, the clock and
    the mail transport are replaced by inputs and by logs of what was requested. */
module Monitor {
  import opened Wrappers
  import opened JsText
  import opened Alerts

  /** An entry of `team.statistics[0].athletes`: `athlete` is `athlete.athlete`
      and `stats` is `athlete.stats`. Either may be missing; reading into a
      missing one throws a TypeError. */
  datatype AthleteEntry = AthleteEntry(athlete: Option<Person>, stats: Option<seq<string>>)

  /** An entry of `boxscore.players`: `team` is `team.team.displayName`, None
      when `team.team` is missing (which throws); `athletes` is
      `team.statistics[0].athletes`, None when a link of that chain is missing
      (which skips the team). */
  datatype TeamBox = TeamBox(team: Option<string>, athletes: Option<seq<AthleteEntry>>)

  /** A game of today's schedule together with what its summary request
      returns: None when the request fails or the response has no
      `boxscore.players`. */
  datatype Game = Game(id: string, shortName: string, summary: Option<seq<TeamBox>>)

  /** A request the monitor makes to the data source. */
  datatype Fetch = Scoreboard | Summary(gameId: string)

  /** A message handed to the mail transporter. */
  datatype Email = Email(subject: string, players: seq<Alert>)

  /** How a call of `monitorGames` ended. */
  datatype Cycle = OutsideWindow | NoGames | Checked(batch: seq<Alert>)

  /** The parsed content of the roster file. */
  datatype RosterJson = JsonArray(items: seq<JsId>) | JsonOther

  /** What reading the roster file finds: no file, a file that cannot be read
      or parsed, or its parsed content. */
  datatype RosterFile = NoFile | Unreadable | Parsed(content: RosterJson)

  /** What `processGame` reads besides the alerted set. */
  datatype Context = Context(thresholds: Thresholds, roster: seq<JsId>, today: string, gameId: string, gameName: string)

  /** A game's box score scanned so far: the alerts pushed, the alerted set,
      and whether a TypeError has been thrown. */
  datatype Scan = Scan(alerts: seq<Alert>, alerted: set<string>, aborted: bool)

  /** The alerts a game or a cycle returns and the alerted set it leaves. */
  datatype Batch = Batch(alerts: seq<Alert>, alerted: set<string>)

  // ---------------------------------------------------------------------------
  // Specification of processGame (monitor.js:191-253)
  // ---------------------------------------------------------------------------

  /** One athlete: extraction, then the filter. */
  function StepAthlete(c: Context, teamName: string, s: Scan, a: AthleteEntry): Scan
  {
    if s.aborted then s
    else if a.athlete.None? || a.stats.None? then s.(aborted := true)
    else Admit(c, s, Extract(a.athlete.value, teamName, c.gameId, c.gameName, a.stats.value))
  }

  /** The filter for one observation: thresholds, roster, then the dedup key. */
  function Admit(c: Context, s: Scan, o: Observation): Scan
  {
    match Candidate(c.thresholds, c.roster, o)
    case None => s
    case Some(alert) =>
      var key := AlertKey(o.id, c.today);
      if key in s.alerted then s else Scan(s.alerts + [alert], s.alerted + {key}, s.aborted)
  }

  function ScanAthletes(c: Context, teamName: string, s: Scan, athletes: seq<AthleteEntry>): Scan
    decreases |athletes|
  {
    if athletes == [] then s
    else ScanAthletes(c, teamName, StepAthlete(c, teamName, s, athletes[0]), athletes[1..])
  }

  /** One team: its name is read first, then its athletes if it lists any. */
  function StepTeam(c: Context, s: Scan, t: TeamBox): Scan
  {
    if s.aborted then s
    else if t.team.None? then s.(aborted := true)
    else if t.athletes.None? then s
    else ScanAthletes(c, t.team.value, s, t.athletes.value)
  }

  function ScanTeams(c: Context, s: Scan, teams: seq<TeamBox>): Scan
    decreases |teams|
  {
    if teams == [] then s else ScanTeams(c, StepTeam(c, s, teams[0]), teams[1..])
  }

  /** `processGame`: a missing summary gives no alerts; a TypeError part-way
      gives no alerts either, but the keys added before it stay. */
  function GameAlerts(c: Context, alerted: set<string>, summary: Option<seq<TeamBox>>): Batch
  {
    if summary.None? then Batch([], alerted)
    else
      var s := ScanTeams(c, Scan([], alerted, false), summary.value);
      Batch(if s.aborted then [] else s.alerts, s.alerted)
  }

  /** Whether `processGame` throws part-way through this summary. */
  predicate GameAborts(c: Context, alerted: set<string>, summary: Option<seq<TeamBox>>)
  {
    summary.Some? && ScanTeams(c, Scan([], alerted, false), summary.value).aborted
  }

  // ---------------------------------------------------------------------------
  // Specification of monitorGames (monitor.js:296-337)
  // ---------------------------------------------------------------------------

  /** The games processed one after another, the alerted set threaded through
      and the alerts concatenated in game order. */
  function RunGames(t: Thresholds, roster: seq<JsId>, today: string, alerted: set<string>, games: seq<Game>): Batch
    decreases |games|
  {
    if games == [] then Batch([], alerted)
    else
      var g := GameAlerts(Context(t, roster, today, games[0].id, games[0].shortName), alerted, games[0].summary);
      var rest := RunGames(t, roster, today, g.alerted, games[1..]);
      Batch(g.alerts + rest.alerts, rest.alerted)
  }

  /** One summary request per game, in schedule order. */
  function SummaryRequests(games: seq<Game>): seq<Fetch>
  {
    if games == [] then [] else SummaryRequests(games[..|games| - 1]) + [Summary(games[|games| - 1].id)]
  }

  /** The subject `sendAlertEmail` chooses: the player's name for one player, the count otherwise. */
  function Subject(players: seq<Alert>): string
    requires |players| > 0
  {
    if |players| == 1 then "\U{1F3C0} FANTASY ALERT: " + players[0].player.name + " Available!"
    else "\U{1F3C0} FANTASY ALERT: " + DecimalString(|players|) + " Players Available!"
  }

  // ---------------------------------------------------------------------------
  // The monitor's state and operations
  // ---------------------------------------------------------------------------

  /** The module-level state of monitor.js with the configuration it reads. */
  class AlertMonitor {
    const thresholds: Thresholds
    const window: Window
    /** `rosteredPlayerIds` */
    var roster: seq<JsId>
    /** `alertedPlayers` */
    var alerted: set<string>
    /** The messages handed to the mail transporter, oldest first. */
    var outbox: seq<Email>
    /** The requests made to the data source, oldest first. */
    var fetches: seq<Fetch>

    constructor (thresholds: Thresholds, window: Window)
      ensures this.thresholds == thresholds && this.window == window
      ensures roster == [] && alerted == {} && outbox == [] && fetches == []
    {
      this.thresholds := thresholds;
      this.window := window;
      roster := [];
      alerted := {};
      outbox := [];
      fetches := [];
    }

    /** `loadRosterData`: content that is not an array loads as an empty
        roster; a missing or unreadable file leaves the roster as it was. */
    method LoadRosterData(file: RosterFile) returns (loaded: bool)
      modifies this`roster
      ensures loaded <==> file.Parsed?
      ensures file.Parsed? && file.content.JsonArray? ==> roster == file.content.items
      ensures file.Parsed? && file.content.JsonOther? ==> roster == []
      ensures !file.Parsed? ==> roster == old(roster)
    {
      match file
      case Parsed(content) =>
        roster := if content.JsonArray? then content.items else [];
        loaded := true;
      case _ =>
        loaded := false;
    }

    /** `sendAlertEmail`: nothing for an empty list, otherwise one message for the whole list. */
    method SendAlertEmail(players: seq<Alert>)
      modifies this`outbox
      ensures players == [] ==> outbox == old(outbox)
      ensures players != [] ==> outbox == old(outbox) + [Email(Subject(players), players)]
    {
      if |players| == 0 {
        return;
      }
      var subject := Subject(players);
      outbox := outbox + [Email(subject, players)];
    }

    /** `processGame(gameId, gameName)`, with the summary its request returns. */
    method ProcessGame(gameId: string, gameName: string, summary: Option<seq<TeamBox>>, today: string)
      returns (alertPlayers: seq<Alert>)
      modifies this`alerted, this`fetches
      ensures fetches == old(fetches) + [Summary(gameId)]
      ensures var b := GameAlerts(Context(thresholds, roster, today, gameId, gameName), old(alerted), summary);
              alertPlayers == b.alerts && alerted == b.alerted
    {
      fetches := fetches + [Summary(gameId)];
      alertPlayers := [];
      if summary.None? {
        return;
      }
      ghost var c := Context(thresholds, roster, today, gameId, gameName);
      ghost var all := ScanTeams(c, Scan([], alerted, false), summary.value);
      var teams := summary.value;
      var i := 0;
      while i < |teams|
        invariant 0 <= i <= |teams|
        invariant fetches == old(fetches) + [Summary(gameId)]
        invariant ScanTeams(c, Scan(alertPlayers, alerted, false), teams[i..]) == all
      {
        var team := teams[i];
        assert teams[i..][1..] == teams[i + 1..];
        if team.team.None? {
          TeamsAbsorb(c, Scan(alertPlayers, alerted, true), teams[i + 1..]);
          alertPlayers := [];
          return;
        }
        if team.athletes.Some? {
          var thrown;
          alertPlayers, thrown := ProcessAthletes(gameId, gameName, today, team.team.value, team.athletes.value, alertPlayers);
          if thrown {
            TeamsAbsorb(c, Scan(alertPlayers, alerted, true), teams[i + 1..]);
            alertPlayers := [];
            return;
          }
        }
        i := i + 1;
      }
      assert teams[i..] == [];
    }

    /** The `forEach` over one team's athletes inside `processGame`, pushing
        onto `alertPlayers` and adding to `alertedPlayers`; `thrown` tells that a
        TypeError stopped it. */
    method ProcessAthletes(gameId: string, gameName: string, today: string, teamName: string,
                           athletes: seq<AthleteEntry>, pushed: seq<Alert>)
      returns (alertPlayers: seq<Alert>, thrown: bool)
      modifies this`alerted
      ensures Scan(alertPlayers, alerted, thrown)
              == ScanAthletes(Context(thresholds, roster, today, gameId, gameName), teamName,
                              Scan(pushed, old(alerted), false), athletes)
    {
      ghost var c := Context(thresholds, roster, today, gameId, gameName);
      ghost var all := ScanAthletes(c, teamName, Scan(pushed, alerted, false), athletes);
      alertPlayers := pushed;
      var j := 0;
      while j < |athletes|
        invariant 0 <= j <= |athletes|
        invariant ScanAthletes(c, teamName, Scan(alertPlayers, alerted, false), athletes[j..]) == all
      {
        var entry := athletes[j];
        assert athletes[j..][1..] == athletes[j + 1..];
        if entry.athlete.None? || entry.stats.None? {
          AthletesAbsorb(c, teamName, Scan(alertPlayers, alerted, true), athletes[j + 1..]);
          return alertPlayers, true;
        }
        var playerStats := Extract(entry.athlete.value, teamName, gameId, gameName, entry.stats.value);
        ghost var before := Scan(alertPlayers, alerted, false);
        AthleteEntryHandling(c, teamName, before, entry);
        AthleteGate(c, before, playerStats);
        if MeetsThresholds(thresholds, playerStats) {
          var isRostered := IsRostered(roster, playerStats.id);
          var isAvailable := !isRostered;
          if isAvailable || |roster| == 0 {
            var alertKey := AlertKey(playerStats.id, today);
            if alertKey !in alerted {
              alertPlayers := alertPlayers + [Alert(playerStats, isAvailable)];
              alerted := alerted + {alertKey};
            }
          }
        }
        assert Scan(alertPlayers, alerted, false) == StepAthlete(c, teamName, before, entry);
        j := j + 1;
      }
      assert athletes[j..] == [];
      thrown := false;
    }

    /** The `for (const game of games)` loop of `monitorGames`: each game is
        processed in order and its alerts appended. */
    method ProcessSchedule(today: string, games: seq<Game>) returns (allAlerts: seq<Alert>)
      modifies this`alerted, this`fetches
      ensures var b := RunGames(thresholds, roster, today, old(alerted), games);
              allAlerts == b.alerts && alerted == b.alerted
      ensures fetches == old(fetches) + SummaryRequests(games)
    {
      allAlerts := [];
      var i := 0;
      while i < |games|
        invariant 0 <= i <= |games|
        invariant fetches == old(fetches) + SummaryRequests(games[..i])
        invariant var done := RunGames(thresholds, roster, today, old(alerted), games[..i]);
                  allAlerts == done.alerts && alerted == done.alerted
      {
        var game := games[i];
        var alerts := ProcessGame(game.id, game.shortName, game.summary, today);
        RunGamesSnoc(thresholds, roster, today, old(alerted), games, i, alerts, alerted);
        SummaryRequestsStep(games, i);
        allAlerts := allAlerts + alerts;
        i := i + 1;
      }
      assert games[..i] == games;
    }

    /** `monitorGames()` at clock reading `now` on date `today`, with the
        schedule the scoreboard request returns (empty when it fails). */
    method MonitorGames(now: Clock, today: string, schedule: seq<Game>) returns (r: Cycle)
      modifies this`alerted, this`fetches, this`outbox
      ensures !IsWithinGameTime(window, now) ==>
                r == OutsideWindow && fetches == old(fetches) && alerted == old(alerted) && outbox == old(outbox)
      ensures IsWithinGameTime(window, now) && schedule == [] ==>
                r == NoGames && fetches == old(fetches) + [Scoreboard] && alerted == old(alerted) && outbox == old(outbox)
      ensures IsWithinGameTime(window, now) && schedule != [] ==>
                var b := RunGames(thresholds, roster, today, old(alerted), schedule);
                && r == Checked(b.alerts)
                && alerted == b.alerted
                && fetches == old(fetches) + [Scoreboard] + SummaryRequests(schedule)
                && outbox == old(outbox) + (if b.alerts == [] then [] else [Email(Subject(b.alerts), b.alerts)])
    {
      if !IsWithinGameTime(window, now) {
        return OutsideWindow;
      }
      fetches := fetches + [Scoreboard];
      var games := schedule;
      if |games| == 0 {
        return NoGames;
      }
      var allAlerts := ProcessSchedule(today, games);
      if |allAlerts| > 0 {
        SendAlertEmail(allAlerts);
      }
      r := Checked(allAlerts);
    }
  }

  // ---------------------------------------------------------------------------
  // Helper lemmas for the methods
  // ---------------------------------------------------------------------------

  /** One iteration of the schedule loop: the games so far, then game `i`. */
  lemma RunGamesSnoc(t: Thresholds, roster: seq<JsId>, today: string, start: set<string>,
                     games: seq<Game>, i: nat, alerts: seq<Alert>, after: set<string>)
    requires i < |games|
    requires GameAlerts(Context(t, roster, today, games[i].id, games[i].shortName),
                        RunGames(t, roster, today, start, games[..i]).alerted, games[i].summary) == Batch(alerts, after)
    ensures RunGames(t, roster, today, start, games[..i + 1]) ==
            Batch(RunGames(t, roster, today, start, games[..i]).alerts + alerts, after)
  {
    assert games[..i] + [games[i]] == games[..i + 1];
    RunGamesAppend(t, roster, today, start, games[..i], [games[i]]);
    assert [games[i]][1..] == [];
    assert alerts + [] == alerts;
  }

  lemma SummaryRequestsStep(games: seq<Game>, i: nat)
    requires i < |games|
    ensures SummaryRequests(games[..i + 1]) == SummaryRequests(games[..i]) + [Summary(games[i].id)]
  {
    assert games[..i + 1][..i] == games[..i] && games[..i + 1][i] == games[i];
  }

  /** Once a TypeError is thrown the remaining athletes change nothing. */
  lemma {:induction false} AthletesAbsorb(c: Context, teamName: string, s: Scan, athletes: seq<AthleteEntry>)
    requires s.aborted
    ensures ScanAthletes(c, teamName, s, athletes) == s
  {
    if athletes != [] {
      AthletesAbsorb(c, teamName, s, athletes[1..]);
    }
  }

  /** Once a TypeError is thrown the remaining teams change nothing. */
  lemma {:induction false} TeamsAbsorb(c: Context, s: Scan, teams: seq<TeamBox>)
    requires s.aborted
    ensures ScanTeams(c, s, teams) == s
  {
    if teams != [] {
      TeamsAbsorb(c, s, teams[1..]);
    }
  }

  // ---------------------------------------------------------------------------
  // Properties of the filter
  // ---------------------------------------------------------------------------

  /** The same-day alert key of `a` on date `today`. */
  function KeyOf(a: Alert, today: string): string
  {
    AlertKey(a.player.id, today)
  }

  function Keys(alerts: seq<Alert>, today: string): set<string>
  {
    set a | a in alerts :: KeyOf(a, today)
  }

  /** An alert passed the filter: it meets the thresholds, carries the right
      availability flag, and is available unless no roster is loaded. */
  predicate Qualifies(t: Thresholds, roster: seq<JsId>, a: Alert)
  {
    MeetsThresholds(t, a.player) && (a.isAvailable <==> !IsRostered(roster, a.player.id)) &&
    (a.isAvailable || |roster| == 0)
  }

  /** `alerts` is what a stretch of processing that took the alerted set from
      `before` to `after` may have returned: qualifying players whose keys were
      new at the start, are recorded at the end, and are pairwise different. */
  ghost predicate Sound(t: Thresholds, roster: seq<JsId>, today: string,
                        before: set<string>, alerts: seq<Alert>, after: set<string>)
  {
    && before <= after
    && (forall k :: 0 <= k < |alerts| ==>
          Qualifies(t, roster, alerts[k]) && KeyOf(alerts[k], today) !in before && KeyOf(alerts[k], today) in after)
    && (forall j, k :: 0 <= j < k < |alerts| ==> KeyOf(alerts[j], today) != KeyOf(alerts[k], today))
  }

  /** A scan of a game started from `before`; nothing but the keys of pushed alerts was added. */
  ghost predicate ScanSound(c: Context, before: set<string>, s: Scan)
  {
    Sound(c.thresholds, c.roster, c.today, before, s.alerts, s.alerted) &&
    s.alerted == before + Keys(s.alerts, c.today)
  }

  /** The per-athlete gate: a player is pushed, and its key recorded,
      exactly when it meets the thresholds, is available or no roster is
      loaded, and its key is not yet recorded; otherwise nothing changes. */
  lemma AthleteGate(c: Context, s: Scan, o: Observation)
    ensures var available := !IsRostered(c.roster, o.id);
            var key := AlertKey(o.id, c.today);
            var pushed := MeetsThresholds(c.thresholds, o) && (available || |c.roster| == 0) && key !in s.alerted;
            && (pushed ==> Admit(c, s, o) == Scan(s.alerts + [Alert(o, available)], s.alerted + {key}, s.aborted))
            && (!pushed ==> Admit(c, s, o) == s)
  {
  }

  /** A well-formed athlete entry goes through the filter; a missing
      `athlete.athlete` or `athlete.stats` throws and stops the scan. */
  lemma AthleteEntryHandling(c: Context, teamName: string, s: Scan, a: AthleteEntry)
    requires !s.aborted
    ensures a.athlete.Some? && a.stats.Some? ==>
              StepAthlete(c, teamName, s, a) == Admit(c, s, Extract(a.athlete.value, teamName, c.gameId, c.gameName, a.stats.value))
    ensures a.athlete.None? || a.stats.None? ==> StepAthlete(c, teamName, s, a) == s.(aborted := true)
  {
  }

  /** Same-day dedup: once a player is pushed, a later observation with the
      same string id on the same day is not pushed again, whatever its stats. */
  lemma SecondOccurrenceSkipped(c: Context, s: Scan, o1: Observation, o2: Observation)
    requires ToJsString(o1.id) == ToJsString(o2.id)
    requires |Admit(c, s, o1).alerts| > |s.alerts|
    ensures Admit(c, Admit(c, s, o1), o2) == Admit(c, s, o1)
  {
    AthleteGate(c, s, o1);
  }

  /** Cross-day reset: a player whose only recorded key is from another day is
      pushed again when it qualifies. */
  lemma NextDayAlertsAgain(c: Context, s: Scan, o: Observation, yesterday: string)
    requires yesterday != c.today
    requires s.alerted == {AlertKey(o.id, yesterday)}
    requires Candidate(c.thresholds, c.roster, o).Some?
    ensures |Admit(c, s, o).alerts| == |s.alerts| + 1
  {
    if AlertKey(o.id, c.today) == AlertKey(o.id, yesterday) {
      KeyDeterminesDate(o.id, c.today, yesterday);
    }
  }

  lemma KeysAppend(alerts: seq<Alert>, a: Alert, today: string)
    ensures Keys(alerts + [a], today) == Keys(alerts, today) + {KeyOf(a, today)}
  {
    var l, r := Keys(alerts + [a], today), Keys(alerts, today) + {KeyOf(a, today)};
    forall key | key in l ensures key in r {
      var x :| x in alerts + [a] && key == KeyOf(x, today);
      if x != a {
        assert x in alerts;
      }
    }
    forall key | key in r ensures key in l {
      if key != KeyOf(a, today) {
        var x :| x in alerts && key == KeyOf(x, today);
        assert x in alerts + [a];
      }
    }
  }

  lemma AdmitSound(c: Context, before: set<string>, s: Scan, o: Observation)
    requires ScanSound(c, before, s)
    ensures ScanSound(c, before, Admit(c, s, o))
  {
    var cand := Candidate(c.thresholds, c.roster, o);
    if cand.Some? && AlertKey(o.id, c.today) !in s.alerted {
      var s' := Admit(c, s, o);
      assert s'.alerts == s.alerts + [cand.value];
      KeysAppend(s.alerts, cand.value, c.today);
      forall k | 0 <= k < |s'.alerts|
        ensures KeyOf(s'.alerts[k], c.today) in s'.alerted
      {
        if k < |s.alerts| {
          assert s'.alerts[k] == s.alerts[k];
        }
      }
    }
  }

  lemma StepAthleteSound(c: Context, teamName: string, before: set<string>, s: Scan, a: AthleteEntry)
    requires ScanSound(c, before, s)
    ensures ScanSound(c, before, StepAthlete(c, teamName, s, a))
  {
    if !s.aborted && a.athlete.Some? && a.stats.Some? {
      AdmitSound(c, before, s, Extract(a.athlete.value, teamName, c.gameId, c.gameName, a.stats.value));
    }
  }

  lemma {:induction false} ScanAthletesSound(c: Context, teamName: string, before: set<string>, s: Scan, athletes: seq<AthleteEntry>)
    requires ScanSound(c, before, s)
    ensures ScanSound(c, before, ScanAthletes(c, teamName, s, athletes))
    decreases |athletes|
  {
    if athletes != [] {
      StepAthleteSound(c, teamName, before, s, athletes[0]);
      ScanAthletesSound(c, teamName, before, StepAthlete(c, teamName, s, athletes[0]), athletes[1..]);
    }
  }

  lemma {:induction false} ScanTeamsSound(c: Context, before: set<string>, s: Scan, teams: seq<TeamBox>)
    requires ScanSound(c, before, s)
    ensures ScanSound(c, before, ScanTeams(c, s, teams))
    decreases |teams|
  {
    if teams != [] {
      var t := teams[0];
      if !s.aborted && t.team.Some? && t.athletes.Some? {
        ScanAthletesSound(c, t.team.value, before, s, t.athletes.value);
      }
      ScanTeamsSound(c, before, StepTeam(c, s, t), teams[1..]);
    }
  }

  /** What `processGame` returns is sound for the alerted set it was given; the
      alerted set grows, and unless the game throws part-way it grows by
      exactly the keys of the returned players. */
  lemma GameSound(c: Context, alerted: set<string>, summary: Option<seq<TeamBox>>)
    ensures var b := GameAlerts(c, alerted, summary);
            && Sound(c.thresholds, c.roster, c.today, alerted, b.alerts, b.alerted)
            && (!GameAborts(c, alerted, summary) ==> b.alerted == alerted + Keys(b.alerts, c.today))
  {
    if summary.Some? {
      ScanSoundStart(c, alerted);
      ScanTeamsSound(c, alerted, Scan([], alerted, false), summary.value);
    }
  }

  /** A failed request, a response without box score, or an empty box score contributes nothing. */
  lemma FailedGameContributesNothing(c: Context, alerted: set<string>)
    ensures GameAlerts(c, alerted, None) == Batch([], alerted)
    ensures GameAlerts(c, alerted, Some([])) == Batch([], alerted)
  {
  }

  /** Sound stretches of processing compose. */
  lemma SoundAppend(t: Thresholds, roster: seq<JsId>, today: string,
                    a: set<string>, x: seq<Alert>, b: set<string>, y: seq<Alert>, c: set<string>)
    requires Sound(t, roster, today, a, x, b) && Sound(t, roster, today, b, y, c)
    ensures Sound(t, roster, today, a, x + y, c)
  {
    var xy := x + y;
    forall k | 0 <= k < |xy|
      ensures Qualifies(t, roster, xy[k]) && KeyOf(xy[k], today) !in a && KeyOf(xy[k], today) in c
    {
      if k < |x| {
        assert xy[k] == x[k];
      } else {
        assert xy[k] == y[k - |x|];
      }
    }
    forall j, k | 0 <= j < k < |xy|
      ensures KeyOf(xy[j], today) != KeyOf(xy[k], today)
    {
      if k < |x| {
        assert xy[j] == x[j] && xy[k] == x[k];
      } else if j >= |x| {
        assert xy[j] == y[j - |x|] && xy[k] == y[k - |x|];
      } else {
        assert xy[j] == x[j] && xy[k] == y[k - |x|];
      }
    }
  }

  /** The batch of a cycle is sound for the alerted set the cycle started with:
      every player in it qualifies, was not alerted before today's cycle, is
      recorded now, and no two players in it share a key. */
  lemma {:induction false} RunGamesSound(t: Thresholds, roster: seq<JsId>, today: string, alerted: set<string>, games: seq<Game>)
    ensures var b := RunGames(t, roster, today, alerted, games);
            Sound(t, roster, today, alerted, b.alerts, b.alerted)
    decreases |games|
  {
    if games != [] {
      var c := Context(t, roster, today, games[0].id, games[0].shortName);
      var g := GameAlerts(c, alerted, games[0].summary);
      GameSound(c, alerted, games[0].summary);
      RunGamesSound(t, roster, today, g.alerted, games[1..]);
      var rest := RunGames(t, roster, today, g.alerted, games[1..]);
      SoundAppend(t, roster, today, alerted, g.alerts, g.alerted, rest.alerts, rest.alerted);
    }
  }

  /** Running two stretches of the schedule one after the other is running
      their concatenation: the batch is the in-order concatenation. */
  lemma {:induction false} RunGamesAppend(t: Thresholds, roster: seq<JsId>, today: string, alerted: set<string>,
                                          g1: seq<Game>, g2: seq<Game>)
    ensures var b1 := RunGames(t, roster, today, alerted, g1);
            var b2 := RunGames(t, roster, today, b1.alerted, g2);
            RunGames(t, roster, today, alerted, g1 + g2) == Batch(b1.alerts + b2.alerts, b2.alerted)
    decreases |g1|
  {
    if g1 == [] {
      assert g1 + g2 == g2;
    } else {
      assert (g1 + g2)[0] == g1[0] && (g1 + g2)[1..] == g1[1..] + g2;
      var g := GameAlerts(Context(t, roster, today, g1[0].id, g1[0].shortName), alerted, g1[0].summary);
      RunGamesAppend(t, roster, today, g.alerted, g1[1..], g2);
    }
  }

  /** At most one alert per player and day: a player (by string id) alerted in
      one cycle is not in the batch of a later cycle on the same day, and no
      batch names a player twice. */
  lemma OncePerDay(t: Thresholds, roster: seq<JsId>, today: string, alerted: set<string>,
                   first: seq<Game>, second: seq<Game>)
    ensures var b1 := RunGames(t, roster, today, alerted, first);
            var b2 := RunGames(t, roster, today, b1.alerted, second);
            && (forall j, k :: 0 <= j < |b1.alerts| && 0 <= k < |b2.alerts| ==>
                  ToJsString(b1.alerts[j].player.id) != ToJsString(b2.alerts[k].player.id))
            && (forall j, k :: 0 <= j < k < |b1.alerts| ==>
                  ToJsString(b1.alerts[j].player.id) != ToJsString(b1.alerts[k].player.id))
  {
    var b1 := RunGames(t, roster, today, alerted, first);
    var b2 := RunGames(t, roster, today, b1.alerted, second);
    RunGamesSound(t, roster, today, alerted, first);
    RunGamesSound(t, roster, today, b1.alerted, second);
    forall j, k | 0 <= j < |b1.alerts| && 0 <= k < |b2.alerts|
      ensures ToJsString(b1.alerts[j].player.id) != ToJsString(b2.alerts[k].player.id)
    {
      assert KeyOf(b1.alerts[j], today) in b1.alerted;
      assert KeyOf(b2.alerts[k], today) !in b1.alerted;
    }
    forall j, k | 0 <= j < k < |b1.alerts|
      ensures ToJsString(b1.alerts[j].player.id) != ToJsString(b1.alerts[k].player.id)
    {
      assert KeyOf(b1.alerts[j], today) != KeyOf(b1.alerts[k], today);
    }
  }

  /** A TypeError part-way loses alerts: when a pushed athlete is followed by
      one whose `athlete` or `stats` is missing, the game returns no alert, yet
      the pushed athlete's key stays recorded, so it is not alerted again that
      day. `EmptyRowPushed` gives such a first athlete. */
  lemma ThrowLosesAlert(c: Context, teamName: string, alerted: set<string>, first: AthleteEntry, second: AthleteEntry)
    requires var s1 := StepAthlete(c, teamName, Scan([], alerted, false), first); !s1.aborted && |s1.alerts| == 1
    requires second.athlete.None? || second.stats.None?
    ensures var b := GameAlerts(c, alerted, Some([TeamBox(Some(teamName), Some([first, second]))]));
            && b.alerts == []
            && b.alerted == StepAthlete(c, teamName, Scan([], alerted, false), first).alerted
            && KeyOf(StepAthlete(c, teamName, Scan([], alerted, false), first).alerts[0], c.today) in b.alerted
  {
    var s0 := Scan([], alerted, false);
    var s1 := StepAthlete(c, teamName, s0, first);
    var s2 := s1.(aborted := true);
    ScanSoundStart(c, alerted);
    StepAthleteSound(c, teamName, alerted, s0, first);
    assert StepAthlete(c, teamName, s1, second) == s2;
    assert [first, second][1..] == [second] && [second][1..] == [];
    assert ScanAthletes(c, teamName, s2, []) == s2;
    assert ScanAthletes(c, teamName, s1, [second]) == s2;
    assert ScanAthletes(c, teamName, s0, [first, second]) == s2;
    var team := TeamBox(Some(teamName), Some([first, second]));
    assert StepTeam(c, s0, team) == s2;
    assert ScanTeams(c, s0, [team]) == s2;
  }

  lemma ScanSoundStart(c: Context, alerted: set<string>)
    ensures ScanSound(c, alerted, Scan([], alerted, false))
  {
    assert Keys([], c.today) == {};
  }

  /** With all-zero thresholds and no roster, an athlete with an empty stats row is pushed. */
  lemma EmptyRowPushed(c: Context, p: Person, alerted: set<string>)
    requires c.thresholds == Thresholds(0, 0, 0, 0, 0, 0, 0) && c.roster == []
    requires AlertKey(p.id, c.today) !in alerted
    ensures var s1 := StepAthlete(c, "Home", Scan([], alerted, false), AthleteEntry(Some(p), Some([])));
            !s1.aborted && |s1.alerts| == 1 && AlertKey(p.id, c.today) in s1.alerted
  {
    var o := Observation(p.id, p.displayName, "Home", c.gameName, c.gameId, "0", 0, 0, 0, Int(0), 0, 0, 0);
    var s0 := Scan([], alerted, false);
    ExtractEmptyRow(p, "Home", c.gameId, c.gameName);
    assert StepAthlete(c, "Home", s0, AthleteEntry(Some(p), Some([]))) == Admit(c, s0, o);
    AthleteGate(c, s0, o);
    assert Admit(c, s0, o) == Scan([Alert(o, true)], alerted + {AlertKey(p.id, c.today)}, false);
  }

  /** The plural subject gives the number of players: two plural subjects are
      equal only for batches of the same size. */
  lemma PluralSubjectCounts(xs: seq<Alert>, ys: seq<Alert>)
    requires |xs| > 1 && |ys| > 1 && Subject(xs) == Subject(ys)
    ensures |xs| == |ys|
  {
    var pre, post := "\U{1F3C0} FANTASY ALERT: ", " Players Available!";
    var dx, dy := DecimalString(|xs|), DecimalString(|ys|);
    assert Subject(xs) == pre + dx + post;
    assert |dx| == |dy|;
    assert (pre + dx + post)[|pre|..|pre| + |dx|] == dx;
    assert (pre + dy + post)[|pre|..|pre| + |dy|] == dy;
    DecimalStringInjective(|xs|, |ys|);
  }
}
