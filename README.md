# Fantasy basketball availability alerts, modelled in Dafny

The system watches live NBA box scores. It alerts by email when a player
posts a stat line that meets configured thresholds and is not on any
fantasy roster in the league, and it alerts at most once per player and day.
A companion script fetches a completed season's and the current season's
league rosters and diagnoses which of the two have roster data.

The model has five files:

- `wrappers.dfy`: `Option`.
- `js_text.dfy` (module `JsText`): the JavaScript behaviour the core
  relies on.
  - Ids are numbers or strings (`JsId`); `String(id)` is `ToJsString`.
  - `parseInt` is `ParseInt`, with the results `Int(n)` or `NaN`. It covers
    leading white space, a sign, the `0x` prefix and the longest digit prefix.
  - `split('-')[0]` is `BeforeFirst`.
- `alerts.dfy` (module `Alerts`): one player's path through `processGame`.
  - `meetsThresholds`.
  - Reading the stat columns out of a box-score row.
  - The roster check.
  - The once-a-day alert key.
  - The game-time window of `isWithinGameTime`.
- `monitor.dfy` (module `Monitor`): the monitor.
  - Specification functions fold a game summary (`GameAlerts`) and a day's
    schedule (`RunGames`) into `Batch`es of alerts plus the updated set of
    alert keys.
  - The class `AlertMonitor` holds the program's mutable globals:
    `rosteredPlayerIds`, `alertedPlayers`, the sent emails and the HTTP
    requests made.
  - `LoadRosterData` and `SendAlertEmail` state the new roster and the new
    list of sent emails directly.
  - `ProcessGame` (with its athlete loop `ProcessAthletes`) and
    `MonitorGames` (with its game loop `ProcessSchedule`) keep the source's
    loops. They are proved equal to `GameAlerts` and `RunGames`.
  - The lemmas prove same-day dedup and soundness of every batch.
- `roster_fetcher.dfy` (module `RosterFetcher`): the counting in
  `analyzeRosterData`, the id collection in `extractRosteredPlayerIds`, and
  the case split of `compareSeasons`. The two counting functions are loops,
  as in the source.

## Inputs instead of I/O

- The box score that `processGame` requests is an input: `summary`.
  - It is `None` when the request fails, or when the response has no
    `boxscore.players` (monitor.js:194-199, 249-252).
  - It is otherwise a `TeamBox` per element of `boxscore.players`.
  - In a `TeamBox`, `team` is `team.team.displayName`, or `None` when
    `team.team` is missing, where the source throws.
  - `athletes` is `statistics[0].athletes`, or `None` when any link of that
    chain is missing.
- The games that `fetchTodayGames` returns are an input: `schedule`, each
  with its box score. `fetches` records the scoreboard request and one
  summary request per game.
- The current local hour and minute (`now`) and the date token of
  `new Date().toDateString()` (`today`) are inputs. One `today` serves the
  whole cycle (see "## Left out").
- The start and end of the window are given already split into hours and
  minutes.
- The roster file is an input to `LoadRosterData`: absent, unreadable, or
  parsed JSON. JSON that is an array is read as a sequence of ids, and any
  other JSON as `JsonOther`.
- Each season's league data for `compareSeasons` is an input. It is `None`
  where `fetchSeasonRosters` returns `null`.

## Behaviour of the code worth knowing

- **Three-pointers.** Every other count falls back to 0 through `|| 0`; the
  three-pointer field (monitor.js:222) does not.
  - A non-empty field becomes `NaN` unless it starts with optional white
    space, an optional `+` and a digit.
  - Examples are `"--"`, `"-"` and `"abc"` (`Alerts.DashPlaceholder`,
    `Alerts.LetterThrees`).
  - Such a player can never qualify (`Alerts.NaNThreesNeverQualify`).
- **Missing athlete or stats.** An athlete entry throws a TypeError inside
  the `try` when it has no `athlete` (monitor.js:209) or no `stats`
  (`stats[0]` at monitor.js:218).
  - The whole game then returns `[]`, yet the keys recorded before the throw
    stay in `alertedPlayers`.
  - A player alerted earlier in that game is therefore dropped and never
    alerted that day (`Monitor.ThrowLosesAlert`).
  - The model keeps this behaviour: `Scan.aborted` absorbs the rest of the
    game.
- **The alert key is a string, not a pair.** It is
  `String(playerId) + "-" + toDateString()` (monitor.js:237).
  - The numeric id 123 and the string id "123" give the same key.
  - Given a date token without `-` (true of `toDateString`), the key fixes
    the id's string form and the date (`Alerts.KeyDeterminesPlayerAndDate`).
- **Time zones.** The window uses the configured time zone, but the date
  token uses the process's local zone. Both are inputs here, so the model
  does not relate them.

## Model

| member | source | states |
|---|---|---|
| JsText.ParseIntDecimal | monitor.js:219 | `parseInt` of the decimal text of any integer, negative ones included, gives that integer back |
| JsText.ParseIntSkipsWhiteSpace | monitor.js:219-225 | leading ECMAScript white space never changes what `parseInt` returns |
| JsText.ParseIntNonNumeric | monitor.js:219-225 | text that begins with neither white space, a sign nor a digit parses to NaN, and so does a sign not followed by a digit ("--", "- 5") |
| JsText.ParseIntUndefined | monitor.js:219 | a missing column (`parseInt(undefined)`, the text "undefined") is NaN, so `|| 0` makes it 0 |
| JsText.ParseIntHexPrefix | monitor.js:219 | a `0x` prefix switches `parseInt` to base 16 ("0x1A" is 26) |
| JsText.BeforeFirstStopsAtSeparator | monitor.js:222 | `split('-')[0]` is exactly the text before the first dash |
| JsText.DecimalStringInjective | monitor.js:231 | distinct numeric ids have distinct string forms |
| JsText.TrimStart | monitor.js:219 | the white-space skip removes exactly a leading run of white space and stops at the first other character |
| JsText.DigitPrefixLength | monitor.js:219 | `parseInt` reads the longest prefix of radix digits |
| JsText.NatDigitsValue | monitor.js:219 | the decimal digits of a natural number evaluate back to it |
| Alerts.OneBrokenBoundFails | monitor.js:258-269 | breaking any one of the seven bounds (a minimum, or the turnover maximum) makes `meetsThresholds` false |
| Alerts.ThresholdsMonotone | monitor.js:258-269 | a line at least as good in every counting stat, with no more turnovers, also qualifies |
| Alerts.NaNThreesNeverQualify | monitor.js:264 | a NaN three-pointer count fails `>=`, so the player never qualifies |
| Alerts.ExtractReadsColumns | monitor.js:212-226 | points, rebounds, assists, steals, blocks and turnovers come from columns 13, 6, 7, 8, 9 and 10; threes are the made part of column 2; minutes are column 0 |
| Alerts.ExtractEmptyRow | monitor.js:218-225 | a row with no columns gives 0 for every count, 0 threes and minutes "0" |
| Alerts.EmptyTextFields | monitor.js:218-225 | an empty-string column gives threes 0, minutes "0" and 0 in the `|| 0` columns |
| Alerts.DashPlaceholder | monitor.js:219-222 | "--" reads as 0 in the `|| 0` columns but as NaN three-pointers |
| Alerts.LetterThrees | monitor.js:222 | every non-empty three-pointer field that begins with neither white space, `+` nor a digit, "abc" and "-" among them, is NaN |
| Alerts.IsRostered | monitor.js:231 | rostered iff some roster id has the same string form as the player id |
| Alerts.NumericIdMatchesStringId | monitor.js:231 | the numeric id 123 matches the roster entry "123" |
| Alerts.NumericIdsMatchWhenEqual | monitor.js:231 | two numeric ids match exactly when they are equal |
| Alerts.Candidate | monitor.js:229-235 | a player is a candidate iff it meets the thresholds and is available or the roster is empty; the alert carries the stats, and `isAvailable` is true iff not rostered |
| Alerts.EmptyRosterSendsAllQualifying | monitor.js:235 | with no roster loaded, every qualifying player is a candidate, marked available |
| Alerts.LoadedRosterSendsOnlyAvailable | monitor.js:231-235 | with a roster loaded, a qualifying player is a candidate iff no roster id has its string form |
| Alerts.ScenarioTwentyFivePoints | monitor.js:229-235 | with a 20-point minimum and at most 99 turnovers, a 25-point line alerts when unrostered and does not when rostered |
| Alerts.KeyDeterminesDate | monitor.js:237 | for one player, equal keys mean equal dates |
| Alerts.KeyDeterminesPlayerAndDate | monitor.js:237 | for dash-free date tokens, equal keys mean the same id string form and the same date |
| Alerts.MinutesOfDayOrder | monitor.js:286-288 | on valid clock times, `h*60+m` orders times as (hour, minute) does lexicographically |
| Alerts.WindowBothEndsInclusive | monitor.js:274-291 | a disabled window is always open; an enabled one is open iff start ≤ now ≤ end, both ends included |
| Alerts.InvertedWindowNeverOpen | monitor.js:290 | a window whose start is after its end (across midnight) is never open |
| Alerts.NoonOutsideEveningWindow | monitor.js:274-291 | 12:00 is outside an enabled 18:00-23:59 window |
| Monitor.AlertMonitor.constructor | monitor.js:24-25 | the monitor starts with no roster, no alert keys, no emails and no requests |
| Monitor.AlertMonitor.LoadRosterData | monitor.js:31-47 | true iff the file exists and parses; an array becomes the roster, other JSON an empty roster; otherwise the roster is unchanged |
| Monitor.AlertMonitor.SendAlertEmail | monitor.js:72-77 | an empty batch sends nothing; otherwise exactly one email with the batch and its subject |
| Monitor.AlertMonitor.ProcessAthletes | monitor.js:207-244 | the athlete loop leaves the alert list and key set equal to the per-athlete fold, and reports whether an entry threw |
| Monitor.AlertMonitor.ProcessGame | monitor.js:191-253 | one summary request; the returned alerts and the new key set are those of `GameAlerts` for the game |
| Monitor.AlertMonitor.MonitorGames | monitor.js:296-337 | outside the window nothing happens; with no games only the scoreboard is fetched; otherwise the batch and key set are `RunGames` over the schedule, each game's summary is requested in order, and one email is sent iff the batch is non-empty |
| Monitor.AthletesAbsorb | monitor.js:249-252 | after a throw no later athlete changes the state of the game |
| Monitor.TeamsAbsorb | monitor.js:249-252 | after a throw no later team changes the state of the game |
| Monitor.AthleteGate | monitor.js:229-241 | an athlete is pushed and its key recorded iff it qualifies, is available or the roster is empty, and its key is new; otherwise nothing changes |
| Monitor.AthleteEntryHandling | monitor.js:207-218 | a well-formed entry goes through the gate on its extracted stats; a missing athlete or stats throws |
| Monitor.SecondOccurrenceSkipped | monitor.js:236-241 | once a player is pushed, a later observation with the same id string on the same day is not pushed, whatever its stats |
| Monitor.NextDayAlertsAgain | monitor.js:237-238 | a key from another day does not block a qualifying player |
| Monitor.AdmitSound | monitor.js:229-241 | one gate step keeps the batch sound: every alert qualifies, its key was new before and recorded after, keys are pairwise distinct, and only pushed keys are added |
| Monitor.StepAthleteSound | monitor.js:207-244 | one athlete entry keeps the batch sound |
| Monitor.ScanAthletesSound | monitor.js:207-244 | a team's athlete list keeps the batch sound |
| Monitor.ScanTeamsSound | monitor.js:203-246 | the team list keeps the batch sound |
| Monitor.GameSound | monitor.js:191-253 | a game's batch is sound, and without a throw the key set grows by exactly the batch's keys |
| Monitor.FailedGameContributesNothing | monitor.js:197-199 | a failed request or a box score without teams gives no alerts and adds no keys |
| Monitor.SoundAppend | monitor.js:318-321 | two sound batches in sequence concatenate to a sound batch |
| Monitor.RunGamesSound | monitor.js:316-325 | the whole cycle's batch is sound over the starting key set |
| Monitor.RunGamesAppend | monitor.js:318-321 | the batch of a schedule is the in-order concatenation of the batches of its parts |
| Monitor.AlertMonitor.ProcessSchedule | monitor.js:316-325 | the game loop returns the concatenated batch of `RunGames` and its key set, and requests each game's summary in order |
| Monitor.OncePerDay | monitor.js:236-241 | no player (by id string) is alerted twice within a cycle, or again in a later cycle on the same day |
| Monitor.ThrowLosesAlert | monitor.js:239-252 | a pushed athlete followed by a malformed entry makes the game return no alerts, while that athlete's key stays recorded |
| Monitor.EmptyRowPushed | monitor.js:207-241 | with all-zero thresholds and no roster, an athlete with an empty stats row is pushed and its key recorded |
| Monitor.PluralSubjectCounts | monitor.js:75-77 | two multi-player subjects are equal only when the batch sizes are |
| RosterFetcher.ExtractRosteredPlayerIds | historical_roster_fetcher.js:149-164 | empty for missing data or rosters; otherwise exactly the truthy player ids found in some entry of some roster team |
| RosterFetcher.FindRoster | historical_roster_fetcher.js:107 | the result is the first roster team with the given id, and it is absent iff no team has that id |
| RosterFetcher.AnalyzeRosterData | historical_roster_fetcher.js:75-147 | null data gives no rosters and 0 players with no team count; otherwise the player count sums each team's first matching roster, the team count counts the non-empty ones, it is at most the number of teams and the player count, and `hasRosters` iff it is positive |
| RosterFetcher.CountBounds | historical_roster_fetcher.js:98-135 | at most one counted team per league team, and each counted team adds at least one player |
| RosterFetcher.HasRostersIff | historical_roster_fetcher.js:110-142 | some team is counted iff some player is counted |
| RosterFetcher.CountedTeamExists | historical_roster_fetcher.js:107-112 | some team is counted iff some league team's first matching roster has entries |
| RosterFetcher.NoRostersWithoutData | historical_roster_fetcher.js:80-83 | missing data, teams or rosters mean no rosters |
| RosterFetcher.DiagnosisDeterminesAnswers | historical_roster_fetcher.js:241-275 | each of the four diagnoses comes from exactly one pair of `hasRosters` answers |
| RosterFetcher.CompareSeasons | historical_roster_fetcher.js:170-293 | both seasons are analysed; ids are extracted for a season iff it has rosters, and they are its rostered player ids; the diagnosis is the case for the two answers |

## Left out

- HTTP with axios (monitor.js:162-186, 193-194; historical_roster_fetcher.js:23-69): the responses are inputs. A failed summary or league request is `None`; a failed scoreboard request is an empty `schedule`, as `fetchTodayGames` returns `[]` (monitor.js:182-185). The mapping of scoreboard events to game records (status, home and away abbreviations) is only logged, so it is not modelled.
- Email (monitor.js:52-67, 79-156): the nodemailer transport and the HTML cards are not modelled. `outbox` records each email's subject and players; a failed send is not modelled, since the source only logs it.
- File I/O (monitor.js:11-19, 31-47; historical_roster_fetcher.js:188-216): reading `config.json` and writing the JSON snapshot files are not modelled. The roster file is an input.
- Timers and lifecycle: `setInterval`, the 1000 ms and 2000 ms delays, SIGINT, `process.exit`, `startMonitoring` and `setupEmail` are not modelled.
- Time: `toLocaleString` and the time-zone conversion are replaced by the inputs `now` and `today`, and `Number()` on the "HH:MM" settings by hours and minutes given directly.
- Console logging throughout is not modelled.
- Monitor.OncePerDay: holds for one date token per cycle, which the whole model uses. The source reads `new Date().toDateString()` afresh for each qualifying athlete (monitor.js:237). A cycle that runs past midnight would key its later athletes with the next day, and could then alert one player twice in a batch. The model does not cover such a cycle.
- League credentials in the fetcher's configuration are not modelled.
- Numbers are unbounded integers: double precision, and ids beyond 2^53, are not modelled.
- Roster JSON elements other than numbers and strings, and an undefined athlete id, are not modelled.
- A `data.teams` that holds something other than an array of team records (where the source throws) is not modelled.
- Thresholds are integers; a threshold in `config.json` that is not a number is not modelled.
