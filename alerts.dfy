/** The pure parts of the alert filter in monitor.js: turning a box-score stats
    row into a player observation, the threshold test, the roster
    (availability) test, the same-day alert key and the game-time window. */
module Alerts {
  import opened Wrappers
  import opened JsText

  /** `config.thresholds`: minimums for six counting statistics and a maximum for turnovers. */
  datatype Thresholds = Thresholds(
    points: int, rebounds: int, assists: int, threePointers: int,
    steals: int, blocks: int, turnovers: int)

  /** `athlete.athlete`: the identifier and display name of a player. */
  datatype Person = Person(id: JsId, displayName: string)

  /** The `playerStats` object built for one athlete of one game. Three-pointers
      may be NaN: unlike the other counts it has no `|| 0` fallback. */
  datatype Observation = Observation(
    id: JsId, name: string, team: string, game: string, gameId: string,
    minutes: string,
    points: int, rebounds: int, assists: int, threePointers: Number,
    steals: int, blocks: int, turnovers: int)

  /** An observation that passed the filter, with the `isAvailable` flag set on it. */
  datatype Alert = Alert(player: Observation, isAvailable: bool)

  // ---------------------------------------------------------------------------
  // Threshold evaluator (monitor.js:258-269)
  // ---------------------------------------------------------------------------

  /** JavaScript's `x >= bound` for a number that may be NaN. */
  predicate AtLeast(x: Number, bound: int)
  {
    x.Int? && x.value >= bound
  }

  /** `meetsThresholds(player)`. */
  predicate MeetsThresholds(t: Thresholds, p: Observation)
  {
    p.points >= t.points &&
    p.rebounds >= t.rebounds &&
    p.assists >= t.assists &&
    AtLeast(p.threePointers, t.threePointers) &&
    p.steals >= t.steals &&
    p.blocks >= t.blocks &&
    p.turnovers <= t.turnovers
  }

  /** `p` is at least as good as `q` on every statistic the thresholds look at. */
  predicate Dominates(p: Observation, q: Observation)
  {
    p.points >= q.points && p.rebounds >= q.rebounds && p.assists >= q.assists &&
    (q.threePointers.Int? ==> p.threePointers.Int? && p.threePointers.value >= q.threePointers.value) &&
    p.steals >= q.steals && p.blocks >= q.blocks && p.turnovers <= q.turnovers
  }

  // ---------------------------------------------------------------------------
  // Per-athlete stat extraction (monitor.js:212-226)
  // ---------------------------------------------------------------------------

  /** `stats[i]`: undefined past the end of the row. */
  function Field(stats: seq<string>, i: nat): Option<string>
  {
    if i < |stats| then Some(stats[i]) else None
  }

  /** `String(f)`: undefined becomes the text "undefined". */
  function FieldText(f: Option<string>): string
  {
    f.GetOr("undefined")
  }

  /** Truthiness of a stats field: defined and not the empty string. */
  predicate Truthy(f: Option<string>)
  {
    f.Some? && f.value != ""
  }

  /** `parseInt(f) || 0`: NaN (and 0) become 0. */
  function IntOrZero(f: Option<string>): int
  {
    ParseInt(FieldText(f)).OrZero()
  }

  /** `f ? parseInt(f.split('-')[0]) : 0`, the made part of a "made-attempted" field. */
  function MadeCount(f: Option<string>): Number
  {
    if Truthy(f) then ParseInt(BeforeFirst(f.value, '-')) else Int(0)
  }

  /** `f || '0'`. */
  function MinutesText(f: Option<string>): string
  {
    if Truthy(f) then f.value else "0"
  }

  /** Points, rebounds, assists, steals, blocks and turnovers are stats
      indices 13, 6, 7, 8, 9 and 10; three-pointers is index 2, minutes index 0. */
  function Extract(person: Person, team: string, gameId: string, gameName: string, stats: seq<string>): Observation
  {
    Observation(
      person.id, person.displayName, team, gameName, gameId,
      MinutesText(Field(stats, 0)),
      IntOrZero(Field(stats, 13)),
      IntOrZero(Field(stats, 6)),
      IntOrZero(Field(stats, 7)),
      MadeCount(Field(stats, 2)),
      IntOrZero(Field(stats, 8)),
      IntOrZero(Field(stats, 9)),
      IntOrZero(Field(stats, 10)))
  }

  // ---------------------------------------------------------------------------
  // Roster check (monitor.js:231-235)
  // ---------------------------------------------------------------------------

  /** `rosteredPlayerIds.some(id => String(id) === String(playerId))`. */
  function IsRostered(roster: seq<JsId>, playerId: JsId): (r: bool)
    ensures r <==> exists k :: 0 <= k < |roster| && ToJsString(roster[k]) == ToJsString(playerId)
  {
    if roster == [] then false
    else ToJsString(roster[0]) == ToJsString(playerId) || IsRostered(roster[1..], playerId)
  }

  /** The filter before the dedup step: the alert to send for `o`, if any. It
      is sent when `o` meets the thresholds and is available, or when no roster
      is loaded. */
  function Candidate(t: Thresholds, roster: seq<JsId>, o: Observation): (r: Option<Alert>)
    ensures r.Some? <==> MeetsThresholds(t, o) && (!IsRostered(roster, o.id) || |roster| == 0)
    ensures r.Some? ==> r.value.player == o && (r.value.isAvailable <==> !IsRostered(roster, o.id))
  {
    if MeetsThresholds(t, o) then
      var isAvailable := !IsRostered(roster, o.id);
      if isAvailable || |roster| == 0 then Some(Alert(o, isAvailable)) else None
    else None
  }

  // ---------------------------------------------------------------------------
  // Same-day alert key (monitor.js:237)
  // ---------------------------------------------------------------------------

  /** `${playerId}-${today}`, where `today` is the date's `toDateString()`. */
  function AlertKey(playerId: JsId, today: string): string
  {
    ToJsString(playerId) + "-" + today
  }

  // ---------------------------------------------------------------------------
  // Game-time window gate (monitor.js:274-291)
  // ---------------------------------------------------------------------------

  /** An hour and minute of the day. */
  datatype Clock = Clock(hour: int, minute: int)

  /** `config.monitoring`'s game-time settings, with "HH:MM" already split into numbers. */
  datatype Window = Window(onlyDuringGameTimes: bool, start: Clock, end: Clock)

  function MinutesOfDay(c: Clock): int
  {
    c.hour * 60 + c.minute
  }

  /** A clock reading as `Date` gives one: an hour 0-23 and a minute 0-59. */
  predicate ValidClock(c: Clock)
  {
    0 <= c.hour < 24 && 0 <= c.minute < 60
  }

  /** `isWithinGameTime()`, with the current time in the configured time zone passed in. */
  predicate IsWithinGameTime(w: Window, now: Clock)
  {
    !w.onlyDuringGameTimes ||
    (MinutesOfDay(now) >= MinutesOfDay(w.start) && MinutesOfDay(now) <= MinutesOfDay(w.end))
  }

  /** Clock readings in time order. */
  predicate NotLater(a: Clock, b: Clock)
  {
    a.hour < b.hour || (a.hour == b.hour && a.minute <= b.minute)
  }

  // ---------------------------------------------------------------------------
  // Properties
  // ---------------------------------------------------------------------------

  /** Breaking any single bound makes `meetsThresholds` false. */
  lemma OneBrokenBoundFails(t: Thresholds, p: Observation)
    ensures p.points < t.points ==> !MeetsThresholds(t, p)
    ensures p.rebounds < t.rebounds ==> !MeetsThresholds(t, p)
    ensures p.assists < t.assists ==> !MeetsThresholds(t, p)
    ensures !AtLeast(p.threePointers, t.threePointers) ==> !MeetsThresholds(t, p)
    ensures p.steals < t.steals ==> !MeetsThresholds(t, p)
    ensures p.blocks < t.blocks ==> !MeetsThresholds(t, p)
    ensures p.turnovers > t.turnovers ==> !MeetsThresholds(t, p)
  {
  }

  /** A player at least as good as one who qualifies qualifies too. */
  lemma ThresholdsMonotone(t: Thresholds, p: Observation, q: Observation)
    requires MeetsThresholds(t, q) && Dominates(p, q)
    ensures MeetsThresholds(t, p)
  {
  }

  /** A three-pointers field that does not parse makes the player ineligible,
      whatever the thresholds. */
  lemma NaNThreesNeverQualify(t: Thresholds, p: Observation)
    requires p.threePointers == NaN
    ensures !MeetsThresholds(t, p)
  {
  }

  /** Extraction reads the box-score columns back: a row whose counting columns
      hold the decimal text of some counts and whose 3PT column is
      "made-attempted" yields exactly those counts. */
  lemma ExtractReadsColumns(person: Person, team: string, gameId: string, gameName: string, stats: seq<string>,
                            points: int, rebounds: int, assists: int, made: nat, attempted: nat,
                            steals: int, blocks: int, turnovers: int)
    requires |stats| > 13 && stats[0] != ""
    requires stats[13] == DecimalString(points) && stats[6] == DecimalString(rebounds)
    requires stats[7] == DecimalString(assists) && stats[8] == DecimalString(steals)
    requires stats[9] == DecimalString(blocks) && stats[10] == DecimalString(turnovers)
    requires stats[2] == DecimalString(made) + "-" + DecimalString(attempted)
    ensures Extract(person, team, gameId, gameName, stats) ==
      Observation(person.id, person.displayName, team, gameName, gameId, stats[0],
                  points, rebounds, assists, Int(made), steals, blocks, turnovers)
  {
    ParseIntDecimal(points);
    ParseIntDecimal(rebounds);
    ParseIntDecimal(assists);
    ParseIntDecimal(steals);
    ParseIntDecimal(blocks);
    ParseIntDecimal(turnovers);
    ParseIntDecimal(made);
    NoDashInNatString(made);
    assert stats[2] == DecimalString(made) + ['-'] + DecimalString(attempted);
    BeforeFirstStopsAtSeparator(DecimalString(made), '-', DecimalString(attempted));
  }

  /** An empty stats row gives zero for every count and "0" minutes. */
  lemma ExtractEmptyRow(person: Person, team: string, gameId: string, gameName: string)
    ensures Extract(person, team, gameId, gameName, []) ==
      Observation(person.id, person.displayName, team, gameName, gameId, "0", 0, 0, 0, Int(0), 0, 0, 0)
  {
    ParseIntUndefined();
  }

  /** An empty-string field is falsy: three-pointers and minutes take their
      fallbacks, and the `|| 0` columns read 0. */
  lemma EmptyTextFields()
    ensures MadeCount(Some("")) == Int(0)
    ensures MinutesText(Some("")) == "0"
    ensures IntOrZero(Some("")) == 0
  {
  }

  /** A placeholder such as "--" counts as 0 in the `|| 0` columns but makes
      three-pointers NaN. */
  lemma DashPlaceholder()
    ensures IntOrZero(Some("--")) == 0
    ensures MadeCount(Some("--")) == NaN
  {
    ParseIntNonNumeric("--");
    assert BeforeFirst("--", '-') == "";
  }

  /** A non-empty three-pointer field that begins with neither white space,
      `+` nor a digit, such as "abc" or "-", is NaN. */
  lemma LetterThrees(f: string)
    requires f != "" && !IsStrWhiteSpace(f[0]) && !IsDecimalDigit(f[0]) && f[0] != '+'
    ensures MadeCount(Some(f)) == NaN
  {
    var made := BeforeFirst(f, '-');
    if made != "" {
      assert made[0] == f[0];
      ParseIntNonNumeric(made);
    }
  }

  /** A numeric identifier matches its string form in the roster: 123 matches "123". */
  lemma NumericIdMatchesStringId()
    ensures IsRostered([Str("123")], Num(123))
  {
    DecimalString123();
  }

  /** Two numeric identifiers match exactly when they are equal. */
  lemma NumericIdsMatchWhenEqual(a: int, b: int)
    ensures IsRostered([Num(a)], Num(b)) <==> a == b
  {
    if IsRostered([Num(a)], Num(b)) {
      DecimalStringInjective(a, b);
    }
  }

  /** With no roster loaded every qualifying player is sent, flagged available. */
  lemma EmptyRosterSendsAllQualifying(t: Thresholds, o: Observation)
    requires MeetsThresholds(t, o)
    ensures Candidate(t, [], o) == Some(Alert(o, true))
  {
  }

  /** With a roster loaded, a qualifying player is sent exactly when its string
      form is in no roster entry. */
  lemma LoadedRosterSendsOnlyAvailable(t: Thresholds, roster: seq<JsId>, o: Observation)
    requires MeetsThresholds(t, o) && |roster| > 0
    ensures Candidate(t, roster, o).Some? <==> forall k :: 0 <= k < |roster| ==> ToJsString(roster[k]) != ToJsString(o.id)
  {
  }

  /** A 20-point minimum, nothing else required, at most 99 turnovers. */
  function ScenarioThresholds(): Thresholds
  {
    Thresholds(20, 0, 0, 0, 0, 0, 99)
  }

  /** A 25-point, 3-turnover player qualifies and, with no roster, is sent as
      available; with its own id on a roster it is not sent. */
  lemma ScenarioTwentyFivePoints(o: Observation)
    requires o.points == 25 && o.turnovers == 3 && o.threePointers == Int(0)
    requires o.rebounds == 0 && o.assists == 0 && o.steals == 0 && o.blocks == 0
    ensures Candidate(ScenarioThresholds(), [], o) == Some(Alert(o, true))
    ensures Candidate(ScenarioThresholds(), [o.id], o) == None
  {
    assert IsRostered([o.id], o.id);
  }

  /** A later date gives a different key for the same player. */
  lemma {:induction false} KeyDeterminesDate(playerId: JsId, d1: string, d2: string)
    requires AlertKey(playerId, d1) == AlertKey(playerId, d2)
    ensures d1 == d2
  {
    var n := |ToJsString(playerId)| + 1;
    assert AlertKey(playerId, d1)[n..] == d1;
    assert AlertKey(playerId, d2)[n..] == d2;
  }

  /** When dates hold no dash (as `toDateString()` output does not), a key
      determines both the player's string form and the date. */
  lemma {:induction false} KeyDeterminesPlayerAndDate(a: JsId, b: JsId, d1: string, d2: string)
    requires '-' !in d1 && '-' !in d2
    requires AlertKey(a, d1) == AlertKey(b, d2)
    ensures ToJsString(a) == ToJsString(b) && d1 == d2
  {
    var key := AlertKey(a, d1);
    var sa, sb := ToJsString(a), ToJsString(b);
    assert |key| == |sa| + 1 + |d1| == |sb| + 1 + |d2|;
    assert key[|sa|] == '-' && key[|sb|] == '-';
    assert |sa| == |sb|;
    assert key[..|sa|] == sa && key[..|sb|] == sb;
    KeyDeterminesDate(a, d1, d2);
  }

  /** Minutes of the day order valid clock readings as time does. */
  lemma MinutesOfDayOrder(a: Clock, b: Clock)
    requires ValidClock(a) && ValidClock(b)
    ensures MinutesOfDay(a) <= MinutesOfDay(b) <==> NotLater(a, b)
  {
    if a.hour < b.hour {
      assert a.hour * 60 + 60 <= b.hour * 60;
    } else if a.hour > b.hour {
      assert b.hour * 60 + 60 <= a.hour * 60;
    }
  }

  /** The gate: always open when disabled; when enabled, open exactly from the
      start to the end reading, both included. */
  lemma WindowBothEndsInclusive(w: Window, now: Clock)
    requires ValidClock(w.start) && ValidClock(w.end) && ValidClock(now)
    ensures !w.onlyDuringGameTimes ==> IsWithinGameTime(w, now)
    ensures w.onlyDuringGameTimes ==> (IsWithinGameTime(w, now) <==> NotLater(w.start, now) && NotLater(now, w.end))
  {
    MinutesOfDayOrder(w.start, now);
    MinutesOfDayOrder(now, w.end);
  }

  /** An enabled window whose start is later than its end is never open: a
      window across midnight is not handled. */
  lemma InvertedWindowNeverOpen(w: Window, now: Clock)
    requires w.onlyDuringGameTimes && MinutesOfDay(w.start) > MinutesOfDay(w.end)
    ensures !IsWithinGameTime(w, now)
  {
  }

  /** 12:00 is outside an enabled 18:00-23:59 window. */
  lemma NoonOutsideEveningWindow()
    ensures !IsWithinGameTime(Window(true, Clock(18, 0), Clock(23, 59)), Clock(12, 0))
  {
  }
}
