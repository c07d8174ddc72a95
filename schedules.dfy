/**
 * The schedule builder: one row per game of a date-range scoreboard walk,
 * dated by the day it was fetched and ordered by that date, and the two
 * views taken of it: the games still to come and the recent final results.
 */
module Schedules {
  import opened Wrappers
  import opened Text
  import opened Dates
  import opened Json
  import opened Sorting
  import opened Tables
  import Scores

  /** The 15 keys of a schedule row, in order. */
  const ScheduleColumns: seq<string> := [
    "game_id", "date", "start_time", "start_time_epoch", "away_team", "away_rank",
    "home_team", "home_rank", "network", "location", "status",
    "away_score", "home_score", "title", "url"]

  /** The 14 columns of the empty schedule (no `start_time_epoch`). */
  const EmptyScheduleColumns: seq<string> := [
    "game_id", "date", "start_time", "away_team", "away_rank",
    "home_team", "home_rank", "network", "location", "status",
    "away_score", "home_score", "title", "url"]

  /** One schedule row. `date` is missing (`NaT`) when the fetch date does not
      read as a date. */
  datatype ScheduleRow = ScheduleRow(
    gameId: Json, date: Option<Date>, startTime: Json, startTimeEpoch: Json,
    awayTeam: Json, awayRank: Option<int>, homeTeam: Json, homeRank: Option<int>,
    network: Json, location: string, status: string,
    awayScore: Option<int>, homeScore: Option<int>, title: Json, url: Json)

  lemma EmptyScheduleColumnsDistinct()
    ensures Distinct(EmptyScheduleColumns)
  {
  }

  /** `_empty_schedule`: no rows and the 14 distinct columns listed above,
      all of them columns of a built schedule. */
  function EmptySchedule(): (t: Frame<ScheduleRow>)
    ensures t.rows == [] && |t.columns| == 14 && Distinct(t.columns)
    ensures forall c :: c in t.columns <==> c in EmptyScheduleColumns
    ensures forall c :: c in t.columns ==> c in ScheduleColumns
    ensures "start_time_epoch" !in t.columns
  {
    EmptyScheduleColumnsDistinct();
    Frame(EmptyScheduleColumns, [])
  }

  /** `DataFrame.empty`: no rows or no columns. */
  predicate FrameEmpty(t: Frame<ScheduleRow>) {
    t.rows == [] || t.columns == []
  }

  // ---------------------------------------------------------------------------
  // pd.to_datetime(df["date"], errors="coerce")
  // ---------------------------------------------------------------------------

  /** The dates a pandas `Timestamp` can hold at midnight:
      1677-09-22 to 2262-04-11. */
  predicate InTimestampRange(d: Date) {
    !Before(d, Date(1677, 9, 22)) && !Before(Date(2262, 4, 11), d)
  }

  /** The fetch date as `pd.to_datetime(..., errors="coerce")` reads it: an ISO
      date within the `Timestamp` range, else missing. */
  function ToTimestamp(s: string): (r: Option<Date>)
    ensures r.Some? ==> Valid(r.value) && InTimestampRange(r.value)
  {
    match ParseIso(s)
    case Some(d) => if InTimestampRange(d) then Some(d) else None
    case None => None
  }

  /** A date the API client tags a game with reads back as that date. */
  lemma {:induction false} ToTimestampIso(d: Date)
    requires Valid(d) && InTimestampRange(d)
    ensures ToTimestamp(IsoFormat(Normalised(d))) == Some(d)
  {
    IsoRoundTrip(d);
  }

  /** The identity on dates in the `Timestamp` range, where the year is known
      to be non-negative (which `IsoFormat` asks for). */
  function Normalised(d: Date): (r: Date)
    requires Valid(d) && InTimestampRange(d)
    ensures r == d && r.year >= 0
  {
    d
  }

  // ---------------------------------------------------------------------------
  // build_schedule
  // ---------------------------------------------------------------------------

  const NoDict: Json := JObject(EmptyDict)

  /** A side the builder can read: a dict whose `names` is a dict. */
  predicate SideShape(side: Json) {
    side.JObject? && Get(side.obj, "names", NoDict).JObject?
  }

  /** A game the builder can read: a dict with readable sides, a string or
      falsy `gameState`, and a string `_fetch_date` when it has one. */
  predicate GameShape(game: Json) {
    && game.JObject?
    && SideShape(Get(game.obj, "away", NoDict))
    && SideShape(Get(game.obj, "home", NoDict))
    && Scores.StateShape(Get(game.obj, "gameState", JStr("pre")))
    && Get(game.obj, "_fetch_date", JStr("")).JStr?
  }

  /** What every built row satisfies: no location, a status the classifier
      gives, and a date (when there is one) a `Timestamp` can hold. */
  predicate BuiltRow(r: ScheduleRow) {
    && r.location == ""
    && r.status != ""
    && (r.date.Some? ==> Valid(r.date.value) && InTimestampRange(r.date.value))
  }

  /** The row built for one game. */
  function ReadGame(game: Json): ScheduleRow
    requires GameShape(game)
  {
    var g := game.obj;
    var away := Get(g, "away", NoDict).obj;
    var home := Get(g, "home", NoDict).obj;
    var awayNames := Get(away, "names", NoDict).obj;
    var homeNames := Get(home, "names", NoDict).obj;
    ScheduleRow(
      Get(g, "gameID", JStr("")), ToTimestamp(Get(g, "_fetch_date", JStr("")).s),
      Get(g, "startTime", JStr("")), Get(g, "startTimeEpoch", JStr("")),
      Get(awayNames, "short", JStr("")), SafeInt(Get(away, "rank", JNull)),
      Get(homeNames, "short", JStr("")), SafeInt(Get(home, "rank", JNull)),
      Get(g, "network", JStr("")), "", Scores.ClassifyGameState(Get(g, "gameState", JStr("pre"))),
      SafeInt(Get(away, "score", JNull)), SafeInt(Get(home, "score", JNull)),
      Get(g, "title", JStr("")), Get(g, "url", JStr("")))
  }

  /** A game without a `gameState` is upcoming. */
  lemma {:induction false} MissingStateUpcoming(game: Json)
    requires GameShape(game) && "gameState" !in game.obj.fields
    ensures ReadGame(game).status == "Upcoming"
  {
    Scores.PreIsUpcoming();
  }

  /** A game tagged with the ISO date it was fetched on is dated by it; a
      game with no tag has no date. */
  lemma {:induction false} FetchDateRead(game: Json, d: Date)
    requires GameShape(game)
    ensures "_fetch_date" !in game.obj.fields ==> ReadGame(game).date == None
    ensures Valid(d) && InTimestampRange(d) && game.obj.fields.Keys >= {"_fetch_date"}
            && game.obj.fields["_fetch_date"] == JStr(IsoFormat(Normalised(d)))
            ==> ReadGame(game).date == Some(d)
  {
    if "_fetch_date" !in game.obj.fields {
      assert ParseIso("") == None by { assert Split("", '-') == [""]; }
    }
    if Valid(d) && InTimestampRange(d) {
      ToTimestampIso(d);
    }
  }

  /** One row per game, in input order. */
  function Rows(games: seq<Json>): (rows: seq<ScheduleRow>)
    requires forall i :: 0 <= i < |games| ==> GameShape(games[i])
    ensures |rows| == |games|
  {
    if games == [] then []
    else Rows(games[..|games| - 1]) + [ReadGame(games[|games| - 1])]
  }

  /** Every row read from a game has no location, a non-blank status, and a
      date (when it has one) a `Timestamp` can hold. */
  lemma {:induction false} ReadGameBuilt(game: Json)
    requires GameShape(game)
    ensures BuiltRow(ReadGame(game))
  {
  }

  lemma {:induction false} RowsBuilt(games: seq<Json>)
    requires forall i :: 0 <= i < |games| ==> GameShape(games[i])
    ensures forall r :: r in Rows(games) ==> BuiltRow(r)
  {
    if games != [] {
      var n := |games| - 1;
      RowsBuilt(games[..n]);
      ReadGameBuilt(games[n]);
    }
  }

  /** The sort key of a row: its date as a day number, missing last. */
  function DateKey(r: ScheduleRow): Option<int> {
    match r.date
    case Some(d) => if Valid(d) then Some(Ordinal(d)) else None
    case None => None
  }

  /** What `build_schedule` returns: the empty schedule for no games, else
      one row per game, sorted by date with missing dates last. */
  function Schedule(games: seq<Json>): (t: Frame<ScheduleRow>)
    requires forall i :: 0 <= i < |games| ==> GameShape(games[i])
    ensures games == [] ==> t == EmptySchedule()
    ensures games != [] ==>
              && t.columns == ScheduleColumns
              && |t.rows| == |games|
              && multiset(t.rows) == multiset(Rows(games))
              && SortedBy(t.rows, ByKey(DateKey, true))
              && (forall r :: r in t.rows ==> BuiltRow(r))
  {
    if games == [] then EmptySchedule()
    else
      RowsBuilt(games);
      Frame(ScheduleColumns, SortByKey(Rows(games), DateKey, true))
  }

  /** The `for game in games: rows.append(...)` loop of `build_schedule`. */
  method ReadGames(games: seq<Json>) returns (rows: seq<ScheduleRow>)
    requires forall i :: 0 <= i < |games| ==> GameShape(games[i])
    ensures rows == Rows(games)
  {
    rows := [];
    for i := 0 to |games|
      invariant rows == Rows(games[..i])
    {
      assert games[..i + 1][..i] == games[..i];
      rows := rows + [ReadGame(games[i])];
    }
    assert games[..|games|] == games;
  }

  /** `build_schedule`: reads the games one by one, then sorts the rows. */
  method BuildSchedule(games: seq<Json>) returns (t: Frame<ScheduleRow>)
    requires forall i :: 0 <= i < |games| ==> GameShape(games[i])
    ensures t == Schedule(games)
  {
    if games == [] {
      return EmptySchedule();
    }
    var rows := ReadGames(games);
    t := Frame(ScheduleColumns, SortByKey(rows, DateKey, true));
  }

  // ---------------------------------------------------------------------------
  // get_upcoming_schedule / get_recent_results
  // ---------------------------------------------------------------------------

  /** `date >= day`; a missing date compares false. */
  predicate OnOrAfter(r: ScheduleRow, day: Date)
    requires Valid(day)
  {
    DateKey(r).Some? && DateKey(r).value >= Ordinal(day)
  }

  /** A final result on or after the cutoff day. */
  predicate FinalSince(r: ScheduleRow, cutoff: Date)
    requires Valid(cutoff)
  {
    r.status == "Final" && OnOrAfter(r, cutoff)
  }

  /** `get_upcoming_schedule`: an empty frame is returned as it is; otherwise
      exactly the rows dated today or later, in their order. */
  function UpcomingSchedule(t: Frame<ScheduleRow>, today: Date): (r: Frame<ScheduleRow>)
    requires Valid(today)
    ensures FrameEmpty(t) ==> r == t
    ensures !FrameEmpty(t) ==> r.columns == t.columns && |r.rows| <= |t.rows|
    ensures !FrameEmpty(t) ==>
              forall x :: multiset(r.rows)[x] == if OnOrAfter(x, today) then multiset(t.rows)[x] else 0
  {
    if FrameEmpty(t) then t
    else
      FilterCount(t.rows, x => OnOrAfter(x, today));
      Frame(t.columns, Filter(t.rows, x => OnOrAfter(x, today)))
  }

  /** Filtering keeps the date order, so the upcoming games of a built
      schedule are still in date order. */
  lemma {:induction false} UpcomingStaysSorted(t: Frame<ScheduleRow>, today: Date)
    requires Valid(today)
    requires SortedBy(t.rows, ByKey(DateKey, true))
    ensures SortedBy(UpcomingSchedule(t, today).rows, ByKey(DateKey, true))
  {
    if !FrameEmpty(t) {
      FilterSorted(t.rows, x => OnOrAfter(x, today), ByKey(DateKey, true));
    }
  }

  /** Every upcoming game is on or after every game left out. */
  lemma {:induction false} UpcomingAfterPast(t: Frame<ScheduleRow>, today: Date, x: ScheduleRow, y: ScheduleRow)
    requires Valid(today) && !FrameEmpty(t)
    requires x in UpcomingSchedule(t, today).rows
    requires y in t.rows && y.date.Some? && Valid(y.date.value) && y !in UpcomingSchedule(t, today).rows
    ensures x.date.Some? && Ordinal(y.date.value) < Ordinal(x.date.value)
  {
    var r := UpcomingSchedule(t, today);
    assert multiset(r.rows)[x] > 0;
    assert OnOrAfter(x, today);
    assert multiset(t.rows)[y] > 0 && multiset(r.rows)[y] == 0;
    assert !OnOrAfter(y, today);
  }

  /** `get_recent_results`: an empty frame is returned as it is; otherwise
      exactly the final results dated no earlier than `days_back` days before
      today, latest first. */
  function RecentResults(t: Frame<ScheduleRow>, today: Date, daysBack: int): (r: Frame<ScheduleRow>)
    requires Valid(today)
    ensures FrameEmpty(t) ==> r == t
    ensures !FrameEmpty(t) ==>
              && r.columns == t.columns
              && SortedBy(r.rows, ByKey(DateKey, false))
              && forall x :: multiset(r.rows)[x] ==
                   if FinalSince(x, AddDays(today, -daysBack)) then multiset(t.rows)[x] else 0
  {
    if FrameEmpty(t) then t
    else
      var cutoff := AddDays(today, -daysBack);
      FilterCount(t.rows, x => FinalSince(x, cutoff));
      Frame(t.columns, SortByKey(Filter(t.rows, x => FinalSince(x, cutoff)), DateKey, false))
  }

  /** Every recent result is a final game of the schedule dated within the
      window: no earlier than `daysBack` days before today. */
  lemma {:induction false} RecentWithinWindow(t: Frame<ScheduleRow>, today: Date, daysBack: int, x: ScheduleRow)
    requires Valid(today) && !FrameEmpty(t)
    requires x in RecentResults(t, today, daysBack).rows
    ensures x in t.rows && x.status == "Final" && x.date.Some? && Valid(x.date.value)
    ensures Ordinal(today) - daysBack <= Ordinal(x.date.value)
  {
    var r := RecentResults(t, today, daysBack);
    assert multiset(r.rows)[x] > 0;
  }
}
