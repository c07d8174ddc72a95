/**
 * The scoreboard transformer: one row per game of a scoreboard response,
 * with the start date turned from `MM-DD-YYYY` into ISO form, scores and
 * ranks read as integers, and each side's first conference; plus the
 * game-state classifier the schedule builder shares.
 */
module Scores {
  import opened Wrappers
  import opened Text
  import opened Dates
  import opened Json
  import opened Tables

  // ---------------------------------------------------------------------------
  // classify_game_state
  // ---------------------------------------------------------------------------

  /** A state the classifier accepts: `None`, any falsy value, or a string. */
  predicate StateShape(state: Json) {
    !Truthy(state) || state.JStr?
  }

  /** `(state or "").lower().strip()` */
  function NormaliseState(state: Json): string
    requires StateShape(state)
  {
    Strip(Lower(if Truthy(state) then state.s else ""))
  }

  /** A normalised state has no outer whitespace and no capitals. */
  lemma NormaliseStateShape(state: Json)
    requires StateShape(state)
    ensures Stripped(NormaliseState(state)) && IsLowerCase(NormaliseState(state))
  {
    StripKeepsLowerCase(Lower(if Truthy(state) then state.s else ""));
  }

  /** `classify_game_state`: the display status of a raw game state. */
  function ClassifyGameState(state: Json): (r: string)
    requires StateShape(state)
    ensures r != ""
  {
    StatusOf(NormaliseState(state))
  }

  /** The display status of a normalised state. */
  function StatusOf(s: string): (r: string)
    ensures r != ""
  {
    if s == "final" then "Final"
    else if s == "live" then "Live"
    else if s == "pre" || s == "" then "Upcoming"
    else Title(s)
  }

  /** Title-casing a normalised state and lower-casing it again gives the
      state back. */
  lemma {:induction false} TitleOfNormalised(s: string)
    requires Stripped(s) && IsLowerCase(s)
    ensures Lower(Title(s)) == s && Stripped(Title(s))
  {
    TitleKeepsLetters(s);
    LowerFixesLowerCase(s);
  }

  /** Any other state is shown title-cased: the label is the normalised
      state with its words capitalised, and lower-cases back to it. */
  lemma {:induction false} OtherStatesTitled(state: Json)
    requires StateShape(state)
    ensures var n := NormaliseState(state);
            n !in {"final", "live", "pre", ""} ==>
              && ClassifyGameState(state) == Title(n)
              && Lower(ClassifyGameState(state)) == n
              && Stripped(ClassifyGameState(state))
  {
    var n := NormaliseState(state);
    if n !in {"final", "live", "pre", ""} {
      NormaliseStateShape(state);
      TitleOfNormalised(n);
      assert ClassifyGameState(state) == Title(n);
    }
  }

  /** Each label is its state title-cased. */
  lemma TitleLabels()
    ensures Title("final") == "Final" && Title("live") == "Live" && Title("upcoming") == "Upcoming"
  {
  }

  /** The states the labels stand for are normalised. */
  lemma NormalisedStates()
    ensures Stripped("final") && IsLowerCase("final")
    ensures Stripped("live") && IsLowerCase("live")
    ensures Stripped("upcoming") && IsLowerCase("upcoming")
  {
  }

  /** A title-cased normalised state normalises back to that state. */
  lemma {:induction false} NormaliseTitle(s: string)
    requires Stripped(s) && IsLowerCase(s) && s != ""
    ensures NormaliseState(JStr(Title(s))) == s
  {
    TitleOfNormalised(s);
    assert Truthy(JStr(Title(s)));
    assert Strip(s) == s;
  }

  /** The classifier tells the three known states apart exactly: `Final` and
      `Live` come only from `final` and `live`, `Upcoming` from `pre`, a blank
      or missing state, or `upcoming` itself. */
  lemma {:induction false} KnownStatuses(s: string)
    requires Stripped(s) && IsLowerCase(s)
    ensures StatusOf(s) == "Final" <==> s == "final"
    ensures StatusOf(s) == "Live" <==> s == "live"
    ensures StatusOf(s) == "Upcoming" <==> s in {"pre", "", "upcoming"}
  {
    TitleLabels();
    if !(s == "final" || s == "live" || s == "pre" || s == "") {
      NormalisedStates();
      TitleOfNormalised(s);
      TitleOfNormalised("final");
      TitleOfNormalised("live");
      TitleOfNormalised("upcoming");
    }
  }

  lemma NormalisePre()
    ensures NormaliseState(JStr("pre")) == "pre"
  {
    assert IsLowerCase("pre");
    LowerFixesLowerCase("pre");
    assert Stripped("pre");
    assert Strip("pre") == "pre";
  }

  /** A `pre` state is upcoming. */
  lemma PreIsUpcoming()
    ensures ClassifyGameState(JStr("pre")) == "Upcoming"
  {
    NormalisePre();
    assert StatusOf("pre") == "Upcoming";
  }

  /** A status is the title-cased form of a normalised, non-blank state. */
  lemma {:induction false} StatusIsTitled(s: string) returns (k: string)
    requires Stripped(s) && IsLowerCase(s)
    ensures Stripped(k) && IsLowerCase(k) && k != ""
    ensures StatusOf(s) == Title(k) && StatusOf(k) == StatusOf(s)
  {
    TitleLabels();
    NormalisedStates();
    if s == "final" {
      k := "final";
    } else if s == "live" {
      k := "live";
    } else if s == "pre" || s == "" {
      k := "upcoming";
    } else {
      k := s;
    }
  }

  /** Classifying a status again leaves it as it is: the labels the classifier
      produces are fixed points. */
  lemma {:induction false} ClassifyIdempotent(state: Json)
    requires StateShape(state)
    ensures ClassifyGameState(JStr(ClassifyGameState(state))) == ClassifyGameState(state)
  {
    NormaliseStateShape(state);
    var k := StatusIsTitled(NormaliseState(state));
    NormaliseTitle(k);
  }

  // ---------------------------------------------------------------------------
  // _parse_date: datetime.strptime(raw, "%m-%d-%Y").strftime("%Y-%m-%d")
  // ---------------------------------------------------------------------------

  /** `%m`: `01`..`12`, or a single digit `1`..`9`. */
  function MonthField(p: string): (r: Option<int>)
    ensures r.Some? ==> 1 <= r.value <= 12
  {
    if |p| == 1 && '1' <= p[0] <= '9' then Some(DigitValue(p[0]))
    else if |p| == 2 && AllDigits(p) && 1 <= DigitsValue(p) <= 12 then Some(DigitsValue(p))
    else None
  }

  /** `%d`: `01`..`31`, a single digit `1`..`9`, or a blank and a digit. */
  function DayField(p: string): (r: Option<int>)
    ensures r.Some? ==> 1 <= r.value <= 31
  {
    if |p| == 1 && '1' <= p[0] <= '9' then Some(DigitValue(p[0]))
    else if |p| == 2 && p[0] == ' ' && '1' <= p[1] <= '9' then Some(DigitValue(p[1]))
    else if |p| == 2 && AllDigits(p) && 1 <= DigitsValue(p) <= 31 then Some(DigitsValue(p))
    else None
  }

  /** `%Y`: exactly four digits. */
  function YearField(p: string): (r: Option<int>)
    ensures r.Some? ==> 0 <= r.value <= 9999
  {
    if |p| == 4 && AllDigits(p) then
      DigitsBound(p);
      Some(DigitsValue(p))
    else None
  }

  /** `datetime.strptime(raw, "%m-%d-%Y")`, `None` where it raises: the whole
      string must match, and the date must exist (year 1 onwards). */
  function StrptimeMdy(raw: string): (r: Option<Date>)
    ensures r.Some? ==> Valid(r.value) && 1 <= r.value.year <= 9999
  {
    var parts := Split(raw, '-');
    if |parts| != 3 then None
    else
      match (MonthField(parts[0]), DayField(parts[1]), YearField(parts[2]))
      case (Some(m), Some(d), Some(y)) =>
        var date := Date(y, m, d);
        if y >= 1 && Valid(date) then Some(date) else None
      case _ => None
  }

  /** A start date the parser accepts: falsy, or a string. */
  predicate DateShape(raw: Json) {
    !Truthy(raw) || raw.JStr?
  }

  /** `_parse_date`: `""` for a missing date, the ISO form of a valid
      `MM-DD-YYYY` date, and anything else unchanged. */
  function ParseDate(raw: Json): (r: string)
    requires DateShape(raw)
    ensures !Truthy(raw) ==> r == ""
    ensures Truthy(raw) && StrptimeMdy(raw.s).Some? ==> ParseIso(r) == StrptimeMdy(raw.s)
    ensures Truthy(raw) && StrptimeMdy(raw.s).None? ==> r == raw.s
  {
    if !Truthy(raw) then ""
    else
      match StrptimeMdy(raw.s)
      case Some(d) =>
        IsoRoundTrip(d);
        IsoFormat(d)
      case None => raw.s
  }

  /** A date written as `MM-DD-YYYY` is read back as that date. */
  lemma {:induction false} MdyRoundTrip(d: Date)
    requires Valid(d) && 1 <= d.year <= 9999
    ensures StrptimeMdy(ZeroPad(d.month, 2) + "-" + ZeroPad(d.day, 2) + "-" + ZeroPad(d.year, 4)) == Some(d)
  {
    var m, dd, y := ZeroPad(d.month, 2), ZeroPad(d.day, 2), ZeroPad(d.year, 4);
    var s := m + "-" + dd + "-" + y;
    assert s == m + ['-'] + (dd + ['-'] + y);
    SplitAfter(m, '-', dd + ['-'] + y);
    SplitAfter(dd, '-', y);
    SplitNone(y, '-');
    assert Split(s, '-') == [m, dd, y];
    assert IsDigit(dd[0]);
  }

  /** `"02-01-2025"` becomes `"2025-02-01"`: the ISO form of the same date. */
  lemma {:induction false} ParseDateToIso(d: Date)
    requires Valid(d) && 1 <= d.year <= 9999
    ensures ParseDate(JStr(ZeroPad(d.month, 2) + "-" + ZeroPad(d.day, 2) + "-" + ZeroPad(d.year, 4))) == IsoFormat(d)
  {
    MdyRoundTrip(d);
  }

  /** An ISO date is not `MM-DD-YYYY` (its first field has four digits). */
  lemma {:induction false} IsoIsNotMdy(d: Date)
    requires Valid(d) && 0 <= d.year < 10000
    ensures StrptimeMdy(IsoFormat(d)) == None
  {
    var y, m, dd := ZeroPad(d.year, 4), ZeroPad(d.month, 2), ZeroPad(d.day, 2);
    assert IsoFormat(d) == y + ['-'] + (m + ['-'] + dd);
    SplitAfter(y, '-', m + ['-'] + dd);
    assert Split(IsoFormat(d), '-')[0] == y;
  }

  /** Parsing an already parsed date changes nothing. */
  lemma {:induction false} ParseDateIdempotent(raw: Json)
    requires DateShape(raw)
    ensures ParseDate(JStr(ParseDate(raw))) == ParseDate(raw)
  {
    if Truthy(raw) {
      match StrptimeMdy(raw.s)
      case Some(d) =>
        IsoIsNotMdy(d);
      case None =>
    }
  }

  // ---------------------------------------------------------------------------
  // _get_conference
  // ---------------------------------------------------------------------------

  /** `conferences`, when truthy, is a list whose first element is a dict. */
  predicate ConferencesShape(team: Dict) {
    var c := Get(team, "conferences", JList([]));
    !Truthy(c) || (c.JList? && c.items[0].JObject?)
  }

  /** `_get_conference`: the name of the team's first conference, `""` when
      there is none. */
  function GetConference(team: Dict): (r: Json)
    requires ConferencesShape(team)
    ensures "conferences" !in team.fields ==> r == JStr("")
    ensures Get(team, "conferences", JList([])) == JList([]) ==> r == JStr("")
    ensures (var c := Get(team, "conferences", JList([]));
             !Truthy(c) || "conferenceName" !in c.items[0].obj.fields) ==> r == JStr("")
    ensures (var c := Get(team, "conferences", JList([]));
             Truthy(c) && "conferenceName" in c.items[0].obj.fields ==> r == c.items[0].obj.fields["conferenceName"])
  {
    var c := Get(team, "conferences", JList([]));
    if Truthy(c) then Get(c.items[0].obj, "conferenceName", JStr("")) else JStr("")
  }

  // ---------------------------------------------------------------------------
  // transform_scoreboard
  // ---------------------------------------------------------------------------

  /** The 27 keys of a scoreboard row, in order. */
  const ScoreColumns: seq<string> := [
    "game_id", "game_state", "start_date", "start_time", "start_time_epoch", "network",
    "final_message", "current_period", "contest_clock", "title", "url",
    "away_team", "away_team_full", "away_team_seo", "away_score", "away_rank",
    "away_record", "away_winner", "away_conference",
    "home_team", "home_team_full", "home_team_seo", "home_score", "home_rank",
    "home_record", "home_winner", "home_conference"]

  /** The 11 columns of the empty scoreboard. */
  const EmptyScoreColumns: seq<string> := [
    "game_id", "game_state", "start_date", "start_time", "network",
    "away_team", "away_score", "away_rank",
    "home_team", "home_score", "home_rank"]

  /** One side of a game. */
  datatype Side = Side(
    team: Json, teamFull: Json, teamSeo: Json, score: Option<int>, rank: Option<int>,
    record: Json, winner: Json, conference: Json)

  /** One scoreboard row. */
  datatype Game = Game(
    gameId: Json, gameState: Json, startDate: string, startTime: Json, startTimeEpoch: Json,
    network: Json, finalMessage: Json, currentPeriod: Json, contestClock: Json, title: Json,
    url: Json, away: Side, home: Side)

  lemma EmptyScoreColumnsDistinct()
    ensures Distinct(EmptyScoreColumns)
  {
  }

  /** `_empty_scoreboard`: no rows and the 11 distinct columns listed above,
      each of them also a column of a populated scoreboard. */
  function EmptyScoreboard(): (t: Frame<Game>)
    ensures t.rows == [] && |t.columns| == 11 && Distinct(t.columns)
    ensures forall c :: c in t.columns <==> c in EmptyScoreColumns
    ensures forall c :: c in t.columns ==> c in ScoreColumns
  {
    EmptyScoreColumnsDistinct();
    Frame(EmptyScoreColumns, [])
  }

  const NoDict: Json := JObject(EmptyDict)

  /** A side the transformer can read: a dict whose `names` is a dict and
      whose conferences are readable. */
  predicate SideShape(side: Json) {
    side.JObject? && Get(side.obj, "names", NoDict).JObject? && ConferencesShape(side.obj)
  }

  /** A game object the transformer can read. */
  predicate GameShape(game: Json) {
    && game.JObject?
    && SideShape(Get(game.obj, "away", NoDict))
    && SideShape(Get(game.obj, "home", NoDict))
    && DateShape(Get(game.obj, "startDate", JStr("")))
  }

  /** `entry.get("game", entry)`: the wrapped game, or the entry itself. */
  function Unwrap(entry: Dict): (game: Json)
    ensures "game" in entry.fields ==> game == entry.fields["game"]
    ensures "game" !in entry.fields ==> game == JObject(entry)
  {
    Get(entry, "game", JObject(entry))
  }

  /** An entry of `games` the transformer can read. */
  predicate EntryShape(entry: Json) {
    entry.JObject? && GameShape(Unwrap(entry.obj))
  }

  function ReadSide(side: Json): Side
    requires SideShape(side)
  {
    var s := side.obj;
    var names := Get(s, "names", NoDict).obj;
    Side(
      Get(names, "short", JStr("")), Get(names, "full", JStr("")), Get(names, "seo", JStr("")),
      SafeInt(Get(s, "score", JStr(""))), SafeInt(Get(s, "rank", JStr(""))),
      Get(s, "description", JStr("")), Get(s, "winner", JBool(false)), GetConference(s))
  }

  /** The row of one game object. */
  function ReadGame(game: Json): Game
    requires GameShape(game)
  {
    var g := game.obj;
    Game(
      Get(g, "gameID", JStr("")), Get(g, "gameState", JStr("")),
      ParseDate(Get(g, "startDate", JStr(""))),
      Get(g, "startTime", JStr("")), Get(g, "startTimeEpoch", JStr("")),
      Get(g, "network", JStr("")), Get(g, "finalMessage", JStr("")),
      Get(g, "currentPeriod", JStr("")), Get(g, "contestClock", JStr("")),
      Get(g, "title", JStr("")), Get(g, "url", JStr("")),
      ReadSide(Get(g, "away", NoDict)), ReadSide(Get(g, "home", NoDict)))
  }

  /** The row of one entry of `games`. */
  function ReadEntry(entry: Json): Game
    requires EntryShape(entry)
  {
    ReadGame(Unwrap(entry.obj))
  }

  /** A game wrapped as `{"game": g}` and the bare game `g` give the same row. */
  lemma {:induction false} WrappedGameSameRow(g: Dict)
    requires "game" !in g.fields && GameShape(JObject(g))
    ensures EntryShape(JObject(Dict(["game"], map["game" := JObject(g)])))
    ensures EntryShape(JObject(g))
    ensures ReadEntry(JObject(Dict(["game"], map["game" := JObject(g)]))) == ReadEntry(JObject(g))
  {
  }

  /** A blank or non-numeric score or rank becomes a missing value; a number
      written out in decimal is read back. */
  lemma {:induction false} SideNumbers(side: Json, n: int)
    requires SideShape(side)
    ensures "score" !in side.obj.fields ==> ReadSide(side).score == None
    ensures Get(side.obj, "score", JStr("")) == JStr("") ==> ReadSide(side).score == None
    ensures Get(side.obj, "score", JStr("")) == JStr(Decimal(n)) ==> ReadSide(side).score == Some(n)
    ensures Get(side.obj, "rank", JStr("")) == JStr(Decimal(n)) ==> ReadSide(side).rank == Some(n)
  {
    SafeIntReadsDecimal(n);
  }

  /** The responses the transformer accepts without raising. */
  predicate ScoreboardShape(raw: Json) {
    && (raw.JNull? || raw.JObject?)
    && (HasKey(raw, "games") ==>
          && raw.obj.fields["games"].JList?
          && forall i :: 0 <= i < |raw.obj.fields["games"].items| ==> EntryShape(raw.obj.fields["games"].items[i]))
  }

  /** `transform_scoreboard`: one row per entry of `games`, in order. */
  method TransformScoreboard(raw: Json) returns (t: Frame<Game>)
    requires ScoreboardShape(raw)
    ensures !HasKey(raw, "games") ==> t == EmptyScoreboard()
    ensures HasKey(raw, "games") && raw.obj.fields["games"].items == [] ==> t == Frame([], [])
    ensures HasKey(raw, "games") && raw.obj.fields["games"].items != [] ==>
              && t.columns == ScoreColumns
              && |t.rows| == |raw.obj.fields["games"].items|
              && forall i :: 0 <= i < |t.rows| ==> t.rows[i] == ReadEntry(raw.obj.fields["games"].items[i])
  {
    if !HasKey(raw, "games") {
      return EmptyScoreboard();
    }
    var entries := raw.obj.fields["games"].items;
    var rows: seq<Game> := [];
    for i := 0 to |entries|
      invariant |rows| == i
      invariant forall j :: 0 <= j < i ==> rows[j] == ReadEntry(entries[j])
    {
      rows := rows + [ReadEntry(entries[i])];
    }
    if rows == [] {
      return Frame([], []);
    }
    t := Frame(ScoreColumns, rows);
  }
}
