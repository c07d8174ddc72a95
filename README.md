# A verified model of the NCAA wrestling ETL and the clinical control tower's scoring

This project models in Dafny the computational core of two dashboards.

- **NCAA wrestling.** The API client builds scoreboard paths, walks a date range day by day and tags every game with its fetch date, and merges paginated stat listings. Four transformers then turn the raw JSON into tables:
  - rankings: the coaches' poll;
  - scores: the scoreboard, with its game-state classifier and date parser;
  - schedules: the schedule, with its upcoming and recent-results filters;
  - teams: team stats, conference standings and the schools index.
- **The value-box helpers.** They pick the stat box's colour theme, draw the rank-movement arrow and draw the rank badge.
- **Clinical control tower, site ranking.** `compute_site_rankings` min-max normalises six site metrics over all sites and inverts the four where lower is better. It then weights them into a composite score in [0, 1], ranks sites within each study by competition ranking, buckets the composite into right-closed tiers, and sorts by study and rank.
- **Clinical control tower, enrollment forecast.** `forecast_enrollment` starts from a study's latest weekly observation. Each coming week it asks a regressor for the enrollment, clamps the prediction at zero and clamps the running total at the target.

The modules follow the program:
- `Rankings`, `Scores`, `Schedules` and `Teams` are the transformers.
- `NcaaApi` is the client. Its `Client` class holds the base URL.
- `SiteRankings` and `EnrollmentForecast` are the two clinical functions.
- `ValueBoxes` holds the badge helpers.

Shared modules model the Python and pandas behaviour the code relies on:
- `Json`: decoded JSON, and dicts with their insertion order.
- `Text`: `str.strip`, `lower`, `title`, `int()`, `str()`, `split`, `rfind` and `replace`.
- `Dates`: proleptic Gregorian dates, `timedelta`, `isoformat`.
- `Tables`: `pd.DataFrame` built from records, `rename`, `to_numeric(errors="coerce")`, `sort_values`.
- `Sorting`: a sort specified only by sortedness and permutation.
- `Wrappers`: `Option`.

The code is modelled as written:
- Loops that build lists are methods with loop invariants, proved equal to a specifying function.
- Pure helpers are functions.
- The HTTP fetch is a function parameter.
- The forecast's regressor is a function parameter.
- Scores are `real`.
- Python's `None`-or-raise behaviour on malformed input is either an `Option` result or a shape precondition. Most shape preconditions exclude inputs on which the source would raise; a few also exclude responses the API never sends, listed under "## Left out".

## Model

| member | source | states |
|---|---|---|
| Rankings.EmptyTeamRankings | ncaa-wrestling-app/etl/transformers/rankings.py:92-96 | no rows and exactly the nine distinct columns rank, school, votes, points, previous_rank, record, wins, losses, movement |
| Rankings.Pick | ncaa-wrestling-app/etl/transformers/rankings.py:30-36 | the upper-case key wins over the title-case key, which wins over the `""` default |
| Rankings.ParseSchoolVotes | ncaa-wrestling-app/etl/transformers/rankings.py:58-69 | the school part is stripped and no longer than the input |
| Rankings.SchoolWithoutVotes | ncaa-wrestling-app/etl/transformers/rankings.py:60-69 | votes come only from a stripped string holding `(` and ending in `)`; otherwise the result is the stripped input and no votes |
| Rankings.CutSchoolInner | ncaa-wrestling-app/etl/transformers/rankings.py:61-64 | `school (inner)` is cut at its last `(`: the school and the stripped inner text |
| Rankings.SchoolVotesSplit | ncaa-wrestling-app/etl/transformers/rankings.py:61-68 | whatever sits in the trailing parentheses, the school is the text before them and the votes are `int()` of the inside, missing when that does not parse |
| Rankings.SchoolVotesRoundTrip | ncaa-wrestling-app/etl/transformers/rankings.py:58-66 | `"Penn St. (16)"` reads back as `("Penn St.", 16)` for every stripped school and every integer |
| Rankings.ParseRecord | ncaa-wrestling-app/etl/transformers/rankings.py:72-80 | wins and losses are both present or both missing; a record without `-` gives neither |
| Rankings.RecordParts | ncaa-wrestling-app/etl/transformers/rankings.py:72-80 | a record `a-b…` (with `a` and `b` free of `-`) gives `(int(a), int(b))` when both parts read as integers, surrounding spaces and leading zeros allowed, and `(None, None)` when either does not |
| Rankings.RecordRoundTrip | ncaa-wrestling-app/etl/transformers/rankings.py:72-77 | `"W-L"` reads back as `(W, L)`, and anything after a further `-` is ignored |
| Rankings.Movement | ncaa-wrestling-app/etl/transformers/rankings.py:38 | previous minus rank when both are present and non-zero, else 0; positive exactly when the team rose |
| Rankings.ReadEntry | ncaa-wrestling-app/etl/transformers/rankings.py:29-50 | every row read has its movement consistent with its previous and current rank, wins and losses both present or both missing, and a stripped school |
| Rankings.Entries | ncaa-wrestling-app/etl/transformers/rankings.py:28-50 | one row per item of `data`, in order |
| Rankings.TransformTeamRankings | ncaa-wrestling-app/etl/transformers/rankings.py:6-55 | a missing response or `data` key gives the nine-column empty frame; an empty `data` gives no rows and no columns; otherwise one row per item, a permutation of the rows read, sorted ascending by rank |
| Json.Get | ncaa-wrestling-app/etl/transformers/scores.py:43 | `dict.get(k, default)`: the stored value when the key is present, else the default |
| Json.Set | ncaa-wrestling-app/etl/ncaa_api.py:74 | item assignment stores the value; an existing key keeps its place and a new key goes last |
| Json.PyInt | ncaa-wrestling-app/etl/ncaa_api.py:120 | `int()` keeps an integer, reads a string as `int(s)` does, turns `True`/`False` into 1/0, and fails on `None`, a list or a dict |
| Json.SafeInt | ncaa-wrestling-app/etl/transformers/rankings.py:83-89 | `None` and `""` give no value; an integer is kept; a string is read by `int()`; any value returned is what `int()` returns |
| Json.SafeIntReadsDecimal | ncaa-wrestling-app/etl/transformers/rankings.py:83-89 | the text of any integer reads back as that integer |
| Text.Strip | ncaa-wrestling-app/etl/transformers/rankings.py:60 | no outer whitespace is left, and a string without it is unchanged |
| Text.Lower | ncaa-wrestling-app/etl/transformers/teams.py:19 | same length, each character lower-cased |
| Text.TitleKeepsLetters | ncaa-wrestling-app/etl/transformers/scores.py:94 | title-casing only changes the case of letters and keeps a stripped string stripped |
| Text.StripPadding | ncaa-wrestling-app/etl/transformers/teams.py:19 | whitespace added around a string is stripped off again |
| Text.StripUpToCase | ncaa-wrestling-app/etl/transformers/teams.py:19 | strings equal up to case strip to strings equal up to case |
| Text.ParseIntStripped | ncaa-wrestling-app/etl/transformers/rankings.py:77 | `int()` ignores surrounding whitespace |
| Text.Natural | ncaa-wrestling-app/etl/ncaa_api.py:62 | the digits of a natural number, without leading zeros, whose value is that number |
| Text.Decimal | ncaa-wrestling-app/etl/ncaa_api.py:111 | `str(n)` is non-empty, stripped, has no space, `/` or parentheses, and is the digits of n when n is not negative |
| Text.DecimalRoundTrip | ncaa-wrestling-app/etl/transformers/rankings.py:66 | `int(str(n)) == n` |
| Text.DecimalInjective | ncaa-wrestling-app/etl/transformers/rankings.py:66 | distinct integers have distinct texts |
| Text.ZeroPad | ncaa-wrestling-app/etl/ncaa_api.py:62 | `{n:02d}`: at least the width in digits, valued n, and exactly two digits for n below 100 |
| Text.Split | ncaa-wrestling-app/etl/transformers/rankings.py:75 | the pieces hold no separator and join back to the input |
| Text.SplitJoin | ncaa-wrestling-app/etl/ncaa_api.py:62 | parts without the separator, joined and split again, give the parts |
| Text.RFind | ncaa-wrestling-app/etl/transformers/rankings.py:62 | missing exactly when the character is absent, else the index of its last occurrence |
| Text.RemoveAll | ncaa-wrestling-app/etl/transformers/teams.py:49 | the character is gone and every other character is kept |
| Text.RemoveOne | ncaa-wrestling-app/etl/transformers/teams.py:49 | on one character: the removed character gives `""`, any other is kept |
| Text.RemoveAllAppend | ncaa-wrestling-app/etl/transformers/teams.py:49 | removal distributes over concatenation, so with `RemoveOne` every other character is kept in its order |
| Text.RemoveTrailing | ncaa-wrestling-app/etl/transformers/teams.py:49 | removing `%` from `s + "%"` gives back `s` when `s` has none |
| Text.ReplaceAll | ncaa-wrestling-app/etl/transformers/teams.py:82 | same length, exactly the occurrences of the character replaced |
| Text.StrLessTotal | clinical-control-tower/models/train_models.py:190-192 | the string order used for `study_id` is total |
| Text.StrLessIrreflexive | clinical-control-tower/models/train_models.py:190-192 | no string sorts before itself |
| Text.StrLessTransitive | clinical-control-tower/models/train_models.py:190-192 | the string order used for `study_id` is transitive |
| Dates.NextDay | ncaa-wrestling-app/etl/ncaa_api.py:76 | the next day is a valid date of the same or a later year |
| Dates.NextDayOrdinal | ncaa-wrestling-app/etl/ncaa_api.py:76 | `current + timedelta(days=1)` is one ordinal day later |
| Dates.OrdinalOrder | ncaa-wrestling-app/etl/ncaa_api.py:69 | date comparison agrees with ordinal comparison, and equal ordinals mean equal dates |
| Dates.AddDays | ncaa-wrestling-app/etl/transformers/schedules.py:65 | adding n days gives a valid date n ordinal days later |
| Dates.ParseIso | ncaa-wrestling-app/etl/transformers/schedules.py:47 | whatever parses is a valid date |
| Dates.IsoRoundTrip | ncaa-wrestling-app/etl/ncaa_api.py:74 | an ISO-formatted date parses back to itself |
| Sorting.Sort | ncaa-wrestling-app/etl/transformers/rankings.py:54 | the result is sorted and a permutation of the input |
| Sorting.Filter | ncaa-wrestling-app/etl/transformers/schedules.py:57-58 | every row kept satisfies the mask and comes from the input |
| Sorting.FilterCount | ncaa-wrestling-app/etl/transformers/schedules.py:57-58 | each row satisfying the mask is kept as often as it occurs, every other row is dropped |
| Sorting.FilterAppend | ncaa-wrestling-app/etl/transformers/schedules.py:57-58 | masking a concatenation masks each part |
| Sorting.FilterSorted | ncaa-wrestling-app/etl/transformers/schedules.py:57-58 | masking keeps a sorted frame sorted |
| Tables.Schema | ncaa-wrestling-app/etl/transformers/rankings.py:92-96 | `pd.DataFrame(columns=...)`: the given columns and no rows |
| Tables.AddNewKeys | ncaa-wrestling-app/etl/transformers/teams.py:14 | columns are added in first-seen order after the ones already there, without repeats |
| Tables.KeyUnion | ncaa-wrestling-app/etl/transformers/teams.py:14 | the columns are distinct and include every key of every record |
| Tables.FromDicts | ncaa-wrestling-app/etl/transformers/teams.py:14 | one row per record, every key a column, and each cell the record's value or missing |
| Tables.Rename | ncaa-wrestling-app/etl/transformers/teams.py:41 | same rows and column count, each column renamed in place, each cell moved with its column |
| Tables.ToNumeric | ncaa-wrestling-app/etl/transformers/teams.py:46 | the result is a number or missing; integers are kept and strings are read as numbers or become missing |
| Tables.ParseNumberFraction | ncaa-wrestling-app/etl/transformers/teams.py:46-49 | a numeral with a decimal point such as `.917` or `91.7` reads as its whole part plus its digits after the point over the matching power of ten |
| Tables.ParseNumberDecimal | ncaa-wrestling-app/etl/transformers/teams.py:46 | the text of an integer is read as that number |
| Tables.MapColumn | ncaa-wrestling-app/etl/transformers/teams.py:46 | only the named column's cells change; an absent column leaves the table as it is |
| Tables.SortByColumn | ncaa-wrestling-app/etl/transformers/teams.py:52 | sorted by the column and a permutation of the rows |
| Tables.SortByKey | ncaa-wrestling-app/etl/transformers/rankings.py:54 | sorted by the key and a permutation of the rows |
| Scores.NormaliseState | ncaa-wrestling-app/etl/transformers/scores.py:87 | `(state or "").lower().strip()`: a missing or empty state becomes `""`; NormaliseStateShape states that the result is stripped and lower case |
| Scores.StatusOf | ncaa-wrestling-app/etl/transformers/scores.py:88-94 | the status of a normalised state: Final for `final`, Live for `live`, Upcoming for `pre` and `""`, else the state title-cased; KnownStatuses and OtherStatesTitled pin each branch |
| Scores.NormaliseStateShape | ncaa-wrestling-app/etl/transformers/scores.py:87 | a normalised state has no outer whitespace and no capitals |
| Scores.ClassifyGameState | ncaa-wrestling-app/etl/transformers/scores.py:85-94 | the status is never empty |
| Scores.OtherStatesTitled | ncaa-wrestling-app/etl/transformers/scores.py:87-94 | a normalised state other than `final`, `live`, `pre` and blank is shown as `state.title()`, which lower-cases back to the state and stays stripped |
| Scores.KnownStatuses | ncaa-wrestling-app/etl/transformers/scores.py:88-94 | `Final` exactly for `final`, `Live` exactly for `live`, `Upcoming` exactly for `pre`, blank or `upcoming` |
| Scores.PreIsUpcoming | ncaa-wrestling-app/etl/transformers/scores.py:92-93 | a `pre` game is upcoming |
| Scores.NormaliseTitle | ncaa-wrestling-app/etl/transformers/scores.py:87-94 | a title-cased state normalises back to the state |
| Scores.StatusIsTitled | ncaa-wrestling-app/etl/transformers/scores.py:94 | every status is the title-cased form of a normalised non-blank state with the same status |
| Scores.ClassifyIdempotent | ncaa-wrestling-app/etl/transformers/scores.py:85-94 | classifying a status again leaves it unchanged |
| Scores.MonthField | ncaa-wrestling-app/etl/transformers/scores.py:102 | `%m` reads a month from 1 to 12 |
| Scores.DayField | ncaa-wrestling-app/etl/transformers/scores.py:102 | `%d` reads a day from 1 to 31 |
| Scores.YearField | ncaa-wrestling-app/etl/transformers/scores.py:102 | `%Y` reads a year of at most four digits |
| Scores.StrptimeMdy | ncaa-wrestling-app/etl/transformers/scores.py:102 | what parses is a valid date in years 1 to 9999 |
| Scores.ParseDate | ncaa-wrestling-app/etl/transformers/scores.py:97-105 | a falsy date gives `""`; a parsed date gives an ISO text that reads back as the same date; anything else is returned unchanged |
| Scores.MdyRoundTrip | ncaa-wrestling-app/etl/transformers/scores.py:102 | every valid date written `MM-DD-YYYY` reads back as itself |
| Scores.ParseDateToIso | ncaa-wrestling-app/etl/transformers/scores.py:97-103 | `MM-DD-YYYY` becomes the ISO text of the same date |
| Scores.IsoIsNotMdy | ncaa-wrestling-app/etl/transformers/scores.py:102-105 | an ISO date does not parse as `MM-DD-YYYY` |
| Scores.ParseDateIdempotent | ncaa-wrestling-app/etl/transformers/scores.py:97-105 | parsing a parsed date changes nothing |
| Scores.GetConference | ncaa-wrestling-app/etl/transformers/scores.py:108-112 | the first conference's `conferenceName`; `""` when `conferences` is absent or falsy, or when the first conference has no `conferenceName` |
| Scores.EmptyScoreboard | ncaa-wrestling-app/etl/transformers/scores.py:122-127 | no rows and exactly the 11 distinct columns game_id, game_state, start_date, start_time, network, away_team, away_score, away_rank, home_team, home_score, home_rank, each also a column of a populated row |
| Scores.ReadGame | ncaa-wrestling-app/etl/transformers/scores.py:43-78 | the row of one game: each field read with `game.get` and its default, `startDate` through ParseDate, and each side's names, score, rank, record, winner flag and conference |
| Scores.ReadEntry | ncaa-wrestling-app/etl/transformers/scores.py:41-42 | the row of one `games` entry is the row of the game under `game`, or of the entry itself; WrappedGameSameRow states that both forms give the same row |
| Scores.Unwrap | ncaa-wrestling-app/etl/transformers/scores.py:42 | the value under `game` when present, else the entry itself |
| Scores.WrappedGameSameRow | ncaa-wrestling-app/etl/transformers/scores.py:42 | a game wrapped under `game` and the bare game give the same row |
| Scores.SideNumbers | ncaa-wrestling-app/etl/transformers/scores.py:64-65 | a missing or blank score is missing; the text of an integer score or rank is that integer |
| Scores.TransformScoreboard | ncaa-wrestling-app/etl/transformers/scores.py:8-82 | a missing response or `games` key gives the 11-column empty frame; an empty `games` gives no rows and no columns; otherwise the 27 columns and one row per entry, in order |
| Schedules.EmptySchedule | ncaa-wrestling-app/etl/transformers/schedules.py:79-84 | no rows and exactly the 14 distinct columns game_id, date, start_time, away_team, away_rank, home_team, home_rank, network, location, status, away_score, home_score, title, url: a built row's columns without `start_time_epoch` |
| Schedules.ToTimestamp | ncaa-wrestling-app/etl/transformers/schedules.py:47 | a parsed date is valid and within the pandas timestamp range |
| Schedules.ToTimestampIso | ncaa-wrestling-app/etl/transformers/schedules.py:47 | the ISO text of a date in range reads back as that date |
| Schedules.ReadGame | ncaa-wrestling-app/etl/transformers/schedules.py:20-44 | the row of one game: `_fetch_date` as its date, the short names, ranks and scores of both sides through `_safe_int`, an empty location and the status of `gameState` (default `pre`); ReadGameBuilt, MissingStateUpcoming and FetchDateRead state its fields |
| Schedules.MissingStateUpcoming | ncaa-wrestling-app/etl/transformers/schedules.py:26-39 | a game without `gameState` is upcoming |
| Schedules.FetchDateRead | ncaa-wrestling-app/etl/transformers/schedules.py:30-47 | the date is missing without `_fetch_date`, and is the fetch date when that is an ISO date in range |
| Schedules.Rows | ncaa-wrestling-app/etl/transformers/schedules.py:19-44 | one row per game |
| Schedules.ReadGameBuilt | ncaa-wrestling-app/etl/transformers/schedules.py:28-44 | each row has an empty location, a non-empty status and a valid date or none |
| Schedules.RowsBuilt | ncaa-wrestling-app/etl/transformers/schedules.py:19-44 | every row built has an empty location, a non-empty status and a valid date or none |
| Schedules.Schedule | ncaa-wrestling-app/etl/transformers/schedules.py:10-49 | no games give the empty schedule; otherwise one row per game, a permutation of the rows built, sorted by date with missing dates last |
| Schedules.ReadGames | ncaa-wrestling-app/etl/transformers/schedules.py:19-44 | the loop builds exactly the rows of the games, in order |
| Schedules.BuildSchedule | ncaa-wrestling-app/etl/transformers/schedules.py:10-49 | returns the schedule of the games |
| Schedules.UpcomingSchedule | ncaa-wrestling-app/etl/transformers/schedules.py:52-58 | an empty frame is returned as it is; otherwise exactly the rows dated today or later, each as often as before |
| Schedules.UpcomingStaysSorted | ncaa-wrestling-app/etl/transformers/schedules.py:57-58 | a schedule sorted by date stays sorted |
| Schedules.UpcomingAfterPast | ncaa-wrestling-app/etl/transformers/schedules.py:57-58 | every dated row dropped is earlier than every row kept |
| Schedules.FinalSince | ncaa-wrestling-app/etl/transformers/schedules.py:65-66 | the mask of `get_recent_results`: status Final and dated on or after the cutoff; RecentWithinWindow states that every result meets it |
| Schedules.RecentResults | ncaa-wrestling-app/etl/transformers/schedules.py:61-67 | an empty frame is returned as it is; otherwise exactly the final games since today minus `days_back`, sorted by date descending |
| Schedules.RecentWithinWindow | ncaa-wrestling-app/etl/transformers/schedules.py:65-67 | every recent result is a final game of the schedule dated within the window |
| Teams.CanonicalColumn | ncaa-wrestling-app/etl/transformers/teams.py:17-39 | the name of a header: the standard name when its stripped lower-case form is an alias, else that form with blanks turned into `_` and dots dropped; the Canonical lemmas state its properties |
| Teams.CanonicalIgnoresCase | ncaa-wrestling-app/etl/transformers/teams.py:19 | headers equal up to case get the same column name |
| Teams.CanonicalIgnoresPadding | ncaa-wrestling-app/etl/transformers/teams.py:19 | whitespace around a header does not change its column name |
| Teams.AliasesHitTargets | ncaa-wrestling-app/etl/transformers/teams.py:20-37 | every alias maps to one of the nine standard columns |
| Teams.CanonicalShape | ncaa-wrestling-app/etl/transformers/teams.py:19-39 | every column name is lower case without spaces or dots |
| Teams.CanonicalFixedPoint | ncaa-wrestling-app/etl/transformers/teams.py:38-39 | a clean name that is not an alias of another column is kept |
| Teams.CanonicalTargetsFixed | ncaa-wrestling-app/etl/transformers/teams.py:20-37 | the standard columns name themselves |
| Teams.BuildColumnMap | ncaa-wrestling-app/etl/transformers/teams.py:17-39 | the loop maps every column to its canonical name |
| Teams.CoerceColumns | ncaa-wrestling-app/etl/transformers/teams.py:44-46 | the columns and row count are unchanged |
| Teams.CoercedCell | ncaa-wrestling-app/etl/transformers/teams.py:44-46 | a listed column's cell is converted to a number, any other cell is unchanged |
| Teams.CoerceNumeric | ncaa-wrestling-app/etl/transformers/teams.py:44-46 | the loop converts exactly the listed columns present |
| Teams.PctToNumeric | ncaa-wrestling-app/etl/transformers/teams.py:48-49 | a win percentage becomes a number or missing |
| Teams.DecimalToNumeric | ncaa-wrestling-app/etl/transformers/teams.py:46 | the text of an integer becomes that number |
| Teams.PctIgnoresSign | ncaa-wrestling-app/etl/transformers/teams.py:48-49 | for any text without `%`, the text and the text followed by `%` both convert as `pd.to_numeric` reads the text, so `"91.7%"` reads as `"91.7"` |
| Teams.PctReadsPercent | ncaa-wrestling-app/etl/transformers/teams.py:49 | `"n%"`, `"n"` and the integer n all become n |
| Teams.CoercedStats | ncaa-wrestling-app/etl/transformers/teams.py:41-49 | the converted frame has one row per raw row |
| Teams.TeamStats | ncaa-wrestling-app/etl/transformers/teams.py:6-54 | what `transform_team_stats` returns: the five default columns for no rows, else the renamed and converted frame, sorted by rank when it has a rank column; StatsFrameEmpty and StatsFrameShape state it |
| Teams.TransformTeamStats | ncaa-wrestling-app/etl/transformers/teams.py:6-54 | returns the team-stats frame of the raw rows |
| Teams.StatsFrameEmpty | ncaa-wrestling-app/etl/transformers/teams.py:11-12 | no raw rows give no rows and the columns rank, team, wins, losses, win_pct |
| Teams.StatsFrameShape | ncaa-wrestling-app/etl/transformers/teams.py:14-54 | one row per raw row, each column renamed to its canonical name, sorted by rank when there is a rank column, and a permutation of the converted rows; without a rank column, exactly the converted rows in input order |
| Teams.CanonicalisedCell | ncaa-wrestling-app/etl/transformers/teams.py:14-41 | each raw cell sits under its header's canonical name |
| Teams.WinPctNotCounted | ncaa-wrestling-app/etl/transformers/teams.py:44 | `win_pct` is not among the plain numeric columns |
| Teams.ConvertedCell | ncaa-wrestling-app/etl/transformers/teams.py:44-49 | numeric columns are converted, `win_pct` goes through the percent reader, other cells stay |
| Teams.CoercedStatsCell | ncaa-wrestling-app/etl/transformers/teams.py:41-49 | each converted cell is the raw cell as read for its column |
| Teams.CoercedStatsNumeric | ncaa-wrestling-app/etl/transformers/teams.py:44-49 | numeric and percentage cells hold a number or nothing |
| Teams.StatsFrameNumeric | ncaa-wrestling-app/etl/transformers/teams.py:44-52 | after sorting, numeric and percentage cells still hold a number or nothing |
| Teams.CleanKey | ncaa-wrestling-app/etl/transformers/teams.py:82 | a standings key stripped, lower-cased and with blanks turned into `_` |
| Teams.ConferenceRow | ncaa-wrestling-app/etl/transformers/teams.py:80 | the row starts as a well-formed dict |
| Teams.CopyKeysValid | ncaa-wrestling-app/etl/transformers/teams.py:81-83 | copying keys keeps the row a well-formed dict |
| Teams.CopyKeysPrefix | ncaa-wrestling-app/etl/transformers/teams.py:80-83 | keys already in the row keep their places at the front |
| Teams.CopyKeysHas | ncaa-wrestling-app/etl/transformers/teams.py:81-83 | every copied key is present under its cleaned name |
| Teams.CopyKeysOnly | ncaa-wrestling-app/etl/transformers/teams.py:81-83 | no other key appears |
| Teams.CopyKeysLastWins | ncaa-wrestling-app/etl/transformers/teams.py:81-83 | when two keys clean to the same name, the later value wins |
| Teams.CopyKeysKeeps | ncaa-wrestling-app/etl/transformers/teams.py:80-83 | a row key that no team key cleans to keeps its value |
| Teams.TeamRow | ncaa-wrestling-app/etl/transformers/teams.py:79-84 | the row of one team: `{"conference": conference}`, then every key of the entry under its cleaned name, a later key overwriting an earlier one; the CopyKeys lemmas and TeamRowConference state its keys and values |
| Teams.TeamRowStartsWithConference | ncaa-wrestling-app/etl/transformers/teams.py:80 | `conference` is the first column of every team row |
| Teams.TeamRows | ncaa-wrestling-app/etl/transformers/teams.py:79-84 | one row per team of a block |
| Teams.AllRowsCount | ncaa-wrestling-app/etl/transformers/teams.py:77-84 | one row per team per conference block |
| Teams.BuildTeamRow | ncaa-wrestling-app/etl/transformers/teams.py:80-83 | the inner loop builds the team's row |
| Teams.AppendTeamRows | ncaa-wrestling-app/etl/transformers/teams.py:79-84 | the middle loop appends one row per team, in order |
| Teams.CollectStandingRows | ncaa-wrestling-app/etl/transformers/teams.py:76-84 | the outer loop collects the rows of all blocks, in order |
| Teams.Standings | ncaa-wrestling-app/etl/transformers/teams.py:57-108 | what `transform_standings` returns: the six-column schema when `data` is missing or lists no team, else the collected rows with the columns renamed and the four record columns converted; the Standings lemmas state it |
| Teams.TransformStandings | ncaa-wrestling-app/etl/transformers/teams.py:57-108 | returns the standings frame of the response |
| Teams.ConferenceOf | ncaa-wrestling-app/etl/transformers/teams.py:78 | the block's `conference` when it has one, else `"Unknown"` |
| Teams.TeamRowConference | ncaa-wrestling-app/etl/transformers/teams.py:80-83 | a team row holds the conference it was built for when no key of the entry cleans to `conference` |
| Teams.Conferences | ncaa-wrestling-app/etl/transformers/teams.py:77-84 | the reference list of row conferences: each block's conference once per listed team, one entry per team |
| Teams.TeamRowsConference | ncaa-wrestling-app/etl/transformers/teams.py:79-84 | every row of a block holds that block's conference |
| Teams.AllRowsConference | ncaa-wrestling-app/etl/transformers/teams.py:76-84 | the i-th collected row holds the conference of the block its team came from, `conf_block.get("conference", "Unknown")` |
| Teams.RenamedConference | ncaa-wrestling-app/etl/transformers/teams.py:90-106 | renaming and the numeric conversion keep the `conference` column and its cells |
| Teams.StandingsConference | ncaa-wrestling-app/etl/transformers/teams.py:76-108 | in the returned frame, row i's `conference` cell is the conference of the block its team came from |
| Teams.TeamRowsHaveConference | ncaa-wrestling-app/etl/transformers/teams.py:79-84 | every team row of a block has a conference |
| Teams.AllRowsHaveConference | ncaa-wrestling-app/etl/transformers/teams.py:76-84 | every standings row has a conference |
| Teams.CollectedEmpty | ncaa-wrestling-app/etl/transformers/teams.py:86-88 | the collected frame is empty exactly when no block lists a team |
| Teams.StandingsEmpty | ncaa-wrestling-app/etl/transformers/teams.py:73-88 | there are no rows exactly when `data` is missing or lists no team, and then the six-column empty schema is returned |
| Teams.StandingsCount | ncaa-wrestling-app/etl/transformers/teams.py:76-86 | one row per team per conference block |
| Teams.StandingsNumeric | ncaa-wrestling-app/etl/transformers/teams.py:104-106 | win and loss columns hold a number or nothing |
| Teams.TransformSchools | ncaa-wrestling-app/etl/transformers/teams.py:111-121 | an empty list gives the columns slug, name, full_name; otherwise one row per school |
| Teams.SchoolsNoLong | ncaa-wrestling-app/etl/transformers/teams.py:120 | no `long` column is left |
| Teams.SchoolsCells | ncaa-wrestling-app/etl/transformers/teams.py:119-120 | every value sits under its renamed column |
| NcaaApi.TrimSlashes | ncaa-wrestling-app/etl/ncaa_api.py:27 | `rstrip("/")`: a prefix of the input that does not end in `/`, with only slashes removed |
| NcaaApi.TrimSlashesIdempotent | ncaa-wrestling-app/etl/ncaa_api.py:27 | trimming twice is trimming once |
| NcaaApi.ScoreboardPath | ncaa-wrestling-app/etl/ncaa_api.py:61-62 | `/scoreboard/wrestling/d1/{year}/{MM}/{DD}/{conference}` of a date; ScoreboardPathParts states its segments |
| NcaaApi.ScoreboardPathParts | ncaa-wrestling-app/etl/ncaa_api.py:61-62 | the path's segments are scoreboard, wrestling, d1, the year, the two-digit month, the two-digit day and the conference, and each number reads back |
| NcaaApi.TagAll | ncaa-wrestling-app/etl/ncaa_api.py:72-75 | one tagged game per entry |
| NcaaApi.Days | ncaa-wrestling-app/etl/ncaa_api.py:67-76 | the dates visited are valid, as many as asked |
| NcaaApi.DaysConsecutive | ncaa-wrestling-app/etl/ncaa_api.py:68-76 | the k-th date visited is k days after the start |
| NcaaApi.DaysEndOnEnd | ncaa-wrestling-app/etl/ncaa_api.py:69 | the last date visited is the end date |
| NcaaApi.DayGamesTagged | ncaa-wrestling-app/etl/ncaa_api.py:72-75 | each game of a day is the unwrapped game with `_fetch_date` set to the day's ISO date |
| NcaaApi.TagAllAt | ncaa-wrestling-app/etl/ncaa_api.py:72-75 | the i-th tagged game is the i-th entry tagged |
| NcaaApi.DayWithoutGames | ncaa-wrestling-app/etl/ncaa_api.py:71 | a falsy day, or one without `games`, contributes nothing |
| NcaaApi.MergedPages | ncaa-wrestling-app/etl/ncaa_api.py:114-125 | what `get_all_team_stats` returns: nothing when the first page fails, else its `data` followed by that of pages 2 to `pages`, a failed page adding nothing; GetAllPages is proved to return it |
| NcaaApi.PagesSplit | ncaa-wrestling-app/etl/ncaa_api.py:121-124 | the pages are merged in order: a run of pages is its first part followed by the rest |
| NcaaApi.FailedPageSkipped | ncaa-wrestling-app/etl/ncaa_api.py:122-124 | a failed page contributes nothing |
| NcaaApi.PagesOrigin | ncaa-wrestling-app/etl/ncaa_api.py:119-124 | every merged row comes from a page that answered |
| NcaaApi.MergedPagesEdges | ncaa-wrestling-app/etl/ncaa_api.py:116-120 | a falsy first page gives nothing; a single page gives its own data |
| NcaaApi.Client.constructor | ncaa-wrestling-app/etl/ncaa_api.py:26-29 | the base URL is stored without trailing slashes |
| NcaaApi.Client.RangeEmpty | ncaa-wrestling-app/etl/ncaa_api.py:69 | a range that starts after it ends returns no games |
| NcaaApi.Client.GamesOnAppend | ncaa-wrestling-app/etl/ncaa_api.py:67-77 | the games of two runs of days are those of the first followed by those of the second |
| NcaaApi.Client.GamesOnCount | ncaa-wrestling-app/etl/ncaa_api.py:67-77 | the number of games is the sum of the days' game counts |
| NcaaApi.Client.AppendDay | ncaa-wrestling-app/etl/ncaa_api.py:70-75 | the inner loop appends the day's tagged games, in order |
| NcaaApi.Client.GetScoreboard | ncaa-wrestling-app/etl/ncaa_api.py:56-63 | `get_scoreboard`: the response to the scoreboard path of the given date, or of today when none is given |
| NcaaApi.Client.ScoreboardRange | ncaa-wrestling-app/etl/ncaa_api.py:65-77 | what `get_scoreboard_range` returns: the tagged games of each day from start to end, day after day; GetScoreboardRange is proved to return it |
| NcaaApi.Client.GetScoreboardRange | ncaa-wrestling-app/etl/ncaa_api.py:65-77 | the while loop returns the games of every day from start to end, day by day |
| NcaaApi.Client.GetAllPages | ncaa-wrestling-app/etl/ncaa_api.py:114-125 | the loop returns the first page's data followed by pages 2 to `pages`, skipping failed ones |
| NcaaApi.Client.GetAllTeamStats | ncaa-wrestling-app/etl/ncaa_api.py:114-125 | the merged pages of the team-stat listing |
| NcaaApi.Client.GetAllIndividualStats | ncaa-wrestling-app/etl/ncaa_api.py:136-147 | the merged pages of the individual-stat listing |
| NcaaApi.Client.GetSchools | ncaa-wrestling-app/etl/ncaa_api.py:153-159 | the response when it is a list, else nothing |
| SiteRankings.Column | clinical-control-tower/models/train_models.py:148-155 | one value per site |
| SiteRankings.MinMaxBounds | clinical-control-tower/models/train_models.py:142 | the minimum and maximum are values of the column and bound all of it |
| SiteRankings.MinMaxScale | clinical-control-tower/models/train_models.py:141-145 | one scaled value per site |
| SiteRankings.RescaleFacts | clinical-control-tower/models/train_models.py:145 | rescaling maps the range into [0, 1], the minimum to 0, the maximum to 1, and keeps order both ways |
| SiteRankings.ConstantIffFlat | clinical-control-tower/models/train_models.py:143 | the column is constant exactly when its minimum equals its maximum |
| SiteRankings.ScaleRange | clinical-control-tower/models/train_models.py:141-145 | scaled values lie in [0, 1], and a constant column scales to 0.5 everywhere |
| SiteRankings.ScaleEndpoints | clinical-control-tower/models/train_models.py:145 | the minimum scales to 0 and the maximum to 1 |
| SiteRankings.ScaleOrder | clinical-control-tower/models/train_models.py:145 | scaling keeps order, and for a column that is not constant it reflects order too |
| SiteRankings.ScoreColumn | clinical-control-tower/models/train_models.py:148-155 | one score per site |
| SiteRankings.Invert | clinical-control-tower/models/train_models.py:152-155 | one inverted value per site |
| SiteRankings.ScoreRange | clinical-control-tower/models/train_models.py:148-155 | every metric score lies in [0, 1] |
| SiteRankings.ScoreOrder | clinical-control-tower/models/train_models.py:151-155 | a higher raw value gives a score at least as high, except for the metrics where lower is better, where it gives one at most as high |
| SiteRankings.ScoreIgnoresStudy | clinical-control-tower/models/train_models.py:148-155 | the scores depend only on the metric values of all sites, not on studies |
| SiteRankings.WeightsSumToOne | clinical-control-tower/models/train_models.py:158-165 | six non-negative weights that sum to exactly 1 |
| SiteRankings.WeightedSumRange | clinical-control-tower/models/train_models.py:167-169 | a weighted sum of scores in [0, 1] lies between 0 and the sum of the weights |
| SiteRankings.WeightedSumMonotone | clinical-control-tower/models/train_models.py:167-169 | higher scores give a weighted sum at least as high |
| SiteRankings.SubScores | clinical-control-tower/models/train_models.py:167-168 | one score per metric |
| SiteRankings.SubScoresRange | clinical-control-tower/models/train_models.py:148-155 | every sub-score lies in [0, 1] |
| SiteRankings.Composite | clinical-control-tower/models/train_models.py:158-169 | `composite_rank_score`: the six sub-scores weighted by the weights of lines 158-165; CompositeRange and CompositeMonotone state its range and order |
| SiteRankings.CompositeRange | clinical-control-tower/models/train_models.py:158-169 | the composite score lies in [0, 1] |
| SiteRankings.CompositeMonotone | clinical-control-tower/models/train_models.py:167-169 | a site at least as good on every metric has a composite at least as high |
| SiteRankings.CompetitionRank | clinical-control-tower/models/train_models.py:172-174 | `rank(ascending=False, method="min")` within the study: one more than the number of the study's sites scoring higher; RankRange and RankSkipsTies state it |
| SiteRankings.RankRange | clinical-control-tower/models/train_models.py:172-174 | a rank lies between 1 and the study's site count, and is 1 exactly for a top score of the study |
| SiteRankings.RankSkipsTies | clinical-control-tower/models/train_models.py:172-174 | ties share a rank; a lower score ranks at least the tie count further down, exactly that far when no score lies in between |
| SiteRankings.TierOf | clinical-control-tower/models/train_models.py:177-181 | `pd.cut` with bins 0, .35, .55, .75, 1: no tier at or below 0 or above 1, else the first bin whose right edge the score reaches; TierBins and TierMonotone state it |
| SiteRankings.TierBins | clinical-control-tower/models/train_models.py:177-181 | right-closed bins (0, .35], (.35, .55], (.55, .75], (.75, 1]; no tier outside (0, 1] |
| SiteRankings.TierMonotone | clinical-control-tower/models/train_models.py:177-181 | a higher score in (0, 1] gets a tier at least as high |
| SiteRankings.Entries | clinical-control-tower/models/train_models.py:172 | one (study, composite) pair per site |
| SiteRankings.RankedSites | clinical-control-tower/models/train_models.py:183-188 | one ranking row per site |
| SiteRankings.MakeRankingConsistent | clinical-control-tower/models/train_models.py:183-188 | a row of scores in [0, 1] and a positive rank has its tier from its composite, and no tier only for a zero composite |
| SiteRankings.RankedSiteConsistent | clinical-control-tower/models/train_models.py:148-188 | every ranking row is consistent, and its rank is at most its study's site count |
| SiteRankings.StudyThenRankPreorder | clinical-control-tower/models/train_models.py:190-192 | ordering by study, then rank, is a total preorder |
| SiteRankings.ColumnsHoldSubScores | clinical-control-tower/models/train_models.py:148-168 | the six score columns, read at a site, are its sub-scores |
| SiteRankings.ComputeSiteRankings | clinical-control-tower/models/train_models.py:132-192 | a permutation of the ranked rows, sorted by study then rank, every row consistent |
| EnrollmentForecast.StudyRows | clinical-control-tower/app/utils/data_loader.py:92 | exactly the rows of the study |
| EnrollmentForecast.SortByWeek | clinical-control-tower/app/utils/data_loader.py:92 | the same rows, sorted by week |
| EnrollmentForecast.LatestObservation | clinical-control-tower/app/utils/data_loader.py:97 | the last row is one of the study's rows with the latest week |
| EnrollmentForecast.Denominator | clinical-control-tower/app/utils/data_loader.py:105 | `max(1, target)`: at least 1 and at least the target, and one of the two |
| EnrollmentForecast.FeatureRatios | clinical-control-tower/app/utils/data_loader.py:104-111 | the regressor sees the week, the running total and the target; scaled back by `max(1, target)`, the ratios give the running total and its gap to the last observed planned total |
| EnrollmentForecast.Predicted | clinical-control-tower/app/utils/data_loader.py:112 | the prediction is at least 0 and at least the regressor's value |
| EnrollmentForecast.Clamp | clinical-control-tower/app/utils/data_loader.py:113 | the new total is at most the target, at most the old total plus the prediction, and one of the two |
| EnrollmentForecast.CumulativeAfter | clinical-control-tower/app/utils/data_loader.py:99-113 | the running total after k forecast weeks: the observed total, then each week the previous total plus the prediction, capped by the target; the Cumulative lemmas state it |
| EnrollmentForecast.RowAt | clinical-control-tower/app/utils/data_loader.py:103-124 | the row of forecast week w: the study, week `last_week + w`, the date w weeks on, the prediction, the capped running total, the target and the forecast flag; RowFields states it |
| EnrollmentForecast.ForecastWeek | clinical-control-tower/app/utils/data_loader.py:103-124 | one pass of the loop builds week w's row and leaves the running total after w weeks |
| EnrollmentForecast.ForecastFrom | clinical-control-tower/app/utils/data_loader.py:102-124 | the loop builds the rows of weeks 1 to `weeks_ahead`, in order |
| EnrollmentForecast.ForecastEnrollment | clinical-control-tower/app/utils/data_loader.py:88-126 | an empty frame when the study has no rows or there is no model; otherwise one row per coming week, counted from the latest observation |
| EnrollmentForecast.RowFields | clinical-control-tower/app/utils/data_loader.py:104-124 | row w is week `last_week + w`, dated w weeks after the last observation, for the same study and target, marked as a forecast, with a prediction of at least 0 |
| EnrollmentForecast.CumulativeCapped | clinical-control-tower/app/utils/data_loader.py:113 | after a forecast week the running total is at most the target |
| EnrollmentForecast.CumulativeStep | clinical-control-tower/app/utils/data_loader.py:113 | from one forecast week to the next the running total does not fall |
| EnrollmentForecast.CumulativeMonotone | clinical-control-tower/app/utils/data_loader.py:113 | across forecast weeks the running total does not fall |
| EnrollmentForecast.CumulativeStart | clinical-control-tower/app/utils/data_loader.py:113 | the first week does not fall below an observed total within the target |
| EnrollmentForecast.RowsCumulative | clinical-control-tower/app/utils/data_loader.py:113-121 | row i's forecast is the running total after i + 1 weeks |
| EnrollmentForecast.ForecastOrdered | clinical-control-tower/app/utils/data_loader.py:113-121 | the forecast column is capped by the target and non-decreasing down the rows |
| EnrollmentForecast.ForecastWeeks | clinical-control-tower/app/utils/data_loader.py:102-119 | the weeks are last_week + 1, + 2, … and consecutive rows are seven days apart |
| ValueBoxes.ThemeClass | ncaa-wrestling-app/app/components/value_boxes.py:8-18 | a known theme gets its own entry of the theme table (`secondary` gets `bg-warning`), any other theme `bg-primary`, and `bg-primary` comes exactly from `primary` and unknown themes |
| ValueBoxes.ThemeClassInjective | ncaa-wrestling-app/app/components/value_boxes.py:8-14 | distinct known themes get distinct classes |
| ValueBoxes.StatValueBox | ncaa-wrestling-app/app/components/value_boxes.py:6-19 | the title, the theme's class, and the value as text that reads back as the integer given |
| ValueBoxes.ReadDecimal | ncaa-wrestling-app/app/components/value_boxes.py:25-27 | the number shown reads back as the integer written |
| ValueBoxes.MovementIndicator | ncaa-wrestling-app/app/components/value_boxes.py:22-29 | `movement_indicator`: the up arrow and the rise, the down arrow and `abs(movement)`, or the dash; the Movement lemmas state that it reads back as the movement |
| ValueBoxes.MovementUp | ncaa-wrestling-app/app/components/value_boxes.py:24-25 | a rise shows the up arrow and reads back as the rise |
| ValueBoxes.MovementDown | ncaa-wrestling-app/app/components/value_boxes.py:26-27 | a fall shows the down arrow with its size and reads back as the fall |
| ValueBoxes.MovementSame | ncaa-wrestling-app/app/components/value_boxes.py:28-29 | no movement shows the dash and reads back as 0 |
| ValueBoxes.MovementRoundTrip | ncaa-wrestling-app/app/components/value_boxes.py:22-29 | the indicator reads back as the movement, so distinct movements look different |
| ValueBoxes.MovementDirection | ncaa-wrestling-app/app/components/value_boxes.py:24-29 | up arrow exactly for a rise, down arrow exactly for a fall, dash exactly for none |
| ValueBoxes.RankBadge | ncaa-wrestling-app/app/components/value_boxes.py:32-42 | `rank_badge_html`: `""` for a missing rank, else a span of the rank's class showing the rank; BadgeRoundTrip states that it reads back |
| ValueBoxes.BadgeReach | ncaa-wrestling-app/app/components/value_boxes.py:36-41 | a rank within 25 gets the smallest class reaching it, and a better rank never gets a wider class |
| ValueBoxes.ReadBadgeOf | ncaa-wrestling-app/app/components/value_boxes.py:42 | a badge reads back as its class and its text |
| ValueBoxes.BadgeRoundTrip | ncaa-wrestling-app/app/components/value_boxes.py:32-42 | a missing rank gives `""` and only it does; a badge reads back as the rank's class and the rank |

## Left out

- HTTP and timing. `_get` becomes a `Fetcher` function from path and page to JSON, with `JNull` standing for a failed request. `_throttle`, `_last_request_time`, the timeout and logging are not modelled. The endpoints that only forward to `_get` (`get_rankings`, `get_standings`, the game detail calls) are not modelled.
- Python raising on malformed input. Where a response would make Python raise (a `games` entry that is not a dict, a `pages` value that is not an integer), the model excludes that input with a shape precondition instead of modelling the exception.
- Responses the API never sends. Some shape preconditions also exclude inputs that the source would accept without raising:
  - `Schedules.GameShape` requires `_fetch_date` to be a string, where `pd.to_datetime(errors="coerce")` would turn any other value into `NaT` (schedules.py:30, 47); the client always writes an ISO date there;
  - `NcaaApi.ScoreboardShape` requires a scoreboard response to be `None` or a dict, where the client skips a list or a string that does not contain `"games"` (the test at ncaa_api.py:71 is false) and raises `TypeError` at `data["games"]` on one that does (ncaa_api.py:72);
  - `NcaaApi.PageShape` requires a page's `data` to be a list, where `list(...)` would also accept a dict (its keys) or a string (its characters) (ncaa_api.py:119, 124).
  - Likewise `Rankings.RankingsShape`, `Scores.ScoreboardShape`, `Teams.StandingsShape`, `Teams.BlockShape` and `NcaaApi.ScoreboardShape` require `data`, `games` or `standings` to be a list. An empty dict or an empty string there would be iterated zero times and give the empty frame or no games (rankings.py:29, scores.py:41, teams.py:77-79, ncaa_api.py:72).
- Aliasing in `get_scoreboard_range`. It writes `_fetch_date` into the response's own game dicts. The model returns new tagged values, so the mutation of the caller's response is not captured.
- Dates outside years 1 to 9999. Python raises `OverflowError` there, and the model's dates are unbounded. `date.today()` and `datetime.now()` are parameters.
- `pd.to_datetime`. It is modelled only for ISO dates inside the `Timestamp` range; its other accepted formats are not modelled.
- `int()` and `str` methods. `int()` is modelled over optional ASCII whitespace, an optional sign and ASCII digits, without underscores or non-ASCII digits. `lower`, `title` and `strip` are ASCII-only, and `strip` removes space, tab, newline, vertical tab, form feed and carriage return but not the separators `\x1c` to `\x1f`.
- Tables.ToNumeric: reads signed decimal numerals only. Exponent notation (`"1e3"`), `"inf"`, `"infinity"` and `"nan"`, which `pd.to_numeric` also reads, come out missing here.
- Teams.AllRowsConference, Teams.TeamRowsConference, Teams.StandingsConference: the conference value is stated only for entries none of whose keys cleans to `conference`. An entry with such a key overwrites the conference in its row, which `Teams.CopyKeysLastWins` states.
- Default arguments: `days_back=7`, `weeks_ahead=12`, `stat_id=170` for team stats and `171` for individual stats, `conference="all-conf"` and `poll="current"`. The model takes every argument explicitly; only the scoreboard range walk uses `all-conf`.
- Booleans passed to `pd.to_numeric` are not modelled, and nor are floats in JSON: the API sends numbers as strings.
- Header collisions. Two columns renamed to the same name, which pandas would keep as duplicate columns, are excluded by a precondition.
- Tie order in `sort_values`. The sort is only claimed to give a sorted permutation, since pandas does not promise stability.
- Floating point. Site scores and forecast ratios are `real`, so float rounding is not modelled. In floats, the composite could exceed 1.0 by rounding and then get no tier.
- `compute_site_rankings`'s CSV read, CSV write and JSON dump are left out: they are file I/O. Its summary dict, the second value it returns, is not modelled either: it only counts, averages and timestamps the ranked frame.
- Model training is left out.
- The regressor. `model.predict` followed by `int()` is a function from the feature record to an integer. The sine and cosine of the week are functions of the week, so they are left to that function.
- Loading the time series and the model is left out. They are parameters, with `None` for a missing model.
- `ui.value_box` is represented by the record of what it is given. Its HTML is not modelled.
