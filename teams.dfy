/**
 * The team transformers: the team statistics table (with the column headers
 * the NCAA site uses brought to one spelling), the conference standings
 * flattened to one row per team, and the schools index.
 */
module Teams {
  import opened Wrappers
  import opened Text
  import opened Json
  import opened Sorting
  import opened Tables

  // ---------------------------------------------------------------------------
  // Column names of the team statistics
  // ---------------------------------------------------------------------------

  /** The columns of the statistics frame when there is nothing to transform. */
  const EmptyStatColumns: seq<string> := ["rank", "team", "wins", "losses", "win_pct"]

  /** The statistics columns read as numbers, in the order they are converted. */
  const NumericStatColumns: seq<string> :=
    ["rank", "wins", "losses", "games", "falls", "tech_falls", "major_decisions"]

  /** The header spellings with a fixed name, by their stripped lower-case
      form. */
  function Aliases(): map<string, string> {
    map[
    "rank" := "rank", "#" := "rank",
    "team" := "team", "school" := "team", "name" := "team",
    "w" := "wins", "wins" := "wins",
    "l" := "losses", "losses" := "losses",
    "pct" := "win_pct", "win pct" := "win_pct", "winning percentage" := "win_pct",
    "g" := "games", "gp" := "games", "games" := "games",
    "falls" := "falls",
    "tech falls" := "tech_falls", "tf" := "tech_falls",
    "maj. dec." := "major_decisions", "major decisions" := "major_decisions", "md" := "major_decisions"]
  }

  /** The name a statistics header is given: its fixed name when it has one,
      otherwise its stripped lower-case form with blanks turned into `_` and
      dots dropped. */
  function CanonicalColumn(col: string): string {
    var lower := Lower(Strip(col));
    if lower in Aliases() then Aliases()[lower] else RemoveAll(ReplaceAll(lower, ' ', '_'), '.')
  }

  /** Headers that differ only in case get the same name. */
  lemma {:induction false} CanonicalIgnoresCase(a: string, b: string)
    requires Lower(a) == Lower(b)
    ensures CanonicalColumn(a) == CanonicalColumn(b)
  {
    StripUpToCase(a, b);
  }

  /** Whitespace around a header does not change its name. */
  lemma {:induction false} CanonicalIgnoresPadding(p: string, s: string, q: string)
    requires AllSpace(p) && AllSpace(q)
    ensures CanonicalColumn(p + s + q) == CanonicalColumn(s)
  {
    StripPadding(p, s, q);
  }

  /** The fixed names. */
  function Targets(): set<string> {
    {"rank", "team", "wins", "losses", "win_pct", "games", "falls", "tech_falls", "major_decisions"}
  }

  /** Every header spelling with a fixed name is given one of the targets. */
  lemma AliasesHitTargets()
    ensures forall k :: k in Aliases() ==> Aliases()[k] in Targets()
  {
  }

  /** Lower-case letters and `_` only. */
  predicate SnakeCase(s: string) {
    forall i :: 0 <= i < |s| ==> IsLower(s[i]) || s[i] == '_'
  }

  lemma TargetsSnakeCase()
    ensures forall v :: v in Targets() ==> SnakeCase(v)
  {
  }

  lemma {:induction false} SnakeCaseClean(v: string)
    requires SnakeCase(v)
    ensures IsLowerCase(v) && ' ' !in v && '.' !in v && Stripped(v)
  {
    assert forall i :: 0 <= i < |v| ==> v[i] != ' ' && v[i] != '.' && !IsSpace(v[i]);
  }

  /** The fixed names are lower-case, hold neither blanks nor dots and have
      no outer whitespace. */
  lemma {:induction false} AliasTargetsClean()
    ensures forall v :: v in Targets() ==> IsLowerCase(v) && ' ' !in v && '.' !in v && Stripped(v)
  {
    TargetsSnakeCase();
    forall v | v in Targets() ensures IsLowerCase(v) && ' ' !in v && '.' !in v && Stripped(v) {
      SnakeCaseClean(v);
    }
  }

  /** A fixed name is its own fixed name when it has one. */
  lemma AliasTargetsStable()
    ensures forall v :: v in Targets() ==> v !in Aliases() || Aliases()[v] == v
  {
  }

  /** Every name given is lower-case and holds neither blanks nor dots. */
  lemma {:induction false} CanonicalShape(col: string)
    ensures var r := CanonicalColumn(col); IsLowerCase(r) && ' ' !in r && '.' !in r
  {
    var lower := Lower(Strip(col));
    if lower in Aliases() {
      AliasesHitTargets();
      AliasTargetsClean();
    } else {
      var replaced := ReplaceAll(lower, ' ', '_');
      var r := RemoveAll(replaced, '.');
      assert IsLowerCase(replaced);
      assert ' ' !in replaced;
      forall i | 0 <= i < |r| ensures !IsUpper(r[i]) {
        assert r[i] in r;
      }
    }
  }

  /** A name that is already clean and has no other fixed name is kept. */
  lemma {:induction false} CanonicalFixedPoint(s: string)
    requires Stripped(s) && IsLowerCase(s) && ' ' !in s && '.' !in s
    requires s !in Aliases() || Aliases()[s] == s
    ensures CanonicalColumn(s) == s
  {
    assert Strip(s) == s;
    LowerFixesLowerCase(s);
    if s !in Aliases() {
      assert ReplaceAll(s, ' ', '_') == s;
      RemoveAbsent(s, '.');
    }
  }

  /** The fixed names are kept when met again. */
  lemma {:induction false} CanonicalTargetsFixed(v: string)
    requires v in Targets()
    ensures CanonicalColumn(v) == v
  {
    AliasTargetsClean();
    AliasTargetsStable();
    CanonicalFixedPoint(v);
  }

  /** `col_map`: every column of the frame with the name `name` gives it. */
  function ColumnMap(columns: seq<string>, name: string -> string): map<string, string> {
    map c | c in columns :: name(c)
  }

  // ---------------------------------------------------------------------------
  // Numeric conversion
  // ---------------------------------------------------------------------------

  /** The frame after `df[c] = pd.to_numeric(df[c], errors="coerce")` for each
      `c` of `cols` that is a column, in order. */
  function CoerceColumns(t: Table, cols: seq<string>): (r: Table)
    requires WellFormed(t)
    ensures WellFormed(r) && r.columns == t.columns && |r.rows| == |t.rows|
    decreases |cols|
  {
    if cols == [] then t
    else MapColumn(CoerceColumns(t, cols[..|cols| - 1]), cols[|cols| - 1], ToNumeric)
  }

  /** After the conversion, a listed column holds the numeric reading of
      what it held and every other column is untouched. */
  lemma {:induction false} CoercedCell(t: Table, cols: seq<string>, i: int, c: string)
    requires WellFormed(t) && 0 <= i < |t.rows| && c in t.columns
    ensures CoerceColumns(t, cols).rows[i][c] == if c in cols then ToNumeric(t.rows[i][c]) else t.rows[i][c]
    decreases |cols|
  {
    if cols != [] {
      var init := cols[..|cols| - 1];
      var last := cols[|cols| - 1];
      assert cols == init + [last];
      CoercedCell(t, init, i, c);
    }
  }

  /** Converts the listed columns one after the other. */
  method CoerceNumeric(t: Table, cols: seq<string>) returns (r: Table)
    requires WellFormed(t)
    ensures r == CoerceColumns(t, cols)
  {
    r := t;
    for i := 0 to |cols|
      invariant r == CoerceColumns(t, cols[..i])
    {
      assert cols[..i + 1][..i] == cols[..i];
      r := MapColumn(r, cols[i], ToNumeric);
    }
    assert cols[..|cols|] == cols;
  }

  /** `pd.to_numeric(x.astype(str).str.replace("%", ""), errors="coerce")`
      for one cell: the text of the cell without its percent signs, read as
      a number. The text of a missing value (`"nan"`), of `None`, of a bool,
      a list or a dict is never a number. */
  function PctToNumeric(c: Cell): (r: Cell)
    ensures NumericOrMissing(r)
  {
    match c
    case Some(VJson(JStr(s))) => ToNumeric(Some(VJson(JStr(RemoveAll(s, '%')))))
    case Some(VJson(JInt(i))) => ToNumeric(Some(VJson(JStr(Decimal(i)))))
    case _ => None
  }

  /** A written-out integer converts to its value. */
  lemma {:induction false} DecimalToNumeric(n: int)
    ensures ToNumeric(Some(VJson(JStr(Decimal(n))))) == Some(VReal(n as real))
  {
    ParseNumberDecimal(n);
  }

  /** `"75%"`, `"75"` and `75` all read as 75. */
  lemma {:induction false} PctReadsPercent(n: int)
    ensures PctToNumeric(Some(VJson(JStr(Decimal(n) + "%")))) == Some(VReal(n as real))
    ensures PctToNumeric(Some(VJson(JStr(Decimal(n))))) == Some(VReal(n as real))
    ensures PctToNumeric(Some(VJson(JInt(n)))) == Some(VReal(n as real))
  {
    PctStripsSign(n);
    PctOfText(n);
    PctOfInteger(n);
  }

  lemma {:induction false} PctStripsSign(n: int)
    ensures PctToNumeric(Some(VJson(JStr(Decimal(n) + "%")))) == Some(VReal(n as real))
  {
    RemoveTrailing(Decimal(n), '%');
    assert Decimal(n) + "%" == Decimal(n) + ['%'];
    DecimalToNumeric(n);
  }

  lemma {:induction false} PctOfText(n: int)
    ensures PctToNumeric(Some(VJson(JStr(Decimal(n))))) == Some(VReal(n as real))
  {
    RemoveAbsent(Decimal(n), '%');
    DecimalToNumeric(n);
  }

  lemma {:induction false} PctOfInteger(n: int)
    ensures PctToNumeric(Some(VJson(JInt(n)))) == Some(VReal(n as real))
  {
    DecimalToNumeric(n);
  }

  /** Whatever the text, one trailing `%` makes no difference: `"91.7%"`
      reads as `"91.7"` does. */
  lemma {:induction false} PctIgnoresSign(t: string)
    requires '%' !in t
    ensures PctToNumeric(Some(VJson(JStr(t + "%")))) == ToNumeric(Some(VJson(JStr(t))))
    ensures PctToNumeric(Some(VJson(JStr(t)))) == ToNumeric(Some(VJson(JStr(t))))
  {
    RemoveTrailing(t, '%');
    assert t + "%" == t + ['%'];
    RemoveAbsent(t, '%');
  }

  // ---------------------------------------------------------------------------
  // transform_team_stats
  // ---------------------------------------------------------------------------

  /** Rows whose headers stay distinct once `name` renames them: pandas
      would otherwise hold two columns under one name. */
  predicate RenamesApart(rawRows: seq<Dict>, name: string -> string) {
    && (forall i :: 0 <= i < |rawRows| ==> ValidDict(rawRows[i]))
    && RenameInjective(FromDicts(rawRows).columns, ColumnMap(FromDicts(rawRows).columns, name))
  }

  /** The rows the transformer accepts. */
  predicate StatsShape(rawRows: seq<Dict>) {
    RenamesApart(rawRows, CanonicalColumn)
  }

  /** The frame of the rows with every header renamed by `name`. */
  function Canonicalised(rawRows: seq<Dict>, name: string -> string): Table
    requires RenamesApart(rawRows, name)
  {
    var df := FromDicts(rawRows);
    Rename(df, ColumnMap(df.columns, name))
  }

  /** The renamed frame with the counting columns and `win_pct` read as numbers. */
  function CoercedStats(rawRows: seq<Dict>, name: string -> string): (t: Table)
    requires RenamesApart(rawRows, name)
    ensures WellFormed(t) && |t.rows| == |rawRows|
  {
    MapColumn(CoerceColumns(Canonicalised(rawRows, name), NumericStatColumns), "win_pct", PctToNumeric)
  }

  /** The statistics frame for headers renamed by `name`: the default
      columns when there are no rows, otherwise the converted frame, ordered
      by rank when it has a rank column. */
  function StatsFrame(rawRows: seq<Dict>, name: string -> string): Table
    requires RenamesApart(rawRows, name)
  {
    if rawRows == [] then Schema(EmptyStatColumns)
    else
      var df := CoercedStats(rawRows, name);
      if "rank" in df.columns then SortByColumn(df, "rank", true) else df
  }

  /** What `transform_team_stats` returns. */
  function TeamStats(rawRows: seq<Dict>): Table
    requires StatsShape(rawRows)
  {
    StatsFrame(rawRows, CanonicalColumn)
  }

  /** Adding a column to the map adds its name. */
  lemma ColumnMapSnoc(columns: seq<string>, c: string, name: string -> string)
    ensures ColumnMap(columns + [c], name) == ColumnMap(columns, name)[c := name(c)]
  {
    assert forall x :: x in columns + [c] <==> x in columns || x == c;
  }

  /** The column map built one column at a time. */
  method BuildColumnMap(columns: seq<string>) returns (colMap: map<string, string>)
    ensures colMap == ColumnMap(columns, CanonicalColumn)
  {
    colMap := map[];
    for i := 0 to |columns|
      invariant colMap == ColumnMap(columns[..i], CanonicalColumn)
    {
      assert columns[..i + 1] == columns[..i] + [columns[i]];
      ColumnMapSnoc(columns[..i], columns[i], CanonicalColumn);
      colMap := colMap[columns[i] := CanonicalColumn(columns[i])];
    }
    assert columns[..|columns|] == columns;
  }

  /** `transform_team_stats`. */
  method TransformTeamStats(rawRows: seq<Dict>) returns (t: Table)
    requires StatsShape(rawRows)
    ensures t == TeamStats(rawRows)
  {
    if rawRows == [] {
      return Schema(EmptyStatColumns);
    }
    var df := FromDicts(rawRows);
    var colMap := BuildColumnMap(df.columns);
    df := Rename(df, colMap);
    df := CoerceNumeric(df, NumericStatColumns);
    df := MapColumn(df, "win_pct", PctToNumeric);
    if "rank" in df.columns {
      df := SortByColumn(df, "rank", true);
    }
    t := df;
  }

  /** Without rows the frame has the five default columns and nothing else. */
  lemma StatsFrameEmpty(rawRows: seq<Dict>, name: string -> string)
    requires RenamesApart(rawRows, name) && rawRows == []
    ensures StatsFrame(rawRows, name).rows == [] && WellFormed(StatsFrame(rawRows, name))
    ensures StatsFrame(rawRows, name).columns == EmptyStatColumns
  {
  }

  /** The columns are those of the input in first-seen order, each under the
      name it is given; there is one row per input row; when there is a rank
      column the rows are ordered by it, missing ranks last; and the rows are
      those of the converted frame, reordered. */
  lemma {:induction false} StatsFrameShape(rawRows: seq<Dict>, name: string -> string)
    requires RenamesApart(rawRows, name) && rawRows != []
    ensures var t, cols := StatsFrame(rawRows, name), FromDicts(rawRows).columns;
      && WellFormed(t) && |t.rows| == |rawRows|
      && |t.columns| == |cols| && (forall j :: 0 <= j < |cols| ==> t.columns[j] == name(cols[j]))
      && ("rank" in t.columns ==> SortedBy(t.rows, ByColumn("rank", true)))
      && multiset(t.rows) == multiset(CoercedStats(rawRows, name).rows)
      && ("rank" !in t.columns ==> t.rows == CoercedStats(rawRows, name).rows)
  {
    var df := FromDicts(rawRows);
    var r := Canonicalised(rawRows, name);
    assert forall j :: 0 <= j < |df.columns| ==> r.columns[j] == name(df.columns[j]);
  }

  /** The renamed frame holds each input value under the name its key is
      given. */
  lemma {:induction false} CanonicalisedCell(rawRows: seq<Dict>, name: string -> string, i: int, c: string)
    requires RenamesApart(rawRows, name) && 0 <= i < |rawRows| && c in FromDicts(rawRows).columns
    ensures var r := Canonicalised(rawRows, name);
      name(c) in r.columns && r.rows[i][name(c)] == RawCell(rawRows[i], c)
  {
    var df := FromDicts(rawRows);
    var r := Canonicalised(rawRows, name);
    var j :| 0 <= j < |df.columns| && df.columns[j] == c;
    assert r.columns[j] == name(c);
  }

  lemma WinPctNotCounted()
    ensures "win_pct" !in NumericStatColumns
  {
  }

  /** The conversion of a renamed frame, cell by cell. */
  lemma {:induction false} ConvertedCell(t: Table, i: int, n: string)
    requires WellFormed(t) && 0 <= i < |t.rows| && n in t.columns
    ensures MapColumn(CoerceColumns(t, NumericStatColumns), "win_pct", PctToNumeric).rows[i][n] ==
      if n in NumericStatColumns then ToNumeric(t.rows[i][n])
      else if n == "win_pct" then PctToNumeric(t.rows[i][n])
      else t.rows[i][n]
  {
    CoercedCell(t, NumericStatColumns, i, n);
    WinPctNotCounted();
  }

  /** Every cell of the converted frame: the counting columns hold the
      numeric reading of the input value, `win_pct` its reading without
      percent signs, and every other column the input value itself; a row
      without the key has a missing value there. */
  lemma {:induction false} CoercedStatsCell(rawRows: seq<Dict>, name: string -> string, i: int, c: string)
    requires RenamesApart(rawRows, name) && 0 <= i < |rawRows| && c in FromDicts(rawRows).columns
    ensures var raw, n := RawCell(rawRows[i], c), name(c);
      CoercedStats(rawRows, name).rows[i][n] ==
        if n in NumericStatColumns then ToNumeric(raw)
        else if n == "win_pct" then PctToNumeric(raw)
        else raw
  {
    CanonicalisedCell(rawRows, name, i, c);
    ConvertedCell(Canonicalised(rawRows, name), i, name(c));
  }

  /** In the converted frame the counting columns and `win_pct` hold numbers
      or missing values. */
  lemma {:induction false} CoercedStatsNumeric(rawRows: seq<Dict>, name: string -> string, k: int, col: string)
    requires RenamesApart(rawRows, name) && 0 <= k < |rawRows|
    requires col in CoercedStats(rawRows, name).columns
    requires col in NumericStatColumns || col == "win_pct"
    ensures NumericOrMissing(CoercedStats(rawRows, name).rows[k][col])
  {
    ConvertedCell(Canonicalised(rawRows, name), k, col);
  }

  /** The counting columns and `win_pct` hold numbers or missing values in
      every row of the result. */
  lemma {:induction false} StatsFrameNumeric(rawRows: seq<Dict>, name: string -> string, i: int, col: string)
    requires RenamesApart(rawRows, name) && rawRows != []
    requires 0 <= i < |StatsFrame(rawRows, name).rows| && col in StatsFrame(rawRows, name).columns
    requires col in NumericStatColumns || col == "win_pct"
    ensures NumericOrMissing(StatsFrame(rawRows, name).rows[i][col])
  {
    var df := CoercedStats(rawRows, name);
    var row := StatsFrame(rawRows, name).rows[i];
    assert row in multiset(df.rows);
    var k :| 0 <= k < |df.rows| && df.rows[k] == row;
    CoercedStatsNumeric(rawRows, name, k, col);
  }

  // ---------------------------------------------------------------------------
  // transform_standings
  // ---------------------------------------------------------------------------

  /** The columns of the standings frame when there is nothing to transform. */
  const StandingsColumns: seq<string> :=
    ["conference", "team", "conf_wins", "conf_losses", "overall_wins", "overall_losses"]

  /** The cleaned standings keys given a friendlier name. */
  const StandingsRenames: map<string, string> := map[
    "school" := "team",
    "conference_w" := "conf_wins",
    "conference_l" := "conf_losses",
    "conference_pct" := "conf_pct",
    "overall_w" := "overall_wins",
    "overall_l" := "overall_losses",
    "overall_pct" := "overall_pct",
    "overall_streak" := "streak"]

  /** The standings columns read as numbers, in the order they are converted. */
  const NumericStandingColumns: seq<string> := ["conf_wins", "conf_losses", "overall_wins", "overall_losses"]

  /** A standings key stripped, lower-cased and with blanks turned into `_`. */
  function CleanKey(key: string): string {
    ReplaceAll(Lower(Strip(key)), ' ', '_')
  }

  /** A row before any team key is copied: just the conference. */
  function ConferenceRow(conference: Json): (r: Dict)
    ensures ValidDict(r)
  {
    Dict(["conference"], map["conference" := conference])
  }

  /** The row after the first `n` keys of `team` are copied under the names
      `clean` gives them; a later key overwrites an earlier one given the
      same name. */
  function CopyKeys(row: Dict, team: Dict, n: nat, clean: string -> string): Dict
    requires ValidDict(team) && n <= |team.keys|
    decreases n
  {
    if n == 0 then row
    else
      var key := team.keys[n - 1];
      Set(CopyKeys(row, team, n - 1, clean), clean(key), team.fields[key])
  }

  /** The row of one team: its conference, then every key of its standings
      entry under the name `clean` gives it (the transformer uses `CleanKey`;
      the rows are defined for any cleaner so that the proofs about them do
      not depend on how keys are cleaned). */
  function TeamRow(conference: Json, team: Dict, clean: string -> string): Dict
    requires ValidDict(team)
  {
    CopyKeys(ConferenceRow(conference), team, |team.keys|, clean)
  }

  /** Copying keeps every key listed once. */
  lemma {:induction false} CopyKeysValid(row: Dict, team: Dict, n: nat, clean: string -> string)
    requires ValidDict(row) && ValidDict(team) && n <= |team.keys|
    ensures ValidDict(CopyKeys(row, team, n, clean))
    decreases n
  {
    if n > 0 {
      CopyKeysValid(row, team, n - 1, clean);
      var key := team.keys[n - 1];
      SetValid(CopyKeys(row, team, n - 1, clean), clean(key), team.fields[key]);
    }
  }

  /** One more key copied. */
  lemma CopyKeysStep(row: Dict, team: Dict, n: nat, clean: string -> string)
    requires ValidDict(team) && n < |team.keys|
    ensures CopyKeys(row, team, n + 1, clean) ==
      Set(CopyKeys(row, team, n, clean), clean(team.keys[n]), team.fields[team.keys[n]])
  {
  }

  /** Copying keys keeps the keys already there in front. */
  lemma {:induction false} CopyKeysPrefix(row: Dict, team: Dict, n: nat, clean: string -> string)
    requires ValidDict(team) && n <= |team.keys|
    ensures var r := CopyKeys(row, team, n, clean);
      |r.keys| >= |row.keys| && r.keys[..|row.keys|] == row.keys
    decreases n
  {
    if n > 0 {
      CopyKeysPrefix(row, team, n - 1, clean);
      var prev := CopyKeys(row, team, n - 1, clean);
      var r := CopyKeys(row, team, n, clean);
      assert r.keys[..|row.keys|] == prev.keys[..|row.keys|];
    }
  }

  /** Every key of the entry is present after copying, under its name. */
  lemma {:induction false} CopyKeysHas(row: Dict, team: Dict, n: nat, j: int, clean: string -> string)
    requires ValidDict(team) && 0 <= j < n <= |team.keys|
    ensures clean(team.keys[j]) in CopyKeys(row, team, n, clean).fields
    decreases n
  {
    if j < n - 1 {
      CopyKeysHas(row, team, n - 1, j, clean);
    }
  }

  /** Nothing else is added: a name that was absent and that no key is
      given stays absent. */
  lemma {:induction false} CopyKeysOnly(row: Dict, team: Dict, n: nat, x: string, clean: string -> string)
    requires ValidDict(team) && n <= |team.keys| && x !in row.fields
    requires forall j :: 0 <= j < n ==> clean(team.keys[j]) != x
    ensures x !in CopyKeys(row, team, n, clean).fields
    decreases n
  {
    if n > 0 {
      CopyKeysOnly(row, team, n - 1, x, clean);
    }
  }

  /** The value under a name is that of the last key given that name. */
  lemma {:induction false} CopyKeysLastWins(row: Dict, team: Dict, n: nat, j: int, clean: string -> string)
    requires ValidDict(team) && 0 <= j < n <= |team.keys|
    requires forall l :: j < l < n ==> clean(team.keys[l]) != clean(team.keys[j])
    ensures var r := CopyKeys(row, team, n, clean);
      clean(team.keys[j]) in r.fields && r.fields[clean(team.keys[j])] == team.fields[team.keys[j]]
    decreases n
  {
    if j < n - 1 {
      CopyKeysLastWins(row, team, n - 1, j, clean);
    }
  }

  /** A key no team key is given as a name keeps its value. */
  lemma {:induction false} CopyKeysKeeps(row: Dict, team: Dict, n: nat, k: string, clean: string -> string)
    requires ValidDict(team) && n <= |team.keys| && k in row.fields
    requires forall l :: 0 <= l < n ==> clean(team.keys[l]) != k
    ensures var r := CopyKeys(row, team, n, clean); k in r.fields && r.fields[k] == row.fields[k]
    decreases n
  {
    if n > 0 {
      CopyKeysKeeps(row, team, n - 1, k, clean);
    }
  }

  /** A team row starts with `conference`. */
  lemma {:induction false} TeamRowStartsWithConference(conference: Json, team: Dict, clean: string -> string)
    requires ValidDict(team)
    ensures var r := TeamRow(conference, team, clean); r.keys != [] && r.keys[0] == "conference"
  {
    CopyKeysPrefix(ConferenceRow(conference), team, |team.keys|, clean);
  }

  /** No key of the entry is cleaned to `conference`, so the entry cannot
      overwrite the conference its row starts with. */
  predicate KeepsConference(team: Dict, clean: string -> string) {
    forall l :: 0 <= l < |team.keys| ==> clean(team.keys[l]) != "conference"
  }

  /** A team row holds the conference it was built for, unless one of the
      entry's own keys is cleaned to `conference` (then `CopyKeysLastWins`
      gives the entry's value). */
  lemma {:induction false} TeamRowConference(conference: Json, team: Dict, clean: string -> string)
    requires ValidDict(team) && KeepsConference(team, clean)
    ensures var r := TeamRow(conference, team, clean);
      "conference" in r.fields && r.fields["conference"] == conference
  {
    CopyKeysKeeps(ConferenceRow(conference), team, |team.keys|, "conference", clean);
  }

  /** A standings entry the transformer can read: a dict. */
  predicate TeamShape(j: Json) {
    j.JObject? && ValidDict(j.obj)
  }

  function TeamDict(j: Json): Dict
    requires TeamShape(j)
  {
    j.obj
  }

  /** `conf_block.get("conference", "Unknown")`: the block's own conference,
      `"Unknown"` when it names none. */
  function ConferenceOf(block: Dict): (c: Json)
    ensures "conference" in block.fields ==> c == block.fields["conference"]
    ensures "conference" !in block.fields ==> c == JStr("Unknown")
  {
    Get(block, "conference", JStr("Unknown"))
  }

  /** `conf_block.get("standings", [])` */
  function StandingsOf(block: Dict): Json {
    Get(block, "standings", JList([]))
  }

  /** A conference block the transformer can read: a dict whose standings
      are a list of dicts. */
  predicate BlockShape(b: Json) {
    && b.JObject?
    && StandingsOf(b.obj).JList?
    && forall i :: 0 <= i < |StandingsOf(b.obj).items| ==> TeamShape(StandingsOf(b.obj).items[i])
  }

  /** The conference of a block and its standings entries. */
  function BlockConference(b: Json): Json
    requires BlockShape(b)
  {
    ConferenceOf(b.obj)
  }

  function BlockTeams(b: Json): seq<Json>
    requires BlockShape(b)
  {
    StandingsOf(b.obj).items
  }

  /** The rows of a list of teams of one conference, in order. */
  function TeamRows(conference: Json, teams: seq<Json>, clean: string -> string): (rows: seq<Dict>)
    requires forall i :: 0 <= i < |teams| ==> TeamShape(teams[i])
    ensures |rows| == |teams|
    decreases |teams|
  {
    if teams == [] then []
    else TeamRows(conference, teams[..|teams| - 1], clean) + [TeamRow(conference, TeamDict(teams[|teams| - 1]), clean)]
  }

  /** The rows of every block, block after block. */
  function AllRows(blocks: seq<Json>, clean: string -> string): (rows: seq<Dict>)
    requires forall i :: 0 <= i < |blocks| ==> BlockShape(blocks[i])
    decreases |blocks|
  {
    if blocks == [] then []
    else
      var last := blocks[|blocks| - 1];
      AllRows(blocks[..|blocks| - 1], clean) + TeamRows(BlockConference(last), BlockTeams(last), clean)
  }

  /** The conference each collected row should carry: a block's conference
      once per team it lists, block after block. */
  function Conferences(blocks: seq<Json>): (cs: seq<Json>)
    requires forall i :: 0 <= i < |blocks| ==> BlockShape(blocks[i])
    ensures |cs| == TeamCount(blocks)
    decreases |blocks|
  {
    if blocks == [] then []
    else
      var last := blocks[|blocks| - 1];
      Conferences(blocks[..|blocks| - 1]) + seq(|BlockTeams(last)|, _ => BlockConference(last))
  }

  /** No standings entry of any block overwrites its row's conference. */
  predicate BlocksKeepConference(blocks: seq<Json>, clean: string -> string)
    requires forall i :: 0 <= i < |blocks| ==> BlockShape(blocks[i])
  {
    forall b, t :: 0 <= b < |blocks| && 0 <= t < |BlockTeams(blocks[b])| ==>
      KeepsConference(TeamDict(BlockTeams(blocks[b])[t]), clean)
  }

  /** The number of teams listed in all blocks. */
  function TeamCount(blocks: seq<Json>): nat
    requires forall i :: 0 <= i < |blocks| ==> BlockShape(blocks[i])
    decreases |blocks|
  {
    if blocks == [] then 0
    else TeamCount(blocks[..|blocks| - 1]) + |BlockTeams(blocks[|blocks| - 1])|
  }

  /** One row per team of every block. */
  lemma {:induction false} AllRowsCount(blocks: seq<Json>, clean: string -> string)
    requires forall i :: 0 <= i < |blocks| ==> BlockShape(blocks[i])
    ensures |AllRows(blocks, clean)| == TeamCount(blocks)
    decreases |blocks|
  {
    if blocks != [] {
      AllRowsCount(blocks[..|blocks| - 1], clean);
    }
  }

  /** The innermost loop: one team's row, key after key. */
  method BuildTeamRow(conference: Json, team: Dict, clean: string -> string) returns (row: Dict)
    requires ValidDict(team)
    ensures row == TeamRow(conference, team, clean)
  {
    row := ConferenceRow(conference);
    for j := 0 to |team.keys|
      invariant row == CopyKeys(ConferenceRow(conference), team, j, clean)
    {
      var key := team.keys[j];
      CopyKeysStep(ConferenceRow(conference), team, j, clean);
      row := Set(row, clean(key), team.fields[key]);
    }
  }

  /** One more team's row. */
  lemma TeamRowsSnoc(conference: Json, teams: seq<Json>, t: int, clean: string -> string)
    requires forall i :: 0 <= i < |teams| ==> TeamShape(teams[i])
    requires 0 <= t < |teams|
    ensures TeamRows(conference, teams[..t + 1], clean) ==
      TeamRows(conference, teams[..t], clean) + [TeamRow(conference, TeamDict(teams[t]), clean)]
  {
    assert teams[..t + 1][..t] == teams[..t];
  }

  /** Appending the next team's row to the rows so far. */
  lemma {:induction false} AppendRow(rows0: seq<Dict>, conference: Json, teams: seq<Json>, t: int, clean: string -> string)
    requires forall i :: 0 <= i < |teams| ==> TeamShape(teams[i])
    requires 0 <= t < |teams|
    ensures rows0 + TeamRows(conference, teams[..t], clean) + [TeamRow(conference, TeamDict(teams[t]), clean)] ==
      rows0 + TeamRows(conference, teams[..t + 1], clean)
  {
    TeamRowsSnoc(conference, teams, t, clean);
    var b := TeamRows(conference, teams[..t], clean);
    var x := TeamRow(conference, TeamDict(teams[t]), clean);
    assert rows0 + (b + [x]) == (rows0 + b) + [x];
  }

  /** The middle loop: the rows of one block appended, team after team. */
  method AppendTeamRows(rows0: seq<Dict>, conference: Json, teams: seq<Json>, clean: string -> string) returns (rows: seq<Dict>)
    requires forall i :: 0 <= i < |teams| ==> TeamShape(teams[i])
    ensures rows == rows0 + TeamRows(conference, teams, clean)
  {
    rows := rows0;
    for t := 0 to |teams|
      invariant rows == rows0 + TeamRows(conference, teams[..t], clean)
    {
      var row := BuildTeamRow(conference, TeamDict(teams[t]), clean);
      AppendRow(rows0, conference, teams, t, clean);
      rows := rows + [row];
    }
    assert teams[..|teams|] == teams;
  }

  /** The outer loop: the rows of every block, block after block. */
  method CollectStandingRows(blocks: seq<Json>, clean: string -> string) returns (rows: seq<Dict>)
    requires forall i :: 0 <= i < |blocks| ==> BlockShape(blocks[i])
    ensures rows == AllRows(blocks, clean)
  {
    rows := [];
    for b := 0 to |blocks|
      invariant rows == AllRows(blocks[..b], clean)
    {
      rows := AppendTeamRows(rows, BlockConference(blocks[b]), BlockTeams(blocks[b]), clean);
      assert blocks[..b + 1][..b] == blocks[..b];
    }
    assert blocks[..|blocks|] == blocks;
  }

  /** The renames whose source column is present. */
  function PresentRenames(columns: seq<string>): map<string, string> {
    map k | k in StandingsRenames && k in columns :: StandingsRenames[k]
  }

  /** The blocks of a response that has them. */
  function Blocks(raw: Json): seq<Json>
    requires HasKey(raw, "data") && raw.obj.fields["data"].JList?
  {
    raw.obj.fields["data"].items
  }

  /** The responses the transformer accepts: `None` or a dict whose `data`,
      when present, is a list of readable blocks, and whose renamed columns
      stay distinct. */
  predicate StandingsShape(raw: Json) {
    && (raw.JNull? || raw.JObject?)
    && (HasKey(raw, "data") ==>
          && raw.obj.fields["data"].JList?
          && (forall i :: 0 <= i < |Blocks(raw)| ==> BlockShape(Blocks(raw)[i]))
          && var df := FromDicts(AllRows(Blocks(raw), CleanKey));
             RenameInjective(df.columns, PresentRenames(df.columns)))
  }

  /** What `transform_standings` returns. */
  function Standings(raw: Json): Table
    requires StandingsShape(raw)
  {
    if !HasKey(raw, "data") then Schema(StandingsColumns)
    else
      var df := FromDicts(AllRows(Blocks(raw), CleanKey));
      if IsEmpty(df) then Schema(StandingsColumns)
      else CoerceColumns(Rename(df, PresentRenames(df.columns)), NumericStandingColumns)
  }

  /** `transform_standings`. */
  method TransformStandings(raw: Json) returns (t: Table)
    requires StandingsShape(raw)
    ensures t == Standings(raw)
  {
    if !HasKey(raw, "data") {
      return Schema(StandingsColumns);
    }
    var rows := CollectStandingRows(raw.obj.fields["data"].items, CleanKey);
    var df := FromDicts(rows);
    if IsEmpty(df) {
      return Schema(StandingsColumns);
    }
    var renames := map k | k in StandingsRenames && k in df.columns :: StandingsRenames[k];
    df := Rename(df, renames);
    t := CoerceNumeric(df, NumericStandingColumns);
  }

  /** Every row of one conference starts with `conference`. */
  lemma {:induction false} TeamRowsHaveConference(conference: Json, teams: seq<Json>, clean: string -> string)
    requires forall i :: 0 <= i < |teams| ==> TeamShape(teams[i])
    ensures forall i :: 0 <= i < |teams| ==> "conference" in TeamRows(conference, teams, clean)[i].keys
    decreases |teams|
  {
    if teams != [] {
      var last := |teams| - 1;
      TeamRowsHaveConference(conference, teams[..last], clean);
      TeamRowStartsWithConference(conference, TeamDict(teams[last]), clean);
      var init := TeamRows(conference, teams[..last], clean);
      var rows := TeamRows(conference, teams, clean);
      assert rows == init + [TeamRow(conference, TeamDict(teams[last]), clean)];
      forall i | 0 <= i < |teams| ensures "conference" in rows[i].keys {
        if i < last {
          assert rows[i] == init[i];
        }
      }
    }
  }

  /** Every collected row starts with `conference`. */
  lemma {:induction false} AllRowsHaveConference(blocks: seq<Json>, clean: string -> string)
    requires forall i :: 0 <= i < |blocks| ==> BlockShape(blocks[i])
    ensures forall i :: 0 <= i < |AllRows(blocks, clean)| ==> "conference" in AllRows(blocks, clean)[i].keys
    decreases |blocks|
  {
    if blocks != [] {
      var last := blocks[|blocks| - 1];
      var init := AllRows(blocks[..|blocks| - 1], clean);
      var tail := TeamRows(BlockConference(last), BlockTeams(last), clean);
      AllRowsHaveConference(blocks[..|blocks| - 1], clean);
      TeamRowsHaveConference(BlockConference(last), BlockTeams(last), clean);
      var rows: seq<Dict> := init + tail;
      forall i | 0 <= i < |rows| ensures "conference" in rows[i].keys {
        if i >= |init| {
          assert rows[i] == tail[i - |init|];
        }
      }
    }
  }

  /** Every row of one conference holds that conference. */
  lemma {:induction false} TeamRowsConference(conference: Json, teams: seq<Json>, clean: string -> string)
    requires forall i :: 0 <= i < |teams| ==> TeamShape(teams[i])
    requires forall i :: 0 <= i < |teams| ==> KeepsConference(TeamDict(teams[i]), clean)
    ensures forall i :: 0 <= i < |teams| ==>
      var r := TeamRows(conference, teams, clean)[i];
      "conference" in r.fields && r.fields["conference"] == conference
    decreases |teams|
  {
    if teams != [] {
      var last := |teams| - 1;
      TeamRowsConference(conference, teams[..last], clean);
      TeamRowConference(conference, TeamDict(teams[last]), clean);
      var init := TeamRows(conference, teams[..last], clean);
      var rows := TeamRows(conference, teams, clean);
      assert rows == init + [TeamRow(conference, TeamDict(teams[last]), clean)];
      forall i | 0 <= i < |teams|
        ensures "conference" in rows[i].fields && rows[i].fields["conference"] == conference
      {
        if i < last {
          assert rows[i] == init[i];
        }
      }
    }
  }

  /** Every collected row holds the conference of the block it came from:
      `conf_block.get("conference", "Unknown")`. */
  lemma {:induction false} AllRowsConference(blocks: seq<Json>, clean: string -> string)
    requires forall i :: 0 <= i < |blocks| ==> BlockShape(blocks[i])
    requires BlocksKeepConference(blocks, clean)
    ensures |AllRows(blocks, clean)| == |Conferences(blocks)|
    ensures forall i :: 0 <= i < |AllRows(blocks, clean)| ==>
      var r := AllRows(blocks, clean)[i];
      "conference" in r.fields && r.fields["conference"] == Conferences(blocks)[i]
    decreases |blocks|
  {
    AllRowsCount(blocks, clean);
    if blocks != [] {
      var n := |blocks| - 1;
      var last := blocks[n];
      KeepConferenceSplit(blocks, clean);
      AllRowsConference(blocks[..n], clean);
      TeamRowsConference(BlockConference(last), BlockTeams(last), clean);
      RowsConferenceJoin(AllRows(blocks[..n], clean), TeamRows(BlockConference(last), BlockTeams(last), clean),
        Conferences(blocks[..n]), BlockConference(last));
    }
  }

  /** What `BlocksKeepConference` says of all but the last block, and of the
      last block. */
  lemma KeepConferenceSplit(blocks: seq<Json>, clean: string -> string)
    requires forall i :: 0 <= i < |blocks| ==> BlockShape(blocks[i])
    requires BlocksKeepConference(blocks, clean) && blocks != []
    ensures BlocksKeepConference(blocks[..|blocks| - 1], clean)
    ensures var last := blocks[|blocks| - 1];
      forall t :: 0 <= t < |BlockTeams(last)| ==> KeepsConference(TeamDict(BlockTeams(last)[t]), clean)
  {
    var n := |blocks| - 1;
    forall b, t | 0 <= b < n && 0 <= t < |BlockTeams(blocks[..n][b])|
      ensures KeepsConference(TeamDict(BlockTeams(blocks[..n][b])[t]), clean)
    {
      assert blocks[..n][b] == blocks[b];
    }
  }

  /** The rows of the earlier blocks followed by those of the last block
      carry the earlier conferences followed by the last block's. */
  lemma RowsConferenceJoin(init: seq<Dict>, tail: seq<Dict>, cs: seq<Json>, conference: Json)
    requires |init| == |cs|
    requires forall i :: 0 <= i < |init| ==> "conference" in init[i].fields && init[i].fields["conference"] == cs[i]
    requires forall i :: 0 <= i < |tail| ==> "conference" in tail[i].fields && tail[i].fields["conference"] == conference
    ensures forall i :: 0 <= i < |init + tail| ==>
      "conference" in (init + tail)[i].fields &&
      (init + tail)[i].fields["conference"] == (cs + seq(|tail|, _ => conference))[i]
  {
    var rows, all := init + tail, cs + seq(|tail|, _ => conference);
    forall i | 0 <= i < |rows|
      ensures "conference" in rows[i].fields && rows[i].fields["conference"] == all[i]
    {
      if i < |init| {
        assert rows[i] == init[i];
      } else {
        assert rows[i] == tail[i - |init|];
      }
    }
  }

  /** In the standings frame the `conference` column keeps its name and each
      row holds the conference of its block. */
  lemma {:induction false} StandingsConference(raw: Json, i: int)
    requires StandingsShape(raw) && HasKey(raw, "data")
    requires BlocksKeepConference(Blocks(raw), CleanKey)
    requires 0 <= i < TeamCount(Blocks(raw))
    ensures var t := Standings(raw);
      && "conference" in t.columns && i < |t.rows|
      && t.rows[i]["conference"] == Some(VJson(Conferences(Blocks(raw))[i]))
  {
    var rows := AllRows(Blocks(raw), CleanKey);
    AllRowsConference(Blocks(raw), CleanKey);
    AllRowsHaveConference(Blocks(raw), CleanKey);
    var df := FromDicts(rows);
    assert "conference" in df.columns;
    assert df.rows[i]["conference"] == RawCell(rows[i], "conference");
    ConferenceKept();
    RenamedConference(df, PresentRenames(df.columns), i);
  }

  /** Renaming other columns and converting the record columns leave
      `conference` alone. */
  lemma {:induction false} RenamedConference(df: Table, renames: map<string, string>, i: int)
    requires WellFormed(df) && RenameInjective(df.columns, renames)
    requires "conference" in df.columns && "conference" !in renames && 0 <= i < |df.rows|
    ensures var t := CoerceColumns(Rename(df, renames), NumericStandingColumns);
      "conference" in t.columns && t.rows[i]["conference"] == df.rows[i]["conference"]
  {
    var r := Rename(df, renames);
    var j :| 0 <= j < |df.columns| && df.columns[j] == "conference";
    assert Renamed("conference", renames) == "conference";
    assert r.columns[j] == "conference";
    assert r.rows[i]["conference"] == df.rows[i]["conference"];
    CoercedCell(r, NumericStandingColumns, i, "conference");
    ConferenceKept();
  }

  /** `conference` is neither renamed nor read as a number. */
  lemma ConferenceKept()
    ensures "conference" !in NumericStandingColumns && "conference" !in StandingsRenames
  {
  }

  /** The collected frame is empty exactly when no block lists a team. */
  lemma {:induction false} CollectedEmpty(blocks: seq<Json>, clean: string -> string)
    requires forall i :: 0 <= i < |blocks| ==> BlockShape(blocks[i])
    ensures IsEmpty(FromDicts(AllRows(blocks, clean))) <==> TeamCount(blocks) == 0
  {
    var rows := AllRows(blocks, clean);
    AllRowsCount(blocks, clean);
    if rows != [] {
      AllRowsHaveConference(blocks, clean);
      assert "conference" in rows[0].keys;
    }
  }

  /** The default frame comes back exactly when there is no team to list. */
  lemma {:induction false} StandingsEmpty(raw: Json)
    requires StandingsShape(raw)
    ensures var t := Standings(raw);
      && WellFormed(t)
      && (t.rows == [] <==> !HasKey(raw, "data") || TeamCount(Blocks(raw)) == 0)
      && (t.rows == [] ==> t.columns == StandingsColumns)
  {
    if HasKey(raw, "data") {
      CollectedEmpty(Blocks(raw), CleanKey);
      AllRowsCount(Blocks(raw), CleanKey);
    }
  }

  /** Otherwise there is one row per team. */
  lemma {:induction false} StandingsCount(raw: Json)
    requires StandingsShape(raw) && HasKey(raw, "data")
    ensures |Standings(raw).rows| == TeamCount(Blocks(raw))
  {
    CollectedEmpty(Blocks(raw), CleanKey);
    AllRowsCount(Blocks(raw), CleanKey);
  }

  /** The four record columns hold numbers or missing values. */
  lemma {:induction false} StandingsNumeric(raw: Json, i: int, c: string)
    requires StandingsShape(raw)
    requires 0 <= i < |Standings(raw).rows| && c in NumericStandingColumns && c in Standings(raw).columns
    ensures NumericOrMissing(Standings(raw).rows[i][c])
  {
    var df := FromDicts(AllRows(Blocks(raw), CleanKey));
    var r := Rename(df, PresentRenames(df.columns));
    CoercedCell(r, NumericStandingColumns, i, c);
  }

  // ---------------------------------------------------------------------------
  // transform_schools
  // ---------------------------------------------------------------------------

  /** `transform_schools`: the schools index as a frame with `long` renamed
      `full_name`; the three default columns when the index is empty. */
  function TransformSchools(rawList: seq<Dict>): (t: Table)
    requires RenameInjective(FromDicts(rawList).columns, map["long" := "full_name"])
    ensures rawList == [] ==> t == Schema(["slug", "name", "full_name"])
    ensures rawList != [] ==> WellFormed(t) && |t.rows| == |rawList|
  {
    if rawList == [] then Schema(["slug", "name", "full_name"])
    else Rename(FromDicts(rawList), map["long" := "full_name"])
  }

  /** No column is called `long` any more. */
  lemma {:induction false} SchoolsNoLong(rawList: seq<Dict>)
    requires RenameInjective(FromDicts(rawList).columns, map["long" := "full_name"])
    ensures "long" !in TransformSchools(rawList).columns
  {
    var t := TransformSchools(rawList);
    if rawList != [] {
      var df := FromDicts(rawList);
      forall j | 0 <= j < |t.columns| ensures t.columns[j] != "long" {
        assert t.columns[j] == Renamed(df.columns[j], map["long" := "full_name"]);
      }
    }
  }

  /** Every other column keeps its name; each school's value sits under the
      new name, and a school without some key has a missing value there. */
  lemma {:induction false} SchoolsCells(rawList: seq<Dict>, i: int, c: string)
    requires RenameInjective(FromDicts(rawList).columns, map["long" := "full_name"])
    requires 0 <= i < |rawList| && c in FromDicts(rawList).columns
    ensures var t, n := TransformSchools(rawList), if c == "long" then "full_name" else c;
      n in t.columns && t.rows[i][n] == RawCell(rawList[i], c)
  {
    var df := FromDicts(rawList);
    var t := TransformSchools(rawList);
    var j :| 0 <= j < |df.columns| && df.columns[j] == c;
    assert t.columns[j] == Renamed(c, map["long" := "full_name"]);
  }
}
