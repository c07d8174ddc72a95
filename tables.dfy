/**
 * The tabular values the transformers return (pandas DataFrames): an ordered
 * list of column names and one row per record, every row holding a cell for
 * every column. A cell is `None` where pandas holds a missing value (NaN,
 * NaT). Column dtypes are not modelled: a numeric cell is a number whether
 * pandas stores it as int64 or float64.
 */
module Tables {
  import opened Wrappers
  import opened Text
  import opened Dates
  import opened Json
  import opened Sorting

  datatype Value =
    | VInt(i: int)
    | VReal(r: real)
    | VStr(s: string)
    | VDate(d: Date)
    | VJson(j: Json)

  type Cell = Option<Value>

  /** One row, keyed by column name. */
  type Row = map<string, Cell>

  datatype Table = Table(columns: seq<string>, rows: seq<Row>)

  predicate Distinct(s: seq<string>) {
    forall i, j :: 0 <= i < j < |s| ==> s[i] != s[j]
  }

  /** Column names are unique and every row has exactly those columns. */
  predicate WellFormed(t: Table) {
    && Distinct(t.columns)
    && forall i :: 0 <= i < |t.rows| ==> t.rows[i].Keys == set c | c in t.columns
  }

  /** `DataFrame.empty`: no rows or no columns. */
  predicate IsEmpty(t: Table) {
    |t.rows| == 0 || |t.columns| == 0
  }

  /** `pd.DataFrame(columns=columns)`: the fixed schema with no rows. */
  function Schema(columns: seq<string>): (t: Table)
    ensures t.columns == columns && t.rows == []
    ensures Distinct(columns) ==> WellFormed(t)
  {
    Table(columns, [])
  }

  /** An optional integer as a cell: `None` is a missing value. */
  function IntCell(o: Option<int>): (c: Cell)
    ensures c.None? <==> o.None?
    ensures o.Some? ==> c == Some(VInt(o.value))
  {
    match o
    case Some(n) => Some(VInt(n))
    case None => None
  }

  /** The row holding `cells[i]` in column `columns[i]`. */
  function RowOf(columns: seq<string>, cells: seq<Cell>): (row: Row)
    requires Distinct(columns) && |cells| == |columns|
    ensures row.Keys == set c | c in columns
    ensures forall i :: 0 <= i < |columns| ==> row[columns[i]] == cells[i]
  {
    map i | 0 <= i < |columns| :: columns[i] := cells[i]
  }

  /** The cell of `row` in column `c`, missing when the row has no such key. */
  function CellOf(row: Row, c: string): Cell {
    if c in row then row[c] else None
  }

  /** `pd.DataFrame(rows)` for dicts that all have the keys `columns`, in that
      order: an empty list gives a frame with no columns at all. */
  function FromRows(columns: seq<string>, rows: seq<Row>): (t: Table)
    ensures rows == [] ==> t == Table([], [])
    ensures rows != [] ==> t == Table(columns, rows)
  {
    if rows == [] then Table([], []) else Table(columns, rows)
  }

  // ---------------------------------------------------------------------------
  // pd.DataFrame(list_of_dicts) for dicts with differing keys
  // ---------------------------------------------------------------------------

  /** Appends the keys not seen yet, in order. */
  function AddNewKeys(acc: seq<string>, keys: seq<string>): (r: seq<string>)
    requires Distinct(acc)
    ensures Distinct(r)
    ensures |r| >= |acc| && r[..|acc|] == acc
    ensures forall c :: c in r <==> c in acc || c in keys
    decreases |keys|
  {
    if keys == [] then acc
    else if keys[0] in acc then AddNewKeys(acc, keys[1..])
    else
      var acc' := acc + [keys[0]];
      var r := AddNewKeys(acc', keys[1..]);
      assert r[..|acc|] == r[..|acc'|][..|acc|];
      r
  }

  /** The columns of `pd.DataFrame(records)`: every key of every record, in
      the order first seen. */
  function KeyUnion(acc: seq<string>, records: seq<Dict>): (r: seq<string>)
    requires Distinct(acc)
    ensures Distinct(r)
    ensures forall c :: c in acc ==> c in r
    ensures forall i, c :: 0 <= i < |records| && c in records[i].keys ==> c in r
    decreases |records|
  {
    if records == [] then acc
    else
      var r := KeyUnion(AddNewKeys(acc, records[0].keys), records[1..]);
      assert forall i, c :: 1 <= i < |records| && c in records[i].keys ==> c in records[1..][i - 1].keys;
      r
  }

  /** The cell a record gives column `c`: its value, or missing when the
      record has no such key. */
  function RawCell(d: Dict, c: string): Cell {
    if c in d.fields then Some(VJson(d.fields[c])) else None
  }

  /** One record as a row: missing keys become missing cells. */
  function RowOfDict(columns: seq<string>, d: Dict): (row: Row)
    ensures row.Keys == set c | c in columns
    ensures forall c :: c in columns ==> row[c] == RawCell(d, c)
  {
    map c | c in columns :: RawCell(d, c)
  }

  /** `pd.DataFrame(records)` for a list of dicts: every key of every record
      is a column, and each row holds its record's values. */
  function FromDicts(records: seq<Dict>): (t: Table)
    ensures WellFormed(t) && |t.rows| == |records|
    ensures forall i, c :: 0 <= i < |records| && c in records[i].keys ==> c in t.columns
    ensures forall i, c :: 0 <= i < |records| && c in t.columns ==> t.rows[i][c] == RawCell(records[i], c)
  {
    var columns := KeyUnion([], records);
    Table(columns, seq(|records|, i requires 0 <= i < |records| => RowOfDict(columns, records[i])))
  }

  // ---------------------------------------------------------------------------
  // df.rename(columns=mapping)
  // ---------------------------------------------------------------------------

  function Renamed(c: string, mapping: map<string, string>): string {
    if c in mapping then mapping[c] else c
  }

  /** No two columns end up with the same name (pandas would then hold
      duplicate columns, which the transformers never expect). */
  predicate RenameInjective(columns: seq<string>, mapping: map<string, string>) {
    forall c1, c2 :: c1 in columns && c2 in columns && Renamed(c1, mapping) == Renamed(c2, mapping) ==> c1 == c2
  }

  function RenameRow(row: Row, columns: seq<string>, mapping: map<string, string>): (r: Row)
    requires RenameInjective(columns, mapping)
    ensures r.Keys == set c | c in columns :: Renamed(c, mapping)
    ensures forall c :: c in columns ==> r[Renamed(c, mapping)] == CellOf(row, c)
  {
    map c | c in columns :: Renamed(c, mapping) := CellOf(row, c)
  }

  /** `df.rename(columns=mapping)`: names change, positions and cells do not. */
  function Rename(t: Table, mapping: map<string, string>): (r: Table)
    requires WellFormed(t) && RenameInjective(t.columns, mapping)
    ensures WellFormed(r) && |r.rows| == |t.rows| && |r.columns| == |t.columns|
    ensures forall i :: 0 <= i < |t.columns| ==> r.columns[i] == Renamed(t.columns[i], mapping)
    ensures forall i, c :: 0 <= i < |t.rows| && c in t.columns ==>
              r.rows[i][Renamed(c, mapping)] == t.rows[i][c]
  {
    var columns := seq(|t.columns|, i requires 0 <= i < |t.columns| => Renamed(t.columns[i], mapping));
    assert (set c | c in t.columns :: Renamed(c, mapping)) == set c | c in columns by {
      forall c | c in t.columns ensures Renamed(c, mapping) in columns {
        var i :| 0 <= i < |t.columns| && t.columns[i] == c;
        assert columns[i] == Renamed(c, mapping);
      }
    }
    assert Distinct(columns) by {
      forall i, j | 0 <= i < j < |columns| ensures columns[i] != columns[j] {
        assert t.columns[i] != t.columns[j];
      }
    }
    Table(columns, seq(|t.rows|, i requires 0 <= i < |t.rows| => RenameRow(t.rows[i], t.columns, mapping)))
  }

  // ---------------------------------------------------------------------------
  // pd.to_numeric(..., errors="coerce")
  // ---------------------------------------------------------------------------

  /** An unsigned decimal numeral: digits, optionally a point and more digits. */
  function ParseUnsigned(b: string): Option<real> {
    var parts := Split(b, '.');
    if |parts| == 1 && |b| > 0 && AllDigits(b) then Some(DigitsValue(b) as real)
    else if |parts| == 2 && AllDigits(parts[0]) && AllDigits(parts[1]) && |parts[0]| + |parts[1]| > 0 then
      Some(DigitsValue(parts[0]) as real + DigitsValue(parts[1]) as real / Pow10(|parts[1]|) as real)
    else None
  }

  /** A string as `pd.to_numeric` reads it: surrounding whitespace, an optional
      sign and a decimal numeral (exponents, `inf` and `nan` are not modelled). */
  function ParseNumber(s: string): Option<real> {
    ParseSignedNumber(Strip(s))
  }

  function ParseSignedNumber(t: string): Option<real> {
    if |t| > 0 && (t[0] == '+' || t[0] == '-') then
      match ParseUnsigned(t[1..])
      case Some(v) => Some(if t[0] == '-' then -v else v)
      case None => None
    else ParseUnsigned(t)
  }

  lemma {:induction false} UnsignedNatural(n: nat)
    ensures ParseUnsigned(Natural(n)) == Some(n as real)
  {
    var d := Natural(n);
    assert '.' !in d by {
      forall i | 0 <= i < |d| ensures d[i] != '.' {
        assert IsDigit(d[i]);
      }
    }
    SplitNone(d, '.');
  }

  lemma {:induction false} SignedNatural(n: nat)
    ensures ParseSignedNumber(Natural(n)) == Some(n as real)
  {
    UnsignedNatural(n);
    assert IsDigit(Natural(n)[0]);
  }

  lemma {:induction false} SignedNegative(n: nat)
    ensures ParseSignedNumber("-" + Natural(n)) == Some(-(n as real))
  {
    var d := Natural(n);
    var s := "-" + d;
    assert s[0] == '-' && s[1..] == d;
    UnsignedNatural(n);
  }

  /** Integers written out by `str` read back as the same number. */
  lemma {:induction false} ParseNumberDecimal(n: int)
    ensures ParseNumber(Decimal(n)) == Some(n as real)
  {
    var s := Decimal(n);
    SignedDecimal(n);
    assert Strip(s) == s;
  }

  lemma {:induction false} SignedDecimal(n: int)
    ensures ParseSignedNumber(Decimal(n)) == Some(n as real)
  {
    if n < 0 {
      SignedNegative(-n);
    } else {
      SignedNatural(n);
    }
  }

  /** A numeral with a decimal point, such as `".917"` or `"91.7"`, reads as
      its whole part plus its fraction. */
  lemma {:induction false} ParseNumberFraction(a: string, b: string)
    requires AllDigits(a) && AllDigits(b) && |a| + |b| > 0
    ensures ParseNumber(a + "." + b) ==
              Some(DigitsValue(a) as real + DigitsValue(b) as real / Pow10(|b|) as real)
  {
    var s := a + "." + b;
    UnsignedFraction(a, b);
    assert s[0] == '.' || IsDigit(s[0]);
    assert s[|s| - 1] == '.' || IsDigit(s[|s| - 1]);
    assert Stripped(s);
  }

  lemma {:induction false} UnsignedFraction(a: string, b: string)
    requires AllDigits(a) && AllDigits(b) && |a| + |b| > 0
    ensures ParseUnsigned(a + "." + b) ==
              Some(DigitsValue(a) as real + DigitsValue(b) as real / Pow10(|b|) as real)
  {
    DigitsOnly(a, '.');
    DigitsOnly(b, '.');
    assert Join([a, b], '.') == a + "." + b by {
      assert [a, b][1..] == [b];
    }
    SplitJoin([a, b], '.');
  }

  /** One cell through `pd.to_numeric(errors="coerce")`: numbers stay, numeric
      strings are read, everything else becomes missing. */
  function ToNumeric(c: Cell): (r: Cell)
    ensures r.None? || r.value.VReal?
    ensures c.Some? && c.value.VJson? && c.value.j.JInt? ==> r == Some(VReal(c.value.j.i as real))
    ensures c.Some? && c.value.VJson? && c.value.j.JStr? ==>
              r == match ParseNumber(c.value.j.s) case Some(x) => Some(VReal(x)) case None => None
  {
    match c
    case None => None
    case Some(VInt(i)) => Some(VReal(i as real))
    case Some(VReal(x)) => Some(VReal(x))
    case Some(VJson(JInt(i))) => Some(VReal(i as real))
    case Some(VJson(JStr(s))) =>
      (match ParseNumber(s) case Some(x) => Some(VReal(x)) case None => None)
    case Some(_) => None
  }

  /** A cell is a number or missing. */
  predicate NumericOrMissing(c: Cell) {
    c.None? || c.value.VReal?
  }

  /** `df[col] = f(df[col])` when `col` is a column; otherwise the table. */
  function MapColumn(t: Table, col: string, f: Cell -> Cell): (r: Table)
    requires WellFormed(t)
    ensures WellFormed(r) && r.columns == t.columns && |r.rows| == |t.rows|
    ensures col !in t.columns ==> r == t
    ensures forall i :: 0 <= i < |t.rows| && col in t.columns ==> r.rows[i] == t.rows[i][col := f(t.rows[i][col])]
  {
    if col !in t.columns then t
    else Table(t.columns, seq(|t.rows|, i requires 0 <= i < |t.rows| => t.rows[i][col := f(t.rows[i][col])]))
  }

  // ---------------------------------------------------------------------------
  // df.sort_values(col): numbers and dates by value, missing values last
  // ---------------------------------------------------------------------------

  /** Where a cell sorts: group 0 holds numbers and dates, group 1 anything
      else, group 2 missing values; within group 0 by value. */
  function SortKey(c: Cell): (int, real) {
    match c
    case None => (2, 0.0)
    case Some(VInt(i)) => (0, i as real)
    case Some(VReal(x)) => (0, x)
    case Some(VDate(d)) => (0, if Valid(d) then Ordinal(d) as real else 0.0)
    case Some(_) => (1, 0.0)
  }

  /** The order of `sort_values(ascending=...)`; missing values go last either way. */
  predicate CellLe(a: Cell, b: Cell, ascending: bool) {
    var (ga, va) := SortKey(a);
    var (gb, vb) := SortKey(b);
    ga < gb || (ga == gb && (if ascending then va <= vb else vb <= va))
  }

  function ByColumn(col: string, ascending: bool): (Row, Row) -> bool {
    (a: Row, b: Row) => CellLe(CellOf(a, col), CellOf(b, col), ascending)
  }

  lemma ByColumnPreorder(col: string, ascending: bool)
    ensures TotalPreorder(ByColumn(col, ascending))
  {
    var le := ByColumn(col, ascending);
    forall a, b, c | le(a, b) && le(b, c) ensures le(a, c) {
      assert CellLe(CellOf(a, col), CellOf(b, col), ascending);
    }
  }

  /** `df.sort_values(col, ascending=...)`: the same rows, ordered by `col`. */
  function SortByColumn(t: Table, col: string, ascending: bool): (r: Table)
    ensures r.columns == t.columns
    ensures SortedBy(r.rows, ByColumn(col, ascending))
    ensures multiset(r.rows) == multiset(t.rows)
    ensures |r.rows| == |t.rows| && forall x :: x in r.rows <==> x in t.rows
    ensures WellFormed(t) ==> WellFormed(r)
  {
    ByColumnPreorder(col, ascending);
    var rows := Sort(t.rows, ByColumn(col, ascending));
    assert forall i :: 0 <= i < |rows| ==> rows[i] in multiset(t.rows);
    Table(t.columns, rows)
  }

  // ---------------------------------------------------------------------------
  // Frames with a fixed schema: one record per row
  // ---------------------------------------------------------------------------

  /** A DataFrame whose columns the code fixes: the column names and one
      record per row, each record holding exactly those columns. */
  datatype Frame<R> = Frame(columns: seq<string>, rows: seq<R>)

  /** The order of `sort_values(ascending=...)` on an integer column that may
      hold missing values: missing values go last either way. */
  predicate OptLe(a: Option<int>, b: Option<int>, ascending: bool) {
    match (a, b)
    case (Some(x), Some(y)) => if ascending then x <= y else y <= x
    case (Some(_), None) => true
    case (None, None) => true
    case (None, Some(_)) => false
  }

  function ByKey<R>(key: R -> Option<int>, ascending: bool): (R, R) -> bool {
    (a: R, b: R) => OptLe(key(a), key(b), ascending)
  }

  lemma ByKeyPreorder<R(!new)>(key: R -> Option<int>, ascending: bool)
    ensures TotalPreorder(ByKey(key, ascending))
  {
  }

  /** `sort_values(key)` on a frame of records: the same rows, ordered by the
      key, missing keys last. */
  function SortByKey<R(!new)>(rows: seq<R>, key: R -> Option<int>, ascending: bool): (r: seq<R>)
    ensures SortedBy(r, ByKey(key, ascending))
    ensures multiset(r) == multiset(rows)
    ensures |r| == |rows| && forall x :: x in r <==> x in rows
  {
    ByKeyPreorder(key, ascending);
    var r := Sort(rows, ByKey(key, ascending));
    assert forall x :: x in r <==> x in multiset(rows);
    r
  }
}
