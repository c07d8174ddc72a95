/**
 * The team-rankings transformer: one row per poll entry of the rankings API
 * response, with the school name split from its first-place votes, the
 * win-loss record split into wins and losses, and the movement since the
 * previous poll; the rows ordered by rank.
 */
module Rankings {
  import opened Wrappers
  import opened Text
  import opened Json
  import opened Tables
  import opened Sorting

  const RankingColumns: seq<string> :=
    ["rank", "school", "votes", "points", "previous_rank", "record", "wins", "losses", "movement"]

  lemma RankingColumnsDistinct()
    ensures Distinct(RankingColumns)
  {
  }

  /** The frame returned when there is nothing to transform: no rows and the
      nine ranking columns. */
  function EmptyTeamRankings(): (t: Frame<Entry>)
    ensures t.rows == [] && |t.columns| == 9 && Distinct(t.columns)
    ensures forall c :: c in t.columns <==> c in RankingColumns
  {
    RankingColumnsDistinct();
    Frame(RankingColumns, [])
  }

  /** `item.get(upper, item.get(title, ""))`: the upper-case key wins, the
      title-case key is the fallback and `""` the last resort. */
  function Pick(item: Dict, upper: string, title: string): (v: Json)
    ensures upper in item.fields ==> v == item.fields[upper]
    ensures upper !in item.fields && title in item.fields ==> v == item.fields[title]
    ensures upper !in item.fields && title !in item.fields ==> v == JStr("")
  {
    Get(item, upper, Get(item, title, JStr("")))
  }

  /** Holds a `(` and ends with `)`. */
  predicate Parenthesised(s: string) {
    '(' in s && EndsWith(s, ')')
  }

  /** The text before the last `(` and the text inside the final parentheses
      of a string ending in `)`, each stripped. */
  function CutAtLastParen(s: string): (r: (string, string))
    requires Parenthesised(s)
    ensures Stripped(r.0) && |r.0| < |s|
  {
    var idx := RFind(s, '(').value;
    (Strip(s[..idx]), Strip(s[idx + 1..|s| - 1]))
  }

  /** Splits `"Penn St. (16)"` into the school and its first-place votes. The
      votes are read only when the stripped text ends with `)` and holds a
      `(`; the split is at the last `(`. */
  function ParseSchoolVotes(raw: string): (r: (string, Option<int>))
    ensures Stripped(r.0) && |r.0| <= |raw|
  {
    var s := Strip(raw);
    if Parenthesised(s) then
      var (school, votes) := CutAtLastParen(s);
      (school, ParseInt(votes))
    else (s, None)
  }

  /** Without a trailing parenthesised part there are no votes, and the
      school is the whole stripped text. */
  lemma SchoolWithoutVotes(raw: string)
    ensures ParseSchoolVotes(raw).1.Some? ==> Parenthesised(Strip(raw))
    ensures !Parenthesised(Strip(raw)) ==> ParseSchoolVotes(raw) == (Strip(raw), None)
  {
  }

  /** The last `(` of `school + " (" + inner + ")"` is the one before `inner`. */
  lemma {:induction false} LastParen(school: string, inner: string)
    requires '(' !in inner
    ensures RFind(school + " (" + inner + ")", '(') == Some(|school| + 1)
  {
    var s := school + " (" + inner + ")";
    var p := |school| + 1;
    assert s[p] == '(';
    assert s[p + 1..] == inner + ")";
    assert forall j :: p < j < |s| ==> s[j] != '(' by {
      forall j | p < j < |s| ensures s[j] != '(' {
        assert s[j] == s[p + 1..][j - p - 1];
      }
    }
    var idx := RFind(s, '(').value;
    assert forall j :: idx < j < |s| ==> s[j] != '(' by {
      forall j | idx < j < |s| ensures s[j] != '(' {
        assert s[j] == s[idx + 1..][j - idx - 1];
      }
    }
  }

  lemma {:induction false} CutSchoolInner(school: string, inner: string)
    requires Stripped(school) && school != []
    requires '(' !in inner
    ensures Parenthesised(school + " (" + inner + ")")
    ensures CutAtLastParen(school + " (" + inner + ")") == (school, Strip(inner))
  {
    var s := school + " (" + inner + ")";
    var idx := |school| + 1;
    LastParen(school, inner);
    assert s[idx] == '(';
    assert s[..idx] == school + " ";
    StripTrailingSpace(school);
    assert s[idx + 1..|s| - 1] == inner;
  }

  lemma {:induction false} SchoolVotesOfStripped(s: string)
    requires Stripped(s) && Parenthesised(s)
    ensures ParseSchoolVotes(s) == (CutAtLastParen(s).0, ParseInt(CutAtLastParen(s).1))
  {
    assert Strip(s) == s;
  }

  /** Whatever sits in the trailing parentheses, the school is the text before
      them; the votes are its integer reading, if it has one. */
  lemma {:induction false} SchoolVotesSplit(school: string, inner: string)
    requires Stripped(school) && school != []
    requires '(' !in inner
    ensures ParseSchoolVotes(school + " (" + inner + ")") == (school, ParseInt(inner))
  {
    var s := school + " (" + inner + ")";
    assert Stripped(s) by {
      assert s[0] == school[0] && s[|s| - 1] == ')';
    }
    CutSchoolInner(school, inner);
    SchoolVotesOfStripped(s);
    ParseIntStripped(inner);
  }

  /** `"Penn St. (16)"` reads as `("Penn St.", 16)`: a school name followed by
      its vote count reads back as both. */
  lemma {:induction false} SchoolVotesRoundTrip(school: string, votes: int)
    requires Stripped(school) && school != []
    ensures ParseSchoolVotes(school + " (" + Decimal(votes) + ")") == (school, Some(votes))
  {
    SchoolVotesSplit(school, Decimal(votes));
    DecimalRoundTrip(votes);
  }

  /** Splits a `"15-0"` record into wins and losses: both or neither. */
  function ParseRecord(record: string): (r: (Option<int>, Option<int>))
    ensures r.0.Some? <==> r.1.Some?
    ensures '-' !in record ==> r == (None, None)
  {
    if '-' in record then
      var parts := Split(record, '-');
      if |parts| < 2 then (None, None)
      else
        match (ParseInt(Strip(parts[0])), ParseInt(Strip(parts[1])))
        case (Some(w), Some(l)) => (Some(w), Some(l))
        case _ => (None, None)
    else (None, None)
  }

  /** Any record with a `-`, written as the text before its first `-`, the
      text up to the next `-` and the rest: both parts are read by `int()`
      (so `"10 - 2"` reads as `(10, 2)` and `"07-3"` as `(7, 3)`), and when
      either part does not read as an integer the result is `(None, None)`. */
  lemma {:induction false} RecordParts(a: string, b: string, tail: string)
    requires '-' !in a && '-' !in b
    requires tail == [] || tail[0] == '-'
    ensures ParseRecord(a + "-" + b + tail) ==
      if ParseInt(a).Some? && ParseInt(b).Some? then (ParseInt(a), ParseInt(b)) else (None, None)
  {
    var s := a + "-" + b + tail;
    assert s == a + ['-'] + (b + tail);
    SplitAfter(a, '-', b + tail);
    if tail == [] {
      assert b + tail == b;
      SplitNone(b, '-');
    } else {
      assert b + tail == b + ['-'] + tail[1..];
      SplitAfter(b, '-', tail[1..]);
    }
    assert s[|a|] == '-';
    ParseIntStripped(a);
    ParseIntStripped(b);
  }

  /** `"15-0"` reads as `(15, 0)`, and anything after a further `-` is ignored. */
  lemma {:induction false} RecordRoundTrip(wins: nat, losses: nat, tail: string)
    requires tail == [] || tail[0] == '-'
    ensures ParseRecord(Decimal(wins) + "-" + Decimal(losses) + tail) == (Some(wins), Some(losses))
  {
    var w, l := Decimal(wins), Decimal(losses);
    DigitsOnly(w, '-');
    DigitsOnly(l, '-');
    RecordParts(w, l, tail);
    DecimalRoundTrip(wins);
    DecimalRoundTrip(losses);
  }

  /** Python truthiness of an optional integer. */
  predicate PresentNonZero(o: Option<int>) {
    o.Some? && o.value != 0
  }

  /** Places moved up since the previous poll: previous minus current rank
      when both are known and non-zero, otherwise 0. */
  function Movement(previous: Option<int>, rank: Option<int>): (m: int)
    ensures PresentNonZero(previous) && PresentNonZero(rank) ==> rank.value + m == previous.value
    ensures !(PresentNonZero(previous) && PresentNonZero(rank)) ==> m == 0
    ensures m > 0 <==> PresentNonZero(previous) && PresentNonZero(rank) && rank.value < previous.value
  {
    if PresentNonZero(previous) && PresentNonZero(rank) then previous.value - rank.value else 0
  }

  /** A poll entry the transformer can read: a dict whose school and record
      are strings. */
  predicate ItemShape(item: Json) {
    && item.JObject?
    && Pick(item.obj, "SCHOOL", "School").JStr?
    && Pick(item.obj, "RECORD", "Record").JStr?
  }

  /** The responses the transformer accepts without raising: `None` or a dict
      whose `data`, when present, is a list of readable entries. */
  predicate RankingsShape(raw: Json) {
    && (raw.JNull? || raw.JObject?)
    && (HasKey(raw, "data") ==>
          && raw.obj.fields["data"].JList?
          && forall i :: 0 <= i < |raw.obj.fields["data"].items| ==> ItemShape(raw.obj.fields["data"].items[i]))
  }

  /** One poll entry as the transformer reads it. */
  datatype Entry = Entry(
    rank: Option<int>, school: string, votes: Option<int>, points: Option<int>,
    previous: Option<int>, record: string, wins: Option<int>, losses: Option<int>,
    movement: int)

  /** What every entry read satisfies: the movement is the previous rank minus
      the current one (0 when either is unknown or zero), wins and losses are
      known together, and the school name has no outer whitespace. */
  predicate ConsistentEntry(e: Entry) {
    && (if PresentNonZero(e.previous) && PresentNonZero(e.rank)
        then e.rank.value + e.movement == e.previous.value
        else e.movement == 0)
    && (e.wins.Some? <==> e.losses.Some?)
    && Stripped(e.school)
  }

  /** Reads one entry of `data`; each field comes from its upper-case key,
      else its title-case key (see `Pick`). */
  function ReadEntry(item: Json): (e: Entry)
    requires ItemShape(item)
    ensures ConsistentEntry(e)
  {
    var d := item.obj;
    var (school, votes) := ParseSchoolVotes(Pick(d, "SCHOOL", "School").s);
    var rank := SafeInt(Pick(d, "RANK", "Rank"));
    var previous := SafeInt(Pick(d, "PREVIOUS", "Previous"));
    var record := Pick(d, "RECORD", "Record").s;
    var (wins, losses) := ParseRecord(record);
    var points := SafeInt(Pick(d, "POINTS", "Points"));
    Entry(rank, school, votes, points, previous, record, wins, losses, Movement(previous, rank))
  }

  /** One entry per element of `data`, in input order. */
  function Entries(items: seq<Json>): (rows: seq<Entry>)
    requires forall i :: 0 <= i < |items| ==> ItemShape(items[i])
    ensures |rows| == |items|
    ensures forall i :: 0 <= i < |items| ==> rows[i] == ReadEntry(items[i])
  {
    seq(|items|, i requires 0 <= i < |items| => ReadEntry(items[i]))
  }

  function RankOf(e: Entry): Option<int> { e.rank }

  /** `transform_team_rankings`: builds one row per entry of `data`, then
      sorts the frame by rank. */
  method TransformTeamRankings(raw: Json) returns (t: Frame<Entry>)
    requires RankingsShape(raw)
    ensures !HasKey(raw, "data") ==> t == EmptyTeamRankings()
    ensures HasKey(raw, "data") && raw.obj.fields["data"].items == [] ==> t == Frame([], [])
    ensures HasKey(raw, "data") && raw.obj.fields["data"].items != [] ==>
              && t.columns == RankingColumns
              && |t.rows| == |raw.obj.fields["data"].items|
              && multiset(t.rows) == multiset(Entries(raw.obj.fields["data"].items))
              && SortedBy(t.rows, ByKey(RankOf, true))
              && (forall e :: e in t.rows ==> ConsistentEntry(e))
  {
    if !HasKey(raw, "data") {
      return EmptyTeamRankings();
    }
    var items := raw.obj.fields["data"].items;
    var rows: seq<Entry> := [];
    for i := 0 to |items|
      invariant |rows| == i
      invariant forall j :: 0 <= j < i ==> rows[j] == ReadEntry(items[j])
    {
      rows := rows + [ReadEntry(items[i])];
    }
    if rows == [] {
      return Frame([], []);
    }
    assert rows == Entries(items);
    t := Frame(RankingColumns, SortByKey(rows, RankOf, true));
  }
}
