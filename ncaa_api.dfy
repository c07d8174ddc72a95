/**
 * The NCAA API client: the request paths it builds and the loops that merge
 * several responses into one list (the scoreboards of a date range, the
 * pages of a statistics listing). The HTTP request itself is a parameter: a
 * `Fetcher` gives the decoded body for a URL and an optional `page` query
 * parameter, and `JNull` when the request failed (Python `None`).
 */
module NcaaApi {
  import opened Wrappers
  import opened Text
  import opened Dates
  import opened Json

  /** `_get(url, params={"page": p})`: the decoded body, `JNull` on failure. */
  type Fetcher = (string, Option<int>) -> Json

  const DefaultBase: string := "https://ncaa-api.henrygd.me"
  const Sport: string := "wrestling"
  const Division: string := "d1"
  const AllConferences: string := "all-conf"

  /** `s.rstrip("/")`: the longest prefix not ending in a slash, the rest
      being all slashes. */
  function TrimSlashes(s: string): (r: string)
    ensures |r| <= |s| && r == s[..|r|]
    ensures r == [] || r[|r| - 1] != '/'
    ensures forall i :: |r| <= i < |s| ==> s[i] == '/'
    decreases |s|
  {
    if s != [] && s[|s| - 1] == '/' then TrimSlashes(s[..|s| - 1]) else s
  }

  /** Trimming twice trims nothing more. */
  lemma TrimSlashesIdempotent(s: string)
    ensures TrimSlashes(TrimSlashes(s)) == TrimSlashes(s)
  {
  }

  // ---------------------------------------------------------------------------
  // Request paths
  // ---------------------------------------------------------------------------

  /** `/scoreboard/wrestling/d1/{year}/{MM}/{DD}/{conference}`: the
      segments joined by slashes after a leading slash. */
  function ScoreboardPath(d: Date, conference: string): string
    requires Valid(d) && d.year >= 1
  {
    Join(["", "scoreboard", Sport, Division, Natural(d.year), ZeroPad(d.month, 2), ZeroPad(d.day, 2), conference], '/')
  }

  /** The path splits back into its eight segments: the year in full, month
      and day as two digits that read back as the date's, and the
      conference. */
  lemma {:induction false} ScoreboardPathParts(d: Date, conference: string)
    requires Valid(d) && d.year >= 1 && '/' !in conference
    ensures var y, m, dd := Natural(d.year), ZeroPad(d.month, 2), ZeroPad(d.day, 2);
      && Split(ScoreboardPath(d, conference), '/') == ["", "scoreboard", "wrestling", "d1", y, m, dd, conference]
      && DigitsValue(y) == d.year
      && |m| == 2 && DigitsValue(m) == d.month
      && |dd| == 2 && DigitsValue(dd) == d.day
  {
    var y := Natural(d.year);
    assert '/' !in y by {
      assert forall i :: 0 <= i < |y| ==> IsDigit(y[i]);
    }
    var parts := ["", "scoreboard", Sport, Division, y, ZeroPad(d.month, 2), ZeroPad(d.day, 2), conference];
    assert forall i :: 0 <= i < |parts| ==> '/' !in parts[i];
    SplitJoin(parts, '/');
  }

  /** `/stats/wrestling/d1/current/team/{stat_id}`. */
  function TeamStatsPath(statId: int): string {
    "/stats/" + Sport + "/" + Division + "/current/team/" + Decimal(statId)
  }

  /** `/stats/wrestling/d1/current/individual/{stat_id}`. */
  function IndividualStatsPath(statId: int): string {
    "/stats/" + Sport + "/" + Division + "/current/individual/" + Decimal(statId)
  }

  // ---------------------------------------------------------------------------
  // The scoreboards of a date range
  // ---------------------------------------------------------------------------

  /** `g.get("game", g)` */
  function Unwrap(g: Json): Json
    requires g.JObject?
  {
    Get(g.obj, "game", g)
  }

  /** A scoreboard entry the client can tag: a dict that is a game or holds
      one (a dict) under `game`. */
  predicate EntryShape(g: Json) {
    g.JObject? && Unwrap(g).JObject?
  }

  /** The game of an entry after `game["_fetch_date"] = stamp`. */
  function TagGame(g: Json, stamp: string): Json
    requires EntryShape(g)
  {
    JObject(Set(Unwrap(g).obj, "_fetch_date", JStr(stamp)))
  }

  /** The tagged games of a list of entries, in order. */
  function TagAll(entries: seq<Json>, stamp: string): (r: seq<Json>)
    requires forall i :: 0 <= i < |entries| ==> EntryShape(entries[i])
    ensures |r| == |entries|
    decreases |entries|
  {
    if entries == [] then []
    else TagAll(entries[..|entries| - 1], stamp) + [TagGame(entries[|entries| - 1], stamp)]
  }

  /** A scoreboard response the client can read: `None` or a dict whose
      `games`, when present in a non-empty dict, is a list of taggable
      entries. */
  predicate ScoreboardShape(resp: Json) {
    && (resp.JNull? || resp.JObject?)
    && (HasKey(resp, "games") ==>
          && resp.obj.fields["games"].JList?
          && forall i :: 0 <= i < |resp.obj.fields["games"].items| ==> EntryShape(resp.obj.fields["games"].items[i]))
  }

  /** The entries of a response that lists games. */
  function Entries(resp: Json): seq<Json>
    requires ScoreboardShape(resp) && HasKey(resp, "games")
  {
    resp.obj.fields["games"].items
  }

  /** What one day adds: nothing when the response is falsy or has no
      `games`, otherwise every game tagged with the day. */
  function DayGames(resp: Json, stamp: string): seq<Json>
    requires ScoreboardShape(resp)
  {
    if HasKey(resp, "games") then TagAll(Entries(resp), stamp) else []
  }

  /** The dates `start`, `start + 1 day`, ... (`n` of them). */
  function Days(start: Date, n: nat): (r: seq<Date>)
    requires Valid(start)
    ensures |r| == n
    ensures forall k :: 0 <= k < n ==> Valid(r[k]) && r[k].year >= start.year
    decreases n
  {
    if n == 0 then [] else [start] + Days(NextDay(start), n - 1)
  }

  /** How many dates lie between `start` and `end`, both included. */
  function DayCount(start: Date, end: Date): nat
    requires Valid(start) && Valid(end)
  {
    if Ordinal(start) <= Ordinal(end) then Ordinal(end) - Ordinal(start) + 1 else 0
  }

  /** The days visited are consecutive: the `k`-th is `k` days after the
      start, so each date of the range is visited once, in order, and the
      last is `end`. */
  lemma {:induction false} DaysConsecutive(start: Date, n: nat)
    requires Valid(start)
    ensures forall k :: 0 <= k < n ==> Ordinal(Days(start, n)[k]) == Ordinal(start) + k
    decreases n
  {
    if n > 0 {
      NextDayOrdinal(start);
      DaysConsecutive(NextDay(start), n - 1);
      var r := Days(start, n);
      assert forall k :: 1 <= k < n ==> r[k] == Days(NextDay(start), n - 1)[k - 1];
    }
  }

  /** The range ends on `end` when it is not empty. */
  lemma {:induction false} DaysEndOnEnd(start: Date, end: Date)
    requires Valid(start) && Valid(end) && Ordinal(start) <= Ordinal(end)
    ensures var days := Days(start, DayCount(start, end)); days[|days| - 1] == end
  {
    var days := Days(start, DayCount(start, end));
    DaysConsecutive(start, DayCount(start, end));
    OrdinalOrder(days[|days| - 1], end);
  }

  /** Every game of a day that answered is the entry's game with the
      day's ISO date under `_fetch_date`, all other keys unchanged. */
  lemma {:induction false} DayGamesTagged(resp: Json, stamp: string, i: int)
    requires ScoreboardShape(resp) && HasKey(resp, "games") && 0 <= i < |Entries(resp)|
    ensures var g, game := DayGames(resp, stamp)[i], Unwrap(Entries(resp)[i]);
      && g.JObject?
      && g.obj.fields == game.obj.fields["_fetch_date" := JStr(stamp)]
      && g.obj.fields["_fetch_date"] == JStr(stamp)
  {
    TagAllAt(Entries(resp), stamp, i);
  }

  lemma {:induction false} TagAllAt(entries: seq<Json>, stamp: string, i: int)
    requires forall k :: 0 <= k < |entries| ==> EntryShape(entries[k])
    requires 0 <= i < |entries|
    ensures TagAll(entries, stamp)[i] == TagGame(entries[i], stamp)
    decreases |entries|
  {
    if i < |entries| - 1 {
      TagAllAt(entries[..|entries| - 1], stamp, i);
    }
  }

  /** A day whose response is falsy or lacks `games` adds nothing. */
  lemma DayWithoutGames(resp: Json, stamp: string)
    requires ScoreboardShape(resp) && !HasKey(resp, "games")
    ensures DayGames(resp, stamp) == []
  {
  }

  // ---------------------------------------------------------------------------
  // Paginated statistics
  // ---------------------------------------------------------------------------

  /** A page the client can merge: falsy, or a dict whose `data` (default
      `[]`) is a list. */
  predicate PageShape(page: Json) {
    !Truthy(page) || (page.JObject? && Get(page.obj, "data", JList([])).JList?)
  }

  /** The rows a page adds: none for a failed page. */
  function PageData(page: Json): seq<Json>
    requires PageShape(page)
  {
    if Truthy(page) then Get(page.obj, "data", JList([])).items else []
  }

  /** `int(first_page.get("pages", 1))` */
  function TotalPages(first: Json): Option<int>
    requires first.JObject?
  {
    PyInt(Get(first.obj, "pages", JInt(1)))
  }

  /** The rows of pages `p` to `last`, page after page. */
  function PagesFrom(fetch: Fetcher, url: string, p: int, last: int): seq<Json>
    requires forall q :: p <= q <= last ==> PageShape(fetch(url, Some(q)))
    decreases last - p
  {
    if p > last then [] else PageData(fetch(url, Some(p))) + PagesFrom(fetch, url, p + 1, last)
  }

  /** A listing the client can merge: a falsy first page, or a dict with a
      list of rows and a page count `int()` accepts, whose later pages
      are mergeable. */
  predicate ListingShape(fetch: Fetcher, url: string) {
    var first := fetch(url, Some(1));
    Truthy(first) ==>
      && PageShape(first) && first.JObject? && TotalPages(first).Some?
      && forall q :: 2 <= q <= TotalPages(first).value ==> PageShape(fetch(url, Some(q)))
  }

  /** The merged rows of a paginated listing: none when the first page
      fails, otherwise its rows followed by those of pages 2 to `pages`. */
  function MergedPages(fetch: Fetcher, url: string): seq<Json>
    requires ListingShape(fetch, url)
  {
    var first := fetch(url, Some(1));
    if !Truthy(first) then [] else PageData(first) + PagesFrom(fetch, url, 2, TotalPages(first).value)
  }

  /** Later pages follow earlier ones: the rows of pages `p..last` are
      those of `p..m` followed by those of `m+1..last`. */
  lemma {:induction false} PagesSplit(fetch: Fetcher, url: string, p: int, m: int, last: int)
    requires forall q :: p <= q <= last ==> PageShape(fetch(url, Some(q)))
    requires p - 1 <= m <= last
    ensures PagesFrom(fetch, url, p, last) == PagesFrom(fetch, url, p, m) + PagesFrom(fetch, url, m + 1, last)
    decreases m - p
  {
    if p <= m {
      PagesSplit(fetch, url, p + 1, m, last);
    }
  }

  /** A failed page is skipped: the merge is the pages before it followed
      by the pages after it. */
  lemma {:induction false} FailedPageSkipped(fetch: Fetcher, url: string, p: int, q: int, last: int)
    requires forall r :: p <= r <= last ==> PageShape(fetch(url, Some(r)))
    requires p <= q <= last && !Truthy(fetch(url, Some(q)))
    ensures PagesFrom(fetch, url, p, last) == PagesFrom(fetch, url, p, q - 1) + PagesFrom(fetch, url, q + 1, last)
  {
    PagesSplit(fetch, url, p, q - 1, last);
    assert PagesFrom(fetch, url, q, last) == PagesFrom(fetch, url, q + 1, last);
  }

  /** Every merged row comes from a page that answered, within the range. */
  lemma {:induction false} PagesOrigin(fetch: Fetcher, url: string, p: int, last: int, x: Json)
    requires forall q :: p <= q <= last ==> PageShape(fetch(url, Some(q)))
    requires x in PagesFrom(fetch, url, p, last)
    ensures exists q :: p <= q <= last && Truthy(fetch(url, Some(q))) && x in PageData(fetch(url, Some(q)))
    decreases last - p
  {
    if x !in PageData(fetch(url, Some(p))) {
      PagesOrigin(fetch, url, p + 1, last, x);
    }
  }

  /** A failed first page gives nothing; a listing of one page gives the
      first page's rows. */
  lemma MergedPagesEdges(fetch: Fetcher, url: string)
    requires ListingShape(fetch, url)
    ensures !Truthy(fetch(url, Some(1))) ==> MergedPages(fetch, url) == []
    ensures Truthy(fetch(url, Some(1))) && TotalPages(fetch(url, Some(1))).value <= 1 ==>
              MergedPages(fetch, url) == PageData(fetch(url, Some(1)))
  {
  }

  lemma AppendAssoc(a: seq<Json>, b: seq<Json>, c: seq<Json>)
    ensures (a + b) + c == a + (b + c)
  {
  }

  class Client {
    /** `self.base_url`, without trailing slashes. */
    const baseUrl: string

    constructor(base: string)
      ensures baseUrl == TrimSlashes(base)
    {
      baseUrl := TrimSlashes(base);
    }

    /** `f"{self.base_url}{path}"` */
    function Url(path: string): string {
      baseUrl + path
    }

    /** The response for a day's scoreboard of all conferences. */
    function DayResponse(fetch: Fetcher, d: Date): Json
      requires Valid(d) && d.year >= 1
    {
      fetch(Url(ScoreboardPath(d, AllConferences)), None)
    }

    /** `get_scoreboard(target_date, conference)`: today's when no date is
        given. */
    function GetScoreboard(fetch: Fetcher, target: Option<Date>, today: Date, conference: string): Json
      requires var d := if target.Some? then target.value else today; Valid(d) && d.year >= 1
    {
      var d := if target.Some? then target.value else today;
      fetch(Url(ScoreboardPath(d, conference)), None)
    }

    /** Every day of the list answers with a readable scoreboard. */
    predicate DaysShape(fetch: Fetcher, days: seq<Date>) {
      forall k :: 0 <= k < |days| ==> Valid(days[k]) && days[k].year >= 1 && ScoreboardShape(DayResponse(fetch, days[k]))
    }

    /** The games of the listed days, day after day. */
    function GamesOn(fetch: Fetcher, days: seq<Date>): seq<Json>
      requires DaysShape(fetch, days)
    {
      if days == [] then []
      else DayGames(DayResponse(fetch, days[0]), IsoFormat(days[0])) + GamesOn(fetch, days[1..])
    }

    /** The responses of a date range are readable. */
    predicate RangeShape(fetch: Fetcher, start: Date, end: Date) {
      && Valid(start) && Valid(end) && start.year >= 1
      && DaysShape(fetch, Days(start, DayCount(start, end)))
    }

    /** What `get_scoreboard_range(start, end)` returns. */
    function ScoreboardRange(fetch: Fetcher, start: Date, end: Date): seq<Json>
      requires RangeShape(fetch, start, end)
    {
      GamesOn(fetch, Days(start, DayCount(start, end)))
    }

    /** A range that starts after it ends visits no day and returns no game. */
    lemma RangeEmpty(fetch: Fetcher, start: Date, end: Date)
      requires Valid(start) && Valid(end) && start.year >= 1 && Ordinal(end) < Ordinal(start)
      ensures RangeShape(fetch, start, end) && ScoreboardRange(fetch, start, end) == []
    {
    }

    /** Readable responses on two lists of days are readable on both. */
    lemma DaysShapeAppend(fetch: Fetcher, a: seq<Date>, b: seq<Date>)
      requires DaysShape(fetch, a) && DaysShape(fetch, b)
      ensures DaysShape(fetch, a + b)
    {
      var ab := a + b;
      assert forall k :: 0 <= k < |ab| ==> ab[k] == if k < |a| then a[k] else b[k - |a|];
    }

    /** The games of earlier days come first, each day's in its own order. */
    lemma {:induction false} GamesOnAppend(fetch: Fetcher, a: seq<Date>, b: seq<Date>)
      requires DaysShape(fetch, a) && DaysShape(fetch, b)
      ensures DaysShape(fetch, a + b)
      ensures GamesOn(fetch, a + b) == GamesOn(fetch, a) + GamesOn(fetch, b)
    {
      DaysShapeAppend(fetch, a, b);
      if a == [] {
        assert a + b == b;
      } else {
        var ab := a + b;
        assert ab[0] == a[0] && ab[1..] == a[1..] + b;
        GamesOnAppend(fetch, a[1..], b);
        AppendAssoc(DayGames(DayResponse(fetch, a[0]), IsoFormat(a[0])), GamesOn(fetch, a[1..]), GamesOn(fetch, b));
      }
    }

    /** The number of games the listed days report. */
    function GameCount(fetch: Fetcher, days: seq<Date>): nat
      requires DaysShape(fetch, days)
    {
      if days == [] then 0
      else
        var resp := DayResponse(fetch, days[0]);
        (if HasKey(resp, "games") then |Entries(resp)| else 0) + GameCount(fetch, days[1..])
    }

    /** One entry per game listed on a day that answered. */
    lemma {:induction false} GamesOnCount(fetch: Fetcher, days: seq<Date>)
      requires DaysShape(fetch, days)
      ensures |GamesOn(fetch, days)| == GameCount(fetch, days)
    {
      if days != [] {
        GamesOnCount(fetch, days[1..]);
      }
    }

    /** One day of `get_scoreboard_range`: fetch the day's scoreboard and
        append each listed game, tagged with the day, in order. */
    method AppendDay(fetch: Fetcher, games0: seq<Json>, day: Date) returns (games: seq<Json>)
      requires Valid(day) && day.year >= 1 && ScoreboardShape(DayResponse(fetch, day))
      ensures games == games0 + DayGames(DayResponse(fetch, day), IsoFormat(day))
    {
      games := games0;
      var data := GetScoreboard(fetch, Some(day), day, AllConferences);
      if HasKey(data, "games") {
        var entries := data.obj.fields["games"].items;
        var stamp := IsoFormat(day);
        for k := 0 to |entries|
          invariant games == games0 + TagAll(entries[..k], stamp)
        {
          assert entries[..k + 1][..k] == entries[..k];
          games := games + [TagGame(entries[k], stamp)];
        }
        assert entries[..|entries|] == entries;
      }
    }

    /** One step of the walk: the first remaining day answers readably, and
        its games come before those of the days after it. */
    lemma {:induction false} RangeStep(fetch: Fetcher, current: Date, end: Date)
      requires Valid(current) && current.year >= 1 && Valid(end) && Ordinal(current) <= Ordinal(end)
      requires DaysShape(fetch, Days(current, DayCount(current, end)))
      ensures ScoreboardShape(DayResponse(fetch, current))
      ensures DaysShape(fetch, Days(NextDay(current), DayCount(NextDay(current), end)))
      ensures GamesOn(fetch, Days(current, DayCount(current, end)))
              == DayGames(DayResponse(fetch, current), IsoFormat(current))
                 + GamesOn(fetch, Days(NextDay(current), DayCount(NextDay(current), end)))
    {
      NextDayOrdinal(current);
      var rest := Days(current, DayCount(current, end));
      assert rest[0] == current;
      assert rest[1..] == Days(NextDay(current), DayCount(NextDay(current), end));
    }

    /** `get_scoreboard_range(start, end)`: the games of every day from
        `start` to `end`, each tagged with the day it was fetched for. */
    method GetScoreboardRange(fetch: Fetcher, start: Date, end: Date) returns (games: seq<Json>)
      requires RangeShape(fetch, start, end)
      ensures games == ScoreboardRange(fetch, start, end)
    {
      games := [];
      var current := start;
      ghost var total := ScoreboardRange(fetch, start, end);
      // `current <= end` on dates is the order of their ordinals (Dates.OrdinalOrder).
      while Ordinal(current) <= Ordinal(end)
        invariant Valid(current) && current.year >= 1
        invariant DaysShape(fetch, Days(current, DayCount(current, end)))
        invariant games + GamesOn(fetch, Days(current, DayCount(current, end))) == total
        decreases Ordinal(end) - Ordinal(current)
      {
        RangeStep(fetch, current, end);
        NextDayOrdinal(current);
        ghost var before := games;
        ghost var later := GamesOn(fetch, Days(NextDay(current), DayCount(NextDay(current), end)));
        games := AppendDay(fetch, games, current);
        AppendAssoc(before, DayGames(DayResponse(fetch, current), IsoFormat(current)), later);
        current := NextDay(current);
      }
      assert DayCount(current, end) == 0;
    }

    // -------------------------------------------------------------------------
    // Paginated statistics
    // -------------------------------------------------------------------------

    /** The loop of `get_all_team_stats` and `get_all_individual_stats`. */
    method GetAllPages(fetch: Fetcher, path: string) returns (rows: seq<Json>)
      requires ListingShape(fetch, Url(path))
      ensures rows == MergedPages(fetch, Url(path))
    {
      var url := Url(path);
      var first := fetch(url, Some(1));
      if !Truthy(first) {
        return [];
      }
      rows := PageData(first);
      var total := TotalPages(first).value;
      var p := 2;
      while p <= total
        invariant 2 <= p && (p <= total + 1 || total < 2)
        invariant rows + PagesFrom(fetch, url, p, total) == MergedPages(fetch, url)
        decreases total - p
      {
        var page := fetch(url, Some(p));
        if Truthy(page) {
          rows := rows + PageData(page);
        }
        p := p + 1;
      }
    }

    /** `get_all_team_stats(stat_id)` */
    method GetAllTeamStats(fetch: Fetcher, statId: int) returns (rows: seq<Json>)
      requires ListingShape(fetch, Url(TeamStatsPath(statId)))
      ensures rows == MergedPages(fetch, Url(TeamStatsPath(statId)))
    {
      rows := GetAllPages(fetch, TeamStatsPath(statId));
    }

    /** `get_all_individual_stats(stat_id)` */
    method GetAllIndividualStats(fetch: Fetcher, statId: int) returns (rows: seq<Json>)
      requires ListingShape(fetch, Url(IndividualStatsPath(statId)))
      ensures rows == MergedPages(fetch, Url(IndividualStatsPath(statId)))
    {
      rows := GetAllPages(fetch, IndividualStatsPath(statId));
    }

    // -------------------------------------------------------------------------
    // Schools
    // -------------------------------------------------------------------------

    /** `get_schools()`: the schools index when the response is a list,
        otherwise an empty list (a failed request included). */
    function GetSchools(fetch: Fetcher): (r: seq<Json>)
      ensures fetch(Url("/schools-index"), None).JList? ==> r == fetch(Url("/schools-index"), None).items
      ensures !fetch(Url("/schools-index"), None).JList? ==> r == []
    {
      var data := fetch(Url("/schools-index"), None);
      if data.JList? then data.items else []
    }
  }
}
