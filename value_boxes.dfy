/**
 * The dashboard's value-box helpers: the themed stat box, the rank-movement
 * arrow and the circular rank badge. The two HTML helpers are specified by
 * readers that take the markup apart again and recover what was rendered.
 */
module ValueBoxes {
  import opened Wrappers
  import opened Text

  // ---------------------------------------------------------------------------
  // stat_value_box
  // ---------------------------------------------------------------------------

  /** The theme names the dashboard knows, with the Bootstrap class of each;
      "secondary" is drawn in the warning colour. */
  function ThemeMap(): map<string, string> {
    map["primary" := "bg-primary", "secondary" := "bg-warning", "success" := "bg-success",
        "danger" := "bg-danger", "info" := "bg-info"]
  }

  /** `theme_map.get(theme, "bg-primary")`: a known theme gets its own class,
      any other name falls back to the primary class. */
  function ThemeClass(theme: string): (cls: string)
    ensures cls in ThemeMap().Values
    ensures theme in ThemeMap() ==> cls == ThemeMap()[theme]
    ensures cls == "bg-primary" <==> theme !in {"secondary", "success", "danger", "info"}
  {
    if theme in ThemeMap() then
      assert theme == "primary" || theme == "secondary" || theme == "success" || theme == "danger" || theme == "info";
      ThemeMap()[theme]
    else
      assert ThemeMap()["primary"] == "bg-primary";
      "bg-primary"
  }

  /** Distinct known themes are drawn in distinct classes. */
  lemma ThemeClassInjective(a: string, b: string)
    requires a in ThemeMap() && b in ThemeMap() && a != b
    ensures ThemeClass(a) != ThemeClass(b)
  {
  }

  /** The value shown in a box: a string or an integer. */
  datatype BoxValue = Text(s: string) | Number(n: int)

  /** `str(value)` */
  function Str(v: BoxValue): string {
    match v
    case Text(s) => s
    case Number(n) => Decimal(n)
  }

  /** What `ui.value_box` is given. */
  datatype ValueBox = ValueBox(title: string, value: string, theme: string)

  /** `stat_value_box(title, value, theme)`: the value is shown as text
      from which an integer value reads back unchanged. */
  function StatValueBox(title: string, value: BoxValue, theme: string): (b: ValueBox)
    ensures b.title == title && b.theme == ThemeClass(theme)
    ensures value.Text? ==> b.value == value.s
    ensures value.Number? ==> ParseInt(b.value) == Some(value.n)
  {
    if value.Number? then
      DecimalRoundTrip(value.n);
      ValueBox(title, Str(value), ThemeClass(theme))
    else
      ValueBox(title, Str(value), ThemeClass(theme))
  }

  // ---------------------------------------------------------------------------
  // Spans
  // ---------------------------------------------------------------------------

  const Close: string := "</span>"

  /** A span opened by `open` around `body`. */
  function Wrap(open: string, body: string): string {
    open + body + Close
  }

  /** The body of a span opened by `open`, if `s` is one. */
  function Unwrap(s: string, open: string): (r: Option<string>)
    ensures r.Some? ==> Wrap(open, r.value) == s
  {
    if |s| >= |open| + |Close| && s[..|open|] == open && s[|s| - |Close|..] == Close then
      var body := s[|open|..|s| - |Close|];
      assert s == s[..|open|] + body + s[|s| - |Close|..];
      Some(body)
    else None
  }

  lemma UnwrapWrap(open: string, body: string)
    ensures Unwrap(Wrap(open, body), open) == Some(body)
  {
    var s := Wrap(open, body);
    assert s[..|open|] == open;
    assert s[|s| - |Close|..] == Close;
    assert s[|open|..|s| - |Close|] == body;
  }

  /** A string that differs from `open` within its length is not a span
      opened by `open`. */
  lemma UnwrapMismatch(s: string, open: string, k: nat)
    requires k < |s| && k < |open| && s[k] != open[k]
    ensures Unwrap(s, open) == None
  {
    if |s| >= |open| + |Close| {
      assert s[..|open|][k] != open[k];
    }
  }

  /** Reads back an integer written by `str`: an optional minus sign and
      at least one digit. */
  function ReadInteger(t: string): Option<int> {
    if |t| > 0 && t[0] == '-' then Negate(ReadDigits(t[1..])) else ReadDigits(t)
  }

  function ReadDigits(t: string): Option<int> {
    if |t| > 0 && AllDigits(t) then Some(DigitsValue(t)) else None
  }

  function Negate(n: Option<int>): Option<int> {
    match n
    case Some(v) => Some(-v)
    case None => None
  }

  lemma ReadDecimal(n: int)
    ensures ReadInteger(Decimal(n)) == Some(n)
  {
    if n < 0 {
      assert Decimal(n)[1..] == Natural(-n);
    } else {
      assert IsDigit(Decimal(n)[0]);
    }
  }

  // ---------------------------------------------------------------------------
  // movement_indicator
  // ---------------------------------------------------------------------------

  const UpOpen: string := "<span class=\"movement-up\">&#9650; "
  const DownOpen: string := "<span class=\"movement-down\">&#9660; "
  const Same: string := "<span class=\"movement-same\">&#8212;</span>"

  /** `movement_indicator(movement)`: an up arrow and the rise, a down arrow
      and the size of the fall, or a dash. */
  function MovementIndicator(movement: int): string {
    if movement > 0 then Wrap(UpOpen, Decimal(movement))
    else if movement < 0 then Wrap(DownOpen, Decimal(-movement))
    else Same
  }

  /** Reads the movement back from its indicator. */
  function ReadMovement(s: string): Option<int> {
    match Unwrap(s, UpOpen)
    case Some(body) => ReadInteger(body)
    case None =>
      match Unwrap(s, DownOpen)
      case Some(body) => Negate(ReadInteger(body))
      case None => if s == Same then Some(0) else None
  }

  lemma MovementUp(movement: int)
    requires movement > 0
    ensures ReadMovement(MovementIndicator(movement)) == Some(movement)
  {
    ReadDecimal(movement);
    UnwrapWrap(UpOpen, Decimal(movement));
  }

  lemma MovementDown(movement: int)
    requires movement < 0
    ensures ReadMovement(MovementIndicator(movement)) == Some(movement)
  {
    var body := Decimal(-movement);
    assert MovementIndicator(movement) == Wrap(DownOpen, body);
    DownUnwraps(body);
    ReadDecimal(-movement);
  }

  /** A down arrow is not taken for an up arrow. */
  lemma DownUnwraps(body: string)
    ensures Unwrap(Wrap(DownOpen, body), UpOpen) == None
    ensures Unwrap(Wrap(DownOpen, body), DownOpen) == Some(body)
  {
    var s := Wrap(DownOpen, body);
    assert s[22] == DownOpen[22];
    UnwrapMismatch(s, UpOpen, 22);
    UnwrapWrap(DownOpen, body);
  }

  lemma MovementSame()
    ensures ReadMovement(MovementIndicator(0)) == Some(0)
  {
    UnwrapMismatch(Same, UpOpen, 22);
    UnwrapMismatch(Same, DownOpen, 22);
  }

  /** The indicator shows the movement exactly: reading it back gives the
      movement, so distinct movements have distinct indicators. */
  lemma MovementRoundTrip(movement: int)
    ensures ReadMovement(MovementIndicator(movement)) == Some(movement)
  {
    if movement > 0 {
      MovementUp(movement);
    } else if movement < 0 {
      MovementDown(movement);
    } else {
      MovementSame();
    }
  }

  /** The arrow's direction is the movement's sign. */
  lemma MovementDirection(movement: int)
    ensures MovementIndicator(movement)[..|UpOpen|] == UpOpen <==> movement > 0
    ensures MovementIndicator(movement)[..|DownOpen|] == DownOpen <==> movement < 0
    ensures MovementIndicator(movement) == Same <==> movement == 0
  {
    var s := MovementIndicator(movement);
    if movement > 0 {
      assert s[22] != DownOpen[22] && s[22] != Same[22];
    } else if movement < 0 {
      assert s[22] != UpOpen[22] && s[22] != Same[22];
    } else {
      assert s[22] != UpOpen[22] && s[22] != DownOpen[22];
    }
  }

  // ---------------------------------------------------------------------------
  // rank_badge_html
  // ---------------------------------------------------------------------------

  /** The badge's size class. */
  datatype Badge = Top5 | Top10 | Top25

  function BadgeOf(rank: int): Badge {
    if rank <= 5 then Top5 else if rank <= 10 then Top10 else Top25
  }

  /** How far down the table a badge class reaches. */
  function Reach(b: Badge): nat {
    match b
    case Top5 => 5
    case Top10 => 10
    case Top25 => 25
  }

  function BadgeOpen(b: Badge): string {
    match b
    case Top5 => "<span class=\"rank-badge top-5\">"
    case Top10 => "<span class=\"rank-badge top-10\">"
    case Top25 => "<span class=\"rank-badge top-25\">"
  }

  /** A rank in the table's first 25 gets the smallest class that reaches
      it; a better rank never gets a class of wider reach. */
  lemma BadgeReach(rank: int, other: int)
    ensures rank <= 25 ==> rank <= Reach(BadgeOf(rank))
    ensures forall c :: rank <= Reach(c) ==> Reach(BadgeOf(rank)) <= Reach(c)
    ensures rank <= other ==> Reach(BadgeOf(rank)) <= Reach(BadgeOf(other))
  {
  }

  /** `rank_badge_html(rank)`: nothing for a missing rank, else a badge of
      the rank's class showing the rank. */
  function RankBadge(rank: Option<int>): string {
    match rank
    case None => ""
    case Some(r) => Wrap(BadgeOpen(BadgeOf(r)), Decimal(r))
  }

  /** Reads the class and the rank back from a badge. */
  function ReadBadge(s: string): Option<(Badge, int)> {
    match Unwrap(s, BadgeOpen(Top5))
    case Some(body) => ReadRank(Top5, body)
    case None =>
      match Unwrap(s, BadgeOpen(Top10))
      case Some(body) => ReadRank(Top10, body)
      case None =>
        match Unwrap(s, BadgeOpen(Top25))
        case Some(body) => ReadRank(Top25, body)
        case None => None
  }

  function ReadRank(b: Badge, body: string): Option<(Badge, int)> {
    match ReadInteger(body)
    case Some(n) => Some((b, n))
    case None => None
  }

  lemma ReadBadgeOf(b: Badge, body: string)
    ensures ReadBadge(Wrap(BadgeOpen(b), body)) == ReadRank(b, body)
  {
    var s := Wrap(BadgeOpen(b), body);
    UnwrapWrap(BadgeOpen(b), body);
    assert s[28] == BadgeOpen(b)[28];
    if b != Top5 {
      UnwrapMismatch(s, BadgeOpen(Top5), 28);
    }
    if b == Top25 {
      UnwrapMismatch(s, BadgeOpen(Top10), 28);
    }
  }

  /** A badge shows its rank and the rank's class, and a missing rank shows
      nothing at all. */
  lemma BadgeRoundTrip(rank: Option<int>)
    ensures rank.None? <==> RankBadge(rank) == ""
    ensures rank.Some? ==> ReadBadge(RankBadge(rank)) == Some((BadgeOf(rank.value), rank.value))
  {
    if rank.Some? {
      ReadDecimal(rank.value);
      ReadBadgeOf(BadgeOf(rank.value), Decimal(rank.value));
    }
  }
}
