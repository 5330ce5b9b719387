// The Netflix platform: CSV members with one row per profile and event. The
// flow asks which profile is the participant's when the viewing activity
// names several, and both tables keep only that profile's rows.
module Netflix {
  import opened Wrappers
  import opened Strings
  import opened OrderedMaps
  import opened Json
  import opened Sequences
  import opened Sorting
  import opened ExtractionHelpers
  import opened Validate
  import opened Tables
  import opened Records
  import opened CsvFrames
  import opened Commands
  import opened FlowBuilder

  const NetflixKnownFiles := [
    "MyList.csv", "ViewingActivity.csv", "SearchHistory.csv", "IndicatedPreferences.csv",
    "PlaybackRelatedEvents.csv", "InteractiveTitles.csv", "Ratings.csv", "GamePlaySession.txt",
    "IpAddressesLogin.csv", "IpAddressesAccountCreation.txt", "IpAddressesStreaming.csv",
    "Additional Information.pdf", "MessagesSentByNetflix.csv", "SocialMediaConnections.txt",
    "AccountDetails.csv", "ProductCancellationSurvey.txt", "CSContact.csv", "ChatTranscripts.csv",
    "Cover sheet.pdf", "Devices.csv", "ParentalControlsRestrictedTitles.txt", "AvatarHistory.csv",
    "Profiles.csv", "Clickstream.csv", "BillingHistory.csv"
  ]

  const NetflixCategory := DdpCategory("csv", CSV, EN, NetflixKnownFiles)

  /** With 25 known files the 5% threshold is two hits. */
  lemma NetflixNeedsTwoHits(members: seq<Member>)
    ensures ScorableCatalog(CategoryLookup([NetflixCategory]))
    ensures ZipValidationStatus([NetflixCategory], Some(members)) == 0 <==>
      Hits(BaseNames(members), NetflixKnownFiles) >= 2
  {
    assert |NetflixKnownFiles| == 25;
    OneCategoryThreshold(NetflixCategory, members);
  }

  // ---------------------------------------------------------------------------
  // extract_users
  // ---------------------------------------------------------------------------

  function ViewingFrame(c: Codecs, a: Archive): Frame {
    CsvToDf(c, a.raw("ViewingActivity.csv"))
  }

  /** The profile name a row starts with. */
  function ProfileOf(row: Row): Option<string> {
    if |row| > 0 && row[0].JStr? then Some(row[0].s) else None
  }

  /** The names in the first column; a frame without columns has none. */
  function ProfileNames(f: Frame): seq<string> {
    if f.columns == [] then [] else FilterMap(f.rows, ProfileOf)
  }

  /** extract_users: the distinct names of the first column, sorted. */
  function Users(c: Codecs, a: Archive): seq<string> {
    SortBy(Unique(ProfileNames(ViewingFrame(c, a))), StrLe)
  }

  /** Python's order on str is a total preorder. */
  lemma StrLeOrders()
    ensures Total(StrLe) && Transitive(StrLe)
  {
    forall x: string, y: string ensures StrLe(x, y) || StrLe(y, x) {
      StrLeTotal(x, y);
    }
    forall x: string, y: string, z: string | StrLe(x, y) && StrLe(y, z) ensures StrLe(x, z) {
      StrLeTransitive(x, y, z);
    }
  }

  /** The users are sorted, each once, and are exactly the names that start
      a row of the viewing activity. */
  lemma UsersSpec(c: Codecs, a: Archive)
    ensures SortedBy(Users(c, a), StrLe)
    ensures Distinct(Users(c, a))
    ensures forall u :: u in Users(c, a) <==>
      ViewingFrame(c, a).columns != [] &&
      exists i :: 0 <= i < |ViewingFrame(c, a).rows| && ProfileOf(ViewingFrame(c, a).rows[i]) == Some(u)
  {
    UsersSortedDistinct(ProfileNames(ViewingFrame(c, a)));
    ProfileNamesSpec(ViewingFrame(c, a));
  }

  /** Sorting the distinct names keeps each name once, in order. */
  lemma UsersSortedDistinct(names: seq<string>)
    ensures SortedBy(SortBy(Unique(names), StrLe), StrLe)
    ensures Distinct(SortBy(Unique(names), StrLe))
    ensures forall u :: u in SortBy(Unique(names), StrLe) <==> u in names
  {
    StrLeOrders();
    UniqueSpec(names);
    SortBySorted(Unique(names), StrLe);
    SortKeepsDistinct(Unique(names), StrLe);
    forall u ensures u in SortBy(Unique(names), StrLe) <==> u in names {
      assert u in SortBy(Unique(names), StrLe) <==> u in multiset(Unique(names));
    }
  }

  /** The names are those that start a row, when the frame has columns. */
  lemma ProfileNamesSpec(f: Frame)
    ensures forall u :: u in ProfileNames(f) <==>
      f.columns != [] && exists i :: 0 <= i < |f.rows| && ProfileOf(f.rows[i]) == Some(u)
  {
    if f.columns != [] {
      FilterMapFrom(f.rows, ProfileOf);
      forall i | 0 <= i < |f.rows| && ProfileOf(f.rows[i]).Some? ensures ProfileOf(f.rows[i]).value in ProfileNames(f) {
        FilterMapMember(f.rows, i, ProfileOf);
      }
    }
  }

  // ---------------------------------------------------------------------------
  // keep_user
  // ---------------------------------------------------------------------------

  /** The row belongs to the selected profile; a selection that is not a
      string matches no name. */
  predicate Owned(row: Row, user: Option<string>) {
    user.Some? && ProfileOf(row) == user
  }

  function KeepRow(user: Option<string>): Row -> Option<Row> {
    row => if Owned(row, user) then Some(row) else None
  }

  /** keep_user: the rows of the selected profile, in order; a frame without a
      first column makes iloc raise, and is returned as it is. */
  function KeepUser(f: Frame, user: Option<string>): Frame {
    if f.columns == [] then f else Frame(f.columns, FilterMap(f.rows, KeepRow(user)))
  }

  /** The kept rows are exactly the rows of the profile. */
  lemma KeepUserSpec(f: Frame, user: Option<string>)
    ensures KeepUser(f, user).columns == f.columns
    ensures |KeepUser(f, user).rows| <= |f.rows|
    ensures f.columns == [] ==> KeepUser(f, user) == f
    ensures f.columns != [] ==> forall row :: row in KeepUser(f, user).rows <==> row in f.rows && Owned(row, user)
  {
    if f.columns != [] {
      FilterMapFrom(f.rows, KeepRow(user));
      forall row | row in f.rows && Owned(row, user) ensures row in KeepUser(f, user).rows {
        var i :| 0 <= i < |f.rows| && f.rows[i] == row;
        FilterMapMember(f.rows, i, KeepRow(user));
      }
    }
  }

  lemma {:induction false} FilterKeepsKept(rows: seq<Row>, user: Option<string>)
    ensures FilterMap(FilterMap(rows, KeepRow(user)), KeepRow(user)) == FilterMap(rows, KeepRow(user))
    decreases |rows|
  {
    if rows != [] {
      var init := rows[..|rows| - 1];
      var last := rows[|rows| - 1];
      FilterKeepsKept(init, user);
      var prev := FilterMap(init, KeepRow(user));
      if Owned(last, user) {
        FilterMapAppend(prev, [last], KeepRow(user));
        FilterMapSingle(last, KeepRow(user));
      }
    }
  }

  /** Keeping the same profile twice keeps the same rows. */
  lemma KeepUserIdempotent(f: Frame, user: Option<string>)
    ensures KeepUser(KeepUser(f, user), user) == KeepUser(f, user)
  {
    if f.columns != [] {
      FilterKeepsKept(f.rows, user);
    }
  }

  // ---------------------------------------------------------------------------
  // time_string_to_hours
  // ---------------------------------------------------------------------------

  /** A number of seconds as hours rounded to three decimals, in thousandths. */
  function MilliHours(seconds: int): int {
    (10 * seconds + 18) / 36
  }

  /** The rounded value is within half a thousandth of an hour of the exact one. */
  lemma MilliHoursNearest(seconds: int)
    ensures 10 * seconds - 18 < 36 * MilliHours(seconds) <= 10 * seconds + 18
  {
    var n := 10 * seconds + 18;
    assert n == 36 * (n / 36) + n % 36 && 0 <= n % 36 < 36;
  }

  /** A whole number of hours comes out exactly. */
  lemma WholeHours(h: int)
    ensures MilliHours(3600 * h) == 1000 * h
  {
    MilliHoursNearest(3600 * h);
  }

  /** time_string_to_hours: three ":"-separated integers as hours, and the
      integer 0 when the cell is no string, has another number of parts or a
      part that is no integer. */
  function TimeStringToHours(cell: Json): (h: Json)
    ensures h.JInt? ==> h == JInt(0)
    ensures h.JFloat? || h.JInt?
  {
    match cell
    case JStr(s) =>
      var parts := Split(s, ':');
      if |parts| != 3 then JInt(0)
      else
        var hh, mm, ss := ParseInt(parts[0]), ParseInt(parts[1]), ParseInt(parts[2]);
        if hh.Some? && mm.Some? && ss.Some? then JFloat(MilliHours(3600 * hh.value + 60 * mm.value + ss.value))
        else JInt(0)
    case _ => JInt(0)
  }

  lemma NoColonInNumber(n: int)
    ensures ':' !in IntToString(n)
  {
    if n < 0 {
      NatToStringDigits(-n);
      assert IntToString(n) == "-" + NatToString(-n);
    } else {
      NatToStringDigits(n);
    }
  }

  lemma SplitFirst(x: string, rest: string)
    requires ':' !in x
    ensures Split(x + ":" + rest, ':') == [x] + Split(rest, ':')
  {
    var s := x + ":" + rest;
    assert s[|x|] == ':';
    assert forall k :: 0 <= k < |x| ==> s[k] == x[k];
    var i := FirstIndex(s, ':');
    assert s[..i] == x && s[i + 1..] == rest;
  }

  lemma SplitThree(x: string, y: string, z: string)
    requires ':' !in x && ':' !in y && ':' !in z
    ensures Split(x + ":" + y + ":" + z, ':') == [x, y, z]
  {
    assert x + ":" + y + ":" + z == x + ":" + (y + ":" + z);
    SplitFirst(x, y + ":" + z);
    SplitFirst(y, z);
  }

  /** The duration str writes for h hours, m minutes and s seconds reads back
      as that many hours. */
  lemma DurationHours(h: int, m: int, s: int)
    ensures TimeStringToHours(JStr(IntToString(h) + ":" + IntToString(m) + ":" + IntToString(s))) ==
      JFloat(MilliHours(3600 * h + 60 * m + s))
  {
    NoColonInNumber(h);
    NoColonInNumber(m);
    NoColonInNumber(s);
    SplitThree(IntToString(h), IntToString(m), IntToString(s));
    ParseIntToString(h);
    ParseIntToString(m);
    ParseIntToString(s);
  }

  // ---------------------------------------------------------------------------
  // Column selection and renaming
  // ---------------------------------------------------------------------------

  /** The first position of a column name. */
  function Position(cols: seq<string>, name: string): (r: Option<nat>)
    ensures r.Some? ==> r.value < |cols| && cols[r.value] == name
    ensures r.None? <==> name !in cols
  {
    if cols == [] then None
    else if cols[0] == name then Some(0)
    else match Position(cols[1..], name)
      case None => None
      case Some(k) => Some(k + 1)
  }

  /** Where each of the kept columns is; None when one is missing (KeyError). */
  function Positions(cols: seq<string>, keep: seq<string>): (r: Option<seq<nat>>)
    ensures r.Some? ==> |r.value| == |keep|
    ensures r.Some? ==> forall k :: 0 <= k < |keep| ==> r.value[k] < |cols| && cols[r.value[k]] == keep[k]
    ensures r.None? <==> exists k :: 0 <= k < |keep| && keep[k] !in cols
  {
    if keep == [] then Some([])
    else
      var p, ps := Position(cols, keep[0]), Positions(cols, keep[1..]);
      assert forall k :: 0 <= k < |keep[1..]| ==> keep[1..][k] == keep[k + 1];
      if p.Some? && ps.Some? then Some([p.value] + ps.value)
      else None
  }

  /** A cell of a row; NaN past its end. */
  function Cell(row: Row, k: nat): Json {
    if k < |row| then row[k] else JNull
  }

  function Pick(row: Row, idx: seq<nat>): (r: Row)
    ensures |r| == |idx| && forall k :: 0 <= k < |idx| ==> r[k] == Cell(row, idx[k])
  {
    seq(|idx|, k requires 0 <= k < |idx| => Cell(row, idx[k]))
  }

  /** df[columns]: the named columns in the order asked for. */
  function Select(f: Frame, keep: seq<string>): Option<Frame> {
    match Positions(f.columns, keep)
    case None => None
    case Some(idx) => Some(Frame(keep, seq(|f.rows|, i requires 0 <= i < |f.rows| => Pick(f.rows[i], idx))))
  }

  /** df.rename(columns=mapping): every column gets the name the mapping gives it. */
  function Rename(f: Frame, mapping: string -> string): (g: Frame)
    ensures g.rows == f.rows && |g.columns| == |f.columns|
    ensures forall k :: 0 <= k < |f.columns| ==> g.columns[k] == mapping(f.columns[k])
  {
    Frame(seq(|f.columns|, k requires 0 <= k < |f.columns| => mapping(f.columns[k])), f.rows)
  }

  // ---------------------------------------------------------------------------
  // ratings_to_df
  // ---------------------------------------------------------------------------

  const RatingsKeep := ["Title Name", "Thumbs Value", "Event Utc Ts"]

  /** The rename dictionary of ratings_to_df; other names stay. */
  function RatingsRenames(name: string): string {
    if name == "Title Name" then "Titel"
    else if name == "Event Utc Ts" then "Datum en tijd"
    else if name == "Thumbs Value" then "Aantal duimpjes omhoog"
    else name
  }

  const RatingsNames := ["Titel", "Aantal duimpjes omhoog", "Datum en tijd"]

  function RatingsFrame(c: Codecs, a: Archive, user: Option<string>): Frame {
    KeepUser(CsvToDf(c, a.raw("Ratings.csv")), user)
  }

  /** The try block of ratings_to_df on the profile's rows df: a KeyError
      leaves df as it was. */
  function RatingsOf(df: Frame): Frame {
    if df.Empty() then df
    else match Select(df, RatingsKeep)
      case None => df
      case Some(s) => Rename(s, RatingsRenames)
  }

  function RatingsToDf(c: Codecs, a: Archive, user: Option<string>): Frame {
    RatingsOf(RatingsFrame(c, a, user))
  }

  lemma SelectSpec(f: Frame, keep: seq<string>)
    requires Positions(f.columns, keep).Some?
    ensures var idx := Positions(f.columns, keep).value;
      var s := Select(f, keep).value;
      s.columns == keep && |s.rows| == |f.rows| && forall i :: 0 <= i < |f.rows| ==> s.rows[i] == Pick(f.rows[i], idx)
  {
  }

  lemma RatingsRenamed(rows: seq<Row>)
    ensures Rename(Frame(RatingsKeep, rows), RatingsRenames).columns == RatingsNames
  {
  }

  lemma ViewingRenamed(rows: seq<Row>)
    ensures Rename(Frame(ViewingKeep, rows), ViewingRenames) == Frame(ViewingNames, rows)
  {
  }

  /** The profile's ratings keep the title, thumbs and time columns, renamed,
      row by row; an empty frame or a missing column leaves the profile's rows as they are. */
  lemma RatingsSpec(df: Frame)
    ensures df.Empty() || Positions(df.columns, RatingsKeep).None? ==> RatingsOf(df) == df
    ensures !df.Empty() && Positions(df.columns, RatingsKeep).Some? ==>
      var idx := Positions(df.columns, RatingsKeep).value;
      var r := RatingsOf(df);
      r.columns == RatingsNames && |r.rows| == |df.rows| &&
      forall i :: 0 <= i < |df.rows| ==> r.rows[i] == [Cell(df.rows[i], idx[0]), Cell(df.rows[i], idx[1]), Cell(df.rows[i], idx[2])]
  {
    if !df.Empty() && Positions(df.columns, RatingsKeep).Some? {
      var idx := Positions(df.columns, RatingsKeep).value;
      SelectSpec(df, RatingsKeep);
      var s := Select(df, RatingsKeep).value;
      RatingsRenamed(s.rows);
    }
  }

  // ---------------------------------------------------------------------------
  // viewing_activity_to_df
  // ---------------------------------------------------------------------------

  const ViewingKeep := ["Start Time", "Duration", "Title", "Supplemental Video Type"]

  /** The rename dictionary of viewing_activity_to_df; other names stay. */
  function ViewingRenames(name: string): string {
    if name == "Start Time" then "Start tijd"
    else if name == "Title" then "Titel"
    else if name == "Supplemental Video Type" then "Aanvullend informatie"
    else if name == "Duration" then "Aantal uur gekeken"
    else name
  }

  const ViewingNames := ["Start tijd", "Aantal uur gekeken", "Titel", "Aanvullend informatie"]
  const RemoveValues := ["TEASER_TRAILER", "HOOK", "TRAILER", "CINEMAGRAPH"]

  /** A trailer, teaser, hook or cinemagraph, by its supplemental video type. */
  predicate IsPromo(cell: Json) {
    cell.JStr? && cell.s in RemoveValues
  }

  function NoPromo(row: Row): Option<Row> {
    if IsPromo(Cell(row, 3)) then None else Some(row)
  }

  /** df[column] = df[column].apply(time_string_to_hours). */
  function HoursAt(f: Frame, k: nat): Frame {
    Frame(f.columns, seq(|f.rows|, i requires 0 <= i < |f.rows| =>
      if k < |f.rows[i]| then f.rows[i][k := TimeStringToHours(f.rows[i][k])] else f.rows[i]))
  }

  /** The sort key of the start time: the string, NaN last. */
  function StartKey(row: Row, k: nat): Option<string> {
    if Cell(row, k).JStr? then Some(Cell(row, k).s) else None
  }

  predicate StartLe(k: nat, x: Row, y: Row) {
    StartKey(y, k).None? || (StartKey(x, k).Some? && StrLe(StartKey(x, k).value, StartKey(y, k).value))
  }

  function StartOrder(k: nat): (Row, Row) -> bool {
    (x: Row, y: Row) => StartLe(k, x, y)
  }

  lemma StartOrders(k: nat)
    ensures Total(StartOrder(k)) && Transitive(StartOrder(k))
  {
    forall x: Row, y: Row ensures StartOrder(k)(x, y) || StartOrder(k)(y, x) {
      if StartKey(x, k).Some? && StartKey(y, k).Some? { StrLeTotal(StartKey(x, k).value, StartKey(y, k).value); }
    }
    forall x: Row, y: Row, z: Row | StartOrder(k)(x, y) && StartOrder(k)(y, z) ensures StartOrder(k)(x, z) {
      if StartKey(z, k).Some? {
        StrLeTransitive(StartKey(x, k).value, StartKey(y, k).value, StartKey(z, k).value);
      }
    }
  }

  /** sort_values(by=column, ascending=True). */
  function SortOn(f: Frame, k: nat): Frame {
    Frame(f.columns, SortBy(f.rows, StartOrder(k)))
  }

  /** The sort keeps the columns and the rows, and orders the rows by the
      column, NaN last. */
  lemma SortOnSpec(f: Frame, k: nat)
    ensures SortOn(f, k).columns == f.columns
    ensures SortedBy(SortOn(f, k).rows, StartOrder(k))
    ensures multiset(SortOn(f, k).rows) == multiset(f.rows)
    ensures forall row :: row in SortOn(f, k).rows <==> row in f.rows
  {
    StartOrders(k);
    SortBySorted(f.rows, StartOrder(k));
    assert forall row :: row in SortOn(f, k).rows <==> row in multiset(f.rows);
  }

  /** The hours column and the sort, each raising KeyError when its column is missing. */
  function HoursThenSort(df: Frame): Frame {
    match Position(df.columns, "Aantal uur gekeken")
    case None => df
    case Some(h) =>
      var d2 := HoursAt(df, h);
      match Position(d2.columns, "Start tijd")
      case None => d2
      case Some(k) => SortOn(d2, k)
  }

  function ViewingUserFrame(c: Codecs, a: Archive, user: Option<string>): Frame {
    KeepUser(ViewingFrame(c, a), user)
  }

  /** viewing_activity_to_df on the profile's rows df: a KeyError inside the
      try block leaves df as it was; the hours and the sort come after it. */
  function ViewingOf(df: Frame): Frame {
    if df.Empty() then HoursThenSort(df)
    else match Select(df, ViewingKeep)
      case None => df
      case Some(s) => HoursThenSort(Rename(Frame(s.columns, FilterMap(s.rows, NoPromo)), ViewingRenames))
  }

  function ViewingActivityToDf(c: Codecs, a: Archive, user: Option<string>): Frame {
    ViewingOf(ViewingUserFrame(c, a, user))
  }

  /** A watched title as the table shows it: start time, hours watched, title and type. */
  function Watched(row: Row, idx: seq<nat>): Row
    requires |idx| == 4
  {
    [Cell(row, idx[0]), TimeStringToHours(Cell(row, idx[1])), Cell(row, idx[2]), Cell(row, idx[3])]
  }

  /** Selection and the filter: the kept rows are the profile's rows that
      are no promotion, each cut to the four columns. */
  lemma ViewingKept(df: Frame, idx: seq<nat>, s: Frame, kept: seq<Row>)
    requires Positions(df.columns, ViewingKeep) == Some(idx)
    requires Select(df, ViewingKeep) == Some(s) && kept == FilterMap(s.rows, NoPromo)
    ensures forall j :: 0 <= j < |kept| ==> |kept[j]| == 4
    ensures forall row :: row in kept <==>
      exists i :: 0 <= i < |df.rows| && !IsPromo(Cell(df.rows[i], idx[3])) && row == Pick(df.rows[i], idx)
  {
    SelectSpec(df, ViewingKeep);
    FilterMapFrom(s.rows, NoPromo);
    forall row ensures row in kept <==>
      exists i :: 0 <= i < |df.rows| && !IsPromo(Cell(df.rows[i], idx[3])) && row == Pick(df.rows[i], idx)
    {
      if row in kept {
        var i :| 0 <= i < |s.rows| && NoPromo(s.rows[i]) == Some(row);
        assert Cell(s.rows[i], 3) == Cell(df.rows[i], idx[3]);
      }
      if exists i :: 0 <= i < |df.rows| && !IsPromo(Cell(df.rows[i], idx[3])) && row == Pick(df.rows[i], idx) {
        var i :| 0 <= i < |df.rows| && !IsPromo(Cell(df.rows[i], idx[3])) && row == Pick(df.rows[i], idx);
        assert Cell(s.rows[i], 3) == Cell(df.rows[i], idx[3]);
        FilterMapMember(s.rows, i, NoPromo);
      }
    }
    forall j | 0 <= j < |kept| ensures |kept[j]| == 4 {
      assert kept[j] in kept;
    }
  }

  /** The hours column applied to the kept rows turns each of them into its watched row. */
  lemma HoursOfKept(df: Frame, idx: seq<nat>, kept: seq<Row>)
    requires |idx| == 4
    requires forall j :: 0 <= j < |kept| ==> |kept[j]| == 4
    requires forall row :: row in kept <==>
      exists i :: 0 <= i < |df.rows| && !IsPromo(Cell(df.rows[i], idx[3])) && row == Pick(df.rows[i], idx)
    ensures HoursAt(Frame(ViewingNames, kept), 1).columns == ViewingNames
    ensures forall row :: row in HoursAt(Frame(ViewingNames, kept), 1).rows <==>
      exists i :: 0 <= i < |df.rows| && !IsPromo(Cell(df.rows[i], idx[3])) && row == Watched(df.rows[i], idx)
  {
    var hours := HoursAt(Frame(ViewingNames, kept), 1);
    forall row ensures row in hours.rows <==>
      exists i :: 0 <= i < |df.rows| && !IsPromo(Cell(df.rows[i], idx[3])) && row == Watched(df.rows[i], idx)
    {
      if row in hours.rows {
        var j :| 0 <= j < |hours.rows| && hours.rows[j] == row;
        KeptWatched(df, idx, kept, j);
      }
      if exists i :: 0 <= i < |df.rows| && !IsPromo(Cell(df.rows[i], idx[3])) && row == Watched(df.rows[i], idx) {
        var i :| 0 <= i < |df.rows| && !IsPromo(Cell(df.rows[i], idx[3])) && row == Watched(df.rows[i], idx);
        WatchedKept(df, idx, kept, i);
      }
    }
  }

  /** A picked row with its hours cell converted is the watched row. */
  lemma PickHours(row: Row, idx: seq<nat>)
    requires |idx| == 4
    ensures Pick(row, idx)[1 := TimeStringToHours(Pick(row, idx)[1])] == Watched(row, idx)
  {
  }

  /** Each converted kept row is the watched row of a profile row that is no promotion. */
  lemma KeptWatched(df: Frame, idx: seq<nat>, kept: seq<Row>, j: nat)
    requires |idx| == 4
    requires forall j :: 0 <= j < |kept| ==> |kept[j]| == 4
    requires forall row :: row in kept <==>
      exists i :: 0 <= i < |df.rows| && !IsPromo(Cell(df.rows[i], idx[3])) && row == Pick(df.rows[i], idx)
    requires j < |kept|
    ensures exists i :: 0 <= i < |df.rows| && !IsPromo(Cell(df.rows[i], idx[3])) &&
                        HoursAt(Frame(ViewingNames, kept), 1).rows[j] == Watched(df.rows[i], idx)
  {
    assert kept[j] in kept;
    var i :| 0 <= i < |df.rows| && !IsPromo(Cell(df.rows[i], idx[3])) && kept[j] == Pick(df.rows[i], idx);
    PickHours(df.rows[i], idx);
  }

  /** The watched row of each profile row that is no promotion is among the converted kept rows. */
  lemma WatchedKept(df: Frame, idx: seq<nat>, kept: seq<Row>, i: nat)
    requires |idx| == 4
    requires forall row :: row in kept <==>
      exists i :: 0 <= i < |df.rows| && !IsPromo(Cell(df.rows[i], idx[3])) && row == Pick(df.rows[i], idx)
    requires i < |df.rows| && !IsPromo(Cell(df.rows[i], idx[3]))
    ensures Watched(df.rows[i], idx) in HoursAt(Frame(ViewingNames, kept), 1).rows
  {
    assert Pick(df.rows[i], idx) in kept;
    var j :| 0 <= j < |kept| && kept[j] == Pick(df.rows[i], idx);
    PickHours(df.rows[i], idx);
    assert HoursAt(Frame(ViewingNames, kept), 1).rows[j] == Watched(df.rows[i], idx);
  }

  /** The profile's viewing activity, without trailers, teasers, hooks and
      cinemagraphs, with hours watched, sorted by start time. */
  lemma ViewingSpec(df: Frame)
    requires !df.Empty() && Positions(df.columns, ViewingKeep).Some?
    ensures ViewingOf(df).columns == ViewingNames
    ensures SortedBy(ViewingOf(df).rows, StartOrder(0))
    ensures var idx := Positions(df.columns, ViewingKeep).value;
      forall row :: row in ViewingOf(df).rows <==>
        exists i :: 0 <= i < |df.rows| && !IsPromo(Cell(df.rows[i], idx[3])) && row == Watched(df.rows[i], idx)
  {
    var idx := Positions(df.columns, ViewingKeep).value;
    var s := Select(df, ViewingKeep).value;
    var kept := FilterMap(s.rows, NoPromo);
    ViewingKept(df, idx, s, kept);
    HoursOfKept(df, idx, kept);
    ViewingSteps(df, s, kept);
    SortOnSpec(HoursAt(Frame(ViewingNames, kept), 1), 0);
  }

  /** The steps after the selection: the filter, the renaming, the hours and the sort. */
  lemma ViewingSteps(df: Frame, s: Frame, kept: seq<Row>)
    requires !df.Empty() && Select(df, ViewingKeep) == Some(s) && kept == FilterMap(s.rows, NoPromo)
    ensures ViewingOf(df) == SortOn(HoursAt(Frame(ViewingNames, kept), 1), 0)
  {
    SelectSpec(df, ViewingKeep);
    ViewingRenamed(kept);
    assert Position(ViewingNames, "Aantal uur gekeken") == Some(1);
    assert Position(HoursAt(Frame(ViewingNames, kept), 1).columns, "Start tijd") == Some(0);
  }

  /** A missing column ends the try block with the profile's rows as they were. */
  lemma ViewingMissingColumn(df: Frame)
    requires !df.Empty() && Positions(df.columns, ViewingKeep).None?
    ensures ViewingOf(df) == df
  {
  }

  // ---------------------------------------------------------------------------
  // Extraction and the flow
  // ---------------------------------------------------------------------------

  const NetflixIds := ["netflix_ratings", "netflix_viewing_activity"]
  const NetflixTitles := ["Your ratings on Netflix", "What you watched"]

  function NetflixTables(c: Codecs, a: Archive, user: Option<string>): (ts: seq<ConsentTable>)
    ensures |ts| == 2
  {
    [ConsentTable(NetflixIds[0], NetflixTitles[0], RatingsToDf(c, a, user)),
     ConsentTable(NetflixIds[1], NetflixTitles[1], ViewingActivityToDf(c, a, user))]
  }

  /** extraction: the ratings and viewing tables that are not empty. */
  function NetflixExtraction(c: Codecs, a: Archive, user: Option<string>): (ts: seq<ConsentTable>)
    ensures forall t :: t in ts <==> t in NetflixTables(c, a, user) && !t.frame.Empty()
  {
    NonEmptyTables(NetflixTables(c, a, user))
  }

  /** selection.value: the chosen item, for an answer that carries a string. */
  function Selection(p: Payload): Option<string> {
    match p
    case PayloadString(v) => Some(v)
    case PayloadJSON(v) => Some(v)
    case _ => None
  }

  /** extract_data: the only profile directly, a radio prompt among several,
      and None when there is none. The method is a generator in every case;
      one that returns before its first yield hands its value to yield from
      at once, which is what Direct stands for. */
  function ExtractData(c: Codecs, a: Archive): (e: Extraction)
    ensures |Users(c, a)| == 0 <==> e == Direct(None)
    ensures |Users(c, a)| == 1 ==> e == Direct(Some(NetflixExtraction(c, a, Some(Users(c, a)[0]))))
    ensures |Users(c, a)| > 1 ==> e.Prompting? && e.prompts == [RadioPrompt(Users(c, a))]
    ensures |Users(c, a)| > 1 ==> forall u :: e.finish([PayloadString(u)]) == Some(NetflixExtraction(c, a, Some(u)))
  {
    var users := Users(c, a);
    if |users| == 1 then Direct(Some(NetflixExtraction(c, a, Some(users[0]))))
    else if |users| > 1 then
      Prompting([RadioPrompt(users)], (answers: seq<Payload>) =>
        Some(NetflixExtraction(c, a, if answers != [] then Selection(answers[0]) else None)))
    else Direct(None)
  }

  /** NetflixFlow: validate_zip with the catalog, then extract_data. */
  function NetflixPlatform(c: Codecs, open: string -> Zip): Platform {
    NetflixNeedsTwoHits([]);
    Platform(
      (f: string) => ZipValidationStatus([NetflixCategory], open(f)),
      (f: string) => ExtractData(c, Opened(c, open(f))))
  }

  lemma PlatformHooks(c: Codecs, open: string -> Zip, file: string)
    ensures NetflixPlatform(c, open).validate(file) == ZipValidationStatus([NetflixCategory], open(file))
    ensures NetflixPlatform(c, open).extract(file) == ExtractData(c, Opened(c, open(file)))
  {
  }

  /** A recognised archive with one profile goes straight to the review of that profile's tables. */
  lemma OneProfileShowsTables(c: Codecs, open: string -> Zip, session: int, R: seq<Payload>, file: string)
    requires |R| >= 1 && R[0] == PayloadString(file) && open(file).Some?
    requires Hits(BaseNames(open(file).value), NetflixKnownFiles) >= 2
    requires |Users(c, Opened(c, open(file)))| == 1
    ensures |StartFlowRun(NetflixPlatform(c, open), session, R, Some([])).trace| >= 2
    ensures var a := Opened(c, open(file));
      StartFlowRun(NetflixPlatform(c, open), session, R, Some([])).trace[..2] ==
        [Render(FilePrompt), Render(ReviewData(NetflixExtraction(c, a, Some(Users(c, a)[0]))))]
  {
    var a := Opened(c, open(file));
    NetflixNeedsTwoHits(open(file).value);
    ValidFileShowsTables(NetflixPlatform(c, open), session, R, file, NetflixExtraction(c, a, Some(Users(c, a)[0])));
  }

  /** With several profiles the flow asks which one, then reviews the chosen profile's tables. */
  lemma SeveralProfilesAsk(c: Codecs, open: string -> Zip, session: int, R: seq<Payload>, file: string, u: string)
    requires |R| >= 2 && R[0] == PayloadString(file) && R[1] == PayloadString(u) && open(file).Some?
    requires Hits(BaseNames(open(file).value), NetflixKnownFiles) >= 2
    requires |Users(c, Opened(c, open(file)))| > 1
    ensures var a := Opened(c, open(file));
      var trace := StartFlowRun(NetflixPlatform(c, open), session, R, Some([])).trace;
      |trace| >= 3 &&
      trace[..3] == [Render(FilePrompt), Render(RadioPrompt(Users(c, a))), Render(ReviewData(NetflixExtraction(c, a, Some(u))))]
  {
    var a := Opened(c, open(file));
    var p := NetflixPlatform(c, open);
    NetflixNeedsTwoHits(open(file).value);
    PlatformHooks(c, open, file);
    var e := ExtractData(c, a);
    assert e.Prompting? && e.prompts == [RadioPrompt(Users(c, a))];
    assert e.finish([R[1]]) == Some(NetflixExtraction(c, a, Some(u)));
    OnePromptShowsTables(p, session, R, file, RadioPrompt(Users(c, a)), NetflixExtraction(c, a, Some(u)));
  }

  /** Without a profile extract_data returns None, and the flow ends without a consent form. */
  lemma NoProfileSkipsConsent(c: Codecs, open: string -> Zip, session: int, R: seq<Payload>, file: string)
    requires |R| >= 1 && R[0] == PayloadString(file) && open(file).Some?
    requires Hits(BaseNames(open(file).value), NetflixKnownFiles) >= 2
    requires |Users(c, Opened(c, open(file)))| == 0
    ensures StartFlowRun(NetflixPlatform(c, open), session, R, Some([])) == Run([Render(FilePrompt), Exit(0, "Success")], true)
  {
    NetflixNeedsTwoHits(open(file).value);
    NoneSkipsConsent(NetflixPlatform(c, open), session, R, file);
  }
}
