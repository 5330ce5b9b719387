// The TikTok platform: its members are text files of "Key: value" lines, and
// each extractor collects the records that a multi-line pattern finds, with
// the value after each key as a cell.
module TikTok {
  import opened Wrappers
  import opened Strings
  import opened Json
  import opened ExtractionHelpers
  import opened Validate
  import opened Tables
  import opened Records
  import opened Commands
  import opened FlowBuilder
  import opened ZipFlow

  const TikTokKnownFiles := [
    "Transaction History.txt", "Most Recent Location Data.txt", "Comments.txt", "Purchases.txt",
    "Share History.txt", "Favorite Sounds.txt", "Searches.txt", "Login History.txt",
    "Favorite Videos.txt", "Favorite HashTags.txt", "Hashtag.txt", "Location Reviews.txt",
    "Favorite Effects.txt", "Following.txt", "Status.txt", "Browsing History.txt", "Like List.txt",
    "Follower.txt", "Watch Live settings.txt", "Go Live settings.txt", "Go Live History.txt"
  ] + TikTokKnownFilesTail

  const TikTokKnownFilesTail := [
    "Watch Live History.txt", "Profile Info.txt", "Autofill.txt", "Post.txt", "Block List.txt",
    "Settings.txt", "Customer support history.txt", "Communication with shops.txt",
    "Current Payment Information.txt", "Returns and Refunds History.txt", "Product Reviews.txt",
    "Order History.txt", "Vouchers.txt", "Saved Address Information.txt", "Order dispute history.txt",
    "Product Browsing History.txt", "Shopping Cart List.txt", "Direct Messages.txt",
    "Off TikTok Activity.txt", "Ad Interests.txt"
  ]

  const TikTokCategory := DdpCategory("txt_en", TXT, EN, TikTokKnownFiles)

  /** With 41 known files the 5% threshold is three hits. */
  lemma TikTokNeedsThreeHits(members: seq<Member>)
    ensures ScorableCatalog(CategoryLookup([TikTokCategory]))
    ensures ZipValidationStatus([TikTokCategory], Some(members)) == 0 <==>
      Hits(BaseNames(members), TikTokKnownFiles) >= 3
  {
    assert |TikTokKnownFiles| == 41;
    OneCategoryThreshold(TikTokCategory, members);
  }

  // ---------------------------------------------------------------------------
  // Line patterns
  // ---------------------------------------------------------------------------

  /** A MULTILINE pattern "^K1(.*?)\nK2(.*?)…$": for each consecutive line
      the keys it may start with, tried in order; each line's cell is the rest
      of the line after its key ("." does not cross a newline). */
  type LinePattern = seq<seq<string>>

  /** The rest of line after the first of keys it starts with. */
  function Capture(line: string, keys: seq<string>): Option<string> {
    if keys == [] then None
    else if keys[0] <= line then Some(line[|keys[0]|..])
    else Capture(line, keys[1..])
  }

  /** A line is captured exactly when it starts with one of the keys, and
      then the cell is the rest after the first such key. */
  lemma {:induction false} CaptureSpec(line: string, keys: seq<string>)
    ensures Capture(line, keys).Some? <==> exists k :: 0 <= k < |keys| && keys[k] <= line
    ensures Capture(line, keys).Some? ==> exists k :: 0 <= k < |keys| && keys[k] <= line && Capture(line, keys).value == line[|keys[k]|..] && forall j :: 0 <= j < k ==> !(keys[j] <= line)
  {
    if keys != [] && !(keys[0] <= line) {
      CaptureSpec(line, keys[1..]);
      assert forall k :: 1 <= k < |keys| ==> keys[k] == keys[1..][k - 1];
      if Capture(line, keys).Some? {
        var k :| 0 <= k < |keys[1..]| && keys[1..][k] <= line &&
          Capture(line, keys).value == line[|keys[1..][k]|..] && forall j :: 0 <= j < k ==> !(keys[1..][j] <= line);
        assert keys[k + 1] <= line && forall j :: 0 <= j < k + 1 ==> !(keys[j] <= line);
      }
    }
  }

  /** The cells of a match of pat starting at line i, if it matches there. */
  function Captures(lines: seq<string>, i: nat, pat: LinePattern): Option<seq<string>>
    decreases |pat|
  {
    if pat == [] then Some([])
    else if i >= |lines| then None
    else match Capture(lines[i], pat[0])
      case None => None
      case Some(x) =>
        match Captures(lines, i + 1, pat[1..])
        case None => None
        case Some(xs) => Some([x] + xs)
  }

  /** A match at line i covers the next |pat| lines, each starting with one
      of its keys, and holds the rest of each of them. */
  lemma {:induction false} CapturesSpec(lines: seq<string>, i: nat, pat: LinePattern)
    requires i <= |lines|
    ensures Captures(lines, i, pat).Some? <==>
      i + |pat| <= |lines| && forall k :: 0 <= k < |pat| ==> Capture(lines[i + k], pat[k]).Some?
    ensures Captures(lines, i, pat).Some? ==> |Captures(lines, i, pat).value| == |pat|
    ensures Captures(lines, i, pat).Some? ==>
      forall k :: 0 <= k < |pat| ==> Captures(lines, i, pat).value[k] == Capture(lines[i + k], pat[k]).value
    decreases |pat|
  {
    if pat != [] && i < |lines| {
      CapturesSpec(lines, i + 1, pat[1..]);
      assert lines[i + 0] == lines[i];
      forall k | 1 <= k < |pat| && i + k < |lines|
        ensures Capture(lines[i + k], pat[k]) == Capture(lines[i + 1 + (k - 1)], pat[1..][k - 1])
      {
      }
      if Capture(lines[i], pat[0]).Some? && Captures(lines, i + 1, pat[1..]).Some? {
        forall k | 0 <= k < |pat| ensures Capture(lines[i + k], pat[k]).Some? {
          if k > 0 {
            assert Capture(lines[i + k], pat[k]) == Capture(lines[i + 1 + (k - 1)], pat[1..][k - 1]);
          }
        }
      } else if Capture(lines[i], pat[0]).None? {
        assert !Capture(lines[i + 0], pat[0]).Some?;
      } else if i + |pat| <= |lines| {
        var k' :| 0 <= k' < |pat| - 1 && !Capture(lines[i + 1 + k'], pat[1..][k']).Some?;
        assert !Capture(lines[i + (k' + 1)], pat[k' + 1]).Some?;
      }
    }
  }

  /** re.findall from line i: scan the lines, take a match and resume after
      the lines it covers, or move one line on. */
  function FindAll(lines: seq<string>, pat: LinePattern, i: nat): seq<seq<string>>
    requires pat != []
    decreases |lines| - i
  {
    if i >= |lines| then []
    else match Captures(lines, i, pat)
      case Some(r) => [r] + FindAll(lines, pat, i + |pat|)
      case None => FindAll(lines, pat, i + 1)
  }

  /** Every line where the pattern matches, in order, overlapping or not. */
  function Starts(lines: seq<string>, pat: LinePattern, i: nat): seq<seq<string>>
    decreases |lines| - i
  {
    if i >= |lines| then []
    else match Captures(lines, i, pat)
      case Some(r) => [r] + Starts(lines, pat, i + 1)
      case None => Starts(lines, pat, i + 1)
  }

  /** No line can start with a key of the first line and with a key of a
      later line: no key of the one is a prefix of a key of the other. */
  predicate Unambiguous(pat: LinePattern) {
    pat != [] &&
    forall k, a, b :: 1 <= k < |pat| && 0 <= a < |pat[0]| && 0 <= b < |pat[k]| ==>
      !(pat[0][a] <= pat[k][b]) && !(pat[k][b] <= pat[0][a])
  }

  /** Two prefixes of one line: the shorter is a prefix of the longer. */
  lemma PrefixesNest(x: string, y: string, line: string)
    requires x <= line && y <= line
    ensures x <= y || y <= x
  {
    if |x| <= |y| { assert y[..|x|] == line[..|x|]; } else { assert x[..|y|] == line[..|y|]; }
  }

  /** Inside a match, no later line starts another one. */
  lemma InsideMatchNoStart(lines: seq<string>, pat: LinePattern, i: nat, k: nat)
    requires Unambiguous(pat) && Captures(lines, i, pat).Some? && 1 <= k < |pat|
    ensures Captures(lines, i + k, pat).None?
  {
    CapturesSpec(lines, i, pat);
    var line := lines[i + k];
    CaptureSpec(line, pat[k]);
    CaptureSpec(line, pat[0]);
    var b :| 0 <= b < |pat[k]| && pat[k][b] <= line;
    forall a | 0 <= a < |pat[0]| ensures !(pat[0][a] <= line) {
      if pat[0][a] <= line { PrefixesNest(pat[0][a], pat[k][b], line); }
    }
    CapturesSpec(lines, i + k, pat);
  }

  /** Starts skips lines where no match begins. */
  lemma {:induction false} StartsSkip(lines: seq<string>, pat: LinePattern, i: nat, j: nat)
    requires i <= j && forall m :: i <= m < j ==> Captures(lines, m, pat).None?
    ensures Starts(lines, pat, i) == Starts(lines, pat, j) || i >= |lines|
    decreases j - i
  {
    if i < j && i < |lines| {
      StartsSkip(lines, pat, i + 1, j);
      if i + 1 >= |lines| {
        assert Starts(lines, pat, i + 1) == [];
        assert Starts(lines, pat, j) == [];
      }
    }
  }

  /** The scan takes a match and resumes after it, where Starts would also
      resume, having found no match inside it. */
  lemma ScanStep(lines: seq<string>, pat: LinePattern, i: nat)
    requires Unambiguous(pat) && i < |lines| && Captures(lines, i, pat).Some?
    requires FindAll(lines, pat, i + |pat|) == Starts(lines, pat, i + |pat|)
    ensures FindAll(lines, pat, i) == Starts(lines, pat, i)
  {
    forall m | i + 1 <= m < i + |pat| ensures Captures(lines, m, pat).None? {
      InsideMatchNoStart(lines, pat, i, m - i);
    }
    StartsSkip(lines, pat, i + 1, i + |pat|);
    CapturesSpec(lines, i, pat);
    if i + 1 >= |lines| {
      assert Starts(lines, pat, i + 1) == [];
      assert FindAll(lines, pat, i + |pat|) == [];
    }
  }

  /** For an unambiguous pattern the non-overlapping scan finds a record at
      every line where the pattern matches. */
  lemma {:induction false} ScanFindsEveryRecord(lines: seq<string>, pat: LinePattern, i: nat)
    requires Unambiguous(pat)
    ensures FindAll(lines, pat, i) == Starts(lines, pat, i)
    decreases |lines| - i
  {
    if i < |lines| {
      if Captures(lines, i, pat).None? {
        ScanFindsEveryRecord(lines, pat, i + 1);
      } else {
        ScanFindsEveryRecord(lines, pat, i + |pat|);
        ScanStep(lines, pat, i);
      }
    }
  }

  /** A record of Starts is the match at some line, and every match is a record. */
  lemma {:induction false} StartsMember(lines: seq<string>, pat: LinePattern, i: nat, r: seq<string>)
    ensures r in Starts(lines, pat, i) <==> exists j :: i <= j < |lines| && Captures(lines, j, pat) == Some(r)
    decreases |lines| - i
  {
    if i < |lines| {
      StartsMember(lines, pat, i + 1, r);
      if Captures(lines, i, pat) == Some(r) {
        assert Starts(lines, pat, i) == [r] + Starts(lines, pat, i + 1);
        assert r in Starts(lines, pat, i);
        assert i <= i < |lines| && Captures(lines, i, pat) == Some(r);
      } else {
        assert r in Starts(lines, pat, i) <==> r in Starts(lines, pat, i + 1);
      }
    }
  }

  /** Keys that differ at some position are not prefixes of each other. */
  lemma KeysDiffer(x: string, y: string, p: nat)
    requires p < |x| && p < |y| && x[p] != y[p]
    ensures !(x <= y) && !(y <= x)
  {
  }

  // ---------------------------------------------------------------------------
  // The patterns
  // ---------------------------------------------------------------------------

  /** ^Date: (.*?)\nLink: (.*?)$ */
  const DateLink: LinePattern := [["Date: "], ["Link: "]]
  /** ^Date: (.*?)\nHashTag Link(?::|::) (.*?)$ */
  const DateHashTag: LinePattern := [["Date: "], ["HashTag Link: ", "HashTag Link:: "]]
  /** ^Date: (.*?)$ */
  const DateOnly: LinePattern := [["Date: "]]
  /** ^Hashtag Name: (.*?)\nHashtag Link: (.*?)$ */
  const HashtagNameLink: LinePattern := [["Hashtag Name: "], ["Hashtag Link: "]]
  /** ^Date: (.*?)\nSearch Term: (.*?)$ */
  const DateSearch: LinePattern := [["Date: "], ["Search Term: "]]
  /** ^Date: (.*?)\nShared Content: (.*?)\nLink: (.*?)\nMethod: (.*?)$ */
  const ShareRecord: LinePattern := [["Date: "], ["Shared Content: "], ["Link: "], ["Method: "]]

  /** A Date line immediately followed by a Link line, with the rest of each. */
  lemma DateLinkCaptures(lines: seq<string>, i: nat)
    ensures Captures(lines, i, DateLink).Some? <==>
      i + 1 < |lines| && "Date: " <= lines[i] && "Link: " <= lines[i + 1]
    ensures Captures(lines, i, DateLink).Some? ==>
      Captures(lines, i, DateLink).value == [lines[i][6..], lines[i + 1][6..]]
  {
    if i <= |lines| {
      CapturesSpec(lines, i, DateLink);
    }
  }

  /** The second line of a favorite hashtag may read "HashTag Link: " or
      "HashTag Link:: ", and the cell is the rest after either. */
  lemma HashTagLinkEitherSpelling(line: string)
    ensures Capture(line, DateHashTag[1]).Some? <==> "HashTag Link: " <= line || "HashTag Link:: " <= line
    ensures "HashTag Link: " <= line ==> Capture(line, DateHashTag[1]) == Some(line[14..])
    ensures "HashTag Link:: " <= line ==> Capture(line, DateHashTag[1]) == Some(line[15..])
  {
    var keys := DateHashTag[1];
    assert keys[1..][1..] == [];
    assert Capture(line, keys[1..]) == if keys[1] <= line then Some(line[15..]) else None;
    if "HashTag Link:: " <= line {
      assert line[13] == ':';
    }
  }

  /** A shared video needs four consecutive lines: Date, Shared Content, Link, Method. */
  lemma ShareRecordCaptures(lines: seq<string>, i: nat)
    ensures Captures(lines, i, ShareRecord).Some? <==>
      i + 3 < |lines| && "Date: " <= lines[i] && "Shared Content: " <= lines[i + 1] &&
      "Link: " <= lines[i + 2] && "Method: " <= lines[i + 3]
  {
    if i <= |lines| {
      CapturesSpec(lines, i, ShareRecord);
    }
  }

  /** The two-line patterns whose second key differs from "Date: " at the start. */
  lemma DatePatternsUnambiguous()
    ensures Unambiguous(DateLink) && Unambiguous(DateHashTag) && Unambiguous(DateSearch)
  {
    KeysDiffer("Date: ", "Link: ", 0);
    KeysDiffer("Date: ", "HashTag Link: ", 0);
    KeysDiffer("Date: ", "HashTag Link:: ", 0);
    KeysDiffer("Date: ", "Search Term: ", 0);
  }

  /** The hashtag and share patterns have distinct keys too. */
  lemma OtherPatternsUnambiguous()
    ensures Unambiguous(DateOnly) && Unambiguous(HashtagNameLink) && Unambiguous(ShareRecord)
  {
    KeysDiffer("Hashtag Name: ", "Hashtag Link: ", 8);
    KeysDiffer("Date: ", "Shared Content: ", 0);
    KeysDiffer("Date: ", "Link: ", 0);
    KeysDiffer("Date: ", "Method: ", 0);
  }

  /** The record patterns have distinct keys, so every record is found. */
  lemma PatternsUnambiguous()
    ensures Unambiguous(DateLink) && Unambiguous(DateHashTag) && Unambiguous(DateOnly)
    ensures Unambiguous(HashtagNameLink) && Unambiguous(DateSearch) && Unambiguous(ShareRecord)
  {
    DatePatternsUnambiguous();
    OtherPatternsUnambiguous();
  }

  // ---------------------------------------------------------------------------
  // Extractors
  // ---------------------------------------------------------------------------

  /** The text of a member, read through a utf-8 TextIOWrapper; None when decoding raises. */
  function Text(c: Codecs, a: Archive, target: string): Option<string> {
    c.decodeUtf8(a.raw(target))
  }

  /** A record as a datapoint: one string cell per group. */
  function CellsOf(r: seq<string>): (row: Row)
    ensures |row| == |r| && forall k :: 0 <= k < |r| ==> row[k] == JStr(r[k])
  {
    seq(|r|, k requires 0 <= k < |r| => JStr(r[k]))
  }

  /** The try block of a line-record extractor: the records findall returns
      as rows of the given columns; a decoding error leaves DataFrame(). */
  function LineRecordsFrame(columns: seq<string>, text: Option<string>, pat: LinePattern): Frame
    requires pat != []
  {
    match text
    case None => Frame([], [])
    case Some(t) =>
      var found := FindAll(Split(t, '\n'), pat, 0);
      Frame(columns, seq(|found|, i requires 0 <= i < |found| => CellsOf(found[i])))
  }

  /** One row per line where the pattern matches, in order, each holding the
      rest of the matched lines; a text that does not decode gives DataFrame(). */
  lemma LineRecordsTabulate(columns: seq<string>, text: Option<string>, pat: LinePattern)
    requires Unambiguous(pat)
    ensures text.None? ==> LineRecordsFrame(columns, text, pat) == Frame([], [])
    ensures text.Some? ==>
      var found := Starts(Split(text.value, '\n'), pat, 0);
      LineRecordsFrame(columns, text, pat).columns == columns &&
      |LineRecordsFrame(columns, text, pat).rows| == |found| &&
      forall i :: 0 <= i < |found| ==> LineRecordsFrame(columns, text, pat).rows[i] == CellsOf(found[i])
  {
    if text.Some? {
      ScanFindsEveryRecord(Split(text.value, '\n'), pat, 0);
    }
  }

  function BrowsingHistoryToDf(c: Codecs, a: Archive): Frame {
    LineRecordsFrame(["Time and Date", "Video watched"], Text(c, a, "Browsing History.txt"), DateLink)
  }

  function FavoriteHashtagToDf(c: Codecs, a: Archive): Frame {
    LineRecordsFrame(["Tijdstip", "Hashtag url"], Text(c, a, "Favorite HashTags.txt"), DateHashTag)
  }

  function FavoriteVideosToDf(c: Codecs, a: Archive): Frame {
    LineRecordsFrame(["Tijdstip", "Video"], Text(c, a, "Favorite Videos.txt"), DateLink)
  }

  function FollowerToDf(c: Codecs, a: Archive): Frame {
    LineRecordsFrame(["Date"], Text(c, a, "Follower.txt"), DateOnly)
  }

  function FollowingToDf(c: Codecs, a: Archive): Frame {
    LineRecordsFrame(["Date"], Text(c, a, "Following.txt"), DateOnly)
  }

  function HashtagToDf(c: Codecs, a: Archive): Frame {
    LineRecordsFrame(["Hashtag naam", "Hashtag url"], Text(c, a, "Hashtag.txt"), HashtagNameLink)
  }

  function LikeListToDf(c: Codecs, a: Archive): Frame {
    LineRecordsFrame(["Tijdstip", "Video"], Text(c, a, "Like List.txt"), DateLink)
  }

  function SearchesToDf(c: Codecs, a: Archive): Frame {
    LineRecordsFrame(["Tijdstip", "Zoekterm"], Text(c, a, "Searches.txt"), DateSearch)
  }

  function ShareHistoryToDf(c: Codecs, a: Archive): Frame {
    LineRecordsFrame(["Tijdstip", "Gedeelde inhoud", "Url", "Gedeeld via"], Text(c, a, "Share History.txt"), ShareRecord)
  }

  /** The follower and following tables have one row per "Date: " line, holding the rest of it. */
  lemma FollowersPerDateLine(c: Codecs, a: Archive, i: nat)
    requires Text(c, a, "Follower.txt").Some?
    ensures var lines := Split(Text(c, a, "Follower.txt").value, '\n');
      Starts(lines, DateOnly, 0) == FindAll(lines, DateOnly, 0) &&
      (i < |lines| ==> (Captures(lines, i, DateOnly).Some? <==> "Date: " <= lines[i]))
  {
    PatternsUnambiguous();
    var lines := Split(Text(c, a, "Follower.txt").value, '\n');
    ScanFindsEveryRecord(lines, DateOnly, 0);
    if i < |lines| {
      CapturesSpec(lines, i, DateOnly);
    }
  }

  /** The first line starting with key, if there is one. */
  function FirstKeyed(lines: seq<string>, key: string): (r: Option<nat>)
    ensures r.Some? ==> r.value < |lines| && key <= lines[r.value]
    ensures r.Some? ==> forall j :: 0 <= j < r.value ==> !(key <= lines[j])
    ensures r.None? ==> forall j :: 0 <= j < |lines| ==> !(key <= lines[j])
  {
    if lines == [] then None
    else if key <= lines[0] then Some(0)
    else match FirstKeyed(lines[1..], key)
      case None => None
      case Some(j) => Some(j + 1)
  }

  /** settings_to_df: the first "Interests: " line, split on "|", one
      interest per row; without such a line the frame stays DataFrame(). */
  function SettingsToDf(c: Codecs, a: Archive): (f: Frame)
    ensures Text(c, a, "Settings.txt").None? ==> f == Frame([], [])
  {
    match Text(c, a, "Settings.txt")
    case None => Frame([], [])
    case Some(t) =>
      var lines := Split(t, '\n');
      match FirstKeyed(lines, "Interests: ")
      case None => Frame([], [])
      case Some(i) =>
        var interests := Split(lines[i][11..], '|');
        Frame(["Interesses"], seq(|interests|, k requires 0 <= k < |interests| => [JStr(interests[k])]))
  }

  /** The interests are the parts of the first Interests line, in order, and
      they join back to the rest of that line. */
  lemma SettingsAreInterests(c: Codecs, a: Archive)
    requires Text(c, a, "Settings.txt").Some?
    ensures var lines := Split(Text(c, a, "Settings.txt").value, '\n');
      match FirstKeyed(lines, "Interests: ")
      case None => SettingsToDf(c, a) == Frame([], [])
      case Some(i) =>
        var f := SettingsToDf(c, a);
        f.columns == ["Interesses"] && |f.rows| >= 1 &&
        Join(seq(|f.rows|, k requires 0 <= k < |f.rows| => f.rows[k][0].s), "|") == lines[i][11..]
  {
    var lines := Split(Text(c, a, "Settings.txt").value, '\n');
    match FirstKeyed(lines, "Interests: ")
    case None =>
    case Some(i) =>
      var rest := lines[i][11..];
      var interests := Split(rest, '|');
      JoinSplit(rest, '|');
      var f := SettingsToDf(c, a);
      assert seq(|f.rows|, k requires 0 <= k < |f.rows| => f.rows[k][0].s) == interests;
  }

  // ---------------------------------------------------------------------------
  // Extraction and the flow
  // ---------------------------------------------------------------------------

  const TikTokIds := [
    "tiktok_video_browsing_history", "tiktok_favorite_videos", "tiktok_favorite_hashtags",
    "tiktok_hashtag", "tiktok_like_list", "tiktok_searches", "tiktok_share_history", "tiktok_settings"
  ]

  const TikTokTitles := [
    "Watch history", "Favorite video's", "Favorite hashtags", "Hashtags in video's die je hebt geplaatst",
    "Videos you have liked", "Search terms", "Shared videos", "Interests on TikTok"
  ]

  /** The extractors extraction calls; follower_to_df and following_to_df are not among them. */
  const TikTokExtractors: seq<(Codecs, Archive) -> Frame> := [
    BrowsingHistoryToDf, FavoriteVideosToDf, FavoriteHashtagToDf, HashtagToDf,
    LikeListToDf, SearchesToDf, ShareHistoryToDf, SettingsToDf
  ]

  /** The tables of extraction, in their fixed order, before the filter. */
  function TikTokTables(c: Codecs, a: Archive): (ts: seq<ConsentTable>)
    ensures |ts| == 8
  {
    TablesOf(TikTokIds, TikTokTitles, TikTokExtractors, c, a)
  }

  /** extraction: the tables whose frame is not None and not empty. */
  function TikTokExtraction(c: Codecs, a: Archive): seq<ConsentTable> {
    NonEmptyTables(TikTokTables(c, a))
  }

  /** Table k of extraction is offered exactly when its extractor's frame is not empty. */
  lemma TikTokOffered(c: Codecs, a: Archive, k: nat)
    requires k < 8
    ensures TikTokTables(c, a)[k].id == TikTokIds[k]
    ensures TikTokTables(c, a)[k] in TikTokExtraction(c, a) <==> !TikTokExtractors[k](c, a).Empty()
  {
    TableOffered(TikTokIds, TikTokTitles, TikTokExtractors, c, a, k);
  }

  /** TikTokFlow: validate_zip with the catalog, then extraction. */
  function TikTokPlatform(c: Codecs, open: string -> Zip): Platform {
    TikTokNeedsThreeHits([]);
    ZipPlatform([TikTokCategory], c, open, TikTokExtraction)
  }

  /** An archive with three known base names leads to the review of the extracted tables. */
  lemma RecognisedZipShowsTables(c: Codecs, open: string -> Zip, session: int, R: seq<Payload>, file: string)
    requires |R| >= 1 && R[0] == PayloadString(file) && open(file).Some?
    requires Hits(BaseNames(open(file).value), TikTokKnownFiles) >= 3
    ensures |StartFlowRun(TikTokPlatform(c, open), session, R, Some([])).trace| >= 2
    ensures StartFlowRun(TikTokPlatform(c, open), session, R, Some([])).trace[..2] ==
      [Render(FilePrompt), Render(ReviewData(TikTokExtraction(c, Opened(c, open(file)))))]
  {
    assert |TikTokKnownFiles| == 41;
    OneCategoryReviewed(TikTokCategory, c, open, TikTokExtraction, session, R, file);
  }
}
