// The Instagram platform: a one-category catalog, eight extractors that read
// string_map_data or denested records and sort them on their date, the
// numbered post_comments files, and the filter that drops empty tables.
module Instagram {
  import opened Wrappers
  import opened Strings
  import opened OrderedMaps
  import opened Json
  import opened ExtractionHelpers
  import opened Validate
  import opened Tables
  import opened Records
  import opened Commands
  import opened FlowBuilder
  import opened ZipFlow

  const InstagramKnownFiles := [
    "secret_conversations.json", "personal_information.json", "account_privacy_changes.json",
    "account_based_in.json", "recently_deleted_content.json", "liked_posts.json", "stories.json",
    "profile_photos.json", "followers.json", "signup_information.json", "comments_allowed_from.json",
    "login_activity.json", "your_topics.json", "camera_information.json", "recent_follow_requests.json",
    "devices.json", "professional_information.json", "follow_requests_you've_received.json",
    "eligibility.json", "pending_follow_requests.json", "videos_watched.json", "ads_interests.json",
    "account_searches.json", "following.json", "posts_viewed.json", "recently_unfollowed_accounts.json",
    "post_comments.json", "account_information.json", "accounts_you're_not_interested_in.json",
    "use_cross-app_messaging.json", "profile_changes.json", "reels.json"
  ]

  const InstagramCategory := DdpCategory("json_en", JSON, EN, InstagramKnownFiles)

  /** With 32 known files the 5% threshold is two hits. */
  lemma InstagramNeedsTwoHits(members: seq<Member>)
    ensures ScorableCatalog(CategoryLookup([InstagramCategory]))
    ensures ZipValidationStatus([InstagramCategory], Some(members)) == 0 <==>
      Hits(BaseNames(members), InstagramKnownFiles) >= 2
  {
    assert |InstagramKnownFiles| == 32;
    OneCategoryThreshold(InstagramCategory, members);
  }

  // ---------------------------------------------------------------------------
  // string_map_data records
  // ---------------------------------------------------------------------------

  /** item.get("string_map_data", {}). */
  function StringMapData(item: Json): Result<Json> {
    FieldOr(item, "string_map_data", JObj([]))
  }

  /** The timestamp under "Time" when data has that key, otherwise the one
      under "Tijd"; "" when the chosen entry has none. */
  function TimeOrTijd(data: Json): (r: Result<Json>)
    ensures data.JObj? && HasField(data, "Time") ==> r == GetIn(data, "Time", "timestamp", JStr(""))
    ensures data.JObj? && !HasField(data, "Time") ==> r == GetIn(data, "Tijd", "timestamp", JStr(""))
    ensures !data.JObj? ==> r.Failure?
  {
    match PyIn("Time", data)
    case Failure => Failure
    case Ok(present) =>
      if present then GetIn(data, "Time", "timestamp", JStr(""))
      else GetIn(data, "Tijd", "timestamp", JStr(""))
  }

  /** The datapoint of a string_map_data record: the value under key (None
      when missing), as a one-element tuple when wrapped, and the converted
      timestamp. */
  function ValueTimeRow(c: Codecs, key: string, wrapped: bool, item: Json): (r: Result<Row>)
    ensures !item.JObj? ==> r.Failure?
    ensures r.Ok? ==> StringMapData(item).Ok? && TimeOrTijd(StringMapData(item).value).Ok?
    ensures r.Ok? ==> |r.value| == 2
    ensures r.Ok? ==> r.value[1] == JStr(EpochToIso(c, TimeOrTijd(StringMapData(item).value).value))
    ensures r.Ok? && wrapped ==> r.value[0].JArr? && |r.value[0].items| == 1
  {
    match StringMapData(item)
    case Failure => Failure
    case Ok(data) =>
      match GetIn(data, key, "value", JNull)
      case Failure => Failure
      case Ok(name) =>
        match TimeOrTijd(data)
        case Failure => Failure
        case Ok(timestamp) => Ok([if wrapped then JArr([name]) else name, Epoch(c, timestamp)])
  }

  function ValueTimeRule(c: Codecs, key: string, wrapped: bool): Json -> Result<Row> {
    (item: Json) => ValueTimeRow(c, key, wrapped, item)
  }

  /** A record whose string_map_data holds Time uses it, whatever Tijd holds. */
  lemma TimePreferredOverTijd(c: Codecs, key: string, wrapped: bool, item: Json, t: Json)
    requires item.JObj? && StringMapData(item).value.JObj?
    requires Field(StringMapData(item).value, "Time") == Ok(JObj([("timestamp", t)]))
    requires GetIn(StringMapData(item).value, key, "value", JNull).Ok?
    ensures ValueTimeRow(c, key, wrapped, item).Ok?
    ensures ValueTimeRow(c, key, wrapped, item).value[1] == JStr(EpochToIso(c, t))
  {
    var data := StringMapData(item).value;
    assert Get([("timestamp", t)], "timestamp") == Some(t);
    assert GetIn(data, "Time", "timestamp", JStr("")) == Ok(t);
  }

  /** The accounts_not_interested_in datapoint holds the account name as a
      one-element tuple, because of the trailing comma. */
  lemma AccountNameIsTuple(c: Codecs, item: Json)
    requires ValueTimeRow(c, "Username", true, item).Ok?
    ensures ValueTimeRow(c, "Username", true, item).value[0] ==
      JArr([GetIn(StringMapData(item).value, "Username", "value", JNull).value])
  {
  }

  // ---------------------------------------------------------------------------
  // Denested records
  // ---------------------------------------------------------------------------

  /** A posts_not_interested_in datapoint: only the record's string_list_data
      is denested (None when missing), then value, href and timestamp are
      found in it. */
  function ListDataRow(c: Codecs, item: Json): (r: Result<Row>)
    ensures r.Ok? <==> item.JObj?
    ensures r.Ok? ==> r.value == FoundRow(c, [Latin1("value"), Plain("href"), Iso("timestamp")],
                                          Get(item.fields, "string_list_data").GetOr(JNull))
  {
    match FieldOr(item, "string_list_data", JNull)
    case Failure => Failure
    case Ok(data) => Ok(FoundRow(c, [Latin1("value"), Plain("href"), Iso("timestamp")], data))
  }

  function ListDataRule(c: Codecs): Json -> Result<Row> {
    (item: Json) => ListDataRow(c, item)
  }

  /** A liked comment or liked post: title, value, every href of the record
      and the timestamp, found in the denested record. */
  function LikedRow(c: Codecs, item: Json): (r: Row)
    ensures |r| == 4
    ensures r[2] == FindAll(Denested(item), "href")
  {
    var d := Denested(item);
    [FixLatin1(c, Find(d, "title")), FixLatin1(c, Find(d, "value")), FindAll(d, "href"), Epoch(c, Find(d, "timestamp"))]
  }

  function LikedRule(c: Codecs): Json -> Result<Row> {
    (item: Json) => Ok(LikedRow(c, item))
  }

  /** The Link cell lists every href value of the record, in denested order. */
  lemma LikedLinksAreAllHrefs(c: Codecs, item: Json)
    ensures LikedRow(c, item)[2].JArr?
    ensures |LikedRow(c, item)[2].items| == |FindItemsValue(Denested(item), LiteralPattern("href"))|
    ensures forall i :: 0 <= i < |LikedRow(c, item)[2].items| ==>
      LikedRow(c, item)[2].items[i] == JStr(FindItemsValue(Denested(item), LiteralPattern("href"))[i])
  {
  }

  // ---------------------------------------------------------------------------
  // The sorted extractors
  // ---------------------------------------------------------------------------

  /** The Date column is the last of each sorted table. */
  function PostsViewedRecords(c: Codecs, a: Archive): Frame {
    RecordsFrame(["Author", "Date"], Field(a.read("posts_viewed.json"), "impressions_history_posts_seen"), ValueTimeRule(c, "Author", false))
  }

  /** posts_viewed_to_df: author and date of each impressions_history_posts_seen
      record, sorted on the date. */
  function PostsViewedToDf(c: Codecs, a: Archive): Frame {
    SortedFrame(c, 1, PostsViewedRecords(c, a))
  }

  lemma PostsViewedTabulates(c: Codecs, a: Archive)
    ensures Tabulated(PostsViewedRecords(c, a), ["Author", "Date"], Field(a.read("posts_viewed.json"), "impressions_history_posts_seen"), ValueTimeRule(c, "Author", false))
    ensures SortsTo(c, 1, PostsViewedRecords(c, a), PostsViewedToDf(c, a))
  {
    RecordsFrameTabulates(["Author", "Date"], Field(a.read("posts_viewed.json"), "impressions_history_posts_seen"), ValueTimeRule(c, "Author", false));
    SortedFrameSorts(c, 1, PostsViewedRecords(c, a));
  }

  function VideosWatchedRecords(c: Codecs, a: Archive): Frame {
    RecordsFrame(["Author", "Date"], Field(a.read("videos_watched.json"), "impressions_history_videos_watched"), ValueTimeRule(c, "Author", false))
  }

  /** videos_watched_to_df: author and date of each
      impressions_history_videos_watched record, sorted on the date. */
  function VideosWatchedToDf(c: Codecs, a: Archive): Frame {
    SortedFrame(c, 1, VideosWatchedRecords(c, a))
  }

  lemma VideosWatchedTabulates(c: Codecs, a: Archive)
    ensures Tabulated(VideosWatchedRecords(c, a), ["Author", "Date"], Field(a.read("videos_watched.json"), "impressions_history_videos_watched"), ValueTimeRule(c, "Author", false))
    ensures SortsTo(c, 1, VideosWatchedRecords(c, a), VideosWatchedToDf(c, a))
  {
    RecordsFrameTabulates(["Author", "Date"], Field(a.read("videos_watched.json"), "impressions_history_videos_watched"), ValueTimeRule(c, "Author", false));
    SortedFrameSorts(c, 1, VideosWatchedRecords(c, a));
  }

  function AccountsNotInterestedInRecords(c: Codecs, a: Archive): Frame {
    RecordsFrame(["Account name", "Date"], Field(a.read("accounts_you're_not_interested_in.json"), "impressions_history_recs_hidden_authors"), ValueTimeRule(c, "Username", true))
  }

  /** accounts_not_interested_in_to_df: the account name, as a one-element
      tuple, and the date of each impressions_history_recs_hidden_authors
      record, sorted on the date. */
  function AccountsNotInterestedInToDf(c: Codecs, a: Archive): Frame {
    SortedFrame(c, 1, AccountsNotInterestedInRecords(c, a))
  }

  lemma AccountsNotInterestedInTabulates(c: Codecs, a: Archive)
    ensures Tabulated(AccountsNotInterestedInRecords(c, a), ["Account name", "Date"], Field(a.read("accounts_you're_not_interested_in.json"), "impressions_history_recs_hidden_authors"), ValueTimeRule(c, "Username", true))
    ensures SortsTo(c, 1, AccountsNotInterestedInRecords(c, a), AccountsNotInterestedInToDf(c, a))
  {
    RecordsFrameTabulates(["Account name", "Date"], Field(a.read("accounts_you're_not_interested_in.json"), "impressions_history_recs_hidden_authors"), ValueTimeRule(c, "Username", true));
    SortedFrameSorts(c, 1, AccountsNotInterestedInRecords(c, a));
  }

  function AdsViewedRecords(c: Codecs, a: Archive): Frame {
    RecordsFrame(["Author of ad", "Date"], Field(a.read("ads_viewed.json"), "impressions_history_ads_seen"), ValueTimeRule(c, "Author", false))
  }

  /** ads_viewed_to_df: author and date of each impressions_history_ads_seen
      record, sorted on the date. */
  function AdsViewedToDf(c: Codecs, a: Archive): Frame {
    SortedFrame(c, 1, AdsViewedRecords(c, a))
  }

  lemma AdsViewedTabulates(c: Codecs, a: Archive)
    ensures Tabulated(AdsViewedRecords(c, a), ["Author of ad", "Date"], Field(a.read("ads_viewed.json"), "impressions_history_ads_seen"), ValueTimeRule(c, "Author", false))
    ensures SortsTo(c, 1, AdsViewedRecords(c, a), AdsViewedToDf(c, a))
  {
    RecordsFrameTabulates(["Author of ad", "Date"], Field(a.read("ads_viewed.json"), "impressions_history_ads_seen"), ValueTimeRule(c, "Author", false));
    SortedFrameSorts(c, 1, AdsViewedRecords(c, a));
  }

  function PostsNotInterestedInRecords(c: Codecs, a: Archive): Frame {
    RecordsFrame(["Post", "Link", "Date"], Field(a.read("posts_you're_not_interested_in.json"), "impressions_history_posts_not_interested"), ListDataRule(c))
  }

  /** posts_not_interested_in_to_df: value, href and date found in the
      string_list_data of each record, sorted on the date. */
  function PostsNotInterestedInToDf(c: Codecs, a: Archive): Frame {
    SortedFrame(c, 2, PostsNotInterestedInRecords(c, a))
  }

  lemma PostsNotInterestedInTabulates(c: Codecs, a: Archive)
    ensures Tabulated(PostsNotInterestedInRecords(c, a), ["Post", "Link", "Date"], Field(a.read("posts_you're_not_interested_in.json"), "impressions_history_posts_not_interested"), ListDataRule(c))
    ensures SortsTo(c, 2, PostsNotInterestedInRecords(c, a), PostsNotInterestedInToDf(c, a))
  {
    RecordsFrameTabulates(["Post", "Link", "Date"], Field(a.read("posts_you're_not_interested_in.json"), "impressions_history_posts_not_interested"), ListDataRule(c));
    SortedFrameSorts(c, 2, PostsNotInterestedInRecords(c, a));
  }

  function FollowingRecords(c: Codecs, a: Archive): Frame {
    RecordsFrame(["Account", "Link", "Date"], Field(a.read("following.json"), "relationships_following"), FindRule(c, [Latin1("value"), Plain("href"), Iso("timestamp")]))
  }

  /** following_to_df: value, href and date found in each denested
      relationships_following record, sorted on the date. */
  function FollowingToDf(c: Codecs, a: Archive): Frame {
    SortedFrame(c, 2, FollowingRecords(c, a))
  }

  lemma FollowingTabulates(c: Codecs, a: Archive)
    ensures Tabulated(FollowingRecords(c, a), ["Account", "Link", "Date"], Field(a.read("following.json"), "relationships_following"), FindRule(c, [Latin1("value"), Plain("href"), Iso("timestamp")]))
    ensures SortsTo(c, 2, FollowingRecords(c, a), FollowingToDf(c, a))
  {
    RecordsFrameTabulates(["Account", "Link", "Date"], Field(a.read("following.json"), "relationships_following"), FindRule(c, [Latin1("value"), Plain("href"), Iso("timestamp")]));
    SortedFrameSorts(c, 2, FollowingRecords(c, a));
  }

  const LikedColumns := ["Account name", "Value", "Link", "Date"]

  function LikedCommentsRecords(c: Codecs, a: Archive): Frame {
    RecordsFrame(LikedColumns, Field(a.read("liked_comments.json"), "likes_comment_likes"), LikedRule(c))
  }

  /** liked_comments_to_df: the liked datapoint of each likes_comment_likes
      record, sorted on the date. */
  function LikedCommentsToDf(c: Codecs, a: Archive): Frame {
    SortedFrame(c, 3, LikedCommentsRecords(c, a))
  }

  lemma LikedCommentsTabulates(c: Codecs, a: Archive)
    ensures Tabulated(LikedCommentsRecords(c, a), LikedColumns, Field(a.read("liked_comments.json"), "likes_comment_likes"), LikedRule(c))
    ensures SortsTo(c, 3, LikedCommentsRecords(c, a), LikedCommentsToDf(c, a))
  {
    RecordsFrameTabulates(LikedColumns, Field(a.read("liked_comments.json"), "likes_comment_likes"), LikedRule(c));
    SortedFrameSorts(c, 3, LikedCommentsRecords(c, a));
  }

  function LikedPostsRecords(c: Codecs, a: Archive): Frame {
    RecordsFrame(LikedColumns, Field(a.read("liked_posts.json"), "likes_media_likes"), LikedRule(c))
  }

  /** liked_posts_to_df: the liked datapoint of each likes_media_likes record,
      sorted on the date. */
  function LikedPostsToDf(c: Codecs, a: Archive): Frame {
    SortedFrame(c, 3, LikedPostsRecords(c, a))
  }

  lemma LikedPostsTabulates(c: Codecs, a: Archive)
    ensures Tabulated(LikedPostsRecords(c, a), LikedColumns, Field(a.read("liked_posts.json"), "likes_media_likes"), LikedRule(c))
    ensures SortsTo(c, 3, LikedPostsRecords(c, a), LikedPostsToDf(c, a))
  {
    RecordsFrameTabulates(LikedColumns, Field(a.read("liked_posts.json"), "likes_media_likes"), LikedRule(c));
    SortedFrameSorts(c, 3, LikedPostsRecords(c, a));
  }

  // ---------------------------------------------------------------------------
  // post_comments_1.json, _2, …
  // ---------------------------------------------------------------------------

  /** A comment datapoint: media owner, repaired comment ("" when missing) and
      the converted timestamp. */
  function CommentRow(c: Codecs, item: Json): (r: Result<Row>)
    ensures !item.JObj? ==> r.Failure?
    ensures r.Ok? ==> |r.value| == 3
    ensures r.Ok? ==> StringMapData(item).Ok? && TimeOrTijd(StringMapData(item).value).Ok?
    ensures r.Ok? ==> r.value[2] == JStr(EpochToIso(c, TimeOrTijd(StringMapData(item).value).value))
  {
    match StringMapData(item)
    case Failure => Failure
    case Ok(data) =>
      match GetIn(data, "Media Owner", "value", JStr(""))
      case Failure => Failure
      case Ok(owner) =>
        match GetIn(data, "Comment", "value", JStr(""))
        case Failure => Failure
        case Ok(comment) =>
          match TimeOrTijd(data)
          case Failure => Failure
          case Ok(timestamp) => Ok([owner, FixLatin1(c, comment), Epoch(c, timestamp)])
  }

  function CommentRule(c: Codecs): Json -> Result<Row> {
    (item: Json) => CommentRow(c, item)
  }

  function CommentsFile(a: Archive): nat -> Json {
    (i: nat) => a.read("post_comments_" + NatToString(i) + ".json")
  }

  /** The files the model lets the loop read: one per member, and the one that ends it. */
  function CommentsFuel(a: Archive): nat {
    a.size + 1
  }

  /** post_comments_to_df: every comment of the numbered files, not sorted. */
  function PostCommentsFrame(c: Codecs, a: Archive): Frame {
    NumberedFrame(["Media Owner", "Comment", "Date"], CommentsFile(a), CommentRule(c), CommentsFuel(a))
  }

  /** The while True loop over post_comments_{i}.json. */
  method PostCommentsToDf(c: Codecs, a: Archive) returns (out: Frame)
    ensures out == PostCommentsFrame(c, a)
  {
    var rows := CollectNumbered(CommentsFile(a), CommentRule(c), CommentsFuel(a));
    if rows.Failure? {
      return Frame([], []);
    }
    out := Frame(["Media Owner", "Comment", "Date"], rows.value);
  }

  /** A comment file whose loop raises, reached through non-empty files,
      empties the table. */
  lemma RaisingCommentFileEmptiesTable(c: Codecs, a: Archive, j: nat)
    requires 1 <= j <= a.size
    requires forall k :: 1 <= k <= j ==> Truthy(CommentsFile(a)(k))
    requires Iterate(CommentsFile(a)(j)).Ok? && !AllOk(Iterate(CommentsFile(a)(j)).value, CommentRule(c))
    ensures PostCommentsFrame(c, a) == Frame([], [])
  {
    NumberedRaiseDiscardsAll(CommentsFile(a), CommentRule(c), 1, CommentsFuel(a), j);
  }

  /** One file of comments followed by an empty one: one row per comment, in
      file order, not sorted. */
  lemma OneCommentsFile(c: Codecs, a: Archive)
    requires Decoded(a) && Truthy(CommentsFile(a)(1)) && !Truthy(CommentsFile(a)(2))
    requires Iterate(CommentsFile(a)(1)).Ok? && AllOk(Iterate(CommentsFile(a)(1)).value, CommentRule(c))
    ensures var items := Iterate(CommentsFile(a)(1)).value;
      var f := PostCommentsFrame(c, a);
      |f.rows| == |items| && forall i :: 0 <= i < |items| ==> f.rows[i] == CommentRow(c, items[i]).value
  {
    var load, rule := CommentsFile(a), CommentRule(c);
    assert load(1) == a.read("post_comments_" + NatToString(1) + ".json");
    var items := Iterate(load(1)).value;
    NumberedFirstFile(load, rule, 1, CommentsFuel(a));
    AllRowsSpec(items, rule);
  }

  // ---------------------------------------------------------------------------
  // Extraction and the flow
  // ---------------------------------------------------------------------------

  const InstagramIds := [
    "instagram_posts_viewed",
    "instagram_videos_watched",
    "instagram_post_comments",
    "instagram_accounts_not_interested_in",
    "instagram_ads_viewed",
    "instagram_posts_not_interested_in",
    "instagram_following",
    "instagram_liked_comments",
    "instagram_liked_posts"
  ]

  const InstagramTitles := [
    "Posts viewed on Instagram",
    "Videos watched on Instagram",
    "Comments on Instagram posts",
    "Instagram accounts not interested in",
    "Ads you viewed on Instagram",
    "Instagram posts not interested in",
    "Accounts that you follow on Instagram",
    "Instagram liked comments",
    "Instagram liked posts"
  ]

  const InstagramExtractors: seq<(Codecs, Archive) -> Frame> := [
    PostsViewedToDf,
    VideosWatchedToDf,
    PostCommentsFrame,
    AccountsNotInterestedInToDf,
    AdsViewedToDf,
    PostsNotInterestedInToDf,
    FollowingToDf,
    LikedCommentsToDf,
    LikedPostsToDf
  ]

  /** The tables of extraction, in their fixed order, before the filter. */
  function InstagramTables(c: Codecs, a: Archive): (ts: seq<ConsentTable>)
    ensures |ts| == 9
  {
    TablesOf(InstagramIds, InstagramTitles, InstagramExtractors, c, a)
  }

  /** extraction: the tables whose frame is not empty, in the fixed order. */
  function InstagramExtraction(c: Codecs, a: Archive): seq<ConsentTable> {
    NonEmptyTables(InstagramTables(c, a))
  }

  /** Table k of extraction is offered exactly when its extractor's frame is not empty. */
  lemma InstagramOffered(c: Codecs, a: Archive, k: nat)
    requires k < 9
    ensures InstagramTables(c, a)[k].id == InstagramIds[k]
    ensures InstagramTables(c, a)[k] in InstagramExtraction(c, a) <==> !InstagramExtractors[k](c, a).Empty()
  {
    TableOffered(InstagramIds, InstagramTitles, InstagramExtractors, c, a, k);
  }

  /** InstagramFlow: validate_zip with the catalog, then extraction. */
  function InstagramPlatform(c: Codecs, open: string -> Zip): Platform {
    InstagramNeedsTwoHits([]);
    ZipPlatform([InstagramCategory], c, open, InstagramExtraction)
  }

  /** An archive with two known base names leads to the review of the extracted tables. */
  lemma RecognisedZipShowsTables(c: Codecs, open: string -> Zip, session: int, R: seq<Payload>, file: string)
    requires |R| >= 1 && R[0] == PayloadString(file) && open(file).Some?
    requires Hits(BaseNames(open(file).value), InstagramKnownFiles) >= 2
    ensures |StartFlowRun(InstagramPlatform(c, open), session, R, Some([])).trace| >= 2
    ensures StartFlowRun(InstagramPlatform(c, open), session, R, Some([])).trace[..2] ==
      [Render(FilePrompt), Render(ReviewData(InstagramExtraction(c, Opened(c, open(file)))))]
  {
    assert |InstagramKnownFiles| == 32;
    OneCategoryReviewed(InstagramCategory, c, open, InstagramExtraction, session, R, file);
  }
}
