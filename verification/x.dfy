// The X (Twitter) platform: its .js members hold an assignment whose right
// side is JSON, ten extractors select members by suffix, and extraction drops
// the empty tables.
module X {
  import opened Wrappers
  import opened Strings
  import opened Json
  import opened ExtractionHelpers
  import opened Validate
  import opened Tables
  import opened Records
  import opened Commands
  import opened FlowBuilder
  import opened ZipFlow

  const XKnownFiles := [
    "account-creation-ip.js", "app.js", "community-tweet.js", "expanded-profile.js", "ni-devices.js",
    "professional-data.js", "tweet-headers.js", "account-label.js", "article-metadata.js",
    "connected-application.js", "follower.js", "note-tweet.js", "profile.js", "tweetdeck.js",
    "account-suspension.js", "article.js", "contact.js", "following.js",
    "periscope-account-information.js", "profile_media", "tweets.js", "account-timezone.js",
    "audio-video-calls-in-dm-recipient-sessions.js", "deleted-note-tweet.js", "grok-chat-item.js",
    "periscope-ban-information.js", "protected-history.js", "tweets_media", "account.js",
    "audio-video-calls-in-dm.js", "deleted-tweet-headers.js", "ip-audit.js",
    "periscope-broadcast-metadata.js", "README.txt", "twitter-shop.js", "ad-engagements.js",
    "block.js", "deleted-tweets.js", "key-registry.js", "periscope-comments-made-by-user.js",
    "reply-prompt.js", "user-link-clicks.js", "ad-impressions.js"
  ] + XKnownFilesTail

  const XKnownFilesTail := [
    "branch-links.js", "device-token.js", "like.js", "periscope-expired-broadcasts.js",
    "saved-search.js", "verified-organization.js", "ad-mobile-conversions-attributed.js",
    "catalog-item.js", "direct-message-group-headers.js", "lists-created.js",
    "periscope-followers.js", "screen-name-change.js", "verified.js",
    "ad-mobile-conversions-unattributed.js", "commerce-catalog.js", "direct-message-headers.js",
    "lists-member.js", "periscope-profile-description.js", "shop-module.js",
    "ad-online-conversions-attributed.js", "community-note-batsignal.js", "direct-message-mute.js",
    "lists-subscribed.js", "personalization.js", "shopify-account.js",
    "ad-online-conversions-unattributed.js", "community-note-rating.js", "direct-messages-group.js",
    "manifest.js", "phone-number.js", "smartblock.js", "ads-revenue-sharing.js",
    "community-note-tombstone.js", "direct-messages.js", "moment.js", "product-drop.js",
    "spaces-metadata.js", "ageinfo.js", "community-note.js", "email-address-change.js", "mute.js",
    "product-set.js", "sso.js"
  ]

  const XCategory := DdpCategory("json_en", JSON, EN, XKnownFiles)

  /** With 86 known files the 5% threshold is five hits. */
  lemma XNeedsFiveHits(members: seq<Member>)
    ensures ScorableCatalog(CategoryLookup([XCategory]))
    ensures ZipValidationStatus([XCategory], Some(members)) == 0 <==>
      Hits(BaseNames(members), XKnownFiles) >= 5
  {
    assert |XKnownFiles| == 86;
    OneCategoryThreshold(XCategory, members);
  }

  // ---------------------------------------------------------------------------
  // bytesio_to_listdict
  // ---------------------------------------------------------------------------

  /** re.sub("^.*? = ", "", line): the shortest prefix ending in " = " is
      deleted; "." does not match a newline, so that prefix cannot hold one. */
  function StripAssignment(line: string): string {
    match IndexOf(line, " = ")
    case None => line
    case Some(i) => if '\n' in line[..i] then line else line[i + 3..]
  }

  /** The text json.loads receives: the lines with the first one stripped, joined. */
  function StrippedText(text: string): string {
    StripAssignment(FirstLine(text)) + text[|FirstLine(text)|..]
  }

  /** What bytesio_to_listdict returns: the parsed JSON, or [] when the buffer
      does not decode, holds no line, or does not parse. */
  function ListDict(c: Codecs, b: Bytes): Json {
    match c.decodeUtf8(b)
    case None => JArr([])
    case Some(text) =>
      if text == [] then JArr([])
      else match c.loads(StrippedText(text))
        case None => JArr([])
        case Some(v) => v
  }

  /** bytesio_to_listdict: read the lines, overwrite the first with its
      stripped form, parse the joined lines; every exception leaves []. */
  method BytesioToListdict(c: Codecs, b: Bytes) returns (out: Json)
    ensures out == ListDict(c, b)
  {
    out := JArr([]);
    var text := c.decodeUtf8(b);
    if text.None? { return; }
    var lines := Lines(text.value);
    if |lines| == 0 { return; }  // IndexError on lines[0]
    LinesConcat(text.value);
    lines := lines[0 := StripAssignment(lines[0])];
    assert lines[1..] == Lines(text.value)[1..];
    var parsed := c.loads(Concat(lines));
    if parsed.Some? {
      out := parsed.value;
    }
  }

  /** A first line "<name> = <json>" loses exactly its "<name> = " prefix:
      json.loads sees the text after the first " = ". */
  lemma {:induction false} FirstAssignmentStripped(text: string, i: nat)
    requires OccursAt(text, " = ", i) && forall j: nat :: j < i ==> !OccursAt(text, " = ", j)
    requires '\n' !in text[..i]
    ensures StrippedText(text) == text[i + 3..]
  {
    var line := FirstLine(text);
    var n := |line|;
    assert line == text[..n];
    assert line != text ==> text[n - 1] == '\n';
    assert i <= n - 1 < i + 3 ==> text[i..i + 3][n - 1 - i] == text[n - 1];
    assert i + 3 <= n;
    assert line[..i + 3] == text[..i + 3];
    assert OccursAt(line, " = ", i) by { assert line[i..i + 3] == text[i..i + 3]; }
    assert line == text[..|line|];
    forall j: nat | j < i ensures !OccursAt(line, " = ", j) {
      AbsentFromPrefix(line, text, " = ", j);
    }
    assert IndexOf(line, " = ") == Some(i);
    assert line[..i] == text[..i];
    assert line[i + 3..] + text[|line|..] == text[i + 3..];
  }

  /** When the first line holds no " = ", nothing is stripped, even if a later line does. */
  lemma FirstLineWithoutAssignment(text: string)
    requires !Contains(FirstLine(text), " = ")
    ensures StrippedText(text) == text
  {
    assert text == FirstLine(text) + text[|FirstLine(text)|..];
  }

  /** An empty buffer, one that does not decode, or a text that does not
      parse gives []; otherwise the parsed value. */
  lemma ListDictOutcomes(c: Codecs, b: Bytes)
    ensures ListDict(c, b) != JArr([]) ==>
      c.decodeUtf8(b).Some? && c.decodeUtf8(b).value != [] && c.loads(StrippedText(c.decodeUtf8(b).value)).Some?
    ensures c.decodeUtf8(b).Some? && c.decodeUtf8(b).value != [] && c.loads(StrippedText(c.decodeUtf8(b).value)).Some? ==>
      ListDict(c, b) == c.loads(StrippedText(c.decodeUtf8(b).value)).value
  {
  }

  /** A member "<name> = <json>" decodes to the JSON after the assignment. */
  lemma AssignmentParsed(c: Codecs, b: Bytes, i: nat, v: Json)
    requires c.decodeUtf8(b).Some?
    requires var text := c.decodeUtf8(b).value;
      OccursAt(text, " = ", i) && (forall j: nat :: j < i ==> !OccursAt(text, " = ", j)) &&
      '\n' !in text[..i] && c.loads(text[i + 3..]) == Some(v)
    ensures ListDict(c, b) == v
  {
    FirstAssignmentStripped(c.decodeUtf8(b).value, i);
  }

  // ---------------------------------------------------------------------------
  // Member targets
  // ---------------------------------------------------------------------------

  /** The list a target's member holds. */
  function Items(c: Codecs, a: Archive, target: string): Json {
    ListDict(c, a.raw(target))
  }

  /** "/tweets.js" needs a slash before the file name: a member in a
      directory matches, deleted-tweets.js and a root-level tweets.js do not. */
  lemma TweetsTargetNeedsSlash()
    ensures IsSuffix("/tweets.js", "data/tweets.js")
    ensures !IsSuffix("/tweets.js", "data/deleted-tweets.js")
    ensures !IsSuffix("/tweets.js", "tweets.js")
  {
    assert "data/tweets.js"[4..] == "/tweets.js";
    assert "data/deleted-tweets.js"[12] == '-';
  }

  /** "mute.js" has no slash, so direct-message-mute.js matches too, and the
      member that comes first in the archive is read. */
  lemma MuteTargetMatchesDirectMessageMute(dm: Member, mute: Member)
    requires dm.name == "data/direct-message-mute.js" && mute.name == "data/mute.js"
    ensures FileFromZip(Some([dm, mute]), "mute.js") == dm.data
    ensures FileFromZip(Some([mute, dm]), "mute.js") == mute.data
  {
    assert IsSuffix("mute.js", dm.name) by { assert dm.name[|dm.name| - 7..] == "mute.js"; }
    assert IsSuffix("mute.js", mute.name) by { assert mute.name[5..] == "mute.js"; }
  }

  // ---------------------------------------------------------------------------
  // Extractors
  // ---------------------------------------------------------------------------

  /** ad_engagement_to_df: tweet text and impression time of each denested item. */
  function AdEngagementToDf(c: Codecs, a: Archive): Frame {
    RecordsFrame(["Text", "Impression time"], Ok(Items(c, a, "ad-engagements.js")),
                 FindRule(c, [Plain("tweetText"), Plain("impressionTime")]))
  }

  /** items[0]["p13nData"]["interests"]["interests"]. */
  function Interests(items: Json): (r: Result<Json>)
    ensures r.Ok? ==> First(items).Ok? && FieldIn(First(items).value, "p13nData", "interests").Ok?
    ensures r.Ok? ==> r == Field(FieldIn(First(items).value, "p13nData", "interests").value, "interests")
  {
    match First(items)
    case Failure => Failure
    case Ok(first) =>
      match FieldIn(first, "p13nData", "interests")
      case Failure => Failure
      case Ok(inner) => Field(inner, "interests")
  }

  /** personalization_to_df: name and isDisabled of each interest. */
  function PersonalizationToDf(c: Codecs, a: Archive): Frame {
    RecordsFrame(["Interest", "is disabled"], Interests(Items(c, a, "personalization.js")),
                 FindRule(c, [Plain("name"), Plain("isDisabled")]))
  }

  /** Any missing level on the path to the interests leaves the table empty. */
  lemma MissingInterestsEmpty(c: Codecs, a: Archive)
    requires Interests(Items(c, a, "personalization.js")).Failure?
    ensures PersonalizationToDf(c, a) == Frame([], [])
  {
  }

  /** The datapoint item.get(outer, {}).get("userLink", default): a single
      value, not a tuple, so the frame has one column. */
  function UserLinkRow(outer: string, default: Json, item: Json): (r: Result<Row>)
    ensures r.Ok? <==> GetIn(item, outer, "userLink", default).Ok?
    ensures r.Ok? ==> r.value == [GetIn(item, outer, "userLink", default).value]
  {
    match GetIn(item, outer, "userLink", default)
    case Failure => Failure
    case Ok(v) => Ok([v])
  }

  function UserLinkRule(outer: string, default: Json): Json -> Result<Row> {
    (item: Json) => UserLinkRow(outer, default, item)
  }

  /** follower_to_df. */
  function FollowerToDf(c: Codecs, a: Archive): Frame {
    RecordsFrame(["Link to user"], Ok(Items(c, a, "follower.js")), UserLinkRule("follower", JNull))
  }

  /** following_to_df. */
  function FollowingToDf(c: Codecs, a: Archive): Frame {
    RecordsFrame(["Link to user"], Ok(Items(c, a, "following.js")), UserLinkRule("following", JNull))
  }

  /** block_to_df: a missing link is "". */
  function BlockToDf(c: Codecs, a: Archive): Frame {
    RecordsFrame(["Blocked users"], Ok(Items(c, a, "/block.js")), UserLinkRule("blocking", JStr("")))
  }

  /** mute_to_df: a missing link is "". */
  function MuteToDf(c: Codecs, a: Archive): Frame {
    RecordsFrame(["Muted users"], Ok(Items(c, a, "mute.js")), UserLinkRule("muting", JStr("")))
  }

  /** The single-column extractors hold one link per listed item, in order,
      unless some item is not a dict with a dict (or nothing) under its key. */
  lemma UserLinksTabulate(c: Codecs, a: Archive)
    ensures Tabulated(FollowerToDf(c, a), ["Link to user"], Ok(Items(c, a, "follower.js")), UserLinkRule("follower", JNull))
    ensures Tabulated(FollowingToDf(c, a), ["Link to user"], Ok(Items(c, a, "following.js")), UserLinkRule("following", JNull))
    ensures Tabulated(BlockToDf(c, a), ["Blocked users"], Ok(Items(c, a, "/block.js")), UserLinkRule("blocking", JStr("")))
    ensures Tabulated(MuteToDf(c, a), ["Muted users"], Ok(Items(c, a, "mute.js")), UserLinkRule("muting", JStr("")))
  {
    RecordsFrameTabulates(["Link to user"], Ok(Items(c, a, "follower.js")), UserLinkRule("follower", JNull));
    RecordsFrameTabulates(["Link to user"], Ok(Items(c, a, "following.js")), UserLinkRule("following", JNull));
    RecordsFrameTabulates(["Blocked users"], Ok(Items(c, a, "/block.js")), UserLinkRule("blocking", JStr("")));
    RecordsFrameTabulates(["Muted users"], Ok(Items(c, a, "mute.js")), UserLinkRule("muting", JStr("")));
  }

  /** like.tweetId and like.fullText, None when missing. */
  function LikeRow(item: Json): (r: Result<Row>)
    ensures r.Ok? <==> GetIn(item, "like", "tweetId", JNull).Ok?
    ensures r.Ok? ==> r.value == [GetIn(item, "like", "tweetId", JNull).value, GetIn(item, "like", "fullText", JNull).value]
  {
    match GetIn(item, "like", "tweetId", JNull)
    case Failure => Failure
    case Ok(id) => Ok([id, GetIn(item, "like", "fullText", JNull).value])
  }

  function LikeRule(): Json -> Result<Row> {
    (item: Json) => LikeRow(item)
  }

  const StatusPrefix := "https://twitter.com/a/status/"

  /** "https://twitter.com/a/status/" + out["Tweet Id"]: every id becomes a
      link when every id is a string; otherwise the addition raises after the
      frame was assigned, and the frame keeps its bare ids. */
  function StatusLinks(f: Frame): (r: Frame)
    ensures r.columns == f.columns && |r.rows| == |f.rows|
    ensures !IdsAreStrings(f) ==> r == f
    ensures IdsAreStrings(f) ==> forall i :: 0 <= i < |f.rows| ==>
      r.rows[i] == [JStr(StatusPrefix + f.rows[i][0].s)] + f.rows[i][1..]
  {
    if IdsAreStrings(f) then
      Frame(f.columns, seq(|f.rows|, i requires 0 <= i < |f.rows| =>
        [JStr(StatusPrefix + f.rows[i][0].s)] + f.rows[i][1..]))
    else f
  }

  /** Every row's first cell is a string. */
  predicate IdsAreStrings(f: Frame) {
    forall i :: 0 <= i < |f.rows| ==> f.rows[i] != [] && f.rows[i][0].JStr?
  }

  /** like_to_df. */
  function LikeToDf(c: Codecs, a: Archive): Frame {
    var f := RecordsFrame(["Tweet Id", "Tweet"], Ok(Items(c, a, "like.js")), LikeRule());
    if f.columns == [] then f else StatusLinks(f)
  }

  /** Every liked tweet whose id is a string shows up as a status link, in
      order, with its text. */
  lemma LikedTweetsAreLinks(c: Codecs, a: Archive, ids: seq<string>)
    requires Iterate(Items(c, a, "like.js")).Ok?
    requires var items := Iterate(Items(c, a, "like.js")).value;
      |ids| == |items| && forall i :: 0 <= i < |items| ==> GetIn(items[i], "like", "tweetId", JNull) == Ok(JStr(ids[i]))
    ensures var items := Iterate(Items(c, a, "like.js")).value;
      |LikeToDf(c, a).rows| == |items| &&
      forall i :: 0 <= i < |items| ==>
        LikeToDf(c, a).rows[i] == [JStr(StatusPrefix + ids[i]), GetIn(items[i], "like", "fullText", JNull).value]
  {
    var items := Iterate(Items(c, a, "like.js")).value;
    var sel := Ok(Items(c, a, "like.js"));
    RecordsFrameTabulates(["Tweet Id", "Tweet"], sel, LikeRule());
    assert AllOk(items, LikeRule());
    var f := RecordsFrame(["Tweet Id", "Tweet"], sel, LikeRule());
    LinkedRows(f, items, ids);
    assert forall i :: 0 <= i < |items| ==> LikeRow(items[i]).value[1..] == [GetIn(items[i], "like", "fullText", JNull).value];
  }

  /** The frame of like rows, its ids all strings, after the status prefix. */
  lemma LinkedRows(f: Frame, items: seq<Json>, ids: seq<string>)
    requires f.columns == ["Tweet Id", "Tweet"] && |f.rows| == |items| == |ids|
    requires forall i :: 0 <= i < |items| ==> GetIn(items[i], "like", "tweetId", JNull) == Ok(JStr(ids[i]))
    requires forall i :: 0 <= i < |items| ==> f.rows[i] == LikeRow(items[i]).value
    ensures |StatusLinks(f).rows| == |items|
    ensures forall i :: 0 <= i < |items| ==>
      StatusLinks(f).rows[i] == [JStr(StatusPrefix + ids[i])] + LikeRow(items[i]).value[1..]
  {
    assert IdsAreStrings(f) by {
      forall i | 0 <= i < |f.rows| ensures f.rows[i] != [] && f.rows[i][0].JStr? {
        assert f.rows[i] == LikeRow(items[i]).value;
      }
    }
  }

  /** tweet.created_at and tweet.full_text (None when missing) and
      str(tweet.retweeted) ("" when missing). */
  function TweetRow(item: Json): (r: Result<Row>)
    ensures r.Ok? <==> GetIn(item, "tweet", "created_at", JNull).Ok?
    ensures r.Ok? ==> |r.value| == 3 && r.value[2] == JStr(PyStr(GetIn(item, "tweet", "retweeted", JStr("")).value))
  {
    match GetIn(item, "tweet", "created_at", JNull)
    case Failure => Failure
    case Ok(date) =>
      Ok([date, GetIn(item, "tweet", "full_text", JNull).value,
          JStr(PyStr(GetIn(item, "tweet", "retweeted", JStr("")).value))])
  }

  function TweetRule(): Json -> Result<Row> {
    (item: Json) => TweetRow(item)
  }

  /** The retweeted flag is shown as Python prints it, and as "" when missing. */
  lemma RetweetedShownAsText(item: Json, t: OrderedMaps.OMap<Json>)
    requires item.JObj? && OrderedMaps.Get(item.fields, "tweet") == Some(JObj(t))
    ensures OrderedMaps.Get(t, "retweeted") == Some(JBool(true)) ==> TweetRow(item).value[2] == JStr("True")
    ensures OrderedMaps.Get(t, "retweeted") == Some(JBool(false)) ==> TweetRow(item).value[2] == JStr("False")
    ensures OrderedMaps.Get(t, "retweeted").None? ==> TweetRow(item).value[2] == JStr("")
  {
  }

  /** tweets_to_df. */
  function TweetsToDf(c: Codecs, a: Archive): Frame {
    RecordsFrame(["Date", "Tweet", "Retweeted"], Ok(Items(c, a, "/tweets.js")), TweetRule())
  }

  /** tweet_headers_to_df. */
  function TweetHeadersToDf(c: Codecs, a: Archive): Frame {
    RecordsFrame(["Tweet id", "User id", "Created at"], Ok(Items(c, a, "/tweet-headers.js")),
                 FindRule(c, [Plain("tweet_id"), Plain("user_id"), Plain("created_at")]))
  }

  /** user_link_clicks_to_df. */
  function UserLinkClicksToDf(c: Codecs, a: Archive): Frame {
    RecordsFrame(["Tweet id", "Link", "Datum en tijd"], Ok(Items(c, a, "/user-link-clicks.js")),
                 FindRule(c, [Plain("tweetId"), Plain("finalUrl"), Plain("timeStampOfInteraction")]))
  }

  /** The find_item extractors never raise per item: a listed member gives one
      row per item, and anything that cannot be iterated gives the empty frame. */
  lemma FoundRowsTabulate(c: Codecs, a: Archive)
    ensures Tabulated(AdEngagementToDf(c, a), ["Text", "Impression time"], Ok(Items(c, a, "ad-engagements.js")),
                      FindRule(c, [Plain("tweetText"), Plain("impressionTime")]))
    ensures Tabulated(TweetHeadersToDf(c, a), ["Tweet id", "User id", "Created at"], Ok(Items(c, a, "/tweet-headers.js")),
                      FindRule(c, [Plain("tweet_id"), Plain("user_id"), Plain("created_at")]))
    ensures Tabulated(UserLinkClicksToDf(c, a), ["Tweet id", "Link", "Datum en tijd"], Ok(Items(c, a, "/user-link-clicks.js")),
                      FindRule(c, [Plain("tweetId"), Plain("finalUrl"), Plain("timeStampOfInteraction")]))
    ensures Tabulated(PersonalizationToDf(c, a), ["Interest", "is disabled"], Interests(Items(c, a, "personalization.js")),
                      FindRule(c, [Plain("name"), Plain("isDisabled")]))
    ensures Tabulated(TweetsToDf(c, a), ["Date", "Tweet", "Retweeted"], Ok(Items(c, a, "/tweets.js")), TweetRule())
  {
    RecordsFrameTabulates(["Text", "Impression time"], Ok(Items(c, a, "ad-engagements.js")),
                          FindRule(c, [Plain("tweetText"), Plain("impressionTime")]));
    RecordsFrameTabulates(["Tweet id", "User id", "Created at"], Ok(Items(c, a, "/tweet-headers.js")),
                          FindRule(c, [Plain("tweet_id"), Plain("user_id"), Plain("created_at")]));
    RecordsFrameTabulates(["Tweet id", "Link", "Datum en tijd"], Ok(Items(c, a, "/user-link-clicks.js")),
                          FindRule(c, [Plain("tweetId"), Plain("finalUrl"), Plain("timeStampOfInteraction")]));
    RecordsFrameTabulates(["Interest", "is disabled"], Interests(Items(c, a, "personalization.js")),
                          FindRule(c, [Plain("name"), Plain("isDisabled")]));
    RecordsFrameTabulates(["Date", "Tweet", "Retweeted"], Ok(Items(c, a, "/tweets.js")), TweetRule());
  }

  // ---------------------------------------------------------------------------
  // Extraction and the flow
  // ---------------------------------------------------------------------------

  const XIds := [
    "x_ad_engagement", "x_follower", "x_following", "x_block", "x_like",
    "x_tweet", "x_personalization", "x_mute", "x_tweet_headers", "x_user_link_clicks"
  ]

  const XTitles := [
    "Your engagement with ads", "Your followers", "Accounts you follow", "Accounts you blocked",
    "Posts that you liked", "Your tweets", "Your personalization", "Accounts you muted",
    "Tweet headers", "Links you clicked"
  ]

  const XExtractors: seq<(Codecs, Archive) -> Frame> := [
    AdEngagementToDf, FollowerToDf, FollowingToDf, BlockToDf, LikeToDf,
    TweetsToDf, PersonalizationToDf, MuteToDf, TweetHeadersToDf, UserLinkClicksToDf
  ]

  /** The tables of extraction, in their fixed order, before the filter. */
  function XTables(c: Codecs, a: Archive): (ts: seq<ConsentTable>)
    ensures |ts| == 10
  {
    TablesOf(XIds, XTitles, XExtractors, c, a)
  }

  /** extraction: the tables whose frame is not empty, in the fixed order. */
  function XExtraction(c: Codecs, a: Archive): seq<ConsentTable> {
    NonEmptyTables(XTables(c, a))
  }

  /** Table k of extraction is offered exactly when its extractor's frame is not empty. */
  lemma XOffered(c: Codecs, a: Archive, k: nat)
    requires k < 10
    ensures XTables(c, a)[k].id == XIds[k]
    ensures XTables(c, a)[k] in XExtraction(c, a) <==> !XExtractors[k](c, a).Empty()
  {
    TableOffered(XIds, XTitles, XExtractors, c, a, k);
  }

  /** XFlow: validate_zip with the catalog, then extraction. */
  function XPlatform(c: Codecs, open: string -> Zip): Platform {
    XNeedsFiveHits([]);
    ZipPlatform([XCategory], c, open, XExtraction)
  }

  /** An archive with five known base names leads to the review of the extracted tables. */
  lemma RecognisedZipShowsTables(c: Codecs, open: string -> Zip, session: int, R: seq<Payload>, file: string)
    requires |R| >= 1 && R[0] == PayloadString(file) && open(file).Some?
    requires Hits(BaseNames(open(file).value), XKnownFiles) >= 5
    ensures |StartFlowRun(XPlatform(c, open), session, R, Some([])).trace| >= 2
    ensures StartFlowRun(XPlatform(c, open), session, R, Some([])).trace[..2] ==
      [Render(FilePrompt), Render(ReviewData(XExtraction(c, Opened(c, open(file)))))]
  {
    assert |XKnownFiles| == 86;
    OneCategoryReviewed(XCategory, c, open, XExtraction, session, R, file);
  }
}
