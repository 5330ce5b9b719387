// The Facebook platform: a one-category catalog and twenty-six record
// extractors, each reading one JSON file of the export and catching its own
// exceptions; the extraction offers the non-empty tables in a fixed order.
module Facebook {
  import opened Wrappers
  import opened Strings
  import opened OrderedMaps
  import opened Json
  import opened ExtractionHelpers
  import opened Validate
  import opened Tables
  import opened Records
  import opened Commands
  import opened FlowBuilder

  /** The known files of the one category, duplicates included. */
  const FacebookKnownFiles := KnownFilesHead + KnownFilesTail

  /** The known files in two parts, in their order. */
  const KnownFilesHead := [
      "subscription_for_no_ads.json", "other_categories_used_to_reach_you.json",
      "ads_feedback_activity.json", "ads_personalization_consent.json",
      "advertisers_you've_interacted_with.json",
      "advertisers_using_your_activity_or_information.json", "story_views_in_past_7_days.json",
      "ad_preferences.json", "groups_you've_searched_for.json", "your_search_history.json",
      "primary_public_location.json", "timezone.json", "primary_location.json",
      "your_privacy_jurisdiction.json", "people_and_friends.json", "ads_interests.json",
      "notifications.json", "notification_of_meta_privacy_policy_update.json",
      "recently_viewed.json", "recently_visited.json", "your_avatar.json",
      "meta_avatars_post_backgrounds.json", "contacts_sync_settings.json", "timezone.json",
      "autofill_information.json", "profile_information.json", "profile_update_history.json",
      "your_transaction_survey_information.json", "your_recently_followed_history.json"
  ]

  const KnownFilesTail := [
      "your_recently_used_emojis.json", "no-data.txt", "navigation_bar_activity.json",
      "pages_and_profiles_you_follow.json", "pages_you've_liked.json", "your_saved_items.json",
      "fundraiser_posts_you_likely_viewed.json", "your_fundraiser_donations_information.json",
      "your_event_responses.json", "event_invitations.json", "your_event_invitation_links.json",
      "likes_and_reactions_1.json", "your_uncategorized_photos.json", "payment_history.json",
      "no-data.txt", "your_answers_to_membership_questions.json",
      "your_group_membership_activity.json", "your_contributions.json",
      "group_posts_and_comments.json", "your_comments_in_groups.json", "instant_games.json",
      "your_page_or_groups_badges.json", "instant_games_usage_data.json", "no-data.txt",
      "who_you've_followed.json", "people_you_may_know.json", "received_friend_requests.json",
      "your_friends.json"
  ]

  const FacebookCategories := [DdpCategory("json_en", JSON, EN, FacebookKnownFiles)]

  // ---------------------------------------------------------------------------
  // Validation
  // ---------------------------------------------------------------------------

  lemma FacebookCatalog()
    ensures CategoryLookup(FacebookCategories) == [("json_en", FacebookCategories[0])]
    ensures ScorableCatalog(CategoryLookup(FacebookCategories))
  {
    assert FacebookCategories[..0] == [];
  }

  /** The catalog repeats no-data.txt three times and timezone.json twice, so
      the score divides by 57 although only 54 names are distinct. */
  lemma FacebookKnownFilesRepeat()
    ensures |FacebookKnownFiles| == 57
    ensures FacebookKnownFiles[30] == FacebookKnownFiles[43] == FacebookKnownFiles[52] == "no-data.txt"
    ensures FacebookKnownFiles[11] == FacebookKnownFiles[23] == "timezone.json"
  {
    assert FacebookKnownFiles[11] == KnownFilesHead[11];
    assert FacebookKnownFiles[23] == KnownFilesHead[23];
    assert FacebookKnownFiles[30] == KnownFilesTail[1];
    assert FacebookKnownFiles[43] == KnownFilesTail[14];
    assert FacebookKnownFiles[52] == KnownFilesTail[23];
  }

  /** With 57 known files the 5% threshold is three hits: an archive is
      recognised exactly when three of its members' base names, repetitions
      included, are known files. */
  lemma FacebookNeedsThreeHits(members: seq<Member>)
    ensures ScorableCatalog(CategoryLookup(FacebookCategories))
    ensures ZipValidationStatus(FacebookCategories, Some(members)) == 0 <==>
      Hits(BaseNames(members), FacebookKnownFiles) >= 3
  {
    FacebookCatalog();
    FacebookKnownFilesRepeat();
    var names := BaseNames(members);
    InferredSpec(CategoryLookup(FacebookCategories), names);
    ThresholdInIntegers(FacebookCategories[0], names);
  }

  // ---------------------------------------------------------------------------
  // Extractors with a row rule of their own
  // ---------------------------------------------------------------------------

  /** The datapoint of who_youve_followed_to_df: the repaired name ("" when
      missing) and the converted timestamp ({} when missing). */
  function FollowedRow(c: Codecs, item: Json): (r: Result<Row>)
    ensures r.Ok? <==> item.JObj?
    ensures r.Ok? ==> r.value == [FixLatin1(c, Get(item.fields, "name").GetOr(JStr(""))),
                                  JStr(EpochToIso(c, Get(item.fields, "timestamp").GetOr(JObj([]))))]
  {
    match FieldOr(item, "name", JStr(""))
    case Failure => Failure
    case Ok(name) => Ok([FixLatin1(c, name), Epoch(c, FieldOr(item, "timestamp", JObj([])).value)])
  }

  function FollowedRule(c: Codecs): Json -> Result<Row> {
    (item: Json) => FollowedRow(c, item)
  }

  /** who_youve_followed_to_df: when following_v3 is a list of dicts, one row
      per item in order, holding the repaired name and the converted timestamp. */
  lemma WhoYouveFollowedRows(c: Codecs, a: Archive)
    requires Field(a.read("who_you_ve_followed.json"), "following_v3").Ok?
    requires Field(a.read("who_you_ve_followed.json"), "following_v3").value.JArr?
    requires var items := Field(a.read("who_you_ve_followed.json"), "following_v3").value.items;
      forall i :: 0 <= i < |items| ==> items[i].JObj?
    ensures var items := Field(a.read("who_you_ve_followed.json"), "following_v3").value.items;
      var f := WhoYouveFollowedToDf(c, a);
      f.columns == ["Name", "Timestamp"] && |f.rows| == |items| &&
      forall i :: 0 <= i < |items| ==>
        f.rows[i] == [FixLatin1(c, Get(items[i].fields, "name").GetOr(JStr(""))),
                      JStr(EpochToIso(c, Get(items[i].fields, "timestamp").GetOr(JObj([]))))]
  {
    var items := Field(a.read("who_you_ve_followed.json"), "following_v3").value.items;
    assert AllOk(items, FollowedRule(c));
    WhoYouveFollowedTabulates(c, a);
  }

  /** d.get("label_values", [])[0]["dict"]. */
  function ReelsList(d: Json): Result<Json> {
    match FieldOr(d, "label_values", JArr([]))
    case Failure => Failure
    case Ok(values) =>
      match First(values)
      case Failure => Failure
      case Ok(first) => Field(first, "dict")
  }

  /** last_28_days_to_df: one row holding find_item(denested, "-value"); the
      lookup does not raise, so the table always has exactly one row. */
  function Last28DaysToDf(c: Codecs, a: Archive): (f: Frame)
    ensures f.columns == ["Aantal"] && |f.rows| == 1 && !f.Empty()
    ensures f.rows[0] == [Find(Denested(a.read("your_facebook_watch_activity_in_the_last_28_days.json")), "-value")]
  {
    var d := a.read("your_facebook_watch_activity_in_the_last_28_days.json");
    Frame(["Aantal"], [[Find(Denested(d), "-value")]])
  }

  /** your_friends_to_df: one row holding len(d["friends_v2"]), or the empty
      DataFrame() when the key is missing or its value has no length. */
  function YourFriendsToDf(c: Codecs, a: Archive): (f: Frame)
    ensures var friends := Field(a.read("your_friends.json"), "friends_v2");
      friends.Ok? && Len(friends.value).Ok? ==>
        f.columns == ["Aantal vrienden op facebook"] && f.rows == [[JInt(Len(friends.value).value)]]
    ensures var friends := Field(a.read("your_friends.json"), "friends_v2");
      friends.Failure? || Len(friends.value).Failure? ==> f == Frame([], [])
  {
    match Field(a.read("your_friends.json"), "friends_v2")
    case Failure => Frame([], [])
    case Ok(friends) =>
      match Len(friends)
      case Failure => Frame([], [])
      case Ok(n) => Frame(["Aantal vrienden op facebook"], [[JInt(n)]])
  }

  /** A list of friends gives a single row with the number of friends. */
  lemma FriendsCounted(c: Codecs, a: Archive)
    requires Field(a.read("your_friends.json"), "friends_v2").Ok?
    requires Field(a.read("your_friends.json"), "friends_v2").value.JArr?
    ensures YourFriendsToDf(c, a).rows ==
      [[JInt(|Field(a.read("your_friends.json"), "friends_v2").value.items|)]]
  {
  }

  // ---------------------------------------------------------------------------
  // Recently viewed and recently visited: entries and children
  // ---------------------------------------------------------------------------

  /** One viewed entry under the heading watched: the repaired data name, the
      data uri and the converted timestamp; entry.get needs a dict, and so
      does entry.get("data", {}). */
  function EntryRow(c: Codecs, watched: Json, entry: Json): (r: Result<Row>)
    ensures r.Ok? <==> entry.JObj? && FieldOr(entry, "data", JObj([])).value.JObj?
    ensures r.Ok? ==> |r.value| == 4 && r.value[0] == watched
  {
    match GetIn(entry, "data", "name", JStr(""))
    case Failure => Failure
    case Ok(name) =>
      Ok([watched, FixLatin1(c, name), GetIn(entry, "data", "uri", JStr("")).value,
          Epoch(c, FieldOr(entry, "timestamp", JStr("")).value)])
  }

  function EntryRule(c: Codecs, watched: Json): Json -> Result<Row> {
    (entry: Json) => EntryRow(c, watched, entry)
  }

  /** for entry in entries: the rows of the entries, in order. */
  function EntriesRows(c: Codecs, watched: Json, entries: Json): Result<seq<Row>> {
    match Iterate(entries)
    case Failure => Failure
    case Ok(es) => AllRows(es, EntryRule(c, watched))
  }

  /** A child's rows: child["entries"] raises when the key is missing. */
  function ChildRows(c: Codecs, child: Json): (r: Result<seq<Row>>)
    ensures !HasField(child, "entries") ==> r.Failure?
  {
    match Field(child, "entries")
    case Failure => Failure
    case Ok(es) => EntriesRows(c, FixLatin1(c, FieldOr(child, "name", JStr("")).value), es)
  }

  function ChildRule(c: Codecs): Json -> Result<seq<Row>> {
    (child: Json) => ChildRows(c, child)
  }

  /** The rows of the entries under key of item, when key in item holds; the
      test itself raises on a value that is not a container. */
  function KeyedRows(item: Json, key: string, rowsOf: Json -> Result<seq<Row>>): (r: Result<seq<Row>>)
    ensures PyIn(key, item).Ok? && !PyIn(key, item).value ==> r == Ok([])
    ensures PyIn(key, item).Ok? && PyIn(key, item).value ==> r == (if Field(item, key).Ok? then rowsOf(Field(item, key).value) else Failure)
  {
    match PyIn(key, item)
    case Failure => Failure
    case Ok(present) =>
      if !present then Ok([])
      else match Field(item, key)
        case Failure => Failure
        case Ok(v) => rowsOf(v)
  }

  /** The entries of a recently viewed item under its repaired name. */
  function ViewedEntriesRule(c: Codecs, item: Json): Json -> Result<seq<Row>> {
    (entries: Json) =>
      match FieldOr(item, "name", JStr(""))
      case Failure => Failure
      case Ok(name) => EntriesRows(c, FixLatin1(c, name), entries)
  }

  /** The children of a recently viewed item. */
  function ChildrenRule(c: Codecs): Json -> Result<seq<Row>> {
    (children: Json) =>
      match Iterate(children)
      case Failure => Failure
      case Ok(cs) => Gathered(cs, ChildRule(c))
  }

  /** The rows of one recently viewed item: those of its entries, then those
      of each child's entries. */
  function ViewedItemRows(c: Codecs, item: Json): (r: Result<seq<Row>>)
    ensures r.Ok? ==> KeyedRows(item, "entries", ViewedEntriesRule(c, item)).Ok? && KeyedRows(item, "children", ChildrenRule(c)).Ok?
    ensures r.Ok? ==> r.value == KeyedRows(item, "entries", ViewedEntriesRule(c, item)).value + KeyedRows(item, "children", ChildrenRule(c)).value
  {
    match KeyedRows(item, "entries", ViewedEntriesRule(c, item))
    case Failure => Failure
    case Ok(first) =>
      match KeyedRows(item, "children", ChildrenRule(c))
      case Failure => Failure
      case Ok(second) => Ok(first + second)
  }

  function ViewedRule(c: Codecs): Json -> Result<seq<Row>> {
    (item: Json) => ViewedItemRows(c, item)
  }

  const ViewedColumns := ["Watched", "Name", "Link", "Date"]

  /** recently_viewed_to_df: the rows of every recently_viewed item, in order. */
  function RecentlyViewedToDf(c: Codecs, a: Archive): Frame {
    GatheredFrame(ViewedColumns, Field(a.read("recently_viewed.json"), "recently_viewed"), ViewedRule(c))
  }

  /** A child without "entries", anywhere in the list, empties the whole table. */
  lemma ChildWithoutEntriesEmptiesTable(c: Codecs, a: Archive, i: nat, k: nat)
    requires Field(a.read("recently_viewed.json"), "recently_viewed").Ok?
    requires Iterate(Field(a.read("recently_viewed.json"), "recently_viewed").value).Ok?
    requires var items := Iterate(Field(a.read("recently_viewed.json"), "recently_viewed").value).value;
      i < |items| && HasField(items[i], "children") &&
      Iterate(Field(items[i], "children").value).Ok? &&
      k < |Iterate(Field(items[i], "children").value).value| &&
      !HasField(Iterate(Field(items[i], "children").value).value[k], "entries")
    ensures RecentlyViewedToDf(c, a) == Frame([], [])
  {
    var items := Iterate(Field(a.read("recently_viewed.json"), "recently_viewed").value).value;
    var children := Iterate(Field(items[i], "children").value).value;
    GatheredOk(children, ChildRule(c));
    assert ChildRule(c)(children[k]).Failure?;
    assert KeyedRows(items[i], "children", ChildrenRule(c)).Failure?;
    GatheredOk(items, ViewedRule(c));
    assert ViewedRule(c)(items[i]).Failure?;
  }

  /** The entries of a recently visited item under its name, not repaired. */
  function VisitedEntriesRule(c: Codecs, item: Json): Json -> Result<seq<Row>> {
    (entries: Json) =>
      match FieldOr(item, "name", JStr(""))
      case Failure => Failure
      case Ok(name) => EntriesRows(c, name, entries)
  }

  function VisitedRule(c: Codecs): Json -> Result<seq<Row>> {
    (item: Json) => KeyedRows(item, "entries", VisitedEntriesRule(c, item))
  }

  /** recently_visited_to_df: the rows of the entries of every visited_things_v2 item. */
  function RecentlyVisitedToDf(c: Codecs, a: Archive): Frame {
    GatheredFrame(ViewedColumns, Field(a.read("recently_visited.json"), "visited_things_v2"), VisitedRule(c))
  }

  /** Recently visited items carry no children: a dict item's rows are its
      entries' rows, each under the item's name as it is, not repaired. */
  lemma VisitedItemRows(c: Codecs, item: Json, es: seq<Json>)
    requires item.JObj? && Field(item, "entries") == Ok(JArr(es))
    ensures VisitedRule(c)(item) == AllRows(es, EntryRule(c, Get(item.fields, "name").GetOr(JStr(""))))
  {
  }

  // ---------------------------------------------------------------------------
  // Likes and reactions: numbered files
  // ---------------------------------------------------------------------------

  const LikesCells := [Latin1("title"), Latin1("reaction-reaction"), Iso("timestamp")]

  /** The decoded likes_and_reactions_{i}.json. */
  function LikesFile(a: Archive): nat -> Json {
    (i: nat) => a.read("likes_and_reactions_" + NatToString(i) + ".json")
  }

  /** The number of files the model lets the loop read: one per member, and
      the one that ends it. */
  function LikesFuel(a: Archive): nat {
    a.size + 1
  }

  function LikesAndReactionsFrame(c: Codecs, a: Archive): Frame {
    NumberedFrame(["Title", "Reaction", "Timestamp"], LikesFile(a), FindRule(c, LikesCells), LikesFuel(a))
  }

  /** likes_and_reactions_to_df: the while True loop over the numbered files. */
  method LikesAndReactionsToDf(c: Codecs, a: Archive) returns (out: Frame)
    ensures out == LikesAndReactionsFrame(c, a)
  {
    var rows := CollectNumbered(LikesFile(a), FindRule(c, LikesCells), LikesFuel(a));
    if rows.Failure? {
      return Frame([], []);
    }
    out := Frame(["Title", "Reaction", "Timestamp"], rows.value);
  }

  /** The file after the last one read decodes to an empty value and ends the
      loop: a first file that is empty gives no rows. */
  lemma NoFirstLikesFileNoRows(c: Codecs, a: Archive)
    requires !Truthy(LikesFile(a)(1))
    ensures LikesAndReactionsFrame(c, a).rows == []
  {
  }

  /** One non-empty file followed by an empty one: one row per item of the
      first file, in order. */
  lemma OneLikesFile(c: Codecs, a: Archive)
    requires Decoded(a) && Truthy(LikesFile(a)(1)) && !Truthy(LikesFile(a)(2))
    ensures Iterate(LikesFile(a)(1)).Ok?
    ensures var items := Iterate(LikesFile(a)(1)).value;
      var f := LikesAndReactionsFrame(c, a);
      |f.rows| == |items| && forall i :: 0 <= i < |items| ==> f.rows[i] == FoundRow(c, LikesCells, items[i])
  {
    var load, rule := LikesFile(a), FindRule(c, LikesCells);
    assert load(1) == a.read("likes_and_reactions_" + NatToString(1) + ".json");
    var items := Iterate(load(1)).value;
    FindRuleAllOk(c, LikesCells, items);
    NumberedFirstFile(load, rule, 1, LikesFuel(a));
    AllRowsSpec(items, rule);
  }

  // ---------------------------------------------------------------------------
  // The five tables built from an unbound name
  // ---------------------------------------------------------------------------

  /** The try block of an extractor whose frame is built from datapoints_sorted:
      the list and the loop may raise first, and otherwise the DataFrame call
      raises NameError; either way the handler leaves DataFrame(). */
  function UnboundSorted(sel: Result<Json>, rowOf: Json -> Result<Row>): (f: Frame)
    ensures f == Frame([], [])
  {
    match sel
    case Failure => Frame([], [])
    case Ok(d) =>
      match Iterate(d)
      case Failure => Frame([], [])
      case Ok(items) =>
        match AllRows(items, rowOf)
        case Failure => Frame([], [])
        case Ok(_) => Frame([], [])
  }

  // ---------------------------------------------------------------------------
  // The record extractors
  // ---------------------------------------------------------------------------

  /** who_youve_followed_to_df: a (name, timestamp) row per following_v3 item; the
      empty DataFrame() when the list is missing or an item raises. */
  function WhoYouveFollowedToDf(c: Codecs, a: Archive): Frame {
    var d := a.read("who_you_ve_followed.json");
    RecordsFrame(["Name", "Timestamp"], Field(d, "following_v3"), FollowedRule(c))
  }

  lemma WhoYouveFollowedTabulates(c: Codecs, a: Archive)
    ensures Tabulated(WhoYouveFollowedToDf(c, a), ["Name", "Timestamp"], Field(a.read("who_you_ve_followed.json"), "following_v3"), FollowedRule(c))
  {
    RecordsFrameTabulates(["Name", "Timestamp"], Field(a.read("who_you_ve_followed.json"), "following_v3"), FollowedRule(c));
  }

  /** news_your_locations_to_df: each news_your_locations_v2 item as a one-cell
      row; the empty DataFrame() when the list is missing or an item raises. */
  function NewsYourLocationsToDf(c: Codecs, a: Archive): Frame {
    var d := a.read("facebook_news/your_locations.json");
    RecordsFrame(["Location"], Field(d, "news_your_locations_v2"), ItemRule())
  }

  lemma NewsYourLocationsTabulates(c: Codecs, a: Archive)
    ensures Tabulated(NewsYourLocationsToDf(c, a), ["Location"], Field(a.read("facebook_news/your_locations.json"), "news_your_locations_v2"), ItemRule())
  {
    RecordsFrameTabulates(["Location"], Field(a.read("facebook_news/your_locations.json"), "news_your_locations_v2"), ItemRule());
  }

  /** notifications_to_df: text, link, read flag and date of each notifications_v2
      item, found in the denested item; the empty DataFrame() when the list is
      missing or an item raises. */
  function NotificationsToDf(c: Codecs, a: Archive): Frame {
    var d := a.read("notifications/notifications.json");
    RecordsFrame(["Text", "Link", "Gelezen", "Datum"], Field(d, "notifications_v2"), FindRule(c, [Plain("text"), Plain("href"), Plain("unread"), Iso("timestamp")]))
  }

  lemma NotificationsTabulates(c: Codecs, a: Archive)
    ensures Tabulated(NotificationsToDf(c, a), ["Text", "Link", "Gelezen", "Datum"], Field(a.read("notifications/notifications.json"), "notifications_v2"), FindRule(c, [Plain("text"), Plain("href"), Plain("unread"), Iso("timestamp")]))
  {
    RecordsFrameTabulates(["Text", "Link", "Gelezen", "Datum"], Field(a.read("notifications/notifications.json"), "notifications_v2"), FindRule(c, [Plain("text"), Plain("href"), Plain("unread"), Iso("timestamp")]));
  }

  /** content_sharing_you_have_created_to_df: link and date of each item of the
      decoded file itself; the empty DataFrame() when the list is missing or an
      item raises. */
  function ContentSharingToDf(c: Codecs, a: Archive): Frame {
    var d := a.read("content_sharing_links_you_have_created.json");
    RecordsFrame(["Link", "Datum en Tijd"], Ok(d), FindRule(c, [Plain("href"), Iso("timestamp")]))
  }

  lemma ContentSharingTabulates(c: Codecs, a: Archive)
    ensures Tabulated(ContentSharingToDf(c, a), ["Link", "Datum en Tijd"], Ok(a.read("content_sharing_links_you_have_created.json")), FindRule(c, [Plain("href"), Iso("timestamp")]))
  {
    RecordsFrameTabulates(["Link", "Datum en Tijd"], Ok(a.read("content_sharing_links_you_have_created.json")), FindRule(c, [Plain("href"), Iso("timestamp")]));
  }

  /** facebook_reels_usage_to_df: label and value of each item of
      d.get("label_values", [])[0]["dict"]; the empty DataFrame() when the list is
      missing or an item raises. */
  function ReelsUsageToDf(c: Codecs, a: Archive): Frame {
    var d := a.read("facebook_reels_usage_information.json");
    RecordsFrame(["Interactie met reels", "Waarde"], ReelsList(d), FindRule(c, [Plain("label"), Plain("value")]))
  }

  lemma ReelsUsageTabulates(c: Codecs, a: Archive)
    ensures Tabulated(ReelsUsageToDf(c, a), ["Interactie met reels", "Waarde"], ReelsList(a.read("facebook_reels_usage_information.json")), FindRule(c, [Plain("label"), Plain("value")]))
  {
    RecordsFrameTabulates(["Interactie met reels", "Waarde"], ReelsList(a.read("facebook_reels_usage_information.json")), FindRule(c, [Plain("label"), Plain("value")]));
  }

  /** your_search_history_to_df: search term and date of each searches_v2 item;
      the empty DataFrame() when the list is missing or an item raises. */
  function SearchHistoryToDf(c: Codecs, a: Archive): Frame {
    var d := a.read("your_search_history.json");
    RecordsFrame(["Zoekterm", "Datum"], Field(d, "searches_v2"), FindRule(c, [Latin1("text"), Iso("timestamp")]))
  }

  lemma SearchHistoryTabulates(c: Codecs, a: Archive)
    ensures Tabulated(SearchHistoryToDf(c, a), ["Zoekterm", "Datum"], Field(a.read("your_search_history.json"), "searches_v2"), FindRule(c, [Latin1("text"), Iso("timestamp")]))
  {
    RecordsFrameTabulates(["Zoekterm", "Datum"], Field(a.read("your_search_history.json"), "searches_v2"), FindRule(c, [Latin1("text"), Iso("timestamp")]));
  }

  /** ads_interests_to_df: each topics_v2 item, repaired, as a one-cell row; the
      empty DataFrame() when the list is missing or an item raises. */
  function AdsInterestsToDf(c: Codecs, a: Archive): Frame {
    var d := a.read("ads_interests.json");
    RecordsFrame(["Ad"], Field(d, "topics_v2"), Latin1ItemRule(c))
  }

  lemma AdsInterestsTabulates(c: Codecs, a: Archive)
    ensures Tabulated(AdsInterestsToDf(c, a), ["Ad"], Field(a.read("ads_interests.json"), "topics_v2"), Latin1ItemRule(c))
  {
    RecordsFrameTabulates(["Ad"], Field(a.read("ads_interests.json"), "topics_v2"), Latin1ItemRule(c));
  }

  /** profile_update_history_to_df: title and timestamp of each profile_updates_v2
      item; the empty DataFrame() when the list is missing or an item raises. */
  function ProfileUpdateHistoryToDf(c: Codecs, a: Archive): Frame {
    var d := a.read("profile_update_history.json");
    RecordsFrame(["Title", "Timestamp"], Field(d, "profile_updates_v2"), GetRule(c, [Latin1("title"), Iso("timestamp")]))
  }

  lemma ProfileUpdateHistoryTabulates(c: Codecs, a: Archive)
    ensures Tabulated(ProfileUpdateHistoryToDf(c, a), ["Title", "Timestamp"], Field(a.read("profile_update_history.json"), "profile_updates_v2"), GetRule(c, [Latin1("title"), Iso("timestamp")]))
  {
    RecordsFrameTabulates(["Title", "Timestamp"], Field(a.read("profile_update_history.json"), "profile_updates_v2"), GetRule(c, [Latin1("title"), Iso("timestamp")]));
  }

  /** your_answers_to_membership_questions_to_df: the group name of each
      group_answers item; the empty DataFrame() when the list is missing or an
      item raises. */
  function AnswersToMembershipQuestionsToDf(c: Codecs, a: Archive): Frame {
    var d := a.read("your_answers_to_membership_questions.json");
    RecordsFrame(["Group name"], FieldIn(d, "group_membership_questions_answers_v2", "group_answers"), GetRule(c, [Latin1("group_name")]))
  }

  lemma AnswersToMembershipQuestionsTabulates(c: Codecs, a: Archive)
    ensures Tabulated(AnswersToMembershipQuestionsToDf(c, a), ["Group name"], FieldIn(a.read("your_answers_to_membership_questions.json"), "group_membership_questions_answers_v2", "group_answers"), GetRule(c, [Latin1("group_name")]))
  {
    RecordsFrameTabulates(["Group name"], FieldIn(a.read("your_answers_to_membership_questions.json"), "group_membership_questions_answers_v2", "group_answers"), GetRule(c, [Latin1("group_name")]));
  }

  /** your_group_membership_activity_to_df: title, group name and timestamp of
      each groups_joined_v2 item, found in the denested item; the empty
      DataFrame() when the list is missing or an item raises. */
  function GroupMembershipActivityToDf(c: Codecs, a: Archive): Frame {
    var d := a.read("your_group_membership_activity.json");
    RecordsFrame(["Title", "Group name", "Timestamp"], Field(d, "groups_joined_v2"), FindRule(c, [Latin1("title"), Latin1("name"), Iso("timestamp")]))
  }

  lemma GroupMembershipActivityTabulates(c: Codecs, a: Archive)
    ensures Tabulated(GroupMembershipActivityToDf(c, a), ["Title", "Group name", "Timestamp"], Field(a.read("your_group_membership_activity.json"), "groups_joined_v2"), FindRule(c, [Latin1("title"), Latin1("name"), Iso("timestamp")]))
  {
    RecordsFrameTabulates(["Title", "Group name", "Timestamp"], Field(a.read("your_group_membership_activity.json"), "groups_joined_v2"), FindRule(c, [Latin1("title"), Latin1("name"), Iso("timestamp")]));
  }

  /** pages_and_profiles_you_follow_to_df: title and timestamp of each
      pages_followed_v2 item; the empty DataFrame() when the list is missing or an
      item raises. */
  function PagesAndProfilesYouFollowToDf(c: Codecs, a: Archive): Frame {
    var d := a.read("pages_and_profiles_you_follow.json");
    RecordsFrame(["Title", "Timestamp"], Field(d, "pages_followed_v2"), GetRule(c, [Latin1("title"), Iso("timestamp")]))
  }

  lemma PagesAndProfilesYouFollowTabulates(c: Codecs, a: Archive)
    ensures Tabulated(PagesAndProfilesYouFollowToDf(c, a), ["Title", "Timestamp"], Field(a.read("pages_and_profiles_you_follow.json"), "pages_followed_v2"), GetRule(c, [Latin1("title"), Iso("timestamp")]))
  {
    RecordsFrameTabulates(["Title", "Timestamp"], Field(a.read("pages_and_profiles_you_follow.json"), "pages_followed_v2"), GetRule(c, [Latin1("title"), Iso("timestamp")]));
  }

  /** pages_youve_liked_to_df: name, url and timestamp of each page_likes_v2 item;
      the empty DataFrame() when the list is missing or an item raises. */
  function PagesYouveLikedToDf(c: Codecs, a: Archive): Frame {
    var d := a.read("pages_you_ve_liked.json");
    RecordsFrame(["Name", "Url", "Timestamp"], Field(d, "page_likes_v2"), GetRule(c, [Latin1("name"), Plain("url"), Iso("timestamp")]))
  }

  lemma PagesYouveLikedTabulates(c: Codecs, a: Archive)
    ensures Tabulated(PagesYouveLikedToDf(c, a), ["Name", "Url", "Timestamp"], Field(a.read("pages_you_ve_liked.json"), "page_likes_v2"), GetRule(c, [Latin1("name"), Plain("url"), Iso("timestamp")]))
  {
    RecordsFrameTabulates(["Name", "Url", "Timestamp"], Field(a.read("pages_you_ve_liked.json"), "page_likes_v2"), GetRule(c, [Latin1("name"), Plain("url"), Iso("timestamp")]));
  }

  /** your_comment_active_days_to_df: label and value of each label_values item;
      the empty DataFrame() when the list is missing or an item raises. */
  function CommentActiveDaysToDf(c: Codecs, a: Archive): Frame {
    var d := a.read("your_comment_active_days.json");
    RecordsFrame(["Label", "Value"], Field(d, "label_values"), GetRule(c, [Plain("label"), Plain("value")]))
  }

  lemma CommentActiveDaysTabulates(c: Codecs, a: Archive)
    ensures Tabulated(CommentActiveDaysToDf(c, a), ["Label", "Value"], Field(a.read("your_comment_active_days.json"), "label_values"), GetRule(c, [Plain("label"), Plain("value")]))
  {
    RecordsFrameTabulates(["Label", "Value"], Field(a.read("your_comment_active_days.json"), "label_values"), GetRule(c, [Plain("label"), Plain("value")]));
  }

  /** your_pages_to_df: name, url and timestamp of each pages_v2 item; the empty
      DataFrame() when the list is missing or an item raises. */
  function YourPagesToDf(c: Codecs, a: Archive): Frame {
    var d := a.read("your_pages.json");
    RecordsFrame(["Name", "Url", "Timestamp"], Field(d, "pages_v2"), GetRule(c, [Latin1("name"), Plain("url"), Iso("timestamp")]))
  }

  lemma YourPagesTabulates(c: Codecs, a: Archive)
    ensures Tabulated(YourPagesToDf(c, a), ["Name", "Url", "Timestamp"], Field(a.read("your_pages.json"), "pages_v2"), GetRule(c, [Latin1("name"), Plain("url"), Iso("timestamp")]))
  {
    RecordsFrameTabulates(["Name", "Url", "Timestamp"], Field(a.read("your_pages.json"), "pages_v2"), GetRule(c, [Latin1("name"), Plain("url"), Iso("timestamp")]));
  }

  /** story_reactions_to_df: the title of each stories_feedback_v2 item; the empty
      DataFrame() when the list is missing or an item raises. */
  function StoryReactionsToDf(c: Codecs, a: Archive): Frame {
    var d := a.read("story_reactions.json");
    RecordsFrame(["Titel"], Field(d, "stories_feedback_v2"), GetRule(c, [Latin1("title")]))
  }

  lemma StoryReactionsTabulates(c: Codecs, a: Archive)
    ensures Tabulated(StoryReactionsToDf(c, a), ["Titel"], Field(a.read("story_reactions.json"), "stories_feedback_v2"), GetRule(c, [Latin1("title")]))
  {
    RecordsFrameTabulates(["Titel"], Field(a.read("story_reactions.json"), "stories_feedback_v2"), GetRule(c, [Latin1("title")]));
  }

  /** your_posts_check_ins_to_df: title and timestamp of each item of the decoded
      file itself; the empty DataFrame() when the list is missing or an item
      raises. */
  function PostsCheckInsToDf(c: Codecs, a: Archive): Frame {
    var d := a.read("your_posts__check_ins__photos_and_videos_1.json");
    RecordsFrame(["Title", "Timestamp"], Ok(d), GetRule(c, [Latin1("title"), Iso("timestamp")]))
  }

  lemma PostsCheckInsTabulates(c: Codecs, a: Archive)
    ensures Tabulated(PostsCheckInsToDf(c, a), ["Title", "Timestamp"], Ok(a.read("your_posts__check_ins__photos_and_videos_1.json")), GetRule(c, [Latin1("title"), Iso("timestamp")]))
  {
    RecordsFrameTabulates(["Title", "Timestamp"], Ok(a.read("your_posts__check_ins__photos_and_videos_1.json")), GetRule(c, [Latin1("title"), Iso("timestamp")]));
  }

  /** your_event_responses_to_df: the loop runs, but the frame is built from
      datapoints_sorted, a name bound nowhere, so the NameError handler
      always returns DataFrame(). */
  function EventResponsesToDf(c: Codecs, a: Archive): (f: Frame)
    ensures f == Frame([], [])
  {
    var d := a.read("your_event_responses.json");
    UnboundSorted(FieldIn(d, "event_responses_v2", "events_joined"), GetRule(c, [Latin1("name"), Iso("start_timestamp")]))
  }

  /** group_posts_and_comments_to_df: the loop runs, but the frame is built from
      datapoints_sorted, a name bound nowhere, so the NameError handler
      always returns DataFrame(). */
  function GroupPostsAndCommentsToDf(c: Codecs, a: Archive): (f: Frame)
    ensures f == Frame([], [])
  {
    var d := a.read("group_posts_and_comments.json");
    UnboundSorted(Field(d, "group_posts_v2"), FindRule(c, [Latin1("title"), Latin1("post"), Iso("timestamp"), Plain("url")]))
  }

  /** your_comments_in_groups_to_df: the loop runs, but the frame is built from
      datapoints_sorted, a name bound nowhere, so the NameError handler
      always returns DataFrame(). */
  function CommentsInGroupsToDf(c: Codecs, a: Archive): (f: Frame)
    ensures f == Frame([], [])
  {
    var d := a.read("your_comments_in_groups.json");
    UnboundSorted(Field(d, "group_comments_v2"), FindRule(c, [Latin1("title"), Latin1("comment-comment"), Latin1("group"), Iso("timestamp")]))
  }

  /** your_saved_items_to_df: the loop runs, but the frame is built from
      datapoints_sorted, a name bound nowhere, so the NameError handler
      always returns DataFrame(). */
  function SavedItemsToDf(c: Codecs, a: Archive): (f: Frame)
    ensures f == Frame([], [])
  {
    var d := a.read("your_saved_items.json");
    UnboundSorted(Field(d, "saves_v2"), GetRule(c, [Latin1("title"), Iso("timestamp")]))
  }

  /** comments_to_df: the loop runs, but the frame is built from
      datapoints_sorted, a name bound nowhere, so the NameError handler
      always returns DataFrame(). */
  function CommentsToDf(c: Codecs, a: Archive): (f: Frame)
    ensures f == Frame([], [])
  {
    var d := a.read("comments.json");
    UnboundSorted(Field(d, "comments_v2"), FindRule(c, [Latin1("title"), Latin1("comment-comment"), Iso("timestamp")]))
  }

  // ---------------------------------------------------------------------------
  // Extraction and the flow
  // ---------------------------------------------------------------------------

  /** The ids of the tables of extraction, in their fixed order. */
  const FacebookIds := [
    "facebook_who_youve_followed",
    "facebook_news_your_locations",
    "facebook_notifications",
    "facebook_reels_usage",
    "facebook_last_28",
    "facebook_search_history",
    "facebook_recently_visited",
    "facebook_recently_viewed",
    "facebook_profile_update_history",
    "facebook_likes_and_reactions",
    "facebook_your_group_membership_activity",
    "facebook_pages_and_profiles_you_follow_to_df",
    "facebook_pages_youve_liked_to_df",
    "facebook_your_posts_and_check_ins",
    "facebook_story_reactions",
    "facebook_content_sharing_links_you_created",
    "facebook_your_friends",
    "facebook_ads_interests",
    "facebook_your_event_responses",
    "facebook_group_posts_and_comments",
    "facebook_your_answers_to_membership_questions",
    "facebook_your_comments_in_groups",
    "facebook_your_saved_items",
    "facebook_comments",
    "facebook_your_comment_active_days",
    "facebook_your_pages"
  ]

  const FacebookTitles := [
    "Who you follow",
    "The locations Facebook news is set to",
    "Notifications Facebook sent you",
    "Interactions with Facebook Reels",
    "How many videos you watched in the last 28 days",
    "Your search history",
    "Profiles you visited recently",
    "Facebook items you recently viewed",
    "History of your profile updates",
    "Likes and reactions on Facebook",
    "Facebook groups you are a member of",
    "Pages and profiles that you follow",
    "Pages that you have liked",
    "Your posts and check-ins",
    "Your story reactions",
    "Links you shared",
    "Your friends on Facebook",
    "Your ad interests",
    "Your event responses",
    "Your posts and comments in groups",
    "Your answers to group membership questions",
    "Your comments in groups",
    "Your saved items",
    "Your comments",
    "Days you actively commented",
    "Pages you manage"
  ]

  /** The extractors of the tables of extraction, in their fixed order. */
  const FacebookExtractors: seq<(Codecs, Archive) -> Frame> := [
    WhoYouveFollowedToDf,
    NewsYourLocationsToDf,
    NotificationsToDf,
    ReelsUsageToDf,
    Last28DaysToDf,
    SearchHistoryToDf,
    RecentlyVisitedToDf,
    RecentlyViewedToDf,
    ProfileUpdateHistoryToDf,
    LikesAndReactionsFrame,
    GroupMembershipActivityToDf,
    PagesAndProfilesYouFollowToDf,
    PagesYouveLikedToDf,
    PostsCheckInsToDf,
    StoryReactionsToDf,
    ContentSharingToDf,
    YourFriendsToDf,
    AdsInterestsToDf,
    EventResponsesToDf,
    GroupPostsAndCommentsToDf,
    AnswersToMembershipQuestionsToDf,
    CommentsInGroupsToDf,
    SavedItemsToDf,
    CommentsToDf,
    CommentActiveDaysToDf,
    YourPagesToDf
  ]

  /** The tables extraction builds with the given extractors, in their order. */
  function TablesWith(extractors: seq<(Codecs, Archive) -> Frame>, c: Codecs, a: Archive): (ts: seq<ConsentTable>)
    requires |extractors| == 26
    ensures |ts| == 26
  {
    seq(26, k requires 0 <= k < 26 => ConsentTable(FacebookIds[k], FacebookTitles[k], extractors[k](c, a)))
  }

  /** The tables of extraction, in their fixed order, before the filter. */
  function FacebookTables(c: Codecs, a: Archive): (ts: seq<ConsentTable>)
    ensures |ts| == 26
  {
    TablesWith(FacebookExtractors, c, a)
  }

  /** Whatever the extractors, a table is offered exactly when its frame is not empty. */
  lemma OfferedIffNotEmpty(extractors: seq<(Codecs, Archive) -> Frame>, c: Codecs, a: Archive, k: nat)
    requires |extractors| == 26 && k < 26
    ensures TablesWith(extractors, c, a)[k].id == FacebookIds[k] && TablesWith(extractors, c, a)[k].frame == extractors[k](c, a)
    ensures TablesWith(extractors, c, a)[k] in NonEmptyTables(TablesWith(extractors, c, a)) <==> !extractors[k](c, a).Empty()
  {
  }

  /** extraction: the tables whose frame is not empty, in the fixed order. */
  function FacebookExtraction(c: Codecs, a: Archive): seq<ConsentTable> {
    NonEmptyTables(FacebookTables(c, a))
  }

  /** Whatever the extractors, when the ones at positions 18, 19, 21, 22 and
      23 return an empty frame their tables are not offered, and when the one at
      position 4 does not, its table is. */
  lemma UnboundTablesNeverOffered(extractors: seq<(Codecs, Archive) -> Frame>, c: Codecs, a: Archive)
    requires |extractors| == 26
    requires extractors[18](c, a).Empty() && extractors[19](c, a).Empty() && extractors[21](c, a).Empty()
    requires extractors[22](c, a).Empty() && extractors[23](c, a).Empty() && !extractors[4](c, a).Empty()
    ensures TablesWith(extractors, c, a)[18] !in NonEmptyTables(TablesWith(extractors, c, a))
    ensures TablesWith(extractors, c, a)[19] !in NonEmptyTables(TablesWith(extractors, c, a))
    ensures TablesWith(extractors, c, a)[21] !in NonEmptyTables(TablesWith(extractors, c, a))
    ensures TablesWith(extractors, c, a)[22] !in NonEmptyTables(TablesWith(extractors, c, a))
    ensures TablesWith(extractors, c, a)[23] !in NonEmptyTables(TablesWith(extractors, c, a))
    ensures TablesWith(extractors, c, a)[4] in NonEmptyTables(TablesWith(extractors, c, a))
  {
    var ts := TablesWith(extractors, c, a);
    OfferedIffNotEmpty(extractors, c, a, 18);
    OfferedIffNotEmpty(extractors, c, a, 19);
    OfferedIffNotEmpty(extractors, c, a, 21);
    OfferedIffNotEmpty(extractors, c, a, 22);
    OfferedIffNotEmpty(extractors, c, a, 23);
    OfferedIffNotEmpty(extractors, c, a, 4);
  }

  /** The extractors at positions 18, 19, 21, 22 and 23 are the five that build
      their frame from datapoints_sorted, so their frames are empty whatever the
      archive; the one at position 4 is last_28_days_to_df, whose frame never is. */
  lemma UnboundFramesEmpty(c: Codecs, a: Archive)
    ensures FacebookIds[18] == "facebook_your_event_responses" && FacebookExtractors[18](c, a).Empty()
    ensures FacebookIds[19] == "facebook_group_posts_and_comments" && FacebookExtractors[19](c, a).Empty()
    ensures FacebookIds[21] == "facebook_your_comments_in_groups" && FacebookExtractors[21](c, a).Empty()
    ensures FacebookIds[22] == "facebook_your_saved_items" && FacebookExtractors[22](c, a).Empty()
    ensures FacebookIds[23] == "facebook_comments" && FacebookExtractors[23](c, a).Empty()
    ensures FacebookIds[4] == "facebook_last_28" && !FacebookExtractors[4](c, a).Empty()
  {
    var fx := FacebookExtractors;
    assert fx[18] == EventResponsesToDf && fx[19] == GroupPostsAndCommentsToDf && fx[21] == CommentsInGroupsToDf;
    assert fx[22] == SavedItemsToDf && fx[23] == CommentsToDf && fx[4] == Last28DaysToDf;
  }

  /** The five tables built from datapoints_sorted are never offered, and the
      last-28-days table always is, whatever the archive. */
  lemma FiveTablesNeverOffered(c: Codecs, a: Archive)
    ensures FacebookTables(c, a)[18] !in FacebookExtraction(c, a) && FacebookTables(c, a)[19] !in FacebookExtraction(c, a)
    ensures FacebookTables(c, a)[21] !in FacebookExtraction(c, a) && FacebookTables(c, a)[22] !in FacebookExtraction(c, a)
    ensures FacebookTables(c, a)[23] !in FacebookExtraction(c, a) && FacebookTables(c, a)[4] in FacebookExtraction(c, a)
  {
    UnboundFramesEmpty(c, a);
    UnboundTablesNeverOffered(FacebookExtractors, c, a);
  }

  /** FacebookFlow: validate_zip with the catalog, and extraction, on the
      archive open gives for the chosen file. */
  function FacebookPlatform(c: Codecs, open: string -> Zip): (p: Platform)
    ensures forall f :: open(f).None? ==> p.validate(f) == 1
  {
    FacebookCatalog();
    Platform(
      (f: string) => ZipValidationStatus(FacebookCategories, open(f)),
      (f: string) => Direct(Some(FacebookExtraction(c, Opened(c, open(f))))))
  }

  /** An archive with three known base names leads to the consent form with the extracted tables. */
  lemma RecognisedZipShowsTables(c: Codecs, open: string -> Zip, session: int, R: seq<Payload>, file: string)
    requires |R| >= 1 && R[0] == PayloadString(file) && open(file).Some?
    requires Hits(BaseNames(open(file).value), FacebookKnownFiles) >= 3
    ensures |StartFlowRun(FacebookPlatform(c, open), session, R, Some([])).trace| >= 2
    ensures StartFlowRun(FacebookPlatform(c, open), session, R, Some([])).trace[..2] ==
      [Render(FilePrompt), Render(ReviewData(FacebookExtraction(c, Opened(c, open(file)))))]
  {
    FacebookNeedsThreeHits(open(file).value);
    ValidFileShowsTables(FacebookPlatform(c, open), session, R, file, FacebookExtraction(c, Opened(c, open(file))));
  }
}
