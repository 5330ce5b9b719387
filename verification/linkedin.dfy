// The LinkedIn platform: its members are CSV files, some of which start with
// a block of notes ended by a blank line; two extractors strip that block
// before reading, and extraction shows six of the tables.
module LinkedIn {
  import opened Wrappers
  import opened OrderedMaps
  import opened ExtractionHelpers
  import opened Validate
  import opened Tables
  import opened Records
  import opened CsvFrames
  import opened Commands
  import opened FlowBuilder
  import opened ZipFlow

  const LinkedInKnownFiles := [
    "Ad_Targeting.csv", "Endorsement_Given_Info.csv", "Member_Follows.csv",
    "Recommendations_Given.csv", "Company Follows.csv", "Endorsement_Received_Info.csv",
    "messages.csv", "Registration.csv", "Connections.csv", "Inferences_about_you.csv",
    "PhoneNumbers.csv", "Rich Media.csv", "Contacts.csv", "Invitations.csv", "Positions.csv",
    "Skills.csv", "Education.csv", "Profile.csv", "Votes.csv", "Email Addresses.csv",
    "Learning.csv", "Reactions.csv"
  ]

  const LinkedInCategory := DdpCategory("csv_en", CSV, EN, LinkedInKnownFiles)

  /** With 22 known files the 5% threshold is two hits. */
  lemma LinkedInNeedsTwoHits(members: seq<Member>)
    ensures ScorableCatalog(CategoryLookup([LinkedInCategory]))
    ensures ZipValidationStatus([LinkedInCategory], Some(members)) == 0 <==>
      Hits(BaseNames(members), LinkedInKnownFiles) >= 2
  {
    assert |LinkedInKnownFiles| == 22;
    OneCategoryThreshold(LinkedInCategory, members);
  }

  // ---------------------------------------------------------------------------
  // strip_notes
  // ---------------------------------------------------------------------------

  const Newline: byte := 10

  /** Two newlines, an empty line, start at position j. */
  predicate BlankAt(b: Bytes, j: nat) {
    j + 1 < |b| && b[j] == Newline && b[j + 1] == Newline
  }

  /** The first position from i on where two newlines start. */
  function BlankFrom(b: Bytes, i: nat): (r: Option<nat>)
    ensures r.Some? ==> i <= r.value && BlankAt(b, r.value)
    ensures r.Some? ==> forall j: nat :: i <= j < r.value ==> !BlankAt(b, j)
    ensures r.None? ==> forall j: nat :: i <= j ==> !BlankAt(b, j)
    decreases |b| - i
  {
    if i + 1 >= |b| then None
    else if BlankAt(b, i) then Some(i)
    else BlankFrom(b, i + 1)
  }

  /** strip_notes: the lazy DOTALL match anchored at the start of the buffer
      runs to the first "\n\n", and the substitution deletes it; without a
      blank line there is no match and the bytes come back as they were. */
  function StripNotes(b: Bytes): Bytes {
    match BlankFrom(b, 0)
    case None => b
    case Some(i) => b[i + 2..]
  }

  /** What strip_notes keeps is a suffix of its input: all of it when there
      is no blank line, and otherwise exactly what follows the first one. */
  lemma StripNotesSpec(b: Bytes)
    ensures StripNotes(b) == b[|b| - |StripNotes(b)|..]
    ensures (forall j: nat :: !BlankAt(b, j)) ==> StripNotes(b) == b
    ensures (exists j: nat :: BlankAt(b, j)) ==>
      var cut := |b| - |StripNotes(b)|;
      cut >= 2 && BlankAt(b, cut - 2) && forall j: nat :: j < cut - 2 ==> !BlankAt(b, j)
  {
    match BlankFrom(b, 0)
    case None =>
    case Some(i) =>
      assert |b| - |b[i + 2..]| == i + 2;
  }

  /** A note block without a blank line inside, not ending in a newline,
      followed by a blank line and the CSV: strip_notes leaves the CSV. */
  lemma NotesStripped(notes: Bytes, csv: Bytes)
    requires forall j: nat :: !BlankAt(notes, j)
    requires notes == [] || notes[|notes| - 1] != Newline
    ensures StripNotes(notes + [Newline, Newline] + csv) == csv
  {
    var b := notes + [Newline, Newline] + csv;
    forall j: nat | j < |notes| ensures !BlankAt(b, j) {
      if j + 1 < |notes| {
        assert !BlankAt(notes, j);
        assert b[j] == notes[j] && b[j + 1] == notes[j + 1];
      } else {
        assert b[j] == notes[j];
      }
    }
    assert BlankAt(b, |notes|);
    match BlankFrom(b, 0)
    case None =>
    case Some(i) =>
      assert i == |notes|;
      assert b[i + 2..] == csv;
  }

  // ---------------------------------------------------------------------------
  // Extractors
  // ---------------------------------------------------------------------------

  function CompanyFollowsToDf(c: Codecs, a: Archive): Frame {
    CsvToDf(c, a.raw("Company Follows.csv"))
  }

  function MemberFollowsToDf(c: Codecs, a: Archive): Frame {
    CsvToDf(c, StripNotes(a.raw("Member_Follows.csv")))
  }

  function ConnectionsToDf(c: Codecs, a: Archive): Frame {
    CsvToDf(c, StripNotes(a.raw("Connections.csv")))
  }

  function ReactionsToDf(c: Codecs, a: Archive): Frame {
    CsvToDf(c, a.raw("Reactions.csv"))
  }

  function AdsClickedToDf(c: Codecs, a: Archive): Frame {
    CsvToDf(c, a.raw("Ads Clicked.csv"))
  }

  function SearchQueriesToDf(c: Codecs, a: Archive): Frame {
    CsvToDf(c, a.raw("SearchQueries.csv"))
  }

  function SharesToDf(c: Codecs, a: Archive): Frame {
    CsvToDf(c, a.raw("Shares.csv"))
  }

  function CommentsToDf(c: Codecs, a: Archive): Frame {
    CsvToDf(c, a.raw("Comments.csv"))
  }

  /** The connections and member follows files are read from the line after
      their notes. */
  lemma StrippedFilesSkipNotes(c: Codecs, a: Archive, notes: Bytes, csv: Bytes)
    requires forall j: nat :: !BlankAt(notes, j)
    requires notes == [] || notes[|notes| - 1] != Newline
    ensures a.raw("Connections.csv") == notes + [Newline, Newline] + csv ==>
      ConnectionsToDf(c, a) == CsvToDf(c, csv)
    ensures a.raw("Member_Follows.csv") == notes + [Newline, Newline] + csv ==>
      MemberFollowsToDf(c, a) == CsvToDf(c, csv)
  {
    NotesStripped(notes, csv);
  }

  // ---------------------------------------------------------------------------
  // Extraction and the flow
  // ---------------------------------------------------------------------------

  const LinkedInIds := [
    "linkedin_ads_clicked", "linkedin_comments", "linked_in_company_follows", "linkedin_shares",
    "linkedin_reactions", "linkedin_search_queries"
  ]

  const LinkedInTitles := [
    "Ads you clicked on", "Your comments on LinkedIn", "Companies you follow",
    "Posts you shared on LinkedIn", "Your reactions on LinkedIn", "Your search queries on LinkedIn"
  ]

  /** The members the six tables read, none of them through strip_notes. */
  const LinkedInTargets := [
    "Ads Clicked.csv", "Comments.csv", "Company Follows.csv", "Shares.csv", "Reactions.csv",
    "SearchQueries.csv"
  ]

  /** The extractors extraction calls; connections_to_df and member_follows_to_df are not among them. */
  const LinkedInExtractors: seq<(Codecs, Archive) -> Frame> := [
    AdsClickedToDf, CommentsToDf, CompanyFollowsToDf, SharesToDf, ReactionsToDf, SearchQueriesToDf
  ]

  /** The tables of extraction, in their fixed order, before the filter. */
  function LinkedInTables(c: Codecs, a: Archive): (ts: seq<ConsentTable>)
    ensures |ts| == 6
  {
    TablesOf(LinkedInIds, LinkedInTitles, LinkedInExtractors, c, a)
  }

  /** extraction: the tables whose frame is not empty. */
  function LinkedInExtraction(c: Codecs, a: Archive): seq<ConsentTable> {
    NonEmptyTables(LinkedInTables(c, a))
  }

  /** Table k reads its member whole, and is offered exactly when the CSV
      reader yields a row with at least one field. */
  lemma LinkedInOffered(c: Codecs, a: Archive, k: nat)
    requires k < 6
    ensures LinkedInTables(c, a)[k].id == LinkedInIds[k]
    ensures LinkedInTables(c, a)[k].frame == CsvToDf(c, a.raw(LinkedInTargets[k]))
    ensures LinkedInTables(c, a)[k] in LinkedInExtraction(c, a) <==>
      exists i :: 0 <= i < |c.readCsv(a.raw(LinkedInTargets[k])).rows| &&
        Keys(c.readCsv(a.raw(LinkedInTargets[k])).rows[i]) != []
  {
    TableOffered(LinkedInIds, LinkedInTitles, LinkedInExtractors, c, a, k);
    CsvFrameEmpty(c.readCsv(a.raw(LinkedInTargets[k])).rows);
  }

  /** Neither the connections nor the member follows reach the consent form. */
  lemma ConnectionsNeverShown(c: Codecs, a: Archive)
    ensures forall t :: t in LinkedInExtraction(c, a) ==> t.id in LinkedInIds
    ensures "linkedin_connections" !in LinkedInIds && "linkedin_member_follows" !in LinkedInIds
  {
    forall t | t in LinkedInExtraction(c, a) ensures t.id in LinkedInIds {
      var k :| 0 <= k < 6 && LinkedInTables(c, a)[k] == t;
      TableOffered(LinkedInIds, LinkedInTitles, LinkedInExtractors, c, a, k);
    }
  }

  /** LinkedInFlow: validate_zip with the catalog, then extraction. */
  function LinkedInPlatform(c: Codecs, open: string -> Zip): Platform {
    LinkedInNeedsTwoHits([]);
    ZipPlatform([LinkedInCategory], c, open, LinkedInExtraction)
  }

  /** An archive with two known base names leads to the review of the extracted tables. */
  lemma RecognisedZipShowsTables(c: Codecs, open: string -> Zip, session: int, R: seq<Payload>, file: string)
    requires |R| >= 1 && R[0] == PayloadString(file) && open(file).Some?
    requires Hits(BaseNames(open(file).value), LinkedInKnownFiles) >= 2
    ensures |StartFlowRun(LinkedInPlatform(c, open), session, R, Some([])).trace| >= 2
    ensures StartFlowRun(LinkedInPlatform(c, open), session, R, Some([])).trace[..2] ==
      [Render(FilePrompt), Render(ReviewData(LinkedInExtraction(c, Opened(c, open(file)))))]
  {
    assert |LinkedInKnownFiles| == 22;
    OneCategoryReviewed(LinkedInCategory, c, open, LinkedInExtraction, session, R, file);
  }
}
