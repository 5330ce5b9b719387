// The YouTube platform: two catalog categories, one per language of the
// takeout, and three extractors that pick their member by the language of the
// category the validation recorded as current.
module YouTube {
  import opened Wrappers
  import opened OrderedMaps
  import opened Json
  import opened ExtractionHelpers
  import opened Validate
  import opened Tables
  import opened Records
  import opened CsvFrames
  import opened Commands
  import opened FlowBuilder

  // ---------------------------------------------------------------------------
  // The catalog
  // ---------------------------------------------------------------------------

  const DutchFiles := ["abonnementen.csv", "kijkgeschiedenis.json", "zoekgeschiedenis.json"]

  /** The English subscriptions file is listed without its final letter. */
  const EnglishFiles := ["search-history.json", "watch-history.json", "subscriptions.cs"]

  /** The id "json_en" carries the Dutch files and language NL, "json_nl" the
      English ones and language EN. */
  const YouTubeCategories := [
    DdpCategory("json_en", JSON, NL, DutchFiles),
    DdpCategory("json_nl", JSON, EN, EnglishFiles)
  ]

  lemma YouTubeCatalog()
    ensures CategoryLookup(YouTubeCategories) == [("json_en", YouTubeCategories[0]), ("json_nl", YouTubeCategories[1])]
    ensures ScorableCatalog(CategoryLookup(YouTubeCategories))
  {
    var dutch, english := YouTubeCategories[0], YouTubeCategories[1];
    assert YouTubeCategories[..1] == [dutch];
    OneCategoryLookup(dutch);
    assert "json_en" != "json_nl" by { assert "json_en"[5] != "json_nl"[5]; }
    assert Put([("json_en", dutch)], "json_nl", english) == [("json_en", dutch), ("json_nl", english)];
  }

  /** With three known files per category, the 5% threshold is one hit in either. */
  lemma YouTubeInferredIff(names: seq<string>)
    ensures ScorableCatalog(CategoryLookup(YouTubeCategories))
    ensures Inferred(CategoryLookup(YouTubeCategories), names).Some? <==>
      exists k :: 0 <= k < |names| && (names[k] in DutchFiles || names[k] in EnglishFiles)
  {
    YouTubeCatalog();
    InferredSpec(CategoryLookup(YouTubeCategories), names);
    ThresholdInIntegers(YouTubeCategories[0], names);
    ThresholdInIntegers(YouTubeCategories[1], names);
  }

  /** An archive is recognised exactly when one of its members' base names is
      a known file of either language. */
  lemma YouTubeValidIffKnownFile(members: seq<Member>)
    ensures ScorableCatalog(CategoryLookup(YouTubeCategories))
    ensures ZipValidationStatus(YouTubeCategories, Some(members)) == 0 <==>
      exists i :: 0 <= i < |members| &&
        (BaseName(members[i].name) in DutchFiles || BaseName(members[i].name) in EnglishFiles)
  {
    var names := BaseNames(members);
    YouTubeInferredIff(names);
    assert ZipValidationStatus(YouTubeCategories, Some(members)) == 0 <==>
      Inferred(CategoryLookup(YouTubeCategories), names).Some?;
    KnownBaseName(members);
  }

  /** Some base name is a known file exactly when some member's is. */
  lemma KnownBaseName(members: seq<Member>)
    ensures (exists k :: 0 <= k < |BaseNames(members)| &&
              (BaseNames(members)[k] in DutchFiles || BaseNames(members)[k] in EnglishFiles)) <==>
      exists i :: 0 <= i < |members| &&
        (BaseName(members[i].name) in DutchFiles || BaseName(members[i].name) in EnglishFiles)
  {
    var names := BaseNames(members);
    if exists i :: 0 <= i < |members| &&
        (BaseName(members[i].name) in DutchFiles || BaseName(members[i].name) in EnglishFiles) {
      var i :| 0 <= i < |members| &&
        (BaseName(members[i].name) in DutchFiles || BaseName(members[i].name) in EnglishFiles);
      assert names[i] == BaseName(members[i].name);
    }
  }

  /** validate_zip's status for the catalog. */
  function YouTubeStatus(zip: Zip): (r: int)
    ensures r == 0 || r == 1
    ensures zip.None? ==> r == 1
    ensures zip.Some? ==> (r == 0 <==> exists i :: (0 <= i < |zip.value| &&
      (BaseName(zip.value[i].name) in DutchFiles || BaseName(zip.value[i].name) in EnglishFiles)))
  {
    YouTubeCatalog();
    if zip.None? then ZipValidationStatus(YouTubeCategories, zip)
    else
      YouTubeValidIffKnownFile(zip.value);
      ZipValidationStatus(YouTubeCategories, zip)
  }

  /** Because of the shortened catalog entry, an English takeout whose only
      recognisable member is subscriptions.csv is refused. */
  lemma SubscriptionsAloneRefused(members: seq<Member>)
    requires forall i :: 0 <= i < |members| ==> BaseName(members[i].name) == "subscriptions.csv"
    ensures YouTubeStatus(Some(members)) == 1
  {
    assert "subscriptions.csv" !in DutchFiles && "subscriptions.csv" !in EnglishFiles;
  }

  // ---------------------------------------------------------------------------
  // The member each extractor reads
  // ---------------------------------------------------------------------------

  /** validation.current_ddp_category.language: with no current category the
      attribute lookup raises. */
  function LanguageOf(cat: Option<DdpCategory>): (r: Result<Language>)
    ensures r.Ok? <==> cat.Some?
    ensures r.Ok? ==> r.value == cat.value.language
  {
    match cat
    case None => Failure
    case Some(k) => Ok(k.language)
  }

  function WatchTarget(lang: Language): Option<string> {
    match lang
    case NL => Some("kijkgeschiedenis.json")
    case EN => Some("watch-history.json")
    case UNKNOWN => None
  }

  function SearchTarget(lang: Language): Option<string> {
    match lang
    case NL => Some("zoekgeschiedenis.json")
    case EN => Some("search-history.json")
    case UNKNOWN => None
  }

  /** The empty file name stands for the language without a subscriptions file. */
  function SubscriptionsTarget(lang: Language): string {
    match lang
    case NL => "abonnementen.csv"
    case EN => "subscriptions.csv"
    case UNKNOWN => ""
  }

  /** The decoded member, or the empty dict when the language has none. */
  function Loaded(a: Archive, target: Option<string>): Json {
    match target
    case None => JObj([])
    case Some(t) => a.read(t)
  }

  // ---------------------------------------------------------------------------
  // Extractors
  // ---------------------------------------------------------------------------

  const WatchColumns := ["Titel", "Link", "Datum en tijd"]
  const WatchCells := [Plain("title"), Plain("titleUrl"), Plain("time")]
  const SearchColumns := ["Zoekterm", "Datum en tijd"]
  const SearchCells := [Plain("title"), Plain("time")]

  /** watch_history_to_df: fails when the language lookup raises; otherwise the
      frame of one (title, titleUrl, time) row per item. */
  function WatchHistory(c: Codecs, a: Archive, cat: Option<DdpCategory>): Result<Frame> {
    match LanguageOf(cat)
    case Failure => Failure
    case Ok(lang) => Ok(RecordsFrame(WatchColumns, Ok(Loaded(a, WatchTarget(lang))), GetRule(c, WatchCells)))
  }

  /** search_history_to_df: as the watch history, with (title, time) rows. */
  function SearchHistory(c: Codecs, a: Archive, cat: Option<DdpCategory>): Result<Frame> {
    match LanguageOf(cat)
    case Failure => Failure
    case Ok(lang) => Ok(RecordsFrame(SearchColumns, Ok(Loaded(a, SearchTarget(lang))), GetRule(c, SearchCells)))
  }

  /** subscriptions_to_df: the CSV member of the language, read whole. */
  function Subscriptions(c: Codecs, a: Archive, cat: Option<DdpCategory>): Result<Frame> {
    match LanguageOf(cat)
    case Failure => Failure
    case Ok(lang) => Ok(CsvToDf(c, a.raw(SubscriptionsTarget(lang))))
  }

  /** The member the language selects, decoded as read_json_from_bytes does. */
  method LoadTarget(c: Codecs, zip: Zip, target: Option<string>) returns (d: Json)
    ensures d == Loaded(Opened(c, zip), target)
  {
    if target.None? { return JObj([]); }
    var b := ExtractFileFromZip(zip, target.value);
    d := ReadJson(b, c.readJson);
  }

  /** watch_history_to_df, run: the language branch, then the loop. */
  method WatchHistoryToDf(c: Codecs, zip: Zip, cat: Option<DdpCategory>) returns (r: Result<Frame>)
    ensures r == WatchHistory(c, Opened(c, zip), cat)
    ensures r.Ok? ==> Tabulated(r.value, WatchColumns, Ok(Loaded(Opened(c, zip), WatchTarget(cat.value.language))), GetRule(c, WatchCells))
  {
    var lang := LanguageOf(cat);
    if lang.Failure? { return Failure; }
    var d := LoadTarget(c, zip, WatchTarget(lang.value));
    var out := RecordsToDf(WatchColumns, Ok(d), GetRule(c, WatchCells));
    return Ok(out);
  }

  /** search_history_to_df, run. */
  method SearchHistoryToDf(c: Codecs, zip: Zip, cat: Option<DdpCategory>) returns (r: Result<Frame>)
    ensures r == SearchHistory(c, Opened(c, zip), cat)
    ensures r.Ok? ==> Tabulated(r.value, SearchColumns, Ok(Loaded(Opened(c, zip), SearchTarget(cat.value.language))), GetRule(c, SearchCells))
  {
    var lang := LanguageOf(cat);
    if lang.Failure? { return Failure; }
    var d := LoadTarget(c, zip, SearchTarget(lang.value));
    var out := RecordsToDf(SearchColumns, Ok(d), GetRule(c, SearchCells));
    return Ok(out);
  }

  /** Dutch takeouts are read from the Dutch members, English ones from the
      English members, and a category of any other language yields the empty
      watch and search tables and reads the subscriptions of the empty name. */
  lemma LanguageChoosesFiles(c: Codecs, a: Archive, cat: DdpCategory)
    ensures cat.language == NL ==>
      WatchHistory(c, a, Some(cat)) == Ok(RecordsFrame(WatchColumns, Ok(a.read("kijkgeschiedenis.json")), GetRule(c, WatchCells))) &&
      SearchHistory(c, a, Some(cat)) == Ok(RecordsFrame(SearchColumns, Ok(a.read("zoekgeschiedenis.json")), GetRule(c, SearchCells))) &&
      Subscriptions(c, a, Some(cat)) == Ok(CsvToDf(c, a.raw("abonnementen.csv")))
    ensures cat.language == EN ==>
      WatchHistory(c, a, Some(cat)) == Ok(RecordsFrame(WatchColumns, Ok(a.read("watch-history.json")), GetRule(c, WatchCells))) &&
      SearchHistory(c, a, Some(cat)) == Ok(RecordsFrame(SearchColumns, Ok(a.read("search-history.json")), GetRule(c, SearchCells))) &&
      Subscriptions(c, a, Some(cat)) == Ok(CsvToDf(c, a.raw("subscriptions.csv")))
    ensures cat.language == UNKNOWN ==>
      WatchHistory(c, a, Some(cat)) == Ok(EmptyFrame(WatchColumns)) &&
      SearchHistory(c, a, Some(cat)) == Ok(EmptyFrame(SearchColumns)) &&
      Subscriptions(c, a, Some(cat)) == Ok(CsvToDf(c, a.raw("")))
  {
    if cat.language == UNKNOWN {
      assert AllRows([], GetRule(c, WatchCells)) == Ok([]);
      assert AllRows([], GetRule(c, SearchCells)) == Ok([]);
    }
  }

  /** A watch history that is a list of dicts gives one row per item, holding
      its title, titleUrl and time, each "" where the item lacks it; a list
      with an item that is not a dict gives the empty DataFrame(). */
  lemma WatchRows(c: Codecs, a: Archive, cat: DdpCategory, items: seq<Json>)
    requires WatchTarget(cat.language).Some? && a.read(WatchTarget(cat.language).value) == JArr(items)
    ensures (forall i :: 0 <= i < |items| ==> items[i].JObj?) ==>
      var f := WatchHistory(c, a, Some(cat)).value;
      f.columns == WatchColumns && |f.rows| == |items| &&
      forall i :: 0 <= i < |items| ==> f.rows[i] == [
        Get(items[i].fields, "title").GetOr(JStr("")),
        Get(items[i].fields, "titleUrl").GetOr(JStr("")),
        Get(items[i].fields, "time").GetOr(JStr(""))]
    ensures (exists i :: 0 <= i < |items| && !items[i].JObj?) ==>
      WatchHistory(c, a, Some(cat)) == Ok(Frame([], []))
  {
    var rule := GetRule(c, WatchCells);
    RecordsFrameTabulates(WatchColumns, Ok(JArr(items)), rule);
    if exists i :: 0 <= i < |items| && !items[i].JObj? {
      var i :| 0 <= i < |items| && !items[i].JObj?;
      assert rule(items[i]).Failure?;
    } else {
      forall i | 0 <= i < |items| ensures rule(items[i]).Ok? {
        assert items[i].JObj?;
      }
    }
  }

  /** A search history that is a list of dicts gives one (title, time) row per
      item; a list with an item that is not a dict gives the empty DataFrame(). */
  lemma SearchRows(c: Codecs, a: Archive, cat: DdpCategory, items: seq<Json>)
    requires SearchTarget(cat.language).Some? && a.read(SearchTarget(cat.language).value) == JArr(items)
    ensures (forall i :: 0 <= i < |items| ==> items[i].JObj?) ==>
      var f := SearchHistory(c, a, Some(cat)).value;
      f.columns == SearchColumns && |f.rows| == |items| &&
      forall i :: 0 <= i < |items| ==> f.rows[i] == [
        Get(items[i].fields, "title").GetOr(JStr("")),
        Get(items[i].fields, "time").GetOr(JStr(""))]
    ensures (exists i :: 0 <= i < |items| && !items[i].JObj?) ==>
      SearchHistory(c, a, Some(cat)) == Ok(Frame([], []))
  {
    var rule := GetRule(c, SearchCells);
    RecordsFrameTabulates(SearchColumns, Ok(JArr(items)), rule);
    if exists i :: 0 <= i < |items| && !items[i].JObj? {
      var i :| 0 <= i < |items| && !items[i].JObj?;
      assert rule(items[i]).Failure?;
    } else {
      forall i | 0 <= i < |items| ensures rule(items[i]).Ok? {
        assert items[i].JObj?;
      }
    }
  }

  // ---------------------------------------------------------------------------
  // Extraction and the flow
  // ---------------------------------------------------------------------------

  /** The three tables of extraction, in order, before the filter; the first
      extractor to raise ends extraction, and all three raise together. */
  function YouTubeTables(c: Codecs, a: Archive, cat: Option<DdpCategory>): Result<seq<ConsentTable>> {
    var w, s, sub := WatchHistory(c, a, cat), SearchHistory(c, a, cat), Subscriptions(c, a, cat);
    if w.Failure? || s.Failure? || sub.Failure? then Failure
    else Ok([
      ConsentTable("youtube_kijkgeschiedenis", "Your watch history", w.value),
      ConsentTable("youtube_zoekgeschiedenis", "Your search history", s.value),
      ConsentTable("youtube_abonnementen", "Subscriptions", sub.value)])
  }

  /** extraction: the tables whose frame is not empty. */
  function YouTubeExtraction(c: Codecs, a: Archive, cat: Option<DdpCategory>): Result<seq<ConsentTable>> {
    match YouTubeTables(c, a, cat)
    case Failure => Failure
    case Ok(ts) => Ok(NonEmptyTables(ts))
  }

  /** Extraction raises exactly when no category is current; otherwise it
      offers the non-empty ones among the watch, search and subscriptions
      frames, and nothing else. */
  lemma YouTubeExtractionSpec(c: Codecs, a: Archive, cat: Option<DdpCategory>)
    ensures YouTubeExtraction(c, a, cat).Failure? <==> cat.None?
    ensures cat.Some? ==> forall t :: t in YouTubeExtraction(c, a, cat).value <==>
      !t.frame.Empty() &&
      (t == ConsentTable("youtube_kijkgeschiedenis", "Your watch history", WatchHistory(c, a, cat).value) ||
       t == ConsentTable("youtube_zoekgeschiedenis", "Your search history", SearchHistory(c, a, cat).value) ||
       t == ConsentTable("youtube_abonnementen", "Subscriptions", Subscriptions(c, a, cat).value))
  {
  }

  /** extraction, run on the validation it is handed. */
  method ExtractData(c: Codecs, zip: Zip, validation: ValidateInput) returns (r: Result<seq<ConsentTable>>)
    ensures r == YouTubeExtraction(c, Opened(c, zip), validation.currentDdpCategory)
  {
    var cat := validation.currentDdpCategory;
    var w := WatchHistoryToDf(c, zip, cat);
    if w.Failure? { return Failure; }
    var s := SearchHistoryToDf(c, zip, cat);
    var lang := LanguageOf(cat);
    var b := ExtractFileFromZip(zip, SubscriptionsTarget(lang.value));
    var rows := ReadCsvFromBytes(b, c.readCsv);
    var sub := CsvFrame(rows);
    r := Ok(NonEmptyTables([
      ConsentTable("youtube_kijkgeschiedenis", "Your watch history", w.value),
      ConsentTable("youtube_zoekgeschiedenis", "Your search history", s.value),
      ConsentTable("youtube_abonnementen", "Subscriptions", sub)]));
  }

  /** validate_file followed by extract_data: the validation never records a
      current category, so extraction raises whatever the archive holds. */
  method ValidateThenExtract(c: Codecs, zip: Zip) returns (status: int, r: Result<seq<ConsentTable>>)
    ensures status == YouTubeStatus(zip)
    ensures r.Failure?
  {
    YouTubeCatalog();
    var validation := ValidateZip(YouTubeCategories, zip);
    status := validation.GetStatusCodeId();
    r := ExtractData(c, zip, validation);
    YouTubeExtractionSpec(c, Opened(c, zip), validation.currentDdpCategory);
  }

  /** How the flow sees an extraction that returned or raised. */
  function AsExtraction(r: Result<seq<ConsentTable>>): (e: Extraction)
    ensures e.Raising? <==> r.Failure?
    ensures r.Ok? ==> e == Direct(Some(r.value))
  {
    match r
    case Failure => Raising
    case Ok(ts) => Direct(Some(ts))
  }

  /** YouTubeFlow: validate_zip with the catalog, then extraction on the
      category validate_zip leaves current, which is none. */
  function YouTubePlatform(c: Codecs, open: string -> Zip): (p: Platform)
    ensures forall f :: open(f).None? ==> p.validate(f) == 1
    ensures forall f :: p.extract(f).Raising?
  {
    YouTubeCatalog();
    Platform(
      (f: string) => YouTubeStatus(open(f)),
      (f: string) => AsExtraction(YouTubeExtraction(c, Opened(c, open(f)), None)))
  }

  /** A file that is not a zip gets the retry prompt. */
  lemma BadZipAsksRetry(c: Codecs, open: string -> Zip, session: int, R: seq<Payload>, file: string)
    requires |R| >= 1 && R[0] == PayloadString(file) && open(file).None?
    ensures |StartFlowRun(YouTubePlatform(c, open), session, R, Some([])).trace| >= 2
    ensures StartFlowRun(YouTubePlatform(c, open), session, R, Some([])).trace[..2] == [Render(FilePrompt), Render(RetryPrompt)]
  {
    InvalidFileAsksRetry(YouTubePlatform(c, open), session, R, file);
  }

  /** A recognised archive ends the flow after the file prompt: extraction
      raises, so neither the consent form nor a donation follows. */
  lemma RecognisedZipEndsFlow(c: Codecs, open: string -> Zip, session: int, R: seq<Payload>, file: string)
    requires |R| >= 1 && R[0] == PayloadString(file) && open(file).Some?
    requires exists i :: (0 <= i < |open(file).value| &&
      (BaseName(open(file).value[i].name) in DutchFiles || BaseName(open(file).value[i].name) in EnglishFiles))
    ensures StartFlowRun(YouTubePlatform(c, open), session, R, Some([])) == Run([Render(FilePrompt)], false)
  {
    RaisingEndsFlow(YouTubePlatform(c, open), session, R, file);
  }
}
