// The flow every zip-based platform runs: FlowBuilder with validate_zip on a
// catalog for validate_file and an extraction of the opened archive for
// extract_data.
module ZipFlow {
  import opened Wrappers
  import opened ExtractionHelpers
  import opened Validate
  import opened Tables
  import opened Records
  import opened Commands
  import opened FlowBuilder

  /** A FlowBuilder subclass whose validate_file is validate_zip(cats, file)
      and whose extract_data is extraction(file), on the archive open gives. */
  function ZipPlatform(cats: seq<DdpCategory>, c: Codecs, open: string -> Zip,
                       extraction: (Codecs, Archive) -> seq<ConsentTable>): (p: Platform)
    requires ScorableCatalog(CategoryLookup(cats))
    ensures forall f :: open(f).None? ==> p.validate(f) == 1
    ensures forall f :: p.validate(f) == 0 ==> p.extract(f) == Direct(Some(extraction(c, Opened(c, open(f)))))
  {
    Platform(
      (f: string) => ZipValidationStatus(cats, open(f)),
      (f: string) => Direct(Some(extraction(c, Opened(c, open(f))))))
  }

  /** With a one-category catalog, an archive with enough known base names
      leads from the file prompt straight to the review of its tables. */
  lemma OneCategoryReviewed(cat: DdpCategory, c: Codecs, open: string -> Zip,
                            extraction: (Codecs, Archive) -> seq<ConsentTable>,
                            session: int, R: seq<Payload>, file: string)
    requires Scorable(cat)
    requires |R| >= 1 && R[0] == PayloadString(file) && open(file).Some?
    requires 20 * Hits(BaseNames(open(file).value), cat.knownFiles) >= |cat.knownFiles|
    ensures ScorableCatalog(CategoryLookup([cat]))
    ensures |StartFlowRun(ZipPlatform([cat], c, open, extraction), session, R, Some([])).trace| >= 2
    ensures StartFlowRun(ZipPlatform([cat], c, open, extraction), session, R, Some([])).trace[..2] ==
      [Render(FilePrompt), Render(ReviewData(extraction(c, Opened(c, open(file)))))]
  {
    OneCategoryThreshold(cat, open(file).value);
    ValidFileShowsTables(ZipPlatform([cat], c, open, extraction), session, R, file, extraction(c, Opened(c, open(file))));
  }
}
