// The example study script: ask for any zip file, show the name and sizes of
// its members, ask for consent, donate at most once and exit.
module D3iExample {
  import opened Wrappers
  import opened Json
  import opened Tables
  import opened Commands
  import opened ExtractionHelpers

  // ---------------------------------------------------------------------------
  // Validation and extraction
  // ---------------------------------------------------------------------------

  /** validate_the_participants_input: a file is valid exactly when it opens as a zip. */
  function IsValidInput(zip: Zip): (valid: bool)
    ensures valid <==> zip.Some?
  {
    match zip
    case Some(_) => true
    case None => false
  }

  const ZipColumns: seq<string> := ["File name", "Compressed file size", "File size"]

  /** The datapoint of one member: (name, compress_size, file_size). */
  function MemberRow(m: Member): seq<Json> {
    [JStr(m.name), JInt(m.compressSize), JInt(|m.data|)]
  }

  function ZipTable(rows: seq<seq<Json>>): ConsentTable {
    ConsentTable("zip_contents", "The contents of your zipfile contents:", Frame(ZipColumns, rows))
  }

  /** The table list extract_the_data_you_are_interested_in returns. */
  function ZipTables(zip: Zip): seq<ConsentTable> {
    match zip
    case None => []
    case Some(members) => [ZipTable(seq(|members|, i requires 0 <= i < |members| => MemberRow(members[i])))]
  }

  /** The loop over namelist(): one row per member, in archive order. */
  method CollectMemberRows(members: seq<Member>) returns (data: seq<seq<Json>>)
    ensures |data| == |members|
    ensures forall i :: 0 <= i < |members| ==>
      data[i] == [JStr(members[i].name), JInt(members[i].compressSize), JInt(|members[i].data|)]
  {
    data := [];
    for i := 0 to |members|
      invariant |data| == i
      invariant forall k :: 0 <= k < i ==> data[k] == MemberRow(members[k])
    {
      data := data + [MemberRow(members[i])];
    }
  }

  /** The extraction: a bad zip gives no table (the exception is caught);
      any zip, even one without members, gives the one zip_contents table. */
  method ExtractTheData(zip: Zip) returns (tables: seq<ConsentTable>)
    ensures zip.None? ==> tables == []
    ensures zip.Some? ==> |tables| == 1 && tables[0].id == "zip_contents"
    ensures zip.Some? ==> tables[0].frame.columns == ZipColumns && tables[0].frame.Rectangular()
    ensures zip.Some? ==> |tables[0].frame.rows| == |zip.value|
    ensures zip.Some? ==> forall i :: 0 <= i < |zip.value| ==>
      tables[0].frame.rows[i] == [JStr(zip.value[i].name), JInt(zip.value[i].compressSize), JInt(|zip.value[i].data|)]
    ensures tables == ZipTables(zip)
  {
    tables := [];
    if zip.None? {
      return;
    }
    var data := CollectMemberRows(zip.value);
    assert data == seq(|zip.value|, i requires 0 <= i < |zip.value| => MemberRow(zip.value[i]));
    tables := tables + [ZipTable(data)];
  }

  // ---------------------------------------------------------------------------
  // The process generator
  // ---------------------------------------------------------------------------

  /** The two hooks the loop calls for a chosen file. */
  datatype Study = Study(valid: string -> bool, extract: string -> seq<ConsentTable>)

  /** The example study: files are opened as zips by `open`. */
  function ExampleStudy(open: string -> Zip): (st: Study)
    ensures forall f :: st.valid(f) <==> open(f).Some?
    ensures forall f :: st.extract(f) == ZipTables(open(f))
  {
    Study((f: string) => IsValidInput(open(f)), (f: string) => ZipTables(open(f)))
  }

  /** yield ph.exit(0, "Success"), reached with the commands t yielded so far. */
  function ExitFrom(t: seq<Command>, R: seq<Payload>): (r: Run)
    ensures r.finished <==> Answered(t, R)
    ensures r.finished ==> r.trace == t + [Exit(0, "Success")]
    ensures !r.finished ==> r.trace == t
  {
    if Answered(t, R) then Run(t + [Exit(0, "Success")], true) else Run(t, false)
  }

  /** The donation the consent answer leads to, appended to t. */
  function ConsentAnswer(session: string, t: seq<Command>, answer: Payload): (r: seq<Command>)
    ensures answer.PayloadJSON? ==> r == t + [Donate(session, Raw(answer.value))]
    ensures answer.PayloadFalse? ==> r == t + [Donate(session, DeclinedValue)]
    ensures !answer.PayloadJSON? && !answer.PayloadFalse? ==> r == t
  {
    match answer
    case PayloadJSON(v) => t + [Donate(session, Raw(v))]
    case PayloadFalse => t + [Donate(session, DeclinedValue)]
    case _ => t
  }

  /** process run against the answers R, from an iteration of the while True
      loop entered with the commands t yielded and answered. */
  function ProcessFrom(st: Study, session: string, R: seq<Payload>, t: seq<Command>): (r: Run)
    requires Answered(t, R)
    ensures t < r.trace
    decreases |R| - |t|
  {
    var t1 := t + [Render(FilePrompt)];
    if !Answered(t1, R) then Run(t1, false)
    else match R[|t1| - 1]
      case PayloadString(file) =>
        if st.valid(file) then
          var t2 := t1 + [Render(ReviewData(st.extract(file)))];
          if !Answered(t2, R) then Run(t2, false)
          else ExitFrom(ConsentAnswer(session, t2, R[|t2| - 1]), R)
        else
          var t2 := t1 + [Render(RetryPrompt)];
          if !Answered(t2, R) then Run(t2, false)
          else if R[|t2| - 1].PayloadTrue? then ProcessFrom(st, session, R, t2)
          else ExitFrom(t2, R)
      case _ => ExitFrom(t1, R)
  }

  /** The whole generator, started with nothing yielded. */
  function ProcessRun(st: Study, session: string, R: seq<Payload>): Run {
    ProcessFrom(st, session, R, [])
  }

  /** process: the generator's trace against the answers R. */
  method Process(st: Study, session: string, R: seq<Payload>) returns (run: Run)
    ensures run == ProcessRun(st, session, R)
  {
    var t: seq<Command> := [];
    while true
      invariant Answered(t, R)
      invariant ProcessFrom(st, session, R, t) == ProcessRun(st, session, R)
      decreases |R| - |t|
    {
      t := t + [Render(FilePrompt)];
      if !Answered(t, R) {
        return Run(t, false);
      }
      var fileResult := R[|t| - 1];
      if !fileResult.PayloadString? {
        break;
      }
      if st.valid(fileResult.value) {
        t := t + [Render(ReviewData(st.extract(fileResult.value)))];
        if !Answered(t, R) {
          return Run(t, false);
        }
        var result := R[|t| - 1];
        if result.PayloadJSON? {
          t := t + [Donate(session, Raw(result.value))];
        }
        if result.PayloadFalse? {
          t := t + [Donate(session, DeclinedValue)];
        }
        break;
      }
      t := t + [Render(RetryPrompt)];
      if !Answered(t, R) {
        return Run(t, false);
      }
      if !R[|t| - 1].PayloadTrue? {
        break;
      }
    }
    run := ExitFrom(t, R);
  }

  // ---------------------------------------------------------------------------
  // Properties of the flow
  // ---------------------------------------------------------------------------

  /** A non-file answer to the file prompt leaves the loop with no donation and exits. */
  lemma SkipExitsWithoutDonation(st: Study, session: string, R: seq<Payload>)
    requires |R| >= 2 && !R[0].PayloadString?
    ensures ProcessRun(st, session, R) == Run([Render(FilePrompt), Exit(0, "Success")], true)
  {
    assert [] + [Render(FilePrompt)] == [Render(FilePrompt)];
  }

  /** A valid file leads to one consent prompt for its tables, and the answer
      decides the one donation before the exit. */
  lemma ValidFileConsent(st: Study, session: string, R: seq<Payload>, file: string)
    requires |R| >= 3 && R[0] == PayloadString(file) && st.valid(file)
    ensures ProcessRun(st, session, R).finished
    ensures ProcessRun(st, session, R).trace ==
      [Render(FilePrompt), Render(ReviewData(st.extract(file)))] +
      (match R[1]
       case PayloadJSON(v) => [Donate(session, Raw(v))]
       case PayloadFalse => [Donate(session, DeclinedValue)]
       case _ => []) +
      [Exit(0, "Success")]
  {
    var t2 := [Render(FilePrompt), Render(ReviewData(st.extract(file)))];
    assert [] + [Render(FilePrompt)] + [Render(ReviewData(st.extract(file)))] == t2;
    assert |ConsentAnswer(session, t2, R[1])| <= 3;
  }

  /** An invalid file gets the retry prompt; PayloadTrue starts the loop over. */
  lemma InvalidFileRetries(st: Study, session: string, R: seq<Payload>, file: string)
    requires |R| >= 2 && R[0] == PayloadString(file) && !st.valid(file) && R[1] == PayloadTrue
    ensures ProcessRun(st, session, R) == ProcessFrom(st, session, R, [Render(FilePrompt), Render(RetryPrompt)])
  {
    assert [] + [Render(FilePrompt)] + [Render(RetryPrompt)] == [Render(FilePrompt), Render(RetryPrompt)];
  }

  /** An invalid file whose retry prompt gets any other answer leaves the loop and exits. */
  lemma InvalidFileDeclined(st: Study, session: string, R: seq<Payload>, file: string)
    requires |R| >= 3 && R[0] == PayloadString(file) && !st.valid(file) && !R[1].PayloadTrue?
    ensures ProcessRun(st, session, R) == Run([Render(FilePrompt), Render(RetryPrompt), Exit(0, "Success")], true)
  {
    assert [] + [Render(FilePrompt)] + [Render(RetryPrompt)] == [Render(FilePrompt), Render(RetryPrompt)];
  }

  /** The consent answer and the exit add at most one donation. */
  lemma ConsentDonatesOnce(session: string, R: seq<Payload>, t: seq<Command>, answer: Payload)
    ensures Donations(ExitFrom(ConsentAnswer(session, t, answer), R).trace) <= Donations(t) + 1
  {
    var t3 := ConsentAnswer(session, t, answer);
    assert t3 == t + t3[|t|..];
    DonationsAppend(t, t3[|t|..]);
    DonationsAppend(t3, [Exit(0, "Success")]);
  }

  /** The loop entered with t, after a valid file: the consent prompt, then
      the answer's donation and the exit. */
  lemma ProcessFromValid(st: Study, session: string, R: seq<Payload>, t: seq<Command>, file: string)
    requires Answered(t + [Render(FilePrompt)], R)
    requires R[|t|] == PayloadString(file) && st.valid(file)
    ensures var t2 := t + [Render(FilePrompt)] + [Render(ReviewData(st.extract(file)))];
      ProcessFrom(st, session, R, t) ==
        if Answered(t2, R) then ExitFrom(ConsentAnswer(session, t2, R[|t2| - 1]), R) else Run(t2, false)
  {
  }

  /** The loop entered with t, after an invalid file: the retry prompt, then
      the loop again or the exit. */
  lemma ProcessFromInvalid(st: Study, session: string, R: seq<Payload>, t: seq<Command>, file: string)
    requires Answered(t + [Render(FilePrompt)], R)
    requires R[|t|] == PayloadString(file) && !st.valid(file)
    ensures var t2 := t + [Render(FilePrompt)] + [Render(RetryPrompt)];
      ProcessFrom(st, session, R, t) ==
        if !Answered(t2, R) then Run(t2, false)
        else if R[|t2| - 1].PayloadTrue? then ProcessFrom(st, session, R, t2)
        else ExitFrom(t2, R)
  {
  }

  /** Two prompts add no donation. */
  lemma TwoRendersDonateNothing(t: seq<Command>, p: Page, q: Page)
    ensures Donations(t + [Render(p)] + [Render(q)]) == Donations(t)
  {
    DonationsAppend(t, [Render(p)]);
    DonationsAppend(t + [Render(p)], [Render(q)]);
  }

  /** A valid file adds the consent prompt, then at most one donation. */
  lemma ValidFileDonatesOnce(st: Study, session: string, R: seq<Payload>, t: seq<Command>, file: string)
    requires Answered(t + [Render(FilePrompt)], R)
    requires R[|t|] == PayloadString(file) && st.valid(file)
    ensures Donations(ProcessFrom(st, session, R, t).trace) <= Donations(t) + 1
  {
    var t2 := t + [Render(FilePrompt)] + [Render(ReviewData(st.extract(file)))];
    ProcessFromValid(st, session, R, t, file);
    TwoRendersDonateNothing(t, FilePrompt, ReviewData(st.extract(file)));
    if Answered(t2, R) {
      ConsentDonatesOnce(session, R, t2, R[|t2| - 1]);
    }
  }

  /** An invalid file adds the retry prompt, then the loop again or the exit. */
  lemma {:induction false} InvalidFileDonatesOnce(st: Study, session: string, R: seq<Payload>, t: seq<Command>, file: string)
    requires Answered(t + [Render(FilePrompt)], R)
    requires R[|t|] == PayloadString(file) && !st.valid(file)
    ensures Donations(ProcessFrom(st, session, R, t).trace) <= Donations(t) + 1
    decreases |R| - |t|, 0
  {
    var t2 := t + [Render(FilePrompt)] + [Render(RetryPrompt)];
    ProcessFromInvalid(st, session, R, t, file);
    TwoRendersDonateNothing(t, FilePrompt, RetryPrompt);
    if Answered(t2, R) {
      if R[|t2| - 1].PayloadTrue? {
        AtMostOneDonation(st, session, R, t2);
      } else {
        DonationsAppend(t2, [Exit(0, "Success")]);
      }
    }
  }

  /** The loop donates nothing before the consent answer, so a run donates at most once. */
  lemma {:induction false} AtMostOneDonation(st: Study, session: string, R: seq<Payload>, t: seq<Command>)
    requires Answered(t, R)
    ensures Donations(ProcessFrom(st, session, R, t).trace) <= Donations(t) + 1
    decreases |R| - |t|, 1
  {
    var t1 := t + [Render(FilePrompt)];
    DonationsAppend(t, [Render(FilePrompt)]);
    if !Answered(t1, R) {
      assert ProcessFrom(st, session, R, t) == Run(t1, false);
    } else if !R[|t|].PayloadString? {
      assert ProcessFrom(st, session, R, t) == ExitFrom(t1, R);
      DonationsAppend(t1, [Exit(0, "Success")]);
    } else if st.valid(R[|t|].value) {
      ValidFileDonatesOnce(st, session, R, t, R[|t|].value);
    } else {
      InvalidFileDonatesOnce(st, session, R, t, R[|t|].value);
    }
  }

  /** Every run that finishes ends with exit(0, "Success"). */
  lemma {:induction false} FinishedRunExits(st: Study, session: string, R: seq<Payload>, t: seq<Command>)
    requires Answered(t, R)
    ensures var r := ProcessFrom(st, session, R, t); r.finished ==> r.trace[|r.trace| - 1] == Exit(0, "Success")
    ensures var r := ProcessFrom(st, session, R, t); !r.finished ==> !Answered(r.trace, R)
    decreases |R| - |t|
  {
    var t1 := t + [Render(FilePrompt)];
    if Answered(t1, R) && R[|t1| - 1].PayloadString? && !st.valid(R[|t1| - 1].value) {
      var t2 := t1 + [Render(RetryPrompt)];
      if Answered(t2, R) && R[|t2| - 1].PayloadTrue? {
        FinishedRunExits(st, session, R, t2);
      }
    }
  }

  /** In the example study the consent form shows the zip_contents table of a file that opens as a zip. */
  lemma ZipShowsContents(open: string -> Zip, session: string, R: seq<Payload>, file: string)
    requires |R| >= 1 && R[0] == PayloadString(file) && open(file).Some?
    ensures |ProcessRun(ExampleStudy(open), session, R).trace| >= 2
    ensures ProcessRun(ExampleStudy(open), session, R).trace[1] == Render(ReviewData(ZipTables(open(file))))
    ensures |ZipTables(open(file))| == 1 && ZipTables(open(file))[0].id == "zip_contents"
  {
    var st := ExampleStudy(open);
    assert st.valid(file);
    assert ([] + [Render(FilePrompt)] + [Render(ReviewData(st.extract(file)))])[1] == Render(ReviewData(ZipTables(open(file))));
  }
}
