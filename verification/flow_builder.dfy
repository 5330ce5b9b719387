// The common donation flow every platform runs: ask for a file until a valid
// one arrives or the participant gives up, extract tables from it, ask for
// consent, donate at most once and exit.
module FlowBuilder {
  import opened Wrappers
  import opened Strings
  import opened Json
  import opened Tables
  import opened Commands

  /** What extract_data hands back: a table list (possibly None) directly, a
      generator that yields prompts and returns a table list computed from
      their answers, or an exception it raises. */
  datatype Extraction =
    | Direct(tables: Option<seq<ConsentTable>>)
    | Prompting(prompts: seq<Page>, finish: seq<Payload> -> Option<seq<ConsentTable>>)
    | Raising

  /** The hooks a platform supplies: the status id its validation reports for
      a file, and its extraction. */
  datatype Platform = Platform(validate: string -> int, extract: string -> Extraction)

  /** How the file loop ends: waiting for an answer, left with a table list,
      or ended by an exception of the extraction, which start_flow does not catch. */
  datatype LoopExit =
    | Suspended(trace: seq<Command>)
    | Left(trace: seq<Command>, tables: Option<seq<ConsentTable>>)
    | Raised(trace: seq<Command>)

  /** yield from the extraction generator: each prompt is forwarded, and its
      return value is computed from the answers. */
  function YieldFrom(prompts: seq<Page>, finish: seq<Payload> -> Option<seq<ConsentTable>>,
                     R: seq<Payload>, t: seq<Command>): (r: LoopExit)
    requires Answered(t, R)
    ensures r.Left? ==> Answered(r.trace, R) && r.trace == t + Renders(prompts)
    ensures r.Suspended? ==> !Answered(r.trace, R)
    ensures t <= r.trace && forall i :: |t| <= i < |r.trace| ==> r.trace[i].Render?
  {
    if |R| - |t| < |prompts| then Suspended(t + Renders(prompts[..|R| - |t| + 1]))
    else Left(t + Renders(prompts), finish(R[|t|..|t| + |prompts|]))
  }

  /** The while True loop of start_flow, entered with the commands t already
      yielded and answered and with the current table_list. */
  function FileLoop(p: Platform, R: seq<Payload>, t: seq<Command>, tables: Option<seq<ConsentTable>>): (r: LoopExit)
    requires Answered(t, R)
    ensures r.Left? ==> Answered(r.trace, R)
    ensures r.Suspended? ==> !Answered(r.trace, R)
    ensures r.Raised? ==> Answered(r.trace, R)
    ensures t < r.trace
    decreases |R| - |t|
  {
    var t1 := t + [Render(FilePrompt)];
    if !Answered(t1, R) then Suspended(t1)
    else match R[|t1| - 1]
      case PayloadString(file) =>
        if p.validate(file) == 0 then
          match p.extract(file)
          case Direct(ts) => Left(t1, ts)
          case Prompting(prompts, finish) => YieldFrom(prompts, finish, R, t1)
          case Raising => Raised(t1)
        else
          var t2 := t1 + [Render(RetryPrompt)];
          if !Answered(t2, R) then Suspended(t2)
          else if R[|t2| - 1].PayloadTrue? then FileLoop(p, R, t2, tables)
          else Left(t2, tables)
      case _ => Left(t1, tables)
  }

  /** The consent step after the loop, and the exit. */
  function ConsentAndExit(session: string, R: seq<Payload>, t: seq<Command>, tables: Option<seq<ConsentTable>>): (r: Run)
    requires Answered(t, R)
    ensures t < r.trace
  {
    if tables.None? then Run(t + [Exit(0, "Success")], true)
    else
      var t1 := t + [Render(ReviewData(tables.value))];
      if !Answered(t1, R) then Run(t1, false)
      else
        var t2 := match R[|t1| - 1]
          case PayloadJSON(v) => t1 + [Donate(session, Raw(v))]
          case PayloadFalse => t1 + [Donate(session, DeclinedValue)]
          case _ => t1;
        if !Answered(t2, R) then Run(t2, false) else Run(t2 + [Exit(0, "Success")], true)
  }

  /** start_flow run against the answers R, starting from the table list `tables`. */
  function StartFlowRun(p: Platform, session: int, R: seq<Payload>, tables: Option<seq<ConsentTable>>): (r: Run)
  {
    match FileLoop(p, R, [], tables)
    case Suspended(t) => Run(t, false)
    case Raised(t) => Run(t, false)
    case Left(t, ts) => ConsentAndExit(IntToString(session), R, t, ts)
  }

  class FlowBuilder {
    const sessionId: int
    const platformName: string
    var tableList: Option<seq<ConsentTable>>

    constructor(sessionId: int, platformName: string)
      ensures this.sessionId == sessionId && this.platformName == platformName
      ensures tableList == Some([])
    {
      this.sessionId := sessionId;
      this.platformName := platformName;
      tableList := Some([]);
    }

    /** Runs the flow against the host's answers R; table_list ends as the loop left it. */
    method StartFlow(p: Platform, R: seq<Payload>) returns (run: Run)
      modifies this
      ensures run == StartFlowRun(p, sessionId, R, old(tableList))
      ensures FileLoop(p, R, [], old(tableList)).Left? ==> tableList == FileLoop(p, R, [], old(tableList)).tables
    {
      ghost var spec := FileLoop(p, R, [], tableList);
      var t: seq<Command> := [];
      var leave := false;
      while !leave
        invariant Answered(t, R)
        invariant !leave ==> spec == FileLoop(p, R, t, tableList)
        invariant leave ==> spec == Left(t, tableList)
        decreases |R| - |t|, !leave
      {
        t := t + [Render(FilePrompt)];
        if !Answered(t, R) {
          return Run(t, false);
        }
        var fileResult := R[|t| - 1];
        if fileResult.PayloadString? {
          if p.validate(fileResult.value) == 0 {
            var extraction := p.extract(fileResult.value);
            if extraction.Raising? {
              return Run(t, false);
            }
            if extraction.Direct? {
              tableList := extraction.tables;
            } else {
              var suspended;
              t, tableList, suspended := ForwardPrompts(extraction.prompts, extraction.finish, R, t);
              if suspended {
                return Run(t, false);
              }
            }
            leave := true;
          } else {
            t := t + [Render(RetryPrompt)];
            if !Answered(t, R) {
              return Run(t, false);
            }
            if !R[|t| - 1].PayloadTrue? {
              leave := true;
            }
          }
        } else {
          leave := true;
        }
      }
      var session := IntToString(sessionId);
      if tableList.Some? {
        t := t + [Render(ReviewData(tableList.value))];
        if !Answered(t, R) {
          return Run(t, false);
        }
        var result := R[|t| - 1];
        if result.PayloadJSON? {
          t := t + [Donate(session, Raw(result.value))];
        }
        if result.PayloadFalse? {
          t := t + [Donate(session, DeclinedValue)];
        }
        if !Answered(t, R) {
          return Run(t, false);
        }
      }
      run := Run(t + [Exit(0, "Success")], true);
    }
  }

  /** The yield from: forwards each prompt and collects the answers. */
  method ForwardPrompts(prompts: seq<Page>, finish: seq<Payload> -> Option<seq<ConsentTable>>,
                        R: seq<Payload>, t0: seq<Command>)
    returns (t: seq<Command>, tables: Option<seq<ConsentTable>>, suspended: bool)
    requires Answered(t0, R)
    ensures suspended <==> YieldFrom(prompts, finish, R, t0).Suspended?
    ensures t == YieldFrom(prompts, finish, R, t0).trace
    ensures !suspended ==> tables == YieldFrom(prompts, finish, R, t0).tables
  {
    t := t0;
    var answers: seq<Payload> := [];
    var i := 0;
    while i < |prompts|
      invariant 0 <= i <= |prompts|
      invariant t == t0 + Renders(prompts[..i])
      invariant Answered(t, R)
      invariant answers == R[|t0|..|t0| + i]
    {
      t := t + [Render(prompts[i])];
      assert prompts[..i + 1] == prompts[..i] + [prompts[i]];
      if !Answered(t, R) {
        return t, None, true;
      }
      answers := answers + [R[|t| - 1]];
      i := i + 1;
    }
    assert prompts[..i] == prompts;
    return t, finish(answers), false;
  }

  // ---------------------------------------------------------------------------
  // Properties of the flow
  // ---------------------------------------------------------------------------

  /** The file loop yields only page renders. */
  lemma {:induction false} FileLoopRendersOnly(p: Platform, R: seq<Payload>, t: seq<Command>, tables: Option<seq<ConsentTable>>)
    requires Answered(t, R)
    ensures forall i :: |t| <= i < |FileLoop(p, R, t, tables).trace| ==> FileLoop(p, R, t, tables).trace[i].Render?
    decreases |R| - |t|
  {
    var t1 := t + [Render(FilePrompt)];
    if Answered(t1, R) && R[|t1| - 1].PayloadString? && p.validate(R[|t1| - 1].value) != 0 {
      var t2 := t1 + [Render(RetryPrompt)];
      if Answered(t2, R) && R[|t2| - 1].PayloadTrue? {
        FileLoopRendersOnly(p, R, t2, tables);
        var r := FileLoop(p, R, t2, tables);
        assert r == FileLoop(p, R, t, tables);
        forall i | |t| <= i < |t2| ensures r.trace[i].Render? {
          assert r.trace[i] == t2[i];
        }
      }
    }
  }

  /** Donations(t) of a trace that has only renders after position k. */
  lemma RendersAddNoDonation(a: seq<Command>, b: seq<Command>)
    requires forall i :: |a| <= i < |b| ==> b[i].Render?
    requires a <= b
    ensures Donations(b) == Donations(a)
  {
    assert b == a + b[|a|..];
    DonationsAppend(a, b[|a|..]);
  }

  /** At most one donation happens in a run of the flow. */
  lemma AtMostOneDonation(p: Platform, session: int, R: seq<Payload>, tables: Option<seq<ConsentTable>>)
    ensures Donations(StartFlowRun(p, session, R, tables).trace) <= 1
  {
    FileLoopRendersOnly(p, R, [], tables);
    var l := FileLoop(p, R, [], tables);
    assert forall i :: 0 <= i < |l.trace| ==> l.trace[i].Render?;
    RendersAddNoDonation([], l.trace);
    if l.Left? {
      ConsentDonatesOnce(IntToString(session), R, l.trace, l.tables);
    }
  }

  /** The consent step adds at most one donation to the commands before it. */
  lemma ConsentDonatesOnce(session: string, R: seq<Payload>, t: seq<Command>, tables: Option<seq<ConsentTable>>)
    requires Answered(t, R)
    ensures Donations(ConsentAndExit(session, R, t, tables).trace) <= Donations(t) + 1
  {
    if tables.None? {
      DonationsAppend(t, [Exit(0, "Success")]);
    } else {
      var t1 := t + [Render(ReviewData(tables.value))];
      DonationsAppend(t, [Render(ReviewData(tables.value))]);
      if Answered(t1, R) {
        var t2 := match R[|t1| - 1]
          case PayloadJSON(v) => t1 + [Donate(session, Raw(v))]
          case PayloadFalse => t1 + [Donate(session, DeclinedValue)]
          case _ => t1;
        DonationsAppend(t1, t2[|t1|..]);
        assert t2 == t1 + t2[|t1|..];
        DonationsAppend(t2, [Exit(0, "Success")]);
      }
    }
  }

  /** A finished run ends with exit(0, "Success"), and that is its only exit. */
  lemma FinishedRunExits(p: Platform, session: int, R: seq<Payload>, tables: Option<seq<ConsentTable>>)
    ensures StartFlowRun(p, session, R, tables).finished ==>
      var t := StartFlowRun(p, session, R, tables).trace;
      t[|t| - 1] == Exit(0, "Success") && forall i :: 0 <= i < |t| - 1 ==> !t[i].Exit?
  {
    FileLoopRendersOnly(p, R, [], tables);
    var l := FileLoop(p, R, [], tables);
    assert forall i :: 0 <= i < |l.trace| ==> !l.trace[i].Exit?;
  }

  /** Skipping the file prompt still shows the consent form, with no tables. */
  lemma SkipStillAsksConsent(p: Platform, session: int, R: seq<Payload>)
    requires |R| >= 1 && !R[0].PayloadString?
    ensures |StartFlowRun(p, session, R, Some([])).trace| >= 2
    ensures StartFlowRun(p, session, R, Some([])).trace[..2] == [Render(FilePrompt), Render(ReviewData([]))]
  {
  }

  /** Declining after a skip donates the JSON string literal and exits. */
  lemma SkipThenDecline(p: Platform, session: int)
    ensures StartFlowRun(p, session, [PayloadOther, PayloadFalse, PayloadOther], Some([])) ==
      Run([Render(FilePrompt), Render(ReviewData([])), Donate(IntToString(session), DeclinedValue), Exit(0, "Success")], true)
  {
  }

  /** An extraction returning None skips the consent form: the run exits right after the loop. */
  lemma NoneSkipsConsent(p: Platform, session: int, R: seq<Payload>, file: string)
    requires |R| >= 1 && R[0] == PayloadString(file)
    requires p.validate(file) == 0 && p.extract(file) == Direct(None)
    ensures StartFlowRun(p, session, R, Some([])) == Run([Render(FilePrompt), Exit(0, "Success")], true)
  {
  }

  /** An extraction that raises ends the flow after the file prompt: no
      consent form, no donation, no exit command. */
  lemma RaisingEndsFlow(p: Platform, session: int, R: seq<Payload>, file: string)
    requires |R| >= 1 && R[0] == PayloadString(file)
    requires p.validate(file) == 0 && p.extract(file).Raising?
    ensures StartFlowRun(p, session, R, Some([])) == Run([Render(FilePrompt)], false)
  {
  }

  /** A file that fails validation gets the retry prompt. */
  lemma InvalidFileAsksRetry(p: Platform, session: int, R: seq<Payload>, file: string)
    requires |R| >= 1 && R[0] == PayloadString(file) && p.validate(file) != 0
    ensures |StartFlowRun(p, session, R, Some([])).trace| >= 2
    ensures StartFlowRun(p, session, R, Some([])).trace[..2] == [Render(FilePrompt), Render(RetryPrompt)]
  {
    assert [] + [Render(FilePrompt)] + [Render(RetryPrompt)] == [Render(FilePrompt), Render(RetryPrompt)];
  }

  /** After a failed validation, PayloadTrue brings the file prompt back. */
  lemma RetryReturnsToFilePrompt(p: Platform, session: int, R: seq<Payload>, file: string)
    requires |R| >= 2 && R[0] == PayloadString(file) && p.validate(file) != 0 && R[1] == PayloadTrue
    ensures |StartFlowRun(p, session, R, Some([])).trace| >= 3
    ensures StartFlowRun(p, session, R, Some([])).trace[..3] == [Render(FilePrompt), Render(RetryPrompt), Render(FilePrompt)]
  {
    var t2 := [Render(FilePrompt), Render(RetryPrompt)];
    assert [] + [Render(FilePrompt)] + [Render(RetryPrompt)] == t2;
    assert FileLoop(p, R, [], Some([])) == FileLoop(p, R, t2, Some([]));
    assert FileLoop(p, R, t2, Some([])).trace[..3] == t2 + [Render(FilePrompt)];
  }

  /** A valid file whose extraction returns tables leads straight to consent for those tables. */
  lemma ValidFileShowsTables(p: Platform, session: int, R: seq<Payload>, file: string, ts: seq<ConsentTable>)
    requires |R| >= 1 && R[0] == PayloadString(file)
    requires p.validate(file) == 0 && p.extract(file) == Direct(Some(ts))
    ensures |StartFlowRun(p, session, R, Some([])).trace| >= 2
    ensures StartFlowRun(p, session, R, Some([])).trace[..2] == [Render(FilePrompt), Render(ReviewData(ts))]
  {
  }

  /** An extraction that asks one question yields it after the file prompt,
      and the review shows the tables computed from its answer. */
  lemma OnePromptShowsTables(p: Platform, session: int, R: seq<Payload>, file: string, page: Page, ts: seq<ConsentTable>)
    requires |R| >= 2 && R[0] == PayloadString(file) && p.validate(file) == 0
    requires p.extract(file).Prompting? && p.extract(file).prompts == [page]
    requires p.extract(file).finish([R[1]]) == Some(ts)
    ensures |StartFlowRun(p, session, R, Some([])).trace| >= 3
    ensures StartFlowRun(p, session, R, Some([])).trace[..3] ==
      [Render(FilePrompt), Render(page), Render(ReviewData(ts))]
  {
    var t1 := [Render(FilePrompt)];
    assert [] + [Render(FilePrompt)] == t1;
    assert R[|t1|..|t1| + 1] == [R[1]];
    assert FileLoop(p, R, [], Some([])) == YieldFrom([page], p.extract(file).finish, R, t1);
    assert Renders([page]) == [Render(page)];
  }
}
