// The study script's donation flow for ChatGPT: it donates its logs as it
// goes, asks for a file until a valid one arrives or the participant gives
// up, donates a status on every way out, asks for consent, and after a
// donation shows a questionnaire about one question and answer picked from
// the conversations.
module Script {
  import opened Wrappers
  import opened Strings
  import opened OrderedMaps
  import opened Json
  import opened ExtractionHelpers
  import opened Tables
  import opened Commands
  import opened ChatGpt
  import opened ChatGptSrc

  /** What the flow depends on besides the host's answers: the status id
      validate_zip gives a chosen file, extract_chatgpt and select_random_qa
      on it, and what donate_logs dumps when the command at each trace
      position is yielded. */
  datatype Study = Study(validate: string -> int, extract: string -> seq<ConsentTable>,
                         selectQa: string -> (string, string), logs: nat -> Json)

  /** The hooks of the ChatGPT study: the decoders c, the archive each chosen
      file opens as, the timestamp conversion, the order np.random.shuffle
      gives and the text of the log stream at each trace position. */
  function ChatGptStudy(c: Codecs, open: string -> Zip, convert: string -> string,
                        shuffle: seq<string> -> seq<string>, log: nat -> string): Study
  {
    Study((file: string) => SrcValidationStatus(open(file)),
          (file: string) => ExtractChatgpt(ConversationsFrame(JsonFromZip(c, open(file), "conversations.json"), convert)),
          (file: string) => SelectRandomQa(c, open(file), shuffle),
          (k: nat) => LogsJson(log(k)))
  }

  // ---------------------------------------------------------------------------
  // donate_logs and donate_status
  // ---------------------------------------------------------------------------

  /** The lines donate_logs sends: the log split on newlines, or ["no logs"]. */
  function LogLines(log: string): (lines: seq<string>)
    ensures log == "" ==> lines == ["no logs"]
    ensures log != "" ==> Join(lines, "\n") == log
    ensures log != "" ==> forall i :: 0 <= i < |lines| ==> '\n' !in lines[i]
  {
    if log == "" then ["no logs"]
    else
      JoinSplit(log, '\n');
      Split(log, '\n')
  }

  /** The JSON array of the log lines. */
  function LogsJson(log: string): (j: Json)
    ensures j.JArr? && |j.items| == |LogLines(log)|
    ensures forall i :: 0 <= i < |LogLines(log)| ==> j.items[i] == JStr(LogLines(log)[i])
  {
    JArr(JStrs(LogLines(log)))
  }

  /** donate_logs(key): json.dumps of the log lines under key. */
  function DonateLogs(key: string, log: string): (c: Command)
    ensures c.Donate? && c.key == key && c.donation == Dumped(LogsJson(log))
  {
    Donate(key, Dumped(LogsJson(log)))
  }

  /** The strings as JSON strings. */
  function JStrs(ss: seq<string>): (js: seq<Json>)
    ensures |js| == |ss| && forall i :: 0 <= i < |ss| ==> js[i] == JStr(ss[i])
  {
    if ss == [] then [] else [JStr(ss[0])] + JStrs(ss[1..])
  }

  /** donate_status(key, message): json.dumps({"status": message}) under key. */
  function DonateStatus(key: string, message: string): (c: Command)
    ensures c.Donate? && c.key == key && c.donation.Dumped? && c.donation.value.JObj?
    ensures Keys(c.donation.value.fields) == ["status"]
    ensures Field(c.donation.value, "status") == Ok(JStr(message))
  {
    Donate(key, Dumped(JObj([("status", JStr(message))])))
  }

  /** donate_logs(f"{session_id}-tracking") yielded at trace position k. */
  function Tracking(session: string, st: Study, k: nat): (c: Command)
    ensures c.Donate? && c.key == session + "-tracking" && c.donation == Dumped(st.logs(k))
  {
    Donate(session + "-tracking", Dumped(st.logs(k)))
  }

  /** In the ChatGPT study every log donation is donate_logs of the log
      stream's text at that point. */
  lemma TrackingDonatesLogs(c: Codecs, open: string -> Zip, convert: string -> string,
                            shuffle: seq<string> -> seq<string>, log: nat -> string, s: string, k: nat)
    ensures Tracking(s, ChatGptStudy(c, open, convert, shuffle, log), k) == DonateLogs(s + "-tracking", log(k))
  {
  }

  // ---------------------------------------------------------------------------
  // extract_chatgpt
  // ---------------------------------------------------------------------------

  /** extract_chatgpt: one table when the frame is not empty, none otherwise. */
  function ExtractChatgpt(frame: Frame): (ts: seq<ConsentTable>)
    ensures |ts| <= 1
    ensures ts == [] <==> frame.Empty()
    ensures ts != [] ==> ts[0].id == "chatgpt_conversations" && ts[0].frame == frame
  {
    if frame.Empty() then []
    else [ConsentTable("chatgpt_conversations", "Your conversations with ChatGPT", frame)]
  }

  /** The study script offers the same table as the packaged extraction. */
  lemma ExtractChatgptAgrees(frame: Frame)
    ensures ExtractChatgpt(frame) == Extraction(frame)
  {
  }

  // ---------------------------------------------------------------------------
  // process
  // ---------------------------------------------------------------------------

  /** How the while True loop ends: waiting for an answer, or left with the
      table list and the question and answer of its last iteration. */
  datatype LoopEnd =
    | Waiting(trace: seq<Command>)
    | Left(trace: seq<Command>, tables: Option<seq<ConsentTable>>, question: string, answer: string)

  /** What handling a chosen file leads to: back to the file prompt with the
      commands yielded so far, or out of the loop. */
  datatype Step = Again(trace: seq<Command>) | Stop(end: LoopEnd)

  /** A way out that skips consent: the logs, then the status donation. */
  function SkipFlow(st: Study, s: string, R: seq<Payload>, t: seq<Command>, key: string, message: string): (r: LoopEnd)
    requires Answered(t, R)
    ensures r.Left? ==> Answered(r.trace, R) && r.trace == t + [Tracking(s, st, |t|), DonateStatus(key, message)]
    ensures r.Left? ==> r.tables.None? && r.question == "" && r.answer == ""
    ensures r.Waiting? ==> |r.trace| == |R| + 1
    ensures t < r.trace
  {
    var (t1, ok1) := YieldAll(t, [Tracking(s, st, |t|), DonateStatus(key, message)], R);
    if !ok1 then Waiting(t1) else Left(t1, None, "", "")
  }

  /** The body of the loop once the file prompt was answered with a file. */
  function FileStep(st: Study, s: string, R: seq<Payload>, t: seq<Command>, file: string): (r: Step)
    requires Answered(t, R)
    ensures r.Again? ==> Answered(r.trace, R) && t < r.trace
    ensures r.Stop? ==> t < r.end.trace
    ensures r.Stop? && r.end.Left? ==> Answered(r.end.trace, R)
    ensures r.Stop? && r.end.Waiting? ==> |r.end.trace| == |R| + 1
  {
    if st.validate(file) == 0 then
      var (t1, ok1) := YieldAll(t, [Tracking(s, st, |t|)], R);
      if !ok1 then Stop(Waiting(t1))
      else
        var qa := st.selectQa(file);
        Stop(Left(t1, Some(st.extract(file)), qa.0, qa.1))
    else
      var (t1, ok1) := YieldAll(t, [Tracking(s, st, |t|), Render(RetryPrompt)], R);
      if !ok1 then Stop(Waiting(t1))
      else if R[|t1| - 1].PayloadTrue? then Again(t1)
      else Stop(SkipFlow(st, s, R, t1, s + "-SKIP-RETRY-FLOW", "SKIP_RETRY_FLOW"))
  }

  /** The loop of process, entered with the commands t already yielded and answered. */
  function FileLoop(st: Study, s: string, R: seq<Payload>, t: seq<Command>): (r: LoopEnd)
    requires Answered(t, R)
    ensures r.Left? ==> Answered(r.trace, R)
    ensures r.Waiting? ==> |r.trace| == |R| + 1
    ensures t < r.trace
    ensures |t| + 2 <= |R| ==> t + [Tracking(s, st, |t|), Render(FilePrompt)] < r.trace
    decreases |R| - |t|
  {
    var (t1, ok1) := YieldAll(t, [Tracking(s, st, |t|), Render(FilePrompt)], R);
    if !ok1 then Waiting(t1)
    else match R[|t1| - 1]
      case PayloadString(file) =>
        (match FileStep(st, s, R, t1, file)
         case Again(t2) => FileLoop(st, s, R, t2)
         case Stop(e) => e)
      case _ => SkipFlow(st, s, R, t1, s + "-SKIP-FILE-SELECTION", "SKIP_FILE_SELECTION")
  }

  /** The last two commands are exit(0, "Success") and the end page. */
  predicate EndsWithExit(t: seq<Command>) {
    |t| >= 2 && t[|t| - 2] == Exit(0, "Success") && t[|t| - 1] == Render(EndPage)
  }

  /** exit(0, "Success") and then the end page. */
  function ExitRun(t: seq<Command>, R: seq<Payload>): (r: Run)
    requires Answered(t, R)
    ensures r.finished ==> r.trace == t + [Exit(0, "Success"), Render(EndPage)]
    ensures !r.finished ==> r.trace == t + [Exit(0, "Success")] && |r.trace| == |R| + 1
    ensures r.finished ==> EndsWithExit(r.trace)
  {
    var (t1, ok) := YieldAll(t, [Exit(0, "Success")], R);
    if !ok then Run(t1, false) else Run(t1 + [Render(EndPage)], true)
  }

  /** The questionnaire after a donation, when both question and answer are set. */
  function QuestionnaireRun(st: Study, s: string, R: seq<Payload>, t: seq<Command>, q: string, a: string): (r: Run)
    requires Answered(t, R) && q != "" && a != ""
    ensures t < r.trace
    ensures !r.finished ==> |r.trace| == |R| + 1
    ensures r.finished ==> EndsWithExit(r.trace)
  {
    var (t1, ok1) := YieldAll(t, [Render(Questionnaire(q, a))], R);
    if !ok1 then Run(t1, false)
    else
      var c := match R[|t1| - 1]
        case PayloadJSON(v) => Donate(s + "-questionnaire-donation", Raw(v))
        case _ => Tracking(s, st, |t1|);
      var (t2, ok2) := YieldAll(t1, [c], R);
      if !ok2 then Run(t2, false) else ExitRun(t2, R)
  }

  /** The consent step after the loop, then the exit. */
  function ConsentRun(st: Study, s: string, R: seq<Payload>, t: seq<Command>,
                      tables: Option<seq<ConsentTable>>, q: string, a: string): (r: Run)
    requires Answered(t, R)
    ensures t < r.trace
    ensures !r.finished ==> |r.trace| == |R| + 1
    ensures r.finished ==> EndsWithExit(r.trace)
  {
    if tables.None? then ExitRun(t, R)
    else
      var (t1, ok1) := YieldAll(t, [Tracking(s, st, |t|), Render(ReviewData(tables.value))], R);
      if !ok1 then Run(t1, false)
      else match R[|t1| - 1]
        case PayloadJSON(v) =>
          var (t2, ok2) := YieldAll(t1, [Donate(s + "-ChatGPT", Raw(v)), Tracking(s, st, |t1| + 1),
                                         DonateStatus(s + "-DONATED", "DONATED")], R);
          if !ok2 then Run(t2, false)
          else if q != "" && a != "" then QuestionnaireRun(st, s, R, t2, q, a)
          else ExitRun(t2, R)
        case _ => ExitRun(t1, R)
  }

  /** process(session_id) run against the host's answers R. */
  function ProcessRun(st: Study, s: string, R: seq<Payload>): (r: Run)
    ensures r.trace != [] && r.trace[0] == Tracking(s, st, 0)
    ensures !r.finished ==> |r.trace| == |R| + 1
    ensures r.finished ==> EndsWithExit(r.trace)
  {
    var t0 := [Tracking(s, st, 0)];
    if !Answered(t0, R) then Run(t0, false)
    else match FileLoop(st, s, R, t0)
      case Waiting(t) => Run(t, false)
      case Left(t, tables, q, a) => ConsentRun(st, s, R, t, tables, q, a)
  }

  // ---------------------------------------------------------------------------
  // What a run does
  // ---------------------------------------------------------------------------

  /** One iteration of the loop when the file prompt is answered with a file. */
  lemma FileLoopUnfold(st: Study, s: string, R: seq<Payload>, t: seq<Command>, file: string)
    requires Answered(t, R) && |t| + 2 <= |R| && R[|t| + 1] == PayloadString(file)
    ensures var step := FileStep(st, s, R, t + [Tracking(s, st, |t|), Render(FilePrompt)], file);
      FileLoop(st, s, R, t) == if step.Again? then FileLoop(st, s, R, step.trace) else step.end
  {
  }

  /** The loop ends at the file prompt when it is not answered, or answered
      with something other than a file. */
  lemma FileLoopNoFile(st: Study, s: string, R: seq<Payload>, t: seq<Command>)
    requires Answered(t, R)
    ensures var y := YieldAll(t, [Tracking(s, st, |t|), Render(FilePrompt)], R);
      (!y.1 ==> FileLoop(st, s, R, t) == Waiting(y.0))
      && (y.1 && !R[|y.0| - 1].PayloadString? ==>
            FileLoop(st, s, R, t) == SkipFlow(st, s, R, y.0, s + "-SKIP-FILE-SELECTION", "SKIP_FILE_SELECTION"))
  {
  }

  /** A file prompt answered with something other than a file: the logs, the
      SKIP_FILE_SELECTION status, no consent prompt, and the exit. */
  lemma SkipAtFileSelection(st: Study, s: string, R: seq<Payload>)
    requires |R| >= 6 && !R[2].PayloadString?
    ensures ProcessRun(st, s, R) == Run([Tracking(s, st, 0), Tracking(s, st, 1), Render(FilePrompt), Tracking(s, st, 3),
                                         DonateStatus(s + "-SKIP-FILE-SELECTION", "SKIP_FILE_SELECTION"),
                                         Exit(0, "Success"), Render(EndPage)], true)
  {
    var t1 := [Tracking(s, st, 0), Tracking(s, st, 1), Render(FilePrompt)];
    assert [Tracking(s, st, 0)] + [Tracking(s, st, 1), Render(FilePrompt)] == t1;
    assert FileLoop(st, s, R, [Tracking(s, st, 0)]) == SkipFlow(st, s, R, t1, s + "-SKIP-FILE-SELECTION", "SKIP_FILE_SELECTION");
  }

  /** An invalid file whose retry prompt is declined: the SKIP_RETRY_FLOW
      status, no consent prompt, and the exit. */
  lemma RetryDeclined(st: Study, s: string, R: seq<Payload>, file: string)
    requires |R| >= 8 && R[2] == PayloadString(file) && st.validate(file) != 0 && !R[4].PayloadTrue?
    ensures ProcessRun(st, s, R) == Run([Tracking(s, st, 0), Tracking(s, st, 1), Render(FilePrompt), Tracking(s, st, 3),
                                         Render(RetryPrompt), Tracking(s, st, 5),
                                         DonateStatus(s + "-SKIP-RETRY-FLOW", "SKIP_RETRY_FLOW"),
                                         Exit(0, "Success"), Render(EndPage)], true)
  {
    var t1 := [Tracking(s, st, 0), Tracking(s, st, 1), Render(FilePrompt)];
    assert [Tracking(s, st, 0)] + [Tracking(s, st, 1), Render(FilePrompt)] == t1;
    var t2 := t1 + [Tracking(s, st, 3), Render(RetryPrompt)];
    assert FileStep(st, s, R, t1, file) == Stop(SkipFlow(st, s, R, t2, s + "-SKIP-RETRY-FLOW", "SKIP_RETRY_FLOW"));
  }

  /** An invalid file whose retry prompt is accepted leads back to the file prompt. */
  lemma RetryAccepted(st: Study, s: string, R: seq<Payload>, t: seq<Command>, file: string)
    requires Answered(t, R) && |R| >= |t| + 4
    requires st.validate(file) != 0 && R[|t| + 1].PayloadTrue?
    ensures FileStep(st, s, R, t, file) == Again(t + [Tracking(s, st, |t|), Render(RetryPrompt)])
    ensures FileLoop(st, s, R, t + [Tracking(s, st, |t|), Render(RetryPrompt)]).trace[..|t| + 4] ==
      t + [Tracking(s, st, |t|), Render(RetryPrompt), Tracking(s, st, |t| + 2), Render(FilePrompt)]
  {
    var t2 := t + [Tracking(s, st, |t|), Render(RetryPrompt)];
    var again := t2 + [Tracking(s, st, |t2|), Render(FilePrompt)];
    var l := FileLoop(st, s, R, t2);
    assert again <= l.trace;
    assert l.trace[..|t| + 4] == again;
  }

  /** A valid file leaves the loop after one more log donation, with the
      extracted tables and the selected question and answer. */
  lemma ValidFileLeavesLoop(st: Study, s: string, R: seq<Payload>, t: seq<Command>, file: string)
    requires Answered(t, R) && |R| >= |t| + 1 && st.validate(file) == 0
    ensures FileStep(st, s, R, t, file) ==
      Stop(Left(t + [Tracking(s, st, |t|)], Some(st.extract(file)), st.selectQa(file).0, st.selectQa(file).1))
  {
  }

  /** Consent given with data: the consent prompt after the logs, then the
      data under "{session}-ChatGPT", then the logs, then DONATED. */
  lemma ConsentDonationOrder(st: Study, s: string, R: seq<Payload>, t: seq<Command>,
                             tables: seq<ConsentTable>, q: string, a: string, v: string)
    requires Answered(t, R) && |R| >= |t| + 5 && R[|t| + 1] == PayloadJSON(v)
    ensures var trace := ConsentRun(st, s, R, t, Some(tables), q, a).trace;
      |trace| >= |t| + 5
      && trace[..|t| + 5] == t + [Tracking(s, st, |t|), Render(ReviewData(tables)),
           Donate(s + "-ChatGPT", Raw(v)), Tracking(s, st, |t| + 3), DonateStatus(s + "-DONATED", "DONATED")]
  {
    var t1 := t + [Tracking(s, st, |t|), Render(ReviewData(tables))];
    var t2 := t1 + [Donate(s + "-ChatGPT", Raw(v)), Tracking(s, st, |t1| + 1), DonateStatus(s + "-DONATED", "DONATED")];
    var r := ConsentRun(st, s, R, t, Some(tables), q, a);
    assert t2 < r.trace;
    assert r.trace[..|t| + 5] == t2;
  }

  /** After the donation the questionnaire comes exactly when both the
      question and the answer are non-empty; its answer is donated only when
      it carries data, and the logs are donated otherwise. */
  lemma QuestionnaireAfterDonation(st: Study, s: string, R: seq<Payload>, t: seq<Command>,
                                   tables: seq<ConsentTable>, q: string, a: string, v: string)
    requires Answered(t, R) && |R| >= |t| + 7 && R[|t| + 1] == PayloadJSON(v)
    ensures var trace := ConsentRun(st, s, R, t, Some(tables), q, a).trace;
      |trace| >= |t| + 7
      && (q != "" && a != "" ==>
            (trace[|t| + 5] == Render(Questionnaire(q, a))
             && trace[|t| + 6] == if R[|t| + 5].PayloadJSON? then Donate(s + "-questionnaire-donation", Raw(R[|t| + 5].value))
                                  else Tracking(s, st, |t| + 6)))
      && (q == "" || a == "" ==> trace[|t| + 5] == Exit(0, "Success") && trace[|t| + 6] == Render(EndPage))
  {
    var t1 := t + [Tracking(s, st, |t|), Render(ReviewData(tables))];
    var t2 := t1 + [Donate(s + "-ChatGPT", Raw(v)), Tracking(s, st, |t1| + 1), DonateStatus(s + "-DONATED", "DONATED")];
    ConsentRunDonated(st, s, R, t, tables, q, a, v);
    if q != "" && a != "" {
      QuestionnaireRunAnswered(st, s, R, t2, q, a);
    }
  }

  /** A donation answered with v is followed by the questionnaire when both
      question and answer are set, and by the exit otherwise. */
  lemma ConsentRunDonated(st: Study, s: string, R: seq<Payload>, t: seq<Command>,
                          tables: seq<ConsentTable>, q: string, a: string, v: string)
    requires Answered(t, R) && |R| >= |t| + 5 && R[|t| + 1] == PayloadJSON(v)
    ensures var t1 := t + [Tracking(s, st, |t|), Render(ReviewData(tables))];
      var t2 := t1 + [Donate(s + "-ChatGPT", Raw(v)), Tracking(s, st, |t1| + 1), DonateStatus(s + "-DONATED", "DONATED")];
      ConsentRun(st, s, R, t, Some(tables), q, a) ==
        if q != "" && a != "" then QuestionnaireRun(st, s, R, t2, q, a) else ExitRun(t2, R)
  {
    var t1 := t + [Tracking(s, st, |t|), Render(ReviewData(tables))];
    assert YieldAll(t, [Tracking(s, st, |t|), Render(ReviewData(tables))], R) == (t1, true);
    assert R[|t1| - 1] == PayloadJSON(v);
  }

  /** An answered questionnaire is followed by its donation or a log, then
      the exit. */
  lemma QuestionnaireRunAnswered(st: Study, s: string, R: seq<Payload>, t: seq<Command>, q: string, a: string)
    requires Answered(t, R) && |R| >= |t| + 2 && q != "" && a != ""
    ensures var t3 := t + [Render(Questionnaire(q, a))];
      var c := if R[|t3| - 1].PayloadJSON? then Donate(s + "-questionnaire-donation", Raw(R[|t3| - 1].value)) else Tracking(s, st, |t3|);
      QuestionnaireRun(st, s, R, t, q, a) == ExitRun(t3 + [c], R)
  {
    var t3 := t + [Render(Questionnaire(q, a))];
    assert YieldAll(t, [Render(Questionnaire(q, a))], R) == (t3, true);
  }

  /** After the first log donation, a process run is the loop and then the
      consent step with what the loop left with. */
  lemma ProcessEntersLoop(st: Study, s: string, R: seq<Payload>)
    requires |R| >= 1
    ensures var e := FileLoop(st, s, R, [Tracking(s, st, 0)]);
      ProcessRun(st, s, R) == if e.Waiting? then Run(e.trace, false) else ConsentRun(st, s, R, e.trace, e.tables, e.question, e.answer)
  {
  }

  /** A valid first file leaves the loop at position 4 with its tables and
      its question and answer. */
  lemma ValidFirstFile(st: Study, s: string, R: seq<Payload>, file: string)
    requires |R| >= 4 && R[2] == PayloadString(file) && st.validate(file) == 0
    ensures FileLoop(st, s, R, [Tracking(s, st, 0)]) ==
      Left([Tracking(s, st, 0), Tracking(s, st, 1), Render(FilePrompt), Tracking(s, st, 3)],
           Some(st.extract(file)), st.selectQa(file).0, st.selectQa(file).1)
  {
    var t0 := [Tracking(s, st, 0)];
    var t1 := [Tracking(s, st, 0), Tracking(s, st, 1), Render(FilePrompt)];
    assert t0 + [Tracking(s, st, |t0|), Render(FilePrompt)] == t1;
    FileLoopUnfold(st, s, R, t0, file);
    ValidFileLeavesLoop(st, s, R, t1, file);
  }

  /** A valid first file and consent with data: the consent prompt at
      position 5 and the donations in that order. */
  lemma DonationOrder(st: Study, s: string, R: seq<Payload>, file: string, v: string)
    requires |R| >= 9 && R[2] == PayloadString(file) && st.validate(file) == 0 && R[5] == PayloadJSON(v)
    ensures var trace := ProcessRun(st, s, R).trace;
      |trace| >= 9
      && trace[..9] == [Tracking(s, st, 0), Tracking(s, st, 1), Render(FilePrompt), Tracking(s, st, 3), Tracking(s, st, 4),
                        Render(ReviewData(st.extract(file))),
                        Donate(s + "-ChatGPT", Raw(v)), Tracking(s, st, 7), DonateStatus(s + "-DONATED", "DONATED")]
  {
    var t := [Tracking(s, st, 0), Tracking(s, st, 1), Render(FilePrompt), Tracking(s, st, 3)];
    var qa := st.selectQa(file);
    ProcessEntersLoop(st, s, R);
    ValidFirstFile(st, s, R, file);
    assert ProcessRun(st, s, R) == ConsentRun(st, s, R, t, Some(st.extract(file)), qa.0, qa.1);
    ConsentDonationOrder(st, s, R, t, st.extract(file), qa.0, qa.1, v);
    DonationTraceLiteral(st, s, st.extract(file), v);
  }

  lemma DonationTraceLiteral(st: Study, s: string, tables: seq<ConsentTable>, v: string)
    ensures [Tracking(s, st, 0), Tracking(s, st, 1), Render(FilePrompt), Tracking(s, st, 3)] +
      [Tracking(s, st, 4), Render(ReviewData(tables)),
       Donate(s + "-ChatGPT", Raw(v)), Tracking(s, st, 7), DonateStatus(s + "-DONATED", "DONATED")] ==
      [Tracking(s, st, 0), Tracking(s, st, 1), Render(FilePrompt), Tracking(s, st, 3), Tracking(s, st, 4),
       Render(ReviewData(tables)),
       Donate(s + "-ChatGPT", Raw(v)), Tracking(s, st, 7), DonateStatus(s + "-DONATED", "DONATED")]
  {
  }

  // ---------------------------------------------------------------------------
  // The generator as a method
  // ---------------------------------------------------------------------------

  /** The body of the loop for a chosen file of the ChatGPT study:
      validate_zip, then the extraction and the question and answer, or the
      retry prompt. */
  method HandleFile(c: Codecs, open: string -> Zip, convert: string -> string, shuffle: seq<string> -> seq<string>,
                    log: nat -> string, s: string, R: seq<Payload>, t: seq<Command>, file: string) returns (r: Step)
    requires Answered(t, R)
    ensures r == FileStep(ChatGptStudy(c, open, convert, shuffle, log), s, R, t, file)
  {
    var st := ChatGptStudy(c, open, convert, shuffle, log);
    var validation := ValidateZip(open(file));
    if validation.GetStatusCodeId() == 0 {
      var y := YieldAll(t, [Tracking(s, st, |t|)], R);
      if !y.1 { return Stop(Waiting(y.0)); }
      var frame := ChatGptSrc.ConversationsToDf(c, open(file), convert);
      var question, answer := SelectRandomQaMethod(c, open(file), shuffle);
      return Stop(Left(y.0, Some(ExtractChatgpt(frame)), question, answer));
    }
    var y := YieldAll(t, [Tracking(s, st, |t|), Render(RetryPrompt)], R);
    if !y.1 { return Stop(Waiting(y.0)); }
    if R[|y.0| - 1].PayloadTrue? { return Again(y.0); }
    return Stop(SkipFlow(st, s, R, y.0, s + "-SKIP-RETRY-FLOW", "SKIP_RETRY_FLOW"));
  }

  method RunFileLoop(st: Study, s: string, R: seq<Payload>, t0: seq<Command>) returns (e: LoopEnd)
    requires Answered(t0, R)
    ensures e == FileLoop(st, s, R, t0)
  {
    var t := t0;
    while true
      invariant Answered(t, R)
      invariant FileLoop(st, s, R, t0) == FileLoop(st, s, R, t)
      decreases |R| - |t|
    {
      var y := YieldAll(t, [Tracking(s, st, |t|), Render(FilePrompt)], R);
      FileLoopNoFile(st, s, R, t);
      if !y.1 { return Waiting(y.0); }
      var fileResult := R[|y.0| - 1];
      if !fileResult.PayloadString? {
        return SkipFlow(st, s, R, y.0, s + "-SKIP-FILE-SELECTION", "SKIP_FILE_SELECTION");
      }
      FileLoopUnfold(st, s, R, t, fileResult.value);
      var step := FileStep(st, s, R, y.0, fileResult.value);
      if step.Stop? { return step.end; }
      t := step.trace;
    }
  }

  /** process(session_id): the commands yielded against the host's answers R. */
  method Process(st: Study, s: string, R: seq<Payload>) returns (run: Run)
    ensures run == ProcessRun(st, s, R)
  {
    var t0 := [Tracking(s, st, 0)];
    if |t0| > |R| { return Run(t0, false); }
    var e := RunFileLoop(st, s, R, t0);
    if e.Waiting? { return Run(e.trace, false); }
    run := ConsentRun(st, s, R, e.trace, e.tables, e.question, e.answer);
  }
}
