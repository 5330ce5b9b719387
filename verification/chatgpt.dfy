// The ChatGPT platform: one table of conversation turns read from
// conversations.json, validated against a one-category catalog, run through
// the common donation flow.
module ChatGpt {
  import opened Wrappers
  import opened Sequences
  import opened Strings
  import opened OrderedMaps
  import opened Json
  import opened ExtractionHelpers
  import opened Validate
  import opened Tables
  import opened Commands
  import opened FlowBuilder

  /** The only category: a JSON export in English with five fingerprint files. */
  const ChatGptCategories := [
    DdpCategory("json", JSON, EN, ["chat.html", "conversations.json", "message_feedback.json", "model_comparisons.json", "user.json"])
  ]

  const ConversationColumns := ["conversation title", "role", "message", "model", "time"]

  // ---------------------------------------------------------------------------
  // One turn
  // ---------------------------------------------------------------------------

  /** The turn is hidden when its is_visually_hidden_from_conversation value prints as True. */
  predicate Hidden(d: Flat) {
    FindItemValue(d, LiteralPattern("is_visually_hidden_from_conversation")) == "True"
  }

  function Role(d: Flat): string {
    FindItemValue(d, LiteralPattern("role"))
  }

  /** "".join(find_items(d, "part")): every value under a key containing "part", in order. */
  function Message(d: Flat): string {
    Join(FindItemsValue(d, LiteralPattern("part")), "")
  }

  /** The datapoint of a denested turn of a conversation titled title: None
      when the turn is hidden or its role is empty; timeOf converts the
      create_time text. */
  function RowOfFlat(title: Json, d: Flat, timeOf: string -> string): (r: Option<seq<Json>>)
    ensures r.None? <==> Hidden(d) || Role(d) == ""
    ensures r.Some? ==> |r.value| == |ConversationColumns| && r.value[0] == title
    ensures r.Some? ==> r.value[1] == JStr(Role(d)) && r.value[2] == JStr(Message(d))
  {
    if Hidden(d) || Role(d) == "" then None
    else
      var model := FindItemValue(d, LiteralPattern("-model_slug"));
      var time := timeOf(FindItemValue(d, LiteralPattern("create_time")));
      Some([title, JStr(Role(d)), JStr(Message(d)), JStr(model), JStr(time)])
  }

  /** The row a turn contributes, read from its denested form. */
  function TurnRow(title: Json, turn: Json, timeOf: string -> string): (r: Option<seq<Json>>)
    ensures r == RowOfFlat(title, Denested(turn), timeOf)
  {
    RowOfFlat(title, Denested(turn), timeOf)
  }

  /** A row of the conversations table: five cells and a non-empty role. */
  predicate WellFormedRow(row: seq<Json>) {
    |row| == |ConversationColumns| && row[1].JStr? && row[1].s != ""
  }

  /** The rows of the turns of one conversation, in mapping order. */
  function TurnRows(title: Json, turns: seq<Json>, timeOf: string -> string): (rows: seq<seq<Json>>)
    ensures |rows| <= |turns|
    ensures forall row :: row in rows ==> WellFormedRow(row) && row[0] == title
  {
    RowsFromTurns(title, turns, timeOf);
    FilterMap(turns, TurnRule(title, timeOf))
  }

  lemma {:induction false} RowsFromTurns(title: Json, turns: seq<Json>, timeOf: string -> string)
    ensures |FilterMap(turns, TurnRule(title, timeOf))| <= |turns|
    ensures forall row :: row in FilterMap(turns, TurnRule(title, timeOf)) ==> WellFormedRow(row) && row[0] == title
  {
    FilterMapFrom(turns, TurnRule(title, timeOf));
  }

  /** TurnRow as the element rule of the inner loop. */
  function TurnRule(title: Json, timeOf: string -> string): Json -> Option<seq<Json>> {
    (turn: Json) => TurnRow(title, turn, timeOf)
  }

  /** TurnRows as the per-conversation rule of the outer loop. */
  function ConversationRule(timeOf: string -> string): (Json, seq<Json>) -> seq<seq<Json>> {
    (title: Json, turns: seq<Json>) => TurnRows(title, turns, timeOf)
  }

  // ---------------------------------------------------------------------------
  // All conversations
  // ---------------------------------------------------------------------------

  /** conversation["title"] and the values of conversation["mapping"].items();
      failing when either is missing or the mapping is not a dict. */
  function ConversationTurns(conv: Json): (r: Result<(Json, seq<Json>)>)
    ensures r.Ok? <==> HasField(conv, "title") && HasField(conv, "mapping") && Field(conv, "mapping").value.JObj?
    ensures r.Ok? ==> r.value.0 == Field(conv, "title").value && r.value.1 == Values(Field(conv, "mapping").value.fields)
  {
    match Field(conv, "title")
    case Failure => Failure
    case Ok(title) =>
      match Field(conv, "mapping")
      case Ok(JObj(fs)) => Ok((title, Values(fs)))
      case _ => Failure
  }

  /** The nested loop over conversations and their turns: the datapoints
      rowsOf(title, turns) yields for each conversation, in order, or Failure
      when a conversation raises. */
  function Collected<R>(convs: seq<Json>, rowsOf: (Json, seq<Json>) -> seq<R>): (r: Result<seq<R>>)
  {
    if convs == [] then Ok([])
    else
      match Collected(convs[..|convs| - 1], rowsOf)
      case Failure => Failure
      case Ok(prev) =>
        match ConversationTurns(convs[|convs| - 1])
        case Failure => Failure
        case Ok(tm) => Ok(prev + rowsOf(tm.0, tm.1))
  }

  /** One conversation that raises discards the datapoints of all the others. */
  lemma {:induction false} OneFailureDiscardsAll<R>(convs: seq<Json>, i: nat, rowsOf: (Json, seq<Json>) -> seq<R>)
    requires i < |convs| && ConversationTurns(convs[i]).Failure?
    ensures Collected(convs, rowsOf).Failure?
    decreases |convs|
  {
    if i < |convs| - 1 {
      assert convs[..|convs| - 1][i] == convs[i];
      OneFailureDiscardsAll(convs[..|convs| - 1], i, rowsOf);
    }
  }

  /** One more conversation that does not raise appends its datapoints. */
  lemma CollectedStep<R>(convs: seq<Json>, i: nat, rowsOf: (Json, seq<Json>) -> seq<R>)
    requires i < |convs| && Collected(convs[..i], rowsOf).Ok? && ConversationTurns(convs[i]).Ok?
    ensures Collected(convs[..i + 1], rowsOf) ==
      Ok(Collected(convs[..i], rowsOf).value + rowsOf(ConversationTurns(convs[i]).value.0, ConversationTurns(convs[i]).value.1))
  {
    assert convs[..i + 1][..i] == convs[..i];
  }

  /** Every datapoint comes from some conversation's rowsOf. */
  lemma {:induction false} CollectedFrom<R>(convs: seq<Json>, rowsOf: (Json, seq<Json>) -> seq<R>, P: R -> bool)
    requires forall title, turns, x :: x in rowsOf(title, turns) ==> P(x)
    ensures Collected(convs, rowsOf).Ok? ==> forall x :: x in Collected(convs, rowsOf).value ==> P(x)
  {
    if convs != [] {
      CollectedFrom(convs[..|convs| - 1], rowsOf, P);
    }
  }

  /** Two row rules that keep as many rows per conversation keep as many rows overall. */
  lemma {:induction false} CollectedSameLength<R, S>(convs: seq<Json>, f: (Json, seq<Json>) -> seq<R>, g: (Json, seq<Json>) -> seq<S>)
    requires forall title, turns :: |f(title, turns)| == |g(title, turns)|
    ensures Collected(convs, f).Ok? <==> Collected(convs, g).Ok?
    ensures Collected(convs, f).Ok? ==> |Collected(convs, f).value| == |Collected(convs, g).value|
  {
    if convs != [] {
      CollectedSameLength(convs[..|convs| - 1], f, g);
    }
  }

  /** The rows of the conversations table, before the frame is built. */
  function ConversationRows(convs: seq<Json>, timeOf: string -> string): (r: Result<seq<seq<Json>>>)
    ensures r.Ok? ==> forall row :: row in r.value ==> WellFormedRow(row)
  {
    CollectedFrom(convs, ConversationRule(timeOf), WellFormedRow);
    Collected(convs, ConversationRule(timeOf))
  }

  /** The frame conversations_to_df builds from the decoded conversations:
      empty (no columns) when iteration raises or nothing was collected. */
  function ConversationsFrame(conversations: Json, timeOf: string -> string): (f: Frame)
    ensures f.Rectangular()
    ensures f.rows != [] ==> f.columns == ConversationColumns
    ensures f.Empty() <==> f.rows == []
    ensures forall i :: 0 <= i < |f.rows| ==> WellFormedRow(f.rows[i])
  {
    match Iterate(conversations)
    case Failure => Frame([], [])
    case Ok(convs) =>
      var rows := ConversationRows(convs, timeOf);
      assert rows.Ok? ==> forall i :: 0 <= i < |rows.value| ==> rows.value[i] in rows.value;
      match rows
      case Failure => Frame([], [])
      case Ok(rows) => if rows == [] then Frame([], []) else Frame(ConversationColumns, rows)
  }

  /** A conversation without a title or a mapping empties the whole table. */
  lemma MissingFieldEmptiesTable(conversations: Json, i: nat, timeOf: string -> string)
    requires Iterate(conversations).Ok? && i < |Iterate(conversations).value|
    requires !HasField(Iterate(conversations).value[i], "title") || !HasField(Iterate(conversations).value[i], "mapping")
    ensures ConversationsFrame(conversations, timeOf) == Frame([], [])
  {
    OneFailureDiscardsAll(Iterate(conversations).value, i, ConversationRule(timeOf));
  }

  /** The rows of a conversation follow its turns: those of a + b are those of a, then of b. */
  lemma TurnRowsAppend(title: Json, a: seq<Json>, b: seq<Json>, timeOf: string -> string)
    ensures TurnRows(title, a + b, timeOf) == TurnRows(title, a, timeOf) + TurnRows(title, b, timeOf)
  {
    FilterMapAppend(a, b, TurnRule(title, timeOf));
  }

  /** The converter the packaged module uses: epoch_to_iso of the create_time text. */
  function PackagedTime(c: Codecs): string -> string {
    (s: string) => EpochToIso(c, JStr(s))
  }

  // ---------------------------------------------------------------------------
  // The loops
  // ---------------------------------------------------------------------------

  /** The body of the inner loop on a denested turn. */
  method RowOfDenested(title: Json, d: Flat, timeOf: string -> string) returns (row: Option<seq<Json>>)
    ensures row == RowOfFlat(title, d, timeOf)
  {
    var isHidden := FindItem(d, LiteralPattern("is_visually_hidden_from_conversation"));
    row := None;
    if isHidden != "True" {
      var role := FindItem(d, LiteralPattern("role"));
      var parts := FindItems(d, LiteralPattern("part"));
      var message := Join(parts, "");
      var model := FindItem(d, LiteralPattern("-model_slug"));
      var created := FindItem(d, LiteralPattern("create_time"));
      var time := timeOf(created);
      if role != "" {
        row := Some([title, JStr(role), JStr(message), JStr(model), JStr(time)]);
      }
    }
  }

  /** The inner loop: the rows of one conversation's turns appended to datapoints. */
  method CollectTurns(title: Json, turns: seq<Json>, timeOf: string -> string, datapoints: seq<seq<Json>>)
    returns (out: seq<seq<Json>>)
    ensures out == datapoints + TurnRows(title, turns, timeOf)
  {
    out := datapoints;
    for j := 0 to |turns|
      invariant out == datapoints + TurnRows(title, turns[..j], timeOf)
    {
      var d := DictDenester(turns[j]);
      var row := RowOfDenested(title, d, timeOf);
      TurnStep(title, turns, j, timeOf, datapoints, out, row);
      if row.Some? {
        out := out + [row.value];
      }
    }
    assert turns[..|turns|] == turns;
  }

  lemma TurnStep(title: Json, turns: seq<Json>, j: nat, timeOf: string -> string,
                 datapoints: seq<seq<Json>>, out: seq<seq<Json>>, row: Option<seq<Json>>)
    requires j < |turns| && out == datapoints + TurnRows(title, turns[..j], timeOf)
    requires row == TurnRow(title, turns[j], timeOf)
    ensures (if row.Some? then out + [row.value] else out) == datapoints + TurnRows(title, turns[..j + 1], timeOf)
  {
    FilterMapLoopStep(turns, j, TurnRule(title, timeOf), datapoints, out, row);
  }

  /** The outer loop over the conversations; Failure is the exception that ends the try block. */
  method CollectRows(convs: seq<Json>, timeOf: string -> string) returns (r: Result<seq<seq<Json>>>)
    ensures r == ConversationRows(convs, timeOf)
  {
    var rowsOf := ConversationRule(timeOf);
    var datapoints: seq<seq<Json>> := [];
    for i := 0 to |convs|
      invariant Collected(convs[..i], rowsOf) == Ok(datapoints)
    {
      var tm := ConversationTurns(convs[i]);
      if tm.Failure? {
        OneFailureDiscardsAll(convs, i, rowsOf);
        return Failure;
      }
      CollectedStep(convs, i, rowsOf);
      datapoints := CollectTurns(tm.value.0, tm.value.1, timeOf, datapoints);
    }
    assert convs[..|convs|] == convs;
    return Ok(datapoints);
  }

  /** The try block of conversations_to_df over decoded conversations. */
  method CollectConversations(conversations: Json, timeOf: string -> string) returns (out: Frame)
    ensures out == ConversationsFrame(conversations, timeOf)
  {
    out := Frame([], []);
    var convs := Iterate(conversations);
    if convs.Failure? { return; }
    var rows := CollectRows(convs.value, timeOf);
    if rows.Ok? && rows.value != [] {
      out := Frame(ConversationColumns, rows.value);
    }
  }

  /** conversations_to_df: conversations.json from the archive, decoded and tabulated. */
  method ConversationsToDf(c: Codecs, zip: Zip) returns (out: Frame)
    ensures out == ConversationsFrame(JsonFromZip(c, zip, "conversations.json"), PackagedTime(c))
  {
    var b := ExtractFileFromZip(zip, "conversations.json");
    var conversations := ReadJson(b, c.readJson);
    out := CollectConversations(conversations, PackagedTime(c));
  }

  // ---------------------------------------------------------------------------
  // Extraction and the flow
  // ---------------------------------------------------------------------------

  /** The one table, kept only when its frame is non-empty. */
  function Extraction(frame: Frame): (ts: seq<ConsentTable>)
    ensures ts == [] <==> frame.Empty()
    ensures ts != [] ==> ts == [ConsentTable("chatgpt_conversations", "Your conversations with ChatGPT", frame)]
  {
    NonEmptyTables([ConsentTable("chatgpt_conversations", "Your conversations with ChatGPT", frame)])
  }

  lemma ChatGptCatalog()
    ensures CategoryLookup(ChatGptCategories) == [("json", ChatGptCategories[0])]
    ensures ScorableCatalog(CategoryLookup(ChatGptCategories))
  {
    assert ChatGptCategories[..0] == [];
  }

  /** With one category of five known files, the 5% threshold is one hit. */
  lemma ChatGptInferredIff(names: seq<string>)
    ensures ScorableCatalog(CategoryLookup(ChatGptCategories))
    ensures Inferred(CategoryLookup(ChatGptCategories), names).Some? <==>
      exists k :: 0 <= k < |names| && names[k] in ChatGptCategories[0].knownFiles
  {
    ChatGptCatalog();
    InferredSpec(CategoryLookup(ChatGptCategories), names);
    ThresholdInIntegers(ChatGptCategories[0], names);
  }

  /** An archive is recognised exactly when one of its members' base names is a known file. */
  lemma ChatGptValidIffKnownFile(members: seq<Member>)
    ensures ScorableCatalog(CategoryLookup(ChatGptCategories))
    ensures ZipValidationStatus(ChatGptCategories, Some(members)) == 0 <==>
      exists i :: 0 <= i < |members| && BaseName(members[i].name) in ChatGptCategories[0].knownFiles
  {
    var names := BaseNames(members);
    ChatGptInferredIff(names);
    if exists i :: 0 <= i < |members| && BaseName(members[i].name) in ChatGptCategories[0].knownFiles {
      var i :| 0 <= i < |members| && BaseName(members[i].name) in ChatGptCategories[0].knownFiles;
      assert names[i] in ChatGptCategories[0].knownFiles;
    }
  }

  /** ChatGPTFlow: validate_zip with the catalog, and the extraction, on the
      archive open gives for the chosen file. */
  function ChatGptPlatform(c: Codecs, open: string -> Zip): (p: Platform)
    ensures forall f :: open(f).None? ==> p.validate(f) == 1
    ensures forall f :: p.extract(f) == Direct(Some(Extraction(ConversationsFrame(JsonFromZip(c, open(f), "conversations.json"), PackagedTime(c)))))
  {
    ChatGptCatalog();
    Platform(
      (f: string) => ZipValidationStatus(ChatGptCategories, open(f)),
      (f: string) => Direct(Some(Extraction(ConversationsFrame(JsonFromZip(c, open(f), "conversations.json"), PackagedTime(c))))))
  }

  /** A file that is not a zip gets the retry prompt. */
  lemma BadZipAsksRetry(c: Codecs, open: string -> Zip, session: int, R: seq<Payload>, file: string)
    requires |R| >= 1 && R[0] == PayloadString(file) && open(file).None?
    ensures |StartFlowRun(ChatGptPlatform(c, open), session, R, Some([])).trace| >= 2
    ensures StartFlowRun(ChatGptPlatform(c, open), session, R, Some([])).trace[..2] == [Render(FilePrompt), Render(RetryPrompt)]
  {
    InvalidFileAsksRetry(ChatGptPlatform(c, open), session, R, file);
  }

  /** A recognised archive leads straight to the consent form with the extracted table, if any. */
  lemma RecognisedZipShowsConversations(c: Codecs, open: string -> Zip, session: int, R: seq<Payload>, file: string)
    requires |R| >= 1 && R[0] == PayloadString(file) && open(file).Some?
    requires exists i :: 0 <= i < |open(file).value| && BaseName(open(file).value[i].name) in ChatGptCategories[0].knownFiles
    ensures |StartFlowRun(ChatGptPlatform(c, open), session, R, Some([])).trace| >= 2
    ensures StartFlowRun(ChatGptPlatform(c, open), session, R, Some([])).trace[..2] ==
      [Render(FilePrompt), Render(ReviewData(Extraction(ConversationsFrame(JsonFromZip(c, open(file), "conversations.json"), PackagedTime(c)))))]
  {
    ChatGptValidIffKnownFile(open(file).value);
    var p := ChatGptPlatform(c, open);
    ValidFileShowsTables(p, session, R, file, Extraction(ConversationsFrame(JsonFromZip(c, open(file), "conversations.json"), PackagedTime(c))));
  }
}
