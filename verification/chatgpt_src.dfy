// The ChatGPT module of the study script: validation that scores only .html
// and .json members, the same conversations table, and the choice of one
// question and its answer for the questionnaire.
module ChatGptSrc {
  import opened Wrappers
  import opened Sequences
  import opened Strings
  import opened Json
  import opened ExtractionHelpers
  import opened Validate
  import opened Tables
  import opened ChatGpt

  // ---------------------------------------------------------------------------
  // Validation
  // ---------------------------------------------------------------------------

  const SrcStatusCodes := [StatusCode(0, "Valid zip"), StatusCode(1, "Bad zipfile")]

  /** The position of the last occurrence of c in s. */
  function LastIndex(s: string, c: char): (r: Option<nat>)
    ensures r.Some? ==> r.value < |s| && s[r.value] == c && c !in s[r.value + 1..]
    ensures r.None? ==> c !in s
  {
    if s == [] then None
    else if s[|s| - 1] == c then Some(|s| - 1)
    else
      var r := LastIndex(s[..|s| - 1], c);
      assert s == s[..|s| - 1] + [s[|s| - 1]];
      assert r.Some? ==> s[r.value + 1..] == s[..|s| - 1][r.value + 1..] + [s[|s| - 1]];
      r
  }

  /** Path(name).suffix for a base name: from its last dot on, unless that dot
      is the first or the last character. */
  function PathSuffix(name: string): (r: string)
    ensures r == [] || (r[0] == '.' && IsSuffix(r, name) && |r| < |name|)
  {
    match LastIndex(name, '.')
    case Some(i) => if 0 < i < |name| - 1 then name[i..] else ""
    case None => ""
  }

  /** A base name has suffix .json exactly when it ends in .json and has
      something before it: a member named just ".json" is not scored. */
  lemma JsonSuffixIff(name: string)
    ensures PathSuffix(name) == ".json" <==> IsSuffix(".json", name) && |name| > 5
  {
    if IsSuffix(".json", name) && |name| > 5 {
      var i := |name| - 5;
      assert name[i..] == ".json";
      assert forall k :: i <= k < |name| ==> name[k] == ".json"[k - i];
      LastDot(name, i);
    }
  }

  /** The last dot of a string whose only dot from position i on is at i. */
  lemma {:induction false} LastDot(s: string, i: nat)
    requires i < |s| && s[i] == '.' && forall k :: i < k < |s| ==> s[k] != '.'
    ensures LastIndex(s, '.') == Some(i)
    decreases |s|
  {
    if i < |s| - 1 {
      var init := s[..|s| - 1];
      assert forall k :: i < k < |init| ==> init[k] == s[k];
      LastDot(init, i);
    }
  }

  /** The base name a member contributes to the scored paths, if its suffix is .html or .json. */
  function ScoredName(m: Member): (r: Option<string>)
    ensures r.Some? ==> r.value == BaseName(m.name)
  {
    var name := BaseName(m.name);
    if PathSuffix(name) == ".html" || PathSuffix(name) == ".json" then Some(name) else None
  }

  /** The paths validate_zip scores: base names of .html and .json members, in archive order. */
  function ScoredNames(members: seq<Member>): (r: seq<string>)
    ensures forall n :: n in r ==> PathSuffix(n) == ".html" || PathSuffix(n) == ".json"
  {
    FilterMapFrom(members, ScoredRule());
    FilterMap(members, ScoredRule())
  }

  function ScoredRule(): Member -> Option<string> {
    (m: Member) => ScoredName(m)
  }

  /** The status id validate_zip leaves: 1 for a bad zip, otherwise 0 exactly
      when a category is inferred from the scored paths. */
  function SrcValidationStatus(zip: Zip): (r: int)
    ensures r == 0 || r == 1
    ensures zip.None? ==> r == 1
  {
    ChatGptCatalog();
    if zip.None? then 1
    else if Inferred(CategoryLookup(ChatGptCategories), ScoredNames(zip.value)).Some? then 0
    else 1
  }

  lemma SrcStatusLookup()
    ensures StatusLookup(SrcStatusCodes) == map[0 := SrcStatusCodes[0], 1 := SrcStatusCodes[1]]
  {
    assert SrcStatusCodes[..1] == [SrcStatusCodes[0]];
    assert [SrcStatusCodes[0]][..0] == [];
  }

  /** The loop over namelist() keeping the .html and .json base names. */
  method CollectScoredNames(members: seq<Member>) returns (paths: seq<string>)
    ensures paths == ScoredNames(members)
  {
    paths := [];
    for i := 0 to |members|
      invariant paths == FilterMap(members[..i], ScoredRule())
    {
      var name := BaseName(members[i].name);
      var suffix := PathSuffix(name);
      FilterMapLoopStep(members, i, ScoredRule(), [], paths, if suffix == ".html" || suffix == ".json" then Some(name) else None);
      if suffix == ".html" || suffix == ".json" {
        paths := paths + [name];
      }
    }
    assert members[..|members|] == members;
  }

  method ValidateZip(zip: Zip) returns (v: ValidateInput)
    ensures fresh(v)
    ensures v.allDdpCategories == ChatGptCategories && v.allStatusCodes == SrcStatusCodes
    ensures v.GetStatusCodeId() == SrcValidationStatus(zip)
    ensures v.currentDdpCategory == None
  {
    v := new ValidateInput(SrcStatusCodes, ChatGptCategories);
    SrcStatusLookup();
    ChatGptCatalog();
    if zip.None? {
      v.SetCurrentStatusCodeById(1);
    } else {
      var paths := CollectScoredNames(zip.value);
      var detected := v.InferDdpCategory(paths);
      if detected {
        v.SetCurrentStatusCodeById(0);
      } else {
        v.SetCurrentStatusCodeById(1);
      }
    }
  }

  /** An archive is valid exactly when one of its .html or .json members has a known base name. */
  lemma SrcValidIffKnownFile(members: seq<Member>)
    ensures SrcValidationStatus(Some(members)) == 0 <==>
      exists i :: 0 <= i < |members| && ScoredName(members[i]).Some? && BaseName(members[i].name) in ChatGptCategories[0].knownFiles
  {
    ChatGptInferredIff(ScoredNames(members));
    FilterMapExists(members, ScoredRule(), (n: string) => n in ChatGptCategories[0].knownFiles);
  }

  /** conversations_to_df of the study script: the same rule as the packaged
      module, with the script's own timestamp conversion. */
  method ConversationsToDf(c: Codecs, zip: Zip, convertUnixTimestamp: string -> string) returns (out: Frame)
    ensures out == ConversationsFrame(JsonFromZip(c, zip, "conversations.json"), convertUnixTimestamp)
  {
    var b := ExtractFileFromZip(zip, "conversations.json");
    var conversations := ReadJson(b, c.readJson);
    out := CollectConversations(conversations, convertUnixTimestamp);
  }

  // ---------------------------------------------------------------------------
  // Question and answer selection
  // ---------------------------------------------------------------------------

  /** A datapoint of select_random_qa. */
  datatype QaPoint = QaPoint(role: string, message: string, id: string, child: string, parent: string)

  /** The datapoint of a denested turn: None when it is hidden or its role is empty. */
  function QaPointOfFlat(d: Flat): (r: Option<QaPoint>)
    ensures r.None? <==> Hidden(d) || Role(d) == ""
    ensures r.Some? ==> r.value.role == Role(d) && r.value.message == Message(d) && r.value.role != ""
  {
    if Hidden(d) || Role(d) == "" then None
    else
      Some(QaPoint(Role(d), Message(d), FindItemValue(d, LiteralPattern("id")),
                   FindItemValue(d, LiteralPattern("children-0")), FindItemValue(d, LiteralPattern("parent"))))
  }

  function QaPointOf(turn: Json): (r: Option<QaPoint>)
    ensures r == QaPointOfFlat(Denested(turn))
  {
    QaPointOfFlat(Denested(turn))
  }

  function QaRule(): Json -> Option<QaPoint> {
    (turn: Json) => QaPointOf(turn)
  }

  function QaOfConversation(): (Json, seq<Json>) -> seq<QaPoint> {
    (title: Json, turns: seq<Json>) => FilterMap(turns, QaRule())
  }

  predicate HasRole(p: QaPoint) {
    p.role != ""
  }

  /** The datapoints of all conversations, or Failure when one of them raises. */
  function QaPoints(convs: seq<Json>): (r: Result<seq<QaPoint>>)
    ensures r.Ok? ==> forall i :: 0 <= i < |r.value| ==> r.value[i].role != ""
  {
    forall title, turns ensures forall x :: x in QaOfConversation()(title, turns) ==> HasRole(x) {
      FilterMapFrom(turns, QaRule());
    }
    CollectedFrom(convs, QaOfConversation(), HasRole);
    var r := Collected(convs, QaOfConversation());
    assert r.Ok? ==> forall i :: 0 <= i < |r.value| ==> r.value[i] in r.value;
    r
  }

  /** The datapoints follow the rows of the conversations table one for one:
      both keep the same turns. */
  lemma QaPointsMatchRows(convs: seq<Json>, timeOf: string -> string)
    ensures QaPoints(convs).Ok? <==> ConversationRows(convs, timeOf).Ok?
    ensures QaPoints(convs).Ok? ==> |QaPoints(convs).value| == |ConversationRows(convs, timeOf).value|
  {
    forall title, turns ensures |QaOfConversation()(title, turns)| == |ConversationRule(timeOf)(title, turns)| {
      SameTurnsKept(title, turns, timeOf);
    }
    CollectedSameLength(convs, QaOfConversation(), ConversationRule(timeOf));
  }

  lemma {:induction false} SameTurnsKept(title: Json, turns: seq<Json>, timeOf: string -> string)
    ensures |FilterMap(turns, QaRule())| == |FilterMap(turns, TurnRule(title, timeOf))|
    decreases |turns|
  {
    if turns != [] {
      SameTurnsKept(title, turns[..|turns| - 1], timeOf);
    }
  }

  /** The ids that start a conversation: user datapoints whose id is nobody's child, in row order. */
  function Candidates(points: seq<QaPoint>): (ids: seq<string>)
    ensures forall id :: id in ids <==>
      exists i :: 0 <= i < |points| && points[i].id == id && points[i].role == "user" && NotAChild(points, id)
  {
    CandidateMembers(points);
    FilterMap(points, CandidateRule(points))
  }

  function CandidateRule(points: seq<QaPoint>): QaPoint -> Option<string> {
    (p: QaPoint) => if p.role == "user" && NotAChild(points, p.id) then Some(p.id) else None
  }

  lemma CandidateMembers(points: seq<QaPoint>)
    ensures forall id :: id in FilterMap(points, CandidateRule(points)) <==>
      exists i :: 0 <= i < |points| && points[i].id == id && points[i].role == "user" && NotAChild(points, id)
  {
    FilterMapFrom(points, CandidateRule(points));
    forall id | exists i :: 0 <= i < |points| && points[i].id == id && points[i].role == "user" && NotAChild(points, id)
      ensures id in FilterMap(points, CandidateRule(points))
    {
      var i :| 0 <= i < |points| && points[i].id == id && points[i].role == "user" && NotAChild(points, id);
      FilterMapMember(points, i, CandidateRule(points));
    }
  }

  /** ~df["id"].isin(df["child"]). */
  predicate NotAChild(points: seq<QaPoint>, id: string) {
    forall j :: 0 <= j < |points| ==> points[j].child != id
  }

  /** df["message"][df["id"] == id]. */
  function Questions(points: seq<QaPoint>, id: string): seq<string> {
    FilterMap(points, (p: QaPoint) => if p.id == id then Some(p.message) else None)
  }

  /** df["message"][df["parent"] == id]. */
  function Answers(points: seq<QaPoint>, id: string): seq<string> {
    FilterMap(points, (p: QaPoint) => if p.parent == id then Some(p.message) else None)
  }

  /** One message has the id, one message has it as parent, and neither is empty. */
  predicate Accepted(points: seq<QaPoint>, id: string) {
    |Questions(points, id)| == 1 && |Answers(points, id)| == 1
    && Questions(points, id)[0] != "" && Answers(points, id)[0] != ""
  }

  /** The loop over the shuffled ids: the pair of the first accepted one. */
  function FirstAccepted(points: seq<QaPoint>, ids: seq<string>): (r: Option<(string, string)>)
    ensures r.None? <==> forall k :: 0 <= k < |ids| ==> !Accepted(points, ids[k])
    ensures r.Some? ==> exists k :: (0 <= k < |ids| && Accepted(points, ids[k])
      && r.value == (Questions(points, ids[k])[0], Answers(points, ids[k])[0])
      && forall l :: 0 <= l < k ==> !Accepted(points, ids[l]))
  {
    if ids == [] then None
    else if Accepted(points, ids[0]) then Some((Questions(points, ids[0])[0], Answers(points, ids[0])[0]))
    else
      var r := FirstAccepted(points, ids[1..]);
      assert forall k :: 1 <= k < |ids| ==> ids[k] == ids[1..][k - 1];
      if r.Some? then
        var k :| 0 <= k < |ids[1..]| && Accepted(points, ids[1..][k])
          && r.value == (Questions(points, ids[1..][k])[0], Answers(points, ids[1..][k])[0])
          && forall l :: 0 <= l < k ==> !Accepted(points, ids[1..][l]);
        assert ids[k + 1] == ids[1..][k];
        assert forall l :: 1 <= l < k + 1 ==> ids[l] == ids[1..][l - 1];
        r
      else r
  }

  /** The pair select_random_qa returns for the datapoints, with shuffle the
      order np.random.shuffle puts the candidate ids in; the empty table
      raises KeyError and gives ("", ""). */
  function SelectQa(points: seq<QaPoint>, shuffle: seq<string> -> seq<string>): (qa: (string, string))
  {
    if points == [] then ("", "")
    else match FirstAccepted(points, shuffle(Candidates(points)))
      case None => ("", "")
      case Some(pair) => pair
  }

  /** select_random_qa on the archive. */
  function SelectRandomQa(c: Codecs, zip: Zip, shuffle: seq<string> -> seq<string>): (qa: (string, string)) {
    match Iterate(JsonFromZip(c, zip, "conversations.json"))
    case Failure => ("", "")
    case Ok(convs) =>
      match QaPoints(convs)
      case Failure => ("", "")
      case Ok(points) => SelectQa(points, shuffle)
  }

  /** np.random.shuffle only reorders. */
  ghost predicate IsShuffle(shuffle: seq<string> -> seq<string>) {
    forall s :: multiset(shuffle(s)) == multiset(s)
  }

  /** A non-empty result is the unique question and the unique answer of an
      accepted candidate: a user message starting a conversation, and the
      one message replying to it. */
  lemma SelectedPairIsAccepted(points: seq<QaPoint>, shuffle: seq<string> -> seq<string>)
    requires IsShuffle(shuffle)
    ensures SelectQa(points, shuffle) == ("", "") || exists id :: (id in Candidates(points) && Accepted(points, id)
      && SelectQa(points, shuffle) == (Questions(points, id)[0], Answers(points, id)[0]))
    ensures SelectQa(points, shuffle).0 == "" <==> SelectQa(points, shuffle).1 == ""
  {
    if points != [] {
      var ids := shuffle(Candidates(points));
      var r := FirstAccepted(points, ids);
      if r.Some? {
        var k :| 0 <= k < |ids| && Accepted(points, ids[k])
          && r.value == (Questions(points, ids[k])[0], Answers(points, ids[k])[0])
          && forall l :: 0 <= l < k ==> !Accepted(points, ids[l]);
        assert ids[k] in multiset(ids);
        assert multiset(ids) == multiset(Candidates(points));
      }
    }
  }

  /** Without an accepted candidate the result is ("", "") whatever the shuffle. */
  lemma NoAcceptedCandidateGivesEmpty(points: seq<QaPoint>, shuffle: seq<string> -> seq<string>)
    requires IsShuffle(shuffle)
    requires forall id :: id in Candidates(points) ==> !Accepted(points, id)
    ensures SelectQa(points, shuffle) == ("", "")
  {
    if points != [] {
      var ids := shuffle(Candidates(points));
      forall k | 0 <= k < |ids| ensures !Accepted(points, ids[k]) {
        assert ids[k] in multiset(ids);
        assert multiset(ids) == multiset(Candidates(points));
      }
    }
  }

  /** With a single accepted candidate id the shuffle does not change the result. */
  lemma OneAcceptedCandidateIgnoresShuffle(points: seq<QaPoint>, s1: seq<string> -> seq<string>,
                                           s2: seq<string> -> seq<string>, id: string)
    requires IsShuffle(s1) && IsShuffle(s2)
    requires id in Candidates(points) && Accepted(points, id)
    requires forall x :: x in Candidates(points) && Accepted(points, x) ==> x == id
    ensures SelectQa(points, s1) == SelectQa(points, s2) == (Questions(points, id)[0], Answers(points, id)[0])
  {
    SelectedPairIsAccepted(points, s1);
    SelectedPairIsAccepted(points, s2);
    OneAcceptedFound(points, s1, id);
    OneAcceptedFound(points, s2, id);
  }

  lemma OneAcceptedFound(points: seq<QaPoint>, shuffle: seq<string> -> seq<string>, id: string)
    requires IsShuffle(shuffle)
    requires id in Candidates(points) && Accepted(points, id)
    ensures SelectQa(points, shuffle) != ("", "")
  {
    var ids := shuffle(Candidates(points));
    assert id in multiset(Candidates(points));
    assert id in multiset(ids);
    var k :| 0 <= k < |ids| && ids[k] == id;
    assert points != [];
  }

  // ---------------------------------------------------------------------------
  // The loops of select_random_qa
  // ---------------------------------------------------------------------------

  /** The body of the inner loop on a denested turn. */
  method QaOfDenested(d: Flat) returns (p: Option<QaPoint>)
    ensures p == QaPointOfFlat(d)
  {
    p := None;
    var isHidden := FindItem(d, LiteralPattern("is_visually_hidden_from_conversation"));
    if isHidden != "True" {
      var role := FindItem(d, LiteralPattern("role"));
      var parts := FindItems(d, LiteralPattern("part"));
      var id := FindItem(d, LiteralPattern("id"));
      var child := FindItem(d, LiteralPattern("children-0"));
      var parent := FindItem(d, LiteralPattern("parent"));
      if role != "" {
        p := Some(QaPoint(role, Join(parts, ""), id, child, parent));
      }
    }
  }

  /** The inner loop: the datapoints of one conversation's turns appended to datapoints. */
  method CollectQaTurns(turns: seq<Json>, datapoints: seq<QaPoint>) returns (out: seq<QaPoint>)
    ensures out == datapoints + FilterMap(turns, QaRule())
  {
    out := datapoints;
    for j := 0 to |turns|
      invariant out == datapoints + FilterMap(turns[..j], QaRule())
    {
      var d := DictDenester(turns[j]);
      var p := QaOfDenested(d);
      FilterMapLoopStep(turns, j, QaRule(), datapoints, out, p);
      if p.Some? {
        out := out + [p.value];
      }
    }
    assert turns[..|turns|] == turns;
  }

  /** The outer loop over the conversations; Failure is the exception that ends the try block. */
  method CollectQaPoints(convs: seq<Json>) returns (r: Result<seq<QaPoint>>)
    ensures r == QaPoints(convs)
  {
    var datapoints: seq<QaPoint> := [];
    for i := 0 to |convs|
      invariant Collected(convs[..i], QaOfConversation()) == Ok(datapoints)
    {
      var tm := ConversationTurns(convs[i]);
      if tm.Failure? {
        OneFailureDiscardsAll(convs, i, QaOfConversation());
        return Failure;
      }
      CollectedStep(convs, i, QaOfConversation());
      datapoints := CollectQaTurns(tm.value.1, datapoints);
    }
    assert convs[..|convs|] == convs;
    return Ok(datapoints);
  }

  /** The selection loop: the first shuffled id that is accepted, with break. */
  method PickFirstAccepted(points: seq<QaPoint>, ids: seq<string>) returns (question: string, answer: string)
    ensures FirstAccepted(points, ids).None? ==> (question, answer) == ("", "")
    ensures FirstAccepted(points, ids).Some? ==> (question, answer) == FirstAccepted(points, ids).value
  {
    question, answer := "", "";
    var i := 0;
    while i < |ids|
      invariant 0 <= i <= |ids|
      invariant FirstAccepted(points, ids) == FirstAccepted(points, ids[i..])
    {
      var ql := Questions(points, ids[i]);
      var al := Answers(points, ids[i]);
      if |ql| == 1 && |al| == 1 && ql[0] != "" && al[0] != "" {
        question, answer := ql[0], al[0];
        return;
      }
      assert ids[i..][1..] == ids[i + 1..];
      i := i + 1;
    }
  }

  method SelectRandomQaMethod(c: Codecs, zip: Zip, shuffle: seq<string> -> seq<string>) returns (question: string, answer: string)
    ensures (question, answer) == SelectRandomQa(c, zip, shuffle)
  {
    question, answer := "", "";
    var b := ExtractFileFromZip(zip, "conversations.json");
    var conversations := ReadJson(b, c.readJson);
    var convs := Iterate(conversations);
    if convs.Failure? { return; }
    var points := CollectQaPoints(convs.value);
    if points.Failure? || points.value == [] { return; }
    var ids := shuffle(Candidates(points.value));
    question, answer := PickFirstAccepted(points.value, ids);
  }
}
