// The WhatsApp platform after parsing: the rows without a message are
// dropped, the detected names are cleaned of system lines, the chat is
// restricted to the real users, and extraction adds per-user statistics
// (who answers whom, message and word totals, favourite emoji).
module WhatsApp {
  import opened Wrappers
  import opened Json
  import opened Strings
  import opened Sorting
  import opened Tables
  import opened Commands
  import opened FlowBuilder
  import opened WhatsAppParse

  // ---------------------------------------------------------------------------
  // Row filters: remove_empty_chats and keep_users
  // ---------------------------------------------------------------------------

  /** The rows satisfying keep, in their order (a boolean mask followed by reset_index). */
  function Where(dps: seq<Datapoint>, keep: Datapoint -> bool): (r: seq<Datapoint>)
    ensures |r| <= |dps|
    ensures forall d :: d in r <==> d in dps && keep(d)
  {
    if dps == [] then []
    else
      var prev := dps[..|dps| - 1];
      assert dps == prev + [dps[|dps| - 1]];
      Where(prev, keep) + (if keep(dps[|dps| - 1]) then [dps[|dps| - 1]] else [])
  }

  /** remove_empty_chats: the rows where the regex found a message. */
  function RemoveEmptyChats(dps: seq<Datapoint>): (r: seq<Datapoint>)
    ensures forall d :: d in r <==> d in dps && d.chatMessage != ""
  {
    Where(dps, (d: Datapoint) => d.chatMessage != "")
  }

  /** keep_users: the rows whose name is one of the users. */
  function KeepUsers(dps: seq<Datapoint>, users: seq<string>): (r: seq<Datapoint>)
    ensures forall d :: d in r <==> d in dps && d.name in users
  {
    Where(dps, (d: Datapoint) => d.name in users)
  }

  /** The name column. */
  function Names(dps: seq<Datapoint>): (ns: seq<string>)
    ensures |ns| == |dps|
    ensures forall i :: 0 <= i < |dps| ==> ns[i] == dps[i].name
  {
    seq(|dps|, i requires 0 <= i < |dps| => dps[i].name)
  }

  lemma NamesMember(dps: seq<Datapoint>, x: string)
    ensures x in Names(dps) <==> exists d :: d in dps && d.name == x
  {
    if x in Names(dps) {
      var i :| 0 <= i < |dps| && Names(dps)[i] == x;
      assert dps[i] in dps;
    }
    if exists d :: d in dps && d.name == x {
      var d :| d in dps && d.name == x;
      var i :| 0 <= i < |dps| && dps[i] == d;
      assert Names(dps)[i] == x;
    }
  }

  // ---------------------------------------------------------------------------
  // extract_users
  // ---------------------------------------------------------------------------

  /** A detected name that starts with another detected name followed by a
      space (what re.match of the escaped name and " " tests), such as the
      sender part of "henk changed the group name". */
  predicate NonUser(detected: seq<string>, entry: string) {
    exists a :: 0 <= a < |detected| && detected[a] + " " <= entry
  }

  /** The entries of ds that are not non-users of all. */
  function RealOf(ds: seq<string>, all: seq<string>): (r: seq<string>)
    ensures forall x :: x in r <==> x in ds && !NonUser(all, x)
    ensures Distinct(ds) ==> Distinct(r)
  {
    if ds == [] then []
    else
      var prev := ds[..|ds| - 1];
      var last := ds[|ds| - 1];
      assert ds == prev + [last];
      assert Distinct(ds) ==> last !in prev;
      RealOf(prev, all) + (if NonUser(all, last) then [] else [last])
  }

  /** extract_users: the distinct names minus the non-users. */
  function RealUsers(names: seq<string>): seq<string> {
    RealOf(Unique(names), Unique(names))
  }

  /** The users are distinct, and a name is a user exactly when it occurs and
      no occurring name followed by a space starts it. */
  lemma UsersSpec(names: seq<string>)
    ensures Distinct(RealUsers(names))
    ensures forall x :: x in RealUsers(names) <==>
      x in names && !(exists u :: u in names && u + " " <= x)
  {
    UniqueSpec(names);
    var d := Unique(names);
    forall x ensures NonUser(d, x) <==> exists u :: u in names && u + " " <= x {
      if NonUser(d, x) {
        var a :| 0 <= a < |d| && d[a] + " " <= x;
        assert d[a] in d;
      }
      if exists u :: u in names && u + " " <= x {
        var u :| u in names && u + " " <= x;
        var a :| 0 <= a < |d| && d[a] == u;
        assert d[a] + " " <= x;
      }
    }
  }

  /** One more detected name to test the entries against. */
  lemma NonUserStep(ds: seq<string>, i: nat, x: string)
    requires i < |ds|
    ensures NonUser(ds[..i + 1], x) <==> NonUser(ds[..i], x) || ds[i] + " " <= x
  {
    if NonUser(ds[..i + 1], x) {
      var a :| 0 <= a < i + 1 && ds[..i + 1][a] + " " <= x;
      if a < i { assert ds[..i][a] == ds[a]; }
    }
    if NonUser(ds[..i], x) {
      var a :| 0 <= a < i && ds[..i][a] + " " <= x;
      assert ds[..i + 1][a] == ds[a];
    }
    assert ds[..i + 1][i] == ds[i];
  }

  /** One more entry kept or dropped. */
  lemma RealOfStep(ds: seq<string>, k: nat, all: seq<string>)
    requires k < |ds|
    ensures RealOf(ds[..k + 1], all) == RealOf(ds[..k], all) + (if NonUser(all, ds[k]) then [] else [ds[k]])
  {
    assert ds[..k + 1][..k] == ds[..k];
  }

  /** extract_users' loops: the non-users are collected pair by pair, then
      the detected names not among them are kept. */
  method ExtractUsers(dps: seq<Datapoint>) returns (users: seq<string>)
    ensures users == RealUsers(Names(dps))
  {
    var detected := Unique(Names(dps));
    var nonUsers: seq<string> := [];
    for i := 0 to |detected|
      invariant forall x :: x in nonUsers <==> x in detected && NonUser(detected[..i], x)
    {
      for j := 0 to |detected|
        invariant forall x :: x in nonUsers <==> (x in detected[..j] && detected[i] + " " <= x) || (x in detected && NonUser(detected[..i], x))
      {
        assert detected[..j + 1] == detected[..j] + [detected[j]];
        if detected[i] + " " <= detected[j] {
          nonUsers := nonUsers + [detected[j]];
        }
      }
      assert detected[..|detected|] == detected;
      forall x ensures NonUser(detected[..i + 1], x) <==> NonUser(detected[..i], x) || detected[i] + " " <= x {
        NonUserStep(detected, i, x);
      }
    }
    assert detected[..|detected|] == detected;
    users := [];
    for k := 0 to |detected|
      invariant users == RealOf(detected[..k], detected)
    {
      RealOfStep(detected, k, detected);
      if detected[k] !in nonUsers {
        users := users + [detected[k]];
      }
    }
  }

  /** extraction calls extract_users again on the chat keep_users left: it
      finds the same users. */
  lemma KeptUsersStable(dps: seq<Datapoint>)
    ensures forall x :: x in RealUsers(Names(KeepUsers(dps, RealUsers(Names(dps))))) <==> x in RealUsers(Names(dps))
  {
    var users := RealUsers(Names(dps));
    var kept := KeepUsers(dps, users);
    UsersSpec(Names(dps));
    UsersSpec(Names(kept));
    forall x ensures x in Names(kept) <==> x in Names(dps) && x in users {
      NamesMember(kept, x);
      NamesMember(dps, x);
    }
  }

  // ---------------------------------------------------------------------------
  // Counter.most_common(1)
  // ---------------------------------------------------------------------------

  /** The first candidate with the largest count in xs. */
  function BestOf(xs: seq<string>, cands: seq<string>): (r: string)
    requires cands != []
    ensures r in cands
    ensures forall y :: y in cands ==> multiset(xs)[y] <= multiset(xs)[r]
    ensures exists k :: 0 <= k < |cands| && cands[k] == r && forall j :: 0 <= j < k ==> multiset(xs)[cands[j]] < multiset(xs)[r]
  {
    if |cands| == 1 then cands[0]
    else
      var b := BestOf(xs, cands[1..]);
      assert cands == [cands[0]] + cands[1..];
      if multiset(xs)[b] > multiset(xs)[cands[0]] then
        var k :| 0 <= k < |cands[1..]| && cands[1..][k] == b && forall j :: 0 <= j < k ==> multiset(xs)[cands[1..][j]] < multiset(xs)[b];
        assert cands[k + 1] == b;
        b
      else cands[0]
  }

  /** Counter(xs).most_common(1), unpacked, or "" for no values: the most
      frequent value, the first seen among equally frequent ones. */
  function MostCommon(xs: seq<string>): (r: string)
    ensures xs == [] ==> r == ""
    ensures xs != [] ==> r in xs && forall y :: y in xs ==> multiset(xs)[y] <= multiset(xs)[r]
    ensures xs != [] ==> exists p :: 0 <= p < |xs| && xs[p] == r && forall q :: 0 <= q < p ==> multiset(xs)[xs[q]] < multiset(xs)[r]
  {
    if xs == [] then "" else BestOf(xs, xs)
  }

  // ---------------------------------------------------------------------------
  // who_reacted_to_you_the_most and who_you_reacted_to_the_most
  // ---------------------------------------------------------------------------

  /** The senders of the rows that directly follow a row of user. */
  function ReactedToYou(names: seq<string>, user: string): seq<string>
    decreases |names|
  {
    if |names| < 2 then []
    else
      var n := |names|;
      ReactedToYou(names[..n - 1], user) + (if names[n - 1] != user && names[n - 2] == user then [names[n - 1]] else [])
  }

  /** The senders of the rows that user's rows directly follow. */
  function YouReactedTo(names: seq<string>, user: string): seq<string>
    decreases |names|
  {
    if |names| < 2 then []
    else
      var n := |names|;
      YouReactedTo(names[..n - 1], user) + (if names[n - 1] == user && names[n - 2] != user then [names[n - 2]] else [])
  }

  /** Some row of x directly follows a row of y. */
  predicate Follows(names: seq<string>, x: string, y: string) {
    exists i :: 1 <= i < |names| && names[i] == x && names[i - 1] == y
  }

  /** Follows on a column with one more row at the end. */
  lemma FollowsSnoc(names: seq<string>, x: string, y: string)
    requires |names| >= 2
    ensures Follows(names, x, y) <==>
      Follows(names[..|names| - 1], x, y) || (names[|names| - 1] == x && names[|names| - 2] == y)
  {
    var prev := names[..|names| - 1];
    if Follows(names, x, y) {
      var i :| 1 <= i < |names| && names[i] == x && names[i - 1] == y;
      if i < |names| - 1 { assert prev[i] == x && prev[i - 1] == y; }
    }
    if Follows(prev, x, y) {
      var i :| 1 <= i < |prev| && prev[i] == x && prev[i - 1] == y;
      assert names[i] == x && names[i - 1] == y;
    }
  }

  /** A name reacted to user exactly when one of its rows follows a row of user. */
  lemma {:induction false} ReactedToYouSpec(names: seq<string>, user: string)
    ensures forall x :: x in ReactedToYou(names, user) <==> x != user && Follows(names, x, user)
    decreases |names|
  {
    if |names| >= 2 {
      ReactedToYouSpec(names[..|names| - 1], user);
      forall x ensures Follows(names, x, user) <==>
        Follows(names[..|names| - 1], x, user) || (names[|names| - 1] == x && names[|names| - 2] == user)
      {
        FollowsSnoc(names, x, user);
      }
    }
  }

  /** user reacted to a name exactly when one of user's rows follows a row of it. */
  lemma {:induction false} YouReactedToSpec(names: seq<string>, user: string)
    ensures forall x :: x in YouReactedTo(names, user) <==> x != user && Follows(names, user, x)
    decreases |names|
  {
    if |names| >= 2 {
      YouReactedToSpec(names[..|names| - 1], user);
      forall x ensures Follows(names, user, x) <==>
        Follows(names[..|names| - 1], user, x) || (names[|names| - 1] == user && names[|names| - 2] == x)
      {
        FollowsSnoc(names, user, x);
      }
    }
  }

  /** who_reacted_to_you_the_most: the enumerate loop, then Counter. */
  method WhoReactedToYouTheMost(dps: seq<Datapoint>, user: string) returns (r: string)
    ensures r == MostCommon(ReactedToYou(Names(dps), user))
  {
    var names := Names(dps);
    var reacted: seq<string> := [];
    for i := 0 to |names|
      invariant reacted == ReactedToYou(names[..i], user)
    {
      if i > 0 {
        assert names[..i + 1][..i] == names[..i];
        if names[i] != user && names[i - 1] == user {
          reacted := reacted + [names[i]];
        }
      }
    }
    assert names[..|names|] == names;
    r := MostCommon(reacted);
  }

  /** who_you_reacted_to_the_most: the enumerate loop, then Counter. */
  method WhoYouReactedToTheMost(dps: seq<Datapoint>, user: string) returns (r: string)
    ensures r == MostCommon(YouReactedTo(Names(dps), user))
  {
    var names := Names(dps);
    var reacted: seq<string> := [];
    for i := 0 to |names|
      invariant reacted == YouReactedTo(names[..i], user)
    {
      if i > 0 {
        assert names[..i + 1][..i] == names[..i];
        if names[i] == user && names[i - 1] != user {
          reacted := reacted + [names[i - 1]];
        }
      }
    }
    assert names[..|names|] == names;
    r := MostCommon(reacted);
  }

  /** Nobody reacts to themselves. */
  lemma ReactionsSkipSelf(dps: seq<Datapoint>, user: string)
    ensures user !in ReactedToYou(Names(dps), user) && user !in YouReactedTo(Names(dps), user)
  {
    ReactedToYouSpec(Names(dps), user);
    YouReactedToSpec(Names(dps), user);
  }

  /** A column where only user writes has no reactions in either direction. */
  lemma {:induction false} AloneNoReactions(names: seq<string>, user: string)
    requires forall i :: 0 <= i < |names| ==> names[i] == user
    ensures ReactedToYou(names, user) == [] && YouReactedTo(names, user) == []
    ensures MostCommon(ReactedToYou(names, user)) == "" && MostCommon(YouReactedTo(names, user)) == ""
    decreases |names|
  {
    if |names| >= 2 {
      AloneNoReactions(names[..|names| - 1], user);
    }
  }

  // ---------------------------------------------------------------------------
  // Message and word totals
  // ---------------------------------------------------------------------------

  /** df[df["name"] == name]["chat_message"]: name's messages, in order. */
  function MessagesOf(dps: seq<Datapoint>, name: string): (ms: seq<string>)
    ensures |ms| == multiset(Names(dps))[name]
  {
    if dps == [] then []
    else
      var prev := dps[..|dps| - 1];
      var last := dps[|dps| - 1];
      assert Names(dps) == Names(prev) + [last.name];
      MessagesOf(prev, name) + (if last.name == name then [last.chatMessage] else [])
  }

  /** total_number_of_messages: how often name occurs in the name column. */
  function TotalMessages(dps: seq<Datapoint>, name: string): (n: nat)
    ensures n == multiset(Names(dps))[name]
    ensures n <= |dps|
  {
    assert |Names(dps)| == |multiset(Names(dps))|;
    |MessagesOf(dps, name)|
  }

  /** The number of whitespace-separated tokens over the messages. */
  function WordTotal(ms: seq<string>): nat {
    if ms == [] then 0 else |Words(ms[0])| + WordTotal(ms[1..])
  }

  /** total_number_of_words: the running sum over the messages. */
  method TotalNumberOfWords(dps: seq<Datapoint>, name: string) returns (total: nat)
    ensures total == WordTotal(MessagesOf(dps, name))
  {
    var ms := MessagesOf(dps, name);
    total := 0;
    for i := 0 to |ms|
      invariant total + WordTotal(ms[i..]) == WordTotal(ms)
    {
      assert ms[i..][1..] == ms[i + 1..];
      total := total + |Words(ms[i])|;
    }
  }

  /** A space after a word run does not lengthen it. */
  lemma {:induction false} WordLengthBeforeSpace(a: string, s: string)
    requires s != [] && IsSpace(s[0])
    ensures WordLength(a + s) == WordLength(a)
    decreases |a|
  {
    if a == [] {
      assert a + s == s;
    } else if !IsSpace(a[0]) {
      assert (a + s)[1..] == a[1..] + s;
      WordLengthBeforeSpace(a[1..], s);
    }
  }

  /** The words of two texts joined by a space are the words of each. */
  lemma {:induction false} WordsSpaced(a: string, b: string)
    ensures Words(a + " " + b) == Words(a) + Words(b)
    decreases |a|
  {
    var s := a + " " + b;
    if a == [] {
      assert s[1..] == b;
    } else if IsSpace(a[0]) {
      assert s[1..] == a[1..] + " " + b;
      WordsSpaced(a[1..], b);
    } else {
      var n := WordLength(a);
      assert s == a + (" " + b);
      WordLengthBeforeSpace(a, " " + b);
      assert s[..n] == a[..n];
      assert s[n..] == a[n..] + " " + b;
      WordsSpaced(a[n..], b);
    }
  }

  /** The word total of the messages is the number of words of the messages
      joined by spaces: each word is counted once, in its own message. */
  lemma {:induction false} WordTotalIsJoinedWords(ms: seq<string>)
    ensures WordTotal(ms) == |Words(Join(ms, " "))|
  {
    if |ms| >= 2 {
      WordTotalIsJoinedWords(ms[1..]);
      WordsSpaced(ms[0], Join(ms[1..], " "));
    } else if |ms| == 1 {
      assert ms[1..] == [];
    }
  }

  // ---------------------------------------------------------------------------
  // favorite_emoji and user_statistics_to_df
  // ---------------------------------------------------------------------------

  /** The emojis EMOJI_PATTERN finds in the messages, in order. */
  function EmojisOf(findEmojis: string -> seq<string>, ms: seq<string>): seq<string> {
    if ms == [] then [] else findEmojis(ms[0]) + EmojisOf(findEmojis, ms[1..])
  }

  /** favorite_emoji: the most common of name's emojis, or "". */
  function FavoriteEmoji(findEmojis: string -> seq<string>, dps: seq<Datapoint>, name: string): (r: string)
    ensures r == "" || r in EmojisOf(findEmojis, MessagesOf(dps, name))
  {
    MostCommon(EmojisOf(findEmojis, MessagesOf(dps, name)))
  }

  const StatisticsColumns := ["Description", "Statistic"]

  /** user_statistics_to_df: five (description, statistic) rows. */
  function UserStatistics(findEmojis: string -> seq<string>, dps: seq<Datapoint>, user: string): (f: Frame)
    ensures f.columns == StatisticsColumns && |f.rows| == 5 && !f.Empty()
    ensures f.rows[2] == [JStr("total number of messages you send"), JInt(multiset(Names(dps))[user])]
  {
    Frame(StatisticsColumns, [
      [JStr("who reacted to you the most"), JStr(MostCommon(ReactedToYou(Names(dps), user)))],
      [JStr("who you reacted to the most"), JStr(MostCommon(YouReactedTo(Names(dps), user)))],
      [JStr("total number of messages you send"), JInt(TotalMessages(dps, user))],
      [JStr("total number of words you send"), JInt(WordTotal(MessagesOf(dps, user)))],
      [JStr("The emoji you used most"), JStr(FavoriteEmoji(findEmojis, dps, user))]
    ])
  }

  // ---------------------------------------------------------------------------
  // extraction
  // ---------------------------------------------------------------------------

  /** The chat table: the datapoint columns renamed Timestamp, Name and Message. */
  function GroupChatFrame(dps: seq<Datapoint>): (f: Frame)
    ensures f.columns == ["Timestamp", "Name", "Message"] && |f.rows| == |dps|
    ensures f.Empty() <==> dps == []
  {
    Frame(["Timestamp", "Name", "Message"], ChatFrame(dps).rows)
  }

  /** The first table: the whole chat. */
  function ChatTable(dps: seq<Datapoint>): (t: ConsentTable)
    ensures t.id == "whatsapp_grou_chat" && t.frame == GroupChatFrame(dps)
  {
    ConsentTable("whatsapp_grou_chat", "Your group chat", GroupChatFrame(dps))
  }

  /** The statistics table of the user at position i. */
  function UserTable(findEmojis: string -> seq<string>, dps: seq<Datapoint>, users: seq<string>, i: nat): (t: ConsentTable)
    requires i < |users|
    ensures t.title == "Chat statistics for user: " + users[i] && t.frame == UserStatistics(findEmojis, dps, users[i])
  {
    ConsentTable("user_statistics_" + NatToString(i), "Chat statistics for user: " + users[i],
      UserStatistics(findEmojis, dps, users[i]))
  }

  /** One statistics table per user, numbered in the order of the users. */
  function UserTables(findEmojis: string -> seq<string>, dps: seq<Datapoint>, users: seq<string>): (ts: seq<ConsentTable>)
    ensures |ts| == |users|
    ensures forall i :: 0 <= i < |users| ==> ts[i] == UserTable(findEmojis, dps, users, i)
  {
    seq(|users|, i requires 0 <= i < |users| => UserTable(findEmojis, dps, users, i))
  }

  /** The chat messages, in order. */
  function ChatMessages(dps: seq<Datapoint>): seq<string> {
    seq(|dps|, i requires 0 <= i < |dps| => dps[i].chatMessage)
  }

  /** The tables of extraction before the final filter. The emoji table is
      Counter(...).most_common(100) of every emoji in the chat, given here as
      usage applied to those emojis. */
  function WhatsAppTables(findEmojis: string -> seq<string>, usage: seq<string> -> Frame, dps: seq<Datapoint>): (ts: seq<ConsentTable>)
    ensures |ts| == 2 + |RealUsers(Names(dps))|
    ensures ts[0] == ChatTable(dps)
    ensures forall i :: 0 <= i < |RealUsers(Names(dps))| ==> ts[2 + i] == UserTable(findEmojis, dps, RealUsers(Names(dps)), i)
  {
    var head := [ChatTable(dps),
      ConsentTable("emoji_usage", "The 100 most used emojis in the group", usage(EmojisOf(findEmojis, ChatMessages(dps))))];
    var rest := UserTables(findEmojis, dps, RealUsers(Names(dps)));
    assert forall i :: 0 <= i < |rest| ==> (head + rest)[2 + i] == rest[i];
    head + rest
  }

  /** extraction: the tables whose frame is not empty. */
  function WhatsAppExtraction(findEmojis: string -> seq<string>, usage: seq<string> -> Frame, dps: seq<Datapoint>): seq<ConsentTable> {
    NonEmptyTables(WhatsAppTables(findEmojis, usage, dps))
  }

  /** The chat table is offered exactly when a row is left. */
  lemma GroupChatOffered(findEmojis: string -> seq<string>, usage: seq<string> -> Frame, dps: seq<Datapoint>)
    ensures ChatTable(dps) in WhatsAppExtraction(findEmojis, usage, dps) <==> dps != []
  {
    var ts := WhatsAppTables(findEmojis, usage, dps);
    assert ts[0] in ts;
  }

  /** Every user gets a statistics table with their five statistics. */
  lemma EveryUserReported(findEmojis: string -> seq<string>, usage: seq<string> -> Frame, dps: seq<Datapoint>, i: nat)
    requires i < |RealUsers(Names(dps))|
    ensures UserTable(findEmojis, dps, RealUsers(Names(dps)), i) in WhatsAppExtraction(findEmojis, usage, dps)
  {
    var ts := WhatsAppTables(findEmojis, usage, dps);
    assert ts[2 + i] in ts;
  }

  // ---------------------------------------------------------------------------
  // WhatsAppFlow
  // ---------------------------------------------------------------------------

  /** What the flow is given: the regex engine, read_chat_file (Failure when
      the file cannot be read), EMOJI_PATTERN.findall and the emoji ranking. */
  datatype Chat = Chat(e: Engine, read: string -> Result<seq<string>>, findEmojis: string -> seq<string>, usage: seq<string> -> Frame)

  /** parse_chat with the regexes of the module. */
  function Parsed(w: Chat, file: string): seq<Datapoint> {
    ParseChat(w.e, Regexes(), w.read(file))
  }

  /** validate_file: status 0 exactly when the parsed table is not empty. */
  function ValidateFile(w: Chat, file: string): (status: int)
    ensures status == 0 <==> Parsed(w, file) != []
    ensures status == 0 || status == 1
  {
    if Parsed(w, file) != [] then 0 else 1
  }

  /** A chat passes validation exactly when it can be read, has two lines or
      more, and one of the regexes matches one of them. */
  lemma ValidateFileSpec(w: Chat, file: string)
    ensures ValidateFile(w, file) == 0 <==>
      w.read(file).Ok? && |w.read(file).value| >= 2 &&
      exists i, j :: 0 <= i < |w.read(file).value| && 0 <= j < |Regexes()| && w.e.matches(Regexes()[j], w.read(file).value[i])
  {
    if w.read(file).Ok? {
      ParseLinesSpec(w.e, Regexes(), w.read(file).value);
    }
  }

  /** The chat extract_data hands to extraction. */
  function CleanChat(dps: seq<Datapoint>): seq<Datapoint> {
    var cleaned := RemoveEmptyChats(dps);
    KeepUsers(cleaned, RealUsers(Names(cleaned)))
  }

  /** extract_data: parse again, drop the rows without a message, keep the
      real users and extract. On a table without columns remove_empty_chats
      raises (df.chat_message does not exist), which the flow does not catch. */
  function ExtractData(w: Chat, file: string): (r: Extraction)
    ensures r.Raising? <==> Parsed(w, file) == []
  {
    var dps := Parsed(w, file);
    if dps == [] then Raising
    else Direct(Some(WhatsAppExtraction(w.findEmojis, w.usage, CleanChat(dps))))
  }

  /** Every row of the cleaned chat has a message and a user's name. */
  lemma CleanChatSpec(dps: seq<Datapoint>)
    ensures forall d :: d in CleanChat(dps) <==>
      d in dps && d.chatMessage != "" && d.name in RealUsers(Names(RemoveEmptyChats(dps)))
  {
  }

  /** extract_data run through the methods of the parser and of extract_users. */
  method ExtractDataFromLines(w: Chat, lines: seq<string>) returns (r: Option<seq<ConsentTable>>)
    ensures lines == [] ==> r.None?
    ensures r.None? <==> ParseLines(w.e, Regexes(), lines) == []
    ensures r.Some? ==> r.value == WhatsAppExtraction(w.findEmojis, w.usage, CleanChat(ParseLines(w.e, Regexes(), lines)))
  {
    var dps := ParseChatLines(w.e, Regexes(), lines);
    if dps == [] {
      return None;
    }
    var cleaned := RemoveEmptyChats(dps);
    var users := ExtractUsers(cleaned);
    var kept := KeepUsers(cleaned, users);
    r := Some(WhatsAppExtraction(w.findEmojis, w.usage, kept));
  }

  /** WhatsAppFlow as a platform of the flow builder. */
  function WhatsAppPlatform(w: Chat): (p: Platform)
    ensures forall f :: p.validate(f) == 0 ==> p.extract(f).Direct? && p.extract(f).tables.Some?
  {
    Platform(f => ValidateFile(w, f), f => ExtractData(w, f))
  }

  /** A chat that parses leads to the review of its tables. */
  lemma ParsedChatShowsTables(w: Chat, session: int, R: seq<Payload>, file: string)
    requires |R| >= 1 && R[0] == PayloadString(file) && Parsed(w, file) != []
    ensures |StartFlowRun(WhatsAppPlatform(w), session, R, Some([])).trace| >= 2
    ensures StartFlowRun(WhatsAppPlatform(w), session, R, Some([])).trace[..2] ==
      [Render(FilePrompt), Render(ReviewData(WhatsAppExtraction(w.findEmojis, w.usage, CleanChat(Parsed(w, file)))))]
  {
    ValidFileShowsTables(WhatsAppPlatform(w), session, R, file, WhatsAppExtraction(w.findEmojis, w.usage, CleanChat(Parsed(w, file))));
  }

  /** A chat that does not parse asks for another file. */
  lemma UnparsedChatAsksRetry(w: Chat, session: int, R: seq<Payload>, file: string)
    requires |R| >= 1 && R[0] == PayloadString(file) && Parsed(w, file) == []
    ensures |StartFlowRun(WhatsAppPlatform(w), session, R, Some([])).trace| >= 2
    ensures StartFlowRun(WhatsAppPlatform(w), session, R, Some([])).trace[..2] == [Render(FilePrompt), Render(RetryPrompt)]
  {
    InvalidFileAsksRetry(WhatsAppPlatform(w), session, R, file);
  }
}
