// The WhatsApp chat parser: the line patterns built from their simplified
// form, the choice of the pattern a chat follows, and the joining of the
// lines of a chat file into messages.
module WhatsAppParse {
  import opened Wrappers
  import opened OrderedMaps
  import opened Json
  import opened Strings
  import opened Tables

  // ---------------------------------------------------------------------------
  // generate_regexes
  // ---------------------------------------------------------------------------

  /** SIMPLIFIED_REGEXES, in their order; the last one is the catch-all. */
  const SimplifiedRegexes: seq<string> := [
    "^%d/%m/%y, %H:%M - %name: %chat_message$",
    "^\\[%d/%m/%y, %H:%M:%S\\] %name: %chat_message$",
    "^%d-%m-%y %H:%M - %name: %chat_message$",
    "^\\[%d-%m-%y %H:%M:%S\\] %name: %chat_message$",
    "^%d/%m/%y, %H:%M \U{2013} %name: %chat_message$",
    "^%d/%m/%y, %H:%M - %name: %chat_message$",
    "^%d.%m.%y, %H:%M \U{2013} %name: %chat_message$",
    "^%d.%m.%y, %H:%M - %name: %chat_message$",
    "^\\[%d/%m/%y, %H:%M:%S %P\\] %name: %chat_message$",
    "^\\[%m/%d/%y, %H:%M:%S %P\\] %name: %chat_message$",
    "^\\[%m/%d/%y, %H:%M:%S\\] %name: %chat_message$",
    "^\\[%d.%m.%y, %H:%M:%S\\] %name: %chat_message$",
    "^\\[%m/%d/%y %H:%M:%S\\] %name: %chat_message$",
    "^\\[%m-%d-%y, %H:%M:%S\\] %name: %chat_message$",
    "^\\[%m-%d-%y %H:%M:%S\\] %name: %chat_message$",
    "^%m.%d.%y, %H:%M - %name: %chat_message$",
    "^%m.%d.%y %H:%M - %name: %chat_message$",
    "^%m-%d-%y %H:%M - %name: %chat_message$",
    "^%m-%d-%y, %H:%M - %name: %chat_message$",
    "^%m-%d-%y, %H:%M , %name: %chat_message$",
    "^%m/%d/%y, %H:%M , %name: %chat_message$",
    "^%d-%m-%y, %H:%M , %name: %chat_message$",
    "^%d/%m/%y, %H:%M , %name: %chat_message$",
    "^%d.%m.%y %H:%M \U{2013} %name: %chat_message$",
    "^%m.%d.%y, %H:%M \U{2013} %name: %chat_message$",
    "^%m.%d.%y %H:%M \U{2013} %name: %chat_message$",
    "^\\[%d.%m.%y %H:%M:%S\\] %name: %chat_message$",
    "^\\[%m.%d.%y, %H:%M:%S\\] %name: %chat_message$",
    "^\\[%m.%d.%y %H:%M:%S\\] %name: %chat_message$",
    "^%m/%d/%y, %H:%M - %name: %chat_message$",
    "^(?P<year>.*?)(?:\\] | - )%name: %chat_message$"
  ]

  /** REGEX_CODES: the pattern a known %code stands for. */
  function RegexCode(code: string): Option<string> {
    if code == "%Y" || code == "%y" then Some("(?P<year>\\d{2,4})")
    else if code == "%m" then Some("(?P<month>\\d{1,2})")
    else if code == "%d" then Some("(?P<day>\\d{1,2})")
    else if code == "%H" || code == "%I" then Some("(?P<hour>\\d{1,2})")
    else if code == "%M" then Some("(?P<minutes>\\d{2})")
    else if code == "%S" then Some("(?P<seconds>\\d{2})")
    else if code == "%P" || code == "%p" then Some("(?P<ampm>[AaPp].? ?[Mm].?)")
    else if code == "%name" then Some("(?P<name>[^:]*)")
    else if code == "%chat_message" then Some("(?P<chat_message>.*)")
    else None
  }

  /** \w for the ASCII range: letters, digits and the underscore. */
  predicate IsWordChar(c: char) {
    'a' <= c <= 'z' || 'A' <= c <= 'Z' || '0' <= c <= '9' || c == '_'
  }

  /** The length of the run of word characters s starts with. */
  function WordRun(s: string): (n: nat)
    ensures n <= |s|
    ensures forall k :: 0 <= k < n ==> IsWordChar(s[k])
    ensures n < |s| ==> !IsWordChar(s[n])
  {
    if s == [] || !IsWordChar(s[0]) then 0 else 1 + WordRun(s[1..])
  }

  /** re.findall(r"\%\w*", s): every '%' with the word characters after it,
      left to right. */
  function Codes(s: string): (codes: seq<string>)
    ensures forall i :: 0 <= i < |codes| ==> codes[i] != [] && codes[i][0] == '%'
    decreases |s|
  {
    if s == [] then []
    else if s[0] != '%' then Codes(s[1..])
    else
      var n := 1 + WordRun(s[1..]);
      [s[..n]] + Codes(s[n..])
  }

  /** The inner loop: each code in turn, every occurrence replaced by its
      pattern; an unknown code raises KeyError, which is logged, and the text
      stays as it is. */
  function SubstituteCodes(s: string, codes: seq<string>): string
    requires forall i :: 0 <= i < |codes| ==> codes[i] != []
    decreases |codes|
  {
    if codes == [] then s
    else
      var next := match RegexCode(codes[0]) case None => s case Some(rep) => ReplaceAll(s, codes[0], rep);
      SubstituteCodes(next, codes[1..])
  }

  /** One simplified regex made complete. */
  function GenerateRegex(s: string): string {
    SubstituteCodes(s, Codes(s))
  }

  /** generate_regexes: one complete regex per simplified regex, in order. */
  method GenerateRegexes(simplified: seq<string>) returns (final: seq<string>)
    ensures |final| == |simplified|
    ensures forall i :: 0 <= i < |simplified| ==> final[i] == GenerateRegex(simplified[i])
  {
    final := [];
    for i := 0 to |simplified|
      invariant |final| == i
      invariant forall k :: 0 <= k < i ==> final[k] == GenerateRegex(simplified[k])
    {
      var s := simplified[i];
      var codes := Codes(s);
      for k := 0 to |codes|
        invariant SubstituteCodes(s, codes[k..]) == GenerateRegex(simplified[i])
      {
        assert codes[k..][1..] == codes[k + 1..];
        match RegexCode(codes[k])
        case None =>
        case Some(rep) => s := ReplaceAll(s, codes[k], rep);
      }
      final := final + [s];
    }
  }

  /** REGEXES, the module-level constant the parser matches against. */
  function Regexes(): seq<string> {
    seq(|SimplifiedRegexes|, i requires 0 <= i < |SimplifiedRegexes| => GenerateRegex(SimplifiedRegexes[i]))
  }

  lemma {:induction false} CodesOfPlain(s: string)
    requires '%' !in s
    ensures Codes(s) == []
    decreases |s|
  {
    if s != [] {
      assert '%' !in s[1..] by { assert forall c :: c in s[1..] ==> c in s; }
      CodesOfPlain(s[1..]);
    }
  }

  /** Text without a '%' has no code and is left unchanged. */
  lemma PlainRegexUnchanged(s: string)
    requires '%' !in s
    ensures GenerateRegex(s) == s
  {
    CodesOfPlain(s);
  }

  lemma {:induction false} UnknownCodesSkipped(s: string, codes: seq<string>)
    requires forall i :: 0 <= i < |codes| ==> codes[i] != [] && RegexCode(codes[i]).None?
    ensures SubstituteCodes(s, codes) == s
    decreases |codes|
  {
    if codes != [] {
      UnknownCodesSkipped(s, codes[1..]);
    }
  }

  /** Codes that REGEX_CODES lacks stay in place. */
  lemma UnknownCodesKept(s: string)
    requires forall i :: 0 <= i < |Codes(s)| ==> RegexCode(Codes(s)[i]).None?
    ensures GenerateRegex(s) == s
  {
    UnknownCodesSkipped(s, Codes(s));
  }

  lemma {:induction false} CodesSkipPlain(p: string, t: string)
    requires '%' !in p
    ensures Codes(p + t) == Codes(t)
    decreases |p|
  {
    if p != [] {
      assert p[0] in p;
      assert (p + t)[0] == p[0];
      assert (p + t)[1..] == p[1..] + t;
      assert '%' !in p[1..] by { assert forall c :: c in p[1..] ==> c in p; }
      CodesSkipPlain(p[1..], t);
    } else {
      assert p + t == t;
    }
  }

  lemma {:induction false} WordRunOfWord(w: string, q: string)
    requires forall k :: 0 <= k < |w| ==> IsWordChar(w[k])
    requires q == [] || !IsWordChar(q[0])
    ensures WordRun(w + q) == |w|
    decreases |w|
  {
    if w == [] {
      assert w + q == q;
    } else {
      assert (w + q)[1..] == w[1..] + q;
      WordRunOfWord(w[1..], q);
    }
  }

  lemma {:induction false} ReplaceAllSkip(p: string, t: string, pat: string, rep: string)
    requires pat != [] && pat[0] !in p
    ensures ReplaceAll(p + t, pat, rep) == p + ReplaceAll(t, pat, rep)
    decreases |p|
  {
    if p != [] {
      var s := p + t;
      assert p[0] in p;
      assert s[1..] == p[1..] + t;
      assert pat[0] !in p[1..] by { assert forall c :: c in p[1..] ==> c in p; }
      ReplaceAllSkip(p[1..], t, pat, rep);
      assert [p[0]] + p[1..] == p;
      if |s| < |pat| {
        assert |t| < |pat|;
      } else {
        assert s[0] == p[0] != pat[0];
        assert !(pat <= s);
      }
    } else {
      assert p + t == t;
    }
  }

  lemma CodeThenPlain(code: string, q: string)
    requires code != [] && code[0] == '%' && '%' !in q
    requires WordRun(code[1..] + q) == |code| - 1
    ensures Codes(code + q) == [code]
  {
    var s := code + q;
    assert s[0] == '%';
    assert s[1..] == code[1..] + q;
    assert s[..|code|] == code;
    assert s[|code|..] == q;
    CodesOfPlain(q);
  }

  /** The only code of plain text around one code is that code. */
  lemma CodesOfOneCode(p: string, w: string, q: string)
    requires '%' !in p && '%' !in q
    requires forall k :: 0 <= k < |w| ==> IsWordChar(w[k])
    requires q == [] || !IsWordChar(q[0])
    ensures Codes(p + "%" + w + q) == ["%" + w]
  {
    calc {
      Codes(p + "%" + w + q);
      == { assert p + "%" + w + q == p + ("%" + w + q); }
      Codes(p + ("%" + w + q));
      == { CodesSkipPlain(p, "%" + w + q); }
      Codes("%" + w + q);
      == { CodesOfCode(w, q); }
      ["%" + w];
    }
  }

  /** A code followed by plain text is the text's only code. */
  lemma CodesOfCode(w: string, q: string)
    requires '%' !in q
    requires forall k :: 0 <= k < |w| ==> IsWordChar(w[k])
    requires q == [] || !IsWordChar(q[0])
    ensures Codes("%" + w + q) == ["%" + w]
  {
    var code := "%" + w;
    assert code[0] == '%' && code[1..] == w;
    WordRunOfWord(w, q);
    CodeThenPlain(code, q);
  }

  lemma ReplaceOneCode(p: string, code: string, q: string, rep: string)
    requires code != [] && code[0] == '%' && '%' !in p && '%' !in q
    ensures ReplaceAll(p + code + q, code, rep) == p + rep + q
  {
    assert p + code + q == p + (code + q);
    ReplaceAllSkip(p, code + q, code, rep);
    assert code <= code + q;
    assert (code + q)[|code|..] == q;
    AbsentChar(q, code, '%');
    ReplaceAllAbsent(q, code, rep);
  }

  /** A known code between plain text is replaced by its pattern, and
      nothing else changes. */
  lemma OneCodeReplaced(p: string, w: string, q: string, rep: string)
    requires '%' !in p && '%' !in q
    requires forall k :: 0 <= k < |w| ==> IsWordChar(w[k])
    requires q == [] || !IsWordChar(q[0])
    requires RegexCode("%" + w) == Some(rep)
    ensures GenerateRegex(p + "%" + w + q) == p + rep + q
  {
    var code := "%" + w;
    var s := p + "%" + w + q;
    CodesOfOneCode(p, w, q);
    assert s == p + code + q;
    ReplaceOneCode(p, code, q, rep);
    assert SubstituteCodes(s, [code]) == SubstituteCodes(ReplaceAll(s, code, rep), []);
  }

  // ---------------------------------------------------------------------------
  // determine_regex_from_chat
  // ---------------------------------------------------------------------------

  /** The regex engine and the date library, as the parser uses them: whether
      re.match succeeds, the groupdict of the match, and convert_to_iso8601. */
  datatype Engine = Engine(matches: (string, string) -> bool, groups: (string, string) -> OMap<string>, iso: string -> string)

  /** The position of the first regex, in list order, from j on that matches the line. */
  function FirstMatchFrom(matches: (string, string) -> bool, regexes: seq<string>, line: string, j: nat): (r: Option<nat>)
    requires j <= |regexes|
    ensures r.Some? ==> j <= r.value < |regexes| && matches(regexes[r.value], line)
    ensures r.Some? ==> forall k :: j <= k < r.value ==> !matches(regexes[k], line)
    ensures r.None? ==> forall k :: j <= k < |regexes| ==> !matches(regexes[k], line)
    decreases |regexes| - j
  {
    if j == |regexes| then None
    else if matches(regexes[j], line) then Some(j)
    else FirstMatchFrom(matches, regexes, line, j + 1)
  }

  function FirstMatch(matches: (string, string) -> bool, regexes: seq<string>, line: string): Option<nat> {
    FirstMatchFrom(matches, regexes, line, 0)
  }

  /** The first line from i on that some regex matches. */
  function EarliestMatchFrom(matches: (string, string) -> bool, regexes: seq<string>, lines: seq<string>, i: nat): (r: Option<nat>)
    requires i <= |lines|
    ensures r.Some? ==> i <= r.value < |lines| && FirstMatch(matches, regexes, lines[r.value]).Some?
    ensures r.Some? ==> forall k :: i <= k < r.value ==> FirstMatch(matches, regexes, lines[k]).None?
    ensures r.None? ==> forall k :: i <= k < |lines| ==> FirstMatch(matches, regexes, lines[k]).None?
    decreases |lines| - i
  {
    if i == |lines| then None
    else if FirstMatch(matches, regexes, lines[i]).Some? then Some(i)
    else EarliestMatchFrom(matches, regexes, lines, i + 1)
  }

  /** determine_regex_from_chat: the first regex that matches the earliest
      line any regex matches; raises when none does. */
  function DetermineRegex(matches: (string, string) -> bool, regexes: seq<string>, lines: seq<string>): Result<string> {
    match EarliestMatchFrom(matches, regexes, lines, 0)
    case None => Failure
    case Some(i) => Ok(regexes[FirstMatch(matches, regexes, lines[i]).value])
  }

  /** It raises exactly when no regex matches any line; otherwise its regex
      matches line i, no regex matches a line before i, and no earlier regex
      matches line i. */
  lemma DetermineRegexSpec(matches: (string, string) -> bool, regexes: seq<string>, lines: seq<string>)
    ensures DetermineRegex(matches, regexes, lines).Failure? <==>
      forall i, j :: 0 <= i < |lines| && 0 <= j < |regexes| ==> !matches(regexes[j], lines[i])
    ensures DetermineRegex(matches, regexes, lines).Ok? ==>
      exists i, j :: 0 <= i < |lines| && 0 <= j < |regexes| &&
        DetermineRegex(matches, regexes, lines).value == regexes[j] && matches(regexes[j], lines[i]) &&
        (forall k :: 0 <= k < j ==> !matches(regexes[k], lines[i])) &&
        (forall i', k :: 0 <= i' < i && 0 <= k < |regexes| ==> !matches(regexes[k], lines[i']))
  {
    var e := EarliestMatchFrom(matches, regexes, lines, 0);
    if e.None? {
      forall i, j | 0 <= i < |lines| && 0 <= j < |regexes| ensures !matches(regexes[j], lines[i]) {
        assert FirstMatch(matches, regexes, lines[i]).None?;
      }
    } else {
      var i := e.value;
      var j := FirstMatch(matches, regexes, lines[i]).value;
      forall i', k | 0 <= i' < i && 0 <= k < |regexes| ensures !matches(regexes[k], lines[i']) {
        assert FirstMatch(matches, regexes, lines[i']).None?;
      }
      assert matches(regexes[j], lines[i]);
    }
  }

  /** determine_regex_from_chat, run: lines in order, regexes in order, and
      the first match returned; the guard index > len(lines) never holds. */
  method DetermineRegexFromChat(matches: (string, string) -> bool, regexes: seq<string>, lines: seq<string>) returns (r: Result<string>)
    ensures r == DetermineRegex(matches, regexes, lines)
  {
    for index := 0 to |lines|
      invariant forall i :: 0 <= i < index ==> FirstMatch(matches, regexes, lines[i]).None?
    {
      for j := 0 to |regexes|
        invariant forall k :: 0 <= k < j ==> !matches(regexes[k], lines[index])
      {
        if matches(regexes[j], lines[index]) {
          assert FirstMatch(matches, regexes, lines[index]) == Some(j);
          assert EarliestMatchFrom(matches, regexes, lines, 0) == Some(index);
          return Ok(regexes[j]);
        }
      }
    }
    return Failure;
  }

  // ---------------------------------------------------------------------------
  // construct_message and parse_chat
  // ---------------------------------------------------------------------------

  /** A continuation line appended to the message with a space, and every
      newline of the result turned into a space. */
  function JoinLine(current: string, next: string): string {
    ReplaceAll(current + " " + next, "\n", " ")
  }

  lemma {:induction false} NoNewlineLeft(s: string)
    ensures '\n' !in ReplaceAll(s, "\n", " ")
    decreases |s|
  {
    if |s| >= 1 {
      if "\n" <= s {
        NoNewlineLeft(s[1..]);
      } else {
        assert s[0] != '\n';
        NoNewlineLeft(s[1..]);
      }
    }
  }

  /** A joined message holds no newline. */
  lemma JoinedHasNoNewline(current: string, next: string)
    ensures '\n' !in JoinLine(current, next)
  {
    NoNewlineLeft(current + " " + next);
  }

  /** construct_message: whether the next line starts a message, and the
      message text, extended by the next line when it does not. */
  function ConstructMessage(matches: (string, string) -> bool, current: string, next: string, regex: string): (bool, string) {
    if matches(regex, next) then (true, current) else (false, JoinLine(current, next))
  }

  /** The texts parse_chat hands to create_data_point_from_chat. The message
      being built starts with line cur and reads chat so far; rest are the
      lines not popped yet. A line the regex matches closes the message and
      starts the next one; when the lines run out, the first line of the open
      message is emitted, and what was joined to it is lost. */
  function Chats(matches: (string, string) -> bool, regex: string, cur: string, chat: string, rest: seq<string>): seq<string>
    decreases |rest|
  {
    if rest == [] then [cur]
    else if matches(regex, rest[0]) then [chat] + Chats(matches, regex, rest[0], rest[0], rest[1..])
    else Chats(matches, regex, cur, JoinLine(chat, rest[0]), rest[1..])
  }

  /** The message text after its continuation lines are joined on. */
  function JoinAll(chat: string, conts: seq<string>): string
    decreases |conts|
  {
    if conts == [] then chat else JoinAll(JoinLine(chat, conts[0]), conts[1..])
  }

  function CountMatching(matches: (string, string) -> bool, regex: string, lines: seq<string>): (n: nat)
    ensures n <= |lines|
    decreases |lines|
  {
    if lines == [] then 0
    else (if matches(regex, lines[0]) then 1 else 0) + CountMatching(matches, regex, lines[1..])
  }

  /** One text per line the regex matches, plus the one that is open at the end. */
  lemma {:induction false} ChatsCount(matches: (string, string) -> bool, regex: string, cur: string, chat: string, rest: seq<string>)
    ensures |Chats(matches, regex, cur, chat, rest)| == 1 + CountMatching(matches, regex, rest)
    decreases |rest|
  {
    if rest != [] {
      if matches(regex, rest[0]) {
        ChatsCount(matches, regex, rest[0], rest[0], rest[1..]);
      } else {
        ChatsCount(matches, regex, cur, JoinLine(chat, rest[0]), rest[1..]);
      }
    }
  }

  /** Lines the regex does not match, followed by one it matches, make one
      message: the text so far with those lines joined on. */
  lemma {:induction false} ContinuationJoined(matches: (string, string) -> bool, regex: string, cur: string, chat: string,
                                             conts: seq<string>, m: string, rest: seq<string>)
    requires forall i :: 0 <= i < |conts| ==> !matches(regex, conts[i])
    requires matches(regex, m)
    ensures Chats(matches, regex, cur, chat, conts + [m] + rest) == [JoinAll(chat, conts)] + Chats(matches, regex, m, m, rest)
    decreases |conts|
  {
    var all := conts + [m] + rest;
    if conts == [] {
      assert all == [m] + rest;
      assert all[1..] == rest;
    } else {
      assert all[0] == conts[0];
      assert all[1..] == conts[1..] + [m] + rest;
      ContinuationJoined(matches, regex, cur, JoinLine(chat, conts[0]), conts[1..], m, rest);
    }
  }

  /** When the file ends in lines the regex does not match, only the first
      line of the last message is emitted. */
  lemma {:induction false} TrailingContinuationDropped(matches: (string, string) -> bool, regex: string, cur: string, chat: string,
                                                      conts: seq<string>)
    requires forall i :: 0 <= i < |conts| ==> !matches(regex, conts[i])
    ensures Chats(matches, regex, cur, chat, conts) == [cur]
    decreases |conts|
  {
    if conts != [] {
      TrailingContinuationDropped(matches, regex, cur, JoinLine(chat, conts[0]), conts[1..]);
    }
  }

  /** A row of the chat table. */
  datatype Datapoint = Datapoint(date: string, name: string, chatMessage: string)

  /** create_data_point_from_chat: the empty datapoint when the regex does not
      match; otherwise the date built from the year, month, day, hour and
      minutes groups, and the name and message groups, each "" when missing. */
  function CreateDatapoint(e: Engine, regex: string, chat: string): (d: Datapoint)
    ensures !e.matches(regex, chat) ==> d == Datapoint("", "", "")
    ensures e.matches(regex, chat) ==>
      d.name == Get(e.groups(regex, chat), "name").GetOr("") &&
      d.chatMessage == Get(e.groups(regex, chat), "chat_message").GetOr("")
  {
    if !e.matches(regex, chat) then Datapoint("", "", "")
    else
      var g := e.groups(regex, chat);
      var stamp := Get(g, "year").GetOr("") + "-" + Get(g, "month").GetOr("") + "-" + Get(g, "day").GetOr("") + " " +
        Get(g, "hour").GetOr("") + ":" + Get(g, "minutes").GetOr("");
      Datapoint(e.iso(stamp), Get(g, "name").GetOr(""), Get(g, "chat_message").GetOr(""))
  }

  /** One datapoint per text, in order. */
  function DatapointsOf(e: Engine, regex: string, chats: seq<string>): (dps: seq<Datapoint>)
    ensures |dps| == |chats|
    ensures forall i :: 0 <= i < |chats| ==> dps[i] == CreateDatapoint(e, regex, chats[i])
  {
    if chats == [] then []
    else DatapointsOf(e, regex, chats[..|chats| - 1]) + [CreateDatapoint(e, regex, chats[|chats| - 1])]
  }

  /** parse_chat after read_chat_file: the regex of the chat, then the
      datapoints of its messages; fewer than two lines, or no regex, give no
      datapoint (the handler returns DataFrame(out) with out still empty). */
  function ParseLines(e: Engine, regexes: seq<string>, lines: seq<string>): seq<Datapoint> {
    match DetermineRegex(e.matches, regexes, lines)
    case Failure => []
    case Ok(regex) =>
      if |lines| < 2 then []
      else DatapointsOf(e, regex, Chats(e.matches, regex, lines[0], lines[0], lines[1..]))
  }

  /** parse_chat: a chat file that cannot be read gives no datapoint either. */
  function ParseChat(e: Engine, regexes: seq<string>, read: Result<seq<string>>): seq<Datapoint> {
    match read
    case Failure => []
    case Ok(lines) => ParseLines(e, regexes, lines)
  }

  /** A chat gives datapoints exactly when it has two lines or more and some
      regex matches one of them; there is then one datapoint per line after
      the first that the chosen regex matches, plus one. */
  lemma ParseLinesSpec(e: Engine, regexes: seq<string>, lines: seq<string>)
    ensures ParseLines(e, regexes, lines) != [] <==>
      |lines| >= 2 && exists i, j :: 0 <= i < |lines| && 0 <= j < |regexes| && e.matches(regexes[j], lines[i])
    ensures ParseLines(e, regexes, lines) != [] ==>
      |ParseLines(e, regexes, lines)| == 1 + CountMatching(e.matches, DetermineRegex(e.matches, regexes, lines).value, lines[1..])
  {
    DetermineRegexSpec(e.matches, regexes, lines);
    var d := DetermineRegex(e.matches, regexes, lines);
    if d.Ok? && |lines| >= 2 {
      ChatsCount(e.matches, d.value, lines[0], lines[0], lines[1..]);
    }
  }

  /** The datapoints of texts with one more at the end. */
  lemma DatapointsSnoc(e: Engine, regex: string, done: seq<string>, chat: string)
    ensures DatapointsOf(e, regex, done + [chat]) == DatapointsOf(e, regex, done) + [CreateDatapoint(e, regex, chat)]
  {
    assert (done + [chat])[..|done|] == done;
  }

  /** parse_chat's inner loop: pop the next line of pending and join
      continuation lines onto the message whose first line is current until
      one the regex matches. Either the lines run out (ended, and the message
      is cut back to its first line) or the message chat is closed and next,
      the matching line, opens the next one with rest left to pop. */
  method JoinContinuations(matches: (string, string) -> bool, regex: string, current: string, pending: seq<string>)
    returns (ended: bool, chat: string, next: string, rest: seq<string>)
    requires pending != []
    ensures |rest| < |pending|
    ensures ended ==> Chats(matches, regex, current, current, pending) == [current]
    ensures !ended ==> Chats(matches, regex, current, current, pending) == [chat] + Chats(matches, regex, next, next, rest)
  {
    next, rest := pending[0], pending[1..];
    var m: bool;
    m, chat := ConstructMessage(matches, current, next, regex).0, ConstructMessage(matches, current, next, regex).1;
    while !m
      invariant |rest| < |pending|
      invariant !m ==> Chats(matches, regex, current, current, pending) == Chats(matches, regex, current, chat, rest)
      invariant m ==> Chats(matches, regex, current, current, pending) == [chat] + Chats(matches, regex, next, next, rest)
      decreases |rest|
    {
      if rest == [] {
        ended := true;
        return;
      }
      next, rest := rest[0], rest[1..];
      m, chat := ConstructMessage(matches, chat, next, regex).0, ConstructMessage(matches, chat, next, regex).1;
    }
    ended := false;
  }

  /** The lines run out inside the open message: its first line is the
      last text. */
  lemma EmitLast(e: Engine, regex: string, done: seq<string>, cur: string, lines: seq<string>, all: seq<string>)
    requires done + Chats(e.matches, regex, cur, cur, lines) == all
    requires Chats(e.matches, regex, cur, cur, lines) == [cur]
    ensures DatapointsOf(e, regex, done) + [CreateDatapoint(e, regex, cur)] == DatapointsOf(e, regex, all)
  {
    DatapointsSnoc(e, regex, done, cur);
  }

  /** A message is closed by the very last line, which is then the last
      text. */
  lemma EmitPair(e: Engine, regex: string, done: seq<string>, cur: string, lines: seq<string>, all: seq<string>,
                 chat: string, next: string)
    requires done + Chats(e.matches, regex, cur, cur, lines) == all
    requires Chats(e.matches, regex, cur, cur, lines) == [chat] + Chats(e.matches, regex, next, next, [])
    ensures DatapointsOf(e, regex, done) + [CreateDatapoint(e, regex, chat), CreateDatapoint(e, regex, next)] == DatapointsOf(e, regex, all)
  {
    assert Chats(e.matches, regex, next, next, []) == [next];
    assert all == (done + [chat]) + [next];
    DatapointsSnoc(e, regex, done, chat);
    DatapointsSnoc(e, regex, done + [chat], next);
  }

  /** A message is closed and lines are left: the loop goes on from the
      line that closed it. */
  lemma EmitStep(e: Engine, regex: string, done: seq<string>, cur: string, lines: seq<string>, all: seq<string>,
                 chat: string, next: string, rest: seq<string>)
    requires done + Chats(e.matches, regex, cur, cur, lines) == all
    requires Chats(e.matches, regex, cur, cur, lines) == [chat] + Chats(e.matches, regex, next, next, rest)
    ensures (done + [chat]) + Chats(e.matches, regex, next, next, rest) == all
    ensures DatapointsOf(e, regex, done + [chat]) == DatapointsOf(e, regex, done) + [CreateDatapoint(e, regex, chat)]
  {
    AppendRegroup(done, chat, Chats(e.matches, regex, next, next, rest));
    DatapointsSnoc(e, regex, done, chat);
  }

  lemma AppendRegroup(done: seq<string>, chat: string, tail: seq<string>)
    ensures (done + [chat]) + tail == done + ([chat] + tail)
  {
  }

  /** parse_chat's outer loop: from the message whose first line is current,
      with the lines of pending still to pop, append one datapoint per text
      the chat yields; when a pop finds no line left, the current line is
      appended and the loop ends. */
  method EmitDatapoints(e: Engine, regex: string, current: string, pending: seq<string>) returns (out: seq<Datapoint>)
    requires pending != []
    ensures out == DatapointsOf(e, regex, Chats(e.matches, regex, current, current, pending))
  {
    out := [];
    var cur, lines := current, pending;
    ghost var done: seq<string> := [];
    ghost var all := Chats(e.matches, regex, current, current, pending);
    while true
      invariant lines != []
      invariant out == DatapointsOf(e, regex, done)
      invariant done + Chats(e.matches, regex, cur, cur, lines) == all
      decreases |lines|
    {
      var ended, chat, next, rest := JoinContinuations(e.matches, regex, cur, lines);
      if ended {
        EmitLast(e, regex, done, cur, lines, all);
        out := out + [CreateDatapoint(e, regex, cur)];
        return;
      }
      if rest == [] {
        EmitPair(e, regex, done, cur, lines, all, chat, next);
        out := out + [CreateDatapoint(e, regex, chat), CreateDatapoint(e, regex, next)];
        return;
      }
      EmitStep(e, regex, done, cur, lines, all, chat, next, rest);
      out := out + [CreateDatapoint(e, regex, chat)];
      done := done + [chat];
      cur := next;
      lines := rest;
    }
  }

  /** parse_chat's loops, run on the lines read: determine the regex, pop
      the first line and emit the datapoints of the others. */
  method ParseChatLines(e: Engine, regexes: seq<string>, lines: seq<string>) returns (out: seq<Datapoint>)
    ensures out == ParseLines(e, regexes, lines)
  {
    out := [];
    var found := DetermineRegexFromChat(e.matches, regexes, lines);
    if found.Failure? { return; }
    var regex := found.value;
    if |lines| < 2 { return; }
    out := EmitDatapoints(e, regex, lines[0], lines[1..]);
  }

  /** pd.DataFrame(out): no columns when out is empty, otherwise the three
      keys of a datapoint. */
  function ChatFrame(dps: seq<Datapoint>): (f: Frame)
    ensures f.Empty() <==> dps == []
    ensures dps != [] ==> f.columns == ["date", "name", "chat_message"] && |f.rows| == |dps|
  {
    if dps == [] then Frame([], [])
    else Frame(["date", "name", "chat_message"],
      seq(|dps|, i requires 0 <= i < |dps| => [JStr(dps[i].date), JStr(dps[i].name), JStr(dps[i].chatMessage)]))
  }
}
