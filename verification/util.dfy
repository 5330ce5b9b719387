// Helpers the figures share: reading a table column, splitting text into
// tokens, the domain of a list of numbers, the automatic date granularity
// and the domain of a URL.
module VizUtil {
  import opened Wrappers
  import opened Strings
  import opened Sequences
  import opened UiTable

  /** The pseudo-column that counts rows. */
  const CountColumn := ".COUNT"

  /** The position of the first cell equal to the name, if any (findIndex). */
  function FindIndex(cells: seq<string>, name: string): (r: Option<nat>)
    ensures r.None? <==> name !in cells
    ensures r.Some? ==> r.value < |cells| && cells[r.value] == name && name !in cells[..r.value]
  {
    if cells == [] then None
    else if cells[0] == name then Some(0)
    else
      match FindIndex(cells[1..], name)
      case None => None
      case Some(i) =>
        assert cells[..i + 1] == [cells[0]] + cells[1..][..i];
        Some(i + 1)
  }

  /** row.cells[index]: None stands for JavaScript's undefined past the end. */
  function CellAt(row: Row, index: nat): Option<string> {
    if index < |row.cells| then Some(row.cells[index]) else None
  }

  /** getTableColumn: "1" per row for the counting column; otherwise each
      row's cell under the first head cell with that name, and an error
      when no head cell has it. */
  function GetTableColumn(table: Table, column: string): (r: Result<seq<Option<string>>>)
    ensures column == CountColumn ==>
      (r.Ok? && |r.value| == |table.rows| && forall k :: 0 <= k < |r.value| ==> r.value[k] == Some("1"))
    ensures column != CountColumn ==> (r.Failure? <==> column !in table.head)
    ensures r.Ok? ==> |r.value| == |table.rows|
  {
    if column == CountColumn then Ok(seq(|table.rows|, _ => Some("1")))
    else
      match FindIndex(table.head, column)
      case None => Failure
      case Some(c) => Ok(seq(|table.rows|, k requires 0 <= k < |table.rows| => CellAt(table.rows[k], c)))
  }

  /** Reading an ordinary column: row k gives its cell at the first head
      position carrying the column name, or undefined if the row is short. */
  lemma GetTableColumnCells(table: Table, column: string, c: nat, k: nat)
    requires column != CountColumn
    requires c < |table.head| && table.head[c] == column && column !in table.head[..c]
    requires k < |table.rows|
    ensures GetTableColumn(table, column).Ok?
    ensures GetTableColumn(table, column).value[k] ==
      (if c < |table.rows[k].cells| then Some(table.rows[k].cells[c]) else None)
  {
  }

  /** A token is kept when it holds at least one letter. */
  predicate HasLetter(token: string, letter: char -> bool) {
    exists i :: 0 <= i < |token| && letter(token[i])
  }

  function KeepLettered(letter: char -> bool): string -> Option<string> {
    t => if HasLetter(t, letter) then Some(t) else None
  }

  /** tokenize: the parts between single spaces that hold a letter, in order. */
  function Tokenize(text: string, letter: char -> bool): (tokens: seq<string>)
    ensures forall k :: 0 <= k < |tokens| ==> ' ' !in tokens[k] && HasLetter(tokens[k], letter)
  {
    var parts := Split(text, ' ');
    var tokens := FilterMap(parts, KeepLettered(letter));
    FilterMapFrom(parts, KeepLettered(letter));
    forall k | 0 <= k < |tokens| ensures ' ' !in tokens[k] && HasLetter(tokens[k], letter) {
      assert tokens[k] in tokens;
      var i :| 0 <= i < |parts| && KeepLettered(letter)(parts[i]) == Some(tokens[k]);
    }
    tokens
  }

  /** A string is a token exactly when it is a space-separated part that holds a letter. */
  lemma TokenizeMember(text: string, letter: char -> bool, t: string)
    ensures t in Tokenize(text, letter) <==> t in Split(text, ' ') && HasLetter(t, letter)
  {
    var parts := Split(text, ' ');
    FilterMapFrom(parts, KeepLettered(letter));
    if t in parts && HasLetter(t, letter) {
      var i :| 0 <= i < |parts| && parts[i] == t;
      FilterMapMember(parts, i, KeepLettered(letter));
    }
  }

  /** When every part holds a letter nothing is dropped: joining the tokens
      with single spaces gives the text back. */
  lemma TokenizeKeepsLetteredText(text: string, letter: char -> bool)
    requires forall k :: 0 <= k < |Split(text, ' ')| ==> HasLetter(Split(text, ' ')[k], letter)
    ensures Join(Tokenize(text, letter), " ") == text
  {
    var parts := Split(text, ' ');
    FilterMapAll(parts, KeepLettered(letter));
    JoinSplit(text, ' ');
  }

  /** FilterMap over a list every element of which yields itself is the list. */
  lemma {:induction false} FilterMapAll(parts: seq<string>, f: string -> Option<string>)
    requires forall k :: 0 <= k < |parts| ==> f(parts[k]) == Some(parts[k])
    ensures FilterMap(parts, f) == parts
  {
    if parts != [] {
      var init := parts[..|parts| - 1];
      assert forall k :: 0 <= k < |init| ==> init[k] == parts[k];
      FilterMapAll(init, f);
    }
  }

  /** The smallest of a non-empty list. */
  function MinOf(xs: seq<int>): (m: int)
    requires xs != []
    ensures m in xs && forall k :: 0 <= k < |xs| ==> m <= xs[k]
  {
    if |xs| == 1 then xs[0]
    else
      var m := MinOf(xs[1..]);
      assert forall k :: 1 <= k < |xs| ==> xs[k] == xs[1..][k - 1];
      if xs[0] <= m then xs[0] else m
  }

  /** The largest of a non-empty list. */
  function MaxOf(xs: seq<int>): (m: int)
    requires xs != []
    ensures m in xs && forall k :: 0 <= k < |xs| ==> xs[k] <= m
  {
    if |xs| == 1 then xs[0]
    else
      var m := MaxOf(xs[1..]);
      assert forall k :: 1 <= k < |xs| ==> xs[k] == xs[1..][k - 1];
      if xs[0] >= m then xs[0] else m
  }

  /** [min, max] of the numbers; None stands for the pair of undefineds an
      empty list gives. */
  function Domain(numbers: seq<int>): (r: Option<(int, int)>)
    ensures r.None? <==> numbers == []
    ensures r.Some? ==> r.value.0 in numbers && r.value.1 in numbers
    ensures r.Some? ==> forall k :: 0 <= k < |numbers| ==> r.value.0 <= numbers[k] <= r.value.1
  {
    if numbers == [] then None else Some((MinOf(numbers), MaxOf(numbers)))
  }

  /** getDomain: one pass that lowers the minimum and raises the maximum. */
  method GetDomain(numbers: seq<int>) returns (r: Option<(int, int)>)
    ensures r == Domain(numbers)
  {
    if numbers == [] {
      return None;
    }
    var min := numbers[0];
    var max := numbers[0];
    for i := 0 to |numbers|
      invariant min in numbers && max in numbers
      invariant forall k :: 0 <= k < i ==> min <= numbers[k] <= max
      invariant min <= numbers[0] <= max
    {
      if numbers[i] < min {
        min := numbers[i];
      }
      if numbers[i] > max {
        max := numbers[i];
      }
    }
    r := Some((min, max));
  }

  datatype DateFormat =
    | Auto | Year | Quarter | Month | DayFormat | Hour
    | MonthCycle | WeekdayCycle | HourCycle

  /** Milliseconds in a day. */
  const DayMillis := 1000 * 60 * 60 * 24

  /** autoFormatDate: start at hours and let each longer granularity whose
      threshold the span exceeds overwrite the choice; an empty list makes
      every comparison with undefined false, so it stays at hours. */
  function AutoFormatDate(numbers: seq<int>, minValues: int): (r: DateFormat)
    ensures r in {Hour, DayFormat, Month, Quarter, Year}
    ensures numbers == [] ==> r == Hour
  {
    match Domain(numbers)
    case None => Hour
    case Some((minTime, maxTime)) =>
      var span := maxTime - minTime;
      var f := Hour;
      var f := if span > DayMillis * minValues then DayFormat else f;
      var f := if span > DayMillis * 30 * minValues then Month else f;
      var f := if span > DayMillis * 30 * 3 * minValues then Quarter else f;
      if span > DayMillis * 365 * minValues then Year else f
  }

  /** For a non-negative minValues the granularity is the longest whose
      threshold (minValues days, months of 30 days, quarters of 90 days,
      years of 365 days) the span exceeds. */
  lemma AutoFormatDateThresholds(numbers: seq<int>, minValues: int)
    requires numbers != [] && minValues >= 0
    ensures var span := MaxOf(numbers) - MinOf(numbers);
      && (AutoFormatDate(numbers, minValues) == Year <==> span > 365 * DayMillis * minValues)
      && (AutoFormatDate(numbers, minValues) == Quarter <==> 90 * DayMillis * minValues < span <= 365 * DayMillis * minValues)
      && (AutoFormatDate(numbers, minValues) == Month <==> 30 * DayMillis * minValues < span <= 90 * DayMillis * minValues)
      && (AutoFormatDate(numbers, minValues) == DayFormat <==> DayMillis * minValues < span <= 30 * DayMillis * minValues)
      && (AutoFormatDate(numbers, minValues) == Hour <==> span <= DayMillis * minValues)
  {
    var d := DayMillis * minValues;
    assert DayMillis * 30 * minValues == 30 * d;
    assert DayMillis * 30 * 3 * minValues == 90 * d;
    assert DayMillis * 365 * minValues == 365 * d;
  }

  /** s without the prefix p when it starts with it (a replace anchored at ^). */
  function StripPrefix(s: string, p: string): (r: string)
    ensures p <= s ==> s == p + r
    ensures !(p <= s) ==> r == s
  {
    if p <= s then s[|p|..] else s
  }

  /** extractUrlDomain: the host name without a leading "www." and then
      without a leading "m.", or the input itself when it is not a URL,
      trimmed in both cases. The URL parser is the parameter hostname. */
  function ExtractUrlDomain(x: string, hostname: string -> Option<string>): (r: string)
    ensures hostname(x).None? ==> r == JsTrim(x)
    ensures |r| <= if hostname(x).Some? then |hostname(x).value| else |x|
  {
    match hostname(x)
    case None => JsTrim(x)
    case Some(h) => JsTrim(StripPrefix(StripPrefix(h, "www."), "m."))
  }

  /** A host name read as an optional "www.", an optional "m." and the rest,
      taking each prefix whenever it is there, yields the trimmed rest. */
  lemma ExtractUrlDomainPrefixes(x: string, hostname: string -> Option<string>, www: string, m: string, rest: string)
    requires hostname(x) == Some(www + m + rest)
    requires www == "" || www == "www."
    requires m == "" || m == "m."
    requires www == "" ==> !("www." <= m + rest)
    requires m == "" ==> !("m." <= rest)
    ensures ExtractUrlDomain(x, hostname) == JsTrim(rest)
  {
    var h := www + m + rest;
    if www == "www." {
      assert h == www + (m + rest);
      StripPrefixOf(www, m + rest);
    } else {
      assert h == m + rest;
    }
    if m == "m." {
      StripPrefixOf(m, rest);
    } else {
      assert m + rest == rest;
    }
  }

  lemma StripPrefixOf(p: string, s: string)
    ensures StripPrefix(p + s, p) == s
  {
    assert p <= p + s;
  }
}
