// The string operations the pipeline leans on (Python str methods and their
// JavaScript counterparts), written out over seq<char>.
module Strings {
  import opened Wrappers

  predicate IsSuffix(suffix: string, s: string) {
    |suffix| <= |s| && s[|s| - |suffix|..] == suffix
  }

  /** sub occurs in s starting at position j. */
  predicate OccursAt(s: string, sub: string, j: nat) {
    j + |sub| <= |s| && s[j..j + |sub|] == sub
  }

  /** What does not occur at j in a text does not occur there in its prefix either. */
  lemma AbsentFromPrefix(p: string, s: string, sub: string, j: nat)
    requires p <= s && !OccursAt(s, sub, j)
    ensures !OccursAt(p, sub, j)
  {
    if j + |sub| <= |p| {
      assert p[j..j + |sub|] == s[j..j + |sub|];
    }
  }

  /** Position of the first occurrence of sub in s (str.find / indexOf). */
  function IndexOf(s: string, sub: string): (r: Option<nat>)
    ensures r.Some? ==> OccursAt(s, sub, r.value)
    ensures r.Some? ==> forall j: nat :: j < r.value ==> !OccursAt(s, sub, j)
    ensures r.None? ==> forall j: nat :: !OccursAt(s, sub, j)
    decreases |s|
  {
    if |s| < |sub| then None
    else if sub <= s then Some(0)
    else
      assert !OccursAt(s, sub, 0);
      assert forall j: nat :: j >= 1 ==> OccursAt(s, sub, j) == OccursAt(s[1..], sub, j - 1);
      match IndexOf(s[1..], sub)
      case None => None
      case Some(i) => Some(i + 1)
  }

  /** IndexOf finds the first occurrence: one at i with none before it. */
  lemma IndexOfAt(s: string, sub: string, i: nat)
    requires OccursAt(s, sub, i)
    requires forall j: nat :: j < i ==> !OccursAt(s, sub, j)
    ensures IndexOf(s, sub) == Some(i)
  {
  }

  predicate Contains(s: string, sub: string) {
    IndexOf(s, sub).Some?
  }

  /** A pattern holding a character the string lacks cannot occur in it. */
  lemma AbsentChar(s: string, sub: string, c: char)
    requires c in sub && c !in s
    ensures !Contains(s, sub)
  {
    var k :| 0 <= k < |sub| && sub[k] == c;
    forall j: nat ensures !OccursAt(s, sub, j) {
      if j + |sub| <= |s| {
        assert s[j..j + |sub|][k] == s[j + k];
        assert s[j + k] in s;
      }
    }
  }

  /** str.replace(pat, rep, 1): only the first occurrence is replaced. */
  function ReplaceFirst(s: string, pat: string, rep: string): (r: string)
    ensures !Contains(s, pat) ==> r == s
    ensures Contains(s, pat) ==>
      var i := IndexOf(s, pat).value; r == s[..i] + rep + s[i + |pat|..]
  {
    match IndexOf(s, pat)
    case None => s
    case Some(i) => s[..i] + rep + s[i + |pat|..]
  }

  /** str.replace(pat, rep) with a non-empty pat: every non-overlapping
      occurrence, scanning from the left. */
  function ReplaceAll(s: string, pat: string, rep: string): (r: string)
    requires pat != []
    decreases |s|
  {
    if |s| < |pat| then s
    else if pat <= s then rep + ReplaceAll(s[|pat|..], pat, rep)
    else [s[0]] + ReplaceAll(s[1..], pat, rep)
  }

  lemma {:induction false} ReplaceAllAbsent(s: string, pat: string, rep: string)
    requires pat != []
    requires !Contains(s, pat)
    ensures ReplaceAll(s, pat, rep) == s
    decreases |s|
  {
    if |s| >= |pat| {
      assert !OccursAt(s, pat, 0);
      forall j: nat ensures !OccursAt(s[1..], pat, j) {
        assert OccursAt(s[1..], pat, j) == OccursAt(s, pat, j + 1);
      }
      ReplaceAllAbsent(s[1..], pat, rep);
    }
  }

  lemma {:induction false} ReplaceAllSameLength(s: string, pat: string, rep: string)
    requires pat != [] && |rep| == |pat|
    ensures |ReplaceAll(s, pat, rep)| == |s|
    decreases |s|
  {
    if |s| >= |pat| {
      if pat <= s { ReplaceAllSameLength(s[|pat|..], pat, rep); }
      else { ReplaceAllSameLength(s[1..], pat, rep); }
    }
  }

  /** str.split(sep) for a one-character separator: always at least one part. */
  function Split(s: string, sep: char): (parts: seq<string>)
    ensures |parts| >= 1
    ensures forall i :: 0 <= i < |parts| ==> sep !in parts[i]
    decreases |s|
  {
    if sep !in s then [s]
    else
      var i := FirstIndex(s, sep);
      [s[..i]] + Split(s[i + 1..], sep)
  }

  function FirstIndex(s: string, c: char): (i: nat)
    requires c in s
    ensures i < |s| && s[i] == c && c !in s[..i]
  {
    if s[0] == c then 0 else 1 + FirstIndex(s[1..], c)
  }

  /** The first occurrence is the one with none before it. */
  lemma {:induction false} FirstIndexAt(s: string, c: char, j: nat)
    requires j < |s| && s[j] == c && c !in s[..j]
    ensures FirstIndex(s, c) == j
    decreases j
  {
    if j > 0 {
      assert s[..j][0] == s[0];
      assert s[1..][..j - 1] == s[..j][1..];
      FirstIndexAt(s[1..], c, j - 1);
    }
  }

  function Join(parts: seq<string>, sep: string): (r: string)
    decreases |parts|
  {
    if parts == [] then []
    else if |parts| == 1 then parts[0]
    else parts[0] + sep + Join(parts[1..], sep)
  }

  /** Splitting on a character and joining back with it gives the input back. */
  lemma {:induction false} JoinSplit(s: string, sep: char)
    ensures Join(Split(s, sep), [sep]) == s
    decreases |s|
  {
    if sep in s {
      var i := FirstIndex(s, sep);
      var rest := Split(s[i + 1..], sep);
      JoinSplit(s[i + 1..], sep);
      assert Split(s, sep) == [s[..i]] + rest;
      assert ([s[..i]] + rest)[1..] == rest;
      assert s == s[..i] + [sep] + s[i + 1..];
    }
  }

  /** Python's str.isspace: the characters of Unicode category Zs and of
      bidirectional class WS, B or S. */
  predicate IsSpace(c: char) {
    c == ' ' || '\t' <= c <= '\r' || '\U{001C}' <= c <= '\U{001F}' || c == '\U{0085}' || c == '\U{00A0}' ||
    c == '\U{1680}' || '\U{2000}' <= c <= '\U{200A}' || c == '\U{2028}' || c == '\U{2029}' ||
    c == '\U{202F}' || c == '\U{205F}' || c == '\U{3000}'
  }

  /** The characters JavaScript's String.prototype.trim removes: the
      WhiteSpace and LineTerminator productions of ECMAScript, that is tab,
      vertical tab, form feed, the Zs space separators and U+FEFF, and line
      feed, carriage return, U+2028 and U+2029. */
  predicate IsJsSpace(c: char) {
    c == ' ' || '\t' <= c <= '\r' || c == '\U{00A0}' || c == '\U{1680}' || '\U{2000}' <= c <= '\U{200A}' ||
    c == '\U{2028}' || c == '\U{2029}' || c == '\U{202F}' || c == '\U{205F}' || c == '\U{3000}' ||
    c == '\U{FEFF}'
  }

  /** The two sets differ in U+001C..U+001F and U+0085, which only Python
      counts, and U+FEFF, which only JavaScript counts. */
  lemma SpaceSetsDiffer()
    ensures IsSpace('\U{001C}') && !IsJsSpace('\U{001C}')
    ensures IsSpace('\U{0085}') && !IsJsSpace('\U{0085}')
    ensures !IsSpace('\U{FEFF}') && IsJsSpace('\U{FEFF}')
    ensures forall c :: IsJsSpace(c) && c != '\U{FEFF}' ==> IsSpace(c)
  {
  }

  /** str.split() with no argument: the maximal runs of non-space characters. */
  function Words(s: string): (ws: seq<string>)
    ensures forall i :: 0 <= i < |ws| ==> ws[i] != [] && forall c :: c in ws[i] ==> !IsSpace(c)
    decreases |s|
  {
    if s == [] then []
    else if IsSpace(s[0]) then Words(s[1..])
    else
      var n := WordLength(s);
      [s[..n]] + Words(s[n..])
  }

  function WordLength(s: string): (n: nat)
    ensures n <= |s|
    ensures forall k :: 0 <= k < n ==> !IsSpace(s[k])
    ensures n < |s| ==> IsSpace(s[n])
  {
    if s == [] || IsSpace(s[0]) then 0 else 1 + WordLength(s[1..])
  }

  /** A string without a space character is a single word (or none if empty). */
  lemma {:induction false} WordsOfSpaceless(s: string)
    requires forall c :: c in s ==> !IsSpace(c)
    ensures Words(s) == if s == [] then [] else [s]
  {
    if s != [] {
      var n := WordLength(s);
      assert s[..n] == s && s[n..] == [];
    }
  }

  /** JavaScript's String.prototype.trim. */
  function JsTrim(s: string): (r: string)
    ensures |r| <= |s|
    ensures r != [] ==> !IsJsSpace(r[0]) && !IsJsSpace(r[|r| - 1])
    ensures (forall c :: c in s ==> IsJsSpace(c)) <==> r == []
    decreases |s|
  {
    if s == [] then []
    else if IsJsSpace(s[0]) then JsTrim(s[1..])
    else if IsJsSpace(s[|s| - 1]) then JsTrim(s[..|s| - 1])
    else s
  }

  /** Only space characters before i and from j on. */
  ghost predicate SpacesOutside(s: string, i: nat, j: nat)
    requires i <= j <= |s|
  {
    (forall k :: 0 <= k < i ==> IsJsSpace(s[k])) && (forall k :: j <= k < |s| ==> IsJsSpace(s[k]))
  }

  /** What trim keeps is a slice of the input with only space characters
      before and after it. */
  lemma {:induction false} JsTrimSlice(s: string)
    ensures exists i: nat, j: nat :: i <= j <= |s| && JsTrim(s) == s[i..j] && SpacesOutside(s, i, j)
    decreases |s|
  {
    if s == [] {
      assert JsTrim(s) == s[0..0] && SpacesOutside(s, 0, 0);
    } else if IsJsSpace(s[0]) {
      JsTrimSlice(s[1..]);
      var i: nat, j: nat :| i <= j <= |s[1..]| && JsTrim(s[1..]) == s[1..][i..j] && SpacesOutside(s[1..], i, j);
      JsTrimSliceFront(s, i, j);
    } else if IsJsSpace(s[|s| - 1]) {
      JsTrimSlice(s[..|s| - 1]);
      var i: nat, j: nat :| i <= j <= |s| - 1 && JsTrim(s[..|s| - 1]) == s[..|s| - 1][i..j] && SpacesOutside(s[..|s| - 1], i, j);
      JsTrimSliceBack(s, i, j);
    } else {
      assert JsTrim(s) == s[0..|s|] && SpacesOutside(s, 0, |s|);
    }
  }

  lemma JsTrimSliceFront(s: string, i: nat, j: nat)
    requires s != [] && IsJsSpace(s[0])
    requires i <= j <= |s| - 1 && JsTrim(s[1..]) == s[1..][i..j] && SpacesOutside(s[1..], i, j)
    ensures JsTrim(s) == s[i + 1..j + 1] && SpacesOutside(s, i + 1, j + 1)
  {
    assert s[1..][i..j] == s[i + 1..j + 1];
    OutsideShifts(s, s[1..], i, j, IsJsSpace);
  }

  lemma JsTrimSliceBack(s: string, i: nat, j: nat)
    requires s != [] && IsJsSpace(s[|s| - 1]) && JsTrim(s) == JsTrim(s[..|s| - 1])
    requires i <= j <= |s| - 1 && JsTrim(s[..|s| - 1]) == s[..|s| - 1][i..j] && SpacesOutside(s[..|s| - 1], i, j)
    ensures JsTrim(s) == s[i..j] && SpacesOutside(s, i, j)
  {
    assert s[..|s| - 1][i..j] == s[i..j];
    OutsideExtends(s, s[..|s| - 1], i, j, IsJsSpace);
  }

  /** p holding before i and from j on in the tail of s, and at its head,
      holds before i + 1 and from j + 1 on in s. */
  lemma OutsideShifts(s: string, tail: string, i: nat, j: nat, p: char -> bool)
    requires s != [] && tail == s[1..] && i <= j <= |tail| && p(s[0])
    requires forall k :: 0 <= k < i ==> p(tail[k])
    requires forall k :: j <= k < |tail| ==> p(tail[k])
    ensures forall k :: 0 <= k < i + 1 ==> p(s[k])
    ensures forall k :: j + 1 <= k < |s| ==> p(s[k])
  {
    forall k | 0 <= k < i + 1 ensures p(s[k]) {
      if k > 0 {
        assert p(tail[k - 1]);
      }
    }
    forall k | j + 1 <= k < |s| ensures p(s[k]) {
      assert p(tail[k - 1]);
    }
  }

  /** p holding before i and from j on in all of s but its last character,
      and at that character, holds before i and from j on in s. */
  lemma OutsideExtends(s: string, init: string, i: nat, j: nat, p: char -> bool)
    requires s != [] && init == s[..|s| - 1] && i <= j <= |init| && p(s[|s| - 1])
    requires forall k :: 0 <= k < i ==> p(init[k])
    requires forall k :: j <= k < |init| ==> p(init[k])
    ensures forall k :: 0 <= k < i ==> p(s[k])
    ensures forall k :: j <= k < |s| ==> p(s[k])
  {
    forall k | j <= k < |s| ensures p(s[k]) {
      if k < |init| {
        assert p(init[k]);
        assert s[k] == init[k];
      } else {
        assert k == |s| - 1;
      }
    }
    assert forall k :: 0 <= k < i ==> s[k] == init[k];
  }

  function CountChar(s: string, c: char): (n: nat)
    ensures n <= |s|
    ensures n == 0 <==> c !in s
  {
    if s == [] then 0 else (if s[0] == c then 1 else 0) + CountChar(s[1..], c)
  }

  function DigitChar(d: nat): (c: char)
    requires d < 10
  {
    ['0', '1', '2', '3', '4', '5', '6', '7', '8', '9'][d]
  }

  function NatToString(n: nat): (s: string)
    ensures s != []
  {
    if n < 10 then [DigitChar(n)] else NatToString(n / 10) + [DigitChar(n % 10)]
  }

  /** str(n) for a Python int. */
  function IntToString(n: int): (s: string)
    ensures s != []
    ensures (n < 0) <==> s[0] == '-'
  {
    if n < 0 then "-" + NatToString(-n)
    else
      var r := NatToString(n);
      assert r[0] != '-' by { NatToStringDigits(n); assert r[0] in r; }
      r
  }

  lemma {:induction false} NatToStringDigits(n: nat)
    ensures forall c :: c in NatToString(n) ==> '0' <= c <= '9'
  {
    if n >= 10 { NatToStringDigits(n / 10); }
  }

  /** "".join(parts). */
  function Concat(parts: seq<string>): string {
    if parts == [] then [] else parts[0] + Concat(parts[1..])
  }

  /** The first line of a text, with its "\n" when it has one. */
  function FirstLine(s: string): (r: string)
    ensures r <= s
    ensures s != [] ==> r != []
    ensures forall k :: 0 <= k < |r| - 1 ==> r[k] != '\n'
    ensures r != s ==> r != [] && r[|r| - 1] == '\n'
  {
    if '\n' in s then s[..FirstIndex(s, '\n') + 1] else s
  }

  /** readlines() on a text: every line keeps its "\n", the last one may lack it. */
  function Lines(s: string): (ls: seq<string>)
    ensures s == [] <==> ls == []
    decreases |s|
  {
    if s == [] then []
    else
      var first := FirstLine(s);
      [first] + Lines(s[|first|..])
  }

  lemma ConcatCons(x: string, rest: seq<string>)
    ensures Concat([x] + rest) == x + Concat(rest)
  {
    assert ([x] + rest)[1..] == rest;
  }

  /** The lines, joined, give the text back; the first of them is its first line. */
  lemma {:induction false} LinesConcat(s: string)
    ensures Concat(Lines(s)) == s
    ensures s != [] ==> Lines(s)[0] == FirstLine(s) && Concat(Lines(s)[1..]) == s[|FirstLine(s)|..]
    decreases |s|
  {
    if s != [] {
      var f := FirstLine(s);
      var t := s[|f|..];
      LinesConcat(t);
      ConcatCons(f, Lines(t));
      assert Lines(s)[1..] == Lines(t);
      assert f + t == s;
    }
  }

  /** Every line is the first line of some non-empty suffix of the text, one
      that goes on past it unless the line is the last. */
  lemma {:induction false} LineSource(s: string, i: nat) returns (u: string)
    requires i < |Lines(s)|
    ensures u != [] && Lines(s)[i] == FirstLine(u)
    ensures i + 1 < |Lines(s)| ==> FirstLine(u) != u
    decreases |s|
  {
    var f := FirstLine(s);
    var t := s[|f|..];
    assert Lines(s) == [f] + Lines(t);
    if i == 0 {
      u := s;
      if 1 < |Lines(s)| {
        assert Lines(t) != [];
        assert |f| < |s|;
      }
    } else {
      u := LineSource(t, i - 1);
      assert Lines(s)[i] == Lines(t)[i - 1];
    }
  }

  /** Only the last line may lack its "\n", and no line holds a "\n" before its end. */
  lemma LinesShape(s: string, i: nat)
    requires i < |Lines(s)|
    ensures |Lines(s)[i]| > 0
    ensures forall k :: 0 <= k < |Lines(s)[i]| - 1 ==> Lines(s)[i][k] != '\n'
    ensures i + 1 < |Lines(s)| ==> Lines(s)[i][|Lines(s)[i]| - 1] == '\n'
  {
    var u := LineSource(s, i);
  }

  // ---------------------------------------------------------------------------
  // int(s) and the order of str
  // ---------------------------------------------------------------------------

  predicate IsDigit(c: char) {
    '0' <= c <= '9'
  }

  function DigitValue(c: char): (d: nat)
    requires IsDigit(c)
    ensures d < 10
  {
    c as int - '0' as int
  }

  /** The value of a non-empty run of decimal digits. */
  function DigitsValue(s: string): nat
    requires s != [] && forall k :: 0 <= k < |s| ==> IsDigit(s[k])
    decreases |s|
  {
    if |s| == 1 then DigitValue(s[0])
    else DigitsValue(s[..|s| - 1]) * 10 + DigitValue(s[|s| - 1])
  }

  /** int(s) for a non-negative decimal literal. */
  function ParseNat(s: string): (r: Option<nat>)
    ensures r.Some? <==> s != [] && forall k :: 0 <= k < |s| ==> IsDigit(s[k])
  {
    if s != [] && forall k :: 0 <= k < |s| ==> IsDigit(s[k]) then Some(DigitsValue(s)) else None
  }

  /** int(s): an optional sign and decimal digits. */
  function ParseInt(s: string): Option<int> {
    if s != [] && (s[0] == '-' || s[0] == '+') then
      match ParseNat(s[1..])
      case Some(n) => Some(if s[0] == '-' then 0 - n else n as int)
      case None => None
    else
      match ParseNat(s)
      case Some(n) => Some(n as int)
      case None => None
  }

  lemma DigitCharValue(d: nat)
    requires d < 10
    ensures IsDigit(DigitChar(d)) && DigitValue(DigitChar(d)) == d
  {
  }

  /** The digits str writes are read back as the same number. */
  lemma {:induction false} ParseNatToString(n: nat)
    ensures ParseNat(NatToString(n)) == Some(n)
    decreases n
  {
    NatToStringDigits(n);
    var s := NatToString(n);
    DigitCharValue(n % 10);
    if n >= 10 {
      ParseNatToString(n / 10);
      assert s[..|s| - 1] == NatToString(n / 10);
    }
  }

  /** int(str(n)) == n. */
  lemma ParseIntToString(n: int)
    ensures ParseInt(IntToString(n)) == Some(n)
  {
    if n < 0 {
      ParseNegativeToString(n);
    } else {
      ParseNonNegativeToString(n);
    }
  }

  /** A negative number is written as a minus sign and its magnitude. */
  lemma ParseNegativeToString(n: int)
    requires n < 0
    ensures ParseInt(IntToString(n)) == Some(n)
  {
    ParseNatToString(-n);
    IntToStringNegative(n);
    ParseMinus(IntToString(n), NatToString(-n), -n);
  }

  lemma IntToStringNegative(n: int)
    requires n < 0
    ensures IntToString(n) == "-" + NatToString(-n)
  {
  }

  lemma ParseMinus(s: string, d: string, m: nat)
    requires s == "-" + d && ParseNat(d) == Some(m)
    ensures ParseInt(s) == Some(-(m as int))
  {
    assert s[1..] == d;
  }

  /** A non-negative number is written as its digits alone. */
  lemma ParseNonNegativeToString(n: int)
    requires n >= 0
    ensures ParseInt(IntToString(n)) == Some(n)
  {
    var s := IntToString(n);
    assert s == NatToString(n);
    NatToStringDigits(n);
    assert s[0] in NatToString(n);
    assert s[0] != '+';
    ParseNatToString(n);
  }

  /** a <= b for Python strings: code points compared left to right, a
      proper prefix first. */
  predicate StrLe(a: string, b: string)
    decreases |a|
  {
    a == [] || (b != [] && (a[0] < b[0] || (a[0] == b[0] && StrLe(a[1..], b[1..]))))
  }

  lemma {:induction false} StrLeTotal(a: string, b: string)
    ensures StrLe(a, b) || StrLe(b, a)
    decreases |a|
  {
    if a != [] && b != [] && a[0] == b[0] { StrLeTotal(a[1..], b[1..]); }
  }

  lemma {:induction false} StrLeTransitive(a: string, b: string, c: string)
    requires StrLe(a, b) && StrLe(b, c)
    ensures StrLe(a, c)
    decreases |a|
  {
    if a != [] && a[0] == b[0] && b[0] == c[0] { StrLeTransitive(a[1..], b[1..], c[1..]); }
  }

  lemma {:induction false} StrLeAntisymmetric(a: string, b: string)
    requires StrLe(a, b) && StrLe(b, a)
    ensures a == b
    decreases |a|
  {
    if a != [] {
      StrLeAntisymmetric(a[1..], b[1..]);
      assert a == [a[0]] + a[1..] && b == [b[0]] + b[1..];
    }
  }
}
