// Input validation of a data download package (DDP): the member names of an
// archive are scored against the known files of each category, and a small
// stateful validator records the outcome as a status code.
module Validate {
  import opened Wrappers
  import opened Strings
  import opened OrderedMaps
  import opened ExtractionHelpers

  datatype Language = EN | NL | UNKNOWN

  /** The source spells the last member UNKOWN. */
  datatype DdpFiletype = JSON | HTML | CSV | TXT | UNKOWN

  datatype DdpCategory = DdpCategory(id: string, ddpFiletype: DdpFiletype, language: Language, knownFiles: seq<string>)

  datatype StatusCode = StatusCode(id: int, description: string)

  /** The category recorded when nothing matched well enough. */
  const UnknownCategory := DdpCategory("unknown", UNKOWN, Language.UNKNOWN, [])

  // ---------------------------------------------------------------------------
  // The two lookup dictionaries built after construction
  // ---------------------------------------------------------------------------

  /** {category.id: category for category in categories}: a key keeps the
      position of its first occurrence and the value of its last. */
  function CategoryLookup(cats: seq<DdpCategory>): (m: OMap<DdpCategory>)
    decreases |cats|
  {
    if cats == [] then []
    else Put(CategoryLookup(cats[..|cats| - 1]), cats[|cats| - 1].id, cats[|cats| - 1])
  }

  /** {status_code.id: status_code for ...}: the last code with an id wins. */
  function StatusLookup(codes: seq<StatusCode>): (m: map<int, StatusCode>)
    ensures forall id :: id in m <==> exists i :: 0 <= i < |codes| && codes[i].id == id
    decreases |codes|
  {
    if codes == [] then map[]
    else
      var n := |codes| - 1;
      var prev := StatusLookup(codes[..n]);
      assert forall i :: 0 <= i < n ==> codes[..n][i] == codes[i];
      prev[codes[n].id := codes[n]]
  }

  /** The lookup holds each id once, and an id is a key iff some category has it. */
  lemma {:induction false} CategoryLookupKeys(cats: seq<DdpCategory>)
    ensures UniqueKeys(CategoryLookup(cats))
    ensures forall id :: id in Keys(CategoryLookup(cats)) <==> exists i :: 0 <= i < |cats| && cats[i].id == id
    decreases |cats|
  {
    if cats != [] {
      var n := |cats| - 1;
      var init, x := cats[..n], cats[n];
      CategoryLookupKeys(init);
      assert cats == init + [x];
      PutCategory(CategoryLookup(init), init, x);
    }
  }

  /** Storing one more category keeps the keys unique, makes its id a key
      and leaves the other ids as they were. */
  lemma PutCategory(prev: OMap<DdpCategory>, init: seq<DdpCategory>, x: DdpCategory)
    requires UniqueKeys(prev)
    requires forall id :: id in Keys(prev) <==> exists i :: 0 <= i < |init| && init[i].id == id
    ensures UniqueKeys(Put(prev, x.id, x))
    ensures forall id :: id in Keys(Put(prev, x.id, x)) <==> exists i :: 0 <= i < |init + [x]| && (init + [x])[i].id == id
  {
    PutKeepsUnique(prev, x.id, x);
    forall id ensures id in Keys(Put(prev, x.id, x)) <==> exists i :: 0 <= i < |init + [x]| && (init + [x])[i].id == id {
      PutKeyStep(prev, init, x, id);
    }
  }

  /** Storing one more category makes its id a key and leaves the other ids
      as they were. */
  lemma PutKeyStep(prev: OMap<DdpCategory>, init: seq<DdpCategory>, x: DdpCategory, id: string)
    requires forall id :: id in Keys(prev) <==> exists i :: 0 <= i < |init| && init[i].id == id
    ensures id in Keys(Put(prev, x.id, x)) <==> exists i :: 0 <= i < |init + [x]| && (init + [x])[i].id == id
  {
    var cats := init + [x];
    assert id in Keys(Put(prev, x.id, x)) <==> id == x.id || id in Keys(prev);
    assert cats[|init|] == x;
    assert forall i :: 0 <= i < |init| ==> cats[i] == init[i];
  }

  /** The position of the last category carrying id. */
  function LastWithId(cats: seq<DdpCategory>, id: string): (r: Option<nat>)
    ensures r.None? ==> forall i :: 0 <= i < |cats| ==> cats[i].id != id
    ensures r.Some? ==> r.value < |cats| && cats[r.value].id == id
    ensures r.Some? ==> forall j :: r.value < j < |cats| ==> cats[j].id != id
    decreases |cats|
  {
    if cats == [] then None
    else if cats[|cats| - 1].id == id then Some(|cats| - 1)
    else
      var r := LastWithId(cats[..|cats| - 1], id);
      assert forall i :: 0 <= i < |cats| - 1 ==> cats[..|cats| - 1][i] == cats[i];
      r
  }

  /** An id maps to the LAST category carrying it: duplicates collapse to the later one. */
  lemma {:induction false} CategoryLookupLast(cats: seq<DdpCategory>, id: string)
    ensures Get(CategoryLookup(cats), id) ==
      match LastWithId(cats, id)
      case None => None
      case Some(i) => Some(cats[i])
    decreases |cats|
  {
    if cats != [] {
      var n := |cats| - 1;
      CategoryLookupLast(cats[..n], id);
      if cats[n].id != id {
        match LastWithId(cats[..n], id)
        case None =>
        case Some(i) => assert cats[..n][i] == cats[i];
      }
    }
  }

  /** Two categories sharing an id: one entry, holding the later category. */
  lemma DuplicateIdsCollapse(a: DdpCategory, b: DdpCategory)
    requires a.id == b.id
    ensures CategoryLookup([a, b]) == [(a.id, b)]
  {
    assert [a, b][..1] == [a];
    assert [a][..0] == [];
    assert CategoryLookup([a]) == [(a.id, a)];
    assert Put([(a.id, a)], b.id, b) == [(a.id, b)] + [(a.id, a)][1..];
    assert [(a.id, a)][1..] == [];
  }

  // ---------------------------------------------------------------------------
  // Scoring
  // ---------------------------------------------------------------------------

  /** How many input names, duplicates included, occur among the known files. */
  function Hits(files: seq<string>, known: seq<string>): (n: nat)
    ensures n <= |files|
    ensures n == 0 <==> forall i :: 0 <= i < |files| ==> files[i] !in known
    ensures n == |files| <==> forall i :: 0 <= i < |files| ==> files[i] in known
  {
    if files == [] then 0
    else
      var rest := Hits(files[1..], known);
      assert forall i :: 1 <= i < |files| ==> files[i] == files[1..][i - 1];
      (if files[0] in known then 1 else 0) + rest
  }

  /** A repeated input name counts once per repetition. */
  lemma {:induction false} HitsAppend(a: seq<string>, b: seq<string>, known: seq<string>)
    ensures Hits(a + b, known) == Hits(a, known) + Hits(b, known)
  {
    if a != [] {
      assert (a + b)[1..] == a[1..] + b;
      HitsAppend(a[1..], b, known);
    } else {
      assert a + b == b;
    }
  }

  /** A category can be scored: dividing by its number of known files is defined. */
  predicate Scorable(c: DdpCategory) {
    |c.knownFiles| > 0
  }

  /** 100 * hits / len(known_files), computed exactly rather than in floating point. */
  function ScoreOf(c: DdpCategory, files: seq<string>): (s: real)
    requires Scorable(c)
    ensures 0.0 <= s
  {
    100.0 * (Hits(files, c.knownFiles) as real) / (|c.knownFiles| as real)
  }

  /** The 5% threshold is 20 * hits >= len(known_files) in integers. */
  lemma ThresholdInIntegers(c: DdpCategory, files: seq<string>)
    requires Scorable(c)
    ensures ScoreOf(c, files) >= 5.0 <==> 20 * Hits(files, c.knownFiles) >= |c.knownFiles|
  {
    var h, t := Hits(files, c.knownFiles), |c.knownFiles|;
    QuotientThreshold(100.0 * (h as real), t as real);
    assert (20 * h >= t) <==> (100.0 * (h as real) >= 5.0 * (t as real));
  }

  /** x / t >= 5 exactly when x >= 5 * t, for a positive t. */
  lemma QuotientThreshold(x: real, t: real)
    requires t > 0.0
    ensures x / t >= 5.0 <==> x >= 5.0 * t
  {
    var q := x / t;
    assert q * t == x;
    if q >= 5.0 { assert (q - 5.0) * t >= 0.0; } else { assert (5.0 - q) * t > 0.0; }
  }

  /** The catalog the scores are computed over: non-empty (max of an empty
      collection raises) and without a category lacking known files (the
      division raises). */
  predicate ScorableCatalog(lookup: OMap<DdpCategory>) {
    |lookup| > 0 && forall i :: 0 <= i < |lookup| ==> Scorable(lookup[i].1)
  }

  /** prop_category: one score per lookup entry, in lookup order. */
  function Scores(lookup: OMap<DdpCategory>, files: seq<string>): (s: OMap<real>)
    requires forall i :: 0 <= i < |lookup| ==> Scorable(lookup[i].1)
    ensures |s| == |lookup|
    ensures forall i :: 0 <= i < |s| ==> s[i] == (lookup[i].0, ScoreOf(lookup[i].1, files))
  {
    seq(|lookup|, i requires 0 <= i < |lookup| => (lookup[i].0, ScoreOf(lookup[i].1, files)))
  }

  /** max(d, key=d.get) over the first n entries: a later entry replaces the
      current choice only when strictly larger. */
  function FirstMax(d: OMap<real>, n: nat): (b: nat)
    requires 1 <= n <= |d|
    ensures b < n
  {
    if n == 1 then 0
    else
      var prev := FirstMax(d, n - 1);
      if d[n - 1].1 > d[prev].1 then n - 1 else prev
  }

  /** The choice is a maximum, and every earlier entry is strictly smaller. */
  lemma {:induction false} FirstMaxSpec(d: OMap<real>, n: nat)
    requires 1 <= n <= |d|
    ensures forall j :: 0 <= j < n ==> d[j].1 <= d[FirstMax(d, n)].1
    ensures forall j :: 0 <= j < FirstMax(d, n) ==> d[j].1 < d[FirstMax(d, n)].1
  {
    if n > 1 {
      FirstMaxSpec(d, n - 1);
    }
  }

  /** The index of the inferred category, or None when even the best score is below 5. */
  function Inferred(lookup: OMap<DdpCategory>, files: seq<string>): (r: Option<nat>)
    requires ScorableCatalog(lookup)
    ensures r.Some? ==> r.value < |lookup| && ScoreOf(lookup[r.value].1, files) >= 5.0
  {
    var s := Scores(lookup, files);
    var b := FirstMax(s, |s|);
    if s[b].1 >= 5.0 then Some(b) else None
  }

  /** The inferred category has the highest score, strictly higher than every
      category before it; nothing is inferred iff every score is below 5. */
  lemma InferredSpec(lookup: OMap<DdpCategory>, files: seq<string>)
    requires ScorableCatalog(lookup)
    ensures Inferred(lookup, files).None? <==>
      forall j :: 0 <= j < |lookup| ==> ScoreOf(lookup[j].1, files) < 5.0
    ensures Inferred(lookup, files).Some? ==>
      var b := Inferred(lookup, files).value;
      (forall j :: 0 <= j < |lookup| ==> ScoreOf(lookup[j].1, files) <= ScoreOf(lookup[b].1, files))
      && (forall j :: 0 <= j < b ==> ScoreOf(lookup[j].1, files) < ScoreOf(lookup[b].1, files))
  {
    var s := Scores(lookup, files);
    FirstMaxSpec(s, |s|);
  }

  /** An archive without any known file is never recognised. */
  lemma NoKnownFileNotInferred(lookup: OMap<DdpCategory>, files: seq<string>)
    requires ScorableCatalog(lookup)
    requires forall j, i :: 0 <= j < |lookup| && 0 <= i < |files| ==> files[i] !in lookup[j].1.knownFiles
    ensures Inferred(lookup, files).None?
  {
    InferredSpec(lookup, files);
  }

  /** Path(f).name: pathlib drops the empty and the "." components of a
      slash-separated path, and the name is the last one left, or "" when
      none is. */
  function BaseName(f: string): (r: string)
    ensures '/' !in r && r != "."
  {
    LastComponent(Split(f, '/'))
  }

  /** The last component that is neither empty nor ".". */
  function LastComponent(parts: seq<string>): (r: string)
    requires forall i :: 0 <= i < |parts| ==> '/' !in parts[i]
    ensures '/' !in r && r != "."
    ensures r == "" || r in parts
  {
    if parts == [] then ""
    else
      var last := parts[|parts| - 1];
      if last == "" || last == "." then LastComponent(parts[..|parts| - 1]) else last
  }

  /** A name without a slash is its own base name, except "." whose name is "". */
  lemma BaseNameOfPlainName(f: string)
    requires '/' !in f
    ensures BaseName(f) == if f == "." then "" else f
  {
    assert Split(f, '/') == [f];
    assert [f][..0] == [];
  }

  /** A trailing slash and a "." component do not change the name:
      Path("a/./").name is "a". */
  lemma BaseNameSkipsDot()
    ensures BaseName("a/./") == "a"
  {
    SplitThreeParts("a/./", "a", ".", "");
    LastOfThree("a", ".", "");
  }

  /** Path("a/b/.").name is "b", and Path(".").name is "". */
  lemma BaseNameOfDotted()
    ensures BaseName("a/b/.") == "b"
    ensures BaseName(".") == ""
  {
    SplitThreeParts("a/b/.", "a", "b", ".");
    LastOfThree("a", "b", ".");
    BaseNameOfPlainName(".");
  }

  lemma LastOfThree(x: string, y: string, z: string)
    requires '/' !in x && '/' !in y && '/' !in z
    ensures LastComponent([x, y, z]) ==
      if z != "" && z != "." then z
      else if y != "" && y != "." then y
      else if x != "" && x != "." then x
      else ""
  {
    assert [x, y, z][..2] == [x, y];
    assert [x, y][..1] == [x];
    assert [x][..0] == [];
    LastComponentStep([x, y, z]);
    LastComponentStep([x, y]);
    LastComponentStep([x]);
  }

  lemma LastComponentStep(parts: seq<string>)
    requires parts != [] && forall i :: 0 <= i < |parts| ==> '/' !in parts[i]
    ensures LastComponent(parts) ==
      if parts[|parts| - 1] == "" || parts[|parts| - 1] == "." then LastComponent(parts[..|parts| - 1])
      else parts[|parts| - 1]
  {
  }

  lemma SplitThreeParts(f: string, x: string, y: string, z: string)
    requires '/' !in x && '/' !in y && '/' !in z && f == x + "/" + y + "/" + z
    ensures Split(f, '/') == [x, y, z]
  {
    SplitAt(f, x, y + "/" + z);
    SplitAt(y + "/" + z, y, z);
    assert '/' !in z;
  }

  lemma SplitAt(f: string, x: string, rest: string)
    requires '/' !in x && f == x + "/" + rest
    ensures Split(f, '/') == [x] + Split(rest, '/')
  {
    assert f[|x|] == '/';
    assert f[..|x|] == x && f[|x| + 1..] == rest;
    FirstIndexAt(f, '/', |x|);
  }

  function BaseNames(members: seq<Member>): (r: seq<string>)
    ensures |r| == |members|
    ensures forall i :: 0 <= i < |r| ==> r[i] == BaseName(members[i].name)
  {
    seq(|members|, i requires 0 <= i < |members| => BaseName(members[i].name))
  }

  // ---------------------------------------------------------------------------
  // The validator
  // ---------------------------------------------------------------------------

  class ValidateInput {
    const allStatusCodes: seq<StatusCode>
    const allDdpCategories: seq<DdpCategory>
    var currentStatusCode: Option<StatusCode>
    /** Declared, but no method ever assigns it. */
    var currentDdpCategory: Option<DdpCategory>
    /** The attribute infer_ddp_category creates; None until it first runs. */
    var ddpCategory: Option<DdpCategory>
    const ddpCategoriesLookup: OMap<DdpCategory>
    const statusCodesLookup: map<int, StatusCode>

    /** Construction followed by the post-init step that builds the two lookups. */
    constructor(codes: seq<StatusCode>, cats: seq<DdpCategory>)
      ensures allStatusCodes == codes && allDdpCategories == cats
      ensures currentStatusCode == None && currentDdpCategory == None && ddpCategory == None
      ensures ddpCategoriesLookup == CategoryLookup(cats)
      ensures statusCodesLookup == StatusLookup(codes)
    {
      allStatusCodes := codes;
      allDdpCategories := cats;
      currentStatusCode := None;
      currentDdpCategory := None;
      ddpCategory := None;
      ddpCategoriesLookup := CategoryLookup(cats);
      statusCodesLookup := StatusLookup(codes);
    }

    /** The status code registered under id, or None for an unknown id. */
    function StatusFor(id: int): (r: Option<StatusCode>)
      ensures r.Some? <==> id in statusCodesLookup
      ensures r.Some? ==> r.value == statusCodesLookup[id]
    {
      if id in statusCodesLookup then Some(statusCodesLookup[id]) else None
    }

    method SetCurrentStatusCodeById(id: int)
      modifies this
      ensures currentStatusCode == StatusFor(id)
      ensures currentDdpCategory == old(currentDdpCategory) && ddpCategory == old(ddpCategory)
    {
      currentStatusCode := StatusFor(id);
    }

    /** 1 while no status code is set, otherwise the id of the set code. */
    function GetStatusCodeId(): (r: int)
      reads this
      ensures currentStatusCode.None? ==> r == 1
      ensures currentStatusCode.Some? ==> r == currentStatusCode.value.id
    {
      match currentStatusCode
      case None => 1
      case Some(code) => code.id
    }

    /** Scores every category, picks the best one when it reaches 5%, and
        records the outcome as status 0 (detected) or 1 (not detected). */
    method InferDdpCategory(files: seq<string>) returns (detected: bool)
      requires ScorableCatalog(ddpCategoriesLookup)
      modifies this
      ensures detected <==> Inferred(ddpCategoriesLookup, files).Some?
      ensures detected ==>
        ddpCategory == Some(ddpCategoriesLookup[Inferred(ddpCategoriesLookup, files).value].1)
        && currentStatusCode == StatusFor(0)
      ensures !detected ==> ddpCategory == Some(UnknownCategory) && currentStatusCode == StatusFor(1)
      ensures currentDdpCategory == old(currentDdpCategory)
    {
      var prop := ScoreCategories(ddpCategoriesLookup, files);
      var best := HighestScore(prop);
      if prop[best].1 >= 5.0 {
        ddpCategory := Some(ddpCategoriesLookup[best].1);
        SetCurrentStatusCodeById(0);
        detected := true;
      } else {
        SetCurrentStatusCodeById(1);
        ddpCategory := Some(UnknownCategory);
        detected := false;
      }
    }
  }

  /** The loop filling prop_category. */
  method ScoreCategories(lookup: OMap<DdpCategory>, files: seq<string>) returns (prop: OMap<real>)
    requires forall i :: 0 <= i < |lookup| ==> Scorable(lookup[i].1)
    ensures prop == Scores(lookup, files)
  {
    prop := [];
    for i := 0 to |lookup|
      invariant |prop| == i
      invariant forall j :: 0 <= j < i ==> prop[j] == (lookup[j].0, ScoreOf(lookup[j].1, files))
    {
      var known := lookup[i].1.knownFiles;
      var hits := Hits(files, known);
      prop := prop + [(lookup[i].0, 100.0 * (hits as real) / (|known| as real))];
    }
  }

  /** max(prop_category, key=prop_category.get): the first entry of largest score. */
  method HighestScore(prop: OMap<real>) returns (best: nat)
    requires |prop| > 0
    ensures best == FirstMax(prop, |prop|)
  {
    best := 0;
    for i := 1 to |prop|
      invariant best == FirstMax(prop, i)
    {
      if prop[i].1 > prop[best].1 {
        best := i;
      }
    }
  }

  /** The two status codes validate_zip registers. */
  const ZipStatusCodes := [
    StatusCode(0, "Detected a zip from the DDPCategory list"),
    StatusCode(1, "Undetected zip or bad zipfile")
  ]

  /** The status id validate_zip leaves behind: 1 for a bad zip, otherwise 0
      exactly when a category was inferred from the base names. */
  function ZipValidationStatus(cats: seq<DdpCategory>, zip: Zip): (r: int)
    requires zip.Some? ==> ScorableCatalog(CategoryLookup(cats))
    ensures r == 0 || r == 1
    ensures zip.None? ==> r == 1
  {
    if zip.None? then 1
    else if Inferred(CategoryLookup(cats), BaseNames(zip.value)).Some? then 0
    else 1
  }

  /** Only base names are scored: an archive whose members sit in folders
      validates exactly like one holding the same names at the top level. */
  lemma ZipValidationUsesBaseNames(cats: seq<DdpCategory>, a: seq<Member>, b: seq<Member>)
    requires ScorableCatalog(CategoryLookup(cats))
    requires |a| == |b| && forall i :: 0 <= i < |a| ==> BaseName(a[i].name) == BaseName(b[i].name)
    ensures ZipValidationStatus(cats, Some(a)) == ZipValidationStatus(cats, Some(b))
  {
    assert BaseNames(a) == BaseNames(b);
  }

  /** The lookup of a catalog of one category. */
  lemma OneCategoryLookup(cat: DdpCategory)
    ensures CategoryLookup([cat]) == [(cat.id, cat)]
  {
    assert [cat][..0] == [];
  }

  /** A catalog of one category recognises an archive exactly when its
      base names hit the known files at least once per twenty known files. */
  lemma OneCategoryThreshold(cat: DdpCategory, members: seq<Member>)
    requires Scorable(cat)
    ensures ScorableCatalog(CategoryLookup([cat]))
    ensures ZipValidationStatus([cat], Some(members)) == 0 <==>
      20 * Hits(BaseNames(members), cat.knownFiles) >= |cat.knownFiles|
  {
    OneCategoryLookup(cat);
    var lookup := CategoryLookup([cat]);
    assert lookup[0].1 == cat;
    var names := BaseNames(members);
    InferredSpec(lookup, names);
    ThresholdInIntegers(cat, names);
  }

  lemma StatusCodesOfZip()
    ensures StatusLookup(ZipStatusCodes) == map[0 := ZipStatusCodes[0], 1 := ZipStatusCodes[1]]
  {
    assert ZipStatusCodes[..1] == [ZipStatusCodes[0]];
    assert [ZipStatusCodes[0]][..0] == [];
  }

  /** The loop collecting Path(f).name for every member. */
  method CollectBaseNames(members: seq<Member>) returns (paths: seq<string>)
    ensures paths == BaseNames(members)
  {
    paths := [];
    for i := 0 to |members|
      invariant |paths| == i
      invariant forall j :: 0 <= j < i ==> paths[j] == BaseName(members[j].name)
    {
      paths := paths + [BaseName(members[i].name)];
    }
  }

  method ValidateZip(cats: seq<DdpCategory>, zip: Zip) returns (v: ValidateInput)
    requires zip.Some? ==> ScorableCatalog(CategoryLookup(cats))
    ensures fresh(v)
    ensures v.allDdpCategories == cats && v.allStatusCodes == ZipStatusCodes
    ensures v.GetStatusCodeId() == ZipValidationStatus(cats, zip)
    ensures zip.None? ==> v.ddpCategory == None
    ensures zip.Some? ==> v.ddpCategory.Some?
    ensures v.currentDdpCategory == None
  {
    v := new ValidateInput(ZipStatusCodes, cats);
    StatusCodesOfZip();
    if zip.None? {
      v.SetCurrentStatusCodeById(1);
    } else {
      var paths := CollectBaseNames(zip.value);
      var detected := v.InferDdpCategory(paths);
    }
  }
}
