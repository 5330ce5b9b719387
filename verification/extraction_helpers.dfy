// The helpers every platform extractor is built from: flattening nested JSON
// into dash-joined paths, querying the flattened map by key pattern, picking a
// member out of an archive, decoding JSON with an encoding fallback, and a few
// string normalisers.
module ExtractionHelpers {
  import opened Wrappers
  import opened Strings
  import opened OrderedMaps
  import opened Json

  // ---------------------------------------------------------------------------
  // Archives and decoders
  // ---------------------------------------------------------------------------

  newtype byte = x: int | 0 <= x < 256
  type Bytes = seq<byte>

  /** One archive member in namelist order. */
  datatype Member = Member(name: string, data: Bytes, compressSize: nat)

  /** An archive as zipfile sees it; None is a file that is not a zip (BadZipFile). */
  type Zip = Option<seq<Member>>

  datatype Encoding = Utf8 | Utf8Sig

  /** What json.loads(bytes.decode(encoding)) does with one encoding. */
  datatype ReadOutcome = Parsed(value: Json) | JsonDecodeError | OtherError

  /** The library calls the extractors use, taken as given functions:
      bytes.decode + json.loads, csv.DictReader, the epoch-to-ISO conversion,
      the latin1 round trip, datetime.fromisoformat(..).timestamp(), reading
      a buffer through a utf-8 TextIOWrapper (None when decoding raises) and
      json.loads of a text (None when it raises). */
  datatype Codecs = Codecs(
    readJson: (Bytes, Encoding) -> ReadOutcome,
    readCsv: Bytes -> CsvStream,
    epochConvert: Json -> Option<string>,
    latin1RoundTrip: string -> Option<string>,
    isoTimestamp: string -> Option<int>,
    decodeUtf8: Bytes -> Option<string>,
    loads: string -> Option<Json>)

  /** The rows csv.DictReader yields before it stops, and whether it stopped by raising. */
  datatype CsvStream = CsvStream(rows: seq<OMap<string>>, raised: bool)

  // ---------------------------------------------------------------------------
  // dict_denester
  // ---------------------------------------------------------------------------

  type Flat = OMap<Json>
  type Path = seq<string>

  /** Every leaf of a value with the keys and list indices leading to it, in
      iteration order. This is the reference the denester is proved against. */
  function LeafPaths(j: Json): (ps: seq<(Path, Json)>)
    ensures forall i :: 0 <= i < |ps| ==> ps[i].1.IsLeaf()
    decreases j, 1, 0
  {
    match j
    case JObj(fs) => FieldPaths(fs, |fs|)
    case JArr(items) => ItemPaths(items, |items|)
    case _ => [([], j)]
  }

  /** Leaf paths of the first n fields of a dict. */
  function FieldPaths(fs: OMap<Json>, n: nat): (ps: seq<(Path, Json)>)
    requires n <= |fs|
    ensures forall i :: 0 <= i < |ps| ==> ps[i].1.IsLeaf()
    decreases JObj(fs), 0, n
  {
    if n == 0 then [] else FieldPaths(fs, n - 1) + Under(fs[n - 1].0, LeafPaths(fs[n - 1].1))
  }

  /** Leaf paths of the first n items of a list; item i sits under "i". */
  function ItemPaths(items: seq<Json>, n: nat): (ps: seq<(Path, Json)>)
    requires n <= |items|
    ensures forall i :: 0 <= i < |ps| ==> ps[i].1.IsLeaf()
    decreases JArr(items), 0, n
  {
    if n == 0 then [] else ItemPaths(items, n - 1) + Under(NatToString(n - 1), LeafPaths(items[n - 1]))
  }

  function Under(seg: string, ps: seq<(Path, Json)>): (r: seq<(Path, Json)>)
    ensures |r| == |ps|
    ensures forall i :: 0 <= i < |ps| ==> r[i] == ([seg] + ps[i].0, ps[i].1)
  {
    seq(|ps|, i requires 0 <= i < |ps| => ([seg] + ps[i].0, ps[i].1))
  }

  /** "-a-b-c" for the path [a, b, c]: the name the recursion builds. */
  function DashPath(p: Path): string {
    if p == [] then [] else "-" + p[0] + DashPath(p[1..])
  }

  /** name[1:] */
  function DropFirst(s: string): string {
    if s == [] then [] else s[1..]
  }

  /** The entries the denester stores for leaf paths ps reached below name. */
  function Keyed(ps: seq<(Path, Json)>, name: string): (r: seq<(string, Json)>)
    ensures |r| == |ps|
    ensures forall i :: 0 <= i < |ps| ==> r[i] == (DropFirst(name + DashPath(ps[i].0)), ps[i].1)
  {
    seq(|ps|, i requires 0 <= i < |ps| => (DropFirst(name + DashPath(ps[i].0)), ps[i].1))
  }

  lemma KeyedAppend(a: seq<(Path, Json)>, b: seq<(Path, Json)>, name: string)
    ensures Keyed(a + b, name) == Keyed(a, name) + Keyed(b, name)
  {
  }

  lemma KeyedUnder(seg: string, ps: seq<(Path, Json)>, name: string)
    ensures Keyed(Under(seg, ps), name) == Keyed(ps, name + "-" + seg)
  {
    forall i | 0 <= i < |ps|
      ensures Keyed(Under(seg, ps), name)[i] == Keyed(ps, name + "-" + seg)[i]
    {
      var p := ps[i].0;
      assert ([seg] + p)[1..] == p;
      assert name + DashPath([seg] + p) == (name + "-" + seg) + DashPath(p);
    }
  }

  /** One step of the denester's recursion: it adds to the dictionary it is
      given, in place, every leaf below inp, keyed by name and the leaf's path. */
  method DenestInto(inp: Json, acc: Flat, name: string) returns (out: Flat)
    ensures out == PutAll(acc, Keyed(LeafPaths(inp), name))
    decreases inp, 2
  {
    match inp {
      case JObj(fs) =>
        out := DenestFields(fs, acc, name);
      case JArr(items) =>
        out := DenestItems(items, acc, name);
      case _ =>
        out := Put(acc, DropFirst(name), inp);
        PutLeaf(acc, inp, name);
    }
  }

  /** The denester's loop over a dict, field by field. */
  method DenestFields(fs: OMap<Json>, acc: Flat, name: string) returns (out: Flat)
    ensures out == PutAll(acc, Keyed(FieldPaths(fs, |fs|), name))
    decreases JObj(fs), 1
  {
    out := acc;
    for i := 0 to |fs|
      invariant out == PutAll(acc, Keyed(FieldPaths(fs, i), name))
    {
      ghost var before := out;
      out := DenestField(fs, i, out, name);
      FieldStep(fs, i, acc, name, before, out);
    }
  }

  /** One field of a dict: a container value recurses under name-key, any
      other value is stored under (name-key)[1:]. */
  method DenestField(fs: OMap<Json>, i: nat, acc: Flat, name: string) returns (out: Flat)
    requires i < |fs|
    ensures out == PutAll(acc, Keyed(LeafPaths(fs[i].1), name + "-" + fs[i].0))
    decreases JObj(fs), 0
  {
    var k, v := fs[i].0, fs[i].1;
    if v.JObj? || v.JArr? {
      out := DenestInto(v, acc, name + "-" + k);
    } else {
      out := Put(acc, DropFirst(name + "-" + k), v);
      PutLeaf(acc, v, name + "-" + k);
    }
  }

  /** The denester's loop over a list: item i recurses under name-i. */
  method DenestItems(items: seq<Json>, acc: Flat, name: string) returns (out: Flat)
    ensures out == PutAll(acc, Keyed(ItemPaths(items, |items|), name))
    decreases JArr(items), 1
  {
    out := acc;
    for i := 0 to |items|
      invariant out == PutAll(acc, Keyed(ItemPaths(items, i), name))
    {
      ghost var before := out;
      out := DenestInto(items[i], out, name + "-" + NatToString(i));
      ItemStep(items, i, acc, name, before, out);
    }
  }

  lemma PutAllSingle(m: Flat, k: string, v: Json)
    ensures PutAll(m, [(k, v)]) == Put(m, k, v)
  {
    assert [(k, v)][1..] == [];
  }

  /** A scalar reached under nm is stored under nm[1:]. */
  lemma PutLeaf(m: Flat, v: Json, nm: string)
    requires !(v.JObj? || v.JArr?)
    ensures PutAll(m, Keyed(LeafPaths(v), nm)) == Put(m, DropFirst(nm), v)
  {
    assert nm + DashPath([]) == nm;
    assert Keyed(LeafPaths(v), nm) == [(DropFirst(nm), v)];
    PutAllSingle(m, DropFirst(nm), v);
  }

  /** Field i of a dict adds the leaves below its value, keyed under name-key. */
  lemma FieldStep(fs: OMap<Json>, i: nat, acc: Flat, name: string, before: Flat, after: Flat)
    requires i < |fs|
    requires before == PutAll(acc, Keyed(FieldPaths(fs, i), name))
    requires after == PutAll(before, Keyed(LeafPaths(fs[i].1), name + "-" + fs[i].0))
    ensures after == PutAll(acc, Keyed(FieldPaths(fs, i + 1), name))
  {
    KeyedAppend(FieldPaths(fs, i), Under(fs[i].0, LeafPaths(fs[i].1)), name);
    KeyedUnder(fs[i].0, LeafPaths(fs[i].1), name);
    PutAllAppend(acc, Keyed(FieldPaths(fs, i), name), Keyed(LeafPaths(fs[i].1), name + "-" + fs[i].0));
  }

  /** Item i of a list adds the leaves below it, keyed under name-i. */
  lemma ItemStep(items: seq<Json>, i: nat, acc: Flat, name: string, before: Flat, after: Flat)
    requires i < |items|
    requires before == PutAll(acc, Keyed(ItemPaths(items, i), name))
    requires after == PutAll(before, Keyed(LeafPaths(items[i]), name + "-" + NatToString(i)))
    ensures after == PutAll(acc, Keyed(ItemPaths(items, i + 1), name))
  {
    KeyedAppend(ItemPaths(items, i), Under(NatToString(i), LeafPaths(items[i])), name);
    KeyedUnder(NatToString(i), LeafPaths(items[i]), name);
    PutAllAppend(acc, Keyed(ItemPaths(items, i), name), Keyed(LeafPaths(items[i]), name + "-" + NatToString(i)));
  }

  /** dict_denester(inp): each top-level call starts from a fresh dictionary. */
  method DictDenester(inp: Json) returns (flat: Flat)
    ensures flat == Denested(inp)
  {
    flat := DenestInto(inp, [], "");
  }

  /** The dictionary dict_denester returns, as a function of its input. */
  function Denested(inp: Json): Flat {
    PutAll([], Keyed(LeafPaths(inp), ""))
  }

  /** At the top level the key of a leaf is its path joined by "-" with no
      leading "-"; a bare scalar sits under "". */
  lemma {:induction false} TopLevelKey(p: Path)
    ensures DropFirst("" + DashPath(p)) == Join(p, "-")
  {
    assert "" + DashPath(p) == DashPath(p);
    if p != [] {
      var rest := p[0] + DashPath(p[1..]);
      assert DashPath(p) == "-" + rest;
      assert DashPath(p)[1..] == rest;
      JoinDash(p);
    }
  }

  lemma {:induction false} JoinDash(p: Path)
    requires p != []
    ensures p[0] + DashPath(p[1..]) == Join(p, "-")
    decreases |p|
  {
    if |p| > 1 {
      JoinDash(p[1..]);
      assert p[1..][0] == p[1];
      assert DashPath(p[1..]) == "-" + p[1] + DashPath(p[2..]);
      assert p[1..][1..] == p[2..];
    }
  }

  /** Every value in a denested dictionary is a leaf: nothing nested survives. */
  lemma DenestedValuesAreLeaves(inp: Json)
    ensures forall i :: 0 <= i < |Denested(inp)| ==> Denested(inp)[i].1.IsLeaf()
  {
    var es := Keyed(LeafPaths(inp), "");
    PutAllKeepsLeaves([], es);
  }

  lemma {:induction false} PutAllKeepsLeaves(m: Flat, es: seq<(string, Json)>)
    requires forall i :: 0 <= i < |m| ==> m[i].1.IsLeaf()
    requires forall i :: 0 <= i < |es| ==> es[i].1.IsLeaf()
    ensures forall i :: 0 <= i < |PutAll(m, es)| ==> PutAll(m, es)[i].1.IsLeaf()
    decreases |es|
  {
    if es != [] {
      PutKeepsLeaves(m, es[0].0, es[0].1);
      PutAllKeepsLeaves(Put(m, es[0].0, es[0].1), es[1..]);
    }
  }

  lemma {:induction false} PutKeepsLeaves(m: Flat, k: string, v: Json)
    requires forall i :: 0 <= i < |m| ==> m[i].1.IsLeaf()
    requires v.IsLeaf()
    ensures forall i :: 0 <= i < |Put(m, k, v)| ==> Put(m, k, v)[i].1.IsLeaf()
  {
    if m != [] && m[0].0 != k {
      PutKeepsLeaves(m[1..], k, v);
    }
  }

  /** A bare scalar is stored under the empty key. */
  lemma DenestScalar(inp: Json)
    requires inp.IsLeaf()
    ensures Denested(inp) == [("", inp)]
  {
    assert "" + DashPath([]) == "";
    assert Keyed(LeafPaths(inp), "") == [("", inp)];
    PutAllSingle([], "", inp);
  }

  /** Empty dicts and lists contribute no entry. */
  lemma DenestEmptyContainers(name: string, m: Flat)
    ensures PutAll(m, Keyed(LeafPaths(JObj([])), name)) == m
    ensures PutAll(m, Keyed(LeafPaths(JArr([])), name)) == m
  {
  }

  /** The documented example: {"a":{"b":{"c":1}},"d":[2,3]} gives
      {"a-b-c": 1, "d-0": 2, "d-1": 3}. */
  lemma DenestExample()
    ensures Denested(JObj([("a", JObj([("b", JObj([("c", JInt(1))]))])), ("d", JArr([JInt(2), JInt(3)]))]))
         == [("a-b-c", JInt(1)), ("d-0", JInt(2)), ("d-1", JInt(3))]
  {
    var es := [("a-b-c", JInt(1)), ("d-0", JInt(2)), ("d-1", JInt(3))];
    ExampleKeyed();
    ExamplePutAll();
  }

  lemma ExamplePutAll()
    ensures PutAll([], [("a-b-c", JInt(1)), ("d-0", JInt(2)), ("d-1", JInt(3))])
         == [("a-b-c", JInt(1)), ("d-0", JInt(2)), ("d-1", JInt(3))]
  {
    ExamplePut1();
    ExamplePut2();
    ExamplePut3();
  }

  lemma ExamplePut1()
    ensures PutAll([], [("a-b-c", JInt(1)), ("d-0", JInt(2)), ("d-1", JInt(3))])
         == PutAll([("a-b-c", JInt(1))], [("d-0", JInt(2)), ("d-1", JInt(3))])
  {
    var es := [("a-b-c", JInt(1)), ("d-0", JInt(2)), ("d-1", JInt(3))];
    assert es[1..] == [("d-0", JInt(2)), ("d-1", JInt(3))];
  }

  lemma ExamplePut2()
    ensures PutAll([("a-b-c", JInt(1))], [("d-0", JInt(2)), ("d-1", JInt(3))])
         == PutAll([("a-b-c", JInt(1)), ("d-0", JInt(2))], [("d-1", JInt(3))])
  {
    var es := [("d-0", JInt(2)), ("d-1", JInt(3))];
    assert es[1..] == [("d-1", JInt(3))];
  }

  lemma ExamplePut3()
    ensures PutAll([("a-b-c", JInt(1)), ("d-0", JInt(2))], [("d-1", JInt(3))])
         == [("a-b-c", JInt(1)), ("d-0", JInt(2)), ("d-1", JInt(3))]
  {
    PutAllSingle([("a-b-c", JInt(1)), ("d-0", JInt(2))], "d-1", JInt(3));
  }

  lemma ExampleKeyed()
    ensures Keyed(LeafPaths(JObj([("a", JObj([("b", JObj([("c", JInt(1))]))])), ("d", JArr([JInt(2), JInt(3)]))])), "")
         == [("a-b-c", JInt(1)), ("d-0", JInt(2)), ("d-1", JInt(3))]
  {
    ExampleLeafPaths();
    ExampleKeys();
  }

  lemma ExampleLeafPaths()
    ensures LeafPaths(JObj([("a", JObj([("b", JObj([("c", JInt(1))]))])), ("d", JArr([JInt(2), JInt(3)]))]))
         == [(["a", "b", "c"], JInt(1)), (["d", "0"], JInt(2)), (["d", "1"], JInt(3))]
  {
    var b := JObj([("b", JObj([("c", JInt(1))]))]);
    var d := JArr([JInt(2), JInt(3)]);
    var top := JObj([("a", b), ("d", d)]);
    ExampleLeafPathsB();
    ExampleLeafPathsD();
    assert FieldPaths(top.fields, 0) == [];
    UnderSingle("a", ["b", "c"], JInt(1));
    assert ["a"] + ["b", "c"] == ["a", "b", "c"];
    assert FieldPaths(top.fields, 1) == [(["a", "b", "c"], JInt(1))];
    var ud := Under("d", LeafPaths(d));
    assert ["d"] + ["0"] == ["d", "0"] && ["d"] + ["1"] == ["d", "1"];
    assert ud == [(["d", "0"], JInt(2)), (["d", "1"], JInt(3))];
    assert FieldPaths(top.fields, 2) == [(["a", "b", "c"], JInt(1))] + ud;
  }

  lemma ExampleLeafPathsB()
    ensures LeafPaths(JObj([("b", JObj([("c", JInt(1))]))])) == [(["b", "c"], JInt(1))]
  {
    var c := JObj([("c", JInt(1))]);
    LeafOfScalar(JInt(1));
    SingleField("c", JInt(1));
    UnderSingle("c", [], JInt(1));
    assert ["c"] + [] == ["c"];
    assert LeafPaths(c) == [(["c"], JInt(1))];
    SingleField("b", c);
    UnderSingle("b", ["c"], JInt(1));
    assert ["b"] + ["c"] == ["b", "c"];
  }

  lemma ExampleLeafPathsD()
    ensures LeafPaths(JArr([JInt(2), JInt(3)])) == [(["0"], JInt(2)), (["1"], JInt(3))]
  {
    var d := JArr([JInt(2), JInt(3)]);
    LeafOfScalar(JInt(2));
    LeafOfScalar(JInt(3));
    assert NatToString(0) == "0" && NatToString(1) == "1";
    assert ItemPaths(d.items, 0) == [];
    UnderSingle("0", [], JInt(2));
    assert ["0"] + [] == ["0"];
    assert ItemPaths(d.items, 1) == [(["0"], JInt(2))];
    UnderSingle("1", [], JInt(3));
    assert ["1"] + [] == ["1"];
    assert ItemPaths(d.items, 2) == [(["0"], JInt(2)), (["1"], JInt(3))];
  }

  lemma ExampleKeys()
    ensures DropFirst("" + DashPath(["a", "b", "c"])) == "a-b-c"
    ensures DropFirst("" + DashPath(["d", "0"])) == "d-0"
    ensures DropFirst("" + DashPath(["d", "1"])) == "d-1"
  {
    assert DashPath(["c"]) == "-c" by { assert ["c"][1..] == []; }
    assert DashPath(["b", "c"]) == "-b-c" by { assert ["b", "c"][1..] == ["c"]; }
    assert DashPath(["a", "b", "c"]) == "-a-b-c" by { assert ["a", "b", "c"][1..] == ["b", "c"]; }
    assert DashPath(["0"]) == "-0" by { assert ["0"][1..] == []; }
    assert DashPath(["1"]) == "-1" by { assert ["1"][1..] == []; }
    assert DashPath(["d", "0"]) == "-d-0" by { assert ["d", "0"][1..] == ["0"]; }
    assert DashPath(["d", "1"]) == "-d-1" by { assert ["d", "1"][1..] == ["1"]; }
  }

  lemma LeafOfScalar(v: Json)
    requires v.IsLeaf()
    ensures LeafPaths(v) == [([], v)]
  {
  }

  lemma UnderSingle(seg: string, p: Path, v: Json)
    ensures Under(seg, [(p, v)]) == [([seg] + p, v)]
  {
  }

  lemma SingleField(k: string, v: Json)
    ensures LeafPaths(JObj([(k, v)])) == Under(k, LeafPaths(v))
  {
    assert FieldPaths([(k, v)], 0) == [];
  }

  /** Two paths that flatten to the same key: the later leaf overwrites the
      earlier value and keeps the earlier position ({"a-b": 1, "a": {"b": 2}}
      gives {"a-b": 2}). */
  lemma DenestCollision()
    ensures Denested(JObj([("a-b", JInt(1)), ("a", JObj([("b", JInt(2))]))])) == [("a-b", JInt(2))]
  {
    var inner := JObj([("b", JInt(2))]);
    var top := JObj([("a-b", JInt(1)), ("a", inner)]);
    LeafOfScalar(JInt(1));
    LeafOfScalar(JInt(2));
    SingleField("b", JInt(2));
    UnderSingle("b", [], JInt(2));
    assert ["b"] + [] == ["b"];
    assert LeafPaths(inner) == [(["b"], JInt(2))];
    assert FieldPaths(top.fields, 0) == [];
    UnderSingle("a-b", [], JInt(1));
    assert ["a-b"] + [] == ["a-b"];
    assert FieldPaths(top.fields, 1) == [(["a-b"], JInt(1))];
    UnderSingle("a", ["b"], JInt(2));
    assert ["a"] + ["b"] == ["a", "b"];
    assert LeafPaths(top) == FieldPaths(top.fields, 2) == [(["a-b"], JInt(1)), (["a", "b"], JInt(2))];
    assert DashPath(["a-b"]) == "-a-b" by { assert ["a-b"][1..] == []; }
    assert DashPath(["b"]) == "-b" by { assert ["b"][1..] == []; }
    assert DashPath(["a", "b"]) == "-a-b" by { assert ["a", "b"][1..] == ["b"]; }
    assert DropFirst("" + "-a-b") == "a-b";
    var es := [("a-b", JInt(1)), ("a-b", JInt(2))];
    assert Keyed(LeafPaths(top), "") == es;
    assert PutAll([], es) == PutAll([("a-b", JInt(1))], es[1..]);
    assert PutAll([("a-b", JInt(1))], es[1..]) == PutAll([("a-b", JInt(2))], es[2..]);
  }

  // ---------------------------------------------------------------------------
  // find_item / find_items
  // ---------------------------------------------------------------------------

  /** re.match(r"^.*key.*$", k) for the compiled pattern; None is a pattern
      that does not compile, which raises on the first match attempt. */
  type KeyPattern = Option<string -> bool>

  /** The pattern built from a key without regex metacharacters or newlines:
      ^.*key.*$ matches a one-line key (a single trailing newline allowed,
      because $ also matches before it) that contains key. */
  function LiteralPattern(key: string): KeyPattern {
    Some((k: string) => SingleLine(k) && Contains(k, key))
  }

  /** No newline, except possibly as the very last character. */
  predicate SingleLine(k: string) {
    '\n' !in k || (k[|k| - 1] == '\n' && '\n' !in k[..|k| - 1])
  }

  function Depth(k: string): nat {
    CountChar(k, '-')
  }

  predicate Matches(d: Flat, pat: string -> bool, i: int) {
    0 <= i < |d| && pat(d[i].0)
  }

  /** Index i is a matching key of least depth, and the first such in iteration order. */
  ghost predicate IsShallowestFirst(d: Flat, pat: string -> bool, i: nat) {
    Matches(d, pat, i)
    && (forall j :: Matches(d, pat, j) ==> Depth(d[j].0) >= Depth(d[i].0))
    && (forall j :: 0 <= j < i && Matches(d, pat, j) ==> Depth(d[j].0) > Depth(d[i].0))
  }

  /** The index find_item's loop settles on among the first n entries. */
  function Shallowest(d: Flat, pat: string -> bool, n: nat): (r: Option<nat>)
    requires n <= |d|
    ensures r.Some? ==> r.value < n
  {
    if n == 0 then None
    else
      var prev := Shallowest(d, pat, n - 1);
      if pat(d[n - 1].0) && (prev.None? || Depth(d[n - 1].0) < Depth(d[prev.value].0))
      then Some(n - 1) else prev
  }

  /** find_item as a function of the dictionary and the compiled pattern. */
  function FindItemValue(d: Flat, pattern: KeyPattern): string {
    if pattern.None? || |d| == 0 then ""
    else match Shallowest(d, pattern.value, |d|)
      case None => ""
      case Some(i) => PyStr(d[i].1)
  }

  /** The loop's choice is exactly the first of the shallowest matches, and it
      is None precisely when nothing matches. */
  lemma {:induction false} ShallowestSpec(d: Flat, pat: string -> bool, n: nat)
    requires n <= |d|
    ensures Shallowest(d, pat, n).None? <==> forall j :: 0 <= j < n ==> !pat(d[j].0)
    ensures Shallowest(d, pat, n).Some? ==> IsShallowestFirst(d[..n], pat, Shallowest(d, pat, n).value)
  {
    if n > 0 {
      ShallowestSpec(d, pat, n - 1);
      var prev := Shallowest(d, pat, n - 1);
      assert forall j :: 0 <= j < n - 1 ==> d[..n][j] == d[..n - 1][j];
      assert d[..n][n - 1] == d[n - 1];
    }
  }

  /** At most one index is the first shallowest match, so find_item is deterministic. */
  lemma ShallowestFirstUnique(d: Flat, pat: string -> bool, i: nat, j: nat)
    requires IsShallowestFirst(d, pat, i) && IsShallowestFirst(d, pat, j)
    ensures i == j
  {
  }

  /** find_item returns str() of the first least-deep match, or "" if nothing matches. */
  method FindItem(d: Flat, pattern: KeyPattern) returns (out: string)
    ensures out == FindItemValue(d, pattern)
    ensures pattern.Some? && (forall j :: 0 <= j < |d| ==> !pattern.value(d[j].0)) ==> out == ""
    ensures pattern.Some? && (exists j :: Matches(d, pattern.value, j)) ==>
      exists i: nat :: IsShallowestFirst(d, pattern.value, i) && out == PyStr(d[i].1)
  {
    out := "";
    if pattern.None? {
      if |d| > 0 { return; }
    } else {
      var pat := pattern.value;
      var depth: Option<nat> := None;  // math.inf
      var found: Option<nat> := None;
      for i := 0 to |d|
        invariant found == Shallowest(d, pat, i)
        invariant found.None? <==> depth.None?
        invariant found.Some? ==> depth.value == Depth(d[found.value].0) && out == PyStr(d[found.value].1)
        invariant found.None? ==> out == ""
      {
        if pat(d[i].0) {
          var current := CountChar(d[i].0, '-');
          if depth.None? || current < depth.value {
            depth := Some(current);
            out := PyStr(d[i].1);
            found := Some(i);
          }
        }
      }
      ShallowestSpec(d, pat, |d|);
      assert d[..|d|] == d;
    }
  }

  /** The documented example: {"asd-asd-asd": 1, "asd-asd": 2, "qwe": 3} with
      key "asd" gives "2". */
  lemma FindItemExample()
    ensures FindItemValue([("asd-asd-asd", JInt(1)), ("asd-asd", JInt(2)), ("qwe", JInt(3))], LiteralPattern("asd")) == "2"
  {
    var d := [("asd-asd-asd", JInt(1)), ("asd-asd", JInt(2)), ("qwe", JInt(3))];
    var pattern := LiteralPattern("asd");
    ExampleMatches();
    ExampleDepths();
    ExampleFind(d, pattern);
  }

  lemma ExampleFind(d: Flat, pattern: KeyPattern)
    requires pattern.Some? && |d| == 3 && d[1].1 == JInt(2)
    requires pattern.value(d[0].0) && pattern.value(d[1].0) && !pattern.value(d[2].0)
    requires Depth(d[0].0) == 2 && Depth(d[1].0) == 1
    ensures FindItemValue(d, pattern) == "2"
  {
    ExampleShallowest(d, pattern.value);
    ExampleStr();
  }

  lemma ExampleStr()
    ensures PyStr(JInt(2)) == "2"
  {
    assert NatToString(2) == "2";
  }

  lemma ExampleShallowest(d: Flat, pat: string -> bool)
    requires |d| == 3 && pat(d[0].0) && pat(d[1].0) && !pat(d[2].0)
    requires Depth(d[0].0) == 2 && Depth(d[1].0) == 1
    ensures Shallowest(d, pat, 3) == Some(1)
  {
    assert Shallowest(d, pat, 1) == Some(0);
    assert Shallowest(d, pat, 2) == Some(1);
  }

  lemma ExampleMatches()
    ensures LiteralPattern("asd").value("asd-asd-asd") && LiteralPattern("asd").value("asd-asd")
    ensures !LiteralPattern("asd").value("qwe")
  {
    assert "asd" <= "asd-asd-asd" && "asd" <= "asd-asd";
    AbsentChar("qwe", "asd", 'a');
    assert SingleLine("asd-asd-asd") && SingleLine("asd-asd");
  }

  lemma ExampleDepths()
    ensures Depth("asd-asd-asd") == 2 && Depth("asd-asd") == 1
  {
    assert CountChar("asd", '-') == 0;
    assert CountChar("-asd", '-') == 1;
    assert CountChar("asd-asd", '-') == 1;
    assert CountChar("-asd-asd", '-') == 2;
  }

  /** str() of every value whose key matches, among the first n entries, in order. */
  function MatchedValues(d: Flat, pat: string -> bool, n: nat): (r: seq<string>)
    requires n <= |d|
    ensures |r| <= n
  {
    if n == 0 then []
    else MatchedValues(d, pat, n - 1) + (if pat(d[n - 1].0) then [PyStr(d[n - 1].1)] else [])
  }

  function FindItemsValue(d: Flat, pattern: KeyPattern): seq<string> {
    if pattern.None? then [] else MatchedValues(d, pattern.value, |d|)
  }

  /** find_items returns str() of every matching value in iteration order. */
  method FindItems(d: Flat, pattern: KeyPattern) returns (out: seq<string>)
    ensures out == FindItemsValue(d, pattern)
  {
    out := [];
    if pattern.Some? {
      for i := 0 to |d|
        invariant out == MatchedValues(d, pattern.value, i)
      {
        if pattern.value(d[i].0) {
          out := out + [PyStr(d[i].1)];
        }
      }
    }
  }

  /** find_items is empty exactly when no key matches. */
  lemma {:induction false} MatchedValuesEmpty(d: Flat, pat: string -> bool, n: nat)
    requires n <= |d|
    ensures MatchedValues(d, pat, n) == [] <==> forall j :: 0 <= j < n ==> !pat(d[j].0)
  {
    if n > 0 { MatchedValuesEmpty(d, pat, n - 1); }
  }

  /** find_items lists one value per matching key: its length is the number of matches. */
  lemma {:induction false} MatchedValuesCount(d: Flat, pat: string -> bool, n: nat)
    requires n <= |d|
    ensures |MatchedValues(d, pat, n)| == |set j | 0 <= j < n && pat(d[j].0)|
  {
    if n > 0 {
      MatchedValuesCount(d, pat, n - 1);
      var before := set j | 0 <= j < n - 1 && pat(d[j].0);
      var now := set j | 0 <= j < n && pat(d[j].0);
      if pat(d[n - 1].0) {
        assert now == before + {n - 1};
      } else {
        assert now == before;
      }
    }
  }

  /** What find_item returns is one of the values find_items lists. */
  lemma {:induction false} FindItemAmongFindItems(d: Flat, pat: string -> bool, n: nat)
    requires n <= |d|
    requires Shallowest(d, pat, n).Some?
    ensures PyStr(d[Shallowest(d, pat, n).value].1) in MatchedValues(d, pat, n)
  {
    var prev := Shallowest(d, pat, n - 1);
    if Shallowest(d, pat, n) != Some(n - 1) {
      FindItemAmongFindItems(d, pat, n - 1);
    } else {
      assert pat(d[n - 1].0);
    }
  }

  // ---------------------------------------------------------------------------
  // String normalisers and timestamps
  // ---------------------------------------------------------------------------

  /** fix_ascii_string: encoding to ASCII with "ignore" drops every non-ASCII character. */
  function FixAsciiString(s: string): (r: string)
    ensures forall c :: c in r ==> (c as int) < 128
    ensures forall c :: c in r ==> c in s
    ensures (forall c :: c in s ==> (c as int) < 128) ==> r == s
    ensures |r| <= |s|
  {
    if s == [] then []
    else
      assert forall c :: c in s[1..] ==> c in s;
      var rest := FixAsciiString(s[1..]);
      if (s[0] as int) < 128 then
        assert (forall c :: c in s ==> (c as int) < 128) ==> [s[0]] + rest == s by {
          assert s == [s[0]] + s[1..];
        }
        [s[0]] + rest
      else
        assert s[0] in s;
        rest
  }

  lemma FixAsciiIdempotent(s: string)
    ensures FixAsciiString(FixAsciiString(s)) == FixAsciiString(s)
  {
  }

  /** One character is kept exactly when it is ASCII. */
  lemma FixAsciiChar(c: char)
    ensures FixAsciiString([c]) == if (c as int) < 128 then [c] else []
  {
    assert [c][1..] == [];
  }

  /** The filter works character by character: with FixAsciiChar this fixes
      the result of every input, and the ASCII characters keep their order. */
  lemma {:induction false} FixAsciiAppend(a: string, b: string)
    ensures FixAsciiString(a + b) == FixAsciiString(a) + FixAsciiString(b)
    decreases |a|
  {
    if a != [] {
      assert (a + b)[0] == a[0] && (a + b)[1..] == a[1..] + b;
      FixAsciiAppend(a[1..], b);
    } else {
      assert a + b == b;
    }
  }

  /** The docstring's example: the two CJK characters go, the rest stays. */
  lemma FixAsciiExample()
    ensures FixAsciiString("Hello, \U{4E16}\U{754C}!") == "Hello, !"
  {
    assert "Hello, " + "\U{4E16}\U{754C}!" == "Hello, \U{4E16}\U{754C}!";
    FixAsciiAppend("Hello, ", "\U{4E16}\U{754C}!");
    FixAsciiAsciiHead();
    FixAsciiCjkTail();
  }

  lemma FixAsciiCjkTail()
    ensures FixAsciiString("\U{4E16}\U{754C}!") == "!"
  {
    assert "\U{4E16}\U{754C}!" == ['\U{4E16}'] + (['\U{754C}'] + ['!']);
    FixAsciiAppend(['\U{4E16}'], ['\U{754C}'] + ['!']);
    FixAsciiAppend(['\U{754C}'], ['!']);
    FixAsciiChar('\U{4E16}');
    FixAsciiChar('\U{754C}');
    FixAsciiChar('!');
  }

  lemma FixAsciiAsciiHead()
    ensures FixAsciiString("Hello, ") == "Hello, "
  {
    assert forall c :: c in "Hello, " ==> (c as int) < 128;
  }

  /** replace_months: the first of mrt, mei, okt that occurs has its first
      occurrence replaced by mar, may, oct; otherwise the input is returned. */
  function ReplaceMonths(s: string): (r: string)
    ensures |r| == |s|
    ensures !Contains(s, "mrt") && !Contains(s, "mei") && !Contains(s, "okt") ==> r == s
  {
    if Contains(s, "mrt") then ReplaceFirst(s, "mrt", "mar")
    else if Contains(s, "mei") then ReplaceFirst(s, "mei", "may")
    else if Contains(s, "okt") then ReplaceFirst(s, "okt", "oct")
    else s
  }

  /** The documented example: "15 mei 2023" becomes "15 may 2023". */
  lemma ReplaceMonthsExample()
    ensures ReplaceMonths("15 mei 2023") == "15 may 2023"
  {
    ExampleNoMrt();
    ExampleMeiAt3();
    ReplaceMonthsMei("15 mei 2023", 3);
    ExampleSplice();
  }

  lemma ReplaceMonthsMei(s: string, i: nat)
    requires !Contains(s, "mrt") && IndexOf(s, "mei") == Some(i)
    ensures ReplaceMonths(s) == s[..i] + "may" + s[i + 3..]
  {
  }

  lemma ExampleSplice()
    ensures "15 mei 2023"[..3] + "may" + "15 mei 2023"[6..] == "15 may 2023"
  {
    var s := "15 mei 2023";
    assert s[..3] == "15 " && s[6..] == " 2023";
  }

  lemma ExampleNoMrt()
    ensures !Contains("15 mei 2023", "mrt")
  {
    AbsentChar("15 mei 2023", "mrt", 't');
  }

  lemma ExampleMeiAt3()
    ensures IndexOf("15 mei 2023", "mei") == Some(3)
  {
    var s := "15 mei 2023";
    assert s[0] == '1' && s[1] == '5' && s[2] == ' ';
    assert !OccursAt(s, "mei", 0) && !OccursAt(s, "mei", 1) && !OccursAt(s, "mei", 2);
    assert s[3..6] == "mei";
    IndexOfAt(s, "mei", 3);
  }

  /** Only the first occurrence is replaced. */
  lemma ReplaceMonthsFirstOccurrenceOnly()
    ensures ReplaceMonths("mrt mrt") == "mar mrt"
  {
    assert IndexOf("mrt mrt", "mrt") == Some(0);
  }

  /** mrt is tried before okt, whatever their positions. */
  lemma ReplaceMonthsOrder()
    ensures ReplaceMonths("okt mrt") == "okt mar"
  {
    ExampleMrtAt4();
    ReplaceMonthsMrt("okt mrt", 4);
    assert "okt mrt"[..4] == "okt ";
  }

  lemma ReplaceMonthsMrt(s: string, i: nat)
    requires IndexOf(s, "mrt") == Some(i)
    ensures ReplaceMonths(s) == s[..i] + "mar" + s[i + 3..]
  {
  }

  lemma ExampleMrtAt4()
    ensures IndexOf("okt mrt", "mrt") == Some(4)
  {
    var s := "okt mrt";
    assert s[0] == 'o' && s[1] == 'k' && s[2] == 't' && s[3] == ' ';
    assert !OccursAt(s, "mrt", 0) && !OccursAt(s, "mrt", 1) && !OccursAt(s, "mrt", 2) && !OccursAt(s, "mrt", 3);
    assert s[4..7] == "mrt";
    IndexOfAt(s, "mrt", 4);
  }

  /** epoch_to_iso: the converted ISO 8601 string, or str(input) when conversion fails. */
  function EpochToIso(c: Codecs, t: Json): (r: string)
    ensures c.epochConvert(t).None? ==> r == PyStr(t)
    ensures c.epochConvert(t).Some? ==> r == c.epochConvert(t).value
  {
    match c.epochConvert(t)
    case Some(iso) => iso
    case None => PyStr(t)
  }

  /** fix_latin1_string: the latin1 round trip, or the input unchanged when it raises. */
  function FixLatin1String(c: Codecs, s: string): (r: string)
    ensures c.latin1RoundTrip(s).None? ==> r == s
  {
    c.latin1RoundTrip(s).GetOr(s)
  }

  /** The sort key of sort_isotimestamp_empty_timestamp_last: minus the
      timestamp for a non-empty parseable string, infinity for anything else. */
  datatype SortKey = Negated(t: int) | Infinity

  predicate KeyLe(a: SortKey, b: SortKey) {
    b.Infinity? || (a.Negated? && a.t <= b.t)
  }

  function TimestampSortKey(c: Codecs, cell: Json): (k: SortKey)
    ensures k.Negated? <==> cell.JStr? && cell.s != [] && c.isoTimestamp(cell.s).Some?
  {
    if cell.JStr? && |cell.s| > 0 then
      match c.isoTimestamp(cell.s)
      case Some(t) => Negated(-t)
      case None => Infinity
    else Infinity
  }

  /** Cells ordered by ascending key: parseable dates, newest first, then the rest. */
  lemma SortedKeysNewestFirst(c: Codecs, cells: seq<Json>, i: nat, j: nat)
    requires forall a, b :: 0 <= a < b < |cells| ==> KeyLe(TimestampSortKey(c, cells[a]), TimestampSortKey(c, cells[b]))
    requires i < j < |cells|
    ensures TimestampSortKey(c, cells[i]).Infinity? ==> TimestampSortKey(c, cells[j]).Infinity?
    ensures TimestampSortKey(c, cells[j]).Negated? ==>
      c.isoTimestamp(cells[i].s).value >= c.isoTimestamp(cells[j].s).value
  {
    assert KeyLe(TimestampSortKey(c, cells[i]), TimestampSortKey(c, cells[j]));
  }

  // ---------------------------------------------------------------------------
  // Reading archive members
  // ---------------------------------------------------------------------------

  /** The first member, in namelist order, whose name ends with target. */
  function FirstSuffixMatch(members: seq<Member>, target: string): (r: Option<nat>)
    ensures r.Some? ==> r.value < |members| && IsSuffix(target, members[r.value].name)
    ensures r.Some? ==> forall j :: 0 <= j < r.value ==> !IsSuffix(target, members[j].name)
    ensures r.None? ==> forall j :: 0 <= j < |members| ==> !IsSuffix(target, members[j].name)
  {
    if members == [] then None
    else if IsSuffix(target, members[0].name) then Some(0)
    else match FirstSuffixMatch(members[1..], target)
      case None => None
      case Some(i) => Some(i + 1)
  }

  /** The buffer extract_file_from_zip returns: the first suffix match's bytes,
      or an empty buffer for a missing member or a bad zip. */
  function FileFromZip(zip: Zip, target: string): Bytes {
    match zip
    case None => []
    case Some(members) =>
      match FirstSuffixMatch(members, target)
      case Some(i) => members[i].data
      case None => []
  }

  method ExtractFileFromZip(zip: Zip, target: string) returns (buf: Bytes)
    ensures buf == FileFromZip(zip, target)
  {
    buf := [];
    if zip.None? { return; }
    var members := zip.value;
    var i := 0;
    while i < |members| && !IsSuffix(target, members[i].name)
      invariant 0 <= i <= |members|
      invariant forall j :: 0 <= j < i ==> !IsSuffix(target, members[j].name)
    {
      i := i + 1;
    }
    if i < |members| {
      buf := members[i].data;
    }
  }

  /** _read_json: utf8 first; only a JSON decode error moves on to utf-8-sig;
      a result that is not a dict or list, or any other error, stops; the
      default is an empty dict. */
  method ReadJson(input: Bytes, reader: (Bytes, Encoding) -> ReadOutcome) returns (out: Json)
    ensures out == JsonOfBytes(input, reader)
  {
    out := JObj([]);
    var encodings := [Utf8, Utf8Sig];
    for e := 0 to |encodings|
      invariant e >= 1 ==> reader(input, Utf8).JsonDecodeError?
      invariant e >= 2 ==> reader(input, Utf8Sig).JsonDecodeError?
      invariant out == JObj([])
    {
      var result := reader(input, encodings[e]);
      if result.Parsed? {
        if !(result.value.JObj? || result.value.JArr?) { break; }  // TypeError
        out := result.value;
        break;
      } else if result.JsonDecodeError? {
        continue;
      } else {
        break;
      }
    }
  }

  /** A decoded dict or list. */
  predicate IsContainer(o: ReadOutcome) {
    o.Parsed? && (o.value.JObj? || o.value.JArr?)
  }

  function JsonOfBytes(input: Bytes, reader: (Bytes, Encoding) -> ReadOutcome): (r: Json)
    ensures r.JObj? || r.JArr?
    ensures IsContainer(reader(input, Utf8)) ==> r == reader(input, Utf8).value
    ensures !IsContainer(reader(input, Utf8)) && !reader(input, Utf8).JsonDecodeError? ==> r == JObj([])
  {
    var first := reader(input, Utf8);
    if IsContainer(first) then first.value
    else if first.JsonDecodeError? && IsContainer(reader(input, Utf8Sig)) then reader(input, Utf8Sig).value
    else JObj([])
  }

  /** utf-8-sig is consulted only after utf8 raised a JSON decode error. */
  lemma SecondEncodingOnlyAfterDecodeError(input: Bytes, r1: (Bytes, Encoding) -> ReadOutcome, r2: (Bytes, Encoding) -> ReadOutcome)
    requires r1(input, Utf8) == r2(input, Utf8) && !r1(input, Utf8).JsonDecodeError?
    ensures JsonOfBytes(input, r1) == JsonOfBytes(input, r2)
  {
  }

  /** read_json_from_bytes(extract_file_from_zip(zip, target)). */
  function JsonFromZip(c: Codecs, zip: Zip, target: string): Json {
    JsonOfBytes(FileFromZip(zip, target), c.readJson)
  }

  /** read_csv_from_bytes: the rows DictReader yielded, kept even when it raises
      part-way, because the function returns its list from a finally block. */
  method ReadCsvFromBytes(input: Bytes, readCsv: Bytes -> CsvStream) returns (out: seq<OMap<string>>)
    ensures out == readCsv(input).rows
    ensures |out| == |readCsv(input).rows|
  {
    out := [];
    var stream := readCsv(input);
    for i := 0 to |stream.rows|
      invariant out == stream.rows[..i]
    {
      out := out + [stream.rows[i]];
    }
    assert stream.rows[..|stream.rows|] == stream.rows;
  }
}
