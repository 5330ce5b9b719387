// The loop the platform extractors share: take a list out of a decoded file,
// append one datapoint per item, and build the frame inside a try block whose
// handler leaves the empty DataFrame() the function started with.
module Records {
  import opened Wrappers
  import Strings
  import opened OrderedMaps
  import opened Json
  import opened Tables
  import opened ExtractionHelpers

  /** A datapoint: the tuple of cells appended for one record. */
  type Row = seq<Json>

  /** The archive an extractor reads: the decoded JSON of the member a target
      names, read_json_from_bytes(extract_file_from_zip(zip, target)), the
      bytes of that member, extract_file_from_zip(zip, target), and the
      number of members. */
  datatype Archive = Archive(read: string -> Json, raw: string -> Bytes, size: nat)

  /** Every member reads as a dict or a list, as read_json_from_bytes returns. */
  ghost predicate Decoded(a: Archive) {
    forall target :: a.read(target).JObj? || a.read(target).JArr?
  }

  /** The archive of a zip file, decoded with the given codecs. */
  function Opened(c: Codecs, zip: Zip): (a: Archive)
    ensures forall target :: a.read(target) == JsonFromZip(c, zip, target)
    ensures forall target :: a.raw(target) == FileFromZip(zip, target)
    ensures Decoded(a)
    ensures a.size == if zip.Some? then |zip.value| else 0
  {
    Archive((target: string) => JsonFromZip(c, zip, target), (target: string) => FileFromZip(zip, target),
            if zip.Some? then |zip.value| else 0)
  }

  // ---------------------------------------------------------------------------
  // Python operations on decoded values
  // ---------------------------------------------------------------------------

  /** d.get(outer, {}).get(key, default): both calls need a dict. */
  function GetIn(d: Json, outer: string, key: string, default: Json): (r: Result<Json>)
    ensures r.Ok? <==> d.JObj? && FieldOr(d, outer, JObj([])).value.JObj?
    ensures r.Ok? ==> r == FieldOr(FieldOr(d, outer, JObj([])).value, key, default)
  {
    match FieldOr(d, outer, JObj([]))
    case Failure => Failure
    case Ok(inner) => FieldOr(inner, key, default)
  }

  /** d[outer][key]. */
  function FieldIn(d: Json, outer: string, key: string): (r: Result<Json>)
    ensures r.Ok? <==> Field(d, outer).Ok? && Field(Field(d, outer).value, key).Ok?
    ensures r.Ok? ==> r == Field(Field(d, outer).value, key)
  {
    match Field(d, outer)
    case Failure => Failure
    case Ok(inner) => Field(inner, key)
  }

  /** key in d: a key of a dict, an element of a list, a substring of a
      string; the test raises on anything else. */
  function PyIn(key: string, d: Json): (r: Result<bool>)
    ensures r.Ok? <==> d.JObj? || d.JArr? || d.JStr?
    ensures d.JObj? ==> r == Ok(key in Keys(d.fields))
    ensures d.JArr? ==> r == Ok(JStr(key) in d.items)
    ensures d.JStr? ==> r == Ok(Strings.Contains(d.s, key))
  {
    match d
    case JObj(fields) => Ok(key in Keys(fields))
    case JArr(items) => Ok(JStr(key) in items)
    case JStr(s) => Ok(Strings.Contains(s, key))
    case _ => Failure
  }

  /** d[0]: the first item of a list or the first character of a string. */
  function First(d: Json): (r: Result<Json>)
    ensures r.Ok? <==> (d.JArr? && d.items != []) || (d.JStr? && d.s != [])
    ensures r.Ok? && d.JArr? ==> r.value == d.items[0]
  {
    match d
    case JArr(items) => if items == [] then Failure else Ok(items[0])
    case JStr(s) => if s == [] then Failure else Ok(JStr([s[0]]))
    case _ => Failure
  }

  /** fix_latin1_string applied to a decoded value: a string is repaired; any
      other value has no encode method, so the handler returns it as it is. */
  function FixLatin1(c: Codecs, j: Json): (r: Json)
    ensures !j.JStr? ==> r == j
    ensures j.JStr? ==> r == JStr(FixLatin1String(c, j.s))
  {
    if j.JStr? then JStr(FixLatin1String(c, j.s)) else j
  }

  /** epoch_to_iso of a decoded value, as a cell. */
  function Epoch(c: Codecs, j: Json): Json {
    JStr(EpochToIso(c, j))
  }

  /** find_item(d, key) for a key without regex metacharacters, as a cell. */
  function Find(d: Flat, key: string): Json {
    JStr(FindItemValue(d, LiteralPattern(key)))
  }

  /** find_items(d, key), as one cell holding the list of values. */
  function FindAll(d: Flat, key: string): Json {
    var vs := FindItemsValue(d, LiteralPattern(key));
    JArr(seq(|vs|, i requires 0 <= i < |vs| => JStr(vs[i])))
  }

  /** How a looked-up value becomes a cell: as it is, through
      fix_latin1_string, or through epoch_to_iso. */
  datatype Cell = Plain(key: string) | Latin1(key: string) | Iso(key: string)

  function CellOf(c: Codecs, cell: Cell, v: Json): Json {
    match cell
    case Plain(_) => v
    case Latin1(_) => FixLatin1(c, v)
    case Iso(_) => Epoch(c, v)
  }

  /** A datapoint of item.get(key, "") lookups, one per cell: it raises
      unless the item is a dict, and a missing key gives "". */
  function GetRow(c: Codecs, cells: seq<Cell>, item: Json): (r: Result<Row>)
    ensures r.Ok? <==> item.JObj?
    ensures r.Ok? ==> |r.value| == |cells|
    ensures r.Ok? ==> forall i :: 0 <= i < |cells| ==> r.value[i] == CellOf(c, cells[i], Get(item.fields, cells[i].key).GetOr(JStr("")))
  {
    if item.JObj? then
      Ok(seq(|cells|, i requires 0 <= i < |cells| => CellOf(c, cells[i], FieldOr(item, cells[i].key, JStr("")).value)))
    else Failure
  }

  /** A datapoint of find_item lookups on the denested item, one per cell;
      find_item does not raise, so neither does the datapoint. */
  function FoundRow(c: Codecs, cells: seq<Cell>, item: Json): (r: Row)
    ensures |r| == |cells|
  {
    var d := Denested(item);
    seq(|cells|, i requires 0 <= i < |cells| => CellOf(c, cells[i], Find(d, cells[i].key)))
  }

  function GetRule(c: Codecs, cells: seq<Cell>): Json -> Result<Row> {
    (item: Json) => GetRow(c, cells, item)
  }

  function FindRule(c: Codecs, cells: seq<Cell>): Json -> Result<Row> {
    (item: Json) => Ok(FoundRow(c, cells, item))
  }

  /** The item itself as a one-cell datapoint. */
  function ItemRule(): Json -> Result<Row> {
    (item: Json) => Ok([item])
  }

  /** fix_latin1_string(item) as a one-cell datapoint. */
  function Latin1ItemRule(c: Codecs): Json -> Result<Row> {
    (item: Json) => Ok([FixLatin1(c, item)])
  }

  /** A rule that never raises gives a datapoint for every item. */
  lemma FindRuleAllOk(c: Codecs, cells: seq<Cell>, items: seq<Json>)
    ensures AllOk(items, FindRule(c, cells))
  {
  }

  // ---------------------------------------------------------------------------
  // One datapoint per item
  // ---------------------------------------------------------------------------

  /** The datapoints a for loop appends, one per item in order, or Failure
      when the datapoint of some item raises. */
  function AllRows(items: seq<Json>, rowOf: Json -> Result<Row>): Result<seq<Row>>
  {
    if items == [] then Ok([])
    else
      match AllRows(items[..|items| - 1], rowOf)
      case Failure => Failure
      case Ok(prev) =>
        match rowOf(items[|items| - 1])
        case Failure => Failure
        case Ok(row) => Ok(prev + [row])
  }

  /** Every item's datapoint can be built. */
  predicate AllOk(items: seq<Json>, rowOf: Json -> Result<Row>) {
    forall i :: 0 <= i < |items| ==> rowOf(items[i]).Ok?
  }

  /** The loop succeeds exactly when no item raises, and then holds one
      datapoint per item, in order. */
  lemma {:induction false} AllRowsSpec(items: seq<Json>, rowOf: Json -> Result<Row>)
    ensures AllRows(items, rowOf).Ok? <==> AllOk(items, rowOf)
    ensures AllRows(items, rowOf).Ok? ==> |AllRows(items, rowOf).value| == |items|
    ensures AllRows(items, rowOf).Ok? ==>
      forall i :: 0 <= i < |items| ==> AllRows(items, rowOf).value[i] == rowOf(items[i]).value
  {
    if items != [] {
      var init := items[..|items| - 1];
      AllRowsSpec(init, rowOf);
      assert forall i :: 0 <= i < |init| ==> init[i] == items[i];
    }
  }

  /** The loop over items[..i + 1] is the loop over items[..i] and one more datapoint. */
  lemma AllRowsStep(items: seq<Json>, i: nat, rowOf: Json -> Result<Row>)
    requires i < |items| && AllRows(items[..i], rowOf).Ok? && rowOf(items[i]).Ok?
    ensures AllRows(items[..i + 1], rowOf) == Ok(AllRows(items[..i], rowOf).value + [rowOf(items[i]).value])
  {
    assert items[..i + 1][..i] == items[..i];
  }

  /** One item that raises fails the whole loop. */
  lemma OneRaiseFailsAll(items: seq<Json>, i: nat, rowOf: Json -> Result<Row>)
    requires i < |items| && rowOf(items[i]).Failure?
    ensures AllRows(items, rowOf).Failure?
  {
    AllRowsSpec(items, rowOf);
  }

  /** for item in items: datapoints.append(...), ended by the first exception. */
  method CollectRows(items: seq<Json>, rowOf: Json -> Result<Row>) returns (r: Result<seq<Row>>)
    ensures r == AllRows(items, rowOf)
  {
    var datapoints: seq<Row> := [];
    for i := 0 to |items|
      invariant AllRows(items[..i], rowOf) == Ok(datapoints)
    {
      var row := rowOf(items[i]);
      if row.Failure? {
        OneRaiseFailsAll(items, i, rowOf);
        return Failure;
      }
      AllRowsStep(items, i, rowOf);
      datapoints := datapoints + [row.value];
    }
    assert items[..|items|] == items;
    return Ok(datapoints);
  }

  // ---------------------------------------------------------------------------
  // The frame
  // ---------------------------------------------------------------------------

  /** The try block of a record extractor: sel is the list expression
      (d["key"] and the like), iterated item by item; any exception leaves the
      empty DataFrame(). */
  function RecordsFrame(columns: seq<string>, sel: Result<Json>, rowOf: Json -> Result<Row>): Frame {
    match sel
    case Failure => Frame([], [])
    case Ok(d) =>
      match Iterate(d)
      case Failure => Frame([], [])
      case Ok(items) =>
        match AllRows(items, rowOf)
        case Failure => Frame([], [])
        case Ok(rows) => Frame(columns, rows)
  }

  /** What a record extractor promises: when the list can be selected and
      iterated and no item raises, the columns and one row per item in order;
      otherwise the empty DataFrame(). */
  predicate Tabulated(f: Frame, columns: seq<string>, sel: Result<Json>, rowOf: Json -> Result<Row>) {
    if sel.Ok? && Iterate(sel.value).Ok? && AllOk(Iterate(sel.value).value, rowOf) then
      var items := Iterate(sel.value).value;
      f.columns == columns && |f.rows| == |items| &&
      forall i :: 0 <= i < |items| ==> f.rows[i] == rowOf(items[i]).value
    else f == Frame([], [])
  }

  lemma RecordsFrameTabulates(columns: seq<string>, sel: Result<Json>, rowOf: Json -> Result<Row>)
    ensures Tabulated(RecordsFrame(columns, sel, rowOf), columns, sel, rowOf)
  {
    if sel.Ok? && Iterate(sel.value).Ok? {
      AllRowsSpec(Iterate(sel.value).value, rowOf);
    }
  }

  /** A record extractor's frame is empty exactly when the list is missing,
      cannot be iterated, has no items or holds an item that raises. */
  lemma RecordsFrameEmpty(columns: seq<string>, sel: Result<Json>, rowOf: Json -> Result<Row>)
    requires columns != []
    ensures RecordsFrame(columns, sel, rowOf).Empty() <==>
      sel.Failure? || Iterate(sel.value).Failure? || Iterate(sel.value).value == [] ||
      !AllOk(Iterate(sel.value).value, rowOf)
  {
    RecordsFrameTabulates(columns, sel, rowOf);
  }

  /** The try block, run: the list, the loop and the frame. */
  method RecordsToDf(columns: seq<string>, sel: Result<Json>, rowOf: Json -> Result<Row>) returns (out: Frame)
    ensures out == RecordsFrame(columns, sel, rowOf)
    ensures Tabulated(out, columns, sel, rowOf)
  {
    RecordsFrameTabulates(columns, sel, rowOf);
    out := Frame([], []);
    if sel.Failure? { return; }
    var items := Iterate(sel.value);
    if items.Failure? { return; }
    var rows := CollectRows(items.value, rowOf);
    if rows.Ok? {
      out := Frame(columns, rows.value);
    }
  }

  // ---------------------------------------------------------------------------
  // Several datapoints per item
  // ---------------------------------------------------------------------------

  /** Nested loops: the datapoints rowsOf yields for each item, in order, or
      Failure when some item raises. */
  function Gathered(items: seq<Json>, rowsOf: Json -> Result<seq<Row>>): Result<seq<Row>>
  {
    if items == [] then Ok([])
    else
      match Gathered(items[..|items| - 1], rowsOf)
      case Failure => Failure
      case Ok(prev) =>
        match rowsOf(items[|items| - 1])
        case Failure => Failure
        case Ok(rows) => Ok(prev + rows)
  }

  /** The nested loop succeeds exactly when no item raises. */
  lemma {:induction false} GatheredOk(items: seq<Json>, rowsOf: Json -> Result<seq<Row>>)
    ensures Gathered(items, rowsOf).Ok? <==> forall i :: 0 <= i < |items| ==> rowsOf(items[i]).Ok?
  {
    if items != [] {
      var init := items[..|items| - 1];
      GatheredOk(init, rowsOf);
      assert forall i :: 0 <= i < |init| ==> init[i] == items[i];
    }
  }

  /** The datapoints of a + b are those of a followed by those of b. */
  lemma {:induction false} GatheredAppend(a: seq<Json>, b: seq<Json>, rowsOf: Json -> Result<seq<Row>>)
    ensures Gathered(a + b, rowsOf) ==
      (if Gathered(a, rowsOf).Ok? && Gathered(b, rowsOf).Ok?
       then Ok(Gathered(a, rowsOf).value + Gathered(b, rowsOf).value) else Failure)
    decreases |b|
  {
    if b == [] {
      assert a + b == a;
      if Gathered(a, rowsOf).Ok? {
        assert Gathered(a, rowsOf).value + [] == Gathered(a, rowsOf).value;
      }
    } else {
      var b' := b[..|b| - 1];
      assert (a + b)[..|a + b| - 1] == a + b';
      assert (a + b)[|a + b| - 1] == b[|b| - 1];
      GatheredAppend(a, b', rowsOf);
      var last := rowsOf(b[|b| - 1]);
      if Gathered(a, rowsOf).Ok? && Gathered(b', rowsOf).Ok? && last.Ok? {
        var pa, pb := Gathered(a, rowsOf).value, Gathered(b', rowsOf).value;
        assert (pa + pb) + last.value == pa + (pb + last.value);
      }
    }
  }

  /** One item's datapoints. */
  lemma GatheredSingle(x: Json, rowsOf: Json -> Result<seq<Row>>)
    ensures Gathered([x], rowsOf) == rowsOf(x)
  {
    assert [x][..0] == [];
    if rowsOf(x).Ok? {
      assert [] + rowsOf(x).value == rowsOf(x).value;
    }
  }

  /** The frame built from the datapoints of nested loops, or the empty
      DataFrame() when they raise. */
  function GatheredFrame(columns: seq<string>, sel: Result<Json>, rowsOf: Json -> Result<seq<Row>>): Frame {
    match sel
    case Failure => Frame([], [])
    case Ok(d) =>
      match Iterate(d)
      case Failure => Frame([], [])
      case Ok(items) =>
        match Gathered(items, rowsOf)
        case Failure => Frame([], [])
        case Ok(rows) => Frame(columns, rows)
  }

  // ---------------------------------------------------------------------------
  // Numbered files
  // ---------------------------------------------------------------------------

  /** rows prepended to a result that may have failed. */
  function Prepend(rows: seq<Row>, r: Result<seq<Row>>): (p: Result<seq<Row>>)
    ensures p.Ok? <==> r.Ok?
    ensures p.Ok? ==> p.value == rows + r.value
  {
    match r
    case Failure => Failure
    case Ok(rest) => Ok(rows + rest)
  }

  /** The while True loop over the numbered files load(i), load(i + 1), …:
      it stops at the first file that decodes to an empty value and fails as
      soon as the loop over one file raises. fuel bounds the number of files
      read. */
  function NumberedRows(load: nat -> Json, rowOf: Json -> Result<Row>, i: nat, fuel: nat): Result<seq<Row>>
    decreases fuel
  {
    if fuel == 0 || !Truthy(load(i)) then Ok([])
    else
      match Iterate(load(i))
      case Failure => Failure
      case Ok(items) =>
        match AllRows(items, rowOf)
        case Failure => Failure
        case Ok(rows) => Prepend(rows, NumberedRows(load, rowOf, i + 1, fuel - 1))
  }

  /** A file whose loop raises, reached through files that all decode to
      something non-empty, discards the datapoints of every file. */
  lemma {:induction false} NumberedRaiseDiscardsAll(load: nat -> Json, rowOf: Json -> Result<Row>, i: nat, fuel: nat, j: nat)
    requires i <= j < i + fuel
    requires forall k :: i <= k <= j ==> Truthy(load(k))
    requires Iterate(load(j)).Ok? && !AllOk(Iterate(load(j)).value, rowOf)
    ensures NumberedRows(load, rowOf, i, fuel).Failure?
    decreases j - i
  {
    if j == i {
      AllRowsSpec(Iterate(load(j)).value, rowOf);
    } else {
      NumberedRaiseDiscardsAll(load, rowOf, i + 1, fuel - 1, j);
    }
  }

  /** Reading starts with the rows of the first file, and stops there when
      the next one decodes to an empty value. */
  lemma NumberedFirstFile(load: nat -> Json, rowOf: Json -> Result<Row>, i: nat, fuel: nat)
    requires fuel > 0 && Truthy(load(i)) && Iterate(load(i)).Ok? && AllOk(Iterate(load(i)).value, rowOf)
    ensures NumberedRows(load, rowOf, i, fuel).Ok? ==>
      AllRows(Iterate(load(i)).value, rowOf).value <= NumberedRows(load, rowOf, i, fuel).value
    ensures fuel == 1 || !Truthy(load(i + 1)) ==>
      NumberedRows(load, rowOf, i, fuel) == AllRows(Iterate(load(i)).value, rowOf)
  {
    AllRowsSpec(Iterate(load(i)).value, rowOf);
    var rows := AllRows(Iterate(load(i)).value, rowOf).value;
    if fuel == 1 || !Truthy(load(i + 1)) {
      assert NumberedRows(load, rowOf, i + 1, fuel - 1) == Ok([]);
      assert rows + [] == rows;
    }
  }

  /** The datapoints of the files from i on, prepended with those already read. */
  lemma PrependAssoc(a: seq<Row>, b: seq<Row>, r: Result<seq<Row>>)
    ensures Prepend(a, Prepend(b, r)) == Prepend(a + b, r)
  {
    if r.Ok? {
      assert a + (b + r.value) == (a + b) + r.value;
    }
  }

  /** The while True loop with its counter, run for at most fuel files. */
  method CollectNumbered(load: nat -> Json, rowOf: Json -> Result<Row>, fuel: nat) returns (r: Result<seq<Row>>)
    ensures r == NumberedRows(load, rowOf, 1, fuel)
  {
    var datapoints: seq<Row> := [];
    var i: nat := 1;
    var left := fuel;
    assert NumberedRows(load, rowOf, 1, fuel).Ok? ==> [] + NumberedRows(load, rowOf, 1, fuel).value == NumberedRows(load, rowOf, 1, fuel).value;
    while left > 0
      invariant NumberedRows(load, rowOf, 1, fuel) == Prepend(datapoints, NumberedRows(load, rowOf, i, left))
      decreases left
    {
      var d := load(i);
      if !Truthy(d) {
        break;
      }
      var items := Iterate(d);
      if items.Failure? {
        return Failure;
      }
      var rows := CollectRows(items.value, rowOf);
      if rows.Failure? {
        return Failure;
      }
      PrependAssoc(datapoints, rows.value, NumberedRows(load, rowOf, i + 1, left - 1));
      datapoints := datapoints + rows.value;
      i := i + 1;
      left := left - 1;
    }
    assert datapoints + [] == datapoints;
    return Ok(datapoints);
  }

  /** The frame of a numbered-files extractor: the empty DataFrame() when a
      file raises, otherwise every datapoint read. */
  function NumberedFrame(columns: seq<string>, load: nat -> Json, rowOf: Json -> Result<Row>, fuel: nat): Frame {
    match NumberedRows(load, rowOf, 1, fuel)
    case Failure => Frame([], [])
    case Ok(rows) => Frame(columns, rows)
  }

  // ---------------------------------------------------------------------------
  // sort_values(by="Date", key=sort_isotimestamp_empty_timestamp_last)
  // ---------------------------------------------------------------------------

  /** The sort key of a datapoint: that of its cell in the date column. */
  function DateKey(c: Codecs, col: nat, row: Row): SortKey {
    if col < |row| then TimestampSortKey(c, row[col]) else Infinity
  }

  predicate Before(c: Codecs, col: nat, x: Row, y: Row) {
    KeyLe(DateKey(c, col, x), DateKey(c, col, y))
  }

  /** Datapoints in ascending key order: newest parseable date first, the rest last. */
  ghost predicate SortedByDate(c: Codecs, col: nat, rows: seq<Row>) {
    forall i, j :: 0 <= i < j < |rows| ==> Before(c, col, rows[i], rows[j])
  }

  /** row placed before the first datapoint whose key it does not exceed. */
  function InsertByDate(c: Codecs, col: nat, row: Row, rows: seq<Row>): (r: seq<Row>)
    ensures multiset(r) == multiset(rows) + multiset{row}
    decreases |rows|
  {
    if rows == [] then [row]
    else if Before(c, col, row, rows[0]) then [row] + rows
    else
      assert rows == [rows[0]] + rows[1..];
      [rows[0]] + InsertByDate(c, col, row, rows[1..])
  }

  /** The rows of a frame sorted by the key of the date column. */
  function SortByDate(c: Codecs, col: nat, rows: seq<Row>): (r: seq<Row>)
    ensures multiset(r) == multiset(rows)
    decreases |rows|
  {
    if rows == [] then []
    else
      assert rows == [rows[0]] + rows[1..];
      InsertByDate(c, col, rows[0], SortByDate(c, col, rows[1..]))
  }

  lemma {:induction false} InsertByDateSorted(c: Codecs, col: nat, row: Row, rows: seq<Row>)
    requires SortedByDate(c, col, rows)
    ensures SortedByDate(c, col, InsertByDate(c, col, row, rows))
    decreases |rows|
  {
    if rows != [] && !Before(c, col, row, rows[0]) {
      InsertByDateSorted(c, col, row, rows[1..]);
      HeadBeforeInserted(c, col, row, rows);
      ConsSorted(c, col, rows[0], InsertByDate(c, col, row, rows[1..]));
    }
  }

  /** A head not after the inserted row is not after anything the insertion
      into the tail yields. */
  lemma HeadBeforeInserted(c: Codecs, col: nat, row: Row, rows: seq<Row>)
    requires SortedByDate(c, col, rows) && rows != [] && !Before(c, col, row, rows[0])
    ensures forall x :: x in InsertByDate(c, col, row, rows[1..]) ==> Before(c, col, rows[0], x)
  {
    var rest := InsertByDate(c, col, row, rows[1..]);
    forall x | x in rest
      ensures Before(c, col, rows[0], x)
    {
      assert x in multiset(rest);
      if x != row {
        var k :| 0 <= k < |rows[1..]| && rows[1..][k] == x;
        assert rows[k + 1] == x;
      }
    }
  }

  /** A row not after any of a sorted sequence can head it. */
  lemma ConsSorted(c: Codecs, col: nat, x: Row, rest: seq<Row>)
    requires SortedByDate(c, col, rest)
    requires forall y :: y in rest ==> Before(c, col, x, y)
    ensures SortedByDate(c, col, [x] + rest)
  {
    var r := [x] + rest;
    forall i, j | 0 <= i < j < |r|
      ensures Before(c, col, r[i], r[j])
    {
      if i == 0 {
        assert r[j] == rest[j - 1];
        assert r[j] in rest;
      } else {
        assert r[i] == rest[i - 1] && r[j] == rest[j - 1];
      }
    }
  }

  /** The sort yields its input rearranged in ascending key order. */
  lemma {:induction false} SortByDateSorted(c: Codecs, col: nat, rows: seq<Row>)
    ensures SortedByDate(c, col, SortByDate(c, col, rows))
    decreases |rows|
  {
    if rows != [] {
      SortByDateSorted(c, col, rows[1..]);
      InsertByDateSorted(c, col, rows[0], SortByDate(c, col, rows[1..]));
    }
  }

  /** A frame sorted on its date column; the empty DataFrame() stays as it is. */
  function SortedFrame(c: Codecs, col: nat, f: Frame): Frame {
    Frame(f.columns, SortByDate(c, col, f.rows))
  }

  /** f is g sorted: the same columns and datapoints, in ascending key order. */
  ghost predicate SortsTo(c: Codecs, col: nat, g: Frame, f: Frame) {
    f.columns == g.columns && multiset(f.rows) == multiset(g.rows) && SortedByDate(c, col, f.rows)
  }

  lemma SortedFrameSorts(c: Codecs, col: nat, g: Frame)
    ensures SortsTo(c, col, g, SortedFrame(c, col, g))
    ensures g.Empty() <==> SortedFrame(c, col, g).Empty()
  {
    SortByDateSorted(c, col, g.rows);
    assert |SortByDate(c, col, g.rows)| == |multiset(g.rows)|;
  }

  /** In a sorted frame a parseable date is never after an unparseable one,
      and parseable dates run from newest to oldest. */
  lemma SortedNewestFirst(c: Codecs, col: nat, rows: seq<Row>, i: nat, j: nat)
    requires SortedByDate(c, col, rows) && i < j < |rows|
    ensures DateKey(c, col, rows[i]).Infinity? ==> DateKey(c, col, rows[j]).Infinity?
    ensures DateKey(c, col, rows[j]).Negated? ==>
      col < |rows[i]| && col < |rows[j]| && c.isoTimestamp(rows[i][col].s).value >= c.isoTimestamp(rows[j][col].s).value
  {
    assert Before(c, col, rows[i], rows[j]);
  }

  // ---------------------------------------------------------------------------
  // The tables of an extraction
  // ---------------------------------------------------------------------------

  /** One table per id, title and extractor, in their order, before the filter. */
  function TablesOf(ids: seq<string>, titles: seq<string>, extractors: seq<(Codecs, Archive) -> Frame>, c: Codecs, a: Archive): (ts: seq<ConsentTable>)
    requires |ids| == |titles| == |extractors|
    ensures |ts| == |ids|
  {
    seq(|ids|, k requires 0 <= k < |ids| => ConsentTable(ids[k], titles[k], extractors[k](c, a)))
  }

  /** Table k carries the k-th id, title and frame, and the filter keeps it
      exactly when that frame is not empty. */
  lemma TableOffered(ids: seq<string>, titles: seq<string>, extractors: seq<(Codecs, Archive) -> Frame>, c: Codecs, a: Archive, k: nat)
    requires |ids| == |titles| == |extractors| && k < |ids|
    ensures TablesOf(ids, titles, extractors, c, a)[k] == ConsentTable(ids[k], titles[k], extractors[k](c, a))
    ensures TablesOf(ids, titles, extractors, c, a)[k] in NonEmptyTables(TablesOf(ids, titles, extractors, c, a)) <==>
      !extractors[k](c, a).Empty()
  {
  }
}
