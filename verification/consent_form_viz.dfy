// The consent form: each donated data frame becomes a table of string cells
// the participant reviews; the reviewed tables are serialised back into the
// payload that answers the consent prompt.
module ConsentFormViz {
  import opened Wrappers
  import opened Strings
  import opened OrderedMaps
  import opened Json
  import opened Commands
  import opened UiTable
  import opened VizUtil

  // ---------------------------------------------------------------------
  // JavaScript values. A decoded frame is a Json value; JavaScript's
  // undefined is None.
  // ---------------------------------------------------------------------

  /** The decimal names "0", "1", … of the first n indices. */
  function Indices(n: nat): (ks: seq<string>)
    ensures |ks| == n
    ensures forall i :: 0 <= i < n ==> ks[i] == NatToString(i)
  {
    seq(n, i requires 0 <= i < n => NatToString(i))
  }

  /** The index below n whose decimal name is the key, if any. */
  function KeyIndex(key: string, n: nat): (r: Option<nat>)
    ensures r.Some? ==> r.value < n && NatToString(r.value) == key
    ensures r.None? ==> forall i :: 0 <= i < n ==> NatToString(i) != key
  {
    if n == 0 then None
    else if NatToString(n - 1) == key then Some(n - 1)
    else KeyIndex(key, n - 1)
  }

  /** v[key]: reading a property of undefined or null throws; an object gives
      its entry, an array or a string its element at a decimal index (and its
      length); other primitives have no such property. */
  function Member(v: Option<Json>, key: string): (r: Result<Option<Json>>)
    ensures r.Failure? <==> v.None? || v == Some(JNull)
    ensures v.Some? && v.value.JObj? ==> r == Ok(Get(v.value.fields, key))
    ensures v.Some? && v.value.JArr? && key != "length" && r.Ok? && r.value.Some? ==>
      exists i :: 0 <= i < |v.value.items| && NatToString(i) == key && r.value.value == v.value.items[i]
    ensures v.Some? && v.value.JArr? && (forall i :: 0 <= i < |v.value.items| ==> NatToString(i) != key) && key != "length" ==>
      r == Ok(None)
  {
    match v
    case None => Failure
    case Some(JNull) => Failure
    case Some(JObj(fields)) => Ok(Get(fields, key))
    case Some(JArr(items)) =>
      if key == "length" then Ok(Some(JInt(|items|)))
      else
        (match KeyIndex(key, |items|)
         case Some(i) => Ok(Some(items[i]))
         case None => Ok(None))
    case Some(JStr(s)) =>
      if key == "length" then Ok(Some(JInt(|s|)))
      else
        (match KeyIndex(key, |s|)
         case Some(i) => Ok(Some(JStr([s[i]])))
         case None => Ok(None))
    case Some(_) => Ok(None)
  }

  /** Object.keys(v): throws on undefined and null; an object gives its keys
      in insertion order, an array or a string its indices, any other
      primitive nothing. */
  function ObjectKeys(v: Option<Json>): (r: Result<seq<string>>)
    ensures r.Failure? <==> v.None? || v == Some(JNull)
    ensures v.Some? && v.value.JObj? ==> r == Ok(Keys(v.value.fields))
    ensures v.Some? && v.value.JArr? ==> r == Ok(Indices(|v.value.items|))
    ensures v.Some? && (v.value.JBool? || v.value.JInt? || v.value.JFloat?) ==> r == Ok([])
  {
    match v
    case None => Failure
    case Some(JNull) => Failure
    case Some(JObj(fields)) => Ok(Keys(fields))
    case Some(JArr(items)) => Ok(Indices(|items|))
    case Some(JStr(s)) => Ok(Indices(|s|))
    case Some(_) => Ok([])
  }

  /** String(x) of a number held in thousandths: a whole number without a
      fractional part, otherwise the shortest decimals. */
  function JsNumber(milli: int): (r: string)
    ensures milli % 1000 == 0 ==> r == IntToString(milli / 1000)
    ensures milli % 1000 != 0 ==> r == FloatRepr(milli)
  {
    if milli % 1000 == 0 then IntToString(milli / 1000) else FloatRepr(milli)
  }

  /** String(x) of a defined value; an array joins its elements with commas,
      null elements giving empty strings. */
  function JsString(j: Json): (r: string)
    ensures j.JStr? ==> r == j.s
    ensures j.JNull? ==> r == "null"
    ensures j.JBool? ==> r == (if j.b then "true" else "false")
    ensures j.JInt? ==> r == IntToString(j.n)
    ensures j.JObj? ==> r == "[object Object]"
    decreases j
  {
    match j
    case JNull => "null"
    case JBool(b) => if b then "true" else "false"
    case JInt(n) => IntToString(n)
    case JFloat(m) => JsNumber(m)
    case JStr(s) => s
    case JArr(items) =>
      Join(seq(|items|, i requires 0 <= i < |items| => if items[i] == JNull then "" else JsString(items[i])), ",")
    case JObj(_) => "[object Object]"
  }

  /** String(x) including undefined. */
  function CellText(v: Option<Json>): (r: string)
    ensures v.None? ==> r == "undefined"
    ensures v.Some? ==> r == JsString(v.value)
  {
    match v
    case None => "undefined"
    case Some(j) => JsString(j)
  }

  // ---------------------------------------------------------------------
  // From a data frame to table rows. A frame is an object from column name
  // to an object from row index to value.
  // ---------------------------------------------------------------------

  /** columnNames: the frame's keys in order. */
  function ColumnNames(df: Json): (r: Result<seq<string>>)
    ensures r.Failure? <==> df.JNull?
    ensures df.JObj? ==> r == Ok(Keys(df.fields))
  {
    ObjectKeys(Some(df))
  }

  /** rowCount: 0 for a frame without columns, otherwise the number of keys
      of the first column minus one (the index of its last row, -1 for an
      empty column). */
  function RowCount(df: Json): (r: Result<int>)
    ensures ColumnNames(df) == Ok([]) ==> r == Ok(0)
    ensures df.JObj? && df.fields != [] && df.fields[0].1.JObj? ==> r == Ok(|df.fields[0].1.fields| - 1)
    ensures r.Ok? ==> r.value >= -1
  {
    match ColumnNames(df)
    case Failure => Failure
    case Ok(names) =>
      if |names| == 0 then Ok(0)
      else
        match Member(Some(df), names[0])
        case Failure => Failure
        case Ok(first) =>
          match ObjectKeys(first)
          case Failure => Failure
          case Ok(keys) => Ok(|keys| - 1)
  }

  /** rowCell: String(frame[column][row]); throws when the column is
      undefined or null. */
  function RowCell(df: Json, column: string, row: nat): (r: Result<string>)
    ensures df.JObj? && Get(df.fields, column).Some? && Get(df.fields, column) != Some(JNull) ==> r.Ok?
    ensures df.JObj? && Get(df.fields, column).None? ==> r.Failure?
  {
    match Member(Some(df), column)
    case Failure => Failure
    case Ok(col) =>
      match Member(col, NatToString(row))
      case Failure => Failure
      case Ok(cell) => Ok(CellText(cell))
  }

  /** The cells of one row, one per column name: columnNames(...).map
      throws as soon as one cell throws. */
  function CellsOf(df: Json, names: seq<string>, row: nat): (r: Result<seq<string>>)
    ensures r.Ok? <==> forall c :: 0 <= c < |names| ==> RowCell(df, names[c], row).Ok?
    ensures r.Ok? ==> |r.value| == |names| && forall c :: 0 <= c < |names| ==> r.value[c] == RowCell(df, names[c], row).value
  {
    if forall c :: 0 <= c < |names| ==> RowCell(df, names[c], row).Ok? then
      Ok(seq(|names|, c requires 0 <= c < |names| => RowCell(df, names[c], row).value))
    else Failure
  }

  /** Rows 0 .. count - 1 of the frame, each with its decimal id; a throwing
      cell ends the whole loop. */
  function RowsUpTo(df: Json, names: seq<string>, count: nat): (r: Result<seq<Row>>)
    ensures r.Ok? <==> forall k :: 0 <= k < count ==> CellsOf(df, names, k).Ok?
    ensures r.Ok? ==> |r.value| == count
    ensures r.Ok? ==> forall k :: 0 <= k < count ==>
      r.value[k] == Row(NatToString(k), CellsOf(df, names, k).value)
  {
    if forall k :: 0 <= k < count ==> CellsOf(df, names, k).Ok? then
      Ok(seq(count, k requires 0 <= k < count => Row(NatToString(k), CellsOf(df, names, k).value)))
    else Failure
  }

  /** The number of rows rows() builds for a row count n: 0 .. n inclusive. */
  function RowsFor(n: int): nat {
    if n < 0 then 0 else n + 1
  }

  /** What rows() yields for a frame. */
  function FrameRows(df: Json): (r: Result<seq<Row>>)
    ensures r.Ok? ==> ColumnNames(df).Ok? && RowCount(df).Ok?
    ensures r.Ok? ==> r == RowsUpTo(df, ColumnNames(df).value, RowsFor(RowCount(df).value))
  {
    match ColumnNames(df)
    case Failure => Failure
    case Ok(names) =>
      match RowCount(df)
      case Failure => Failure
      case Ok(n) => RowsUpTo(df, names, RowsFor(n))
  }

  /** rows: a loop over row = 0 .. rowCount inclusive that pushes one row per
      index, with the cells of that row under every column. */
  method Rows(data: Json) returns (result: Result<seq<Row>>)
    ensures result == FrameRows(data)
  {
    var n := RowCount(data);
    if n.Failure? {
      return Failure;
    }
    var names := ColumnNames(data);
    if names.Failure? {
      return Failure;
    }
    var acc: seq<Row> := [];
    var row: nat := 0;
    while row <= n.value
      invariant row <= RowsFor(n.value)
      invariant RowsUpTo(data, names.value, row) == Ok(acc)
      decreases n.value + 1 - row
    {
      var cells := CellsOf(data, names.value, row);
      if cells.Failure? {
        return Failure;
      }
      RowsUpToStep(data, names.value, row, acc);
      acc := acc + [Row(NatToString(row), cells.value)];
      row := row + 1;
    }
    assert row == RowsFor(n.value);
    result := Ok(acc);
  }

  /** One more row on a loop that has read rows 0 .. count - 1. */
  lemma RowsUpToStep(df: Json, names: seq<string>, count: nat, acc: seq<Row>)
    requires RowsUpTo(df, names, count) == Ok(acc)
    requires CellsOf(df, names, count).Ok?
    ensures RowsUpTo(df, names, count + 1) == Ok(acc + [Row(NatToString(count), CellsOf(df, names, count).value)])
  {
    var next := acc + [Row(NatToString(count), CellsOf(df, names, count).value)];
    var r := RowsUpTo(df, names, count + 1);
    assert r.Ok?;
    assert |r.value| == |next|;
    forall k | 0 <= k < count + 1 ensures r.value[k] == next[k] {
    }
    assert r.value == next;
  }

  /** The rows of a frame: ids "0", "1", … in order, and under every column
      the text of that column's entry for the row. */
  lemma FrameRowsShape(df: Json, k: nat, c: nat)
    requires FrameRows(df).Ok?
    requires k < |FrameRows(df).value|
    requires c < |ColumnNames(df).value|
    ensures |FrameRows(df).value| == RowsFor(RowCount(df).value)
    ensures FrameRows(df).value[k].id == NatToString(k)
    ensures |FrameRows(df).value[k].cells| == |ColumnNames(df).value|
    ensures FrameRows(df).value[k].cells[c] == RowCell(df, ColumnNames(df).value[c], k).value
  {
  }

  /** A frame without columns still yields one row, "0", with no cells. */
  lemma NoColumnsOneEmptyRow(df: Json)
    requires ColumnNames(df) == Ok([])
    ensures FrameRows(df) == Ok([Row("0", [])])
  {
    assert NatToString(0) == "0";
    assert CellsOf(df, [], 0) == Ok([]);
    assert RowsUpTo(df, [], 1).value == [Row("0", [])];
  }

  /** A record-style frame: an object of columns, none null, the first an
      object with m > 0 entries, gives exactly m rows, each with one cell per
      column. */
  lemma RecordFrameRows(df: Json)
    requires df.JObj? && df.fields != []
    requires df.fields[0].1.JObj? && |df.fields[0].1.fields| > 0
    requires forall i :: 0 <= i < |df.fields| ==> df.fields[i].1 != JNull
    ensures FrameRows(df).Ok?
    ensures |FrameRows(df).value| == |df.fields[0].1.fields|
    ensures forall k :: 0 <= k < |FrameRows(df).value| ==> |FrameRows(df).value[k].cells| == |df.fields|
  {
    var names := Keys(df.fields);
    var m := |df.fields[0].1.fields|;
    forall k, c | 0 <= k < m && 0 <= c < |names| ensures RowCell(df, names[c], k).Ok? {
      assert names[c] in Keys(df.fields);
      var v := Get(df.fields, names[c]).value;
      var i :| 0 <= i < |df.fields| && df.fields[i] == (names[c], v);
    }
    assert RowsUpTo(df, names, RowsFor(m - 1)).Ok?;
  }

  // ---------------------------------------------------------------------
  // Parsing the prompt's tables.
  // ---------------------------------------------------------------------

  /** One table of the consent prompt; the title and description are texts
      of the host's translator, whose type is left open. */
  datatype TableData<Text> = TableData(
    id: string,
    title: Text,
    description: Option<Text>,
    dataFrame: Json,
    folded: Option<bool>,
    deleteOption: bool)

  /** loadDataFrame: a string is JSON-parsed (parse may throw), anything else
      is the frame itself. */
  function LoadDataFrame(frame: Json, parse: string -> Result<Json>): (r: Result<Json>)
    ensures frame.JStr? ==> r == parse(frame.s)
    ensures !frame.JStr? ==> r == Ok(frame)
  {
    if frame.JStr? then parse(frame.s) else Ok(frame)
  }

  /** parseTable: the table as the participant first sees it. */
  function ParseTable<Text>(data: TableData<Text>, translate: Text -> string, parse: string -> Result<Json>)
    : (r: Result<TableWithContext>)
    ensures r.Failure? <==>
      LoadDataFrame(data.dataFrame, parse).Failure? ||
      FrameRows(LoadDataFrame(data.dataFrame, parse).value).Failure?
    ensures r.Ok? ==>
      var df := LoadDataFrame(data.dataFrame, parse).value;
      && r.value.id == data.id
      && r.value.title == translate(data.title)
      && r.value.description == (if data.description.Some? then translate(data.description.value) else "")
      && r.value.head == ColumnNames(df).value
      && r.value.body == FrameRows(df).value
      && r.value.deletedRowCount == 0
      && r.value.originalBody == r.value.body
      && r.value.deletedRows == []
      && r.value.folded == (data.folded == Some(true))
      && r.value.deleteOption == data.deleteOption
  {
    match LoadDataFrame(data.dataFrame, parse)
    case Failure => Failure
    case Ok(df) =>
      match FrameRows(df)
      case Failure => Failure
      case Ok(body) =>
        var description := if data.description.Some? then translate(data.description.value) else "";
        Ok(TableWithContext(
          data.id, ColumnNames(df).value, body, translate(data.title), description,
          0, body, [], data.folded.GetOr(false), data.deleteOption))
  }

  /** parseTables: every table parsed in order; any throw ends the parse. */
  function ParseTables<Text>(datas: seq<TableData<Text>>, translate: Text -> string, parse: string -> Result<Json>)
    : (r: Result<seq<TableWithContext>>)
    ensures r.Ok? <==> forall k :: 0 <= k < |datas| ==> ParseTable(datas[k], translate, parse).Ok?
    ensures r.Ok? ==> |r.value| == |datas|
    ensures r.Ok? ==> forall k :: 0 <= k < |datas| ==> r.value[k] == ParseTable(datas[k], translate, parse).value
  {
    if forall k :: 0 <= k < |datas| ==> ParseTable(datas[k], translate, parse).Ok? then
      Ok(seq(|datas|, k requires 0 <= k < |datas| => ParseTable(datas[k], translate, parse).value))
    else Failure
  }

  // ---------------------------------------------------------------------
  // Replacing a table after an edit.
  // ---------------------------------------------------------------------

  function TableIds(tables: seq<TableWithContext>): (ids: seq<string>)
    ensures |ids| == |tables|
    ensures forall k :: 0 <= k < |tables| ==> ids[k] == tables[k].id
  {
    seq(|tables|, k requires 0 <= k < |tables| => tables[k].id)
  }

  /** The list after updateTable: the first table with the id replaced, or
      the list as it was when no table has the id. */
  function UpdatedTables(tables: seq<TableWithContext>, tableId: string, table: TableWithContext)
    : (r: seq<TableWithContext>)
    ensures (forall k :: 0 <= k < |tables| ==> tables[k].id != tableId) ==> r == tables
    ensures forall k :: 0 <= k < |tables| && tables[k].id == tableId && (forall j :: 0 <= j < k ==> tables[j].id != tableId) ==>
      r == tables[k := table]
  {
    match FindIndex(TableIds(tables), tableId)
    case None => tables
    case Some(i) =>
      assert forall j :: 0 <= j < i ==> tables[j].id == TableIds(tables)[..i][j];
      tables[i := table]
  }

  /** Replacing a table by one with the same id keeps the ids, so a later
      update finds the same position. */
  lemma UpdateKeepsIds(tables: seq<TableWithContext>, tableId: string, table: TableWithContext)
    requires table.id == tableId
    ensures TableIds(UpdatedTables(tables, tableId, table)) == TableIds(tables)
  {
    match FindIndex(TableIds(tables), tableId)
    case None =>
    case Some(i) =>
      assert forall j :: 0 <= j < i ==> tables[j].id == TableIds(tables)[..i][j];
  }

  // ---------------------------------------------------------------------
  // Serialising the reviewed tables.
  // ---------------------------------------------------------------------

  /** _.zip(keys, values): as long as the longer list, undefined padding the
      shorter; an undefined key names the property "undefined". */
  function ZipPairs(keys: seq<string>, values: seq<string>): (r: seq<(string, Option<string>)>)
    ensures |r| == if |keys| >= |values| then |keys| else |values|
    ensures forall i :: 0 <= i < |keys| && i < |values| ==> r[i] == (keys[i], Some(values[i]))
  {
    var n := if |keys| >= |values| then |keys| else |values|;
    seq(n, i requires 0 <= i < n =>
      (if i < |keys| then keys[i] else "undefined", if i < |values| then Some(values[i]) else None))
  }

  /** The properties JSON.stringify writes: those whose value is defined. */
  function DefinedFields(m: OMap<Option<string>>): (r: OMap<Json>)
    ensures |r| <= |m|
    ensures (forall i :: 0 <= i < |m| ==> m[i].1.Some?) ==>
      |r| == |m| && forall i :: 0 <= i < |m| ==> r[i] == (m[i].0, JStr(m[i].1.value))
  {
    if m == [] then []
    else
      var rest := DefinedFields(m[1..]);
      match m[0].1
      case None => rest
      case Some(v) => [(m[0].0, JStr(v))] + rest
  }

  /** serializeRow: _.fromPairs of the zipped head and row cells (a later
      pair with the same key overwrites an earlier one in place). */
  function SerializeRow(row: Row, head: seq<string>): (r: Json)
    ensures r.JObj?
  {
    JObj(DefinedFields(PutAll([], ZipPairs(head, row.cells))))
  }

  /** Putting entries with pairwise distinct keys into an empty dictionary
      keeps them as they are, in order. */
  lemma {:induction false} PutAllDistinct<V>(entries: seq<(string, V)>, n: nat)
    requires n <= |entries|
    requires forall i, j :: 0 <= i < j < |entries| ==> entries[i].0 != entries[j].0
    ensures PutAll([], entries[..n]) == entries[..n]
  {
    if n > 0 {
      var init, last := entries[..n - 1], entries[n - 1];
      calc {
        PutAll([], entries[..n]);
        == { assert entries[..n] == init + [last]; }
        PutAll([], init + [last]);
        == { PutAllAppend([], init, [last]); }
        PutAll(PutAll([], init), [last]);
        == { PutAllDistinct(entries, n - 1); }
        PutAll(init, [last]);
        ==
        Put(init, last.0, last.1);
        == { LastFresh(entries, n); PutFresh(init, last.0, last.1); }
        init + [last];
        == { assert entries[..n] == init + [last]; }
        entries[..n];
      }
    }
  }

  /** The key of entry n - 1 is not among the keys before it. */
  lemma LastFresh<V>(entries: seq<(string, V)>, n: nat)
    requires 0 < n <= |entries|
    requires forall i, j :: 0 <= i < j < |entries| ==> entries[i].0 != entries[j].0
    ensures entries[n - 1].0 !in Keys(entries[..n - 1])
  {
    var init := entries[..n - 1];
    forall k | 0 <= k < |init| ensures Keys(init)[k] != entries[n - 1].0 {
      assert init[k] == entries[k];
    }
  }

  /** With distinct head cells and one cell per column, a row serialises to
      the object from each head cell to the row's cell under it, in column
      order. */
  lemma SerializeRowFields(row: Row, head: seq<string>)
    requires forall i, j :: 0 <= i < j < |head| ==> head[i] != head[j]
    requires |row.cells| == |head|
    ensures SerializeRow(row, head) ==
      JObj(seq(|head|, i requires 0 <= i < |head| => (head[i], JStr(row.cells[i]))))
  {
    var pairs := ZipPairs(head, row.cells);
    PutAllDistinct(pairs, |pairs|);
    assert pairs[..|pairs|] == pairs;
  }

  /** A repeated head cell keeps its first position and takes the later cell. */
  lemma SerializeRowDuplicateHead()
    ensures SerializeRow(Row("0", ["1", "2"]), ["a", "a"]) == JObj([("a", JStr("2"))])
  {
    var pairs := ZipPairs(["a", "a"], ["1", "2"]);
    assert pairs == [("a", Some("1")), ("a", Some("2"))];
    assert PutAll([], pairs) == [("a", Some("2"))];
  }

  /** A short row leaves the missing properties undefined, which the
      serialised text omits. */
  lemma SerializeRowShort()
    ensures SerializeRow(Row("0", ["1"]), ["a", "b"]) == JObj([("a", JStr("1"))])
  {
    var pairs := ZipPairs(["a", "b"], ["1"]);
    assert pairs == [("a", Some("1")), ("b", None)];
    PutAllDistinct(pairs, 2);
    assert pairs[..2] == pairs;
    assert DefinedFields(pairs[1..]) == [];
  }

  /** An extra cell lands under the key "undefined". */
  lemma SerializeRowExtraCell()
    ensures SerializeRow(Row("0", ["1", "2"]), ["a"]) == JObj([("a", JStr("1")), ("undefined", JStr("2"))])
  {
    var pairs := ZipPairs(["a"], ["1", "2"]);
    assert pairs == [("a", Some("1")), ("undefined", Some("2"))];
    PutAllDistinct(pairs, 2);
    assert pairs[..2] == pairs;
    assert DefinedFields(pairs) == [("a", JStr("1")), ("undefined", JStr("2"))];
  }

  /** serializeTable: the object with the table id as its one key and the
      serialised current rows, in order, as its value. */
  function SerializeTable(t: TableWithContext): (r: Json)
    ensures r.JObj? && Keys(r.fields) == [t.id]
    ensures r.fields[0].1.JArr? && |r.fields[0].1.items| == |t.body|
    ensures forall k :: 0 <= k < |t.body| ==> r.fields[0].1.items[k] == SerializeRow(t.body[k], t.head)
  {
    JObj([(t.id, JArr(seq(|t.body|, k requires 0 <= k < |t.body| => SerializeRow(t.body[k], t.head))))])
  }

  /** serializeTables: one object per table, in the form's order. */
  function SerializeTables(tables: seq<TableWithContext>): (r: Json)
    ensures r.JArr? && |r.items| == |tables|
    ensures forall k :: 0 <= k < |tables| ==> r.items[k] == SerializeTable(tables[k])
  {
    JArr(seq(|tables|, k requires 0 <= k < |tables| => SerializeTable(tables[k])))
  }

  /** Deleted rows never reach the donation: only the current body is
      serialised, so a table whose rows were all deleted donates an empty
      list. */
  lemma DeletedRowsNotSerialised(t: TableWithContext)
    requires t.body == []
    ensures SerializeTable(t) == JObj([(t.id, JArr([]))])
  {
  }

  /** The state of the consent form: the tables under review and whether a
      donation is under way. */
  class ConsentForm {
    var tables: seq<TableWithContext>
    var isDonating: bool

    constructor(parsed: seq<TableWithContext>)
      ensures tables == parsed && !isDonating
    {
      tables := parsed;
      isDonating := false;
    }

    /** updateTable: replace the table with the id in a copy of the list. */
    method UpdateTable(tableId: string, table: TableWithContext)
      modifies this
      ensures tables == UpdatedTables(old(tables), tableId, table)
      ensures isDonating == old(isDonating)
    {
      var index := FindIndex(TableIds(tables), tableId);
      if index.None? {
        return;
      }
      var newTables := tables;
      newTables := newTables[index.value := table];
      assert forall j :: 0 <= j < index.value ==> tables[j].id == TableIds(tables)[..index.value][j];
      tables := newTables;
    }

    /** handleDonate: mark the donation under way and answer the prompt with
        the serialised tables; the text serialiser is the parameter. */
    method HandleDonate(stringify: Json -> string) returns (p: Payload)
      modifies this
      ensures isDonating && tables == old(tables)
      ensures p == PayloadJSON(stringify(SerializeTables(tables)))
    {
      isDonating := true;
      p := PayloadJSON(stringify(SerializeTables(tables)));
    }

    /** handleCancel: answer the prompt with false. */
    method HandleCancel() returns (p: Payload)
      ensures p == PayloadFalse
    {
      p := PayloadFalse;
    }
  }
}
