// read_csv_from_bytes_to_df: pd.DataFrame over the list of dicts that
// csv.DictReader yields. The columns are the keys in the order in which they
// first appear, and a row that lacks a column holds NaN there.
module CsvFrames {
  import opened Wrappers
  import opened OrderedMaps
  import opened Json
  import opened Tables
  import opened ExtractionHelpers
  import opened Sorting

  /** cols followed by the keys not among them yet, each once, in their order. */
  function AddColumns(cols: seq<string>, keys: seq<string>): seq<string>
    decreases |keys|
  {
    if keys == [] then cols
    else AddColumns(if keys[0] in cols then cols else cols + [keys[0]], keys[1..])
  }

  /** Adding keys keeps the columns there were, adds exactly the keys, and
      never repeats a column. */
  lemma {:induction false} AddColumnsSpec(cols: seq<string>, keys: seq<string>)
    ensures cols <= AddColumns(cols, keys)
    ensures forall c :: c in AddColumns(cols, keys) <==> c in cols || c in keys
    ensures Distinct(cols) ==> Distinct(AddColumns(cols, keys))
    decreases |keys|
  {
    if keys != [] {
      var next := if keys[0] in cols then cols else cols + [keys[0]];
      AddColumnsSpec(next, keys[1..]);
      assert forall c :: c in keys <==> c == keys[0] || c in keys[1..];
      assert cols <= next;
    }
  }

  /** Keys that are all new and distinct are appended as they stand. */
  lemma {:induction false} AddFreshColumns(cols: seq<string>, keys: seq<string>)
    requires Distinct(keys) && forall k :: k in keys ==> k !in cols
    ensures AddColumns(cols, keys) == cols + keys
    decreases |keys|
  {
    if keys != [] {
      assert keys[0] in keys;
      forall k | k in keys[1..] ensures k !in cols + [keys[0]] {
        var j :| 0 <= j < |keys[1..]| && keys[1..][j] == k;
        assert keys[j + 1] == k;
      }
      AddFreshColumns(cols + [keys[0]], keys[1..]);
      assert cols + [keys[0]] + keys[1..] == cols + keys;
    }
  }

  /** Keys that are all columns already change nothing. */
  lemma {:induction false} AddKnownColumns(cols: seq<string>, keys: seq<string>)
    requires forall k :: k in keys ==> k in cols
    ensures AddColumns(cols, keys) == cols
    decreases |keys|
  {
    if keys != [] {
      assert keys[0] in keys;
      AddKnownColumns(cols, keys[1..]);
    }
  }

  /** The columns after acc for the keys of the rows, row by row. */
  function ColumnsFrom(acc: seq<string>, rows: seq<OMap<string>>): seq<string>
    decreases |rows|
  {
    if rows == [] then acc else ColumnsFrom(AddColumns(acc, Keys(rows[0])), rows[1..])
  }

  /** The columns pandas gives a list of dicts. */
  function Columns(rows: seq<OMap<string>>): seq<string> {
    ColumnsFrom([], rows)
  }

  lemma {:induction false} ColumnsFromSpec(acc: seq<string>, rows: seq<OMap<string>>)
    ensures acc <= ColumnsFrom(acc, rows)
    ensures forall c :: c in ColumnsFrom(acc, rows) <==> c in acc || exists i :: 0 <= i < |rows| && c in Keys(rows[i])
    ensures Distinct(acc) ==> Distinct(ColumnsFrom(acc, rows))
    decreases |rows|
  {
    if rows != [] {
      var next := AddColumns(acc, Keys(rows[0]));
      AddColumnsSpec(acc, Keys(rows[0]));
      ColumnsFromSpec(next, rows[1..]);
      forall c ensures (exists i :: 0 <= i < |rows| && c in Keys(rows[i])) <==>
        c in Keys(rows[0]) || exists i :: 0 <= i < |rows[1..]| && c in Keys(rows[1..][i])
      {
        if exists i :: 0 <= i < |rows| && c in Keys(rows[i]) {
          var i :| 0 <= i < |rows| && c in Keys(rows[i]);
          if i > 0 { assert rows[1..][i - 1] == rows[i]; }
        }
        if exists i :: 0 <= i < |rows[1..]| && c in Keys(rows[1..][i]) {
          var i :| 0 <= i < |rows[1..]| && c in Keys(rows[1..][i]);
          assert rows[i + 1] == rows[1..][i];
        }
      }
    }
  }

  /** The columns are distinct, and they are exactly the keys of the rows. */
  lemma ColumnsSpec(rows: seq<OMap<string>>)
    ensures Distinct(Columns(rows))
    ensures forall c :: c in Columns(rows) <==> exists i :: 0 <= i < |rows| && c in Keys(rows[i])
  {
    ColumnsFromSpec([], rows);
  }

  lemma {:induction false} SharedKeysFrom(ks: seq<string>, rows: seq<OMap<string>>)
    requires forall i :: 0 <= i < |rows| ==> Keys(rows[i]) == ks
    ensures ColumnsFrom(ks, rows) == ks
    decreases |rows|
  {
    if rows != [] {
      AddKnownColumns(ks, Keys(rows[0]));
      SharedKeysFrom(ks, rows[1..]);
    }
  }

  /** When every row has the same distinct keys, as DictReader's rows share
      its fieldnames, the columns are those keys in their order. */
  lemma SharedKeysAreColumns(ks: seq<string>, rows: seq<OMap<string>>)
    requires rows != [] && Distinct(ks)
    requires forall i :: 0 <= i < |rows| ==> Keys(rows[i]) == ks
    ensures Columns(rows) == ks
  {
    AddFreshColumns([], ks);
    assert AddColumns([], Keys(rows[0])) == ks;
    SharedKeysFrom(ks, rows[1..]);
  }

  /** A cell: the row's value under the column, NaN (null) where it has none. */
  function CsvCell(row: OMap<string>, column: string): Json {
    match Get(row, column)
    case Some(v) => JStr(v)
    case None => JNull
  }

  /** pd.DataFrame(list_of_dicts). */
  function CsvFrame(rows: seq<OMap<string>>): (f: Frame)
    ensures |f.rows| == |rows| && f.Rectangular()
  {
    var cols := Columns(rows);
    Frame(cols, seq(|rows|, i requires 0 <= i < |rows| =>
      seq(|cols|, k requires 0 <= k < |cols| => CsvCell(rows[i], cols[k]))))
  }

  /** One row per dict and one distinct column per key; a cell holds the
      dict's value for its column and NaN when the dict lacks it. */
  lemma CsvFrameSpec(rows: seq<OMap<string>>, i: nat, c: string)
    requires i < |rows|
    ensures Distinct(CsvFrame(rows).columns)
    ensures c in Keys(rows[i]) ==> c in CsvFrame(rows).columns
    ensures forall k :: 0 <= k < |CsvFrame(rows).columns| && CsvFrame(rows).columns[k] == c ==>
      (c in Keys(rows[i]) ==> CsvFrame(rows).rows[i][k] == JStr(Get(rows[i], c).value)) &&
      (c !in Keys(rows[i]) ==> CsvFrame(rows).rows[i][k] == JNull)
  {
    ColumnsSpec(rows);
  }

  /** The frame is empty exactly when no dict has a key. */
  lemma CsvFrameEmpty(rows: seq<OMap<string>>)
    ensures CsvFrame(rows).Empty() <==> forall i :: 0 <= i < |rows| ==> Keys(rows[i]) == []
  {
    ColumnsSpec(rows);
    forall i | 0 <= i < |rows| && Keys(rows[i]) != [] ensures Columns(rows) != [] {
      assert Keys(rows[i])[0] in Keys(rows[i]);
      assert Keys(rows[i])[0] in Columns(rows);
    }
    if Columns(rows) != [] {
      var c := Columns(rows)[0];
      assert c in Columns(rows);
      var i :| 0 <= i < |rows| && c in Keys(rows[i]);
      assert Keys(rows[i]) != [];
    }
  }

  /** read_csv_from_bytes_to_df: the frame of the rows the reader yielded. */
  function CsvToDf(c: Codecs, b: Bytes): Frame {
    CsvFrame(c.readCsv(b).rows)
  }
}
