// The tables the extractors hand to the consent form: a data frame with named
// columns and rows of decoded cells, wrapped with an id and a title.
module Tables {
  import opened Json

  /** A data frame as the extractors build it: the column names and one
      sequence of cells per row. */
  datatype Frame = Frame(columns: seq<string>, rows: seq<seq<Json>>) {
    /** pandas' DataFrame.empty: no rows or no columns. */
    predicate Empty() {
      |columns| == 0 || |rows| == 0
    }

    /** Every row has one cell per column. */
    predicate Rectangular() {
      forall i :: 0 <= i < |rows| ==> |rows[i]| == |columns|
    }
  }

  /** A frame built with DataFrame(datapoints, columns=...) from no datapoints. */
  function EmptyFrame(columns: seq<string>): (f: Frame)
    ensures f.Empty() && f.columns == columns && f.Rectangular()
  {
    Frame(columns, [])
  }

  /** A consent-form table: an id the donation is filed under, a title and the frame. */
  datatype ConsentTable = ConsentTable(id: string, title: string, frame: Frame)

  /** [table for table in tables if not table.data_frame.empty]. */
  function NonEmptyTables(ts: seq<ConsentTable>): (r: seq<ConsentTable>)
    ensures |r| <= |ts|
    ensures forall t :: t in r <==> t in ts && !t.frame.Empty()
  {
    if ts == [] then []
    else (if ts[0].frame.Empty() then [] else [ts[0]]) + NonEmptyTables(ts[1..])
  }

  /** The filter keeps the order of the tables it keeps. */
  lemma {:induction false} NonEmptyTablesAppend(a: seq<ConsentTable>, b: seq<ConsentTable>)
    ensures NonEmptyTables(a + b) == NonEmptyTables(a) + NonEmptyTables(b)
  {
    if a == [] {
      assert a + b == b;
    } else {
      assert (a + b)[0] == a[0] && (a + b)[1..] == a[1..] + b;
      NonEmptyTablesAppend(a[1..], b);
    }
  }

  /** Filtering twice keeps the same tables. */
  lemma {:induction false} NonEmptyTablesIdempotent(ts: seq<ConsentTable>)
    ensures NonEmptyTables(NonEmptyTables(ts)) == NonEmptyTables(ts)
  {
    if ts != [] {
      NonEmptyTablesIdempotent(ts[1..]);
      var head := if ts[0].frame.Empty() then [] else [ts[0]];
      NonEmptyTablesAppend(head, NonEmptyTables(ts[1..]));
      if !ts[0].frame.Empty() {
        assert NonEmptyTables([ts[0]]) == [ts[0]] + NonEmptyTables([]) by {
          assert [ts[0]][1..] == [];
        }
      }
    }
  }

  /** The filter keeps the fixed order: two kept tables appear in the result
      in the order they had. */
  lemma NonEmptyTablesOrder(ts: seq<ConsentTable>, i: nat, j: nat)
    requires i < j < |ts| && !ts[i].frame.Empty() && !ts[j].frame.Empty()
    ensures exists a, b :: 0 <= a < b < |NonEmptyTables(ts)| && NonEmptyTables(ts)[a] == ts[i] && NonEmptyTables(ts)[b] == ts[j]
  {
    var front, back := ts[..j], ts[j..];
    assert ts == front + back;
    NonEmptyTablesAppend(front, back);
    var p := NonEmptyTables(front);
    assert front[i] == ts[i];
    assert ts[i] in front;
    assert ts[i] in p;
    var a :| 0 <= a < |p| && p[a] == ts[i];
    var q := NonEmptyTables(back);
    assert back[0] == ts[j];
    assert q == [ts[j]] + NonEmptyTables(back[1..]);
    var r := NonEmptyTables(ts);
    assert r == p + q;
    assert r[a] == ts[i] && r[|p|] == ts[j];
  }
}
