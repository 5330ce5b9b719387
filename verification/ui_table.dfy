// The table shapes the consent form shows: rows of string cells under a head
// of column names, and the context the form keeps beside each table.
module UiTable {

  datatype Row = Row(id: string, cells: seq<string>)

  /** A table as the figures read it: id, head cells and body rows. */
  datatype Table = Table(id: string, head: seq<string>, rows: seq<Row>)

  /** A table together with what the form remembers about it: the body as
      first shown, the batches of deleted row ids in order, and the count of
      rows currently removed. */
  datatype TableWithContext = TableWithContext(
    id: string,
    head: seq<string>,
    body: seq<Row>,
    title: string,
    description: string,
    deletedRowCount: int,
    originalBody: seq<Row>,
    deletedRows: seq<seq<string>>,
    folded: bool,
    deleteOption: bool)
  {
    /** The table the figures and the search read. */
    function View(): (t: Table)
      ensures t.id == id && t.head == head && t.rows == body
    {
      Table(id, head, body)
    }
  }

  /** The ids of some rows, in order. */
  function RowIds(rows: seq<Row>): (ids: seq<string>)
    ensures |ids| == |rows|
    ensures forall k :: 0 <= k < |rows| ==> ids[k] == rows[k].id
  {
    seq(|rows|, k requires 0 <= k < |rows| => rows[k].id)
  }
}
