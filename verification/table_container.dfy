// The review of one table: the participant searches its rows, deletes rows in
// batches and undoes the last batch. Every deletion is recomputed from the
// body the table was first shown with.
module TableContainer {
  import opened Wrappers
  import opened Strings
  import opened UiTable
  import opened ConsentFormViz

  // ---------------------------------------------------------------------
  // Filtering rows by id.
  // ---------------------------------------------------------------------

  /** rows.filter(row => keep(row.id)). */
  function FilterRows(rows: seq<Row>, keep: string -> bool): (r: seq<Row>)
    ensures |r| <= |rows|
    ensures forall row :: row in r <==> row in rows && keep(row.id)
  {
    if rows == [] then []
    else
      var init := FilterRows(rows[..|rows| - 1], keep);
      assert rows == rows[..|rows| - 1] + [rows[|rows| - 1]];
      if keep(rows[|rows| - 1].id) then init + [rows[|rows| - 1]] else init
  }

  /** Filtering keeps the order: the rows kept from a + b are those kept from
      a followed by those kept from b. */
  lemma {:induction false} FilterRowsAppend(a: seq<Row>, b: seq<Row>, keep: string -> bool)
    ensures FilterRows(a + b, keep) == FilterRows(a, keep) + FilterRows(b, keep)
    decreases |b|
  {
    if b == [] {
      assert a + b == a;
    } else {
      var b' := b[..|b| - 1];
      assert (a + b)[..|a + b| - 1] == a + b';
      assert (a + b)[|a + b| - 1] == b[|b| - 1];
      FilterRowsAppend(a, b', keep);
    }
  }

  /** Keeping every row changes nothing. */
  lemma {:induction false} FilterRowsAll(rows: seq<Row>, keep: string -> bool)
    requires forall k :: 0 <= k < |rows| ==> keep(rows[k].id)
    ensures FilterRows(rows, keep) == rows
  {
    if rows != [] {
      var init, last := rows[..|rows| - 1], rows[|rows| - 1];
      forall k | 0 <= k < |init| ensures keep(init[k].id) {
        assert init[k] == rows[k];
      }
      FilterRowsAll(init, keep);
      assert keep(last.id);
      assert FilterRows(rows, keep) == FilterRows(init, keep) + [last];
      assert init + [last] == rows;
    }
  }

  /** The elements of a list, as a set. */
  function SetOf(xs: seq<string>): (s: set<string>)
    ensures forall x :: x in s <==> x in xs
  {
    set x | x in xs
  }

  /** Every id of every batch. */
  function AllIds(batches: seq<seq<string>>): (ids: set<string>)
    ensures forall id :: id in ids <==> exists b :: 0 <= b < |batches| && id in batches[b]
  {
    if batches == [] then {}
    else
      var init := batches[..|batches| - 1];
      assert forall b :: 0 <= b < |init| ==> init[b] == batches[b];
      AllIds(init) + SetOf(batches[|batches| - 1])
  }

  // ---------------------------------------------------------------------
  // deleteTableRows
  // ---------------------------------------------------------------------

  /** The rows left when every id of every batch is removed. */
  function KeptRows(rows: seq<Row>, batches: seq<seq<string>>): seq<Row> {
    FilterRows(rows, id => id !in AllIds(batches))
  }

  /** The table after deleteTableRows: the original rows in no batch, the
      count of rows removed, the batches themselves, and nothing else
      changed. */
  function WithDeletions(table: TableWithContext, batches: seq<seq<string>>): (r: TableWithContext)
    ensures forall row :: row in r.body <==>
      row in table.originalBody && forall b :: 0 <= b < |batches| ==> row.id !in batches[b]
    ensures r.deletedRowCount == |table.originalBody| - |r.body| >= 0
    ensures r.deletedRows == batches
    ensures r.originalBody == table.originalBody && r.id == table.id && r.head == table.head
    ensures r.title == table.title && r.description == table.description
    ensures r.folded == table.folded && r.deleteOption == table.deleteOption
  {
    var rows := KeptRows(table.originalBody, batches);
    table.(body := rows, deletedRowCount := |table.originalBody| - |rows|, deletedRows := batches)
  }

  /** deleteTableRows: gather the ids of all batches into a set, then filter
      the original rows by it. */
  method DeleteTableRows(table: TableWithContext, deletedRows: seq<seq<string>>) returns (r: TableWithContext)
    ensures r == WithDeletions(table, deletedRows)
  {
    var deleteIds: set<string> := {};
    for i := 0 to |deletedRows|
      invariant deleteIds == AllIds(deletedRows[..i])
    {
      var deletedSet := deletedRows[i];
      for j := 0 to |deletedSet|
        invariant deleteIds == AllIds(deletedRows[..i]) + SetOf(deletedSet[..j])
      {
        assert deletedSet[..j + 1] == deletedSet[..j] + [deletedSet[j]];
        deleteIds := deleteIds + {deletedSet[j]};
      }
      assert deletedSet[..|deletedSet|] == deletedSet;
      assert deletedRows[..i + 1][..i] == deletedRows[..i];
    }
    assert deletedRows[..|deletedRows|] == deletedRows;
    var rows := FilterRows(table.originalBody, id => id !in deleteIds);
    r := table.(body := rows, deletedRowCount := |table.originalBody| - |rows|, deletedRows := deletedRows);
  }

  /** A table whose body and count are what its batches make of its
      original body: every table the form shows is of this kind. */
  predicate Consistent(t: TableWithContext) {
    t == WithDeletions(t, t.deletedRows)
  }

  /** Deleting again recomputes from the original body: earlier deletions
      leave no trace beyond the batches themselves. */
  lemma WithDeletionsTwice(t: TableWithContext, a: seq<seq<string>>, b: seq<seq<string>>)
    ensures WithDeletions(WithDeletions(t, a), b) == WithDeletions(t, b)
  {
  }

  /** Every result of a deletion is consistent. */
  lemma WithDeletionsConsistent(t: TableWithContext, batches: seq<seq<string>>)
    ensures Consistent(WithDeletions(t, batches))
  {
    WithDeletionsTwice(t, batches, batches);
  }

  /** Without batches the original body is back in full. */
  lemma NoBatchesRestore(t: TableWithContext)
    ensures WithDeletions(t, []).body == t.originalBody
    ensures WithDeletions(t, []).deletedRowCount == 0
  {
    FilterRowsAll(t.originalBody, id => id !in AllIds([]));
  }

  /** A freshly parsed table is consistent. */
  lemma ParsedTableConsistent<Text>(data: TableData<Text>, translate: Text -> string, parse: string -> Result<Json.Json>)
    requires ParseTable(data, translate, parse).Ok?
    ensures Consistent(ParseTable(data, translate, parse).value)
  {
    var t := ParseTable(data, translate, parse).value;
    NoBatchesRestore(t);
  }

  /** slice(0, -1): the list without its last element; empty stays empty. */
  function DropLast(batches: seq<seq<string>>): (r: seq<seq<string>>)
    ensures |batches| > 0 ==> batches == r + [batches[|batches| - 1]]
    ensures |batches| == 0 ==> r == []
  {
    if |batches| == 0 then [] else batches[..|batches| - 1]
  }

  /** Undoing right after a deletion gives back the table as it was. */
  lemma DeleteThenUndo(t: TableWithContext, ids: seq<string>)
    requires Consistent(t)
    ensures WithDeletions(WithDeletions(t, t.deletedRows + [ids]), DropLast(t.deletedRows + [ids])) == t
  {
    var batches := t.deletedRows + [ids];
    assert DropLast(batches) == t.deletedRows;
    WithDeletionsTwice(t, batches, t.deletedRows);
  }

  /** Deleting the ids of every row shown empties the body. */
  lemma DeleteShownEmptiesBody(t: TableWithContext)
    requires Consistent(t)
    ensures WithDeletions(t, t.deletedRows + [RowIds(t.body)]).body == []
  {
    var batches := t.deletedRows + [RowIds(t.body)];
    var ids := AllIds(batches);
    assert forall b :: 0 <= b < |t.deletedRows| ==> batches[b] == t.deletedRows[b];
    assert batches[|t.deletedRows|] == RowIds(t.body);
    forall k | 0 <= k < |t.originalBody| ensures t.originalBody[k].id in ids {
      var row := t.originalBody[k];
      if row.id !in AllIds(t.deletedRows) {
        assert row in t.body;
        RowIdsMember(t.body, row);
      }
    }
    FilterRowsNone(t.originalBody, id => id !in ids);
  }

  /** Keeping no row leaves nothing. */
  lemma {:induction false} FilterRowsNone(rows: seq<Row>, keep: string -> bool)
    requires forall k :: 0 <= k < |rows| ==> !keep(rows[k].id)
    ensures FilterRows(rows, keep) == []
  {
    if rows != [] {
      var init := rows[..|rows| - 1];
      assert forall k :: 0 <= k < |init| ==> init[k] == rows[k];
      FilterRowsNone(init, keep);
    }
  }

  /** The id of a row is among the ids of any list holding it. */
  lemma RowIdsMember(rows: seq<Row>, row: Row)
    requires row in rows
    ensures row.id in RowIds(rows)
  {
    var k :| 0 <= k < |rows| && rows[k] == row;
    assert RowIds(rows)[k] == row.id;
  }

  // ---------------------------------------------------------------------
  // Search.
  // ---------------------------------------------------------------------

  /** The characters the escaping pattern recognises as special in a
      regular expression. */
  predicate IsSpecial(c: char) {
    c == '-' || c == '/' || c == '\\' || c == '^' || c == '$' || c == '*' || c == '+' || c == '?' ||
    c == '.' || c == '(' || c == ')' || c == '|' || c == '[' || c == ']' || c == '{' || c == '}'
  }

  /** q.replace(/[-/\\^$*+?.()|[\]{}]/, "\\$&"): a backslash before the first
      special character only, since the pattern has no global flag. */
  function EscapeFirst(q: string): (r: string)
    ensures |r| == |q| || |r| == |q| + 1
    ensures (forall k :: 0 <= k < |q| ==> !IsSpecial(q[k])) ==> r == q
  {
    if q == [] then []
    else if IsSpecial(q[0]) then ['\\'] + q
    else [q[0]] + EscapeFirst(q[1..])
  }

  /** The backslash goes right before the first special character, and
      everything after it is left as it is. */
  lemma {:induction false} EscapeFirstAt(q: string, i: nat)
    requires i < |q| && IsSpecial(q[i])
    requires forall k :: 0 <= k < i ==> !IsSpecial(q[k])
    ensures EscapeFirst(q) == q[..i] + ['\\'] + q[i..]
  {
    if i > 0 {
      var tail := q[1..];
      assert !IsSpecial(q[0]);
      assert EscapeFirst(q) == [q[0]] + EscapeFirst(tail);
      assert forall k :: 0 <= k < i - 1 ==> tail[k] == q[k + 1];
      EscapeFirstAt(tail, i - 1);
      assert tail[..i - 1] == q[1..i] && tail[i - 1..] == q[i..];
      assert q[..i] == [q[0]] + q[1..i];
    }
  }

  /** A second special character stays unescaped: the query "a.b.c" becomes
      the pattern a\.b.c, whose last dot matches any character. */
  lemma EscapeOnlyFirst()
    ensures EscapeFirst("a.b.c") == "a\\.b.c"
  {
    EscapeFirstAt("a.b.c", 1);
  }

  /** A case-insensitive regular expression, compiled from a pattern, as a
      test on strings; None when the pattern does not compile. */
  type Compiler = string -> Option<string -> bool>

  /** Some cell of the row satisfies the test. */
  predicate AnyCellMatches(cells: seq<string>, test: string -> bool) {
    exists c :: 0 <= c < |cells| && test(cells[c])
  }

  /** The ids of the rows with a matching cell. */
  function MatchingIds(rows: seq<Row>, test: string -> bool): (ids: set<string>)
    ensures forall id :: id in ids <==>
      exists k :: 0 <= k < |rows| && rows[k].id == id && AnyCellMatches(rows[k].cells, test)
  {
    set k | 0 <= k < |rows| && AnyCellMatches(rows[k].cells, test) :: rows[k].id
  }

  /** What searchRows gives: no filter for a blank search; otherwise the ids
      of the rows with a cell the escaped, trimmed query matches; a pattern
      that does not compile throws. */
  function SearchResult(rows: seq<Row>, search: string, compile: Compiler): (r: Result<Option<set<string>>>)
    ensures JsTrim(search) == [] ==> r == Ok(None)
    ensures JsTrim(search) != [] && compile(EscapeFirst(JsTrim(search))).None? ==> r.Failure?
    ensures JsTrim(search) != [] && compile(EscapeFirst(JsTrim(search))).Some? ==>
      r == Ok(Some(MatchingIds(rows, compile(EscapeFirst(JsTrim(search))).value)))
  {
    var query := JsTrim(search);
    if query == [] then Ok(None)
    else
      match compile(EscapeFirst(query))
      case None => Failure
      case Some(test) => Ok(Some(MatchingIds(rows, test)))
  }

  /** A search made only of spaces filters nothing. */
  lemma BlankSearchNoFilter(rows: seq<Row>, search: string, compile: Compiler)
    requires forall k :: 0 <= k < |search| ==> IsJsSpace(search[k])
    ensures SearchResult(rows, search, compile) == Ok(None)
  {
    assert forall c :: c in search ==> IsJsSpace(c);
  }

  /** No-break, ideographic and zero-width no-break spaces are trimmed as
      well, so a search of them alone filters nothing. */
  lemma UnicodeBlankSearchNoFilter(rows: seq<Row>, compile: Compiler)
    ensures SearchResult(rows, "\U{00A0}\U{3000}\U{FEFF}", compile) == Ok(None)
  {
    BlankSearchNoFilter(rows, "\U{00A0}\U{3000}\U{FEFF}", compile);
  }

  /** searchRows: one regular expression for the trimmed query; for every
      row, the cells are tested in order until one matches. */
  method SearchRows(rows: seq<Row>, search: string, compile: Compiler) returns (r: Result<Option<set<string>>>)
    ensures r == SearchResult(rows, search, compile)
  {
    var query := JsTrim(search);
    if query == [] {
      return Ok(None);
    }
    var regex := compile(EscapeFirst(query));
    if regex.None? {
      return Failure;
    }
    var test := regex.value;
    var ids: set<string> := {};
    for i := 0 to |rows|
      invariant ids == MatchingIds(rows[..i], test)
    {
      var cells := rows[i].cells;
      var anyCellMatches := false;
      var j := 0;
      while j < |cells|
        invariant j <= |cells|
        invariant anyCellMatches <==> exists c :: 0 <= c < j && test(cells[c])
        invariant !anyCellMatches
      {
        if test(cells[j]) {
          anyCellMatches := true;
          break;
        }
        j := j + 1;
      }
      assert anyCellMatches <==> AnyCellMatches(cells, test);
      assert forall k :: 0 <= k < i ==> rows[..i + 1][k] == rows[..i][k];
      if anyCellMatches {
        ids := ids + {rows[i].id};
      }
    }
    assert rows[..|rows|] == rows;
    r := Ok(Some(ids));
  }

  /** searchedTable: the table itself without a filter, otherwise its body
      restricted to the filter's ids, in order. */
  function SearchedTable(table: TableWithContext, filter: Option<set<string>>): (r: TableWithContext)
    ensures filter.None? ==> r == table
    ensures filter.Some? ==> r == table.(body := FilterRows(table.body, id => id in filter.value))
  {
    match filter
    case None => table
    case Some(ids) => table.(body := FilterRows(table.body, id => id in ids))
  }

  /** Deleting the rows a filter shows removes every row the filter selects,
      and only the rows already shown. */
  lemma DeleteSearchedRemovesMatches(t: TableWithContext, ids: set<string>)
    requires Consistent(t)
    ensures var shown := SearchedTable(t, Some(ids)).body;
      var after := WithDeletions(t, t.deletedRows + [RowIds(shown)]).body;
      (forall row :: row in after ==> row in t.body && row.id !in ids)
  {
    var shown := SearchedTable(t, Some(ids)).body;
    var batches := t.deletedRows + [RowIds(shown)];
    var after := WithDeletions(t, batches).body;
    assert forall b :: 0 <= b < |t.deletedRows| ==> batches[b] == t.deletedRows[b];
    assert batches[|t.deletedRows|] == RowIds(shown);
    forall row | row in shown ensures row.id in RowIds(shown) {
      RowIdsMember(shown, row);
    }
  }

  /** The state one table container keeps: the table as the form last
      passed it, the search text and the ids the last search selected. */
  class Container {
    var table: TableWithContext
    var search: string
    var searchFilterIds: Option<set<string>>

    constructor(t: TableWithContext)
      ensures table == t && search == "" && searchFilterIds.None?
    {
      table := t;
      search := "";
      searchFilterIds := None;
    }

    /** The search timer firing: store what searchRows gives for the
        original rows; a pattern that does not compile throws inside the
        timer and leaves the filter as it was. */
    method ApplySearch(compile: Compiler)
      modifies this
      ensures table == old(table) && search == old(search)
      ensures SearchResult(table.originalBody, search, compile).Ok? ==>
        searchFilterIds == SearchResult(table.originalBody, search, compile).value
      ensures SearchResult(table.originalBody, search, compile).Failure? ==> searchFilterIds == old(searchFilterIds)
    {
      var ids := SearchRows(table.originalBody, search, compile);
      if ids.Ok? {
        searchFilterIds := ids.value;
      }
    }

    /** handleDelete: without ids, the ids of every row shown; a non-empty
        list is appended as a new batch, and when it is as long as the shown
        body the search is cleared. */
    method HandleDelete(rowIds: Option<seq<string>>)
      modifies this
      ensures var shown := SearchedTable(old(table), old(searchFilterIds)).body;
        var ids := if rowIds.Some? then rowIds.value else RowIds(shown);
        && (|ids| == 0 ==> table == old(table) && search == old(search) && searchFilterIds == old(searchFilterIds))
        && (|ids| > 0 ==> table == WithDeletions(old(table), old(table).deletedRows + [ids]))
        && (|ids| > 0 && |ids| == |shown| ==> search == "" && searchFilterIds.None?)
        && (|ids| != |shown| ==> search == old(search) && searchFilterIds == old(searchFilterIds))
    {
      var searched := SearchedTable(table, searchFilterIds);
      var ids := if rowIds.Some? then rowIds.value else RowIds(searched.body);
      if |ids| > 0 {
        if |ids| == |searched.body| {
          search := "";
          searchFilterIds := None;
        }
        var deletedRows := table.deletedRows + [ids];
        table := DeleteTableRows(table, deletedRows);
      }
    }

    /** handleUndo: drop the last batch and recompute from the original body. */
    method HandleUndo()
      modifies this
      ensures table == WithDeletions(old(table), DropLast(old(table).deletedRows))
      ensures search == old(search) && searchFilterIds == old(searchFilterIds)
    {
      var deletedRows := DropLast(table.deletedRows);
      table := DeleteTableRows(table, deletedRows);
    }
  }
}
