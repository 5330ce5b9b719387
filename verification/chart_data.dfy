// The data behind a line, bar or area chart: the rows of a table bucketed by
// their x value, each bucket holding per series the aggregated value and the
// ids of the rows that went into it, the buckets ordered by a sort key.
module ChartData {
  import opened Wrappers
  import opened Sorting
  import opened Sequences
  import opened Strings
  import opened UiTable
  import opened VizUtil
  import opened Translate
  import opened RechartsGraph

  // ---------------------------------------------------------------------
  // JavaScript numbers: exact reals, the two infinities and NaN.
  // ---------------------------------------------------------------------

  datatype Num = Fin(r: real) | Inf(positive: bool) | NaN

  /** a + b. */
  function Add(a: Num, b: Num): (s: Num)
    ensures a.Fin? && b.Fin? ==> s == Fin(a.r + b.r)
    ensures a.NaN? || b.NaN? ==> s.NaN?
  {
    match (a, b)
    case (NaN, _) => NaN
    case (_, NaN) => NaN
    case (Fin(x), Fin(y)) => Fin(x + y)
    case (Inf(p), Inf(q)) => if p == q then Inf(p) else NaN
    case (Inf(p), _) => Inf(p)
    case (_, Inf(q)) => Inf(q)
  }

  /** 100 * a. */
  function Hundredfold(a: Num): (s: Num)
    ensures a.Fin? ==> s == Fin(100.0 * a.r)
    ensures !a.Fin? ==> s == a
  {
    match a
    case Fin(x) => Fin(100.0 * x)
    case _ => a
  }

  /** a / b; a zero divisor gives an infinity of the dividend's sign, or NaN
      for zero over zero. */
  function Div(a: Num, b: Num): (q: Num)
    ensures a.Fin? && b.Fin? && b.r != 0.0 ==> q == Fin(a.r / b.r)
    ensures a.NaN? || b.NaN? ==> q.NaN?
    ensures a == Fin(0.0) && b == Fin(0.0) ==> q.NaN?
  {
    match (a, b)
    case (NaN, _) => NaN
    case (_, NaN) => NaN
    case (Fin(x), Fin(y)) =>
      if y != 0.0 then Fin(x / y)
      else if x > 0.0 then Inf(true)
      else if x < 0.0 then Inf(false)
      else NaN
    case (Fin(_), Inf(_)) => Fin(0.0)
    case (Inf(p), Fin(y)) => if y < 0.0 then Inf(!p) else Inf(p)
    case (Inf(_), Inf(_)) => NaN
  }

  /** a < b; every comparison with NaN is false. */
  predicate Less(a: Num, b: Num) {
    match (a, b)
    case (NaN, _) => false
    case (_, NaN) => false
    case (Fin(x), Fin(y)) => x < y
    case (Inf(p), Inf(q)) => !p && q
    case (Inf(p), _) => !p
    case (_, Inf(q)) => q
  }

  /** Math.round(a * 100) / 100: halves round up. */
  function Round2(a: Num): (r: Num)
    ensures !a.Fin? ==> r == a
    ensures a.Fin? ==> r.Fin? && a.r - 0.005 <= r.r <= a.r + 0.005
  {
    match a
    case Fin(x) => Fin((x * 100.0 + 0.5).Floor as real / 100.0)
    case _ => a
  }

  /** Rounding a rounded number changes nothing. */
  lemma Round2Idempotent(a: Num)
    ensures Round2(Round2(a)) == Round2(a)
  {
    if a.Fin? {
      var f := (a.r * 100.0 + 0.5).Floor;
      FloorWholePlusHalf(f);
      assert (f as real / 100.0) * 100.0 == f as real;
    }
  }

  /** A whole number is kept as it is. */
  lemma Round2Whole(n: int)
    ensures Round2(Fin(n as real)) == Fin(n as real)
  {
    FloorWholePlusHalf(100 * n);
    assert (n as real) * 100.0 == (100 * n) as real;
    assert ((100 * n) as real) / 100.0 == n as real;
  }

  lemma FloorWholePlusHalf(f: int)
    ensures (f as real + 0.5).Floor == f
  {
  }

  // ---------------------------------------------------------------------
  // Records with string keys, in insertion order.
  // ---------------------------------------------------------------------

  /** A JavaScript object used as a dictionary: its keys in insertion order
      and the value of each. */
  datatype Record<V> = Record(keys: seq<string>, at: map<string, V>)

  /** Every key listed once, and exactly the keys with a value. */
  ghost predicate ValidRecord<V>(r: Record<V>) {
    (forall k :: k in r.at <==> k in r.keys) &&
    forall i, j :: 0 <= i < j < |r.keys| ==> r.keys[i] != r.keys[j]
  }

  function EmptyRecord<V>(): (r: Record<V>)
    ensures ValidRecord(r) && r.keys == []
  {
    Record([], map[])
  }

  /** rec[k] = v: a new key goes to the end, an existing one keeps its place. */
  function Store<V>(rec: Record<V>, k: string, v: V): (r: Record<V>)
    ensures r.at == rec.at[k := v]
    ensures k in rec.at ==> r.keys == rec.keys
    ensures k !in rec.at ==> r.keys == rec.keys + [k]
  {
    Record(if k in rec.at then rec.keys else rec.keys + [k], rec.at[k := v])
  }

  lemma StoreValid<V>(rec: Record<V>, k: string, v: V)
    requires ValidRecord(rec)
    ensures ValidRecord(Store(rec, k, v))
  {
  }

  /** Object.values: the values in key order. */
  function ValuesOf<V>(rec: Record<V>): (vs: seq<V>)
    ensures |vs| <= |rec.keys|
  {
    FilterMapFrom(rec.keys, k => if k in rec.at then Some(rec.at[k]) else None);
    FilterMap(rec.keys, k => if k in rec.at then Some(rec.at[k]) else None)
  }

  // ---------------------------------------------------------------------
  // The visualisation's description.
  // ---------------------------------------------------------------------

  datatype Aggregation = Count | Mean | Sum | CountPct | Pct

  /** One series: the y column (".COUNT" by default), how its rows are
      aggregated, an optional column that splits it into one series per
      value, and whether buckets without rows show zero. */
  datatype AggregationValue = AggregationValue(
    caption: Option<Label>,
    column: string,
    aggregate: Option<Aggregation>,
    groupBy: Option<string>,
    addZeroes: Option<bool>)

  /** The x axis: its column, an optional date granularity, an optional
      numeric range and an optional fixed order of levels. */
  datatype AggregationGroup = AggregationGroup(
    caption: Option<Label>,
    column: string,
    dateFormat: Option<DateFormat>,
    range: Option<seq<real>>,
    levels: Option<seq<string>>)

  datatype ChartType = LineChart | BarChart | AreaChart

  datatype ChartVisualization = ChartVisualization(
    chartType: ChartType,
    group: AggregationGroup,
    values: seq<AggregationValue>)

  /** What the runtime supplies: Number() of a cell, and the date formatter,
      which gives the formatted x column and possibly a sortable number per
      formatted value. */
  datatype ChartEnv = ChartEnv(
    number: Option<string> -> Num,
    formatDate: (seq<Option<string>>, DateFormat) -> (seq<Option<string>>, Option<Record<int>>))

  /** The value a bucket sorts by: a number from the sortable map, the x
      value itself, or undefined. */
  datatype SortKey = SNum(n: int) | SStr(s: string) | SUndef

  /** One x bucket: its sort key, the row ids and the value per series. */
  datatype Bucket = Bucket(
    sortBy: SortKey,
    rowIds: Record<seq<string>>,
    xKey: string,
    xValue: string,
    values: Record<Num>)

  /** The row count and value sum of one series, for the relative aggregates. */
  datatype Summary = Summary(n: nat, sum: Num)

  datatype AxisSettings = AxisSettings(id: string, caption: Option<Label>, tickerFormat: TickerFormat)

  /** One point of the chart: the values per series, the x value under the x
      key, the row ids per series and the sort key. */
  datatype ChartPoint = ChartPoint(
    values: Record<Num>,
    xKey: string,
    xValue: string,
    rowIds: Record<seq<string>>,
    sortBy: SortKey)

  datatype ChartVisualizationData = ChartVisualizationData(
    chartType: ChartType,
    xKey: string,
    xLabel: Option<Label>,
    yKeys: Record<AxisSettings>,
    data: seq<ChartPoint>)

  /** A cell read as a property key or with String(): undefined reads as
      "undefined". */
  function Key(x: Option<string>): string {
    x.GetOr("undefined")
  }

  /** xs[i], undefined past the end. */
  function CellOf(xs: seq<Option<string>>, i: nat): (c: Option<string>)
    ensures i < |xs| ==> c == xs[i]
    ensures i >= |xs| ==> c.None?
  {
    if i < |xs| then xs[i] else None
  }

  // ---------------------------------------------------------------------
  // prepareX
  // ---------------------------------------------------------------------

  /** The x column as the buckets read it, and the sortable number of each x
      value when there is one. */
  datatype XAxis = XAxis(groupBy: seq<Option<string>>, xSortable: Option<Record<int>>)

  /** The index of every level, a repeated level taking its last index. */
  function LevelIndex(levels: seq<string>): (r: Record<int>)
    decreases |levels|
  {
    if levels == [] then EmptyRecord()
    else
      var init := levels[..|levels| - 1];
      Store(LevelIndex(init), levels[|levels| - 1], |init|)
  }

  /** The level index lists every level once. */
  lemma {:induction false} LevelIndexValid(levels: seq<string>)
    ensures ValidRecord(LevelIndex(levels))
    decreases |levels|
  {
    if levels != [] {
      var init := levels[..|levels| - 1];
      LevelIndexValid(init);
      StoreValid(LevelIndex(init), levels[|levels| - 1], |init|);
    }
  }

  /** Every level has an index, that index holds the level, and no later
      position does. */
  lemma {:induction false} LevelIndexSpec(levels: seq<string>)
    ensures forall l :: l in LevelIndex(levels).at <==> l in levels
    ensures forall l :: l in LevelIndex(levels).at ==>
      var i := LevelIndex(levels).at[l];
      0 <= i < |levels| && levels[i] == l && forall j :: i < j < |levels| ==> levels[j] != l
    decreases |levels|
  {
    if levels != [] {
      var init := levels[..|levels| - 1];
      var last := levels[|levels| - 1];
      LevelIndexSpec(init);
      assert levels == init + [last];
      forall l | l in LevelIndex(levels).at
        ensures 0 <= LevelIndex(levels).at[l] < |levels| && levels[LevelIndex(levels).at[l]] == l
        ensures forall j :: LevelIndex(levels).at[l] < j < |levels| ==> levels[j] != l
      {
        if l != last {
          assert l in LevelIndex(init).at;
        }
      }
    }
  }

  /** prepareX: the x column, which must exist; formatted when the axis has
      a date format; and with levels, the level order replaces any sortable
      map. */
  function XAxisOf(table: Table, vis: ChartVisualization, env: ChartEnv): (r: Result<XAxis>)
    ensures vis.group.column != CountColumn && vis.group.column !in table.head ==> r.Failure?
    ensures r.Ok? && vis.group.levels.Some? ==> r.value.xSortable == Some(LevelIndex(vis.group.levels.value))
    ensures r.Ok? && vis.group.levels.None? && vis.group.dateFormat.None? ==>
      r.value.xSortable.None? && r.value.groupBy == GetTableColumn(table, vis.group.column).value
  {
    match GetTableColumn(table, vis.group.column)
    case Failure => Failure
    case Ok(column) =>
      if |column| == 0 then Failure
      else
        var (groupBy, sortable) :=
          if vis.group.dateFormat.Some? then env.formatDate(column, vis.group.dateFormat.value)
          else (column, None);
        var xSortable := if vis.group.levels.Some? then Some(LevelIndex(vis.group.levels.value)) else sortable;
        Ok(XAxis(groupBy, xSortable))
  }

  /** prepareX, with the loop that numbers the levels. */
  method PrepareX(table: Table, vis: ChartVisualization, env: ChartEnv) returns (r: Result<XAxis>)
    ensures r == XAxisOf(table, vis, env)
  {
    var groupBy := GetTableColumn(table, vis.group.column);
    if groupBy.Failure? || |groupBy.value| == 0 {
      return Failure;
    }
    var column := groupBy.value;
    var xs: Option<Record<int>> := None;
    var gb := column;
    if vis.group.dateFormat.Some? {
      var (g, s) := env.formatDate(column, vis.group.dateFormat.value);
      gb, xs := g, s;
    }
    if vis.group.levels.Some? {
      var levels := vis.group.levels.value;
      var index: Record<int> := EmptyRecord();
      for i := 0 to |levels|
        invariant index == LevelIndex(levels[..i])
      {
        assert levels[..i + 1][..i] == levels[..i];
        index := Store(index, levels[i], i);
      }
      assert levels[..|levels|] == levels;
      xs := Some(index);
    }
    r := Ok(XAxis(gb, xs));
  }

  // ---------------------------------------------------------------------
  // Seeding the buckets for addZeroes.
  // ---------------------------------------------------------------------

  /** An empty bucket for an x value. */
  function EmptyBucket(sortBy: SortKey, xKey: string, xValue: string): Bucket {
    Bucket(sortBy, EmptyRecord(), xKey, xValue, EmptyRecord())
  }

  /** The buckets the first n entries of the sortable map seed. */
  function Seeded(xSortable: Record<int>, xKey: string, n: nat): (agg: Record<Bucket>)
    requires n <= |xSortable.keys|
  {
    if n == 0 then EmptyRecord()
    else
      var prev := Seeded(xSortable, xKey, n - 1);
      var u := xSortable.keys[n - 1];
      if u in xSortable.at then Store(prev, u, EmptyBucket(SNum(xSortable.at[u]), xKey, u)) else prev
  }

  /** Every sortable x value gets an empty bucket sorted by its number, and
      there are no other buckets. */
  lemma {:induction false} SeededSpec(xSortable: Record<int>, xKey: string, n: nat)
    requires n <= |xSortable.keys|
    ensures ValidRecord(Seeded(xSortable, xKey, n))
    ensures forall u :: u in Seeded(xSortable, xKey, n).at <==> u in xSortable.keys[..n] && u in xSortable.at
    ensures forall u :: u in Seeded(xSortable, xKey, n).at ==>
      Seeded(xSortable, xKey, n).at[u] == EmptyBucket(SNum(xSortable.at[u]), xKey, u)
  {
    if n > 0 {
      SeededSpec(xSortable, xKey, n - 1);
      var u := xSortable.keys[n - 1];
      assert xSortable.keys[..n] == xSortable.keys[..n - 1] + [u];
      if u in xSortable.at {
        StoreValid(Seeded(xSortable, xKey, n - 1), u, EmptyBucket(SNum(xSortable.at[u]), xKey, u));
      }
    }
  }

  /** Some series asks for zeroes. */
  predicate AnyAddZeroes(values: seq<AggregationValue>) {
    exists i :: 0 <= i < |values| && values[i].addZeroes == Some(true)
  }

  /** The buckets before any row is read: seeded from the sortable map when
      some series asks for zeroes, empty otherwise. */
  function InitialBuckets(vis: ChartVisualization, ax: XAxis): Record<Bucket> {
    if AnyAddZeroes(vis.values) && ax.xSortable.Some? then
      Seeded(ax.xSortable.value, vis.group.column, |ax.xSortable.value.keys|)
    else EmptyRecord()
  }

  /** The seeding loop over Object.entries(xSortable). */
  method SeedBuckets(vis: ChartVisualization, ax: XAxis) returns (agg: Record<Bucket>)
    ensures agg == InitialBuckets(vis, ax)
  {
    agg := EmptyRecord();
    var anyAddZeroes := false;
    for i := 0 to |vis.values|
      invariant anyAddZeroes <==> exists k :: 0 <= k < i && vis.values[k].addZeroes == Some(true)
    {
      if vis.values[i].addZeroes == Some(true) {
        anyAddZeroes := true;
      }
    }
    if anyAddZeroes && ax.xSortable.Some? {
      var xs := ax.xSortable.value;
      for n := 0 to |xs.keys|
        invariant agg == Seeded(xs, vis.group.column, n)
      {
        var u := xs.keys[n];
        if u in xs.at {
          agg := Store(agg, u, EmptyBucket(SNum(xs.at[u]), vis.group.column, u));
        }
      }
    }
  }

  // ---------------------------------------------------------------------
  // One series over the rows.
  // ---------------------------------------------------------------------

  /** A series ready to be read: its aggregate, its y cells, the series name
      of every row, and whether missing buckets show zero. */
  datatype Pass = Pass(
    aggFun: Aggregation,
    column: string,
    yValues: seq<Option<string>>,
    yGroup: Option<seq<string>>,
    addZeroes: bool)

  /** The series name of a group value. */
  function GroupLabel(column: string, v: Option<string>): string {
    column + ".GROUP_BY." + Key(v)
  }

  /** Reading a series' columns: the y column must exist and be non-empty,
      and so must the group_by column when there is one. */
  function PassOf(table: Table, value: AggregationValue): (r: Result<Pass>)
    ensures value.column != CountColumn && value.column !in table.head ==> r.Failure?
    ensures value.groupBy.Some? && value.groupBy.value != CountColumn && value.groupBy.value !in table.head ==> r.Failure?
    ensures r.Ok? ==> r.value.aggFun == value.aggregate.GetOr(Count) && r.value.column == value.column
    ensures r.Ok? ==> r.value.addZeroes == (value.addZeroes == Some(true))
    ensures r.Ok? ==> (r.value.yGroup.Some? <==> value.groupBy.Some?)
  {
    match GetTableColumn(table, value.column)
    case Failure => Failure
    case Ok(ys) =>
      if |ys| == 0 then Failure
      else
        match value.groupBy
        case None => Ok(Pass(value.aggregate.GetOr(Count), value.column, ys, None, value.addZeroes.GetOr(false)))
        case Some(g) =>
          match GetTableColumn(table, g)
          case Failure => Failure
          case Ok(gs) =>
            var labels := seq(|gs|, i requires 0 <= i < |gs| => GroupLabel(value.column, gs[i]));
            Ok(Pass(value.aggregate.GetOr(Count), value.column, ys, Some(labels), value.addZeroes.GetOr(false)))
  }

  /** A grouped series labels row i with the group column's value at i. */
  lemma PassOfGroups(table: Table, value: AggregationValue, i: nat)
    requires PassOf(table, value).Ok? && value.groupBy.Some? && i < |table.rows|
    ensures GetTableColumn(table, value.groupBy.value).Ok?
    ensures |PassOf(table, value).value.yGroup.value| == |table.rows|
    ensures PassOf(table, value).value.yGroup.value[i] ==
      GroupLabel(value.column, GetTableColumn(table, value.groupBy.value).value[i])
  {
  }

  /** The series row i counts towards. */
  function GroupAt(p: Pass, i: nat): string {
    match p.yGroup
    case None => p.column
    case Some(gs) => if i < |gs| then gs[i] else "undefined"
  }

  /** The bound range[i], undefined (NaN) past the end. */
  function Bound(range: seq<real>, i: nat): Num {
    if i < |range| then Fin(range[i]) else NaN
  }

  /** A row is skipped when its numeric x lies below range[0] or above
      range[1]; a NaN x is never below or above anything. */
  predicate Skipped(group: AggregationGroup, ax: XAxis, i: nat, num: Option<string> -> Num) {
    match group.range
    case None => false
    case Some(range) =>
      var x := num(CellOf(ax.groupBy, i));
      Less(x, Bound(range, 0)) || Less(Bound(range, 1), x)
  }

  /** An x below the lower or above the upper bound is skipped, and an x
      whose number is NaN never is. */
  lemma SkippedOutsideRange(group: AggregationGroup, ax: XAxis, i: nat, num: Option<string> -> Num, lo: real, hi: real)
    requires group.range == Some([lo, hi])
    ensures num(CellOf(ax.groupBy, i)).Fin? ==>
      (Skipped(group, ax, i, num) <==>
        num(CellOf(ax.groupBy, i)).r < lo || num(CellOf(ax.groupBy, i)).r > hi)
    ensures num(CellOf(ax.groupBy, i)).NaN? ==> !Skipped(group, ax, i, num)
  {
  }

  /** The sort key of row i's bucket: its sortable number, undefined when the
      map lacks it, or without a map the x value itself. */
  function SortKeyOf(ax: XAxis, i: nat): SortKey {
    var x := CellOf(ax.groupBy, i);
    match ax.xSortable
    case Some(m) => if Key(x) in m.at then SNum(m.at[Key(x)]) else SUndef
    case None => if x.Some? then SStr(x.value) else SUndef
  }

  /** What one row adds to its series: 1 for the counting aggregates,
      Number() of its y cell otherwise. */
  function Delta(p: Pass, i: nat, num: Option<string> -> Num): Num {
    if p.aggFun == Count || p.aggFun == CountPct then Fin(1.0) else num(CellOf(p.yValues, i))
  }

  /** The row ids of a series in a bucket, none if absent. */
  function IdsAt(agg: Record<Bucket>, k: string, g: string): seq<string> {
    if k in agg.at && g in agg.at[k].rowIds.at then agg.at[k].rowIds.at[g] else []
  }

  /** The value of a series in a bucket, 0 if absent. */
  function ValueAt(agg: Record<Bucket>, k: string, g: string): Num {
    if k in agg.at && g in agg.at[k].values.at then agg.at[k].values.at[g] else Fin(0.0)
  }

  /** One row: its bucket is created if new; its id is appended to its
      series' ids and its delta added to its series' value. */
  function AddRow(agg: Record<Bucket>, xKey: string, ax: XAxis, p: Pass, i: nat, rowId: string, num: Option<string> -> Num)
    : Record<Bucket>
  {
    Store(agg, Key(CellOf(ax.groupBy, i)), AddedBucket(agg, xKey, ax, p, i, rowId, num))
  }

  /** The bucket row i is added to, with the row's id and delta in its
      series. */
  function AddedBucket(agg: Record<Bucket>, xKey: string, ax: XAxis, p: Pass, i: nat, rowId: string, num: Option<string> -> Num)
    : Bucket
  {
    var k := Key(CellOf(ax.groupBy, i));
    var g := GroupAt(p, i);
    var b := if k in agg.at then agg.at[k] else EmptyBucket(SortKeyOf(ax, i), xKey, k);
    var ids := if g in b.rowIds.at then b.rowIds.at[g] else [];
    var cur := if g in b.values.at then b.values.at[g] else Fin(0.0);
    b.(rowIds := Store(b.rowIds, g, ids + [rowId]), values := Store(b.values, g, Add(cur, Delta(p, i, num))))
  }

  /** Adding a row changes the value of its own bucket and series only. */
  lemma AddRowValue(agg: Record<Bucket>, xKey: string, ax: XAxis, p: Pass, i: nat, rowId: string, num: Option<string> -> Num, k: string, g: string)
    ensures ValueAt(AddRow(agg, xKey, ax, p, i, rowId, num), k, g) ==
      if Key(CellOf(ax.groupBy, i)) == k && GroupAt(p, i) == g then Add(ValueAt(agg, k, g), Delta(p, i, num))
      else ValueAt(agg, k, g)
  {
    var k0 := Key(CellOf(ax.groupBy, i));
    var nb := AddedBucket(agg, xKey, ax, p, i, rowId, num);
    assert AddRow(agg, xKey, ax, p, i, rowId, num).at == agg.at[k0 := nb];
    if k == k0 {
      assert nb.values.at == (if k in agg.at then agg.at[k].values.at else map[])[GroupAt(p, i) := nb.values.at[GroupAt(p, i)]];
    }
  }

  /** Adding a row appends its id to its own bucket and series only. */
  lemma AddRowIds(agg: Record<Bucket>, xKey: string, ax: XAxis, p: Pass, i: nat, rowId: string, num: Option<string> -> Num, k: string, g: string)
    ensures IdsAt(AddRow(agg, xKey, ax, p, i, rowId, num), k, g) ==
      if Key(CellOf(ax.groupBy, i)) == k && GroupAt(p, i) == g then IdsAt(agg, k, g) + [rowId]
      else IdsAt(agg, k, g)
  {
    var k0 := Key(CellOf(ax.groupBy, i));
    var nb := AddedBucket(agg, xKey, ax, p, i, rowId, num);
    assert AddRow(agg, xKey, ax, p, i, rowId, num).at == agg.at[k0 := nb];
    if k == k0 {
      assert nb.rowIds.at == (if k in agg.at then agg.at[k].rowIds.at else map[])[GroupAt(p, i) := nb.rowIds.at[GroupAt(p, i)]];
    }
  }

  /** Row i is read (it is not skipped) and belongs to bucket k and series g. */
  predicate Hits(group: AggregationGroup, ax: XAxis, p: Pass, i: nat, num: Option<string> -> Num, k: string, g: string) {
    !Skipped(group, ax, i, num) && Key(CellOf(ax.groupBy, i)) == k && GroupAt(p, i) == g
  }

  /** The ids of bucket k and series g after row i, from ids before it:
      the row's id is appended if it hits them. */
  function WithHit(ids: seq<string>, group: AggregationGroup, ax: XAxis, p: Pass, rowIds: seq<string>, i: nat, num: Option<string> -> Num, k: string, g: string)
    : seq<string>
    requires i < |rowIds|
  {
    if Hits(group, ax, p, i, num, k, g) then ids + [rowIds[i]] else ids
  }

  /** The value of bucket k and series g after row i, from v before it. */
  function HitValue(v: Num, group: AggregationGroup, ax: XAxis, p: Pass, i: nat, num: Option<string> -> Num, k: string, g: string): Num {
    if Hits(group, ax, p, i, num, k, g) then Add(v, Delta(p, i, num)) else v
  }

  /** Row i of one series: skipped, or added to its bucket. */
  function ReadRow(agg: Record<Bucket>, group: AggregationGroup, ax: XAxis, p: Pass, rowIds: seq<string>, i: nat, num: Option<string> -> Num)
    : Record<Bucket>
    requires i < |rowIds|
  {
    if Skipped(group, ax, i, num) then agg else AddRow(agg, group.column, ax, p, i, rowIds[i], num)
  }

  /** A row's id goes to its own bucket and series, and nowhere else. */
  lemma ReadRowIds(agg: Record<Bucket>, group: AggregationGroup, ax: XAxis, p: Pass, rowIds: seq<string>, i: nat, num: Option<string> -> Num, k: string, g: string)
    requires i < |rowIds|
    ensures IdsAt(ReadRow(agg, group, ax, p, rowIds, i, num), k, g) ==
      WithHit(IdsAt(agg, k, g), group, ax, p, rowIds, i, num, k, g)
  {
    if !Skipped(group, ax, i, num) {
      AddRowIds(agg, group.column, ax, p, i, rowIds[i], num, k, g);
    }
  }

  /** A row's delta is added to its own bucket and series, and nowhere
      else; a series not yet in the bucket starts from 0. */
  lemma ReadRowValue(agg: Record<Bucket>, group: AggregationGroup, ax: XAxis, p: Pass, rowIds: seq<string>, i: nat, num: Option<string> -> Num, k: string, g: string)
    requires i < |rowIds|
    ensures ValueAt(ReadRow(agg, group, ax, p, rowIds, i, num), k, g) ==
      HitValue(ValueAt(agg, k, g), group, ax, p, i, num, k, g)
  {
    if !Skipped(group, ax, i, num) {
      AddRowValue(agg, group.column, ax, p, i, rowIds[i], num, k, g);
    }
  }

  /** A row never removes a bucket nor changes its sort key, and the bucket
      of a row that is read exists afterwards. */
  lemma ReadRowKeepsBuckets(agg: Record<Bucket>, group: AggregationGroup, ax: XAxis, p: Pass, rowIds: seq<string>, i: nat, num: Option<string> -> Num, k: string)
    requires i < |rowIds|
    ensures k in agg.at ==>
      (k in ReadRow(agg, group, ax, p, rowIds, i, num).at &&
       ReadRow(agg, group, ax, p, rowIds, i, num).at[k].sortBy == agg.at[k].sortBy)
    ensures !Skipped(group, ax, i, num) ==> Key(CellOf(ax.groupBy, i)) in ReadRow(agg, group, ax, p, rowIds, i, num).at
  {
  }

  /** The buckets after the first n rows of one series. */
  function AggRows(agg: Record<Bucket>, group: AggregationGroup, ax: XAxis, p: Pass, rowIds: seq<string>, n: nat, num: Option<string> -> Num)
    : Record<Bucket>
    requires n <= |rowIds|
  {
    if n == 0 then agg else ReadRow(AggRows(agg, group, ax, p, rowIds, n - 1, num), group, ax, p, rowIds, n - 1, num)
  }

  /** The summary of a series after one more row. */
  function AddSummary(sums: Record<Summary>, p: Pass, i: nat, num: Option<string> -> Num): Record<Summary> {
    var g := GroupAt(p, i);
    var s := if g in sums.at then sums.at[g] else Summary(0, Fin(0.0));
    var n := if p.aggFun == CountPct || p.aggFun == Mean then s.n + 1 else s.n;
    var sum := if p.aggFun == Pct then Add(s.sum, num(CellOf(p.yValues, i))) else s.sum;
    Store(sums, g, Summary(n, sum))
  }

  /** The summaries after the first n rows of one series. */
  function SumRows(group: AggregationGroup, ax: XAxis, p: Pass, n: nat, num: Option<string> -> Num): Record<Summary> {
    if n == 0 then EmptyRecord()
    else
      var prev := SumRows(group, ax, p, n - 1, num);
      if Skipped(group, ax, n - 1, num) then prev else AddSummary(prev, p, n - 1, num)
  }

  /** The ids of the first n rows that are read into bucket k and series g,
      in row order. */
  function MatchingIds(group: AggregationGroup, ax: XAxis, p: Pass, rowIds: seq<string>, n: nat, num: Option<string> -> Num, k: string, g: string)
    : seq<string>
    requires n <= |rowIds|
  {
    if n == 0 then []
    else WithHit(MatchingIds(group, ax, p, rowIds, n - 1, num, k, g), group, ax, p, rowIds, n - 1, num, k, g)
  }

  /** The value of series g in bucket k after the first n rows: the deltas
      of the matching rows added to the starting value in row order. */
  function Accumulated(start: Num, group: AggregationGroup, ax: XAxis, p: Pass, n: nat, num: Option<string> -> Num, k: string, g: string)
    : Num
  {
    if n == 0 then start
    else
      var prev := Accumulated(start, group, ax, p, n - 1, num, k, g);
      HitValue(prev, group, ax, p, n - 1, num, k, g)
  }

  lemma AppendAssoc<T>(a: seq<T>, b: seq<T>, c: seq<T>)
    ensures a + b + c == a + (b + c)
  {
  }

  /** The ids of series g in bucket k after the first n rows, from the ids
      it started with. */
  function Collected(start: seq<string>, group: AggregationGroup, ax: XAxis, p: Pass, rowIds: seq<string>, n: nat, num: Option<string> -> Num, k: string, g: string)
    : seq<string>
    requires n <= |rowIds|
  {
    if n == 0 then start
    else WithHit(Collected(start, group, ax, p, rowIds, n - 1, num, k, g), group, ax, p, rowIds, n - 1, num, k, g)
  }

  /** The collected ids are the starting ids followed by the matching ones. */
  lemma {:induction false} CollectedMatching(start: seq<string>, group: AggregationGroup, ax: XAxis, p: Pass, rowIds: seq<string>, n: nat, num: Option<string> -> Num, k: string, g: string)
    requires n <= |rowIds|
    ensures Collected(start, group, ax, p, rowIds, n, num, k, g) == start + MatchingIds(group, ax, p, rowIds, n, num, k, g)
  {
    if n > 0 {
      CollectedMatching(start, group, ax, p, rowIds, n - 1, num, k, g);
      if Hits(group, ax, p, n - 1, num, k, g) {
        AppendAssoc(start, MatchingIds(group, ax, p, rowIds, n - 1, num, k, g), [rowIds[n - 1]]);
      }
    }
  }

  /** Ids that extend those collected from the rows before row n - 1 by
      that row's own id are those collected from the rows up to it. */
  lemma CollectedNext(after: seq<string>, before: seq<string>, start: seq<string>, group: AggregationGroup, ax: XAxis, p: Pass, rowIds: seq<string>, n: nat, num: Option<string> -> Num, k: string, g: string)
    requires 0 < n <= |rowIds|
    requires before == Collected(start, group, ax, p, rowIds, n - 1, num, k, g)
    requires after == WithHit(before, group, ax, p, rowIds, n - 1, num, k, g)
    ensures after == Collected(start, group, ax, p, rowIds, n, num, k, g)
  {
  }

  /** One more row appends its id to its own bucket and series. */
  lemma {:induction false} AggRowsIdsStep(agg: Record<Bucket>, group: AggregationGroup, ax: XAxis, p: Pass, rowIds: seq<string>, n: nat, num: Option<string> -> Num, k: string, g: string, start: seq<string>)
    requires 0 < n <= |rowIds| && start == IdsAt(agg, k, g)
    ensures IdsAt(AggRows(agg, group, ax, p, rowIds, n, num), k, g) == Collected(start, group, ax, p, rowIds, n, num, k, g)
    decreases n, 0
  {
    AggRowsCollected(agg, group, ax, p, rowIds, n - 1, num, k, g);
    AggRowsIdsNext(agg, group, ax, p, rowIds, n, num, k, g);
    CollectedNext(IdsAt(AggRows(agg, group, ax, p, rowIds, n, num), k, g), IdsAt(AggRows(agg, group, ax, p, rowIds, n - 1, num), k, g),
      start, group, ax, p, rowIds, n, num, k, g);
  }

  /** Row n - 1 appends its id to the ids of its own bucket and series. */
  lemma AggRowsIdsNext(agg: Record<Bucket>, group: AggregationGroup, ax: XAxis, p: Pass, rowIds: seq<string>, n: nat, num: Option<string> -> Num, k: string, g: string)
    requires 0 < n <= |rowIds|
    ensures IdsAt(AggRows(agg, group, ax, p, rowIds, n, num), k, g) ==
      WithHit(IdsAt(AggRows(agg, group, ax, p, rowIds, n - 1, num), k, g), group, ax, p, rowIds, n - 1, num, k, g)
  {
    ReadRowIds(AggRows(agg, group, ax, p, rowIds, n - 1, num), group, ax, p, rowIds, n - 1, num, k, g);
  }

  /** Reading the rows of a series collects the ids of the rows read into
      each bucket and series. */
  lemma {:induction false} AggRowsCollected(agg: Record<Bucket>, group: AggregationGroup, ax: XAxis, p: Pass, rowIds: seq<string>, n: nat, num: Option<string> -> Num, k: string, g: string)
    requires n <= |rowIds|
    ensures IdsAt(AggRows(agg, group, ax, p, rowIds, n, num), k, g) == Collected(IdsAt(agg, k, g), group, ax, p, rowIds, n, num, k, g)
    decreases n, 1
  {
    if n > 0 {
      AggRowsIdsStep(agg, group, ax, p, rowIds, n, num, k, g, IdsAt(agg, k, g));
    }
  }

  /** Reading the rows of a series appends to every bucket and series the
      ids of exactly its rows that are read into it, in row order. */
  lemma AggRowsIds(agg: Record<Bucket>, group: AggregationGroup, ax: XAxis, p: Pass, rowIds: seq<string>, n: nat, num: Option<string> -> Num, k: string, g: string)
    requires n <= |rowIds|
    ensures IdsAt(AggRows(agg, group, ax, p, rowIds, n, num), k, g) == IdsAt(agg, k, g) + MatchingIds(group, ax, p, rowIds, n, num, k, g)
  {
    AggRowsCollected(agg, group, ax, p, rowIds, n, num, k, g);
    CollectedMatching(IdsAt(agg, k, g), group, ax, p, rowIds, n, num, k, g);
  }

  /** A row read into a bucket holding the accumulated value of the rows
      before it holds the accumulated value of the rows up to it. */
  lemma ReadRowAccumulated(prev: Record<Bucket>, group: AggregationGroup, ax: XAxis, p: Pass, rowIds: seq<string>, n: nat, num: Option<string> -> Num, k: string, g: string, start: Num)
    requires 0 < n <= |rowIds|
    requires ValueAt(prev, k, g) == Accumulated(start, group, ax, p, n - 1, num, k, g)
    ensures ValueAt(ReadRow(prev, group, ax, p, rowIds, n - 1, num), k, g) == Accumulated(start, group, ax, p, n, num, k, g)
  {
    ReadRowValue(prev, group, ax, p, rowIds, n - 1, num, k, g);
    AccumulatedStep(start, group, ax, p, n, num, k, g);
  }

  lemma AccumulatedStep(start: Num, group: AggregationGroup, ax: XAxis, p: Pass, n: nat, num: Option<string> -> Num, k: string, g: string)
    requires n > 0
    ensures Accumulated(start, group, ax, p, n, num, k, g) ==
      HitValue(Accumulated(start, group, ax, p, n - 1, num, k, g), group, ax, p, n - 1, num, k, g)
  {
  }

  /** One more row adds its delta to its own bucket and series. */
  lemma {:induction false} AggRowsValueStep(agg: Record<Bucket>, group: AggregationGroup, ax: XAxis, p: Pass, rowIds: seq<string>, n: nat, num: Option<string> -> Num, k: string, g: string, start: Num)
    requires 0 < n <= |rowIds| && start == ValueAt(agg, k, g)
    ensures ValueAt(AggRows(agg, group, ax, p, rowIds, n, num), k, g) == Accumulated(start, group, ax, p, n, num, k, g)
    decreases n, 0
  {
    AggRowsValue(agg, group, ax, p, rowIds, n - 1, num, k, g);
    ReadRowAccumulated(AggRows(agg, group, ax, p, rowIds, n - 1, num), group, ax, p, rowIds, n, num, k, g, start);
  }

  /** Reading the rows of a series adds to every bucket and series the
      deltas of exactly its rows that are read into it. */
  lemma {:induction false} AggRowsValue(agg: Record<Bucket>, group: AggregationGroup, ax: XAxis, p: Pass, rowIds: seq<string>, n: nat, num: Option<string> -> Num, k: string, g: string)
    requires n <= |rowIds|
    ensures ValueAt(AggRows(agg, group, ax, p, rowIds, n, num), k, g) == Accumulated(ValueAt(agg, k, g), group, ax, p, n, num, k, g)
    decreases n, 1
  {
    if n > 0 {
      AggRowsValueStep(agg, group, ax, p, rowIds, n, num, k, g, ValueAt(agg, k, g));
    }
  }

  /** With the count aggregate every matching row adds exactly one. */
  lemma {:induction false} CountAccumulated(c: real, group: AggregationGroup, ax: XAxis, p: Pass, rowIds: seq<string>, n: nat, num: Option<string> -> Num, k: string, g: string)
    requires p.aggFun == Count && n <= |rowIds|
    ensures Accumulated(Fin(c), group, ax, p, n, num, k, g) == Fin(c + |MatchingIds(group, ax, p, rowIds, n, num, k, g)| as real)
  {
    if n > 0 {
      CountAccumulated(c, group, ax, p, rowIds, n - 1, num, k, g);
    }
  }

  /** Buckets are never removed, and a bucket keeps the sort key it was
      created with. */
  lemma {:induction false} AggRowsKeepsBuckets(agg: Record<Bucket>, group: AggregationGroup, ax: XAxis, p: Pass, rowIds: seq<string>, n: nat, num: Option<string> -> Num, k: string)
    requires n <= |rowIds|
    requires k in agg.at
    ensures k in AggRows(agg, group, ax, p, rowIds, n, num).at
    ensures AggRows(agg, group, ax, p, rowIds, n, num).at[k].sortBy == agg.at[k].sortBy
  {
    if n > 0 {
      var prev := AggRows(agg, group, ax, p, rowIds, n - 1, num);
      AggRowsKeepsBuckets(agg, group, ax, p, rowIds, n - 1, num, k);
      ReadRowKeepsBuckets(prev, group, ax, p, rowIds, n - 1, num, k);
      assert AggRows(agg, group, ax, p, rowIds, n, num) == ReadRow(prev, group, ax, p, rowIds, n - 1, num);
    }
  }

  /** The loop over the rows of one series, building the buckets and the
      series summaries side by side. */
  method AggregateRows(agg0: Record<Bucket>, group: AggregationGroup, ax: XAxis, p: Pass, rowIds: seq<string>, num: Option<string> -> Num)
    returns (agg: Record<Bucket>, sums: Record<Summary>)
    ensures agg == AggRows(agg0, group, ax, p, rowIds, |rowIds|, num)
    ensures sums == SumRows(group, ax, p, |rowIds|, num)
  {
    agg := agg0;
    sums := EmptyRecord();
    for i := 0 to |rowIds|
      invariant agg == AggRows(agg0, group, ax, p, rowIds, i, num)
      invariant sums == SumRows(group, ax, p, i, num)
    {
      if Skipped(group, ax, i, num) {
        continue;
      }
      sums := AddSummary(sums, p, i, num);
      agg := AddRow(agg, group.column, ax, p, i, rowIds[i], num);
    }
  }

  // ---------------------------------------------------------------------
  // The relative aggregates and the zeroes, after the rows.
  // ---------------------------------------------------------------------

  /** One bucket after its series g is finalised: a missing value becomes 0
      when zeroes are asked for (otherwise the bucket is left alone); then
      mean divides by the row count, count_pct and pct give percentages of
      the row count and of the value sum. */
  function Adjust(b: Bucket, g: string, s: Summary, p: Pass): (r: Bucket)
    ensures g !in b.values.at && !p.addZeroes ==> r == b
    ensures (p.aggFun == Count || p.aggFun == Sum) && g in b.values.at ==> r == b
    ensures r.sortBy == b.sortBy && r.rowIds == b.rowIds && r.xValue == b.xValue
  {
    if g !in b.values.at && !p.addZeroes then b
    else
      var v := if g in b.values.at then b.values.at[g] else Fin(0.0);
      var v' := match p.aggFun
        case Mean => Div(v, Fin(s.n as real))
        case CountPct => Div(Hundredfold(v), Fin(s.n as real))
        case Pct => Div(Hundredfold(v), s.sum)
        case _ => v;
      b.(values := Store(b.values, g, v'))
  }

  /** Series g finalised in the buckets under the first n of the given keys. */
  function AdjustPrefix(agg: Record<Bucket>, keys: seq<string>, n: nat, g: string, s: Summary, p: Pass): (r: Record<Bucket>)
    requires n <= |keys|
    ensures r.keys == agg.keys
  {
    if n == 0 then agg
    else
      var prev := AdjustPrefix(agg, keys, n - 1, g, s, p);
      var k := keys[n - 1];
      if k in prev.at then Store(prev, k, Adjust(prev.at[k], g, s, p)) else prev
  }

  /** Finalising a series keeps every bucket, its sort key and its row ids. */
  lemma {:induction false} AdjustPrefixKeeps(agg: Record<Bucket>, keys: seq<string>, n: nat, g: string, s: Summary, p: Pass, k: string)
    requires n <= |keys|
    ensures k in AdjustPrefix(agg, keys, n, g, s, p).at <==> k in agg.at
    ensures k in agg.at ==>
      AdjustPrefix(agg, keys, n, g, s, p).at[k].sortBy == agg.at[k].sortBy &&
      AdjustPrefix(agg, keys, n, g, s, p).at[k].rowIds == agg.at[k].rowIds
  {
    if n > 0 {
      AdjustPrefixKeeps(agg, keys, n - 1, g, s, p, k);
    }
  }

  /** for (const xValue of Object.keys(aggregate)): finalise series g in
      every bucket. */
  method AdjustBuckets(agg0: Record<Bucket>, g: string, s: Summary, p: Pass) returns (agg: Record<Bucket>)
    ensures agg == AdjustPrefix(agg0, agg0.keys, |agg0.keys|, g, s, p)
  {
    agg := agg0;
    var keys := agg0.keys;
    for j := 0 to |keys|
      invariant agg == AdjustPrefix(agg0, keys, j, g, s, p)
    {
      var xValue := keys[j];
      if xValue in agg.at {
        agg := Store(agg, xValue, Adjust(agg.at[xValue], g, s, p));
      }
    }
  }

  /** Every series of the summary, in order, finalised in every bucket. */
  function Finalized(agg: Record<Bucket>, sums: Record<Summary>, n: nat, p: Pass): (r: Record<Bucket>)
    requires n <= |sums.keys|
    ensures r.keys == agg.keys
  {
    if n == 0 then agg
    else
      var prev := Finalized(agg, sums, n - 1, p);
      var g := sums.keys[n - 1];
      if g in sums.at then AdjustPrefix(prev, prev.keys, |prev.keys|, g, sums.at[g], p) else prev
  }

  /** The whole finalisation keeps every bucket, its sort key and its row ids. */
  lemma {:induction false} FinalizedKeeps(agg: Record<Bucket>, sums: Record<Summary>, n: nat, p: Pass, k: string)
    requires n <= |sums.keys|
    ensures k in Finalized(agg, sums, n, p).at <==> k in agg.at
    ensures k in agg.at ==>
      Finalized(agg, sums, n, p).at[k].sortBy == agg.at[k].sortBy &&
      Finalized(agg, sums, n, p).at[k].rowIds == agg.at[k].rowIds
  {
    if n > 0 {
      FinalizedKeeps(agg, sums, n - 1, p, k);
      var prev := Finalized(agg, sums, n - 1, p);
      var g := sums.keys[n - 1];
      if g in sums.at {
        AdjustPrefixKeeps(prev, prev.keys, |prev.keys|, g, sums.at[g], p, k);
      }
    }
  }

  /** Object.keys(groupSummary).forEach(...). */
  method FinalizeGroups(agg0: Record<Bucket>, sums: Record<Summary>, p: Pass) returns (agg: Record<Bucket>)
    ensures agg == Finalized(agg0, sums, |sums.keys|, p)
  {
    agg := agg0;
    for j := 0 to |sums.keys|
      invariant agg == Finalized(agg0, sums, j, p)
    {
      var group := sums.keys[j];
      if group in sums.at {
        agg := AdjustBuckets(agg, group, sums.at[group], p);
      }
    }
  }

  /** One series read into the buckets: the rows, then the finalisation. */
  function ValuePass(agg: Record<Bucket>, group: AggregationGroup, ax: XAxis, p: Pass, rowIds: seq<string>, num: Option<string> -> Num)
    : Record<Bucket>
  {
    var rows := AggRows(agg, group, ax, p, rowIds, |rowIds|, num);
    var sums := SumRows(group, ax, p, |rowIds|, num);
    Finalized(rows, sums, |sums.keys|, p)
  }

  /** A series keeps every bucket and its sort key. */
  lemma ValuePassKeepsBuckets(agg: Record<Bucket>, group: AggregationGroup, ax: XAxis, p: Pass, rowIds: seq<string>, num: Option<string> -> Num, k: string)
    requires k in agg.at
    ensures k in ValuePass(agg, group, ax, p, rowIds, num).at
    ensures ValuePass(agg, group, ax, p, rowIds, num).at[k].sortBy == agg.at[k].sortBy
  {
    AggRowsKeepsBuckets(agg, group, ax, p, rowIds, |rowIds|, num, k);
    var rows := AggRows(agg, group, ax, p, rowIds, |rowIds|, num);
    var sums := SumRows(group, ax, p, |rowIds|, num);
    FinalizedKeeps(rows, sums, |sums.keys|, p, k);
  }

  /** The passes of the first m series; a series whose columns are missing
      throws. */
  function Passes(table: Table, values: seq<AggregationValue>, m: nat): (r: Result<seq<Pass>>)
    requires m <= |values|
    ensures r.Ok? ==> |r.value| == m
  {
    if m == 0 then Ok([])
    else
      match Passes(table, values, m - 1)
      case Failure => Failure
      case Ok(ps) =>
        match PassOf(table, values[m - 1])
        case Failure => Failure
        case Ok(p) => Ok(ps + [p])
  }

  /** The passes fail exactly when some series' columns are missing. */
  lemma {:induction false} PassesOk(table: Table, values: seq<AggregationValue>, m: nat)
    requires m <= |values|
    ensures Passes(table, values, m).Ok? <==> forall j :: 0 <= j < m ==> PassOf(table, values[j]).Ok?
  {
    if m > 0 {
      PassesOk(table, values, m - 1);
    }
  }

  /** The buckets after every pass, in order. */
  function SeriesFold(agg: Record<Bucket>, group: AggregationGroup, ax: XAxis, ps: seq<Pass>, rowIds: seq<string>, num: Option<string> -> Num)
    : Record<Bucket>
    decreases |ps|
  {
    if ps == [] then agg
    else ValuePass(SeriesFold(agg, group, ax, ps[..|ps| - 1], rowIds, num), group, ax, ps[|ps| - 1], rowIds, num)
  }

  /** The series keep every bucket and its sort key. */
  lemma {:induction false} SeriesFoldKeepsBuckets(agg: Record<Bucket>, group: AggregationGroup, ax: XAxis, ps: seq<Pass>, rowIds: seq<string>, num: Option<string> -> Num, k: string)
    requires k in agg.at
    ensures k in SeriesFold(agg, group, ax, ps, rowIds, num).at
    ensures SeriesFold(agg, group, ax, ps, rowIds, num).at[k].sortBy == agg.at[k].sortBy
    decreases |ps|
  {
    if ps != [] {
      SeriesFoldKeepsBuckets(agg, group, ax, ps[..|ps| - 1], rowIds, num, k);
      ValuePassKeepsBuckets(SeriesFold(agg, group, ax, ps[..|ps| - 1], rowIds, num), group, ax, ps[|ps| - 1], rowIds, num, k);
    }
  }

  /** aggregateData: the x axis, the seeded buckets, then every series. */
  function Aggregated(table: Table, vis: ChartVisualization, env: ChartEnv): (r: Result<Record<Bucket>>)
    ensures r.Ok? ==> XAxisOf(table, vis, env).Ok? && Passes(table, vis.values, |vis.values|).Ok?
  {
    match XAxisOf(table, vis, env)
    case Failure => Failure
    case Ok(ax) =>
      match Passes(table, vis.values, |vis.values|)
      case Failure => Failure
      case Ok(ps) => Ok(SeriesFold(InitialBuckets(vis, ax), vis.group, ax, ps, RowIds(table.rows), env.number))
  }

  /** aggregateData throws exactly when the x column or some series' column
      is missing or empty. */
  lemma AggregatedOk(table: Table, vis: ChartVisualization, env: ChartEnv)
    ensures Aggregated(table, vis, env).Ok? <==>
      XAxisOf(table, vis, env).Ok? && forall j :: 0 <= j < |vis.values| ==> PassOf(table, vis.values[j]).Ok?
  {
    PassesOk(table, vis.values, |vis.values|);
  }

  /** One series of aggregateData: the rows, then the finalisation. */
  method ReadSeries(agg0: Record<Bucket>, group: AggregationGroup, ax: XAxis, p: Pass, rowIds: seq<string>, num: Option<string> -> Num)
    returns (agg: Record<Bucket>)
    ensures agg == ValuePass(agg0, group, ax, p, rowIds, num)
  {
    var rows, sums := AggregateRows(agg0, group, ax, p, rowIds, num);
    agg := FinalizeGroups(rows, sums, p);
  }

  /** aggregateData with its loops. */
  method AggregateData(table: Table, vis: ChartVisualization, env: ChartEnv) returns (r: Result<Record<Bucket>>)
    ensures r == Aggregated(table, vis, env)
  {
    var x := PrepareX(table, vis, env);
    if x.Failure? {
      return Failure;
    }
    var ax := x.value;
    var rowIds := RowIds(table.rows);
    var agg := SeedBuckets(vis, ax);
    ghost var agg0 := agg;
    ghost var ps: seq<Pass> := [];
    for m := 0 to |vis.values|
      invariant Passes(table, vis.values, m) == Ok(ps)
      invariant agg == SeriesFold(agg0, vis.group, ax, ps, rowIds, env.number)
    {
      var p := PassOf(table, vis.values[m]);
      if p.Failure? {
        PassesOk(table, vis.values, |vis.values|);
        return Failure;
      }
      agg := ReadSeries(agg, vis.group, ax, p.value, rowIds, env.number);
      ghost var next := ps + [p.value];
      assert next[..|next| - 1] == ps;
      ps := next;
    }
    r := Ok(agg);
  }

  /** With zeroes asked for and a sortable x, every sortable x value has a
      bucket in the result, sorted by its sortable number. */
  lemma SeededBucketsKept(table: Table, vis: ChartVisualization, env: ChartEnv, u: string)
    requires Aggregated(table, vis, env).Ok?
    requires AnyAddZeroes(vis.values)
    requires XAxisOf(table, vis, env).value.xSortable.Some?
    requires u in XAxisOf(table, vis, env).value.xSortable.value.keys
    requires u in XAxisOf(table, vis, env).value.xSortable.value.at
    ensures u in Aggregated(table, vis, env).value.at
    ensures Aggregated(table, vis, env).value.at[u].sortBy == SNum(XAxisOf(table, vis, env).value.xSortable.value.at[u])
  {
    var ax := XAxisOf(table, vis, env).value;
    var xs := ax.xSortable.value;
    SeededSpec(xs, vis.group.column, |xs.keys|);
    assert xs.keys[..|xs.keys|] == xs.keys;
    var ps := Passes(table, vis.values, |vis.values|).value;
    SeriesFoldKeepsBuckets(InitialBuckets(vis, ax), vis.group, ax, ps, RowIds(table.rows), env.number, u);
  }

  /** A missing x column, or a missing column of any series, throws. */
  lemma MissingColumnThrows(table: Table, vis: ChartVisualization, env: ChartEnv)
    requires (vis.group.column != CountColumn && vis.group.column !in table.head) ||
      exists j :: 0 <= j < |vis.values| && vis.values[j].column != CountColumn && vis.values[j].column !in table.head
    ensures Aggregated(table, vis, env).Failure?
  {
    AggregatedOk(table, vis, env);
  }

  // ---------------------------------------------------------------------
  // createVisualizationData
  // ---------------------------------------------------------------------

  /** JavaScript's a < b on sort keys: numbers by value, strings by code
      unit, and false for undefined or mixed kinds. */
  predicate JsLess(a: SortKey, b: SortKey) {
    match (a, b)
    case (SNum(x), SNum(y)) => x < y
    case (SStr(x), SStr(y)) => StrLe(x, y) && x != y
    case _ => false
  }

  /** The order the sort follows: JavaScript's order where it is one, with
      numbers before strings before undefined otherwise. */
  predicate KeyLe(a: SortKey, b: SortKey) {
    match (a, b)
    case (SNum(x), SNum(y)) => x <= y
    case (SStr(x), SStr(y)) => StrLe(x, y)
    case (SNum(_), _) => true
    case (SStr(_), SUndef) => true
    case (SUndef, SUndef) => true
    case _ => false
  }

  /** On two numbers or two strings the order is the comparator's: a comes
      first exactly when b is not less than a. */
  lemma KeyLeAgrees(a: SortKey, b: SortKey)
    requires (a.SNum? && b.SNum?) || (a.SStr? && b.SStr?)
    ensures KeyLe(a, b) <==> !JsLess(b, a)
  {
    if a.SStr? {
      StrLeTotal(a.s, b.s);
      if StrLe(a.s, b.s) && StrLe(b.s, a.s) { StrLeAntisymmetric(a.s, b.s); }
    }
  }

  function BucketLe(): (Bucket, Bucket) -> bool {
    (a: Bucket, b: Bucket) => KeyLe(a.sortBy, b.sortBy)
  }

  lemma BucketLeOrder()
    ensures Total(BucketLe()) && Transitive(BucketLe())
  {
    forall a: Bucket, b: Bucket ensures BucketLe()(a, b) || BucketLe()(b, a) {
      if a.sortBy.SStr? && b.sortBy.SStr? { StrLeTotal(a.sortBy.s, b.sortBy.s); }
    }
    forall a: Bucket, b: Bucket, c: Bucket | BucketLe()(a, b) && BucketLe()(b, c) ensures BucketLe()(a, c) {
      if a.sortBy.SStr? && b.sortBy.SStr? && c.sortBy.SStr? { StrLeTransitive(a.sortBy.s, b.sortBy.s, c.sortBy.s); }
    }
  }

  /** The values under the listed keys rounded to two decimals, keys
      untouched. */
  function Rounded(values: Record<Num>): (r: Record<Num>)
    ensures r.keys == values.keys && r.at.Keys == values.at.Keys
  {
    Record(values.keys, map k | k in values.at :: if k in values.keys then Round2(values.at[k]) else values.at[k])
  }

  /** Rounding a point's values twice rounds them once. */
  lemma RoundedIdempotent(values: Record<Num>)
    ensures Rounded(Rounded(values)) == Rounded(values)
  {
    forall k | k in values.at && k in values.keys {
      Round2Idempotent(values.at[k]);
    }
    assert Rounded(Rounded(values)).at == Rounded(values).at;
  }

  /** for (const key of Object.keys(d.values)): round each value in place. */
  method RoundValues(values: Record<Num>) returns (r: Record<Num>)
    ensures r == Rounded(values)
  {
    r := values;
    for j := 0 to |values.keys|
      invariant r.keys == values.keys
      invariant forall k :: k in r.at <==> k in values.at
      invariant forall k :: k in values.at ==>
        r.at[k] == if k in values.keys[..j] then Round2(values.at[k]) else values.at[k]
    {
      var key := values.keys[j];
      assert values.keys[..j + 1] == values.keys[..j] + [key];
      if key in r.at {
        Round2Idempotent(values.at[key]);
        r := r.(at := r.at[key := Round2(r.at[key])]);
      }
    }
    assert values.keys[..|values.keys|] == values.keys;
    assert r.at == Rounded(values).at;
  }

  /** A bucket as a chart point, its values rounded. */
  function PointOf(b: Bucket): ChartPoint {
    ChartPoint(Rounded(b.values), b.xKey, b.xValue, b.rowIds, b.sortBy)
  }

  /** The buckets in the order the chart shows them. */
  function SortedBuckets(agg: Record<Bucket>): (bs: seq<Bucket>)
    ensures multiset(bs) == multiset(ValuesOf(agg))
  {
    SortBy(ValuesOf(agg), BucketLe())
  }

  /** The buckets are ordered by their sort keys, and none is lost or added. */
  lemma SortedBucketsOrdered(agg: Record<Bucket>)
    ensures SortedBy(SortedBuckets(agg), BucketLe())
    ensures multiset(SortedBuckets(agg)) == multiset(ValuesOf(agg))
  {
    BucketLeOrder();
    SortBySorted(ValuesOf(agg), BucketLe());
  }

  /** The chart points: the sorted buckets, each with its values rounded. */
  function Points(agg: Record<Bucket>): (ps: seq<ChartPoint>)
    ensures |ps| == |SortedBuckets(agg)|
  {
    var bs := SortedBuckets(agg);
    seq(|bs|, i requires 0 <= i < |bs| => PointOf(bs[i]))
  }

  // ---------------------------------------------------------------------
  // initializeVisualizationData
  // ---------------------------------------------------------------------

  /** Percent ticks for the relative aggregates. */
  function TickerOf(value: AggregationValue): (t: TickerFormat)
    ensures t == Percent <==> value.aggregate == Some(Pct) || value.aggregate == Some(CountPct)
  {
    if value.aggregate == Some(Pct) || value.aggregate == Some(CountPct) then Percent else Default
  }

  /** The axis of one series of a group_by split. */
  function GroupAxis(value: AggregationValue, u: Option<string>): AxisSettings {
    AxisSettings(GroupLabel(value.column, u), if u.Some? then Some(Plain(u.value)) else None, TickerOf(value))
  }

  /** The axes of the first n distinct group values. */
  function GroupAxes(yKeys: Record<AxisSettings>, value: AggregationValue, us: seq<Option<string>>, n: nat)
    : Record<AxisSettings>
    requires n <= |us|
  {
    if n == 0 then yKeys
    else
      var prev := GroupAxes(yKeys, value, us, n - 1);
      var a := GroupAxis(value, us[n - 1]);
      Store(prev, a.id, a)
  }

  /** A series' group_by column, if it has one, exists. */
  predicate GroupColumnOk(table: Table, value: AggregationValue) {
    value.groupBy.None? || GetTableColumn(table, value.groupBy.value).Ok?
  }

  /** The axes of one series: one if it has no group_by, labelled by its
      label or else its column; one per distinct value of its group_by
      column otherwise. */
  function SeriesAxes(table: Table, yKeys: Record<AxisSettings>, value: AggregationValue): (r: Result<Record<AxisSettings>>)
    ensures r.Ok? <==> GroupColumnOk(table, value)
  {
    match value.groupBy
    case None =>
      Ok(Store(yKeys, value.column, AxisSettings(value.column, Some(value.caption.GetOr(Plain(value.column))), TickerOf(value))))
    case Some(g) =>
      match GetTableColumn(table, g)
      case Failure => Failure
      case Ok(column) =>
        var us := Unique(column);
        Ok(GroupAxes(yKeys, value, us, |us|))
  }

  /** The axes after the first m series. */
  function AxesFold(table: Table, vis: ChartVisualization, m: nat): (r: Result<Record<AxisSettings>>)
    requires m <= |vis.values|
  {
    if m == 0 then Ok(EmptyRecord())
    else
      match AxesFold(table, vis, m - 1)
      case Failure => Failure
      case Ok(prev) => SeriesAxes(table, prev, vis.values[m - 1])
  }

  /** The y axes fail exactly when some series' group column is missing. */
  lemma {:induction false} AxesFoldOk(table: Table, vis: ChartVisualization, m: nat)
    requires m <= |vis.values|
    ensures AxesFold(table, vis, m).Ok? <==> forall j :: 0 <= j < m ==> GroupColumnOk(table, vis.values[j])
  {
    if m > 0 {
      AxesFoldOk(table, vis, m - 1);
      AxesFoldStep(table, vis, m);
    }
  }

  lemma AxesFoldStep(table: Table, vis: ChartVisualization, m: nat)
    requires 0 < m <= |vis.values|
    ensures AxesFold(table, vis, m).Ok? <==> AxesFold(table, vis, m - 1).Ok? && GroupColumnOk(table, vis.values[m - 1])
  {
  }

  /** The data of a chart without its points. */
  function InitialData(table: Table, vis: ChartVisualization): (r: Result<ChartVisualizationData>)
    ensures r.Ok? ==>
      (r.value.chartType == vis.chartType && r.value.xKey == vis.group.column &&
       r.value.xLabel == vis.group.caption && r.value.data == [])
    ensures r.Ok? <==> AxesFold(table, vis, |vis.values|).Ok?
  {
    match AxesFold(table, vis, |vis.values|)
    case Failure => Failure
    case Ok(yKeys) => Ok(ChartVisualizationData(vis.chartType, vis.group.column, vis.group.caption, yKeys, []))
  }

  /** A series split by a column gets exactly one axis per distinct value
      of that column, whose id carries the value and whose label is it. */
  lemma {:induction false} GroupAxesSpec(yKeys: Record<AxisSettings>, value: AggregationValue, us: seq<Option<string>>, n: nat, id: string)
    requires n <= |us|
    ensures id in GroupAxes(yKeys, value, us, n).at <==>
      id in yKeys.at || exists i :: 0 <= i < n && GroupLabel(value.column, us[i]) == id
    ensures id in GroupAxes(yKeys, value, us, n).at && id !in yKeys.at ==>
      exists i :: 0 <= i < n && GroupAxes(yKeys, value, us, n).at[id] == GroupAxis(value, us[i])
  {
    if n > 0 {
      GroupAxesSpec(yKeys, value, us, n - 1, id);
      if GroupLabel(value.column, us[n - 1]) == id {
        assert GroupAxes(yKeys, value, us, n).at[id] == GroupAxis(value, us[n - 1]);
      }
    }
  }

  /** Two distinct group values give two distinct series ids. */
  lemma GroupLabelInjective(column: string, u: Option<string>, v: Option<string>)
    requires GroupLabel(column, u) == GroupLabel(column, v)
    ensures Key(u) == Key(v)
  {
    var prefix := column + ".GROUP_BY.";
    assert GroupLabel(column, u)[|prefix|..] == Key(u);
    assert GroupLabel(column, v)[|prefix|..] == Key(v);
  }

  /** for (const u of uniqueValues): one axis per distinct group value. */
  method AddGroupAxes(yKeys0: Record<AxisSettings>, value: AggregationValue, uniqueValues: seq<Option<string>>, tickerFormat: TickerFormat)
    returns (yKeys: Record<AxisSettings>)
    requires tickerFormat == TickerOf(value)
    ensures yKeys == GroupAxes(yKeys0, value, uniqueValues, |uniqueValues|)
  {
    yKeys := yKeys0;
    for n := 0 to |uniqueValues|
      invariant yKeys == GroupAxes(yKeys0, value, uniqueValues, n)
    {
      var u := uniqueValues[n];
      var id := GroupLabel(value.column, u);
      yKeys := Store(yKeys, id, AxisSettings(id, if u.Some? then Some(Plain(u.value)) else None, tickerFormat));
    }
  }

  /** The axes of one series with their ticker format. */
  method AddSeriesAxes(table: Table, yKeys: Record<AxisSettings>, value: AggregationValue) returns (r: Result<Record<AxisSettings>>)
    ensures r == SeriesAxes(table, yKeys, value)
  {
    var tickerFormat := Default;
    if value.aggregate == Some(Pct) || value.aggregate == Some(CountPct) {
      tickerFormat := Percent;
    }
    if value.groupBy.None? {
      var lbl := if value.caption.Some? then value.caption.value else Plain(value.column);
      r := Ok(Store(yKeys, value.column, AxisSettings(value.column, Some(lbl), tickerFormat)));
    } else {
      var column := GetTableColumn(table, value.groupBy.value);
      if column.Failure? {
        return Failure;
      }
      var uniqueValues := Unique(column.value);
      var next := AddGroupAxes(yKeys, value, uniqueValues, tickerFormat);
      r := Ok(next);
    }
  }

  /** initializeVisualizationData with its loops. */
  method InitializeVisualizationData(table: Table, vis: ChartVisualization) returns (r: Result<ChartVisualizationData>)
    ensures r == InitialData(table, vis)
  {
    var yKeys: Record<AxisSettings> := EmptyRecord();
    for m := 0 to |vis.values|
      invariant AxesFold(table, vis, m) == Ok(yKeys)
    {
      var next := AddSeriesAxes(table, yKeys, vis.values[m]);
      if next.Failure? {
        AxesFoldOk(table, vis, |vis.values|);
        return Failure;
      }
      yKeys := next.value;
    }
    r := Ok(ChartVisualizationData(vis.chartType, vis.group.column, vis.group.caption, yKeys, []));
  }

  // ---------------------------------------------------------------------
  // prepareChartData
  // ---------------------------------------------------------------------

  /** prepareChartData: an empty table gives an empty chart; otherwise the
      axes, and as points the aggregated buckets sorted by their sort keys
      with their values rounded. Any missing column throws. */
  function ChartDataOf(table: Table, vis: ChartVisualization, env: ChartEnv): (r: Result<ChartVisualizationData>)
    ensures table.rows == [] ==>
      r == Ok(ChartVisualizationData(vis.chartType, "", Some(Plain("")), EmptyRecord(), []))
    ensures table.rows != [] ==>
      (r.Ok? <==> Aggregated(table, vis, env).Ok? && InitialData(table, vis).Ok?)
    ensures table.rows != [] && r.Ok? ==>
      r.value.chartType == vis.chartType && r.value.xKey == vis.group.column &&
      r.value.xLabel == vis.group.caption && r.value.yKeys == InitialData(table, vis).value.yKeys &&
      r.value.data == Points(Aggregated(table, vis, env).value)
  {
    if table.rows == [] then Ok(ChartVisualizationData(vis.chartType, "", Some(Plain("")), EmptyRecord(), []))
    else
      match Aggregated(table, vis, env)
      case Failure => Failure
      case Ok(agg) =>
        match InitialData(table, vis)
        case Failure => Failure
        case Ok(d) => Ok(d.(data := Points(agg)))
  }

  /** The points of a chart are its buckets in sort-key order: numbers by
      value, strings in code-unit order. */
  lemma ChartPointsOrdered(table: Table, vis: ChartVisualization, env: ChartEnv)
    requires ChartDataOf(table, vis, env).Ok?
    ensures forall i, j :: 0 <= i < j < |ChartDataOf(table, vis, env).value.data| ==>
      KeyLe(ChartDataOf(table, vis, env).value.data[i].sortBy, ChartDataOf(table, vis, env).value.data[j].sortBy)
  {
    if table.rows != [] {
      SortedBucketsOrdered(Aggregated(table, vis, env).value);
    }
  }

  /** createVisualizationData with its loops. */
  method CreateVisualizationData(table: Table, vis: ChartVisualization, agg: Record<Bucket>)
    returns (r: Result<ChartVisualizationData>)
    ensures r.Ok? <==> InitialData(table, vis).Ok?
    ensures r.Ok? ==> r.value == InitialData(table, vis).value.(data := Points(agg))
  {
    var init := InitializeVisualizationData(table, vis);
    if init.Failure? {
      return Failure;
    }
    var data := BuildPoints(agg);
    r := Ok(init.value.(data := data));
  }

  /** The loop over the sorted buckets, rounding each one's values. */
  method BuildPoints(agg: Record<Bucket>) returns (data: seq<ChartPoint>)
    ensures data == Points(agg)
  {
    var sorted := SortedBuckets(agg);
    data := [];
    for i := 0 to |sorted|
      invariant |data| == i
      invariant forall k :: 0 <= k < i ==> data[k] == PointOf(sorted[k])
    {
      var values := RoundValues(sorted[i].values);
      var d := sorted[i];
      data := data + [ChartPoint(values, d.xKey, d.xValue, d.rowIds, d.sortBy)];
    }
  }

  /** prepareChartData. */
  method PrepareChartData(table: Table, vis: ChartVisualization, env: ChartEnv) returns (r: Result<ChartVisualizationData>)
    ensures r == ChartDataOf(table, vis, env)
  {
    if |table.rows| == 0 {
      return Ok(ChartVisualizationData(vis.chartType, "", Some(Plain("")), EmptyRecord(), []));
    }
    var agg := AggregateData(table, vis, env);
    if agg.Failure? {
      return Failure;
    }
    r := CreateVisualizationData(table, vis, agg.value);
  }
}
