// Line styles and y-axis tick formatting of the chart figure.
module RechartsGraph {
  import opened Wrappers
  import opened Strings

  /** The six series colours, in order. */
  const Colors: seq<string> := ["#4272EF", "#FF5E5E", "#FFCF60", "#1E3FCC", "#CC3F3F", "#CC9F3F"]

  /** The four dash patterns, in order. */
  const Dashes: seq<string> := ["1", "5 5", "10 10", "5 5 10 10"]

  datatype LineStyle = LineStyle(color: string, dash: string)

  /** getLineStyle: the colour cycles with the index, the dash pattern with
      each run of six indices, and the whole cycle has 24 styles. */
  function GetLineStyle(index: nat): (r: LineStyle)
    ensures r.color in Colors && r.dash in Dashes
  {
    var cell := index % (|Colors| * |Dashes|);
    var row := index % |Colors|;
    var column := cell / |Colors|;
    LineStyle(Colors[row], Dashes[column])
  }

  /** The colour is COLORS[index mod 6] and the dash DASHES[(index mod 24) div 6]. */
  lemma LineStyleOfIndex(index: nat)
    ensures GetLineStyle(index).color == Colors[index % 6]
    ensures GetLineStyle(index).dash == Dashes[(index % 24) / 6]
  {
  }

  /** Styles repeat with period 24. */
  lemma LineStylePeriodic(index: nat)
    ensures GetLineStyle(index + 24) == GetLineStyle(index)
  {
    assert (index + 24) % 24 == index % 24;
    assert (index + 24) % 6 == index % 6;
  }

  /** Within one period every index gets its own style. */
  lemma LineStylesDistinct(i: nat, j: nat)
    requires i < j < 24
    ensures GetLineStyle(i) != GetLineStyle(j)
  {
    assert i % 6 != j % 6 || i / 6 != j / 6;
  }

  datatype TickerFormat = Percent | Default

  /** The only tick formatter: a value rendered with a percent sign. */
  datatype Formatter = PercentFormatter

  /** tickFormatter: a formatter for the percent format, none for the default. */
  function TickFormatter(format: TickerFormat): (r: Option<Formatter>)
    ensures r.Some? <==> format == Percent
  {
    if format == Percent then Some(PercentFormatter) else None
  }

  /** The percent formatter: the value followed by "%". */
  function FormatTick(f: Formatter, value: int): (r: string)
    ensures |r| >= 2 && r[|r| - 1] == '%'
    ensures r[..|r| - 1] == IntToString(value)
    ensures (value < 0) <==> r[0] == '-'
  {
    match f
    case PercentFormatter => IntToString(value) + "%"
  }

  /** getTickFormatter: the first y key's format survives only while every
      later key agrees; the percent formatter results exactly when there is
      at least one y key and all are percent. */
  method GetTickFormatter(yKeys: seq<TickerFormat>) returns (f: Option<Formatter>)
    ensures f.Some? <==> (|yKeys| > 0 && forall k :: 0 <= k < |yKeys| ==> yKeys[k] == Percent)
  {
    var tickerFormat: Option<TickerFormat> := None;
    for i := 0 to |yKeys|
      invariant i == 0 ==> tickerFormat.None?
      invariant i > 0 ==> tickerFormat.Some?
      invariant i > 0 ==> (tickerFormat == Some(Percent) <==> forall k :: 0 <= k < i ==> yKeys[k] == Percent)
    {
      if tickerFormat.None? {
        tickerFormat := Some(yKeys[i]);
      }
      if tickerFormat != Some(yKeys[i]) {
        tickerFormat := Some(Default);
      }
    }
    f := TickFormatter(tickerFormat.GetOr(Default));
  }
}
