/**
 * The data side of components/dashboard/performance-chart.jsx: the `useMemo`
 * adapters of `EquityChart`, `StrategyPerformance` and `TradingActivityChart`,
 * the benchmark-line rule, the metric colours of `PerformanceOverview` and the
 * `CustomTooltip` guard.
 *
 * `toLocaleDateString` and `toLocaleString` are outside the model and are
 * passed in as functions.
 */
module PerformanceChart {
  import opened Wrappers

  // ---- EquityChart ----

  /** A point's `date`: either already a string, or a timestamp in milliseconds. */
  datatype DateValue = DateText(text: string) | DateStamp(millis: int)

  /** An equity point; an absent `benchmark` is `None`. */
  datatype EquityPoint = EquityPoint(date: DateValue, equity: real, benchmark: Option<real>)

  /** A row handed to the line chart; `None` is the `null` benchmark. */
  datatype EquityRow = EquityRow(date: string, equity: real, benchmark: Option<real>)

  /** JavaScript truthiness of an optional number: absent and 0 are falsy. */
  predicate Truthy(b: Option<real>) {
    b.Some? && b.value != 0.0
  }

  /** `item.benchmark || null`. */
  function BenchmarkOrNull(b: Option<real>): (r: Option<real>)
    ensures r.Some? <==> Truthy(b)
    ensures r.Some? ==> r == b
  {
    if Truthy(b) then b else None
  }

  function RowDate(d: DateValue, localeDate: int -> string): string {
    match d
    case DateText(s) => s
    case DateStamp(ms) => localeDate(ms)
  }

  /**
   * The `EquityChart` adapter: [] for absent or empty input; otherwise one row
   * per point, in order, equity copied, a falsy benchmark turned into null.
   */
  function EquityChartData(data: Option<seq<EquityPoint>>, localeDate: int -> string): (rows: seq<EquityRow>)
    ensures data.None? ==> rows == []
    ensures data.Some? ==> |rows| == |data.value|
    ensures data.Some? ==> forall i :: 0 <= i < |rows| ==>
      && rows[i].equity == data.value[i].equity
      && rows[i].date == RowDate(data.value[i].date, localeDate)
      && (rows[i].benchmark.Some? <==> Truthy(data.value[i].benchmark))
      && (rows[i].benchmark.Some? ==> rows[i].benchmark == data.value[i].benchmark)
  {
    if data.None? || |data.value| == 0 then []
    else
      var s := data.value;
      seq(|s|, i requires 0 <= i < |s| =>
        EquityRow(RowDate(s[i].date, localeDate), s[i].equity, BenchmarkOrNull(s[i].benchmark)))
  }

  /** `chartData[0]?.benchmark`: the benchmark line is drawn when the FIRST row's benchmark is truthy. */
  predicate ShowBenchmark(rows: seq<EquityRow>) {
    |rows| > 0 && Truthy(rows[0].benchmark)
  }

  /**
   * The benchmark line is drawn exactly when the input is non-empty and its
   * first point carries a non-zero benchmark.
   */
  lemma BenchmarkLineIffFirstPoint(data: Option<seq<EquityPoint>>, localeDate: int -> string)
    ensures ShowBenchmark(EquityChartData(data, localeDate)) <==>
      data.Some? && |data.value| > 0 && Truthy(data.value[0].benchmark)
  {
  }

  /**
   * Later points are never consulted: two non-empty inputs whose first points
   * have the same benchmark get the same decision, however their other points
   * differ.
   */
  lemma BenchmarkIgnoresLaterPoints(s: seq<EquityPoint>, t: seq<EquityPoint>, localeDate: int -> string)
    requires |s| > 0 && |t| > 0 && s[0].benchmark == t[0].benchmark
    ensures ShowBenchmark(EquityChartData(Some(s), localeDate)) == ShowBenchmark(EquityChartData(Some(t), localeDate))
  {
  }

  datatype EquityView = EquityNoData | EquityLines(rows: seq<EquityRow>, benchmarkLine: bool)

  /** The `EquityChart` card: "No data available" when there are no rows. */
  function RenderEquity(data: Option<seq<EquityPoint>>, localeDate: int -> string): (v: EquityView)
    ensures v.EquityNoData? <==> data.None? || |data.value| == 0
    ensures v.EquityLines? ==>
      && v.rows == EquityChartData(data, localeDate)
      && (v.benchmarkLine <==> Truthy(data.value[0].benchmark))
  {
    var rows := EquityChartData(data, localeDate);
    if |rows| > 0 then EquityLines(rows, ShowBenchmark(rows)) else EquityNoData
  }

  // ---- StrategyPerformance and TradingActivityChart ----

  datatype StrategyBar = StrategyBar(name: string, winRate: real, trades: real)

  datatype ActivityPoint = ActivityPoint(date: string, profit: real, loss: real)

  /** The `StrategyPerformance` adapter: `if (!data) return []; return data;` */
  function StrategyBarsData<T>(data: Option<seq<T>>): (r: seq<T>)
    ensures data.None? ==> r == []
    ensures data.Some? ==> r == data.value
  {
    if data.None? then [] else data.value
  }

  /** The `TradingActivityChart` adapter: `if (!data || !data.length) return []; return data;` */
  function ActivityData<T>(data: Option<seq<T>>): (r: seq<T>)
    ensures data.None? ==> r == []
    ensures data.Some? && |data.value| > 0 ==> r == data.value
    ensures data.Some? && |data.value| == 0 ==> r == []
  {
    if data.None? || |data.value| == 0 then [] else data.value
  }

  /** The extra emptiness test of the activity adapter changes nothing: both adapters agree. */
  lemma ActivityAgreesWithStrategyBars<T>(data: Option<seq<T>>)
    ensures ActivityData(data) == StrategyBarsData(data)
  {
  }

  datatype CardView<T> = CardNoData | CardChart(rows: seq<T>)

  /** `chartData.length > 0 ? chart : "No data available"`. */
  function RenderCard<T>(rows: seq<T>): (v: CardView<T>)
    ensures v.CardNoData? <==> |rows| == 0
    ensures v.CardChart? ==> v.rows == rows
  {
    if |rows| > 0 then CardChart(rows) else CardNoData
  }

  /** The `StrategyPerformance` card: a bar chart of the input, or "No data available". */
  function RenderStrategyPerformance(data: Option<seq<StrategyBar>>): (v: CardView<StrategyBar>)
    ensures v.CardNoData? <==> data.None? || |data.value| == 0
    ensures v.CardChart? ==> v.rows == data.value
  {
    RenderCard(StrategyBarsData(data))
  }

  /** The `TradingActivityChart` card: an area chart of the input, or "No data available". */
  function RenderTradingActivity(data: Option<seq<ActivityPoint>>): (v: CardView<ActivityPoint>)
    ensures v.CardNoData? <==> data.None? || |data.value| == 0
    ensures v.CardChart? ==> v.rows == data.value
  {
    RenderCard(ActivityData(data))
  }

  // ---- PerformanceOverview ----

  datatype Metrics = Metrics(
    totalPnL: real, winRate: real, totalTrades: real,
    profitFactor: real, maxDrawdown: real, sharpeRatio: real)

  /** The colour class of a metric tile. */
  datatype Tone = ProfitTone | LossTone | MutedTone | PlainTone

  /** A tile's value: shown as is, or through `toFixed(2)`. */
  datatype TileValue = AsIs(x: real) | TwoDecimals(y: real)

  datatype Tile = Tile(name: string, value: TileValue, prefix: string, suffix: string, tone: Tone)

  datatype OverviewView = OverviewNoData | OverviewGrid(tiles: seq<Tile>)

  /**
   * `PerformanceOverview`: null data shows the no-data card; otherwise six
   * tiles in the source's order, coloured as profit exactly when
   * totalPnL >= 0, winRate >= 50, profitFactor >= 1 and sharpeRatio >= 1
   * respectively; drawdown is always a loss, trade count always plain.
   */
  function Overview(data: Option<Metrics>): (v: OverviewView)
    ensures v.OverviewNoData? <==> data.None?
    ensures v.OverviewGrid? ==>
      var m := data.value;
      && |v.tiles| == 6
      && v.tiles[0].value == AsIs(m.totalPnL) && v.tiles[1].value == AsIs(m.winRate)
      && v.tiles[2].value == AsIs(m.totalTrades) && v.tiles[3].value == TwoDecimals(m.profitFactor)
      && v.tiles[4].value == AsIs(m.maxDrawdown) && v.tiles[5].value == TwoDecimals(m.sharpeRatio)
      && (v.tiles[0].tone == ProfitTone <==> m.totalPnL >= 0.0)
      && (v.tiles[0].tone == LossTone <==> m.totalPnL < 0.0)
      && (v.tiles[1].tone == ProfitTone <==> m.winRate >= 50.0)
      && (v.tiles[1].tone == MutedTone <==> m.winRate < 50.0)
      && v.tiles[2].tone == PlainTone
      && (v.tiles[3].tone == ProfitTone <==> m.profitFactor >= 1.0)
      && (v.tiles[3].tone == LossTone <==> m.profitFactor < 1.0)
      && v.tiles[4].tone == LossTone
      && (v.tiles[5].tone == ProfitTone <==> m.sharpeRatio >= 1.0)
      && (v.tiles[5].tone == MutedTone <==> m.sharpeRatio < 1.0)
  {
    match data
    case None => OverviewNoData
    case Some(m) =>
      OverviewGrid([
        Tile("Total P&L", AsIs(m.totalPnL), "₽", "", if m.totalPnL >= 0.0 then ProfitTone else LossTone),
        Tile("Win Rate", AsIs(m.winRate), "", "%", if m.winRate >= 50.0 then ProfitTone else MutedTone),
        Tile("Total Trades", AsIs(m.totalTrades), "", "", PlainTone),
        Tile("Profit Factor", TwoDecimals(m.profitFactor), "", "", if m.profitFactor >= 1.0 then ProfitTone else LossTone),
        Tile("Max Drawdown", AsIs(m.maxDrawdown), "", "%", LossTone),
        Tile("Sharpe Ratio", TwoDecimals(m.sharpeRatio), "", "", if m.sharpeRatio >= 1.0 then ProfitTone else MutedTone)
      ])
  }

  // ---- CustomTooltip ----

  datatype PayloadEntry = PayloadEntry(name: string, value: real, color: string)

  datatype TooltipLine = TooltipLine(text: string, color: string)

  datatype Tooltip = Tooltip(caption: string, lines: seq<TooltipLine>)

  /**
   * `CustomTooltip`: nothing unless `active` and the payload is present and
   * non-empty; then one line per entry, in order, reading
   * "name: prefix value suffix" in the entry's colour.
   */
  function CustomTooltip(active: bool, payload: Option<seq<PayloadEntry>>, caption: string,
                         prefix: string, suffix: string, localeNumber: real -> string): (r: Option<Tooltip>)
    ensures r.Some? <==> active && payload.Some? && |payload.value| > 0
    ensures r.Some? ==>
      && r.value.caption == caption && |r.value.lines| == |payload.value|
      && forall i :: 0 <= i < |payload.value| ==>
           r.value.lines[i] == TooltipLine(payload.value[i].name + ": " + prefix + localeNumber(payload.value[i].value) + suffix,
                                           payload.value[i].color)
  {
    if active && payload.Some? && |payload.value| > 0 then
      var p := payload.value;
      Some(Tooltip(caption, seq(|p|, i requires 0 <= i < |p| =>
        TooltipLine(p[i].name + ": " + prefix + localeNumber(p[i].value) + suffix, p[i].color))))
    else None
  }
}
