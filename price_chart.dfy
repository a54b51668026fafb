/**
 * The data side of `PriceChart` (components/dashboard/price-chart.jsx): the
 * candlestick and volume series built from the price points, and the guard
 * that shows "No price data available" instead of a chart.
 *
 * `new Date(t).toISOString()` is outside the model and is passed in as `toIso`.
 */
module PriceChart {
  import opened Wrappers

  /** A point's `time`: either already a string, or a timestamp in milliseconds. */
  datatype TimeValue = TimeText(text: string) | TimeStamp(millis: int)

  datatype PricePoint = PricePoint(time: TimeValue, open: real, high: real, low: real, close: real, volume: real)

  datatype Candle = Candle(time: string, open: real, high: real, low: real, close: real)

  datatype VolumeBar = VolumeBar(time: string, value: real, color: string)

  const UpColor: string := "#22c55e"
  const DownColor: string := "#ef4444"

  /** `iso.split('T')[0]`: everything before the first 'T'. */
  function DatePart(iso: string): (r: string)
    ensures |r| <= |iso| && iso[..|r|] == r
    ensures forall i :: 0 <= i < |r| ==> r[i] != 'T'
    ensures |r| < |iso| ==> iso[|r|] == 'T'
    decreases |iso|
  {
    if iso == [] || iso[0] == 'T' then [] else [iso[0]] + DatePart(iso[1..])
  }

  /** The `time` both series use for a point. */
  function ChartTime(t: TimeValue, toIso: int -> string): string {
    match t
    case TimeText(s) => s
    case TimeStamp(ms) => DatePart(toIso(ms))
  }

  /** `formattedData`: one candle per point, in order, prices copied unchanged. */
  function FormattedData(data: seq<PricePoint>, toIso: int -> string): (r: seq<Candle>)
    ensures |r| == |data|
    ensures forall i :: 0 <= i < |data| ==>
      && r[i].open == data[i].open && r[i].high == data[i].high
      && r[i].low == data[i].low && r[i].close == data[i].close
      && r[i].time == ChartTime(data[i].time, toIso)
  {
    seq(|data|, i requires 0 <= i < |data| =>
      Candle(ChartTime(data[i].time, toIso), data[i].open, data[i].high, data[i].low, data[i].close))
  }

  /** `volumeData`: one bar per point, in order; up-coloured exactly when close >= open. */
  function VolumeData(data: seq<PricePoint>, toIso: int -> string): (r: seq<VolumeBar>)
    ensures |r| == |data|
    ensures forall i :: 0 <= i < |data| ==>
      && r[i].value == data[i].volume
      && r[i].time == ChartTime(data[i].time, toIso)
      && (r[i].color == UpColor <==> data[i].close >= data[i].open)
      && (r[i].color == DownColor <==> data[i].close < data[i].open)
  {
    seq(|data|, i requires 0 <= i < |data| =>
      VolumeBar(ChartTime(data[i].time, toIso), data[i].volume,
        if data[i].close >= data[i].open then UpColor else DownColor))
  }

  /**
   * The two series line up: the k-th candle and the k-th volume bar come from
   * the k-th point and carry the same time, which is the point's own string
   * or the date part of its ISO text.
   */
  lemma SeriesAligned(data: seq<PricePoint>, toIso: int -> string, k: nat)
    requires k < |data|
    ensures FormattedData(data, toIso)[k].time == VolumeData(data, toIso)[k].time
    ensures data[k].time.TimeText? ==> FormattedData(data, toIso)[k].time == data[k].time.text
    ensures data[k].time.TimeStamp? ==>
      var iso := toIso(data[k].time.millis);
      var t := FormattedData(data, toIso)[k].time;
      && |t| <= |iso| && iso[..|t|] == t
      && (forall i :: 0 <= i < |t| ==> t[i] != 'T')
      && (|t| < |iso| ==> iso[|t|] == 'T')
  {
  }

  datatype PriceChartView = NoPriceData | Chart(candles: seq<Candle>, volumes: seq<VolumeBar>)

  /**
   * `data?.length` decides: absent or empty data builds no chart and shows
   * "No price data available"; otherwise both series are built from all points.
   */
  function Render(data: Option<seq<PricePoint>>, toIso: int -> string): (v: PriceChartView)
    ensures v.NoPriceData? <==> data.None? || |data.value| == 0
    ensures v.Chart? ==>
      && |v.candles| == |data.value| && |v.volumes| == |data.value|
      && v.candles == FormattedData(data.value, toIso) && v.volumes == VolumeData(data.value, toIso)
  {
    if data.None? || |data.value| == 0 then NoPriceData
    else Chart(FormattedData(data.value, toIso), VolumeData(data.value, toIso))
  }
}
