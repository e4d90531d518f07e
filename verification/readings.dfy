/**
 * The readings the main screen holds: one record per location from the weather
 * gateway, the Kelvin-to-Celsius mapping applied after a fetch, the change test that
 * decides whether a fetch replaces what is shown, and the points of the trend chart.
 */
module Readings {
  import opened Wrappers
  import opened JsValues

  /**
   * One location's current conditions. A numeric field is `None` when JavaScript's
   * `Number(...)` of it is `NaN` (missing, or the string "NaN" the converter yields
   * for a non-numeric input). `main` is the condition category ("Clear", "Rain", ...).
   */
  datatype Reading = Reading(
    id: int,
    name: string,
    main: string,
    temp: Option<real>,
    feelsLike: Option<real>,
    humidity: Option<real>,
    windSpeed: Option<real>)

  /** The unit converter applied to `temp` and `feels_like`; its definition is an input. */
  type Converter = Option<real> -> Option<real>

  /** The per-item mapping after a successful fetch: both temperatures converted, all else kept. */
  function Process(raw: seq<Reading>, convert: Converter): (r: seq<Reading>)
    ensures |r| == |raw|
    ensures forall i :: 0 <= i < |raw| ==>
      r[i].temp == convert(raw[i].temp) && r[i].feelsLike == convert(raw[i].feelsLike)
    ensures forall i :: 0 <= i < |raw| ==>
      r[i].id == raw[i].id && r[i].name == raw[i].name && r[i].main == raw[i].main
      && r[i].humidity == raw[i].humidity && r[i].windSpeed == raw[i].windSpeed
  {
    if |raw| == 0 then []
    else
      [raw[0].(temp := convert(raw[0].temp), feelsLike := convert(raw[0].feelsLike))]
      + Process(raw[1..], convert)
  }

  /** `newData.some((item, index) => item.temp !== oldData[index].temp)`, from index `from` on. */
  function SomeTempDiffers(newData: seq<Reading>, oldData: seq<Reading>, from: nat): (r: bool)
    requires |newData| == |oldData| && from <= |newData|
    ensures r <==> exists k :: from <= k < |newData| && newData[k].temp != oldData[k].temp
    decreases |newData| - from
  {
    if from == |newData| then false
    else newData[from].temp != oldData[from].temp || SomeTempDiffers(newData, oldData, from + 1)
  }

  /**
   * A fetch is a significant change when the number of readings differs or some
   * reading's temperature differs at the same position; no tolerance, and no other
   * field is compared.
   */
  function IsSignificantChange(newData: seq<Reading>, oldData: seq<Reading>): (r: bool)
    ensures r <==> |newData| != |oldData|
                   || exists k :: 0 <= k < |newData| && newData[k].temp != oldData[k].temp
  {
    if |newData| != |oldData| then true else SomeTempDiffers(newData, oldData, 0)
  }

  /** One point of the trend chart. */
  datatype ChartPoint = ChartPoint(day: string, temp: Option<real>)

  function DayLabel(i: nat): string {
    "Day " + NatToString(i + 1)
  }

  /** The chart data: the i-th reading becomes "Day i+1" with its temperature. */
  function TemperatureData(rs: seq<Reading>): (r: seq<ChartPoint>)
    ensures |r| == |rs|
    ensures forall i :: 0 <= i < |rs| ==> r[i] == ChartPoint(DayLabel(i), rs[i].temp)
  {
    seq(|rs|, i requires 0 <= i < |rs| => ChartPoint(DayLabel(i), rs[i].temp))
  }

  /** Different positions give different day labels, and each label names its position. */
  lemma DayLabelsDistinct(i: nat, j: nat)
    ensures DayLabel(i) == DayLabel(j) <==> i == j
  {
    if DayLabel(i) == DayLabel(j) {
      var a, b := NatToString(i + 1), NatToString(j + 1);
      assert a == DayLabel(i)[4..] && b == DayLabel(j)[4..];
      assert DigitsValue(a) == i + 1 && DigitsValue(b) == j + 1;
    }
  }

  /** The number in a chart label parses back, with `parseFloat`, to the 1-based position. */
  lemma DayLabelNumber(i: nat)
    ensures ParseFloatString(DayLabel(i)[4..]) == Finite((i + 1) as real)
  {
    assert DayLabel(i)[4..] == NatToString(i + 1);
    ParseRenderedNat(i + 1);
  }
}
