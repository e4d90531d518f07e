/**
 * The daily summary as the client sends it and as the service judges it: the mean and
 * the two averages go out as `toFixed(2)` strings (the string "NaN" for an average of
 * nothing), the extremes as numbers.
 */
module SummaryUpload {
  import opened Wrappers
  import opened JsValues
  import opened Readings
  import opened Aggregation
  import opened SummaryServer

  /** `toFixed(2)`, whose decimal rendering is not modelled. */
  type FixedRendering = real -> string

  /** An optional average as sent: its rendering, or `NaN.toFixed(2)` when there is none. */
  function WireAverage(x: Option<real>, fixed: FixedRendering): JsValue {
    match x
    case None => Str("NaN")
    case Some(v) => Str(fixed(v))
  }

  /** The body `saveDailySummary` posts for a summary. */
  function Wire(d: DailySummary, fixed: FixedRendering): SummaryBody {
    SummaryBody(Str(fixed(d.avgTemp)), Num(d.maxTemp), Num(d.minTemp),
                WireAverage(d.avgWindSpeed, fixed), WireAverage(d.avgHumidity, fixed),
                Some(d.dominantCondition), Some(d.date))
  }

  /** Whether the service takes the summary, given whether each average's rendering parses. */
  predicate Storable(d: DailySummary, fixed: FixedRendering) {
    d.avgHumidity.Some? && d.avgWindSpeed.Some? && d.maxTemp != 0.0 && d.minTemp != 0.0
    && fixed(d.avgTemp) != "" && d.dominantCondition != "" && d.date != ""
  }

  /**
   * A summary missing an average, with a zero extreme, a mean rendered as the empty
   * string or an empty text field is refused (the rendering "NaN" of a missing average
   * does not parse).
   */
  lemma UploadRefused(d: DailySummary, fixed: FixedRendering)
    requires !Storable(d, fixed)
    ensures Validate(Wire(d, fixed)).None?
  {
    NaNRenderingRefused();
    var b := Wire(d, fixed);
    assert Falsy(b.avgTemp) || Falsy(b.maxTemp) || Falsy(b.minTemp)
      || ParseFloat(b.avgWindSpeed) == NaN || ParseFloat(b.avgHumidity) == NaN
      || !Present(b.dominantCondition) || !Present(b.date);
  }

  /**
   * Otherwise, when both averages' renderings parse, the service stores the summary,
   * with its extremes, condition and date.
   */
  lemma UploadStored(d: DailySummary, fixed: FixedRendering)
    requires Storable(d, fixed)
    requires ParseFloat(Str(fixed(d.avgHumidity.value))) != NaN
    requires ParseFloat(Str(fixed(d.avgWindSpeed.value))) != NaN
    ensures var r := Validate(Wire(d, fixed));
      r.Some? && r.value.maxTemp == Finite(d.maxTemp) && r.value.minTemp == Finite(d.minTemp)
      && r.value.date == d.date && r.value.dominantCondition == d.dominantCondition
  {
    var b := Wire(d, fixed);
    assert !Falsy(b.avgTemp) && !Falsy(b.maxTemp) && !Falsy(b.minTemp);
    assert ParseFloat(b.avgWindSpeed) != NaN && ParseFloat(b.avgHumidity) != NaN;
    assert Present(b.dominantCondition) && Present(b.date);
  }

  /**
   * For a rendering that always produces a number, the service stores a summary exactly
   * when both averages exist, neither extreme is zero, the mean renders to a non-empty
   * string and both text fields are non-empty.
   */
  lemma UploadAccepted(d: DailySummary, fixed: FixedRendering)
    requires forall v :: ParseFloatString(fixed(v)).Finite?
    ensures Validate(Wire(d, fixed)).Some? <==> Storable(d, fixed)
  {
    if Storable(d, fixed) {
      WireAverageParses(d.avgHumidity, fixed);
      WireAverageParses(d.avgWindSpeed, fixed);
      UploadStored(d, fixed);
    } else {
      UploadRefused(d, fixed);
    }
  }

  /** Under a rendering that always parses, an average is refused exactly when it is missing. */
  lemma WireAverageParses(x: Option<real>, fixed: FixedRendering)
    requires forall v :: ParseFloatString(fixed(v)).Finite?
    ensures x.Some? ==> ParseFloat(WireAverage(x, fixed)) != NaN
    ensures x.None? ==> ParseFloat(WireAverage(x, fixed)) == NaN
  {
    if x.Some? {
      var h := x.value;
      var s := fixed(h);
      assert ParseFloatString(s).Finite?;
      assert WireAverage(x, fixed) == Str(s);
    } else {
      ParseNoNumber("NaN");
    }
  }

  lemma NaNRenderingRefused()
    ensures ParseFloat(Str("NaN")) == NaN
  {
    ParseNoNumber("NaN");
  }

  /**
   * A batch in which no reading has a valid humidity still yields a summary on the
   * client, but the service refuses it with 400, however the numbers are rendered.
   */
  lemma NoHumidityBatchRefused(data: seq<Reading>, today: string, fixed: FixedRendering)
    requires exists i :: 0 <= i < |data| && data[i].temp.Some?
    requires forall i :: 0 <= i < |data| ==> data[i].humidity.None?
    ensures CalculateDailySummary(data, today).Some?
    ensures Validate(Wire(CalculateDailySummary(data, today).value, fixed)).None?
  {
    UploadRefused(CalculateDailySummary(data, today).value, fixed);
  }

  /**
   * A batch whose warmest valid temperature is exactly 0 degrees yields a summary with
   * maximum 0, which the service refuses with 400.
   */
  lemma FreezingDayRefused(data: seq<Reading>, today: string, fixed: FixedRendering, k: nat)
    requires k < |data| && data[k].temp == Some(0.0)
    requires forall i :: 0 <= i < |data| && data[i].temp.Some? ==> data[i].temp.value <= 0.0
    ensures CalculateDailySummary(data, today).Some?
    ensures CalculateDailySummary(data, today).value.maxTemp == 0.0
    ensures Validate(Wire(CalculateDailySummary(data, today).value, fixed)).None?
  {
    FreezingDayMaximum(data, today, k);
    UploadRefused(CalculateDailySummary(data, today).value, fixed);
  }

  lemma FreezingDayMaximum(data: seq<Reading>, today: string, k: nat)
    requires k < |data| && data[k].temp == Some(0.0)
    requires forall i :: 0 <= i < |data| && data[i].temp.Some? ==> data[i].temp.value <= 0.0
    ensures CalculateDailySummary(data, today).Some?
    ensures CalculateDailySummary(data, today).value.maxTemp == 0.0
  {
    var s := CalculateDailySummary(data, today).value;
    var temps := ValidTemperatures(data);
    assert Temps(data)[k] == Some(0.0);
    assert 0.0 in temps;
    assert s.maxTemp in temps;
    assert Some(s.maxTemp) in Temps(data);
    var j :| 0 <= j < |data| && Temps(data)[j] == Some(s.maxTemp);
    assert data[j].temp == Some(s.maxTemp);
  }
}
