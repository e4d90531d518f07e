/**
 * The main screen's refresh cycle: reuse a fresh cache, otherwise fetch with retry,
 * convert, keep the new batch only when it changed, and then recompute the daily
 * summary (sending it to the server) and the alert (emailing it when set).
 */
module Controller {
  import opened Wrappers
  import opened Readings
  import opened Aggregation
  import opened Alerts
  import opened Retry

  /** The poll interval, five minutes in milliseconds; also the cache lifetime. */
  const PollIntervalMs: int := 5 * 60 * 1000

  /** What the screen holds: shown readings, loading flag, summary, alert, and the two cache entries. */
  datatype ScreenState = ScreenState(
    readings: seq<Reading>,
    loading: bool,
    summary: DailySummary,
    alert: Option<Warning>,
    cachedData: Option<seq<Reading>>,
    cacheTime: Option<int>)

  /** What a cycle did besides changing the state: dialogs, the summary sent, the email. */
  datatype CycleReport =
    | UsedCache
    | FetchFailed(error: FetchError)
    | NoValidData
    | NoSignificantChange
    | Refreshed(posted: Option<DailySummary>, saveAlert: Option<SaveAlert>, warning: Option<Warning>)

  datatype CycleResult = CycleResult(state: ScreenState, report: CycleReport)

  /** Both cache entries exist and the stored fetch time is less than one interval ago. */
  predicate CacheFresh(s: ScreenState, now: int) {
    s.cachedData.Some? && s.cacheTime.Some? && now - s.cacheTime.value < PollIntervalMs
  }

  /** A fetch result the cycle accepts: an array with at least one reading. */
  predicate HasReadings(fetched: FetchOutcome) {
    fetched.Fetched? && fetched.payload.Some? && |fetched.payload.value| > 0
  }

  /**
   * One run of `fetchWeather` at time `now`, given the readings `seen` that the running
   * copy of `fetchWeather` compares against, what the retry returned, the unit
   * converter, the date of the day, and how saving the summary went (`None` for
   * success). Each render of the screen makes its own copy of `fetchWeather`, which
   * sees the readings of that render. The mount effect and the interval timer keep the
   * copy of the first render, whose readings are `[]`. Pull-to-refresh uses the
   * current copy, which sees the readings shown.
   *
   * Only a cycle that refreshes writes the cache, and it writes the current time.
   */
  function Cycle(s: ScreenState, seen: seq<Reading>, now: int, fetched: FetchOutcome, convert: Converter,
                 today: string, saveError: Option<PostError>): (r: CycleResult)
    ensures r.report == UsedCache <==> CacheFresh(s, now)
    ensures r.state.cachedData != s.cachedData || r.state.cacheTime != s.cacheTime ==>
      r.report.Refreshed? && r.state.cacheTime == Some(now)
  {
    if CacheFresh(s, now) then CycleResult(s.(readings := s.cachedData.value), UsedCache)
    else AfterFetch(s.(loading := false), seen, now, fetched, convert, today, saveError)
  }

  /**
   * The part of a cycle after the retry returned; `s` already has `loading` cleared.
   * It refreshes exactly when a non-empty batch arrived whose temperatures differ from
   * the ones `seen`.
   */
  function AfterFetch(s: ScreenState, seen: seq<Reading>, now: int, fetched: FetchOutcome, convert: Converter,
                      today: string, saveError: Option<PostError>): (r: CycleResult)
    ensures r.report.Refreshed? <==>
      HasReadings(fetched) && IsSignificantChange(Process(fetched.payload.value, convert), seen)
    ensures !r.report.Refreshed? ==> r.state.cachedData == s.cachedData && r.state.cacheTime == s.cacheTime
  {
    match fetched
    case Failed(e) => CycleResult(s, FetchFailed(e))
    case Fetched(payload) =>
      if payload.None? || |payload.value| == 0 then CycleResult(s.(readings := []), NoValidData)
      else
        var data := Process(payload.value, convert);
        if !IsSignificantChange(data, seen) then CycleResult(s, NoSignificantChange)
        else Refresh(s, now, data, today, saveError)
  }

  /**
   * A changed batch: show and cache it with the current time, recompute summary and
   * alert, and report what was sent. The summary shown is the one sent, when one could
   * be computed, and the warning reported is the alert shown.
   */
  function Refresh(s: ScreenState, now: int, data: seq<Reading>, today: string,
                   saveError: Option<PostError>): (r: CycleResult)
    ensures r.state.readings == data && r.state.cachedData == Some(data) && r.state.cacheTime == Some(now)
    ensures r.report.Refreshed?
    ensures r.report.posted.Some? ==> r.state.summary == r.report.posted.value
    ensures r.report.posted.None? ==> r.state.summary == s.summary
    ensures r.report.warning == r.state.alert
  {
    var computed := CalculateDailySummary(data, today);
    var saveAlert := if computed.Some? && saveError.Some? then Some(ClassifySaveError(saveError.value)) else None;
    var alert := AlertAfter(data, s.alert);
    CycleResult(
      s.(readings := data, cachedData := Some(data), cacheTime := Some(now),
         summary := computed.GetOr(s.summary), alert := alert),
      Refreshed(computed, saveAlert, alert))
  }

  /**
   * The outcomes of a cycle: a fresh cache is shown with no fetch and nothing else
   * touched; a failed fetch, or one whose temperatures did not change, changes nothing
   * but the loading flag (a fetch is unchanged when its temperatures equal those `seen`);
   * an empty or non-array result clears the shown readings but
   * not the cache; a changed batch is shown and cached with the current time, and the
   * summary (when one can be computed) and the alert are recomputed from it.
   */
  lemma CycleOutcomes(s: ScreenState, seen: seq<Reading>, now: int, fetched: FetchOutcome, convert: Converter,
                      today: string, saveError: Option<PostError>, r: CycleResult)
    requires r == Cycle(s, seen, now, fetched, convert, today, saveError)
    ensures CacheFresh(s, now) ==>
      r.state == s.(readings := s.cachedData.value) && r.report == UsedCache
    ensures !CacheFresh(s, now) ==> !r.state.loading
    ensures !CacheFresh(s, now) && fetched.Failed? ==>
      r.state == s.(loading := false) && r.report == FetchFailed(fetched.error)
    ensures !CacheFresh(s, now) && fetched.Fetched? && !HasReadings(fetched) ==>
      r.state == s.(readings := [], loading := false) && r.report == NoValidData
    ensures !CacheFresh(s, now) && HasReadings(fetched)
            && !IsSignificantChange(Process(fetched.payload.value, convert), seen) ==>
      r.state == s.(loading := false) && r.report == NoSignificantChange
    ensures !CacheFresh(s, now) && HasReadings(fetched)
            && IsSignificantChange(Process(fetched.payload.value, convert), seen) ==>
      var data := Process(fetched.payload.value, convert);
      var computed := CalculateDailySummary(data, today);
      r.state == s.(readings := data, loading := false, cachedData := Some(data), cacheTime := Some(now),
                    summary := computed.GetOr(s.summary), alert := AlertAfter(data, s.alert))
      && r.report.Refreshed? && r.report.posted == computed
      && r.report.saveAlert == (if computed.Some? && saveError.Some? then Some(ClassifySaveError(saveError.value)) else None)
      && r.report.warning == r.state.alert
  {
  }

  /** A summary the screen can show: its mean lies between its minimum and maximum. */
  predicate SummaryShape(d: DailySummary) {
    d.minTemp <= d.avgTemp <= d.maxTemp
  }

  /**
   * What holds of the screen between cycles: a cached batch is never empty, the two
   * cache entries are written together, the summary is well formed, and the alert is
   * either absent or the high-temperature warning.
   */
  predicate Invariant(s: ScreenState) {
    (s.cachedData.Some? ==> |s.cachedData.value| > 0)
    && (s.cachedData.Some? <==> s.cacheTime.Some?)
    && SummaryShape(s.summary)
    && (s.alert.Some? ==> s.alert.value == HighTemperature)
  }

  lemma RefreshPreservesInvariant(s: ScreenState, now: int, data: seq<Reading>, today: string,
                                  saveError: Option<PostError>)
    requires Invariant(s) && |data| > 0
    ensures Invariant(Refresh(s, now, data, today, saveError).state)
  {
    var computed := CalculateDailySummary(data, today);
    if computed.Some? {
      assert SummaryShape(computed.value);
    }
  }

  /** Every cycle keeps the invariant. */
  lemma CyclePreservesInvariant(s: ScreenState, seen: seq<Reading>, now: int, fetched: FetchOutcome,
                                convert: Converter, today: string, saveError: Option<PostError>)
    requires Invariant(s)
    ensures Invariant(Cycle(s, seen, now, fetched, convert, today, saveError).state)
  {
    var r := Cycle(s, seen, now, fetched, convert, today, saveError);
    if CacheFresh(s, now) {
      assert r.state == s.(readings := s.cachedData.value);
    } else {
      var s0 := s.(loading := false);
      assert r == AfterFetch(s0, seen, now, fetched, convert, today, saveError);
      if HasReadings(fetched) && IsSignificantChange(Process(fetched.payload.value, convert), seen) {
        var data := Process(fetched.payload.value, convert);
        assert r == Refresh(s0, now, data, today, saveError);
        RefreshPreservesInvariant(s0, now, data, today, saveError);
      } else {
        assert r.state == s0 || r.state == s0.(readings := []);
      }
    }
  }

  /**
   * Right after a cycle that refreshed the data at time `t` (a stale cache and a changed,
   * non-empty batch), any cycle within the next interval uses the cache: it makes no
   * fetch and shows the batch just stored.
   */
  lemma RefreshThenCacheHit(s: ScreenState, seen: seq<Reading>, t: int, fetched: FetchOutcome,
                            convert: Converter, today: string, saveError: Option<PostError>,
                            seen2: seq<Reading>, later: int, fetched2: FetchOutcome,
                            saveError2: Option<PostError>)
    requires !CacheFresh(s, t) && HasReadings(fetched)
    requires IsSignificantChange(Process(fetched.payload.value, convert), seen)
    requires t <= later < t + PollIntervalMs
    ensures var s1 := Cycle(s, seen, t, fetched, convert, today, saveError).state;
            Cycle(s1, seen2, later, fetched2, convert, today, saveError2) == CycleResult(s1, UsedCache)
  {
    var r := Cycle(s, seen, t, fetched, convert, today, saveError);
    CycleOutcomes(s, seen, t, fetched, convert, today, saveError, r);
    var data := Process(fetched.payload.value, convert);
    assert r.state.readings == data && r.state.cachedData == Some(data) && r.state.cacheTime == Some(t);
  }

  /**
   * A pull-to-refresh whose converted temperatures equal the ones shown changes
   * nothing, not even the stored fetch time: a stale cache stays stale, and the next
   * cycle fetches again.
   */
  lemma SameTemperaturesKeepCacheStale(s: ScreenState, now: int, raw: seq<Reading>, convert: Converter,
                                       today: string, saveError: Option<PostError>, later: int)
    requires |raw| > 0 && !CacheFresh(s, now) && now <= later
    requires |raw| == |s.readings|
    requires forall i :: 0 <= i < |raw| ==> convert(raw[i].temp) == s.readings[i].temp
    ensures var r := Cycle(s, s.readings, now, Fetched(Some(raw)), convert, today, saveError);
            r.report == NoSignificantChange && r.state == s.(loading := false)
            && !CacheFresh(r.state, later)
  {
    var data := Process(raw, convert);
    assert !IsSignificantChange(data, s.readings);
  }

  /**
   * The copy of `fetchWeather` that the mount effect and the interval timer run
   * compares against the first render's `[]`. So on a stale cache every non-empty batch
   * counts as a change: it is shown and cached with the current time, and the summary
   * and the alert are recomputed, even when its temperatures equal the ones shown.
   */
  lemma FirstRenderCopyAlwaysRefreshes(s: ScreenState, now: int, fetched: FetchOutcome, convert: Converter,
                                       today: string, saveError: Option<PostError>)
    requires !CacheFresh(s, now) && HasReadings(fetched)
    ensures var r := Cycle(s, [], now, fetched, convert, today, saveError);
            r.report.Refreshed? && r.state.readings == Process(fetched.payload.value, convert)
            && r.state.cacheTime == Some(now)
  {
    var data := Process(fetched.payload.value, convert);
    assert IsSignificantChange(data, []);
  }

  /** The screen's state object; its methods are the handlers of `MainApp`. */
  class WeatherScreen {
    var readings: seq<Reading>
    var loading: bool
    var summary: DailySummary
    var alert: Option<Warning>
    var cachedData: Option<seq<Reading>>
    var cacheTime: Option<int>

    function State(): ScreenState
      reads this
    {
      ScreenState(readings, loading, summary, alert, cachedData, cacheTime)
    }

    /** A new screen over whatever the local cache held from earlier runs. */
    constructor (storedData: Option<seq<Reading>>, storedTime: Option<int>)
      ensures State() == ScreenState([], false, InitialSummary, None, storedData, storedTime)
    {
      readings := [];
      loading := false;
      summary := InitialSummary;
      alert := None;
      cachedData := storedData;
      cacheTime := storedTime;
    }

    /**
     * `fetchWeather`: one refresh cycle, comparing against the readings `seen` by the
     * copy of `fetchWeather` that runs. `calls` is the number of gateway calls made:
     * none on a fresh cache, else one more than the number of retries.
     */
    method FetchWeather(now: int, seen: seq<Reading>, gateway: Gateway, convert: Converter, today: string,
                        saveError: Option<PostError>) returns (report: CycleReport, calls: nat)
      modifies this
      ensures CycleResult(State(), report)
        == Cycle(old(State()), seen, now, RetryFrom(gateway, 0).outcome, convert, today, saveError)
      ensures calls == if CacheFresh(old(State()), now) then 0 else |RetryFrom(gateway, 0).waits| + 1
    {
      if cachedData.Some? && cacheTime.Some? && now - cacheTime.value < PollIntervalMs {
        readings := cachedData.value;
        return UsedCache, 0;
      }
      loading := true;
      var outcome, waits := FetchWithRetry(gateway);
      calls := |waits| + 1;
      loading := false;
      report := HandleFetched(now, seen, outcome, convert, today, saveError);
    }

    /** The `try` block after the retry: accept, discard or clear, by what was fetched. */
    method HandleFetched(now: int, seen: seq<Reading>, outcome: FetchOutcome, convert: Converter, today: string,
                         saveError: Option<PostError>) returns (report: CycleReport)
      modifies this
      ensures CycleResult(State(), report) == AfterFetch(old(State()), seen, now, outcome, convert, today, saveError)
    {
      if outcome.Failed? {
        report := FetchFailed(outcome.error);
      } else if outcome.payload.Some? && |outcome.payload.value| > 0 {
        var data := Process(outcome.payload.value, convert);
        if IsSignificantChange(data, seen) {
          report := ApplyRefresh(now, data, today, saveError);
        } else {
          report := NoSignificantChange;
        }
      } else {
        readings := [];
        report := NoValidData;
      }
    }

    /** Show and cache a changed batch, then recompute the summary and the alert. */
    method ApplyRefresh(now: int, data: seq<Reading>, today: string, saveError: Option<PostError>)
      returns (report: CycleReport)
      modifies this
      ensures CycleResult(State(), report) == Refresh(old(State()), now, data, today, saveError)
    {
      var computed := CalculateDailySummary(data, today);
      var saveAlert: Option<SaveAlert> := None;
      if computed.Some? && saveError.Some? {
        saveAlert := Some(ClassifySaveError(saveError.value));
      }
      var newAlert := AlertAfter(data, alert);
      readings, cachedData, cacheTime := data, Some(data), Some(now);
      summary, alert := computed.GetOr(summary), newAlert;
      report := Refreshed(computed, saveAlert, newAlert);
    }

    /**
     * The mount effect: show the cached batch if there is one, then run a cycle with the
     * first render's copy of `fetchWeather`, which compares against `[]`.
     */
    method Mount(now: int, gateway: Gateway, convert: Converter, today: string,
                 saveError: Option<PostError>) returns (report: CycleReport, calls: nat)
      modifies this
      ensures var loaded := if old(cachedData).Some? then old(State()).(readings := old(cachedData).value)
                            else old(State());
              CycleResult(State(), report)
                == Cycle(loaded, [], now, RetryFrom(gateway, 0).outcome, convert, today, saveError)
    {
      if cachedData.Some? {
        readings := cachedData.value;
      }
      report, calls := FetchWeather(now, [], gateway, convert, today, saveError);
    }

    /** A tick of the interval timer: a cycle with the first render's copy of `fetchWeather`. */
    method Tick(now: int, gateway: Gateway, convert: Converter, today: string,
                saveError: Option<PostError>) returns (report: CycleReport, calls: nat)
      modifies this
      ensures CycleResult(State(), report)
        == Cycle(old(State()), [], now, RetryFrom(gateway, 0).outcome, convert, today, saveError)
    {
      report, calls := FetchWeather(now, [], gateway, convert, today, saveError);
    }

    /** `onRefresh`: a cycle with the current render's copy, which sees the readings shown. */
    method PullToRefresh(now: int, gateway: Gateway, convert: Converter, today: string,
                         saveError: Option<PostError>) returns (report: CycleReport, calls: nat)
      modifies this
      ensures CycleResult(State(), report)
        == Cycle(old(State()), old(readings), now, RetryFrom(gateway, 0).outcome, convert, today, saveError)
    {
      report, calls := FetchWeather(now, readings, gateway, convert, today, saveError);
    }

    /** The points of the trend chart for the readings shown. */
    function TemperatureChart(): (r: seq<ChartPoint>)
      reads this
      ensures |r| == |readings|
      ensures forall i :: 0 <= i < |r| ==> r[i] == ChartPoint(DayLabel(i), readings[i].temp)
    {
      TemperatureData(readings)
    }
  }
}
