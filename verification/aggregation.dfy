/**
 * The daily summary the main screen computes over one batch of readings: each
 * numeric field filtered for invalid values on its own, mean/max/min of the valid
 * temperatures, optional means of humidity and wind speed, and the dominant
 * condition chosen by the source's `reduce` over the condition tally.
 */
module Aggregation {
  import opened Wrappers
  import opened Readings

  /** The values that survive the `!isNaN(...)` filter, in their original order. */
  function Somes(xs: seq<Option<real>>): (r: seq<real>)
    ensures |r| <= |xs|
    ensures forall x :: x in r <==> Some(x) in xs
    ensures |r| == 0 <==> forall i :: 0 <= i < |xs| ==> xs[i].None?
  {
    if |xs| == 0 then []
    else
      var rest := Somes(xs[1..]);
      assert forall x :: Some(x) in xs <==> xs[0] == Some(x) || Some(x) in xs[1..];
      if xs[0].Some? then [xs[0].value] + rest else rest
  }

  /** The filter keeps each valid value as often as it occurs. */
  lemma {:induction false} SomesCounts(xs: seq<Option<real>>)
    ensures forall x :: multiset(Somes(xs))[x] == multiset(xs)[Some(x)]
  {
    if |xs| > 0 {
      SomesCounts(xs[1..]);
      assert xs == [xs[0]] + xs[1..];
      assert multiset(xs) == multiset{xs[0]} + multiset(xs[1..]);
      if xs[0].Some? {
        assert Somes(xs) == [xs[0].value] + Somes(xs[1..]);
        assert multiset(Somes(xs)) == multiset{xs[0].value} + multiset(Somes(xs[1..]));
      } else {
        assert Somes(xs) == Somes(xs[1..]);
      }
    }
  }

  function Temps(data: seq<Reading>): (r: seq<Option<real>>)
    ensures |r| == |data| && forall i :: 0 <= i < |data| ==> r[i] == data[i].temp
  {
    seq(|data|, i requires 0 <= i < |data| => data[i].temp)
  }

  function Humidities(data: seq<Reading>): (r: seq<Option<real>>)
    ensures |r| == |data| && forall i :: 0 <= i < |data| ==> r[i] == data[i].humidity
  {
    seq(|data|, i requires 0 <= i < |data| => data[i].humidity)
  }

  function WindSpeeds(data: seq<Reading>): (r: seq<Option<real>>)
    ensures |r| == |data| && forall i :: 0 <= i < |data| ==> r[i] == data[i].windSpeed
  {
    seq(|data|, i requires 0 <= i < |data| => data[i].windSpeed)
  }

  function Mains(data: seq<Reading>): (r: seq<string>)
    ensures |r| == |data| && forall i :: 0 <= i < |data| ==> r[i] == data[i].main
  {
    seq(|data|, i requires 0 <= i < |data| => data[i].main)
  }

  function ValidTemperatures(data: seq<Reading>): seq<real> {
    Somes(Temps(data))
  }

  /**
   * The filters are independent: changing one reading's humidity or wind speed leaves
   * the valid temperatures as they were, and changing its temperature leaves the valid
   * humidities and wind speeds as they were.
   */
  lemma FiltersIndependent(data: seq<Reading>, i: nat, t: Option<real>, h: Option<real>, w: Option<real>)
    requires i < |data|
    ensures ValidTemperatures(data[i := data[i].(humidity := h, windSpeed := w)]) == ValidTemperatures(data)
    ensures Somes(Humidities(data[i := data[i].(temp := t)])) == Somes(Humidities(data))
    ensures Somes(WindSpeeds(data[i := data[i].(temp := t)])) == Somes(WindSpeeds(data))
  {
    assert Temps(data[i := data[i].(humidity := h, windSpeed := w)]) == Temps(data);
    assert Humidities(data[i := data[i].(temp := t)]) == Humidities(data);
    assert WindSpeeds(data[i := data[i].(temp := t)]) == WindSpeeds(data);
  }

  /** `reduce((acc, x) => acc + x, 0)`, a left fold. */
  function Sum(xs: seq<real>): real {
    if |xs| == 0 then 0.0 else Sum(xs[..|xs| - 1]) + xs[|xs| - 1]
  }

  /** The sum over the count: the value that, taken once per element, gives the sum. */
  function Mean(xs: seq<real>): (m: real)
    requires |xs| > 0
    ensures m * |xs| as real == Sum(xs)
  {
    Sum(xs) / |xs| as real
  }

  /** `Math.max(...xs)` on a non-empty list of numbers. */
  function MaxOf(xs: seq<real>): (m: real)
    requires |xs| > 0
    ensures m in xs && forall j :: 0 <= j < |xs| ==> xs[j] <= m
  {
    if |xs| == 1 then xs[0]
    else
      var last := xs[|xs| - 1];
      var m := MaxOf(xs[..|xs| - 1]);
      if last > m then last else m
  }

  /** `Math.min(...xs)` on a non-empty list of numbers. */
  function MinOf(xs: seq<real>): (m: real)
    requires |xs| > 0
    ensures m in xs && forall j :: 0 <= j < |xs| ==> m <= xs[j]
  {
    if |xs| == 1 then xs[0]
    else
      var last := xs[|xs| - 1];
      var m := MinOf(xs[..|xs| - 1]);
      if last < m then last else m
  }

  lemma {:induction false} SumBounds(xs: seq<real>, lo: real, hi: real)
    requires forall j :: 0 <= j < |xs| ==> lo <= xs[j] <= hi
    ensures |xs| as real * lo <= Sum(xs) <= |xs| as real * hi
  {
    if |xs| > 0 {
      var init := xs[..|xs| - 1];
      var n := |init| as real;
      SumBounds(init, lo, hi);
      assert (n + 1.0) * lo == n * lo + lo && (n + 1.0) * hi == n * hi + hi;
    }
  }

  lemma DivideBounds(s: real, n: real, lo: real, hi: real)
    requires n > 0.0 && n * lo <= s <= n * hi
    ensures lo <= s / n <= hi
  {
    assert (s / n) * n == s;
  }

  lemma MeanWithin(xs: seq<real>, lo: real, hi: real)
    requires |xs| > 0 && |xs| as real * lo <= Sum(xs) <= |xs| as real * hi
    ensures lo <= Mean(xs) <= hi
  {
    DivideBounds(Sum(xs), |xs| as real, lo, hi);
  }

  /** The unrounded mean lies between the minimum and the maximum. */
  lemma MeanBetween(xs: seq<real>)
    requires |xs| > 0
    ensures MinOf(xs) <= Mean(xs) <= MaxOf(xs)
  {
    var lo, hi := MinOf(xs), MaxOf(xs);
    assert forall j :: 0 <= j < |xs| ==> lo <= xs[j] <= hi;
    SumBounds(xs, lo, hi);
    MeanWithin(xs, lo, hi);
  }

  /** Every member of a list lies between its minimum and its maximum. */
  lemma ExtremesBoundMembers(xs: seq<real>)
    requires |xs| > 0
    ensures forall t :: t in xs ==> MinOf(xs) <= t <= MaxOf(xs)
  {
    forall t | t in xs
      ensures MinOf(xs) <= t <= MaxOf(xs)
    {
      var j :| 0 <= j < |xs| && xs[j] == t;
    }
  }

  /** The mean of the valid values; `None` stands for the `0 / 0` (NaN) of an empty list. */
  function AverageOf(xs: seq<real>): (r: Option<real>)
    ensures r.None? <==> |xs| == 0
    ensures r.Some? ==> r.value == Mean(xs)
    ensures r.Some? ==> MinOf(xs) <= r.value <= MaxOf(xs)
  {
    if |xs| == 0 then None
    else
      MeanBetween(xs);
      Some(Mean(xs))
  }

  /** Number of occurrences of `k` in `ms`. */
  function Count(ms: seq<string>, k: string): nat {
    if |ms| == 0 then 0
    else Count(ms[..|ms| - 1], k) + (if ms[|ms| - 1] == k then 1 else 0)
  }

  /** The position of the first occurrence of `k` in `ms`. */
  function FirstIndex(ms: seq<string>, k: string): (i: nat)
    requires k in ms
    ensures i < |ms| && ms[i] == k && forall j :: 0 <= j < i ==> ms[j] != k
  {
    if ms[0] == k then 0 else 1 + FirstIndex(ms[1..], k)
  }

  /**
   * The object built by `reduce((acc, item) => { acc[item.main] = (acc[item.main] || 0) + 1 })`:
   * its keys in insertion order and the count under each.
   */
  datatype Tally = Tally(keys: seq<string>, counts: map<string, nat>)

  function AddToTally(t: Tally, k: string): Tally {
    if k in t.counts then Tally(t.keys, t.counts[k := t.counts[k] + 1])
    else Tally(t.keys + [k], t.counts[k := 1])
  }

  predicate Distinct(keys: seq<string>) {
    forall i, j :: 0 <= i < j < |keys| ==> keys[i] != keys[j]
  }

  /** The tally after counting every condition of `ms`, in order. */
  function TallyOf(ms: seq<string>): Tally {
    if |ms| == 0 then Tally([], map[]) else AddToTally(TallyOf(ms[..|ms| - 1]), ms[|ms| - 1])
  }

  /** The keys of the tally are the distinct conditions of `ms`, each once. */
  lemma {:induction false} TallyKeys(ms: seq<string>)
    ensures forall k :: k in TallyOf(ms).counts <==> k in ms
    ensures forall k :: k in TallyOf(ms).keys <==> k in ms
    ensures Distinct(TallyOf(ms).keys)
  {
    if |ms| > 0 {
      var init, m := ms[..|ms| - 1], ms[|ms| - 1];
      TallyKeys(init);
      assert ms == init + [m];
      assert forall k :: k in ms <==> k in init || k == m;
    }
  }

  lemma {:induction false} CountAbsent(ms: seq<string>, k: string)
    requires k !in ms
    ensures Count(ms, k) == 0
  {
    if |ms| > 0 {
      assert ms[..|ms| - 1] <= ms;
      CountAbsent(ms[..|ms| - 1], k);
    }
  }

  /** Each key's count is its number of occurrences. */
  lemma {:induction false} TallyCounts(ms: seq<string>)
    ensures forall k :: k in TallyOf(ms).counts ==> TallyOf(ms).counts[k] == Count(ms, k)
  {
    if |ms| > 0 {
      var init, m := ms[..|ms| - 1], ms[|ms| - 1];
      TallyCounts(init);
      TallyKeys(init);
      var t, t' := TallyOf(init), TallyOf(ms);
      forall k | k in t'.counts
        ensures t'.counts[k] == Count(ms, k)
      {
        assert Count(ms, k) == Count(init, k) + (if m == k then 1 else 0);
        if k == m && m !in t.counts {
          CountAbsent(init, m);
        }
      }
    }
  }

  lemma FirstIndexExtend(init: seq<string>, m: string, k: string)
    requires k in init
    ensures FirstIndex(init + [m], k) == FirstIndex(init, k)
  {
    var i := FirstIndex(init, k);
    var ms := init + [m];
    assert ms[i] == k;
    var i' := FirstIndex(ms, k);
    assert i' <= i;
    assert init[i'] == k;
  }

  lemma FirstIndexNew(init: seq<string>, m: string)
    requires m !in init
    ensures FirstIndex(init + [m], m) == |init|
  {
  }

  /** The keys come in order of first appearance in `ms` (JavaScript's insertion order). */
  lemma {:induction false} TallyOrder(ms: seq<string>)
    ensures forall k :: k in TallyOf(ms).keys ==> k in ms
    ensures forall i, j :: 0 <= i < j < |TallyOf(ms).keys| ==>
      FirstIndex(ms, TallyOf(ms).keys[i]) < FirstIndex(ms, TallyOf(ms).keys[j])
  {
    TallyKeys(ms);
    if |ms| > 0 {
      var init, m := ms[..|ms| - 1], ms[|ms| - 1];
      TallyOrder(init);
      TallyKeys(init);
      assert ms == init + [m];
      var t, t' := TallyOf(init), TallyOf(ms);
      forall i, j | 0 <= i < j < |t'.keys|
        ensures FirstIndex(ms, t'.keys[i]) < FirstIndex(ms, t'.keys[j])
      {
        AddKeepsOrder(init, m, t, i, j);
      }
    }
  }

  /** Counting one more condition keeps two keys' order of first appearance. */
  lemma AddKeepsOrder(init: seq<string>, m: string, t: Tally, i: nat, j: nat)
    requires forall k :: k in t.counts <==> k in init
    requires forall k :: k in t.keys ==> k in init
    requires forall i, j :: 0 <= i < j < |t.keys| ==> FirstIndex(init, t.keys[i]) < FirstIndex(init, t.keys[j])
    requires i < j < |AddToTally(t, m).keys|
    ensures FirstIndex(init + [m], AddToTally(t, m).keys[i]) < FirstIndex(init + [m], AddToTally(t, m).keys[j])
  {
    var t' := AddToTally(t, m);
    if m in t.counts {
      FirstIndexExtend(init, m, t.keys[i]);
      FirstIndexExtend(init, m, t.keys[j]);
    } else {
      assert t'.keys[i] == t.keys[i];
      FirstIndexExtend(init, m, t.keys[i]);
      if j < |t.keys| {
        assert t'.keys[j] == t.keys[j];
        FirstIndexExtend(init, m, t.keys[j]);
      } else {
        FirstIndexNew(init, m);
        assert FirstIndex(init, t.keys[i]) < |init|;
      }
    }
  }

  /**
   * `Object.keys(counts).reduce((a, b) => counts[a] > counts[b] ? a : b)` over the first
   * `n` keys, tracked by position: the current `a` is kept only when its count is
   * strictly greater, so the result is the LAST key with the largest count.
   */
  function DominantIndex(keys: seq<string>, counts: map<string, nat>, n: nat): (p: nat)
    requires 0 < n <= |keys| && forall i :: 0 <= i < |keys| ==> keys[i] in counts
    ensures p < n
    ensures forall j :: 0 <= j < n ==> counts[keys[j]] <= counts[keys[p]]
    ensures forall j :: p < j < n ==> counts[keys[j]] < counts[keys[p]]
  {
    if n == 1 then 0
    else
      var a := DominantIndex(keys, counts, n - 1);
      if counts[keys[a]] > counts[keys[n - 1]] then a else n - 1
  }

  /** The dominant condition over every reading's `main` field. */
  function DominantCondition(ms: seq<string>): string
    requires |ms| > 0
  {
    var t := TallyOf(ms);
    TallyKeys(ms);
    assert ms[0] in t.keys;
    t.keys[DominantIndex(t.keys, t.counts, |t.keys|)]
  }

  /**
   * The dominant condition occurs in the readings, no condition occurs more often, and
   * every condition that occurs as often appeared first no later than it: on a tie the
   * last of the most frequent conditions, in order of first appearance, wins.
   */
  lemma {:induction false} DominantIsLastMostFrequent(ms: seq<string>)
    requires |ms| > 0
    ensures DominantCondition(ms) in ms
    ensures forall k :: k in ms ==> Count(ms, k) <= Count(ms, DominantCondition(ms))
    ensures forall k :: k in ms && Count(ms, k) == Count(ms, DominantCondition(ms)) ==>
      FirstIndex(ms, k) <= FirstIndex(ms, DominantCondition(ms))
  {
    var t := TallyOf(ms);
    TallyKeys(ms);
    TallyCounts(ms);
    TallyOrder(ms);
    assert ms[0] in t.keys;
    LastMaxKey(ms, t.keys, t.counts);
  }

  /** The reduce over keys in first-appearance order, with their true counts, picks the last most frequent. */
  lemma LastMaxKey(ms: seq<string>, keys: seq<string>, counts: map<string, nat>)
    requires |keys| > 0
    requires forall k :: k in keys <==> k in ms
    requires forall k :: k in ms ==> k in counts && counts[k] == Count(ms, k)
    requires forall i, j :: 0 <= i < j < |keys| ==> FirstIndex(ms, keys[i]) < FirstIndex(ms, keys[j])
    ensures var d := keys[DominantIndex(keys, counts, |keys|)];
      && d in ms
      && (forall k :: k in ms ==> Count(ms, k) <= Count(ms, d))
      && (forall k :: k in ms && Count(ms, k) == Count(ms, d) ==> FirstIndex(ms, k) <= FirstIndex(ms, d))
  {
    var p := DominantIndex(keys, counts, |keys|);
    var d := keys[p];
    forall k | k in ms
      ensures Count(ms, k) <= Count(ms, d)
      ensures Count(ms, k) == Count(ms, d) ==> FirstIndex(ms, k) <= FirstIndex(ms, d)
    {
      var j :| 0 <= j < |keys| && keys[j] == k;
      assert counts[keys[j]] <= counts[keys[p]];
      if j > p {
        assert counts[keys[j]] < counts[keys[p]];
      } else if j < p {
        assert FirstIndex(ms, keys[j]) < FirstIndex(ms, keys[p]);
      }
    }
  }

  /** With conditions [Clear, Rain, Clear, Rain] the tie goes to Rain, the later key. */
  lemma TieGoesToLaterKey()
    ensures DominantCondition(["Clear", "Rain", "Clear", "Rain"]) == "Rain"
  {
    var ms := ["Clear", "Rain", "Clear", "Rain"];
    DominantIsLastMostFrequent(ms);
    var d := DominantCondition(ms);
    var p0, p1, p2, p3 := ms[..0], ms[..1], ms[..2], ms[..3];
    assert "Clear" != "Rain" by { assert "Clear"[0] != "Rain"[0]; }
    assert p3[..2] == p2 && p2[..1] == p1 && p1[..0] == p0 && ms[..3] == p3;
    assert Count(p1, "Clear") == 1 && Count(p1, "Rain") == 0;
    assert Count(p2, "Clear") == 1 && Count(p2, "Rain") == 1;
    assert Count(p3, "Clear") == 2 && Count(p3, "Rain") == 1;
    assert Count(ms, "Clear") == 2 && Count(ms, "Rain") == 2;
    assert FirstIndex(ms, "Clear") == 0 && FirstIndex(ms, "Rain") == 1;
    assert d == "Clear" || d == "Rain";
  }

  /** The summary the screen shows and sends; averages are unrounded (no `toFixed`). */
  datatype DailySummary = DailySummary(
    avgTemp: real,
    maxTemp: real,
    minTemp: real,
    dominantCondition: string,
    avgHumidity: Option<real>,
    avgWindSpeed: Option<real>,
    date: string)

  /** The summary the screen starts with, before any has been computed. */
  const InitialSummary := DailySummary(0.0, 0.0, 0.0, "", Some(0.0), Some(0.0), "")

  /**
   * The statistics of a batch with at least one valid temperature: mean, maximum and
   * minimum of the valid temperatures, the averages of the valid humidities and wind
   * speeds, the dominant condition over all readings, and the given date.
   */
  function Summarize(data: seq<Reading>, today: string): (s: DailySummary)
    requires |ValidTemperatures(data)| > 0
    ensures s.date == today
    ensures var temps := ValidTemperatures(data);
      s.maxTemp in temps && s.minTemp in temps
      && (forall t :: t in temps ==> s.minTemp <= t <= s.maxTemp)
      && s.avgTemp == Mean(temps) && s.minTemp <= s.avgTemp <= s.maxTemp
    ensures s.avgHumidity == AverageOf(Somes(Humidities(data)))
    ensures s.avgWindSpeed == AverageOf(Somes(WindSpeeds(data)))
    ensures var ms := Mains(data);
      s.dominantCondition in ms && (forall k :: k in ms ==> Count(ms, k) <= Count(ms, s.dominantCondition))
      && (forall k :: k in ms && Count(ms, k) == Count(ms, s.dominantCondition) ==>
            FirstIndex(ms, k) <= FirstIndex(ms, s.dominantCondition))
  {
    var temps := ValidTemperatures(data);
    MeanBetween(temps);
    ExtremesBoundMembers(temps);
    DominantIsLastMostFrequent(Mains(data));
    DailySummary(
      Mean(temps), MaxOf(temps), MinOf(temps),
      DominantCondition(Mains(data)),
      AverageOf(Somes(Humidities(data))),
      AverageOf(Somes(WindSpeeds(data))),
      today)
  }

  /** A field's filtered list is empty exactly when no reading has a valid value there. */
  lemma NoValidValues(data: seq<Reading>)
    ensures |ValidTemperatures(data)| == 0 <==> forall i :: 0 <= i < |data| ==> data[i].temp.None?
    ensures |Somes(Humidities(data))| == 0 <==> forall i :: 0 <= i < |data| ==> data[i].humidity.None?
    ensures |Somes(WindSpeeds(data))| == 0 <==> forall i :: 0 <= i < |data| ==> data[i].windSpeed.None?
  {
    assert forall i :: 0 <= i < |data| ==> Temps(data)[i] == data[i].temp;
    assert forall i :: 0 <= i < |data| ==> Humidities(data)[i] == data[i].humidity;
    assert forall i :: 0 <= i < |data| ==> WindSpeeds(data)[i] == data[i].windSpeed;
  }

  /**
   * `calculateDailySummary`: nothing for an empty batch or one without a valid
   * temperature; otherwise the statistics of each field's valid values, the dominant
   * condition over all readings, and the given date.
   */
  function CalculateDailySummary(data: seq<Reading>, today: string): (r: Option<DailySummary>)
    ensures r.None? <==> forall i :: 0 <= i < |data| ==> data[i].temp.None?
    ensures r.Some? ==> r.value.date == today
    ensures r.Some? ==>
      var s := r.value;
      var temps := ValidTemperatures(data);
      s.maxTemp in temps && s.minTemp in temps
      && (forall t :: t in temps ==> s.minTemp <= t <= s.maxTemp)
      && s.avgTemp == Mean(temps) && s.minTemp <= s.avgTemp <= s.maxTemp
    ensures r.Some? ==>
      r.value.avgHumidity == AverageOf(Somes(Humidities(data)))
      && r.value.avgWindSpeed == AverageOf(Somes(WindSpeeds(data)))
    ensures r.Some? ==>
      (r.value.avgHumidity.None? <==> forall i :: 0 <= i < |data| ==> data[i].humidity.None?)
      && (r.value.avgWindSpeed.None? <==> forall i :: 0 <= i < |data| ==> data[i].windSpeed.None?)
    ensures r.Some? ==>
      var ms := Mains(data);
      var d := r.value.dominantCondition;
      d in ms && (forall k :: k in ms ==> Count(ms, k) <= Count(ms, d))
      && (forall k :: k in ms && Count(ms, k) == Count(ms, d) ==> FirstIndex(ms, k) <= FirstIndex(ms, d))
  {
    NoValidValues(data);
    if |data| == 0 || |ValidTemperatures(data)| == 0 then None
    else Some(Summarize(data, today))
  }
}
