/**
 * The summary service: `POST /summaries` validates a JSON body and appends one record
 * to the collection; `GET /summaries` lists every record, latest date first.
 */
module SummaryServer {
  import opened Wrappers
  import opened JsValues

  /**
   * A request body after JSON decoding. The five numeric fields may hold any JSON
   * value; the two text fields are a string or missing.
   */
  datatype SummaryBody = SummaryBody(
    avgTemp: JsValue,
    maxTemp: JsValue,
    minTemp: JsValue,
    avgWindSpeed: JsValue,
    avgHumidity: JsValue,
    dominantCondition: Option<string>,
    date: Option<string>)

  /** A stored summary: exactly the seven fields, numbers as `parseFloat` produced them. */
  datatype SummaryRecord = SummaryRecord(
    avgTemp: JsNumber,
    maxTemp: JsNumber,
    minTemp: JsNumber,
    avgWindSpeed: JsNumber,
    avgHumidity: JsNumber,
    dominantCondition: string,
    date: string)

  /** A text field that is present and truthy, that is, not the empty string. */
  predicate Present(s: Option<string>) {
    s.Some? && s.value != ""
  }

  /** What every record the service stores satisfies. */
  predicate WellFormed(rec: SummaryRecord) {
    rec.avgWindSpeed != NaN && rec.avgHumidity != NaN
    && rec.dominantCondition != "" && rec.date != ""
  }

  /**
   * The guard of the POST handler and the record built after it: `None` is the
   * 400 answer. The three temperatures need only be truthy (a numeric 0 is
   * refused, a non-numeric string is not); wind speed and humidity must parse.
   */
  function Validate(b: SummaryBody): (r: Option<SummaryRecord>)
    ensures Falsy(b.avgTemp) || Falsy(b.maxTemp) || Falsy(b.minTemp) ==> r.None?
    ensures ParseFloat(b.avgWindSpeed) == NaN || ParseFloat(b.avgHumidity) == NaN ==> r.None?
    ensures !Present(b.dominantCondition) || !Present(b.date) ==> r.None?
    ensures r.None? ==>
      Falsy(b.avgTemp) || Falsy(b.maxTemp) || Falsy(b.minTemp)
      || ParseFloat(b.avgWindSpeed) == NaN || ParseFloat(b.avgHumidity) == NaN
      || !Present(b.dominantCondition) || !Present(b.date)
    ensures r.Some? ==> WellFormed(r.value)
    ensures r.Some? ==>
      r.value.avgTemp == ParseFloat(b.avgTemp) && r.value.maxTemp == ParseFloat(b.maxTemp)
      && r.value.minTemp == ParseFloat(b.minTemp)
      && r.value.avgWindSpeed == ParseFloat(b.avgWindSpeed)
      && r.value.avgHumidity == ParseFloat(b.avgHumidity)
      && Some(r.value.dominantCondition) == b.dominantCondition && Some(r.value.date) == b.date
  {
    var humidity := ParseFloat(b.avgHumidity);
    var windSpeed := ParseFloat(b.avgWindSpeed);
    if Falsy(b.avgTemp) || Falsy(b.maxTemp) || Falsy(b.minTemp) || windSpeed == NaN || humidity == NaN
       || !Present(b.dominantCondition) || !Present(b.date)
    then None
    else
      Some(SummaryRecord(ParseFloat(b.avgTemp), ParseFloat(b.maxTemp), ParseFloat(b.minTemp),
                         windSpeed, humidity, b.dominantCondition.value, b.date.value))
  }

  /** The body a client would send for a record: its numbers as JSON numbers. */
  function BodyOf(rec: SummaryRecord): SummaryBody
    requires rec.avgTemp.Finite? && rec.maxTemp.Finite? && rec.minTemp.Finite?
    requires rec.avgWindSpeed.Finite? && rec.avgHumidity.Finite?
  {
    SummaryBody(Num(rec.avgTemp.value), Num(rec.maxTemp.value), Num(rec.minTemp.value),
                Num(rec.avgWindSpeed.value), Num(rec.avgHumidity.value),
                Some(rec.dominantCondition), Some(rec.date))
  }

  /**
   * Posting a record's own numbers stores exactly that record, as long as no
   * temperature is zero and neither text field is empty.
   */
  lemma ValidateRoundTrip(rec: SummaryRecord)
    requires rec.avgTemp.Finite? && rec.maxTemp.Finite? && rec.minTemp.Finite?
    requires rec.avgWindSpeed.Finite? && rec.avgHumidity.Finite?
    requires rec.avgTemp.value != 0.0 && rec.maxTemp.value != 0.0 && rec.minTemp.value != 0.0
    requires rec.dominantCondition != "" && rec.date != ""
    ensures Validate(BodyOf(rec)) == Some(rec)
  {
  }

  /** A numeric 0 minimum temperature, a legitimate reading, is refused. */
  lemma ZeroMinTempRejected(b: SummaryBody)
    requires b.minTemp == Num(0.0)
    ensures Validate(b).None?
  {
  }

  /**
   * Wind speed or humidity sent as a string that parses to `x` is judged, and stored,
   * exactly as the number `x` would be.
   */
  lemma NumericStringAsNumber(b: SummaryBody, s: string, x: real)
    requires ParseFloatString(s) == Finite(x)
    ensures Validate(b.(avgHumidity := Str(s))) == Validate(b.(avgHumidity := Num(x)))
    ensures Validate(b.(avgWindSpeed := Str(s))) == Validate(b.(avgWindSpeed := Num(x)))
  {
  }

  /** Humidity sent as the string "45.5" is accepted and stored as the number 45.5. */
  lemma HumidityStringStoredAsNumber(b: SummaryBody)
    requires !Falsy(b.avgTemp) && !Falsy(b.maxTemp) && !Falsy(b.minTemp)
    requires ParseFloat(b.avgWindSpeed) != NaN
    requires Present(b.dominantCondition) && Present(b.date)
    requires b.avgHumidity == Str("45.5")
    ensures Validate(b).Some? && Validate(b).value.avgHumidity == Finite(45.5)
  {
    ParseDecimalExample();
  }

  /** A temperature sent as a non-numeric string passes the guard and is stored as NaN. */
  lemma TruthyTextTemperatureStoredAsNaN(b: SummaryBody)
    requires b.avgTemp == Str("warm") && b.maxTemp == Num(25.0) && b.minTemp == Num(15.0)
    requires b.avgWindSpeed == Num(3.0) && b.avgHumidity == Num(40.0)
    requires b.dominantCondition == Some("Clear") && b.date == Some("2024-10-20")
    ensures Validate(b).Some? && Validate(b).value.avgTemp == NaN
  {
    ParseNoNumber("warm");
  }

  /** The answer to a POST, with its status code and text. */
  datatype PostResponse = Created | BadRequest | SaveFailed {
    function Status(): nat {
      match this
      case Created => 201
      case BadRequest => 400
      case SaveFailed => 500
    }
    function Message(): string {
      match this
      case Created => "Daily summary saved successfully"
      case BadRequest => "Missing required fields"
      case SaveFailed => "Error saving summary"
    }
  }

  /** The answer to a GET: the records with status 200, or status 500. */
  datatype ListResponse = Listed(summaries: seq<SummaryRecord>) | ListFailed {
    function Status(): nat {
      if Listed? then 200 else 500
    }
  }

  /**
   * `a` sorts at or before `b` under the store's string order: code point by code
   * point, a proper prefix first.
   */
  predicate LexLe(a: string, b: string)
    decreases |a|
  {
    |a| == 0 || (|b| > 0 && (a[0] < b[0] || (a[0] == b[0] && LexLe(a[1..], b[1..]))))
  }

  lemma {:induction false} LexLeTotal(a: string, b: string)
    ensures LexLe(a, b) || LexLe(b, a)
    decreases |a|
  {
    if |a| > 0 && |b| > 0 && a[0] == b[0] {
      LexLeTotal(a[1..], b[1..]);
    }
  }

  lemma {:induction false} LexLeTrans(a: string, b: string, c: string)
    requires LexLe(a, b) && LexLe(b, c)
    ensures LexLe(a, c)
    decreases |a|
  {
    if |a| > 0 && a[0] == b[0] && b[0] == c[0] {
      LexLeTrans(a[1..], b[1..], c[1..]);
    }
  }

  /** Latest date first: no record comes before one with a later date. */
  predicate SortedByDateDesc(rs: seq<SummaryRecord>) {
    forall i, j :: 0 <= i < j < |rs| ==> LexLe(rs[j].date, rs[i].date)
  }

  /** Put `x` into a list sorted latest first, ahead of the first record not later than it. */
  function InsertByDate(x: SummaryRecord, rs: seq<SummaryRecord>): (r: seq<SummaryRecord>)
    ensures multiset(r) == multiset(rs) + multiset{x}
  {
    if |rs| == 0 then [x]
    else if LexLe(rs[0].date, x.date) then [x] + rs
    else
      assert rs == [rs[0]] + rs[1..];
      [rs[0]] + InsertByDate(x, rs[1..])
  }

  /** Inserting into a list sorted latest first keeps it so. */
  lemma {:induction false} InsertKeepsSorted(x: SummaryRecord, rs: seq<SummaryRecord>)
    requires SortedByDateDesc(rs)
    ensures SortedByDateDesc(InsertByDate(x, rs))
  {
    if |rs| == 0 {
    } else if LexLe(rs[0].date, x.date) {
      forall k | 0 <= k < |rs|
        ensures LexLe(rs[k].date, x.date)
      {
        if k > 0 {
          LexLeTrans(rs[k].date, rs[0].date, x.date);
        }
      }
      PrependKeepsSorted(x, rs);
    } else {
      var tail := InsertByDate(x, rs[1..]);
      InsertKeepsSorted(x, rs[1..]);
      LexLeTotal(rs[0].date, x.date);
      assert rs == [rs[0]] + rs[1..];
      forall k | 0 <= k < |tail|
        ensures LexLe(tail[k].date, rs[0].date)
      {
        assert tail[k] in multiset(rs[1..]) + multiset{x};
        if tail[k] != x {
          assert tail[k] in rs[1..];
        }
      }
      PrependKeepsSorted(rs[0], tail);
    }
  }

  /** A record no earlier than any in a sorted list can go at its head. */
  lemma PrependKeepsSorted(y: SummaryRecord, rs: seq<SummaryRecord>)
    requires SortedByDateDesc(rs)
    requires forall k :: 0 <= k < |rs| ==> LexLe(rs[k].date, y.date)
    ensures SortedByDateDesc([y] + rs)
  {
    var r := [y] + rs;
    forall i, j | 0 <= i < j < |r|
      ensures LexLe(r[j].date, r[i].date)
    {
      assert r[j] == rs[j - 1];
      if i > 0 {
        assert r[i] == rs[i - 1];
      }
    }
  }

  /** `find().sort({ date: -1 })`: every record, each once, latest date first. */
  function SortByDateDesc(rs: seq<SummaryRecord>): (r: seq<SummaryRecord>)
    ensures multiset(r) == multiset(rs)
    ensures SortedByDateDesc(r)
  {
    if |rs| == 0 then []
    else
      assert rs == rs[..|rs| - 1] + [rs[|rs| - 1]];
      var sorted := SortByDateDesc(rs[..|rs| - 1]);
      InsertKeepsSorted(rs[|rs| - 1], sorted);
      InsertByDate(rs[|rs| - 1], sorted)
  }

  /** The `DailySummary` collection, in insertion order. */
  class SummaryStore {
    var records: seq<SummaryRecord>

    /** Every stored record came through the POST guard. */
    predicate Valid()
      reads this
    {
      forall i :: 0 <= i < |records| ==> WellFormed(records[i])
    }

    constructor ()
      ensures records == [] && Valid()
    {
      records := [];
    }

    /**
     * The POST handler; `saveSucceeds` is how the store answered `save()`. A refused
     * body and a failed save leave the collection as it was; an accepted one appends
     * its record, even when a record with the same date is already there.
     */
    method Post(body: SummaryBody, saveSucceeds: bool) returns (response: PostResponse)
      requires Valid()
      modifies this
      ensures Valid()
      ensures Validate(body).None? ==> response == BadRequest && records == old(records)
      ensures Validate(body).Some? && saveSucceeds ==>
        response == Created && records == old(records) + [Validate(body).value]
      ensures Validate(body).Some? && !saveSucceeds ==> response == SaveFailed && records == old(records)
    {
      var rec := Validate(body);
      if rec.None? {
        return BadRequest;
      }
      if !saveSucceeds {
        return SaveFailed;
      }
      records := records + [rec.value];
      response := Created;
    }

    /**
     * The GET handler; `findSucceeds` is how the store answered the query. On success
     * the answer holds every stored record exactly once, latest date first.
     */
    method List(findSucceeds: bool) returns (response: ListResponse)
      ensures response.Listed? <==> findSucceeds
      ensures response.Listed? ==>
        multiset(response.summaries) == multiset(records) && SortedByDateDesc(response.summaries)
    {
      if !findSucceeds {
        return ListFailed;
      }
      response := Listed(SortByDateDesc(records));
    }
  }
}
