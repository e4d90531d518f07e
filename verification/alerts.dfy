/**
 * What the main screen tells the user after a refresh: the high-temperature alert
 * over the last readings of a batch, and the three kinds of failure to save a summary.
 */
module Alerts {
  import opened Wrappers
  import opened JsValues
  import opened Readings

  /** The fixed alert threshold, in degrees Celsius. */
  const ThresholdDegrees: nat := 35
  const ThresholdTemp: real := ThresholdDegrees as real

  const WarningPrefix: string := "Temperature exceeded "

  /** The alert message, by the threshold it names. */
  datatype Warning = TemperatureExceeded(threshold: nat) {
    /** The text shown in the dialog and emailed, as the template literal renders it. */
    function Text(): string {
      WarningPrefix + NatToString(threshold) + "°C for two consecutive updates!"
    }
  }

  /** The warning's text names its threshold in decimal right after the fixed prefix. */
  lemma WarningNamesThreshold(w: Warning)
    ensures |w.Text()| > |WarningPrefix| + |NatToString(w.threshold)|
    ensures w.Text()[..|WarningPrefix|] == WarningPrefix
    ensures var digits := w.Text()[|WarningPrefix|..|WarningPrefix| + |NatToString(w.threshold)|];
      AllDigits(digits) && DigitsValue(digits) == w.threshold
    ensures !IsDigit(w.Text()[|WarningPrefix| + |NatToString(w.threshold)|])
  {
    var t, n := w.Text(), NatToString(w.threshold);
    assert t[..|WarningPrefix|] == WarningPrefix;
    assert t[|WarningPrefix|..|WarningPrefix| + |n|] == n;
    assert t[|WarningPrefix| + |n|] == '°';
  }

  /** The alert the screen raises. */
  const HighTemperature: Warning := TemperatureExceeded(ThresholdDegrees)

  /** `temp > thresholdTemp`; a temperature that is NaN compares false. */
  predicate Hot(t: Option<real>) {
    t.Some? && t.value > ThresholdTemp
  }

  /** `data.slice(-2)`: the last two readings, or all of them when there are fewer. */
  function LastTwo(data: seq<Reading>): (r: seq<Reading>)
    ensures |r| == if |data| < 2 then |data| else 2
    ensures r == data[|data| - |r|..]
  {
    if |data| < 2 then data else data[|data| - 2..]
  }

  /**
   * `checkAlertConditions`: an empty batch leaves the current alert as it is; otherwise
   * the alert is set exactly when the last reading, and the one before it if there is
   * one, are both above the threshold, and cleared otherwise. Positions in the batch
   * (locations), not successive fetches, are compared.
   */
  function AlertAfter(data: seq<Reading>, current: Option<Warning>): (r: Option<Warning>)
    ensures |data| == 0 ==> r == current
    ensures |data| > 0 ==>
      r == if Hot(data[|data| - 1].temp) && (|data| == 1 || Hot(data[|data| - 2].temp))
           then Some(HighTemperature) else None
  {
    if |data| == 0 then current
    else
      var recent := LastTwo(data);
      var allHot := forall i :: 0 <= i < |recent| ==> Hot(recent[i].temp);
      assert allHot <==> Hot(data[|data| - 1].temp) && (|data| == 1 || Hot(data[|data| - 2].temp)) by {
        if |data| == 1 {
          assert recent == [data[0]];
        } else {
          assert recent == [data[|data| - 2], data[|data| - 1]];
        }
      }
      if allHot then Some(HighTemperature) else None
  }

  /** A reply from the summary server: its status and body text. */
  datatype HttpReply = HttpReply(status: nat, data: string)

  /**
   * An error from the HTTP client: `response` when the server answered with an error
   * status, `requestSent` when the request went out, and a message.
   */
  datatype PostError = PostError(response: Option<HttpReply>, requestSent: bool, message: string)

  /** The three cases `saveDailySummary` tells apart. */
  datatype SaveAlert = ServerResponded(status: nat, data: string) | NoResponse | RequestFailed(message: string)

  /** The error classification: a response takes precedence, then a sent request. */
  function ClassifySaveError(e: PostError): (a: SaveAlert)
    ensures a.ServerResponded? <==> e.response.Some?
    ensures a.ServerResponded? ==> a.status == e.response.value.status && a.data == e.response.value.data
    ensures a.NoResponse? <==> e.response.None? && e.requestSent
    ensures a.RequestFailed? <==> e.response.None? && !e.requestSent
    ensures a.RequestFailed? ==> a.message == e.message
  {
    if e.response.Some? then ServerResponded(e.response.value.status, e.response.value.data)
    else if e.requestSent then NoResponse
    else RequestFailed(e.message)
  }

  const ServerPrefix: string := "Server responded with status "
  /**
   * The no-response dialog, written as its two sentences: Dafny reads the characters of
   * a short string literal, but not those of one this long.
   */
  const NoResponseText: string := "No response from the server." + " Please check your connection."
  const RequestPrefix: string := "Request error: "

  /** The text of the error dialog. */
  function SaveAlertText(a: SaveAlert): string {
    match a
    case ServerResponded(status, data) => ServerPrefix + NatToString(status) + ": " + data
    case NoResponse => NoResponseText
    case RequestFailed(message) => RequestPrefix + message
  }

  /** The dialog text determines which case occurred; a server reply shows its status. */
  lemma SaveAlertTextDistinguishes(a: SaveAlert)
    ensures a.ServerResponded? <==> |SaveAlertText(a)| >= |ServerPrefix| && SaveAlertText(a)[..|ServerPrefix|] == ServerPrefix
    ensures a.RequestFailed? <==> |SaveAlertText(a)| >= |RequestPrefix| && SaveAlertText(a)[..|RequestPrefix|] == RequestPrefix
    ensures a.ServerResponded? ==>
      var digits := SaveAlertText(a)[|ServerPrefix|..|ServerPrefix| + |NatToString(a.status)|];
      AllDigits(digits) && DigitsValue(digits) == a.status
  {
    var t := SaveAlertText(a);
    match a
    case ServerResponded(status, data) =>
      assert t[..|ServerPrefix|] == ServerPrefix;
      assert t[..|RequestPrefix|][0] == 'S';
      assert t[|ServerPrefix|..|ServerPrefix| + |NatToString(status)|] == NatToString(status);
    case NoResponse =>
      assert t == NoResponseText && t[0] == 'N';
      assert t[..|ServerPrefix|][0] == 'N';
      assert t[..|RequestPrefix|][0] == 'N';
    case RequestFailed(message) =>
      assert t[..|RequestPrefix|] == RequestPrefix;
      assert |t| >= |ServerPrefix| ==> t[..|ServerPrefix|][0] == 'R';
  }
}
