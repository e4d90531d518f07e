# Real-time weather monitor: refresh cycle and summary service

A Dafny model of the two halves of a small weather-monitoring app.

The **main screen** (`frontend/screens/MainApp.js`) runs a refresh cycle:

- It reuses a five-minute cache of the last batch of readings, or else fetches new readings.
- A fetch goes through a bounded retry: the first call and up to three retries, waiting 2, 4 and 6 seconds.
- The temperatures are converted, and the new batch is kept only when a temperature or the number of readings changed.
- A kept batch is cached, and the daily summary is recomputed from it. The summary holds the mean, maximum and minimum of the valid temperatures, the average humidity and wind speed, the dominant condition, and the date.
- The summary is posted to the server. A failed post shows one of three error texts.
- The high-temperature alert is raised when the last two readings of the batch are both above 35 °C.

The **summary service** (`backend/server.js`) has two endpoints:

- `POST /summaries` checks a JSON body and appends one record to an append-only collection.
- `GET /summaries` lists every record, latest date first.

Modules, one file each:

- `Wrappers` (`wrappers.dfy`): `Option`.
- `JsValues` (`js_values.dfy`):
  - JavaScript values and falsiness;
  - `parseFloat` (leading white space, sign, `Infinity`, digits, fraction, exponent, trailing text ignored);
  - decimal rendering of naturals.
- `Readings` (`readings.dfy`): the reading record, unit conversion, the change test, and the chart points.
- `Aggregation` (`aggregation.dfy`):
  - the independent validity filters;
  - sum, mean, maximum and minimum;
  - the condition tally in insertion order, and the dominant condition;
  - `CalculateDailySummary`.
- `Alerts` (`alerts.dfy`): the threshold alert, and the classification and text of a failed save.
- `Retry` (`retry.dfy`):
  - the recursive retry as a function;
  - the retry as a loop, proved against that function.
- `Controller` (`controller.dfy`):
  - one cycle as a pure step on the screen state, with its outcome lemmas and the invariant it keeps;
  - the `WeatherScreen` class, whose methods update its fields and are proved equal to that step.
- `SummaryServer` (`server.dfy`):
  - the POST guard and record;
  - the string order and the sort by date;
  - the `SummaryStore` class, whose `records` sequence grows by append.
- `SummaryUpload` (`upload.dfy`): what the service makes of a summary the screen sends.

Inputs the code gets from outside are parameters:

- the clock (`now`, `today`);
- the gateway's answer to each call (a function from the call number to an outcome);
- the Kelvin-to-Celsius converter;
- how saving a summary went;
- whether the store's `save()` and `find()` succeed;
- the `toFixed(2)` rendering.

The alert email and the dialogs are reported in the cycle's `CycleReport`, not performed.

Three behaviours of the code that a reader might not expect:

- **Dominant-condition tie.** On a tie the last most frequent condition wins, in order of first appearance, not the first one seen. The `reduce` keeps the current candidate only when its count is strictly greater (`frontend/screens/MainApp.js:152-154`). `Aggregation.DominantIsLastMostFrequent` and `Aggregation.TieGoesToLaterKey` state this.
- **POST field check.** The POST rejects any falsy temperature (`backend/server.js:45`), so a numeric `0` is refused. A temperature sent as a non-numeric string passes the check, and the record built from it holds NaN. `SummaryServer.ZeroMinTempRejected`, `SummaryServer.TruthyTextTemperatureStoredAsNaN` and `SummaryUpload.FreezingDayRefused` state this.
- **Change test on mount and on the timer.** The mount effect and the interval timer (`frontend/screens/MainApp.js:35-51`) keep the first render's `fetchWeather`. That copy compares new readings against the first render's `[]` (line 15), so on a stale cache every non-empty batch counts as a change. Only pull-to-refresh (lines 212-215) compares against the readings shown. `Cycle` takes these readings, `seen`, as a parameter. `Controller.FirstRenderCopyAlwaysRefreshes` states the consequence.

## Model

| member | source | states |
|---|---|---|
| JsValues.NatToString | frontend/screens/MainApp.js:207 | the decimal text of a natural: non-empty, digits only, no leading zero, and its digits denote the number |
| JsValues.ParseFloat | backend/server.js:42-43 | `parseFloat` of a JSON number is that number; of anything that is neither a number nor a string it is NaN |
| JsValues.Falsy | backend/server.js:45 | JavaScript falsiness; `SummaryServer.Validate` states the guard built from it |
| JsValues.ParseRenderedNat | backend/server.js:42-43 | `parseFloat` of the decimal text of any natural gives back that natural |
| JsValues.DecimalWithFraction | backend/server.js:42-43 | `whole.frac` parses to whole + frac / 10^len(frac) when digits stand on at least one side of the point |
| JsValues.ParseDecimalExample | backend/server.js:42 | `parseFloat("45.5")` is 45.5 |
| JsValues.ParseNoNumber | backend/server.js:42-45 | a string starting with a character that can begin no number (a letter other than I, say "NaN" or a word) parses to NaN |
| JsValues.TrimStart | backend/server.js:42-43 | the white space `parseFloat` skips: the result is a suffix, every dropped character is white space, and the first kept one is not |
| Readings.Process | frontend/screens/MainApp.js:71-77 | same length; temp and feels-like of each reading converted; id, name, condition, humidity and wind speed kept |
| Readings.SomeTempDiffers | frontend/screens/MainApp.js:118 | true exactly when some position from `from` on holds different temperatures |
| Readings.IsSignificantChange | frontend/screens/MainApp.js:116-119 | a change exactly when the lengths differ or the temperatures differ at some position; no other field counts |
| Readings.TemperatureData | frontend/screens/MainApp.js:205-210 | one chart point per reading, labelled "Day i+1" with that reading's temperature; empty for no readings |
| Readings.DayLabelsDistinct | frontend/screens/MainApp.js:207 | two chart labels are equal exactly when their positions are |
| Readings.DayLabelNumber | frontend/screens/MainApp.js:207 | the number in a label parses back to the 1-based position |
| Aggregation.Somes | frontend/screens/MainApp.js:124-134 | the valid values of a field: no more than the readings, exactly the values present, empty exactly when none is valid |
| Aggregation.SomesCounts | frontend/screens/MainApp.js:124-134 | the filter keeps each valid value exactly as often as it occurs |
| Aggregation.FiltersIndependent | frontend/screens/MainApp.js:124-134 | changing one reading's humidity or wind speed leaves the valid temperatures unchanged, and changing its temperature leaves the valid humidities and wind speeds unchanged |
| Aggregation.MaxOf | frontend/screens/MainApp.js:140 | `Math.max`: a member of the list, not below any element |
| Aggregation.MinOf | frontend/screens/MainApp.js:141 | `Math.min`: a member of the list, not above any element |
| Aggregation.SumBounds | frontend/screens/MainApp.js:139 | a sum of n values within [lo, hi] lies within [n*lo, n*hi] |
| Aggregation.Mean | frontend/screens/MainApp.js:139 | the sum divided by the count: the mean taken once per value gives back the sum |
| Aggregation.MeanBetween | frontend/screens/MainApp.js:139-141 | the unrounded mean lies between the minimum and the maximum |
| Aggregation.ExtremesBoundMembers | frontend/screens/MainApp.js:140-141 | every value of the list lies between its minimum and maximum |
| Aggregation.AverageOf | frontend/screens/MainApp.js:143-144 | an average is absent exactly for an empty list (the NaN of 0/0); otherwise it is the mean, which lies between the extremes |
| Aggregation.TallyKeys | frontend/screens/MainApp.js:147-150 | the tally's keys and counted conditions are exactly the conditions in the batch, each key once |
| Aggregation.TallyCounts | frontend/screens/MainApp.js:147-150 | each condition's count is its number of occurrences |
| Aggregation.TallyOrder | frontend/screens/MainApp.js:147-152 | the keys come in order of first appearance (the insertion order of non-numeric object keys) |
| Aggregation.DominantIndex | frontend/screens/MainApp.js:152-154 | the reduce over the first n keys picks a key whose count no key beats, and every later key has a strictly smaller count |
| Aggregation.DominantCondition | frontend/screens/MainApp.js:152-154 | the `reduce` over the tally's keys; which condition it picks is stated by `Aggregation.DominantIsLastMostFrequent` |
| Aggregation.DominantIsLastMostFrequent | frontend/screens/MainApp.js:147-154 | the dominant condition occurs in the batch, none occurs more often, and every equally frequent one appeared first no later |
| Aggregation.LastMaxKey | frontend/screens/MainApp.js:152-154 | the same for any keys in first-appearance order with their true counts |
| Aggregation.TieGoesToLaterKey | frontend/screens/MainApp.js:152-154 | for conditions Clear, Rain, Clear, Rain the dominant one is Rain |
| Aggregation.CalculateDailySummary | frontend/screens/MainApp.js:121-168 | no summary exactly when no reading has a valid temperature (including an empty batch). Otherwise: the mean is the mean of the valid temperatures; max and min are valid temperatures bounding all of them, with min <= mean <= max; each average is the average of that field's valid values, absent exactly when no reading has one; the dominant condition is the last most frequent; the date is the given one |
| Aggregation.Summarize | frontend/screens/MainApp.js:137-165 | the same statistics for a batch with at least one valid temperature |
| Aggregation.NoValidValues | frontend/screens/MainApp.js:124-137 | a field's filtered list is empty exactly when no reading has a valid value there |
| Alerts.WarningNamesThreshold | frontend/screens/MainApp.js:194 | the warning text starts with the fixed prefix followed by the threshold in decimal digits, and a non-digit follows them |
| Alerts.LastTwo | frontend/screens/MainApp.js:190 | `slice(-2)`: the last two readings, or all when fewer |
| Alerts.AlertAfter | frontend/screens/MainApp.js:187-203 | an empty batch keeps the current alert; otherwise the warning is set exactly when the last reading, and the one before it if any, are above 35, and cleared otherwise |
| Alerts.ClassifySaveError | frontend/screens/MainApp.js:170-185 | a server reply wins and keeps its status and body; otherwise a sent request means no response; otherwise the request error with its message |
| Alerts.SaveAlertText | frontend/screens/MainApp.js:178-182 | the three dialog texts; `Alerts.SaveAlertTextDistinguishes` states what a reader can tell from them |
| Alerts.SaveAlertTextDistinguishes | frontend/screens/MainApp.js:176-183 | the dialog text tells the three cases apart, and a server reply's text shows its status in decimal |
| Retry.RetryFrom | frontend/screens/MainApp.js:102-114 | starting at retry `retryCount`, no more than the remaining retries are made |
| Retry.RetryFromCalls | frontend/screens/MainApp.js:102-114 | the result is the last call's outcome, every earlier call failed, a failure is returned only after the third retry, and the wait before retry k is 2000*k ms |
| Retry.FetchWithRetry | frontend/screens/MainApp.js:102-114 | the loop makes the same calls and waits, and returns the same outcome, as the recursive retry |
| Retry.RetryStep | frontend/screens/MainApp.js:107-110 | a failure before the last retry is followed by a wait of 2000*(k+1) ms and the next call |
| Retry.AllAttemptsFail | frontend/screens/MainApp.js:107-112 | four failures: waits of 2000, 4000 and 6000 ms (12 s in all), then the last error |
| Retry.FirstSuccessReturned | frontend/screens/MainApp.js:103-105 | when call i is the first to succeed, its outcome is returned after i waits |
| Controller.Cycle | frontend/screens/MainApp.js:54-100 | a cycle uses the cache exactly when the cache is fresh, and only a refreshing cycle writes the cache, with the current time |
| Controller.AfterFetch | frontend/screens/MainApp.js:68-99 | after the retry, the cycle refreshes exactly when a non-empty batch arrived whose converted temperatures differ from the ones `seen`; otherwise the cache is untouched |
| Controller.Refresh | frontend/screens/MainApp.js:80-85 | a refresh shows and caches the batch with the current time; the summary shown is the one sent when one was computed, and otherwise the old one; the warning reported is the alert shown |
| Controller.CycleOutcomes | frontend/screens/MainApp.js:54-100 | what each kind of cycle does. A fresh cache shows the cached batch and changes nothing else. A failed fetch, or a batch whose temperatures equal those `seen`, only clears loading. An empty or non-array result clears the shown readings but not the cache. A changed batch is shown and cached with the current time, and the summary (when computable) and the alert are recomputed |
| Controller.RefreshPreservesInvariant | frontend/screens/MainApp.js:80-85 | refreshing with a non-empty batch keeps the screen invariant |
| Controller.CyclePreservesInvariant | frontend/screens/MainApp.js:54-100 | every cycle keeps the invariant: a cached batch is never empty, both cache entries are written together, the summary has min <= mean <= max, and the alert is absent or the 35-degree warning |
| Controller.RefreshThenCacheHit | frontend/screens/MainApp.js:61-65 | within five minutes of a refresh, any cycle uses the cache: no fetch, and the batch just stored is shown |
| Controller.SameTemperaturesKeepCacheStale | frontend/screens/MainApp.js:80-88 | a pull-to-refresh whose temperatures equal the shown ones changes nothing, not even the fetch time, so a stale cache stays stale |
| Controller.FirstRenderCopyAlwaysRefreshes | frontend/screens/MainApp.js:35-51 | on a stale cache, the copy of `fetchWeather` run by the mount effect and the timer refreshes on every non-empty batch, even one with the shown temperatures |
| Controller.WeatherScreen.constructor | frontend/screens/MainApp.js:15-25 | a new screen: no readings, not loading, the initial summary, no alert, and whatever the local cache held |
| Controller.WeatherScreen.FetchWeather | frontend/screens/MainApp.js:54-100 | the new fields and the report are those of one cycle on the old fields, comparing against `seen`, with the outcome the retry returns; no gateway call on a fresh cache, otherwise one more call than retries |
| Controller.WeatherScreen.HandleFetched | frontend/screens/MainApp.js:69-93 | the fields after the retry returned are those of the rest of the cycle |
| Controller.WeatherScreen.ApplyRefresh | frontend/screens/MainApp.js:80-85 | the fields after a changed batch are those of the refresh step |
| Controller.WeatherScreen.Mount | frontend/screens/MainApp.js:35-44 | mounting shows the cached batch if there is one, then runs one cycle from that state that compares against `[]` |
| Controller.WeatherScreen.Tick | frontend/screens/MainApp.js:46-48 | a timer tick is one cycle that compares against `[]` |
| Controller.WeatherScreen.PullToRefresh | frontend/screens/MainApp.js:212-215 | a pull-to-refresh is one cycle that compares against the readings shown |
| Controller.WeatherScreen.TemperatureChart | frontend/screens/MainApp.js:205-210 | one chart point per shown reading, labelled "Day i+1", with its temperature |
| SummaryServer.Validate | backend/server.js:39-58 | a 400 exactly when a temperature field is falsy, wind speed or humidity does not parse, or the condition or date is missing or empty. An accepted body's record holds `parseFloat` of each number and the two strings, with wind and humidity never NaN |
| SummaryServer.ValidateRoundTrip | backend/server.js:39-58 | posting a record's own finite numbers, with non-zero temperatures and non-empty strings, stores exactly that record |
| SummaryServer.ZeroMinTempRejected | backend/server.js:45-46 | a numeric 0 minimum temperature is refused |
| SummaryServer.NumericStringAsNumber | backend/server.js:42-43 | wind speed or humidity sent as a string that parses to x is judged and stored exactly as the number x |
| SummaryServer.HumidityStringStoredAsNumber | backend/server.js:42-55 | humidity sent as "45.5" is accepted and stored as 45.5 |
| SummaryServer.TruthyTextTemperatureStoredAsNaN | backend/server.js:45-51 | a temperature sent as a word passes the guard, and the record built from it holds NaN |
| SummaryServer.LexLe | backend/server.js:70 | the order the sort compares dates by, code point by code point; `SummaryServer.LexLeTotal` and `SummaryServer.LexLeTrans` state that it is a total order |
| SummaryServer.LexLeTotal | backend/server.js:70 | any two dates are ordered one way or the other |
| SummaryServer.LexLeTrans | backend/server.js:70 | the date order is transitive |
| SummaryServer.InsertByDate | backend/server.js:70 | inserting a record adds exactly that record to the multiset |
| SummaryServer.InsertKeepsSorted | backend/server.js:70 | inserting into a list sorted latest first keeps it sorted |
| SummaryServer.SortByDateDesc | backend/server.js:70 | the sorted list is a permutation of the records, latest date first |
| SummaryServer.SummaryStore.constructor | backend/server.js:33 | the collection starts empty |
| SummaryServer.SummaryStore.Post | backend/server.js:36-65 | a refused body answers 400 and a failed save 500, both leaving the records unchanged. An accepted one answers 201 and appends exactly its record, keeping earlier records and duplicate dates. Every stored record has parsed wind and humidity and non-empty strings |
| SummaryServer.SummaryStore.List | backend/server.js:68-76 | a failed query answers 500; otherwise 200 with every record exactly once, latest date first |
| SummaryUpload.UploadRefused | backend/server.js:45-47 | a summary sent with a missing average (rendered "NaN"), a zero maximum or minimum, an empty mean rendering, or an empty condition or date is refused |
| SummaryUpload.UploadStored | backend/server.js:50-60 | otherwise, when both averages' renderings parse, it is stored with its own extremes, condition and date |
| SummaryUpload.UploadAccepted | backend/server.js:45-60 | under a rendering that always parses, the service stores a summary exactly when neither of the above holds |
| SummaryUpload.WireAverageParses | frontend/screens/MainApp.js:143-144 | under such a rendering, a sent average fails to parse exactly when it is missing |
| SummaryUpload.NaNRenderingRefused | backend/server.js:42 | `parseFloat("NaN")` is NaN |
| SummaryUpload.NoHumidityBatchRefused | frontend/screens/MainApp.js:128-144 | a batch with a valid temperature but no valid humidity yields a summary that the service refuses |
| SummaryUpload.FreezingDayRefused | backend/server.js:45 | a batch whose warmest valid temperature is 0 yields a summary with maximum 0, which the service refuses |
| SummaryUpload.FreezingDayMaximum | frontend/screens/MainApp.js:140 | such a batch's summary has maximum exactly 0 |
| SummaryUpload.Wire | frontend/screens/MainApp.js:156-173 | the body posted for a summary; `SummaryUpload.UploadAccepted` states when the service stores it |

## Left out

- The `toFixed(2)` rounding of the mean and the averages (`frontend/screens/MainApp.js:139, 143-144`).
  - The summary holds the unrounded values.
  - What is sent is rendered by a parameter, because decimal floating-point formatting is not modelled.
- JavaScript's `Number(...)` coercion in the validity filters.
  - A field is an `Option<real>`, and `None` stands for NaN.
  - `Number(null) === 0` passing the filter is not modelled.
  - Neither is the string-against-number comparison `temp > 35`, which is done on reals.
- The Kelvin-to-Celsius converter: its source is not part of this model. It is a parameter applied to `temp` and `feels_like`, and temperatures are compared as its results.
- Floating point: `parseFloat`, sums and means use exact reals. Double rounding, overflow to `Infinity` from huge exponents, and the precision of `Date.now()` are not modelled.
- `parseFloat` of an array or object (which parses its string form): `Other` values give NaN.
- Mongoose's own casting and validation beyond the guard at `backend/server.js:45`.
  - Whether a NaN temperature or a non-string condition or date is cast or refused is not modelled.
  - The collection's generated `_id` is not modelled either.
  - The store's answer is the `saveSucceeds` parameter.
- `SummaryServer.SummaryStore.List`: fixes no order among records with the same date, because MongoDB's sort does not guarantee one. Dates compare code point by code point, as the default binary collation does.
- AsyncStorage, axios, Express and MongoDB wiring, console logging, the 10-second POST timeout, and the `Alert.alert` dialogs.
  - The cache is two optional fields holding the batch and the time directly, so the JSON text round trip and `parseInt` of the stored time are left out.
  - The dialogs and the alert email appear in the cycle's report instead of being performed.
- Concurrency: the interval timer, the mount-time check and pull-to-refresh (`frontend/screens/MainApp.js:46-48, 212-215`) are taken to run one cycle at a time.
  - Pull-to-refresh's `refreshing` flag is not modelled.
- Aggregation.TallyOrder: JavaScript lists an object's integer-like keys (such as `"12"`) first, in ascending order. Only after them come the other keys, in insertion order. The model uses insertion order throughout, which is what the code sees for condition names such as "Clear" or "Rain".
- Unused screen state (`forecastData`, `previousDate`, `summaries`, the interval setter). The initial summary's missing `date` field is the empty string.
- The UI components and the network clients, which only render or forward data.

