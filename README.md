# Serverless web monitoring: analyzer and alerter, modelled in Dafny

The system is a small event-driven pipeline. A tracer stores a page-load metrics file in a
storage bucket. The **analyzer** function is triggered by the new object: it turns the
`{name, value}` samples into a name→value table, computes the DOM-content-loaded and
first-meaningful-paint times in whole milliseconds since navigation start, copies the two
JavaScript heap sizes, and writes an analysis record whose `status` is `FAIL` when the
first-meaningful-paint time is strictly above a threshold and `PASS` otherwise. The
**alerter** function is triggered by the stored document: when its status contains `FAIL`,
it publishes the whole document to the topic `projects/<project>/topics/<topic>`.

The Dafny project has five modules:

- `Wrappers` (`wrappers.dfy`): `Option`, `Result` and the two Python exceptions the handlers
  raise, `KeyError(key)` and `TypeError`. `Result` works with `:-`, so the FIRST exception in
  Python's evaluation order is the one reported.
- `Strings` (`strings.dfy`): Python's `sub in s` on strings, proved equal to "occurs at some
  position", and a lemma that joining two parts with a separator the first part lacks is
  injective.
- `Analyzer` (`analyzer.dfy`): `parse_metrics`, `calc_event_time` and `analyze_metrics` as
  pure functions over the decoded metrics file, the trigger event, the threshold and the clock
  reading.
- `Alerter` (`alerter.dfy`): the decision inside `generate_alert` as a pure function over the
  decoded change event that returns the alert to publish, if any. A small class models the
  function instance: its lazily created publisher client and the messages handed to it.
- `Pipeline` (`pipeline.dfy`): the stored record as the document store delivers it to the
  alerter, and the end-to-end property that an alert is published exactly when the paint time
  exceeded the threshold.

Inputs the source reads from its environment are parameters: the threshold
(`MAX_TIME_MEANINGFUL_PAINT`), the clock reading (`datetime.utcnow().isoformat()`), and
`GCP_PROJECT` / `ALERT_TOPIC`. The last two are `Option<string>`, because an unset variable
is formatted as `None` into the topic name.

Three facts about the code that the model keeps:

- The millisecond conversion is `int(...)`, which truncates toward zero and does not round.
- The threshold may be any integer; the comparison is a strict `>`.
- Each missing key raises its own `KeyError`. This includes the trigger event's `bucket`,
  `name`, `metadata`, `pageUrl` and `timeCreated`. The model reports the first missing key
  in evaluation order.

## Model

| member | source | states |
|---|---|---|
| `Analyzer.BuildTable` | functions/analyzer/main.py:95-97 | the table's keys are exactly the names occurring in the samples |
| `Analyzer.LastOccurrenceWins` | functions/analyzer/main.py:95-97 | a repeated name maps to the value of its last sample |
| `Analyzer.TableEntryIsLastSample` | functions/analyzer/main.py:95-97 | every table entry is the value of the last sample carrying that name |
| `Analyzer.TruncateTowardZero` | functions/analyzer/main.py:109 | `int()` on a number: the result lies within one of the input, on the side toward zero, for negative inputs too |
| `Analyzer.TruncateIsOdd` | functions/analyzer/main.py:109 | truncation is symmetric around zero |
| `Analyzer.NegativeElapsedTruncatesTowardZero` | functions/analyzer/main.py:108-109 | an event half a millisecond before navigation start gives 0, where `Floor` would give -1 |
| `Analyzer.CalcEventTime` | functions/analyzer/main.py:108-109 | ok exactly when the event and `NavigationStart` are present; the event's `KeyError` comes first; the time is `(event - NavigationStart) * 1000` truncated toward zero |
| `Analyzer.ParseMetrics` | functions/analyzer/main.py:92-104 | a missing `metrics` key gives `KeyError("metrics")`; otherwise ok exactly when all five names are in the table, else the `KeyError` of the first missing name in lookup order; on success exactly four keys, two event times and two unchanged heap sizes |
| `Analyzer.LookupOrderCases` | functions/analyzer/main.py:99-102 | which required name is the first missing one, case by case |
| `Analyzer.ParseMetricsOkIff` | functions/analyzer/main.py:94-102 | with a `metrics` list, parsing succeeds exactly when each of the five required names occurs in some sample |
| `Analyzer.EventTimeFromLastSamples` | functions/analyzer/main.py:95-109 | each event time is measured between the last `NavigationStart` sample and the last sample of the event |
| `Analyzer.HeapSizeFromLastSample` | functions/analyzer/main.py:95-102 | each heap size is the last sample's value, unchanged |
| `Analyzer.GcsUriInjective` | functions/analyzer/main.py:72 | for bucket names without `/`, distinct objects get distinct `GcsUri` identifiers `gs://bucket/name` |
| `Analyzer.Verdict` | functions/analyzer/main.py:82-88 | `FAIL` exactly when the paint time is strictly greater than the threshold, `PASS` exactly when it is not (equality passes) |
| `Analyzer.AnalyzeMetrics` | functions/analyzer/main.py:69-89 | parse errors propagate unchanged, then the missing trigger key in evaluation order; ok exactly when nothing is missing; the record has exactly six keys, the parsed metrics, `gs://bucket/name`, copies of `pageUrl` and `timeCreated`, the clock string plus `Z`, and the strict-greater verdict |
| `Analyzer.AnalysisDependsOnClockOnlyInTimestamp` | functions/analyzer/main.py:73-79 | two clock readings give records that differ at most in `analysis_timestamp` |
| `Analyzer.ParseSampleMetrics` | functions/tests/analyzer_test.py:56-63 | a five-sample list whose first meaningful paint is 786 ms after navigation start parses to the four keys the test asserts, with 786 for the paint time |
| `Analyzer.AnalyzeSampleVerdict` | functions/tests/analyzer_test.py:39-44 | thresholds 2000 and 500 give `PASS` and `FAIL` |
| `Analyzer.AnalyzeSampleInputFile` | functions/tests/analyzer_test.py:45 | the test's event gives `gs://gcsBucket/gcsObjectName` |
| `Analyzer.AnalyzeSampleFetchTimestamp` | functions/tests/analyzer_test.py:46 | the test's event gives the fetch timestamp `2019-03-07 00:00:00Z` |
| `Analyzer.MissingNavigationStartFails` | functions/analyzer/main.py:99-109 | samples without `NavigationStart` raise `KeyError("NavigationStart")` |
| `Strings.Contains` | functions/alerter/main.py:36 | Python's `sub in s` holds exactly when `sub` occurs in `s` at some position |
| `Alerter.In` | functions/alerter/main.py:36 | `'FAIL' in status`: on a string, true exactly when `FAIL` occurs at some position; on a list, exactly when some element is the string `FAIL`; on a dictionary, a key test; `TypeError` on a number, boolean or null |
| `Alerter.GenerateAlert` | functions/alerter/main.py:34-46 | a broken `Path` to `value.fields.status.stringValue` raises that chain's first exception; otherwise `TypeError` when `'FAIL' in status` cannot be evaluated, and an alert exactly when it holds; the alert's topic is `projects/<project>/topics/<topic>` (`TopicPath`, with `FormatEnv` printing an unset variable as `None`) and its message is the whole `data["value"]` document |
| `Alerter.AlertIffStatusContainsFail` | functions/alerter/main.py:34-36 | for any event whose `value.fields.status.stringValue` is a string, whatever else it carries, the handler decides without error and alerts exactly when `FAIL` occurs in the status |
| `Alerter.AnyStatusContainingFailAlerts` | functions/alerter/main.py:36-46 | for any event whose status string has `FAIL` inside it, such as `FAILED`, an alert is produced, and its message still reads that status at `fields.status.stringValue` |
| `Alerter.PassDoesNotAlert` | e2e/e2e_test.py:134-137 | any event whose status string is `PASS` publishes nothing |
| `Alerter.TopicPathInjective` | functions/alerter/main.py:43-45 | for project identifiers without `/`, distinct projects or topics give distinct `TopicPath` names |
| `Alerter.UnsetEnvironmentNamesNone` | functions/alerter/main.py:43-45 | with both variables unset the topic name is `projects/None/topics/None` |
| `Alerter.PathConcat` | functions/alerter/main.py:34-35 | following a chain of subscripts `a + b` is following `a` and then `b`; an exception on `a` is the whole chain's exception |
| `Alerter.AlerterInstance.constructor` | functions/alerter/main.py:21 | a fresh instance has no publisher client and has published nothing |
| `Alerter.AlerterInstance.HandleEvent` | functions/alerter/main.py:34-47 | returns the exception raised, if any; creates the client and appends the alert exactly when an alert is produced, and otherwise changes nothing |
| `Pipeline.StoredDocument` | functions/alerter/main.py:34 | the delivered document has a single `fields` member whose keys are the record's keys |
| `Pipeline.ChangeEventCarriesStatus` | functions/alerter/main.py:34-35 | the change event for a stored record carries the record's status string at `value.fields.status.stringValue` |
| `Pipeline.StoredRecordAlertsIffFail` | functions/alerter/main.py:34-46 | a stored record alerts exactly when its status is `FAIL`, with the whole stored document as the message |
| `Pipeline.AlertIffPaintExceedsThreshold` | e2e/e2e_test.py:127-142 | end to end: after a successful analysis, an alert is published exactly when the first meaningful paint exceeds the threshold, and the message reads status `FAIL` |

## Left out

- Storage download, document-store writes and their lazily created clients (`analyze`,
  `get_gcs_file_contents`, `persist`): platform I/O. `analyze`'s reading of the threshold from
  the environment is replaced by a parameter, so its failure on an unset or non-numeric
  variable is not modelled.
- `json.loads` and `json.dumps`: the metrics file and the change event enter the model already
  decoded, and the alert's message is the document before encoding. An invalid JSON file is
  not modelled.
- A metrics file whose top-level JSON value is not an object, or whose `metrics` value is
  `null`, a number, a boolean, or a non-empty string or object, raises `TypeError` in
  `parse_metrics`. An empty string or object there behaves like the empty list. The decoded
  payload type has no such values, so these paths are not modelled.
- Metric samples are decoded as a string name and a real value. A sample without `name` or
  `value`, a non-string name and a non-numeric value are outside the model.
- Floating point: values are exact reals, so the binary rounding of `(a - b) * 1000` is not
  reproduced. The conversion's truncation toward zero is modelled exactly.
- The test's `sample-metrics.json` is not part of this model. The sample list used in the
  scenario lemmas has values chosen to give the 786 ms that the test pins.
- The clock is a given string; `analysis_timestamp` is that string followed by `Z`. That
  successive readings do not go backwards is not modelled.
- The document store's event encoding: `Pipeline` shows each string field as `{stringValue}`
  and the metrics table as `{mapValue: {fields}}`. `Pipeline.StoredDocument`: integer metrics
  appear as a number under `integerValue`, where the document store writes them as a decimal
  string; heap sizes are always written under `doubleValue`, where the document store writes
  an integer heap size under `integerValue`; and document name and timestamps are not
  modelled. The published message in `Pipeline.StoredRecordAlertsIffFail` is therefore this
  approximation of the stored document.
- Logging, the context argument and the publish call's network side effect. The publish call
  is modelled as appending to the list of published messages.
