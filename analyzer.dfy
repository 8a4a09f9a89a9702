/** The analyzer Cloud Function: it turns one decoded metrics file into an analysis record
    with a PASS/FAIL verdict on the first-meaningful-paint time. */
module Analyzer {
  import opened Wrappers
  import Strings

  /** One `{name, value}` entry of the payload's `metrics` list. */
  datatype Sample = Sample(name: string, value: real)

  /** The decoded metrics file: `metrics` is None when the top-level object has no such key. */
  datatype MetricsPayload = MetricsPayload(metrics: Option<seq<Sample>>)

  /** A value of the calculated metrics table: a computed event time in whole milliseconds,
      or a sample value copied through (the heap sizes). */
  datatype MetricValue = Millis(ms: int) | Measured(value: real)

  type Metrics = map<string, MetricValue>

  /** The storage trigger event; each field is None when the event lacks that key. */
  datatype StorageEvent = StorageEvent(
    bucket: Option<string>,
    name: Option<string>,
    timeCreated: Option<string>,
    metadata: Option<map<string, string>>)

  /** A value of the analysis record: a string, or the calculated metrics table. */
  datatype Field = Text(text: string) | Table(metrics: Metrics)

  type AnalysisRecord = map<string, Field>

  const NavigationStart := "NavigationStart"
  const DomContentLoaded := "DomContentLoaded"
  const FirstMeaningfulPaint := "FirstMeaningfulPaint"
  const JSHeapTotalSize := "JSHeapTotalSize"
  const JSHeapUsedSize := "JSHeapUsedSize"

  /** The sample names `parse_metrics` looks up, in the order it looks them up. */
  const LookupOrder: seq<string> :=
    [DomContentLoaded, NavigationStart, FirstMeaningfulPaint, JSHeapTotalSize, JSHeapUsedSize]

  /** The four keys of the calculated metrics table. */
  const MetricKeys: set<string> :=
    {DomContentLoaded, FirstMeaningfulPaint, JSHeapTotalSize, JSHeapUsedSize}

  /** The six keys of an analysis record. */
  const RecordKeys: set<string> :=
    {"metrics", "input_file", "page_url", "fetch_timestamp", "analysis_timestamp", "status"}

  // ---------------------------------------------------------------------------------------
  // The name -> value table

  /** `samples[i]` is the last sample carrying its name. */
  ghost predicate IsLastOccurrence(samples: seq<Sample>, i: int)
  {
    0 <= i < |samples| && forall j | i < j < |samples| :: samples[j].name != samples[i].name
  }

  /** `dict(zip(names, values))`: the samples inserted one after another, left to right. */
  function BuildTable(samples: seq<Sample>): (kv: map<string, real>)
    ensures kv.Keys == set i | 0 <= i < |samples| :: samples[i].name
  {
    if samples == [] then map[]
    else
      var init, last := samples[..|samples| - 1], samples[|samples| - 1];
      var kv := BuildTable(init)[last.name := last.value];
      assert forall i | 0 <= i < |init| :: init[i] == samples[i];
      kv
  }

  /** A repeated name takes the value of its last occurrence. */
  lemma {:induction false} LastOccurrenceWins(samples: seq<Sample>, i: int)
    requires IsLastOccurrence(samples, i)
    ensures samples[i].name in BuildTable(samples)
    ensures BuildTable(samples)[samples[i].name] == samples[i].value
  {
    var n := |samples| - 1;
    if i < n {
      var init := samples[..n];
      assert init[i] == samples[i];
      assert IsLastOccurrence(init, i) by {
        forall j | i < j < |init| ensures init[j].name != init[i].name {
          assert init[j] == samples[j];
        }
      }
      LastOccurrenceWins(init, i);
    }
  }

  /** Every name in the table comes with the last sample that carries it. */
  lemma TableEntryIsLastSample(samples: seq<Sample>, name: string)
    requires name in BuildTable(samples)
    ensures exists i :: IsLastOccurrence(samples, i) && samples[i].name == name
                        && BuildTable(samples)[name] == samples[i].value
  {
    var i :| 0 <= i < |samples| && samples[i].name == name;
    while !IsLastOccurrence(samples, i)
      invariant 0 <= i < |samples| && samples[i].name == name
      decreases |samples| - i
    {
      var j :| i < j < |samples| && samples[j].name == name;
      i := j;
    }
    LastOccurrenceWins(samples, i);
  }

  // ---------------------------------------------------------------------------------------
  // Event times

  /** Python's `int(x)` on a number: drop the fractional part, rounding toward zero. */
  function TruncateTowardZero(x: real): (r: int)
    ensures 0.0 <= x ==> r as real <= x < r as real + 1.0
    ensures x < 0.0 ==> r as real - 1.0 < x <= r as real
  {
    if x >= 0.0 then x.Floor else -((-x).Floor)
  }

  /** The truncation is symmetric around zero, which is where it differs from `Floor`. */
  lemma TruncateIsOdd(x: real)
    ensures TruncateTowardZero(-x) == -TruncateTowardZero(x)
  {
  }

  /** An event recorded half a millisecond before navigation start gives 0, not -1: the
      conversion truncates toward zero where `Floor` would round down. */
  lemma NegativeElapsedTruncatesTowardZero()
    ensures CalcEventTime(map[NavigationStart := 1.0, DomContentLoaded := 0.9995], DomContentLoaded) == Ok(0)
    ensures ((0.9995 - 1.0) * 1000.0).Floor == -1
  {
    assert (0.9995 - 1.0) * 1000.0 == -0.5;
  }

  /** `calc_event_time`: milliseconds from `NavigationStart` to `event`, truncated toward zero.
      The event is looked up before `NavigationStart`, so its key is the one reported first. */
  function CalcEventTime(kv: map<string, real>, event: string): (r: Result<int>)
    ensures r.Ok? <==> event in kv && NavigationStart in kv
    ensures event !in kv ==> r == Err(KeyError(event))
    ensures event in kv && NavigationStart !in kv ==> r == Err(KeyError(NavigationStart))
    ensures r.Ok? ==> var elapsed := (kv[event] - kv[NavigationStart]) * 1000.0;
                      (0.0 <= elapsed ==> r.value as real <= elapsed < r.value as real + 1.0) &&
                      (elapsed < 0.0 ==> r.value as real - 1.0 < elapsed <= r.value as real)
  {
    if event !in kv then Err(KeyError(event))
    else if NavigationStart !in kv then Err(KeyError(NavigationStart))
    else Ok(TruncateTowardZero((kv[event] - kv[NavigationStart]) * 1000.0))
  }

  // ---------------------------------------------------------------------------------------
  // parse_metrics

  /** Dictionary subscription on the name -> value table. */
  function Lookup(kv: map<string, real>, key: string): Result<real>
  {
    if key in kv then Ok(kv[key]) else Err(KeyError(key))
  }

  /** `names[k]` is the first of `names` that `kv` lacks. */
  ghost predicate FirstMissing(kv: map<string, real>, names: seq<string>, k: int)
  {
    0 <= k < |names| && names[k] !in kv && forall j | 0 <= j < k :: names[j] in kv
  }

  /** `parse_metrics`: the calculated table of two event times and two heap sizes, or the
      `KeyError` of the first key missing in evaluation order. */
  function ParseMetrics(payload: MetricsPayload): (r: Result<Metrics>)
    ensures payload.metrics.None? ==> r == Err(KeyError("metrics"))
    ensures payload.metrics.Some? ==>
      var kv := BuildTable(payload.metrics.value);
      && (r.Ok? <==> forall k | k in LookupOrder :: k in kv)
      && (r.Err? ==> exists k :: FirstMissing(kv, LookupOrder, k) && r.error == KeyError(LookupOrder[k]))
    ensures r.Ok? ==> r.value.Keys == MetricKeys
    ensures r.Ok? ==>
      var kv := BuildTable(payload.metrics.value);
      && r.value[DomContentLoaded] == Millis(TruncateTowardZero((kv[DomContentLoaded] - kv[NavigationStart]) * 1000.0))
      && r.value[FirstMeaningfulPaint] == Millis(TruncateTowardZero((kv[FirstMeaningfulPaint] - kv[NavigationStart]) * 1000.0))
      && r.value[JSHeapTotalSize] == Measured(kv[JSHeapTotalSize])
      && r.value[JSHeapUsedSize] == Measured(kv[JSHeapUsedSize])
  {
    match payload.metrics
    case None => Err(KeyError("metrics"))
    case Some(samples) =>
      var kv := BuildTable(samples);
      LookupOrderCases(kv);
      var dom :- CalcEventTime(kv, DomContentLoaded);
      var paint :- CalcEventTime(kv, FirstMeaningfulPaint);
      var total :- Lookup(kv, JSHeapTotalSize);
      var used :- Lookup(kv, JSHeapUsedSize);
      Ok(map[DomContentLoaded := Millis(dom),
             FirstMeaningfulPaint := Millis(paint),
             JSHeapTotalSize := Measured(total),
             JSHeapUsedSize := Measured(used)])
  }

  /** Which key of `LookupOrder` is the first one `kv` lacks, case by case. */
  lemma LookupOrderCases(kv: map<string, real>)
    ensures (forall k | k in LookupOrder :: k in kv) <==>
            DomContentLoaded in kv && NavigationStart in kv && FirstMeaningfulPaint in kv &&
            JSHeapTotalSize in kv && JSHeapUsedSize in kv
    ensures DomContentLoaded !in kv ==> FirstMissing(kv, LookupOrder, 0)
    ensures DomContentLoaded in kv && NavigationStart !in kv ==> FirstMissing(kv, LookupOrder, 1)
    ensures DomContentLoaded in kv && NavigationStart in kv && FirstMeaningfulPaint !in kv ==>
              FirstMissing(kv, LookupOrder, 2)
    ensures (DomContentLoaded in kv && NavigationStart in kv && FirstMeaningfulPaint in kv &&
             JSHeapTotalSize !in kv) ==> FirstMissing(kv, LookupOrder, 3)
    ensures (DomContentLoaded in kv && NavigationStart in kv && FirstMeaningfulPaint in kv &&
             JSHeapTotalSize in kv && JSHeapUsedSize !in kv) ==> FirstMissing(kv, LookupOrder, 4)
  {
  }

  /** Some sample of the list carries `name`. */
  ghost predicate HasSample(samples: seq<Sample>, name: string)
  {
    exists i :: 0 <= i < |samples| && samples[i].name == name
  }

  /** With a `metrics` list, parsing succeeds exactly when each of the five required names
      occurs in some sample. */
  lemma ParseMetricsOkIff(samples: seq<Sample>)
    ensures ParseMetrics(MetricsPayload(Some(samples))).Ok? <==>
            forall k | k in LookupOrder :: HasSample(samples, k)
  {
    var kv := BuildTable(samples);
    forall k ensures k in kv <==> HasSample(samples, k) {
      if k in kv {
        var i :| 0 <= i < |samples| && samples[i].name == k;
      }
    }
  }

  /** An event time is measured between the last `NavigationStart` sample and the last sample
      of the event, whatever came before them. */
  lemma EventTimeFromLastSamples(samples: seq<Sample>, iNav: int, iEvent: int)
    requires IsLastOccurrence(samples, iNav) && samples[iNav].name == NavigationStart
    requires IsLastOccurrence(samples, iEvent)
    requires samples[iEvent].name == DomContentLoaded || samples[iEvent].name == FirstMeaningfulPaint
    requires ParseMetrics(MetricsPayload(Some(samples))).Ok?
    ensures ParseMetrics(MetricsPayload(Some(samples))).value[samples[iEvent].name] ==
              Millis(TruncateTowardZero((samples[iEvent].value - samples[iNav].value) * 1000.0))
  {
    LastOccurrenceWins(samples, iNav);
    LastOccurrenceWins(samples, iEvent);
  }

  /** A heap size is the value of the last sample of its name, unchanged. */
  lemma HeapSizeFromLastSample(samples: seq<Sample>, i: int)
    requires IsLastOccurrence(samples, i)
    requires samples[i].name == JSHeapTotalSize || samples[i].name == JSHeapUsedSize
    requires ParseMetrics(MetricsPayload(Some(samples))).Ok?
    ensures ParseMetrics(MetricsPayload(Some(samples))).value[samples[i].name] == Measured(samples[i].value)
  {
    LastOccurrenceWins(samples, i);
  }

  // ---------------------------------------------------------------------------------------
  // analyze_metrics

  /** `'gs://{}/{}'.format(bucket, name)`. */
  function GcsUri(bucket: string, name: string): string
  {
    "gs://" + bucket + "/" + name
  }

  /** Objects in buckets whose names contain no `/` (as storage bucket names never do) get
      distinct identifiers. */
  lemma GcsUriInjective(bucket1: string, name1: string, bucket2: string, name2: string)
    requires '/' !in bucket1 && '/' !in bucket2
    requires GcsUri(bucket1, name1) == GcsUri(bucket2, name2)
    ensures bucket1 == bucket2 && name1 == name2
  {
    var u1, u2 := GcsUri(bucket1, name1), GcsUri(bucket2, name2);
    assert u1[5..] == bucket1 + ['/'] + name1;
    assert u2[5..] == bucket2 + ['/'] + name2;
    Strings.JoinInjective(bucket1, name1, bucket2, name2, '/');
  }

  /** The verdict: a strictly greater paint time than the threshold fails. */
  function Verdict(timeMeaningfulPaint: int, maxTimeMeaningfulPaint: int): (status: string)
    ensures status == "FAIL" <==> timeMeaningfulPaint > maxTimeMeaningfulPaint
    ensures status == "PASS" <==> timeMeaningfulPaint <= maxTimeMeaningfulPaint
  {
    if timeMeaningfulPaint > maxTimeMeaningfulPaint then "FAIL" else "PASS"
  }

  /** `analyze_metrics`: parse the metrics, then build the record from the trigger event,
      the clock reading `now` (an ISO-8601 string) and the threshold. Exceptions surface in
      source order: parsing, then `bucket`, `name`, `metadata`, `pageUrl`, `timeCreated`. */
  function AnalyzeMetrics(data: StorageEvent, payload: MetricsPayload, maxTimeMeaningfulPaint: int,
                          now: string): (r: Result<AnalysisRecord>)
    ensures ParseMetrics(payload).Err? ==> r == Err(ParseMetrics(payload).error)
    ensures ParseMetrics(payload).Ok? ==>
      (data.bucket.None? ==> r == Err(KeyError("bucket"))) &&
      (data.bucket.Some? && data.name.None? ==> r == Err(KeyError("name"))) &&
      (data.bucket.Some? && data.name.Some? && data.metadata.None? ==> r == Err(KeyError("metadata"))) &&
      (data.bucket.Some? && data.name.Some? && data.metadata.Some? && "pageUrl" !in data.metadata.value ==>
         r == Err(KeyError("pageUrl"))) &&
      ((data.bucket.Some? && data.name.Some? && data.metadata.Some? && "pageUrl" in data.metadata.value &&
        data.timeCreated.None?) ==> r == Err(KeyError("timeCreated")))
    ensures r.Ok? <==> ParseMetrics(payload).Ok? && data.bucket.Some? && data.name.Some? &&
                       data.metadata.Some? && "pageUrl" in data.metadata.value && data.timeCreated.Some?
    ensures r.Ok? ==>
      && r.value.Keys == RecordKeys
      && r.value["metrics"] == Table(ParseMetrics(payload).value)
      && r.value["input_file"] == Text("gs://" + data.bucket.value + "/" + data.name.value)
      && r.value["page_url"] == Text(data.metadata.value["pageUrl"])
      && r.value["fetch_timestamp"] == Text(data.timeCreated.value)
      && r.value["analysis_timestamp"] == Text(now + "Z")
      && (r.value["status"] == Text("FAIL") <==>
            ParseMetrics(payload).value[FirstMeaningfulPaint].ms > maxTimeMeaningfulPaint)
      && (r.value["status"] == Text("PASS") <==>
            ParseMetrics(payload).value[FirstMeaningfulPaint].ms <= maxTimeMeaningfulPaint)
  {
    var calculated :- ParseMetrics(payload);
    var bucket :- Required(data.bucket, "bucket");
    var name :- Required(data.name, "name");
    var metadata :- Required(data.metadata, "metadata");
    var pageUrl :- if "pageUrl" in metadata then Ok(metadata["pageUrl"]) else Err(KeyError("pageUrl"));
    var timeCreated :- Required(data.timeCreated, "timeCreated");
    var record := map[
      "metrics" := Table(calculated),
      "input_file" := Text(GcsUri(bucket, name)),
      "page_url" := Text(pageUrl),
      "fetch_timestamp" := Text(timeCreated),
      "analysis_timestamp" := Text(now + "Z")];
    Ok(record["status" := Text(Verdict(calculated[FirstMeaningfulPaint].ms, maxTimeMeaningfulPaint))])
  }

  /** Subscription of an event key that may be absent. */
  function Required<T>(field: Option<T>, key: string): Result<T>
  {
    if field.Some? then Ok(field.value) else Err(KeyError(key))
  }

  /** Only the status and the analysis timestamp depend on anything but the event and the
      payload: two clock readings give records that differ at most in `analysis_timestamp`. */
  lemma AnalysisDependsOnClockOnlyInTimestamp(data: StorageEvent, payload: MetricsPayload,
                                              maxTime: int, now1: string, now2: string)
    ensures AnalyzeMetrics(data, payload, maxTime, now1).Ok? == AnalyzeMetrics(data, payload, maxTime, now2).Ok?
    ensures AnalyzeMetrics(data, payload, maxTime, now1).Ok? ==>
              AnalyzeMetrics(data, payload, maxTime, now1).value["analysis_timestamp" := Text(now2 + "Z")] ==
              AnalyzeMetrics(data, payload, maxTime, now2).value
  {
  }

  // ---------------------------------------------------------------------------------------
  // The unit-test scenarios

  /** A five-sample list whose first meaningful paint is 786 ms after navigation start, the
      paint time the unit test expects of its metrics file. */
  const SampleMetrics: seq<Sample> := [
    Sample(NavigationStart, 0.0), Sample(DomContentLoaded, 0.5), Sample(FirstMeaningfulPaint, 0.786),
    Sample(JSHeapTotalSize, 1000.0), Sample(JSHeapUsedSize, 500.0)]

  /** The trigger event of the unit tests. */
  const TestEvent := StorageEvent(Some("gcsBucket"), Some("gcsObjectName"), Some("2019-03-07 00:00:00Z"),
                                  Some(map["pageUrl" := "https://www.testtest.com"]))

  /** The list parses to the four keys, with a first meaningful paint of 786 ms. */
  lemma ParseSampleMetrics()
    ensures ParseMetrics(MetricsPayload(Some(SampleMetrics))) ==
      Ok(map[DomContentLoaded := Millis(500), FirstMeaningfulPaint := Millis(786),
             JSHeapTotalSize := Measured(1000.0), JSHeapUsedSize := Measured(500.0)])
  {
    var s := SampleMetrics;
    forall i | 0 <= i < |s| ensures IsLastOccurrence(s, i) {
    }
    LastOccurrenceWins(s, 0);
    LastOccurrenceWins(s, 1);
    LastOccurrenceWins(s, 2);
    LastOccurrenceWins(s, 3);
    LastOccurrenceWins(s, 4);
    assert TruncateTowardZero((0.5 - 0.0) * 1000.0) == 500;
    assert TruncateTowardZero((0.786 - 0.0) * 1000.0) == 786;
  }

  /** The unit test's two thresholds: 2000 passes and 500 fails a paint time of 786 ms. */
  lemma AnalyzeSampleVerdict(maxTime: int, now: string)
    requires maxTime == 2000 || maxTime == 500
    ensures AnalyzeMetrics(TestEvent, MetricsPayload(Some(SampleMetrics)), maxTime, now).Ok?
    ensures AnalyzeMetrics(TestEvent, MetricsPayload(Some(SampleMetrics)), maxTime, now).value["status"] ==
              if maxTime == 2000 then Text("PASS") else Text("FAIL")
  {
    var payload := MetricsPayload(Some(SampleMetrics));
    ParseSampleMetrics();
    assert ParseMetrics(payload).Ok? && ParseMetrics(payload).value[FirstMeaningfulPaint].ms == 786;
  }

  /** The unit test's expected object identifier. */
  lemma AnalyzeSampleInputFile(maxTime: int, now: string)
    ensures AnalyzeMetrics(TestEvent, MetricsPayload(Some(SampleMetrics)), maxTime, now).Ok?
    ensures AnalyzeMetrics(TestEvent, MetricsPayload(Some(SampleMetrics)), maxTime, now).value["input_file"] ==
              Text("gs://gcsBucket/gcsObjectName")
  {
    ParseSampleMetrics();
    TestObjectUri();
    var r := AnalyzeMetrics(TestEvent, MetricsPayload(Some(SampleMetrics)), maxTime, now);
    assert r.Ok?;
    assert r.value["input_file"] == Text(GcsUri("gcsBucket", "gcsObjectName"));
  }

  lemma TestObjectUri()
    ensures GcsUri("gcsBucket", "gcsObjectName") == "gs://gcsBucket/gcsObjectName"
  {
  }

  /** The unit test's expected fetch time, copied from `timeCreated`. */
  lemma AnalyzeSampleFetchTimestamp(maxTime: int, now: string)
    ensures AnalyzeMetrics(TestEvent, MetricsPayload(Some(SampleMetrics)), maxTime, now).Ok?
    ensures AnalyzeMetrics(TestEvent, MetricsPayload(Some(SampleMetrics)), maxTime, now).value["fetch_timestamp"] ==
              Text("2019-03-07 00:00:00Z")
  {
    ParseSampleMetrics();
  }

  lemma MissingNavigationStartFails()
    ensures ParseMetrics(MetricsPayload(Some(SampleMetrics[1..]))) == Err(KeyError(NavigationStart))
  {
    var kv := BuildTable(SampleMetrics[1..]);
    assert NavigationStart !in kv;
    assert DomContentLoaded in kv by {
      assert SampleMetrics[1..][0].name == DomContentLoaded;
    }
  }
}
