/** The chain from the analyzer to the alerter: the analysis record is stored as a document,
    and the document store delivers the stored document to the alerter as a change event. */
module Pipeline {
  import opened Wrappers
  import opened Analyzer
  import opened Alerter

  /** A calculated metric in the document store's typed-value form. */
  function EncodeMetric(v: MetricValue): Json
  {
    match v
    case Millis(ms) => Object(map["integerValue" := Number(ms as real)])
    case Measured(x) => Object(map["doubleValue" := Number(x)])
  }

  /** A record field in the document store's typed-value form. */
  function EncodeField(f: Field): Json
  {
    match f
    case Text(s) => Object(map["stringValue" := Str(s)])
    case Table(m) =>
      Object(map["mapValue" := Object(map["fields" := Object(map k | k in m :: EncodeMetric(m[k]))])])
  }

  /** The stored analysis record as the alerter's event carries it under `value`. */
  function StoredDocument(record: AnalysisRecord): (doc: Json)
    ensures doc.Object? && doc.members.Keys == {"fields"}
    ensures doc.members["fields"].Object? && doc.members["fields"].members.Keys == record.Keys
  {
    Object(map["fields" := Object(map k | k in record :: EncodeField(record[k]))])
  }

  /** The change event that storing `record` delivers to the alerter. */
  function ChangeEvent(record: AnalysisRecord): Json
  {
    Object(map["value" := StoredDocument(record)])
  }

  /** Storing a record whose status is the string `status` delivers a change event whose
      `value.fields.status.stringValue` is that string. */
  lemma ChangeEventCarriesStatus(record: AnalysisRecord, status: string)
    requires "status" in record && record["status"] == Text(status)
    ensures Path(ChangeEvent(record), StatusPath) == Ok(Str(status))
  {
    var fields := StoredDocument(record).members["fields"];
    assert fields.members["status"] == Object(map["stringValue" := Str(status)]);
    assert StatusPath[1..] == ["fields", "status", "stringValue"];
    assert StatusPath[2..] == ["status", "stringValue"];
    assert StatusPath[3..] == ["stringValue"];
  }

  /** A stored record alerts exactly when its status is FAIL, and the alert carries the whole
      stored document, whose status still reads FAIL. */
  lemma StoredRecordAlertsIffFail(record: AnalysisRecord, project: Option<string>, topic: Option<string>)
    requires "status" in record && (record["status"] == Text("FAIL") || record["status"] == Text("PASS"))
    ensures var r := GenerateAlert(ChangeEvent(record), project, topic);
            && r.Ok?
            && (r.value.Some? <==> record["status"] == Text("FAIL"))
            && (r.value.Some? ==>
                  && r.value.value == Alert(TopicPath(project, topic), StoredDocument(record))
                  && Path(r.value.value.message, StatusPath[1..]) == Ok(Str("FAIL")))
  {
    var status := record["status"].text;
    ChangeEventCarriesStatus(record, status);
    if status == "FAIL" {
      assert "" + "FAIL" + "" == "FAIL";
      AnyStatusContainingFailAlerts(ChangeEvent(record), "", "", project, topic);
    } else {
      PassDoesNotAlert(ChangeEvent(record), project, topic);
    }
  }

  /** End to end: once the analyzer has produced a record, the alerter publishes that stored
      document exactly when the first meaningful paint exceeded the threshold, and the message
      it publishes reads status FAIL. */
  lemma AlertIffPaintExceedsThreshold(data: StorageEvent, payload: MetricsPayload, maxTime: int, now: string,
                                      project: Option<string>, topic: Option<string>)
    requires AnalyzeMetrics(data, payload, maxTime, now).Ok?
    ensures var record := AnalyzeMetrics(data, payload, maxTime, now).value;
            var r := GenerateAlert(ChangeEvent(record), project, topic);
            && r.Ok?
            && (r.value.Some? <==> ParseMetrics(payload).value[FirstMeaningfulPaint].ms > maxTime)
            && (r.value.Some? ==>
                  && r.value.value == Alert(TopicPath(project, topic), StoredDocument(record))
                  && Path(r.value.value.message, StatusPath[1..]) == Ok(Str("FAIL")))
  {
    var record := AnalyzeMetrics(data, payload, maxTime, now).value;
    StoredRecordAlertsIffFail(record, project, topic);
  }
}
