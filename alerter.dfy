/** The alerter Cloud Function: on a change to an analysis document, it publishes the document
    to an alert topic when the document's status contains "FAIL". */
module Alerter {
  import opened Wrappers
  import Strings

  /** A decoded JSON value, as the platform delivers the change event. */
  datatype Json =
    | Null
    | Bool(b: bool)
    | Number(n: real)
    | Str(s: string)
    | Array(items: seq<Json>)
    | Object(members: map<string, Json>)

  /** What the handler hands to the publisher: the fully qualified topic name and the message
      (the document, before JSON encoding). */
  datatype Alert = Alert(topic: string, message: Json)

  /** The keys `generate_alert` follows from the event to the status string. */
  const StatusPath: seq<string> := ["value", "fields", "status", "stringValue"]

  /** Python's `v[key]` with a string key: a dictionary lookup. A missing key raises
      `KeyError`; a list, string, number, boolean or null raises `TypeError`. */
  function Subscript(v: Json, key: string): (r: Result<Json>)
    ensures r.Ok? <==> v.Object? && key in v.members
    ensures r.Ok? ==> r.value == v.members[key]
    ensures v.Object? && key !in v.members ==> r == Err(KeyError(key))
    ensures !v.Object? ==> r == Err(TypeError)
  {
    match v
    case Object(members) => if key in members then Ok(members[key]) else Err(KeyError(key))
    case _ => Err(TypeError)
  }

  /** `v[keys[0]][keys[1]]...`, stopping at the first exception. */
  function Path(v: Json, keys: seq<string>): (r: Result<Json>)
    decreases |keys|
  {
    if keys == [] then Ok(v)
    else
      var child :- Subscript(v, keys[0]);
      Path(child, keys[1..])
  }

  /** Following `a + b` is following `a`, then following `b` from where `a` ended; an
      exception on `a` is the exception of the whole chain. */
  lemma {:induction false} PathConcat(v: Json, a: seq<string>, b: seq<string>)
    ensures Path(v, a).Err? ==> Path(v, a + b) == Path(v, a)
    ensures Path(v, a).Ok? ==> Path(v, a + b) == Path(Path(v, a).value, b)
    decreases |a|
  {
    if a != [] {
      assert (a + b)[0] == a[0] && (a + b)[1..] == a[1..] + b;
      if Subscript(v, a[0]).Ok? {
        PathConcat(Subscript(v, a[0]).value, a[1..], b);
      }
    } else {
      assert a + b == b;
    }
  }

  /** Python's `needle in container` for a string needle: substring test on a string, element
      test on a list, key test on a dictionary, and `TypeError` on anything else. */
  function In(needle: string, container: Json): (r: Result<bool>)
    ensures container.Str? ==> r.Ok? && (r.value <==> exists i :: Strings.OccursAt(container.s, needle, i))
    ensures container.Array? ==>
              r.Ok? && (r.value <==> exists j :: 0 <= j < |container.items| && container.items[j] == Str(needle))
    ensures container.Object? ==> r == Ok(needle in container.members)
    ensures r.Err? <==> container.Null? || container.Bool? || container.Number?
    ensures container.Null? || container.Bool? || container.Number? ==> r == Err(TypeError)
  {
    match container
    case Str(s) => Ok(Strings.Contains(s, needle))
    case Array(items) => Ok(Str(needle) in items)
    case Object(members) => Ok(needle in members)
    case _ => Err(TypeError)
  }

  /** `'{}'.format(v)` of an environment reading: an unset variable prints as `None`. */
  function FormatEnv(v: Option<string>): string
  {
    if v.Some? then v.value else "None"
  }

  /** `'projects/{}/topics/{}'.format(project, topic)`. */
  function TopicPath(project: Option<string>, topic: Option<string>): string
  {
    "projects/" + FormatEnv(project) + "/topics/" + FormatEnv(topic)
  }

  /** With `GCP_PROJECT` and `ALERT_TOPIC` unset, the message is still handed to the
      publisher, with the topic name `projects/None/topics/None`. */
  lemma UnsetEnvironmentNamesNone()
    ensures TopicPath(None, None) == "projects/None/topics/None"
  {
  }

  /** `generate_alert` as a decision: the alert to publish, None when nothing is published, or
      the exception raised while reading the status. `project` and `topic` are the readings of
      `GCP_PROJECT` and `ALERT_TOPIC`. */
  function GenerateAlert(data: Json, project: Option<string>, topic: Option<string>): (r: Result<Option<Alert>>)
    ensures Path(data, StatusPath).Err? ==> r == Err(Path(data, StatusPath).error)
    ensures Path(data, StatusPath).Ok? ==>
      var status := Path(data, StatusPath).value;
      && (r.Err? <==> In("FAIL", status).Err?)
      && (In("FAIL", status).Err? ==> r == Err(TypeError))
      && (r.Ok? ==> (r.value.Some? <==> In("FAIL", status).value))
    ensures r.Ok? && r.value.Some? ==>
      && r.value.value.topic == "projects/" + FormatEnv(project) + "/topics/" + FormatEnv(topic)
      && Path(data, ["value"]) == Ok(r.value.value.message)
  {
    var document :- Subscript(data, "value");
    var docFields :- Subscript(document, "fields");
    var statusField :- Subscript(docFields, "status");
    var status :- Subscript(statusField, "stringValue");
    var failed :- In("FAIL", status);
    if failed then Ok(Some(Alert(TopicPath(project, topic), document))) else Ok(None)
  }

  /** For any change event whose `value.fields.status.stringValue` is the string `status`,
      whatever else the event and the document carry: an alert is produced exactly when
      "FAIL" occurs in the status; otherwise nothing is published. */
  lemma AlertIffStatusContainsFail(data: Json, status: string, project: Option<string>, topic: Option<string>)
    requires Path(data, StatusPath) == Ok(Str(status))
    ensures GenerateAlert(data, project, topic).Ok?
    ensures GenerateAlert(data, project, topic).value.Some? <==> exists i :: Strings.OccursAt(status, "FAIL", i)
  {
  }

  /** The test is containment, not equality: any status with "FAIL" inside it alerts, and the
      receiver gets the document whose `fields.status.stringValue` still reads that status. */
  lemma AnyStatusContainingFailAlerts(data: Json, prefix: string, suffix: string,
                                      project: Option<string>, topic: Option<string>)
    requires Path(data, StatusPath) == Ok(Str(prefix + "FAIL" + suffix))
    ensures var r := GenerateAlert(data, project, topic);
            && r.Ok? && r.value.Some?
            && Path(r.value.value.message, StatusPath[1..]) == Ok(Str(prefix + "FAIL" + suffix))
  {
    var status := prefix + "FAIL" + suffix;
    assert status[|prefix|..|prefix| + 4] == "FAIL";
    assert Strings.OccursAt(status, "FAIL", |prefix|);
    AlertIffStatusContainsFail(data, status, project, topic);
    assert ["value"] + StatusPath[1..] == StatusPath;
    PathConcat(data, ["value"], StatusPath[1..]);
  }

  /** "PASS", the other status the analyzer writes, never alerts. */
  lemma PassDoesNotAlert(data: Json, project: Option<string>, topic: Option<string>)
    requires Path(data, StatusPath) == Ok(Str("PASS"))
    ensures GenerateAlert(data, project, topic) == Ok(None)
  {
    AlertIffStatusContainsFail(data, "PASS", project, topic);
    assert "PASS"[..4][0] != "FAIL"[0];
    assert !Strings.Contains("PASS", "FAIL");
  }

  /** Distinct projects (whose identifiers never contain `/`) and topics give distinct topic
      names. */
  lemma TopicPathInjective(project1: string, topic1: string, project2: string, topic2: string)
    requires '/' !in project1 && '/' !in project2
    requires TopicPath(Some(project1), Some(topic1)) == TopicPath(Some(project2), Some(topic2))
    ensures project1 == project2 && topic1 == topic2
  {
    var p1, p2 := TopicPath(Some(project1), Some(topic1)), TopicPath(Some(project2), Some(topic2));
    assert p1[9..] == project1 + ['/'] + ("topics/" + topic1);
    assert p2[9..] == project2 + ['/'] + ("topics/" + topic2);
    Strings.JoinInjective(project1, "topics/" + topic1, project2, "topics/" + topic2, '/');
    assert topic1 == ("topics/" + topic1)[7..];
    assert topic2 == ("topics/" + topic2)[7..];
  }

  /** The running function instance: the publisher client it creates lazily on its first alert
      and keeps for later invocations, and the messages it has handed to that client. */
  class AlerterInstance {
    var hasPublishClient: bool
    var published: seq<Alert>

    constructor ()
      ensures !hasPublishClient && published == []
    {
      hasPublishClient := false;
      published := [];
    }

    /** One invocation of `generate_alert`. It returns the exception raised, if any. A client
        is created and a message published only when an alert is produced. */
    method HandleEvent(data: Json, project: Option<string>, topic: Option<string>) returns (raised: Option<Error>)
      modifies this
      ensures var r := GenerateAlert(data, project, topic);
              raised == if r.Err? then Some(r.error) else None
      ensures var r := GenerateAlert(data, project, topic);
              if r.Ok? && r.value.Some? then
                hasPublishClient && published == old(published) + [r.value.value]
              else
                hasPublishClient == old(hasPublishClient) && published == old(published)
    {
      var r := GenerateAlert(data, project, topic);
      if r.Err? {
        return Some(r.error);
      }
      if r.value.Some? {
        if !hasPublishClient {
          hasPublishClient := true;
        }
        published := published + [r.value.value];
      }
      return None;
    }
  }
}
