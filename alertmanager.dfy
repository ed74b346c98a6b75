/** `POST /webhook/grafana` of the Alertmanager variant
    (monitoring_config/app/main.py): a grouped Alertmanager notification is
    recognised by its top-level `alerts` key, its common labels and
    annotations are read with fixed defaults, and one e-mail is sent for the
    whole group, with no suppression. */
module AlertmanagerHook {
  import opened Payload
  import opened Text
  import opened Webhook

  /** What the handler extracts from a group notification. */
  datatype GroupAlert = GroupAlert(
    alertName: string,
    instance: string,
    severity: string,
    host: string,
    summary: string,
    description: string,
    firingCount: nat)

  /** `instance.split(':')[0] if ':' in instance else instance` */
  function HostOf(instance: string): (host: string)
    ensures ':' !in instance ==> host == instance
    ensures ':' in instance ==> host < instance && ':' !in host && instance[|host|] == ':'
  {
    if ':' in instance then BeforeFirst(instance, ':') else instance
  }

  lemma HostExamples()
    ensures HostOf("10.0.0.5:9100") == "10.0.0.5"
    ensures HostOf("hostname") == "hostname"
  {
    assert "10.0.0.5:9100" == "10.0.0.5" + [':'] + "9100";
    BeforeFirstOfJoin("10.0.0.5", ':', "9100");
  }

  /** `a.get('status') == 'firing'` for a member alert `a` that is a dict. */
  predicate IsFiring(a: JValue) {
    a.JObject? && "status" in a.fields && a.fields["status"] == JString("firing")
  }

  /** `len([a for a in alerts if a.get('status') == 'firing'])` */
  function CountFiring(alerts: seq<JValue>): (n: nat)
    ensures n <= |alerts|
  {
    if alerts == [] then 0
    else CountFiring(alerts[..|alerts| - 1]) + (if IsFiring(alerts[|alerts| - 1]) then 1 else 0)
  }

  /** The positions of the firing member alerts. */
  ghost function FiringIndices(alerts: seq<JValue>): set<int> {
    set i | 0 <= i < |alerts| && IsFiring(alerts[i])
  }

  /** The count is the number of member alerts whose status is exactly "firing". */
  lemma {:induction false} CountFiringCountsFiringAlerts(alerts: seq<JValue>)
    ensures CountFiring(alerts) == |FiringIndices(alerts)|
  {
    if alerts != [] {
      var n := |alerts| - 1;
      var init := alerts[..n];
      CountFiringCountsFiringAlerts(init);
      assert forall i :: 0 <= i < n ==> init[i] == alerts[i];
      if IsFiring(alerts[n]) {
        assert FiringIndices(alerts) == FiringIndices(init) + {n};
      } else {
        assert FiringIndices(alerts) == FiringIndices(init);
      }
    }
  }

  /** Iterating `alerts` and calling `.get` on each element succeeds: a list
      of dicts, or an empty dict or string (which yield nothing to iterate). */
  predicate Iterable(alerts: JValue) {
    match alerts
    case JArray(items) => forall i :: 0 <= i < |items| ==> items[i].JObject?
    case JObject(m) => |m| == 0
    case JString(s) => s == ""
    case JScalar => false
  }

  function FiringCount(alerts: JValue): (r: Result<nat>)
    ensures r.Ok? <==> Iterable(alerts)
    ensures r.Ok? && alerts.JArray? ==> r.value == CountFiring(alerts.items) && r.value <= |alerts.items|
    ensures r.Ok? && !alerts.JArray? ==> r.value == 0
  {
    match alerts
    case JArray(items) =>
      if forall i :: 0 <= i < |items| ==> items[i].JObject? then Ok(CountFiring(items))
      else Err(ElementNotAMapping("alerts"))
    case JObject(m) => if |m| == 0 then Ok(0) else Err(ElementNotAMapping("alerts"))
    case JString(s) => if s == "" then Ok(0) else Err(ElementNotAMapping("alerts"))
    case JScalar => Err(NotIterable("alerts"))
  }

  /** Every field the handler reads has a type it can use. */
  predicate Readable(payload: map<string, JValue>) {
    var labels := GroupOf(payload, "commonLabels");
    var notes := GroupOf(payload, "commonAnnotations");
    && ObjectOrMissing(payload, "commonLabels")
    && ObjectOrMissing(payload, "commonAnnotations")
    && TextOrMissing(labels, "alertname") && TextOrMissing(labels, "instance")
    && TextOrMissing(labels, "severity")
    && TextOrMissing(notes, "summary") && TextOrMissing(notes, "description")
    && Iterable(Get(payload, "alerts", JArray([])))
  }

  /** Lines 63-79: the labels and annotations with their defaults, the host and the firing count. */
  function ReadAlert(payload: map<string, JValue>): (r: Result<GroupAlert>)
    ensures r.Ok? <==> Readable(payload)
    ensures r.Ok? ==>
      var labels := GroupOf(payload, "commonLabels");
      var notes := GroupOf(payload, "commonAnnotations");
      && r.value.alertName == StringOr(labels, "alertname", "Unknown Alert")
      && r.value.instance == StringOr(labels, "instance", "Unknown")
      && r.value.severity == StringOr(labels, "severity", "warning")
      && r.value.summary == StringOr(notes, "summary", "No summary")
      && r.value.description == StringOr(notes, "description", "No description")
      && r.value.host == HostOf(r.value.instance)
      && r.value.firingCount == FiringCount(Get(payload, "alerts", JArray([]))).value
  {
    var labels :- ObjectField(payload, "commonLabels");
    var alertName :- TextField(labels, "alertname", "Unknown Alert");
    var instance :- TextField(labels, "instance", "Unknown");
    var severity :- TextField(labels, "severity", "warning");
    var notes :- ObjectField(payload, "commonAnnotations");
    var summary :- TextField(notes, "summary", "No summary");
    var description :- TextField(notes, "description", "No description");
    var firing :- FiringCount(Get(payload, "alerts", JArray([])));
    Ok(GroupAlert(alertName, instance, severity, HostOf(instance), summary, description, firing))
  }

  function Subject(a: GroupAlert): string {
    "[" + Upper(a.severity) + "] " + a.alertName + " - " + a.host
  }

  function Body(a: GroupAlert): string {
    "\nDocker Monitoring Alert\n========================\n\nSummary:\n" + a.summary
    + "\n\nDescription:\n" + a.description
    + "\n\n---\nThis is an automated alert from Docker Monitoring System.\n"
    + "Please review and address the issue.\n\nRegard,\nData Team\n"
  }

  /** `POST /webhook/grafana`. Without an `alerts` key the subject is never
      bound, so the request always ends in the 500 path. */
  function GrafanaWebhook(body: JValue, send: (string, string) -> bool, repliedAt: string): (out: Outcome)
    ensures out.Replied? <==> body.JObject? && "alerts" in body.fields && ReadAlert(body.fields).Ok?
    ensures body.JObject? && "alerts" !in body.fields ==> out == ServerError(SubjectUnbound)
    ensures out.Replied? ==>
      var a := ReadAlert(body.fields).value;
      out.sent == Some(Email(Subject(a), Body(a)))
    ensures out.Replied? ==>
      && out.reply.status != Skipped
      && (out.reply.status == Success <==> send(out.sent.value.subject, out.sent.value.body))
      && out.reply.timestamp == Some(repliedAt)
  {
    if !body.JObject? then ServerError(NotAnObject)
    else if "alerts" !in body.fields then ServerError(SubjectUnbound)
    else
      match ReadAlert(body.fields)
      case Err(f) => ServerError(f)
      case Ok(a) =>
        var mail := Email(Subject(a), Body(a));
        var reply :=
          if send(mail.subject, mail.body) then
            Reply(Success, "Alert email sent via Snowflake", None, None, Some(repliedAt))
          else
            Reply(Error, "Failed to send email via Snowflake", None, None, Some(repliedAt));
        Replied(reply, Some(mail))
  }

  /** The subject names the severity in capitals, the alert name and the host,
      each taken from `commonLabels` or its default. */
  lemma SubjectFromLabels(body: JValue, send: (string, string) -> bool, repliedAt: string)
    requires GrafanaWebhook(body, send, repliedAt).Replied?
    ensures var labels := GroupOf(body.fields, "commonLabels");
      GrafanaWebhook(body, send, repliedAt).sent.value.subject
        == "[" + Upper(StringOr(labels, "severity", "warning")) + "] "
           + StringOr(labels, "alertname", "Unknown Alert") + " - "
           + HostOf(StringOr(labels, "instance", "Unknown"))
  {
  }

  /** The body quotes the summary and the description verbatim. */
  lemma BodyQuotesAnnotations(a: GroupAlert)
    ensures Infix(a.summary, Body(a)) && Infix(a.description, Body(a))
  {
    var p1 := "\nDocker Monitoring Alert\n========================\n\nSummary:\n";
    var p2 := "\n\nDescription:\n";
    var p3 := "\n\n---\nThis is an automated alert from Docker Monitoring System.\n";
    var p4 := "Please review and address the issue.\n\nRegard,\nData Team\n";
    assert a.summary <= a.summary;
    InfixPrepend(a.summary, p1, a.summary);
    InfixAppend(a.summary, p1 + a.summary, p2);
    InfixAppend(a.summary, p1 + a.summary + p2, a.description);
    InfixAppend(a.summary, p1 + a.summary + p2 + a.description, p3);
    InfixAppend(a.summary, p1 + a.summary + p2 + a.description + p3, p4);
    assert a.description <= a.description;
    InfixPrepend(a.description, p1 + a.summary + p2, a.description);
    InfixAppend(a.description, p1 + a.summary + p2 + a.description, p3);
    InfixAppend(a.description, p1 + a.summary + p2 + a.description + p3, p4);
  }

  /** The e-mail does not depend on the member alerts: two notifications that
      differ only in `alerts` send the same subject and body. */
  lemma EmailIgnoresMemberAlerts(p: map<string, JValue>, q: map<string, JValue>,
                                 send: (string, string) -> bool, repliedAt: string)
    requires p - {"alerts"} == q - {"alerts"}
    requires GrafanaWebhook(JObject(p), send, repliedAt).Replied?
    requires GrafanaWebhook(JObject(q), send, repliedAt).Replied?
    ensures GrafanaWebhook(JObject(p), send, repliedAt).sent == GrafanaWebhook(JObject(q), send, repliedAt).sent
  {
    assert GroupOf(p, "commonLabels") == GroupOf(q, "commonLabels") by {
      assert ("commonLabels" in p) == ("commonLabels" in p - {"alerts"});
      assert ("commonLabels" in q) == ("commonLabels" in q - {"alerts"});
    }
    assert GroupOf(p, "commonAnnotations") == GroupOf(q, "commonAnnotations") by {
      assert ("commonAnnotations" in p) == ("commonAnnotations" in p - {"alerts"});
      assert ("commonAnnotations" in q) == ("commonAnnotations" in q - {"alerts"});
    }
  }

  /** A notification with nothing but an empty `alerts` list is sent with every default. */
  lemma AllDefaults(send: (string, string) -> bool, repliedAt: string)
    ensures var payload := map["alerts" := JArray([])];
      var out := GrafanaWebhook(JObject(payload), send, repliedAt);
      && ReadAlert(payload)
           == Ok(GroupAlert("Unknown Alert", "Unknown", "warning", "Unknown", "No summary", "No description", 0))
      && out.Replied?
      && out.sent.value.subject == "[" + Upper("warning") + "] " + "Unknown Alert" + " - " + "Unknown"
  {
  }
}
