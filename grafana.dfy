/** `POST /webhook/grafana` of the legacy Grafana variant (app/main.py): a
    single legacy alert is read with fixed defaults, every state other than
    "alerting" (compared without regard to case) is skipped, and otherwise
    one e-mail is sent. */
module GrafanaHook {
  import opened Payload
  import opened Text
  import opened Webhook

  datatype LegacyAlert = LegacyAlert(
    title: string,
    state: string,
    message: string,
    ruleName: string,
    ruleUrl: string)

  /** `state.lower() != "alerting"` is the suppression test; its negation. */
  predicate ShouldNotify(state: string) {
    Lower(state) == "alerting"
  }

  lemma AlertingCase()
    ensures Lower("alerting") == "alerting"
    ensures Upper("alerting") == "ALERTING"
  {
    assert forall i :: 0 <= i < 8 ==> LowerChar("alerting"[i]) == "alerting"[i];
    assert forall i :: 0 <= i < 8 ==> UpperChar("alerting"[i]) == "ALERTING"[i];
  }

  /** The test ignores case, and a state that merely contains "alerting" is skipped. */
  lemma SuppressionIgnoresCase()
    ensures ShouldNotify("alerting") && ShouldNotify("ALERTING") && ShouldNotify("Alerting")
    ensures !ShouldNotify("ok") && !ShouldNotify("no_data") && !ShouldNotify("alerting ")
  {
    AlertingCase();
    assert Lower("ALERTING") == Lower("alerting") by {
      assert forall i :: 0 <= i < 8 ==> LowerChar("ALERTING"[i]) == "alerting"[i];
    }
    assert Lower("Alerting") == Lower("alerting") by {
      assert forall i :: 0 <= i < 8 ==> LowerChar("Alerting"[i]) == "alerting"[i];
    }
    assert |Lower("alerting ")| == 9;
  }

  /** On the send path the state upper-cases to exactly "ALERTING". */
  lemma AlertingUpper(state: string)
    requires ShouldNotify(state)
    ensures Upper(state) == "ALERTING"
  {
    AlertingCase();
    SameLowerSameUpper(state, "alerting");
  }

  /** Every field read is absent or a string. */
  predicate Readable(payload: map<string, JValue>) {
    && TextOrMissing(payload, "title") && TextOrMissing(payload, "state")
    && TextOrMissing(payload, "message") && TextOrMissing(payload, "ruleName")
    && TextOrMissing(payload, "ruleUrl")
  }

  /** Lines 61-65: the five fields with their defaults; the rule name falls back to the title. */
  function ReadAlert(payload: map<string, JValue>): (r: Result<LegacyAlert>)
    ensures r.Ok? <==> Readable(payload)
    ensures r.Ok? ==>
      && r.value.title == StringOr(payload, "title", "Grafana Alert")
      && r.value.state == StringOr(payload, "state", "alerting")
      && r.value.message == StringOr(payload, "message", "No message provided")
      && r.value.ruleName == StringOr(payload, "ruleName", r.value.title)
      && r.value.ruleUrl == StringOr(payload, "ruleUrl", "")
  {
    var title :- TextField(payload, "title", "Grafana Alert");
    var state :- TextField(payload, "state", "alerting");
    var message :- TextField(payload, "message", "No message provided");
    var ruleName :- TextField(payload, "ruleName", title);
    var ruleUrl :- TextField(payload, "ruleUrl", "");
    Ok(LegacyAlert(title, state, message, ruleName, ruleUrl))
  }

  function Subject(a: LegacyAlert): string {
    "[ALERT] Docker Monitoring: " + a.ruleName
  }

  /** The dashboard line of the body: present only for a non-empty URL. */
  function DashboardLine(ruleUrl: string): string {
    if ruleUrl != "" then "Dashboard: " + ruleUrl else ""
  }

  function BodyHead(a: LegacyAlert): string {
    "\nDocker Monitoring Alert from Grafana\n=====================================\n\n"
    + "Status: " + Upper(a.state)
    + "\nAlert: " + a.ruleName
    + "\nMessage: " + a.message + "\n\n"
  }

  /** `details` is the Python rendering of the whole payload (`{payload}`). */
  function BodyTail(renderedAt: string, details: string): string {
    "\n\nTimestamp: " + renderedAt
    + "\n\n---\nFull Alert Details:\n" + details
    + "\n\n---\nThis is an automated message from Docker Monitoring System.\n"
    + "Please review and address the issue.\n\nRegards,\nMonitoring Team\n        "
  }

  function Body(a: LegacyAlert, renderedAt: string, details: string): string {
    BodyHead(a) + DashboardLine(a.ruleUrl) + BodyTail(renderedAt, details)
  }

  /** The `state` value the handler tests, when it is readable. */
  function StateOf(payload: map<string, JValue>): Result<string> {
    TextField(payload, "state", "alerting")
  }

  /** `POST /webhook/grafana`. */
  function GrafanaWebhook(body: JValue, send: (string, string) -> bool,
                          renderedAt: string, details: string, repliedAt: string): (out: Outcome)
    ensures !body.JObject? ==> out == ServerError(NotAnObject)
    ensures out.ServerError? <==>
      || !body.JObject? || StateOf(body.fields).Err?
      || (ShouldNotify(StateOf(body.fields).value) && !Readable(body.fields))
    ensures out.Replied? ==> (out.sent.None? <==> out.reply.status == Skipped)
    ensures out.Replied? && out.sent.Some? ==>
      && body.JObject? && StateOf(body.fields).Ok? && ShouldNotify(StateOf(body.fields).value)
      && ReadAlert(body.fields).Ok?
      && var a := ReadAlert(body.fields).value;
      && out.sent.value == Email(Subject(a), Body(a, renderedAt, details))
      && (out.reply.status == Success <==> send(out.sent.value.subject, out.sent.value.body))
      && out.reply.alert == Some(a.ruleName) && out.reply.state == Some(a.state)
      && out.reply.timestamp == Some(repliedAt)
    ensures body.JObject? && Readable(body.fields) && StateOf(body.fields).Ok?
            && ShouldNotify(StateOf(body.fields).value)
            ==> out.Replied? && out.sent.Some?
  {
    if !body.JObject? then ServerError(NotAnObject)
    else
      match StateOf(body.fields)
      case Err(f) => ServerError(f)
      case Ok(state) =>
        if !ShouldNotify(state) then
          Replied(Reply(Skipped, "Email not sent for state: " + state, None, None, None), None)
        else
          match ReadAlert(body.fields)
          case Err(f) => ServerError(f)
          case Ok(a) =>
            var mail := Email(Subject(a), Body(a, renderedAt, details));
            var reply :=
              if send(mail.subject, mail.body) then
                Reply(Success, "Alert email sent via Snowflake", Some(a.ruleName), Some(a.state), Some(repliedAt))
              else
                Reply(Error, "Failed to send email via Snowflake", Some(a.ruleName), Some(a.state), Some(repliedAt));
            Replied(reply, Some(mail))
  }

  /** Any readable state other than "alerting", in any case, is skipped and
      reported, whatever the rest of the payload holds, and nothing is sent. */
  lemma SkippedUnlessAlerting(fields: map<string, JValue>, send: (string, string) -> bool,
                              renderedAt: string, details: string, repliedAt: string)
    requires StateOf(fields).Ok? && !ShouldNotify(StateOf(fields).value)
    ensures GrafanaWebhook(JObject(fields), send, renderedAt, details, repliedAt)
            == Replied(Reply(Skipped, "Email not sent for state: " + StateOf(fields).value, None, None, None), None)
  {
  }

  /** A payload without `state` is treated as alerting and is sent. */
  lemma MissingStateIsSent(fields: map<string, JValue>, send: (string, string) -> bool,
                           renderedAt: string, details: string, repliedAt: string)
    requires "state" !in fields && Readable(fields)
    ensures var out := GrafanaWebhook(JObject(fields), send, renderedAt, details, repliedAt);
            out.Replied? && out.sent.Some?
  {
  }

  /** The subject names the rule: `ruleName`, else `title`, else "Grafana Alert". */
  lemma SubjectNamesRule(body: JValue, send: (string, string) -> bool,
                         renderedAt: string, details: string, repliedAt: string)
    requires GrafanaWebhook(body, send, renderedAt, details, repliedAt).Replied?
    requires GrafanaWebhook(body, send, renderedAt, details, repliedAt).sent.Some?
    ensures GrafanaWebhook(body, send, renderedAt, details, repliedAt).sent.value.subject
            == "[ALERT] Docker Monitoring: "
               + StringOr(body.fields, "ruleName", StringOr(body.fields, "title", "Grafana Alert"))
  {
  }

  /** The status line of every sent body reads "Status: ALERTING", and the
      rule name and the message appear verbatim. */
  lemma SentBodyContents(a: LegacyAlert, renderedAt: string, details: string)
    requires ShouldNotify(a.state)
    ensures Infix("Status: " + "ALERTING", Body(a, renderedAt, details))
    ensures Infix(a.ruleName, Body(a, renderedAt, details)) && Infix(a.message, Body(a, renderedAt, details))
  {
    AlertingUpper(a.state);
    var banner := "\nDocker Monitoring Alert from Grafana\n=====================================\n\n";
    var status := "Status: " + Upper(a.state);
    var rest := DashboardLine(a.ruleUrl) + BodyTail(renderedAt, details);
    var h1 := banner + status;
    var h2 := h1 + "\nAlert: " + a.ruleName;
    var h3 := h2 + "\nMessage: " + a.message;
    assert BodyHead(a) == h3 + "\n\n";
    assert Body(a, renderedAt, details) == h3 + "\n\n" + DashboardLine(a.ruleUrl) + BodyTail(renderedAt, details);
    // the status line
    InfixPrepend(status, banner, status);
    InfixAppend(status, h1, "\nAlert: ");
    InfixAppend(status, h1 + "\nAlert: ", a.ruleName);
    InfixAppend(status, h2, "\nMessage: ");
    InfixAppend(status, h2 + "\nMessage: ", a.message);
    InfixAppend(status, h3, "\n\n");
    InfixAppend(status, h3 + "\n\n", DashboardLine(a.ruleUrl));
    InfixAppend(status, h3 + "\n\n" + DashboardLine(a.ruleUrl), BodyTail(renderedAt, details));
    // the rule name
    InfixPrepend(a.ruleName, h1 + "\nAlert: ", a.ruleName);
    InfixAppend(a.ruleName, h2, "\nMessage: ");
    InfixAppend(a.ruleName, h2 + "\nMessage: ", a.message);
    InfixAppend(a.ruleName, h3, "\n\n");
    InfixAppend(a.ruleName, h3 + "\n\n", DashboardLine(a.ruleUrl));
    InfixAppend(a.ruleName, h3 + "\n\n" + DashboardLine(a.ruleUrl), BodyTail(renderedAt, details));
    // the message
    InfixPrepend(a.message, h2 + "\nMessage: ", a.message);
    InfixAppend(a.message, h3, "\n\n");
    InfixAppend(a.message, h3 + "\n\n", DashboardLine(a.ruleUrl));
    InfixAppend(a.message, h3 + "\n\n" + DashboardLine(a.ruleUrl), BodyTail(renderedAt, details));
  }

  /** The URL changes the body exactly when it is non-empty, and then only by
      inserting the line "Dashboard: <url>" after the message section. */
  lemma DashboardLineOnlyWithUrl(a: LegacyAlert, renderedAt: string, details: string)
    ensures var plain := Body(a.(ruleUrl := ""), renderedAt, details);
      && (Body(a, renderedAt, details) == plain <==> a.ruleUrl == "")
      && (a.ruleUrl != "" ==>
            var k := |BodyHead(a)|;
            k <= |plain| && Body(a, renderedAt, details) == plain[..k] + "Dashboard: " + a.ruleUrl + plain[k..])
  {
  }
}
