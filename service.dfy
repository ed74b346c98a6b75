/** Both handler variants and the self-test wired to the Snowflake sender as
    the source wires them: `send_snowflake_email(subject, body)`, without a
    recipients argument, reading the process environment. */
module Service {
  import opened Payload
  import opened Webhook
  import Sender
  import AlertmanagerHook
  import GrafanaHook

  /** The environment names the three credentials and a target address. */
  predicate Configured(env: Sender.Env) {
    Sender.HasCredentials(env) && Sender.IsSet(env, "TARGET_EMAIL")
  }

  /** The sender's boolean for a given environment. */
  function Deliver(env: Sender.Env): (send: (string, string) -> bool)
    ensures forall s, b :: send(s, b) <==> Configured(env)
  {
    (s: string, b: string) => Sender.SendEmail(env, s, b, None).Called?
  }

  /** A legacy alert in the alerting state is sent with its title as subject. */
  lemma LegacyAlertingIsSent(env: Sender.Env, renderedAt: string, details: string, repliedAt: string)
    ensures var body := JObject(map["title" := JString("CPU High"), "state" := JString("alerting"),
                                    "message" := JString("CPU at 95%")]);
      var out := GrafanaHook.GrafanaWebhook(body, Deliver(env), renderedAt, details, repliedAt);
      && out.Replied? && out.sent.Some?
      && out.sent.value.subject == "[ALERT] Docker Monitoring: " + "CPU High"
      && (out.reply.status == Success <==> Configured(env))
      && (out.reply.status == Error <==> !Configured(env))
  {
    GrafanaHook.AlertingCase();
    var fields := map["title" := JString("CPU High"), "state" := JString("alerting"),
                      "message" := JString("CPU at 95%")];
    assert "ruleName" !in fields && "ruleUrl" !in fields;
    assert GrafanaHook.StateOf(fields) == Ok("alerting");
    assert GrafanaHook.ReadAlert(fields) == Ok(GrafanaHook.LegacyAlert("CPU High", "alerting", "CPU at 95%", "CPU High", ""));
  }

  /** The same alert in the "ok" state is skipped and the sender is not called. */
  lemma LegacyOkIsSkipped(env: Sender.Env, renderedAt: string, details: string, repliedAt: string)
    ensures var body := JObject(map["title" := JString("CPU High"), "state" := JString("ok"),
                                    "message" := JString("CPU at 95%")]);
      var out := GrafanaHook.GrafanaWebhook(body, Deliver(env), renderedAt, details, repliedAt);
      && out.Replied? && out.sent.None? && out.reply.status == Skipped
      && out.reply.message == "Email not sent for state: " + "ok"
  {
  }

  /** The self-test sends its fixed subject and succeeds exactly when the sender is configured. */
  lemma SelfTestReportsConfiguration(env: Sender.Env, renderedAt: string, repliedAt: string)
    ensures var out := TestWebhook(env, Deliver(env), renderedAt, repliedAt);
      && out.sent.value.subject == "[TEST] Email from Docker Monitoring"
      && (out.reply.status == Success <==> Configured(env))
  {
  }

  /** Every Alertmanager notification that can be read is sent, and reports
      success exactly when the sender is configured. */
  lemma GroupNotificationAlwaysSent(env: Sender.Env, body: JValue, repliedAt: string)
    requires body.JObject? && "alerts" in body.fields && AlertmanagerHook.Readable(body.fields)
    ensures var out := AlertmanagerHook.GrafanaWebhook(body, Deliver(env), repliedAt);
      && out.Replied? && out.sent.Some?
      && (out.reply.status == Success <==> Configured(env))
  {
  }

  /** Without credentials no endpoint ever reports success. */
  lemma NoCredentialsNoSuccess(env: Sender.Env, body: JValue, renderedAt: string, details: string, repliedAt: string)
    requires !Sender.HasCredentials(env)
    ensures var out := AlertmanagerHook.GrafanaWebhook(body, Deliver(env), repliedAt);
      out.Replied? ==> out.reply.status == Error
    ensures var out := GrafanaHook.GrafanaWebhook(body, Deliver(env), renderedAt, details, repliedAt);
      out.Replied? ==> out.reply.status != Success
    ensures TestWebhook(env, Deliver(env), renderedAt, repliedAt).reply.status == Error
  {
    assert !Configured(env);
  }
}
