/** What a webhook request produces, shared by both handler variants, and
    the self-test endpoint `/webhook/test`, which is the same text in both
    variants. The sender is a parameter: a function from subject and body to
    the boolean `send_snowflake_email` returns. */
module Webhook {
  import opened Payload
  import opened Text
  import Sender

  datatype Status = Success | Error | Skipped

  /** The JSON object a handler returns with HTTP 200. Keys the source does
      not put in a given response are `None`. */
  datatype Reply = Reply(
    status: Status,
    message: string,
    alert: Option<string>,
    state: Option<string>,
    timestamp: Option<string>)

  datatype Email = Email(subject: string, body: string)

  /** A request either gets a reply (and `sent` records the one call made to
      the sender, if any) or ends in the `except` clause with HTTP 500; no
      path that raises has called the sender. */
  datatype Outcome =
    | Replied(reply: Reply, sent: Option<Email>)
    | ServerError(fault: Fault)

  const TestSubject: string := "[TEST] Email from Docker Monitoring"

  /** The self-test body; unset variables are shown with fixed placeholders. */
  function TestBody(env: Sender.Env, renderedAt: string): string {
    TestBodyHead(env, renderedAt) + IntegrationLine(env) + TestBodyTail(env)
  }

  function IntegrationLine(env: Sender.Env): string {
    "- Email Integration: " + Sender.GetenvOr(env, "SNOWFLAKE_EMAIL_INTEGRATION", "my_email_int") + "\n"
  }

  function TestBodyHead(env: Sender.Env, renderedAt: string): string {
    "\nThis is a test email from the Docker Monitoring System.\n\n"
    + "If you receive this email, the Snowflake email integration is working correctly!\n\n"
    + "Timestamp: " + renderedAt + "\n\n"
    + "Configuration:\n"
    + "- Snowflake Account: " + Sender.GetenvOr(env, "SNOWFLAKE_ACCOUNT", "Not set") + "\n"
    + "- Snowflake User: " + Sender.GetenvOr(env, "SNOWFLAKE_USER", "Not set") + "\n"
  }

  function TestBodyTail(env: Sender.Env): string {
    "- Target Email: " + Sender.GetenvOr(env, "TARGET_EMAIL", "Not set") + "\n"
    + "- Role: " + Sender.GetenvOr(env, "SNOWFLAKE_ROLE", "Default role") + "\n"
    + "\n---\nThis is an automated test message from Docker Monitoring System.\n    "
  }

  /** `POST /webhook/test`: always sends the fixed subject, and reports the sender's result. */
  function TestWebhook(env: Sender.Env, send: (string, string) -> bool, renderedAt: string, repliedAt: string)
    : (out: Outcome)
    ensures out.Replied? && out.sent == Some(Email(TestSubject, TestBody(env, renderedAt)))
    ensures out.reply.status == Success <==> send(TestSubject, TestBody(env, renderedAt))
    ensures out.reply.status != Skipped && out.reply.timestamp == Some(repliedAt)
    ensures out.reply.alert.None? && out.reply.state.None?
  {
    var body := TestBody(env, renderedAt);
    var reply :=
      if send(TestSubject, body) then
        Reply(Success, "Test email sent successfully via Snowflake", None, None, Some(repliedAt))
      else
        Reply(Error, "Failed to send test email. Check logs for details.", None, None, Some(repliedAt));
    Replied(reply, Some(Email(TestSubject, body)))
  }

  /** With the integration variable unset, the test e-mail names "my_email_int"
      while the sender actually calls "docker_monitoring_email_int". */
  lemma TestBodyIntegrationDisagrees(env: Sender.Env, renderedAt: string)
    requires "SNOWFLAKE_EMAIL_INTEGRATION" !in env
    ensures Infix("- Email Integration: " + "my_email_int" + "\n", TestBody(env, renderedAt))
    ensures Sender.Integration(env) == "docker_monitoring_email_int"
  {
    var p := TestBodyHead(env, renderedAt);
    var q := TestBodyTail(env);
    assert IntegrationLine(env) == "- Email Integration: " + "my_email_int" + "\n";
    InfixPrepend(IntegrationLine(env), p, IntegrationLine(env));
    InfixAppend(IntegrationLine(env), p + IntegrationLine(env), q);
  }
}
