# Docker monitoring alert webhooks — a Dafny model

This project models the alert-handling core of the Docker monitoring alert API.
Grafana or Alertmanager posts a JSON notification to `/webhook/grafana`. The
handler turns it into an e-mail subject and body. It then hands them to
`send_snowflake_email`, which sends the mail by calling the Snowflake stored
procedure `SYSTEM$SEND_EMAIL`. The repository has two variants of the handler:

- `monitoring_config/app/main.py` handles Alertmanager group notifications. A
  request is recognised by its top-level `alerts` key. The handler reads
  `commonLabels` and `commonAnnotations` with fixed defaults, cuts the host out
  of `instance`, counts the firing member alerts, and always sends.
- `app/main.py` handles the legacy Grafana format. It reads `title`, `state`,
  `message`, `ruleName` and `ruleUrl` with defaults. It skips every state that
  is not "alerting" (the comparison ignores case) and sends otherwise.

Both variants have the same `/webhook/test` self-test endpoint.
`app/snowflake_service.py` refuses to send when credentials or a recipient are
missing. It picks the recipient and escapes quotes in the subject and body
before building the SQL text.

Modules:

- `Payload` (payload.dfy): the decoded request body (`JValue`), and the
  `.get(key, default)` lookups with the faults they can raise.
- `Text` (text.dfy): `lower`, `upper`, `split(':')[0]`, and substring containment.
- `Sender` (sender.dfy): `send_snowflake_email`. It covers the guards, the
  recipient precedence, the connection parameters, the `'` → `''` escaping, and
  the SQL text together with how Snowflake reads its quoted literals back
  (doubled quotes and backslash escapes).
- `Webhook` (webhook.dfy): the reply record shared by both variants and the
  self-test endpoint.
- `AlertmanagerHook` (alertmanager.dfy) and `GrafanaHook` (grafana.dfy): the two
  `/webhook/grafana` handlers.
- `Service` (service.dfy): the handlers wired to the sender model, with
  end-to-end scenarios.

Each handler is a pure function of four things: the decoded body, a `send`
function standing for `send_snowflake_email(subject, body)`, the timestamps it
would read from the clock, and (legacy variant only) the Python rendering of
the payload. It returns either `Replied(reply, sent)` or `ServerError(fault)`.
`Replied` means HTTP 200 with `reply` as its JSON, and `sent` records the one
call made to the sender, if any. `ServerError` is the `except` clause's HTTP 500.

In the legacy handler, `state.lower()` is modelled as lower-casing ASCII letters
only. For the one comparison the source makes (`== "alerting"`), this gives the
same answer as Python's full Unicode `lower()`. The reason: no non-ASCII
character lower-cases to a single one of the letters a, e, g, i, l, n, r, t.

Notable behaviour of the code:

- The code has no uniform suppression. The Alertmanager variant sends every
  notification it can read, whatever the statuses of its member alerts.
- The code never normalises `state` into an enumeration. The legacy variant
  compares the raw string, lower-cased.
- The code never parses the embedded payload dump back. It is Python's `repr`,
  not JSON, so the model claims no round trip for it.
- An Alertmanager-variant body without the `alerts` key does not go to the
  legacy extraction. It fails with an unbound `email_subject` (HTTP 500).

## Model

| member | source | states |
|---|---|---|
| `Text.Lower` | app/main.py:68 | `state.lower()` keeps the length and lower-cases each ASCII letter in place |
| `Text.Upper` | monitoring_config/app/main.py:82 | `severity.upper()` keeps the length and upper-cases each ASCII letter in place |
| `Text.UpperOfLower` | app/main.py:81 | upper-casing after lower-casing is the same as upper-casing directly |
| `Text.SameLowerSameUpper` | app/main.py:68-81 | two strings equal without regard to case upper-case to the same text |
| `Text.BeforeFirst` | monitoring_config/app/main.py:73 | `split(':')[0]` is a prefix with no `:`; when `:` occurs, it stops right at the first one; otherwise it is the whole string |
| `Text.BeforeFirstOfJoin` | monitoring_config/app/main.py:73 | splitting `part + ":" + rest`, where `part` has no `:`, gives `part` back |
| `AlertmanagerHook.HostOf` | monitoring_config/app/main.py:73 | the host equals `instance` when it has no `:`; otherwise it is the proper prefix before the first `:`, and it contains no `:` |
| `AlertmanagerHook.HostExamples` | monitoring_config/app/main.py:73 | "10.0.0.5:9100" gives host "10.0.0.5"; "hostname" gives "hostname" |
| `AlertmanagerHook.CountFiring` | monitoring_config/app/main.py:79 | the firing count is at most the number of member alerts |
| `AlertmanagerHook.CountFiringCountsFiringAlerts` | monitoring_config/app/main.py:79 | the count equals the number of positions whose element is a dict with `status` exactly "firing" (case-sensitive) |
| `AlertmanagerHook.FiringCount` | monitoring_config/app/main.py:63-79 | iterating `alerts` succeeds exactly for a list of dicts, an empty dict or an empty string; for a list the count is `CountFiring`, otherwise 0 |
| `AlertmanagerHook.ReadAlert` | monitoring_config/app/main.py:63-79 | reading succeeds exactly when every field read has a usable type; missing labels fall back to "Unknown Alert", "Unknown" and "warning", missing annotations to "No summary" and "No description"; host and firing count are derived as above |
| `AlertmanagerHook.GrafanaWebhook` | monitoring_config/app/main.py:51-120 | the Alertmanager path is taken only when the body has a top-level `alerts` key; without it the request always ends in HTTP 500 and nothing is sent; every readable notification is sent once, with no suppression; status is "success" exactly when the sender returns true, "error" otherwise |
| `AlertmanagerHook.SubjectFromLabels` | monitoring_config/app/main.py:67-82 | `Subject` (the f-string at line 82): the subject is "[" + upper(severity) + "] " + alert name + " - " + host, each label taken from `commonLabels` or its default |
| `AlertmanagerHook.BodyQuotesAnnotations` | monitoring_config/app/main.py:84-100 | `Body` (the template at lines 84-100): the body contains the summary and the description verbatim |
| `AlertmanagerHook.EmailIgnoresMemberAlerts` | monitoring_config/app/main.py:79-103 | two notifications differing only in `alerts` (and so in their statuses) send the same subject and body |
| `AlertmanagerHook.AllDefaults` | monitoring_config/app/main.py:63-82 | `{"alerts": []}` reads as all defaults with host "Unknown" and no firing alerts, and is sent |
| `GrafanaHook.AlertingCase` | app/main.py:68-81 | "alerting" lower-cases to itself and upper-cases to "ALERTING" |
| `GrafanaHook.SuppressionIgnoresCase` | app/main.py:68 | `ShouldNotify` (the check at line 68): "alerting", "ALERTING" and "Alerting" are sent; "ok", "no_data" and "alerting " are skipped |
| `GrafanaHook.AlertingUpper` | app/main.py:68-81 | a state that passes the check upper-cases to exactly "ALERTING" |
| `GrafanaHook.ReadAlert` | app/main.py:61-65 | reading succeeds exactly when the five fields are absent or strings; defaults are "Grafana Alert", "alerting", "No message provided" and ""; `rule_name` is `ruleName`, else the title |
| `GrafanaHook.GrafanaWebhook` | app/main.py:51-123 | the request ends in HTTP 500 exactly when the body is not an object, its `state` is unreadable, or the state passes the check and another field is unreadable; nothing is sent exactly when the reply is "skipped"; a sent request had a state lower-casing to "alerting"; the mail is the subject and body of the read alert; status is "success" exactly when the sender returns true; the reply echoes `alert` = rule name and `state`; a readable alerting payload is always sent |
| `GrafanaHook.SkippedUnlessAlerting` | app/main.py:67-72 | a readable state other than "alerting", in any case, gives status "skipped" with message "Email not sent for state: " + state; nothing is sent, whatever the other fields hold |
| `GrafanaHook.MissingStateIsSent` | app/main.py:62-68 | a readable payload with no `state` is sent, not skipped |
| `GrafanaHook.SubjectNamesRule` | app/main.py:61-75 | `Subject` (the f-string at line 75): the subject is "[ALERT] Docker Monitoring: " + (`ruleName`, else `title`, else "Grafana Alert") |
| `GrafanaHook.SentBodyContents` | app/main.py:77-99 | `Body` (the template at lines 77-99): a sent body contains "Status: ALERTING", the rule name and the message verbatim |
| `GrafanaHook.DashboardLineOnlyWithUrl` | app/main.py:85 | `DashboardLine` (line 85): `ruleUrl` changes the body exactly when it is non-empty; it then only inserts "Dashboard: " + url after the message section |
| `Sender.Recipient` | app/snowflake_service.py:19-21 | a non-empty `recipients` argument wins; otherwise a non-empty `TARGET_EMAIL`; otherwise none; a chosen recipient is never empty |
| `Sender.ConnParams` | app/snowflake_service.py:29-35 | the connection gets account, user and password; it gets `role` exactly when `SNOWFLAKE_ROLE` is set and non-empty |
| `Sender.Escape` | app/snowflake_service.py:41-42 | escaped length = input length + number of `'` |
| `Sender.UnescapeEscape` | app/snowflake_service.py:41-42 | collapsing `''` back to `'` recovers the input |
| `Sender.EscapeWithoutQuotes` | app/snowflake_service.py:41-42 | escaping a string with no `'` leaves it unchanged |
| `Sender.EscapeKeepsOtherChars` | app/snowflake_service.py:41-42 | with quotes removed, the escaped and the original strings are equal: every other character stays, in order |
| `Sender.ScanEscaped` | app/snowflake_service.py:41-51 | an escaped text without backslashes, put between quotes, is read by Snowflake as exactly that text, and the literal closes where the source closes it |
| `Sender.EscapeLetsBackslashCloseLiteral` | app/snowflake_service.py:41-51 | the text `a\'b` escapes to `a\''b`; Snowflake reads that literal as `a'` and closes it early, leaving `b'` to be read as SQL |
| `Sender.SqlEscape` | app/snowflake_service.py:41-42 | the corrected escaping (quotes and backslashes doubled) is never shorter than its input and leaves a text with neither character unchanged |
| `Sender.SqlEscapeCharScan` | app/snowflake_service.py:41-42 | one character escaped the corrected way reads back as that character |
| `Sender.ScanSqlEscaped` | app/snowflake_service.py:41-51 | with the corrected escaping, every text put between quotes reads back as itself and the literal closes where it was closed |
| `Sender.SendEmail` | app/snowflake_service.py:6-58 | the call is made (result true) exactly when account, user and password are set and non-empty and a recipient is chosen; it then uses the connection parameters, the integration (default "docker_monitoring_email_int") and the unescaped recipient, and escapes only the subject and body |
| `Sender.NoCredentialsNoCall` | app/snowflake_service.py:11-16 | a missing or empty account, user or password returns false before any connection |
| `Sender.QueryCarriesSubjectAndBody` | app/snowflake_service.py:41-54 | `Query` (the SQL text at lines 45-52): reading the executed text from the end of its opening gives four literals in turn, the integration and recipient as they are, then the caller's subject and body, provided the integration and recipient hold no quote and none of the four holds a backslash |
| `Sender.RecipientIsNotEscaped` | app/snowflake_service.py:45-51 | a recipient `user'domain` (with `user` free of backslashes) is inserted unescaped, and its literal closes after `user` |
| `Webhook.TestWebhook` | app/main.py:125-160 | the self-test always sends subject "[TEST] Email from Docker Monitoring"; its status is "success" exactly when the sender returns true, "error" otherwise |
| `Webhook.TestBodyIntegrationDisagrees` | app/main.py:139 | with the integration unset, the test mail names "my_email_int" while the sender uses "docker_monitoring_email_int" |
| `Service.Deliver` | app/snowflake_service.py:11-21 | as the handlers call it (no recipients argument), the sender returns true exactly when the credentials and `TARGET_EMAIL` are set and non-empty |
| `Service.LegacyAlertingIsSent` | app/main.py:57-119 | `{"title":"CPU High","state":"alerting","message":"CPU at 95%"}` is sent with subject "[ALERT] Docker Monitoring: CPU High"; it succeeds exactly when the sender is configured |
| `Service.LegacyOkIsSkipped` | app/main.py:67-72 | the same payload with `"state":"ok"` is skipped, and the sender is not called |
| `Service.SelfTestReportsConfiguration` | app/main.py:147-160 | the self-test succeeds exactly when the sender is configured |
| `Service.GroupNotificationAlwaysSent` | monitoring_config/app/main.py:61-116 | every readable Alertmanager notification is sent; it succeeds exactly when the sender is configured |
| `Service.NoCredentialsNoSuccess` | app/snowflake_service.py:11-16 | without credentials, no endpoint of either variant reports success |

`monitoring_config/app/main.py:122-157` has the same self-test text as
`app/main.py:125-160`, so `Webhook.TestWebhook` models both.

## Left out

- The FastAPI application, the CORS middleware, `uvicorn.run`, and the constant
  `/` and `/health` responses. These are framework set-up.
- Decoding the request bytes. The handlers take the decoded JSON value. A body
  that is not valid JSON makes `request.json()` raise (HTTP 500); that path is
  not modelled.
- `datetime.now().isoformat()`. Each timestamp is a string parameter. The source
  reads the clock separately for the body and for the reply.
- The Python rendering of the payload in the legacy body (`{payload}`). It is an
  opaque string parameter, and no parse round trip is claimed for it.
- `os.getenv`. The environment is a map parameter, read at call time as in the
  source.
- The Snowflake connector (`connect`, `cursor`, `execute`, `close`). The model
  stops at the connection parameters and the call record and SQL text. An
  exception raised by the connector propagates out of `send_snowflake_email`.
  In `/webhook/grafana` it reaches the handler's `except` clause (HTTP 500).
  `/webhook/test` (app/main.py:147) has no `try`, so there the framework
  answers HTTP 500. The model captures neither: once the guards pass, the
  result is true.
- The `print` diagnostics and the exception text put in the HTTP 500 detail.
  `Fault` names the kind of failure instead.
- The `job` label (monitoring_config/app/main.py:70). It is read but never used.
- `app/models.py`. The handlers never use these pydantic models. Its default
  message "No message" is not the handler's "No message provided".
- JSON numbers, booleans and null share one constructor, `JScalar`. The
  handlers only ever need to know that such a value is not a string, list or
  object.
- `Payload.TextField`: a present field that holds a JSON value other than a
  string always leads to the HTTP 500 path. Python differs field by field.
  `state.lower()` and `severity.upper()` raise for any non-string.
  `':' in instance` raises only for a number, boolean or null. For a list or
  object it is a membership test: when ":" is a member, `.split` then raises;
  otherwise the value itself becomes the host and is rendered with `str()`.
  `"Dashboard: " + rule_url` raises for a truthy non-string `ruleUrl`; a falsy
  one (null, false, 0, `[]`, `{}`) drops the line and the mail is sent.
  `title`, `message`, `ruleName`, `alertname`, `summary` and `description`
  are rendered with `str()` and sent. In the legacy variant the state is read
  and tested first, so a skipped request is modelled exactly.
- `Text.Upper`: only ASCII letters are upper-cased. Python's `str.upper` also
  maps other letters (for example "ß" to "SS"), so an Alertmanager severity
  with such letters gets a different subject in the source.
- `Text.Lower`: only ASCII letters are lower-cased. For the legacy comparison
  with "alerting" this gives the same answer as Python, as argued above.
- The async request handling. Nothing here depends on concurrency.
- `Sender.ScanLiteral`: octal (`\ooo`), hexadecimal (`\xhh`) and Unicode
  (`\uhhhh`) escapes are read as the one character after the backslash. Only
  their value differs; where the literal closes is the same, because the
  digits they consume are never quotes.
- `Sender.ScanEscaped`: holds only for texts without a backslash. Snowflake
  also reads backslash escapes inside single-quoted literals, and
  `replace("'", "''")` does not neutralise them (see Findings).
- `Sender.QueryCarriesSubjectAndBody`: holds only for a subject and body
  without a backslash, for the same reason. The legacy body embeds the
  payload's Python rendering, which can hold backslashes. It also needs an
  integration and a recipient with neither a quote nor a backslash: both are
  inserted unescaped, so a `TARGET_EMAIL` such as `o'neil@x.com` closes the
  second literal early (`Sender.RecipientIsNotEscaped`).
- `Sender.RecipientIsNotEscaped`: `user` must hold no backslash, for the same
  reason.

## Findings

| source | as written | input that shows it | evidently intended | confidence | as-written member | corrected member |
|---|---|---|---|---|---|---|
| app/snowflake_service.py:41-42 | the subject and body are escaped for SQL by doubling `'` only | subject `a\'b`: escaped to `a\''b`, which Snowflake reads as the literal `a'` followed by `b'` as SQL | escaping that makes Snowflake read the text back as itself, i.e. also doubling `\` | medium, not executed | `Sender.EscapeLetsBackslashCloseLiteral` | `Sender.ScanSqlEscaped` |

`Sender.SendEmail` keeps the escaping as written (`Sender.Escape`), because it
models the code; `Sender.SqlEscape` is the corrected definition, and
`Sender.ScanSqlEscaped` proves the intended round trip for it.
