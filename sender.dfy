/** The Snowflake e-mail sender: the configuration and recipient guards that
    decide whether the stored procedure is called at all, the connection
    parameters, and the quote escaping applied to the subject and the body
    before they are placed in the SQL text. The process environment is a map
    parameter; the connector's network calls are not modelled beyond the
    call record they are given. */
module Sender {
  import opened Payload

  type Env = map<string, string>

  const DefaultIntegration: string := "docker_monitoring_email_int"

  /** `os.getenv(key, default)`: a variable set to the empty string is returned as is. */
  function GetenvOr(env: Env, key: string, default: string): string {
    if key in env then env[key] else default
  }

  /** `os.getenv(key)` is truthy: set and non-empty. */
  predicate IsSet(env: Env, key: string) {
    key in env && env[key] != ""
  }

  predicate HasCredentials(env: Env) {
    IsSet(env, "SNOWFLAKE_ACCOUNT") && IsSet(env, "SNOWFLAKE_USER") && IsSet(env, "SNOWFLAKE_PASSWORD")
  }

  /** `recipients or os.getenv("TARGET_EMAIL")`, `None` when that is falsy. */
  function Recipient(env: Env, recipients: Option<string>): (r: Option<string>)
    ensures r.Some? ==> r.value != ""
    ensures recipients.Some? && recipients.value != "" ==> r == recipients
    ensures (recipients.None? || recipients.value == "") ==>
              (r.Some? <==> IsSet(env, "TARGET_EMAIL")) && (r.Some? ==> r.value == env["TARGET_EMAIL"])
  {
    if recipients.Some? && recipients.value != "" then recipients
    else if IsSet(env, "TARGET_EMAIL") then Some(env["TARGET_EMAIL"])
    else None
  }

  function Integration(env: Env): string {
    GetenvOr(env, "SNOWFLAKE_EMAIL_INTEGRATION", DefaultIntegration)
  }

  /** The keyword arguments given to `snowflake.connector.connect`. */
  function ConnParams(env: Env): (p: map<string, string>)
    requires HasCredentials(env)
    ensures p.Keys == {"account", "user", "password"} + (if IsSet(env, "SNOWFLAKE_ROLE") then {"role"} else {})
    ensures p["account"] == env["SNOWFLAKE_ACCOUNT"] && p["user"] == env["SNOWFLAKE_USER"]
    ensures p["password"] == env["SNOWFLAKE_PASSWORD"]
    ensures "role" in p ==> p["role"] == env["SNOWFLAKE_ROLE"]
  {
    var base := map["account" := env["SNOWFLAKE_ACCOUNT"], "user" := env["SNOWFLAKE_USER"],
                    "password" := env["SNOWFLAKE_PASSWORD"]];
    if IsSet(env, "SNOWFLAKE_ROLE") then base["role" := env["SNOWFLAKE_ROLE"]] else base
  }

  /** Number of single quotes in `s`. */
  function Quotes(s: string): nat {
    if s == [] then 0 else (if s[0] == '\'' then 1 else 0) + Quotes(s[1..])
  }

  /** `s` with every single quote removed. */
  function Unquoted(s: string): string {
    if s == [] then [] else (if s[0] == '\'' then [] else [s[0]]) + Unquoted(s[1..])
  }

  /** `s.replace("'", "''")` */
  function Escape(s: string): (r: string)
    ensures |r| == |s| + Quotes(s)
  {
    if s == [] then []
    else (if s[0] == '\'' then "''" else [s[0]]) + Escape(s[1..])
  }

  /** `t.replace("''", "'")`: collapses each doubled quote, scanning left to right. */
  function Unescape(t: string): string
    decreases |t|
  {
    if t == [] then []
    else if |t| >= 2 && t[0] == '\'' && t[1] == '\'' then "'" + Unescape(t[2..])
    else [t[0]] + Unescape(t[1..])
  }

  lemma {:induction false} UnescapeEscape(s: string)
    ensures Unescape(Escape(s)) == s
  {
    if s != [] {
      UnescapeEscape(s[1..]);
      if s[0] == '\'' {
        assert Escape(s) == "''" + Escape(s[1..]);
        assert Escape(s)[2..] == Escape(s[1..]);
      } else {
        assert Escape(s) == [s[0]] + Escape(s[1..]);
        assert Escape(s)[1..] == Escape(s[1..]);
      }
    }
  }

  lemma {:induction false} EscapeWithoutQuotes(s: string)
    requires '\'' !in s
    ensures Escape(s) == s
  {
    if s != [] {
      EscapeWithoutQuotes(s[1..]);
    }
  }

  lemma {:induction false} UnquotedAppend(a: string, b: string)
    ensures Unquoted(a + b) == Unquoted(a) + Unquoted(b)
  {
    if a == [] {
      assert a + b == b;
    } else {
      var h := if a[0] == '\'' then [] else [a[0]];
      assert (a + b)[1..] == a[1..] + b;
      assert Unquoted(a + b) == h + Unquoted(a[1..] + b);
      UnquotedAppend(a[1..], b);
      assert Unquoted(a) == h + Unquoted(a[1..]);
    }
  }

  /** Escaping changes nothing but the quotes: all other characters keep their order. */
  lemma {:induction false} EscapeKeepsOtherChars(s: string)
    ensures Unquoted(Escape(s)) == Unquoted(s)
  {
    if s != [] {
      EscapeKeepsOtherChars(s[1..]);
      var head := if s[0] == '\'' then "''" else [s[0]];
      UnquotedAppend(head, Escape(s[1..]));
    }
  }

  /** The character a backslash escape stands for inside a Snowflake string
      literal: `\'`, `\"`, `\\`, `\b`, `\f`, `\n`, `\r`, `\t` and `\0`;
      before any other character the backslash is dropped. */
  function BackslashValue(c: char): char {
    match c
    case 'b' => 8 as char
    case 'f' => 12 as char
    case 'n' => '\n'
    case 'r' => '\r'
    case 't' => '\t'
    case '0' => '\0'
    case _ => c
  }

  /** How Snowflake reads the inside of a single-quoted literal: a backslash
      escapes the character after it, a doubled quote stands for one quote, and
      the first other quote closes the literal. Gives the literal's value and
      the text after its closing quote. */
  function ScanLiteral(t: string): Option<(string, string)>
    decreases |t|
  {
    if t == [] then None
    else if t[0] == '\\' then
      if |t| >= 2 then
        match ScanLiteral(t[2..])
        case None => None
        case Some(p) => Some(([BackslashValue(t[1])] + p.0, p.1))
      else None
    else if t[0] == '\'' then
      if |t| >= 2 && t[1] == '\'' then
        match ScanLiteral(t[2..])
        case None => None
        case Some(p) => Some(("'" + p.0, p.1))
      else Some(([], t[1..]))
    else
      match ScanLiteral(t[1..])
      case None => None
      case Some(p) => Some(([t[0]] + p.0, p.1))
  }

  /** An escaped text without backslashes placed between quotes is read back as
      exactly that text, and the literal closes where the source closes it. */
  lemma {:induction false} ScanEscaped(s: string, rest: string)
    requires '\\' !in s
    requires rest == [] || rest[0] != '\''
    ensures ScanLiteral(Literal(Escape(s), rest)) == Some((s, rest))
  {
    if s == [] {
      assert Escape(s) + "'" + rest == "'" + rest;
    } else {
      assert '\\' !in s[1..];
      ScanEscaped(s[1..], rest);
      var t := Escape(s) + "'" + rest;
      if s[0] == '\'' {
        assert t == "''" + (Escape(s[1..]) + "'" + rest);
        assert t[0] == '\'' && t[1] == '\'';
        assert t[2..] == Escape(s[1..]) + "'" + rest;
        assert "'" + s[1..] == s;
      } else {
        assert t == [s[0]] + (Escape(s[1..]) + "'" + rest);
        assert t[0] == s[0] && s[0] != '\\';
        assert t[1..] == Escape(s[1..]) + "'" + rest;
        assert [s[0]] + s[1..] == s;
      }
    }
  }

  /** Doubling the quotes does not neutralise a backslash: the text `a\'b`
      is escaped to `a\''b`, whose `\'` Snowflake reads as a quote, so the
      next quote closes the literal after `a'` and `b'` is read as SQL. */
  lemma EscapeLetsBackslashCloseLiteral(rest: string)
    ensures Escape("a\\'b") == "a\\''b"
    ensures ScanLiteral(Literal(Escape("a\\'b"), rest)) == Some(("a'", "b'" + rest))
  {
    assert Escape("b") == "b";
    assert Escape("'b") == "''" + Escape("b");
    assert Escape("\\'b") == "\\" + Escape("'b");
    assert Escape("a\\'b") == "a" + Escape("\\'b");
    var t := "a\\''b'" + rest;
    assert Literal(Escape("a\\'b"), rest) == t;
    var u := "'b'" + rest;
    assert u[0] == '\'' && u[1] == 'b' && u[1..] == "b'" + rest;
    assert ScanLiteral(u) == Some(([], "b'" + rest));
    var v := t[1..];
    assert BackslashValue('\'') == '\'';
    assert v[0] == '\\' && v[1] == '\'' && v[2..] == u;
    assert [BackslashValue(v[1])] + [] == "'";
    assert ScanLiteral(v) == Some(("'", "b'" + rest));
    assert t[0] == 'a' && t[1..] == v;
    assert "a" + "'" == "a'";
  }

  /** What `SqlEscape` writes for one character. */
  function SqlEscapeChar(c: char): string {
    if c == '\'' then "''" else if c == '\\' then "\\\\" else [c]
  }

  /** Escaping for a Snowflake literal that doubles backslashes as well as quotes. */
  function SqlEscape(s: string): (r: string)
    ensures |r| >= |s|
    ensures '\'' !in s && '\\' !in s ==> r == s
  {
    if s == [] then [] else SqlEscapeChar(s[0]) + SqlEscape(s[1..])
  }

  /** One escaped character in front of a literal's remainder is read back as that character. */
  lemma SqlEscapeCharScan(c: char, tail: string)
    requires ScanLiteral(tail).Some?
    ensures ScanLiteral(SqlEscapeChar(c) + tail) == Some(([c] + ScanLiteral(tail).value.0, ScanLiteral(tail).value.1))
  {
    var t := SqlEscapeChar(c) + tail;
    if c == '\'' || c == '\\' {
      assert t[0] == c && t[1] == c && t[2..] == tail;
    } else {
      assert t[0] == c && t[1..] == tail;
    }
  }

  /** With backslashes doubled too, every text is read back as itself. */
  lemma {:induction false} ScanSqlEscaped(s: string, rest: string)
    requires rest == [] || rest[0] != '\''
    ensures ScanLiteral(Literal(SqlEscape(s), rest)) == Some((s, rest))
  {
    if s == [] {
      assert SqlEscape(s) + "'" + rest == "'" + rest;
    } else {
      var tail := SqlEscape(s[1..]) + "'" + rest;
      ScanSqlEscaped(s[1..], rest);
      SqlEscapeCharScan(s[0], tail);
      assert SqlEscape(s) + "'" + rest == SqlEscapeChar(s[0]) + tail;
      assert [s[0]] + s[1..] == s;
    }
  }

  /** The arguments of `CALL SYSTEM$SEND_EMAIL`. */
  datatype SendCall = SendCall(integration: string, recipient: string, subject: string, body: string)

  /** What `send_snowflake_email` does: returns False before any I/O, or
      connects with `connection` and executes the call, returning True. */
  datatype Delivery =
    | Refused
    | Called(connection: map<string, string>, call: SendCall)

  const QueryOpen: string := "\n    CALL SYSTEM$SEND_EMAIL(\n        '"
  const QueryNext: string := ",\n        '"
  const QueryEnd: string := "\n    );\n    "

  /** An argument written as `'value'` and followed by the rest of the statement,
      the opening quote being part of what precedes it. */
  function Literal(value: string, rest: string): string {
    value + "'" + rest
  }

  /** The SQL text executed for a call; its arguments are inserted as they are. */
  function Query(c: SendCall): string {
    QueryOpen + Literal(c.integration, QueryNext + Literal(c.recipient,
      QueryNext + Literal(c.subject, QueryNext + Literal(c.body, QueryEnd))))
  }

  /** `send_snowflake_email(subject, body, recipients)`. The result is True exactly when it is `Called`. */
  function SendEmail(env: Env, subject: string, body: string, recipients: Option<string>): (d: Delivery)
    ensures d.Called? <==> HasCredentials(env) && Recipient(env, recipients).Some?
    ensures d.Called? ==> d.connection == ConnParams(env)
    ensures d.Called? ==> d.call.integration == GetenvOr(env, "SNOWFLAKE_EMAIL_INTEGRATION", "docker_monitoring_email_int")
    ensures d.Called? ==> d.call.recipient == Recipient(env, recipients).value
    ensures d.Called? ==> Unescape(d.call.subject) == subject && Unescape(d.call.body) == body
    ensures d.Called? ==> d.call.subject == Escape(subject) && d.call.body == Escape(body)
  {
    if !HasCredentials(env) then Refused
    else
      match Recipient(env, recipients)
      case None => Refused
      case Some(to) =>
        UnescapeEscape(subject);
        UnescapeEscape(body);
        Called(ConnParams(env), SendCall(Integration(env), to, Escape(subject), Escape(body)))
  }

  /** Missing configuration ends in False whatever is being sent. */
  lemma NoCredentialsNoCall(env: Env, subject: string, body: string, recipients: Option<string>)
    requires !IsSet(env, "SNOWFLAKE_ACCOUNT") || !IsSet(env, "SNOWFLAKE_USER") || !IsSet(env, "SNOWFLAKE_PASSWORD")
    ensures SendEmail(env, subject, body, recipients) == Refused
  {
  }

  /** The subject and the body reach the stored procedure intact: reading the
      executed SQL text from the end of its opening text gives four literals,
      the integration and the recipient as they are, then the caller's subject
      and body, whatever quotes the last two contain. The integration and the
      recipient are inserted unescaped, so they must hold no quote; none of
      the four may hold a backslash. */
  lemma QueryCarriesSubjectAndBody(integration: string, recipient: string, subject: string, body: string)
    requires '\'' !in integration && '\\' !in integration
    requires '\'' !in recipient && '\\' !in recipient
    requires '\\' !in subject && '\\' !in body
    ensures var bodyArg := Literal(Escape(body), QueryEnd);
            var subjectArg := Literal(Escape(subject), QueryNext + bodyArg);
            var recipientArg := Literal(recipient, QueryNext + subjectArg);
            var integrationArg := Literal(integration, QueryNext + recipientArg);
            && Query(SendCall(integration, recipient, Escape(subject), Escape(body))) == QueryOpen + integrationArg
            && ScanLiteral(integrationArg) == Some((integration, QueryNext + recipientArg))
            && ScanLiteral(recipientArg) == Some((recipient, QueryNext + subjectArg))
            && ScanLiteral(subjectArg) == Some((subject, QueryNext + bodyArg))
            && ScanLiteral(bodyArg) == Some((body, QueryEnd))
  {
    var bodyArg := Literal(Escape(body), QueryEnd);
    var subjectArg := Literal(Escape(subject), QueryNext + bodyArg);
    var recipientArg := Literal(recipient, QueryNext + subjectArg);
    assert QueryNext[0] == ',';
    assert (QueryNext + recipientArg)[0] == ',';
    EscapeWithoutQuotes(integration);
    ScanEscaped(integration, QueryNext + recipientArg);
    assert (QueryNext + subjectArg)[0] == ',';
    EscapeWithoutQuotes(recipient);
    ScanEscaped(recipient, QueryNext + subjectArg);
    assert (QueryNext + bodyArg)[0] == ',';
    ScanEscaped(subject, QueryNext + bodyArg);
    assert QueryEnd[0] == '\n';
    ScanEscaped(body, QueryEnd);
  }

  /** The recipient is not escaped: a recipient `user'domain` closes its
      literal after `user`, and the rest is read as SQL. */
  lemma {:induction false} RecipientIsNotEscaped(env: Env, subject: string, body: string, user: string, domain: string)
    requires HasCredentials(env) && user != [] && '\'' !in user && '\\' !in user
    requires domain != [] && domain[0] != '\''
    ensures var d := SendEmail(env, subject, body, Some(Literal(user, domain)));
            && d.Called? && d.call.recipient == Literal(user, domain)
            && ScanLiteral(Literal(d.call.recipient, QueryNext)) == Some((user, Literal(domain, QueryNext)))
  {
    assert Literal(Literal(user, domain), QueryNext) == Literal(user, Literal(domain, QueryNext));
    EscapeWithoutQuotes(user);
    ScanEscaped(user, Literal(domain, QueryNext));
  }
}
