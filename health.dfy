/** `GET /api/health`: three configuration checks (the database, the
    language-model API, the mail server), each `ok`, `warning` or `error`
    with a detail text, combined into an overall status that decides the
    HTTP status. The environment variables, the database probe, the model's
    event stream and the measured duration are inputs. */
module Health {
  import opened Common
  import Deployment

  datatype Status = StatusUnknown | StatusOk | StatusWarning | StatusError

  datatype Check = Check(status: Status, details: string)

  /** The environment variables the route reads. */
  datatype Settings = Settings(
    nodeEnv: Option<string>,
    supabaseUrl: Option<string>,
    supabaseAnonKey: Option<string>,
    anthropicApiKey: Option<string>,
    anthropicBaseUrl: Option<string>,
    smtpHost: Option<string>,
    smtpPort: Option<string>,
    smtpUser: Option<string>,
    smtpPass: Option<string>)

  /** What `createClient()` and `select('count').limit(1)` give: no error,
      an error object, or a thrown error. */
  datatype Probe = QueryOk | QueryFailed(message: string) | ProbeThrew(error: Error)

  /** The types of the events the model's stream yields, and the error the
      iteration throws after them, if any. */
  datatype ModelStream = ModelStream(eventTypes: seq<string>, thrown: Option<Error>)

  datatype Report = Report(
    timestamp: string,
    environment: Option<string>,
    supabase: Check,
    claudeApi: Check,
    smtp: Check,
    overall: Status)

  const DefaultEndpoint: string := "https://api.anthropic.com"
  const DeltaEvent: string := "content_block_delta"

  /** The key as shown in the details: its first 10 and last 8 characters
      around `...` when it is longer than 20, `***` otherwise. */
  function MaskKey(key: string): (m: string)
    ensures |key| > 20 ==> |m| == 21 && m[..10] == key[..10] && m[10..13] == "..." && m[13..] == key[|key| - 8..]
    ensures |key| <= 20 ==> m == "***"
  {
    if |key| > 20 then key[..10] + "..." + key[|key| - 8..] else "***"
  }

  /** The characters between the first 10 and the last 8 of a long key do
      not affect its mask. */
  lemma MaskHidesMiddle(a: string, b: string)
    requires |a| > 20 && |b| > 20
    requires a[..10] == b[..10] && a[|a| - 8..] == b[|b| - 8..]
    ensures MaskKey(a) == MaskKey(b)
  {
  }

  function SupabaseCheck(s: Settings, probe: Probe): (c: Check)
    ensures c.status == StatusOk <==> Truthy(s.supabaseUrl) && Truthy(s.supabaseAnonKey) && probe == QueryOk
    ensures c.status == StatusOk || c.status == StatusError
    ensures !Truthy(s.supabaseUrl) || !Truthy(s.supabaseAnonKey) ==>
              c == Check(StatusError, "缺少 NEXT_PUBLIC_SUPABASE_URL 或 NEXT_PUBLIC_SUPABASE_ANON_KEY")
  {
    if !Truthy(s.supabaseUrl) || !Truthy(s.supabaseAnonKey) then
      Check(StatusError, "缺少 NEXT_PUBLIC_SUPABASE_URL 或 NEXT_PUBLIC_SUPABASE_ANON_KEY")
    else
      match probe
      case QueryOk => Check(StatusOk, "数据库连接正常")
      case QueryFailed(message) => Check(StatusError, "数据库查询失败: " + message)
      case ProbeThrew(e) => Check(StatusError, e.message)
  }

  /** The details of a failed model call: the message (or a fixed text when
      it is empty) and the HTTP status when the error carries one. */
  function CallErrorDetails(e: Error): string
  {
    (if e.message != "" then e.message else "API 调用失败") +
    (if e.status.Some? && e.status.value != 0 then " (HTTP " + IntToString(e.status.value) + ")" else "")
  }

  predicate HasDelta(eventTypes: seq<string>)
  {
    exists k :: 0 <= k < |eventTypes| && eventTypes[k] == DeltaEvent
  }

  function OkDetails(s: Settings, key: string, durationMs: nat): string
  {
    "API 连接正常 | 模型: " + Deployment.Model + " | 响应时间: " + NatToString(durationMs) + "ms | 端点: " +
    (if Truthy(s.anthropicBaseUrl) then s.anthropicBaseUrl.value else DefaultEndpoint) +
    " | 密钥: " + MaskKey(key)
  }

  /** The model check: `ok` exactly when a content delta arrives (the loop
      stops there, so a later error is never seen), `error` without a key
      or when the call throws first, `warning` otherwise. */
  function ClaudeCheck(s: Settings, stream: Result<ModelStream, Error>, durationMs: nat): (c: Check)
    ensures c.status == StatusOk <==>
              Truthy(s.anthropicApiKey) && stream.Success? && HasDelta(stream.value.eventTypes)
    ensures c.status == StatusWarning <==>
              Truthy(s.anthropicApiKey) && stream.Success? && !HasDelta(stream.value.eventTypes) &&
              stream.value.thrown.None?
    ensures c.status != StatusUnknown
  {
    if !Truthy(s.anthropicApiKey) then Check(StatusError, "缺少 ANTHROPIC_API_KEY 环境变量")
    else
      match stream
      case Failure(e) => Check(StatusError, CallErrorDetails(e))
      case Success(st) =>
        if HasDelta(st.eventTypes) then Check(StatusOk, OkDetails(s, s.anthropicApiKey.value, durationMs))
        else if st.thrown.Some? then Check(StatusError, CallErrorDetails(st.thrown.value))
        else Check(StatusWarning, "API 响应异常，未收到内容")
  }

  /** The model check as the route runs it: the stream is read until the
      first content delta. */
  method ProbeClaude(s: Settings, stream: Result<ModelStream, Error>, durationMs: nat) returns (c: Check)
    ensures c == ClaudeCheck(s, stream, durationMs)
  {
    if !Truthy(s.anthropicApiKey) {
      return Check(StatusError, "缺少 ANTHROPIC_API_KEY 环境变量");
    }
    var apiKey := s.anthropicApiKey.value;
    var maskedKey := MaskKey(apiKey);
    if stream.Failure? {
      return Check(StatusError, CallErrorDetails(stream.error));
    }
    var events := stream.value.eventTypes;
    var received := false;
    var i := 0;
    while i < |events|
      invariant 0 <= i <= |events|
      invariant !received
      invariant forall k :: 0 <= k < i ==> events[k] != DeltaEvent
    {
      if events[i] == DeltaEvent {
        received := true;
        break;
      }
      i := i + 1;
    }
    if !received && stream.value.thrown.Some? {
      return Check(StatusError, CallErrorDetails(stream.value.thrown.value));
    }
    if received {
      c := Check(StatusOk, "API 连接正常 | 模型: " + Deployment.Model + " | 响应时间: " + NatToString(durationMs) +
                           "ms | 端点: " + (if Truthy(s.anthropicBaseUrl) then s.anthropicBaseUrl.value else DefaultEndpoint) +
                           " | 密钥: " + maskedKey);
    } else {
      c := Check(StatusWarning, "API 响应异常，未收到内容");
    }
  }

  /** The mail check only looks at the settings: `warning` when one of the
      four is missing, `ok` otherwise, never `error`. */
  function SmtpCheck(s: Settings): (c: Check)
    ensures c.status == StatusOk <==>
              Truthy(s.smtpHost) && Truthy(s.smtpPort) && Truthy(s.smtpUser) && Truthy(s.smtpPass)
    ensures c.status == StatusOk || c.status == StatusWarning
  {
    if !Truthy(s.smtpHost) || !Truthy(s.smtpPort) || !Truthy(s.smtpUser) || !Truthy(s.smtpPass) then
      Check(StatusWarning, "部分 SMTP 配置缺失（非关键功能）")
    else
      Check(StatusOk, "SMTP 已配置: " + s.smtpHost.value + ":" + s.smtpPort.value)
  }

  /** The overall status: `error` if any check is, else `warning` if any
      check is, else `ok`. */
  function Overall(statuses: seq<Status>): Status
  {
    if StatusError in statuses then StatusError
    else if StatusWarning in statuses then StatusWarning
    else StatusOk
  }

  /** How bad a status is; an unknown check counts as fine. */
  function Severity(s: Status): nat
  {
    match s
    case StatusError => 2
    case StatusWarning => 1
    case _ => 0
  }

  /** The worst severity among the statuses, folded from the left. */
  function Worst(statuses: seq<Status>): (w: nat)
    ensures w <= 2
    decreases |statuses|
  {
    if |statuses| == 0 then 0
    else
      var rest := Worst(statuses[1..]);
      if Severity(statuses[0]) > rest then Severity(statuses[0]) else rest
  }

  /** The overall status is the worst of the checks. */
  lemma {:induction false} OverallIsWorst(statuses: seq<Status>)
    ensures Severity(Overall(statuses)) == Worst(statuses)
    decreases |statuses|
  {
    if |statuses| > 0 {
      OverallIsWorst(statuses[1..]);
      assert statuses == [statuses[0]] + statuses[1..];
      assert StatusError in statuses <==> statuses[0] == StatusError || StatusError in statuses[1..];
      assert StatusWarning in statuses <==> statuses[0] == StatusWarning || StatusWarning in statuses[1..];
    }
  }

  function HttpStatus(overall: Status): int
  {
    if overall == StatusOk then 200 else 500
  }

  /** The route: the checks are filled in one after the other, starting
      from `unknown`, then the overall status and the HTTP status. */
  method Get(s: Settings, now: string, probe: Probe, stream: Result<ModelStream, Error>, durationMs: nat)
    returns (report: Report, httpStatus: int)
    ensures report.timestamp == now && report.environment == s.nodeEnv
    ensures report.supabase == SupabaseCheck(s, probe)
    ensures report.claudeApi == ClaudeCheck(s, stream, durationMs)
    ensures report.smtp == SmtpCheck(s)
    ensures report.overall == Overall([report.supabase.status, report.claudeApi.status, report.smtp.status])
    ensures httpStatus == HttpStatus(report.overall)
  {
    var supabase := Check(StatusUnknown, "");
    var claudeApi := Check(StatusUnknown, "");
    var smtp := Check(StatusUnknown, "");
    supabase := SupabaseCheck(s, probe);
    claudeApi := ProbeClaude(s, stream, durationMs);
    smtp := SmtpCheck(s);
    var overall := Overall([supabase.status, claudeApi.status, smtp.status]);
    report := Report(now, s.nodeEnv, supabase, claudeApi, smtp, overall);
    httpStatus := if overall == StatusOk then 200 else 500;
  }

  /** The route answers 200 exactly when all three checks are `ok`: the
      database probe succeeded, a content delta arrived, and the mail
      server is configured. */
  lemma HealthyIff(s: Settings, probe: Probe, stream: Result<ModelStream, Error>, durationMs: nat)
    ensures var statuses := [SupabaseCheck(s, probe).status, ClaudeCheck(s, stream, durationMs).status, SmtpCheck(s).status];
            HttpStatus(Overall(statuses)) == 200 <==>
              Truthy(s.supabaseUrl) && Truthy(s.supabaseAnonKey) && probe == QueryOk &&
              Truthy(s.anthropicApiKey) && stream.Success? && HasDelta(stream.value.eventTypes) &&
              Truthy(s.smtpHost) && Truthy(s.smtpPort) && Truthy(s.smtpUser) && Truthy(s.smtpPass)
  {
    var statuses := [SupabaseCheck(s, probe).status, ClaudeCheck(s, stream, durationMs).status, SmtpCheck(s).status];
    assert statuses[0] in statuses && statuses[1] in statuses && statuses[2] in statuses;
  }

  /** A missing mail setting alone makes the overall status `warning`,
      never `error`. */
  lemma MailOnlyWarns(s: Settings, probe: Probe, stream: Result<ModelStream, Error>, durationMs: nat)
    requires SupabaseCheck(s, probe).status == StatusOk && ClaudeCheck(s, stream, durationMs).status == StatusOk
    requires !Truthy(s.smtpHost) || !Truthy(s.smtpPort) || !Truthy(s.smtpUser) || !Truthy(s.smtpPass)
    ensures Overall([SupabaseCheck(s, probe).status, ClaudeCheck(s, stream, durationMs).status, SmtpCheck(s).status])
            == StatusWarning
  {
    var statuses := [SupabaseCheck(s, probe).status, ClaudeCheck(s, stream, durationMs).status, SmtpCheck(s).status];
    assert statuses[2] == StatusWarning;
  }
}
