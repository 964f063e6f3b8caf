/** What one run of the deployment pipeline (`DeploymentEngine.execute`)
    does, as a sequence of observable events: rows written to
    `deployment_logs`, updates of the project row, the request to the
    language model, the requests to GitHub and Vercel, the 30-second wait,
    and the notification mail. Each phase is a function from the run's
    inputs to its events and its result; `Execute` chains them and turns the
    first error into the terminal failure record. The class in
    `DeploymentEngine` is proved to produce exactly these events. */
module Deployment {
  import opened Common
  import opened Store
  import GitHub
  import Vercel
  import Email

  /** `CLAUDE_MODEL`. */
  const Model: string := "claude-sonnet-4-5-20250929"
  const MaxTokens: nat := 2048

  /** The message a property read on `response.content[0]` throws when the
      reply has no content block. */
  const NoContentMessage: string := "Cannot read properties of undefined (reading 'type')"

  /** The credentials the engine is given; only the two tokens are required. */
  datatype EngineCredentials = EngineCredentials(
    githubToken: string,
    githubUsername: Option<string>,
    vercelToken: string,
    vercelTeamId: Option<string>,
    supabaseUrl: Option<string>,
    supabaseAnonKey: Option<string>)

  datatype Context = Context(
    projectId: string,
    userId: string,
    userEmail: string,
    requirement: string,
    credentials: EngineCredentials)

  /** A content block of the model's reply. */
  datatype Block = TextBlock(text: string) | OtherBlock

  datatype LlmRequest = LlmRequest(model: string, maxTokens: nat, prompt: string)

  /** The fields of the analysed requirement the pipeline reads. */
  datatype Spec = Spec(
    projectName: string,
    description: string,
    framework: string,
    features: seq<string>,
    needsDatabase: bool)

  /** The outside world of one run: the model's reply to a request,
      `JSON.parse` of the extracted text (which throws or gives the parsed
      object), GitHub, Vercel, and `sendDeploymentEmail`, which hands the
      message `Email.DeploymentMail(data)` to the mail transport and gives
      whether the transport accepted it. */
  datatype Services = Services(
    llm: LlmRequest -> Result<seq<Block>, Error>,
    parseJson: string -> Result<Spec, Error>,
    github: GitHub.Api,
    vercel: Vercel.Api,
    mailer: Email.DeploymentEmailData -> Result<(), Error>)

  datatype Event =
    | Logged(entry: LogEntry)
    | Patched(patch: ProjectPatch)
    | AskedLlm(request: LlmRequest)
    | ToGitHub(gh: GitHub.Request)
    | ToVercel(vc: Vercel.Request)
    | Waited(ms: nat)
    | Mailed(data: Email.DeploymentEmailData)

  /** The events of a phase and what it returns or throws. */
  datatype Step<T> = Step(events: seq<Event>, result: Result<T, Error>)

  /** `execute`'s return value. */
  datatype Outcome = Deployed(deploymentUrl: string, githubUrl: string) | Failed(error: string)

  datatype Run = Run(events: seq<Event>, outcome: Outcome)

  // ---------------------------------------------------------------------
  // Helpers.
  // ---------------------------------------------------------------------

  /** `log(phase, phaseNumber, message, logType)`. */
  function Log(ctx: Context, phase: string, phaseNumber: int, message: string, logType: LogType): Event
  {
    Logged(LogEntry(ctx.projectId, phase, phaseNumber, message, logType))
  }

  /** `updateProjectStatus(status)` without metadata. */
  function StatusOnly(status: ProjectStatus, now: string): ProjectPatch
  {
    StatusPatch(status, None, None, None, now)
  }

  function GitHubEvents(requests: seq<GitHub.Request>): (events: seq<Event>)
    ensures |events| == |requests|
    ensures forall k :: 0 <= k < |requests| ==> events[k] == ToGitHub(requests[k])
  {
    if |requests| == 0 then [] else [ToGitHub(requests[0])] + GitHubEvents(requests[1..])
  }

  function VercelEvents(requests: seq<Vercel.Request>): (events: seq<Event>)
    ensures |events| == |requests|
    ensures forall k :: 0 <= k < |requests| ==> events[k] == ToVercel(requests[k])
  {
    if |requests| == 0 then [] else [ToVercel(requests[0])] + VercelEvents(requests[1..])
  }

  /** The analysis prompt around the user's requirement. */
  function Prompt(requirement: string): string
  {
    PromptHead + requirement + PromptTail
  }

  const PromptHead: string :=
    "请分析以下需求并生成项目规划：\n" +
    "\n" +
    "需求："

  const PromptTail: string :=
    "\n" +
    "\n" +
    "请返回 JSON 格式，包含：\n" +
    "{\n" +
    "  \"projectName\": \"项目名称（小写，使用连字符，如 my-app）\",\n" +
    "  \"description\": \"项目简短描述\",\n" +
    "  \"framework\": \"nextjs 或 flask 或 vue\",\n" +
    "  \"features\": [\"功能1\", \"功能2\"],\n" +
    "  \"needsDatabase\": true/false,\n" +
    "  \"database\": {\n" +
    "    \"tables\": [\n" +
    "      {\n" +
    "        \"name\": \"表名\",\n" +
    "        \"fields\": [\"字段名:类型\"]\n" +
    "      }\n" +
    "    ]\n" +
    "  }\n" +
    "}\n" +
    "\n" +
    "只返回 JSON，不要其他内容。"

  /** The last index holding `c`. */
  function LastIndexOf(s: string, c: char): (r: Option<nat>)
    ensures r.Some? ==> r.value < |s| && s[r.value] == c && forall k :: r.value < k < |s| ==> s[k] != c
    ensures r.None? ==> c !in s
  {
    if |s| == 0 then None
    else if s[|s| - 1] == c then Some(|s| - 1)
    else LastIndexOf(s[..|s| - 1], c)
  }

  /** `content.match(/\{[\s\S]*\}/)`: the leftmost match starts at the first
      '{' and, the star being greedy, ends at the last '}' after it. */
  function JsonSpan(content: string): (r: Option<string>)
    ensures r.None? <==> !exists i, j :: 0 <= i < j < |content| && content[i] == '{' && content[j] == '}'
    ensures r.Some? ==> exists i :: 0 <= i && i + |r.value| <= |content| && r.value == content[i..i + |r.value|] &&
                          '{' !in content[..i] && '}' !in content[i + |r.value|..]
    ensures r.Some? ==> |r.value| >= 2 && r.value[0] == '{' && r.value[|r.value| - 1] == '}'
  {
    var i := ScanTo(content, '{', 0);
    match LastIndexOf(content, '}')
    case None => None
    case Some(j) =>
      if i < j then
        assert content[i..j + 1][j - i] == content[j];
        assert '{' !in content[..i] by {
          forall k | 0 <= k < i ensures content[..i][k] != '{' { assert content[..i][k] == content[k]; }
        }
        Some(content[i..j + 1])
      else None
  }

  /** `[spec.framework, 'TypeScript', 'Tailwind CSS']`. */
  function TechStack(framework: string): seq<string>
  {
    [framework, "TypeScript", "Tailwind CSS"]
  }

  /** The two variables phase 4 registers when the user configured Supabase. */
  function SupabaseVars(url: string, anonKey: string): seq<Vercel.EnvironmentVariable>
  {
    [Vercel.EnvironmentVariable("NEXT_PUBLIC_SUPABASE_URL", url, None, Some(Vercel.Encrypted)),
     Vercel.EnvironmentVariable("NEXT_PUBLIC_SUPABASE_ANON_KEY", anonKey, None, Some(Vercel.Encrypted))]
  }

  // ---------------------------------------------------------------------
  // The phases.
  // ---------------------------------------------------------------------

  function Phase1Request(ctx: Context): LlmRequest
  {
    LlmRequest(Model, MaxTokens, Prompt(ctx.requirement))
  }

  /** The first three events of every run. */
  function Phase1Start(ctx: Context, now: string): seq<Event>
  {
    [Log(ctx, "requirements", 1, "开始分析需求...", LogInfo),
     Patched(StatusOnly(StatusProcessing, now)),
     AskedLlm(Phase1Request(ctx))]
  }

  /** The text of the reply's first block, '' when it is not text. */
  function ReplyText(blocks: seq<Block>): string
    requires |blocks| > 0
  {
    if blocks[0].TextBlock? then blocks[0].text else ""
  }

  /** The three rows phase 1 logs about the analysed requirement. */
  function SpecLogs(ctx: Context, spec: Spec): seq<Event>
  {
    [Log(ctx, "requirements", 1, "项目名称：" + spec.projectName, LogSuccess),
     Log(ctx, "requirements", 1, "技术栈：" + spec.framework, LogSuccess),
     Log(ctx, "requirements", 1, "需要数据库：" + (if spec.needsDatabase then "是" else "否"), LogInfo)]
  }

  /** Phase 1, requirement analysis. */
  function Phase1(ctx: Context, sv: Services, now: string): Step<Spec>
  {
    var start := Phase1Start(ctx, now);
    match sv.llm(Phase1Request(ctx))
    case Failure(e) => Step(start, Failure(e))
    case Success(blocks) =>
      if |blocks| == 0 then Step(start, Failure(Error(None, NoContentMessage)))
      else match JsonSpan(ReplyText(blocks))
        case None => Step(start, Failure(Error(None, "无法解析需求")))
        case Some(span) =>
          match sv.parseJson(span)
          case Failure(e) => Step(start, Failure(e))
          case Success(spec) =>
            Step(start + SpecLogs(ctx, spec), Success(spec))
  }

  /** Phase 2, the code-generation placeholder. */
  function Phase2(ctx: Context): Step<string>
  {
    Step([Log(ctx, "code_generation", 2, "开始生成代码...", LogInfo),
          Log(ctx, "code_generation", 2, "代码生成完成", LogSuccess)],
         Success("/tmp/generated-code"))
  }

  function RepoOptions(name: string, description: string): GitHub.CreateRepoOptions
  {
    GitHub.CreateRepoOptions(name, description, Some(false))
  }

  /** Phase 3, repository creation after an existence check. */
  function Phase3(ctx: Context, sv: Services, name: string, description: string): Step<string>
  {
    var c := GitHub.ExistsCall(ctx.credentials.githubUsername, sv.github, name);
    var checked := [Log(ctx, "github", 3, "创建 GitHub 仓库...", LogInfo)] + GitHubEvents(c.sent);
    match c.result
    case Failure(e) => Step(checked, Failure(e))
    case Success(exists_) =>
      if exists_ then Step(checked, Failure(Error(None, "仓库 " + name + " 已存在")))
      else
        var request := GitHub.CreateRequest(RepoOptions(name, description));
        match sv.github.createRepo(request)
        case Failure(e) => Step(checked + [ToGitHub(request)], Failure(e))
        case Success(url) =>
          Step(checked + [ToGitHub(request), Log(ctx, "github", 3, "仓库已创建：" + url, LogSuccess)], Success(url))
  }

  /** The environment-variable step of phase 4: nothing unless both Supabase
      values are set (truthy). */
  function EnvStep(ctx: Context, sv: Services, projectId: string): Step<()>
  {
    var creds := ctx.credentials;
    if Truthy(creds.supabaseUrl) && Truthy(creds.supabaseAnonKey) then
      var b := Vercel.EnvBatch(creds.vercelTeamId, sv.vercel, projectId,
                               SupabaseVars(creds.supabaseUrl.value, creds.supabaseAnonKey.value));
      Step([Log(ctx, "vercel", 4, "配置环境变量...", LogInfo)] + VercelEvents(b.sent), b.result)
    else Step([], Success(()))
  }

  /** Phase 4 after the project exists: protection off, the wait, the URL. */
  function Phase4Configure(ctx: Context, sv: Services, name: string, projectId: string): Step<string>
  {
    var teamId := ctx.credentials.vercelTeamId;
    var request := Vercel.ProtectionRequest(teamId, projectId);
    var configured := [Log(ctx, "vercel", 4, "配置项目设置...", LogInfo), ToVercel(request)];
    match sv.vercel.disableProtection(request)
    case Failure(e) => Step(configured, Failure(e))
    case Success(_) =>
      var u := Vercel.ProductionUrlCall(teamId, sv.vercel, name);
      var waited := configured + [Waited(30000)] + VercelEvents(u.sent);
      match u.result
      case Failure(e) => Step(waited, Failure(e))
      case Success(url) => Step(waited + [Log(ctx, "vercel", 4, "部署成功：" + url, LogSuccess)], Success(url))
  }

  /** Phase 4, deployment to Vercel. */
  function Phase4(ctx: Context, sv: Services, name: string, githubUrl: string, framework: string): Step<string>
  {
    var c := Vercel.CreateProjectCall(ctx.credentials.vercelTeamId, sv.vercel,
                                      Vercel.DeploymentOptions(name, githubUrl, Some(framework)));
    var created := [Log(ctx, "vercel", 4, "开始部署到 Vercel...", LogInfo),
                    Log(ctx, "vercel", 4, "创建 Vercel 项目...", LogInfo)] + VercelEvents(c.sent);
    match c.result
    case Failure(e) => Step(created, Failure(e))
    case Success(project) =>
      var env := EnvStep(ctx, sv, project.id);
      match env.result
      case Failure(e) => Step(created + env.events, Failure(e))
      case Success(_) =>
        var rest := Phase4Configure(ctx, sv, name, project.id);
        Step(created + env.events + rest.events, rest.result)
  }

  function NotificationData(ctx: Context, name: string, url: string, githubUrl: string,
                            features: seq<string>, techStack: seq<string>): Email.DeploymentEmailData
  {
    Email.DeploymentEmailData(ctx.userEmail, name, url, githubUrl, features, techStack)
  }

  /** Phase 5, the best-effort notification: a failed send is only logged. */
  function Phase5(ctx: Context, sv: Services, name: string, url: string, githubUrl: string,
                  features: seq<string>, techStack: seq<string>): seq<Event>
  {
    var data := NotificationData(ctx, name, url, githubUrl, features, techStack);
    [Log(ctx, "notification", 5, "发送邮件通知...", LogInfo), Mailed(data)] +
    match sv.mailer(data)
    case Success(_) => [Log(ctx, "notification", 5, "邮件发送成功", LogSuccess)]
    case Failure(e) => [Log(ctx, "notification", 5, "邮件发送失败：" + e.message, LogWarning)]
  }

  /** The `catch` of `execute`. */
  function Fail(ctx: Context, now: string, before: seq<Event>, e: Error): Run
  {
    Run(before + FailureRecord(ctx, now, e.message), Failed(e.message))
  }

  function FailureRecord(ctx: Context, now: string, message: string): seq<Event>
  {
    [Log(ctx, "error", 0, "部署失败：" + message, LogError),
     Patched(StatusPatch(StatusFailed, None, None, Some(message), now))]
  }

  function DetailsOf(spec: Spec, githubUrl: string): ProjectPatch
  {
    DetailsPatch(spec.projectName, spec.description, spec.framework, githubUrl, spec.features, TechStack(spec.framework))
  }

  function SuccessOf(url: string, now: string): ProjectPatch
  {
    StatusPatch(StatusSuccess, Some(url), Some(now), None, now)
  }

  /** `execute` from the repository on. */
  function AfterRepository(ctx: Context, sv: Services, now: string, before: seq<Event>, spec: Spec, githubUrl: string): Run
  {
    var detailed := before + [Patched(DetailsOf(spec, githubUrl))];
    var p4 := Phase4(ctx, sv, spec.projectName, githubUrl, spec.framework);
    match p4.result
    case Failure(e) => Fail(ctx, now, detailed + p4.events, e)
    case Success(url) =>
      Run(detailed + p4.events + [Patched(SuccessOf(url, now))] +
          Phase5(ctx, sv, spec.projectName, url, githubUrl, spec.features, TechStack(spec.framework)),
          Deployed(url, githubUrl))
  }

  /** `execute` after the analysis. */
  function AfterAnalysis(ctx: Context, sv: Services, now: string, before: seq<Event>, spec: Spec): Run
  {
    var p3 := Phase3(ctx, sv, spec.projectName, spec.description);
    var repo := before + Phase2(ctx).events + p3.events;
    match p3.result
    case Failure(e) => Fail(ctx, now, repo, e)
    case Success(githubUrl) => AfterRepository(ctx, sv, now, repo, spec, githubUrl)
  }

  /** `execute`. All updates of the run are stamped with `now`. */
  function Execute(ctx: Context, sv: Services, now: string): Run
  {
    var p1 := Phase1(ctx, sv, now);
    match p1.result
    case Failure(e) => Fail(ctx, now, p1.events, e)
    case Success(spec) => AfterAnalysis(ctx, sv, now, p1.events, spec)
  }

  // ---------------------------------------------------------------------
  // Views of a run: the log rows, the project updates, the phases.
  // ---------------------------------------------------------------------

  function LogsOf(events: seq<Event>): seq<LogEntry>
  {
    if |events| == 0 then []
    else (if events[0].Logged? then [events[0].entry] else []) + LogsOf(events[1..])
  }

  function PatchesOf(events: seq<Event>): seq<ProjectPatch>
  {
    if |events| == 0 then []
    else (if events[0].Patched? then [events[0].patch] else []) + PatchesOf(events[1..])
  }

  /** The updates applied in order to one project row. */
  function ApplyAll(p: Project, patches: seq<ProjectPatch>): Project
    decreases |patches|
  {
    if |patches| == 0 then p else ApplyAll(ApplyPatch(p, patches[0]), patches[1..])
  }

  /** The updates applied in order, through `eq('id', id)`, to the project
      table: only row `id` changes, and only when it exists. */
  function ApplyPatches(projects: map<string, Project>, id: string, patches: seq<ProjectPatch>): map<string, Project>
  {
    if id in projects then projects[id := ApplyAll(projects[id], patches)] else projects
  }

  lemma {:induction false} LogsAppend(a: seq<Event>, b: seq<Event>)
    ensures LogsOf(a + b) == LogsOf(a) + LogsOf(b)
  {
    if |a| == 0 {
      assert a + b == b;
    } else {
      assert (a + b)[0] == a[0];
      assert (a + b)[1..] == a[1..] + b;
      LogsAppend(a[1..], b);
    }
  }

  lemma {:induction false} PatchesAppend(a: seq<Event>, b: seq<Event>)
    ensures PatchesOf(a + b) == PatchesOf(a) + PatchesOf(b)
  {
    if |a| == 0 {
      assert a + b == b;
    } else {
      assert (a + b)[0] == a[0];
      assert (a + b)[1..] == a[1..] + b;
      PatchesAppend(a[1..], b);
    }
  }

  lemma {:induction false} ApplyAllAppend(p: Project, a: seq<ProjectPatch>, b: seq<ProjectPatch>)
    ensures ApplyAll(p, a + b) == ApplyAll(ApplyAll(p, a), b)
    decreases |a|
  {
    if |a| == 0 {
      assert a + b == b;
    } else {
      assert (a + b)[0] == a[0];
      assert (a + b)[1..] == a[1..] + b;
      ApplyAllAppend(ApplyPatch(p, a[0]), a[1..], b);
    }
  }

  lemma ApplyPatchesAppend(projects: map<string, Project>, id: string, a: seq<ProjectPatch>, b: seq<ProjectPatch>)
    ensures ApplyPatches(projects, id, a + b) == ApplyPatches(ApplyPatches(projects, id, a), id, b)
  {
    if id in projects {
      ApplyAllAppend(projects[id], a, b);
    }
  }

  /** Every log row among `events` has phase number `n`. */
  ghost predicate InPhase(events: seq<Event>, n: int)
  {
    forall e :: e in events && e.Logged? ==> e.entry.phaseNumber == n
  }

  /** Every log row among `events` has a phase number in `lo..hi`. */
  ghost predicate PhasesWithin(events: seq<Event>, lo: int, hi: int)
  {
    forall e :: e in events && e.Logged? ==> lo <= e.entry.phaseNumber <= hi
  }

  /** The phase numbers of the log rows never decrease. */
  ghost predicate PhasesOrdered(events: seq<Event>)
  {
    forall i, j :: 0 <= i < j < |events| && events[i].Logged? && events[j].Logged? ==>
      events[i].entry.phaseNumber <= events[j].entry.phaseNumber
  }

  ghost predicate NoVercel(events: seq<Event>)
  {
    forall e :: e in events ==> !e.ToVercel?
  }

  ghost predicate NoGitHub(events: seq<Event>)
  {
    forall e :: e in events ==> !e.ToGitHub?
  }

  ghost predicate NoMail(events: seq<Event>)
  {
    forall e :: e in events ==> !e.Mailed?
  }

  ghost predicate NoPatch(events: seq<Event>)
  {
    forall e :: e in events ==> !e.Patched?
  }

  ghost predicate NoLog(events: seq<Event>)
  {
    forall e :: e in events ==> !e.Logged?
  }

  lemma {:induction false} PatchesOfNone(events: seq<Event>)
    requires NoPatch(events)
    ensures PatchesOf(events) == []
  {
    if |events| > 0 {
      assert events[0] in events;
      assert forall e :: e in events[1..] ==> e in events;
      PatchesOfNone(events[1..]);
    }
  }

  lemma {:induction false} LogsOfNone(events: seq<Event>)
    requires NoLog(events)
    ensures LogsOf(events) == []
  {
    if |events| > 0 {
      assert events[0] in events;
      assert forall e :: e in events[1..] ==> e in events;
      LogsOfNone(events[1..]);
    }
  }

  lemma OrderedAppend(a: seq<Event>, b: seq<Event>, lo: int, mid: int, hi: int)
    requires lo <= mid <= hi
    requires PhasesOrdered(a) && PhasesWithin(a, lo, mid)
    requires PhasesOrdered(b) && PhasesWithin(b, mid, hi)
    ensures PhasesOrdered(a + b) && PhasesWithin(a + b, lo, hi)
  {
    var c := a + b;
    forall i, j | 0 <= i < j < |c| && c[i].Logged? && c[j].Logged?
      ensures c[i].entry.phaseNumber <= c[j].entry.phaseNumber
    {
      if j < |a| {
        assert c[i] == a[i] && c[j] == a[j];
      } else if i >= |a| {
        assert c[i] == b[i - |a|] && c[j] == b[j - |a|];
      } else {
        assert c[i] == a[i] && c[j] == b[j - |a|];
        assert a[i] in a && b[j - |a|] in b;
      }
    }
  }

  lemma InPhaseOrdered(events: seq<Event>, n: int)
    requires InPhase(events, n)
    ensures PhasesOrdered(events) && PhasesWithin(events, n, n)
  {
    forall i, j | 0 <= i < j < |events| && events[i].Logged? && events[j].Logged?
      ensures events[i].entry.phaseNumber <= events[j].entry.phaseNumber
    {
      assert events[i] in events && events[j] in events;
    }
  }
}
