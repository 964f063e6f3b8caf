/** `DeploymentEngine`: the object that runs the five phases of a
    deployment against the database, a GitHub client and a Vercel client.
    Every effect it has is appended to `trace`; the database writes it makes
    are exactly the log rows and project updates of that trace (`Valid`),
    and each method is proved to emit the events of the corresponding phase
    function of `Deployment`. */
module DeploymentEngine {
  import opened Common
  import opened Store
  import GitHub
  import Vercel
  import Email
  import opened Deployment
  import DeploymentFacts

  class Engine {
    const context: Context
    const db: Database
    /** The effects of the engine so far, in order. */
    var trace: seq<Event>
    /** The tables as they were when the engine was made. */
    ghost const logs0: seq<LogEntry>
    ghost const projects0: map<string, Project>

    /** The log table and the project rows are the initial ones with the
        trace's rows appended and its updates applied. */
    ghost predicate Valid()
      reads this, db
    {
      db.logs == logs0 + LogsOf(trace) &&
      db.projects == ApplyPatches(projects0, context.projectId, PatchesOf(trace))
    }

    constructor (context: Context, db: Database)
      ensures this.context == context && this.db == db && trace == []
      ensures logs0 == db.logs && projects0 == db.projects
      ensures Valid()
    {
      this.context := context;
      this.db := db;
      trace := [];
      logs0 := db.logs;
      projects0 := db.projects;
    }

    /** `log(phase, phaseNumber, message, logType)`: one row. */
    method Log(phase: string, phaseNumber: int, message: string, logType: LogType)
      requires Valid()
      modifies this`trace, db`logs
      ensures Valid()
      ensures trace == old(trace) + [Deployment.Log(context, phase, phaseNumber, message, logType)]
    {
      var entry := LogEntry(context.projectId, phase, phaseNumber, message, logType);
      db.InsertLog(entry);
      LogsAppend(trace, [Logged(entry)]);
      PatchesAppend(trace, [Logged(entry)]);
      assert PatchesOf([Logged(entry)]) == [];
      assert PatchesOf(trace) + [] == PatchesOf(trace);
      trace := trace + [Logged(entry)];
    }

    /** One `update(...).eq('id', projectId)` of the project row. */
    method Patch(patch: ProjectPatch)
      requires Valid()
      modifies this`trace, db`projects
      ensures Valid()
      ensures trace == old(trace) + [Patched(patch)]
    {
      ghost var before := db.projects;
      db.PatchProject(context.projectId, patch);
      assert [patch][1..] == [];
      if context.projectId in before {
        assert ApplyAll(before[context.projectId], [patch]) == ApplyPatch(before[context.projectId], patch);
      }
      assert ApplyPatches(before, context.projectId, [patch]) == db.projects;
      LogsAppend(trace, [Patched(patch)]);
      PatchesAppend(trace, [Patched(patch)]);
      assert PatchesOf([Patched(patch)]) == [patch] + PatchesOf([]);
      ApplyPatchesAppend(projects0, context.projectId, PatchesOf(trace), [patch]);
      assert ApplyPatches(db.projects, context.projectId, []) == db.projects;
      assert LogsOf([Patched(patch)]) == [];
      assert LogsOf(trace) + [] == LogsOf(trace);
      assert PatchesOf(trace + [Patched(patch)]) == PatchesOf(trace) + [patch];
      assert ApplyPatches(projects0, context.projectId, PatchesOf(trace) + [patch]) == db.projects;
      trace := trace + [Patched(patch)];
    }

    /** `updateProjectStatus(status, metadata)`. */
    method UpdateProjectStatus(status: ProjectStatus, vercelUrl: Option<string>, completedAt: Option<string>,
                               errorMessage: Option<string>, now: string)
      requires Valid()
      modifies this`trace, db`projects
      ensures Valid()
      ensures trace == old(trace) + [Patched(StatusPatch(status, vercelUrl, completedAt, errorMessage, now))]
    {
      Patch(StatusPatch(status, vercelUrl, completedAt, errorMessage, now));
    }

    /** Effects that touch neither table: requests, the wait, the mail. */
    method Record(events: seq<Event>)
      requires Valid()
      requires NoLog(events) && NoPatch(events)
      modifies this`trace
      ensures Valid()
      ensures trace == old(trace) + events
    {
      LogsOfNone(events);
      PatchesOfNone(events);
      LogsAppend(trace, events);
      PatchesAppend(trace, events);
      ApplyPatchesAppend(projects0, context.projectId, PatchesOf(trace), []);
      trace := trace + events;
    }

    /** `phase1_analyzeRequirements`. */
    method AnalyzeRequirements(sv: Services, now: string) returns (r: Result<Spec, Error>)
      requires Valid()
      modifies this`trace, db`logs, db`projects
      ensures Valid()
      ensures trace == old(trace) + Phase1(context, sv, now).events
      ensures r == Phase1(context, sv, now).result
    {
      ghost var t0 := trace;
      StartAnalysis(now);
      DeploymentFacts.Phase1Cases(context, sv, now);
      var response := sv.llm(Phase1Request(context));
      if response.Failure? {
        return Failure(response.error);
      }
      var blocks := response.value;
      if |blocks| == 0 {
        return Failure(Error(None, NoContentMessage));
      }
      var content := ReplyText(blocks);
      var jsonMatch := JsonSpan(content);
      if jsonMatch.None? {
        return Failure(Error(None, "无法解析需求"));
      }
      var result := sv.parseJson(jsonMatch.value);
      if result.Failure? {
        return Failure(result.error);
      }
      var spec := result.value;
      LogSpec(spec);
      AppendAssoc(t0, Phase1Start(context, now), SpecLogs(context, spec));
      return Success(spec);
    }

    /** The start of phase 1: the first row, `processing`, the request. */
    method StartAnalysis(now: string)
      requires Valid()
      modifies this`trace, db`logs, db`projects
      ensures Valid()
      ensures trace == old(trace) + Phase1Start(context, now)
    {
      ghost var t0 := trace;
      Log("requirements", 1, "开始分析需求...", LogInfo);
      UpdateProjectStatus(StatusProcessing, None, None, None, now);
      var request := Phase1Request(context);
      Record([AskedLlm(request)]);
      ghost var l := Deployment.Log(context, "requirements", 1, "开始分析需求...", LogInfo);
      ghost var p := Patched(StatusOnly(StatusProcessing, now));
      assert trace == t0 + [l] + [p] + [AskedLlm(request)];
      assert [l] + [p] + [AskedLlm(request)] == Phase1Start(context, now);
      AppendAssoc(t0, [l], [p]);
      AppendAssoc(t0, [l] + [p], [AskedLlm(request)]);
    }

    /** The three rows about the analysed requirement. */
    method LogSpec(spec: Spec)
      requires Valid()
      modifies this`trace, db`logs
      ensures Valid()
      ensures trace == old(trace) + SpecLogs(context, spec)
    {
      ghost var t0 := trace;
      Log("requirements", 1, "项目名称：" + spec.projectName, LogSuccess);
      Log("requirements", 1, "技术栈：" + spec.framework, LogSuccess);
      Log("requirements", 1, "需要数据库：" + (if spec.needsDatabase then "是" else "否"), LogInfo);
      ghost var s := SpecLogs(context, spec);
      assert trace == t0 + [s[0]] + [s[1]] + [s[2]];
      AppendAssoc(t0, [s[0]], [s[1]]);
      AppendAssoc(t0, [s[0]] + [s[1]], [s[2]]);
      assert [s[0]] + [s[1]] + [s[2]] == s;
    }

    /** `phase2_generateCode`. */
    method GenerateCode() returns (path: string)
      requires Valid()
      modifies this`trace, db`logs
      ensures Valid()
      ensures trace == old(trace) + Phase2(context).events
      ensures Success(path) == Phase2(context).result
    {
      Log("code_generation", 2, "开始生成代码...", LogInfo);
      Log("code_generation", 2, "代码生成完成", LogSuccess);
      path := "/tmp/generated-code";
    }

    /** The start of phase 3: the log row and the existence check on a
        fresh GitHub client. */
    method CheckRepository(sv: Services, name: string) returns (exists_: Result<bool, Error>, github: GitHub.Service)
      requires Valid()
      modifies this`trace, db`logs
      ensures Valid() && fresh(github)
      ensures var c := GitHub.ExistsCall(context.credentials.githubUsername, sv.github, name);
              trace == old(trace) + ([Deployment.Log(context, "github", 3, "创建 GitHub 仓库...", LogInfo)] + GitHubEvents(c.sent)) &&
              exists_ == c.result
    {
      ghost var t0 := trace;
      Log("github", 3, "创建 GitHub 仓库...", LogInfo);
      github := new GitHub.Service(context.credentials.githubToken, context.credentials.githubUsername);
      exists_ := github.RepositoryExists(sv.github, name);
      ghost var c := GitHub.ExistsCall(context.credentials.githubUsername, sv.github, name);
      assert github.sent == c.sent && exists_ == c.result;
      GitHubRecord(github.sent);
      ghost var l := Deployment.Log(context, "github", 3, "创建 GitHub 仓库...", LogInfo);
      assert trace == (t0 + [l]) + GitHubEvents(c.sent);
      AppendAssoc(t0, [l], GitHubEvents(c.sent));
    }

    /** `phase3_createGitHubRepository`. */
    method CreateGitHubRepository(sv: Services, name: string, description: string) returns (r: Result<string, Error>)
      requires Valid()
      modifies this`trace, db`logs
      ensures Valid()
      ensures trace == old(trace) + Phase3(context, sv, name, description).events
      ensures r == Phase3(context, sv, name, description).result
    {
      ghost var t0 := trace;
      DeploymentFacts.Phase3Cases(context, sv, name, description);
      ghost var c := GitHub.ExistsCall(context.credentials.githubUsername, sv.github, name);
      ghost var checked := [Deployment.Log(context, "github", 3, "创建 GitHub 仓库...", LogInfo)] + GitHubEvents(c.sent);
      var exists_, github := CheckRepository(sv, name);
      if exists_.Failure? {
        return Failure(exists_.error);
      }
      if exists_.value {
        return Failure(Error(None, "仓库 " + name + " 已存在"));
      }
      var request := GitHub.CreateRequest(RepoOptions(name, description));
      var repoUrl := github.CreateRepository(sv.github, RepoOptions(name, description));
      Record([ToGitHub(request)]);
      assert trace == t0 + (checked + [ToGitHub(request)]);
      if repoUrl.Failure? {
        return Failure(repoUrl.error);
      }
      Log("github", 3, "仓库已创建：" + repoUrl.value, LogSuccess);
      assert trace == t0 + (checked + [ToGitHub(request), Deployment.Log(context, "github", 3, "仓库已创建：" + repoUrl.value, LogSuccess)]);
      return repoUrl;
    }

    method GitHubRecord(requests: seq<GitHub.Request>)
      requires Valid()
      modifies this`trace
      ensures Valid()
      ensures trace == old(trace) + GitHubEvents(requests)
    {
      DeploymentFacts.GitHubEventsShape(requests);
      Record(GitHubEvents(requests));
    }

    method VercelRecord(requests: seq<Vercel.Request>)
      requires Valid()
      modifies this`trace
      ensures Valid()
      ensures trace == old(trace) + VercelEvents(requests)
    {
      DeploymentFacts.VercelEventsShape(requests);
      Record(VercelEvents(requests));
    }

    /** `phase4_deployToVercel`, with a fresh Vercel client. */
    method DeployToVercel(sv: Services, name: string, githubUrl: string, framework: string) returns (r: Result<string, Error>)
      requires Valid()
      modifies this`trace, db`logs
      ensures Valid()
      ensures trace == old(trace) + Phase4(context, sv, name, githubUrl, framework).events
      ensures r == Phase4(context, sv, name, githubUrl, framework).result
    {
      ghost var t0 := trace;
      ghost var c := Vercel.CreateProjectCall(context.credentials.vercelTeamId, sv.vercel,
                                              Vercel.DeploymentOptions(name, githubUrl, Some(framework)));
      DeploymentFacts.Phase4Cases(context, sv, name, githubUrl, framework);
      Log("vercel", 4, "开始部署到 Vercel...", LogInfo);
      ghost var d := [Deployment.Log(context, "vercel", 4, "开始部署到 Vercel...", LogInfo)];
      var vercel := new Vercel.Service(context.credentials.vercelToken, context.credentials.vercelTeamId);
      Log("vercel", 4, "创建 Vercel 项目...", LogInfo);
      ghost var l := [Deployment.Log(context, "vercel", 4, "创建 Vercel 项目...", LogInfo)];
      AppendAssoc(t0, d, l);
      d := d + l;
      var project := vercel.CreateProjectOn(sv.vercel, Vercel.DeploymentOptions(name, githubUrl, Some(framework)));
      assert vercel.sent == c.sent;
      VercelRecord(vercel.sent);
      AppendAssoc(t0, d, VercelEvents(c.sent));
      d := d + VercelEvents(c.sent);
      if project.Failure? {
        return Failure(project.error);
      }
      var projectId := project.value.id;
      var env := ConfigureEnvironment(sv, vercel, projectId);
      AppendAssoc(t0, d, EnvStep(context, sv, projectId).events);
      d := d + EnvStep(context, sv, projectId).events;
      if env.Failure? {
        return Failure(env.error);
      }
      r := ConfigureProject(sv, vercel, name, projectId);
      AppendAssoc(t0, d, Phase4Configure(context, sv, name, projectId).events);
    }

    /** The environment-variable step of phase 4. */
    method ConfigureEnvironment(sv: Services, vercel: Vercel.Service, projectId: string) returns (r: Result<(), Error>)
      requires Valid()
      requires vercel.teamId == context.credentials.vercelTeamId
      modifies this`trace, db`logs, vercel`sent
      ensures Valid()
      ensures trace == old(trace) + EnvStep(context, sv, projectId).events
      ensures r == EnvStep(context, sv, projectId).result
    {
      var creds := context.credentials;
      if Truthy(creds.supabaseUrl) && Truthy(creds.supabaseAnonKey) {
        Log("vercel", 4, "配置环境变量...", LogInfo);
        var before := |vercel.sent|;
        r := vercel.AddEnvironmentVariables(sv.vercel, projectId,
                                            SupabaseVars(creds.supabaseUrl.value, creds.supabaseAnonKey.value));
        VercelRecord(vercel.sent[before..]);
      } else {
        r := Success(());
      }
    }

    /** Phase 4 after the environment: protection, the wait, the URL. */
    method ConfigureProject(sv: Services, vercel: Vercel.Service, name: string, projectId: string)
      returns (r: Result<string, Error>)
      requires Valid()
      requires vercel.teamId == context.credentials.vercelTeamId
      modifies this`trace, db`logs, vercel`sent
      ensures Valid()
      ensures trace == old(trace) + Phase4Configure(context, sv, name, projectId).events
      ensures r == Phase4Configure(context, sv, name, projectId).result
    {
      ghost var t0 := trace;
      ghost var teamId := context.credentials.vercelTeamId;
      ghost var request := Vercel.ProtectionRequest(teamId, projectId);
      ghost var u := Vercel.ProductionUrlCall(teamId, sv.vercel, name);
      ghost var configured := [Deployment.Log(context, "vercel", 4, "配置项目设置...", LogInfo), ToVercel(request)];
      ghost var waited := configured + [Waited(30000)] + VercelEvents(u.sent);
      DeploymentFacts.Phase4ConfigureCases(context, sv, name, projectId);
      Log("vercel", 4, "配置项目设置...", LogInfo);
      var protection := vercel.DisableDeploymentProtection(sv.vercel, projectId);
      Record([ToVercel(Vercel.ProtectionRequest(vercel.teamId, projectId))]);
      assert trace == t0 + configured;
      if protection.Failure? {
        return Failure(protection.error);
      }
      Record([Waited(30000)]);
      assert trace == t0 + (configured + [Waited(30000)]);
      var before := |vercel.sent|;
      var productionUrl := vercel.GetProductionUrl(sv.vercel, name);
      assert vercel.sent[before..] == u.sent;
      VercelRecord(vercel.sent[before..]);
      assert trace == t0 + waited;
      if productionUrl.Failure? {
        return productionUrl;
      }
      Log("vercel", 4, "部署成功：" + productionUrl.value, LogSuccess);
      AppendAssoc(t0, waited, [Deployment.Log(context, "vercel", 4, "部署成功：" + productionUrl.value, LogSuccess)]);
      return productionUrl;
    }

    /** `phase5_sendNotification`: a failed send is logged as a warning and
        not rethrown. */
    method SendNotification(sv: Services, name: string, deploymentUrl: string, githubUrl: string,
                            features: seq<string>, techStack: seq<string>)
      requires Valid()
      modifies this`trace, db`logs
      ensures Valid()
      ensures trace == old(trace) + Phase5(context, sv, name, deploymentUrl, githubUrl, features, techStack)
    {
      Log("notification", 5, "发送邮件通知...", LogInfo);
      var data := NotificationData(context, name, deploymentUrl, githubUrl, features, techStack);
      Record([Mailed(data)]);
      var sent := sv.mailer(data);
      if sent.Success? {
        Log("notification", 5, "邮件发送成功", LogSuccess);
      } else {
        Log("notification", 5, "邮件发送失败：" + sent.error.message, LogWarning);
      }
    }

    /** The `catch` of `execute`. */
    method Fail(e: Error, now: string) returns (outcome: Outcome)
      requires Valid()
      modifies this`trace, db`logs, db`projects
      ensures Valid()
      ensures trace == old(trace) + FailureRecord(context, now, e.message)
      ensures outcome == Failed(e.message)
    {
      Log("error", 0, "部署失败：" + e.message, LogError);
      UpdateProjectStatus(StatusFailed, None, None, Some(e.message), now);
      outcome := Failed(e.message);
    }

    /** `execute`: the phases in order; the first error is recorded and
        returned. */
    method Execute(sv: Services, now: string) returns (outcome: Outcome)
      requires Valid()
      modifies this`trace, db`logs, db`projects
      ensures Valid()
      ensures trace == old(trace) + Deployment.Execute(context, sv, now).events
      ensures outcome == Deployment.Execute(context, sv, now).outcome
    {
      ghost var t0 := trace;
      DeploymentFacts.ExecuteCases(context, sv, now);
      var spec := AnalyzeRequirements(sv, now);
      ghost var d := Phase1(context, sv, now).events;
      if spec.Failure? {
        outcome := Fail(spec.error, now);
        AppendAssoc(t0, d, FailureRecord(context, now, spec.error.message));
        return;
      }
      var s := spec.value;
      var _ := GenerateCode();
      AppendAssoc(t0, d, Phase2(context).events);
      d := d + Phase2(context).events;
      var githubUrl := CreateGitHubRepository(sv, s.projectName, s.description);
      AppendAssoc(t0, d, Phase3(context, sv, s.projectName, s.description).events);
      d := d + Phase3(context, sv, s.projectName, s.description).events;
      if githubUrl.Failure? {
        outcome := Fail(githubUrl.error, now);
        AppendAssoc(t0, d, FailureRecord(context, now, githubUrl.error.message));
        return;
      }
      Patch(DetailsOf(s, githubUrl.value));
      AppendAssoc(t0, d, [Patched(DetailsOf(s, githubUrl.value))]);
      d := d + [Patched(DetailsOf(s, githubUrl.value))];
      var deploymentUrl := DeployToVercel(sv, s.projectName, githubUrl.value, s.framework);
      AppendAssoc(t0, d, Phase4(context, sv, s.projectName, githubUrl.value, s.framework).events);
      d := d + Phase4(context, sv, s.projectName, githubUrl.value, s.framework).events;
      if deploymentUrl.Failure? {
        outcome := Fail(deploymentUrl.error, now);
        AppendAssoc(t0, d, FailureRecord(context, now, deploymentUrl.error.message));
        return;
      }
      UpdateProjectStatus(StatusSuccess, Some(deploymentUrl.value), Some(now), None, now);
      AppendAssoc(t0, d, [Patched(SuccessOf(deploymentUrl.value, now))]);
      d := d + [Patched(SuccessOf(deploymentUrl.value, now))];
      SendNotification(sv, s.projectName, deploymentUrl.value, githubUrl.value, s.features, TechStack(s.framework));
      AppendAssoc(t0, d, Phase5(context, sv, s.projectName, deploymentUrl.value, githubUrl.value, s.features, TechStack(s.framework)));
      outcome := Deployed(deploymentUrl.value, githubUrl.value);
    }
  }

  /** One run on a fresh engine: the database receives exactly the run's log
      rows and project updates. */
  method Deploy(context: Context, db: Database, sv: Services, now: string) returns (outcome: Outcome)
    modifies db`logs, db`projects
    ensures var run := Deployment.Execute(context, sv, now);
            outcome == run.outcome &&
            db.logs == old(db.logs) + LogsOf(run.events) &&
            db.projects == ApplyPatches(old(db.projects), context.projectId, PatchesOf(run.events))
  {
    var engine := new Engine(context, db);
    ghost var run := Deployment.Execute(context, sv, now);
    outcome := engine.Execute(sv, now);
    assert engine.trace == [] + run.events;
    EmptyAppend(run.events);
  }
}
