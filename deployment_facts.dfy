/** Properties of a deployment run: the order of its effects, what each
    failure stops, the terminal failure record, and the final project row. */
module DeploymentFacts {
  import opened Common
  import opened Store
  import GitHub
  import Vercel
  import Email
  import opened Deployment

  // ---------------------------------------------------------------------
  // What each phase can emit.
  // ---------------------------------------------------------------------

  lemma Phase1StartShape(ctx: Context, now: string)
    ensures var e := Phase1Start(ctx, now);
            InPhase(e, 1) && NoVercel(e) && NoGitHub(e) && NoMail(e) &&
            PatchesOf(e) == [StatusOnly(StatusProcessing, now)]
  {
    var e := Phase1Start(ctx, now);
    assert PatchesOf(e[2..]) == [];
    assert PatchesOf(e[1..]) == [StatusOnly(StatusProcessing, now)] + PatchesOf(e[2..]);
  }

  lemma Phase1Shape(ctx: Context, sv: Services, now: string)
    ensures var p := Phase1(ctx, sv, now);
            Phase1Start(ctx, now) <= p.events && InPhase(p.events, 1) &&
            NoVercel(p.events) && NoGitHub(p.events) && NoMail(p.events) &&
            PatchesOf(p.events) == [StatusOnly(StatusProcessing, now)]
  {
    var start := Phase1Start(ctx, now);
    Phase1StartShape(ctx, now);
    match sv.llm(Phase1Request(ctx))
    case Failure(e) =>
    case Success(blocks) =>
      if |blocks| > 0 {
        match JsonSpan(ReplyText(blocks))
        case None =>
        case Some(span) =>
          match sv.parseJson(span)
          case Failure(e) =>
          case Success(spec) =>
            var logs := SpecLogs(ctx, spec);
            assert Phase1(ctx, sv, now).events == start + logs;
            PatchesOfNone(logs);
            PatchesAppend(start, logs);
      }
  }

  lemma Phase2Shape(ctx: Context)
    ensures var p := Phase2(ctx);
            InPhase(p.events, 2) && NoVercel(p.events) && NoGitHub(p.events) && NoMail(p.events) &&
            NoPatch(p.events) && p.result.Success?
  {
  }

  lemma GitHubEventsShape(requests: seq<GitHub.Request>)
    ensures var e := GitHubEvents(requests);
            NoLog(e) && NoVercel(e) && NoMail(e) && NoPatch(e)
  {
  }

  lemma VercelEventsShape(requests: seq<Vercel.Request>)
    ensures var e := VercelEvents(requests);
            NoLog(e) && NoGitHub(e) && NoMail(e) && NoPatch(e)
  {
  }

  lemma Phase3Shape(ctx: Context, sv: Services, name: string, description: string)
    ensures var p := Phase3(ctx, sv, name, description);
            InPhase(p.events, 3) && NoVercel(p.events) && NoMail(p.events) && NoPatch(p.events)
  {
    var c := GitHub.ExistsCall(ctx.credentials.githubUsername, sv.github, name);
    GitHubEventsShape(c.sent);
  }

  lemma EnvStepShape(ctx: Context, sv: Services, projectId: string)
    ensures var e := EnvStep(ctx, sv, projectId).events;
            InPhase(e, 4) && NoGitHub(e) && NoMail(e) && NoPatch(e)
  {
    var creds := ctx.credentials;
    if Truthy(creds.supabaseUrl) && Truthy(creds.supabaseAnonKey) {
      var b := Vercel.EnvBatch(creds.vercelTeamId, sv.vercel, projectId,
                               SupabaseVars(creds.supabaseUrl.value, creds.supabaseAnonKey.value));
      VercelEventsShape(b.sent);
    }
  }

  lemma Phase4ConfigureShape(ctx: Context, sv: Services, name: string, projectId: string)
    ensures var e := Phase4Configure(ctx, sv, name, projectId).events;
            InPhase(e, 4) && NoGitHub(e) && NoMail(e) && NoPatch(e)
  {
    VercelEventsShape(Vercel.ProductionUrlCall(ctx.credentials.vercelTeamId, sv.vercel, name).sent);
  }

  /** Events of phase 4 only, none of them a GitHub request, a mail or a
      project write. */
  ghost predicate VercelPhaseOnly(e: seq<Event>)
  {
    InPhase(e, 4) && NoGitHub(e) && NoMail(e) && NoPatch(e)
  }

  lemma VercelPhaseOnlyAppend(a: seq<Event>, b: seq<Event>)
    requires VercelPhaseOnly(a) && VercelPhaseOnly(b)
    ensures VercelPhaseOnly(a + b)
  {
  }

  lemma Phase4Shape(ctx: Context, sv: Services, name: string, githubUrl: string, framework: string)
    ensures var p := Phase4(ctx, sv, name, githubUrl, framework);
            InPhase(p.events, 4) && NoGitHub(p.events) && NoMail(p.events) && NoPatch(p.events)
  {
    var c := Vercel.CreateProjectCall(ctx.credentials.vercelTeamId, sv.vercel,
                                      Vercel.DeploymentOptions(name, githubUrl, Some(framework)));
    Phase4Cases(ctx, sv, name, githubUrl, framework);
    var logs := [Log(ctx, "vercel", 4, "开始部署到 Vercel...", LogInfo)] +
                [Log(ctx, "vercel", 4, "创建 Vercel 项目...", LogInfo)];
    VercelEventsShape(c.sent);
    VercelPhaseOnlyAppend(logs, VercelEvents(c.sent));
    var created := logs + VercelEvents(c.sent);
    if c.result.Success? {
      var env := EnvStep(ctx, sv, c.result.value.id);
      EnvStepShape(ctx, sv, c.result.value.id);
      VercelPhaseOnlyAppend(created, env.events);
      if env.result.Success? {
        Phase4ConfigureShape(ctx, sv, name, c.result.value.id);
        VercelPhaseOnlyAppend(created + env.events, Phase4Configure(ctx, sv, name, c.result.value.id).events);
      }
    }
  }

  lemma Phase5Shape(ctx: Context, sv: Services, name: string, url: string, githubUrl: string,
                    features: seq<string>, techStack: seq<string>)
    ensures var e := Phase5(ctx, sv, name, url, githubUrl, features, techStack);
            |e| == 3 && InPhase(e, 5) && NoVercel(e) && NoGitHub(e) && NoPatch(e) &&
            e[1] == Mailed(NotificationData(ctx, name, url, githubUrl, features, techStack)) &&
            !e[0].Mailed? && !e[2].Mailed?
  {
  }

  // ---------------------------------------------------------------------
  // The run.
  // ---------------------------------------------------------------------

  lemma PrefixOfAppend<T>(a: seq<T>, b: seq<T>, c: seq<T>)
    requires a <= b
    ensures a <= b + c
  {
    assert (b + c)[..|a|] == b[..|a|];
  }

  /** A run begins with all of phase 1's events. */
  lemma RunStartsWithPhase1(ctx: Context, sv: Services, now: string)
    ensures Phase1(ctx, sv, now).events <= Execute(ctx, sv, now).events
  {
    var p1 := Phase1(ctx, sv, now);
    ExecuteCases(ctx, sv, now);
    PrefixOfAppend(p1.events, p1.events, []);
    assert p1.events <= p1.events + [];
    if p1.result.Failure? {
      PrefixOfAppend(p1.events, p1.events, FailureRecord(ctx, now, p1.result.error.message));
    } else {
      var spec := p1.result.value;
      var p3 := Phase3(ctx, sv, spec.projectName, spec.description);
      var p2 := Phase2(ctx).events;
      assert p1.events + [] == p1.events;
      PrefixOfAppend(p1.events, p1.events, p2);
      PrefixOfAppend(p1.events, p1.events + p2, p3.events);
      var repo := p1.events + p2 + p3.events;
      if p3.result.Failure? {
        PrefixOfAppend(p1.events, repo, FailureRecord(ctx, now, p3.result.error.message));
      } else {
        var githubUrl := p3.result.value;
        var p4 := Phase4(ctx, sv, spec.projectName, githubUrl, spec.framework);
        PrefixOfAppend(p1.events, repo, [Patched(DetailsOf(spec, githubUrl))]);
        PrefixOfAppend(p1.events, repo + [Patched(DetailsOf(spec, githubUrl))], p4.events);
        var deployed := repo + [Patched(DetailsOf(spec, githubUrl))] + p4.events;
        if p4.result.Failure? {
          PrefixOfAppend(p1.events, deployed, FailureRecord(ctx, now, p4.result.error.message));
        } else {
          PrefixOfAppend(p1.events, deployed, [Patched(SuccessOf(p4.result.value, now))]);
          PrefixOfAppend(p1.events, deployed + [Patched(SuccessOf(p4.result.value, now))],
                         Phase5(ctx, sv, spec.projectName, p4.result.value, githubUrl, spec.features, TechStack(spec.framework)));
        }
      }
    }
  }

  /** Every run starts by logging the start of the analysis, then marks the
      project `processing`, and only then asks the model. */
  lemma ProcessingBeforeLlm(ctx: Context, sv: Services, now: string)
    ensures var e := Execute(ctx, sv, now).events;
            |e| >= 3 &&
            e[0] == Logged(LogEntry(ctx.projectId, "requirements", 1, "开始分析需求...", LogInfo)) &&
            e[1] == Patched(StatusPatch(StatusProcessing, None, None, None, now)) &&
            e[2] == AskedLlm(LlmRequest(Model, 2048, Prompt(ctx.requirement)))
  {
    Phase1Shape(ctx, sv, now);
    RunStartsWithPhase1(ctx, sv, now);
    var p1 := Phase1(ctx, sv, now).events;
    var start := Phase1Start(ctx, now);
    var e := Execute(ctx, sv, now).events;
    assert |start| == 3 && start[0] == p1[0] && start[1] == p1[1] && start[2] == p1[2];
    assert e[0] == p1[0] && e[1] == p1[1] && e[2] == p1[2];
  }

  /** A reply without a `{...}` span ends the run with `无法解析需求` before
      any repository or deployment request. */
  lemma UnparseableReply(ctx: Context, sv: Services, now: string, blocks: seq<Block>)
    requires sv.llm(Phase1Request(ctx)) == Success(blocks)
    requires |blocks| > 0 && JsonSpan(ReplyText(blocks)).None?
    ensures Execute(ctx, sv, now) ==
            Run(Phase1Start(ctx, now) + FailureRecord(ctx, now, "无法解析需求"), Failed("无法解析需求"))
  {
  }

  /** The events up to the end of phase 3, when the analysis succeeded. */
  function UpToRepository(ctx: Context, sv: Services, now: string, spec: Spec): seq<Event>
  {
    Phase1(ctx, sv, now).events + Phase2(ctx).events + Phase3(ctx, sv, spec.projectName, spec.description).events
  }

  lemma UpToRepositoryShape(ctx: Context, sv: Services, now: string, spec: Spec)
    ensures var e := UpToRepository(ctx, sv, now, spec);
            PhasesOrdered(e) && PhasesWithin(e, 1, 3) && NoVercel(e) && NoMail(e) &&
            PatchesOf(e) == [StatusOnly(StatusProcessing, now)]
  {
    var p1 := Phase1(ctx, sv, now).events;
    var p2 := Phase2(ctx).events;
    var p3 := Phase3(ctx, sv, spec.projectName, spec.description).events;
    Phase1Shape(ctx, sv, now);
    Phase2Shape(ctx);
    Phase3Shape(ctx, sv, spec.projectName, spec.description);
    InPhaseOrdered(p1, 1);
    InPhaseOrdered(p2, 2);
    InPhaseOrdered(p3, 3);
    OrderedAppend(p1, p2, 1, 1, 2);
    OrderedAppend(p1 + p2, p3, 1, 2, 3);
    PatchesOfNone(p2);
    PatchesOfNone(p3);
    PatchesAppend(p1, p2);
    PatchesAppend(p1 + p2, p3);
  }

  /** When the repository already exists the run fails with `仓库 <name> 已存在`:
      no repository is created, nothing is sent to Vercel and no phase-4 row
      is logged. */
  lemma ExistingRepositoryStops(ctx: Context, sv: Services, now: string, spec: Spec)
    requires Phase1(ctx, sv, now).result == Success(spec)
    requires GitHub.ExistsCall(ctx.credentials.githubUsername, sv.github, spec.projectName).result == Success(true)
    ensures var r := Execute(ctx, sv, now);
            r.outcome == Failed("仓库 " + spec.projectName + " 已存在") &&
            (forall e :: e in r.events && e.ToGitHub? ==> !e.gh.CreateRepo?) &&
            NoVercel(r.events) && PhasesWithin(r.events, 0, 3)
  {
    var msg := "仓库 " + spec.projectName + " 已存在";
    Phase3Cases(ctx, sv, spec.projectName, spec.description);
    ExecuteCases(ctx, sv, now);
    UpToRepositoryShape(ctx, sv, now, spec);
    ExistingRepositoryEvents(ctx, sv, now, spec);
    assert Execute(ctx, sv, now) == Run(UpToRepository(ctx, sv, now, spec) + FailureRecord(ctx, now, msg), Failed(msg));
  }

  /** Up to the existence check, a run sends no repository creation. */
  lemma ExistingRepositoryEvents(ctx: Context, sv: Services, now: string, spec: Spec)
    requires GitHub.ExistsCall(ctx.credentials.githubUsername, sv.github, spec.projectName).result == Success(true)
    ensures forall e :: e in UpToRepository(ctx, sv, now, spec) && e.ToGitHub? ==> !e.gh.CreateRepo?
  {
    var c := GitHub.ExistsCall(ctx.credentials.githubUsername, sv.github, spec.projectName);
    var checked := [Log(ctx, "github", 3, "创建 GitHub 仓库...", LogInfo)] + GitHubEvents(c.sent);
    Phase3Cases(ctx, sv, spec.projectName, spec.description);
    Phase1Shape(ctx, sv, now);
    forall x | x in UpToRepository(ctx, sv, now, spec) && x.ToGitHub? ensures !x.gh.CreateRepo? {
      if x in Phase1(ctx, sv, now).events + Phase2(ctx).events {
      } else {
        assert x in checked;
        assert x in GitHubEvents(c.sent);
      }
    }
  }

  /** Execute, once the analysis and the repository step have succeeded. */
  lemma ReachesDeployment(ctx: Context, sv: Services, now: string, spec: Spec, githubUrl: string)
    requires Phase1(ctx, sv, now).result == Success(spec)
    requires Phase3(ctx, sv, spec.projectName, spec.description).result == Success(githubUrl)
    ensures Execute(ctx, sv, now) == AfterRepository(ctx, sv, now, UpToRepository(ctx, sv, now, spec), spec, githubUrl)
  {
  }

  lemma Parts<T>(e: seq<T>, x: T, p: seq<T>, tail: seq<T>)
    ensures var s := e + [x] + p + tail;
            |s| == |e| + 1 + |p| + |tail| && s[|e|] == x && s[..|e|] == e &&
            s[|e| + 1..|e| + 1 + |p|] == p
  {
    var s := e + [x] + p + tail;
    assert s == e + ([x] + (p + tail));
  }

  /** After phase 3 and before any phase-4 effect, the project row receives
      the analysed details, with `tech_stack = [framework, 'TypeScript',
      'Tailwind CSS']`; the phase-4 events follow it directly. */
  lemma DetailsBeforeDeployment(ctx: Context, sv: Services, now: string, spec: Spec, githubUrl: string)
    requires Phase1(ctx, sv, now).result == Success(spec)
    requires Phase3(ctx, sv, spec.projectName, spec.description).result == Success(githubUrl)
    ensures var r := Execute(ctx, sv, now);
            var k := |UpToRepository(ctx, sv, now, spec)|;
            var p4 := Phase4(ctx, sv, spec.projectName, githubUrl, spec.framework).events;
            k + 1 + |p4| <= |r.events| &&
            r.events[k] == Patched(DetailsPatch(spec.projectName, spec.description, spec.framework, githubUrl,
                                                spec.features, [spec.framework, "TypeScript", "Tailwind CSS"])) &&
            NoVercel(r.events[..k]) && PhasesWithin(r.events[..k], 1, 3) &&
            r.events[k + 1..k + 1 + |p4|] == p4
  {
    var e := UpToRepository(ctx, sv, now, spec);
    var p4 := Phase4(ctx, sv, spec.projectName, githubUrl, spec.framework);
    ReachesDeployment(ctx, sv, now, spec, githubUrl);
    UpToRepositoryShape(ctx, sv, now, spec);
    var x := Patched(DetailsOf(spec, githubUrl));
    var tail := TailAfterDeployment(ctx, sv, now, spec, githubUrl);
    Parts(e, x, p4.events, tail);
  }

  /** What follows the phase-4 events of a run. */
  function TailAfterDeployment(ctx: Context, sv: Services, now: string, spec: Spec, githubUrl: string): (tail: seq<Event>)
    ensures AfterRepository(ctx, sv, now, UpToRepository(ctx, sv, now, spec), spec, githubUrl).events ==
            UpToRepository(ctx, sv, now, spec) + [Patched(DetailsOf(spec, githubUrl))] +
            Phase4(ctx, sv, spec.projectName, githubUrl, spec.framework).events + tail
  {
    var p4 := Phase4(ctx, sv, spec.projectName, githubUrl, spec.framework);
    match p4.result
    case Failure(err) => FailureRecord(ctx, now, err.message)
    case Success(url) =>
      [Patched(SuccessOf(url, now))] +
      Phase5(ctx, sv, spec.projectName, url, githubUrl, spec.features, TechStack(spec.framework))
  }

  /** When the run reaches phase 5, the project is first marked `success`
      with its URL; then the mail is attempted exactly once, and its outcome
      only decides the last log row (a `warning` on failure). */
  lemma SuccessBeforeNotification(ctx: Context, sv: Services, now: string)
    requires Execute(ctx, sv, now).outcome.Deployed?
    ensures var r := Execute(ctx, sv, now);
            NotifiedLast(ctx, sv, now, r.outcome.deploymentUrl, r.events)
  {
    var spec, githubUrl, url := DeployedRun(ctx, sv, now);
    var p4 := Phase4(ctx, sv, spec.projectName, githubUrl, spec.framework);
    var front := UpToRepository(ctx, sv, now, spec) + [Patched(DetailsOf(spec, githubUrl))] + p4.events;
    UpToRepositoryShape(ctx, sv, now, spec);
    Phase4Shape(ctx, sv, spec.projectName, githubUrl, spec.framework);
    NoMailAppend(UpToRepository(ctx, sv, now, spec), [Patched(DetailsOf(spec, githubUrl))], p4.events);
    NotificationTail(ctx, sv, now, url, front, spec.projectName, githubUrl, spec.features, TechStack(spec.framework));
  }

  /** The end of a deployed run: the `success` update with `url`, the
      `发送邮件通知...` row, the one mail to the user, and the row whose type
      and text follow the mail's outcome; no mail before. */
  ghost predicate NotifiedLast(ctx: Context, sv: Services, now: string, url: string, e: seq<Event>)
  {
    var n := |e|;
    n >= 4 &&
    e[n - 4] == Patched(StatusPatch(StatusSuccess, Some(url), Some(now), None, now)) &&
    e[n - 3] == Logged(LogEntry(ctx.projectId, "notification", 5, "发送邮件通知...", LogInfo)) &&
    e[n - 2].Mailed? && e[n - 2].data.recipientEmail == ctx.userEmail &&
    NoMail(e[..n - 2]) && !e[n - 1].Mailed? &&
    (sv.mailer(e[n - 2].data).Success? ==>
       e[n - 1] == Logged(LogEntry(ctx.projectId, "notification", 5, "邮件发送成功", LogSuccess))) &&
    (sv.mailer(e[n - 2].data).Failure? ==>
       e[n - 1] == Logged(LogEntry(ctx.projectId, "notification", 5,
                                   "邮件发送失败：" + sv.mailer(e[n - 2].data).error.message, LogWarning)))
  }

  lemma NoMailAppend(a: seq<Event>, b: seq<Event>, c: seq<Event>)
    requires NoMail(a) && NoMail(b) && NoMail(c)
    ensures NoMail(a + b + c)
  {
  }

  lemma NotificationTail(ctx: Context, sv: Services, now: string, url: string, front: seq<Event>,
                         name: string, githubUrl: string, features: seq<string>, techStack: seq<string>)
    requires NoMail(front)
    ensures NotifiedLast(ctx, sv, now, url, front + [Patched(SuccessOf(url, now))] +
                                           Phase5(ctx, sv, name, url, githubUrl, features, techStack))
  {
    var p5 := Phase5(ctx, sv, name, url, githubUrl, features, techStack);
    Phase5Shape(ctx, sv, name, url, githubUrl, features, techStack);
    SuccessTail(front, Patched(SuccessOf(url, now)), p5);
  }

  lemma SuccessTail(front: seq<Event>, x: Event, p5: seq<Event>)
    requires |p5| == 3
    ensures var s := front + [x] + p5;
            var n := |s|;
            n == |front| + 4 && s[n - 4] == x && s[n - 3] == p5[0] && s[n - 2] == p5[1] && s[n - 1] == p5[2] &&
            s[..n - 2] == front + [x, p5[0]]
  {
  }

  /** The notification cannot change how a run ends. */
  lemma NotificationCannotFail(ctx: Context, sv: Services, now: string, mailer: Email.DeploymentEmailData -> Result<(), Error>)
    ensures Execute(ctx, sv.(mailer := mailer), now).outcome == Execute(ctx, sv, now).outcome
  {
    var sv' := sv.(mailer := mailer);
    ExecuteCases(ctx, sv, now);
    ExecuteCases(ctx, sv', now);
    MailerIrrelevant(ctx, sv, now, mailer);
  }

  /** Phases 1 to 4 do not use the mail transport. */
  lemma MailerIrrelevant(ctx: Context, sv: Services, now: string, mailer: Email.DeploymentEmailData -> Result<(), Error>)
    ensures var sv' := sv.(mailer := mailer);
            var p1 := Phase1(ctx, sv, now);
            Phase1(ctx, sv', now) == p1 &&
            (p1.result.Success? ==>
               var spec := p1.result.value;
               var p3 := Phase3(ctx, sv, spec.projectName, spec.description);
               Phase3(ctx, sv', spec.projectName, spec.description) == p3 &&
               (p3.result.Success? ==>
                  Phase4(ctx, sv', spec.projectName, p3.result.value, spec.framework) ==
                  Phase4(ctx, sv, spec.projectName, p3.result.value, spec.framework)))
  {
    var sv' := sv.(mailer := mailer);
    Phase1Mailer(ctx, sv, now, mailer);
    var p1 := Phase1(ctx, sv, now);
    if p1.result.Success? {
      var spec := p1.result.value;
      Phase3Mailer(ctx, sv, spec.projectName, spec.description, mailer);
      var p3 := Phase3(ctx, sv, spec.projectName, spec.description);
      if p3.result.Success? {
        Phase4Mailer(ctx, sv, spec.projectName, p3.result.value, spec.framework, mailer);
      }
    }
  }

  lemma Phase1Mailer(ctx: Context, sv: Services, now: string, mailer: Email.DeploymentEmailData -> Result<(), Error>)
    ensures Phase1(ctx, sv.(mailer := mailer), now) == Phase1(ctx, sv, now)
  {
  }

  lemma Phase3Mailer(ctx: Context, sv: Services, name: string, description: string,
                     mailer: Email.DeploymentEmailData -> Result<(), Error>)
    ensures Phase3(ctx, sv.(mailer := mailer), name, description) == Phase3(ctx, sv, name, description)
  {
  }

  lemma Phase4Mailer(ctx: Context, sv: Services, name: string, githubUrl: string, framework: string,
                     mailer: Email.DeploymentEmailData -> Result<(), Error>)
    ensures Phase4(ctx, sv.(mailer := mailer), name, githubUrl, framework) == Phase4(ctx, sv, name, githubUrl, framework)
  {
    var c := Vercel.CreateProjectCall(ctx.credentials.vercelTeamId, sv.vercel,
                                      Vercel.DeploymentOptions(name, githubUrl, Some(framework)));
    if c.result.Success? {
      EnvStepMailer(ctx, sv, c.result.value.id, mailer);
      ConfigureMailer(ctx, sv, name, c.result.value.id, mailer);
    }
  }

  lemma EnvStepMailer(ctx: Context, sv: Services, projectId: string, mailer: Email.DeploymentEmailData -> Result<(), Error>)
    ensures EnvStep(ctx, sv.(mailer := mailer), projectId) == EnvStep(ctx, sv, projectId)
  {
  }

  lemma ConfigureMailer(ctx: Context, sv: Services, name: string, projectId: string,
                        mailer: Email.DeploymentEmailData -> Result<(), Error>)
    ensures Phase4Configure(ctx, sv.(mailer := mailer), name, projectId) == Phase4Configure(ctx, sv, name, projectId)
  {
  }

  /** The events of a failed run before its failure record. */
  lemma FailedRunShape(ctx: Context, sv: Services, now: string) returns (before: seq<Event>)
    requires Execute(ctx, sv, now).outcome.Failed?
    ensures var r := Execute(ctx, sv, now);
            r.events == before + FailureRecord(ctx, now, r.outcome.error) &&
            PhasesOrdered(before) && PhasesWithin(before, 1, 4) && NoMail(before) &&
            1 <= |PatchesOf(before)| <= 2 && PatchesOf(before)[0] == StatusOnly(StatusProcessing, now) &&
            (|PatchesOf(before)| == 2 ==> PatchesOf(before)[1].DetailsPatch?)
  {
    var p1 := Phase1(ctx, sv, now);
    ExecuteCases(ctx, sv, now);
    if p1.result.Failure? {
      Phase1Shape(ctx, sv, now);
      InPhaseOrdered(p1.events, 1);
      before := p1.events;
    } else {
      var spec := p1.result.value;
      UpToRepositoryShape(ctx, sv, now, spec);
      var e := UpToRepository(ctx, sv, now, spec);
      var p3 := Phase3(ctx, sv, spec.projectName, spec.description);
      if p3.result.Failure? {
        before := e;
      } else {
        var githubUrl := p3.result.value;
        var p4 := Phase4(ctx, sv, spec.projectName, githubUrl, spec.framework);
        Phase4Shape(ctx, sv, spec.projectName, githubUrl, spec.framework);
        FailedDeploymentShape(e, StatusOnly(StatusProcessing, now), DetailsOf(spec, githubUrl), p4.events);
        before := e + [Patched(DetailsOf(spec, githubUrl))] + p4.events;
      }
    }
  }

  /** The events of a run that failed in phase 4, before its failure record. */
  lemma FailedDeploymentShape(e: seq<Event>, first: ProjectPatch, details: ProjectPatch, p4: seq<Event>)
    requires PhasesOrdered(e) && PhasesWithin(e, 1, 3) && NoMail(e) && PatchesOf(e) == [first]
    requires InPhase(p4, 4) && NoMail(p4) && NoPatch(p4)
    ensures var b := e + [Patched(details)] + p4;
            PhasesOrdered(b) && PhasesWithin(b, 1, 4) && NoMail(b) && PatchesOf(b) == [first, details]
  {
    var d := [Patched(details)];
    InPhaseOrdered(p4, 4);
    OrderedAppend(e, d, 1, 3, 3);
    OrderedAppend(e + d, p4, 1, 3, 4);
    PatchesOfNone(p4);
    PatchesAppend(e, d);
    PatchesAppend(e + d, p4);
  }

  /** A failed run ends with exactly one phase-0 `error` row, written after
      everything else it logged, and then the `failed` update carrying the
      message; no mail is attempted. */
  lemma FailureIsTerminal(ctx: Context, sv: Services, now: string)
    requires Execute(ctx, sv, now).outcome.Failed?
    ensures var r := Execute(ctx, sv, now);
            var e := r.events;
            var n := |e|;
            n >= 2 &&
            e[n - 2] == Logged(LogEntry(ctx.projectId, "error", 0, "部署失败：" + r.outcome.error, LogError)) &&
            e[n - 1] == Patched(StatusPatch(StatusFailed, None, None, Some(r.outcome.error), now)) &&
            PhasesWithin(e[..n - 2], 1, 5) && NoMail(e)
  {
    var before := FailedRunShape(ctx, sv, now);
    var r := Execute(ctx, sv, now);
    assert r.events[..|r.events| - 2] == before;
  }

  /** Log rows are written in phase order 1, 2, 3, 4, 5; a failed run's
      rows are in phase order up to its final phase-0 row. */
  lemma PhasesNeverDecrease(ctx: Context, sv: Services, now: string)
    ensures var r := Execute(ctx, sv, now);
            (r.outcome.Deployed? ==> PhasesOrdered(r.events) && PhasesWithin(r.events, 1, 5)) &&
            (r.outcome.Failed? ==> |r.events| >= 2 && PhasesOrdered(r.events[..|r.events| - 2]))
  {
    var r := Execute(ctx, sv, now);
    if r.outcome.Failed? {
      var before := FailedRunShape(ctx, sv, now);
      assert r.events[..|r.events| - 2] == before;
    } else {
      var spec, githubUrl, url := DeployedRun(ctx, sv, now);
      var p4 := Phase4(ctx, sv, spec.projectName, githubUrl, spec.framework).events;
      var p5 := Phase5(ctx, sv, spec.projectName, url, githubUrl, spec.features, TechStack(spec.framework));
      UpToRepositoryShape(ctx, sv, now, spec);
      Phase4Shape(ctx, sv, spec.projectName, githubUrl, spec.framework);
      Phase5Shape(ctx, sv, spec.projectName, url, githubUrl, spec.features, TechStack(spec.framework));
      DeployedOrdered(UpToRepository(ctx, sv, now, spec), DetailsOf(spec, githubUrl), p4, SuccessOf(url, now), p5);
    }
  }

  lemma DeployedOrdered(e: seq<Event>, details: ProjectPatch, p4: seq<Event>, success: ProjectPatch, p5: seq<Event>)
    requires PhasesOrdered(e) && PhasesWithin(e, 1, 3) && InPhase(p4, 4) && InPhase(p5, 5)
    ensures var s := e + [Patched(details)] + p4 + [Patched(success)] + p5;
            PhasesOrdered(s) && PhasesWithin(s, 1, 5)
  {
    var d := [Patched(details)];
    var x := [Patched(success)];
    InPhaseOrdered(p4, 4);
    InPhaseOrdered(p5, 5);
    OrderedAppend(e, d, 1, 3, 3);
    OrderedAppend(e + d, p4, 1, 3, 4);
    OrderedAppend(e + d + p4, x, 1, 4, 4);
    OrderedAppend(e + d + p4 + x, p5, 1, 4, 5);
  }

  // ---------------------------------------------------------------------
  // The project row.
  // ---------------------------------------------------------------------

  /** A deployed run updates the project three times: `processing`, the
      analysed details, and `success` with the deployment URL. */
  lemma DeployedPatches(ctx: Context, sv: Services, now: string)
    requires Execute(ctx, sv, now).outcome.Deployed?
    ensures var r := Execute(ctx, sv, now);
            var spec := Phase1(ctx, sv, now).result.value;
            PatchesOf(r.events) == [StatusOnly(StatusProcessing, now), DetailsOf(spec, r.outcome.githubUrl),
                                    SuccessOf(r.outcome.deploymentUrl, now)]
  {
    var spec, githubUrl, url := DeployedRun(ctx, sv, now);
    var p4 := Phase4(ctx, sv, spec.projectName, githubUrl, spec.framework).events;
    var p5 := Phase5(ctx, sv, spec.projectName, url, githubUrl, spec.features, TechStack(spec.framework));
    UpToRepositoryShape(ctx, sv, now, spec);
    Phase4Shape(ctx, sv, spec.projectName, githubUrl, spec.framework);
    Phase5Shape(ctx, sv, spec.projectName, url, githubUrl, spec.features, TechStack(spec.framework));
    ThreeWrites(UpToRepository(ctx, sv, now, spec), StatusOnly(StatusProcessing, now), DetailsOf(spec, githubUrl), p4,
                SuccessOf(url, now), p5);
  }

  lemma ThreeWrites(e: seq<Event>, first: ProjectPatch, details: ProjectPatch, p4: seq<Event>, success: ProjectPatch,
                    p5: seq<Event>)
    requires PatchesOf(e) == [first] && NoPatch(p4) && NoPatch(p5)
    ensures PatchesOf(e + [Patched(details)] + p4 + [Patched(success)] + p5) == [first, details, success]
  {
    var d := [Patched(details)];
    var x := [Patched(success)];
    PatchesOfNone(p4);
    PatchesOfNone(p5);
    PatchesAppend(e, d);
    PatchesAppend(e + d, p4);
    PatchesAppend(e + d + p4, x);
    PatchesAppend(e + d + p4 + x, p5);
  }

  /** The shape of a deployed run: every phase succeeded. */
  lemma DeployedRun(ctx: Context, sv: Services, now: string) returns (spec: Spec, githubUrl: string, url: string)
    requires Execute(ctx, sv, now).outcome.Deployed?
    ensures Phase1(ctx, sv, now).result == Success(spec)
    ensures Phase3(ctx, sv, spec.projectName, spec.description).result == Success(githubUrl)
    ensures Phase4(ctx, sv, spec.projectName, githubUrl, spec.framework).result == Success(url)
    ensures Execute(ctx, sv, now) ==
            Run(UpToRepository(ctx, sv, now, spec) + [Patched(DetailsOf(spec, githubUrl))] +
                Phase4(ctx, sv, spec.projectName, githubUrl, spec.framework).events + [Patched(SuccessOf(url, now))] +
                Phase5(ctx, sv, spec.projectName, url, githubUrl, spec.features, TechStack(spec.framework)),
                Deployed(url, githubUrl))
  {
    ExecuteCases(ctx, sv, now);
    spec := Phase1(ctx, sv, now).result.value;
    githubUrl := Phase3(ctx, sv, spec.projectName, spec.description).result.value;
    url := Phase4(ctx, sv, spec.projectName, githubUrl, spec.framework).result.value;
  }

  /** After a deployed run the project row is `success` with both URLs, the
      completion time and the analysed details; the previous error message is
      kept. Only that row changes. */
  lemma DeployedRow(ctx: Context, sv: Services, now: string, projects: map<string, Project>)
    requires ctx.projectId in projects
    requires Execute(ctx, sv, now).outcome.Deployed?
    ensures var r := Execute(ctx, sv, now);
            var spec := Phase1(ctx, sv, now).result.value;
            var m := ApplyPatches(projects, ctx.projectId, PatchesOf(r.events));
            var q := m[ctx.projectId];
            m.Keys == projects.Keys &&
            q.status == StatusSuccess && q.vercelUrl == Some(r.outcome.deploymentUrl) &&
            q.githubUrl == Some(r.outcome.githubUrl) && q.completedAt == Some(now) && q.updatedAt == Some(now) &&
            q.name == spec.projectName && q.framework == spec.framework && q.features == spec.features &&
            q.techStack == [spec.framework, "TypeScript", "Tailwind CSS"] &&
            q.errorMessage == projects[ctx.projectId].errorMessage
  {
    DeployedPatches(ctx, sv, now);
    var r := Execute(ctx, sv, now);
    var spec := Phase1(ctx, sv, now).result.value;
    var p0 := projects[ctx.projectId];
    var p1 := ApplyPatch(p0, StatusOnly(StatusProcessing, now));
    var p2 := ApplyPatch(p1, DetailsOf(spec, r.outcome.githubUrl));
    var p3 := ApplyPatch(p2, SuccessOf(r.outcome.deploymentUrl, now));
    var ps := PatchesOf(r.events);
    assert ApplyAll(p3, ps[3..]) == p3;
    assert ApplyAll(p2, ps[2..]) == p3;
    assert ApplyAll(p1, ps[1..]) == p3;
  }

  /** After a failed run the project row is `failed` and carries the error
      message; a deployment URL it did not have before is not set. */
  lemma FailedRow(ctx: Context, sv: Services, now: string, projects: map<string, Project>)
    requires ctx.projectId in projects
    requires Execute(ctx, sv, now).outcome.Failed?
    ensures var r := Execute(ctx, sv, now);
            var m := ApplyPatches(projects, ctx.projectId, PatchesOf(r.events));
            var q := m[ctx.projectId];
            m.Keys == projects.Keys &&
            q.status == StatusFailed && q.errorMessage == Some(r.outcome.error) && q.updatedAt == Some(now) &&
            q.vercelUrl == projects[ctx.projectId].vercelUrl &&
            q.completedAt == projects[ctx.projectId].completedAt
  {
    var r := Execute(ctx, sv, now);
    var id := ctx.projectId;
    var before := FailedRunShape(ctx, sv, now);
    var record := FailureRecord(ctx, now, r.outcome.error);
    var fp := StatusPatch(StatusFailed, None, None, Some(r.outcome.error), now);
    assert PatchesOf(record) == [fp] by {
      assert PatchesOf(record[1..]) == [fp] + PatchesOf(record[2..]);
    }
    PatchesAppend(before, record);
    var pb := PatchesOf(before);
    var p0 := projects[id];
    ApplyAllAppend(p0, pb, [fp]);
    var q1 := ApplyPatch(p0, pb[0]);
    var qb := ApplyAll(p0, pb);
    if |pb| == 1 {
      assert ApplyAll(q1, pb[1..]) == q1;
      assert qb == q1;
    } else {
      var q2 := ApplyPatch(q1, pb[1]);
      assert ApplyAll(q2, pb[2..]) == q2;
      assert ApplyAll(q1, pb[1..]) == q2;
      assert qb == q2;
    }
    assert qb.vercelUrl == p0.vercelUrl && qb.completedAt == p0.completedAt;
    var qf := ApplyPatch(qb, fp);
    assert ApplyAll(qf, []) == qf;
    assert ApplyAll(qb, [fp]) == qf;
  }

  // ---------------------------------------------------------------------
  // The Supabase environment variables.
  // ---------------------------------------------------------------------

  /** The environment step of phase 4 does nothing unless both the Supabase
      URL and the anonymous key are non-empty; otherwise it logs once and
      posts `NEXT_PUBLIC_SUPABASE_URL` and then `NEXT_PUBLIC_SUPABASE_ANON_KEY`,
      encrypted and for every target, stopping at the first rejection, and
      succeeds exactly when both were accepted. */
  lemma SupabaseEnvironment(ctx: Context, sv: Services, projectId: string)
    ensures var creds := ctx.credentials;
            var s := EnvStep(ctx, sv, projectId);
            (!(Truthy(creds.supabaseUrl) && Truthy(creds.supabaseAnonKey)) ==> s == Step([], Success(()))) &&
            (Truthy(creds.supabaseUrl) && Truthy(creds.supabaseAnonKey) ==>
               var url := Vercel.BaseUrl + "/v10/projects/" + projectId + "/env" + Vercel.TeamQuery(creds.vercelTeamId);
               var keys := ["NEXT_PUBLIC_SUPABASE_URL", "NEXT_PUBLIC_SUPABASE_ANON_KEY"];
               var values := [creds.supabaseUrl.value, creds.supabaseAnonKey.value];
               exists sent: seq<Vercel.Request> ::
                 s.events == [Log(ctx, "vercel", 4, "配置环境变量...", LogInfo)] + VercelEvents(sent) &&
                 1 <= |sent| <= 2 &&
                 (forall k :: 0 <= k < |sent| ==>
                    sent[k] == Vercel.AddEnv(url, keys[k], values[k], Vercel.Encrypted, Vercel.AllTargets)) &&
                 (s.result.Success? <==> |sent| == 2 && sv.vercel.addEnv(sent[0]).Success? &&
                                         sv.vercel.addEnv(sent[1]).Success?))
  {
    var creds := ctx.credentials;
    if Truthy(creds.supabaseUrl) && Truthy(creds.supabaseAnonKey) {
      var team := creds.vercelTeamId;
      var b := Vercel.EnvBatch(team, sv.vercel, projectId, SupabaseVars(creds.supabaseUrl.value, creds.supabaseAnonKey.value));
      SupabaseBatch(team, sv.vercel, projectId, creds.supabaseUrl.value, creds.supabaseAnonKey.value);
      assert EnvStep(ctx, sv, projectId) == Step([Log(ctx, "vercel", 4, "配置环境变量...", LogInfo)] + VercelEvents(b.sent), b.result);
    }
  }

  /** The batch of the two Supabase variables. */
  lemma SupabaseBatch(team: Option<string>, api: Vercel.Api, projectId: string, supabaseUrl: string, anonKey: string)
    ensures var b := Vercel.EnvBatch(team, api, projectId, SupabaseVars(supabaseUrl, anonKey));
            var url := Vercel.BaseUrl + "/v10/projects/" + projectId + "/env" + Vercel.TeamQuery(team);
            var keys := ["NEXT_PUBLIC_SUPABASE_URL", "NEXT_PUBLIC_SUPABASE_ANON_KEY"];
            var values := [supabaseUrl, anonKey];
            1 <= |b.sent| <= 2 &&
            (forall k :: 0 <= k < |b.sent| ==>
               b.sent[k] == Vercel.AddEnv(url, keys[k], values[k], Vercel.Encrypted, Vercel.AllTargets)) &&
            (b.result.Success? <==> |b.sent| == 2 && api.addEnv(b.sent[0]).Success? && api.addEnv(b.sent[1]).Success?)
  {
    var vars := SupabaseVars(supabaseUrl, anonKey);
    var b := Vercel.EnvBatch(team, api, projectId, vars);
    Vercel.EnvBatchInOrder(team, api, projectId, vars);
    Vercel.EnvBatchSucceeds(team, api, projectId, vars);
    Vercel.EnvBatchUnfold(team, api, projectId, vars);
    assert |b.sent| >= 1;
    assert b.sent[0] == Vercel.EnvRequest(team, projectId, vars[0]);
  }

  // ---------------------------------------------------------------------
  // Phase 3, branch by branch.
  // ---------------------------------------------------------------------

  lemma Phase1Cases(ctx: Context, sv: Services, now: string)
    ensures var p := Phase1(ctx, sv, now);
            var start := Phase1Start(ctx, now);
            var reply := sv.llm(Phase1Request(ctx));
            (reply.Failure? ==> p == Step(start, Failure(reply.error))) &&
            (reply.Success? && |reply.value| == 0 ==> p == Step(start, Failure(Error(None, NoContentMessage)))) &&
            (reply.Success? && |reply.value| > 0 ==>
               var span := JsonSpan(ReplyText(reply.value));
               (span.None? ==> p == Step(start, Failure(Error(None, "无法解析需求")))) &&
               (span.Some? ==>
                  var parsed := sv.parseJson(span.value);
                  (parsed.Failure? ==> p == Step(start, Failure(parsed.error))) &&
                  (parsed.Success? ==> p == Step(start + SpecLogs(ctx, parsed.value), Success(parsed.value)))))
  {
  }

  lemma Phase3Cases(ctx: Context, sv: Services, name: string, description: string)
    ensures var c := GitHub.ExistsCall(ctx.credentials.githubUsername, sv.github, name);
            var checked := [Log(ctx, "github", 3, "创建 GitHub 仓库...", LogInfo)] + GitHubEvents(c.sent);
            var request := GitHub.CreateRequest(RepoOptions(name, description));
            var p := Phase3(ctx, sv, name, description);
            (c.result.Failure? ==> p == Step(checked, Failure(c.result.error))) &&
            (c.result == Success(true) ==> p == Step(checked, Failure(Error(None, "仓库 " + name + " 已存在")))) &&
            (c.result == Success(false) && sv.github.createRepo(request).Failure? ==>
               p == Step(checked + [ToGitHub(request)], Failure(sv.github.createRepo(request).error))) &&
            (c.result == Success(false) && sv.github.createRepo(request).Success? ==>
               p == Step(checked + [ToGitHub(request),
                                    Log(ctx, "github", 3, "仓库已创建：" + sv.github.createRepo(request).value, LogSuccess)],
                         sv.github.createRepo(request)))
  {
  }

  lemma Phase4ConfigureCases(ctx: Context, sv: Services, name: string, projectId: string)
    ensures var teamId := ctx.credentials.vercelTeamId;
            var request := Vercel.ProtectionRequest(teamId, projectId);
            var u := Vercel.ProductionUrlCall(teamId, sv.vercel, name);
            var configured := [Log(ctx, "vercel", 4, "配置项目设置...", LogInfo), ToVercel(request)];
            var waited := configured + [Waited(30000)] + VercelEvents(u.sent);
            var p := Phase4Configure(ctx, sv, name, projectId);
            (sv.vercel.disableProtection(request).Failure? ==>
               p == Step(configured, Failure(sv.vercel.disableProtection(request).error))) &&
            (sv.vercel.disableProtection(request).Success? && u.result.Failure? ==> p == Step(waited, u.result)) &&
            (sv.vercel.disableProtection(request).Success? && u.result.Success? ==>
               p == Step(waited + [Log(ctx, "vercel", 4, "部署成功：" + u.result.value, LogSuccess)], u.result))
  {
  }

  /** The branches of phase 4, with the events in the order the engine
      appends them. */
  lemma Phase4Cases(ctx: Context, sv: Services, name: string, githubUrl: string, framework: string)
    ensures var c := Vercel.CreateProjectCall(ctx.credentials.vercelTeamId, sv.vercel,
                                              Vercel.DeploymentOptions(name, githubUrl, Some(framework)));
            var created := [Log(ctx, "vercel", 4, "开始部署到 Vercel...", LogInfo)] +
                           [Log(ctx, "vercel", 4, "创建 Vercel 项目...", LogInfo)] + VercelEvents(c.sent);
            var p := Phase4(ctx, sv, name, githubUrl, framework);
            (c.result.Failure? ==> p == Step(created, Failure(c.result.error))) &&
            (c.result.Success? && EnvStep(ctx, sv, c.result.value.id).result.Failure? ==>
               p == Step(created + EnvStep(ctx, sv, c.result.value.id).events,
                         Failure(EnvStep(ctx, sv, c.result.value.id).result.error))) &&
            (c.result.Success? && EnvStep(ctx, sv, c.result.value.id).result.Success? ==>
               p == Step(created + EnvStep(ctx, sv, c.result.value.id).events +
                         Phase4Configure(ctx, sv, name, c.result.value.id).events,
                         Phase4Configure(ctx, sv, name, c.result.value.id).result))
  {
    var c := Vercel.CreateProjectCall(ctx.credentials.vercelTeamId, sv.vercel,
                                      Vercel.DeploymentOptions(name, githubUrl, Some(framework)));
    assert [Log(ctx, "vercel", 4, "开始部署到 Vercel...", LogInfo), Log(ctx, "vercel", 4, "创建 Vercel 项目...", LogInfo)] ==
           [Log(ctx, "vercel", 4, "开始部署到 Vercel...", LogInfo)] + [Log(ctx, "vercel", 4, "创建 Vercel 项目...", LogInfo)];
  }

  /** The branches of `execute`, with the events in the order the engine
      appends them. */
  lemma ExecuteCases(ctx: Context, sv: Services, now: string)
    ensures var p1 := Phase1(ctx, sv, now);
            var run := Execute(ctx, sv, now);
            (p1.result.Failure? ==>
               run == Run(p1.events + FailureRecord(ctx, now, p1.result.error.message), Failed(p1.result.error.message))) &&
            (p1.result.Success? ==>
               var spec := p1.result.value;
               var p3 := Phase3(ctx, sv, spec.projectName, spec.description);
               var repo := p1.events + Phase2(ctx).events + p3.events;
               (p3.result.Failure? ==>
                  run == Run(repo + FailureRecord(ctx, now, p3.result.error.message), Failed(p3.result.error.message))) &&
               (p3.result.Success? ==>
                  var githubUrl := p3.result.value;
                  var p4 := Phase4(ctx, sv, spec.projectName, githubUrl, spec.framework);
                  var deployed := repo + [Patched(DetailsOf(spec, githubUrl))] + p4.events;
                  (p4.result.Failure? ==>
                     run == Run(deployed + FailureRecord(ctx, now, p4.result.error.message), Failed(p4.result.error.message))) &&
                  (p4.result.Success? ==>
                     run == Run(deployed + [Patched(SuccessOf(p4.result.value, now))] +
                                Phase5(ctx, sv, spec.projectName, p4.result.value, githubUrl, spec.features, TechStack(spec.framework)),
                                Deployed(p4.result.value, githubUrl)))))
  {
  }
}
