/** `POST /api/deploy` and the background job it starts
    (`executeDeploymentAsync`). The request passes, in this order, the
    sign-in check, the requirement check, the daily quota (with its reset
    on a new UTC day), and the credential checks; then a pending project
    row is created, the user's request count is raised, a pending task row
    is created, and the job is handed the engine's context. The job moves
    the task to processing, runs the engine, and marks the task completed
    or failed.

    The clock, `Date` parsing and the keys the database generates for new
    rows are inputs (`Environment`). */
module DeployRoute {
  import opened Common
  import opened Store
  import Deployment
  import DeploymentEngine

  datatype User = User(id: string, email: string)

  datatype ReplyBody =
    | ErrorBody(error: string)
    | Accepted(projectId: string, taskId: string, message: string)

  /** The status code and JSON body of the response. */
  datatype Reply = Reply(status: int, body: ReplyBody)

  /** What `executeDeploymentAsync` is called with. */
  datatype Job = Job(context: Deployment.Context, taskId: string)

  /** `now` is `new Date().toISOString()`; `toIsoString` is
      `new Date(x).toISOString()`, `None` where it throws (invalid date);
      the two keys are what the `projects` and `task_queue` inserts
      generate, or their write error. */
  datatype Environment = Environment(
    now: string,
    toIsoString: string -> Option<string>,
    projectKey: Result<string, Error>,
    taskKey: Result<string, Error>)

  /** The tables the route reads or writes. */
  datatype Tables = Tables(
    profiles: map<string, Profile>,
    projects: map<string, Project>,
    tasks: map<string, Task>,
    credentials: seq<CredentialRow>)

  datatype Outcome = Outcome(reply: Reply, job: Option<Job>, tables: Tables)

  const QuotaMessage: string := "今日配额已用完，请明天再试"
  const NoCredentialsMessage: string := "请先配置凭证"
  const TokensMessage: string := "GitHub 和 Vercel 凭证是必需的"
  const ProjectFailedMessage: string := "创建项目失败"
  const AcceptedMessage: string := "部署任务已创建，请稍候..."
  const PendingName: string := "生成中..."
  /** What reading `id` of the null `task` throws. */
  const NullTaskMessage: string := "Cannot read properties of null (reading 'id')"
  /** What `new Date(x).toISOString()` throws for an invalid date. */
  const InvalidDateMessage: string := "Invalid time value"

  /** The `catch` of the route: the error's message, or a fixed text when
      it is empty. */
  function InternalError(e: Error): (r: Reply)
    ensures r.status == 500 && r.body.ErrorBody?
    ensures e.message != "" ==> r.body.error == e.message
    ensures e.message == "" ==> r.body.error == "Internal server error"
  {
    Reply(500, ErrorBody(if e.message != "" then e.message else "Internal server error"))
  }

  /** `.toISOString().split('T')[0]`: the UTC calendar day. */
  function DatePart(iso: string): string
  {
    Split(iso, 'T')[0]
  }

  lemma DatePartOfIso(day: string, time: string)
    requires 'T' !in day
    ensures DatePart(day + "T" + time) == day
  {
    SplitAppend(day, 'T', time);
  }

  /** The day of the profile's last request, `None` for a falsy stored date. */
  function LastRequestDay(p: Profile, toIsoString: string -> Option<string>): (r: Result<Option<string>, Error>)
    ensures r.Failure? <==> Truthy(p.lastRequestDate) && toIsoString(p.lastRequestDate.value).None?
    ensures r.Success? && r.value.Some? ==>
              Truthy(p.lastRequestDate) && r.value.value == DatePart(toIsoString(p.lastRequestDate.value).value)
    ensures r == Success(None) <==> !Truthy(p.lastRequestDate)
  {
    if Truthy(p.lastRequestDate) then
      match toIsoString(p.lastRequestDate.value)
      case None => Failure(Error(None, InvalidDateMessage))
      case Some(iso) => Success(Some(DatePart(iso)))
    else Success(None)
  }

  /** The profile after the day rollover: a count of zero stamped with
      today when the last request was on another day (or never). */
  function Rolled(p: Profile, last: Option<string>, today: string): (q: Profile)
    ensures q.dailyRequestLimit == p.dailyRequestLimit
    ensures last == Some(today) ==> q == p
    ensures last != Some(today) ==> q.dailyRequestCount == 0 && q.lastRequestDate == Some(today)
  {
    if last != Some(today) then p.(dailyRequestCount := 0, lastRequestDate := Some(today)) else p
  }

  /** `increment_request_count(p_user_id)`: one more request on the
      user's profile row, if there is one. */
  function Increment(profiles: map<string, Profile>, userId: string): (m: map<string, Profile>)
    ensures m.Keys == profiles.Keys
    ensures forall k :: k in profiles && k != userId ==> m[k] == profiles[k]
    ensures userId in profiles ==>
              m[userId] == profiles[userId].(dailyRequestCount := profiles[userId].dailyRequestCount + 1)
  {
    if userId in profiles then
      profiles[userId := profiles[userId].(dailyRequestCount := profiles[userId].dailyRequestCount + 1)]
    else profiles
  }

  /** The row the route inserts; the engine fills in the details later. */
  function NewProject(userId: string, requirement: string): Project
  {
    Project(userId, PendingName, requirement, StatusPending, "nextjs", None, None, [], [], None, None, None)
  }

  /** The engine's context, built from the user, the project and the
      stored credentials. */
  function ContextFor(projectId: string, user: User, requirement: string, c: Credentials): (ctx: Deployment.Context)
    requires c.githubToken.Some? && c.vercelToken.Some?
    ensures ctx.projectId == projectId && ctx.userId == user.id && ctx.userEmail == user.email
    ensures ctx.requirement == requirement
    ensures ctx.credentials.githubToken == c.githubToken.value && ctx.credentials.vercelToken == c.vercelToken.value
    ensures ctx.credentials.githubUsername == c.githubUsername && ctx.credentials.vercelTeamId == c.vercelTeamId
    ensures ctx.credentials.supabaseUrl == c.supabaseUrl && ctx.credentials.supabaseAnonKey == c.supabaseAnonKey
  {
    Deployment.Context(projectId, user.id, user.email, requirement,
                       Deployment.EngineCredentials(c.githubToken.value, c.githubUsername, c.vercelToken.value,
                                                    c.vercelTeamId, c.supabaseUrl, c.supabaseAnonKey))
  }

  /** A generated key is usable when the insert succeeded; a key already
      in the table is the unique-constraint error. */
  predicate FreshKey<V>(key: Result<string, Error>, table: map<string, V>)
  {
    key.Success? && key.value !in table
  }

  /** The quota step: the profiles after the rollover write, and whether
      the request is admitted. Without a profile row there is no quota. */
  function Quota(profiles: map<string, Profile>, userId: string, env: Environment): Result<(map<string, Profile>, bool), Error>
  {
    if userId !in profiles then Success((profiles, true))
    else
      var p := profiles[userId];
      match LastRequestDay(p, env.toIsoString)
      case Failure(e) => Failure(e)
      case Success(last) =>
        var today := DatePart(env.now);
        var q := Rolled(p, last, today);
        Success((if last != Some(today) then profiles[userId := q] else profiles, q.dailyRequestCount < q.dailyRequestLimit))
  }

  /** `POST /api/deploy`, as a function of the tables before the request. */
  function Post(t: Tables, user: Option<User>, requirement: Result<Option<string>, Error>, env: Environment): Outcome
  {
    if user.None? then Outcome(Reply(401, ErrorBody("Unauthorized")), None, t)
    else if requirement.Failure? then Outcome(InternalError(requirement.error), None, t)
    else if !Truthy(requirement.value) then Outcome(Reply(400, ErrorBody("Requirement is required")), None, t)
    else
      match Quota(t.profiles, user.value.id, env)
      case Failure(e) => Outcome(InternalError(e), None, t)
      case Success((profiles, admitted)) =>
        var t1 := t.(profiles := profiles);
        if !admitted then Outcome(Reply(429, ErrorBody(QuotaMessage)), None, t1)
        else Admit(t1, user.value, requirement.value.value, env)
  }

  /** `POST` from the credential lookup on. */
  function Admit(t: Tables, user: User, requirement: string, env: Environment): Outcome
  {
    match SingleRow(t.credentials, user.id)
    case None => Outcome(Reply(400, ErrorBody(NoCredentialsMessage)), None, t)
    case Some(row) =>
      if !Truthy(row.fields.githubToken) || !Truthy(row.fields.vercelToken) then
        Outcome(Reply(400, ErrorBody(TokensMessage)), None, t)
      else if !FreshKey(env.projectKey, t.projects) then
        Outcome(Reply(500, ErrorBody(ProjectFailedMessage)), None, t)
      else
        var projectId := env.projectKey.value;
        var t2 := t.(projects := t.projects[projectId := NewProject(user.id, requirement)],
                     profiles := Increment(t.profiles, user.id));
        if !FreshKey(env.taskKey, t2.tasks) then
          Outcome(InternalError(Error(None, NullTaskMessage)), None, t2)
        else
          var taskId := env.taskKey.value;
          Outcome(Reply(200, Accepted(projectId, taskId, AcceptedMessage)),
                  Some(Job(ContextFor(projectId, user, requirement, row.fields), taskId)),
                  t2.(tasks := t2.tasks[taskId := Task(projectId, user.id, TaskPending, None, None)]))
  }

  function Snapshot(db: Database): Tables
    reads db
  {
    Tables(db.profiles, db.projects, db.tasks, db.credentials)
  }

  /** `POST /api/deploy` on the database, proved to do what `Post` says. */
  method HandlePost(db: Database, user: Option<User>, requirement: Result<Option<string>, Error>, env: Environment)
    returns (reply: Reply, job: Option<Job>)
    modifies db`profiles, db`projects, db`tasks
    ensures var o := Post(old(Snapshot(db)), user, requirement, env);
            reply == o.reply && job == o.job && Snapshot(db) == o.tables
  {
    if user.None? {
      return Reply(401, ErrorBody("Unauthorized")), None;
    }
    var u := user.value;
    if requirement.Failure? {
      return InternalError(requirement.error), None;
    }
    if !Truthy(requirement.value) {
      return Reply(400, ErrorBody("Requirement is required")), None;
    }
    var admitted := CheckQuota(db, u.id, env);
    if admitted.Failure? {
      return InternalError(admitted.error), None;
    }
    if !admitted.value {
      return Reply(429, ErrorBody(QuotaMessage)), None;
    }
    reply, job := AdmitOn(db, u, requirement.value.value, env);
  }

  /** The quota block of `POST`: the rollover write, then the limit. */
  method CheckQuota(db: Database, userId: string, env: Environment) returns (admitted: Result<bool, Error>)
    modifies db`profiles
    ensures var q := Quota(old(db.profiles), userId, env);
            (q.Failure? ==> admitted == Failure(q.error) && db.profiles == old(db.profiles)) &&
            (q.Success? ==> admitted == Success(q.value.1) && db.profiles == q.value.0)
  {
    if userId !in db.profiles {
      return Success(true);
    }
    var profile := db.profiles[userId];
    var today := DatePart(env.now);
    var last := LastRequestDay(profile, env.toIsoString);
    if last.Failure? {
      return Failure(last.error);
    }
    if last.value != Some(today) {
      db.UpdateProfile(userId, profile.(dailyRequestCount := 0, lastRequestDate := Some(today)));
      profile := profile.(dailyRequestCount := 0, lastRequestDate := Some(today));
    }
    admitted := Success(profile.dailyRequestCount < profile.dailyRequestLimit);
  }

  /** `POST` from the credential lookup on. */
  method AdmitOn(db: Database, u: User, requirement: string, env: Environment) returns (reply: Reply, job: Option<Job>)
    modifies db`profiles, db`projects, db`tasks
    ensures var o := Admit(old(Snapshot(db)), u, requirement, env);
            reply == o.reply && job == o.job && Snapshot(db) == o.tables
  {
    var row := SingleRow(db.credentials, u.id);
    if row.None? {
      return Reply(400, ErrorBody(NoCredentialsMessage)), None;
    }
    var fields := row.value.fields;
    if !Truthy(fields.githubToken) || !Truthy(fields.vercelToken) {
      return Reply(400, ErrorBody(TokensMessage)), None;
    }
    if !FreshKey(env.projectKey, db.projects) {
      return Reply(500, ErrorBody(ProjectFailedMessage)), None;
    }
    var projectId := env.projectKey.value;
    db.InsertProject(projectId, NewProject(u.id, requirement));
    if u.id in db.profiles {
      var profile := db.profiles[u.id];
      db.UpdateProfile(u.id, profile.(dailyRequestCount := profile.dailyRequestCount + 1));
    }
    if !FreshKey(env.taskKey, db.tasks) {
      return InternalError(Error(None, NullTaskMessage)), None;
    }
    var taskId := env.taskKey.value;
    db.InsertTask(taskId, Task(projectId, u.id, TaskPending, None, None));
    reply := Reply(200, Accepted(projectId, taskId, AcceptedMessage));
    job := Some(Job(ContextFor(projectId, u, requirement, fields), taskId));
  }

  /** The task row after the job: processing with its start time, then
      completed or failed with its end time. */
  function TaskAfterRun(tasks: map<string, Task>, id: string, succeeded: bool, startedAt: string, completedAt: string)
    : map<string, Task>
  {
    SetTask(SetTask(tasks, id, TaskProcessing, Some(startedAt), None), id,
            if succeeded then TaskCompleted else TaskFailed, None, Some(completedAt))
  }

  /** `executeDeploymentAsync`. The engine reports every failure in its
      result, so the `catch` of the job is not reachable in this model. */
  method RunJob(db: Database, job: Job, sv: Deployment.Services, startedAt: string, now: string, completedAt: string)
    returns (outcome: Deployment.Outcome)
    modifies db`tasks, db`logs, db`projects
    ensures var run := Deployment.Execute(job.context, sv, now);
            outcome == run.outcome &&
            db.tasks == TaskAfterRun(old(db.tasks), job.taskId, run.outcome.Deployed?, startedAt, completedAt) &&
            db.logs == old(db.logs) + Deployment.LogsOf(run.events) &&
            db.projects == Deployment.ApplyPatches(old(db.projects), job.context.projectId, Deployment.PatchesOf(run.events))
  {
    db.UpdateTask(job.taskId, TaskProcessing, Some(startedAt), None);
    outcome := DeploymentEngine.Deploy(job.context, db, sv, now);
    db.UpdateTask(job.taskId, if outcome.Deployed? then TaskCompleted else TaskFailed, None, Some(completedAt));
  }

  /** The request followed by the job it starts, one run after the other. */
  method Serve(db: Database, user: Option<User>, requirement: Result<Option<string>, Error>, env: Environment,
               sv: Deployment.Services, startedAt: string, now: string, completedAt: string)
    returns (reply: Reply)
    modifies db`profiles, db`projects, db`tasks, db`logs
    ensures reply == Post(old(Snapshot(db)), user, requirement, env).reply
  {
    var job;
    reply, job := HandlePost(db, user, requirement, env);
    if job.Some? {
      var _ := RunJob(db, job.value, sv, startedAt, now, completedAt);
    }
  }

  // ---------------------------------------------------------------------
  // Properties of the request gate.
  // ---------------------------------------------------------------------

  /** Without a signed-in user the reply is 401 and nothing is written. */
  lemma UnauthorizedFirst(t: Tables, requirement: Result<Option<string>, Error>, env: Environment)
    ensures Post(t, None, requirement, env) == Outcome(Reply(401, ErrorBody("Unauthorized")), None, t)
  {
  }

  /** A missing or empty requirement is a 400 and nothing is written. */
  lemma RequirementRequired(t: Tables, user: User, requirement: Option<string>, env: Environment)
    requires !Truthy(requirement)
    ensures Post(t, Some(user), Success(requirement), env) == Outcome(Reply(400, ErrorBody("Requirement is required")), None, t)
  {
  }

  /** With a profile row, the request is refused with 429 exactly when the
      count after the day rollover has reached the limit; a refused request
      writes only the rollover and starts nothing. */
  lemma QuotaGate(t: Tables, user: User, requirement: string, env: Environment)
    requires requirement != ""
    requires user.id in t.profiles
    requires LastRequestDay(t.profiles[user.id], env.toIsoString).Success?
    ensures var p := t.profiles[user.id];
            var q := Rolled(p, LastRequestDay(p, env.toIsoString).value, DatePart(env.now));
            var o := Post(t, Some(user), Success(Some(requirement)), env);
            (o.reply.status == 429 <==> q.dailyRequestCount >= q.dailyRequestLimit) &&
            (o.reply.status == 429 ==>
               o.job.None? && o.tables == t.(profiles := t.profiles[user.id := q]))
  {
    var p := t.profiles[user.id];
    var q := Rolled(p, LastRequestDay(p, env.toIsoString).value, DatePart(env.now));
    if q.dailyRequestCount < q.dailyRequestLimit {
      AdmitStatus(t.(profiles := t.profiles[user.id := q]), user, requirement, env);
    }
  }

  /** `Admit` never answers 429. */
  lemma AdmitStatus(t: Tables, user: User, requirement: string, env: Environment)
    ensures Admit(t, user, requirement, env).reply.status in {200, 400, 500}
  {
  }

  /** Without a profile row there is no quota: no 429 and no rollover. */
  lemma NoProfileNoQuota(t: Tables, user: User, requirement: string, env: Environment)
    requires requirement != ""
    requires user.id !in t.profiles
    ensures Post(t, Some(user), Success(Some(requirement)), env) == Admit(t, user, requirement, env)
    ensures Post(t, Some(user), Success(Some(requirement)), env).reply.status != 429
  {
    AdmitStatus(t, user, requirement, env);
  }

  /** Missing credentials, or a missing GitHub or Vercel token, is a 400
      that creates no project and no task and starts no job. */
  lemma CredentialsRequired(t: Tables, user: User, requirement: string, env: Environment)
    requires SingleRow(t.credentials, user.id).None? ||
             !Truthy(SingleRow(t.credentials, user.id).value.fields.githubToken) ||
             !Truthy(SingleRow(t.credentials, user.id).value.fields.vercelToken)
    ensures var o := Admit(t, user, requirement, env);
            o.reply.status == 400 && o.job.None? && o.tables == t
  {
  }

  /** A failed project insert is a 500 that leaves the request count as it
      was: the count is raised only after the project exists. */
  lemma CountOnlyAfterProject(t: Tables, user: User, requirement: string, env: Environment)
    requires !FreshKey(env.projectKey, t.projects)
    ensures var o := Admit(t, user, requirement, env);
            o.job.None? && o.tables == t && (o.reply.status == 400 || o.reply == Reply(500, ErrorBody(ProjectFailedMessage)))
  {
  }

  /** A failed task insert still leaves the pending project and the raised
      count behind, and answers 500 without starting a job. */
  lemma TaskInsertFailure(t: Tables, user: User, requirement: string, env: Environment)
    requires SingleRow(t.credentials, user.id).Some?
    requires Truthy(SingleRow(t.credentials, user.id).value.fields.githubToken)
    requires Truthy(SingleRow(t.credentials, user.id).value.fields.vercelToken)
    requires FreshKey(env.projectKey, t.projects)
    requires !FreshKey(env.taskKey, t.tasks)
    ensures var o := Admit(t, user, requirement, env);
            o.reply == Reply(500, ErrorBody(NullTaskMessage)) && o.job.None? &&
            o.tables.projects == t.projects[env.projectKey.value := NewProject(user.id, requirement)] &&
            o.tables.profiles == Increment(t.profiles, user.id) && o.tables.tasks == t.tasks
  {
  }

  /** An accepted request: the user is signed in, the requirement is
      present, the quota admits it, the credentials hold both tokens, and
      both inserts succeeded — and then the tables hold the pending project
      and the pending task, the count went up by one, and the job carries
      the new project's context. */
  lemma Accepted200(t: Tables, user: Option<User>, requirement: Result<Option<string>, Error>, env: Environment)
    ensures var o := Post(t, user, requirement, env);
            o.reply.status == 200 <==>
              user.Some? && requirement.Success? && Truthy(requirement.value) &&
              Quota(t.profiles, user.value.id, env).Success? && Quota(t.profiles, user.value.id, env).value.1 &&
              var t1 := t.(profiles := Quota(t.profiles, user.value.id, env).value.0);
              var row := SingleRow(t.credentials, user.value.id);
              row.Some? && Truthy(row.value.fields.githubToken) && Truthy(row.value.fields.vercelToken) &&
              FreshKey(env.projectKey, t.projects) && FreshKey(env.taskKey, t.tasks)
    ensures var o := Post(t, user, requirement, env);
            o.reply.status == 200 ==>
              var projectId := env.projectKey.value;
              var taskId := env.taskKey.value;
              var profiles := Quota(t.profiles, user.value.id, env).value.0;
              o.reply.body == Accepted(projectId, taskId, AcceptedMessage) &&
              o.tables.projects == t.projects[projectId := NewProject(user.value.id, requirement.value.value)] &&
              o.tables.tasks == t.tasks[taskId := Task(projectId, user.value.id, TaskPending, None, None)] &&
              o.tables.profiles == Increment(profiles, user.value.id) &&
              o.job.Some? && o.job.value.taskId == taskId &&
              o.job.value.context.projectId == projectId && o.job.value.context.requirement == requirement.value.value
  {
    if user.Some? && requirement.Success? && Truthy(requirement.value) {
      var q := Quota(t.profiles, user.value.id, env);
      if q.Success? {
        AdmitStatus(t.(profiles := q.value.0), user.value, requirement.value.value, env);
      }
    }
  }

  /** The job's task ends completed exactly when the engine deployed, with
      both timestamps written and its project and user kept. */
  lemma TaskLifecycle(tasks: map<string, Task>, id: string, succeeded: bool, startedAt: string, completedAt: string)
    requires id in tasks
    ensures var m := TaskAfterRun(tasks, id, succeeded, startedAt, completedAt);
            m.Keys == tasks.Keys &&
            m[id] == tasks[id].(status := if succeeded then TaskCompleted else TaskFailed,
                                startedAt := Some(startedAt), completedAt := Some(completedAt)) &&
            forall k :: k in tasks && k != id ==> m[k] == tasks[k]
  {
  }
}
