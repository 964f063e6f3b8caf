/** The application's database tables, as the routes and the deployment
    engine see them through the Supabase client: rows are values, each table
    is a field of one `Database` object, and an `update ... eq('id', x)` that
    matches no row changes nothing. Write errors are not modelled except where
    a caller inspects them. */
module Store {
  import opened Common

  /** `projects.status`: 'pending' | 'processing' | 'success' | 'failed'. */
  datatype ProjectStatus = StatusPending | StatusProcessing | StatusSuccess | StatusFailed

  /** `task_queue.status`: 'pending' | 'processing' | 'completed' | 'failed'. */
  datatype TaskStatus = TaskPending | TaskProcessing | TaskCompleted | TaskFailed

  /** `deployment_logs.log_type`: 'info' | 'success' | 'warning' | 'error'. */
  datatype LogType = LogInfo | LogSuccess | LogWarning | LogError

  datatype Project = Project(
    userId: string,
    name: string,
    description: string,
    status: ProjectStatus,
    framework: string,
    githubUrl: Option<string>,
    vercelUrl: Option<string>,
    features: seq<string>,
    techStack: seq<string>,
    errorMessage: Option<string>,
    completedAt: Option<string>,
    updatedAt: Option<string>)

  datatype Task = Task(
    projectId: string,
    userId: string,
    status: TaskStatus,
    startedAt: Option<string>,
    completedAt: Option<string>)

  /** One `deployment_logs` row (the engine always writes empty metadata). */
  datatype LogEntry = LogEntry(
    projectId: string,
    phase: string,
    phaseNumber: int,
    message: string,
    logType: LogType)

  /** One `user_profiles` row: the daily quota bucket. */
  datatype Profile = Profile(
    dailyRequestCount: int,
    dailyRequestLimit: int,
    lastRequestDate: Option<string>)

  /** The seven credential columns of `user_credentials`; `None` is SQL null. */
  datatype Credentials = Credentials(
    githubToken: Option<string>,
    githubUsername: Option<string>,
    vercelToken: Option<string>,
    vercelTeamId: Option<string>,
    supabaseUrl: Option<string>,
    supabaseAnonKey: Option<string>,
    supabaseProjectRef: Option<string>)

  datatype CredentialRow = CredentialRow(userId: string, fields: Credentials, updatedAt: Option<string>)

  datatype Role = User | Assistant

  /** One `messages` row; rows are kept in insertion (= `created_at`) order. */
  datatype MessageRow = MessageRow(conversationId: string, role: Role, content: string)

  /** The two kinds of `projects` update the engine issues. A `StatusPatch`
      writes `status` and `updated_at` and, for each metadata key that is
      present, that column; a `DetailsPatch` writes the analysed project
      details after the repository exists. */
  datatype ProjectPatch =
    | StatusPatch(status: ProjectStatus, vercelUrl: Option<string>, completedAt: Option<string>,
                  errorMessage: Option<string>, updatedAt: string)
    | DetailsPatch(name: string, description: string, framework: string, githubUrl: string,
                   features: seq<string>, techStack: seq<string>)

  function OrKeep<T>(update: Option<T>, current: Option<T>): Option<T>
  {
    if update.Some? then update else current
  }

  function ApplyPatch(p: Project, patch: ProjectPatch): (q: Project)
    ensures q.userId == p.userId
    ensures patch.StatusPatch? ==> q.status == patch.status && q.name == p.name && q.githubUrl == p.githubUrl
    ensures patch.DetailsPatch? ==> q.status == p.status && q.githubUrl == Some(patch.githubUrl)
    ensures patch.DetailsPatch? ==> q.name == patch.name && q.techStack == patch.techStack
  {
    match patch
    case StatusPatch(status, vercelUrl, completedAt, errorMessage, updatedAt) =>
      p.(status := status, vercelUrl := OrKeep(vercelUrl, p.vercelUrl),
         completedAt := OrKeep(completedAt, p.completedAt),
         errorMessage := OrKeep(errorMessage, p.errorMessage), updatedAt := Some(updatedAt))
    case DetailsPatch(name, description, framework, githubUrl, features, techStack) =>
      p.(name := name, description := description, framework := framework,
         githubUrl := Some(githubUrl), features := features, techStack := techStack)
  }

  /** `update(patch).eq('id', id)` on the projects table. */
  function UpdateProject(projects: map<string, Project>, id: string, patch: ProjectPatch): (m: map<string, Project>)
    ensures m.Keys == projects.Keys
    ensures forall k :: k in projects && k != id ==> m[k] == projects[k]
    ensures id in projects ==> m[id] == ApplyPatch(projects[id], patch)
  {
    if id in projects then projects[id := ApplyPatch(projects[id], patch)] else projects
  }

  /** `update({status, ...}).eq('id', id)` on the task table: the status is
      overwritten, each timestamp only when given. */
  function SetTask(tasks: map<string, Task>, id: string, status: TaskStatus,
                   startedAt: Option<string>, completedAt: Option<string>): (m: map<string, Task>)
    ensures m.Keys == tasks.Keys
    ensures forall k :: k in tasks && k != id ==> m[k] == tasks[k]
    ensures id in tasks ==> m[id].status == status && m[id].projectId == tasks[id].projectId &&
                            m[id].userId == tasks[id].userId
  {
    if id in tasks then
      tasks[id := tasks[id].(status := status, startedAt := OrKeep(startedAt, tasks[id].startedAt),
                             completedAt := OrKeep(completedAt, tasks[id].completedAt))]
    else tasks
  }

  /** Rows of `user_credentials` that belong to `userId`, in table order. */
  function RowsOf(rows: seq<CredentialRow>, userId: string): (r: seq<CredentialRow>)
    ensures |r| <= |rows|
    ensures forall k :: 0 <= k < |r| ==> r[k].userId == userId && r[k] in rows
    ensures forall row :: row in rows && row.userId == userId ==> row in r
  {
    if |rows| == 0 then []
    else if rows[0].userId == userId then [rows[0]] + RowsOf(rows[1..], userId)
    else RowsOf(rows[1..], userId)
  }

  /** `select(...).eq('user_id', userId).single()`: the row when exactly one
      matches; PostgREST reports PGRST116 for zero or for several rows. */
  function SingleRow(rows: seq<CredentialRow>, userId: string): (r: Option<CredentialRow>)
    ensures r.Some? <==> |RowsOf(rows, userId)| == 1
    ensures r.Some? ==> r.value in rows && r.value.userId == userId
  {
    var matching := RowsOf(rows, userId);
    if |matching| == 1 then Some(matching[0]) else None
  }

  class Database {
    var projects: map<string, Project>
    var tasks: map<string, Task>
    var logs: seq<LogEntry>
    var profiles: map<string, Profile>
    var credentials: seq<CredentialRow>
    var messages: seq<MessageRow>

    constructor ()
      ensures projects == map[] && tasks == map[] && logs == []
      ensures profiles == map[] && credentials == [] && messages == []
    {
      projects, tasks, logs := map[], map[], [];
      profiles, credentials, messages := map[], [], [];
    }

    /** `from('deployment_logs').insert(entry)`. */
    method InsertLog(entry: LogEntry)
      modifies this`logs
      ensures logs == old(logs) + [entry]
    {
      logs := logs + [entry];
    }

    /** `from('user_profiles').update(...).eq('user_id', userId)`, already
        applied to the row. */
    method UpdateProfile(userId: string, profile: Profile)
      modifies this`profiles
      ensures profiles == if userId in old(profiles) then old(profiles)[userId := profile] else old(profiles)
    {
      if userId in profiles {
        profiles := profiles[userId := profile];
      }
    }

    /** `from('projects').insert(row)` under the generated key `id`. */
    method InsertProject(id: string, row: Project)
      modifies this`projects
      ensures projects == old(projects)[id := row]
    {
      projects := projects[id := row];
    }

    /** `from('task_queue').insert(row)` under the generated key `id`. */
    method InsertTask(id: string, row: Task)
      modifies this`tasks
      ensures tasks == old(tasks)[id := row]
    {
      tasks := tasks[id := row];
    }

    /** `from('task_queue').update(...).eq('id', id)`. */
    method UpdateTask(id: string, status: TaskStatus, startedAt: Option<string>, completedAt: Option<string>)
      modifies this`tasks
      ensures tasks == SetTask(old(tasks), id, status, startedAt, completedAt)
    {
      tasks := SetTask(tasks, id, status, startedAt, completedAt);
    }

    /** `from('messages').insert(row)`. */
    method InsertMessage(row: MessageRow)
      modifies this`messages
      ensures messages == old(messages) + [row]
    {
      messages := messages + [row];
    }

    /** `from('projects').update(patch).eq('id', id)`. */
    method PatchProject(id: string, patch: ProjectPatch)
      modifies this`projects
      ensures projects == UpdateProject(old(projects), id, patch)
    {
      projects := UpdateProject(projects, id, patch);
    }
  }
}
