# Claude Code Online deployment pipeline, in Dafny

This project models the core of Claude Code Online. The service takes a
natural-language requirement from a signed-in user and turns it into a
deployed web application. The model covers:

- the request gate with its daily quota (`POST /api/deploy`);
- the deployment engine's five phases:
  1. analyse the requirement with the model;
  2. a code-generation stub;
  3. create the GitHub repository;
  4. set up the Vercel project;
  5. send the notification mail;
- the GitHub and Vercel helpers;
- the notification mail's text;
- the health check;
- the credentials API and the token masking on the credentials page;
- the chat route's SSE relay, and the chat page's decoder for it.

Supabase is modelled as a `Database` class whose fields are the tables
(`store.dfy`). The Anthropic model, Octokit, the Vercel REST API and the
mail transport are modelled as oracles: functions from a request to a
success value or an `Error`, passed in as `Services` (`deployment.dfy`).
The engine's mail oracle is `sendDeploymentEmail` as the engine sees it: it
takes the notification data, and its answer is the transport's verdict on
the message `Email.DeploymentMail` builds from those data. A run's mail
event records those data.
The following are parameters of the operations that read them:

- the clock (`now`, ISO strings, `Date.now()`);
- the ids Supabase generates;
- `Date#toISOString`;
- `JSON.parse`;
- the request bodies.

The deployment engine is a class (`DeploymentEngine.Engine`). Each of its
methods is proved to append exactly the events of a pure specification
function in `Deployment` to a ghost trace. The class invariant `Valid()`
states that the database's log and project tables are the log and patch
events of that trace. The properties of a whole run are lemmas about
`Deployment.Execute`, in `deployment_facts.dfy`:

- the ordering of the phases;
- the terminal failure record;
- which phases do not run after an error;
- the final project row.

Where the source has a defect, listed under "## Findings", the operations
compute what the code as written does. The corrected definition sits beside
it, with the intended property proved about it.

Module layout:

| file | module | models |
|---|---|---|
| `common.dfy` | `Common` | `Option`, `Result`, the error shape, truthiness, and the string helpers (`split`, `join`, `indexOf`, `replace`) |
| `store.dfy` | `Store` | the Supabase tables and their rows |
| `github.dfy` | `GitHub` | `lib/github.ts` |
| `vercel.dfy` | `Vercel` | `lib/vercel.ts` |
| `email.dfy` | `Email` | `lib/email.ts` |
| `deployment.dfy` | `Deployment` | the pure specification of `lib/deployment-engine.ts` |
| `deployment_engine.dfy` | `DeploymentEngine` | the `DeploymentEngine` class |
| `deployment_facts.dfy` | `DeploymentFacts` | properties of a run |
| `deploy_route.dfy` | `DeployRoute` | `app/api/deploy/route.ts` |
| `health.dfy` | `Health` | `app/api/health/route.ts` |
| `credentials_route.dfy` | `CredentialsRoute` | `app/api/credentials/route.ts` |
| `credentials_page.dfy` | `CredentialsPage` | `maskToken` in `app/dashboard/credentials/page.tsx` |
| `json.dfy` | `Json` | `JSON.stringify` and `JSON.parse` of a string |
| `chat_route.dfy` | `ChatRoute` | `app/api/chat/route.ts` |
| `chat_page.dfy` | `ChatPage` | `handleSend` in `app/dashboard/chat/page.tsx` |

## Model

| member | source | states |
|---|---|---|
| Store.ApplyPatch | lib/deployment-engine.ts:56-68 | a status patch changes the status and keeps the name and GitHub URL; a details patch sets the name, the URL and the tech stack and keeps the status; the owner never changes |
| Store.UpdateProject | lib/deployment-engine.ts:60-67 | the `update ... eq('id')` touches only the row with that id; no row is added or removed |
| Store.SetTask | app/api/deploy/route.ts:159-165 | the task update sets that task's status and keeps its project and user; other tasks and the key set are unchanged |
| Store.RowsOf | app/api/credentials/route.ts:15-19 | the `eq('user_id')` selection holds exactly that user's rows, each taken from the table |
| Store.SingleRow | app/api/credentials/route.ts:15-19 | `.single()` yields a row exactly when the user has exactly one row |
| Store.Database.InsertLog | lib/deployment-engine.ts:41-48 | the log table gains exactly the new row at its end |
| Store.Database.UpdateProfile | app/api/deploy/route.ts:45-50 | the update changes the user's profile only if it exists |
| Store.Database.InsertProject | app/api/deploy/route.ts:83-94 | the project table gains the row under its new id |
| Store.Database.InsertTask | app/api/deploy/route.ts:106-114 | the task table gains the row under its new id |
| Store.Database.UpdateTask | app/api/deploy/route.ts:159-189 | the task table becomes `SetTask` of the old one |
| Store.Database.InsertMessage | app/api/chat/route.ts:30-34 | the message table gains the row at its end |
| Store.Database.PatchProject | lib/deployment-engine.ts:56-68 | the project table becomes `UpdateProject` of the old one |
| GitHub.UsernameCall | lib/github.ts:28-36 | a configured username is returned with no request; otherwise exactly one `getAuthenticated` request is made, and a successful login is cached |
| GitHub.UsernameFetchedOnce | lib/github.ts:28-36 | a second call after a successful fetch makes no request and returns the same login: at most one request over both calls |
| GitHub.ExistsFromResponse | lib/github.ts:55-69 | true exactly on success, false exactly on a 404 error, and any other error is passed on unchanged |
| GitHub.ExistsCall | lib/github.ts:55-69 | the repository lookup uses the resolved username as owner; a username failure is passed on through the same error mapping |
| GitHub.CreateRequest | lib/github.ts:41-50 | the request keeps the name and description; `private` is true only when set to true; `auto_init` is false |
| GitHub.RemoteUrl | lib/github.ts:97-101 | the URL is, part by part, `https://`, the credential, `@github.com/`, `<username>/<repo>` and `.git` |
| GitHub.RemoteUrlCredential | lib/github.ts:97-101 | two URLs for the same repository are equal exactly when their credentials are |
| GitHub.RemoteUrlSegments | lib/github.ts:97-101 | for usernames without `/`, the URL determines the username and the repository name |
| GitHub.Service.constructor | lib/github.ts:18-23 | the service keeps the token and the configured username and has sent nothing |
| GitHub.Service.GetUsername | lib/github.ts:28-36 | the requests sent, the result and the cached field are those of `UsernameCall` |
| GitHub.Service.RepositoryExists | lib/github.ts:55-69 | the requests sent, the result and the cached field are those of `ExistsCall` |
| GitHub.Service.CreateRepository | lib/github.ts:41-50 | exactly one create request, `CreateRequest(options)`, is sent, and its answer is the result |
| GitHub.Service.GetRepository | lib/github.ts:74-81 | the owner is the resolved username; no request is made for the repository when resolving it fails |
| GitHub.Service.DeleteRepository | lib/github.ts:86-92 | the owner is the resolved username; no delete is sent when resolving it fails |
| GitHub.Service.GetRemoteUrl | lib/github.ts:97-101 | a failed username lookup is passed through; otherwise the result is `RemoteUrl` over the text of `octokit.auth` (`AuthHookText`) and the resolved username |
| GitHub.RemoteUrlIgnoresToken | lib/github.ts:99-100 | the URL as written differs from the URL built with any token other than the hook's text |
| GitHub.Service.GetTokenRemoteUrl | lib/github.ts:97-101 | the corrected push URL: `RemoteUrl` over the configured token and the resolved username |
| GitHub.UsernameIsCached | lib/github.ts:28-36 | two calls cost no request with a configured username and exactly one otherwise, and return the same value |
| Vercel.TeamQuery | lib/vercel.ts:38-40 | the query is empty exactly when no team id is set, and otherwise is `?teamId=` followed by the id |
| Vercel.MatchAt | lib/vercel.ts:49-52 | a match at a position is `github.com/<owner>/<repo>` there, with both parts non-empty and free of `/`, and the repository part runs to the next `/` or to the end, as the greedy `([^/]+)` takes it |
| Vercel.MatchAtComplete | lib/vercel.ts:49-52 | conversely, every such occurrence with a maximal repository part is the match at its position |
| Vercel.MatchFrom | lib/vercel.ts:49-52 | a result is the match at some position at or after the start with no match at any position before it (the leftmost one), and there is no result exactly when no later position matches |
| Vercel.ParseGitHubUrl | lib/vercel.ts:49-52 | a parsed URL contains `github.com/<owner>/<repo>` with both parts non-empty and free of `/`; the result is the match at some position with no match at any earlier one (the leftmost, with the repository part maximal by `MatchAt`); `None`, the `Invalid GitHub URL` path, exactly when no position matches |
| Vercel.ParseHtmlUrl | lib/vercel.ts:49-52 | the `html_url` GitHub returns for a repository parses back to its owner and name |
| Vercel.RepoRefAsWrittenAgrees | lib/vercel.ts:54-55 | for a name that holds no `.git`, the reference as written and as corrected are both `owner/name` |
| Vercel.StripGitSuffix | lib/vercel.ts:54-55 | a trailing `.git` is removed and nothing else changes |
| Vercel.RepoRefAsWrittenMangles | lib/vercel.ts:55 | with the first `.git` removed wherever it occurs, a name holding `.git` in its middle loses those characters |
| Vercel.RepoRefOfRepository | lib/vercel.ts:54-64 | the reference is `owner/name` for a repository URL, with or without a trailing `.git` |
| Vercel.CreateProjectCall | lib/vercel.ts:45-71 | an unparseable URL fails with `Invalid GitHub URL` and sends nothing; otherwise one create request goes to `/v9/projects` with the team query, the reference as written (`RepoRefAsWritten`: the first `.git` removed), the name, and the framework defaulted to `nextjs` |
| Vercel.EnvBatch | lib/vercel.ts:114-121 | at most one request per variable is sent |
| Vercel.EnvBatchInOrder | lib/vercel.ts:114-121 | the k-th request sent is for the k-th variable, with the defaults of `addEnvironmentVariable` |
| Vercel.EnvBatchSucceeds | lib/vercel.ts:114-121 | the batch succeeds exactly when every variable was sent and each was accepted |
| Vercel.EnvBatchStopsAtFirstFailure | lib/vercel.ts:114-121 | a failure is the answer to the last request sent, which follows only accepted ones |
| Vercel.EnvBatchUnfold | lib/vercel.ts:114-121 | the first variable is sent first, and a failure there ends the batch |
| Vercel.ProductionUrl | lib/vercel.ts:176-182 | `https://` plus `targets.production.url` when present, else `https://<projectName>.vercel.app` |
| Vercel.ProductionUrlCall | lib/vercel.ts:176-182 | one project lookup is sent; its failure is the result, and otherwise the result is `ProductionUrl` |
| Vercel.Service.constructor | lib/vercel.ts:26-29 | the service keeps the token and the team id and has sent nothing |
| Vercel.Service.CreateProjectOn | lib/vercel.ts:45-71 | the requests sent and the result are those of `CreateProjectCall` |
| Vercel.Service.GetProjectOn | lib/vercel.ts:76-80 | one lookup of `/v9/projects/<name>` with the team query is sent, and its answer is the result |
| Vercel.Service.AddEnvironmentVariable | lib/vercel.ts:93-109 | one env request with `type` defaulted to `encrypted` and `target` to all three environments is sent |
| Vercel.Service.AddEnvironmentVariables | lib/vercel.ts:114-121 | the loop sends and returns what `EnvBatch` does |
| Vercel.Service.DisableDeploymentProtection | lib/vercel.ts:142-153 | one protection request is sent, and its answer is the result |
| Vercel.Service.GetProductionUrl | lib/vercel.ts:176-182 | the requests sent and the result are those of `ProductionUrlCall` |
| Email.Bullets | lib/email.ts:104 | one line `- f` per feature, in input order |
| Email.DeploymentMail | lib/email.ts:113-119 | the mail goes to the recipient, under `Subject(projectName)` |
| Email.SubjectNamesProject | lib/email.ts:116 | the subject holds the project name at a fixed place, so different projects give different subjects |
| Email.FeatureLinesRoundTrip | lib/email.ts:104 | splitting the feature block at line breaks gives back exactly the bullet lines |
| Email.TechLineInOrder | lib/email.ts:107 | the tech line is the entries joined with `, `, split at any entry |
| Email.TaggedAppend | lib/email.ts:64 | tagging a concatenation is the concatenation of the tagged parts |
| Email.TaggedAt | lib/email.ts:64-71 | the k-th entry appears tagged at its place, after the entries before it |
| Email.UntagTagged | lib/email.ts:64-71 | the `<li>` or `tech-badge` entries can be read back from the HTML list, in order |
| Email.LinksInTextBody | lib/email.ts:92-111 | the text body holds the site line, the code line, the feature block and the tech line |
| Email.LinksInHtmlBody | lib/email.ts:57-79 | the HTML body holds both URLs, each also as a link showing its own target |
| Email.ListsInHtmlBody | lib/email.ts:57-79 | the HTML body holds the feature items and the tech badges |
| Deployment.GitHubEvents | lib/deployment-engine.ts:155-164 | one event per GitHub request, in order |
| Deployment.VercelEvents | lib/deployment-engine.ts:174-225 | one event per Vercel request, in order |
| Deployment.LastIndexOf | lib/deployment-engine.ts:112 | the last position of the character, or none when it does not occur |
| Deployment.JsonSpan | lib/deployment-engine.ts:112-118 | there is no span exactly when no `{` comes before a `}`; otherwise the span runs from the first `{` to the last `}` |
| Deployment.LogsAppend | lib/deployment-engine.ts:34-51 | the logs of two event runs are the logs of each, in order |
| Deployment.PatchesAppend | lib/deployment-engine.ts:56-68 | the project writes of two event runs are the writes of each, in order |
| Deployment.ApplyAllAppend | lib/deployment-engine.ts:56-68 | applying two lists of writes is applying one after the other |
| Deployment.ApplyPatchesAppend | lib/deployment-engine.ts:56-68 | the same, for the project table |
| Deployment.OrderedAppend | lib/deployment-engine.ts:80-253 | two runs whose phase numbers are ordered, with the first's at most the second's, join into an ordered run |
| Deployment.InPhaseOrdered | lib/deployment-engine.ts:80-253 | the logs of a single phase are ordered |
| DeploymentEngine.Engine.constructor | lib/deployment-engine.ts:26-29 | the engine keeps the context and the store, with an empty trace |
| DeploymentEngine.Engine.Log | lib/deployment-engine.ts:34-51 | one log event for the context's project is appended to the trace and the log table |
| DeploymentEngine.Engine.Patch | lib/deployment-engine.ts:56-68 | one project write is appended to the trace and applied to the project table |
| DeploymentEngine.Engine.UpdateProjectStatus | lib/deployment-engine.ts:56-68 | one status write, with `updated_at`, is appended and applied |
| DeploymentEngine.Engine.AnalyzeRequirements | lib/deployment-engine.ts:73-125 | the trace grows by exactly `Phase1`'s events, and the result is `Phase1`'s |
| DeploymentEngine.Engine.StartAnalysis | lib/deployment-engine.ts:80-110 | the trace grows by the start row, the `processing` update and the model request, in that order (`Phase1Start`) |
| DeploymentEngine.Engine.LogSpec | lib/deployment-engine.ts:120-122 | the trace grows by the rows naming the project, the framework and the database need (`SpecLogs`) |
| DeploymentEngine.Engine.GenerateCode | lib/deployment-engine.ts:130-138 | the trace grows by `Phase2`'s events, and the path is `Phase2`'s |
| DeploymentEngine.Engine.CheckRepository | lib/deployment-engine.ts:150-155 | the log, then the existence check's requests, and its result |
| DeploymentEngine.Engine.CreateGitHubRepository | lib/deployment-engine.ts:143-169 | the trace grows by `Phase3`'s events, and the result is `Phase3`'s |
| DeploymentEngine.Engine.DeployToVercel | lib/deployment-engine.ts:174-225 | the trace grows by `Phase4`'s events, and the result is `Phase4`'s |
| DeploymentEngine.Engine.ConfigureEnvironment | lib/deployment-engine.ts:194-212 | the trace grows by `EnvStep`'s events, and the result is `EnvStep`'s |
| DeploymentEngine.Engine.ConfigureProject | lib/deployment-engine.ts:213-224 | the trace grows by `Phase4Configure`'s events, and the result is `Phase4Configure`'s |
| DeploymentEngine.Engine.SendNotification | lib/deployment-engine.ts:230-254 | the trace grows by `Phase5`'s events, and a mail failure is not an error |
| DeploymentEngine.Engine.Fail | lib/deployment-engine.ts:318-327 | the trace grows by the failure record, and the outcome is the failure |
| DeploymentEngine.Engine.Execute | lib/deployment-engine.ts:259-329 | the trace grows by `Execute`'s events, and the outcome is `Execute`'s |
| DeploymentEngine.Deploy | lib/deployment-engine.ts:335-340 | a fresh engine's run leaves the log table extended by the run's logs and the project table updated by its writes |
| DeploymentFacts.Phase1StartShape | lib/deployment-engine.ts:80-81 | phase 1 opens with phase-1 logs and one `processing` write, and calls no service |
| DeploymentFacts.Phase1Shape | lib/deployment-engine.ts:73-125 | phase 1 logs only phase 1, starts with that opening, writes only `processing`, and touches no GitHub, Vercel or mail |
| DeploymentFacts.Phase2Shape | lib/deployment-engine.ts:130-138 | phase 2 logs only phase 2 and always succeeds |
| DeploymentFacts.Phase3Shape | lib/deployment-engine.ts:143-169 | phase 3 logs only phase 3 and touches neither Vercel, mail nor the project |
| DeploymentFacts.EnvStepShape | lib/deployment-engine.ts:194-212 | the environment step logs only phase 4 |
| DeploymentFacts.Phase4ConfigureShape | lib/deployment-engine.ts:213-224 | the configuration step logs only phase 4 |
| DeploymentFacts.Phase4Shape | lib/deployment-engine.ts:174-225 | phase 4 logs only phase 4 and touches neither GitHub, mail nor the project |
| DeploymentFacts.Phase5Shape | lib/deployment-engine.ts:230-254 | phase 5 is a log, exactly one mail built from the run's data, then a log |
| DeploymentFacts.ProcessingBeforeLlm | lib/deployment-engine.ts:80-90 | every run starts with the first phase-1 log, then the `processing` write, then the model request |
| DeploymentFacts.UnparseableReply | lib/deployment-engine.ts:112-118 | a reply with no `{...}` span fails the run with `无法解析需求` right after phase 1's opening |
| DeploymentFacts.UpToRepositoryShape | lib/deployment-engine.ts:73-169 | phases 1 to 3 are ordered, within 1 to 3 and touch no Vercel or mail |
| DeploymentFacts.ExistingRepositoryStops | lib/deployment-engine.ts:155-164 | an existing repository fails the run with `仓库 <name> 已存在`: no repository is created and Vercel is never called |
| DeploymentFacts.ReachesDeployment | lib/deployment-engine.ts:265-292 | with phases 1 and 3 successful, the run continues as `AfterRepository` |
| DeploymentFacts.DetailsBeforeDeployment | lib/deployment-engine.ts:279-292 | right after phase 3, the project gets name, description, framework, GitHub URL, features and `[framework, TypeScript, Tailwind CSS]`, and then phase 4 runs |
| DeploymentFacts.TailAfterDeployment | lib/deployment-engine.ts:279-317 | after the repository come the details write, phase 4, then the rest of the run |
| DeploymentFacts.SuccessBeforeNotification | lib/deployment-engine.ts:239-253 | a deployed run writes `success` with the Vercel URL, then sends the one mail, and ends with a success log or a phase-5 warning |
| DeploymentFacts.NotificationCannotFail | lib/deployment-engine.ts:239-253 | the mail transport's answer never changes the run's outcome |
| DeploymentFacts.FailedRunShape | lib/deployment-engine.ts:265-327 | a failed run is an ordered run of phases 1 to 4, with no mail and only the `processing` and optionally details writes, followed by the failure record |
| DeploymentFacts.FailureIsTerminal | lib/deployment-engine.ts:318-327 | a failed run ends with exactly one phase-0 error log and then the `failed` write with the message: nothing runs after them |
| DeploymentFacts.PhasesNeverDecrease | lib/deployment-engine.ts:80-253 | the phase numbers of a run never decrease, up to the final phase-0 record on failure |
| DeploymentFacts.DeployedPatches | lib/deployment-engine.ts:265-302 | a deployed run writes the project exactly three times: `processing`, details, `success` |
| DeploymentFacts.DeployedRow | lib/deployment-engine.ts:279-302 | after a deployed run the project row holds the success status, both URLs, the completion time and the spec's details |
| DeploymentFacts.FailedRow | lib/deployment-engine.ts:318-327 | after a failed run the row is `failed` with the error message, and its Vercel URL and completion time are untouched |
| DeploymentFacts.SupabaseEnvironment | lib/deployment-engine.ts:197-211 | variables are added only with both Supabase settings, at most the URL then the anon key, both encrypted for all targets; the step succeeds exactly when both are accepted |
| DeployRoute.InternalError | app/api/deploy/route.ts:142-148 | status 500 with the error's message, or `Internal server error` when it is empty |
| DeployRoute.DatePartOfIso | app/api/deploy/route.ts:35-37 | the day part of an ISO instant is the text before the `T` |
| DeployRoute.LastRequestDay | app/api/deploy/route.ts:35-40 | no day without a stored date; an invalid date throws; otherwise the UTC day of the stored date |
| DeployRoute.Rolled | app/api/deploy/route.ts:42-50 | a profile last used on another day has its count reset to 0 and its date set to today; the limit is kept |
| DeployRoute.Increment | app/api/deploy/route.ts:103 | the user's count goes up by one, and no other profile changes |
| DeployRoute.ContextFor | app/api/deploy/route.ts:118-134 | the engine's context carries the ids, the mail, the requirement and the six credential fields |
| DeployRoute.HandlePost | app/api/deploy/route.ts:8-149 | the reply, the dispatched job and the tables are those of `Post` |
| DeployRoute.CheckQuota | app/api/deploy/route.ts:33-59 | the profile table and the verdict are those of `Quota` |
| DeployRoute.AdmitOn | app/api/deploy/route.ts:62-141 | the reply, the job and the tables are those of `Admit` |
| DeployRoute.RunJob | app/api/deploy/route.ts:154-190 | the task goes to `completed` or `failed` by the run's outcome, and the logs and project are the run's |
| DeployRoute.Serve | app/api/deploy/route.ts:8-149 | the reply is `Post`'s, with the accepted job run afterwards |
| DeployRoute.UnauthorizedFirst | app/api/deploy/route.ts:12-14 | without a user the reply is 401, and nothing is read or written |
| DeployRoute.RequirementRequired | app/api/deploy/route.ts:19-24 | a missing or empty requirement gives 400 and writes nothing |
| DeployRoute.QuotaGate | app/api/deploy/route.ts:33-59 | after any reset, the reply is 429 exactly when `count >= limit`; then only the rolled profile is written and no job starts |
| DeployRoute.AdmitStatus | app/api/deploy/route.ts:62-148 | after the quota check the reply is 200, 400 or 500 |
| DeployRoute.NoProfileNoQuota | app/api/deploy/route.ts:33 | without a profile row the quota check is skipped, and the reply is never 429 |
| DeployRoute.CredentialsRequired | app/api/deploy/route.ts:68-80 | missing credentials or a missing GitHub or Vercel token give 400, create nothing and start nothing |
| DeployRoute.CountOnlyAfterProject | app/api/deploy/route.ts:83-103 | when the project insert fails, the count is not incremented and no job starts |
| DeployRoute.TaskInsertFailure | app/api/deploy/route.ts:103-133 | when the task insert fails after the project was created, the reply is the 500 from reading `task.id`, with the project and count written |
| DeployRoute.Accepted200 | app/api/deploy/route.ts:8-141 | the reply is 200 exactly when every check passes; then a `pending` project and task are created, the count goes up and one job starts |
| DeployRoute.TaskLifecycle | app/api/deploy/route.ts:154-190 | the task ends `completed` or `failed` with both times; other tasks are untouched |
| Health.MaskKey | app/api/health/route.ts:71-73 | a key longer than 20 shows its first 10 characters, `...` and its last 8; any other key shows `***` |
| Health.MaskHidesMiddle | app/api/health/route.ts:71-73 | keys that differ only between those ends mask alike |
| Health.SupabaseCheck | app/api/health/route.ts:23-54 | `ok` exactly with both settings and a successful query, otherwise `error`; a missing setting means no query |
| Health.ClaudeCheck | app/api/health/route.ts:56-115 | `ok` exactly when a `content_block_delta` arrives; `warning` exactly when the stream ends without one; otherwise `error` |
| Health.ProbeClaude | app/api/health/route.ts:87-115 | the loop that stops at the first delta gives `ClaudeCheck` |
| Health.SmtpCheck | app/api/health/route.ts:117-140 | `ok` exactly when host, port, user and password are all set, otherwise `warning`, and never `error` |
| Health.Worst | app/api/health/route.ts:143-146 | the largest severity is at most that of `error` |
| Health.OverallIsWorst | app/api/health/route.ts:143-146 | the overall status is the worst of the checks: `error`, then `warning`, then `ok` |
| Health.Get | app/api/health/route.ts:12-151 | the report holds the time, the environment and the three checks, and its overall status and HTTP status follow from them |
| Health.HealthyIff | app/api/health/route.ts:143-150 | the reply is 200 exactly when every setting is present, the query succeeds and the model streams a delta |
| Health.MailOnlyWarns | app/api/health/route.ts:118-146 | missing mail settings alone make the overall status `warning`, not `error` |
| CredentialsRoute.Overwrite | app/api/credentials/route.ts:68-80 | an update writes every field from the body: an absent field keeps the stored value, `null` clears it, a value replaces it |
| CredentialsRoute.Initial | app/api/credentials/route.ts:83-92 | an insert stores a field exactly when the body holds a value for it |
| CredentialsRoute.UpdateRows | app/api/credentials/route.ts:68-80 | every row of the user is updated with `updated_at`, and other rows are unchanged |
| CredentialsRoute.HandlePost | app/api/credentials/route.ts:36-107 | 401 without a user, 500 for an unreadable body, 400 without both tokens (all with no write), otherwise an update or insert and `{success:true}`, or 500 on a write error |
| CredentialsRoute.Get | app/api/credentials/route.ts:4-34 | 401 without a user, 500 on a read error, otherwise 200 with the user's row exactly when they have one, else `{}` |
| CredentialsRoute.RowsOfAppend | app/api/credentials/route.ts:83-92 | an insert adds the row to its owner's selection only |
| CredentialsRoute.RowsOfUpdateRows | app/api/credentials/route.ts:68-80 | selecting after an update is updating the selection |
| CredentialsRoute.SavePreservesAtMostOne | app/api/credentials/route.ts:57-93 | update-or-insert keeps at most one row per user |
| CredentialsRoute.RowsOfSingle | app/api/credentials/route.ts:15-19 | with one row per user, the selection is that row |
| CredentialsRoute.RowsOfNone | app/api/credentials/route.ts:15-19 | with no row of the user the selection is empty |
| CredentialsRoute.PostThenGet | app/api/credentials/route.ts:4-107 | after a save, `GET` returns the updated or newly inserted row, holding the tokens sent |
| CredentialsRoute.OthersUnchanged | app/api/credentials/route.ts:68-80 | an update leaves other users' rows as they were |
| CredentialsPage.MaskToken | app/dashboard/credentials/page.tsx:77-81 | undefined or empty gives `''`; up to 8 characters gives 8 bullets; longer gives the first 4, 8 bullets and the last 4 |
| CredentialsPage.MaskLength | app/dashboard/credentials/page.tsx:77-81 | a non-empty token shows 8 or 16 characters, and only an empty one shows nothing |
| CredentialsPage.MaskHidesMiddle | app/dashboard/credentials/page.tsx:80 | tokens that differ only between index 4 and `len-4` mask alike |
| CredentialsPage.MaskHidesShort | app/dashboard/credentials/page.tsx:79 | all tokens of 1 to 8 characters mask alike |
| Common.Split | app/dashboard/chat/page.tsx:133 | `split` gives at least one piece |
| Common.SplitJoin | lib/email.ts:104 | splitting a join at its separator gives the pieces back when none holds the separator |
| Json.HexRoundTrip | app/api/chat/route.ts:74 | the lowercase hex digit of `\u00xx` escapes is read back as its value |
| Json.UnescapeChar | app/api/chat/route.ts:74 | reading one escaped character gives that character back |
| Json.UnescapeEscape | app/api/chat/route.ts:74 | reading an escaped string gives the string back |
| Json.UnquoteQuote | app/api/chat/route.ts:74 | `JSON.parse` of `JSON.stringify(s)` is `s` |
| Json.EscapeHasNoLineBreak | app/api/chat/route.ts:74-75 | a stringified string holds no raw line break, so an SSE frame has a single data line |
| ChatRoute.Controller.constructor | app/api/chat/route.ts:48-49 | a new stream has no frames and is open |
| ChatRoute.Controller.Enqueue | app/api/chat/route.ts:75 | a frame is added exactly when the stream is open |
| ChatRoute.Controller.Close | app/api/chat/route.ts:88 | the stream is closed afterwards |
| ChatRoute.Catch | app/api/chat/route.ts:91-99 | a failure adds the error frame if the stream is open, and closes it, keeping the text and the stored rows |
| ChatRoute.FeedFailed | app/api/chat/route.ts:91-99 | after a failure no further event has an effect |
| ChatRoute.FeedDeltas | app/api/chat/route.ts:65-76 | before a stop, the deltas add their text to the reply and one frame each, in order |
| ChatRoute.FeedClosed | app/api/chat/route.ts:78-89 | once closed, no frame is added |
| ChatRoute.FeedAppend | app/api/chat/route.ts:65-90 | relaying two event runs is relaying one after the other |
| ChatRoute.StopStoresReply | app/api/chat/route.ts:78-89 | at `message_stop` the stored reply is the concatenation of the deltas before it, then `[DONE]` is sent and the stream closes |
| ChatRoute.FailureFrame | app/api/chat/route.ts:91-99 | a failure before any stop gives the deltas' frames, then one error frame; the stream closes and nothing is stored |
| ChatRoute.EndWithoutStop | app/api/chat/route.ts:65-90 | a stream that ends without a stop leaves only the delta frames and an open stream |
| ChatRoute.Stream | app/api/chat/route.ts:48-101 | the loop's frames, closing and stored rows are those of `Relayed` |
| ChatRoute.RelayEvent | app/api/chat/route.ts:65-89 | one event of the loop changes the frames, the text, the stored rows and the closed flag as `Step` does |
| ChatRoute.CatchOn | app/api/chat/route.ts:91-99 | the catch adds the error frame if the stream was open, and closes it |
| ChatRoute.ConversationRows | app/api/chat/route.ts:37-41 | the selection holds only rows of the table that belong to the conversation, and every row of the conversation is in it |
| ChatRoute.ConversationRowsAppend | app/api/chat/route.ts:30-41 | the new message comes last among its conversation's rows |
| ChatRoute.AsMessages | app/api/chat/route.ts:57-60 | one model message per history row, with its role and content |
| ChatRoute.OldestHistoryIgnoresNewMessage | app/api/chat/route.ts:37-42 | with ten or more earlier rows, the stored new message is not in the history |
| ChatRoute.OldestHistoryBelowLimit | app/api/chat/route.ts:37-42 | with fewer than ten earlier rows, the history as written equals the corrected one and ends with the new message |
| ChatRoute.RecentHistoryEndsWithNewMessage | app/api/chat/route.ts:37-42 | the corrected history has at most ten messages and ends with the new message |
| ChatRoute.HandlePost | app/api/chat/route.ts:8-117 | 401, 500 or 400 store nothing; otherwise the user row is stored first, the model is asked with the oldest ten rows of the conversation (`OldestHistory`), and the frames and the reply row are those of `Relayed` |
| ChatPage.DecodeStream | app/dashboard/chat/page.tsx:125-180 | the read loop and its loop over lines give `Decode` of the chunks |
| ChatPage.DoneEndsChunk | app/dashboard/chat/page.tsx:135-142 | `[DONE]` skips the rest of its chunk, and reading goes on with the next chunk |
| ChatPage.ErrorStopsReading | app/dashboard/chat/page.tsx:144-158 | a chunk that sets `hasError` ends the reading: later chunks change nothing |
| ChatPage.SkipsUnparseable | app/dashboard/chat/page.tsx:170-173 | a payload `JSON.parse` rejects leaves the state unchanged |
| ChatPage.FrameChunk | app/dashboard/chat/page.tsx:133-137 | for an SSE frame, the chunk's effect is that of its single data line |
| ChatPage.ContentLine | app/dashboard/chat/page.tsx:160-168 | a line with a content and no error appends exactly that content |
| ChatPage.DecodeDeltas | app/dashboard/chat/page.tsx:128-180 | the route's delta frames add exactly the deltas' text, in order, and reading goes on |
| ChatPage.RouteStreamDecoded | app/dashboard/chat/page.tsx:128-180 | the route's frames up to `[DONE]` decode to the concatenated deltas with no error |
| ChatPage.RouteFailureDecoded | app/dashboard/chat/page.tsx:144-158 | the route's error frame sets `hasError`, keeping the text before it |
| ChatPage.DoneFrameEnds | app/dashboard/chat/page.tsx:139-142 | the route's `[DONE]` frame changes nothing and sets no error |
| ChatPage.ErrorFrameStops | app/dashboard/chat/page.tsx:152-158 | the route's error frame sets `hasError` |
| ChatPage.TrimStartEmpty | app/dashboard/chat/page.tsx:64 | trimming the start leaves nothing exactly when every character is white space |
| ChatPage.TrimEmptyIff | app/dashboard/chat/page.tsx:64 | `trim()` is empty exactly when the input is all white space |
| ChatPage.RemoveId | app/dashboard/chat/page.tsx:184 | the filter drops every message with the id and keeps all the others |
| ChatPage.SetContent | app/dashboard/chat/page.tsx:162-168 | the map gives the message with the id the new content and leaves the others |
| ChatPage.ChatView.constructor | app/dashboard/chat/page.tsx:21-24 | the page starts with no messages, an empty input, not loading and no conversation |
| ChatPage.ChatView.HandleSend | app/dashboard/chat/page.tsx:63-198 | an empty trimmed input or a send in progress changes nothing; otherwise the user message is added, the input cleared, a conversation created if needed (stopping if that fails), the placeholder added and the response applied; loading ends false |
| ChatPage.Respond | app/dashboard/chat/page.tsx:96-193 | the list after the request is `AfterResponse` |
| ChatPage.PlaceholderRemovedWithoutContent | app/dashboard/chat/page.tsx:183-185 | an error with nothing accumulated removes the placeholder |
| ChatPage.PlaceholderHoldsReply | app/dashboard/chat/page.tsx:160-168 | with content, the placeholder holds the whole accumulated reply |

## Left out

- Network I/O and the SDKs (Supabase, Anthropic, Octokit, axios, nodemailer) are oracles. Their request formats and HTTP headers are not modelled beyond the fields named above.
- The `increment_request_count` database function is not part of this model. `DeployRoute.Increment` takes it to add one to the user's `daily_request_count`.
- Concurrency: `executeDeploymentAsync` is not awaited, and the quota counter is read and written without a lock. The model runs one request and then its job, in sequence (`DeployRoute.Serve`).
- The `catch` of `executeDeploymentAsync` is not modelled: in the model `engine.execute()` never throws, since `execute` catches every error itself. A failure of the task-status updates is not modelled either.
- The 30-second wait in phase 4 is recorded as a `Waited(30000)` event with no effect.
- `console.log`, toasts, routing, React rendering and scrolling are not modelled. Loading flags are modelled only in `ChatPage.ChatView`.
- The metadata objects of the deployment logs are not modelled. Neither is the `updated_at` column beyond the value written with each status patch.
- `getDeployment`, `getDeployments`, `redeploy` and `getProjectId` in `lib/vercel.ts` are never called and are not modelled. `createGitHubService` and `createVercelService` are plain constructors, modelled by the classes' constructors.
- `lib/claude.ts` and `test-claude-api.js` are not part of this model.
- `TextDecoder` and the way bytes arrive in chunks are inputs: each chunk is taken to be the text decoded for it. A UTF-8 sequence split across two chunks, or an SSE line split across two reads, is not modelled. The end-to-end lemmas assume that each frame arrives as its own chunk.
- `Deployment.Services.parseJson`: the engine's `JSON.parse` of the model's reply is an oracle that returns a fully typed `Spec` or an error. A JSON object that lacks a field or holds a value of the wrong type cannot be represented. In the source such a reply carries `undefined` into the log texts (for example `项目名称：undefined`) and into the project row, and a missing `features` makes the mail template's `.map` throw inside phase 5's `try`.
- `JSON.parse` on the chat page is an input (`parse`, `None` where it throws). The lemmas connecting the route to the page take as given that it reads the route's two payloads back (`ChatPage.ParsesRoutePayloads`). `Json.UnquoteQuote` proves this for the string inside the payload. The object syntax around it is not modelled. A payload that parses to `null` makes `parsed.error` throw, so it is skipped; the model treats it as unparseable.
- `ChatPage.Payload`: `content` and `error` are modelled as strings. A non-string truthy value, which `+=` would convert to a string, is not modelled.
- Aborting a send is modelled by its outcome: the fetch is rejected, or the read ends with an abort. Which chunks arrived before the abort is part of the input.
- `Date.now()` values are inputs, and both ids are their decimal text (`Common.NatToString`). Two sends in the same millisecond, which would share ids, are not ruled out.
- `Health.ClaudeCheck`: the reported duration is an input. An error without a `message` is modelled as one with an empty message, and both show `API 调用失败`.
- Strings are sequences of Unicode scalar values, not of UTF-16 code units as in JavaScript. For a character outside the Basic Multilingual Plane (an emoji, say), JavaScript counts two units and the model one. So `CredentialsPage.MaskToken`, `Health.MaskKey` and `Email.SubjectNamesProject` count lengths, `slice` positions and indices differently from the source on such text.
- `Deployment.Execute`: one instant `now` stamps every `updated_at` and `completed_at` of a run. The source calls `new Date()` at each write, so its timestamps can differ within a run.
- `ChatRoute.HandlePost`: the insert of the user's message and the history read never fail in the model. The source ignores the insert's error and, when the read fails, sends an empty history (`history || []`); neither path is modelled.
- `DeployRoute.Post`: the body's `requirement` is `Option<string>`. A truthy value that is not a string, which the source accepts and stores, is not represented.
- `Email.DeploymentMail`: the `from` address (`process.env.SMTP_FROM`) is not modelled.

## Findings

| source | as written | input that shows it | evidently intended | confidence | as-written member | corrected member |
|---|---|---|---|---|---|---|
| app/api/chat/route.ts:37-42 | the history is ordered by `created_at` ascending and limited to 10, which selects the 10 oldest messages of the conversation | a conversation with 10 stored messages: the message just inserted is the 11th oldest and is not sent to the model | send the 10 most recent messages, ending with the new one | not executed | ChatRoute.OldestHistoryIgnoresNewMessage | ChatRoute.RecentHistoryEndsWithNewMessage |
| lib/vercel.ts:54-55 | `repo.replace('.git', '')` removes the first `.git` anywhere in the name, not only a trailing suffix | the URL `https://github.com/acme/my.github.io` gives the reference `acme/myhub.io` | strip only a trailing `.git` | not executed | Vercel.RepoRefAsWrittenMangles | Vercel.RepoRefOfRepository |
| lib/github.ts:97-101 | the credential in the push URL is `this.octokit.auth`, which Octokit sets to its authentication hook, a bound function, not the token | any token: the URL begins `https://function () { [native code] }@github.com/`, the text a bound function converts to | put the configured token in the URL | not executed | GitHub.RemoteUrlIgnoresToken | GitHub.Service.GetTokenRemoteUrl |
