/** The Vercel client used by the deployment engine (`VercelService`):
    project creation bound to a GitHub repository, environment variables,
    switching off deployment protection, and the production URL. axios is
    replaced by an `Api` value giving Vercel's answer to each request; the
    service keeps the requests it sent, in order, in `sent`. */
module Vercel {
  import opened Common

  const BaseUrl: string := "https://api.vercel.com"

  /** The literal part `github\.com\/` of the repository pattern. */
  const Host: string := "github.com/"

  datatype Target = Production | Preview | Development
  datatype EnvType = Plain | Encrypted

  /** `target` and `type` are optional in the source's interface. */
  datatype EnvironmentVariable = EnvironmentVariable(
    key: string, value: string, target: Option<seq<Target>>, envType: Option<EnvType>)

  datatype DeploymentOptions = DeploymentOptions(projectName: string, githubUrl: string, framework: Option<string>)

  datatype Request =
    | CreateProject(url: string, name: string, framework: string, repo: string)    // POST, gitRepository.type 'github'
    | AddEnv(url: string, key: string, value: string, envType: EnvType, target: seq<Target>)  // POST
    | DisableProtection(url: string)     // PATCH { ssoProtection: null, passwordProtection: null }
    | GetProject(url: string)            // GET

  /** The fields of a project the client reads: `id` and
      `targets.production.url` when the platform has filled it in. */
  datatype ProjectInfo = ProjectInfo(id: string, productionUrl: Option<string>)

  /** Vercel's answers. */
  datatype Api = Api(
    createProject: Request -> Result<ProjectInfo, Error>,
    addEnv: Request -> Result<(), Error>,
    disableProtection: Request -> Result<(), Error>,
    getProject: Request -> Result<ProjectInfo, Error>)

  /** What one client call does: the requests it sends and what it returns or throws. */
  datatype Call<T> = Call(sent: seq<Request>, result: Result<T, Error>)

  /** `getTeamQuery`: the query string scoping a request to the team. */
  function TeamQuery(teamId: Option<string>): (q: string)
    ensures q == "" <==> !Truthy(teamId)
    ensures Truthy(teamId) ==> "?teamId=" <= q && q[|"?teamId="|..] == teamId.value
  {
    if Truthy(teamId) then "?teamId=" + teamId.value else ""
  }

  // ---------------------------------------------------------------------
  // The repository pattern /github\.com\/([^/]+)\/([^/]+)/ of createProject.
  // ---------------------------------------------------------------------

  /** Index `c` ends a `[^/]+` capture taken greedily: the text ends there
      or a `/` follows. */
  predicate SegmentEnd(s: string, c: int)
  {
    c == |s| || (0 <= c < |s| && s[c] == '/')
  }

  /** The (owner, repo) captured by a match of the pattern starting at
      index `p`. Both groups are greedy and cannot contain '/', so a match
      at `p` is unique when it exists. */
  function MatchAt(s: string, p: nat): (m: Option<(string, string)>)
    ensures m.Some? ==> OccursAt(s, Host + m.value.0 + "/" + m.value.1, p)
    ensures m.Some? ==> m.value.0 != "" && '/' !in m.value.0 && m.value.1 != "" && '/' !in m.value.1
    ensures m.Some? ==> SegmentEnd(s, p + |Host| + |m.value.0| + 1 + |m.value.1|)
  {
    if !OccursAt(s, Host, p) then None
    else
      var a := p + |Host|;
      var b := ScanTo(s, '/', a);
      if a < b < |s| then
        var c := ScanTo(s, '/', b + 1);
        if b + 1 < c then
          assert s[p..c] == Host + s[a..b] + "/" + s[b + 1..c] by {
            assert s[p..a] == Host;
            assert s[b..b + 1] == "/";
            assert s[p..b] == s[p..a] + s[a..b];
            assert s[p..b + 1] == s[p..b] + s[b..b + 1];
            assert s[p..c] == s[p..b + 1] + s[b + 1..c];
          }
          Some((s[a..b], s[b + 1..c]))
        else None
      else None
  }

  /** The leftmost match at or after `p`. */
  function MatchFrom(s: string, p: nat): (m: Option<(string, string)>)
    ensures m.Some? ==> exists q :: p <= q && MatchAt(s, q) == m && forall q' :: p <= q' < q ==> MatchAt(s, q').None?
    ensures m.None? ==> forall q :: p <= q ==> MatchAt(s, q).None?
    decreases |s| - p
  {
    if p >= |s| then
      assert forall q :: p <= q ==> !OccursAt(s, Host, q);
      None
    else if MatchAt(s, p).Some? then MatchAt(s, p)
    else MatchFrom(s, p + 1)
  }

  /** `githubUrl.match(/github\.com\/([^/]+)\/([^/]+)/)`: the owner and the
      repository segment of the leftmost match. With `MatchAt`'s contract
      and `MatchAtComplete`, this is the first position holding
      `github.com/<owner>/<repo>` with a maximal repository segment. */
  function ParseGitHubUrl(url: string): (m: Option<(string, string)>)
    ensures m.Some? ==> Contains(url, Host + m.value.0 + "/" + m.value.1)
    ensures m.Some? ==> m.value.0 != "" && '/' !in m.value.0 && m.value.1 != "" && '/' !in m.value.1
    ensures m.Some? ==> exists q: nat :: MatchAt(url, q) == m && forall q' :: 0 <= q' < q ==> MatchAt(url, q').None?
    ensures m.None? <==> forall q: nat :: MatchAt(url, q).None?
  {
    MatchFrom(url, 0)
  }

  /** Every occurrence of `github.com/<owner>/<repo>` with slash-free,
      non-empty segments and the repository running to the next `/` or to
      the end is the match at its position. */
  lemma MatchAtComplete(s: string, p: nat, owner: string, repo: string)
    requires owner != "" && '/' !in owner && repo != "" && '/' !in repo
    requires OccursAt(s, Host + owner + "/" + repo, p)
    requires SegmentEnd(s, p + |Host| + |owner| + 1 + |repo|)
    ensures MatchAt(s, p) == Some((owner, repo))
  {
    var a := p + |Host|;
    var b := a + |owner|;
    var c := b + 1 + |repo|;
    OccursSplit(s, Host + owner + "/", repo, p);
    OccursSplit(s, Host + owner, "/", p);
    OccursSplit(s, Host, owner, p);
    assert s[b] == s[b..b + 1][0] == '/';
    forall k | a <= k < b ensures s[k] != '/' {
      assert s[k] == s[a..b][k - a];
    }
    forall k | b + 1 <= k < c ensures s[k] != '/' {
      assert s[k] == s[b + 1..c][k - b - 1];
    }
    ScanToAt(s, '/', a, b);
    ScanToAt(s, '/', b + 1, c);
  }

  /** The URL GitHub reports as a repository's `html_url`. */
  function HtmlUrl(owner: string, name: string): string
  {
    "https://" + Host + owner + "/" + name
  }

  /** Parsing the `html_url` of a repository gives back its owner and name:
      the URL the engine receives from GitHub is always accepted. */
  lemma ParseHtmlUrl(owner: string, name: string)
    requires owner != "" && '/' !in owner && name != "" && '/' !in name
    ensures ParseGitHubUrl(HtmlUrl(owner, name)) == Some((owner, name))
  {
    var s := HtmlUrl(owner, name);
    var a := 8 + |Host|;
    var b := a + |owner|;
    assert s[..8] == "https://";
    assert s[8..a] == Host;
    assert s[a..b] == owner;
    assert s[b] == '/';
    assert s[b + 1..] == name;
    forall q | 0 <= q < 8 ensures MatchAt(s, q).None? {
      assert s[q..q + |Host|][0] == s[q] != Host[0];
    }
    ScanToAt(s, '/', a, b);
    ScanToAt(s, '/', b + 1, |s|);
    assert OccursAt(s, Host, 8);
    assert s[b + 1..|s|] == name;
    assert MatchAt(s, 8) == Some((owner, name));
    assert MatchFrom(s, 0) == MatchFrom(s, 8) by {
      var q := 0;
      while q < 8
        invariant 0 <= q <= 8
        invariant MatchFrom(s, 0) == MatchFrom(s, q)
      {
        q := q + 1;
      }
    }
  }

  /** The repository reference `org/cleanRepo` as the source computes it:
      `repo.replace('.git', '')` drops the FIRST occurrence of ".git"
      anywhere in the segment. */
  function RepoRefAsWritten(owner: string, repo: string): string
  {
    owner + "/" + ReplaceFirst(repo, ".git", "")
  }

  /** Dropping a trailing ".git", which is what removing it is for. */
  function StripGitSuffix(repo: string): (r: string)
    ensures |repo| >= 4 && repo[|repo| - 4..] == ".git" ==> repo == r + ".git"
    ensures !(|repo| >= 4 && repo[|repo| - 4..] == ".git") ==> r == repo
  {
    if |repo| >= 4 && repo[|repo| - 4..] == ".git" then repo[..|repo| - 4] else repo
  }

  function RepoRef(owner: string, repo: string): string
  {
    owner + "/" + StripGitSuffix(repo)
  }

  /** As written, a repository whose name contains ".git" before its end
      is referenced under a different name: "x.gitlab" becomes "xlab". */
  lemma RepoRefAsWrittenMangles(owner: string, stem: string, rest: string)
    requires '.' !in stem && rest != ""
    ensures RepoRefAsWritten(owner, stem + ".git" + rest) == owner + "/" + stem + rest
    ensures RepoRefAsWritten(owner, stem + ".git" + rest) != owner + "/" + stem + ".git" + rest
  {
    ReplaceInnerGit(stem, rest);
    assert |owner + "/" + stem + rest| != |owner + "/" + stem + ".git" + rest|;
  }

  /** A name that holds no ".git" at all is referenced unchanged, both as
      written and as corrected. */
  lemma RepoRefAsWrittenAgrees(owner: string, name: string)
    requires !Contains(name, ".git")
    ensures RepoRefAsWritten(owner, name) == owner + "/" + name
    ensures RepoRef(owner, name) == owner + "/" + name
  {
    assert |name| >= 4 && name[|name| - 4..] == ".git" ==> OccursAt(name, ".git", |name| - 4);
  }

  /** `replace('.git', '')` removes the first ".git", wherever it is. */
  lemma ReplaceInnerGit(stem: string, rest: string)
    requires '.' !in stem
    ensures ReplaceFirst(stem + ".git" + rest, ".git", "") == stem + rest
  {
    var name := stem + ".git" + rest;
    forall j | 0 <= j < |stem| ensures !OccursAt(name, ".git", j) {
      assert name[j] == stem[j];
      NoGitAt(name, j);
    }
    assert OccursAt(name, ".git", |stem|) by { assert name[|stem|..|stem| + 4] == ".git"; }
    IndexOfAt(name, ".git", |stem|);
    assert ReplaceFirst(name, ".git", "") == name[..|stem|] + "" + name[|stem| + 4..];
    assert name[..|stem|] == stem;
    assert name[|stem| + 4..] == rest;
  }

  lemma NoGitAt(name: string, j: nat)
    requires j < |name| && name[j] != '.'
    ensures !OccursAt(name, ".git", j)
  {
    if j + 4 <= |name| {
      assert name[j..j + 4][0] == name[j];
    }
  }

  /** With the suffix stripped, the reference built from a repository's
      `html_url` (and from its `.git` clone URL) is exactly `owner/name`. */
  lemma RepoRefOfRepository(owner: string, name: string)
    requires owner != "" && '/' !in owner && name != "" && '/' !in name
    requires !(|name| >= 4 && name[|name| - 4..] == ".git")
    ensures ParseGitHubUrl(HtmlUrl(owner, name)) == Some((owner, name))
    ensures RepoRef(owner, name) == owner + "/" + name
    ensures RepoRef(owner, name + ".git") == owner + "/" + name
  {
    ParseHtmlUrl(owner, name);
    assert (name + ".git")[|name + ".git"| - 4..] == ".git";
    assert (name + ".git")[..|name + ".git"| - 4] == name;
  }

  // ---------------------------------------------------------------------
  // Request construction and defaults.
  // ---------------------------------------------------------------------

  const AllTargets: seq<Target> := [Production, Preview, Development]

  /** The body of `addEnvironmentVariable`: `type` defaults to encrypted and
      `target` to all three environments. An explicit empty target list is
      kept, since `[]` is truthy in JavaScript. */
  function EnvRequest(teamId: Option<string>, projectId: string, v: EnvironmentVariable): Request
  {
    AddEnv(BaseUrl + "/v10/projects/" + projectId + "/env" + TeamQuery(teamId), v.key, v.value,
           if v.envType.Some? then v.envType.value else Encrypted,
           if v.target.Some? then v.target.value else AllTargets)
  }

  /** `createProject(options)`: an unparseable repository URL throws before
      any request; otherwise one POST, with the framework defaulting to
      nextjs. */
  function CreateProjectCall(teamId: Option<string>, api: Api, options: DeploymentOptions): (c: Call<ProjectInfo>)
    ensures ParseGitHubUrl(options.githubUrl).None? <==> c == Call([], Failure(Error(None, "Invalid GitHub URL")))
    ensures ParseGitHubUrl(options.githubUrl).Some? ==>
      var (owner, repo) := ParseGitHubUrl(options.githubUrl).value;
      |c.sent| == 1 && c.sent[0].CreateProject? && c.result == api.createProject(c.sent[0]) &&
      c.sent[0].repo == RepoRefAsWritten(owner, repo) && c.sent[0].name == options.projectName &&
      c.sent[0].framework == (if Truthy(options.framework) then options.framework.value else "nextjs") &&
      c.sent[0].url == BaseUrl + "/v9/projects" + TeamQuery(teamId)
  {
    match ParseGitHubUrl(options.githubUrl)
    case None => Call([], Failure(Error(None, "Invalid GitHub URL")))
    case Some((owner, repo)) =>
      var request := CreateProject(BaseUrl + "/v9/projects" + TeamQuery(teamId), options.projectName,
                                   if Truthy(options.framework) then options.framework.value else "nextjs",
                                   RepoRefAsWritten(owner, repo));
      Call([request], api.createProject(request))
  }

  /** `addEnvironmentVariables`: the variables are posted one at a time in
      list order, and the first failure stops the rest. */
  function EnvBatch(teamId: Option<string>, api: Api, projectId: string, vars: seq<EnvironmentVariable>): (c: Call<()>)
    ensures |c.sent| <= |vars|
  {
    if |vars| == 0 then Call([], Success(()))
    else
      var request := EnvRequest(teamId, projectId, vars[0]);
      match api.addEnv(request)
      case Failure(e) => Call([request], Failure(e))
      case Success(_) =>
        var rest := EnvBatch(teamId, api, projectId, vars[1..]);
        Call([request] + rest.sent, rest.result)
  }

  /** The batch posts its variables in list order. */
  lemma {:induction false} EnvBatchInOrder(teamId: Option<string>, api: Api, projectId: string, vars: seq<EnvironmentVariable>)
    ensures var c := EnvBatch(teamId, api, projectId, vars);
            forall k :: 0 <= k < |c.sent| ==> c.sent[k] == EnvRequest(teamId, projectId, vars[k])
  {
    if |vars| > 0 {
      EnvBatchInOrder(teamId, api, projectId, vars[1..]);
    }
  }

  /** The batch succeeds exactly when every variable was posted and accepted. */
  lemma {:induction false} EnvBatchSucceeds(teamId: Option<string>, api: Api, projectId: string, vars: seq<EnvironmentVariable>)
    ensures var c := EnvBatch(teamId, api, projectId, vars);
            c.result.Success? <==> |c.sent| == |vars| && forall k :: 0 <= k < |vars| ==> api.addEnv(c.sent[k]).Success?
  {
    if |vars| > 0 {
      EnvBatchSucceeds(teamId, api, projectId, vars[1..]);
      var request := EnvRequest(teamId, projectId, vars[0]);
      var c := EnvBatch(teamId, api, projectId, vars);
      var rest := EnvBatch(teamId, api, projectId, vars[1..]);
      if api.addEnv(request).Success? {
        assert c.sent == [request] + rest.sent;
        if |rest.sent| == |vars[1..]| {
          if forall k :: 0 <= k < |vars[1..]| ==> api.addEnv(rest.sent[k]).Success? {
            forall k | 0 <= k < |vars| ensures api.addEnv(c.sent[k]).Success? {
              if k > 0 { assert c.sent[k] == rest.sent[k - 1]; }
            }
          }
          if forall k :: 0 <= k < |vars| ==> api.addEnv(c.sent[k]).Success? {
            forall k | 0 <= k < |vars[1..]| ensures api.addEnv(rest.sent[k]).Success? {
              assert c.sent[k + 1] == rest.sent[k];
            }
          }
        }
      } else {
        assert c.sent[0] == request;
      }
    }
  }

  /** A failing batch throws the error of the last request it sent, and
      every earlier request was accepted: the first failure stops the rest. */
  lemma {:induction false} EnvBatchStopsAtFirstFailure(teamId: Option<string>, api: Api, projectId: string, vars: seq<EnvironmentVariable>)
    ensures var c := EnvBatch(teamId, api, projectId, vars);
            c.result.Failure? ==>
              |c.sent| >= 1 && api.addEnv(c.sent[|c.sent| - 1]) == Failure(c.result.error) &&
              forall k :: 0 <= k < |c.sent| - 1 ==> api.addEnv(c.sent[k]).Success?
  {
    if |vars| > 0 {
      EnvBatchStopsAtFirstFailure(teamId, api, projectId, vars[1..]);
    }
  }

  function Prepend<T>(earlier: seq<Request>, c: Call<T>): Call<T>
  {
    Call(earlier + c.sent, c.result)
  }

  /** One step of `EnvBatch`: the first variable's request, then the rest
      unless it failed. */
  lemma EnvBatchUnfold(teamId: Option<string>, api: Api, projectId: string, vars: seq<EnvironmentVariable>)
    requires |vars| > 0
    ensures var request := EnvRequest(teamId, projectId, vars[0]);
            var c := EnvBatch(teamId, api, projectId, vars);
            (api.addEnv(request).Failure? ==> c == Call([request], Failure(api.addEnv(request).error))) &&
            (api.addEnv(request).Success? ==> c == Prepend([request], EnvBatch(teamId, api, projectId, vars[1..])))
  {
  }

  /** `getProductionUrl`: `https://` + the production target's URL, or the
      conventional `https://<projectName>.vercel.app` when there is none. */
  function ProductionUrl(projectName: string, info: ProjectInfo): (url: string)
    ensures info.productionUrl.Some? ==> url == "https://" + info.productionUrl.value
    ensures info.productionUrl.None? ==> url == "https://" + projectName + ".vercel.app"
  {
    match info.productionUrl
    case Some(u) => "https://" + u
    case None => "https://" + projectName + ".vercel.app"
  }

  function ProductionUrlCall(teamId: Option<string>, api: Api, projectName: string): (c: Call<string>)
    ensures c.sent == [GetProject(BaseUrl + "/v9/projects/" + projectName + TeamQuery(teamId))]
    ensures api.getProject(c.sent[0]).Failure? ==> c.result == Failure(api.getProject(c.sent[0]).error)
    ensures api.getProject(c.sent[0]).Success? ==> c.result == Success(ProductionUrl(projectName, api.getProject(c.sent[0]).value))
  {
    var request := GetProject(BaseUrl + "/v9/projects/" + projectName + TeamQuery(teamId));
    match api.getProject(request)
    case Failure(e) => Call([request], Failure(e))
    case Success(info) => Call([request], Success(ProductionUrl(projectName, info)))
  }

  function ProtectionRequest(teamId: Option<string>, projectId: string): Request
  {
    DisableProtection(BaseUrl + "/v9/projects/" + projectId + TeamQuery(teamId))
  }

  class Service {
    const token: string
    const teamId: Option<string>
    var sent: seq<Request>

    constructor (token: string, teamId: Option<string>)
      ensures this.token == token && this.teamId == teamId && sent == []
    {
      this.token := token;
      this.teamId := teamId;
      sent := [];
    }

    method CreateProjectOn(api: Api, options: DeploymentOptions) returns (r: Result<ProjectInfo, Error>)
      modifies this`sent
      ensures var c := CreateProjectCall(teamId, api, options); sent == old(sent) + c.sent && r == c.result
    {
      var url := BaseUrl + "/v9/projects" + TeamQuery(teamId);
      var m := ParseGitHubUrl(options.githubUrl);
      if m.None? {
        return Failure(Error(None, "Invalid GitHub URL"));
      }
      var (owner, repo) := m.value;
      var request := CreateProject(url, options.projectName,
                                   if Truthy(options.framework) then options.framework.value else "nextjs",
                                   RepoRefAsWritten(owner, repo));
      sent := sent + [request];
      r := api.createProject(request);
    }

    method GetProjectOn(api: Api, projectName: string) returns (r: Result<ProjectInfo, Error>)
      modifies this`sent
      ensures sent == old(sent) + [GetProject(BaseUrl + "/v9/projects/" + projectName + TeamQuery(teamId))]
      ensures r == api.getProject(GetProject(BaseUrl + "/v9/projects/" + projectName + TeamQuery(teamId)))
    {
      var request := GetProject(BaseUrl + "/v9/projects/" + projectName + TeamQuery(teamId));
      sent := sent + [request];
      r := api.getProject(request);
    }

    method AddEnvironmentVariable(api: Api, projectId: string, v: EnvironmentVariable) returns (r: Result<(), Error>)
      modifies this`sent
      ensures sent == old(sent) + [EnvRequest(teamId, projectId, v)]
      ensures r == api.addEnv(EnvRequest(teamId, projectId, v))
    {
      var request := EnvRequest(teamId, projectId, v);
      sent := sent + [request];
      r := api.addEnv(request);
    }

    method AddEnvironmentVariables(api: Api, projectId: string, vars: seq<EnvironmentVariable>) returns (r: Result<(), Error>)
      modifies this`sent
      ensures var c := EnvBatch(teamId, api, projectId, vars); sent == old(sent) + c.sent && r == c.result
    {
      var i := 0;
      ghost var sent0 := sent;
      ghost var done: seq<Request> := [];
      assert EnvBatch(teamId, api, projectId, vars) == Prepend(done, EnvBatch(teamId, api, projectId, vars[i..])) by {
        EmptyAppend(EnvBatch(teamId, api, projectId, vars).sent);
      }
      while i < |vars|
        invariant 0 <= i <= |vars|
        invariant sent == sent0 + done
        invariant EnvBatch(teamId, api, projectId, vars) ==
                  Prepend(done, EnvBatch(teamId, api, projectId, vars[i..]))
      {
        ghost var request := EnvRequest(teamId, projectId, vars[i]);
        EnvBatchUnfold(teamId, api, projectId, vars[i..]);
        assert vars[i..][0] == vars[i] && vars[i..][1..] == vars[i + 1..];
        var result := AddEnvironmentVariable(api, projectId, vars[i]);
        AppendAssoc(sent0, done, [request]);
        AppendAssoc(done, [request], EnvBatch(teamId, api, projectId, vars[i + 1..]).sent);
        done := done + [request];
        if result.Failure? {
          return result;
        }
        i := i + 1;
      }
      assert vars[i..] == [];
      assert done + [] == done;
      r := Success(());
    }

    method DisableDeploymentProtection(api: Api, projectId: string) returns (r: Result<(), Error>)
      modifies this`sent
      ensures sent == old(sent) + [ProtectionRequest(teamId, projectId)]
      ensures r == api.disableProtection(ProtectionRequest(teamId, projectId))
    {
      var request := ProtectionRequest(teamId, projectId);
      sent := sent + [request];
      r := api.disableProtection(request);
    }

    method GetProductionUrl(api: Api, projectName: string) returns (r: Result<string, Error>)
      modifies this`sent
      ensures var c := ProductionUrlCall(teamId, api, projectName); sent == old(sent) + c.sent && r == c.result
    {
      var project := GetProjectOn(api, projectName);
      match project
      case Failure(e) =>
        r := Failure(e);
      case Success(info) =>
        r := Success(ProductionUrl(projectName, info));
    }
  }
}
