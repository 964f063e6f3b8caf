/** The GitHub client used by the deployment engine (`GitHubService`): it
    resolves the acting username once and caches it, checks whether a
    repository exists, creates public repositories, and builds push URLs.
    Octokit is replaced by an `Api` value giving GitHub's answer to each
    request; the service keeps the requests it sent, in order, in `sent`. */
module GitHub {
  import opened Common

  datatype Request =
    | GetAuthenticated                                                     // users.getAuthenticated
    | GetRepo(owner: string, repo: string)                                 // repos.get
    | CreateRepo(name: string, description: string, isPrivate: bool, autoInit: bool)  // repos.createForAuthenticatedUser
    | DeleteRepo(owner: string, repo: string)                              // repos.delete

  datatype Repository = Repository(name: string, htmlUrl: string)

  /** GitHub's answers: the login of the token's owner, and the reply to each
      repository request. */
  datatype Api = Api(
    authenticated: Result<string, Error>,
    getRepo: (string, string) -> Result<Repository, Error>,
    createRepo: Request -> Result<string, Error>,
    deleteRepo: (string, string) -> Result<(), Error>)

  datatype CreateRepoOptions = CreateRepoOptions(name: string, description: string, isPrivate: Option<bool>)

  /** What one call of a service method does: the requests it sends, in
      order, what it returns or throws, and the cached username afterwards. */
  datatype Call<T> = Call(sent: seq<Request>, result: Result<T, Error>, username: Option<string>)

  /** `getUsername`: the configured (or cached) username when it is truthy,
      otherwise one `getAuthenticated` request whose login is cached. */
  function UsernameCall(username: Option<string>, api: Api): (c: Call<string>)
    ensures |c.sent| <= 1
    ensures Truthy(username) ==> c.sent == [] && c.username == username && c.result == Success(username.value)
    ensures !Truthy(username) ==> c.sent == [GetAuthenticated] && c.result == api.authenticated
    ensures c.result.Success? ==> c.username == Some(c.result.value)
    ensures c.result.Failure? ==> c.username == username
  {
    if Truthy(username) then Call([], Success(username.value), username)
    else match api.authenticated
      case Success(login) => Call([GetAuthenticated], Success(login), Some(login))
      case Failure(e) => Call([GetAuthenticated], Failure(e), username)
  }

  /** Once a non-empty login has been fetched, later calls reuse it and send
      nothing. */
  lemma UsernameFetchedOnce(username: Option<string>, api: Api)
    requires api.authenticated.Success? && api.authenticated.value != ""
    ensures var first := UsernameCall(username, api);
            var second := UsernameCall(first.username, api);
            second.sent == [] && second.result == first.result && |first.sent + second.sent| <= 1
  {
  }

  /** The error mapping of `repositoryExists`: a successful `repos.get` means
      the repository exists, a 404 means it does not, anything else is
      rethrown unchanged. */
  function ExistsFromResponse(response: Result<Repository, Error>): (r: Result<bool, Error>)
    ensures r == Success(true) <==> response.Success?
    ensures r == Success(false) <==> response.Failure? && response.error.status == Some(404)
    ensures r.Failure? <==> response.Failure? && response.error.status != Some(404)
    ensures r.Failure? ==> r.error == response.error
  {
    match response
    case Success(_) => Success(true)
    case Failure(e) => if e.status == Some(404) then Success(false) else Failure(e)
  }

  /** `repositoryExists(name)`: the username lookup sits inside the same
      `try`, so its errors go through the same mapping. */
  function ExistsCall(username: Option<string>, api: Api, name: string): (c: Call<bool>)
    ensures var u := UsernameCall(username, api);
            c.username == u.username &&
            (u.result.Success? ==> c.sent == u.sent + [GetRepo(u.result.value, name)]
                                   && c.result == ExistsFromResponse(api.getRepo(u.result.value, name))) &&
            (u.result.Failure? ==> c.sent == u.sent && c.result == ExistsFromResponse(Failure(u.result.error)))
  {
    var u := UsernameCall(username, api);
    match u.result
    case Failure(e) => Call(u.sent, ExistsFromResponse(Failure(e)), u.username)
    case Success(owner) => Call(u.sent + [GetRepo(owner, name)], ExistsFromResponse(api.getRepo(owner, name)), u.username)
  }

  /** The request `createRepository(options)` sends: `private` defaults to
      false and the repository is never auto-initialised. */
  function CreateRequest(options: CreateRepoOptions): (r: Request)
    ensures r.CreateRepo? && r.name == options.name && r.description == options.description
    ensures !r.autoInit
    ensures r.isPrivate <==> options.isPrivate == Some(true)
  {
    CreateRepo(options.name, options.description, options.isPrivate == Some(true), false)
  }

  /** What the template literal in `getRemoteUrl` makes of
      `this.octokit.auth`. Octokit keeps there the authentication hook it
      built from the token, a bound function, and a bound function converts
      to this text, not to the token. */
  const AuthHookText: string := "function () { [native code] }"

  /** `https://<credential>@github.com/<username>/<repo>.git`, part by part. */
  function RemoteUrl(credential: string, username: string, repo: string): (url: string)
    ensures var c, p := |"https://"|, |"https://"| + |credential|;
            var q := p + |"@github.com/"|;
            |url| == q + |username| + 1 + |repo| + |".git"| &&
            url[..c] == "https://" && url[c..p] == credential && url[p..q] == "@github.com/" &&
            url[q..|url| - |".git"|] == username + "/" + repo && url[|url| - |".git"|..] == ".git"
  {
    "https://" + credential + "@github.com/" + username + "/" + repo + ".git"
  }

  /** The credential in the URL is the one passed: two URLs for the same
      repository agree exactly when their credentials do. */
  lemma RemoteUrlCredential(a: string, b: string, username: string, repo: string)
    ensures RemoteUrl(a, username, repo) == RemoteUrl(b, username, repo) <==> a == b
  {
    var ua, ub := RemoteUrl(a, username, repo), RemoteUrl(b, username, repo);
    if ua == ub {
      assert |a| == |b|;
      assert a == ua[8..8 + |a|] == ub[8..8 + |b|] == b;
    }
  }

  /** For a username without `/`, the URL determines the username and the
      repository name. */
  lemma RemoteUrlSegments(credential: string, u1: string, r1: string, u2: string, r2: string)
    requires '/' !in u1 && '/' !in u2
    requires RemoteUrl(credential, u1, r1) == RemoteUrl(credential, u2, r2)
    ensures u1 == u2 && r1 == r2
  {
    var url := RemoteUrl(credential, u1, r1);
    var q := 20 + |credential|;
    var seg := url[q..|url| - 4];
    assert seg == u1 + "/" + r1 == u2 + "/" + r2;
    ScanToAt(u1 + "/" + r1, '/', 0, |u1|);
    ScanToAt(u2 + "/" + r2, '/', 0, |u2|);
    assert u1 == seg[..|u1|] && u2 == seg[..|u2|];
    assert r1 == seg[|u1| + 1..] && r2 == seg[|u2| + 1..];
  }

  class Service {
    const token: string
    var username: Option<string>
    var sent: seq<Request>

    constructor (token: string, username: Option<string>)
      ensures this.token == token && this.username == username && sent == []
    {
      this.token := token;
      this.username := username;
      sent := [];
    }

    method GetUsername(api: Api) returns (r: Result<string, Error>)
      modifies this`username, this`sent
      ensures var c := UsernameCall(old(username), api);
              sent == old(sent) + c.sent && r == c.result && username == c.username
    {
      if Truthy(username) {
        return Success(username.value);
      }
      sent := sent + [GetAuthenticated];
      match api.authenticated
      case Failure(e) =>
        return Failure(e);
      case Success(login) =>
        username := Some(login);
        return Success(login);
    }

    method RepositoryExists(api: Api, name: string) returns (r: Result<bool, Error>)
      modifies this`username, this`sent
      ensures var c := ExistsCall(old(username), api, name);
              sent == old(sent) + c.sent && r == c.result && username == c.username
    {
      var owner := GetUsername(api);
      match owner
      case Failure(e) =>
        r := ExistsFromResponse(Failure(e));
      case Success(login) =>
        sent := sent + [GetRepo(login, name)];
        r := ExistsFromResponse(api.getRepo(login, name));
    }

    method CreateRepository(api: Api, options: CreateRepoOptions) returns (r: Result<string, Error>)
      modifies this`sent
      ensures sent == old(sent) + [CreateRequest(options)]
      ensures r == api.createRepo(CreateRequest(options))
    {
      var request := CreateRequest(options);
      sent := sent + [request];
      r := api.createRepo(request);
    }

    method GetRepository(api: Api, name: string) returns (r: Result<Repository, Error>)
      modifies this`username, this`sent
      ensures var u := UsernameCall(old(username), api);
              username == u.username &&
              (u.result.Failure? ==> sent == old(sent) + u.sent && r == Failure(u.result.error)) &&
              (u.result.Success? ==> sent == old(sent) + u.sent + [GetRepo(u.result.value, name)]
                                     && r == api.getRepo(u.result.value, name))
    {
      var owner := GetUsername(api);
      match owner
      case Failure(e) =>
        r := Failure(e);
      case Success(login) =>
        sent := sent + [GetRepo(login, name)];
        r := api.getRepo(login, name);
    }

    method DeleteRepository(api: Api, name: string) returns (r: Result<(), Error>)
      modifies this`username, this`sent
      ensures var u := UsernameCall(old(username), api);
              username == u.username &&
              (u.result.Failure? ==> sent == old(sent) + u.sent && r == Failure(u.result.error)) &&
              (u.result.Success? ==> sent == old(sent) + u.sent + [DeleteRepo(u.result.value, name)]
                                     && r == api.deleteRepo(u.result.value, name))
    {
      var owner := GetUsername(api);
      match owner
      case Failure(e) =>
        r := Failure(e);
      case Success(login) =>
        sent := sent + [DeleteRepo(login, name)];
        r := api.deleteRepo(login, name);
    }

    /** `getRemoteUrl` as written: the credential part is whatever
        `this.octokit.auth` converts to, Octokit's hook, not the token. */
    method GetRemoteUrl(api: Api, name: string) returns (r: Result<string, Error>)
      modifies this`username, this`sent
      ensures var u := UsernameCall(old(username), api);
              sent == old(sent) + u.sent && username == u.username &&
              (u.result.Failure? ==> r == Failure(u.result.error)) &&
              (u.result.Success? ==> r == Success(RemoteUrl(AuthHookText, u.result.value, name)))
    {
      var owner := GetUsername(api);
      match owner
      case Failure(e) =>
        r := Failure(e);
      case Success(login) =>
        r := Success(RemoteUrl(AuthHookText, login, name));
    }

    /** The push URL `getRemoteUrl` is meant to build, with the configured
        token as the credential. */
    method GetTokenRemoteUrl(api: Api, name: string) returns (r: Result<string, Error>)
      modifies this`username, this`sent
      ensures var u := UsernameCall(old(username), api);
              sent == old(sent) + u.sent && username == u.username &&
              (u.result.Failure? ==> r == Failure(u.result.error)) &&
              (u.result.Success? ==> r == Success(RemoteUrl(token, u.result.value, name)))
    {
      var owner := GetUsername(api);
      match owner
      case Failure(e) =>
        r := Failure(e);
      case Success(login) =>
        r := Success(RemoteUrl(token, login, name));
    }
  }

  /** As written, the push URL is the same whatever the token, so it is
      the URL a token would give only for a token equal to the hook's text. */
  lemma RemoteUrlIgnoresToken(token: string, username: string, repo: string)
    requires token != AuthHookText
    ensures RemoteUrl(AuthHookText, username, repo) != RemoteUrl(token, username, repo)
  {
    RemoteUrlCredential(AuthHookText, token, username, repo);
  }

  /** A client of a fresh service: two `getUsername` calls send at most one
      request, and a fetched login is returned by both. */
  method UsernameIsCached(token: string, configured: Option<string>, api: Api)
    returns (first: Result<string, Error>, second: Result<string, Error>, requests: nat)
    ensures Truthy(configured) ==> requests == 0 && first == second == Success(configured.value)
    ensures !Truthy(configured) && api.authenticated.Success? && api.authenticated.value != "" ==>
              requests == 1 && first == second == api.authenticated
    ensures requests <= 2
  {
    var service := new Service(token, configured);
    first := service.GetUsername(api);
    second := service.GetUsername(api);
    requests := |service.sent|;
  }
}
