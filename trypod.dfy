/** The Trypod adapter (remote/trypod/trypod.go): each host operation as
    the request it would send and the outcome it derives from an abstract
    response. Every method that receives the host user `u` ignores it, so
    the model leaves that argument out. */
module Trypod {
  import opened Http
  import Wire
  import Host
  import Text
  import Fmt

  /** The branch every repository read from the backend reports. */
  const DEFAULT_BRANCH := "default"
  const LOGIN_FORM := "/login/form"
  const FORM_CONTENT := "application/x-www-form-urlencoded"
  const JSON_CONTENT := "application/json"
  const TEXT_CONTENT := "text/plain"

  /** The adapter's configuration: the backend's base URL and the token
      embedded in write paths, fixed at construction. */
  datatype Adapter = Adapter(url: string, token: string)

  /** What a request carries. */
  datatype Payload =
    | NoBody
    | Form(values: map<string, seq<string>>)
    | JsonStatus(report: Wire.Status)
    | PlainText(text: string)

  datatype Request =
    | Get(url: string)
    | Post(url: string, contentType: string, payload: Payload)

  /** One operation: the request it sends and what it returns. */
  datatype Call<T> = Call(request: Request, outcome: Result<T>)

  /** The login form values read from the incoming request. */
  datatype Credentials = Credentials(username: string, password: string)

  datatype Redirect = Redirect(location: string, code: int)

  /** Login may answer with a redirect instead of sending a request. */
  datatype LoginCall = LoginCall(redirect: Option<Redirect>, request: Option<Request>, outcome: Result<Option<Host.User>>)

  /** A decoded webhook: the repository and the build it triggers. */
  datatype Push = Push(repo: Host.Repo, build: Host.Build)

  /** `New`: the adapter keeps the options it is given and never fails. */
  function New(url: string, token: string): (t: Adapter)
    ensures t.url == url && t.token == token
  {
    Adapter(url, token)
  }

  // ---------------------------------------------------------------------
  // Request paths (plain concatenation; see the as-written forms below)
  // ---------------------------------------------------------------------

  function LoginUrl(base: string): string { base + "/login" }
  function RepoUrl(base: string, name: string): string { base + "/repo/" + name }
  function ReposUrl(base: string): string { base + "/repos" }

  function RawFileUrl(base: string, name: string, ref: string, path: string): string
  {
    base + "/repo/" + name + "/raw-file/" + ref + "/" + path
  }

  function StatusUrl(base: string, token: string): string { base + "/status/" + token }

  function ActivateUrl(base: string, name: string, token: string): string
  {
    base + "/repo/" + name + "/activate/" + token
  }

  function DeactivateUrl(base: string, name: string, token: string): string
  {
    base + "/repo/" + name + "/deactivate/" + token
  }

  /** Reads the repository name, the ref and the file path back out of a
      raw-file URL for the base `base`. */
  function ParseRawFileUrl(base: string, url: string): Option<(string, string, string)>
  {
    var prefix := base + "/repo/";
    if !Text.HasPrefix(url, prefix) then None
    else
      var rest := url[|prefix|..];
      var name := Text.Before(rest, '/');
      var tail := Text.After(rest, '/');
      if !Text.HasPrefix(tail, "raw-file/") then None
      else
        var refPath := tail[|"raw-file/"|..];
        Some((name, Text.Before(refPath, '/'), Text.After(refPath, '/')))
  }

  /** A raw-file URL names its repository, ref and path unambiguously when
      neither the repository name nor the ref holds a `/`: two different
      files never share a request path. */
  lemma RawFileUrlRoundTrip(base: string, name: string, ref: string, path: string)
    requires '/' !in name && '/' !in ref
    ensures ParseRawFileUrl(base, RawFileUrl(base, name, ref, path)) == Some((name, ref, path))
  {
    var url := RawFileUrl(base, name, ref, path);
    var prefix := base + "/repo/";
    var refPath := ref + "/" + path;
    var tail := "raw-file/" + refPath;
    assert url == prefix + (name + "/" + tail);
    assert url[..|prefix|] == prefix;
    assert url[|prefix|..] == name + ['/'] + tail;
    Text.SplitJoin(name, '/', tail);
    assert tail[..|"raw-file/"|] == "raw-file/";
    assert tail[|"raw-file/"|..] == ref + ['/'] + path;
    Text.SplitJoin(ref, '/', path);
  }

  /** Activation and deactivation of repositories whose names hold no `/`
      never request the same path. */
  lemma ActivateDeactivateDistinct(base: string, name1: string, token1: string, name2: string, token2: string)
    requires '/' !in name1 && '/' !in name2
    ensures ActivateUrl(base, name1, token1) != DeactivateUrl(base, name2, token2)
  {
    var prefix := base + "/repo/";
    var a := ActivateUrl(base, name1, token1);
    var d := DeactivateUrl(base, name2, token2);
    assert a == prefix + (name1 + ['/'] + ("activate/" + token1));
    assert d == prefix + (name2 + ['/'] + ("deactivate/" + token2));
    assert a[|prefix|..] == name1 + ['/'] + ("activate/" + token1);
    assert d[|prefix|..] == name2 + ['/'] + ("deactivate/" + token2);
    Text.SplitJoin(name1, '/', "activate/" + token1);
    Text.SplitJoin(name2, '/', "deactivate/" + token2);
    assert Text.After(a[|prefix|..], '/')[0] == 'a';
    assert Text.After(d[|prefix|..], '/')[0] == 'd';
  }

  // ---------------------------------------------------------------------
  // Record mappings
  // ---------------------------------------------------------------------

  /** A backend repository as a host repository (the struct literal of
      `Repos`): full name derived from owner and name, link and clone
      both the backend URL, branch fixed. */
  function ToRepo(w: Wire.Repo): Host.Repo
  {
    Host.Repo(w.owner, w.name, w.owner + "/" + w.name, w.url, w.url, DEFAULT_BRANCH)
  }

  /** The owner and name a full name splits into. */
  function SplitFullName(fullName: string): (string, string)
  {
    (Text.Before(fullName, '/'), Text.After(fullName, '/'))
  }

  /** The full name of a mapped repository gives back its owner and name
      whenever the owner holds no `/`. */
  lemma ToRepoFullNameSplits(w: Wire.Repo)
    requires '/' !in w.owner
    ensures SplitFullName(ToRepo(w).fullName) == (ToRepo(w).owner, ToRepo(w).name)
    ensures ToRepo(w).owner == w.owner && ToRepo(w).name == w.name
  {
    Text.SplitJoin(w.owner, '/', w.name);
  }

  /** The repository a webhook names: the same mapping as a repository read
      from the backend, except that the branch is the pushed branch. */
  function PushRepo(c: Wire.Commit): (r: Host.Repo)
    ensures r == ToRepo(Wire.Repo(c.name, c.repository, c.owner)).(branch := c.branch)
  {
    Host.Repo(c.owner, c.name, c.owner + "/" + c.name, c.repository, c.repository, c.branch)
  }

  /** The build a webhook triggers. The payload has no event type and no
      e-mail address: the event is always a push and the author's name
      stands in for the e-mail. */
  function PushBuild(c: Wire.Commit): (b: Host.Build)
    ensures b.event == Host.EVENT_PUSH && b.status == ""
    ensures b.commit == b.ref == c.rev
    ensures b.author == b.email == c.author
    ensures b.branch == c.branch && b.message == c.description
  {
    Host.Build(Host.EVENT_PUSH, "", c.rev, c.branch, c.rev, c.description, c.author, c.author)
  }

  /** The status report posted for a build. */
  function StatusReport(repo: Host.Repo, b: Host.Build, link: string): Wire.Status
  {
    Wire.Status(link, repo.name, b.status, b.branch, b.commit, b.author, b.email, b.message, b.event)
  }

  // ---------------------------------------------------------------------
  // Operations
  // ---------------------------------------------------------------------

  /** `Login`: an empty user name or password redirects to the login form
      without a request and without an error; otherwise the credentials are
      posted as a form and a user is returned only on a 200 reply. */
  function Login(t: Adapter, form: Credentials, resp: Response<Body<Json<Wire.User>>>): (r: LoginCall)
    ensures r.request.None? <==> |form.username| == 0 || |form.password| == 0
    ensures r.request.None? ==> r.redirect == Some(Redirect(LOGIN_FORM, STATUS_SEE_OTHER)) && r.outcome == Ok(None)
    ensures r.request.Some? ==> r.redirect.None?
    ensures r.request.Some? ==>
      r.request.value == Post(t.url + "/login", FORM_CONTENT,
                              Form(map["username" := [form.username], "password" := [form.password]]))
    ensures r.request.Some? ==> (r.outcome.Ok? <==> Delivered(resp))
    ensures r.request.Some? && r.outcome.Ok? ==>
      var w := resp.body.content.value;
      r.outcome.value == Some(Host.User(w.userName, w.token, w.address))
    ensures r.request.Some? && r.outcome.Err? ==> r.outcome.error == Fetch(resp).error
    ensures r.request.Some? && resp.Reply? && resp.code != STATUS_OK ==> r.outcome == Err(BadStatus(resp.status))
    ensures r.request.Some? && resp.Unreachable? ==> r.outcome == Err(TransportFailed(resp.msg))
  {
    if |form.username| == 0 || |form.password| == 0 then
      LoginCall(Some(Redirect(LOGIN_FORM, STATUS_SEE_OTHER)), None, Ok(None))
    else
      var request := Post(LoginUrl(t.url), FORM_CONTENT,
                          Form(map["username" := [form.username], "password" := [form.password]]));
      var outcome := match Fetch(resp)
        case Err(e) => Err(e)
        case Ok(w) => Ok(Some(Host.User(w.userName, w.token, w.address)));
      LoginCall(None, Some(request), outcome)
  }

  /** `Auth`: token authorization is not offered by the backend. */
  function Auth(t: Adapter, token: string, secret: string): (r: Result<string>)
    ensures r.Err? && r.error.Message() == "Not Implemented"
  {
    Err(NotImplemented)
  }

  /** `Repo`: the repository is addressed by name alone, so the owner
      argument plays no part in the request or the result. */
  method Repo(t: Adapter, owner: string, name: string, resp: Response<Body<Json<Wire.Repo>>>)
    returns (call: Call<Host.Repo>)
    ensures call.request == Get(t.url + "/repo/" + name)
    ensures call.outcome.Ok? <==> Delivered(resp)
    ensures call.outcome.Ok? ==>
      var w := resp.body.content.value;
      var r := call.outcome.value;
      r == ToRepo(w) && r.fullName == r.owner + "/" + r.name && r.owner == w.owner && r.name == w.name
      && r.link == r.clone == w.url && r.branch == DEFAULT_BRANCH
    ensures call.outcome.Err? ==> call.outcome.error == Fetch(resp).error
    ensures resp.Reply? && resp.code != STATUS_OK ==> call.outcome == Err(BadStatus(resp.status))
    ensures resp.Unreachable? ==> call.outcome == Err(TransportFailed(resp.msg))
  {
    var request := Get(RepoUrl(t.url, name));
    var reply := Fetch(resp);
    if reply.Err? {
      return Call(request, Err(reply.error));
    }
    var w := reply.value;
    var repo := Host.EMPTY_REPO;
    repo := repo.(owner := w.owner);
    repo := repo.(name := w.name);
    repo := repo.(fullName := w.owner + "/" + w.name);
    repo := repo.(link := w.url);
    repo := repo.(clone := w.url);
    repo := repo.(branch := DEFAULT_BRANCH);
    call := Call(request, Ok(repo));
  }

  /** `Repos`: one host repository per decoded record, in the backend's order. */
  method Repos(t: Adapter, resp: Response<Body<Json<seq<Wire.Repo>>>>)
    returns (call: Call<seq<Host.Repo>>)
    ensures call.request == Get(t.url + "/repos")
    ensures call.outcome.Ok? <==> Delivered(resp)
    ensures call.outcome.Ok? ==>
      var reply := resp.body.content.value;
      |call.outcome.value| == |reply|
      && forall i :: 0 <= i < |reply| ==> call.outcome.value[i] == ToRepo(reply[i])
    ensures call.outcome.Err? ==> call.outcome.error == Fetch(resp).error
    ensures resp.Reply? && resp.code != STATUS_OK ==> call.outcome == Err(BadStatus(resp.status))
    ensures resp.Unreachable? ==> call.outcome == Err(TransportFailed(resp.msg))
  {
    var request := Get(ReposUrl(t.url));
    var fetched := Fetch(resp);
    if fetched.Err? {
      return Call(request, Err(fetched.error));
    }
    var reply := fetched.value;
    var repos: seq<Host.Repo> := [];
    for i := 0 to |reply|
      invariant |repos| == i
      invariant forall k :: 0 <= k < i ==> repos[k] == ToRepo(reply[k])
    {
      repos := repos + [ToRepo(reply[i])];
    }
    call := Call(request, Ok(repos));
  }

  /** `Perm`: every caller gets full rights on every repository. */
  function Perm(t: Adapter, owner: string, name: string): (p: Host.Perm)
    ensures p.admin && p.pull && p.push
  {
    Host.Perm(true, true, true)
  }

  /** `FileRef`: the raw file at a ref; the body is returned only on 200. */
  function FileRef(t: Adapter, repo: Host.Repo, ref: string, path: string, resp: Response<Body<Bytes>>)
    : (r: Call<Bytes>)
    ensures r.request == Get(RawFileUrl(t.url, repo.name, ref, path))
    ensures r.outcome.Ok? <==> resp.Reply? && resp.code == STATUS_OK && resp.body.Received?
    ensures r.outcome.Ok? ==> r.outcome.value == resp.body.content
    ensures resp.Reply? && resp.code != STATUS_OK ==> r.outcome == Err(BadStatus(resp.status))
    ensures resp.Reply? && resp.code == STATUS_OK && resp.body.Truncated? ==> r.outcome == Err(ReadFailed(resp.body.msg))
    ensures resp.Unreachable? ==> r.outcome == Err(TransportFailed(resp.msg))
  {
    Call(Get(RawFileUrl(t.url, repo.name, ref, path)), Receive(resp))
  }

  /** `File`: the raw file at the build's commit, exactly as `FileRef` at
      that commit. */
  function File(t: Adapter, repo: Host.Repo, build: Host.Build, path: string, resp: Response<Body<Bytes>>)
    : (r: Call<Bytes>)
    ensures r == FileRef(t, repo, build.commit, path, resp)
    ensures r.request == Get(t.url + "/repo/" + repo.name + "/raw-file/" + build.commit + "/" + path)
  {
    Call(Get(RawFileUrl(t.url, repo.name, build.commit, path)), Receive(resp))
  }

  /** `Status`: posts the build's status as JSON under the adapter's token;
      only 204 No Content is success, so a 200 reply is an error. */
  function Status(t: Adapter, repo: Host.Repo, b: Host.Build, link: string, resp: Response<()>)
    : (r: Call<()>)
    ensures r.request.Post? && r.request.url == t.url + "/status/" + t.token
    ensures r.request.contentType == JSON_CONTENT && r.request.payload.JsonStatus?
    ensures
      var s := r.request.payload.report;
      s.url == link && s.repository == repo.name && s.rev == b.commit
      && s.status == b.status && s.branch == b.branch && s.author == b.author
      && s.email == b.email && s.message == b.message && s.event == b.event
    ensures r.outcome.Ok? <==> resp.Reply? && resp.code == STATUS_NO_CONTENT
    ensures resp.Reply? && resp.code != STATUS_NO_CONTENT ==> r.outcome == Err(BadStatus(resp.status))
    ensures resp.Unreachable? ==> r.outcome == Err(TransportFailed(resp.msg))
  {
    Call(Post(StatusUrl(t.url, t.token), JSON_CONTENT, JsonStatus(StatusReport(repo, b, link))),
         Acknowledge(resp))
  }

  /** `Activate`: posts the callback link as plain text; success only on 204. */
  function Activate(t: Adapter, repo: Host.Repo, link: string, resp: Response<()>): (r: Call<()>)
    ensures r.request == Post(t.url + "/repo/" + repo.name + "/activate/" + t.token, TEXT_CONTENT, PlainText(link))
    ensures r.outcome.Ok? <==> resp.Reply? && resp.code == STATUS_NO_CONTENT
    ensures resp.Reply? && resp.code != STATUS_NO_CONTENT ==> r.outcome == Err(BadStatus(resp.status))
    ensures resp.Unreachable? ==> r.outcome == Err(TransportFailed(resp.msg))
  {
    Call(Post(ActivateUrl(t.url, repo.name, t.token), TEXT_CONTENT, PlainText(link)), Acknowledge(resp))
  }

  /** `Deactivate`: posts an empty body; the callback link is not sent, so
      the call is the same whatever link is given. Success only on 204. */
  function Deactivate(t: Adapter, repo: Host.Repo, link: string, resp: Response<()>): (r: Call<()>)
    ensures r.request == Post(t.url + "/repo/" + repo.name + "/deactivate/" + t.token, TEXT_CONTENT, NoBody)
    ensures r.outcome.Ok? <==> resp.Reply? && resp.code == STATUS_NO_CONTENT
    ensures resp.Reply? && resp.code != STATUS_NO_CONTENT ==> r.outcome == Err(BadStatus(resp.status))
    ensures resp.Unreachable? ==> r.outcome == Err(TransportFailed(resp.msg))
  {
    Call(Post(DeactivateUrl(t.url, repo.name, t.token), TEXT_CONTENT, NoBody), Acknowledge(resp))
  }

  /** `Hook`: reads and decodes the webhook body as a commit and fills a
      fresh repository and a fresh build from it, field by field. */
  method Hook(payload: Body<Json<Wire.Commit>>) returns (r: Result<Push>)
    ensures r.Ok? <==> payload.Received? && payload.content.Decoded?
    ensures r.Ok? ==>
      var c := payload.content.value;
      r.value.repo == PushRepo(c) && r.value.build == PushBuild(c)
    ensures payload.Truncated? ==> r == Err(ReadFailed(payload.msg))
    ensures payload.Received? && payload.content.Invalid? ==> r == Err(DecodeFailed(payload.content.msg))
  {
    if payload.Truncated? {
      return Err(ReadFailed(payload.msg));
    }
    var decoded := Decode(payload.content);
    if decoded.Err? {
      return Err(decoded.error);
    }
    var commit := decoded.value;

    var repo := Host.EMPTY_REPO;
    repo := repo.(owner := commit.owner);
    repo := repo.(name := commit.name);
    repo := repo.(fullName := commit.owner + "/" + commit.name);
    repo := repo.(link := commit.repository);
    repo := repo.(clone := commit.repository);
    repo := repo.(branch := commit.branch);

    var build := Host.EMPTY_BUILD;
    build := build.(event := Host.EVENT_PUSH);
    build := build.(commit := commit.rev);
    build := build.(branch := commit.branch);
    build := build.(ref := commit.rev);
    build := build.(message := commit.description);
    build := build.(author := commit.author);
    build := build.(email := commit.author);
    r := Ok(Push(repo, build));
  }

  /** A build triggered by a webhook reports its status back for the pushed
      revision: the report echoes the commit's repository name, revision,
      branch, author and description, with the push event. */
  lemma PushStatusEchoesCommit(t: Adapter, c: Wire.Commit, link: string, resp: Response<()>)
    ensures Status(t, PushRepo(c), PushBuild(c), link, resp).request.payload
      == JsonStatus(Wire.Status(link, c.name, "", c.branch, c.rev, c.author, c.author, c.description, Host.EVENT_PUSH))
  {
  }

  // ---------------------------------------------------------------------
  // The request paths as the source writes them
  // ---------------------------------------------------------------------
  //
  // `File`, `FileRef`, `Status`, `Activate` and `Deactivate` append their
  // path template to the configured URL and hand the whole string to
  // `fmt.Sprintf` as the format, so a `%` in the configured URL is read as a
  // directive. The members below model that; the operations above use the
  // plain concatenations, which agree with them on every URL without `%`.

  const RAW_FILE_FORMAT := "/repo/%s/raw-file/%s/%s"
  const STATUS_FORMAT := "/status/%s"
  const ACTIVATE_FORMAT := "/repo/%s/activate/%s"
  const DEACTIVATE_FORMAT := "/repo/%s/deactivate/%s"

  // Proof aids: the request paths regrouped to the right and the templates
  // split at their directives. Dafny proves each of them unaided; they are
  // stated so that the lemmas below can supply these facts without a costly
  // search, and they are not properties of the adapter.

  /** `RawFileUrl` with its pieces grouped from the right. */
  lemma RawFileUrlNested(base: string, name: string, ref: string, path: string)
    ensures RawFileUrl(base, name, ref, path) == base + ("/repo/" + (name + ("/raw-file/" + (ref + ("/" + path)))))
  {
  }

  /** `StatusUrl` with its pieces grouped from the right. */
  lemma StatusUrlNested(base: string, token: string)
    ensures StatusUrl(base, token) == base + ("/status/" + token)
  {
  }

  /** `ActivateUrl` with its pieces grouped from the right. */
  lemma ActivateUrlNested(base: string, name: string, token: string)
    ensures ActivateUrl(base, name, token) == base + ("/repo/" + (name + ("/activate/" + token)))
  {
  }

  /** `DeactivateUrl` with its pieces grouped from the right. */
  lemma DeactivateUrlNested(base: string, name: string, token: string)
    ensures DeactivateUrl(base, name, token) == base + ("/repo/" + (name + ("/deactivate/" + token)))
  {
  }

  /** The raw-file template, split at its directives. */
  lemma RawFileFormat()
    ensures RAW_FILE_FORMAT == "/repo/" + ("%s" + ("/raw-file/" + ("%s" + ("/" + ("%s" + "")))))
  {
  }

  /** The status template, split at its directive. */
  lemma StatusFormat()
    ensures STATUS_FORMAT == "/status/" + ("%s" + "")
  {
  }

  /** The activation template, split at its directives. */
  lemma ActivateFormat()
    ensures ACTIVATE_FORMAT == "/repo/" + ("%s" + ("/activate/" + ("%s" + "")))
  {
  }

  /** The deactivation template, split at its directives. */
  lemma DeactivateFormat()
    ensures DEACTIVATE_FORMAT == "/repo/" + ("%s" + ("/deactivate/" + ("%s" + "")))
  {
  }

  /** The raw-file template is a format in scope. */
  lemma RawFileFormatSupported()
    ensures Fmt.Supported(RAW_FILE_FORMAT)
  {
    RawFileFormat();
    Fmt.End("");
    Fmt.SupportedVerb("/", "");
    Fmt.SupportedVerb("/raw-file/", "/" + ("%s" + ""));
    Fmt.SupportedVerb("/repo/", "/raw-file/" + ("%s" + ("/" + ("%s" + ""))));
  }

  /** The status template is a format in scope. */
  lemma StatusFormatSupported()
    ensures Fmt.Supported(STATUS_FORMAT)
  {
    StatusFormat();
    Fmt.End("");
    Fmt.SupportedVerb("/status/", "");
  }

  /** The activation template is a format in scope. */
  lemma ActivateFormatSupported()
    ensures Fmt.Supported(ACTIVATE_FORMAT)
  {
    ActivateFormat();
    Fmt.End("");
    Fmt.SupportedVerb("/activate/", "");
    Fmt.SupportedVerb("/repo/", "/activate/" + ("%s" + ""));
  }

  /** The deactivation template is a format in scope. */
  lemma DeactivateFormatSupported()
    ensures Fmt.Supported(DEACTIVATE_FORMAT)
  {
    DeactivateFormat();
    Fmt.End("");
    Fmt.SupportedVerb("/deactivate/", "");
    Fmt.SupportedVerb("/repo/", "/deactivate/" + ("%s" + ""));
  }

  /** The raw-file template filled with its three arguments. */
  lemma RawFileFormatFilled(name: string, ref: string, path: string)
    ensures Fmt.Supported(RAW_FILE_FORMAT)
    ensures Fmt.Sprintf(RAW_FILE_FORMAT, [name, ref, path])
      == "/repo/" + (name + ("/raw-file/" + (ref + ("/" + path))))
  {
    RawFileFormat();
    Fmt.Sprintf3("/repo/", "/raw-file/", "/", "", name, ref, path);
    assert path + "" == path;
  }

  /** The raw-file template given one argument too few. */
  lemma RawFileFormatShort(ref: string, path: string)
    ensures Fmt.Supported(RAW_FILE_FORMAT)
    ensures Fmt.Sprintf(RAW_FILE_FORMAT, [ref, path])
      == "/repo/" + (ref + ("/raw-file/" + (path + ("/" + "%!s(MISSING)"))))
  {
    RawFileFormat();
    Fmt.Sprintf3Short("/repo/", "/raw-file/", "/", "", ref, path);
    assert "%!s(MISSING)" + "" == "%!s(MISSING)";
  }

  /** The status template filled with its argument. */
  lemma StatusFormatFilled(token: string)
    ensures Fmt.Supported(STATUS_FORMAT)
    ensures Fmt.Sprintf(STATUS_FORMAT, [token]) == "/status/" + token
  {
    StatusFormat();
    Fmt.Sprintf1("/status/", "", token);
    assert token + "" == token;
  }

  /** The status template given no argument. */
  lemma StatusFormatShort()
    ensures Fmt.Supported(STATUS_FORMAT)
    ensures Fmt.Sprintf(STATUS_FORMAT, []) == "/status/" + "%!s(MISSING)"
  {
    StatusFormat();
    Fmt.End("");
    Fmt.ChainMissing("/status/", "", "");
    assert "%!s(MISSING)" + "" == "%!s(MISSING)";
  }

  /** The activation template filled with its two arguments. */
  lemma ActivateFormatFilled(name: string, token: string)
    ensures Fmt.Supported(ACTIVATE_FORMAT)
    ensures Fmt.Sprintf(ACTIVATE_FORMAT, [name, token]) == "/repo/" + (name + ("/activate/" + token))
  {
    ActivateFormat();
    Fmt.Sprintf2("/repo/", "/activate/", "", name, token);
    assert token + "" == token;
  }

  /** The activation template given one argument too few. */
  lemma ActivateFormatShort(token: string)
    ensures Fmt.Supported(ACTIVATE_FORMAT)
    ensures Fmt.Sprintf(ACTIVATE_FORMAT, [token]) == "/repo/" + (token + ("/activate/" + "%!s(MISSING)"))
  {
    ActivateFormat();
    Fmt.Sprintf2Short("/repo/", "/activate/", "", token);
    assert "%!s(MISSING)" + "" == "%!s(MISSING)";
  }

  /** The deactivation template filled with its two arguments. */
  lemma DeactivateFormatFilled(name: string, token: string)
    ensures Fmt.Supported(DEACTIVATE_FORMAT)
    ensures Fmt.Sprintf(DEACTIVATE_FORMAT, [name, token]) == "/repo/" + (name + ("/deactivate/" + token))
  {
    DeactivateFormat();
    Fmt.Sprintf2("/repo/", "/deactivate/", "", name, token);
    assert token + "" == token;
  }

  /** The deactivation template given one argument too few. */
  lemma DeactivateFormatShort(token: string)
    ensures Fmt.Supported(DEACTIVATE_FORMAT)
    ensures Fmt.Sprintf(DEACTIVATE_FORMAT, [token]) == "/repo/" + (token + ("/deactivate/" + "%!s(MISSING)"))
  {
    DeactivateFormat();
    Fmt.Sprintf2Short("/repo/", "/deactivate/", "", token);
    assert "%!s(MISSING)" + "" == "%!s(MISSING)";
  }

  /** `fmt.Sprintf(t.URL+"/repo/%s/raw-file/%s/%s", …)` of `File` and `FileRef`. */
  function RawFileUrlAsWritten(base: string, name: string, ref: string, path: string): string
    requires Fmt.Supported(base)
  {
    RawFileFormatSupported();
    Fmt.SupportedAppend(base, RAW_FILE_FORMAT);
    Fmt.Sprintf(base + RAW_FILE_FORMAT, [name, ref, path])
  }

  /** `fmt.Sprintf(t.URL+"/status/%s", t.Token)` of `Status`. */
  function StatusUrlAsWritten(base: string, token: string): string
    requires Fmt.Supported(base)
  {
    StatusFormatSupported();
    Fmt.SupportedAppend(base, STATUS_FORMAT);
    Fmt.Sprintf(base + STATUS_FORMAT, [token])
  }

  /** `fmt.Sprintf(t.URL+"/repo/%s/activate/%s", …)` of `Activate`. */
  function ActivateUrlAsWritten(base: string, name: string, token: string): string
    requires Fmt.Supported(base)
  {
    ActivateFormatSupported();
    Fmt.SupportedAppend(base, ACTIVATE_FORMAT);
    Fmt.Sprintf(base + ACTIVATE_FORMAT, [name, token])
  }

  /** `fmt.Sprintf(t.URL+"/repo/%s/deactivate/%s", …)` of `Deactivate`. */
  function DeactivateUrlAsWritten(base: string, name: string, token: string): string
    requires Fmt.Supported(base)
  {
    DeactivateFormatSupported();
    Fmt.SupportedAppend(base, DEACTIVATE_FORMAT);
    Fmt.Sprintf(base + DEACTIVATE_FORMAT, [name, token])
  }

  /** The raw-file path as written agrees with `RawFileUrl` on every URL without `%`. */
  lemma RawFileUrlAsWrittenAgrees(base: string, name: string, ref: string, path: string)
    requires '%' !in base
    ensures Fmt.Supported(base)
    ensures RawFileUrlAsWritten(base, name, ref, path) == RawFileUrl(base, name, ref, path)
  {
    Fmt.End(base);
    RawFileFormatFilled(name, ref, path);
    Fmt.Literal(base, RAW_FILE_FORMAT, [name, ref, path]);
    RawFileUrlNested(base, name, ref, path);
  }

  /** The status path as written agrees with `StatusUrl` on every URL without `%`. */
  lemma StatusUrlAsWrittenAgrees(base: string, token: string)
    requires '%' !in base
    ensures Fmt.Supported(base)
    ensures StatusUrlAsWritten(base, token) == StatusUrl(base, token)
  {
    Fmt.End(base);
    StatusFormatFilled(token);
    Fmt.Literal(base, STATUS_FORMAT, [token]);
    StatusUrlNested(base, token);
  }

  /** The activation path as written agrees with `ActivateUrl` on every URL without `%`. */
  lemma ActivateUrlAsWrittenAgrees(base: string, name: string, token: string)
    requires '%' !in base
    ensures Fmt.Supported(base)
    ensures ActivateUrlAsWritten(base, name, token) == ActivateUrl(base, name, token)
  {
    Fmt.End(base);
    ActivateFormatFilled(name, token);
    Fmt.Literal(base, ACTIVATE_FORMAT, [name, token]);
    ActivateUrlNested(base, name, token);
  }

  /** The deactivation path as written agrees with `DeactivateUrl` on every URL without `%`. */
  lemma DeactivateUrlAsWrittenAgrees(base: string, name: string, token: string)
    requires '%' !in base
    ensures Fmt.Supported(base)
    ensures DeactivateUrlAsWritten(base, name, token) == DeactivateUrl(base, name, token)
  {
    Fmt.End(base);
    DeactivateFormatFilled(name, token);
    Fmt.Literal(base, DEACTIVATE_FORMAT, [name, token]);
    DeactivateUrlNested(base, name, token);
  }

  /** A configured URL ending in `%s` (any `host` without `%`): the repository
      name takes the place of the `%s`, the ref and the path move one slot to
      the left and the file becomes Go's missing-argument marker, so the
      request goes to another path than the intended one. */
  lemma RawFileUrlPercentMisroutes(host: string, name: string, ref: string, path: string)
    requires '%' !in host && '%' !in name
    ensures Fmt.Supported(host + "%s")
    ensures RawFileUrlAsWritten(host + "%s", name, ref, path)
      == RawFileUrl(host + name, ref, path, "%!s(MISSING)")
    ensures RawFileUrlAsWritten(host + "%s", name, ref, path) != RawFileUrl(host + "%s", name, ref, path)
  {
    var base := host + "%s";
    var tail := "/repo/" + (ref + ("/raw-file/" + (path + ("/" + "%!s(MISSING)"))));
    Fmt.End(host);
    Fmt.End("");
    Fmt.Chain(host, "", "", [], "");
    assert host + ("%s" + "") == base;
    RawFileFormatShort(ref, path);
    Fmt.Chain(host, RAW_FILE_FORMAT, name, [ref, path], tail);
    Fmt.Args3(name, ref, path);
    Text.Regroup(host, "%s", RAW_FILE_FORMAT);
    RawFileUrlNested(host + name, ref, path, "%!s(MISSING)");
    Text.Regroup(host, name, tail);
    RawFileUrlNested(base, name, ref, path);
    Text.Regroup(host, "%s", ("/repo/" + (name + ("/raw-file/" + (ref + ("/" + path))))));
    Text.At(host, "%s" + ("/repo/" + (name + ("/raw-file/" + (ref + ("/" + path))))));
    Text.At(host, name + tail);
  }

  /** A configured URL ending in `%s`: the token takes the place of the `%s`
      and the status path ends in the missing-argument marker. */
  lemma StatusUrlPercentMisroutes(host: string, token: string)
    requires '%' !in host && '%' !in token
    ensures Fmt.Supported(host + "%s")
    ensures StatusUrlAsWritten(host + "%s", token) == StatusUrl(host + token, "%!s(MISSING)")
    ensures StatusUrlAsWritten(host + "%s", token) != StatusUrl(host + "%s", token)
  {
    var base := host + "%s";
    var tail := "/status/" + "%!s(MISSING)";
    Fmt.End("");
    Fmt.Chain(host, "", "", [], "");
    assert host + ("%s" + "") == base;
    StatusFormatShort();
    Fmt.Chain(host, STATUS_FORMAT, token, [], tail);
    Fmt.Args1(token);
    Text.Regroup(host, "%s", STATUS_FORMAT);
    StatusUrlNested(host + token, "%!s(MISSING)");
    Text.Regroup(host, token, tail);
    StatusUrlNested(base, token);
    Text.Regroup(host, "%s", ("/status/" + token));
    Text.At(host, "%s" + ("/status/" + token));
    Text.At(host, token + tail);
  }

  /** A configured URL ending in `%s`: the activate request puts the
      repository name where the `%s` was and the token where the name was. */
  lemma ActivateUrlPercentMisroutes(host: string, name: string, token: string)
    requires '%' !in host && '%' !in name
    ensures Fmt.Supported(host + "%s")
    ensures ActivateUrlAsWritten(host + "%s", name, token) == ActivateUrl(host + name, token, "%!s(MISSING)")
    ensures ActivateUrlAsWritten(host + "%s", name, token) != ActivateUrl(host + "%s", name, token)
  {
    var base := host + "%s";
    var tail := "/repo/" + (token + ("/activate/" + "%!s(MISSING)"));
    Fmt.End("");
    Fmt.Chain(host, "", "", [], "");
    assert host + ("%s" + "") == base;
    ActivateFormatShort(token);
    Fmt.Chain(host, ACTIVATE_FORMAT, name, [token], tail);
    Fmt.Args2(name, token);
    Text.Regroup(host, "%s", ACTIVATE_FORMAT);
    ActivateUrlNested(host + name, token, "%!s(MISSING)");
    Text.Regroup(host, name, tail);
    ActivateUrlNested(base, name, token);
    Text.Regroup(host, "%s", ("/repo/" + (name + ("/activate/" + token))));
    Text.At(host, "%s" + ("/repo/" + (name + ("/activate/" + token))));
    Text.At(host, name + tail);
  }

  /** A configured URL ending in `%s`: the deactivate request puts the
      repository name where the `%s` was and the token where the name was. */
  lemma DeactivateUrlPercentMisroutes(host: string, name: string, token: string)
    requires '%' !in host && '%' !in name
    ensures Fmt.Supported(host + "%s")
    ensures DeactivateUrlAsWritten(host + "%s", name, token) == DeactivateUrl(host + name, token, "%!s(MISSING)")
    ensures DeactivateUrlAsWritten(host + "%s", name, token) != DeactivateUrl(host + "%s", name, token)
  {
    var base := host + "%s";
    var tail := "/repo/" + (token + ("/deactivate/" + "%!s(MISSING)"));
    Fmt.End("");
    Fmt.Chain(host, "", "", [], "");
    assert host + ("%s" + "") == base;
    DeactivateFormatShort(token);
    Fmt.Chain(host, DEACTIVATE_FORMAT, name, [token], tail);
    Fmt.Args2(name, token);
    Text.Regroup(host, "%s", DEACTIVATE_FORMAT);
    DeactivateUrlNested(host + name, token, "%!s(MISSING)");
    Text.Regroup(host, name, tail);
    DeactivateUrlNested(base, name, token);
    Text.Regroup(host, "%s", ("/repo/" + (name + ("/deactivate/" + token))));
    Text.At(host, "%s" + ("/repo/" + (name + ("/deactivate/" + token))));
    Text.At(host, name + tail);
  }
}
