/** Check-suite forwarding (receiver/internal/webhooks/check_suite_forwarding.go
    and its inlined copy in service.go): when a trusted author comments a
    command on a pull request, or opens or updates a pull request from a fork,
    the gateway asks the platform to run (or re-run) the check suite of the
    head commit. */
module Forwarding {
  import opened Core
  import opened Strconv
  import opened Text
  import opened Webhooks

  /** A configured application: its id, webhook secret and private key. */
  datatype App = App(appID: int64, sharedSecret: string, apiKey: string)

  /** The receiver's configuration as `Handle` reads it. */
  datatype Config = Config(allowedAuthorAssociations: seq<string>, apps: map<int64, App>)

  /** `config.GitHubApps[appID]`: the zero `App` for an unknown id. */
  function AppFor(config: Config, appID: int64): App {
    if appID in config.apps then config.apps[appID] else App(0, "", "")
  }

  /** `isAllowedAuthorAssociation`: a linear search for an exact,
      case-sensitive match in the configured list. */
  function IsAllowedAuthorAssociation(allowed: seq<string>, association: string): (r: bool)
    ensures r <==> association in allowed
  {
    if allowed == [] then false
    else if allowed[0] == association then true
    else IsAllowedAuthorAssociation(allowed[1..], association)
  }

  const CheckCommand := "/brig check"
  const RunCommand := "/brig run"

  /** The comment asks for a check suite: its lower-cased body contains one of
      the two commands. */
  predicate RequestsCheckSuite(body: string) {
    Contains(ToLower(body), CheckCommand) || Contains(ToLower(body), RunCommand)
  }

  /** An issue comment triggers a request: on a pull request, just created,
      asking for it, by an allowed author. */
  predicate CommentTriggers(config: Config, w: Webhook) {
    && w.IssueCommentHook?
    && w.issueIsPullRequest
    && w.action == "created"
    && RequestsCheckSuite(w.commentBody)
    && IsAllowedAuthorAssociation(config.allowedAuthorAssociations, w.commentAuthorAssociation)
  }

  /** A pull request triggers a request: opened, synchronized or reopened,
      from a fork, by an allowed author. */
  predicate PullRequestTriggers(config: Config, w: Webhook) {
    && w.PullRequestHook?
    && (w.action == "opened" || w.action == "synchronize" || w.action == "reopened")
    && w.pullRequest.headRepoIsFork
    && IsAllowedAuthorAssociation(config.allowedAuthorAssociations, w.pullRequest.authorAssociation)
  }

  /** Lower-casing keeps occurrences: a text containing `sub` contains it
      lower-cased once both are lower-cased. */
  lemma ContainsToLower(s: string, sub: string)
    requires Contains(s, sub)
    ensures Contains(ToLower(s), ToLower(sub))
  {
    var i :| OccursAt(s, sub, i);
    assert OccursAt(ToLower(s), ToLower(sub), i);
  }

  /** The commands are recognised whatever their case: a comment containing
      any casing of a command (`/BRIG RUN`, `/Brig Check`, ...) asks for a
      check suite. */
  lemma CommandIsCaseInsensitive(body: string, command: string)
    requires Contains(body, command)
    requires ToLower(command) == RunCommand || ToLower(command) == CheckCommand
    ensures RequestsCheckSuite(body)
  {
    ContainsToLower(body, command);
  }

  /** The calls the gateway makes on the platform's API, in order. */
  datatype Call =
    | NewClient(appID: int64, installationID: int64, apiKey: string)
    | GetPullRequest(owner: string, repo: string, number: int)
    | ListCheckSuites(owner: string, repo: string, commit: string, appID: int64)
    | CreateCheckSuite(owner: string, repo: string, headSHA: string)
    | ReRequestCheckSuite(owner: string, repo: string, suiteID: int64)

  datatype PullRequestReply = GetFailed(message: string) | Found(headSHA: string)
  /** A listing: the reported total and the ids of the suites returned. */
  datatype ListReply = ListFailed(message: string) | Listed(total: int, suiteIDs: seq<int64>)
  datatype CreateReply = CreateFailed(message: string) | SuiteCreated(id: int64)

  /** How a request ends: done, an error, or a Go panic (indexing an empty
      suite list whose reported total is positive). */
  datatype Outcome = Done | Failed(message: string) | Panicked

  /** The platform's API as seen by the receiver: every call is recorded, and
      the reply to the `k`-th call is given by the scripts. */
  class GitHub {
    var calls: seq<Call>
    const onNewClient: nat -> Option<string>
    const onGetPullRequest: nat -> PullRequestReply
    const onList: nat -> ListReply
    const onCreate: nat -> CreateReply
    const onReRequest: nat -> Option<string>

    constructor(onNewClient: nat -> Option<string>, onGetPullRequest: nat -> PullRequestReply,
                onList: nat -> ListReply, onCreate: nat -> CreateReply, onReRequest: nat -> Option<string>)
      ensures calls == []
      ensures this.onNewClient == onNewClient && this.onGetPullRequest == onGetPullRequest
      ensures this.onList == onList && this.onCreate == onCreate && this.onReRequest == onReRequest
    {
      calls := [];
      this.onNewClient := onNewClient;
      this.onGetPullRequest := onGetPullRequest;
      this.onList := onList;
      this.onCreate := onCreate;
      this.onReRequest := onReRequest;
    }

    method Client(appID: int64, installationID: int64, apiKey: string) returns (err: Option<string>)
      modifies this
      ensures calls == old(calls) + [NewClient(appID, installationID, apiKey)]
      ensures err == onNewClient(|old(calls)|)
    {
      err := onNewClient(|calls|);
      calls := calls + [NewClient(appID, installationID, apiKey)];
    }

    method PullRequestGet(owner: string, repo: string, number: int) returns (r: PullRequestReply)
      modifies this
      ensures calls == old(calls) + [GetPullRequest(owner, repo, number)]
      ensures r == onGetPullRequest(|old(calls)|)
    {
      r := onGetPullRequest(|calls|);
      calls := calls + [GetPullRequest(owner, repo, number)];
    }

    method ListSuites(owner: string, repo: string, commit: string, appID: int64) returns (r: ListReply)
      modifies this
      ensures calls == old(calls) + [ListCheckSuites(owner, repo, commit, appID)]
      ensures r == onList(|old(calls)|)
    {
      r := onList(|calls|);
      calls := calls + [ListCheckSuites(owner, repo, commit, appID)];
    }

    method CreateSuite(owner: string, repo: string, headSHA: string) returns (r: CreateReply)
      modifies this
      ensures calls == old(calls) + [CreateCheckSuite(owner, repo, headSHA)]
      ensures r == onCreate(|old(calls)|)
    {
      r := onCreate(|calls|);
      calls := calls + [CreateCheckSuite(owner, repo, headSHA)];
    }

    method ReRequestSuite(owner: string, repo: string, suiteID: int64) returns (err: Option<string>)
      modifies this
      ensures calls == old(calls) + [ReRequestCheckSuite(owner, repo, suiteID)]
      ensures err == onReRequest(|old(calls)|)
    {
      err := onReRequest(|calls|);
      calls := calls + [ReRequestCheckSuite(owner, repo, suiteID)];
    }
  }

  function ClientError(installationID: int64, cause: string): string {
    Wrap("error creating new client for installation " + FormatInt(installationID), cause)
  }

  /** The context of a failed listing of the commit's suites. */
  function ListContext(commit: string): string {
    "error listing check suites for commit " + commit
  }

  /** The context of a failed creation of the commit's suite (quoted commit). */
  function CreateContext(commit: string): string {
    "error creating check suite for commit " + Quote(commit)
  }

  /** The context of a failed re-request of the commit's suite. */
  function ReRunContext(commit: string): string {
    "error creating check suite for commit " + commit
  }

  /** `requestCheckSuite` as a specification: the calls it makes when the
      first of them is the `n`-th call on `gh`, and how it ends. */
  function SuitePlan(gh: GitHub, n: nat, app: App, installationID: int64,
                     owner: string, repo: string, commit: string): (r: (seq<Call>, Outcome))
    ensures |r.0| >= 1 && r.0[0] == NewClient(app.appID, installationID, app.apiKey)
    ensures gh.onNewClient(n).Some? ==> r == ([r.0[0]], Failed(ClientError(installationID, gh.onNewClient(n).value)))
    ensures gh.onNewClient(n).None? ==> |r.0| >= 2 && r.0[1] == ListCheckSuites(owner, repo, commit, app.appID)
    ensures gh.onNewClient(n).None? && gh.onList(n + 1).ListFailed? ==>
              |r.0| == 2 && r.1 == Failed(Wrap(ListContext(commit),
                                                gh.onList(n + 1).message))
    ensures gh.onNewClient(n).None? && gh.onList(n + 1).Listed? && gh.onList(n + 1).total > 0 ==>
              if gh.onList(n + 1).suiteIDs == [] then |r.0| == 2 && r.1 == Panicked
              else r.0[2..] == [ReRequestCheckSuite(owner, repo, gh.onList(n + 1).suiteIDs[0])]
    ensures gh.onNewClient(n).None? && gh.onList(n + 1).Listed? && gh.onList(n + 1).total <= 0 ==>
              && |r.0| >= 3 && r.0[2] == CreateCheckSuite(owner, repo, commit)
              && (gh.onCreate(n + 2).CreateFailed? ==>
                    |r.0| == 3 && r.1 == Failed(Wrap(CreateContext(commit),
                                                     gh.onCreate(n + 2).message)))
              && (gh.onCreate(n + 2).SuiteCreated? ==>
                    r.0[3..] == [ReRequestCheckSuite(owner, repo, gh.onCreate(n + 2).id)])
    ensures r.1.Done? <==> Last(r.0).ReRequestCheckSuite? && gh.onReRequest(n + |r.0| - 1).None?
  {
    var first := NewClient(app.appID, installationID, app.apiKey);
    match gh.onNewClient(n)
    case Some(e) => ([first], Failed(ClientError(installationID, e)))
    case None =>
      var list := ListCheckSuites(owner, repo, commit, app.appID);
      match gh.onList(n + 1)
      case ListFailed(e) => ([first, list], Failed(Wrap(ListContext(commit), e)))
      case Listed(total, ids) =>
        if total > 0 then
          if ids == [] then ([first, list], Panicked)
          else ReRun(gh, n + 2, [first, list], owner, repo, commit, ids[0])
        else
          var create := CreateCheckSuite(owner, repo, commit);
          match gh.onCreate(n + 2)
          case CreateFailed(e) =>
            ([first, list, create], Failed(Wrap(CreateContext(commit), e)))
          case SuiteCreated(id) => ReRun(gh, n + 3, [first, list, create], owner, repo, commit, id)
  }

  function Last<T>(s: seq<T>): T
    requires |s| > 0
  {
    s[|s| - 1]
  }

  /** The final re-request of a suite, after the calls `before`; its error is
      wrapped, a nil error stays nil. */
  function ReRun(gh: GitHub, n: nat, before: seq<Call>, owner: string, repo: string,
                 commit: string, id: int64): (r: (seq<Call>, Outcome))
    ensures r.0 == before + [ReRequestCheckSuite(owner, repo, id)]
    ensures r.1.Done? <==> gh.onReRequest(n).None?
    ensures r.1.Failed? ==> r.1.message == Wrap(ReRunContext(commit),
                                               gh.onReRequest(n).value)
    ensures !r.1.Panicked?
  {
    var calls := before + [ReRequestCheckSuite(owner, repo, id)];
    match WrapOpt(ReRunContext(commit), gh.onReRequest(n))
    case None => (calls, Done)
    case Some(e) => (calls, Failed(e))
  }

  /** `requestCheckSuite`: reuse the suite the app-filtered listing reports,
      else create one for the commit; then re-run it. */
  method RequestCheckSuite(gh: GitHub, app: App, installationID: int64,
                           owner: string, repo: string, commit: string) returns (res: Outcome)
    modifies gh
    ensures var plan := SuitePlan(gh, |old(gh.calls)|, app, installationID, owner, repo, commit);
            gh.calls == old(gh.calls) + plan.0 && res == plan.1
  {
    ghost var n := |gh.calls|;
    ghost var start := gh.calls;
    var err := gh.Client(app.appID, installationID, app.apiKey);
    if err.Some? {
      return Failed(ClientError(installationID, err.value));
    }
    var listed := gh.ListSuites(owner, repo, commit, app.appID);
    if listed.ListFailed? {
      return Failed(Wrap(ListContext(commit), listed.message));
    }
    var suiteID: int64;
    if listed.total > 0 {
      if listed.suiteIDs == [] {
        return Panicked;
      }
      suiteID := listed.suiteIDs[0];
    } else {
      var created := gh.CreateSuite(owner, repo, commit);
      if created.CreateFailed? {
        return Failed(Wrap(CreateContext(commit), created.message));
      }
      suiteID := created.id;
    }
    ghost var before := gh.calls[n..];
    assert gh.calls == start + before;
    err := gh.ReRequestSuite(owner, repo, suiteID);
    res := match WrapOpt(ReRunContext(commit), err)
           case None => Done
           case Some(e) => Failed(e);
  }

  /** The pull request of an issue comment, or the error fetching it. */
  datatype PullRequestResult = PullRequestError(message: string) | PullRequestHead(headSHA: string)

  /** The context of a failed fetch of a comment's pull request. */
  function GetPullRequestContext(number: int, repo: Repo): string {
    "error getting pullrequest " + FormatInt(number) + " for " + repo.fullName
  }

  /** `getPRFromIssueCommentWebhook` as a specification. */
  function PullRequestPlan(gh: GitHub, n: nat, app: App, w: Webhook): (r: (seq<Call>, PullRequestResult))
    requires w.IssueCommentHook?
    ensures |r.0| >= 1 && r.0[0] == NewClient(app.appID, w.installationID, app.apiKey)
    ensures gh.onNewClient(n).Some? <==> |r.0| == 1
    ensures |r.0| == 1 ==> r.1 == PullRequestError(ClientError(w.installationID, gh.onNewClient(n).value))
    ensures |r.0| == 2 ==> r.0[1] == GetPullRequest(w.repo.ownerLogin, w.repo.name, w.issueNumber)
    ensures |r.0| == 2 ==> (r.1.PullRequestHead? <==> gh.onGetPullRequest(n + 1).Found?)
    ensures |r.0| == 2 && gh.onGetPullRequest(n + 1).GetFailed? ==>
              r.1 == PullRequestError(Wrap(GetPullRequestContext(w.issueNumber, w.repo),
                                           gh.onGetPullRequest(n + 1).message))
    // The head commit is the one of the pull request the platform returned.
    ensures r.1.PullRequestHead? ==> |r.0| == 2 && r.1.headSHA == gh.onGetPullRequest(n + 1).headSHA
    ensures |r.0| <= 2
  {
    var first := NewClient(app.appID, w.installationID, app.apiKey);
    match gh.onNewClient(n)
    case Some(e) => ([first], PullRequestError(ClientError(w.installationID, e)))
    case None =>
      var get := GetPullRequest(w.repo.ownerLogin, w.repo.name, w.issueNumber);
      match gh.onGetPullRequest(n + 1)
      case GetFailed(e) =>
        ([first, get], PullRequestError(Wrap(GetPullRequestContext(w.issueNumber, w.repo), e)))
      case Found(sha) => ([first, get], PullRequestHead(sha))
  }

  method GetPullRequestForComment(gh: GitHub, app: App, w: Webhook) returns (res: PullRequestResult)
    requires w.IssueCommentHook?
    modifies gh
    ensures var plan := PullRequestPlan(gh, |old(gh.calls)|, app, w);
            gh.calls == old(gh.calls) + plan.0 && res == plan.1
  {
    var err := gh.Client(app.appID, w.installationID, app.apiKey);
    if err.Some? {
      return PullRequestError(ClientError(w.installationID, err.value));
    }
    var reply := gh.PullRequestGet(w.repo.ownerLogin, w.repo.name, w.issueNumber);
    match reply
    case GetFailed(e) =>
      res := PullRequestError(Wrap(GetPullRequestContext(w.issueNumber, w.repo), e));
    case Found(sha) =>
      res := PullRequestHead(sha);
  }

  /** The comment path of `checkSuiteForwarding` as a specification: the
      pull request is fetched first and its error is the result; otherwise
      the suite of its head commit is requested. */
  function CommentPlan(gh: GitHub, n: nat, app: App, w: Webhook): (r: (seq<Call>, Outcome))
    requires w.IssueCommentHook?
    ensures var pr := PullRequestPlan(gh, n, app, w);
            && |pr.0| <= |r.0| && r.0[..|pr.0|] == pr.0
            && (pr.1.PullRequestError? ==> r == (pr.0, Failed(pr.1.message)))
            && (pr.1.PullRequestHead? ==>
                  var suite := SuitePlan(gh, n + |pr.0|, app, w.installationID,
                                         w.repo.ownerLogin, w.repo.name, pr.1.headSHA);
                  r == (pr.0 + suite.0, suite.1))
  {
    var pr := PullRequestPlan(gh, n, app, w);
    match pr.1
    case PullRequestError(e) => (pr.0, Failed(e))
    case PullRequestHead(sha) =>
      var suite := SuitePlan(gh, n + |pr.0|, app, w.installationID, w.repo.ownerLogin, w.repo.name, sha);
      (pr.0 + suite.0, suite.1)
  }

  /** A comment whose pull request is fetched requests the suite of that
      pull request's head commit, right after the fetch. */
  lemma CommentRequestsFetchedHead(gh: GitHub, n: nat, app: App, w: Webhook)
    requires w.IssueCommentHook?
    requires gh.onNewClient(n).None? && gh.onGetPullRequest(n + 1).Found?
    ensures var suite := SuitePlan(gh, n + 2, app, w.installationID, w.repo.ownerLogin, w.repo.name,
                                   gh.onGetPullRequest(n + 1).headSHA);
            CommentPlan(gh, n, app, w)
              == ([NewClient(app.appID, w.installationID, app.apiKey),
                   GetPullRequest(w.repo.ownerLogin, w.repo.name, w.issueNumber)] + suite.0, suite.1)
  {
    var pr := PullRequestPlan(gh, n, app, w);
    assert |pr.0| == 2;
  }

  /** `checkSuiteForwarding` as a specification: no call at all unless a
      trigger holds; a comment goes through its pull request, a pull request
      requests the suite of its head commit. */
  function ForwardPlan(gh: GitHub, n: nat, config: Config, appID: int64, w: Webhook): (r: (seq<Call>, Outcome))
    ensures !CommentTriggers(config, w) && !PullRequestTriggers(config, w) ==> r == ([], Done)
    ensures PullRequestTriggers(config, w) ==>
              r == SuitePlan(gh, n, AppFor(config, appID), w.installationID,
                             w.repo.ownerLogin, w.repo.name, w.pullRequest.headSHA)
    ensures CommentTriggers(config, w) ==> r == CommentPlan(gh, n, AppFor(config, appID), w)
  {
    var app := AppFor(config, appID);
    if CommentTriggers(config, w) then CommentPlan(gh, n, app, w)
    else if PullRequestTriggers(config, w) then
      SuitePlan(gh, n, app, w.installationID, w.repo.ownerLogin, w.repo.name, w.pullRequest.headSHA)
    else ([], Done)
  }

  /** The comment path of `checkSuiteForwarding`. */
  method ForwardComment(gh: GitHub, app: App, w: Webhook) returns (res: Outcome)
    requires w.IssueCommentHook?
    modifies gh
    ensures var plan := CommentPlan(gh, |old(gh.calls)|, app, w);
            gh.calls == old(gh.calls) + plan.0 && res == plan.1
  {
    var pr := GetPullRequestForComment(gh, app, w);
    ghost var prCalls := gh.calls;
    if pr.PullRequestError? {
      return Failed(pr.message);
    }
    res := RequestCheckSuite(gh, app, w.installationID, w.repo.ownerLogin, w.repo.name, pr.headSHA);
    ghost var suite := SuitePlan(gh, |prCalls|, app, w.installationID, w.repo.ownerLogin, w.repo.name, pr.headSHA);
    assert gh.calls == old(gh.calls) + (prCalls[|old(gh.calls)|..] + suite.0);
  }

  /** `checkSuiteForwarding`. */
  method CheckSuiteForwarding(gh: GitHub, config: Config, appID: int64, w: Webhook) returns (res: Outcome)
    modifies gh
    ensures var plan := ForwardPlan(gh, |old(gh.calls)|, config, appID, w);
            gh.calls == old(gh.calls) + plan.0 && res == plan.1
  {
    var app := AppFor(config, appID);
    if CommentTriggers(config, w) {
      res := ForwardComment(gh, app, w);
    } else if PullRequestTriggers(config, w) {
      res := RequestCheckSuite(gh, app, w.installationID, w.repo.ownerLogin, w.repo.name, w.pullRequest.headSHA);
    } else {
      res := Done;
    }
  }

  /** Whatever the replies, forwarding makes at most one create and at most
      one re-run request, and a created suite is for the head commit. */
  lemma SuitePlanAtMostOneEach(gh: GitHub, n: nat, app: App, installationID: int64,
                               owner: string, repo: string, commit: string)
    ensures var calls := SuitePlan(gh, n, app, installationID, owner, repo, commit).0;
            && (forall i, j :: 0 <= i < j < |calls| && calls[i].CreateCheckSuite? ==> !calls[j].CreateCheckSuite?)
            && (forall i, j :: 0 <= i < j < |calls| && calls[i].ReRequestCheckSuite? ==> !calls[j].ReRequestCheckSuite?)
            && (forall c <- calls :: c.CreateCheckSuite? ==> c.headSHA == commit)
  {
  }
}
