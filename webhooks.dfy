/** The webhook transformer's mapping (receiver/internal/webhooks/service.go):
    an already-decoded webhook, one constructor per supported kind, becomes
    the bus event that `Handle` submits, or a template that it fans out over
    repositories, or nothing. */
module Webhooks {
  import opened Core
  import opened Strconv
  import opened Text

  /** The parts of a repository record the transformer reads; a nil
      repository reads as empty strings. */
  datatype Repo = Repo(fullName: string, name: string, ownerLogin: string)

  /** A pull request as the transformer sees it. `number` and `title` are the
      optional pointers of the payload; the rest read as zero values when absent. */
  datatype PullRequest = PullRequest(
    number: Option<int>,
    title: Option<string>,
    headSHA: string,
    headRepoIsFork: bool,
    authorAssociation: string)

  /** The decoded webhook, one constructor per kind `ParseWebHook` can return.
      `Unsupported` stands for a kind that decodes but has no case (for
      instance deployment). */
  datatype Webhook =
    | CheckRunHook(action: string, repo: Repo, installationID: int64,
                   checkRunName: string, suiteHeadSHA: string, suiteHeadBranch: string)
    | CheckSuiteHook(action: string, repo: Repo, installationID: int64,
                     headSHA: string, headBranch: string)
    | CreateHook(repo: Repo, ref: string)
    | DeleteHook(repo: Repo)
    | ForkHook(repo: Repo)
    | GitHubAppAuthorizationHook
    | GollumHook(repo: Repo)
    | InstallationHook(action: string, repositories: seq<string>)
    | InstallationRepositoriesHook(action: string, added: seq<string>, removed: seq<string>)
    | IssueCommentHook(action: string, repo: Repo, installationID: int64,
                       issueIsPullRequest: bool, issueNumber: int,
                       commentBody: string, commentAuthorAssociation: string)
    | IssuesHook(action: string, repo: Repo)
    | LabelHook(action: string, repo: Repo)
    | MemberHook(action: string, repo: Repo)
    | MilestoneHook(action: string, repo: Repo)
    | PageBuildHook(repo: Repo)
    | PingHook
    | ProjectCardHook(action: string, repo: Repo)
    | ProjectColumnHook(action: string, repo: Repo)
    | ProjectHook(action: string, repo: Repo)
    | PublicHook(repo: Repo)
    | PullRequestHook(action: string, repo: Repo, installationID: int64, pullRequest: PullRequest)
    | PullRequestReviewHook(action: string, repo: Repo, pullRequest: PullRequest)
    | PullRequestReviewCommentHook(action: string, repo: Repo, pullRequest: PullRequest)
    | PushHook(repo: Repo, ref: string, headCommitID: string, deleted: bool)
    | ReleaseHook(action: string, repo: Repo, tagName: string)
    | RepositoryHook(action: string, repo: Repo)
    | StatusHook(repo: Repo, commitSHA: string)
    | TeamAddHook(repo: Repo)
    | WatchHook(action: string, repo: Repo)
    | Unsupported(kind: string)

  /** The outcome of `github.ParseWebHook`: a decoded webhook, or the decoding error. */
  datatype Parsed = ParseFailed(message: string) | Decoded(webhook: Webhook)

  /** What `Handle` does with a webhook after building its event. */
  datatype Translation =
    | Drop                                          // zero events, no call to the bus
    | Single(event: Event)                          // one event, one `Create`
    | FanOut(template: Event, repos: seq<string>)   // one `Create` per repository

  /** The webhook type name of a kind, as the platform spells it. */
  function KindName(w: Webhook): string {
    match w
    case CheckRunHook(_, _, _, _, _, _) => "check_run"
    case CheckSuiteHook(_, _, _, _, _) => "check_suite"
    case CreateHook(_, _) => "create"
    case DeleteHook(_) => "delete"
    case ForkHook(_) => "fork"
    case GitHubAppAuthorizationHook => "github_app_authorization"
    case GollumHook(_) => "gollum"
    case InstallationHook(_, _) => "installation"
    case InstallationRepositoriesHook(_, _, _) => "installation_repositories"
    case IssueCommentHook(_, _, _, _, _, _, _) => "issue_comment"
    case IssuesHook(_, _) => "issues"
    case LabelHook(_, _) => "label"
    case MemberHook(_, _) => "member"
    case MilestoneHook(_, _) => "milestone"
    case PageBuildHook(_) => "page_build"
    case PingHook => "ping"
    case ProjectCardHook(_, _) => "project_card"
    case ProjectColumnHook(_, _) => "project_column"
    case ProjectHook(_, _) => "project"
    case PublicHook(_) => "public"
    case PullRequestHook(_, _, _, _) => "pull_request"
    case PullRequestReviewHook(_, _, _) => "pull_request_review"
    case PullRequestReviewCommentHook(_, _, _) => "pull_request_review_comment"
    case PushHook(_, _, _, _) => "push"
    case ReleaseHook(_, _, _) => "release"
    case RepositoryHook(_, _) => "repository"
    case StatusHook(_, _) => "status"
    case TeamAddHook(_) => "team_add"
    case WatchHook(_, _) => "watch"
    case Unsupported(k) => k
  }

  /** Kinds whose event type carries the webhook's action. */
  predicate CarriesAction(w: Webhook) {
    w.CheckRunHook? || w.CheckSuiteHook? || w.InstallationHook? || w.InstallationRepositoriesHook?
    || w.IssueCommentHook? || w.IssuesHook? || w.LabelHook? || w.MemberHook? || w.MilestoneHook?
    || w.ProjectCardHook? || w.ProjectColumnHook? || w.ProjectHook? || w.PullRequestHook?
    || w.PullRequestReviewHook? || w.PullRequestReviewCommentHook? || w.ReleaseHook?
    || w.RepositoryHook? || w.WatchHook?
  }

  /** The pull-request scoped kinds. */
  predicate IsPullRequestKind(w: Webhook) {
    w.PullRequestHook? || w.PullRequestReviewHook? || w.PullRequestReviewCommentHook?
  }

  /** The kinds whose events go to the bus once per affected repository. */
  predicate IsFanOutKind(w: Webhook) {
    w.InstallationHook? || w.InstallationRepositoriesHook?
  }

  /** The kinds `Handle` returns on without emitting anything. */
  predicate IsIgnoredKind(w: Webhook) {
    w.PingHook? || w.GitHubAppAuthorizationHook? || w.Unsupported?
  }

  /** The webhooks whose events the monitor is to track: the two check-suite
      actions that start a run and the check-run re-run. */
  predicate IsTracked(w: Webhook) {
    || (w.CheckSuiteHook? && (w.action == "requested" || w.action == "rerequested"))
    || (w.CheckRunHook? && w.action == "rerequested")
  }

  /** `GetNumber()` of a pull request: zero when absent. */
  function NumberOrZero(pr: PullRequest): int {
    match pr.number
    case None => 0
    case Some(n) => n
  }

  const BranchRefPattern := "refs/heads/"
  const TagRefPattern := "refs/tags/"

  /** `getTitlesFromPushWebhook`: both titles name the branch, else the tag,
      found by an unanchored match of `refs/heads/(.+)`, else `refs/tags/(.+)`
      in the ref; both are empty when neither matches. */
  function PushTitles(ref: string): (r: (string, string))
    ensures r.0 == r.1
    ensures FindGroup(ref, BranchRefPattern).Some? ==>
              r.0 == "branch: " + FindGroup(ref, BranchRefPattern).value
    ensures FindGroup(ref, BranchRefPattern).None? && FindGroup(ref, TagRefPattern).Some? ==>
              r.0 == "tag: " + FindGroup(ref, TagRefPattern).value
    ensures r.0 == "" <==> (forall i :: !MatchesAt(ref, BranchRefPattern, i) && !MatchesAt(ref, TagRefPattern, i))
  {
    var branch := FindGroup(ref, BranchRefPattern);
    var tag := FindGroup(ref, TagRefPattern);
    if branch.Some? then var t := "branch: " + branch.value; (t, t)
    else if tag.Some? then var t := "tag: " + tag.value; (t, t)
    else ("", "")
  }

  /** `getTitlesFromPR`: the short title exactly when the number is present,
      the long title exactly when the number and the title both are. */
  function PullRequestTitles(pr: PullRequest): (r: (string, string))
    ensures r.0 != "" <==> pr.number.Some?
    ensures r.1 != "" <==> pr.number.Some? && pr.title.Some?
    ensures pr.number.Some? ==> r.0 == "PR #" + FormatInt(pr.number.value)
    ensures r.1 != "" ==> r.1 == r.0 + ": " + pr.title.value
  {
    if pr.number.None? then ("", "")
    else
      var short := "PR #" + FormatInt(pr.number.value);
      if pr.title.None? then (short, "") else (short, short + ": " + pr.title.value)
  }

  /** The source state that marks an event for the monitor. */
  function TrackingState(installationID: int64, repo: Repo, headSHA: string): SourceState {
    SourceState(map[
      "tracking" := "true",
      "installationID" := FormatInt(installationID),
      "owner" := repo.ownerLogin,
      "repo" := repo.name,
      "headSHA" := headSHA])
  }

  /** The event `Handle` starts from: source, raw payload and the app id label. */
  function InitialEvent(appID: int64, payload: string): Event {
    Event("", "", GatewaySource, "", map[], map["appID" := FormatInt(appID)], "", "",
          None, None, payload, None)
  }

  /** The repository a webhook is about; kinds without one read as the zero record. */
  function RepoOf(w: Webhook): Repo {
    if w.InstallationHook? || w.InstallationRepositoriesHook? || IsIgnoredKind(w) then Repo("", "", "")
    else w.repo
  }

  /** The event type each case of the type switch assigns: the kind's name,
      followed by a colon and the action for the kinds that carry one; a
      deleted push is `push:delete`. */
  function EventType(w: Webhook): string {
    if w.PushHook? && w.deleted then "push:delete"
    else if CarriesAction(w) then KindName(w) + ":" + w.action
    else KindName(w)
  }

  /** The git details each case of the type switch assigns. */
  function GitOf(w: Webhook): Option<GitDetails> {
    match w
    case CheckRunHook(_, _, _, _, sha, branch) => Some(GitDetails(sha, branch))
    case CheckSuiteHook(_, _, _, sha, branch) => Some(GitDetails(sha, branch))
    case CreateHook(_, ref) => Some(GitDetails("", ref))
    case PullRequestHook(_, _, _, pr) => Some(PullRequestGit(pr))
    case PullRequestReviewHook(_, _, pr) => Some(PullRequestGit(pr))
    case PullRequestReviewCommentHook(_, _, pr) => Some(PullRequestGit(pr))
    case PushHook(_, ref, head, deleted) => if deleted then None else Some(GitDetails(head, ref))
    case ReleaseHook(_, _, tag) => Some(GitDetails("", tag))
    case StatusHook(_, sha) => Some(GitDetails(sha, ""))
    case _ => None
  }

  /** Git details of a pull-request scoped event. */
  function PullRequestGit(pr: PullRequest): GitDetails {
    GitDetails(pr.headSHA, "refs/pull/" + FormatInt(NumberOrZero(pr)) + "/head")
  }

  /** The short and long titles each case of the type switch assigns. */
  function Titles(w: Webhook): (string, string) {
    if IsPullRequestKind(w) then PullRequestTitles(w.pullRequest)
    else if w.PushHook? then PushTitles(w.ref)
    else ("", "")
  }

  /** The source state attached to the tracked kinds. */
  function StateOf(w: Webhook): Option<SourceState> {
    if w.CheckSuiteHook? && IsTracked(w) then Some(TrackingState(w.installationID, w.repo, w.headSHA))
    else if w.CheckRunHook? && IsTracked(w) then Some(TrackingState(w.installationID, w.repo, w.suiteHeadSHA))
    else None
  }

  /** The project a check-run webhook targets: the text of the run's name before
      its first colon; empty for every other kind. */
  function ProjectOf(w: Webhook): string {
    if w.CheckRunHook? then
      var tokens := SplitFirst(w.checkRunName, ':');
      if tokens.Some? then tokens.value.0 else ""
    else ""
  }

  /** The repositories an installation webhook fans out over: the removed ones
      for the `removed` action, otherwise the added ones. */
  function FanOutRepos(w: Webhook): seq<string>
    requires IsFanOutKind(w)
  {
    if w.InstallationHook? then w.repositories
    else if w.action == "removed" then w.removed
    else w.added
  }

  /** The type switch of `Handle`: the event built for a decoded webhook,
      given here field by field. */
  function Translate(appID: int64, w: Webhook, payload: string): (r: Translation)
    ensures r.Drop? <==> IsIgnoredKind(w) || (w.CheckRunHook? && ':' !in w.checkRunName)
    ensures r.FanOut? <==> IsFanOutKind(w)
    ensures r.Single? ==> r.event.source == GatewaySource && r.event.payload == payload
    ensures r.Single? ==> r.event.labels == map["appID" := FormatInt(appID)]
    ensures r.Single? ==> r.event.qualifiers == map["repo" := RepoOf(w).fullName]
    ensures r.Single? ==> r.event.id == "" && r.event.worker.None?
    ensures r.Single? ==>
              r.event.eventType == if w.PushHook? && w.deleted then "push:delete"
                                   else if CarriesAction(w) then KindName(w) + ":" + w.action
                                   else KindName(w)
    ensures r.Single? ==> (r.event.sourceState.Some? <==> IsTracked(w))
    ensures r.Single? && w.CheckRunHook? ==>
              ':' !in r.event.projectID && exists rest :: w.checkRunName == r.event.projectID + ":" + rest
    ensures r.Single? && !w.CheckRunHook? ==> r.event.projectID == ""
    ensures r.FanOut? ==>
              r.template == InitialEvent(appID, payload).(eventType := KindName(w) + ":" + w.action)
              && r.repos == FanOutRepos(w)
  {
    var e := InitialEvent(appID, payload);
    if IsIgnoredKind(w) then Drop
    else if IsFanOutKind(w) then FanOut(e.(eventType := EventType(w)), FanOutRepos(w))
    else if w.CheckRunHook? && ':' !in w.checkRunName then Drop
    else
      var titles := Titles(w);
      assert w.CheckRunHook? ==> w.checkRunName == ProjectOf(w) + ":" + SplitFirst(w.checkRunName, ':').value.1;
      Single(e.(projectID := ProjectOf(w), eventType := EventType(w),
                qualifiers := map["repo" := RepoOf(w).fullName],
                shortTitle := titles.0, longTitle := titles.1,
                git := GitOf(w), sourceState := StateOf(w)))
  }

  /** The tracked kinds carry the installation, repository and head commit
      the monitor needs: the suite's head for check-suite webhooks and the
      run's suite head for check-run webhooks. */
  lemma TranslateTrackingState(appID: int64, w: Webhook, payload: string)
    ensures var r := Translate(appID, w, payload);
            && (r.Single? && w.CheckSuiteHook? && IsTracked(w) ==>
                  r.event.sourceState == Some(TrackingState(w.installationID, w.repo, w.headSHA)))
            && (r.Single? && w.CheckRunHook? && IsTracked(w) ==>
                  r.event.sourceState == Some(TrackingState(w.installationID, w.repo, w.suiteHeadSHA)))
  {
  }

  /** The git details of an emitted event: present exactly for the kinds that
      name a commit or a ref, holding that commit and ref. */
  lemma TranslateGitDetails(appID: int64, w: Webhook, payload: string)
    ensures var r := Translate(appID, w, payload);
            && (r.Single? ==>
                  (r.event.git.None? <==>
                     !(w.CheckRunHook? || w.CheckSuiteHook? || w.CreateHook? || IsPullRequestKind(w)
                       || (w.PushHook? && !w.deleted) || w.ReleaseHook? || w.StatusHook?)))
            && (r.Single? && w.CheckRunHook? ==> r.event.git == Some(GitDetails(w.suiteHeadSHA, w.suiteHeadBranch)))
            && (r.Single? && w.CheckSuiteHook? ==> r.event.git == Some(GitDetails(w.headSHA, w.headBranch)))
            && (r.Single? && IsPullRequestKind(w) ==>
                  r.event.git == Some(GitDetails(w.pullRequest.headSHA,
                                                 "refs/pull/" + FormatInt(NumberOrZero(w.pullRequest)) + "/head")))
            && (r.Single? && w.PushHook? && !w.deleted ==> r.event.git == Some(GitDetails(w.headCommitID, w.ref)))
            && (r.Single? && w.ReleaseHook? ==> r.event.git == Some(GitDetails("", w.tagName)))
            && (r.Single? && w.StatusHook? ==> r.event.git == Some(GitDetails(w.commitSHA, "")))
            && (r.Single? && w.CreateHook? ==> r.event.git == Some(GitDetails("", w.ref)))
  {
  }

  /** The titles of an emitted event: from the pull request for the pull
      request kinds, from the ref for pushes, empty otherwise. */
  lemma TranslateTitles(appID: int64, w: Webhook, payload: string)
    ensures var r := Translate(appID, w, payload);
            && (r.Single? && IsPullRequestKind(w) ==>
                  (r.event.shortTitle, r.event.longTitle) == PullRequestTitles(w.pullRequest))
            && (r.Single? && w.PushHook? ==> (r.event.shortTitle, r.event.longTitle) == PushTitles(w.ref))
            && (r.Single? && !IsPullRequestKind(w) && !w.PushHook? ==> r.event.shortTitle == r.event.longTitle == "")
  {
  }

  /** The event of one repository of a fan-out. */
  function ForRepo(template: Event, fullName: string): Event {
    template.(qualifiers := map["repo" := fullName])
  }

  /** Every event `Handle` would hand to the bus for a translation, in order,
      if no `Create` failed. */
  function Emitted(t: Translation): (r: seq<Event>)
    ensures t.Drop? ==> r == []
    ensures t.Single? ==> r == [t.event]
    ensures t.FanOut? ==> |r| == |t.repos|
    ensures t.FanOut? ==> forall i :: 0 <= i < |r| ==> r[i] == ForRepo(t.template, t.repos[i])
  {
    match t
    case Drop => []
    case Single(e) => [e]
    case FanOut(template, repos) => seq(|repos|, i requires 0 <= i < |repos| => ForRepo(template, repos[i]))
  }

  /** Every event the transformer emits carries the gateway source, the raw
      payload, the app id label and a repository qualifier. */
  lemma EmittedEventsCarryIdentity(appID: int64, w: Webhook, payload: string)
    ensures forall e <- Emitted(Translate(appID, w, payload)) ::
              && e.source == GatewaySource && e.payload == payload
              && e.labels == map["appID" := FormatInt(appID)]
              && "repo" in e.qualifiers
  {
  }

  /** Only the tracked kinds produce events the monitor picks up; fan-out
      events never carry source state or git details. */
  lemma TrackingOnlyForTrackedKinds(appID: int64, w: Webhook, payload: string)
    ensures forall e <- Emitted(Translate(appID, w, payload)) :: e.sourceState.Some? <==> IsTracked(w)
    ensures IsFanOutKind(w) ==> forall e <- Emitted(Translate(appID, w, payload)) :: e.git.None?
  {
  }
}
