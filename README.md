# Brigade GitHub gateway: a Dafny model of its core

The gateway connects GitHub to the Brigade event bus. It has two processes.

- **The receiver** turns each GitHub webhook into Brigade events. `Handle`
  decodes the webhook and builds one event whose type is the webhook's kind,
  plus `:action` for the kinds that carry an action. For the tracked
  check-suite and check-run kinds it attaches a source state (`tracking`,
  installation, owner, repository, head commit). For check runs it takes the
  target project from the run's name. It then submits the event to the bus.
  An installation webhook becomes one event per affected repository. Before
  submitting, it may ask GitHub to run the check suite of a pull request's
  head commit. This happens when a trusted author comments `/brig check` or
  `/brig run`, or when a trusted author opens or updates a pull request from
  a fork.
- **The monitor** lists the tracked events and keeps one follow-up loop per
  listed event. Each loop fetches its event and reports every job not yet
  reported complete as a GitHub check run. The first report creates the run
  and later reports update it. A finished job's report carries its logs,
  capped at 1000 lines. Once every job and the worker are done, the loop
  clears the event's source state, so the event is no longer tracked.

## How the model is built

- **Webhooks and events are values.** `Webhooks.Translate` is the type switch
  of `Handle`, written as a function from the decoded webhook to a
  `Translation`. A translation is `Drop` (no event), `Single(event)` or
  `FanOut(template, repos)`.
- **External services are classes.** GitHub, the events client, the
  check-runs client and the log stream each record every call in a `calls`
  (or `created`) trace. The reply to the `k`-th call is a scripted function
  `nat -> Reply`. Each method that talks to a service has a *plan*
  function: the calls it makes and how it ends. The method's `ensures` ties
  its new trace and its result to that plan (`SuitePlan`, `CommentPlan`,
  `ForwardPlan`, `PullRequestPlan`, `LogsPlan`, `CreatePlan`, `UpdatePlan`,
  `ReportPlan`, `Receiver.Delivery`).
- **Mutable maps become class fields.** The monitor's per-event state
  (`checkRunIDs`, `reportedComplete`) lives in `EventMonitor.EventTask`, and
  the registry of follow-up loops (`loopCancelFns`) lives in
  `Discovery.Discovery`. Their loops are `while` loops with invariants.
- **Go behaviour is spelled out:**
  - a Go panic (indexing an empty list, following a nil pointer) is an
    explicit `Panicked` outcome;
  - `errors.Wrap` is `Core.Wrap`, that is `context + ": " + cause`;
  - a nil-safe getter reads as the zero value;
  - `strconv.ParseInt(s, 10, 64)` is `Strconv.ParseInt64`, which checks the
    int64 range.

## Model

| member | source | states |
|---|---|---|
| Forwarding.IsAllowedAuthorAssociation | receiver/internal/webhooks/service.go:700-706 | The search answers true exactly when the association is in the configured list, compared exactly. The same function is at check_suite_forwarding.go:87-94. |
| Forwarding.CommandIsCaseInsensitive | receiver/internal/webhooks/service.go:346-348 | A comment containing any letter casing of `/brig check` or `/brig run` (any text whose lower-case form is a command) requests a check suite, because the body is lower-cased before the search. |
| Forwarding.ContainsToLower | receiver/internal/webhooks/service.go:346-348 | Lower-casing both sides keeps every occurrence of a substring. |
| Webhooks.PushTitles | receiver/internal/webhooks/service.go:711-724 | Both titles are equal. They are `branch: <group>` when `refs/heads/(.+)` matches anywhere in the ref, else `tag: <group>` when `refs/tags/(.+)` matches. They are empty exactly when neither pattern matches at any position. |
| Webhooks.PullRequestTitles | receiver/internal/webhooks/service.go:729-737 | The short title is `PR #<number>` exactly when the number is present. The long title is `<short>: <title>` exactly when the number and the title are both present. Otherwise the titles are empty. |
| Webhooks.Translate | receiver/internal/webhooks/service.go:78-686 | Ping, app authorization, unsupported kinds and a check run whose name has no `:` are dropped. Installation kinds fan out. Every other kind gives one event. That event has the gateway source, the raw payload, the app id label and the repository qualifier, with no id and no worker. Its type is `kind:action`, `kind` or `push:delete`. It has a source state exactly for the tracked kinds. A check run's project is the text before the first `:` of the run's name, and every other kind has no project. |
| Webhooks.TranslateTrackingState | receiver/internal/webhooks/service.go:112-165 | A tracked check suite carries the installation, repository and suite head commit. A re-requested check run carries its suite's head commit. |
| Webhooks.TranslateGitDetails | receiver/internal/webhooks/service.go:99-655 | Git details are present exactly for check runs and suites, create, the pull-request kinds, non-deleted pushes, releases and statuses. Each carries that kind's commit and ref, and a pull request's ref is `refs/pull/<n>/head`. |
| Webhooks.TranslateTitles | receiver/internal/webhooks/service.go:499-598 | Pull-request kinds take their titles from the pull request and pushes from the ref. Every other kind has empty titles. |
| Webhooks.Emitted | receiver/internal/webhooks/service.go:279-326 | A fan-out emits one event per repository, in order. Each is the template qualified by that repository: the removed repositories for `removed`, otherwise the added ones. |
| Webhooks.EmittedEventsCarryIdentity | receiver/internal/webhooks/service.go:78-84 | Every emitted event, including each fanned-out one, carries the gateway source, the payload, the app id label and a repository qualifier. |
| Webhooks.TrackingOnlyForTrackedKinds | receiver/internal/webhooks/service.go:121-165 | An emitted event carries source state exactly when its webhook is a tracked kind. Fan-out events carry no git details. |
| CheckRuns.ReRunTargetsReportingProject | monitor/events.go:263 | A `rerequested` webhook for a run named `<project>:<job>` by the monitor is routed back to `<project>` as `check_run:rerequested`, with tracking state, whenever the project id holds no colon. |
| CiCd.DerivedType | receiver/internal/webhooks/ci_cd.go:15-26 | The two check-suite requests map to `ci:pipeline_requested`, a check-run re-request maps to `ci:job_requested`, and a published release maps to `cd:pipeline_requested`. Each holds in both directions. |
| CiCd.CiCdEvent | receiver/internal/webhooks/ci_cd.go:7-29 | There is no derived event exactly for the other types. A derived event carries the type `DerivedType` gives (for instance `check_suite:requested` becomes `ci:pipeline_requested`) and differs from the input in nothing else. |
| CiCd.CiCdEventDoesNotChain | receiver/internal/webhooks/ci_cd.go:15-26 | A derived event derives nothing further. |
| CiCd.RequestedAndRerequestedCollapse | receiver/internal/webhooks/ci_cd.go:15-17 | Check-suite `requested` and `rerequested` derive the same event. |
| Forwarding.SuitePlan | receiver/internal/webhooks/service.go:777-850 | `requestCheckSuite` first makes a client. A client error stops there. Then it lists the commit's suites, filtered by app, and a listing error stops there. A positive total with an empty list panics. A positive total otherwise re-runs the first suite. A total of 0 or less creates a suite for the commit (a create error stops) and re-runs it. It ends `Done` exactly when its last call is a re-run that succeeded. |
| Forwarding.ReRun | receiver/internal/webhooks/service.go:840-850 | The re-run is the last call. It fails exactly when the platform refuses it, with the wrapped error, and never panics. |
| Forwarding.SuitePlanAtMostOneEach | receiver/internal/webhooks/check_suite_forwarding.go:133-207 | Whatever the replies, at most one suite is created and at most one re-run is requested. A created suite is for the head commit. |
| Forwarding.RequestCheckSuite | receiver/internal/webhooks/check_suite_forwarding.go:133-207 | It makes exactly the calls of `SuitePlan` and ends as it does. |
| Forwarding.PullRequestPlan | receiver/internal/webhooks/service.go:742-771 | It makes a client, then gets the pull request by the issue's number. A client error stops after one call. The result is a head commit exactly when the get succeeds, and it is the head commit of the pull request returned. A failed get gives `error getting pullrequest <n> for <repository>` wrapped around the cause. |
| Forwarding.GetPullRequestForComment | receiver/internal/webhooks/check_suite_forwarding.go:98-131 | It makes exactly the calls of `PullRequestPlan` and returns its result. |
| Forwarding.CommentPlan | receiver/internal/webhooks/check_suite_forwarding.go:27-49 | The comment path first fetches the pull request, and that error is the result. Otherwise it requests the suite of the pull request's head commit. |
| Forwarding.CommentRequestsFetchedHead | receiver/internal/webhooks/check_suite_forwarding.go:31-46 | When the client is made and the pull request is fetched, the comment path's calls are the client, the get, and then exactly the suite request for that pull request's head commit. |
| Forwarding.ForwardComment | receiver/internal/webhooks/check_suite_forwarding.go:27-49 | It makes exactly the calls of `CommentPlan` and ends as it does. |
| Forwarding.ForwardPlan | receiver/internal/webhooks/check_suite_forwarding.go:12-82 | No call is made unless a trigger holds. A created comment on a pull request asking for a run, by an allowed author, goes through the comment path. An opened, synchronized or reopened pull request from a fork, by an allowed author, requests its head commit's suite. |
| Forwarding.CheckSuiteForwarding | receiver/internal/webhooks/check_suite_forwarding.go:12-82 | It makes exactly the calls of `ForwardPlan` and returns its outcome. |
| Receiver.Delivery | receiver/internal/webhooks/service.go:279-296 | Submission stops at the first failing `Create` and keeps the items of every call made, including the failing one. Its error is the wrapped bus error. Without an error every event reached the bus. |
| Receiver.DeliveryAllAccepted | receiver/internal/webhooks/service.go:284-295 | When every `Create` succeeds, all events reach the bus, every item is kept, and there is no error. |
| Receiver.DeliveryFirstFailure | receiver/internal/webhooks/service.go:284-295 | When the `i`-th `Create` fails first, exactly `i + 1` events reach the bus. The error is that call's, wrapped. |
| Receiver.Service.EmitAll | receiver/internal/webhooks/service.go:284-295 | The fan-out loop submits exactly the events `Delivery` says, in order, and returns its items and error. |
| Receiver.Service.Submit | receiver/internal/webhooks/service.go:689-694 | A dropped kind makes no call. One event makes one `Create`, whose items are returned even with its wrapped error. A fan-out goes through `EmitAll`. |
| Receiver.Service.Handle | receiver/internal/webhooks/service.go:65-695 | A decoding error reaches neither client and is wrapped as `error unmarshaling payload`. Otherwise the forwarding calls of `ForwardPlan` come first, and their errors are only logged. A panic in them ends `Handle`. Then the translation's events are submitted as `Delivery` says. |
| Receiver.SubmittedEventsAreLabelled | receiver/internal/webhooks/service.go:78-84 | Every event one `Handle` puts on the bus carries the gateway source, the payload and the app id label. It carries source state exactly when the webhook is tracked. |
| CheckRuns.StatusAndConclusion | monitor/events.go:371-392 | This is the phase table. Aborted and canceled give `completed/cancelled`. Failed, scheduling-failed and unknown give `completed/failure`. Pending and starting give `queued`, running gives `in_progress`, and succeeded gives `completed/success`. Timed out gives two empty strings. A conclusion is present exactly when the status is `completed`. |
| CheckRuns.CreateOptions | monitor/events.go:263-289 | The name is `<project>:<job>`. The head commit and status are set. Start and completion times are set exactly when the job has them. The conclusion is set exactly when non-empty. The output is set exactly when there are logs, titled by the run's name with summary `Job Logs`. |
| CheckRuns.UpdateOptions | monitor/events.go:326-346 | The update options equal the create options without the head commit and the start time. |
| EventMonitor.LogsPlan | monitor/events.go:394-454 | A job that is not done has empty logs and opens no stream. A done job's logs are streamed exactly once. An error discards the collected text. Otherwise the result is the collection of the stream. |
| EventMonitor.GetJobLogs | monitor/events.go:394-454 | It makes exactly the calls of `LogsPlan` and returns its text and error. |
| Logs.CollectLogs | monitor/events.go:418-454 | The collection loop returns exactly `Collected`. That is the entries received before the first stop within 1000 receptions, each followed by a line feed. A value on the error channel or a cancellation instead gives empty text and that error. A nil error value gives empty text and no error. A closed error channel is no stop. |
| Logs.FirstStop | monitor/events.go:421-442 | The first reception that ends the loop is within the bound, and nothing before it stops. |
| Logs.EntriesTextIsJoin | monitor/events.go:430-435 | The collected text is the received messages, each followed by a line feed. |
| Logs.CollectedIsBounded | monitor/events.go:418-454 | Successful logs are at most 1000 lines, each followed by a line feed, and nothing else. The truncation notice is never written, because `i > maxLines` cannot hold once the loop has exited. |
| Logs.ErrorDiscardsLogs | monitor/events.go:436-441 | A value on the error channel or a cancellation before the stream closes discards every entry already received. The result is that error, or no error at all for a nil error value. |
| EventMonitor.CreatePlan | monitor/events.go:290-311 | It makes a client, then creates the run. It succeeds exactly when both succeed, with the platform's id. A create error is wrapped with the run's quoted name and the installation. |
| EventMonitor.UpdatePlan | monitor/events.go:339-368 | It makes a client, then updates the run. It succeeds exactly when both succeed, and the run keeps its id. |
| EventMonitor.ReportPlan | monitor/events.go:152-211 | A job without a run is created with the source state's owner, repository and head commit, the phase's status and conclusion, and the logs. A created run's id is the one the platform returned. A job with a run is updated by that run's id with the same status, conclusion and logs, and on success the id is unchanged. |
| EventMonitor.PostCheckRun | monitor/events.go:178-211 | It makes exactly the calls of `ReportPlan` and ends as it does. |
| EventMonitor.EventTask.PostJob | monitor/events.go:178-218 | It makes the calls of `ReportPlan`. On success the job's run id is recorded, and a done job joins `reportedComplete`. On failure nothing changes. It keeps `Valid`: each run was created once, and only jobs with a run are reported complete. |
| EventMonitor.EventTask.ReportJob | monitor/events.go:152-218 | It fetches the logs first, and a logs error gives up. A nil source state panics. An unparsable installation id gives up. Otherwise the check-runs calls are exactly `ReportPlan`'s for the fetched logs and the parsed installation. The job is reported exactly when that plan succeeds, with its run id recorded; a failed plan gives its error. No run is forgotten. |
| EventMonitor.EventTask.VisitJob | monitor/events.go:146-218 | A job reported complete before is skipped with no call at all. Any other job opens at most one log stream. Once its logs are in and its installation is parsed, it makes exactly `ReportPlan`'s check-runs calls with those logs, and its run id is recorded when the plan succeeds. |
| EventMonitor.EventTask.VisitJobs | monitor/events.go:144-219 | After the job loop `reportedComplete` is the old set plus the names of the done jobs. `allJobsCompleted` is `Settled`. The bus only streams logs. If every job was reported complete before, no call is made. |
| EventMonitor.SettledDistinct | monitor/events.go:144-219 | With distinct job names, the iteration finds all jobs completed exactly when every job is done or was reported complete before. |
| EventMonitor.TerminalNamesMembers | monitor/events.go:212-215 | A name is recorded as reported complete exactly when some done job carries it. |
| EventMonitor.EventTask.Untrack | monitor/events.go:223-238 | It clears the event's source state with one call, and the task ends exactly when that call succeeds. |
| EventMonitor.EventTask.FollowUp | monitor/events.go:133-241 | A failed get gives up after one call. A nil worker panics. Otherwise the jobs are visited. The source state is cleared as the iteration's last call exactly when all jobs settled and the worker is done. |
| EventMonitor.EventTask.Run | monitor/events.go:122-248 | The task untracks its event exactly when it ends normally, as its last call. The source state is never cleared earlier. Run ids are never forgotten and the reported set only grows. |
| Discovery.ListTracked | monitor/events.go:40-79 | It keeps listing with the previous page's continuation token while items remain. A listing error is wrapped as `error listing events`. Otherwise the result is exactly the ids on the pages listed. |
| Discovery.ListedIDsMembers | monitor/events.go:72-74 | An id is current exactly when some page of the cycle carries it. |
| Discovery.Discovery.CancelDropped | monitor/events.go:89-94 | Exactly the registered events that are no longer listed have their loop cancelled, once each, with their own cancel function. They leave the registry and the others keep theirs. |
| Discovery.Discovery.StartNew | monitor/events.go:97-103 | Exactly the listed events without a loop get one, once each, under a fresh cancel function. Events already registered keep theirs. |
| Discovery.Discovery.Reconcile | monitor/events.go:86-103 | The registry ends as exactly the listed events. Survivors keep their loops. The cancels of the dropped events come before the starts of the new ones. |
| Discovery.Discovery.Cycle | monitor/events.go:40-103 | A listing error is sent on the error channel and ends the discovery with the loops left alone. Otherwise the registry is reconciled with the listed events. |
| Strconv.FormatIntParseRoundTrip | monitor/events.go:167-176 | The installation id the receiver formats with `strconv.FormatInt` parses back to the same int64. |
| Text.SplitFirstOfJoin | receiver/internal/webhooks/service.go:103-112 | Splitting `<head>:<tail>` at its first colon gives back `<head>` when the head has no colon. |
| Text.FindGroup | receiver/internal/webhooks/service.go:18-19 | The group of an unanchored `<literal>(.+)` search is absent exactly when no `<literal>` is followed by a character other than a line feed. Otherwise it is taken at the leftmost such match and is the non-empty rest of the line after it. |
| Text.ToLowerIdempotent | receiver/internal/webhooks/service.go:346 | Lower-casing twice is lower-casing once. |

## Left out

- Concurrency is not modelled. This covers goroutines, channels, tickers and
  contexts. `EventMonitor.EventTask.Run(ticks)` models the context being
  cancelled during the `ticks + 1`-th wait. `Discovery.Discovery.Cycle`
  models one pass of the discovery loop, and repeating it is not modelled.
  Starting a follow-up loop is recorded as a `StartLoop` hook, and running
  the loop is `EventTask`.
- Discovery.ListTracked: requires that some later listing reply ends the
  listing, with an error or with no remaining items. `Discovery.Discovery.Cycle`
  has the same requirement. The loop at monitor/events.go:40-79 has no
  bound of its own, and against a server that always reports remaining items
  it never exits. The model does not cover that non-terminating run.
- The manageEvents listing query is not recorded: source, worker phases,
  `tracking` selector and page limit of 100. Only the continuation token is
  kept.
- JSON decoding inside `github.ParseWebHook` is not modelled; it is the
  `Parsed` input. Also not modelled: signature verification, the HTTP
  handler, configuration loading, health checks, `main` and logging.
- `getCICDEvent` is not called by `Handle` in this revision. It is modelled
  on its own.
- `Handle` in service.go inlines its own copy of the forwarding and only
  logs its errors. `checkSuiteForwarding` in check_suite_forwarding.go
  returns them. The model has one `CheckSuiteForwarding`: `Handle` ignores
  its error outcome, and a panic in it ends `Handle`.
- In events.go:181 the id returned by a failed create is assigned into
  `checkRunIDs` before the task gives up. The map dies with the task, so this
  cannot be observed. `PostJob` leaves the map unchanged on failure.
- Nil `Job.Status` pointers are not modelled. Job times are integers.
- `EventMonitor.LogsPlan`: the per-job log selector and the `Follow`
  option are not recorded, only the event and job names.
- The phase sets that `IsTerminal` uses come from the Brigade SDK, which is
  not part of this model. Aborted, canceled, failed, scheduling-failed,
  succeeded and timed out are terminal.
- Text.ToLower: lowers ASCII letters only. Go's `strings.ToLower` also
  lowers non-ASCII letters.
- Core.Quote: wraps the text in double quotes without Go's `%q` escaping.
- Text.FindGroup: models `refs/heads/(.+)` and `refs/tags/(.+)` with a
  literal prefix and a group ending at the first line feed. It is not a
  general regular-expression engine.
- Strconv.ParseInt64: decimal only with an optional sign, as
  `strconv.ParseInt(s, 10, 64)`. The error text is not Go's exact message.
- Where the tests describe another revision, the model follows the source
  shown here:
  - there is no event filter before submission;
  - the log collection has no circular buffer;
  - no app id label is read in the monitor;
  - there is no downgrade of failures to neutral;
  - a check run whose name has no `:` is dropped.
