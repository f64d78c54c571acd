/** How the status monitor reports a job as a check run (monitor/events.go):
    the phase → (status, conclusion) table, the run's name, and the options
    of the create and update calls. */
module CheckRuns {
  import opened Core
  import opened Strconv
  import opened Text
  import opened Webhooks

  const StatusCompleted := "completed"
  const StatusInProgress := "in_progress"
  const StatusQueued := "queued"

  const ConclusionCanceled := "cancelled"
  const ConclusionFailure := "failure"
  const ConclusionSuccess := "success"

  /** `checkRunStatusAndConclusionFromJobStatus`. A phase the switch does not
      list (timed out) gets an empty status and an empty conclusion. */
  function StatusAndConclusion(phase: JobPhase): (r: (string, string))
    ensures phase.JobAborted? || phase.JobCanceled? ==> r == (StatusCompleted, ConclusionCanceled)
    ensures phase.JobFailed? || phase.JobSchedulingFailed? || phase.JobUnknown? ==> r == (StatusCompleted, ConclusionFailure)
    ensures phase.JobPending? || phase.JobStarting? ==> r == (StatusQueued, "")
    ensures phase.JobRunning? ==> r == (StatusInProgress, "")
    ensures phase.JobSucceeded? ==> r == (StatusCompleted, ConclusionSuccess)
    ensures phase.JobTimedOut? ==> r == ("", "")
    // A conclusion is given exactly when the run is reported completed.
    ensures r.1 != "" <==> r.0 == StatusCompleted
    // A job reported completed is in a terminal phase, or its phase is unknown.
    ensures r.0 == StatusCompleted ==> phase.IsTerminal() || phase.JobUnknown?
    // Every non-terminal phase other than unknown is reported without a conclusion.
    ensures !phase.IsTerminal() && !phase.JobUnknown? ==> r.1 == "" && r.0 != ""
  {
    match phase
    case JobAborted => (StatusCompleted, ConclusionCanceled)
    case JobCanceled => (StatusCompleted, ConclusionCanceled)
    case JobFailed => (StatusCompleted, ConclusionFailure)
    case JobSchedulingFailed => (StatusCompleted, ConclusionFailure)
    case JobUnknown => (StatusCompleted, ConclusionFailure)
    case JobPending => (StatusQueued, "")
    case JobStarting => (StatusQueued, "")
    case JobRunning => (StatusInProgress, "")
    case JobSucceeded => (StatusCompleted, ConclusionSuccess)
    case JobTimedOut => ("", "")
  }

  /** The name of a job's check run: its project, a colon, the job's name. */
  function CheckRunName(projectID: string, jobName: string): string {
    projectID + ":" + jobName
  }

  datatype CheckRunOutput = CheckRunOutput(title: string, summary: string, text: string)

  const LogsSummary := "Job Logs"

  /** The options of the create call; `None` is an omitted (nil) field. */
  datatype CreateCheckRunOptions = CreateCheckRunOptions(
    name: string,
    headSHA: string,
    status: string,
    startedAt: Option<int>,
    conclusion: Option<string>,
    completedAt: Option<int>,
    output: Option<CheckRunOutput>)

  /** The options of the update call: no head commit and no start time. */
  datatype UpdateCheckRunOptions = UpdateCheckRunOptions(
    name: string,
    status: string,
    conclusion: Option<string>,
    completedAt: Option<int>,
    output: Option<CheckRunOutput>)

  function NonEmpty(s: string): Option<string> {
    if s == "" then None else Some(s)
  }

  function LogsOutput(name: string, logs: string): Option<CheckRunOutput> {
    if logs == "" then None else Some(CheckRunOutput(name, LogsSummary, logs))
  }

  /** The options `createCheckRun` builds. */
  function CreateOptions(projectID: string, job: Job, headSHA: string,
                         status: string, conclusion: string, logs: string): (o: CreateCheckRunOptions)
    ensures o.name == CheckRunName(projectID, job.name) && o.headSHA == headSHA && o.status == status
    ensures o.startedAt.Some? <==> job.started.Some?
    ensures o.startedAt.Some? ==> o.startedAt == job.started
    ensures o.conclusion.Some? <==> conclusion != ""
    ensures o.conclusion.Some? ==> o.conclusion.value == conclusion
    ensures o.completedAt == job.ended
    ensures o.output.Some? <==> logs != ""
    ensures o.output.Some? ==> o.output.value == CheckRunOutput(o.name, LogsSummary, logs)
  {
    var name := CheckRunName(projectID, job.name);
    CreateCheckRunOptions(name, headSHA, status, job.started, NonEmpty(conclusion), job.ended, LogsOutput(name, logs))
  }

  /** The create options without the fields an update cannot change. */
  function AsUpdate(o: CreateCheckRunOptions): UpdateCheckRunOptions {
    UpdateCheckRunOptions(o.name, o.status, o.conclusion, o.completedAt, o.output)
  }

  /** The options `updateCheckRun` builds: the same fields as the create
      call's, except the head commit and the start time. */
  function UpdateOptions(projectID: string, job: Job, status: string,
                         conclusion: string, logs: string): (o: UpdateCheckRunOptions)
    ensures forall headSHA :: o == AsUpdate(CreateOptions(projectID, job, headSHA, status, conclusion, logs))
  {
    var name := CheckRunName(projectID, job.name);
    UpdateCheckRunOptions(name, status, NonEmpty(conclusion), job.ended, LogsOutput(name, logs))
  }

  /** A re-run request of a run the monitor created is routed back to the
      project that ran the job: the receiver's split of the run's name gives
      the project back, whenever the project id holds no colon. */
  lemma ReRunTargetsReportingProject(appID: int64, repo: Repo, installationID: int64,
                                     projectID: string, jobName: string,
                                     headSHA: string, headBranch: string, payload: string)
    requires ':' !in projectID
    ensures var t := Translate(appID, CheckRunHook("rerequested", repo, installationID,
                                                   CheckRunName(projectID, jobName), headSHA, headBranch), payload);
            && t.Single?
            && t.event.projectID == projectID
            && t.event.eventType == "check_run:rerequested"
            && t.event.sourceState == Some(TrackingState(installationID, repo, headSHA))
  {
    var name := CheckRunName(projectID, jobName);
    var w := CheckRunHook("rerequested", repo, installationID, name, headSHA, headBranch);
    assert name == projectID + [':'] + jobName;
    assert name[|projectID|] == ':';
    SplitFirstOfJoin(projectID, ':', jobName);
    assert ProjectOf(w) == projectID;
    assert EventType(w) == "check_run:rerequested";
    assert StateOf(w) == Some(TrackingState(installationID, repo, headSHA));
  }
}
