/** The follow-up task of one tracked event (`monitorEventInternal`,
    `getJobLogs`, `createCheckRun` and `updateCheckRun` in monitor/events.go):
    each iteration fetches the event, reports every job not yet reported
    complete as a check run (created the first time, updated afterwards), and
    once every job and the worker are done clears the event's source state. */
module EventMonitor {
  import opened Core
  import opened Strconv
  import opened Logs
  import opened CheckRuns
  import opened MonitorClients

  /** The monitor's own app identity, used for every check-runs client. */
  datatype MonitorConfig = MonitorConfig(githubAppID: int64, githubAPIKey: string)

  /** `getJobLogs` as a specification: the bus calls it makes when the first
      of them is the `n`-th call, and the text and error it returns. */
  function LogsPlan(bus: Bus, n: nat, eventID: string, job: Job): (r: (seq<BusCall>, (string, Option<string>)))
    // A job that is not done yet has no logs, and no stream is opened for it.
    ensures !job.phase.IsTerminal() ==> r == ([], ("", None))
    // A done job's logs are streamed exactly once.
    ensures job.phase.IsTerminal() ==> r.0 == [StreamLogs(eventID, job.name)]
    // An error discards whatever was collected.
    ensures r.1.1.Some? ==> r.1.0 == ""
    ensures job.phase.IsTerminal() && bus.onStream(n).Streaming? ==> r.1 == Collected(bus.onStream(n).steps)
  {
    if !job.phase.IsTerminal() then ([], ("", None))
    else
      match bus.onStream(n)
      case StreamFailed(e) => ([StreamLogs(eventID, job.name)], ("", Some(e)))
      case Streaming(steps) => ([StreamLogs(eventID, job.name)], Collected(steps))
  }

  /** `getJobLogs`. */
  method GetJobLogs(bus: Bus, eventID: string, job: Job) returns (logs: string, err: Option<string>)
    modifies bus
    ensures var plan := LogsPlan(bus, |old(bus.calls)|, eventID, job);
            bus.calls == old(bus.calls) + plan.0 && (logs, err) == plan.1
  {
    if !job.phase.IsTerminal() {
      return "", None;
    }
    var reply := bus.Stream(eventID, job.name);
    match reply
    case StreamFailed(e) =>
      return "", Some(e);
    case Streaming(steps) =>
      logs, err := CollectLogs(steps);
  }

  /** How a create or update of a check run ends: the run's id, or an error. */
  datatype RunOutcome = RunOk(id: int) | RunError(message: string)

  const CreateGiveUp := "error creating check run; giving up"
  const UpdateGiveUp := "error updating check run; giving up"

  /** `createCheckRun` as a specification, with the caller's wrapping of its
      error: a client for the installation, then the create call. */
  function CreatePlan(checks: Checks, m: nat, config: MonitorConfig, installationID: int64,
                      owner: string, repo: string, options: CreateCheckRunOptions): (r: (seq<ChecksCall>, RunOutcome))
    ensures 1 <= |r.0| <= 2 && r.0[0] == NewChecksClient(config.githubAppID, installationID, config.githubAPIKey)
    ensures |r.0| == 2 <==> checks.onNewClient(m).None?
    ensures |r.0| == 2 ==> r.0[1] == CreateRun(owner, repo, options)
    ensures r.1.RunOk? <==> |r.0| == 2 && checks.onCreate(m + 1).RunCreated?
    ensures r.1.RunOk? ==> r.1.id == checks.onCreate(m + 1).id
  {
    var client := NewChecksClient(config.githubAppID, installationID, config.githubAPIKey);
    match checks.onNewClient(m)
    case Some(e) => ([client], RunError(Wrap(CreateGiveUp, e)))
    case None =>
      var calls := [client, CreateRun(owner, repo, options)];
      match checks.onCreate(m + 1)
      case RunFailed(e) =>
        (calls, RunError(CreateRunError(options.name, installationID, e)))
      case RunCreated(id) => (calls, RunOk(id))
  }

  /** `updateCheckRun` as a specification, with the caller's wrapping of its
      error; the run keeps its id. */
  function UpdatePlan(checks: Checks, m: nat, config: MonitorConfig, installationID: int64,
                      owner: string, repo: string, checkRunID: int,
                      options: UpdateCheckRunOptions): (r: (seq<ChecksCall>, RunOutcome))
    ensures 1 <= |r.0| <= 2 && r.0[0] == NewChecksClient(config.githubAppID, installationID, config.githubAPIKey)
    ensures |r.0| == 2 <==> checks.onNewClient(m).None?
    ensures |r.0| == 2 ==> r.0[1] == UpdateRun(owner, repo, checkRunID, options)
    ensures r.1.RunOk? <==> |r.0| == 2 && checks.onUpdate(m + 1).None?
    ensures r.1.RunOk? ==> r.1.id == checkRunID
  {
    var client := NewChecksClient(config.githubAppID, installationID, config.githubAPIKey);
    match checks.onNewClient(m)
    case Some(e) => ([client], RunError(Wrap(UpdateGiveUp, e)))
    case None =>
      var calls := [client, UpdateRun(owner, repo, checkRunID, options)];
      match checks.onUpdate(m + 1)
      case Some(e) =>
        (calls, RunError(UpdateRunError(options.name, installationID, e)))
      case None => (calls, RunOk(checkRunID))
  }

  /** The report of one job once its logs are in and the installation is
      parsed: a create when the job has no check run yet (`known` holds the
      runs created so far), otherwise an update of its run. */
  function ReportPlan(checks: Checks, m: nat, config: MonitorConfig, installationID: int64,
                      state: map<string, string>, event: Event, job: Job, logs: string,
                      known: map<string, int>): (r: (seq<ChecksCall>, RunOutcome))
    ensures job.name !in known ==> |r.0| == 2 ==> r.0[1].CreateRun?
    ensures job.name in known ==> |r.0| == 2 ==> r.0[1].UpdateRun? && r.0[1].checkRunID == known[job.name]
    ensures job.name in known && r.1.RunOk? ==> r.1.id == known[job.name]
    // What is sent: the repository and head commit of the event's source
    // state, the phase's status and conclusion, and the logs.
    ensures job.name !in known && |r.0| == 2 ==>
              r.0[1] == CreateRun(Lookup(state, "owner"), Lookup(state, "repo"),
                                  CreateOptions(event.projectID, job, Lookup(state, "headSHA"),
                                                StatusAndConclusion(job.phase).0,
                                                StatusAndConclusion(job.phase).1, logs))
    ensures job.name in known && |r.0| == 2 ==>
              r.0[1] == UpdateRun(Lookup(state, "owner"), Lookup(state, "repo"), known[job.name],
                                  UpdateOptions(event.projectID, job,
                                                StatusAndConclusion(job.phase).0,
                                                StatusAndConclusion(job.phase).1, logs))
    // A created run's id is the one the platform returned.
    ensures job.name !in known && r.1.RunOk? ==>
              checks.onCreate(m + 1).RunCreated? && r.1.id == checks.onCreate(m + 1).id
  {
    var (status, conclusion) := StatusAndConclusion(job.phase);
    var owner := Lookup(state, "owner");
    var repo := Lookup(state, "repo");
    if job.name !in known then
      CreatePlan(checks, m, config, installationID, owner, repo,
                 CreateOptions(event.projectID, job, Lookup(state, "headSHA"), status, conclusion, logs))
    else
      UpdatePlan(checks, m, config, installationID, owner, repo, known[job.name],
                 UpdateOptions(event.projectID, job, status, conclusion, logs))
  }

  /** `createCheckRun` for a job without a check run in `known`,
      `updateCheckRun` of its run otherwise. */
  method PostCheckRun(checks: Checks, config: MonitorConfig, event: Event, job: Job, state: map<string, string>,
                      installationID: int64, logs: string, known: map<string, int>) returns (r: RunOutcome)
    modifies checks
    ensures var plan := ReportPlan(checks, |old(checks.calls)|, config, installationID, state, event, job, logs, known);
            checks.calls == old(checks.calls) + plan.0 && r == plan.1
  {
    var (status, conclusion) := StatusAndConclusion(job.phase);
    var owner := Lookup(state, "owner");
    var repo := Lookup(state, "repo");
    var clientErr := checks.Client(config.githubAppID, installationID, config.githubAPIKey);
    if job.name !in known {
      if clientErr.Some? {
        return RunError(Wrap(CreateGiveUp, clientErr.value));
      }
      var options := CreateOptions(event.projectID, job, Lookup(state, "headSHA"), status, conclusion, logs);
      var reply := checks.Create(owner, repo, options);
      match reply
      case RunFailed(e) =>
        return RunError(CreateRunError(options.name, installationID, e));
      case RunCreated(id) =>
        return RunOk(id);
    } else {
      if clientErr.Some? {
        return RunError(Wrap(UpdateGiveUp, clientErr.value));
      }
      var options := UpdateOptions(event.projectID, job, status, conclusion, logs);
      var updateErr := checks.Update(owner, repo, known[job.name], options);
      if updateErr.Some? {
        return RunError(UpdateRunError(options.name, installationID, updateErr.value));
      }
      return RunOk(known[job.name]);
    }
  }

  function CreateRunError(name: string, installationID: int64, cause: string): string {
    Wrap(CreateGiveUp, Wrap("error creating check run " + Quote(name) + " for installation " + FormatInt(installationID), cause))
  }

  function UpdateRunError(name: string, installationID: int64, cause: string): string {
    Wrap(UpdateGiveUp, Wrap("error updating check run " + Quote(name) + " for installation " + FormatInt(installationID), cause))
  }

  function LogsGiveUp(eventID: string, jobName: string): string {
    "error getting event " + Quote(eventID) + " job " + Quote(jobName) + " logs; giving up"
  }

  function ParseGiveUp(eventID: string, text: string): string {
    Wrap("error parsing installationID " + Quote(text) + " from event " + Quote(eventID) + "; giving up",
         ParseIntError(text))
  }

  function GetGiveUp(eventID: string): string {
    "error following up on event " + Quote(eventID) + " status; giving up"
  }

  function ClearGiveUp(eventID: string): string {
    "error clearing source state for event " + Quote(eventID) + "; giving up"
  }

  /** The names of the jobs of `jobs` in a terminal phase. */
  function TerminalNames(jobs: seq<Job>): set<string>
    decreases |jobs|
  {
    if jobs == [] then {}
    else
      var last := jobs[|jobs| - 1];
      TerminalNames(jobs[..|jobs| - 1]) + (if last.phase.IsTerminal() then {last.name} else {})
  }

  /** A name is a terminal name exactly when some terminal job carries it. */
  lemma {:induction false} TerminalNamesMembers(jobs: seq<Job>, name: string)
    ensures name in TerminalNames(jobs) <==>
              exists k :: 0 <= k < |jobs| && jobs[k].phase.IsTerminal() && jobs[k].name == name
    decreases |jobs|
  {
    if jobs != [] {
      var init := jobs[..|jobs| - 1];
      TerminalNamesMembers(init, name);
      if exists k :: 0 <= k < |init| && init[k].phase.IsTerminal() && init[k].name == name {
        var k :| 0 <= k < |init| && init[k].phase.IsTerminal() && init[k].name == name;
        assert jobs[k] == init[k];
      }
      if exists k :: 0 <= k < |jobs| && jobs[k].phase.IsTerminal() && jobs[k].name == name {
        var k :| 0 <= k < |jobs| && jobs[k].phase.IsTerminal() && jobs[k].name == name;
        if k < |init| {
          assert init[k] == jobs[k];
        }
      }
    }
  }

  /** The iteration's `allJobsCompleted` after visiting `jobs` in order, when
      `reported` were reported complete before: every visited job was
      terminal, or was skipped because it had been reported complete, before
      the iteration or earlier in it. */
  predicate Settled(reported: set<string>, jobs: seq<Job>)
    decreases |jobs|
  {
    if jobs == [] then true
    else
      var init := jobs[..|jobs| - 1];
      var last := jobs[|jobs| - 1];
      Settled(reported, init) && (last.phase.IsTerminal() || last.name in reported + TerminalNames(init))
  }

  lemma TerminalNamesSnoc(jobs: seq<Job>, job: Job)
    ensures TerminalNames(jobs + [job]) == TerminalNames(jobs) + (if job.phase.IsTerminal() then {job.name} else {})
  {
    assert (jobs + [job])[..|jobs|] == jobs;
  }

  lemma SettledSnoc(reported: set<string>, jobs: seq<Job>, job: Job)
    ensures Settled(reported, jobs + [job]) <==>
              Settled(reported, jobs) && (job.phase.IsTerminal() || job.name in reported + TerminalNames(jobs))
  {
    assert (jobs + [job])[..|jobs|] == jobs;
  }

  /** When the jobs have distinct names, the iteration settles exactly when
      every job is terminal or was reported complete before it. */
  lemma {:induction false} SettledDistinct(reported: set<string>, jobs: seq<Job>)
    requires forall i, j :: 0 <= i < j < |jobs| ==> jobs[i].name != jobs[j].name
    ensures Settled(reported, jobs) <==> forall job <- jobs :: job.phase.IsTerminal() || job.name in reported
    decreases |jobs|
  {
    if jobs != [] {
      var init := jobs[..|jobs| - 1];
      var last := jobs[|jobs| - 1];
      assert jobs == init + [last];
      SettledDistinct(reported, init);
      TerminalNamesMembers(init, last.name);
      assert last.name !in TerminalNames(init) by {
        forall k | 0 <= k < |init| ensures init[k].name != last.name {
          assert init[k] == jobs[k];
        }
      }
      assert forall job :: job in jobs <==> job in init || job == last;
    }
  }

  /** The reported set an iteration leaves after visiting a prefix of its jobs
      is within the one it leaves after visiting them all. */
  lemma TerminalNamesPrefix(jobs: seq<Job>, i: nat)
    requires i <= |jobs|
    ensures TerminalNames(jobs[..i]) <= TerminalNames(jobs)
  {
    forall name | name in TerminalNames(jobs[..i]) ensures name in TerminalNames(jobs) {
      TerminalNamesMembers(jobs[..i], name);
      TerminalNamesMembers(jobs, name);
      var k :| 0 <= k < i && jobs[..i][k].phase.IsTerminal() && jobs[..i][k].name == name;
      assert jobs[k] == jobs[..i][k];
    }
  }

  /** How one job's report ends. */
  datatype JobReport = Reported | ReportFailed(message: string) | ReportPanicked

  /** How the job loop of one iteration ends: every job visited (and whether
      the iteration found them all completed), or a job could not be reported,
      or a nil pointer was followed. */
  datatype Visit = Visited(allJobsCompleted: bool) | VisitFailed(message: string) | VisitPanicked

  /** How one iteration of the follow-up loop ends: the event could not be
      fetched, a job could not be reported, a nil pointer was followed, the
      source state could not be cleared, the event was untracked, or the loop
      goes round again. */
  datatype Iteration =
    | GetError(message: string)
    | JobError(message: string)
    | IterationPanicked
    | ClearError(message: string)
    | Untracked
    | Again

  /** How the whole task ends. */
  datatype TaskOutcome = TaskDone | TaskCancelled | TaskError(message: string) | TaskPanicked

  /** The state of one follow-up task: the check run of every job it has
      reported on, and the jobs it is done with. */
  class EventTask {
    const eventID: string
    const config: MonitorConfig
    const bus: Bus
    const checks: Checks
    /** `checkRunIDs`: job name to check-run id. */
    var checkRunIDs: map<string, int>
    /** `reportedComplete`: the jobs whose terminal status has been reported. */
    var reportedComplete: set<string>
    /** The jobs whose check run this task created, in order. */
    ghost var createdFor: seq<string>

    /** A job is reported complete only through a run the task created, and
        each job's run was created once. */
    ghost predicate Valid()
      reads this
    {
      && reportedComplete <= checkRunIDs.Keys
      && NoDuplicates(createdFor)
      && (forall name :: name in checkRunIDs <==> name in createdFor)
    }

    /** The start of `monitorEventInternal`: both maps empty. */
    constructor(eventID: string, config: MonitorConfig, bus: Bus, checks: Checks)
      ensures Valid()
      ensures this.eventID == eventID && this.config == config && this.bus == bus && this.checks == checks
      ensures checkRunIDs == map[] && reportedComplete == {} && createdFor == []
    {
      this.eventID := eventID;
      this.config := config;
      this.bus := bus;
      this.checks := checks;
      checkRunIDs := map[];
      reportedComplete := {};
      createdFor := [];
    }

    /** The report of a job whose logs are in and whose installation is
        parsed: a create when the job has no check run yet, an update of its
        run otherwise; a done job joins the reported set once reported. */
    method PostJob(event: Event, job: Job, state: map<string, string>, installationID: int64, logs: string)
      returns (r: JobReport)
      requires Valid() && job.name !in reportedComplete
      modifies this`checkRunIDs, this`reportedComplete, this`createdFor, checks
      ensures Valid()
      ensures var plan := ReportPlan(checks, |old(checks.calls)|, config, installationID, state, event, job, logs,
                                     old(checkRunIDs));
              && checks.calls == old(checks.calls) + plan.0
              && (plan.1.RunError? ==> r == ReportFailed(plan.1.message))
              && (plan.1.RunOk? ==>
                    && r == Reported
                    && checkRunIDs == old(checkRunIDs)[job.name := plan.1.id]
                    && reportedComplete == old(reportedComplete) + (if job.phase.IsTerminal() then {job.name} else {})
                    && createdFor == old(createdFor) + (if job.name in old(checkRunIDs) then [] else [job.name]))
      ensures !r.Reported? ==>
                checkRunIDs == old(checkRunIDs) && reportedComplete == old(reportedComplete) && createdFor == old(createdFor)
    {
      var outcome := PostCheckRun(checks, config, event, job, state, installationID, logs, checkRunIDs);
      match outcome
      case RunError(e) =>
        return ReportFailed(e);
      case RunOk(id) =>
        if job.name !in checkRunIDs {
          NoDuplicatesSnoc(createdFor, job.name);
          createdFor := createdFor + [job.name];
        }
        checkRunIDs := checkRunIDs[job.name := id];
        if job.phase.IsTerminal() {
          reportedComplete := reportedComplete + {job.name};
        }
        r := Reported;
    }

    /** The body of the job loop for a job not yet reported complete: its
        logs (only when done), then the installation id, then the report. */
    method ReportJob(event: Event, job: Job) returns (r: JobReport)
      requires Valid() && job.name !in reportedComplete
      modifies this`checkRunIDs, this`reportedComplete, this`createdFor, bus, checks
      ensures Valid()
      ensures var logs := LogsPlan(bus, |old(bus.calls)|, eventID, job);
              && bus.calls == old(bus.calls) + logs.0
              && (logs.1.1.Some? ==> r == ReportFailed(Wrap(LogsGiveUp(eventID, job.name), logs.1.1.value)))
              && (logs.1.1.None? && event.sourceState.None? ==> r == ReportPanicked)
              && (logs.1.1.None? && event.sourceState.Some? ==>
                    var text := Lookup(event.sourceState.value.state, "installationID");
                    ParseInt64(text).None? ==> r == ReportFailed(ParseGiveUp(eventID, text)))
      // The check runs are reached only once the logs are in and the installation is parsed.
      ensures checks.calls != old(checks.calls) ==>
                && LogsPlan(bus, |old(bus.calls)|, eventID, job).1.1.None?
                && event.sourceState.Some?
                && ParseInt64(Lookup(event.sourceState.value.state, "installationID")).Some?
      // The check runs get exactly the report of the fetched logs under the
      // parsed installation, and the job's run is recorded when it succeeds.
      ensures var logs := LogsPlan(bus, |old(bus.calls)|, eventID, job);
              logs.1.1.None? && event.sourceState.Some?
              && ParseInt64(Lookup(event.sourceState.value.state, "installationID")).Some? ==>
                var state := event.sourceState.value.state;
                var plan := ReportPlan(checks, |old(checks.calls)|, config,
                                       ParseInt64(Lookup(state, "installationID")).value,
                                       state, event, job, logs.1.0, old(checkRunIDs));
                && checks.calls == old(checks.calls) + plan.0
                && (r.Reported? <==> plan.1.RunOk?)
                && (plan.1.RunError? ==> r == ReportFailed(plan.1.message))
                && (plan.1.RunOk? ==> checkRunIDs == old(checkRunIDs)[job.name := plan.1.id])
      ensures r.Reported? ==>
                && checkRunIDs.Keys == old(checkRunIDs).Keys + {job.name}
                && reportedComplete == old(reportedComplete) + (if job.phase.IsTerminal() then {job.name} else {})
      ensures forall name <- old(checkRunIDs) :: name in checkRunIDs && checkRunIDs[name] == old(checkRunIDs)[name]
      ensures !r.Reported? ==> reportedComplete == old(reportedComplete)
    {
      var logs, err := GetJobLogs(bus, eventID, job);
      if err.Some? {
        return ReportFailed(Wrap(LogsGiveUp(eventID, job.name), err.value));
      }
      if event.sourceState.None? {
        return ReportPanicked;
      }
      var state := event.sourceState.value.state;
      var text := Lookup(state, "installationID");
      var parsed := ParseInt64(text);
      if parsed.None? {
        return ReportFailed(ParseGiveUp(eventID, text));
      }
      r := PostJob(event, job, state, parsed.value, logs);
    }

    /** One pass of the job loop: a job reported complete before is skipped
        without a call; any other is reported. */
    method VisitJob(event: Event, job: Job) returns (r: JobReport)
      requires Valid()
      modifies this`checkRunIDs, this`reportedComplete, this`createdFor, bus, checks
      ensures Valid()
      ensures job.name in old(reportedComplete) ==>
                && r == Reported && reportedComplete == old(reportedComplete) && checkRunIDs == old(checkRunIDs)
                && bus.calls == old(bus.calls) && checks.calls == old(checks.calls)
      ensures r.Reported? ==> reportedComplete == old(reportedComplete) + (if job.phase.IsTerminal() then {job.name} else {})
      ensures !r.Reported? ==> reportedComplete == old(reportedComplete)
      ensures forall name <- old(checkRunIDs) :: name in checkRunIDs && checkRunIDs[name] == old(checkRunIDs)[name]
      ensures bus.calls == old(bus.calls) || bus.calls == old(bus.calls) + [StreamLogs(eventID, job.name)]
      // A job not reported complete before: the check runs get exactly the report of the fetched logs under the
      // parsed installation, and the job's run is recorded when it succeeds.
      ensures var logs := LogsPlan(bus, |old(bus.calls)|, eventID, job);
              job.name !in old(reportedComplete) && logs.1.1.None? && event.sourceState.Some?
              && ParseInt64(Lookup(event.sourceState.value.state, "installationID")).Some? ==>
                var state := event.sourceState.value.state;
                var plan := ReportPlan(checks, |old(checks.calls)|, config,
                                       ParseInt64(Lookup(state, "installationID")).value,
                                       state, event, job, logs.1.0, old(checkRunIDs));
                && checks.calls == old(checks.calls) + plan.0
                && (r.Reported? <==> plan.1.RunOk?)
                && (plan.1.RunError? ==> r == ReportFailed(plan.1.message))
                && (plan.1.RunOk? ==> checkRunIDs == old(checkRunIDs)[job.name := plan.1.id])
    {
      if job.name in reportedComplete {
        return Reported;
      }
      r := ReportJob(event, job);
    }

    /** Progress of the job loop once the jobs `done` are visited, from the
        reported set `reported0`, the runs `ids0` and the call traces `calls0`
        and `checks0`: the reported set grew by the done jobs reported, `all`
        says whether all of them are settled, no run was forgotten, the bus
        only streamed logs, and nothing was called while every visited job
        had been reported before (`untouched`). */
    ghost predicate VisitedSoFar(reported0: set<string>, ids0: map<string, int>, calls0: seq<BusCall>,
                                 checks0: seq<ChecksCall>, done: seq<Job>, all: bool, untouched: bool)
      reads this, bus, checks
    {
      && Valid()
      && reportedComplete == reported0 + TerminalNames(done)
      && all == Settled(reported0, done)
      && (forall name <- ids0 :: name in checkRunIDs && checkRunIDs[name] == ids0[name])
      && |calls0| <= |bus.calls| && bus.calls[..|calls0|] == calls0
      && (forall k :: |calls0| <= k < |bus.calls| ==> bus.calls[k].StreamLogs?)
      && (untouched ==> checks.calls == checks0 && bus.calls == calls0)
      && ((forall job <- done :: job.name in reported0) ==> untouched)
    }

    /** One pass of the job loop with its bookkeeping: either the loop goes
        on, or the job's report failed and the loop stops with that failure. */
    method VisitNext(event: Event, job: Job, ghost reported0: set<string>, ghost ids0: map<string, int>,
                     ghost calls0: seq<BusCall>, ghost checks0: seq<ChecksCall>, ghost done: seq<Job>,
                     all: bool, ghost untouched: bool)
      returns (stop: Option<Visit>, all': bool, ghost untouched': bool)
      requires VisitedSoFar(reported0, ids0, calls0, checks0, done, all, untouched)
      modifies this`checkRunIDs, this`reportedComplete, this`createdFor, bus, checks
      ensures stop.None? ==> VisitedSoFar(reported0, ids0, calls0, checks0, done + [job], all', untouched')
      ensures stop.Some? ==>
                && (stop.value.VisitFailed? || stop.value.VisitPanicked?)
                && job.name !in reported0
                && Valid()
                && reported0 <= reportedComplete <= reported0 + TerminalNames(done)
                && (forall name <- ids0 :: name in checkRunIDs && checkRunIDs[name] == ids0[name])
                && |calls0| <= |bus.calls| && bus.calls[..|calls0|] == calls0
                && (forall k :: |calls0| <= k < |bus.calls| ==> bus.calls[k].StreamLogs?)
    {
      TerminalNamesSnoc(done, job);
      SettledSnoc(reported0, done, job);
      ghost var before := bus.calls;
      var skipped := job.name in reportedComplete;
      var report := VisitJob(event, job);
      assert forall k :: |before| <= k < |bus.calls| ==> bus.calls[k] == StreamLogs(eventID, job.name);
      untouched' := untouched && job.name in reported0;
      assert forall d <- done :: d in done + [job];
      all' := all;
      stop := None;
      if !skipped {
        if !report.Reported? {
          stop := Some(if report.ReportFailed? then VisitFailed(report.message) else VisitPanicked);
          return;
        }
        if !job.phase.IsTerminal() {
          all' := false;
        }
      }
    }

    /** The job loop of one iteration over the jobs of `event`. */
    method VisitJobs(event: Event, jobs: seq<Job>) returns (r: Visit)
      requires Valid()
      modifies this`checkRunIDs, this`reportedComplete, this`createdFor, bus, checks
      ensures Valid()
      ensures old(reportedComplete) <= reportedComplete <= old(reportedComplete) + TerminalNames(jobs)
      ensures r.Visited? ==> reportedComplete == old(reportedComplete) + TerminalNames(jobs)
      ensures r.Visited? ==> r.allJobsCompleted == Settled(old(reportedComplete), jobs)
      ensures forall name <- old(checkRunIDs) :: name in checkRunIDs && checkRunIDs[name] == old(checkRunIDs)[name]
      ensures |old(bus.calls)| <= |bus.calls| && bus.calls[..|old(bus.calls)|] == old(bus.calls)
      ensures forall k :: |old(bus.calls)| <= k < |bus.calls| ==> bus.calls[k].StreamLogs?
      // A job reported complete before the iteration is skipped.
      ensures (forall job <- jobs :: job.name in old(reportedComplete)) ==>
                r.Visited? && checks.calls == old(checks.calls) && bus.calls == old(bus.calls)
    {
      ghost var reported0 := reportedComplete;
      ghost var ids0 := checkRunIDs;
      ghost var calls0 := bus.calls;
      ghost var checks0 := checks.calls;
      ghost var untouched := true;
      var allJobsCompleted := true;
      var i := 0;
      while i < |jobs|
        invariant 0 <= i <= |jobs|
        invariant VisitedSoFar(reported0, ids0, calls0, checks0, jobs[..i], allJobsCompleted, untouched)
      {
        assert jobs[..i + 1] == jobs[..i] + [jobs[i]];
        var stop;
        stop, allJobsCompleted, untouched :=
          VisitNext(event, jobs[i], reported0, ids0, calls0, checks0, jobs[..i], allJobsCompleted, untouched);
        if stop.Some? {
          TerminalNamesPrefix(jobs, i);
          assert jobs[i] in jobs;
          return stop.value;
        }
        i := i + 1;
      }
      assert jobs[..i] == jobs;
      r := Visited(allJobsCompleted);
    }

    /** Blanks out the event's source state: the event is no longer tracked. */
    method Untrack() returns (r: Iteration)
      modifies bus
      ensures bus.calls == old(bus.calls) + [ClearSourceState(eventID)]
      ensures r.Untracked? || r.ClearError?
      ensures r.Untracked? <==> bus.onClear(|old(bus.calls)|).None?
      ensures r.ClearError? ==> r.message == Wrap(ClearGiveUp(eventID), bus.onClear(|old(bus.calls)|).value)
    {
      var err := bus.ClearState(eventID);
      if err.Some? {
        return ClearError(Wrap(ClearGiveUp(eventID), err.value));
      }
      return Untracked;
    }

    /** One iteration of the follow-up loop. */
    method FollowUp() returns (r: Iteration)
      requires Valid()
      modifies this`checkRunIDs, this`reportedComplete, this`createdFor, bus, checks
      ensures Valid()
      ensures old(reportedComplete) <= reportedComplete
      ensures forall name <- old(checkRunIDs) :: name in checkRunIDs && checkRunIDs[name] == old(checkRunIDs)[name]
      ensures |old(bus.calls)| < |bus.calls| && bus.calls[..|old(bus.calls)|] == old(bus.calls)
      ensures bus.calls[|old(bus.calls)|] == GetEvent(eventID)
      ensures bus.onGet(|old(bus.calls)|).GetFailed? ==>
                && r == GetError(Wrap(GetGiveUp(eventID), bus.onGet(|old(bus.calls)|).message))
                && bus.calls == old(bus.calls) + [GetEvent(eventID)] && checks.calls == old(checks.calls)
      ensures bus.onGet(|old(bus.calls)|).Got? && bus.onGet(|old(bus.calls)|).event.worker.None? ==>
                && r == IterationPanicked
                && bus.calls == old(bus.calls) + [GetEvent(eventID)] && checks.calls == old(checks.calls)
      ensures bus.onGet(|old(bus.calls)|).Got? && bus.onGet(|old(bus.calls)|).event.worker.Some? ==>
                var worker := bus.onGet(|old(bus.calls)|).event.worker.value;
                && reportedComplete <= old(reportedComplete) + TerminalNames(worker.jobs)
                && (r.Again? || r.Untracked? || r.ClearError? ==>
                      reportedComplete == old(reportedComplete) + TerminalNames(worker.jobs))
                && ((r.Untracked? || r.ClearError?) <==>
                      (r.Again? || r.Untracked? || r.ClearError?)
                      && Settled(old(reportedComplete), worker.jobs) && worker.phase.IsTerminal())
                && (r.JobError? || r.IterationPanicked? || r.Again? || r.Untracked? || r.ClearError?)
                // A job reported complete before the iteration is skipped.
                && ((forall job <- worker.jobs :: job.name in old(reportedComplete)) ==>
                      checks.calls == old(checks.calls) && !r.JobError? && !r.IterationPanicked?)
      // The source state is cleared only as the iteration's last call.
      ensures forall k :: |old(bus.calls)| < k < |bus.calls| ==>
                (bus.calls[k].ClearSourceState? <==> k == |bus.calls| - 1 && (r.Untracked? || r.ClearError?))
      ensures r.Untracked? || r.ClearError? ==>
                && bus.calls[|bus.calls| - 1] == ClearSourceState(eventID)
                && (r.Untracked? <==> bus.onClear(|bus.calls| - 1).None?)
    {
      var reply := bus.Get(eventID);
      if reply.GetFailed? {
        return GetError(Wrap(GetGiveUp(eventID), reply.message));
      }
      var event := reply.event;
      if event.worker.None? {
        return IterationPanicked;
      }
      ghost var calls1 := bus.calls;
      var visit := VisitJobs(event, event.worker.value.jobs);
      assert forall k :: |calls1| <= k < |bus.calls| ==> bus.calls[k].StreamLogs?;
      match visit
      case VisitFailed(e) => return JobError(e);
      case VisitPanicked => return IterationPanicked;
      case Visited(allJobsCompleted) =>
        if allJobsCompleted && event.worker.value.phase.IsTerminal() {
          r := Untrack();
        } else {
          r := Again;
        }
    }

    /** `monitorEventInternal` from its first iteration: iterations until the
        event is untracked or an error ends the task, waiting between them;
        the context is cancelled during the `ticks + 1`-th wait. */
    method Run(ticks: nat) returns (r: TaskOutcome)
      requires Valid()
      modifies this`checkRunIDs, this`reportedComplete, this`createdFor, bus, checks
      ensures Valid()
      ensures old(reportedComplete) <= reportedComplete
      ensures forall name <- old(checkRunIDs) :: name in checkRunIDs && checkRunIDs[name] == old(checkRunIDs)[name]
      ensures |old(bus.calls)| < |bus.calls| && bus.calls[..|old(bus.calls)|] == old(bus.calls)
      // The task untracks its event exactly when it ends normally, as its last act.
      ensures r.TaskDone? <==>
                bus.calls[|bus.calls| - 1] == ClearSourceState(eventID) && bus.onClear(|bus.calls| - 1).None?
      // The source state is never cleared before the task's last call.
      ensures forall k :: |old(bus.calls)| <= k < |bus.calls| - 1 ==> !bus.calls[k].ClearSourceState?
      ensures bus.calls[|bus.calls| - 1].ClearSourceState? ==> r.TaskDone? || r.TaskError?
    {
      var waited := 0;
      while true
        invariant waited <= ticks
        invariant Valid()
        invariant old(reportedComplete) <= reportedComplete
        invariant forall name <- old(checkRunIDs) :: name in checkRunIDs && checkRunIDs[name] == old(checkRunIDs)[name]
        invariant |old(bus.calls)| <= |bus.calls| && bus.calls[..|old(bus.calls)|] == old(bus.calls)
        invariant forall k :: |old(bus.calls)| <= k < |bus.calls| ==> !bus.calls[k].ClearSourceState?
        invariant waited > 0 ==> |old(bus.calls)| < |bus.calls|
        decreases ticks - waited
      {
        ghost var before := bus.calls;
        var it := FollowUp();
        assert forall k :: |old(bus.calls)| <= k < |before| ==> bus.calls[k] == before[k];
        match it
        case GetError(e) => return TaskError(e);
        case JobError(e) => return TaskError(e);
        case IterationPanicked => return TaskPanicked;
        case ClearError(e) => return TaskError(e);
        case Untracked => return TaskDone;
        case Again =>
          if waited == ticks {
            return TaskCancelled;
          }
          waited := waited + 1;
      }
    }
  }
}
