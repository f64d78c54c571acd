/** Shared data model of the event bus: events, jobs, phases and the small
    helpers (optional values, Go-style map reads, error wrapping) that the
    receiver and the monitor both use. */
module Core {

  datatype Option<+T> = None | Some(value: T)

  /** The `Source` every event emitted by the gateway carries. */
  const GatewaySource := "brigade.sh/github"

  datatype GitDetails = GitDetails(commit: string, ref: string)

  datatype SourceState = SourceState(state: map<string, string>)

  /** The closed set of job phases of the job-execution platform. */
  datatype JobPhase =
    | JobAborted | JobCanceled | JobFailed | JobPending | JobRunning
    | JobSchedulingFailed | JobStarting | JobSucceeded | JobTimedOut | JobUnknown
  {
    /** A terminal phase is one a job never leaves. */
    predicate IsTerminal() {
      || JobAborted? || JobCanceled? || JobFailed? || JobSchedulingFailed?
      || JobSucceeded? || JobTimedOut?
    }
  }

  datatype WorkerPhase =
    | WorkerAborted | WorkerCanceled | WorkerFailed | WorkerPending | WorkerRunning
    | WorkerSchedulingFailed | WorkerStarting | WorkerSucceeded | WorkerTimedOut | WorkerUnknown
  {
    predicate IsTerminal() {
      || WorkerAborted? || WorkerCanceled? || WorkerFailed? || WorkerSchedulingFailed?
      || WorkerSucceeded? || WorkerTimedOut?
    }
  }

  /** A job and its status record; `started` and `ended` are opaque timestamps. */
  datatype Job = Job(name: string, phase: JobPhase, started: Option<int>, ended: Option<int>)

  datatype Worker = Worker(phase: WorkerPhase, jobs: seq<Job>)

  /** A bus event. Go's nil pointers (Git, SourceState, Worker) are `Option`s;
      a nil Go map is the empty map. */
  datatype Event = Event(
    id: string,
    projectID: string,
    source: string,
    eventType: string,
    qualifiers: map<string, string>,
    labels: map<string, string>,
    shortTitle: string,
    longTitle: string,
    git: Option<GitDetails>,
    sourceState: Option<SourceState>,
    payload: string,
    worker: Option<Worker>)

  /** Reading a Go map: a missing key yields the empty string. */
  function Lookup(m: map<string, string>, k: string): (v: string)
    ensures k in m ==> v == m[k]
    ensures k !in m ==> v == ""
  {
    if k in m then m[k] else ""
  }

  /** `errors.Wrap(cause, context)` of github.com/pkg/errors: the context, a colon, the cause. */
  function Wrap(context: string, cause: string): string {
    context + ": " + cause
  }

  /** `errors.Wrap` applied to a possibly-nil error: nil stays nil. */
  function WrapOpt(context: string, cause: Option<string>): (r: Option<string>)
    ensures r.None? <==> cause.None?
    ensures r.Some? ==> r.value == Wrap(context, cause.value)
  {
    match cause
    case None => None
    case Some(c) => Some(Wrap(context, c))
  }

  /** Go's `%q` for the strings this system quotes (no escaping is modelled). */
  function Quote(s: string): string {
    "\"" + s + "\""
  }

  predicate NoDuplicates<T(==)>(s: seq<T>) {
    forall i, j :: 0 <= i < j < |s| ==> s[i] != s[j]
  }

  lemma NoDuplicatesSnoc<T>(s: seq<T>, x: T)
    requires NoDuplicates(s) && x !in s
    ensures NoDuplicates(s + [x])
  {
    forall i, j | 0 <= i < j < |s + [x]| ensures (s + [x])[i] != (s + [x])[j] {
      if j == |s| {
        assert (s + [x])[i] == s[i];
      }
    }
  }
}
