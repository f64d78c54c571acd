/** The convenience CI/CD event (receiver/internal/webhooks/ci_cd.go): for the
    event types that start a pipeline or a job, a copy of the event under a
    generic type; nothing for every other type. */
module CiCd {
  import opened Core

  const PipelineRequested := "ci:pipeline_requested"
  const JobRequested := "ci:job_requested"
  const DeploymentRequested := "cd:pipeline_requested"

  /** The generic type an event type maps to, if any. */
  function DerivedType(eventType: string): (r: Option<string>)
    ensures r == Some(PipelineRequested) <==>
              eventType == "check_suite:requested" || eventType == "check_suite:rerequested"
    ensures r == Some(JobRequested) <==> eventType == "check_run:rerequested"
    ensures r == Some(DeploymentRequested) <==> eventType == "release:published"
    ensures r.Some? ==> r.value in {PipelineRequested, JobRequested, DeploymentRequested}
  {
    if eventType == "check_suite:requested" || eventType == "check_suite:rerequested" then Some(PipelineRequested)
    else if eventType == "check_run:rerequested" then Some(JobRequested)
    else if eventType == "release:published" then Some(DeploymentRequested)
    else None
  }

  /** `getCICDEvent`: the input is taken by value, so the derived event is the
      input with only its type replaced. */
  function CiCdEvent(e: Event): (r: Option<Event>)
    ensures r.None? <==> e.eventType !in {"check_suite:requested", "check_suite:rerequested",
                                          "check_run:rerequested", "release:published"}
    ensures r.Some? ==> r.value.(eventType := e.eventType) == e
    ensures r.Some? ==> r.value.eventType == DerivedType(e.eventType).value
    ensures r.Some? ==> r.value.eventType != e.eventType
  {
    match DerivedType(e.eventType)
    case None => None
    case Some(t) => Some(e.(eventType := t))
  }

  /** Derivation does not chain: a derived event derives nothing further. */
  lemma CiCdEventDoesNotChain(e: Event)
    requires CiCdEvent(e).Some?
    ensures CiCdEvent(CiCdEvent(e).value).None?
  {
    var d := CiCdEvent(e).value;
    assert d.eventType in {PipelineRequested, JobRequested, DeploymentRequested};
  }

  /** Check-suite requests and re-requests collapse into the same derived event. */
  lemma RequestedAndRerequestedCollapse(e: Event)
    ensures CiCdEvent(e.(eventType := "check_suite:requested"))
         == CiCdEvent(e.(eventType := "check_suite:rerequested"))
  {
  }
}
