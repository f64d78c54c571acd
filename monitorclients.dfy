/** The two remote services the status monitor talks to: the event bus (list,
    get, log streams, source-state updates) and the platform's check-runs API.
    Each is a recorded trace of calls with scripted replies. */
module MonitorClients {
  import opened Core
  import opened Logs
  import opened CheckRuns

  datatype BusCall =
    | ListEvents(continueToken: string)
    | GetEvent(eventID: string)
    | StreamLogs(eventID: string, jobName: string)
    | ClearSourceState(eventID: string)

  /** One page of the tracked-events listing: its ids, how many events remain
      after it, and the token that continues the listing. */
  datatype ListReply =
    | ListFailed(message: string)
    | EventPage(ids: seq<string>, remaining: int, continueToken: string)
  {
    /** The listing does not go on after this reply. */
    predicate Ends() {
      ListFailed? || remaining <= 0
    }
  }

  datatype GetReply = GetFailed(message: string) | Got(event: Event)
  datatype StreamReply = StreamFailed(message: string) | Streaming(steps: nat -> StreamStep)

  /** The event bus's client as the monitor uses it. The listing's selector
      (gateway source, the worker phases worth reporting, tracked events only)
      and its page size are fixed and not recorded. */
  class Bus {
    var calls: seq<BusCall>
    const onList: nat -> ListReply
    const onGet: nat -> GetReply
    const onStream: nat -> StreamReply
    const onClear: nat -> Option<string>

    constructor(onList: nat -> ListReply, onGet: nat -> GetReply,
                onStream: nat -> StreamReply, onClear: nat -> Option<string>)
      ensures calls == []
      ensures this.onList == onList && this.onGet == onGet
      ensures this.onStream == onStream && this.onClear == onClear
    {
      calls := [];
      this.onList := onList;
      this.onGet := onGet;
      this.onStream := onStream;
      this.onClear := onClear;
    }

    method List(continueToken: string) returns (r: ListReply)
      modifies this
      ensures calls == old(calls) + [ListEvents(continueToken)]
      ensures r == onList(|old(calls)|)
    {
      r := onList(|calls|);
      calls := calls + [ListEvents(continueToken)];
    }

    method Get(eventID: string) returns (r: GetReply)
      modifies this
      ensures calls == old(calls) + [GetEvent(eventID)]
      ensures r == onGet(|old(calls)|)
    {
      r := onGet(|calls|);
      calls := calls + [GetEvent(eventID)];
    }

    method Stream(eventID: string, jobName: string) returns (r: StreamReply)
      modifies this
      ensures calls == old(calls) + [StreamLogs(eventID, jobName)]
      ensures r == onStream(|old(calls)|)
    {
      r := onStream(|calls|);
      calls := calls + [StreamLogs(eventID, jobName)];
    }

    /** `UpdateSourceState` with an empty source state. */
    method ClearState(eventID: string) returns (err: Option<string>)
      modifies this
      ensures calls == old(calls) + [ClearSourceState(eventID)]
      ensures err == onClear(|old(calls)|)
    {
      err := onClear(|calls|);
      calls := calls + [ClearSourceState(eventID)];
    }
  }

  datatype ChecksCall =
    | NewChecksClient(appID: int, installationID: int, apiKey: string)
    | CreateRun(owner: string, repo: string, createOptions: CreateCheckRunOptions)
    | UpdateRun(owner: string, repo: string, checkRunID: int, updateOptions: UpdateCheckRunOptions)

  datatype RunReply = RunFailed(message: string) | RunCreated(id: int)

  /** The check-runs API, reached through a client made per call. */
  class Checks {
    var calls: seq<ChecksCall>
    const onNewClient: nat -> Option<string>
    const onCreate: nat -> RunReply
    const onUpdate: nat -> Option<string>

    constructor(onNewClient: nat -> Option<string>, onCreate: nat -> RunReply, onUpdate: nat -> Option<string>)
      ensures calls == []
      ensures this.onNewClient == onNewClient && this.onCreate == onCreate && this.onUpdate == onUpdate
    {
      calls := [];
      this.onNewClient := onNewClient;
      this.onCreate := onCreate;
      this.onUpdate := onUpdate;
    }

    method Client(appID: int, installationID: int, apiKey: string) returns (err: Option<string>)
      modifies this
      ensures calls == old(calls) + [NewChecksClient(appID, installationID, apiKey)]
      ensures err == onNewClient(|old(calls)|)
    {
      err := onNewClient(|calls|);
      calls := calls + [NewChecksClient(appID, installationID, apiKey)];
    }

    method Create(owner: string, repo: string, options: CreateCheckRunOptions) returns (r: RunReply)
      modifies this
      ensures calls == old(calls) + [CreateRun(owner, repo, options)]
      ensures r == onCreate(|old(calls)|)
    {
      r := onCreate(|calls|);
      calls := calls + [CreateRun(owner, repo, options)];
    }

    method Update(owner: string, repo: string, checkRunID: int, options: UpdateCheckRunOptions)
      returns (err: Option<string>)
      modifies this
      ensures calls == old(calls) + [UpdateRun(owner, repo, checkRunID, options)]
      ensures err == onUpdate(|old(calls)|)
    {
      err := onUpdate(|calls|);
      calls := calls + [UpdateRun(owner, repo, checkRunID, options)];
    }
  }
}
