/** Event discovery of the status monitor (`manageEvents` in monitor/events.go):
    each cycle lists the tracked events page by page, then cancels the
    follow-up loop of every event no longer listed and starts one for every
    newly listed event. */
module Discovery {
  import opened Core
  import opened MonitorClients

  /** The token sent with the `j`-th listing of a cycle whose first listing is
      the `n`-th call: none for the first page, then the previous page's token. */
  function TokenFor(bus: Bus, n: nat, j: nat): string
    requires n <= j
  {
    if j == n then "" else
      match bus.onList(j - 1)
      case EventPage(_, _, token) => token
      case ListFailed(_) => ""
  }

  /** The ids on the pages of calls `n` to `m - 1`. */
  function ListedIDs(bus: Bus, n: nat, m: nat): set<string>
    requires n <= m
    decreases m - n
  {
    if m == n then {} else
      ListedIDs(bus, n, m - 1) +
      match bus.onList(m - 1)
      case EventPage(ids, _, _) => set id | id in ids
      case ListFailed(_) => {}
  }

  /** An id is listed exactly when some page of the cycle carries it. */
  lemma {:induction false} ListedIDsMembers(bus: Bus, n: nat, m: nat, id: string)
    requires n <= m
    ensures id in ListedIDs(bus, n, m) <==>
              exists j :: n <= j < m && bus.onList(j).EventPage? && id in bus.onList(j).ids
    decreases m - n
  {
    if m > n {
      ListedIDsMembers(bus, n, m - 1, id);
      if id in ListedIDs(bus, n, m) && id !in ListedIDs(bus, n, m - 1) {
        assert bus.onList(m - 1).EventPage? && id in bus.onList(m - 1).ids;
      }
    }
  }

  const ListError := "error listing events"

  /** Lists every tracked event: keeps asking with the continuation token
      while events remain. Terminates because some later reply ends the
      listing. */
  method ListTracked(bus: Bus) returns (current: set<string>, err: Option<string>)
    requires exists k :: |bus.calls| <= k && bus.onList(k).Ends()
    modifies bus
    ensures |old(bus.calls)| < |bus.calls| && bus.calls[..|old(bus.calls)|] == old(bus.calls)
    ensures forall j :: |old(bus.calls)| <= j < |bus.calls| ==> bus.calls[j] == ListEvents(TokenFor(bus, |old(bus.calls)|, j))
    ensures forall j :: |old(bus.calls)| <= j < |bus.calls| - 1 ==> !bus.onList(j).Ends()
    ensures bus.onList(|bus.calls| - 1).Ends()
    ensures err.Some? <==> bus.onList(|bus.calls| - 1).ListFailed?
    ensures err.Some? ==> err.value == Wrap(ListError, bus.onList(|bus.calls| - 1).message)
    ensures err.None? ==> current == ListedIDs(bus, |old(bus.calls)|, |bus.calls|)
  {
    ghost var n := |bus.calls|;
    ghost var k :| n <= k && bus.onList(k).Ends();
    var token := "";
    current := {};
    while true
      invariant n <= |bus.calls| <= k
      invariant bus.calls[..n] == old(bus.calls)
      invariant forall j :: n <= j < |bus.calls| ==> bus.calls[j] == ListEvents(TokenFor(bus, n, j))
      invariant forall j :: n <= j < |bus.calls| ==> !bus.onList(j).Ends()
      invariant token == TokenFor(bus, n, |bus.calls|)
      invariant current == ListedIDs(bus, n, |bus.calls|)
      decreases k - |bus.calls|
    {
      var page := bus.List(token);
      if page.ListFailed? {
        return current, Some(Wrap(ListError, page.message));
      }
      current := current + set id | id in page.ids;
      if page.remaining > 0 {
        token := page.continueToken;
      } else {
        return current, None;
      }
    }
  }

  /** What the discovery does to a follow-up loop: cancel it or start it; the
      handle names the loop's cancel function, fresh for each start. */
  datatype Hook = CancelLoop(eventID: string, handle: nat) | StartLoop(eventID: string, handle: nat)

  /** The ids of the cancels, and of the starts, among `hooks`. */
  function CancelledIDs(hooks: seq<Hook>): set<string> {
    set h | h in hooks && h.CancelLoop? :: h.eventID
  }

  function StartedIDs(hooks: seq<Hook>): set<string> {
    set h | h in hooks && h.StartLoop? :: h.eventID
  }

  /** No event is named by two hooks. */
  predicate DistinctEvents(hooks: seq<Hook>) {
    forall i, j :: 0 <= i < j < |hooks| ==> hooks[i].eventID != hooks[j].eventID
  }

  lemma HooksSnoc(hooks: seq<Hook>, h: Hook)
    ensures CancelledIDs(hooks + [h]) == CancelledIDs(hooks) + (if h.CancelLoop? then {h.eventID} else {})
    ensures StartedIDs(hooks + [h]) == StartedIDs(hooks) + (if h.StartLoop? then {h.eventID} else {})
  {
    assert forall g :: g in hooks + [h] <==> g in hooks || g == h;
  }

  /** Appending a hook for an event no earlier hook names keeps the events distinct. */
  lemma DistinctSnoc(hooks: seq<Hook>, h: Hook, named: set<string>)
    requires DistinctEvents(hooks) && (forall g <- hooks :: g.eventID in named) && h.eventID !in named
    ensures DistinctEvents(hooks + [h])
    ensures forall g <- hooks + [h] :: g in hooks || g == h
  {
    var all := hooks + [h];
    forall i, j | 0 <= i < j < |all| ensures all[i].eventID != all[j].eventID {
      assert all[i] == hooks[i];
      if j == |hooks| {
        assert hooks[i] in hooks;
      } else {
        assert all[j] == hooks[j];
      }
    }
  }

  /** A run of cancels followed by a run of starts names every event once
      when each run does and no event is both cancelled and started. */
  lemma HooksConcat(cancels: seq<Hook>, starts: seq<Hook>)
    requires forall h <- cancels :: h.CancelLoop?
    requires forall h <- starts :: h.StartLoop?
    requires DistinctEvents(cancels) && DistinctEvents(starts)
    requires CancelledIDs(cancels) !! StartedIDs(starts)
    ensures CancelledIDs(cancels + starts) == CancelledIDs(cancels)
    ensures StartedIDs(cancels + starts) == StartedIDs(starts)
    ensures DistinctEvents(cancels + starts)
    ensures forall i, j :: 0 <= i < j < |cancels + starts| && (cancels + starts)[j].CancelLoop? ==>
              (cancels + starts)[i].CancelLoop?
  {
    var all := cancels + starts;
    assert forall g :: g in all <==> g in cancels || g in starts;
    forall i, j | 0 <= i < j < |all| ensures all[i].eventID != all[j].eventID {
      if j >= |cancels| && i < |cancels| {
        assert all[i] in cancels && all[j] in starts;
        assert all[i].eventID in CancelledIDs(cancels);
        assert all[j].eventID in StartedIDs(starts);
      } else if i >= |cancels| {
        assert all[i] == starts[i - |cancels|] && all[j] == starts[j - |cancels|];
      }
    }
    assert forall k :: |cancels| <= k < |all| ==> all[k] == starts[k - |cancels|];
    assert forall k :: |cancels| <= k < |all| ==> all[k].StartLoop?;
    forall i, j | 0 <= i < j < |all| && all[j].CancelLoop? ensures all[i].CancelLoop? {
      if j < |cancels| {
        assert all[i] == cancels[i];
      }
    }
  }

  /** Every handle of `registry` is below `next`, and no two events share one. */
  ghost predicate HandlesIssued(registry: map<string, nat>, next: nat) {
    && (forall id <- registry :: registry[id] < next)
    && (forall a <- registry, b <- registry :: a != b ==> registry[a] != registry[b])
  }

  /** Dropping entries keeps the handles issued. */
  lemma HandlesIssuedSubmap(registry: map<string, nat>, smaller: map<string, nat>, next: nat)
    requires HandlesIssued(registry, next)
    requires smaller.Keys <= registry.Keys && forall id <- smaller :: smaller[id] == registry[id]
    ensures HandlesIssued(smaller, next)
  {
  }

  /** Issuing the next handle to a new event keeps the handles issued. */
  lemma HandlesIssuedFresh(registry: map<string, nat>, next: nat, id: string)
    requires HandlesIssued(registry, next) && id !in registry
    ensures HandlesIssued(registry[id := next], next + 1)
  {
  }

  /** Progress of the start loop from a registry `before` (hooks `base`,
      next handle `nextBefore`) once the events in `done` have been visited:
      they are all registered, old entries keep their handles, new ones got
      fresh handles, and the hooks added so far start a loop for each new
      event exactly once. */
  ghost predicate StartedFrom(registry: map<string, nat>, hooks: seq<Hook>, next: nat,
                              before: map<string, nat>, base: seq<Hook>, nextBefore: nat,
                              done: set<string>, added: seq<Hook>)
  {
    && registry.Keys == before.Keys + done
    && (forall id <- before :: registry[id] == before[id])
    && (forall id <- registry :: id !in before ==> nextBefore <= registry[id])
    && nextBefore <= next && HandlesIssued(registry, next)
    && hooks == base + added
    && (forall h <- added :: h.StartLoop? && h.eventID in registry && h.handle == registry[h.eventID])
    && DistinctEvents(added)
    && StartedIDs(added) == done - before.Keys
  }

  /** Starting a loop for an unregistered event keeps the progress. */
  lemma StartedFromStep(registry: map<string, nat>, hooks: seq<Hook>, next: nat,
                        before: map<string, nat>, base: seq<Hook>, nextBefore: nat,
                        done: set<string>, added: seq<Hook>, id: string)
    requires StartedFrom(registry, hooks, next, before, base, nextBefore, done, added)
    requires id !in registry
    ensures StartedFrom(registry[id := next], hooks + [StartLoop(id, next)], next + 1,
                        before, base, nextBefore, done + {id}, added + [StartLoop(id, next)])
  {
    var hook := StartLoop(id, next);
    HooksSnoc(added, hook);
    DistinctSnoc(added, hook, registry.Keys);
    HandlesIssuedFresh(registry, next, id);
  }

  /** Visiting an event that already has a loop keeps the progress. */
  lemma StartedFromSkip(registry: map<string, nat>, hooks: seq<Hook>, next: nat,
                        before: map<string, nat>, base: seq<Hook>, nextBefore: nat,
                        done: set<string>, added: seq<Hook>, id: string)
    requires StartedFrom(registry, hooks, next, before, base, nextBefore, done, added)
    requires id in registry
    ensures StartedFrom(registry, hooks, next, before, base, nextBefore, done + {id}, added)
  {
  }

  /** The monitor's registry of follow-up loops (`loopCancelFns`) and what it
      has done to them. */
  class Discovery {
    var registry: map<string, nat>
    var hooks: seq<Hook>
    var nextHandle: nat
    /** The errors sent on the monitor's error channel. */
    var errors: seq<string>

    /** Handles are issued once: every registered handle is below the next one
        and no two events share one. */
    ghost predicate Valid()
      reads this
    {
      HandlesIssued(registry, nextHandle)
    }

    constructor()
      ensures Valid() && registry == map[] && hooks == [] && errors == []
    {
      registry := map[];
      hooks := [];
      nextHandle := 0;
      errors := [];
    }

    /** After a reconciliation against `current`, from a registry `before`
        whose hooks were `hooksBefore` and next handle `nextBefore`: the
        registry holds exactly the current events, survivors keep their loops,
        new events get fresh loops, and the new hooks are one cancel for every
        dropped event (with its old handle) followed by one start for every new
        event. */
    ghost predicate ReconciledFrom(before: map<string, nat>, hooksBefore: seq<Hook>, nextBefore: nat,
                                   current: set<string>)
      reads this
    {
      && registry.Keys == current
      && (forall id <- current :: id in before ==> registry[id] == before[id])
      && (forall id <- current :: id !in before ==> nextBefore <= registry[id] < nextHandle)
      && nextBefore <= nextHandle
      && |hooksBefore| <= |hooks| && hooks[..|hooksBefore|] == hooksBefore
      && var added := hooks[|hooksBefore|..];
         && DistinctEvents(added)
         && CancelledIDs(added) == before.Keys - current
         && StartedIDs(added) == current - before.Keys
         && (forall i, j :: 0 <= i < j < |added| && added[j].CancelLoop? ==> added[i].CancelLoop?)
         && (forall h <- added :: h.CancelLoop? ==> h.eventID in before && h.handle == before[h.eventID])
         && (forall h <- added :: h.StartLoop? ==> h.eventID in registry && h.handle == registry[h.eventID])
    }

    /** Cancels the follow-up loop of one event and forgets it. */
    method Cancel(id: string)
      requires id in registry
      modifies this
      ensures registry == old(registry) - {id} && nextHandle == old(nextHandle)
      ensures hooks == old(hooks) + [CancelLoop(id, old(registry)[id])] && errors == old(errors)
    {
      hooks := hooks + [CancelLoop(id, registry[id])];
      registry := registry - {id};
    }

    /** The cancel loop: every registered event that is not current has its
        loop cancelled and leaves the registry; the map is visited in an
        unspecified order. */
    method CancelDropped(current: set<string>)
      requires Valid()
      modifies this
      ensures Valid()
      ensures registry.Keys == old(registry).Keys * current
      ensures forall id <- registry :: registry[id] == old(registry)[id]
      ensures nextHandle == old(nextHandle) && errors == old(errors)
      ensures |old(hooks)| <= |hooks| && hooks[..|old(hooks)|] == old(hooks)
      ensures forall h <- hooks[|old(hooks)|..] ::
                h.CancelLoop? && h.eventID in old(registry) && h.handle == old(registry)[h.eventID]
      ensures DistinctEvents(hooks[|old(hooks)|..])
      ensures CancelledIDs(hooks[|old(hooks)|..]) == old(registry).Keys - current
    {
      ghost var before := registry;
      ghost var added: seq<Hook> := [];
      var toVisit := registry.Keys;
      while toVisit != {}
        invariant toVisit <= before.Keys
        invariant registry.Keys == toVisit + ((before.Keys - toVisit) * current)
        invariant forall id <- registry :: registry[id] == before[id]
        invariant nextHandle == old(nextHandle) && errors == old(errors)
        invariant hooks == old(hooks) + added
        invariant forall h <- added :: h.CancelLoop? && h.eventID in before - toVisit && h.handle == before[h.eventID]
        invariant DistinctEvents(added)
        invariant CancelledIDs(added) == (before.Keys - toVisit) - current
        decreases toVisit
      {
        var id :| id in toVisit;
        if id !in current {
          ghost var hook := CancelLoop(id, registry[id]);
          HooksSnoc(added, hook);
          DistinctSnoc(added, hook, before.Keys - toVisit);
          Cancel(id);
          added := added + [hook];
        }
        toVisit := toVisit - {id};
      }
      HandlesIssuedSubmap(before, registry, nextHandle);
      assert hooks[|old(hooks)|..] == added;
    }

    /** Starts the follow-up loop of one new event under a fresh handle. */
    method Start(id: string)
      requires Valid() && id !in registry
      modifies this
      ensures Valid()
      ensures registry == old(registry)[id := old(nextHandle)] && nextHandle == old(nextHandle) + 1
      ensures hooks == old(hooks) + [StartLoop(id, old(nextHandle))] && errors == old(errors)
    {
      HandlesIssuedFresh(registry, nextHandle, id);
      hooks := hooks + [StartLoop(id, nextHandle)];
      registry := registry[id := nextHandle];
      nextHandle := nextHandle + 1;
    }

    /** Progress of the start loop, on the loop's own state. */
    ghost predicate StartProgress(before: map<string, nat>, base: seq<Hook>, nextBefore: nat,
                                  done: set<string>, added: seq<Hook>)
      reads this
    {
      StartedFrom(registry, hooks, nextHandle, before, base, nextBefore, done, added)
    }

    /** One pass of the start loop: the event gets a loop unless it has one. */
    method StartIfNew(id: string, ghost before: map<string, nat>, ghost base: seq<Hook>, ghost nextBefore: nat,
                      ghost done: set<string>, ghost added: seq<Hook>) returns (ghost added': seq<Hook>)
      requires StartProgress(before, base, nextBefore, done, added)
      modifies this
      ensures StartProgress(before, base, nextBefore, done + {id}, added')
      ensures errors == old(errors)
    {
      if id !in registry {
        StartedFromStep(registry, hooks, nextHandle, before, base, nextBefore, done, added, id);
        added' := added + [StartLoop(id, nextHandle)];
        Start(id);
      } else {
        StartedFromSkip(registry, hooks, nextHandle, before, base, nextBefore, done, added, id);
        added' := added;
      }
    }

    /** The start loop: every current event without a loop gets one, under a
        fresh handle; the set is visited in an unspecified order. */
    method StartNew(current: set<string>)
      requires Valid() && registry.Keys <= current
      modifies this
      ensures Valid()
      ensures registry.Keys == current
      ensures forall id <- old(registry) :: registry[id] == old(registry)[id]
      ensures forall id <- registry :: id !in old(registry) ==> old(nextHandle) <= registry[id] < nextHandle
      ensures old(nextHandle) <= nextHandle && errors == old(errors)
      ensures |old(hooks)| <= |hooks| && hooks[..|old(hooks)|] == old(hooks)
      ensures forall h <- hooks[|old(hooks)|..] :: h.StartLoop? && h.eventID in registry && h.handle == registry[h.eventID]
      ensures DistinctEvents(hooks[|old(hooks)|..])
      ensures StartedIDs(hooks[|old(hooks)|..]) == current - old(registry).Keys
    {
      ghost var added: seq<Hook> := [];
      var toStart := current;
      while toStart != {}
        invariant toStart <= current
        invariant StartProgress(old(registry), old(hooks), old(nextHandle), current - toStart, added)
        invariant errors == old(errors)
        decreases toStart
      {
        var id :| id in toStart;
        added := StartIfNew(id, old(registry), old(hooks), old(nextHandle), current - toStart, added);
        assert current - toStart + {id} == current - (toStart - {id});
        toStart := toStart - {id};
      }
      assert hooks[|old(hooks)|..] == added;
    }

    /** One reconciliation pass: first the cancels, then the starts. */
    method Reconcile(current: set<string>)
      requires Valid()
      modifies this
      ensures Valid()
      ensures ReconciledFrom(old(registry), old(hooks), old(nextHandle), current)
      ensures errors == old(errors)
    {
      ghost var h0 := |hooks|;
      CancelDropped(current);
      ghost var cancels := hooks[h0..];
      ghost var h1 := |hooks|;
      StartNew(current);
      ghost var starts := hooks[h1..];
      assert hooks[h0..] == cancels + starts;
      assert hooks[..h0] == old(hooks);
      HooksConcat(cancels, starts);
    }

    /** One discovery cycle: list, then reconcile; a listing error is sent on
        the error channel and ends the discovery, leaving the loops alone. */
    method Cycle(bus: Bus) returns (stopped: bool)
      requires Valid()
      requires exists k :: |bus.calls| <= k && bus.onList(k).Ends()
      modifies this, bus
      ensures Valid()
      ensures |old(bus.calls)| < |bus.calls|
      ensures stopped <==> bus.onList(|bus.calls| - 1).ListFailed?
      ensures stopped ==>
                && registry == old(registry) && hooks == old(hooks) && nextHandle == old(nextHandle)
                && errors == old(errors) + [Wrap(ListError, bus.onList(|bus.calls| - 1).message)]
      ensures !stopped ==>
                && errors == old(errors)
                && ReconciledFrom(old(registry), old(hooks), old(nextHandle),
                                  ListedIDs(bus, |old(bus.calls)|, |bus.calls|))
    {
      var current, err := ListTracked(bus);
      if err.Some? {
        errors := errors + [err.value];
        return true;
      }
      Reconcile(current);
      return false;
    }
  }
}
