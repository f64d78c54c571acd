/** The webhook transformer's entry point, `service.Handle`
    (receiver/internal/webhooks/service.go): decode, build the event (see
    `Webhooks.Translate`), run the inlined check-suite forwarding, then submit
    the event, or one event per repository for installation webhooks, to the
    bus. */
module Receiver {
  import opened Core
  import opened Strconv
  import opened Webhooks
  import opened Forwarding

  /** The bus's answer to one `Create`: the events it created (one per
      subscribing project) and its error. */
  datatype EmitReply = EmitReply(items: seq<Event>, err: Option<string>)

  /** The event bus's client: every submitted event is recorded, and the reply
      to the `k`-th submission is scripted. */
  class EventsClient {
    var created: seq<Event>
    const onCreate: nat -> EmitReply

    constructor(onCreate: nat -> EmitReply)
      ensures created == [] && this.onCreate == onCreate
    {
      created := [];
      this.onCreate := onCreate;
    }

    method Create(e: Event) returns (r: EmitReply)
      modifies this
      ensures created == old(created) + [e]
      ensures r == onCreate(|old(created)|)
    {
      r := onCreate(|created|);
      created := created + [e];
    }
  }

  const EmitError := "error emitting event(s) into Brigade"
  const UnmarshalError := "error unmarshaling payload"

  /** How many of `events` reach the bus, what the bus returns for them and
      the error that ends the submission, when the first of them is the `n`-th
      submission: submission stops at the first failing `Create`, whose items
      are still kept. */
  datatype Delivered = Delivered(count: nat, items: seq<Event>, err: Option<string>)

  /** The `k`-th submission succeeds. */
  predicate Accepted(bus: EventsClient, k: nat) {
    bus.onCreate(k).err.None?
  }

  function Delivery(bus: EventsClient, n: nat, events: seq<Event>): (r: Delivered)
    ensures r.count <= |events|
    ensures r.err.None? ==> r.count == |events|
    ensures forall k :: n <= k < n + r.count - 1 ==> Accepted(bus, k)
    ensures r.err.None? ==> forall k :: n <= k < n + r.count ==> Accepted(bus, k)
    ensures r.err.Some? ==> r.count >= 1 && bus.onCreate(n + r.count - 1).err.Some?
                            && r.err.value == Wrap(EmitError, bus.onCreate(n + r.count - 1).err.value)
    decreases |events|
  {
    if events == [] then Delivered(0, [], None)
    else
      var reply := bus.onCreate(n);
      if reply.err.Some? then Delivered(1, reply.items, Some(Wrap(EmitError, reply.err.value)))
      else
        var rest := Delivery(bus, n + 1, events[1..]);
        Delivered(rest.count + 1, reply.items + rest.items, rest.err)
  }

  /** The items the bus returns for its submissions `n` to `n + i - 1`, in order. */
  function Gathered(bus: EventsClient, n: nat, i: nat): seq<Event>
    decreases i
  {
    if i == 0 then [] else bus.onCreate(n).items + Gathered(bus, n + 1, i - 1)
  }

  lemma {:induction false} GatheredSnoc(bus: EventsClient, n: nat, i: nat)
    ensures Gathered(bus, n, i + 1) == Gathered(bus, n, i) + bus.onCreate(n + i).items
    decreases i
  {
    if i > 0 {
      GatheredSnoc(bus, n + 1, i - 1);
    }
  }

  /** When every submission succeeds, all events reach the bus and every item
      is kept. */
  lemma {:induction false} DeliveryAllAccepted(bus: EventsClient, n: nat, events: seq<Event>)
    requires forall k :: n <= k < n + |events| ==> Accepted(bus, k)
    ensures Delivery(bus, n, events) == Delivered(|events|, Gathered(bus, n, |events|), None)
    decreases |events|
  {
    if events != [] {
      assert Accepted(bus, n);
      DeliveryAllAccepted(bus, n + 1, events[1..]);
    }
  }

  /** When the `i`-th submission is the first to fail, exactly `i + 1` events
      reach the bus and the items of all of them are kept. */
  lemma {:induction false} DeliveryFirstFailure(bus: EventsClient, n: nat, events: seq<Event>, i: nat)
    requires i < |events|
    requires forall k :: n <= k < n + i ==> Accepted(bus, k)
    requires !Accepted(bus, n + i)
    ensures Delivery(bus, n, events) ==
              Delivered(i + 1, Gathered(bus, n, i + 1), Some(Wrap(EmitError, bus.onCreate(n + i).err.value)))
    decreases i
  {
    if i > 0 {
      assert Accepted(bus, n);
      DeliveryFirstFailure(bus, n + 1, events[1..], i - 1);
    }
  }

  /** What `Handle` returns: the created events and its error, or a panic
      that escaped the forwarding code. */
  datatype HandleResult = Handled(items: seq<Event>, err: Option<string>) | HandlePanicked

  /** The receiver's service: configuration and its two clients. */
  class Service {
    const config: Config
    const events: EventsClient
    const github: GitHub

    constructor(config: Config, events: EventsClient, github: GitHub)
      ensures this.config == config && this.events == events && this.github == github
    {
      this.config := config;
      this.events := events;
      this.github := github;
    }

    /** `Handle`: a decoding failure and the dropped kinds reach neither client;
        otherwise the forwarding calls come first, and then the events of the
        translation are submitted in order until one fails. */
    method Handle(appID: int64, parsed: Parsed, payload: string) returns (res: HandleResult)
      modifies events, github
      ensures parsed.ParseFailed? ==>
                && res == Handled([], Some(Wrap(UnmarshalError, parsed.message)))
                && events.created == old(events.created) && github.calls == old(github.calls)
      ensures parsed.Decoded? ==>
                var plan := ForwardPlan(github, |old(github.calls)|, config, appID, parsed.webhook);
                && github.calls == old(github.calls) + plan.0
                && (res.HandlePanicked? <==> plan.1.Panicked?)
      ensures parsed.Decoded? && res.HandlePanicked? ==> events.created == old(events.created)
      ensures parsed.Decoded? && !res.HandlePanicked? ==>
                var emitted := Emitted(Translate(appID, parsed.webhook, payload));
                var d := Delivery(events, |old(events.created)|, emitted);
                && events.created == old(events.created) + emitted[..d.count]
                && res == Handled(d.items, d.err)
    {
      if parsed.ParseFailed? {
        return Handled([], Some(Wrap(UnmarshalError, parsed.message)));
      }
      var w := parsed.webhook;
      var t := Translate(appID, w, payload);
      // The forwarding of a comment or a pull request only logs its errors.
      var forwarded := CheckSuiteForwarding(github, config, appID, w);
      if forwarded.Panicked? {
        return HandlePanicked;
      }
      var items, err := Submit(t);
      res := Handled(items, err);
    }

    /** The submission of a translation's events: none for a dropped kind,
        the one event, or one per repository until a `Create` fails. */
    method Submit(t: Translation) returns (items: seq<Event>, err: Option<string>)
      modifies events
      ensures var emitted := Emitted(t);
              var d := Delivery(events, |old(events.created)|, emitted);
              && events.created == old(events.created) + emitted[..d.count]
              && items == d.items && err == d.err
    {
      match t
      case Drop =>
        items, err := [], None;
      case Single(e) =>
        var reply := events.Create(e);
        assert [e][1..] == [];
        assert reply.items + [] == reply.items;
        items, err := reply.items, WrapOpt(EmitError, reply.err);
      case FanOut(template, repos) =>
        items, err := EmitAll(template, repos);
    }

    /** The fan-out loop: one `Create` per repository, in order, keeping the
        items of every call and stopping at the first error. */
    method EmitAll(template: Event, repos: seq<string>) returns (items: seq<Event>, err: Option<string>)
      modifies events
      ensures var emitted := Emitted(FanOut(template, repos));
              var d := Delivery(events, |old(events.created)|, emitted);
              && events.created == old(events.created) + emitted[..d.count]
              && items == d.items && err == d.err
    {
      ghost var emitted := Emitted(FanOut(template, repos));
      ghost var n0 := |events.created|;
      ghost var created0 := events.created;
      items := [];
      var i := 0;
      while i < |repos|
        invariant 0 <= i <= |repos| == |emitted|
        invariant events.created == created0 + emitted[..i]
        invariant items == Gathered(events, n0, i)
        invariant forall k :: n0 <= k < n0 + i ==> Accepted(events, k)
      {
        var event := ForRepo(template, repos[i]);
        assert event == emitted[i];
        var reply := events.Create(event);
        assert emitted[..i + 1] == emitted[..i] + [emitted[i]];
        GatheredSnoc(events, n0, i);
        if reply.err.Some? {
          DeliveryFirstFailure(events, n0, emitted, i);
          return items + reply.items, Some(Wrap(EmitError, reply.err.value));
        }
        items := items + reply.items;
        i := i + 1;
      }
      assert emitted[..i] == emitted;
      DeliveryAllAccepted(events, n0, emitted);
      err := None;
    }
  }

  /** Every event the bus receives from one `Handle` carries the gateway
      source, the raw payload and the app id label, and only the tracked
      kinds carry source state. */
  lemma SubmittedEventsAreLabelled(appID: int64, w: Webhook, payload: string, count: nat)
    requires count <= |Emitted(Translate(appID, w, payload))|
    ensures forall e <- Emitted(Translate(appID, w, payload))[..count] ::
              && e.source == GatewaySource && e.payload == payload
              && e.labels == map["appID" := FormatInt(appID)]
              && (e.sourceState.Some? <==> IsTracked(w))
  {
    var all := Emitted(Translate(appID, w, payload));
    EmittedEventsCarryIdentity(appID, w, payload);
    TrackingOnlyForTrackedKinds(appID, w, payload);
    forall e <- all[..count] ensures e in all {
    }
  }
}
