/** The subscription a publisher hands to each downstream subscriber:
    `URLSession.HTTPDataTaskSubscription` (both publisher generations) and
    `URLSession.URLDownloadTaskSubscription` have the same shape. It is the
    receiver a publisher registers; `request` forwards to the publisher,
    `cancel` drops both references, and the `accept…` calls reach the
    subscriber only while it is still held. */
module PublisherSubscription {
  import opened Wrappers
  import opened Net
  import opened Subscribers

  /** What a subscriber observes for one `accept…` call. */
  function AsEvent<O, E>(s: Signal<O, E>): Event<O, E>
  {
    match s
    case AcceptResponse(o) => Value(o)
    case AcceptError(e) => Completion(Failed(e))
    case AcceptTermination => Completion(Finished)
  }

  function AsEvents<O, E>(signals: seq<Signal<O, E>>): (events: seq<Event<O, E>>)
    ensures |events| == |signals|
    ensures forall i :: 0 <= i < |signals| ==> events[i] == AsEvent(signals[i])
  {
    if signals == [] then [] else [AsEvent(signals[0])] + AsEvents(signals[1..])
  }

  class DemandSubscription<O, E> {
    const id: Id
    const role: Role
    /** `publisher != nil` */
    var hasPublisher: bool
    /** `subscriber != nil` */
    var hasSubscriber: bool
    /** What the downstream subscriber has been sent, in order. */
    var received: seq<Event<O, E>>

    constructor (id: Id, role: Role)
      ensures this.id == id && this.role == role
      ensures hasPublisher && hasSubscriber && received == []
    {
      this.id := id;
      this.role := role;
      hasPublisher := true;
      hasSubscriber := true;
      received := [];
    }

    /** `request(_:)`: asks the publisher for output from this receiver
        (`publisher?.demandOutput(from: self)`); the demand itself is ignored.
        The result is the receiver the publisher is asked to serve, none once
        the subscription was cancelled. */
    method Request(demand: Demand) returns (demandFrom: Option<Receiver>)
      ensures demandFrom.Some? <==> hasPublisher
      ensures demandFrom.Some? ==> demandFrom.value.id == id && demandFrom.value.role == role
    {
      if hasPublisher {
        demandFrom := Some(Receiver(id, role));
      } else {
        demandFrom := None;
      }
    }

    /** `cancel()`: drops the publisher and the subscriber. */
    method Cancel()
      modifies this
      ensures !hasPublisher && !hasSubscriber && received == old(received)
    {
      hasPublisher := false;
      hasSubscriber := false;
    }

    /** `acceptResponse`: `subscriber.receive(output)` if still subscribed. */
    method AcceptResponse(output: O)
      modifies this
      ensures hasPublisher == old(hasPublisher) && hasSubscriber == old(hasSubscriber)
      ensures received == old(received) + (if hasSubscriber then [Value(output)] else [])
    {
      if hasSubscriber {
        received := received + [Value(output)];
      }
    }

    /** `acceptError`: `subscriber.receive(completion: .failure(error))`. */
    method AcceptError(error: E)
      modifies this
      ensures hasPublisher == old(hasPublisher) && hasSubscriber == old(hasSubscriber)
      ensures received == old(received) + (if hasSubscriber then [Completion(Failed(error))] else [])
    {
      if hasSubscriber {
        received := received + [Completion(Failed(error))];
      }
    }

    /** `acceptTermination`: `subscriber.receive(completion: .finished)`. */
    method AcceptTermination()
      modifies this
      ensures hasPublisher == old(hasPublisher) && hasSubscriber == old(hasSubscriber)
      ensures received == old(received) + (if hasSubscriber then [Completion(Finished)] else [])
    {
      if hasSubscriber {
        received := received + [Completion(Finished)];
      }
    }

    /** Carries out the calls a registry recorded for this receiver, in
        order: the subscriber sees them all, or nothing once cancelled. */
    method Accept(signals: seq<Signal<O, E>>)
      modifies this
      ensures hasPublisher == old(hasPublisher) && hasSubscriber == old(hasSubscriber)
      ensures received == old(received) + (if hasSubscriber then AsEvents(signals) else [])
    {
      var i := 0;
      while i < |signals|
        invariant 0 <= i <= |signals|
        invariant hasPublisher == old(hasPublisher) && hasSubscriber == old(hasSubscriber)
        invariant received == old(received) + (if hasSubscriber then AsEvents(signals[..i]) else [])
      {
        match signals[i] {
          case AcceptResponse(o) => AcceptResponse(o);
          case AcceptError(e) => AcceptError(e);
          case AcceptTermination => AcceptTermination();
        }
        assert signals[..i + 1] == signals[..i] + [signals[i]];
        AsEventsAppend(signals[..i], signals[i]);
        i := i + 1;
      }
      assert signals[..i] == signals;
    }
  }

  lemma {:induction false} AsEventsAppend<O, E>(signals: seq<Signal<O, E>>, s: Signal<O, E>)
    ensures AsEvents(signals + [s]) == AsEvents(signals) + [AsEvent(s)]
  {
    if signals != [] {
      assert (signals + [s])[1..] == signals[1..] + [s];
      AsEventsAppend(signals[1..], s);
    }
  }

  /** Through a terminal fan-out, a subscriber still held observes exactly
      the upstream event, followed by `.finished` when it was a value: one
      completion, always last. */
  lemma TerminalFanOutObservedAs<O, E>(ev: Event<O, E>)
    ensures AsEvents(TerminalSignals(ev)) == if ev.Value? then [ev, Completion(Finished)] else [ev]
  {
  }
}
