/** `AtomicSubscribeable`: a dictionary of receivers keyed by their
    `CombineIdentifier`, with a broadcast (`forEachSubscriber`) and a terminal
    fan-out that snapshots, clears, then delivers (`dequeueAllSubscriber`).
    An action is what the Swift closure does to one receiver: the sequence of
    `accept…` calls it makes on it. The ghost `inbox` records, per identifier,
    every call that was made, so delivery can be stated exactly. */
module Subscribers {
  import opened Net

  /** `CombineIdentifier` */
  type Id = nat

  /** The receiver protocol an entry conforms to; `as? S` succeeds when the
      role is `S`. */
  datatype Role = DataTaskReceiver | DownloadTaskReceiver | IdentifiableOnly

  /** A `CustomCombineIdentifierConvertible` entry of the dictionary. */
  datatype Receiver = Receiver(id: Id, role: Role)

  /** One `accept…` call on a receiver. */
  datatype Signal<+O, +E> = AcceptResponse(output: O) | AcceptError(error: E) | AcceptTermination

  /** The calls recorded for `id` in an inbox (none if it has no entry). */
  ghost function InboxOf<O, E>(box: map<Id, seq<Signal<O, E>>>, id: Id): seq<Signal<O, E>>
  {
    if id in box then box[id] else []
  }

  /** The `tryCastTo:` wrapper around an action: receivers of another role
      are skipped. */
  function Cast<O, E>(role: Role, action: Receiver -> seq<Signal<O, E>>): Receiver -> seq<Signal<O, E>>
  {
    (r: Receiver) => if r.role == role then action(r) else []
  }

  /** The same action for every receiver. */
  function Each<O, E>(signals: seq<Signal<O, E>>): Receiver -> seq<Signal<O, E>>
  {
    (_: Receiver) => signals
  }

  /** The calls a terminal fan-out makes on each receiver for one upstream
      event: the response then the termination for a value, the error alone
      for a failure, the termination alone for `.finished`. */
  function TerminalSignals<O, E>(ev: Event<O, E>): (signals: seq<Signal<O, E>>)
    ensures |signals| >= 1 && !signals[|signals| - 1].AcceptResponse?
    ensures forall i :: 0 <= i < |signals| - 1 ==> signals[i].AcceptResponse?
    ensures ev.Value? <==> signals[0].AcceptResponse?
    ensures ev.Value? ==> signals == [AcceptResponse(ev.output), AcceptTermination]
    ensures ev.Completion? && ev.completion.Failed? <==> signals[0].AcceptError?
    ensures signals[0].AcceptError? ==> signals == [AcceptError(ev.completion.failure)]
  {
    match ev
    case Value(output) => [AcceptResponse(output), AcceptTermination]
    case Completion(Finished) => [AcceptTermination]
    case Completion(Failed(error)) => [AcceptError(error)]
  }

  class Registry<O, E> {
    var subscribers: map<Id, Receiver>
    ghost var inbox: map<Id, seq<Signal<O, E>>>

    /** Every entry is stored under its own identifier. */
    ghost predicate Valid()
      reads this
    {
      forall id | id in subscribers :: subscribers[id].id == id
    }

    /** Relative to the inbox `before`, each receiver of `to` has received
        exactly `action` of itself, once, and nobody else received anything. */
    ghost predicate Delivered(before: map<Id, seq<Signal<O, E>>>, to: map<Id, Receiver>, action: Receiver -> seq<Signal<O, E>>)
      reads this
    {
      forall id :: InboxOf(inbox, id) == InboxOf(before, id) + (if id in to then action(to[id]) else [])
    }

    constructor ()
      ensures Valid() && subscribers == map[] && inbox == map[]
    {
      subscribers := map[];
      inbox := map[];
    }

    /** `subscribers[receiver.combineIdentifier] = receiver`: a receiver with
        the same identifier is replaced. */
    method Register(receiver: Receiver)
      requires Valid()
      modifies this
      ensures Valid()
      ensures subscribers == old(subscribers)[receiver.id := receiver] && inbox == old(inbox)
    {
      subscribers := subscribers[receiver.id := receiver];
    }

    /** Applies `action` to every receiver of `snapshot`, in some order. */
    method DeliverAll(snapshot: map<Id, Receiver>, action: Receiver -> seq<Signal<O, E>>)
      modifies this
      ensures subscribers == old(subscribers)
      ensures Delivered(old(inbox), snapshot, action)
    {
      var pending := snapshot.Keys;
      while pending != {}
        invariant pending <= snapshot.Keys
        invariant subscribers == old(subscribers)
        invariant forall id :: InboxOf(inbox, id) == InboxOf(old(inbox), id)
                    + (if id in snapshot && id !in pending then action(snapshot[id]) else [])
        decreases pending
      {
        var id :| id in pending;
        inbox := inbox[id := InboxOf(inbox, id) + action(snapshot[id])];
        pending := pending - {id};
      }
    }

    /** `forEachSubscriber(_:)`: every registered receiver gets the action
        once, and the registry is left as it was. */
    method ForEachSubscriber(action: Receiver -> seq<Signal<O, E>>)
      requires Valid()
      modifies this
      ensures Valid() && subscribers == old(subscribers)
      ensures Delivered(old(inbox), old(subscribers), action)
    {
      DeliverAll(subscribers, action);
    }

    /** `forEachSubscriber(tryCastTo:_:)`: only receivers that cast get it. */
    method ForEachSubscriberCasting(role: Role, action: Receiver -> seq<Signal<O, E>>)
      requires Valid()
      modifies this
      ensures Valid() && subscribers == old(subscribers)
      ensures Delivered(old(inbox), old(subscribers), Cast(role, action))
    {
      ForEachSubscriber(Cast(role, action));
    }

    /** `dequeueAllSubscriber(_:)`: snapshot, clear, then every receiver of
        the snapshot gets the action once. */
    method DequeueAllSubscriber(action: Receiver -> seq<Signal<O, E>>)
      requires Valid()
      modifies this
      ensures Valid() && subscribers == map[]
      ensures Delivered(old(inbox), old(subscribers), action)
    {
      var snapshot := subscribers;
      subscribers := map[];
      DeliverAll(snapshot, action);
    }

    /** `dequeueAllSubscriber(tryCastTo:_:)`: every entry is cleared, also
        those that do not cast; only those that cast get the action. */
    method DequeueAllSubscriberCasting(role: Role, action: Receiver -> seq<Signal<O, E>>)
      requires Valid()
      modifies this
      ensures Valid() && subscribers == map[]
      ensures Delivered(old(inbox), old(subscribers), Cast(role, action))
    {
      DequeueAllSubscriber(Cast(role, action));
    }
  }
}
