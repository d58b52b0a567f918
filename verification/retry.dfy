/** `URLSession.HTTPRetry` (Retrier/HTTPRetry.swift): a stage between an
    upstream HTTP publisher and its receivers that asks an
    `HTTPDataTaskRetrier` what to do with each upstream failure. */
module Retry {
  import opened Wrappers
  import opened Net
  import opened HTTPErrors
  import opened Subscribers
  import opened BaseDataTask

  /** `HTTPDataTaskRetryDecision`. */
  datatype RetryDecision = Retry | DropWithReason(reason: string) | Drop

  /** What the stage does with an upstream failure once the retrier has
      answered: ask upstream for one more attempt, or fail every receiver. */
  datatype RetryAction = RequestUpstreamAgain | FailAll(error: HTTPURLError)

  /** `tryToRetry(from:)` together with its caller's `catch`: `decision` is
      what `httpDataTaskShouldRetry(for: failure)` returned or threw. */
  function RetryActionFor(failure: HTTPURLError, decision: Result<RetryDecision, AnyError>): (action: RetryAction)
    ensures action.RequestUpstreamAgain? <==> decision == Success(Retry)
    ensures decision == Success(Drop) ==> action == FailAll(failure)
    ensures decision.Success? && decision.value.DropWithReason? ==>
              action == FailAll(FailToRetry(decision.value.reason, failure))
    ensures decision.Failure? ==> action == FailAll(FailWhileRetry(decision.error, failure))
  {
    match decision
    case Failure(thrown) => FailAll(FailWhileRetry(thrown, failure))
    case Success(Retry) => RequestUpstreamAgain
    case Success(DropWithReason(reason)) => FailAll(FailToRetry(reason, failure))
    case Success(Drop) => FailAll(failure)
  }

  /** The error that fails the receivers is the upstream failure itself or
      wraps it as its `originalError`, so the cause is never lost. */
  lemma FailAllKeepsOriginalFailure(failure: HTTPURLError, decision: Result<RetryDecision, AnyError>)
    requires RetryActionFor(failure, decision).FailAll?
    ensures var e := RetryActionFor(failure, decision).error;
            e == failure || ((e.FailToRetry? || e.FailWhileRetry?) && e.originalError == failure)
  {
  }

  class HTTPRetry {
    const registry: Registry<HTTPOutput, HTTPURLError>
    /** `subscription != nil`. */
    var hasSubscription: bool
    var isWaitingUpstream: bool
    /** How many `.max(1)` requests went to the upstream subscription. */
    ghost var upstreamRequests: nat
    /** The failures handed to the retrier, in order. */
    ghost var consulted: seq<HTTPURLError>

    ghost predicate Valid()
      reads this, registry
    {
      registry.Valid()
    }

    /** `init(upstream:retrier:retryDelay:)`: no subscription yet. */
    constructor ()
      ensures Valid() && fresh(registry)
      ensures registry.subscribers == map[] && registry.inbox == map[]
      ensures !hasSubscription && !isWaitingUpstream && upstreamRequests == 0 && consulted == []
    {
      registry := new Registry();
      hasSubscription := false;
      isWaitingUpstream := false;
      upstreamRequests := 0;
      consulted := [];
    }

    /** `demandToUpstreamIfNeeded()`: one item is requested only when not
        waiting and subscribed. */
    method DemandToUpstreamIfNeeded()
      requires Valid()
      modifies this
      ensures Valid() && hasSubscription == old(hasSubscription) && isWaitingUpstream == old(isWaitingUpstream)
      ensures consulted == old(consulted)
      ensures upstreamRequests == old(upstreamRequests) + (if !isWaitingUpstream && hasSubscription then 1 else 0)
    {
      if isWaitingUpstream || !hasSubscription {
        return;
      }
      upstreamRequests := upstreamRequests + 1;
    }

    /** `receive(subscription:)`: keep it, then demand if needed. */
    method ReceiveSubscription()
      requires Valid()
      modifies this
      ensures Valid() && hasSubscription && isWaitingUpstream == old(isWaitingUpstream)
      ensures registry.subscribers == old(registry.subscribers) && registry.inbox == old(registry.inbox)
      ensures consulted == old(consulted)
      ensures upstreamRequests == old(upstreamRequests) + (if !isWaitingUpstream then 1 else 0)
    {
      hasSubscription := true;
      DemandToUpstreamIfNeeded();
    }

    /** `demandOutput(from:)`: register, then demand if needed. */
    method DemandOutputFrom(receiver: Receiver)
      requires Valid()
      modifies this, registry
      ensures Valid() && hasSubscription == old(hasSubscription) && isWaitingUpstream == old(isWaitingUpstream)
      ensures registry.subscribers == old(registry.subscribers)[receiver.id := receiver] && registry.inbox == old(registry.inbox)
      ensures consulted == old(consulted)
      ensures upstreamRequests == old(upstreamRequests) + (if !isWaitingUpstream && hasSubscription then 1 else 0)
    {
      registry.Register(receiver);
      DemandToUpstreamIfNeeded();
    }

    /** `receive(_ input:)`: success reaches every receiver with the
        termination; the retrier is not consulted; no further demand. */
    method ReceiveInput(data: Data, response: HTTPURLResponse) returns (demand: Demand)
      requires Valid()
      modifies this, registry
      ensures Valid() && !isWaitingUpstream && hasSubscription == old(hasSubscription)
      ensures demand == Max(0)
      ensures consulted == old(consulted) && upstreamRequests == old(upstreamRequests)
      ensures registry.subscribers == map[]
      ensures registry.Delivered(old(registry.inbox), old(registry.subscribers),
                                 Each([AcceptResponse(HTTPOutput(data, response)), AcceptTermination]))
    {
      isWaitingUpstream := false;
      DequeueSubscriberWithResponse(registry, data, response);
      demand := Max(0);
    }

    /** `tryToRetry(from:)` once the retrier has decided (the retry delay
        is not modelled). */
    method TryToRetry(failure: HTTPURLError, decision: RetryDecision)
      requires Valid()
      modifies this, registry
      ensures Valid() && hasSubscription == old(hasSubscription) && isWaitingUpstream == old(isWaitingUpstream)
      ensures consulted == old(consulted)
      ensures ActedOn(RetryActionFor(failure, Success(decision)), old(registry.subscribers), old(registry.inbox), old(upstreamRequests))
    {
      match decision {
        case Retry =>
          if hasSubscription {
            upstreamRequests := upstreamRequests + 1;
          }
        case DropWithReason(reason) => DequeueSubscriberWithError(registry, FailToRetry(reason, failure));
        case Drop => DequeueSubscriberWithError(registry, failure);
      }
    }

    /** The effect of `action` from the given registry and counter: a retry
        keeps every receiver registered and asks the held subscription for
        one more item; a failure is a terminal fan-out of the error. */
    ghost predicate ActedOn(action: RetryAction, subscribers: map<Id, Receiver>, inbox: map<Id, seq<Signal<HTTPOutput, HTTPURLError>>>, requests: nat)
      reads this, registry
    {
      match action
      case RequestUpstreamAgain =>
        && registry.subscribers == subscribers && registry.inbox == inbox
        && upstreamRequests == requests + (if hasSubscription then 1 else 0)
      case FailAll(error) =>
        && registry.subscribers == map[]
        && registry.Delivered(inbox, subscribers, Each([AcceptError(error)]))
        && upstreamRequests == requests
    }

    /** `receive(completion:)`: `.finished` terminates every receiver; a
        failure goes to the retrier, whose answer (or thrown error) decides. */
    method ReceiveCompletion(completion: Completion<HTTPURLError>, decision: Result<RetryDecision, AnyError>)
      requires Valid()
      modifies this, registry
      ensures Valid() && !isWaitingUpstream && hasSubscription == old(hasSubscription)
      ensures completion.Finished? ==>
                && consulted == old(consulted) && upstreamRequests == old(upstreamRequests)
                && registry.subscribers == map[]
                && registry.Delivered(old(registry.inbox), old(registry.subscribers), Each([AcceptTermination]))
      ensures completion.Failed? ==>
                && consulted == old(consulted) + [completion.failure]
                && ActedOn(RetryActionFor(completion.failure, decision), old(registry.subscribers), old(registry.inbox), old(upstreamRequests))
    {
      isWaitingUpstream := false;
      match completion {
        case Finished => TerminateAllSubscribers(registry);
        case Failed(failure) =>
          consulted := consulted + [failure];
          match decision {
            case Success(d) => TryToRetry(failure, d);
            case Failure(thrown) => DequeueSubscriberWithError(registry, FailWhileRetry(thrown, failure));
          }
      }
    }
  }
}
