/** `URLSession.HTTPValid` (Validator/HTTPValid.swift): a stage that runs an
    `HTTPDataTaskValidator` on each upstream value before it reaches the
    receivers. */
module Validate {
  import opened Wrappers
  import opened Net
  import opened HTTPErrors
  import opened Subscribers
  import opened BaseDataTask
  import opened StatusCodeValidator

  /** The event the receivers see for one upstream value and its verdict:
      the same output when valid, `failValidation` carrying the same data
      and response when invalid. */
  function ValidationOutcome(validation: Validation, data: Data, response: HTTPURLResponse): (ev: Event<HTTPOutput, HTTPURLError>)
    ensures ev.Value? <==> validation.ValidResponse?
    ensures ev.Value? ==> ev.output == HTTPOutput(data, response)
    ensures ev.Completion? ==> ev.completion == Failed(FailValidation(validation.reason, data, response))
  {
    match validation
    case ValidResponse => Value(HTTPOutput(data, response))
    case InvalidResponse(reason) => Completion(Failed(FailValidation(reason, data, response)))
  }

  /** Behind the status-code validator, a rejected response fails with an
      error whose `statusCode` is the rejected code, and an accepted one
      passes through unchanged. */
  lemma StatusCodeValidationOutcome(allowedStatusCodes: seq<int>, data: Data, response: HTTPURLResponse)
    ensures var ev := ValidationOutcome(HttpDataTaskIsValid(allowedStatusCodes, data, response), data, response);
            && (ev.Value? <==> response.statusCode in allowedStatusCodes)
            && (ev.Value? ==> ev.output == HTTPOutput(data, response))
            && (ev.Completion? ==> ev.completion.Failed? && StatusCode(ev.completion.failure) == Some(response.statusCode))
  {
  }

  class HTTPValid {
    /** `validator.httpDataTaskIsValid(for:response:)`. */
    const validator: (Data, HTTPURLResponse) -> Validation
    const registry: Registry<HTTPOutput, HTTPURLError>
    /** `subscription != nil`. */
    var hasSubscription: bool
    var isWaitingUpstream: bool
    /** How many `.max(1)` requests went to the upstream subscription. */
    ghost var upstreamRequests: nat
    /** The outputs handed to the validator, in order. */
    ghost var validated: seq<HTTPOutput>

    ghost predicate Valid()
      reads this, registry
    {
      registry.Valid()
    }

    /** `init(upstream:validator:)`: no subscription yet. */
    constructor (validator: (Data, HTTPURLResponse) -> Validation)
      ensures Valid() && fresh(registry) && this.validator == validator
      ensures registry.subscribers == map[] && registry.inbox == map[]
      ensures !hasSubscription && !isWaitingUpstream && upstreamRequests == 0 && validated == []
    {
      this.validator := validator;
      registry := new Registry();
      hasSubscription := false;
      isWaitingUpstream := false;
      upstreamRequests := 0;
      validated := [];
    }

    /** `demandToUpstreamIfNeeded()`. */
    method DemandToUpstreamIfNeeded()
      requires Valid()
      modifies this
      ensures Valid() && hasSubscription == old(hasSubscription) && isWaitingUpstream == old(isWaitingUpstream)
      ensures validated == old(validated)
      ensures upstreamRequests == old(upstreamRequests) + (if !isWaitingUpstream && hasSubscription then 1 else 0)
    {
      if isWaitingUpstream || !hasSubscription {
        return;
      }
      upstreamRequests := upstreamRequests + 1;
    }

    /** `receive(subscription:)`. */
    method ReceiveSubscription()
      requires Valid()
      modifies this
      ensures Valid() && hasSubscription && isWaitingUpstream == old(isWaitingUpstream)
      ensures registry.subscribers == old(registry.subscribers) && registry.inbox == old(registry.inbox)
      ensures validated == old(validated)
      ensures upstreamRequests == old(upstreamRequests) + (if !isWaitingUpstream then 1 else 0)
    {
      hasSubscription := true;
      DemandToUpstreamIfNeeded();
    }

    /** `demandOutput(from:)`. */
    method DemandOutputFrom(receiver: Receiver)
      requires Valid()
      modifies this, registry
      ensures Valid() && hasSubscription == old(hasSubscription) && isWaitingUpstream == old(isWaitingUpstream)
      ensures registry.subscribers == old(registry.subscribers)[receiver.id := receiver] && registry.inbox == old(registry.inbox)
      ensures validated == old(validated)
      ensures upstreamRequests == old(upstreamRequests) + (if !isWaitingUpstream && hasSubscription then 1 else 0)
    {
      registry.Register(receiver);
      DemandToUpstreamIfNeeded();
    }

    /** `receive(_ input:)`: the validator runs once on the value and its
        verdict decides the terminal fan-out; no further demand. */
    method ReceiveInput(data: Data, response: HTTPURLResponse) returns (demand: Demand)
      requires Valid()
      modifies this, registry
      ensures Valid() && !isWaitingUpstream && hasSubscription == old(hasSubscription)
      ensures demand == Max(0) && upstreamRequests == old(upstreamRequests)
      ensures validated == old(validated) + [HTTPOutput(data, response)]
      ensures registry.subscribers == map[]
      ensures registry.Delivered(old(registry.inbox), old(registry.subscribers),
                                 Each(TerminalSignals(ValidationOutcome(validator(data, response), data, response))))
    {
      isWaitingUpstream := false;
      validated := validated + [HTTPOutput(data, response)];
      var validation := validator(data, response);
      match validation {
        case ValidResponse => DequeueSubscriberWithResponse(registry, data, response);
        case InvalidResponse(reason) => DequeueSubscriberWithError(registry, FailValidation(reason, data, response));
      }
      demand := Max(0);
    }

    /** `receive(completion:)`: passed on unchanged, without the validator. */
    method ReceiveCompletion(completion: Completion<HTTPURLError>)
      requires Valid()
      modifies this, registry
      ensures Valid() && !isWaitingUpstream && hasSubscription == old(hasSubscription)
      ensures validated == old(validated) && upstreamRequests == old(upstreamRequests)
      ensures registry.subscribers == map[]
      ensures registry.Delivered(old(registry.inbox), old(registry.subscribers), Each(TerminalSignals(Completion(completion))))
    {
      isWaitingUpstream := false;
      match completion {
        case Finished => TerminateAllSubscribers(registry);
        case Failed(failure) => DequeueSubscriberWithError(registry, failure);
      }
    }
  }
}
