/** The first generation `URLSession.HTTPDataTaskPublisher`
    (Base/HTTPDataTaskPublisher.swift), whose state lives on one global actor,
    and the `HTTPDataTaskSubscribable` fan-out helpers that `HTTPRetry` and
    `HTTPValid` share with it. Each actor-isolated step is one method. */
module BaseDataTask {
  import opened Wrappers
  import opened Net
  import opened HTTPErrors
  import opened Subscribers
  import opened PublisherExtensions

  /** `dequeueSubscriber(with:response:)`: snapshot, clear, then each
      receiver gets the response and the termination. */
  method DequeueSubscriberWithResponse(registry: Registry<HTTPOutput, HTTPURLError>, data: Data, response: HTTPURLResponse)
    requires registry.Valid()
    modifies registry
    ensures registry.Valid() && registry.subscribers == map[]
    ensures registry.Delivered(old(registry.inbox), old(registry.subscribers),
                               Each([AcceptResponse(HTTPOutput(data, response)), AcceptTermination]))
  {
    registry.DequeueAllSubscriber(Each([AcceptResponse(HTTPOutput(data, response)), AcceptTermination]));
  }

  /** `dequeueSubscriber(with error:)`: each receiver gets the error only. */
  method DequeueSubscriberWithError(registry: Registry<HTTPOutput, HTTPURLError>, error: HTTPURLError)
    requires registry.Valid()
    modifies registry
    ensures registry.Valid() && registry.subscribers == map[]
    ensures registry.Delivered(old(registry.inbox), old(registry.subscribers), Each([AcceptError(error)]))
  {
    registry.DequeueAllSubscriber(Each([AcceptError(error)]));
  }

  /** `terminateAllSubscribers()`: each receiver gets the termination only. */
  method TerminateAllSubscribers(registry: Registry<HTTPOutput, HTTPURLError>)
    requires registry.Valid()
    modifies registry
    ensures registry.Valid() && registry.subscribers == map[]
    ensures registry.Delivered(old(registry.inbox), old(registry.subscribers), Each([AcceptTermination]))
  {
    registry.DequeueAllSubscriber(Each([AcceptTermination]));
  }

  /** The terminal fan-out for one upstream event, by the helper the sink
      and the stage handlers pick for it. */
  method DequeueSubscriberWithEvent(registry: Registry<HTTPOutput, HTTPURLError>, ev: Event<HTTPOutput, HTTPURLError>)
    requires registry.Valid()
    modifies registry
    ensures registry.Valid() && registry.subscribers == map[]
    ensures registry.Delivered(old(registry.inbox), old(registry.subscribers), Each(TerminalSignals(ev)))
  {
    match ev {
      case Value(output) => DequeueSubscriberWithResponse(registry, output.data, output.response);
      case Completion(Finished) => TerminateAllSubscribers(registry);
      case Completion(Failed(error)) => DequeueSubscriberWithError(registry, error);
    }
  }

  /** What `demandOutput(from:)` does after registering: dispatch a request,
      or fail every receiver because the adapter threw. */
  datatype PreflightStep = Dispatch(request: URLRequest) | FailAdapt(error: HTTPURLError)

  /** Without an adapter the stored request is dispatched; with one, the
      adapted request, or, if the adapter threw, `failWhileAdapt` carrying the
      stored (unadapted) request and the thrown error. */
  function Preflight(urlRequest: URLRequest, hasAdapter: bool, adaptation: Result<URLRequest, AnyError>): (step: PreflightStep)
    ensures step.Dispatch? <==> !hasAdapter || adaptation.Success?
    ensures step.Dispatch? ==> step.request == (if hasAdapter then adaptation.value else urlRequest)
    ensures step.FailAdapt? ==> step.error == FailWhileAdaptRequest(urlRequest, adaptation.error)
  {
    if !hasAdapter then Dispatch(urlRequest)
    else match adaptation
      case Success(adapted) => Dispatch(adapted)
      case Failure(thrown) => FailAdapt(FailWhileAdaptRequest(urlRequest, thrown))
  }

  class HTTPDataTaskPublisher {
    const registry: Registry<HTTPOutput, HTTPURLError>
    const duplicationHandling: DuplicationHandling
    const hasAdapter: bool
    var urlRequest: URLRequest
    /** `ongoingRequest != nil`: the sink on the factory's publisher is alive. */
    var ongoingRequest: bool
    /** The requests handed to `dataTaskFactory.anyDataTaskPublisher`, in order. */
    ghost var dispatched: seq<URLRequest>

    ghost predicate Valid()
      reads this, registry
    {
      registry.Valid()
    }

    constructor (urlRequest: URLRequest, hasAdapter: bool, duplicationHandling: DuplicationHandling)
      ensures Valid() && fresh(registry)
      ensures this.urlRequest == urlRequest && this.hasAdapter == hasAdapter && this.duplicationHandling == duplicationHandling
      ensures registry.subscribers == map[] && registry.inbox == map[]
      ensures !ongoingRequest && dispatched == []
    {
      registry := new Registry();
      this.urlRequest := urlRequest;
      this.hasAdapter := hasAdapter;
      this.duplicationHandling := duplicationHandling;
      ongoingRequest := false;
      dispatched := [];
    }

    /** `demandOutput(from:)`: register the receiver, then dispatch the
        (adapted) request, or fan out the adapter's failure. `adaptation` is
        what `adapter.httpDataTaskAdapt(for: urlRequest)` returned or threw;
        it is ignored without an adapter. */
    method DemandOutputFrom(receiver: Receiver, adaptation: Result<URLRequest, AnyError>)
      requires Valid()
      modifies this, registry
      ensures Valid() && urlRequest == old(urlRequest)
      ensures var registered := old(registry.subscribers)[receiver.id := receiver];
              match Preflight(old(urlRequest), hasAdapter, adaptation)
              case Dispatch(request) =>
                && registry.subscribers == registered && registry.inbox == old(registry.inbox)
                && ongoingRequest
                && dispatched == old(dispatched) + (if old(ongoingRequest) then [] else [request])
              case FailAdapt(error) =>
                && registry.subscribers == map[]
                && registry.Delivered(old(registry.inbox), registered, Each([AcceptError(error)]))
                && ongoingRequest == old(ongoingRequest) && dispatched == old(dispatched)
    {
      registry.Register(receiver);
      match Preflight(urlRequest, hasAdapter, adaptation) {
        case Dispatch(request) => DemandOutputUsing(request);
        case FailAdapt(error) => DequeueSubscriberWithError(registry, error);
      }
    }

    /** `demandOutput(using:)`: nothing while a request is ongoing, so at
        most one is outstanding; otherwise hand it to the factory. */
    method DemandOutputUsing(request: URLRequest)
      requires Valid()
      modifies this
      ensures Valid() && urlRequest == old(urlRequest)
      ensures ongoingRequest
      ensures dispatched == old(dispatched) + (if old(ongoingRequest) then [] else [request])
    {
      if ongoingRequest {
        return;
      }
      dispatched := dispatched + [request];
      ongoingRequest := true;
    }

    /** The sink on `anyDataTaskPublisher(...).httpResponseOnly()`: a value
        fans out the response and the termination (and cancels the sink), a
        failure fans out the error, `.finished` the termination; in every
        case the sink is released, so `ongoingRequest` becomes nil. */
    method Receive(ev: Event<URLResponseOutput, URLError>)
      requires Valid()
      modifies this, registry
      ensures Valid() && urlRequest == old(urlRequest) && dispatched == old(dispatched)
      ensures !ongoingRequest
      ensures registry.subscribers == map[]
      ensures registry.Delivered(old(registry.inbox), old(registry.subscribers), Each(TerminalSignals(HttpResponseOnly(ev))))
    {
      DequeueSubscriberWithEvent(registry, HttpResponseOnly(ev));
      ongoingRequest := false;
    }
  }
}
