/** The second generation `URLSession.HTTPDataTaskPublisher`
    (HTTPDataTaskPublisher/HTTPDataTaskPublisher.swift): the same protocol as
    the first generation, but over an `AtomicSubscribeable` registry whose
    fan-outs reach only the receivers that are `HTTPDataTaskReceiver`s. */
module DataTask {
  import opened Wrappers
  import opened Net
  import opened HTTPErrors
  import opened Subscribers
  import opened PublisherExtensions
  import BaseDataTask

  /** `dequeueSubscriber(with:response:)` of the private
      `AtomicSubscribeable` extension. */
  method DequeueSubscriberWithResponse(registry: Registry<HTTPOutput, HTTPURLError>, data: Data, response: HTTPURLResponse)
    requires registry.Valid()
    modifies registry
    ensures registry.Valid() && registry.subscribers == map[]
    ensures registry.Delivered(old(registry.inbox), old(registry.subscribers),
                               Cast(DataTaskReceiver, Each([AcceptResponse(HTTPOutput(data, response)), AcceptTermination])))
  {
    registry.DequeueAllSubscriberCasting(DataTaskReceiver, Each([AcceptResponse(HTTPOutput(data, response)), AcceptTermination]));
  }

  /** `dequeueSubscriber(with error:)` of the private extension. */
  method DequeueSubscriberWithError(registry: Registry<HTTPOutput, HTTPURLError>, error: HTTPURLError)
    requires registry.Valid()
    modifies registry
    ensures registry.Valid() && registry.subscribers == map[]
    ensures registry.Delivered(old(registry.inbox), old(registry.subscribers), Cast(DataTaskReceiver, Each([AcceptError(error)])))
  {
    registry.DequeueAllSubscriberCasting(DataTaskReceiver, Each([AcceptError(error)]));
  }

  /** `terminateAllSubscribers()` of the private extension. */
  method TerminateAllSubscribers(registry: Registry<HTTPOutput, HTTPURLError>)
    requires registry.Valid()
    modifies registry
    ensures registry.Valid() && registry.subscribers == map[]
    ensures registry.Delivered(old(registry.inbox), old(registry.subscribers), Cast(DataTaskReceiver, Each([AcceptTermination])))
  {
    registry.DequeueAllSubscriberCasting(DataTaskReceiver, Each([AcceptTermination]));
  }

  /** What one fan-out leaves in a receiver's inbox: the terminal signals
      for a data task receiver, nothing for any other kind. */
  lemma FanOutReachesDataTaskReceiversOnly(registry: Registry<HTTPOutput, HTTPURLError>,
      before: map<Id, seq<Signal<HTTPOutput, HTTPURLError>>>, to: map<Id, Receiver>, ev: Event<HTTPOutput, HTTPURLError>, id: Id)
    requires registry.Delivered(before, to, Cast(DataTaskReceiver, Each(TerminalSignals(ev))))
    ensures id !in to || to[id].role != DataTaskReceiver ==> InboxOf(registry.inbox, id) == InboxOf(before, id)
    ensures id in to && to[id].role == DataTaskReceiver ==>
              InboxOf(registry.inbox, id) == InboxOf(before, id) + TerminalSignals(ev)
  {
  }

  class HTTPDataTaskPublisher {
    const registry: Registry<HTTPOutput, HTTPURLError>
    const duplicationHandling: DuplicationHandling
    const hasAdapter: bool
    var urlRequest: URLRequest
    /** `ongoingRequest != nil`: the sink on the factory's publisher is alive. */
    var ongoingRequest: bool
    /** The requests handed to `dataTaskFactory.anyDataTaskPublisher`, in order. */
    ghost var dispatched: seq<URLRequest>

    ghost predicate Valid()
      reads this, registry
    {
      registry.Valid()
    }

    constructor (urlRequest: URLRequest, hasAdapter: bool, duplicationHandling: DuplicationHandling)
      ensures Valid() && fresh(registry)
      ensures this.urlRequest == urlRequest && this.hasAdapter == hasAdapter && this.duplicationHandling == duplicationHandling
      ensures registry.subscribers == map[] && registry.inbox == map[]
      ensures !ongoingRequest && dispatched == []
    {
      registry := new Registry();
      this.urlRequest := urlRequest;
      this.hasAdapter := hasAdapter;
      this.duplicationHandling := duplicationHandling;
      ongoingRequest := false;
      dispatched := [];
    }

    /** `demandOutput(from:)`: register the receiver at once, then dispatch
        the (adapted) request, or fan out `failWhileAdapt` to the data task
        receivers. `adaptation` is what the adapter returned or threw. */
    method DemandOutputFrom(receiver: Receiver, adaptation: Result<URLRequest, AnyError>)
      requires Valid()
      modifies this, registry
      ensures Valid() && urlRequest == old(urlRequest)
      ensures var registered := old(registry.subscribers)[receiver.id := receiver];
              var step := BaseDataTask.Preflight(old(urlRequest), hasAdapter, adaptation);
              if step.Dispatch? then
                && registry.subscribers == registered && registry.inbox == old(registry.inbox)
                && ongoingRequest
                && dispatched == old(dispatched) + (if old(ongoingRequest) then [] else [step.request])
              else
                && registry.subscribers == map[]
                && registry.Delivered(old(registry.inbox), registered, Cast(DataTaskReceiver, Each([AcceptError(step.error)])))
                && ongoingRequest == old(ongoingRequest) && dispatched == old(dispatched)
    {
      registry.Register(receiver);
      var step := BaseDataTask.Preflight(urlRequest, hasAdapter, adaptation);
      if step.Dispatch? {
        DemandOutputUsing(step.request);
      } else {
        DequeueSubscriberWithError(registry, step.error);
      }
    }

    /** `demandOutput(using:)`: nothing while a request is ongoing. */
    method DemandOutputUsing(request: URLRequest)
      requires Valid()
      modifies this
      ensures Valid() && urlRequest == old(urlRequest)
      ensures ongoingRequest
      ensures dispatched == old(dispatched) + (if old(ongoingRequest) then [] else [request])
    {
      if ongoingRequest {
        return;
      }
      dispatched := dispatched + [request];
      ongoingRequest := true;
    }

    /** The sink on the factory's publisher after `httpResponseOnly()`; the
        sink is released in every case. */
    method Receive(ev: Event<URLResponseOutput, URLError>)
      requires Valid()
      modifies this, registry
      ensures Valid() && urlRequest == old(urlRequest) && dispatched == old(dispatched)
      ensures !ongoingRequest
      ensures registry.subscribers == map[]
      ensures registry.Delivered(old(registry.inbox), old(registry.subscribers),
                                 Cast(DataTaskReceiver, Each(TerminalSignals(HttpResponseOnly(ev)))))
    {
      match HttpResponseOnly(ev) {
        case Value(output) => DequeueSubscriberWithResponse(registry, output.data, output.response);
        case Completion(Finished) => TerminateAllSubscribers(registry);
        case Completion(Failed(error)) => DequeueSubscriberWithError(registry, error);
      }
      ongoingRequest := false;
    }
  }
}
