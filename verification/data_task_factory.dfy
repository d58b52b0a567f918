/** `URLSession`'s `DataTaskPublisherFactory` conformance
    (HTTPDataTaskPublisher/DataTaskPublisherFactory.swift): one `Future` per
    data task, a session-wide table of weakly held futures keyed by request,
    and the duplication policy that decides whether to share, drop or start. */
module DataTaskFactory {
  import opened Wrappers
  import opened Net
  import opened HTTPErrors

  /** Identity of one `Future` created by `createNewPublisher`. */
  type FutureId = nat

  /** What `anyDataTaskPublisher` returns: a future from the table (new or
      shared), or a throwaway future that fails at once. */
  datatype DataTaskFuture = SharedFuture(id: FutureId) | FailedFuture(error: URLError)

  /** `Error.asUrlError`: a `URLError` is kept, anything else becomes
      `URLError(.unknown)`. */
  function AsUrlError(e: AnyError): (u: URLError)
    ensures e.URLFailure? ==> u == e.url
    ensures !e.URLFailure? ==> u == URLError(Unknown)
  {
    match e
    case URLFailure(url) => url
    case _ => URLError(Unknown)
  }

  /** The data task's completion handler as the promise sees it: an error
      wins, then a missing body or response is `.zeroByteResource`. */
  function ClassifyDataTaskCompletion(data: Option<Data>, response: Option<URLResponse>, error: Option<AnyError>): (r: Result<URLResponseOutput, URLError>)
    ensures r.Success? <==> error.None? && data.Some? && response.Some?
    ensures r.Success? ==> r.value == URLResponseOutput(data.value, response.value)
    ensures error.Some? ==> r == Failure(AsUrlError(error.value))
    ensures error.None? && !(data.Some? && response.Some?) ==> r == Failure(URLError(ZeroByteResource))
  {
    if error.Some? then Failure(AsUrlError(error.value))
    else if data.None? || response.None? then Failure(URLError(ZeroByteResource))
    else Success(URLResponseOutput(data.value, response.value))
  }

  /** What a `Future` publishes once its promise is fulfilled: the value
      then `.finished`, or the failure alone. */
  function FutureEvents(result: Result<URLResponseOutput, URLError>): (events: seq<Event<URLResponseOutput, URLError>>)
    ensures 1 <= |events| <= 2 && events[|events| - 1].Completion?
    ensures result.Success? <==> events[0].Value?
    ensures result.Success? ==> events == [Value(result.value), Completion(Finished)]
    ensures result.Failure? ==> events == [Completion(Failed(result.error))]
  {
    match result
    case Success(output) => [Value(output), Completion(Finished)]
    case Failure(error) => [Completion(Failed(error))]
  }

  /** The throwaway future `.dropIfDuplicated` returns: it is not in the
      table, and its subscribers see a `.cancelled` failure and nothing
      else. */
  function DroppedFuture(): (future: DataTaskFuture)
    ensures future.FailedFuture?
    ensures FutureEvents(Failure(future.error)) == [Completion(Failed(URLError(Cancelled)))]
  {
    FailedFuture(URLError(Cancelled))
  }

  /** The `ongoingRequest` table associated with one `URLSession`. */
  class DataTaskCache {
    /** `WeakFutureWrapper` per request: `Some(id)` while that future lives. */
    var ongoingRequest: map<URLRequest, Option<FutureId>>
    /** Futures are numbered in creation order. */
    var nextFuture: FutureId
    /** The request each created future started a data task for. */
    ghost var started: seq<URLRequest>

    /** Every live entry names a future that was created for that very
        request. */
    ghost predicate Valid()
      reads this
    {
      && |started| == nextFuture
      && forall r | r in ongoingRequest && ongoingRequest[r].Some? ::
           ongoingRequest[r].value < nextFuture && started[ongoingRequest[r].value] == r
    }

    /** The future a lookup of `request` finds, if it is still alive. */
    function Live(request: URLRequest): (f: Option<FutureId>)
      reads this
      ensures f.Some? ==> request in ongoingRequest && ongoingRequest[request] == f
    {
      if request in ongoingRequest then ongoingRequest[request] else None
    }

    constructor ()
      ensures Valid() && ongoingRequest == map[] && nextFuture == 0 && started == []
    {
      ongoingRequest := map[];
      nextFuture := 0;
      started := [];
    }

    /** `anyDataTaskPublisher(for:duplicationHandling:)`. */
    method AnyDataTaskPublisher(request: URLRequest, duplicationHandling: DuplicationHandling) returns (future: DataTaskFuture)
      requires Valid()
      modifies this
      ensures Valid()
      ensures duplicationHandling == UseCurrentIfPossible && old(Live(request)).Some? ==>
                future == SharedFuture(old(Live(request)).value) && Unchanged(old(ongoingRequest), old(nextFuture), old(started))
      ensures duplicationHandling == DropIfDuplicated && old(Live(request)).Some? ==>
                future == DroppedFuture() && Unchanged(old(ongoingRequest), old(nextFuture), old(started))
      ensures duplicationHandling == AlwaysCreateNew || old(Live(request)).None? ==>
                Started(future, request, old(ongoingRequest), old(nextFuture), old(started))
    {
      match duplicationHandling {
        case UseCurrentIfPossible =>
          future := GetPublisher(request);
          return;
        case DropIfDuplicated =>
          if Live(request).Some? {
            return DroppedFuture();
          }
        case AlwaysCreateNew =>
      }
      future := CreateNewPublisher(request);
    }

    /** The table and the counters are as they were. */
    ghost predicate Unchanged(table: map<URLRequest, Option<FutureId>>, next: FutureId, log: seq<URLRequest>)
      reads this
    {
      ongoingRequest == table && nextFuture == next && started == log
    }

    /** A new future was created for `request`, started its data task and
        replaced the table's entry for `request`. */
    ghost predicate Started(future: DataTaskFuture, request: URLRequest,
                            table: map<URLRequest, Option<FutureId>>, next: FutureId, log: seq<URLRequest>)
      reads this
    {
      && future == SharedFuture(next)
      && ongoingRequest == table[request := Some(next)]
      && nextFuture == next + 1
      && started == log + [request]
    }

    /** `getPublisher(of:)`: the live future if any, else a new one. */
    method GetPublisher(request: URLRequest) returns (future: DataTaskFuture)
      requires Valid()
      modifies this
      ensures Valid()
      ensures old(Live(request)).Some? ==>
                future == SharedFuture(old(Live(request)).value) && Unchanged(old(ongoingRequest), old(nextFuture), old(started))
      ensures old(Live(request)).None? ==> Started(future, request, old(ongoingRequest), old(nextFuture), old(started))
    {
      var current := Live(request);
      if current.None? {
        future := CreateNewPublisher(request);
        return;
      }
      future := SharedFuture(current.value);
    }

    /** `createNewPublisher(for:)`: the `Future`'s closure runs at once and
        resumes the data task; the future is then stored weakly. */
    method CreateNewPublisher(request: URLRequest) returns (future: DataTaskFuture)
      requires Valid()
      modifies this
      ensures Valid()
      ensures Started(future, request, old(ongoingRequest), old(nextFuture), old(started))
    {
      future := SharedFuture(nextFuture);
      started := started + [request];
      ongoingRequest := ongoingRequest[request := Some(nextFuture)];
      nextFuture := nextFuture + 1;
    }

    /** The last strong reference to future `id` is gone: every weak entry
        that pointed at it now reads nil. */
    method Release(id: FutureId)
      requires Valid()
      modifies this
      ensures Valid() && nextFuture == old(nextFuture) && started == old(started)
      ensures ongoingRequest.Keys == old(ongoingRequest.Keys)
      ensures forall r :: Live(r) == (if old(Live(r)) == Some(id) then None else old(Live(r)))
    {
      ongoingRequest := map r | r in ongoingRequest :: if ongoingRequest[r] == Some(id) then None else ongoingRequest[r];
    }
  }

  /** With `.useCurrentIfPossible`, two demands for the same request while
      the first future is alive share one future and one data task. */
  method SharedWhileAlive(cache: DataTaskCache, request: URLRequest) returns (first: DataTaskFuture, second: DataTaskFuture)
    requires cache.Valid()
    modifies cache
    ensures cache.Valid()
    ensures first == second && first.SharedFuture?
    ensures first.id < |cache.started| && cache.started[first.id] == request
    ensures |cache.started| <= |old(cache.started)| + 1
  {
    first := cache.AnyDataTaskPublisher(request, UseCurrentIfPossible);
    second := cache.AnyDataTaskPublisher(request, UseCurrentIfPossible);
  }

  /** With `.dropIfDuplicated`, a demand while an identical future is
      alive fails with `.cancelled` and starts nothing. */
  method DroppedWhileAlive(cache: DataTaskCache, request: URLRequest) returns (first: DataTaskFuture, second: DataTaskFuture)
    requires cache.Valid()
    modifies cache
    ensures cache.Valid()
    ensures first.SharedFuture? && first.id < |cache.started| && cache.started[first.id] == request
    ensures second == FailedFuture(URLError(Cancelled))
    ensures |cache.started| == |old(cache.started)| + 1
  {
    first := cache.AnyDataTaskPublisher(request, AlwaysCreateNew);
    second := cache.AnyDataTaskPublisher(request, DropIfDuplicated);
  }
}
