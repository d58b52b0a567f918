/** `URLSession.URLDownloadTaskPublisher`
    (URLDownloadTaskPublisher/URLDownloadTaskPublisher.swift): one download
    shared by every receiver, progress broadcast while it runs, a terminal
    fan-out when it ends, and cancellation that hands back resume data. */
module DownloadTask {
  import opened Wrappers
  import opened Net
  import opened HTTPErrors
  import opened Subscribers
  import opened DownloadTaskFactory

  type Registry = Subscribers.Registry<DownloadResponseOutput, DownloadURLError>

  /** `dequeueSubscriberIfNeeded(with:)`: progress goes to every download
      receiver and keeps them registered; any other output is a terminal
      fan-out of the output and the termination. */
  method DequeueSubscriberIfNeeded(registry: Registry, response: DownloadResponseOutput)
    requires registry.Valid()
    modifies registry
    ensures registry.Valid()
    ensures response.Downloading? ==> registry.subscribers == old(registry.subscribers)
    ensures !response.Downloading? ==> registry.subscribers == map[]
    ensures registry.Delivered(old(registry.inbox), old(registry.subscribers), Cast(DownloadTaskReceiver, Each(
              if response.Downloading? then [AcceptResponse(response)] else [AcceptResponse(response), AcceptTermination])))
  {
    if response.Downloading? {
      registry.ForEachSubscriberCasting(DownloadTaskReceiver, Each([AcceptResponse(response)]));
    } else {
      registry.DequeueAllSubscriberCasting(DownloadTaskReceiver, Each([AcceptResponse(response), AcceptTermination]));
    }
  }

  /** `dequeueSubscriber(with:)`: each download receiver gets the error. */
  method DequeueSubscriberWithError(registry: Registry, error: DownloadURLError)
    requires registry.Valid()
    modifies registry
    ensures registry.Valid() && registry.subscribers == map[]
    ensures registry.Delivered(old(registry.inbox), old(registry.subscribers), Cast(DownloadTaskReceiver, Each([AcceptError(error)])))
  {
    registry.DequeueAllSubscriberCasting(DownloadTaskReceiver, Each([AcceptError(error)]));
  }

  /** `terminateAllSubscribers()`: each download receiver gets the
      termination. */
  method TerminateAllSubscribers(registry: Registry)
    requires registry.Valid()
    modifies registry
    ensures registry.Valid() && registry.subscribers == map[]
    ensures registry.Delivered(old(registry.inbox), old(registry.subscribers), Cast(DownloadTaskReceiver, Each([AcceptTermination])))
  {
    registry.DequeueAllSubscriberCasting(DownloadTaskReceiver, Each([AcceptTermination]));
  }

  /** What `demandOutput(from:)` does after registering. */
  datatype DownloadStep = DispatchDownload(request: DownloadRequest) | FailDownloadAdapt(error: DownloadURLError)

  /** `demandOutput(from:)` as written: on adapter success it dispatches
      `.urlRequest(urlRequest)`, the request it gave the adapter, and the
      adapted request goes unused. */
  function DownloadPreflightAsWritten(downloadRequest: DownloadRequest, hasAdapter: bool, adaptation: Result<URLRequest, AnyError>): (step: DownloadStep)
    ensures step.DispatchDownload? <==> !hasAdapter || downloadRequest.ResumeData? || adaptation.Success?
    ensures step.DispatchDownload? ==> step.request == downloadRequest
  {
    if !hasAdapter then DispatchDownload(downloadRequest)
    else match downloadRequest
      case ResumeData(_) => DispatchDownload(downloadRequest)
      case UrlRequest(urlRequest) =>
        (match adaptation
         case Success(_) => DispatchDownload(UrlRequest(urlRequest))
         case Failure(thrown) => FailDownloadAdapt(DownloadFailWhileAdapt(urlRequest, thrown)))
  }

  /** An adapter that rewrites the request has no effect on what is
      downloaded. */
  lemma AdaptedRequestIgnoredAsWritten(original: URLRequest, adapted: URLRequest)
    requires original != adapted
    ensures DownloadPreflightAsWritten(UrlRequest(original), true, Success(adapted)) == DispatchDownload(UrlRequest(original))
    ensures DownloadPreflightAsWritten(UrlRequest(original), true, Success(adapted)) != DispatchDownload(UrlRequest(adapted))
  {
  }

  /** `demandOutput(from:)` as intended: resume data bypasses the adapter;
      a request is adapted and the adapted request is dispatched; an adapter
      failure becomes `failWhileAdapt` with the unadapted request. */
  function DownloadPreflight(downloadRequest: DownloadRequest, hasAdapter: bool, adaptation: Result<URLRequest, AnyError>): (step: DownloadStep)
    ensures step.DispatchDownload? <==> !hasAdapter || downloadRequest.ResumeData? || adaptation.Success?
    ensures !hasAdapter || downloadRequest.ResumeData? ==> step == DispatchDownload(downloadRequest)
    ensures hasAdapter && downloadRequest.UrlRequest? && adaptation.Success? ==>
              step == DispatchDownload(UrlRequest(adaptation.value))
    ensures step.FailDownloadAdapt? ==> step.error == DownloadFailWhileAdapt(downloadRequest.request, adaptation.error)
  {
    if !hasAdapter then DispatchDownload(downloadRequest)
    else match downloadRequest
      case ResumeData(_) => DispatchDownload(downloadRequest)
      case UrlRequest(urlRequest) =>
        (match adaptation
         case Success(adapted) => DispatchDownload(UrlRequest(adapted))
         case Failure(thrown) => FailDownloadAdapt(DownloadFailWhileAdapt(urlRequest, thrown)))
  }

  /** The two agree except on the request dispatched after a successful
      adaptation. */
  lemma PreflightsAgreeOffAdaptation(downloadRequest: DownloadRequest, hasAdapter: bool, adaptation: Result<URLRequest, AnyError>)
    requires !(hasAdapter && downloadRequest.UrlRequest? && adaptation.Success?)
    ensures DownloadPreflight(downloadRequest, hasAdapter, adaptation) == DownloadPreflightAsWritten(downloadRequest, hasAdapter, adaptation)
  {
  }

  /** The sink's `receiveValue` as written cancels the subscription after
      every value, progress included. */
  predicate CancelsSinkAsWritten(output: DownloadResponseOutput): (cancels: bool)
    ensures cancels
  {
    true
  }

  /** As intended: only a terminal value (`.downloaded`, `.cancelled`) ends
      the sink; progress keeps it open. */
  predicate CancelsSink(output: DownloadResponseOutput): (cancels: bool)
    ensures cancels <==> output.Downloaded? || output.Cancelled?
  {
    !output.Downloading?
  }

  /** The values the sink passes on out of `values`, which the publisher
      emits after `sink` has returned: each value is passed on, and the
      stream stops after the first one `cancels` holds for. */
  function Forwarded(values: seq<DownloadResponseOutput>, cancels: DownloadResponseOutput -> bool): (out: seq<DownloadResponseOutput>)
    ensures |out| <= |values| && out == values[..|out|]
    ensures forall i :: 0 <= i < |out| - 1 ==> !cancels(out[i])
    ensures |out| < |values| ==> |out| > 0 && cancels(out[|out| - 1])
  {
    if values == [] then []
    else if cancels(values[0]) then [values[0]]
    else [values[0]] + Forwarded(values[1..], cancels)
  }

  /** As written, one progress tick after the initial `.downloading(0)`
      (which arrives while `sink` is still running, before the cancellable
      is stored) cuts the stream: the `.downloaded` output never reaches
      the receivers, which stay registered with no termination. */
  lemma ProgressHidesDownloadAsWritten(p: Progress, file: URL, response: URLResponse)
    ensures Forwarded([Downloading(p), Downloaded(file, response)], CancelsSinkAsWritten) == [Downloading(p)]
    ensures forall o :: o in Forwarded([Downloading(p), Downloaded(file, response)], CancelsSinkAsWritten) ==> o.Downloading?
  {
    assert [Downloading(p), Downloaded(file, response)][0] == Downloading(p);
  }

  /** As intended, everything up to and including the first terminal
      output is passed on, and nothing after it. */
  lemma {:induction false} ForwardedUpToTerminal(values: seq<DownloadResponseOutput>, k: nat)
    requires k < |values| && !values[k].Downloading?
    requires forall i :: 0 <= i < k ==> values[i].Downloading?
    ensures Forwarded(values, CancelsSink) == values[..k + 1]
  {
    if k == 0 {
      assert CancelsSink(values[0]);
    } else {
      assert !CancelsSink(values[0]);
      ForwardedUpToTerminal(values[1..], k - 1);
      assert values[..k + 1] == [values[0]] + values[1..][..k];
    }
  }

  /** Without a terminal output, every progress value is passed on. */
  lemma {:induction false} ForwardedAllProgress(values: seq<DownloadResponseOutput>)
    requires forall i :: 0 <= i < |values| ==> values[i].Downloading?
    ensures Forwarded(values, CancelsSink) == values
  {
    if values != [] {
      assert !CancelsSink(values[0]);
      ForwardedAllProgress(values[1..]);
      assert values == [values[0]] + values[1..];
    }
  }

  class URLDownloadTaskPublisher {
    const registry: Registry
    const duplicationHandling: DuplicationHandling
    const hasAdapter: bool
    var downloadRequest: DownloadRequest
    /** `ongoingRequest != nil`: the sink on the pairs' publisher is alive. */
    var ongoingRequest: bool
    /** `ongoingDownloadTask`, held weakly. */
    var ongoingDownloadTask: Option<TaskId>
    /** The download requests handed to the factory, in order. */
    ghost var dispatched: seq<DownloadRequest>

    ghost predicate Valid()
      reads this, registry
    {
      registry.Valid()
    }

    constructor (downloadRequest: DownloadRequest, hasAdapter: bool, duplicationHandling: DuplicationHandling)
      ensures Valid() && fresh(registry)
      ensures this.downloadRequest == downloadRequest && this.hasAdapter == hasAdapter
      ensures this.duplicationHandling == duplicationHandling
      ensures registry.subscribers == map[] && registry.inbox == map[]
      ensures !ongoingRequest && ongoingDownloadTask.None? && dispatched == []
    {
      registry := new Subscribers.Registry();
      this.downloadRequest := downloadRequest;
      this.hasAdapter := hasAdapter;
      this.duplicationHandling := duplicationHandling;
      ongoingRequest := false;
      ongoingDownloadTask := None;
      dispatched := [];
    }

    /** `demandOutput(from:)` as written: register, then dispatch or fan
        out the adapter's failure per `DownloadPreflightAsWritten`, so after
        a successful adaptation the unadapted request is dispatched.
        `adaptation` is what the adapter returned or threw; `pairs` is what
        the factory returns for the dispatched request and `progress` the
        current value of its progress subject. */
    method DemandOutputFrom(receiver: Receiver, adaptation: Result<URLRequest, AnyError>, pairs: DownloadTaskPairs, progress: Progress)
      requires Valid()
      modifies this, registry
      ensures Valid() && downloadRequest == old(downloadRequest)
      ensures var registered := old(registry.subscribers)[receiver.id := receiver];
              FollowedStep(DownloadPreflightAsWritten(old(downloadRequest), hasAdapter, adaptation), pairs, progress,
                           old(ongoingRequest), old(ongoingDownloadTask), old(dispatched), old(registry.inbox), registered)
      ensures hasAdapter && old(downloadRequest).UrlRequest? && adaptation.Success? && !old(ongoingRequest) && old(ongoingDownloadTask).None? ==>
                dispatched == old(dispatched) + [old(downloadRequest)]
    {
      registry.Register(receiver);
      FollowStep(DownloadPreflightAsWritten(downloadRequest, hasAdapter, adaptation), pairs, progress);
    }

    /** `demandOutput(from:)` as intended: the same, but through
        `DownloadPreflight`, so the adapted request is dispatched. */
    method DemandOutputFromIntended(receiver: Receiver, adaptation: Result<URLRequest, AnyError>, pairs: DownloadTaskPairs, progress: Progress)
      requires Valid()
      modifies this, registry
      ensures Valid() && downloadRequest == old(downloadRequest)
      ensures var registered := old(registry.subscribers)[receiver.id := receiver];
              FollowedStep(DownloadPreflight(old(downloadRequest), hasAdapter, adaptation), pairs, progress,
                           old(ongoingRequest), old(ongoingDownloadTask), old(dispatched), old(registry.inbox), registered)
      ensures hasAdapter && old(downloadRequest).UrlRequest? && adaptation.Success? && !old(ongoingRequest) && old(ongoingDownloadTask).None? ==>
                dispatched == old(dispatched) + [UrlRequest(adaptation.value)]
    {
      registry.Register(receiver);
      FollowStep(DownloadPreflight(downloadRequest, hasAdapter, adaptation), pairs, progress);
    }

    /** The state after `demandOutput(from:)` carried out `step` for the
        receivers `to`, from the slots, log and inbox it started with. */
    ghost predicate FollowedStep(step: DownloadStep, pairs: DownloadTaskPairs, progress: Progress,
                                 wasOngoing: bool, wasTask: Option<TaskId>, log: seq<DownloadRequest>,
                                 before: map<Id, seq<Signal<DownloadResponseOutput, DownloadURLError>>>, to: map<Id, Receiver>)
      reads this, registry
    {
      match step
      case DispatchDownload(request) =>
        && Demanded(request, pairs, wasOngoing, wasTask, log)
        && Answered(wasOngoing || wasTask.Some?, pairs, progress, before, to)
      case FailDownloadAdapt(error) =>
        && registry.subscribers == map[]
        && registry.Delivered(before, to, Cast(DownloadTaskReceiver, Each([AcceptError(error)])))
        && ongoingRequest == wasOngoing && ongoingDownloadTask == wasTask && dispatched == log
    }

    /** What `demandOutput(from:)` does once the receiver is registered. */
    method FollowStep(step: DownloadStep, pairs: DownloadTaskPairs, progress: Progress)
      requires Valid()
      modifies this, registry
      ensures Valid() && downloadRequest == old(downloadRequest)
      ensures FollowedStep(step, pairs, progress, old(ongoingRequest), old(ongoingDownloadTask), old(dispatched),
                           old(registry.inbox), old(registry.subscribers))
    {
      match step {
        case DispatchDownload(request) => DemandOutputUsing(request, pairs, progress);
        case FailDownloadAdapt(error) => DequeueSubscriberWithError(registry, error);
      }
    }

    /** The slots and the log after `demandOutput(using: request)`:
        unchanged while either slot is held; otherwise the request was
        dispatched, the pairs' task is held, and the sink lives on unless
        the pairs' publisher failed while it was subscribing. */
    ghost predicate Demanded(request: DownloadRequest, pairs: DownloadTaskPairs, wasOngoing: bool, wasTask: Option<TaskId>, log: seq<DownloadRequest>)
      reads this
    {
      if wasOngoing || wasTask.Some? then
        ongoingRequest == wasOngoing && ongoingDownloadTask == wasTask && dispatched == log
      else
        ongoingRequest == pairs.publisher.DownloadStream? && ongoingDownloadTask == pairs.task && dispatched == log + [request]
    }

    /** What the receivers `to` got while `sink` was subscribing: nothing
        when `busy`; from a download stream, `.downloading(progress)` as a
        broadcast; from a `Fail` publisher, `.urlError` as a terminal
        fan-out. */
    ghost predicate Answered(busy: bool, pairs: DownloadTaskPairs, progress: Progress,
                             before: map<Id, seq<Signal<DownloadResponseOutput, DownloadURLError>>>, to: map<Id, Receiver>)
      reads registry
    {
      if busy then registry.subscribers == to && registry.inbox == before
      else match pairs.publisher
        case DownloadStream(_) =>
          && registry.subscribers == to
          && registry.Delivered(before, to, Cast(DownloadTaskReceiver, Each([AcceptResponse(Downloading(progress))])))
        case FailPublisher(error) =>
          && registry.subscribers == map[]
          && registry.Delivered(before, to, Cast(DownloadTaskReceiver, Each([AcceptError(DownloadUrlError(error))])))
    }

    /** `demandOutput(using:)`: nothing while a sink or a task is held.
        Otherwise the request goes to the factory and the sink subscribes to
        the pairs' publisher, which answers before `sink` returns, while the
        local cancellable is still nil: a download stream emits
        `.downloading` with its subject's current value, which cancels
        nothing; a `Fail` publisher fails at once, and the finished sink is
        gone when the call returns. */
    method DemandOutputUsing(request: DownloadRequest, pairs: DownloadTaskPairs, progress: Progress)
      requires Valid()
      modifies this, registry
      ensures Valid() && downloadRequest == old(downloadRequest)
      ensures Demanded(request, pairs, old(ongoingRequest), old(ongoingDownloadTask), old(dispatched))
      ensures Answered(old(ongoingRequest) || old(ongoingDownloadTask).Some?, pairs, progress, old(registry.inbox), old(registry.subscribers))
    {
      if ongoingRequest || ongoingDownloadTask.Some? {
        return;
      }
      dispatched := dispatched + [request];
      match pairs.publisher {
        case DownloadStream(_) =>
          DequeueSubscriberIfNeeded(registry, Downloading(progress));
          ongoingRequest := true;
        case FailPublisher(error) =>
          DequeueSubscriberWithError(registry, DownloadUrlError(error));
          ongoingRequest := false;
      }
      ongoingDownloadTask := pairs.task;
    }

    /** `cancelEmitingResumeData()`, with the cancelled task's callback run
        as part of the same step: no task, nothing; no resume data, every
        receiver is terminated; otherwise `.cancelled(resumeData)` is the
        terminal output. */
    method CancelEmitingResumeData(resumeData: Option<Data>)
      requires Valid()
      modifies registry
      ensures Valid()
      ensures old(ongoingDownloadTask).None? ==> registry.subscribers == old(registry.subscribers) && registry.inbox == old(registry.inbox)
      ensures ongoingDownloadTask.Some? ==> registry.subscribers == map[]
      ensures ongoingDownloadTask.Some? && resumeData.None? ==>
                registry.Delivered(old(registry.inbox), old(registry.subscribers), Cast(DownloadTaskReceiver, Each([AcceptTermination])))
      ensures ongoingDownloadTask.Some? && resumeData.Some? ==>
                registry.Delivered(old(registry.inbox), old(registry.subscribers),
                                   Cast(DownloadTaskReceiver, Each([AcceptResponse(DownloadResponseOutput.Cancelled(resumeData.value)), AcceptTermination])))
    {
      if ongoingDownloadTask.None? {
        return;
      }
      match resumeData {
        case None => TerminateAllSubscribers(registry);
        case Some(data) => DequeueSubscriberIfNeeded(registry, DownloadResponseOutput.Cancelled(data));
      }
    }

    /** The sink's `receiveValue` as written, for an output arriving after
        `sink` returned: fan the output out, then cancel the sink whatever
        the output was. A cancelled sink receives nothing. */
    method ReceiveValue(output: DownloadResponseOutput)
      requires Valid()
      modifies this, registry
      ensures Valid() && downloadRequest == old(downloadRequest) && dispatched == old(dispatched)
      ensures ongoingDownloadTask == old(ongoingDownloadTask)
      ensures ongoingRequest == (old(ongoingRequest) && !CancelsSinkAsWritten(output)) && !ongoingRequest
      ensures !old(ongoingRequest) ==> registry.subscribers == old(registry.subscribers) && registry.inbox == old(registry.inbox)
      ensures old(ongoingRequest) ==> Fanned(output, old(registry.inbox), old(registry.subscribers))
    {
      if !ongoingRequest {
        return;
      }
      DequeueSubscriberIfNeeded(registry, output);
      ongoingRequest := false;
    }

    /** The sink's `receiveValue` as intended: the sink is cancelled only
        after a terminal output (`CancelsSink`). */
    method ReceiveValueIntended(output: DownloadResponseOutput)
      requires Valid()
      modifies this, registry
      ensures Valid() && downloadRequest == old(downloadRequest) && dispatched == old(dispatched)
      ensures ongoingDownloadTask == old(ongoingDownloadTask)
      ensures ongoingRequest == (old(ongoingRequest) && !CancelsSink(output))
      ensures !old(ongoingRequest) ==> registry.subscribers == old(registry.subscribers) && registry.inbox == old(registry.inbox)
      ensures old(ongoingRequest) ==> Fanned(output, old(registry.inbox), old(registry.subscribers))
    {
      if !ongoingRequest {
        return;
      }
      DequeueSubscriberIfNeeded(registry, output);
      if CancelsSink(output) {
        ongoingRequest := false;
      }
    }

    /** The receivers `to` got `output` through `dequeueSubscriberIfNeeded`:
        progress as a broadcast, anything else as a terminal fan-out. */
    ghost predicate Fanned(output: DownloadResponseOutput, before: map<Id, seq<Signal<DownloadResponseOutput, DownloadURLError>>>, to: map<Id, Receiver>)
      reads registry
    {
      && registry.subscribers == (if output.Downloading? then to else map[])
      && registry.Delivered(before, to, Cast(DownloadTaskReceiver, Each(
           if output.Downloading? then [AcceptResponse(output)] else [AcceptResponse(output), AcceptTermination])))
    }

    /** The sink's completion: a failure reaches the receivers as
        `.urlError`, `.finished` as the termination, and the sink is
        released. A cancelled sink receives nothing. */
    method ReceiveCompletion(completion: Completion<URLError>)
      requires Valid()
      modifies this, registry
      ensures Valid() && downloadRequest == old(downloadRequest) && dispatched == old(dispatched)
      ensures ongoingDownloadTask == old(ongoingDownloadTask) && !ongoingRequest
      ensures !old(ongoingRequest) ==> registry.subscribers == old(registry.subscribers) && registry.inbox == old(registry.inbox)
      ensures old(ongoingRequest) ==> registry.subscribers == map[]
      ensures old(ongoingRequest) ==> registry.Delivered(old(registry.inbox), old(registry.subscribers), Cast(DownloadTaskReceiver, Each(
                match completion
                case Finished => [AcceptTermination]
                case Failed(e) => [AcceptError(DownloadUrlError(e))])))
    {
      if !ongoingRequest {
        return;
      }
      match completion {
        case Finished => TerminateAllSubscribers(registry);
        case Failed(e) => DequeueSubscriberWithError(registry, DownloadUrlError(e));
      }
      ongoingRequest := false;
    }

    /** The weakly held task was deallocated. */
    method TaskReleased()
      requires Valid()
      modifies this
      ensures Valid() && ongoingDownloadTask.None?
      ensures ongoingRequest == old(ongoingRequest) && downloadRequest == old(downloadRequest) && dispatched == old(dispatched)
    {
      ongoingDownloadTask := None;
    }

    /** As written: with the sink alive, a progress tick, then the download
        result and the stream's `.finished`, leaves every receiver
        registered having seen the progress only: the file never reaches
        them and they are never terminated. The task is still held, so a
        new demand dispatches nothing either. */
    method TickThenResult(p: Progress, file: URL, response: URLResponse)
      requires Valid() && ongoingRequest
      modifies this, registry
      ensures Valid() && !ongoingRequest && ongoingDownloadTask == old(ongoingDownloadTask)
      ensures registry.subscribers == old(registry.subscribers)
      ensures registry.Delivered(old(registry.inbox), old(registry.subscribers), Cast(DownloadTaskReceiver, Each([AcceptResponse(Downloading(p))])))
    {
      ReceiveValue(Downloading(p));
      ReceiveValue(Downloaded(file, response));
      ReceiveCompletion(Finished);
    }

    /** As intended: the same stream reaches every download receiver in
        full, the file then a single termination, and the registry ends
        empty. */
    method TickThenResultIntended(p: Progress, file: URL, response: URLResponse)
      requires Valid() && ongoingRequest
      modifies this, registry
      ensures Valid() && !ongoingRequest && ongoingDownloadTask == old(ongoingDownloadTask)
      ensures registry.subscribers == map[]
      ensures registry.Delivered(old(registry.inbox), old(registry.subscribers), Cast(DownloadTaskReceiver, Each(
                [AcceptResponse(Downloading(p)), AcceptResponse(Downloaded(file, response)), AcceptTermination])))
    {
      ghost var before := registry.inbox;
      ghost var to := registry.subscribers;
      ReceiveValueIntended(Downloading(p));
      ghost var mid := registry.inbox;
      ReceiveValueIntended(Downloaded(file, response));
      ReceiveCompletion(Finished);
      forall id
        ensures InboxOf(registry.inbox, id) == InboxOf(before, id) + (if id in to then Cast(DownloadTaskReceiver, Each(
                  [AcceptResponse(Downloading(p)), AcceptResponse(Downloaded(file, response)), AcceptTermination]))(to[id]) else [])
      {
        assert InboxOf(mid, id) == InboxOf(before, id) + (if id in to then Cast(DownloadTaskReceiver, Each([AcceptResponse(Downloading(p))]))(to[id]) else []);
      }
    }
  }
}
