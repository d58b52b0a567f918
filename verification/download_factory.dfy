/** `URLSession`'s `DownloadTaskPublisherFactory` conformance
    (URLDownloadTaskPublisher/DownloadTaskPublisherFactory.swift): download
    tasks keyed by `DownloadRequest`, each kept in a `WeakDownloadWrapper`
    that drops its task and publisher once the download completes. */
module DownloadTaskFactory {
  import opened Wrappers
  import opened Net
  import opened HTTPErrors
  import DataTaskFactory

  /** Identity of one `URLSessionDownloadTask` (and of the `Future` and
      combined publisher created with it). */
  type TaskId = nat

  /** The download fraction is an opaque payload here: nothing computes
      with it. */
  type Progress = real

  datatype DownloadResponseOutput =
    | Downloading(progress: Progress)
    | Downloaded(file: URL, response: URLResponse)
    | Cancelled(resumeData: Data)

  datatype DownloadRequest = ResumeData(data: Data) | UrlRequest(request: URLRequest)

  /** The publisher half of a `DownloadTaskPairs`: the combined
      future-and-progress publisher of task `task`, or a `Fail` publisher. */
  datatype PairsPublisher = DownloadStream(task: TaskId) | FailPublisher(error: URLError)

  datatype DownloadTaskPairs = Pairs(publisher: PairsPublisher, task: Option<TaskId>)

  /** `DownloadTaskPairs.failedDownloadTask(code:)`. */
  function FailedDownloadTask(code: URLErrorCode): (pairs: DownloadTaskPairs)
    ensures pairs.task.None?
    ensures pairs.publisher == FailPublisher(URLError(code))
  {
    Pairs(FailPublisher(URLError(code)), None)
  }

  /** Which `URLSession` call `downloadTask(for:)` makes. */
  datatype TaskOrigin = WithResumeData(resumeData: Data) | WithRequest(urlRequest: URLRequest)

  /** `downloadTask(for:)`: resume data resumes, a request starts afresh. */
  function DownloadTaskFor(request: DownloadRequest): (origin: TaskOrigin)
    ensures request.ResumeData? <==> origin.WithResumeData?
    ensures origin.WithResumeData? ==> origin.resumeData == request.data
    ensures origin.WithRequest? ==> origin.urlRequest == request.request
  {
    match request
    case ResumeData(data) => WithResumeData(data)
    case UrlRequest(urlRequest) => WithRequest(urlRequest)
  }

  /** The download request a task origin was made from. */
  function RequestOf(origin: TaskOrigin): DownloadRequest
  {
    match origin
    case WithResumeData(data) => ResumeData(data)
    case WithRequest(urlRequest) => UrlRequest(urlRequest)
  }

  /** Different download requests start different kinds of task, or the
      same kind from different inputs. */
  lemma DownloadTaskForInjective(a: DownloadRequest, b: DownloadRequest)
    ensures RequestOf(DownloadTaskFor(a)) == a
    ensures DownloadTaskFor(a) == DownloadTaskFor(b) ==> a == b
  {
    assert RequestOf(DownloadTaskFor(b)) == b;
  }

  /** What the download's `Future` is fulfilled with. */
  datatype DownloadedFile = DownloadedFile(file: URL, response: URLResponse)

  /** The download task's completion handler as the promise sees it: an
      error, then a missing file, then a missing response, in that order. */
  function ClassifyDownload(fileUrl: Option<URL>, response: Option<URLResponse>, error: Option<AnyError>): (r: Result<DownloadedFile, URLError>)
    ensures r.Success? <==> error.None? && fileUrl.Some? && response.Some?
    ensures r.Success? ==> r.value == DownloadedFile(fileUrl.value, response.value)
    ensures error.Some? ==> r == Failure(DataTaskFactory.AsUrlError(error.value))
    ensures error.None? && fileUrl.None? ==> r == Failure(URLError(ZeroByteResource))
    ensures error.None? && fileUrl.Some? && response.None? ==> r == Failure(URLError(CannotParseResponse))
  {
    if error.Some? then Failure(DataTaskFactory.AsUrlError(error.value))
    else if fileUrl.None? then Failure(URLError(ZeroByteResource))
    else if response.None? then Failure(URLError(CannotParseResponse))
    else Success(DownloadedFile(fileUrl.value, response.value))
  }

  /** The `map` over the latest (result, progress) pair: progress until the
      future has a result, then the downloaded file whatever the progress. */
  function MapOutput(result: Option<DownloadedFile>, progress: Progress): (output: DownloadResponseOutput)
    ensures output.Downloading? <==> result.None?
    ensures output.Downloading? ==> output.progress == progress
    ensures output.Downloaded? ==> output.file == result.value.file && output.response == result.value.response
    ensures !output.Cancelled?
  {
    match result
    case None => Downloading(progress)
    case Some(downloaded) => Downloaded(downloaded.file, downloaded.response)
  }

  /** `WeakDownloadWrapper`: strong references to the task, its future, the
      progress observation and the combined publisher, until completion. */
  class WeakDownloadWrapper {
    var downloadTask: Option<TaskId>
    var future: Option<TaskId>
    var observing: bool
    var publisher: Option<PairsPublisher>
    /** The current value of the `CurrentValueSubject` fed by the progress
        observation. */
    var progress: Progress

    /** `downloadTaskPairs`: present only while both the publisher and the
        task are held. */
    function DownloadTaskPairs(): (pairs: Option<DownloadTaskPairs>)
      reads this
      ensures pairs.Some? <==> publisher.Some? && downloadTask.Some?
      ensures pairs.Some? ==> pairs.value.publisher == publisher.value && pairs.value.task == downloadTask
    {
      if publisher.Some? && downloadTask.Some? then Some(Pairs(publisher.value, downloadTask))
      else None
    }

    /** What a new subscriber to the pairs' publisher receives while it is
        subscribing: `CombineLatest` pairs the prepended nil with the
        subject's current value. Nothing once the pairs are gone. */
    function FirstOutput(): Option<DownloadResponseOutput>
      reads this
    {
      if DownloadTaskPairs().Some? then Some(MapOutput(None, progress)) else None
    }

    /** `init(downloadTask:future:)`: everything is held, the combined
        publisher is built over the task's future, and the progress subject
        starts at 0, so the first subscriber first sees `.downloading(0)`. */
    constructor (task: TaskId)
      ensures downloadTask == Some(task) && future == Some(task) && observing
      ensures publisher == Some(DownloadStream(task)) && progress == 0.0
      ensures DownloadTaskPairs() == Some(Pairs(DownloadStream(task), Some(task)))
      ensures FirstOutput() == Some(Downloading(0.0))
    {
      downloadTask := Some(task);
      future := Some(task);
      observing := true;
      publisher := Some(DownloadStream(task));
      progress := 0.0;
    }

    /** The key-value observation of `fractionCompleted`: while observing,
        the subject takes the new fraction, so a subscriber joining later
        first sees `.downloading(fraction)` rather than 0. Once released,
        nothing is observed. */
    method ReportProgress(fraction: Progress)
      modifies this
      ensures downloadTask == old(downloadTask) && future == old(future)
      ensures observing == old(observing) && publisher == old(publisher)
      ensures progress == if old(observing) then fraction else old(progress)
      ensures old(observing) && DownloadTaskPairs().Some? ==> FirstOutput() == Some(Downloading(fraction))
    {
      if observing {
        progress := fraction;
      }
    }

    /** The `autoRelease` sink firing on the future's completion. */
    method AutoRelease()
      modifies this
      ensures downloadTask.None? && future.None? && !observing && publisher.None?
      ensures progress == old(progress)
      ensures DownloadTaskPairs().None? && FirstOutput().None?
    {
      publisher := None;
      downloadTask := None;
      future := None;
      observing := false;
    }
  }

  /** The `ongoingDownload` table associated with one `URLSession`. */
  class DownloadTaskCache {
    var ongoingDownload: map<DownloadRequest, WeakDownloadWrapper>
    /** Tasks are numbered in creation order. */
    var nextTask: TaskId
    /** What each created task was started from. */
    ghost var started: seq<TaskOrigin>

    /** A task still held under a key was started for that very key. */
    ghost predicate Valid()
      reads this, ongoingDownload.Values
    {
      && |started| == nextTask
      && forall r | r in ongoingDownload && ongoingDownload[r].downloadTask.Some? ::
           ongoingDownload[r].downloadTask.value < nextTask
           && started[ongoingDownload[r].downloadTask.value] == DownloadTaskFor(r)
    }

    /** `ongoingDownload[request]?.downloadTaskPairs`. */
    function Current(request: DownloadRequest): Option<DownloadTaskPairs>
      reads this, ongoingDownload.Values
    {
      if request in ongoingDownload then ongoingDownload[request].DownloadTaskPairs() else None
    }

    constructor ()
      ensures Valid() && ongoingDownload == map[] && nextTask == 0 && started == []
    {
      ongoingDownload := map[];
      nextTask := 0;
      started := [];
    }

    /** A fresh wrapper for a task started from `request` now sits under
        `request`, observing progress from 0, and its pairs were returned;
        all other keys are as before. */
    ghost predicate Started(pairs: DownloadTaskPairs, request: DownloadRequest,
                            table: map<DownloadRequest, WeakDownloadWrapper>, next: TaskId, log: seq<TaskOrigin>)
      reads this, ongoingDownload.Values
    {
      && pairs == Pairs(DownloadStream(next), Some(next))
      && request in ongoingDownload && ongoingDownload == table[request := ongoingDownload[request]]
      && Current(request) == Some(pairs)
      && ongoingDownload[request].observing && ongoingDownload[request].FirstOutput() == Some(Downloading(0.0))
      && nextTask == next + 1
      && started == log + [DownloadTaskFor(request)]
    }

    /** Nothing in the table or the counters moved. */
    ghost predicate Unchanged(table: map<DownloadRequest, WeakDownloadWrapper>, next: TaskId, log: seq<TaskOrigin>)
      reads this
    {
      ongoingDownload == table && nextTask == next && started == log
    }

    /** `anyDownloadTaskPublisherPairs(for:duplicationHandling:)`. */
    method AnyDownloadTaskPublisherPairs(request: DownloadRequest, duplicationHandling: DuplicationHandling) returns (pairs: DownloadTaskPairs)
      requires Valid()
      modifies this
      ensures Valid()
      ensures duplicationHandling == UseCurrentIfPossible && old(Current(request)).Some? ==>
                pairs == old(Current(request)).value && Unchanged(old(ongoingDownload), old(nextTask), old(started))
      ensures duplicationHandling == DropIfDuplicated && old(Current(request)).Some? ==>
                pairs == FailedDownloadTask(URLErrorCode.Cancelled) && Unchanged(old(ongoingDownload), old(nextTask), old(started))
      ensures duplicationHandling == AlwaysCreateNew || old(Current(request)).None? ==>
                Started(pairs, request, old(ongoingDownload), old(nextTask), old(started)) && fresh(ongoingDownload[request])
    {
      match duplicationHandling {
        case UseCurrentIfPossible =>
          pairs := GetPublisher(request);
          return;
        case DropIfDuplicated =>
          if Current(request).Some? {
            return FailedDownloadTask(URLErrorCode.Cancelled);
          }
        case AlwaysCreateNew =>
      }
      pairs := CreateNewPublisher(request);
    }

    /** `getPublisher(of:)`. */
    method GetPublisher(request: DownloadRequest) returns (pairs: DownloadTaskPairs)
      requires Valid()
      modifies this
      ensures Valid()
      ensures old(Current(request)).Some? ==>
                pairs == old(Current(request)).value && Unchanged(old(ongoingDownload), old(nextTask), old(started))
      ensures old(Current(request)).None? ==>
                Started(pairs, request, old(ongoingDownload), old(nextTask), old(started)) && fresh(ongoingDownload[request])
    {
      var current := Current(request);
      if current.None? {
        pairs := CreateNewPublisher(request);
        return;
      }
      pairs := current.value;
    }

    /** `createNewPublisher(for:)`: the `Future`'s closure runs at once, so
        the task exists when the guard looks; the new wrapper is stored under
        the request and its pairs returned. */
    method CreateNewPublisher(request: DownloadRequest) returns (pairs: DownloadTaskPairs)
      requires Valid()
      modifies this
      ensures Valid()
      ensures Started(pairs, request, old(ongoingDownload), old(nextTask), old(started)) && fresh(ongoingDownload[request])
    {
      var task := nextTask;
      started := started + [DownloadTaskFor(request)];
      nextTask := nextTask + 1;
      var wrapper := new WeakDownloadWrapper(task);
      ongoingDownload := ongoingDownload[request := wrapper];
      var held := wrapper.DownloadTaskPairs();
      pairs := if held.Some? then held.value else FailedDownloadTask(Unknown);
    }

    /** The future of `wrapper` completed: its `autoRelease` drops
        everything, so every key that holds it now counts as absent. */
    method Complete(wrapper: WeakDownloadWrapper)
      requires Valid()
      modifies wrapper
      ensures Valid()
      ensures forall r :: r in ongoingDownload && ongoingDownload[r] == wrapper ==> Current(r).None?
      ensures forall r :: r in ongoingDownload && ongoingDownload[r] != wrapper ==> Current(r) == old(Current(r))
    {
      wrapper.AutoRelease();
    }
  }

  /** After the download completes, the next `.useCurrentIfPossible` demand
      for the same request starts a new task. */
  method FreshAfterCompletion(cache: DownloadTaskCache, request: DownloadRequest) returns (first: DownloadTaskPairs, second: DownloadTaskPairs)
    requires cache.Valid()
    modifies cache, cache.ongoingDownload.Values
    ensures first.task.Some? && second.task.Some? && first.task != second.task
    ensures second.task.value < |cache.started| && cache.started[second.task.value] == DownloadTaskFor(request)
  {
    first := cache.AnyDownloadTaskPublisherPairs(request, AlwaysCreateNew);
    cache.Complete(cache.ongoingDownload[request]);
    second := cache.AnyDownloadTaskPublisherPairs(request, UseCurrentIfPossible);
  }

  /** A `.useCurrentIfPossible` subscriber that joins a running download
      shares its pairs, and what it sees first is the current progress, not
      0. */
  method SharedAfterProgress(cache: DownloadTaskCache, request: DownloadRequest, fraction: Progress)
      returns (first: DownloadTaskPairs, second: DownloadTaskPairs)
    requires cache.Valid()
    modifies cache, cache.ongoingDownload.Values
    ensures cache.Valid() && second == first
    ensures request in cache.ongoingDownload && cache.ongoingDownload[request].FirstOutput() == Some(Downloading(fraction))
  {
    first := cache.AnyDownloadTaskPublisherPairs(request, AlwaysCreateNew);
    var wrapper := cache.ongoingDownload[request];
    wrapper.ReportProgress(fraction);
    second := cache.AnyDownloadTaskPublisherPairs(request, UseCurrentIfPossible);
  }
}
