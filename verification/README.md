# HTTPTaskPublisher in Dafny

A model of the request pipeline of HTTPTaskPublisher, a Swift library that
wraps `URLSession` data and download tasks in Combine publishers. The model
covers:

- the subscriber registry every publisher and stage keeps (`AtomicSubscribeable`
  and the `HTTPDataTaskSubscribable` helpers) and the subscriptions that act
  as its receivers;
- both generations of `HTTPDataTaskPublisher` and the `URLDownloadTaskPublisher`:
  registration, the optional adapter, the single ongoing-request slot, and the
  mapping of upstream values, failures and completions to receiver calls;
- the session-wide deduplication caches behind `anyDataTaskPublisher` and
  `anyDownloadTaskPublisherPairs`, with their three `DuplicationHandling`
  policies and the completion classification of the transport callbacks;
- the `HTTPRetry` and `HTTPValid` stages, `HTTPAdapt.send(request:)`, and the
  demand loop of the sender-based `HTTPDataTaskSubscription`;
- the `HTTPURLError` algebra (`statusCode`, `asHTTPURLError`), `httpResponseOnly`,
  `decode` and the status-code validator.

Each callback the library schedules on its actor, queue or `Task` is one
atomic method. Whatever comes from outside is a parameter: the transport's
answer, the adapter's or retrier's answer (a `Result` for "returned or
threw"), the decoder, the factory's returned pairs. The calls each receiver
gets are recorded in a ghost inbox per receiver id (`Registry.inbox`), and
the requests a publisher hands to its factory in a ghost `dispatched` log.
Weak references become explicit release methods.

Files: `wrappers.dfy` (Option, Result), `net.dfy` (Foundation and Combine
values), `errors.dfy`, `extensions.dfy`, `status_code_validator.dfy`,
`subscribers.dfy`, `demand_subscription.dfy`, `base_publisher.dfy`,
`data_task_publisher.dfy`, `data_task_factory.dfy`, `download_factory.dfy`,
`download_publisher.dfy`, `retry.dfy`, `valid.dfy`, `adapt.dfy`,
`sender_subscription.dfy`.

The files come from different revisions of the library. The model uses one
`HTTPURLError` type holding every case shape the files build:
- the declared cases;
- `failWhileAdapt(request:originalError:)`, used by `HTTPAdapt` and both data
  publishers, as `FailWhileAdaptRequest`;
- `failWhileRetry` and `failToRetry`, used by `HTTPRetry`.

`statusCode` reports nil for the three cases it does not list, as its
`default` branch does. `DownloadURLError` is a separate type.

The model follows the code, also where it departs from its documentation or
from its evident intent:
- `URLDownloadTaskPublisher` is modelled as written, with both of its faults
  (see "## Findings"): `DemandOutputFrom` dispatches the unadapted request and
  `ReceiveValue` cancels the sink after every value. The `…Intended` methods
  beside them carry the corrected behaviour.
- `cancel()` on a subscription only drops the subscription's own references.
  The publisher keeps the receiver registered until the next terminal fan-out.
- `isWaitingUpstream` is reset but never set to true by `HTTPRetry` or
  `HTTPValid`. So every demand from a receiver asks upstream again while a
  subscription is held. The model does not claim that demand is coalesced.

## Model

| member | source | states |
|---|---|---|
| HTTPErrors.StatusCode | HTTPTaskPublisher/Classes/Base/HTTPURLError.swift:23-34 | `failValidation`/`failDecode` report the carried response's code; `failToAdapt` reports its original error's code; other listed cases report nil; any reported code belongs to a response the error carries |
| HTTPErrors.StatusCodeOfFailWhileAdapt | HTTPTaskPublisher/Classes/Base/HTTPURLError.swift:25-26 | `failWhileAdapt` reports the lifted inner error's code if it has one, else the original error's |
| HTTPErrors.AsHTTPURLError | HTTPTaskPublisher/Classes/Base/HTTPURLError.swift:38-46 | identity on an `HTTPURLError`, `.urlError` for a `URLError`, `.error` otherwise |
| HTTPErrors.AsHTTPURLErrorIdempotent | HTTPTaskPublisher/Classes/Base/HTTPURLError.swift:39-40 | lifting twice equals lifting once |
| PublisherExtensions.HttpResponseOnlyOutput | HTTPTaskPublisher/Classes/Extensions/Publisher+Extensions.swift:14-18 | succeeds exactly for an HTTP response, with identical data; otherwise `expectHTTPResponse(data, response)` |
| PublisherExtensions.HttpResponseOnly | HTTPTaskPublisher/Classes/Extensions/Publisher+Extensions.swift:13-22 | values as above; a `URLError` failure becomes `.urlError` with the same error; `.finished` maps to `.finished` and nothing else does |
| PublisherExtensions.Decode | HTTPTaskPublisher/Classes/Extensions/Publisher+Extensions.swift:29-40 | a decoded value is paired with the unchanged response; a decoder failure is `failDecode` with the input data and response; completions pass through unchanged |
| PublisherExtensions.DecodeFailureKeepsStatusCode | HTTPTaskPublisher/Classes/Extensions/Publisher+Extensions.swift:34-36 | a decode failure's `statusCode` is the response's status code |
| StatusCodeValidator.HttpDataTaskIsValid | HTTPTaskPublisher/Classes/Validator/HTTPStatusCodeValidator.swift:17-21 | valid iff the status code is in the allowed list; otherwise the reason is "Unexpected status code: " followed by the code in decimal |
| StatusCodeValidator.NatString | HTTPTaskPublisher/Classes/Validator/HTTPStatusCodeValidator.swift:20 | the decimal digits of a natural number: at least one character, all digits |
| StatusCodeValidator.ParseNatString | HTTPTaskPublisher/Classes/Validator/HTTPStatusCodeValidator.swift:20 | reading the digits back gives the number, so the rendering loses nothing |
| StatusCodeValidator.DecimalString | HTTPTaskPublisher/Classes/Validator/HTTPStatusCodeValidator.swift:20 | `"\(statusCode)"`: a leading minus exactly for negative codes, digits after it |
| StatusCodeValidator.DecimalStringInjective | HTTPTaskPublisher/Classes/Validator/HTTPStatusCodeValidator.swift:20 | different codes render as different strings |
| StatusCodeValidator.VerdictDependsOnStatusCodeOnly | HTTPTaskPublisher/Classes/Validator/HTTPStatusCodeValidator.swift:17-21 | two responses with the same status code get the same verdict, whatever the data |
| StatusCodeValidator.ReasonIdentifiesStatusCode | HTTPTaskPublisher/Classes/Validator/HTTPStatusCodeValidator.swift:20 | equal rejection reasons mean equal status codes |
| StatusCodeValidator.AllowedStatusCode | HTTPTaskPublisher/Classes/Validator/HTTPStatusCodeValidator.swift:32-34 | the single-code list holds exactly that code |
| StatusCodeValidator.SingleCodeAcceptsExactly | HTTPTaskPublisher/Classes/Validator/HTTPStatusCodeValidator.swift:32-34 | `allowed(statusCode: c)` accepts exactly `c` |
| StatusCodeValidator.AllowedStatusCodesInRange | HTTPTaskPublisher/Classes/Validator/HTTPStatusCodeValidator.swift:40-42 | `Array(lo..<hi)` is `lo, lo+1, …, hi-1` |
| StatusCodeValidator.RangeAcceptsExactly | HTTPTaskPublisher/Classes/Validator/HTTPStatusCodeValidator.swift:40-42 | the `Range` overload accepts exactly `lo <= c < hi` |
| StatusCodeValidator.AllowedStatusCodesInClosedRange | HTTPTaskPublisher/Classes/Validator/HTTPStatusCodeValidator.swift:44-46 | `Array(lo...hi)` is `lo, …, hi` |
| StatusCodeValidator.ClosedRangeAcceptsExactly | HTTPTaskPublisher/Classes/Validator/HTTPStatusCodeValidator.swift:44-46 | the `ClosedRange` overload accepts exactly `lo <= c <= hi` |
| Subscribers.TerminalSignals | HTTPTaskPublisher/Classes/Base/HTTPDataTaskPublisher.swift:31-57 | a value gives response then termination; a failure gives the error alone; `.finished` gives the termination alone; only the last call ends the stream |
| Subscribers.Registry.constructor | HTTPTaskPublisher/Classes/HTTPDataTaskPublisher/HTTPDataTaskPublisher.swift:38 | starts with no receivers and nothing delivered |
| Subscribers.Registry.Register | HTTPTaskPublisher/Classes/Base/HTTPDataTaskPublisher.swift:89 | stores the receiver under its identifier, replacing an entry with the same id, delivering nothing |
| Subscribers.Registry.DeliverAll | HTTPTaskPublisher/Classes/Models/AtomicSubscribeable.swift:36 | each receiver of the snapshot gets the action's calls once; the registry is untouched |
| Subscribers.Registry.ForEachSubscriber | HTTPTaskPublisher/Classes/Models/AtomicSubscribeable.swift:19-23 | every registered receiver gets the action's calls once; the registry is unchanged |
| Subscribers.Registry.ForEachSubscriberCasting | HTTPTaskPublisher/Classes/Models/AtomicSubscribeable.swift:25-30 | as above, but receivers of another kind get nothing |
| Subscribers.Registry.DequeueAllSubscriber | HTTPTaskPublisher/Classes/Models/AtomicSubscribeable.swift:32-38 | the registry ends empty and each receiver present at the call gets the action's calls once |
| Subscribers.Registry.DequeueAllSubscriberCasting | HTTPTaskPublisher/Classes/Models/AtomicSubscribeable.swift:40-45 | the registry ends empty, including receivers that did not cast, and only those that cast get calls |
| PublisherSubscription.AsEvents | HTTPTaskPublisher/Classes/Base/HTTPDataTaskPublisher.swift:146-159 | one subscriber event per receiver call, in order |
| PublisherSubscription.AsEventsAppend | HTTPTaskPublisher/Classes/Base/HTTPDataTaskPublisher.swift:146-159 | the events of a longer call sequence extend those of the shorter one |
| PublisherSubscription.TerminalFanOutObservedAs | HTTPTaskPublisher/Classes/Base/HTTPDataTaskPublisher.swift:31-57 | after a terminal fan-out the subscriber observes exactly the upstream event, plus `.finished` after a value |
| PublisherSubscription.DemandSubscription.constructor | HTTPTaskPublisher/Classes/Base/HTTPDataTaskPublisher.swift:132-135 | holds both the publisher and the subscriber |
| PublisherSubscription.DemandSubscription.Request | HTTPTaskPublisher/Classes/Base/HTTPDataTaskPublisher.swift:137-139 | reaches the publisher, as this receiver, exactly while the publisher is held |
| PublisherSubscription.DemandSubscription.Cancel | HTTPTaskPublisher/Classes/Base/HTTPDataTaskPublisher.swift:141-144 | drops both references; nothing is delivered |
| PublisherSubscription.DemandSubscription.AcceptResponse | HTTPTaskPublisher/Classes/Base/HTTPDataTaskPublisher.swift:146-149 | the subscriber gets the value only while held |
| PublisherSubscription.DemandSubscription.AcceptError | HTTPTaskPublisher/Classes/Base/HTTPDataTaskPublisher.swift:151-154 | the subscriber gets the failure only while held |
| PublisherSubscription.DemandSubscription.AcceptTermination | HTTPTaskPublisher/Classes/Base/HTTPDataTaskPublisher.swift:156-159 | the subscriber gets `.finished` only while held |
| PublisherSubscription.DemandSubscription.Accept | HTTPTaskPublisher/Classes/Base/HTTPDataTaskPublisher.swift:146-159 | a sequence of calls reaches the subscriber in order, or not at all after cancel |
| BaseDataTask.DequeueSubscriberWithResponse | HTTPTaskPublisher/Classes/Base/HTTPDataTaskPublisher.swift:31-39 | registry emptied; every receiver gets the response, then the termination |
| BaseDataTask.DequeueSubscriberWithError | HTTPTaskPublisher/Classes/Base/HTTPDataTaskPublisher.swift:41-48 | registry emptied; every receiver gets the error only |
| BaseDataTask.TerminateAllSubscribers | HTTPTaskPublisher/Classes/Base/HTTPDataTaskPublisher.swift:50-57 | registry emptied; every receiver gets the termination only |
| BaseDataTask.DequeueSubscriberWithEvent | HTTPTaskPublisher/Classes/Base/HTTPDataTaskPublisher.swift:110-121 | the helper chosen for an event delivers exactly that event's terminal calls |
| BaseDataTask.Preflight | HTTPTaskPublisher/Classes/Base/HTTPDataTaskPublisher.swift:90-99 | without an adapter the stored request is dispatched; with one, the adapted request; an adapter throw becomes `failWhileAdapt(request: stored request, thrown)` |
| BaseDataTask.HTTPDataTaskPublisher.constructor | HTTPTaskPublisher/Classes/Base/HTTPDataTaskPublisher.swift:75-80 | no receivers, no ongoing request |
| BaseDataTask.HTTPDataTaskPublisher.DemandOutputFrom | HTTPTaskPublisher/Classes/Base/HTTPDataTaskPublisher.swift:87-101 | registers the receiver, then dispatches per `Preflight`; on an adapter throw every receiver, the new one included, gets the error, the registry is emptied and nothing is dispatched |
| BaseDataTask.HTTPDataTaskPublisher.DemandOutputUsing | HTTPTaskPublisher/Classes/Base/HTTPDataTaskPublisher.swift:103-123 | dispatches only when no request is ongoing, so at most one is outstanding |
| BaseDataTask.HTTPDataTaskPublisher.Receive | HTTPTaskPublisher/Classes/Base/HTTPDataTaskPublisher.swift:107-121 | the `httpResponseOnly` image of the upstream event is fanned out terminally; the ongoing slot is freed |
| DataTask.DequeueSubscriberWithResponse | HTTPTaskPublisher/Classes/HTTPDataTaskPublisher/HTTPDataTaskPublisher.swift:129-134 | registry emptied; each data task receiver gets response then termination |
| DataTask.DequeueSubscriberWithError | HTTPTaskPublisher/Classes/HTTPDataTaskPublisher/HTTPDataTaskPublisher.swift:136-140 | registry emptied; each data task receiver gets the error only |
| DataTask.TerminateAllSubscribers | HTTPTaskPublisher/Classes/HTTPDataTaskPublisher/HTTPDataTaskPublisher.swift:142-146 | registry emptied; each data task receiver gets the termination only |
| DataTask.FanOutReachesDataTaskReceiversOnly | HTTPTaskPublisher/Classes/HTTPDataTaskPublisher/HTTPDataTaskPublisher.swift:129-146 | a data task receiver's inbox grows by the terminal calls; any other receiver's is unchanged |
| DataTask.HTTPDataTaskPublisher.constructor | HTTPTaskPublisher/Classes/HTTPDataTaskPublisher/HTTPDataTaskPublisher.swift:40-45 | no receivers, no ongoing request |
| DataTask.HTTPDataTaskPublisher.DemandOutputFrom | HTTPTaskPublisher/Classes/HTTPDataTaskPublisher/HTTPDataTaskPublisher.swift:52-66 | registers first, then dispatches per `Preflight` or fans out `failWhileAdapt` to the data task receivers |
| DataTask.HTTPDataTaskPublisher.DemandOutputUsing | HTTPTaskPublisher/Classes/HTTPDataTaskPublisher/HTTPDataTaskPublisher.swift:68-87 | a second demand while a request is ongoing starts nothing |
| DataTask.HTTPDataTaskPublisher.Receive | HTTPTaskPublisher/Classes/HTTPDataTaskPublisher/HTTPDataTaskPublisher.swift:71-85 | value: response and termination; failure: `.urlError` only; `.finished`: termination only; registry emptied, slot freed |
| DataTaskFactory.AsUrlError | HTTPTaskPublisher/Classes/HTTPDataTaskPublisher/DataTaskPublisherFactory.swift:73-79 | keeps a `URLError`, anything else becomes `.unknown` |
| DataTaskFactory.ClassifyDataTaskCompletion | HTTPTaskPublisher/Classes/HTTPDataTaskPublisher/DataTaskPublisherFactory.swift:55-65 | success exactly when there is no error and both data and response, with those values; an error wins; otherwise `.zeroByteResource` |
| DataTaskFactory.FutureEvents | HTTPTaskPublisher/Classes/HTTPDataTaskPublisher/DataTaskPublisherFactory.swift:54-67 | a fulfilled future publishes the value then `.finished`, or the failure alone |
| DataTaskFactory.DroppedFuture | HTTPTaskPublisher/Classes/HTTPDataTaskPublisher/DataTaskPublisherFactory.swift:37-38 | the `.dropIfDuplicated` future: its subscribers see a `.cancelled` failure and nothing else |
| DataTaskFactory.DataTaskCache.Live | HTTPTaskPublisher/Classes/HTTPDataTaskPublisher/DataTaskPublisherFactory.swift:47 | a found future is the table's entry for that request |
| DataTaskFactory.DataTaskCache.constructor | HTTPTaskPublisher/Classes/HTTPDataTaskPublisher/DataTaskPublisherFactory.swift:23-30 | an absent table reads as empty |
| DataTaskFactory.DataTaskCache.AnyDataTaskPublisher | HTTPTaskPublisher/Classes/HTTPDataTaskPublisher/DataTaskPublisherFactory.swift:32-44 | `useCurrentIfPossible` with a live entry shares it and creates nothing; `dropIfDuplicated` with a live entry fails with `.cancelled` and changes nothing; otherwise a new future starts a task and overwrites the entry; every live entry's future was started for its key |
| DataTaskFactory.DataTaskCache.GetPublisher | HTTPTaskPublisher/Classes/HTTPDataTaskPublisher/DataTaskPublisherFactory.swift:46-51 | the live future if any, else a new one stored under the request |
| DataTaskFactory.DataTaskCache.CreateNewPublisher | HTTPTaskPublisher/Classes/HTTPDataTaskPublisher/DataTaskPublisherFactory.swift:53-70 | starts one task for the request and stores the new future under it |
| DataTaskFactory.DataTaskCache.Release | HTTPTaskPublisher/Classes/Models/WeakFutureWrapper.swift:12 | a released future reads as absent everywhere; other entries are untouched |
| DataTaskFactory.SharedWhileAlive | HTTPTaskPublisher/Classes/HTTPDataTaskPublisher/DataTaskPublisherFactory.swift:34-35 | two `useCurrentIfPossible` demands return one future and start at most one task |
| DataTaskFactory.DroppedWhileAlive | HTTPTaskPublisher/Classes/HTTPDataTaskPublisher/DataTaskPublisherFactory.swift:36-39 | a `dropIfDuplicated` demand while an identical future lives fails with `.cancelled` and starts no task |
| DownloadTaskFactory.FailedDownloadTask | HTTPTaskPublisher/Classes/URLDownloadTaskPublisher/DownloadTaskPublisherFactory.swift:26-28 | a `Fail` publisher with that code and no task |
| DownloadTaskFactory.DownloadTaskFor | HTTPTaskPublisher/Classes/URLDownloadTaskPublisher/DownloadTaskPublisherFactory.swift:97-104 | resume data resumes, a request starts afresh |
| DownloadTaskFactory.DownloadTaskForInjective | HTTPTaskPublisher/Classes/URLDownloadTaskPublisher/DownloadTaskPublisherFactory.swift:97-104 | the task origin determines the download request |
| DownloadTaskFactory.ClassifyDownload | HTTPTaskPublisher/Classes/URLDownloadTaskPublisher/DownloadTaskPublisherFactory.swift:73-86 | checks an error, then a missing file (`.zeroByteResource`), then a missing response (`.cannotParseResponse`); success exactly otherwise |
| DownloadTaskFactory.MapOutput | HTTPTaskPublisher/Classes/URLDownloadTaskPublisher/DownloadTaskPublisherFactory.swift:130-135 | `.downloading(progress)` exactly while there is no result; then `.downloaded(file, response)`; never `.cancelled` |
| DownloadTaskFactory.WeakDownloadWrapper.DownloadTaskPairs | HTTPTaskPublisher/Classes/URLDownloadTaskPublisher/DownloadTaskPublisherFactory.swift:114-117 | present exactly while both publisher and task are held |
| DownloadTaskFactory.WeakDownloadWrapper.constructor | HTTPTaskPublisher/Classes/URLDownloadTaskPublisher/DownloadTaskPublisherFactory.swift:119-139 | holds task, future, observation and publisher, so its pairs are present; the progress subject starts at 0, so a first subscriber first sees `.downloading(0)` |
| DownloadTaskFactory.WeakDownloadWrapper.ReportProgress | HTTPTaskPublisher/Classes/URLDownloadTaskPublisher/DownloadTaskPublisherFactory.swift:123-125 | while observing, the subject takes the new fraction, and a subscriber joining now first sees `.downloading(fraction)`; after release nothing changes |
| DownloadTaskFactory.WeakDownloadWrapper.AutoRelease | HTTPTaskPublisher/Classes/URLDownloadTaskPublisher/DownloadTaskPublisherFactory.swift:141-151 | all four references dropped, so the pairs are absent and a new subscriber gets nothing |
| DownloadTaskFactory.DownloadTaskCache.constructor | HTTPTaskPublisher/Classes/URLDownloadTaskPublisher/DownloadTaskPublisherFactory.swift:40-47 | an absent table reads as empty |
| DownloadTaskFactory.DownloadTaskCache.AnyDownloadTaskPublisherPairs | HTTPTaskPublisher/Classes/URLDownloadTaskPublisher/DownloadTaskPublisherFactory.swift:49-61 | `useCurrentIfPossible` returns the stored pairs if present; `dropIfDuplicated` with stored pairs returns `failedDownloadTask(.cancelled)`; otherwise a new wrapper is stored and its pairs returned; a held task was started for its key |
| DownloadTaskFactory.DownloadTaskCache.GetPublisher | HTTPTaskPublisher/Classes/URLDownloadTaskPublisher/DownloadTaskPublisherFactory.swift:63-68 | stored pairs if present, else new ones |
| DownloadTaskFactory.DownloadTaskCache.CreateNewPublisher | HTTPTaskPublisher/Classes/URLDownloadTaskPublisher/DownloadTaskPublisherFactory.swift:70-95 | starts one task from the request's origin, stores a fresh wrapper that observes progress from 0 under the key, and returns its pairs |
| DownloadTaskFactory.DownloadTaskCache.Complete | HTTPTaskPublisher/Classes/URLDownloadTaskPublisher/DownloadTaskPublisherFactory.swift:141-151 | after completion every key holding that wrapper reads as absent; the others are unchanged |
| DownloadTaskFactory.FreshAfterCompletion | HTTPTaskPublisher/Classes/URLDownloadTaskPublisher/DownloadTaskPublisherFactory.swift:63-68 | after a completion the next identical demand starts a new task from the same origin |
| DownloadTaskFactory.SharedAfterProgress | HTTPTaskPublisher/Classes/URLDownloadTaskPublisher/DownloadTaskPublisherFactory.swift:122-129 | a `useCurrentIfPossible` subscriber joining a running download shares its pairs and first sees the current progress, not 0 |
| DownloadTask.DequeueSubscriberIfNeeded | HTTPTaskPublisher/Classes/URLDownloadTaskPublisher/URLDownloadTaskPublisher.swift:145-157 | progress is broadcast and the registry kept; any other output is sent with the termination and the registry emptied; download receivers only |
| DownloadTask.DequeueSubscriberWithError | HTTPTaskPublisher/Classes/URLDownloadTaskPublisher/URLDownloadTaskPublisher.swift:159-163 | registry emptied; each download receiver gets the error only |
| DownloadTask.TerminateAllSubscribers | HTTPTaskPublisher/Classes/URLDownloadTaskPublisher/URLDownloadTaskPublisher.swift:165-169 | registry emptied; each download receiver gets the termination only |
| DownloadTask.DownloadPreflightAsWritten | HTTPTaskPublisher/Classes/URLDownloadTaskPublisher/URLDownloadTaskPublisher.swift:53-69 | resume data bypasses the adapter; after a successful adaptation the original request is dispatched |
| DownloadTask.AdaptedRequestIgnoredAsWritten | HTTPTaskPublisher/Classes/URLDownloadTaskPublisher/URLDownloadTaskPublisher.swift:63-64 | a rewriting adapter does not change what is downloaded |
| DownloadTask.DownloadPreflight | HTTPTaskPublisher/Classes/URLDownloadTaskPublisher/URLDownloadTaskPublisher.swift:53-69 | resume data bypasses the adapter; the adapted request is dispatched; an adapter throw becomes `failWhileAdapt(request, thrown)` |
| DownloadTask.PreflightsAgreeOffAdaptation | HTTPTaskPublisher/Classes/URLDownloadTaskPublisher/URLDownloadTaskPublisher.swift:53-69 | the two differ only after a successful adaptation |
| DownloadTask.CancelsSinkAsWritten | HTTPTaskPublisher/Classes/URLDownloadTaskPublisher/URLDownloadTaskPublisher.swift:98-99 | as written, every value cancels the sink |
| DownloadTask.CancelsSink | HTTPTaskPublisher/Classes/URLDownloadTaskPublisher/URLDownloadTaskPublisher.swift:96-99 | as intended, exactly `.downloaded` and `.cancelled` cancel the sink |
| DownloadTask.Forwarded | HTTPTaskPublisher/Classes/URLDownloadTaskPublisher/URLDownloadTaskPublisher.swift:96-100 | the sink passes on a prefix of the outputs that stops right after the first cancelling one |
| DownloadTask.ProgressHidesDownloadAsWritten | HTTPTaskPublisher/Classes/URLDownloadTaskPublisher/URLDownloadTaskPublisher.swift:96-100 | as written, a progress tick cuts the stream before `.downloaded` |
| DownloadTask.ForwardedUpToTerminal | HTTPTaskPublisher/Classes/URLDownloadTaskPublisher/URLDownloadTaskPublisher.swift:96-100 | as intended, every output up to and including the first terminal one is passed on |
| DownloadTask.ForwardedAllProgress | HTTPTaskPublisher/Classes/URLDownloadTaskPublisher/URLDownloadTaskPublisher.swift:96-100 | as intended, progress alone never closes the sink |
| DownloadTask.URLDownloadTaskPublisher.constructor | HTTPTaskPublisher/Classes/URLDownloadTaskPublisher/URLDownloadTaskPublisher.swift:39-44 | no receivers, no ongoing request or task |
| DownloadTask.URLDownloadTaskPublisher.DemandOutputFrom | HTTPTaskPublisher/Classes/URLDownloadTaskPublisher/URLDownloadTaskPublisher.swift:51-70 | registers, then follows `DownloadPreflightAsWritten`: after a successful adaptation the unadapted request is dispatched; an adapter throw fans out `failWhileAdapt` and empties the registry |
| DownloadTask.URLDownloadTaskPublisher.DemandOutputFromIntended | HTTPTaskPublisher/Classes/URLDownloadTaskPublisher/URLDownloadTaskPublisher.swift:51-70 | the same through `DownloadPreflight`: after a successful adaptation the adapted request is dispatched |
| DownloadTask.URLDownloadTaskPublisher.FollowStep | HTTPTaskPublisher/Classes/URLDownloadTaskPublisher/URLDownloadTaskPublisher.swift:53-68 | after registration, a dispatch step goes through `demandOutput(using:)` and an adapter failure is a terminal error fan-out |
| DownloadTask.URLDownloadTaskPublisher.DemandOutputUsing | HTTPTaskPublisher/Classes/URLDownloadTaskPublisher/URLDownloadTaskPublisher.swift:83-103 | nothing while either the sink or the task is held; otherwise dispatches and holds the pairs' task, and the publisher's synchronous answer reaches the receivers: a stream's current progress as a broadcast with the sink kept, a `Fail` publisher's `.urlError` as a terminal fan-out with the sink gone |
| DownloadTask.URLDownloadTaskPublisher.CancelEmitingResumeData | HTTPTaskPublisher/Classes/URLDownloadTaskPublisher/URLDownloadTaskPublisher.swift:72-81 | no task: nothing; no resume data: everyone terminated; resume data: `.cancelled(data)` then termination |
| DownloadTask.URLDownloadTaskPublisher.ReceiveValue | HTTPTaskPublisher/Classes/URLDownloadTaskPublisher/URLDownloadTaskPublisher.swift:96-99 | as written: with the sink alive the output is fanned out per `dequeueSubscriberIfNeeded` and the sink is then cancelled whatever the output; a cancelled sink receives nothing |
| DownloadTask.URLDownloadTaskPublisher.ReceiveValueIntended | HTTPTaskPublisher/Classes/URLDownloadTaskPublisher/URLDownloadTaskPublisher.swift:96-99 | as intended: the same fan-out, but the sink ends only after a terminal output |
| DownloadTask.URLDownloadTaskPublisher.ReceiveCompletion | HTTPTaskPublisher/Classes/URLDownloadTaskPublisher/URLDownloadTaskPublisher.swift:89-95 | with the sink alive, a failure reaches receivers as `.urlError` and `.finished` as termination, the registry is emptied and the sink released; a cancelled sink receives nothing |
| DownloadTask.URLDownloadTaskPublisher.TaskReleased | HTTPTaskPublisher/Classes/URLDownloadTaskPublisher/URLDownloadTaskPublisher.swift:36 | the weakly held task reads nil; nothing else changes |
| DownloadTask.URLDownloadTaskPublisher.TickThenResult | HTTPTaskPublisher/Classes/URLDownloadTaskPublisher/URLDownloadTaskPublisher.swift:96-99 | as written, progress then the file then `.finished` leaves every receiver registered having seen the progress only, never the file or a termination, with the task still blocking new demand |
| DownloadTask.URLDownloadTaskPublisher.TickThenResultIntended | HTTPTaskPublisher/Classes/URLDownloadTaskPublisher/URLDownloadTaskPublisher.swift:96-99 | as intended, the same stream gives each download receiver progress, the file and one termination, and empties the registry |
| Retry.RetryActionFor | HTTPTaskPublisher/Classes/Retrier/HTTPRetry.swift:79-91 | `.retry` asks upstream again; `.drop` fails with the original failure; `.dropWithReason(r)` with `failToRetry(r, failure)`; a throw with `failWhileRetry(error, failure)` |
| Retry.FailAllKeepsOriginalFailure | HTTPTaskPublisher/Classes/Retrier/HTTPRetry.swift:55-60 | the error sent to receivers is the failure itself or wraps it as `originalError` |
| Retry.HTTPRetry.constructor | HTTPTaskPublisher/Classes/Retrier/HTTPRetry.swift:27-31 | no subscription, not waiting, no receivers |
| Retry.HTTPRetry.DemandToUpstreamIfNeeded | HTTPTaskPublisher/Classes/Retrier/HTTPRetry.swift:93-99 | one item is requested exactly when not waiting and subscribed |
| Retry.HTTPRetry.ReceiveSubscription | HTTPTaskPublisher/Classes/Retrier/HTTPRetry.swift:42-47 | stores the subscription, then demands if not waiting |
| Retry.HTTPRetry.DemandOutputFrom | HTTPTaskPublisher/Classes/Retrier/HTTPRetry.swift:73-77 | registers the receiver, then demands if needed |
| Retry.HTTPRetry.ReceiveInput | HTTPTaskPublisher/Classes/Retrier/HTTPRetry.swift:65-71 | success and termination to every receiver; retrier not consulted; returns `.none` |
| Retry.HTTPRetry.TryToRetry | HTTPTaskPublisher/Classes/Retrier/HTTPRetry.swift:79-91 | carries out `RetryActionFor`: a retry keeps every receiver registered and requests one item |
| Retry.HTTPRetry.ReceiveCompletion | HTTPTaskPublisher/Classes/Retrier/HTTPRetry.swift:49-63 | `.finished` terminates every receiver without the retrier; a failure is handed to the retrier once and its answer decides |
| Validate.ValidationOutcome | HTTPTaskPublisher/Classes/Validator/HTTPValid.swift:57-63 | valid: the same data and response; invalid: `failValidation(reason, data, response)` |
| Validate.StatusCodeValidationOutcome | HTTPTaskPublisher/Classes/Validator/HTTPValid.swift:57-63 | behind the status-code validator a response passes iff its code is allowed, and a rejection's `statusCode` is the rejected code |
| Validate.HTTPValid.constructor | HTTPTaskPublisher/Classes/Validator/HTTPValid.swift:25-28 | no subscription, not waiting, no receivers |
| Validate.HTTPValid.DemandToUpstreamIfNeeded | HTTPTaskPublisher/Classes/Validator/HTTPValid.swift:74-80 | one item is requested exactly when not waiting and subscribed |
| Validate.HTTPValid.ReceiveSubscription | HTTPTaskPublisher/Classes/Validator/HTTPValid.swift:35-40 | stores the subscription, then demands if not waiting |
| Validate.HTTPValid.DemandOutputFrom | HTTPTaskPublisher/Classes/Validator/HTTPValid.swift:68-72 | registers the receiver, then demands if needed |
| Validate.HTTPValid.ReceiveInput | HTTPTaskPublisher/Classes/Validator/HTTPValid.swift:54-66 | the validator runs exactly once on the value and its `ValidationOutcome` is fanned out terminally |
| Validate.HTTPValid.ReceiveCompletion | HTTPTaskPublisher/Classes/Validator/HTTPValid.swift:42-52 | the completion is passed on unchanged without the validator |
| Adapt.Rethrown | HTTPTaskPublisher/Classes/Adapter/HTTPAdapt.swift:37-41 | an `HTTPURLError` is rethrown as is; anything else becomes `failWhileAdapt(request, error)` |
| Adapt.Send | HTTPTaskPublisher/Classes/Adapter/HTTPAdapt.swift:33-43 | the sender gets exactly the adapted request, and is never called when the adapter throws; success returns the sender's response unchanged |
| Adapt.SendFailureNamesOriginalRequest | HTTPTaskPublisher/Classes/Adapter/HTTPAdapt.swift:37-40 | a wrapped failure names the original request and the thrown error, whichever step threw |
| Adapt.RethrownSurvivesLifting | HTTPTaskPublisher/Classes/Base/HTTPDataTaskSubscription.swift:46-47 | the demand loop's `asHTTPURLError()` passes the stage's error through unchanged |
| SenderSubscription.Consumed | HTTPTaskPublisher/Classes/Base/HTTPDataTaskSubscription.swift:37-49 | the loop never sends more often than it gets answers |
| SenderSubscription.Run | HTTPTaskPublisher/Classes/Base/HTTPDataTaskSubscription.swift:23-49 | demand 0 gives `.finished` alone; otherwise one event per send, plus at most one completion |
| SenderSubscription.RunDeliversEachSend | HTTPTaskPublisher/Classes/Base/HTTPDataTaskSubscription.swift:39-47 | the k-th event is the k-th send's output, or its lifted error; only the last event can end the stream |
| SenderSubscription.FailureStopsTheLoop | HTTPTaskPublisher/Classes/Base/HTTPDataTaskSubscription.swift:46-47 | a send error is delivered once, as the last event, and nothing after it is sent |
| SenderSubscription.RunUnfolds | HTTPTaskPublisher/Classes/Base/HTTPDataTaskSubscription.swift:39-45 | a successful round re-requests with the subscriber's returned demand |
| SenderSubscription.HTTPDataTaskSubscription.constructor | HTTPTaskPublisher/Classes/Base/HTTPDataTaskSubscription.swift:18-21 | the subscriber is held |
| SenderSubscription.HTTPDataTaskSubscription.Cancel | HTTPTaskPublisher/Classes/Base/HTTPDataTaskSubscription.swift:33-35 | only the subscriber is dropped; nothing is sent |
| SenderSubscription.HTTPDataTaskSubscription.Request | HTTPTaskPublisher/Classes/Base/HTTPDataTaskSubscription.swift:23-31 | after cancel nothing is delivered or sent; otherwise the subscriber receives `Run` and the sender is called `Consumed` times |

## Left out

- Transport I/O: `dataTask`, `downloadTask`, `resume()` and the completion callbacks. Their answers are parameters, and the tasks a cache starts go into a ghost log.
- The associated-object storage of the caches (`objc_getAssociatedObject`). The tables are plain fields.
- KVO itself: `WeakDownloadWrapper.ReportProgress` is the observation's callback, called with the new fraction. A progress value is an opaque `real` that nothing computes with.
- Concurrency: `Task {}`, the global actor, the barrier queue and interleavings between callbacks. Each callback is one atomic step.
- The asynchronous gap between an adapter call and its answer. An adapter's answer is a parameter of the step that asks for it.
- Combine internals: `Future`, `CombineLatest`, `prepend`, `sink`, `AnyCancellable`, `eraseToAnyPublisher`. Only what they deliver is modelled (`FutureEvents`, `MapOutput`, `WeakDownloadWrapper.FirstOutput`). No publisher is composed with the stage above it, so `URLDownloadTaskPublisher.DemandOutputUsing` takes the subject's current progress as an argument.
- ARC. Weak references become explicit methods: `DataTaskCache.Release`, `DownloadTaskCache.Complete`, `URLDownloadTaskPublisher.TaskReleased`. A sink released after its completion is the `ongoingRequest` flag going false.
- The retry delay (`Task.sleep`). A retry requests upstream at once.
- JSON decoding. The decoder is an abstract function.
- `HTTPAdapt.urlRequest`: it only forwards the wrapped sender's request.
- `HTTPDataTaskAdaptation`. Nothing consumes it.
- The closure wrappers, the interceptor, `URLSession+Extensions.swift`, `String+Extensions.swift` and `Base/DataTaskPublisherFactory.swift`. They are one-line forwarders.
- The `failedDownloadTask(.unknown)` fallbacks of `createNewPublisher` (lines 91 and 94). `Future` runs its closure at once, so the task exists and a new wrapper's pairs are present. The model shows the second fallback is never taken.
- `DownloadTaskCache.CreateNewPublisher`: the task identity doubles as the identity of its future and publisher.
- `DemandSubscription.Request`: the demand value is ignored, as in the source. The model only says whether the publisher is reached.

## Findings

| source | as written | input that shows it | evidently intended | confidence | as-written member | corrected member |
|---|---|---|---|---|---|---|
| HTTPTaskPublisher/Classes/URLDownloadTaskPublisher/URLDownloadTaskPublisher.swift:63-64 | the adapted request is computed and then unused; `.urlRequest(urlRequest)` is dispatched | an adapter that changes the URL of request `r` to `r'`: the download still fetches `r` | dispatch `.urlRequest(adaptedRequest)`, as the data publishers do | not executed; high | DownloadTask.DownloadPreflightAsWritten, DownloadTask.AdaptedRequestIgnoredAsWritten, DownloadTask.URLDownloadTaskPublisher.DemandOutputFrom | DownloadTask.DownloadPreflight, DownloadTask.URLDownloadTaskPublisher.DemandOutputFromIntended |
| HTTPTaskPublisher/Classes/URLDownloadTaskPublisher/URLDownloadTaskPublisher.swift:96-100 | `receiveValue` cancels the sink after every value, progress included | outputs `.downloading(p)` then `.downloaded(f, r)` after `sink` returned: the receivers get the progress, never the file, and are never terminated | cancel only after a terminal output, since `dequeueSubscriberIfNeeded` keeps receivers registered for progress | not executed; medium | DownloadTask.CancelsSinkAsWritten, DownloadTask.ProgressHidesDownloadAsWritten, DownloadTask.URLDownloadTaskPublisher.ReceiveValue, DownloadTask.URLDownloadTaskPublisher.TickThenResult | DownloadTask.CancelsSink, DownloadTask.ForwardedUpToTerminal, DownloadTask.URLDownloadTaskPublisher.ReceiveValueIntended, DownloadTask.URLDownloadTaskPublisher.TickThenResultIntended |
