/** `URLSession.HTTPAdapt.send(request:)` (Adapter/HTTPAdapt.swift): adapt
    the request, send the adapted request through the wrapped sender, and
    wrap whatever either step throws. */
module Adapt {
  import opened Wrappers
  import opened Net
  import opened HTTPErrors

  /** The `catch` of `send(request:)`: an `HTTPURLError` is rethrown as it
      is; anything else becomes `failWhileAdapt` with the request the stage
      was given. */
  function Rethrown(request: URLRequest, thrown: AnyError): (e: HTTPURLError)
    ensures thrown.HTTPError? ==> e == thrown.http
    ensures !thrown.HTTPError? ==> e == FailWhileAdaptRequest(request, thrown)
  {
    match thrown
    case HTTPError(http) => http
    case _ => FailWhileAdaptRequest(request, thrown)
  }

  /** One `send(request:)`: the request the wrapped sender received, if it
      was called, and what the stage returned or threw. */
  datatype AdaptSend = AdaptSend(sentRequest: Option<URLRequest>, result: Result<HTTPOutput, HTTPURLError>)

  /** `adaptation` is what `httpDataTaskAdapt(for: request)` returned or
      threw; `sender` is the wrapped sender's answer for each request. */
  function Send(request: URLRequest, adaptation: Result<URLRequest, AnyError>,
                sender: URLRequest -> Result<HTTPOutput, AnyError>): (out: AdaptSend)
    ensures out.sentRequest.Some? <==> adaptation.Success?
    ensures out.sentRequest.Some? ==> out.sentRequest.value == adaptation.value
    ensures out.result.Success? <==> adaptation.Success? && sender(adaptation.value).Success?
    ensures out.result.Success? ==> out.result.value == sender(adaptation.value).value
  {
    match adaptation
    case Failure(thrown) => AdaptSend(None, Failure(Rethrown(request, thrown)))
    case Success(adapted) =>
      (match sender(adapted)
       case Success(output) => AdaptSend(Some(adapted), Success(output))
       case Failure(thrown) => AdaptSend(Some(adapted), Failure(Rethrown(request, thrown))))
  }

  /** Every failure of the stage is the thrown `HTTPURLError` itself, or
      `failWhileAdapt` naming the ORIGINAL request (never the adapted one)
      and the thrown error, whichever of the two steps threw. */
  lemma SendFailureNamesOriginalRequest(request: URLRequest, adaptation: Result<URLRequest, AnyError>,
                                       sender: URLRequest -> Result<HTTPOutput, AnyError>)
    requires Send(request, adaptation, sender).result.Failure?
    ensures var thrown := if adaptation.Failure? then adaptation.error else sender(adaptation.value).error;
            var e := Send(request, adaptation, sender).result.error;
            (thrown.HTTPError? ==> e == thrown.http)
            && (!thrown.HTTPError? ==> e.FailWhileAdaptRequest? && e.request == request && e.thrown == thrown)
  {
  }

  /** Thrown into the demand loop, which lifts with `asHTTPURLError()`, the
      stage's error reaches the subscriber unchanged. */
  lemma RethrownSurvivesLifting(request: URLRequest, thrown: AnyError)
    ensures AsHTTPURLError(HTTPError(Rethrown(request, thrown))) == Rethrown(request, thrown)
  {
  }
}
