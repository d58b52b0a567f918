/** `httpResponseOnly()` and `decode(type:decoder:)`: per-event transforms of
    a stream's outputs and failures. */
module PublisherExtensions {
  import opened Wrappers
  import opened Net
  import opened HTTPErrors

  /** The `tryMap` body of `httpResponseOnly`: keep the output when its
      response is an `HTTPURLResponse`, otherwise throw `expectHTTPResponse`. */
  function HttpResponseOnlyOutput(output: URLResponseOutput): (r: Result<HTTPOutput, HTTPURLError>)
    ensures r.Success? <==> output.response.HTTP?
    ensures r.Success? ==> r.value.data == output.data && HTTP(r.value.response) == output.response
    ensures r.Failure? ==> r.error == ExpectHTTPResponse(output.data, output.response)
  {
    match output.response
    case HTTP(http) => Success(HTTPOutput(output.data, http))
    case NonHTTP(_, _) => Failure(ExpectHTTPResponse(output.data, output.response))
  }

  /** `httpResponseOnly()` on one event: a value goes through the `tryMap`,
      a thrown error or an upstream `URLError` becomes a failure after
      `mapErrorToHTTPURLError`, and `.finished` passes through. */
  function HttpResponseOnly(ev: Event<URLResponseOutput, URLError>): (r: Event<HTTPOutput, HTTPURLError>)
    ensures ev.Value? && ev.output.response.HTTP? ==> r == Value(HTTPOutput(ev.output.data, ev.output.response.http))
    ensures ev.Value? && ev.output.response.NonHTTP? ==> r == Completion(Failed(ExpectHTTPResponse(ev.output.data, ev.output.response)))
    ensures ev.Completion? && ev.completion.Failed? ==> r == Completion(Failed(UrlError(ev.completion.failure)))
    ensures ev == Completion(Finished) <==> r == Completion(Finished)
  {
    match ev
    case Value(output) =>
      (match HttpResponseOnlyOutput(output)
       case Success(o) => Value(o)
       case Failure(thrown) => Completion(Failed(AsHTTPURLError(HTTPError(thrown)))))
    case Completion(Finished) => Completion(Finished)
    case Completion(Failed(urlError)) => Completion(Failed(AsHTTPURLError(URLFailure(urlError))))
  }

  /** `DecodedOutput<Decoded> = (decoded: Decoded, response: HTTPURLResponse)` */
  datatype Decoded<+T> = Decoded(decoded: T, response: HTTPURLResponse)

  /** `decode(type:decoder:)` on one event, for a decoder given as a function
      from the payload to a value or a thrown error. */
  function Decode<T>(ev: Event<HTTPOutput, HTTPURLError>, decoder: Data -> Result<T, AnyError>): (r: Event<Decoded<T>, HTTPURLError>)
    ensures ev.Value? && decoder(ev.output.data).Success? ==>
              r == Value(Decoded(decoder(ev.output.data).value, ev.output.response))
    ensures ev.Value? && decoder(ev.output.data).Failure? ==>
              r == Completion(Failed(FailDecode(ev.output.data, ev.output.response, decoder(ev.output.data).error)))
    ensures ev.Completion? ==> r == Completion(ev.completion)
  {
    match ev
    case Value(output) =>
      (match decoder(output.data)
       case Success(value) => Value(Decoded(value, output.response))
       case Failure(decodeError) =>
         Completion(Failed(AsHTTPURLError(HTTPError(FailDecode(output.data, output.response, decodeError))))))
    case Completion(Finished) => Completion(Finished)
    case Completion(Failed(failure)) => Completion(Failed(AsHTTPURLError(HTTPError(failure))))
  }

  /** A decode failure reports the status code of the response it failed on. */
  lemma DecodeFailureKeepsStatusCode<T>(output: HTTPOutput, decoder: Data -> Result<T, AnyError>)
    requires decoder(output.data).Failure?
    ensures var r := Decode(Value(output), decoder);
            r.Completion? && r.completion.Failed? && StatusCode(r.completion.failure) == Some(output.response.statusCode)
  {
  }
}
