/** `HTTPURLError` (with its recursive `statusCode`), the `asHTTPURLError()`
    lifting of an arbitrary Swift `Error`, and `DownloadURLError`. */
module HTTPErrors {
  import opened Wrappers
  import opened Net

  /** A Swift `Error` existential, as far as the core inspects it: it is either
      an `HTTPURLError`, a `URLError`, or something else. */
  datatype AnyError =
    | HTTPError(http: HTTPURLError)
    | URLFailure(url: URLError)
    | OtherError(description: string)

  /** `HTTPURLError`. The first eight cases are the declared ones; the last
      three are the shapes other files construct (`failWhileAdapt(request:
      originalError:)`, `failWhileRetry`, `failToRetry`), which the declaration
      does not list. */
  datatype HTTPURLError =
    | FailProduceFormData(reason: string)
    | FailWhileAdapt(error: AnyError, request: URLRequest, originalError: HTTPURLError)
    | FailToAdapt(reason: string, request: URLRequest, originalError: HTTPURLError)
    | FailDecode(data: Data, response: HTTPURLResponse, decodeError: AnyError)
    | FailValidation(reason: string, data: Data, response: HTTPURLResponse)
    | ExpectHTTPResponse(data: Data, urlResponse: URLResponse)
    | UrlError(urlError: URLError)
    | Error(error: AnyError)
    | FailWhileAdaptRequest(request: URLRequest, thrown: AnyError)
    | FailWhileRetry(error: AnyError, originalError: HTTPURLError)
    | FailToRetry(reason: string, originalError: HTTPURLError)

  /** `DownloadURLError` */
  datatype DownloadURLError =
    | DownloadFailWhileAdapt(request: URLRequest, originalError: AnyError)
    | DownloadUrlError(urlError: URLError)

  /** The status codes of every HTTP response an error carries, itself or
      through any error it wraps. */
  ghost function CarriedStatusCodes(e: HTTPURLError): set<int>
  {
    match e
    case FailWhileAdapt(error, _, originalError) => CarriedStatusCodesOf(error) + CarriedStatusCodes(originalError)
    case FailToAdapt(_, _, originalError) => CarriedStatusCodes(originalError)
    case FailDecode(_, response, decodeError) => {response.statusCode} + CarriedStatusCodesOf(decodeError)
    case FailValidation(_, _, response) => {response.statusCode}
    case ExpectHTTPResponse(_, urlResponse) => if urlResponse.HTTP? then {urlResponse.http.statusCode} else {}
    case Error(error) => CarriedStatusCodesOf(error)
    case FailWhileAdaptRequest(_, thrown) => CarriedStatusCodesOf(thrown)
    case FailWhileRetry(error, originalError) => CarriedStatusCodesOf(error) + CarriedStatusCodes(originalError)
    case FailToRetry(_, originalError) => CarriedStatusCodes(originalError)
    case FailProduceFormData(_) => {}
    case UrlError(_) => {}
  }

  ghost function CarriedStatusCodesOf(e: AnyError): set<int>
  {
    match e
    case HTTPError(http) => CarriedStatusCodes(http)
    case _ => {}
  }

  /** `HTTPURLError.statusCode`. The `failWhileAdapt` case asks the lifted
      inner error first (`error.asHTTPURLError().statusCode`); only an inner
      `HTTPURLError` can answer, so the lifting is unfolded here, and
      StatusCodeOfFailWhileAdapt shows it is the same. Whatever it reports is
      the status code of a response the error really carries. */
  function StatusCode(e: HTTPURLError): (code: Option<int>)
    ensures code.Some? ==> code.value in CarriedStatusCodes(e)
    ensures e.FailValidation? || e.FailDecode? ==> code == Some(e.response.statusCode)
    ensures e.FailToAdapt? ==> code == StatusCode(e.originalError)
    ensures !(e.FailWhileAdapt? || e.FailToAdapt? || e.FailValidation? || e.FailDecode?) ==> code == None
  {
    match e
    case FailWhileAdapt(error, _, originalError) =>
      var lifted := match error
        case HTTPError(http) => StatusCode(http)
        case _ => None;
      OrElse(lifted, StatusCode(originalError))
    case FailToAdapt(_, _, originalError) => StatusCode(originalError)
    case FailValidation(_, _, response) => Some(response.statusCode)
    case FailDecode(_, response, _) => Some(response.statusCode)
    case _ => None
  }

  /** `Error.asHTTPURLError()`: the identity on an `HTTPURLError`, `.urlError`
      around a `URLError`, `.error` around anything else. */
  function AsHTTPURLError(e: AnyError): (h: HTTPURLError)
    ensures e.HTTPError? ==> h == e.http
    ensures e.URLFailure? ==> h == UrlError(e.url)
    ensures e.OtherError? ==> h == Error(e)
  {
    match e
    case HTTPError(http) => http
    case URLFailure(url) => UrlError(url)
    case OtherError(_) => Error(e)
  }

  /** Lifting an already lifted error changes nothing. */
  lemma AsHTTPURLErrorIdempotent(e: AnyError)
    ensures AsHTTPURLError(HTTPError(AsHTTPURLError(e))) == AsHTTPURLError(e)
  {
  }

  /** The `failWhileAdapt` case of `statusCode` as the source writes it:
      the lifted inner error's code if it has one, else the original's. */
  lemma StatusCodeOfFailWhileAdapt(error: AnyError, request: URLRequest, originalError: HTTPURLError)
    ensures StatusCode(FailWhileAdapt(error, request, originalError))
         == OrElse(StatusCode(AsHTTPURLError(error)), StatusCode(originalError))
  {
  }
}
