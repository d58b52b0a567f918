/** The Foundation and Combine values the pipeline passes around, as plain
    data: requests, responses, transport errors, demand and stream events. */
module Net {
  import opened Wrappers

  type Byte = bv8
  /** `Data` */
  type Data = seq<Byte>
  /** `URL`, reduced to its absolute string. */
  type URL = string

  /** `URLRequest`: only its identity matters here (it is a dictionary key). */
  datatype URLRequest = URLRequest(url: URL, httpMethod: string, headers: seq<(string, string)>, httpBody: Data)

  /** `HTTPURLResponse` */
  datatype HTTPURLResponse = HTTPURLResponse(url: URL, statusCode: int)

  /** `URLResponse`; `as? HTTPURLResponse` succeeds exactly on `HTTP`. */
  datatype URLResponse = HTTP(http: HTTPURLResponse) | NonHTTP(url: URL, mimeType: string)

  /** The `URLError.Code`s the core names, plus every other code by its raw value. */
  datatype URLErrorCode = Cancelled | Unknown | ZeroByteResource | CannotParseResponse | OtherCode(rawValue: int)

  datatype URLError = URLError(code: URLErrorCode)

  /** `(data: Data, response: URLResponse)`, what a data task yields. */
  datatype URLResponseOutput = URLResponseOutput(data: Data, response: URLResponse)

  /** `HTTPURLResponseOutput = (data: Data, response: HTTPURLResponse)` */
  datatype HTTPOutput = HTTPOutput(data: Data, response: HTTPURLResponse)

  /** `DuplicationHandling` */
  datatype DuplicationHandling = AlwaysCreateNew | UseCurrentIfPossible | DropIfDuplicated

  /** `Subscribers.Demand`: `.unlimited` or `.max(n)`; `.none` is `Max(0)`. */
  datatype Demand = Unlimited | Max(n: nat)

  /** `demand > 0` */
  predicate Positive(d: Demand)
  {
    d.Unlimited? || d.n > 0
  }

  /** `Subscribers.Completion<Failure>` */
  datatype Completion<+E> = Finished | Failed(failure: E)

  /** One call a Combine subscriber receives after its subscription:
      `receive(_ input:)` or `receive(completion:)`. */
  datatype Event<+O, +E> = Value(output: O) | Completion(completion: Completion<E>)
}
