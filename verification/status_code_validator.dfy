/** `HTTPStatusCodeValidator` and the `allowed(statusCodes:)` overloads that
    build its list of accepted status codes. */
module StatusCodeValidator {
  import opened Net

  /** `HTTPDataTaskValidation` */
  datatype Validation = ValidResponse | InvalidResponse(reason: string)

  predicate IsDigit(c: char)
  {
    '0' <= c <= '9'
  }

  function DigitChar(d: nat): (c: char)
    requires d < 10
    ensures IsDigit(c) && (c as int) - ('0' as int) == d
  {
    (('0' as int) + d) as char
  }

  /** The decimal digits of a natural number, most significant first. */
  function NatString(n: nat): (s: string)
    ensures |s| >= 1 && forall i :: 0 <= i < |s| ==> IsDigit(s[i])
  {
    if n < 10 then [DigitChar(n)] else NatString(n / 10) + [DigitChar(n % 10)]
  }

  /** Swift's `"\(n)"` for an `Int`: a minus sign for negatives, then digits. */
  function DecimalString(n: int): (s: string)
    ensures |s| >= 1 && (s[0] == '-' <==> n < 0)
    ensures forall i :: (if n < 0 then 1 else 0) <= i < |s| ==> IsDigit(s[i])
  {
    if n < 0 then "-" + NatString(-n) else NatString(n)
  }

  /** Reads the digits back (the inverse of NatString). */
  function ParseNat(s: string): nat
    requires forall i :: 0 <= i < |s| ==> IsDigit(s[i])
  {
    if |s| == 0 then 0 else ParseNat(s[..|s| - 1]) * 10 + DigitValue(s[|s| - 1])
  }

  function DigitValue(c: char): nat
    requires IsDigit(c)
  {
    (c as int) - ('0' as int)
  }

  lemma {:induction false} ParseNatString(n: nat)
    ensures ParseNat(NatString(n)) == n
  {
    if n >= 10 {
      var s := NatString(n);
      assert s[..|s| - 1] == NatString(n / 10);
      ParseNatString(n / 10);
    }
  }

  /** Different numbers are printed differently. */
  lemma DecimalStringInjective(a: int, b: int)
    requires DecimalString(a) == DecimalString(b)
    ensures a == b
  {
    // the first character tells the sign
    if a < 0 {
      assert NatString(-a) == DecimalString(a)[1..] == NatString(-b);
      ParseNatString(-a);
      ParseNatString(-b);
    } else {
      ParseNatString(a);
      ParseNatString(b);
    }
  }

  /** `HTTPStatusCodeValidator.httpDataTaskIsValid(for:response:)`. */
  function HttpDataTaskIsValid(allowedStatusCodes: seq<int>, data: Data, response: HTTPURLResponse): (v: Validation)
    ensures v.ValidResponse? <==> response.statusCode in allowedStatusCodes
    ensures v.InvalidResponse? ==> v.reason == "Unexpected status code: " + DecimalString(response.statusCode)
  {
    if response.statusCode in allowedStatusCodes then ValidResponse
    else InvalidResponse("Unexpected status code: " + DecimalString(response.statusCode))
  }

  /** The verdict looks at the status code only, never at the payload or
      the rest of the response. */
  lemma VerdictDependsOnStatusCodeOnly(allowedStatusCodes: seq<int>, data1: Data, response1: HTTPURLResponse,
                                       data2: Data, response2: HTTPURLResponse)
    requires response1.statusCode == response2.statusCode
    ensures HttpDataTaskIsValid(allowedStatusCodes, data1, response1) == HttpDataTaskIsValid(allowedStatusCodes, data2, response2)
  {
  }

  /** Two rejections with the same reason were rejections of the same code. */
  lemma ReasonIdentifiesStatusCode(allowedStatusCodes: seq<int>, data1: Data, response1: HTTPURLResponse,
                                   data2: Data, response2: HTTPURLResponse)
    requires HttpDataTaskIsValid(allowedStatusCodes, data1, response1).InvalidResponse?
    requires HttpDataTaskIsValid(allowedStatusCodes, data1, response1) == HttpDataTaskIsValid(allowedStatusCodes, data2, response2)
    ensures response1.statusCode == response2.statusCode
  {
    var prefix := "Unexpected status code: ";
    var s1 := prefix + DecimalString(response1.statusCode);
    var s2 := prefix + DecimalString(response2.statusCode);
    assert s1 == s2;
    assert s1[|prefix|..] == DecimalString(response1.statusCode);
    assert s2[|prefix|..] == DecimalString(response2.statusCode);
    DecimalStringInjective(response1.statusCode, response2.statusCode);
  }

  /** `allowed(statusCode:)` builds the one-element list. */
  function AllowedStatusCode(statusCode: int): (codes: seq<int>)
    ensures forall c :: c in codes <==> c == statusCode
  {
    [statusCode]
  }

  /** `Array(lo..<hi)` as `allowed(statusCodes: Range<Int>)` builds it; Swift
      cannot form a `Range` with `lo > hi`. */
  function AllowedStatusCodesInRange(lo: int, hi: int): (codes: seq<int>)
    requires lo <= hi
    decreases hi - lo
    ensures |codes| == hi - lo
    ensures forall i :: 0 <= i < |codes| ==> codes[i] == lo + i
  {
    if lo == hi then [] else [lo] + AllowedStatusCodesInRange(lo + 1, hi)
  }

  /** `Array(lo...hi)` as `allowed(statusCodes: ClosedRange<Int>)` builds it. */
  function AllowedStatusCodesInClosedRange(lo: int, hi: int): (codes: seq<int>)
    requires lo <= hi
    ensures |codes| == hi - lo + 1
    ensures forall i :: 0 <= i < |codes| ==> codes[i] == lo + i
  {
    AllowedStatusCodesInRange(lo, hi + 1)
  }

  /** The `Range` overload accepts exactly `lo <= code < hi`. */
  lemma RangeAcceptsExactly(lo: int, hi: int, data: Data, response: HTTPURLResponse)
    requires lo <= hi
    ensures HttpDataTaskIsValid(AllowedStatusCodesInRange(lo, hi), data, response).ValidResponse?
        <==> lo <= response.statusCode < hi
  {
    var codes := AllowedStatusCodesInRange(lo, hi);
    if lo <= response.statusCode < hi {
      assert codes[response.statusCode - lo] == response.statusCode;
    }
  }

  /** The `ClosedRange` overload accepts exactly `lo <= code <= hi`. */
  lemma ClosedRangeAcceptsExactly(lo: int, hi: int, data: Data, response: HTTPURLResponse)
    requires lo <= hi
    ensures HttpDataTaskIsValid(AllowedStatusCodesInClosedRange(lo, hi), data, response).ValidResponse?
        <==> lo <= response.statusCode <= hi
  {
    RangeAcceptsExactly(lo, hi + 1, data, response);
  }

  /** `allowed(statusCode: c)` behaves as `allowed(statusCodes: [c])`: it
      accepts `c` and nothing else. */
  lemma SingleCodeAcceptsExactly(statusCode: int, data: Data, response: HTTPURLResponse)
    ensures HttpDataTaskIsValid(AllowedStatusCode(statusCode), data, response)
         == HttpDataTaskIsValid([statusCode], data, response)
    ensures HttpDataTaskIsValid(AllowedStatusCode(statusCode), data, response).ValidResponse?
        <==> response.statusCode == statusCode
  {
  }
}
