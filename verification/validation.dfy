/** The checks at the start of `handleRequest` on the decoded request body. */
module Validation {
  import opened Wrappers
  import opened Http
  import Format

  /** `MAX_URLS`: the largest batch the service accepts. */
  const MaxUrls: nat := 20

  const WrongBodyFormat := "wrong body format"
  const UrlsRequired := "array of urls required"

  /** `fmt.Sprintf("the maximum number of URLs allowed %v", MAX_URLS)`. */
  function TooManyUrls(): string {
    "the maximum number of URLs allowed " + Format.Decimal(MaxUrls)
  }

  /**
   Validates the decoded body; `None` means JSON decoding failed. The checks
   run in order: decoding, then too many URLs, then an empty list.
   */
  function Validate(decoded: Option<seq<string>>): (r: Result<seq<string>, ErrorData>)
    ensures r.Success? <==> decoded.Some? && 1 <= |decoded.value| <= MaxUrls
    ensures r.Success? ==> r.value == decoded.value
    ensures r.Failure? ==> r.error.statusCode == 400
    ensures decoded.None? ==> r.error.message == "wrong body format"
    ensures decoded.Some? && |decoded.value| > MaxUrls ==>
              r.error.message == "the maximum number of URLs allowed 20"
    ensures decoded.Some? && |decoded.value| == 0 ==> r.error.message == "array of urls required"
  {
    match decoded
    case None => Failure(ErrorData(WrongBodyFormat, StatusBadRequest))
    case Some(urls) =>
      if |urls| > MaxUrls then Failure(ErrorData(TooManyUrls(), StatusBadRequest))
      else if |urls| == 0 then Failure(ErrorData(UrlsRequired, StatusBadRequest))
      else Success(urls)
  }

  /**
   A rejection names its cause: two rejected bodies that receive the same
   error failed for the same reason (undecodable, too many URLs, or none).
   */
  lemma RejectionsDistinct(d1: Option<seq<string>>, d2: Option<seq<string>>)
    requires Validate(d1).Failure? && Validate(d2).Failure?
    requires Validate(d1).error == Validate(d2).error
    ensures d1.None? <==> d2.None?
    ensures d1.Some? && d2.Some? ==> (|d1.value| == 0 <==> |d2.value| == 0)
  {
    assert WrongBodyFormat[0] != TooManyUrls()[0];
    assert WrongBodyFormat[0] != UrlsRequired[0];
    assert TooManyUrls()[0] != UrlsRequired[0];
  }
}
