/** `fetchImageAsBinary` (background.js lines 24-46), shared by both requests
    of the background script: as far as its callers can tell, it either
    returns the image or throws an error whose message they report. */
module Fetch {
  import opened Naming

  /** Why `fetchImageAsBinary` threw. */
  datatype FetchError = HttpStatus(status: nat) | NetworkFailure(message: string)

  /** The text before the status code of a response that was not `ok`. */
  const HttpErrorPrefix := "画像の取得に失敗しました: "

  /** The message of the error `fetchImageAsBinary` throws. */
  function FetchErrorMessage(e: FetchError): string
  {
    match e
    case HttpStatus(status) => HttpErrorPrefix + Decimal(status)
    case NetworkFailure(message) => message
  }

  /** For a response that was not `ok` the message is the fixed text followed
      by the status code, printed in decimal, which reads back as that status
      (background.js:36-37); for a rejected fetch it is the rejection's own
      message, rethrown (background.js:42-44). */
  lemma FetchErrorMessageParts(e: FetchError)
    ensures var m := FetchErrorMessage(e);
      && (e.NetworkFailure? ==> m == e.message)
      && (e.HttpStatus? ==>
            && |HttpErrorPrefix| < |m| && m[..|HttpErrorPrefix|] == HttpErrorPrefix
            && Canonical(m[|HttpErrorPrefix|..]) && ParseDecimal(m[|HttpErrorPrefix|..]) == e.status)
  {
    if e.HttpStatus? {
      DecimalRoundTrip(e.status);
      var m := FetchErrorMessage(e);
      assert m[..|HttpErrorPrefix|] == HttpErrorPrefix && m[|HttpErrorPrefix|..] == Decimal(e.status);
    }
  }
}
