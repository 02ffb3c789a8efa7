/** `DataverseApiError`: the exception the client raises for a failed call. */
module ApiErrors {
  import opened Wrappers
  import opened Text
  import opened Http

  /** The four attributes the exception's constructor stores. */
  datatype DataverseApiError = DataverseApiError(
    message: Option<string>,
    url: string,
    statusCode: Option<int>,
    response: Option<Response>)

  /** The part of the rendering that is always present. */
  function Head(e: DataverseApiError): string {
    Show(e.message) + "; URL: " + e.url
  }

  const StatusLabel := "; Status Code: "

  /**
   * `str(e)`: the message and the URL, followed by the status code exactly
   * when one is present.
   */
  function ErrorString(e: DataverseApiError): (s: string)
    ensures StartsWith(s, Head(e))
    ensures s == Head(e) <==> e.statusCode.None?
    ensures e.statusCode.Some? ==> s == Head(e) + StatusLabel + IntToDecimal(e.statusCode.value)
  {
    var base := Head(e);
    if e.statusCode.Some? then base + StatusLabel + IntToDecimal(e.statusCode.value) else base
  }

  /** The status code can be read back from the rendered text. */
  lemma StatusCodeRecoverable(e: DataverseApiError)
    requires e.statusCode.Some?
    ensures var s, n := ErrorString(e), |Head(e) + StatusLabel|;
      n <= |s| && s[..n] == Head(e) + StatusLabel && ParseInt(s[n..]) == e.statusCode.value
  {
    var s, n := ErrorString(e), |Head(e) + StatusLabel|;
    assert s[n..] == IntToDecimal(e.statusCode.value);
    IntToDecimalRoundTrip(e.statusCode.value);
  }
}
