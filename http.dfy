/** The abstract HTTP exchange both provider adapters go through. `fetch`,
    JSON parsing and the transport are not modelled: a reply is given as the
    outcome they would have produced. */
module Http {
  import opened Wrappers
  import opened Text

  /** What `response.json().catch(() => ({}))` yields on a non-ok reply:
      the body could not be parsed (the `{}` fallback); it parsed to the JSON
      literal `null`, on which reading `.error` throws; or it parsed to a value
      whose `error?.message` is the (possibly absent) message. */
  datatype ErrorBody = Unparsable | NullJson | ErrorJson(errorMessage: Option<string>)

  /** The TypeError thrown by `errorData.error` when `errorData` is `null`,
      in the wording of V8 (other engines word it differently). It replaces
      the `API error` message entirely. */
  const NullBodyError := "Cannot read properties of null (reading 'error')"

  /** The outcome of one POST: an ok response with its parsed body, a
      non-ok response, or a failure of the transport itself (DNS, reset,
      ...), whose message is passed through unchanged. */
  datatype Reply<B> =
    | Ok(body: B)
    | NotOk(status: nat, statusText: string, errorBody: ErrorBody)
    | NetworkError(reason: string)

  /** What both adapters return when the first reply block is empty. */
  const NoResponseGenerated := "No response generated"

  /** `<vendor> API error: <status> <statusText>`. */
  function StatusLine(vendor: string, status: nat, statusText: string): string {
    vendor + " API error: " + NatToString(status) + " " + statusText
  }

  /** The provider's own message, when the body parsed and carried a non-empty one. */
  function ProviderDetail(errorBody: ErrorBody): Option<string> {
    if errorBody.ErrorJson? && Truthy(errorBody.errorMessage) then errorBody.errorMessage else None
  }

  /** The message of the error a non-ok response raises: the status line,
      followed by ` - <message>` only when the provider's message is there. */
  function ApiErrorMessage(vendor: string, status: nat, statusText: string, errorBody: ErrorBody): (msg: string)
    ensures IsPrefix(StatusLine(vendor, status, statusText), msg)
    ensures ProviderDetail(errorBody).Some? ==>
              msg == StatusLine(vendor, status, statusText) + " - " + ProviderDetail(errorBody).value
    ensures ProviderDetail(errorBody).None? ==> msg == StatusLine(vendor, status, statusText)
  {
    var line := StatusLine(vendor, status, statusText);
    match ProviderDetail(errorBody)
    case Some(m) => assert (line + " - " + m)[..|line|] == line; line + " - " + m
    case None => line
  }

  /** The status code can be read back from the error text. */
  lemma StatusRecoverable(vendor: string, status: nat, statusText: string, errorBody: ErrorBody)
    ensures var msg := ApiErrorMessage(vendor, status, statusText, errorBody);
            var k := |vendor + " API error: "|;
            var digits := NatToString(status);
            OccursAt(digits, msg, k) && ParseDecimal(msg[k..k + |digits|]) == status
  {
    var msg := ApiErrorMessage(vendor, status, statusText, errorBody);
    var head := vendor + " API error: ";
    var digits := NatToString(status);
    var line := StatusLine(vendor, status, statusText);
    assert line == head + digits + " " + statusText;
    assert msg[..|line|] == line;
    assert msg[|head|..|head| + |digits|] == line[|head|..|head| + |digits|];
    assert line[|head|..|head| + |digits|] == digits;
    ParseNatToString(status);
  }
}
