/** The admission step both request handlers begin with: decode the
    base64/JSON payload, validate the envelope in the handler's mode, and map
    every failure to a 400 reply `{error: ...}`. */
module Request {
  import opened Js
  import opened ValidateQuery

  const DecodeErrorMsg := "Invalid query. The query must be a valid JSON object encoded as a base64 string."

  /** The `error` text of a 400 reply: a fixed message, or the message of an
      exception caught by the handler (engine text, not modelled). */
  datatype ErrorBody = Message(text: string) | ExceptionMessage

  datatype Admission = Admitted(q: map<string, Json>) | Refused(error: ErrorBody)

  /** `decoded` is the result of decoding the payload: `None` when base64 or
      JSON decoding failed. */
  function Admit(decoded: Option<Json>, mode: Mode): (r: Admission)
    ensures decoded.None? ==> r == Refused(Message(DecodeErrorMsg))
    ensures decoded.Some? ==> (r.Admitted? <==> Accepted(decoded.value, mode))
    ensures r.Admitted? ==>
              && decoded.Some? && Accepted(decoded.value, mode)
              && r.q == decoded.value.fields["q"].fields
              && ModeBody(r.q, mode)
    ensures decoded.Some? && Validate(decoded.value, mode).Reject? ==>
              r == Refused(Message(Validate(decoded.value, mode).msg))
    ensures decoded.Some? && Validate(decoded.value, mode).Throw? ==>
              r == Refused(ExceptionMessage)
  {
    match decoded
    case None => Refused(Message(DecodeErrorMsg))
    case Some(parsed) =>
      match Validate(parsed, mode)
      case Reject(msg) => Refused(Message(msg))
      case Throw => Refused(ExceptionMessage)
      case Success => Admitted(parsed.fields["q"].fields)
  }
}
