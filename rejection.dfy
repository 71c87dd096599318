/** The value every thunk hands to `rejectWithValue` when its service call throws. */
module Rejection {

  import opened Wrappers
  import opened JsValues

  /** The part of an HTTP response the thunks read: its body. */
  datatype Response = Response(data: JsValue)

  /** What a failed service call throws: an optional response (absent on a
      network failure) and a message string. */
  datatype ServiceError = ServiceError(response: Option<Response>, message: string)

  /** `error.response?.data || error.message`: the response body when there is
      a response and its body is truthy, otherwise the error's message. */
  function RejectionValue(e: ServiceError): (v: JsValue)
    // a truthy body always wins over the message
    ensures e.response.Some? && Truthy(e.response.value.data) ==> v == e.response.value.data
    // nothing but the body or the message is ever chosen
    ensures v == Str(e.message) || (e.response.Some? && v == e.response.value.data)
    // the value is never nullish: it is truthy, or the empty message
    ensures Truthy(v) || v == Str("")
  {
    var body := if e.response.Some? then e.response.value.data else Undefined;
    if Truthy(body) then body else Str(e.message)
  }

  /** A falsy or missing body never reaches the store: the message replaces it. */
  lemma FalsyBodyFallsBackToMessage(e: ServiceError)
    requires e.response.None? || !Truthy(e.response.value.data)
    ensures RejectionValue(e) == Str(e.message)
  {
  }
}
