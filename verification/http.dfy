/** The outcome of one HTTP exchange, seen from the page that issued it.
    The request itself (URL, headers, payload) is not modelled. */
module Http {
  import opened JsValues

  /** `Success`: a 2xx answer with its parsed body.
      `Failure`: a non-2xx answer, with its parsed body when the server sent one.
      `Thrown`: no usable answer: a network error, or the client threw while
      reading the answer (for instance a 2xx whose body is not valid JSON). */
  datatype Reply<B> =
    | Success(body: B)
    | Failure(errorBody: Option<B>)
    | Thrown

  /** A body nobody reads. */
  datatype Ack = Ack
}
