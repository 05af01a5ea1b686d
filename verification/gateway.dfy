/**
 * The HTTP gateway as the components see it. Transport, headers and the
 * bearer token are left out: a request is the verb, the path and the body
 * that would be sent, and the outcome of a call is an input to the model.
 */
module Gateway {
  import opened Js

  datatype Verb = Get | Post | Patch

  /** A request the component issues. */
  datatype Request<+B> = Request(verb: Verb, url: string, body: B)

  /**
   * The settled outcome of a call: `Ok` with the response body, or `Err`
   * with the `error` field of the error response's body when there is one.
   */
  datatype Response<+T> = Ok(data: T) | Err(error: Option<string>)
}
