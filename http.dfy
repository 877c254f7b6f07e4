/** What a call to `fetch(url)` followed by `response.json()` can yield.
    The request itself is never performed: callers pass the outcome in. */
module Http {
  import opened Wrappers

  /** `NetworkError`: the `fetch` promise rejected.
      `Response(status, json)`: a response arrived with that HTTP status;
      `json` is the parsed body, or `None` when `response.json()` rejected. */
  datatype Reply<B> = NetworkError | Response(status: int, json: Option<B>)

  /** `response.ok`: the status lies in the range 200-299. */
  predicate IsOk(status: int) {
    200 <= status <= 299
  }

  /** A reply whose status is ok and whose body parsed. */
  predicate Parsed<B>(reply: Reply<B>) {
    reply.Response? && IsOk(reply.status) && reply.json.Some?
  }
}
