/** The HTTP surface the client code sees: what `fetch` can do on one call,
    the request it is given, and the errors the client code throws. The
    network itself is an oracle: each call is answered by a given
    `FetchOutcome`. */
module Fetch {
  import opened Js

  /** Header names to values; later spreads override earlier keys, which is
      exactly map update. */
  type Headers = map<string, string>

  /** A thrown `Error`. The client code only ever looks at its message. */
  datatype Error = Error(message: string)

  /** A call that resolves to a value or rejects with an error. */
  datatype Result<+T> = Ok(value: T) | Err(error: Error)

  /** What `await response.json()` does: yields the parsed body, or rejects
      with the parser's SyntaxError. */
  datatype Body<+T> = Parsed(value: T) | Unparsable(message: string)

  /** What one `await fetch(...)` does: rejects with a network-level TypeError,
      or resolves to a response with a status, a status text and a body. */
  datatype FetchOutcome<+T> =
    | NetworkFailure(message: string)
    | Response(status: nat, statusText: string, body: Body<T>)

  /** `response.ok`: the status is in the range 200-299. */
  predicate IsOk(status: nat) {
    200 <= status <= 299
  }

  /** The request handed to `fetch`: URL, method (GET when the caller gives none), headers
      and body. */
  datatype HttpRequest = HttpRequest(url: string, httpMethod: string, headers: Headers, body: Option<string>)

  /** The `Authorization` header value carrying a bearer credential. */
  function Bearer(token: string): (value: string)
    ensures |value| == |token| + 7 && value[..7] == "Bearer " && value[7..] == token
  {
    "Bearer " + token
  }
}
