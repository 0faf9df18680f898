/** What a browser `fetch` call can come back with, as seen by the two client components. */
module Http {
  import Js

  /** What `response.json()` gives: the parsed body, or the message of the SyntaxError it throws. */
  datatype Body = Json(data: Js.Value) | NotJson(message: string)

  /** A rejected fetch (with the message of its error), or a response with a status and a body. */
  datatype Fetch = NetworkFailure(message: string) | Response(status: int, body: Body)

  /** `response.ok`. */
  predicate IsOk(status: int) {
    200 <= status <= 299
  }
}
