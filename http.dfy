/**
 * What the server's handlers answer, and the two pieces of Go's `net/http`
 * they use: `http.Error`, which writes the message and a newline under an
 * error status, and the `POST` method name.
 */
module ServerHttp {
  /** A handler's answer: the status code and the body text. */
  datatype Reply = Reply(status: int, body: string)

  /** `http.MethodPost`. */
  const MethodPost: string := "POST"

  /** Go `http.Error`: the message followed by a newline. */
  function HttpError(status: int, message: string): Reply {
    Reply(status, message + "\n")
  }

  /** A `fetch` response is `ok` for a status in 200-299. */
  predicate IsOk(status: int) {
    200 <= status <= 299
  }
}
