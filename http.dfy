/** The few pieces of the JavaScript runtime and of the Fetch standard that
    the content client relies on: truthiness, `String.prototype.startsWith`,
    request headers, `Response.ok` and a transport that may throw. */
module Http {
  import opened Wrappers

  /** JavaScript truthiness of a value typed `string | undefined | null`:
      `undefined`, `null` (both `None`) and `""` are falsy. */
  predicate Truthy(s: Option<string>) {
    s.Some? && s.value != ""
  }

  /** `s.startsWith(p)`: `p` is a prefix of `s`. */
  predicate StartsWith(s: string, p: string) {
    p <= s
  }

  /** `s.endsWith(p)`: `p` is a suffix of `s`. */
  predicate EndsWith(s: string, p: string) {
    |p| <= |s| && s[|s| - |p|..] == p
  }

  /** A header dictionary, name to value. */
  type Headers = map<string, string>

  /** What is handed to `fetch(url, { headers })`. */
  datatype Request = Request(url: string, headers: Headers)

  /** A response as the client sees it. `json` is what `await response.json()`
      yields: the parsed body (opaque to the client), or the message of the
      error it throws. */
  datatype Response<B> = Response(status: int, statusText: string, json: Result<B, string>)
  {
    /** `response.ok`: the status is in the range 200-299. */
    predicate Ok() {
      200 <= status <= 299
    }
  }

  /** What `await fetch(...)` produces: a response, or the error it throws
      (network or transport failure). */
  datatype Transport<B> = Delivered(response: Response<B>) | Thrown(cause: string)
}
