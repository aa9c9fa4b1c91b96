/** The client's view of HTTP: a thrown JavaScript `Error`, a request header, and a `fetch`
    response reduced to its status class and the outcome of `response.json()`. */
module Http {
  import opened Wrappers

  /** A thrown JavaScript `Error`; only its `message` is observed by the callers. */
  datatype Error = Error(message: string)

  /** One request header, as the object `{ [name]: value }` spread into `headers`. */
  datatype Header = Header(name: string, value: string)

  /** The result of `response.json()`: the parser rejects with a syntax error, or yields a value
      together with its top-level `message` property (None when absent). A body whose `message` is
      present but not a string, and a JSON `null` body, are not modelled.
      `message` is the one authoritative reading of the body's `message`: the typed `value` of a
      body that came with a non-2xx status is never read, so a `message` field inside it has no
      effect. */
  datatype Body<T> = Unparseable(syntaxMessage: string) | Parsed(value: T, message: Option<string>)

  /** A `fetch` response: `ok` is true for a 2xx status. */
  datatype HttpResponse<T> = HttpResponse(ok: bool, body: Body<T>)
}
