/** Values shared by the HTTP bindings and the command-line layer: optional
    (pointer) inputs, Go-style errors, URL query parameters, requests and the
    client connection, whose transport is an abstract function. */
module Common {

  /** A Go pointer or nil-able value: `None` is nil. */
  datatype Option<+T> = None | Some(value: T)

  /** A Go `error`: a plain message, or a message wrapped around a cause
      (what `errors.Wrap(cause, message)` builds). */
  datatype Error = Failure(message: string) | Wrapped(message: string, cause: Error)

  /** The result of a call that may fail with an error. */
  datatype Result<+T> = Ok(value: T) | Err(error: Error)

  /** `url.Values`: each query key maps to its list of values. */
  type Values = map<string, seq<string>>

  /** `url.Values.Set`: the key now holds exactly the one value, replacing
      whatever it held; every other key is untouched. */
  function SetParam(params: Values, key: string, value: string): (p: Values)
    ensures p.Keys == params.Keys + {key}
    ensures p[key] == [value]
    ensures forall k | k in params && k != key :: p[k] == params[k]
  {
    params[key := [value]]
  }

  datatype HttpMethod = Get | Post

  /** One HTTP request as handed to the transport. */
  datatype Request = Request(verb: HttpMethod, path: string, params: Values)

  /** A client connection (what `bindings.GetClient` yields). Its transport,
      `DoRequest`, is not part of this model: it is the function `doRequest`,
      which answers each request with a response of type R or an error. */
  datatype Conn<R> = Conn(doRequest: Request -> Result<R>)
}
