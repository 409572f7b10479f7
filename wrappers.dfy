/** Shared wrappers used by every module of the model. */
module Wrappers {

  /** An optional value: JavaScript's `null`/`undefined` versus a present value. */
  datatype Option<+T> = None | Some(value: T) {
    function GetOr(default: T): T {
      match this
      case Some(v) => v
      case None => default
    }
  }

  /** JavaScript truthiness of an optional string: present and not empty. */
  predicate Truthy(v: Option<string>) { v.Some? && v.value != [] }

  /** JavaScript truthiness of an optional number: present and not zero. */
  predicate TruthyInt(v: Option<int>) { v.Some? && v.value != 0 }

  /** The outcome of a request handler: a value or an HTTP error (`createError`). */
  datatype Result<+T> = Ok(value: T) | Err(error: HttpError)

  /** An HTTP error raised with a status code and message. */
  datatype HttpError = HttpError(statusCode: nat, message: string)

  /**
   * What a remote call gives back once the network is abstracted away:
   * a decoded body (`response.ok`), a non-ok status, or a thrown exception.
   */
  datatype Fetched<+T> = Body(body: T) | NotOk | Thrown(message: string)

  /** The body of an ok response; `None` for a non-ok one (a throw never gets this far). */
  function BodyOf<T>(f: Fetched<T>): (r: Option<T>)
    ensures r.Some? <==> f.Body?
    ensures f.Body? ==> r.value == f.body
  {
    if f.Body? then Some(f.body) else None
  }

  /** An exception no handler code catches: h3 answers it with status 500. */
  function Unhandled(message: string): (e: HttpError)
    ensures e.statusCode == 500
  {
    HttpError(500, message)
  }

  /** What `$fetch` does: the decoded body, or a throw (with its message when it is an `Error`). */
  datatype Outcome<+T> = Done(value: T) | Raised(message: Option<string>)
}
