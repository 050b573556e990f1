/** Failure-carrying values shared by the modules of the model. */
module Wrappers {

  /** A value that may be absent: Python's `None`, a missing dict key or file. */
  datatype Option<+T> = None | Some(value: T)

  /** The result of an endpoint that may raise FastAPI's `HTTPException`:
      `Raised` carries the status code and the detail message. */
  datatype Outcome<+T> = Ok(value: T) | Raised(status: nat, detail: string)
}
