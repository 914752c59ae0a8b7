/** The errors of the noplane.io client; every error that is not one of the two
    typed ones is alike to the controller. */
module Errors {

  datatype Error = ConflictError(name: string) | NotFoundError(id: string) | PlainError

  datatype Result<+T> = Ok(value: T) | Err(error: Error)

  predicate IsConflict<T>(r: Result<T>) {
    r.Err? && r.error.ConflictError?
  }

  predicate IsNotFound<T>(r: Result<T>) {
    r.Err? && r.error.NotFoundError?
  }
}
