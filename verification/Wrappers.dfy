/** Result types shared by the models: a missing value, and an operation that may raise. */
module Wrappers {

  datatype Option<+T> = None | Some(value: T)

  /** The exceptions the modelled operations raise. */
  datatype Error =
    | RecordNotFound
    | TaskConflict
    | ValueError
    | BudgetExhausted
    | ContextBudgetError
    | RerankerFailed
    | Unauthorized

  datatype Result<+T> = Ok(value: T) | Err(error: Error)
}
