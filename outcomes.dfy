/**
 * The two optional-value shapes the backend uses: a dictionary lookup that may
 * find nothing (Python's `dict.get` returning `None`) and an operation that may
 * raise instead of returning (modelled as `Fail` carrying the exception text).
 */
module Outcomes {

  datatype Option<+T> = None | Some(value: T)

  datatype Result<+T> = Ok(value: T) | Fail(error: string)
}
