/// Outcome codes the screw builder's components report, and an Option type
/// for values the source leaves unset (null).
module ErrorCodes {

  /** The codes the modelled components assign. A fresh object is taken to
      start at OK; a component assigns another code only on a failure
      path. */
  datatype ErrorCode =
    | OK
    | ArgumentNull
    | ArgumentInvalid
    | EntityDefinitionNull
    | EntityCreateError
    | DoubleValueValidationError

  datatype Option<T> = None | Some(value: T)
}
