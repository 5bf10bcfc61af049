/** Failure-compatible result types shared by every module of the model.
    The source signals failure by throwing an `Error`; the model returns `Err`
    with the reason instead. */
module Results {

  datatype Option<+T> = None | Some(value: T)

  /** Why an operation of the source throws (or, for `DivisionNotModelled`,
      produces a value outside the model). */
  datatype Error =
    | UnboundReference(name: string)      // generator: env has no value for the name
    | UnrecognizedBinOp(op: string)       // generator: operator outside the twelve
    | DivisionNotModelled                 // generator: JS float division by zero or with a fraction
    | InvalidReferenceId(id: string)      // reflection: unknown `Type:property` reference id
    | UnknownType(typeName: string)       // interpreter: no zero value for the attribute type
    | UndefinedAttribute(name: string)    // interpreter: Environment.get on an unset name
    | TypeMismatch                        // interpreter: a number where a boolean is read, or back
    | UnsupportedExpression               // interpreter: node kind the draft evaluators lack
    | UnresolvedState(name: string)       // interpreter: state reference names no declared state

  datatype Result<+T> = Ok(value: T) | Err(error: Error) {
    predicate IsFailure() {
      Err?
    }

    function PropagateFailure<U>(): Result<U>
      requires Err?
    {
      Err(error)
    }

    function Extract(): T
      requires Ok?
    {
      value
    }
  }
}
