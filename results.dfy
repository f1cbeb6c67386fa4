/** Outcomes of an evaluation: a value, or one of the failure kinds the
    evaluator signals instead of returning data. */
module Results {

  /** The Python exception classes that ordinary data errors surface as. */
  datatype DataErrorKind =
    | TypeError
    | KeyError
    | IndexError
    | ValueError
    | ZeroDivisionError
    | AttributeError

  datatype Error =
    /** An identifier bound neither in the context nor in the whitelist. */
    | NameErr(name: string)
    /** An attribute whose name starts with an underscore ("private attribute"). */
    | PrivateAttrErr(attr: string)
    /** A node kind outside the supported expression grammar. */
    | UnsupportedErr(kind: string)
    /** A failure of the underlying operation, passed on unmodified. */
    | DataErr(exc: DataErrorKind)
    /** Behaviour the evaluator has but this model does not describe
        (floating point, string formatting, the opaque iteration helpers). */
    | Unmodelled(what: string)

  datatype Result<+T> = Ok(value: T) | Err(error: Error) {

    predicate IsFailure() {
      Err?
    }

    function PropagateFailure<U>(): Result<U>
      requires Err?
    {
      Err(error)
    }

    function Extract(): T
      requires Ok?
    {
      value
    }
  }

  /** A failure of an operation on values is never one of the three
      security rejections: those come only from names, attribute names and
      node kinds in the expression tree. */
  predicate DataFailureOnly<T>(r: Result<T>) {
    r.Err? ==> r.error.DataErr? || r.error.Unmodelled?
  }
}
