/** Outcomes of the Go functions: a value, an `error` carrying its exact text, or a run-time panic. */
module Wrappers {

  datatype Option<+T> = None | Some(value: T)

  /** `Ok(v)` is a nil error with result `v`; `Err(msg)` is a non-nil error whose
      `Error()` text is `msg`; `Panic` is a Go run-time panic (the call never returns normally). */
  datatype Result<+T> = Ok(value: T) | Err(msg: string) | Panic {
    /** The same failure, at another result type (Go's `return nil, err`). */
    function Propagate<U>(): (r: Result<U>)
      requires !Ok?
      ensures r.Err? <==> Err?
      ensures Err? ==> r == Err(msg)
      ensures Panic? ==> r.Panic?
    {
      if Err? then Err(msg) else Panic
    }
  }

  /** What a Go function returning only `error` produces. */
  datatype Outcome = Pass | Fail(msg: string) | Crash
}
