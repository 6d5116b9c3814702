/** Located compile-time diagnostics and the fallible result every step of
    the macro returns (the shape of `syn::Result`). */
module Diagnostics {

  /** A source location. Spans are opaque to the macro: it only copies them
      from input nodes onto diagnostics and new tokens. `CallSite` is the
      span of tokens the macro makes up itself. */
  datatype Span = CallSite | Site(id: nat)

  /** A compiler diagnostic: where to underline, and what to say. */
  datatype Diagnostic = Diagnostic(span: Span, message: string)

  /** `syn::Result<T>`, usable with `:-` the way the source uses `?`. */
  datatype Result<+T> = Ok(value: T) | Err(error: Diagnostic) {
    predicate IsFailure() {
      Err?
    }

    function PropagateFailure<U>(): Result<U>
      requires Err?
    {
      Err(error)
    }

    function Extract(): T
      requires Ok?
    {
      value
    }
  }
}
