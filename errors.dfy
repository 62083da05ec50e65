/** The error types of the runtime (ludi-core/src/error.rs). */
module Errors {

  /** Errors that can occur when sending a message. */
  datatype Error = Disconnected | Interrupted | Wrapper

  /** The `Display` text of each error. */
  function Display(e: Error): (s: string)
    ensures e == Disconnected <==> s == "mailbox disconnected"
    ensures e == Interrupted <==> s == "message handling interrupted"
    ensures e == Wrapper <==> s == "wrapper error"
  {
    match e
    case Disconnected => "mailbox disconnected"
    case Interrupted => "message handling interrupted"
    case Wrapper => "wrapper error"
  }

  /** Distinct errors display distinctly, so the text identifies the error. */
  lemma DisplayInjective(a: Error, b: Error)
    ensures Display(a) == Display(b) ==> a == b
  {
  }
}

/**
 * The error type that `address.rs` and the code generated by the `Wrap` derive refer to
 * (`MessageError::Closed`, `MessageError::Interrupted`, `MessageError::Wrapper`).
 * Its definition is not part of this model; these are the variants those files use.
 */
module MessageErrors {

  datatype MessageError = Closed | Interrupted | Wrapper
}
