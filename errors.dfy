/** The error channel: the process-wide last-error slot that every failing
    boundary operation writes before returning `WASMER_ERROR`, and the
    caller-owned out-parameter cells the boundary writes through. */
module Errors {
  import opened Wrappers
  import Abi

  /** An error produced by the engine (a trap or runtime error of a call);
      its content is the engine's and is not interpreted here. */
  datatype EngineError = EngineError(code: nat)

  /** What the last-error slot can hold: a boundary message (`CApiError`)
      or an engine error passed through unchanged. */
  datatype LastError = CApiError(msg: string) | RuntimeError(err: EngineError)

  /** What one boundary call does, as seen by its caller: the status it
      returns, the value it writes through its out-parameter (`None`: left
      unwritten) and the error it puts in the last-error slot (`None`: the
      slot is left as it was). */
  datatype Outcome<T> = Outcome(status: Abi.Status, written: Option<T>, error: Option<LastError>)

  /** The last-error slot read back by `wasmer_last_error_length` and
      `wasmer_last_error_message`; `None` until a first failure. */
  class ErrorChannel {
    var last: Option<LastError>

    constructor ()
      ensures last == None
    {
      last := None;
    }

    /** `update_last_error`: the slot holds exactly the new error. */
    method Update(e: LastError)
      modifies this
      ensures last == Some(e)
    {
      last := Some(e);
    }
  }

  /** A caller-owned out-parameter (`*mut T`) that an operation may write. */
  class Cell<T> {
    var value: T

    constructor (v: T)
      ensures value == v
    {
      value := v;
    }
  }
}
