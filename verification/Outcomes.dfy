/** How a step of a scan run ends: with a value, or by raising one of the run's exceptions. */
module Outcomes {

  datatype Option<+T> = None | Some(value: T)

  /** The failures a run can end with, each an exception type of the program. */
  datatype Fault =
    | ScannerFault
    | FeederFault
    | SpoolFault
    | DiskSpace
    | PdfFault
    | BrokenPrompt
    | UnofferedAnswer
    | FlipTimedOut
    | NoPages
    | AllPagesBlank
    | UploadFailed
    | UncertainSend
    | Unconfirmed

  /** What was raised: a signal or a server stop, the operator's cancel, or a failure. */
  datatype Ending = Interrupted | Cancelled | Failed(fault: Fault)

  /** The result of a call that can raise; `:-` passes a raised ending on to the caller. */
  datatype Step<+T> = Value(value: T) | Raised(ending: Ending) {

    predicate IsFailure() {
      Raised?
    }

    function PropagateFailure<U>(): Step<U>
      requires Raised?
    {
      Raised(ending)
    }

    function Extract(): T
      requires Value?
    {
      value
    }
  }

  /** A point between two statements, which a signal may turn into an exception. */
  datatype Flow = Go | Raise(ending: Ending) {

    predicate IsFailure() {
      Raise?
    }

    function PropagateFailure<U>(): Step<U>
      requires Raise?
    {
      Raised(ending)
    }
  }
}
