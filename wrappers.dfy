/** Failure-carrying results shared by every part of the virtual machine.
    The source terminates the process (or lets an exception escape) on each
    of these faults; the model returns them instead. */
module Wrappers {

  /** The fault conditions of the virtual machine that the source detects. */
  datatype Fault =
    | InvalidOpcode  // the `_Count` sentinel reached a switch that rejects it
    | OutOfRange     // `std::vector::at` with an index past the end

  datatype Option<+T> = None | Some(value: T)

  datatype Result<+T> = Success(value: T) | Failure(error: Fault)

  /** The result of an operation that produces no value. */
  datatype Outcome = Pass | Fail(error: Fault)
}
