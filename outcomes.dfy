/** Java's null references and exceptions, as values. */
module Outcomes {

  /** A reference that may be null: `None` stands for null. */
  datatype Option<+T> = None | Some(value: T)

  /** The exceptions the modelled code raises or lets through. */
  datatype Exception =
    | NullPointer        // a method called on a null reference
    | OperationCanceled  // the progress monitor asked the operation to stop
    | IllegalArgument    // a failed `Assert.isLegal`
    | FetchFailure       // the Cloud Foundry client's call threw

  /** How a Java call ends: it returns a value or it throws. */
  datatype Outcome<+T> = Normal(value: T) | Thrown(ex: Exception)
}
