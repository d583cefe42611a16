/** Failure-compatible wrappers and the ways one reconciliation can stop. */
module Outcomes {

  datatype Option<T> = None | Some(value: T)

  /** Every way the reactor gives up on an event. Errors returned by remote
      calls or by JSON decoding are passed through unchanged, whatever they are. */
  datatype Error =
    | NoSnsMessage                  // Handle: no record, or an empty first message
    | GroupNotFound                 // lookupAutoScalingGroup: empty group list
    | NoInstances                   // lookupInstances: no reservation, or an empty first one
    | MissingParameter(field: string) // the SDK refuses a request whose required field is nil
    | NilTag(key: string)           // panic: a missing tag's nil value is dereferenced
    | PortIndexOutOfRange           // panic: srvPorts[i] with i beyond the ports list
    | RecordSetIndexOutOfRange      // panic: ResourceRecordSets[0] of an empty listing
    | Fatal(cause: Error)           // log.Fatal: the process exits
    | Remote(message: string)       // an error reported by a collaborator

  datatype Result<T> = Ok(value: T) | Err(error: Error) {
    predicate IsFailure() { Err? }

    function PropagateFailure<U>(): Result<U>
      requires Err?
    {
      Err(error)
    }

    function Extract(): T
      requires Ok?
    {
      value
    }
  }
}
