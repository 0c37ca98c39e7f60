/**
 * What the Go runtime contributes to the model: the `error` values the code
 * passes around, and the unchecked dereferences that end a call in a panic
 * instead of a return.
 */
module GoRuntime {

  /** Go's `error`, reduced to the one thing this code reads of it: `err.Error()`. */
  datatype Error = Error(message: string)

  /** `fmt.Errorf(prefix + "%w", cause)`: the wrapped error's text is the prefix followed by the cause's. */
  function Wrap(prefix: string, cause: Error): (e: Error)
    ensures |e.message| == |prefix| + |cause.message|
    ensures e.message[..|prefix|] == prefix && e.message[|prefix|..] == cause.message
  {
    Error(prefix + cause.message)
  }

  /** Every place in the core where a nil pointer or an empty slice is dereferenced without a check. */
  datatype Crash =
      /** checkEC2InstanceExists: `Reservations[0].Instances[0]` when the first reservation holds no instance. */
    | FirstReservationEmpty
      /** createEc2Instance: `*inst.InstanceId` of the RunInstances record. */
    | RunInstanceIdNil
      /** createEc2Instance: `Reservations[0].Instances[0]` of the follow-up describe, taken without a length check. */
    | DescribedInstanceMissing
      /** createEc2Instance: `*PublicDnsName` of the described instance, dereferenced for a print. */
    | PublicDnsNameNil
      /** createEc2Instance: `State.Name` of the described instance. */
    | DescribedStateNil
      /** deleteEc2Instance: `TerminatingInstances[0].CurrentState.Name`. */
    | TerminatingInstanceMissing
      /** Reconcile: `instanceState.State.Name` (or `instanceState` itself) nil on the refresh path. */
    | RecordStateNil
      /** Reconcile: `*instanceState.PublicIpAddress` on the refresh path. */
    | RecordPublicIpNil
      /** Reconcile: `createdInstanceInfo.InstanceID` after createEc2Instance returned (nil, nil). */
    | CreatedInfoNil

  /** How a Go call ends: it returns a value, or it panics at a known site. */
  datatype Outcome<+T> = Value(value: T) | Panic(site: Crash)
}
