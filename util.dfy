/** The game's error taxonomy, its result type and the time-unit conversion
    shared by the farm economy (src/util.rs). The wall-clock read of that file
    is not part of this model: callers pass timestamps in explicitly. */
module Util {

  /** Every way a farm operation can be rejected. */
  datatype GameError =
    | InsufficientFunds
    | MaxLevelReached
    | OutOfBounds
    | AlreadyPlanted
    | AlreadyFarmed
    | NotYetReady
    | TooManyFields

  /** The seven variants, in declaration order. */
  const AllErrors: seq<GameError> :=
    [InsufficientFunds, MaxLevelReached, OutOfBounds, AlreadyPlanted,
     AlreadyFarmed, NotYetReady, TooManyFields]

  /** The fixed text shown for each error. */
  function Message(e: GameError): (s: string)
    ensures |s| >= 13 && 'A' <= s[0] <= 'Z'
  {
    match e
    case InsufficientFunds => "Insufficient funds"
    case MaxLevelReached => "Max level reached"
    case OutOfBounds => "Out of bounds"
    case AlreadyPlanted => "Already planted"
    case AlreadyFarmed => "Already farmed"
    case NotYetReady => "Not yet ready"
    case TooManyFields => "Too many fields"
  }

  /** The error type has exactly seven variants, all listed in AllErrors. */
  lemma ExactlySevenErrors(e: GameError)
    ensures e in AllErrors
    ensures |AllErrors| == 7
    ensures forall i, j :: 0 <= i < j < |AllErrors| ==> AllErrors[i] != AllErrors[j]
  {
  }

  /** No two errors share a message, so the text identifies the error. */
  lemma MessageInjective(a: GameError, b: GameError)
    ensures Message(a) == Message(b) <==> a == b
  {
  }

  /** The outcome of a fallible operation: a value or exactly one error. */
  datatype Result<T> = Ok(value: T) | Err(error: GameError) {
    predicate IsFailure() {
      Err?
    }

    function PropagateFailure<U>(): Result<U>
      requires Err?
    {
      Err(error)
    }

    function Extract(): T
      requires Ok?
    {
      value
    }
  }

  datatype Option<T> = None | Some(value: T)

  /** One more than the largest value of the source's unsigned 128-bit integers. */
  const U128_LIMIT: nat := 0x1_0000_0000_0000_0000_0000_0000_0000_0000

  /** Converts seconds to milliseconds; the product must fit in 128 bits. */
  function SecondsToMillis(seconds: nat): (millis: nat)
    requires seconds * 1000 < U128_LIMIT
    ensures millis < U128_LIMIT
    ensures millis % 1000 == 0 && millis / 1000 == seconds
  {
    seconds * 1000
  }

  /** Longer durations give strictly more milliseconds. */
  lemma SecondsToMillisStrictlyIncreasing(a: nat, b: nat)
    requires a < b && b * 1000 < U128_LIMIT
    ensures SecondsToMillis(a) < SecondsToMillis(b)
  {
  }
}
