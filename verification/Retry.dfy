/** The wrapper that retries a transaction after a serialization failure. */
module Retry {
  import opened Tables

  /** How one attempt ends: committed, refused by the serializer, or thrown. */
  datatype Attempt<T> = Committed(result: T) | Conflicted | Threw(error: Error)

  /** The attempts that were made committed this often. */
  function Commits<T>(attempts: seq<Attempt<T>>): nat {
    if |attempts| == 0 then 0 else Commits(attempts[..|attempts| - 1]) + if attempts[|attempts| - 1].Committed? then 1 else 0
  }

  /** Runs the attempts that fate holds ready, until one commits, throws, or the limit is reached. It
      returns normally iff exactly one of the attempts made committed, and then it is the last; every
      attempt before the last one was refused by the serializer; and with at least one attempt allowed
      the trailing error is never raised. */
  method RunSerializable<T>(fate: seq<Attempt<T>>, maxAttempts: nat) returns (r: Result<T>, made: nat)
    requires |fate| >= maxAttempts
    ensures made <= maxAttempts
    ensures Commits(fate[..made]) == (if r.Ok? then 1 else 0)
    ensures forall i :: 0 <= i < made - 1 ==> fate[i].Conflicted?
    ensures maxAttempts == 0 ==> r == Err(RetryLimit) && made == 0
    ensures maxAttempts >= 1 ==> made >= 1
    ensures made >= 1 && fate[made - 1].Committed? ==> r == Ok(fate[made - 1].result)
    ensures made >= 1 && fate[made - 1].Threw? ==> r == Err(fate[made - 1].error)
    ensures made >= 1 && fate[made - 1].Conflicted? ==> made == maxAttempts && r == Err(SerializationFailure)
  {
    made := 0;
    for attempt := 1 to maxAttempts + 1
      invariant made == attempt - 1
      invariant attempt == maxAttempts + 1 ==> maxAttempts == 0
      invariant Commits(fate[..made]) == 0
      invariant forall i :: 0 <= i < made ==> fate[i].Conflicted?
    {
      made := attempt;
      assert fate[..attempt][..attempt - 1] == fate[..attempt - 1];
      match fate[attempt - 1]
      case Committed(x) =>
        return Ok(x), made;
      case Threw(e) =>
        return Err(e), made;
      case Conflicted =>
        if attempt == maxAttempts {
          return Err(SerializationFailure), made;
        }
    }
    r := Err(RetryLimit);
  }
}
