/** Shared result types, and the text and clock primitives every other module uses. */
module Base {

  /** Row identifiers are the BIGSERIAL keys of the database. */
  type Id = nat

  /** Abstract microsecond clock. */
  type Time = int

  datatype Option<+T> = None | Some(value: T)

  /** Why a request was refused; a refused transaction is rolled back as a whole. */
  datatype Refusal =
    | NotFound            // gorm.ErrRecordNotFound
    | GuardRaised         // a trigger raised check_violation (23514)
    | UniqueViolation     // a unique index refused the row
    | NotReady            // the preview lists required fields
    | StaleVersion
    | ContextRequired
    | PhraseRequired
    | PayloadConflict     // idempotency key reused with another payload
    | NotReceivable
    | OverDelivery
    | ConfirmedExceeded
    | WarehouseProductRequired
    | TrackingInvalid
    | FractionalDevices
    | ZoneUnavailable
    | SerialCount
    | SerialInvalid
    | SerialConflict
    | ConfirmationMismatch
    | TransitionRefused
    | Forbidden

  datatype Result<+T> = Ok(value: T) | Err(error: Refusal) {
    predicate IsFailure() {
      Err?
    }

    function PropagateFailure<U>(): Result<U>
      requires Err?
    {
      Err(error)
    }

    function Extract(): T
      requires Ok?
    {
      value
    }
  }

  /** math.Trunc(q) == q for the non-negative quantities it is asked of. */
  predicate Whole(q: real) {
    q == q.Floor as real
  }

  /** The sequence without its element i. */
  function Without<T>(a: seq<T>, i: nat): (r: seq<T>)
    requires i < |a|
    ensures |r| == |a| - 1
  {
    a[..i] + a[i + 1..]
  }

  lemma MultisetWithout<T>(a: seq<T>, i: nat)
    requires i < |a|
    ensures multiset(Without(a, i)) == multiset(a) - multiset{a[i]}
  {
    assert a == a[..i] + [a[i]] + a[i + 1..];
  }

  /** The version a trigger assigns: GREATEST(clock, old + 1 microsecond). */
  function Bump(before: Time, now: Time): (r: Time)
    ensures r > before && r >= now && (r == now || r == before + 1)
  {
    if now > before + 1 then now else before + 1
  }

  /** validateExpectedUpdate: an absent expectation passes unless it is required. */
  predicate VersionAccepted(actual: Time, expected: Option<Time>, required: bool) {
    match expected
    case None => !required
    case Some(v) => v == actual
  }
}
