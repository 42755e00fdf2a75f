/**
 * Shared vocabulary of the event-sourcing layer: fixed-width integers, the
 * error values the eventstore packages throw, aggregates, and the event-type
 * constants that the write models and the token projection switch on.
 */
module Eventstore {

  newtype uint64 = x: int | 0 <= x < 0x1_0000_0000_0000_0000
  newtype uint16 = x: int | 0 <= x < 0x1_0000
  newtype byte = x: int | 0 <= x < 0x100

  type Bytes = seq<byte>

  /** A point in time; only equality and the zero value matter to this model. */
  datatype Time = Time(unixNanos: int)

  /** The zero `time.Time` a struct literal leaves in a field it does not set. */
  const ZeroTime: Time := Time(0)

  datatype Option<+T> = None | Some(value: T)

  /** The kinds of error the `errors.Throw…` helpers produce. `Panic` stands for a
      run-time panic of the Go code (a failed type assertion). */
  datatype ErrorKind = PreconditionFailed | InvalidArgument | NotFound | Internal | Panic

  /** An error with its kind, its stable error ID and its message. */
  datatype Error = Error(kind: ErrorKind, id: string, message: string)

  /** The `(value, error)` pair of a Go function, as a failure-compatible type. */
  datatype Result<+T> = Ok(value: T) | Err(error: Error) {
    predicate IsFailure() {
      Err?
    }

    function PropagateFailure<U>(): Result<U>
      requires Err?
    {
      Err(error)
    }

    function Extract(): T
      requires Ok?
    {
      value
    }
  }

  /** `eventstore.Aggregate`: the aggregate an event belongs to. */
  datatype Aggregate = Aggregate(id: string, typ: string, resourceOwner: string, instanceID: string, version: string)

  /** The aggregate-type constants of the `user`, `project`, `org` and `instance` packages. */
  datatype AggregateType = UserAggregateType | ProjectAggregateType | OrgAggregateType | InstanceAggregateType

  /** The event-type constants used by the modelled code, named after their Go
      identifiers; `UnlistedType` is any other event type. */
  datatype EventType =
    // package user: tokens, profile, sessions, lifecycle
    | UserTokenAddedType
    | PersonalAccessTokenAddedType
    | UserV1ProfileChangedType
    | HumanProfileChangedType
    | UserV1SignedOutType
    | HumanSignedOutType
    | UserLockedType
    | UserDeactivatedType
    | UserRemovedType
    | UserTokenRemovedType
    | PersonalAccessTokenRemovedType
    | HumanRefreshTokenRemovedType
    // package user: second factors
    | HumanMFAOTPAddedType
    | HumanMFAOTPVerifiedType
    | HumanMFAOTPRemovedType
    | UserV1MFAOTPAddedType
    | UserV1MFAOTPVerifiedType
    | UserV1MFAOTPRemovedType
    | HumanPhoneVerifiedType
    | HumanOTPSMSAddedType
    | HumanOTPSMSRemovedType
    | HumanPhoneRemovedType
    | HumanEmailVerifiedType
    | HumanOTPEmailAddedType
    | HumanOTPEmailRemovedType
    // package project
    | ApplicationDeactivatedType
    | ApplicationRemovedType
    | ProjectDeactivatedType
    | ProjectRemovedType
    // packages org and instance
    | OrgRemovedEventType
    | InstanceRemovedEventType
    | UnlistedType(name: string)

  /** The aggregate type whose package declares an event type; `None` for
      the types outside the four packages above. */
  function DeclaringAggregate(t: EventType): Option<AggregateType>
  {
    match t
    case ApplicationDeactivatedType => Some(ProjectAggregateType)
    case ApplicationRemovedType => Some(ProjectAggregateType)
    case ProjectDeactivatedType => Some(ProjectAggregateType)
    case ProjectRemovedType => Some(ProjectAggregateType)
    case OrgRemovedEventType => Some(OrgAggregateType)
    case InstanceRemovedEventType => Some(InstanceAggregateType)
    case UnlistedType(_) => None
    case _ => Some(UserAggregateType)
  }
}
