/**
 * The version-1 event record of the eventstore (`models.Event`): its
 * accessors, the validation that every required field is set, and the
 * dispatch that turns a caller's payload into bytes.
 */
module EventV1 {
  import opened Eventstore

  datatype Event = Event(
    id: string,
    seqNumber: uint64,
    creationDate: Time,
    typ: string,
    previousSequence: uint64,
    data: Bytes,
    aggregateID: string,
    aggregateType: string,
    aggregateVersion: string,
    service: string,
    user: string,
    resourceOwner: string,
    instanceID: string)
  {
    /** The aggregate the event belongs to; its version is left unset. */
    function GetAggregate(): (a: Eventstore.Aggregate)
      ensures a.id == aggregateID && a.typ == aggregateType
      ensures a.resourceOwner == resourceOwner && a.instanceID == instanceID
      ensures a.version == ""
    {
      Eventstore.Aggregate(aggregateID, aggregateType, resourceOwner, instanceID, "")
    }

    function CreatedAt(): (t: Time)
      ensures t == creationDate
    {
      creationDate
    }

    function DataAsBytes(): (d: Bytes)
      ensures d == data
    {
      data
    }

    function EditorService(): (s: string)
      ensures s == service
    {
      service
    }

    function Creator(): (u: string)
      ensures u == user
    {
      user
    }

    function PreviousAggregateSequence(): (s: uint64)
      ensures s == previousSequence
    {
      previousSequence
    }

    /** The record keeps one previous sequence, so both "previous" accessors agree. */
    function PreviousAggregateTypeSequence(): (s: uint64)
      ensures s == PreviousAggregateSequence()
    {
      previousSequence
    }

    function Sequence(): (s: uint64)
      ensures s == seqNumber
    {
      seqNumber
    }

    function Type(): (t: string)
      ensures t == typ
    {
      typ
    }

    /** Version-1 events carry no revision. */
    function Revision(): (r: uint16)
      ensures r == 0
    {
      0
    }
  }

  // ---------------------------------------------------------------------------
  // Validation

  /** The fields `Validate` requires, in the order it checks them. */
  datatype RequiredField = TypeField | AggregateIDField | AggregateTypeField | ServiceField | UserField | ResourceOwnerField

  const RequiredFields: seq<RequiredField> :=
    [TypeField, AggregateIDField, AggregateTypeField, ServiceField, UserField, ResourceOwnerField]

  function FieldValue(e: Event, f: RequiredField): string
  {
    match f
    case TypeField => e.typ
    case AggregateIDField => e.aggregateID
    case AggregateTypeField => e.aggregateType
    case ServiceField => e.service
    case UserField => e.user
    case ResourceOwnerField => e.resourceOwner
  }

  /** The error a missing field is reported with. */
  function MissingFieldError(f: RequiredField): Error
  {
    match f
    case TypeField => Error(PreconditionFailed, "MODEL-R2sB0", "type not defined")
    case AggregateIDField => Error(PreconditionFailed, "MODEL-A6WwL", "aggregate id not set")
    case AggregateTypeField => Error(PreconditionFailed, "MODEL-EzdyK", "aggregate type not set")
    case ServiceField => Error(PreconditionFailed, "MODEL-4Yqik", "editor service not set")
    case UserField => Error(PreconditionFailed, "MODEL-L3NHO", "editor user not set")
    case ResourceOwnerField => Error(PreconditionFailed, "MODEL-omFVT", "resource ow")
  }

  const NilEventError: Error := Error(PreconditionFailed, "MODEL-oEAG4", "event is nil")

  /** `Event.Validate` on a possibly nil event: `None` stands for a nil error. */
  function Validate(e: Option<Event>): (r: Option<Error>)
    ensures e.None? ==> r == Some(NilEventError)
    ensures e.Some? ==> (r.None? <==> forall f: RequiredField :: FieldValue(e.value, f) != "")
    ensures r.Some? ==> r.value.kind == PreconditionFailed
  {
    if e.None? then Some(NilEventError)
    else
      var ev := e.value;
      if ev.typ == "" then assert FieldValue(ev, TypeField) == ""; Some(MissingFieldError(TypeField))
      else if ev.aggregateID == "" then assert FieldValue(ev, AggregateIDField) == ""; Some(MissingFieldError(AggregateIDField))
      else if ev.aggregateType == "" then assert FieldValue(ev, AggregateTypeField) == ""; Some(MissingFieldError(AggregateTypeField))
      else if ev.service == "" then assert FieldValue(ev, ServiceField) == ""; Some(MissingFieldError(ServiceField))
      else if ev.user == "" then assert FieldValue(ev, UserField) == ""; Some(MissingFieldError(UserField))
      else if ev.resourceOwner == "" then assert FieldValue(ev, ResourceOwnerField) == ""; Some(MissingFieldError(ResourceOwnerField))
      else None
  }

  /** A failing `Validate` reports the FIRST empty field in `RequiredFields`
      order: every field before it is set. */
  lemma ValidateReportsFirstMissing(e: Event) returns (k: nat)
    requires Validate(Some(e)).Some?
    ensures k < |RequiredFields| && FieldValue(e, RequiredFields[k]) == ""
    ensures forall j :: 0 <= j < k ==> FieldValue(e, RequiredFields[j]) != ""
    ensures Validate(Some(e)) == Some(MissingFieldError(RequiredFields[k]))
  {
    if e.typ == "" { k := 0; }
    else if e.aggregateID == "" { k := 1; }
    else if e.aggregateType == "" { k := 2; }
    else if e.service == "" { k := 3; }
    else if e.user == "" { k := 4; }
    else { k := 5; }
  }

  /** Each check has its own error ID, so the ID names the first empty field. */
  lemma MissingFieldErrorIdentifiesField(f: RequiredField, g: RequiredField)
    ensures MissingFieldError(f).id == MissingFieldError(g).id ==> f == g
    ensures MissingFieldError(f).id != NilEventError.id
  {
  }

  /** A valid event stays valid whatever its optional fields hold. */
  lemma ValidateIgnoresOptionalFields(e: Event, id: string, data: Bytes, instanceID: string, seqNumber: uint64)
    ensures Validate(Some(e.(id := id, data := data, instanceID := instanceID, seqNumber := seqNumber))) == Validate(Some(e))
  {
  }

  // ---------------------------------------------------------------------------
  // Payload dispatch

  /** The `reflect.Kind` of a payload, with the element kind of a pointer. */
  datatype Kind = StructKind | PtrKind(elem: Kind) | MapKind | ScalarKind(name: string)

  /** What `eventData` may be handed: a byte slice, a `map[string]interface{}`,
      nil, or any other value of the given kind. `V` is the JSON-marshallable value. */
  datatype Payload<V> = ByteSlice(bytes: Bytes) | StringMap(m: V) | Nil | Value(kind: Kind, v: V)

  /** Whether `reflect` sees a struct, looking through one pointer. */
  predicate IsStructLike(k: Kind)
  {
    k.StructKind? || (k.PtrKind? && k.elem.StructKind?)
  }

  /** `eventData`: the bytes to store for a payload. `marshal` stands for
      `json.Marshal`; `None` is its failure. A nil payload gives no bytes. */
  function EventData<V>(i: Payload<V>, marshal: V -> Option<Bytes>): (r: Result<Bytes>)
    ensures i.ByteSlice? ==> r == Ok(i.bytes)
    ensures i.Nil? ==> r == Ok([])
    ensures i.Value? && !IsStructLike(i.kind) ==> r == Err(Error(InvalidArgument, "MODEL-rjWdN", "data is not valid"))
    ensures i.StringMap? ==> (r.Ok? <==> marshal(i.m).Some?) && (r.Ok? ==> r.value == marshal(i.m).value)
    ensures i.Value? && IsStructLike(i.kind) ==> (r.Ok? <==> marshal(i.v).Some?) && (r.Ok? ==> r.value == marshal(i.v).value)
    ensures r.Err? ==> r.error.kind == InvalidArgument
  {
    match i
    case ByteSlice(b) => Ok(b)
    case StringMap(m) =>
      (match marshal(m)
       case None => Err(Error(InvalidArgument, "MODEL-s2fgE", "unable to marshal data"))
       case Some(bytes) => Ok(bytes))
    case Nil => Ok([])
    case Value(kind, v) =>
      var t := if kind.PtrKind? then kind.elem else kind;
      if !t.StructKind? then Err(Error(InvalidArgument, "MODEL-rjWdN", "data is not valid"))
      else
        match marshal(v)
        case None => Err(Error(InvalidArgument, "MODEL-Y2OpM", "unable to marshal data"))
        case Some(bytes) => Ok(bytes)
  }

  /** Only one pointer is looked through: a pointer to a pointer to a struct is refused. */
  lemma PointerToPointerRefused<V>(v: V, marshal: V -> Option<Bytes>)
    ensures EventData(Value(PtrKind(PtrKind(StructKind)), v), marshal).Err?
  {
  }
}
