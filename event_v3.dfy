/**
 * The version-3 event record of the eventstore: how a command pushed by a
 * caller becomes a stored event, and the accessors the rest of the system
 * reads it through.
 */
module EventV3 {
  import opened Eventstore

  /** A stored event. `createdAt` and `globalSequence` are assigned by the
      database on insert, so a freshly built event has them at zero. */
  datatype Event = Event(
    aggregate: Aggregate,
    creator: string,
    revision: uint16,
    typ: string,
    createdAt: Time,
    sequence: uint64,
    globalSequence: uint64,
    payload: Bytes)
  {
    function GetAggregate(): (a: Aggregate)
      ensures a == aggregate
    {
      aggregate
    }

    function Creator(): (c: string)
      ensures c == creator
    {
      creator
    }

    /** The editor of an event is its creator. */
    function EditorUser(): (u: string)
      ensures u == Creator()
    {
      Creator()
    }

    function Revision(): (r: uint16)
      ensures r == revision
    {
      revision
    }

    function Type(): (t: string)
      ensures t == typ
    {
      typ
    }

    function CreatedAt(): (t: Time)
      ensures t == createdAt
    {
      createdAt
    }

    /** The creation date of an event is its `createdAt`. */
    function CreationDate(): (t: Time)
      ensures t == CreatedAt()
    {
      CreatedAt()
    }

    function Sequence(): (s: uint64)
      ensures s == sequence
    {
      sequence
    }

    function GlobalSequence(): (s: uint64)
      ensures s == globalSequence
    {
      globalSequence
    }

    function DataAsBytes(): (d: Bytes)
      ensures d == payload
    {
      payload
    }

    /** `Unmarshal` into a target of type `T`; `unmarshal` stands for
        `json.Unmarshal` and returns the target as it is afterwards. An empty
        payload leaves the target alone and is no error. */
    function Unmarshal<T>(target: T, unmarshal: (Bytes, T) -> Result<T>): (r: Result<T>)
      ensures |payload| == 0 ==> r == Ok(target)
      ensures |payload| != 0 ==> r == unmarshal(payload, target)
    {
      if |payload| == 0 then Ok(target) else unmarshal(payload, target)
    }
  }

  /** The aggregate being written and the sequence the next event gets. */
  datatype LatestSequence = LatestSequence(aggregate: Aggregate, sequence: uint64)

  /** `eventstore.Command` with a payload of type `P`; `None` is a nil payload. */
  datatype Command<P> = Command(aggregate: Aggregate, creator: string, revision: uint16, typ: string, payload: Option<P>)

  /** `commandToEvent`; `marshal` stands for `json.Marshal`. */
  function CommandToEvent<P>(latest: LatestSequence, command: Command<P>, marshal: P -> Result<Bytes>): (r: Result<Event>)
    // a nil payload is stored as no bytes and cannot fail
    ensures command.payload.None? ==> r.Ok? && r.value.payload == []
    // a failing marshal is returned unchanged, and no event is built
    ensures command.payload.Some? && marshal(command.payload.value).Err? ==> r == Err(marshal(command.payload.value).error)
    ensures command.payload.Some? && marshal(command.payload.value).Ok? ==> r.Ok? && r.value.payload == marshal(command.payload.value).value
    // aggregate and sequence from `latest`, creator, revision and type from the command
    ensures r.Ok? ==> r.value.aggregate == latest.aggregate && r.value.sequence == latest.sequence
    ensures r.Ok? ==> r.value.creator == command.creator && r.value.revision == command.revision && r.value.typ == command.typ
    // the database has not assigned these yet
    ensures r.Ok? ==> r.value.createdAt == ZeroTime && r.value.globalSequence == 0
  {
    var payload :- match command.payload
      case None => Ok([])
      case Some(p) => marshal(p);
    Ok(Event(latest.aggregate, command.creator, command.revision, command.typ, ZeroTime, latest.sequence, 0, payload))
  }

  /** What a reader of the new event sees through the accessors: the editor is
      the command's creator, and the aggregate is the one `latest` carries
      rather than the command's own. */
  lemma CommandToEventAccessors<P>(latest: LatestSequence, command: Command<P>, marshal: P -> Result<Bytes>)
    requires command.payload.None? || marshal(command.payload.value).Ok?
    ensures CommandToEvent(latest, command, marshal).Ok?
    ensures var e := CommandToEvent(latest, command, marshal).value;
      && e.GetAggregate() == latest.aggregate
      && e.Sequence() == latest.sequence
      && e.EditorUser() == command.creator
      && e.CreationDate() == ZeroTime
      && e.GlobalSequence() == 0
  {
  }

  /** Writing a command and reading the event back gives the command's payload:
      a nil payload leaves the reader's target untouched, any other payload is
      recovered when `unmarshal` inverts `marshal` on it. */
  lemma PayloadRoundTrip<P>(latest: LatestSequence, command: Command<P>, marshal: P -> Result<Bytes>,
                            unmarshal: (Bytes, P) -> Result<P>, target: P)
    requires command.payload.Some? ==>
      && marshal(command.payload.value).Ok?
      && |marshal(command.payload.value).value| != 0
      && unmarshal(marshal(command.payload.value).value, target) == Ok(command.payload.value)
    ensures CommandToEvent(latest, command, marshal).Ok?
    ensures CommandToEvent(latest, command, marshal).value.Unmarshal(target, unmarshal)
         == Ok(if command.payload.Some? then command.payload.value else target)
  {
  }
}
