/**
 * The write models that fold a user's event stream into the state of one
 * second factor: TOTP (`State`, `Secret`), OTP over SMS (`phoneVerified`,
 * `otpAdded`) and OTP over email (`emailVerified`, `otpAdded`).
 *
 * Each `Reduce` walks the events in order and overwrites fields. The
 * specification is `Fold` of a per-event step function; the lemmas show that
 * every field ends up as the value written by the LAST event that writes it
 * (`LastWrite`), so events of other types never matter.
 */
module OtpWriteModel {
  import opened Eventstore

  /** `domain.MFAState`; `MFAStateUnspecified` is its zero value. */
  datatype MFAState = MFAStateUnspecified | MFAStateNotReady | MFAStateReady | MFAStateRemoved

  /** `crypto.CryptoValue`: an encrypted secret, opaque here. */
  datatype CryptoValue = CryptoValue(cryptoType: int, algorithm: string, keyID: string, crypted: Bytes)

  /** The concrete event structs the three reducers switch on. The V1 and the
      human event types of the same fact decode into the same struct. */
  datatype UserEvent =
    | HumanOTPAddedEvent(secret: Option<CryptoValue>)
    | HumanOTPVerifiedEvent
    | HumanOTPRemovedEvent
    | UserRemovedEvent
    | HumanPhoneVerifiedEvent
    | HumanOTPSMSAddedEvent
    | HumanOTPSMSRemovedEvent
    | HumanPhoneRemovedEvent
    | HumanEmailVerifiedEvent
    | HumanOTPEmailAddedEvent
    | HumanOTPEmailRemovedEvent
    | OtherUserEvent(typ: string)

  /** `eventstore.SearchQueryBuilder` as far as the write models fill it in. */
  datatype SearchQuery = SearchQuery(
    aggregateTypes: seq<AggregateType>,
    aggregateIDs: seq<string>,
    eventTypes: seq<EventType>,
    resourceOwner: Option<string>)

  /** The query all three write models build: one user aggregate, the given
      event types, and a resource-owner restriction only for a non-empty owner. */
  function UserQuery(aggregateID: string, resourceOwner: string, eventTypes: seq<EventType>): SearchQuery
  {
    SearchQuery([UserAggregateType], [aggregateID], eventTypes,
                if resourceOwner != "" then Some(resourceOwner) else None)
  }

  // ---------------------------------------------------------------------------
  // Folding an event stream

  /** The state after applying `step` to every event of `events`, first to last. */
  function Fold<S>(step: (S, UserEvent) -> S, init: S, events: seq<UserEvent>): S
    decreases |events|
  {
    if events == [] then init
    else step(Fold(step, init, events[..|events| - 1]), events[|events| - 1])
  }

  /** The value of a field after `events`: what the last event that writes the
      field writes (`write(e) == Some(v)`), or `initial` if no event writes it. */
  function LastWrite<T>(write: UserEvent -> Option<T>, events: seq<UserEvent>, initial: T): T
    decreases |events|
  {
    if events == [] then initial
    else match write(events[|events| - 1])
      case Some(v) => v
      case None => LastWrite(write, events[..|events| - 1], initial)
  }

  /** A field `field` of the state that `step` overwrites with `write(e)` when
      that is present and leaves alone otherwise ends as `LastWrite` says. */
  lemma {:induction false} FoldIsLastWrite<S, T>(
    step: (S, UserEvent) -> S, field: S -> T, write: UserEvent -> Option<T>, init: S, events: seq<UserEvent>)
    requires forall s, e :: field(step(s, e)) == (if write(e).Some? then write(e).value else field(s))
    ensures field(Fold(step, init, events)) == LastWrite(write, events, field(init))
    decreases |events|
  {
    if events != [] {
      FoldIsLastWrite(step, field, write, init, events[..|events| - 1]);
    }
  }

  /** The event at `k` writes the field and no later event does: its value wins. */
  lemma {:induction false} LastWriterWins<T>(write: UserEvent -> Option<T>, events: seq<UserEvent>, initial: T, k: nat)
    requires k < |events| && write(events[k]).Some?
    requires forall j :: k < j < |events| ==> write(events[j]).None?
    ensures LastWrite(write, events, initial) == write(events[k]).value
    decreases |events|
  {
    if k < |events| - 1 {
      var prefix := events[..|events| - 1];
      assert write(events[|events| - 1]).None?;
      assert forall j :: k < j < |prefix| ==> prefix[j] == events[j];
      LastWriterWins(write, prefix, initial, k);
    }
  }

  /** No event writes the field: it keeps its initial value. */
  lemma {:induction false} NoWriterKeepsInitial<T>(write: UserEvent -> Option<T>, events: seq<UserEvent>, initial: T)
    requires forall j :: 0 <= j < |events| ==> write(events[j]).None?
    ensures LastWrite(write, events, initial) == initial
    decreases |events|
  {
    if events != [] {
      NoWriterKeepsInitial(write, events[..|events| - 1], initial);
    }
  }

  /** Appending events that write nothing leaves the field as it was. */
  lemma {:induction false} SilentSuffixIgnored<T>(
    write: UserEvent -> Option<T>, events: seq<UserEvent>, tail: seq<UserEvent>, initial: T)
    requires forall j :: 0 <= j < |tail| ==> write(tail[j]).None?
    ensures LastWrite(write, events + tail, initial) == LastWrite(write, events, initial)
    decreases |tail|
  {
    if tail != [] {
      var shorter := tail[..|tail| - 1];
      assert (events + tail)[..|events + tail| - 1] == events + shorter;
      assert write((events + tail)[|events + tail| - 1]).None?;
      assert LastWrite(write, events + tail, initial) == LastWrite(write, events + shorter, initial);
      SilentSuffixIgnored(write, events, shorter, initial);
    } else {
      assert events + tail == events;
    }
  }

  // ---------------------------------------------------------------------------
  // TOTP

  /** The fields of `HumanTOTPWriteModel` that `Reduce` computes. */
  datatype TOTPState = TOTPState(state: MFAState, secret: Option<CryptoValue>)

  /** One iteration of the TOTP `Reduce` loop. */
  function TOTPStep(s: TOTPState, e: UserEvent): TOTPState
  {
    match e
    case HumanOTPAddedEvent(secret) => TOTPState(MFAStateNotReady, secret)
    case HumanOTPVerifiedEvent => s.(state := MFAStateReady)
    case HumanOTPRemovedEvent => s.(state := MFAStateRemoved)
    case UserRemovedEvent => s.(state := MFAStateRemoved)
    case _ => s
  }

  /** Which state each event sets, independently of the state before it. */
  function TOTPStateWriter(e: UserEvent): Option<MFAState>
  {
    if e.HumanOTPAddedEvent? then Some(MFAStateNotReady)
    else if e.HumanOTPVerifiedEvent? then Some(MFAStateReady)
    else if e.HumanOTPRemovedEvent? || e.UserRemovedEvent? then Some(MFAStateRemoved)
    else None
  }

  /** Only an OTP-added event writes the secret, and it writes the event's secret. */
  function TOTPSecretWriter(e: UserEvent): Option<Option<CryptoValue>>
  {
    if e.HumanOTPAddedEvent? then Some(e.secret) else None
  }

  /** After any event stream, `State` is set by the last of the added,
      verified, OTP-removed and user-removed events, and `Secret` by the last
      added event; all other events are ignored. */
  lemma {:induction false} TOTPReduceIsLastWrites(init: TOTPState, events: seq<UserEvent>)
    ensures Fold(TOTPStep, init, events)
         == TOTPState(LastWrite(TOTPStateWriter, events, init.state), LastWrite(TOTPSecretWriter, events, init.secret))
  {
    FoldIsLastWrite(TOTPStep, (s: TOTPState) => s.state, TOTPStateWriter, init, events);
    FoldIsLastWrite(TOTPStep, (s: TOTPState) => s.secret, TOTPSecretWriter, init, events);
  }

  /** Events of types the TOTP reducer does not list change no field. */
  lemma {:induction false} TOTPIgnoresUnlisted(init: TOTPState, events: seq<UserEvent>, tail: seq<UserEvent>)
    requires forall j :: 0 <= j < |tail| ==>
      !(tail[j].HumanOTPAddedEvent? || tail[j].HumanOTPVerifiedEvent? || tail[j].HumanOTPRemovedEvent? || tail[j].UserRemovedEvent?)
    ensures Fold(TOTPStep, init, events + tail) == Fold(TOTPStep, init, events)
  {
    TOTPReduceIsLastWrites(init, events + tail);
    TOTPReduceIsLastWrites(init, events);
    SilentSuffixIgnored(TOTPStateWriter, events, tail, init.state);
    SilentSuffixIgnored(TOTPSecretWriter, events, tail, init.secret);
  }

  /** Verified and removed events never change the secret: without an added
      event the secret stays what it was. */
  lemma {:induction false} TOTPSecretOnlyFromAdded(init: TOTPState, events: seq<UserEvent>)
    requires forall j :: 0 <= j < |events| ==> !events[j].HumanOTPAddedEvent?
    ensures Fold(TOTPStep, init, events).secret == init.secret
  {
    TOTPReduceIsLastWrites(init, events);
    NoWriterKeepsInitial(TOTPSecretWriter, events, init.secret);
  }

  /** The last added event decides the secret, whatever follows it. */
  lemma {:induction false} TOTPSecretOfLastAdded(init: TOTPState, events: seq<UserEvent>, k: nat)
    requires k < |events| && events[k].HumanOTPAddedEvent?
    requires forall j :: k < j < |events| ==> !events[j].HumanOTPAddedEvent?
    ensures Fold(TOTPStep, init, events).secret == events[k].secret
  {
    TOTPReduceIsLastWrites(init, events);
    LastWriterWins(TOTPSecretWriter, events, init.secret, k);
  }

  class HumanTOTPWriteModel {
    var aggregateID: string
    var resourceOwner: string
    var events: seq<UserEvent>
    var state: MFAState
    var secret: Option<CryptoValue>

    /** `NewHumanTOTPWriteModel`: only the aggregate ID and the resource owner are set. */
    constructor (userID: string, owner: string)
      ensures aggregateID == userID && resourceOwner == owner
      ensures events == [] && state == MFAStateUnspecified && secret == None
    {
      aggregateID := userID;
      resourceOwner := owner;
      events := [];
      state := MFAStateUnspecified;
      secret := None;
    }

    /** Stands for the embedded write model receiving the filtered events. */
    method AppendEvents(more: seq<UserEvent>)
      modifies this`events
      ensures events == old(events) + more
    {
      events := events + more;
    }

    method Reduce()
      modifies this`state, this`secret
      ensures TOTPState(state, secret) == Fold(TOTPStep, TOTPState(old(state), old(secret)), events)
    {
      ghost var init := TOTPState(state, secret);
      var es := events;
      var i := 0;
      while i < |es|
        invariant 0 <= i <= |es|
        invariant TOTPState(state, secret) == Fold(TOTPStep, init, es[..i])
      {
        match es[i] {
        case HumanOTPAddedEvent(s) =>
          secret := s;
          state := MFAStateNotReady;
        case HumanOTPVerifiedEvent =>
          state := MFAStateReady;
        case HumanOTPRemovedEvent =>
          state := MFAStateRemoved;
        case UserRemovedEvent =>
          state := MFAStateRemoved;
        case _ =>
        }
        assert es[..i + 1][..i] == es[..i];
        i := i + 1;
      }
      assert es[..i] == es;
    }

    function Query(): (q: SearchQuery)
      reads this
      ensures q.resourceOwner.Some? <==> resourceOwner != ""
      ensures q.resourceOwner.Some? ==> q.resourceOwner.value == resourceOwner
      ensures q.aggregateTypes == [UserAggregateType] && q.aggregateIDs == [aggregateID]
      ensures q.eventTypes == [HumanMFAOTPAddedType, HumanMFAOTPVerifiedType, HumanMFAOTPRemovedType, UserRemovedType,
                               UserV1MFAOTPAddedType, UserV1MFAOTPVerifiedType, UserV1MFAOTPRemovedType]
    {
      UserQuery(aggregateID, resourceOwner,
                [HumanMFAOTPAddedType, HumanMFAOTPVerifiedType, HumanMFAOTPRemovedType, UserRemovedType,
                 UserV1MFAOTPAddedType, UserV1MFAOTPVerifiedType, UserV1MFAOTPRemovedType])
    }
  }

  // ---------------------------------------------------------------------------
  // OTP over SMS

  /** The fields of `HumanOTPSMSWriteModel` that `Reduce` computes. */
  datatype SMSState = SMSState(phoneVerified: bool, otpAdded: bool)

  /** One iteration of the SMS `Reduce` loop. */
  function SMSStep(s: SMSState, e: UserEvent): SMSState
  {
    match e
    case HumanPhoneVerifiedEvent => s.(phoneVerified := true)
    case HumanOTPSMSAddedEvent => s.(otpAdded := true)
    case HumanOTPSMSRemovedEvent => s.(otpAdded := false)
    case HumanPhoneRemovedEvent => SMSState(false, false)
    case UserRemovedEvent => SMSState(false, false)
    case _ => s
  }

  /** Phone verified sets the flag; phone removed and user removed clear it. */
  function SMSPhoneVerifiedWriter(e: UserEvent): Option<bool>
  {
    if e.HumanPhoneVerifiedEvent? then Some(true)
    else if e.HumanPhoneRemovedEvent? || e.UserRemovedEvent? then Some(false)
    else None
  }

  /** SMS OTP added sets the flag; SMS OTP removed, phone removed and user removed clear it. */
  function SMSOTPAddedWriter(e: UserEvent): Option<bool>
  {
    if e.HumanOTPSMSAddedEvent? then Some(true)
    else if e.HumanOTPSMSRemovedEvent? || e.HumanPhoneRemovedEvent? || e.UserRemovedEvent? then Some(false)
    else None
  }

  /** After any event stream, each SMS flag is what its last writer wrote. */
  lemma {:induction false} SMSReduceIsLastWrites(init: SMSState, events: seq<UserEvent>)
    ensures Fold(SMSStep, init, events)
         == SMSState(LastWrite(SMSPhoneVerifiedWriter, events, init.phoneVerified),
                     LastWrite(SMSOTPAddedWriter, events, init.otpAdded))
  {
    FoldIsLastWrite(SMSStep, (s: SMSState) => s.phoneVerified, SMSPhoneVerifiedWriter, init, events);
    FoldIsLastWrite(SMSStep, (s: SMSState) => s.otpAdded, SMSOTPAddedWriter, init, events);
  }

  /** Events of types the SMS reducer does not list change no field. */
  lemma {:induction false} SMSIgnoresUnlisted(init: SMSState, events: seq<UserEvent>, tail: seq<UserEvent>)
    requires forall j :: 0 <= j < |tail| ==>
      !(tail[j].HumanPhoneVerifiedEvent? || tail[j].HumanOTPSMSAddedEvent? || tail[j].HumanOTPSMSRemovedEvent?
        || tail[j].HumanPhoneRemovedEvent? || tail[j].UserRemovedEvent?)
    ensures Fold(SMSStep, init, events + tail) == Fold(SMSStep, init, events)
  {
    SMSReduceIsLastWrites(init, events + tail);
    SMSReduceIsLastWrites(init, events);
    SilentSuffixIgnored(SMSPhoneVerifiedWriter, events, tail, init.phoneVerified);
    SilentSuffixIgnored(SMSOTPAddedWriter, events, tail, init.otpAdded);
  }

  /** An SMS-OTP-added event that no SMS-OTP-removed, phone-removed or
      user-removed event follows leaves the SMS OTP added, whatever the state
      before the stream. */
  lemma {:induction false} SMSOTPAddedAfterLastAdd(init: SMSState, events: seq<UserEvent>, k: nat)
    requires k < |events| && events[k].HumanOTPSMSAddedEvent?
    requires forall j :: k < j < |events| ==> SMSOTPAddedWriter(events[j]).None?
    ensures Fold(SMSStep, init, events).otpAdded
  {
    SMSReduceIsLastWrites(init, events);
    LastWriterWins(SMSOTPAddedWriter, events, init.otpAdded, k);
  }

  /** Conversely, the SMS OTP is added after a stream only if such an event
      exists, or the stream touches no SMS OTP and it was added before. */
  lemma {:induction false} SMSOTPAddedOnlyAfterAdd(init: SMSState, events: seq<UserEvent>)
    requires Fold(SMSStep, init, events).otpAdded
    ensures || (exists k :: 0 <= k < |events| && events[k].HumanOTPSMSAddedEvent?
                            && forall j :: k < j < |events| ==> SMSOTPAddedWriter(events[j]).None?)
            || (init.otpAdded && forall j :: 0 <= j < |events| ==> SMSOTPAddedWriter(events[j]).None?)
  {
    SMSReduceIsLastWrites(init, events);
    if k :| 0 <= k < |events| && SMSOTPAddedWriter(events[k]).Some? {
      LastWriterExists(SMSOTPAddedWriter, events, k);
      var last :| k <= last < |events| && SMSOTPAddedWriter(events[last]).Some?
                  && forall j :: last < j < |events| ==> SMSOTPAddedWriter(events[j]).None?;
      LastWriterWins(SMSOTPAddedWriter, events, init.otpAdded, last);
      assert events[last].HumanOTPSMSAddedEvent?;
    } else {
      NoWriterKeepsInitial(SMSOTPAddedWriter, events, init.otpAdded);
    }
  }

  class HumanOTPSMSWriteModel {
    var aggregateID: string
    var resourceOwner: string
    var events: seq<UserEvent>
    var phoneVerified: bool
    var otpAdded: bool

    /** `NewHumanOTPSMSWriteModel`: only the aggregate ID and the resource owner are set. */
    constructor (userID: string, owner: string)
      ensures aggregateID == userID && resourceOwner == owner
      ensures events == [] && !phoneVerified && !otpAdded
    {
      aggregateID := userID;
      resourceOwner := owner;
      events := [];
      phoneVerified := false;
      otpAdded := false;
    }

    /** Stands for the embedded write model receiving the filtered events. */
    method AppendEvents(more: seq<UserEvent>)
      modifies this`events
      ensures events == old(events) + more
    {
      events := events + more;
    }

    method Reduce()
      modifies this`phoneVerified, this`otpAdded
      ensures SMSState(phoneVerified, otpAdded) == Fold(SMSStep, SMSState(old(phoneVerified), old(otpAdded)), events)
    {
      ghost var init := SMSState(phoneVerified, otpAdded);
      var es := events;
      var i := 0;
      while i < |es|
        invariant 0 <= i <= |es|
        invariant SMSState(phoneVerified, otpAdded) == Fold(SMSStep, init, es[..i])
      {
        match es[i] {
        case HumanPhoneVerifiedEvent =>
          phoneVerified := true;
        case HumanOTPSMSAddedEvent =>
          otpAdded := true;
        case HumanOTPSMSRemovedEvent =>
          otpAdded := false;
        case HumanPhoneRemovedEvent =>
          phoneVerified := false;
          otpAdded := false;
        case UserRemovedEvent =>
          phoneVerified := false;
          otpAdded := false;
        case _ =>
        }
        assert es[..i + 1][..i] == es[..i];
        i := i + 1;
      }
      assert es[..i] == es;
    }

    function Query(): (q: SearchQuery)
      reads this
      ensures q.resourceOwner.Some? <==> resourceOwner != ""
      ensures q.resourceOwner.Some? ==> q.resourceOwner.value == resourceOwner
      ensures q.aggregateTypes == [UserAggregateType] && q.aggregateIDs == [aggregateID]
      ensures q.eventTypes == [HumanPhoneVerifiedType, HumanOTPSMSAddedType, HumanOTPSMSRemovedType,
                               HumanPhoneRemovedType, UserRemovedType]
    {
      UserQuery(aggregateID, resourceOwner,
                [HumanPhoneVerifiedType, HumanOTPSMSAddedType, HumanOTPSMSRemovedType,
                 HumanPhoneRemovedType, UserRemovedType])
    }
  }

  // ---------------------------------------------------------------------------
  // OTP over email

  /** The fields of `HumanOTPEmailWriteModel` that `Reduce` computes. */
  datatype EmailState = EmailState(emailVerified: bool, otpAdded: bool)

  /** One iteration of the email `Reduce` loop. */
  function EmailStep(s: EmailState, e: UserEvent): EmailState
  {
    match e
    case HumanEmailVerifiedEvent => s.(emailVerified := true)
    case HumanOTPEmailAddedEvent => s.(otpAdded := true)
    case HumanOTPEmailRemovedEvent => s.(otpAdded := false)
    case UserRemovedEvent => EmailState(false, false)
    case _ => s
  }

  /** Email verified sets the flag; only user removed clears it. */
  function EmailVerifiedWriter(e: UserEvent): Option<bool>
  {
    if e.HumanEmailVerifiedEvent? then Some(true)
    else if e.UserRemovedEvent? then Some(false)
    else None
  }

  /** Email OTP added sets the flag; email OTP removed and user removed clear it. */
  function EmailOTPAddedWriter(e: UserEvent): Option<bool>
  {
    if e.HumanOTPEmailAddedEvent? then Some(true)
    else if e.HumanOTPEmailRemovedEvent? || e.UserRemovedEvent? then Some(false)
    else None
  }

  /** After any event stream, each email flag is what its last writer wrote. */
  lemma {:induction false} EmailReduceIsLastWrites(init: EmailState, events: seq<UserEvent>)
    ensures Fold(EmailStep, init, events)
         == EmailState(LastWrite(EmailVerifiedWriter, events, init.emailVerified),
                       LastWrite(EmailOTPAddedWriter, events, init.otpAdded))
  {
    FoldIsLastWrite(EmailStep, (s: EmailState) => s.emailVerified, EmailVerifiedWriter, init, events);
    FoldIsLastWrite(EmailStep, (s: EmailState) => s.otpAdded, EmailOTPAddedWriter, init, events);
  }

  /** Events of types the email reducer does not list change no field; a
      phone-removed event is one of them. */
  lemma {:induction false} EmailIgnoresUnlisted(init: EmailState, events: seq<UserEvent>, tail: seq<UserEvent>)
    requires forall j :: 0 <= j < |tail| ==>
      !(tail[j].HumanEmailVerifiedEvent? || tail[j].HumanOTPEmailAddedEvent? || tail[j].HumanOTPEmailRemovedEvent?
        || tail[j].UserRemovedEvent?)
    ensures Fold(EmailStep, init, events + tail) == Fold(EmailStep, init, events)
  {
    EmailReduceIsLastWrites(init, events + tail);
    EmailReduceIsLastWrites(init, events);
    SilentSuffixIgnored(EmailVerifiedWriter, events, tail, init.emailVerified);
    SilentSuffixIgnored(EmailOTPAddedWriter, events, tail, init.otpAdded);
  }

  /** Unlike the SMS model, the email model has no removal of the address:
      a verified email stays verified until the user itself is removed. */
  lemma {:induction false} EmailVerifiedUntilUserRemoved(init: EmailState, events: seq<UserEvent>, k: nat)
    requires k < |events| && events[k].HumanEmailVerifiedEvent?
    requires forall j :: k < j < |events| ==> !events[j].UserRemovedEvent?
    ensures Fold(EmailStep, init, events).emailVerified
  {
    EmailReduceIsLastWrites(init, events);
    var last :| k <= last < |events| && EmailVerifiedWriter(events[last]).Some?
                && forall j :: last < j < |events| ==> EmailVerifiedWriter(events[j]).None?
      by { LastWriterExists(EmailVerifiedWriter, events, k); }
    LastWriterWins(EmailVerifiedWriter, events, init.emailVerified, last);
  }

  /** If the event at `k` writes a field, some event at or after `k` is the last writer. */
  lemma {:induction false} LastWriterExists<T>(write: UserEvent -> Option<T>, events: seq<UserEvent>, k: nat)
    requires k < |events| && write(events[k]).Some?
    ensures exists last :: k <= last < |events| && write(events[last]).Some?
                           && forall j :: last < j < |events| ==> write(events[j]).None?
    decreases |events| - k
  {
    if forall j :: k < j < |events| ==> write(events[j]).None? {
      assert k <= k < |events|;
    } else {
      var next :| k < next < |events| && write(events[next]).Some?;
      LastWriterExists(write, events, next);
    }
  }

  class HumanOTPEmailWriteModel {
    var aggregateID: string
    var resourceOwner: string
    var events: seq<UserEvent>
    var emailVerified: bool
    var otpAdded: bool

    /** `NewHumanOTPEmailWriteModel`: only the aggregate ID and the resource owner are set. */
    constructor (userID: string, owner: string)
      ensures aggregateID == userID && resourceOwner == owner
      ensures events == [] && !emailVerified && !otpAdded
    {
      aggregateID := userID;
      resourceOwner := owner;
      events := [];
      emailVerified := false;
      otpAdded := false;
    }

    /** Stands for the embedded write model receiving the filtered events. */
    method AppendEvents(more: seq<UserEvent>)
      modifies this`events
      ensures events == old(events) + more
    {
      events := events + more;
    }

    method Reduce()
      modifies this`emailVerified, this`otpAdded
      ensures EmailState(emailVerified, otpAdded) == Fold(EmailStep, EmailState(old(emailVerified), old(otpAdded)), events)
    {
      ghost var init := EmailState(emailVerified, otpAdded);
      var es := events;
      var i := 0;
      while i < |es|
        invariant 0 <= i <= |es|
        invariant EmailState(emailVerified, otpAdded) == Fold(EmailStep, init, es[..i])
      {
        match es[i] {
        case HumanEmailVerifiedEvent =>
          emailVerified := true;
        case HumanOTPEmailAddedEvent =>
          otpAdded := true;
        case HumanOTPEmailRemovedEvent =>
          otpAdded := false;
        case UserRemovedEvent =>
          emailVerified := false;
          otpAdded := false;
        case _ =>
        }
        assert es[..i + 1][..i] == es[..i];
        i := i + 1;
      }
      assert es[..i] == es;
    }

    function Query(): (q: SearchQuery)
      reads this
      ensures q.resourceOwner.Some? <==> resourceOwner != ""
      ensures q.resourceOwner.Some? ==> q.resourceOwner.value == resourceOwner
      ensures q.aggregateTypes == [UserAggregateType] && q.aggregateIDs == [aggregateID]
      ensures q.eventTypes == [HumanEmailVerifiedType, HumanOTPEmailAddedType, HumanOTPEmailRemovedType, UserRemovedType]
    {
      UserQuery(aggregateID, resourceOwner,
                [HumanEmailVerifiedType, HumanOTPEmailAddedType, HumanOTPEmailRemovedType, UserRemovedType])
    }
  }
}
