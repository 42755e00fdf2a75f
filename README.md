# Event-sourcing core of the identity server, in Dafny

This project models four small, sequential pieces of the identity server's
event-sourcing layer and proves properties about them:

- **Second-factor write models** (`otp_write_model.dfy`, module `OtpWriteModel`).
  These are the TOTP, SMS-OTP and email-OTP write models. Each is a class whose
  `Reduce` loops over the user's events and overwrites its fields. `Reduce` is
  proved equal to a fold of a per-event step function. The lemmas then show that
  each field ends up holding what the last event that writes it wrote
  (`LastWrite`), so events of unlisted types change nothing. Each `Query`
  restricts to the resource owner exactly when the owner is non-empty.
- **Version-1 event record** (`event_v1.dfy`, module `EventV1`).
  - The accessors.
  - `Validate`: six required fields, checked in a fixed order. The first empty
    one decides the error, and every error is a precondition failure.
  - The `eventData` payload dispatch.
- **Version-3 event record** (`event_v3.dfy`, module `EventV3`).
  - `commandToEvent`: aggregate and sequence come from the latest sequence;
    creator, revision and type come from the command; the database-assigned
    fields are zero.
  - The accessors.
  - `Unmarshal`'s shortcut for an empty payload.
  - A write-then-read round trip of the payload.
- **Token projection** (`token_handler.dfy`, module `TokenHandler`).
  - The subscription table `Reducers`. Each subscribed type has its own case
    in `Reduce`.
  - `Reduce`: maps an event to exactly one statement or to the error that
    stopped it, with a no-op for every other event type. The effect of a
    statement is an `Action` value naming the view call it makes.
  - The profile-change loop: sets the preferred language, and nothing else,
    on every token.
  - The project loop: collects the OIDC client IDs in application order.
  - The not-found rule of `getProjectByID`.

`eventstore.dfy` (module `Eventstore`) holds the shared vocabulary:
- `uint64`, `uint16` and `byte`;
- `Result` and `Error`, with the error kinds;
- aggregates;
- the event-type constants, as an enumeration named after their Go identifiers.

JSON encoding and decoding, database reads and other calls into code outside
these files are function-valued parameters. One example is
`marshal: V -> Option<Bytes>` for `json.Marshal`. Another is the `Env` record
of `TokenHandler`. Their failures are modelled as the `None` or `Err` results of
those functions.

Two details of `token.go` are modelled as written; the contracts make them visible:
- `Reduce` handles personal-access-token-added events, but `Reducers` does not
  subscribe to them. It is the only handled type left out
  (`PersonalAccessTokenAddedNotSubscribed`, `SubscribedExactlyHandled`).
- Deactivating one application deletes tokens by the application's `AppID`.
  Deactivating a project deletes them by its applications' OIDC `ClientID`s
  (the application and project clauses of `Reduce`'s `ensures`).

## Model

| member | source | states |
|---|---|---|
| `OtpWriteModel.HumanTOTPWriteModel.constructor` | internal/command/user_human_otp_model.go:17-24 | sets the aggregate ID to the user ID and the resource owner to the given owner; no events, state unspecified, no secret |
| `OtpWriteModel.HumanTOTPWriteModel.AppendEvents` | internal/command/user_human_otp_model.go:10-11 | the embedded write model's event list grows by the given events, in order |
| `OtpWriteModel.HumanTOTPWriteModel.Reduce` | internal/command/user_human_otp_model.go:26-39 | the new `State` and `Secret` are the fold of the TOTP step over all events, starting from the old values; aggregate, owner and events are untouched, since the embedded base `Reduce` call is not modelled |
| `OtpWriteModel.HumanTOTPWriteModel.Query` | internal/command/user_human_otp_model.go:43-61 | one user aggregate with the model's ID and the seven OTP event types; a resource-owner restriction is present iff the owner is non-empty, and then it is the owner |
| `OtpWriteModel.HumanOTPSMSWriteModel.constructor` | internal/command/user_human_otp_model.go:70-77 | sets the aggregate ID and the resource owner; no events, both flags false |
| `OtpWriteModel.HumanOTPSMSWriteModel.AppendEvents` | internal/command/user_human_otp_model.go:63-64 | the embedded write model's event list grows by the given events, in order |
| `OtpWriteModel.HumanOTPSMSWriteModel.Reduce` | internal/command/user_human_otp_model.go:79-93 | the new flags are the fold of the SMS step over all events, starting from the old flags |
| `OtpWriteModel.HumanOTPSMSWriteModel.Query` | internal/command/user_human_otp_model.go:97-114 | one user aggregate with the model's ID and the five SMS event types; resource-owner restriction iff the owner is non-empty |
| `OtpWriteModel.HumanOTPEmailWriteModel.constructor` | internal/command/user_human_otp_model.go:123-130 | sets the aggregate ID and the resource owner; no events, both flags false |
| `OtpWriteModel.HumanOTPEmailWriteModel.AppendEvents` | internal/command/user_human_otp_model.go:116-117 | the embedded write model's event list grows by the given events, in order |
| `OtpWriteModel.HumanOTPEmailWriteModel.Reduce` | internal/command/user_human_otp_model.go:132-145 | the new flags are the fold of the email step over all events, starting from the old flags |
| `OtpWriteModel.HumanOTPEmailWriteModel.Query` | internal/command/user_human_otp_model.go:149-165 | one user aggregate with the model's ID and the four email event types; resource-owner restriction iff the owner is non-empty |
| `OtpWriteModel.FoldIsLastWrite` | internal/command/user_human_otp_model.go:27-39 | a field that each event either overwrites with a fixed value or leaves alone ends, after the loop, as the last write to it, or its initial value |
| `OtpWriteModel.LastWriterWins` | internal/command/user_human_otp_model.go:27-39 | the value written by the last event that writes a field is its final value, whatever came before |
| `OtpWriteModel.NoWriterKeepsInitial` | internal/command/user_human_otp_model.go:27-39 | a field no event writes keeps its initial value |
| `OtpWriteModel.SilentSuffixIgnored` | internal/command/user_human_otp_model.go:27-39 | appending events that do not write a field does not change it |
| `OtpWriteModel.TOTPReduceIsLastWrites` | internal/command/user_human_otp_model.go:27-39 | after any stream, `State` is NotReady/Ready/Removed according to the last added / verified / OTP-removed-or-user-removed event, and `Secret` is the secret of the last added event |
| `OtpWriteModel.TOTPIgnoresUnlisted` | internal/command/user_human_otp_model.go:27-39 | events other than added, verified, OTP removed and user removed change neither field |
| `OtpWriteModel.TOTPSecretOnlyFromAdded` | internal/command/user_human_otp_model.go:29-37 | without an added event the secret is unchanged: verified and removed events never touch it |
| `OtpWriteModel.TOTPSecretOfLastAdded` | internal/command/user_human_otp_model.go:29-31 | the secret is that of the last added event, whatever follows it |
| `OtpWriteModel.SMSReduceIsLastWrites` | internal/command/user_human_otp_model.go:80-93 | `phoneVerified` is set by phone verified and cleared by phone removed or user removed; `otpAdded` is set by SMS OTP added and cleared by SMS OTP removed, phone removed or user removed; the last such event wins |
| `OtpWriteModel.SMSIgnoresUnlisted` | internal/command/user_human_otp_model.go:80-93 | events of other types change neither SMS flag |
| `OtpWriteModel.SMSOTPAddedAfterLastAdd` | internal/command/user_human_otp_model.go:84-91 | from any prior state, an SMS-OTP-added event not followed by any event that clears the flag leaves `otpAdded` true |
| `OtpWriteModel.SMSOTPAddedOnlyAfterAdd` | internal/command/user_human_otp_model.go:84-91 | conversely, `otpAdded` is true after a stream only if some SMS-OTP-added event is followed by no clearing event, or no event touches the flag and it was true before |
| `OtpWriteModel.EmailReduceIsLastWrites` | internal/command/user_human_otp_model.go:133-145 | `emailVerified` is set by email verified and cleared only by user removed; `otpAdded` is set by email OTP added and cleared by email OTP removed or user removed; the last such event wins |
| `OtpWriteModel.EmailIgnoresUnlisted` | internal/command/user_human_otp_model.go:133-145 | events of other types, phone removed among them, change neither email flag |
| `OtpWriteModel.EmailVerifiedUntilUserRemoved` | internal/command/user_human_otp_model.go:134-144 | once the email is verified it stays verified unless a user-removed event follows: there is no email-removed case |
| `EventV1.Event.GetAggregate` | internal/eventstore/v1/models/event.go:38-46 | the aggregate's ID, type, resource owner and instance ID are the event's aggregate ID, aggregate type, resource owner and instance ID; no version |
| `EventV1.Event.CreatedAt` | internal/eventstore/v1/models/event.go:49-51 | the creation date |
| `EventV1.Event.DataAsBytes` | internal/eventstore/v1/models/event.go:54-56 | the stored data |
| `EventV1.Event.EditorService` | internal/eventstore/v1/models/event.go:63-65 | the editor service field |
| `EventV1.Event.Creator` | internal/eventstore/v1/models/event.go:68-70 | the editor user field |
| `EventV1.Event.PreviousAggregateSequence` | internal/eventstore/v1/models/event.go:73-75 | the previous sequence |
| `EventV1.Event.PreviousAggregateTypeSequence` | internal/eventstore/v1/models/event.go:78-80 | always equals `PreviousAggregateSequence` |
| `EventV1.Event.Sequence` | internal/eventstore/v1/models/event.go:83-85 | the event's sequence |
| `EventV1.Event.Type` | internal/eventstore/v1/models/event.go:88-90 | the event's type |
| `EventV1.Event.Revision` | internal/eventstore/v1/models/event.go:92-94 | always 0 |
| `EventV1.EventData` | internal/eventstore/v1/models/event.go:96-122 | a byte slice is returned unchanged; nil gives no bytes and no error; a value that is not a struct or a pointer to a struct gives InvalidArgument "MODEL-rjWdN"; a map or struct succeeds iff marshalling does, with the marshalled bytes; every error is InvalidArgument |
| `EventV1.PointerToPointerRefused` | internal/eventstore/v1/models/event.go:109-115 | only one pointer is looked through: a pointer to a pointer to a struct is refused |
| `EventV1.Validate` | internal/eventstore/v1/models/event.go:124-151 | a nil event gives "MODEL-oEAG4"; a non-nil event passes iff type, aggregate ID, aggregate type, service, user and resource owner are all non-empty; every error is PreconditionFailed |
| `EventV1.ValidateReportsFirstMissing` | internal/eventstore/v1/models/event.go:128-149 | a failing validation reports the error of the first empty field in checking order; all fields before it are set |
| `EventV1.MissingFieldErrorIdentifiesField` | internal/eventstore/v1/models/event.go:126-149 | the seven error IDs are distinct, so the ID alone tells which check failed |
| `EventV1.ValidateIgnoresOptionalFields` | internal/eventstore/v1/models/event.go:124-151 | ID, data, instance ID and sequence do not affect validation |
| `EventV3.Event.CreationDate` | internal/eventstore/v3/event.go:44-46 | equals `CreatedAt()` |
| `EventV3.Event.EditorUser` | internal/eventstore/v3/event.go:49-51 | equals `Creator()` |
| `EventV3.Event.GetAggregate` | internal/eventstore/v3/event.go:54-56 | the stored aggregate |
| `EventV3.Event.Creator` | internal/eventstore/v3/event.go:59-61 | the stored creator |
| `EventV3.Event.Revision` | internal/eventstore/v3/event.go:64-66 | the stored revision |
| `EventV3.Event.Type` | internal/eventstore/v3/event.go:69-71 | the stored type |
| `EventV3.Event.CreatedAt` | internal/eventstore/v3/event.go:74-76 | the stored creation time |
| `EventV3.Event.Sequence` | internal/eventstore/v3/event.go:79-81 | the stored sequence |
| `EventV3.Event.Unmarshal` | internal/eventstore/v3/event.go:84-89 | an empty payload gives no error and the target unchanged; otherwise the result of unmarshalling the payload |
| `EventV3.Event.DataAsBytes` | internal/eventstore/v3/event.go:92-94 | the stored payload |
| `EventV3.Event.GlobalSequence` | internal/eventstore/v3/event.go:97-99 | the stored global sequence |
| `EventV3.CommandToEvent` | internal/eventstore/v3/event.go:25-41 | a nil payload is stored empty and cannot fail; a marshal failure is returned and no event built; otherwise aggregate and sequence come from the latest sequence, creator, revision and type from the command, and creation time and global sequence are zero |
| `EventV3.CommandToEventAccessors` | internal/eventstore/v3/event.go:33-51 | read through the accessors, the new event has the latest sequence's aggregate and sequence, the command's creator as editor, and zero creation date and global sequence |
| `EventV3.PayloadRoundTrip` | internal/eventstore/v3/event.go:25-41 | reading back the event built from a command yields the command's payload when unmarshal inverts marshal, and leaves the target untouched for a nil payload |
| `TokenHandler.Reducers` | internal/auth/repository/eventsourcing/handler/token.go:57-148 | every event type the projection subscribes to has an explicit case in `Reduce`; each group lists only event types declared by its aggregate; no aggregate has two groups |
| `TokenHandler.SubscribedIsHandled` | internal/auth/repository/eventsourcing/handler/token.go:57-153 | a subscribed event type is handled by `Reduce`, is not personal-access-token-added, and is subscribed under the aggregate that declares it |
| `TokenHandler.HandledIsSubscribed` | internal/auth/repository/eventsourcing/handler/token.go:57-153 | every type `Reduce` handles except personal-access-token-added is subscribed under its declaring aggregate |
| `TokenHandler.SubscribedExactlyHandled` | internal/auth/repository/eventsourcing/handler/token.go:57-153 | the projection receives an event type from an aggregate type iff `Reduce` handles it, it is not personal-access-token-added, and that aggregate declares it (eleven user, four project, one org, one instance type) |
| `TokenHandler.PersonalAccessTokenAddedNotSubscribed` | internal/auth/repository/eventsourcing/handler/token.go:57-153 | personal-access-token-added has a case in `Reduce` but no subscription |
| `TokenHandler.AgentIDFromSession` | internal/auth/repository/eventsourcing/handler/token.go:262-269 | the string under "userAgentID"; an undecodable payload is Internal "MODEL-sd325" |
| `TokenHandler.TokenIDFromRemovedEvent` | internal/auth/repository/eventsourcing/handler/token.go:280-287 | the string under "tokenId"; an undecodable payload is Internal "MODEL-Sff32" |
| `TokenHandler.RefreshTokenIDFromRemovedEvent` | internal/auth/repository/eventsourcing/handler/token.go:289-296 | the string under "tokenId"; an undecodable payload is Internal "MODEL-Dfb3w" |
| `TokenHandler.StringField` | internal/auth/repository/eventsourcing/handler/token.go:262-296 | an undecodable payload is an Internal error with the helper's ID; the result is the string under the key iff it is present and a string |
| `TokenHandler.ApplicationFromSession` | internal/auth/repository/eventsourcing/handler/token.go:271-278 | an undecodable payload is Internal "MODEL-Hrw1q"; otherwise the decoded application |
| `TokenHandler.GetProjectByID` | internal/auth/repository/eventsourcing/handler/token.go:298-320 | a loading error is returned as is; a project with sequence 0 is NotFound "EVENT-Dsdw2"; the project is returned iff it loaded with a non-zero sequence |
| `TokenHandler.SetPreferredLanguage` | internal/auth/repository/eventsourcing/handler/token.go:174-176 | every token gets the given preferred language; length, order and all other fields are unchanged |
| `TokenHandler.OIDCClientIDsConcat` | internal/auth/repository/eventsourcing/handler/token.go:234-239 | the collected IDs of concatenated application lists are the concatenation of their IDs, so application order is kept |
| `TokenHandler.OIDCClientIDsMembership` | internal/auth/repository/eventsourcing/handler/token.go:234-239 | an ID is collected iff some application has an OIDC configuration with that client ID |
| `TokenHandler.CollectOIDCClientIDs` | internal/auth/repository/eventsourcing/handler/token.go:234-239 | the loop collects the client IDs of the OIDC applications, in application order |
| `TokenHandler.Reduce` | internal/auth/repository/eventsourcing/handler/token.go:150-260 | every statement is for the given event; an unlisted type gives a no-op and no error; every listed type gives a real action or an error; token added → put token; profile changed → put the user's tokens with the new language; signed out → delete the session's tokens; user locked, deactivated or removed → delete the user's tokens; token or PAT removed → delete one token by ID; refresh token removed → delete its tokens; application deactivated or removed → delete its tokens; project deactivated or removed → delete the tokens of its OIDC client IDs; instance or org removed → delete their tokens; each extraction or loading error is returned with no statement |

## Left out

- The embedded `eventstore.WriteModel` is not part of this model, and neither is the call to its `Reduce` at the end of each write model's `Reduce`. Its source is not among the modelled files, so none of its effects on the embedded fields is captured. The write models' `Reduce` covers only their own loop and returns nothing; its statement that aggregate, owner and events are untouched holds only because that call is left out. `AppendEvents` stands in for the event list being filled.
- The concrete string values of the event-type and aggregate-type constants are not part of this model. They are an enumeration named after the Go identifiers. Events of the write models are the Go event structs they switch on.
- `json.Marshal`, `json.Unmarshal`, `reflect`, the token view and user view `AppendEvent`, `TokensByUserID`, `ProjectByIDQuery`, the eventstore's `Filter`, the project's `AppendEvents` and `ProjectToModel` are foreign code. Each is a function-valued parameter. The last four are collapsed into one `loadProject`, and the project it returns is used as the project model.
- The version-1 `Unmarshal` only forwards to `json.Unmarshal`, so it is left out.
- The view calls inside the statement closures (`PutToken`, `DeleteUserTokens`, …) are not executed. A statement records the call and its arguments as an `Action`. `newToken` and the handler wiring are not modelled, and neither is `Name`, which is the constant `TokenTable`.
- `TokenHandler.SetPreferredLanguage`: the Go loop writes through pointers to token views. The model updates a sequence of token values. Aliasing between the returned tokens and other holders of the same pointers is not captured.
- The version-3 event keeps a pointer to the latest sequence's aggregate. The model copies the aggregate value, so sharing is not captured.
- A failed `.(string)` type assertion in the payload helpers panics in Go. Here it is an error of kind `Panic`.
- The `logging.WithError(err).Error(...)` calls in the four payload helpers (`agentIDFromSession`, `applicationFromSession`, `tokenIDFromRemovedEvent`, `refreshTokenIDFromRemovedEvent`) are logging only and are left out.
- Time values are opaque. Only equality and the zero value are used.
- The query builder's column selection and chaining are not modelled. Only the aggregate types, aggregate IDs, event types and resource owner the write models set are.
- The release-automation configuration at the repository root holds no logic and is not part of this model.
