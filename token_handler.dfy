/**
 * The `auth.tokens` projection: which events it subscribes to, and how
 * `Reduce` turns one event into one statement against the token view.
 *
 * The statements' effects on the database are not executed here; a
 * statement carries an `Action` naming the view call it would make and its
 * arguments. The calls that read other data (decoding the event, loading the
 * user's tokens, loading the project) are the function fields of `Env`.
 */
module TokenHandler {
  import opened Eventstore

  /** The projection's name, the table it writes. */
  const TokenTable: string := "auth.tokens"

  /** An event as the projection receives it. */
  datatype Event = Event(typ: EventType, aggregate: Aggregate, sequence: uint64, data: Bytes)

  /** A row of the token view. */
  datatype TokenView = TokenView(
    id: string,
    resourceOwner: string,
    userID: string,
    applicationID: string,
    userAgentID: string,
    audience: seq<string>,
    scopes: seq<string>,
    expiration: Time,
    sequence: uint64,
    preferredLanguage: string,
    refreshTokenID: string,
    isPAT: bool,
    instanceID: string)

  /** The part of the user view the projection reads. */
  datatype UserView = UserView(id: string, preferredLanguage: string)

  datatype OIDCConfig = OIDCConfig(clientID: string)

  /** An application of a project; `oidcConfig` is `None` for non-OIDC applications. */
  datatype Application = Application(appID: string, oidcConfig: Option<OIDCConfig>)

  /** A project as rebuilt from its events; sequence 0 means no event was applied. */
  datatype Project = Project(aggregateID: string, sequence: uint64, applications: seq<Application>)

  /** The JSON values the projection reads out of a decoded object. */
  datatype JsonValue = JsonString(s: string) | JsonOther

  /** The view call a statement makes when it is executed. */
  datatype Action =
    | PutToken(token: TokenView)
    | PutTokens(tokens: seq<TokenView>)
    | DeleteSessionTokens(agentID: string, event: Event)
    | DeleteUserTokens(event: Event)
    | DeleteToken(tokenID: string, instanceID: string)
    | DeleteTokensFromRefreshToken(refreshTokenID: string, instanceID: string)
    | DeleteApplicationTokens(event: Event, applicationIDs: seq<string>)
    | DeleteInstanceTokens(event: Event)
    | DeleteOrgTokens(event: Event)
    | NoOp

  datatype Statement = Statement(event: Event, action: Action)

  /** What `Reduce` reads besides the event.
      - tokenFromEvent: a fresh token view with the event appended;
      - userFromEvent: a fresh user view with the event appended;
      - tokensByUserID: the view's tokens of a user in an instance;
      - decodeObject: `json.Unmarshal` into a `map[string]interface{}`;
      - decodeApplication: `json.Unmarshal` into an application;
      - loadProject: the project of an ID in an instance, rebuilt from the
        events the eventstore returns for it. */
  datatype Env = Env(
    tokenFromEvent: Event -> Result<TokenView>,
    userFromEvent: Event -> Result<UserView>,
    tokensByUserID: (string, string) -> Result<seq<TokenView>>,
    decodeObject: Bytes -> Option<map<string, JsonValue>>,
    decodeApplication: Bytes -> Option<Application>,
    loadProject: (string, string) -> Result<Project>)

  // ---------------------------------------------------------------------------
  // Subscriptions

  /** One aggregate type and the event types of it the projection receives. */
  datatype AggregateReducer = AggregateReducer(aggregate: AggregateType, eventTypes: seq<EventType>)

  /** The event types `Reduce` has an explicit case for. */
  predicate Handled(t: EventType)
  {
    t in {
      UserTokenAddedType, PersonalAccessTokenAddedType,
      UserV1ProfileChangedType, HumanProfileChangedType,
      UserV1SignedOutType, HumanSignedOutType,
      UserLockedType, UserDeactivatedType, UserRemovedType,
      UserTokenRemovedType, PersonalAccessTokenRemovedType,
      HumanRefreshTokenRemovedType,
      ApplicationDeactivatedType, ApplicationRemovedType,
      ProjectDeactivatedType, ProjectRemovedType,
      InstanceRemovedEventType,
      OrgRemovedEventType
    }
  }

  /** `Reducers`: every subscribed event type is routed to `Reduce`, and
      `Reduce` has a case of its own for each of them; each group lists event
      types of its own aggregate only, and no aggregate has two groups. */
  function Reducers(): (rs: seq<AggregateReducer>)
    ensures forall i, j :: 0 <= i < |rs| && 0 <= j < |rs[i].eventTypes| ==> Handled(rs[i].eventTypes[j])
    ensures forall i, j :: 0 <= i < |rs| && 0 <= j < |rs[i].eventTypes| ==> DeclaringAggregate(rs[i].eventTypes[j]) == Some(rs[i].aggregate)
    ensures forall i, j :: 0 <= i < j < |rs| ==> rs[i].aggregate != rs[j].aggregate
  {
    [
      AggregateReducer(UserAggregateType, [
        UserTokenAddedType,
        UserV1ProfileChangedType,
        HumanProfileChangedType,
        UserV1SignedOutType,
        HumanSignedOutType,
        UserLockedType,
        UserDeactivatedType,
        UserRemovedType,
        UserTokenRemovedType,
        PersonalAccessTokenRemovedType,
        HumanRefreshTokenRemovedType]),
      AggregateReducer(ProjectAggregateType, [
        ApplicationDeactivatedType,
        ApplicationRemovedType,
        ProjectDeactivatedType,
        ProjectRemovedType]),
      AggregateReducer(OrgAggregateType, [OrgRemovedEventType]),
      AggregateReducer(InstanceAggregateType, [InstanceRemovedEventType])
    ]
  }

  /** `Reduce` has a case for personal-access-token-added events, but the
      projection does not subscribe to them, so that case is never reached
      through `Reducers`. */
  lemma PersonalAccessTokenAddedNotSubscribed()
    ensures Handled(PersonalAccessTokenAddedType)
    ensures forall i, j :: 0 <= i < |Reducers()| && 0 <= j < |Reducers()[i].eventTypes|
              ==> Reducers()[i].eventTypes[j] != PersonalAccessTokenAddedType
  {
  }

  /** The projection receives events of type `t` from aggregates of type `a`. */
  predicate Subscribed(a: AggregateType, t: EventType)
  {
    exists r :: r in Reducers() && r.aggregate == a && t in r.eventTypes
  }

  /** Whatever is subscribed is handled, is not personal-access-token-added,
      and comes from the aggregate that declares it. */
  lemma SubscribedIsHandled(a: AggregateType, t: EventType)
    requires Subscribed(a, t)
    ensures Handled(t) && t != PersonalAccessTokenAddedType && DeclaringAggregate(t) == Some(a)
  {
    var rs := Reducers();
    var r :| r in rs && r.aggregate == a && t in r.eventTypes;
    var i :| 0 <= i < |rs| && rs[i] == r;
    var j :| 0 <= j < |r.eventTypes| && r.eventTypes[j] == t;
    assert Handled(rs[i].eventTypes[j]) && DeclaringAggregate(rs[i].eventTypes[j]) == Some(rs[i].aggregate);
    PersonalAccessTokenAddedNotSubscribed();
  }

  /** Every handled type but personal-access-token-added is subscribed, under
      the aggregate that declares it: eleven user events, four project events,
      one org and one instance event. */
  lemma HandledIsSubscribed(t: EventType)
    requires Handled(t) && t != PersonalAccessTokenAddedType
    ensures DeclaringAggregate(t).Some? && Subscribed(DeclaringAggregate(t).value, t)
  {
    var rs := Reducers();
    var i := match DeclaringAggregate(t)
      case Some(UserAggregateType) => 0
      case Some(ProjectAggregateType) => 1
      case Some(OrgAggregateType) => 2
      case Some(InstanceAggregateType) => 3
      case None => 0;
    assert rs[i] in rs && rs[i].aggregate == DeclaringAggregate(t).value && t in rs[i].eventTypes;
  }

  /** The subscriptions are exactly the types `Reduce` handles, except
      personal-access-token-added, each under the aggregate that declares it. */
  lemma SubscribedExactlyHandled(a: AggregateType, t: EventType)
    ensures Subscribed(a, t) <==> Handled(t) && t != PersonalAccessTokenAddedType && DeclaringAggregate(t) == Some(a)
  {
    if Subscribed(a, t) {
      SubscribedIsHandled(a, t);
    }
    if Handled(t) && t != PersonalAccessTokenAddedType {
      HandledIsSubscribed(t);
    }
  }

  // ---------------------------------------------------------------------------
  // Reading the event payload

  /** The panic of a failed `.(string)` type assertion, as an error value. */
  const StringAssertionPanic: Error := Error(Panic, "", "interface conversion: interface {} is not string")

  /** The string under `key` of the JSON object in `data`; an undecodable
      payload is an internal error with `errorID`. */
  function StringField(data: Bytes, key: string, decode: Bytes -> Option<map<string, JsonValue>>, errorID: string): (r: Result<string>)
    ensures decode(data).None? ==> r == Err(Error(Internal, errorID, "could not unmarshal data"))
    ensures r.Ok? <==> decode(data).Some? && key in decode(data).value && decode(data).value[key].JsonString?
    ensures r.Ok? ==> r.value == decode(data).value[key].s
  {
    match decode(data)
    case None => Err(Error(Internal, errorID, "could not unmarshal data"))
    case Some(m) => if key in m && m[key].JsonString? then Ok(m[key].s) else Err(StringAssertionPanic)
  }

  /** `agentIDFromSession`: the user agent ID of a signed-out event. */
  function AgentIDFromSession(event: Event, env: Env): (r: Result<string>)
    ensures r == StringField(event.data, "userAgentID", env.decodeObject, "MODEL-sd325")
  {
    StringField(event.data, "userAgentID", env.decodeObject, "MODEL-sd325")
  }

  /** `tokenIDFromRemovedEvent`: the ID of a removed token or personal access token. */
  function TokenIDFromRemovedEvent(event: Event, env: Env): (r: Result<string>)
    ensures r == StringField(event.data, "tokenId", env.decodeObject, "MODEL-Sff32")
  {
    StringField(event.data, "tokenId", env.decodeObject, "MODEL-Sff32")
  }

  /** `refreshTokenIDFromRemovedEvent`: the ID of a removed refresh token. */
  function RefreshTokenIDFromRemovedEvent(event: Event, env: Env): (r: Result<string>)
    ensures r == StringField(event.data, "tokenId", env.decodeObject, "MODEL-Dfb3w")
  {
    StringField(event.data, "tokenId", env.decodeObject, "MODEL-Dfb3w")
  }

  /** The application an application event carries. */
  function ApplicationFromSession(event: Event, env: Env): (r: Result<Application>)
    ensures env.decodeApplication(event.data).None? ==> r == Err(Error(Internal, "MODEL-Hrw1q", "could not unmarshal data"))
    ensures env.decodeApplication(event.data).Some? ==> r == Ok(env.decodeApplication(event.data).value)
  {
    match env.decodeApplication(event.data)
    case None => Err(Error(Internal, "MODEL-Hrw1q", "could not unmarshal data"))
    case Some(application) => Ok(application)
  }

  const ProjectNotFound: Error := Error(NotFound, "EVENT-Dsdw2", "Errors.Project.NotFound")

  /** `getProjectByID`: a project no event was applied to does not exist. */
  function GetProjectByID(projectID: string, instanceID: string, load: (string, string) -> Result<Project>): (r: Result<Project>)
    ensures load(projectID, instanceID).Err? ==> r == Err(load(projectID, instanceID).error)
    ensures load(projectID, instanceID).Ok? && load(projectID, instanceID).value.sequence == 0 ==> r == Err(ProjectNotFound)
    ensures r.Ok? <==> load(projectID, instanceID).Ok? && load(projectID, instanceID).value.sequence != 0
    ensures r.Ok? ==> r.value == load(projectID, instanceID).value
  {
    var project :- load(projectID, instanceID);
    if project.sequence == 0 then Err(ProjectNotFound) else Ok(project)
  }

  // ---------------------------------------------------------------------------
  // The two loops of Reduce

  /** `after` is `before` with every token's preferred language set to
      `language`: same length, same order, every other field unchanged. */
  predicate PreferredLanguageSet(before: seq<TokenView>, after: seq<TokenView>, language: string)
  {
    && |after| == |before|
    && forall i :: 0 <= i < |before| ==> after[i] == before[i].(preferredLanguage := language)
  }

  /** The profile-change loop over the user's tokens. */
  method SetPreferredLanguage(tokens: seq<TokenView>, language: string) returns (updated: seq<TokenView>)
    ensures PreferredLanguageSet(tokens, updated, language)
  {
    updated := tokens;
    var i := 0;
    while i < |updated|
      invariant 0 <= i <= |updated| == |tokens|
      invariant forall k :: 0 <= k < i ==> updated[k] == tokens[k].(preferredLanguage := language)
      invariant forall k :: i <= k < |updated| ==> updated[k] == tokens[k]
    {
      updated := updated[i := updated[i].(preferredLanguage := language)];
      i := i + 1;
    }
  }

  /** The client IDs of the OIDC applications among `apps`, in order. */
  function OIDCClientIDs(apps: seq<Application>): seq<string>
  {
    if apps == [] then []
    else (if apps[0].oidcConfig.Some? then [apps[0].oidcConfig.value.clientID] else []) + OIDCClientIDs(apps[1..])
  }

  /** `OIDCClientIDs` works application by application: the IDs of a
      concatenation are the IDs of its parts, in the same order. */
  lemma {:induction false} OIDCClientIDsConcat(first: seq<Application>, second: seq<Application>)
    ensures OIDCClientIDs(first + second) == OIDCClientIDs(first) + OIDCClientIDs(second)
  {
    if first == [] {
      assert first + second == second;
    } else {
      assert (first + second)[1..] == first[1..] + second;
      OIDCClientIDsConcat(first[1..], second);
    }
  }

  /** An ID is collected exactly when some application has an OIDC
      configuration with that client ID. */
  lemma {:induction false} OIDCClientIDsMembership(apps: seq<Application>, id: string)
    ensures id in OIDCClientIDs(apps) <==> exists i :: 0 <= i < |apps| && apps[i].oidcConfig == Some(OIDCConfig(id))
  {
    if apps != [] {
      OIDCClientIDsMembership(apps[1..], id);
      if exists i :: 1 <= i < |apps| && apps[i].oidcConfig == Some(OIDCConfig(id)) {
        var i :| 1 <= i < |apps| && apps[i].oidcConfig == Some(OIDCConfig(id));
        assert apps[1..][i - 1] == apps[i];
      }
      if exists i :: 0 <= i < |apps[1..]| && apps[1..][i].oidcConfig == Some(OIDCConfig(id)) {
        var i :| 0 <= i < |apps[1..]| && apps[1..][i].oidcConfig == Some(OIDCConfig(id));
        assert apps[i + 1] == apps[1..][i];
      }
    }
  }

  /** The project loop: the client IDs of the project's OIDC applications. */
  method CollectOIDCClientIDs(apps: seq<Application>) returns (applicationIDs: seq<string>)
    ensures applicationIDs == OIDCClientIDs(apps)
  {
    applicationIDs := [];
    var i := 0;
    while i < |apps|
      invariant 0 <= i <= |apps|
      invariant applicationIDs == OIDCClientIDs(apps[..i])
    {
      var app := apps[i];
      assert apps[..i + 1] == apps[..i] + [app];
      OIDCClientIDsConcat(apps[..i], [app]);
      assert [app][1..] == [];
      if app.oidcConfig.Some? {
        applicationIDs := applicationIDs + [app.oidcConfig.value.clientID];
      }
      i := i + 1;
    }
    assert apps[..i] == apps;
  }

  // ---------------------------------------------------------------------------
  // Reduce

  /** The statement whose action `action` builds from an extracted value, or
      the extraction's error and no statement. */
  function StatementOr<T>(event: Event, extracted: Result<T>, action: T -> Action): Result<Statement>
  {
    match extracted
    case Err(e) => Err(e)
    case Ok(v) => Ok(Statement(event, action(v)))
  }

  /** `Reduce`: one statement for one event. */
  method Reduce(event: Event, env: Env) returns (r: Result<Statement>)
    ensures r.Ok? ==> r.value.event == event
    // dispatch: exactly the explicit cases do something
    ensures !Handled(event.typ) ==> r == Ok(Statement(event, NoOp))
    ensures Handled(event.typ) && r.Ok? ==> !r.value.action.NoOp?
    // tokens added
    ensures event.typ in {UserTokenAddedType, PersonalAccessTokenAddedType}
            ==> r == StatementOr(event, env.tokenFromEvent(event), t => PutToken(t))
    // profile changed: the user's tokens are rewritten with the new language
    ensures event.typ in {UserV1ProfileChangedType, HumanProfileChangedType} ==>
      var user := env.userFromEvent(event);
      var tokens := env.tokensByUserID(event.aggregate.id, event.aggregate.instanceID);
      && (user.Err? ==> r == Err(user.error))
      && (user.Ok? && tokens.Err? ==> r == Err(tokens.error))
      && (user.Ok? && tokens.Ok? ==>
            r.Ok? && r.value.action.PutTokens?
            && PreferredLanguageSet(tokens.value, r.value.action.tokens, user.value.preferredLanguage))
    // signed out: the tokens of the user agent
    ensures event.typ in {UserV1SignedOutType, HumanSignedOutType}
            ==> r == StatementOr(event, AgentIDFromSession(event, env), id => DeleteSessionTokens(id, event))
    // user locked, deactivated or removed: all tokens of the user
    ensures event.typ in {UserLockedType, UserDeactivatedType, UserRemovedType}
            ==> r == Ok(Statement(event, DeleteUserTokens(event)))
    // one token removed
    ensures event.typ in {UserTokenRemovedType, PersonalAccessTokenRemovedType}
            ==> r == StatementOr(event, TokenIDFromRemovedEvent(event, env), id => DeleteToken(id, event.aggregate.instanceID))
    // refresh token removed: the tokens issued from it
    ensures event.typ == HumanRefreshTokenRemovedType
            ==> r == StatementOr(event, RefreshTokenIDFromRemovedEvent(event, env),
                                 id => DeleteTokensFromRefreshToken(id, event.aggregate.instanceID))
    // application deactivated or removed: the tokens of that application
    ensures event.typ in {ApplicationDeactivatedType, ApplicationRemovedType}
            ==> r == StatementOr(event, ApplicationFromSession(event, env), (app: Application) => DeleteApplicationTokens(event, [app.appID]))
    // project deactivated or removed: the tokens of its OIDC applications
    ensures event.typ in {ProjectDeactivatedType, ProjectRemovedType}
            ==> r == StatementOr(event, GetProjectByID(event.aggregate.id, event.aggregate.instanceID, env.loadProject),
                                 (p: Project) => DeleteApplicationTokens(event, OIDCClientIDs(p.applications)))
    // instance or organization removed: all their tokens
    ensures event.typ == InstanceRemovedEventType ==> r == Ok(Statement(event, DeleteInstanceTokens(event)))
    ensures event.typ == OrgRemovedEventType ==> r == Ok(Statement(event, DeleteOrgTokens(event)))
  {
    match event.typ {
      case UserTokenAddedType | PersonalAccessTokenAddedType =>
        var token := env.tokenFromEvent(event);
        if token.Err? {
          return Err(token.error);
        }
        return Ok(Statement(event, PutToken(token.value)));
      case UserV1ProfileChangedType | HumanProfileChangedType =>
        var user := env.userFromEvent(event);
        if user.Err? {
          return Err(user.error);
        }
        var tokens := env.tokensByUserID(event.aggregate.id, event.aggregate.instanceID);
        if tokens.Err? {
          return Err(tokens.error);
        }
        var updated := SetPreferredLanguage(tokens.value, user.value.preferredLanguage);
        return Ok(Statement(event, PutTokens(updated)));
      case UserV1SignedOutType | HumanSignedOutType =>
        var id := AgentIDFromSession(event, env);
        if id.Err? {
          return Err(id.error);
        }
        return Ok(Statement(event, DeleteSessionTokens(id.value, event)));
      case UserLockedType | UserDeactivatedType | UserRemovedType =>
        return Ok(Statement(event, DeleteUserTokens(event)));
      case UserTokenRemovedType | PersonalAccessTokenRemovedType =>
        var id := TokenIDFromRemovedEvent(event, env);
        if id.Err? {
          return Err(id.error);
        }
        return Ok(Statement(event, DeleteToken(id.value, event.aggregate.instanceID)));
      case HumanRefreshTokenRemovedType =>
        var id := RefreshTokenIDFromRemovedEvent(event, env);
        if id.Err? {
          return Err(id.error);
        }
        return Ok(Statement(event, DeleteTokensFromRefreshToken(id.value, event.aggregate.instanceID)));
      case ApplicationDeactivatedType | ApplicationRemovedType =>
        var application := ApplicationFromSession(event, env);
        if application.Err? {
          return Err(application.error);
        }
        return Ok(Statement(event, DeleteApplicationTokens(event, [application.value.appID])));
      case ProjectDeactivatedType | ProjectRemovedType =>
        var project := GetProjectByID(event.aggregate.id, event.aggregate.instanceID, env.loadProject);
        if project.Err? {
          return Err(project.error);
        }
        var applicationIDs := CollectOIDCClientIDs(project.value.applications);
        return Ok(Statement(event, DeleteApplicationTokens(event, applicationIDs)));
      case InstanceRemovedEventType =>
        return Ok(Statement(event, DeleteInstanceTokens(event)));
      case OrgRemovedEventType =>
        return Ok(Statement(event, DeleteOrgTokens(event)));
      case _ =>
        return Ok(Statement(event, NoOp));
    }
  }
}
