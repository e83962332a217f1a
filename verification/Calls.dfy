/** What one repository or upstream call may answer, and what it does.

Every repository of the service runs on `Do()`, outside any transaction, so a
call is one SQL statement and takes effect atomically. `Answers` is that
statement as a relation: it leaves open which of several matching rows a `:one`
lookup returns, which calls fail, and what HighLevel says.
*/
module Calls {
  import opened Schema

  // ---- The world the services act on ----

  /** HighLevel: its token endpoint, provider associations and provider configurations. */
  datatype Upstream = Upstream(singleUseCodes: bool, usedCodes: set<string>,
                               associations: set<string>, configs: map<string, ProviderConfig>)

  datatype Issue = Issue(clientId: Id, platformId: Id, issuedAt: int, expiresAt: int)

  datatype Acceptance = Acceptance(clientId: Id, platformId: Id, at: int)

  /** What has happened so far, kept only to state properties of whole runs. */
  datatype History = History(
    issued: map<string, Issue>,            // state strings ever inserted
    presented: set<string>,                // state strings a callback ever asked to consume
    accepted: map<string, Acceptance>,     // state strings a consume succeeded on
    written: map<string, Id>,              // API keys ever stored, and for which integration
    lastKey: map<Id, string>,              // the last non-empty API key stored for an integration
    effects: multiset<EventKey>,           // downstream effects: marketplace dispatches and payment delegations
    urls: set<(Id, string)>,               // endpoints ever registered
    tokenFailed: set<Id>)                  // integrations for which a token insert failed

  const NO_HISTORY := History(map[], {}, map[], map[], map[], multiset{}, {}, {})

  /** `clock` is the database's NOW(); `skew` bounds how far the application's clock is from it. */
  datatype World = World(tables: Tables, upstream: Upstream, clock: int, skew: nat, history: History)

  /** The lifetime of an OAuth state, in seconds. */
  const STATE_TTL := 600

  // ---- Calls and replies ----

  datatype Call =
    | GetPlatform(id: Id)
    | GetClient(id: Id)
    | GetIntegration(id: Id)
    | GetByClientAndPlatform(clientId: Id, platformId: Id)
    | GetByExternalAccountID(externalAccountId: string)
    | CreateIntegration(row: Integration)
    | UpdateStatus(id: Id, status: Status)
    | DeleteIntegration(id: Id)
    | GetToken(id: Id)
    | CreateToken(id: Id, response: TokenResponse)
    | UpdateToken(id: Id, tokenId: Id, response: TokenResponse)
    | GetConfigByIntegration(id: Id)
    | GetConfigByLocation(locationId: string)
    | GetConfigByApiKey(apiKey: string)
    | CreateConfig(id: Id, config: ProviderConfig, apiKey: string)
    | UpdateConfig(id: Id, config: ProviderConfig, apiKey: string)
    | CreateEvent(key: EventKey)
    | CreateSubscription(id: Id, endpoint: string)
    | GetSubscription(id: Id, endpoint: string)
    | UpdateLastDelivery(id: Id, endpoint: string, subscriptionId: Id)
    | DeleteSubscription(id: Id, endpoint: string, subscriptionId: Id)
    | CreateState(clientId: Id, platformId: Id)
    | GetState(state: string)
    | ConsumeState(state: string)
    | DeleteExpiredStates
    | ExchangeCode(code: string)
    | GetUserInfo(accessToken: string)
    | RefreshUpstream(refreshToken: string)
    | CreateAssociation(locationId: string)
    | CreateProviderConfig(config: ProviderConfig)
    | FetchProviderConfig(locationId: string)
    | Dispatch(key: EventKey)          // hand a recorded marketplace event to the dispatcher
    | DelegateWebhook(key: EventKey)   // Transactions.ProcessPaymentWebhook
    | DelegateVerify                   // Transactions.VerifyPayment

  datatype HttpError = BadRequest | Unprocessable | OtherHttp

  datatype RpcCode = RpcNotFound | RpcFailedPrecondition | RpcInvalidArgument | RpcOther

  datatype Reply =
    | Ack
    | Err(error: RepoError)
    | FoundPlatform(enabled: bool, slug: string)
    | FoundClient(active: bool)
    | FoundIntegration(id: Id, integration: Integration)
    | FoundToken(token: Token)
    | FoundConfig(id: Id, config: ConfigRow)
    | FoundSubscription(subscription: Subscription)
    | FoundState(state: OauthState)
    | NewState(text: string, state: OauthState)
    | Exchanged(response: TokenResponse)
    | UserIs(userId: string)
    | Fetched(providerConfig: ProviderConfig)
    | Refused(http: HttpError)
    | Verdict(success: bool, failed: bool)
    | RpcFailed(code: RpcCode)

  /** What the status of one deposit can give: success, failure, or neither yet. */
  predicate Exclusive(success: bool, failed: bool) { !(success && failed) }

  predicate Fault(r: Reply) { r == Err(Raw(OtherSql)) }

  predicate Missing(r: Reply) { r == Err(WrapNotFound(NoRows)) }

  predicate Violates(r: Reply, e: SqlError) { r == Err(WrapError(e)) }

  function TokenRow(id: Id, r: TokenResponse, expiresAt: int): Token {
    Token(id, r.accessToken, r.refreshToken, expiresAt, r.scope, r.tokenType)
  }

  predicate NearNow(w: World, t: int) { w.clock - w.skew <= t <= w.clock + w.skew }

  function LogKey(h: History, id: Id, apiKey: string): History {
    if apiKey == "" then h else h.(written := h.written[apiKey := id], lastKey := h.lastKey[id := apiKey])
  }

  // ---- Reads: the world stays as it is ----

  predicate IsRead(call: Call) {
    || call.GetPlatform? || call.GetClient? || call.GetIntegration? || call.GetByClientAndPlatform?
    || call.GetByExternalAccountID? || call.GetToken? || call.GetConfigByIntegration? || call.GetConfigByLocation?
    || call.GetConfigByApiKey? || call.GetSubscription? || call.GetState? || call.GetUserInfo? || call.RefreshUpstream?
    || call.FetchProviderConfig? || call.DelegateVerify?
  }

  ghost predicate AnswersRead(w: World, call: Call, r: Reply)
    requires IsRead(call)
  {
    var t := w.tables;
    match call
    case GetPlatform(_) => Fault(r) || Missing(r) || r.FoundPlatform?
    case GetClient(_) => Fault(r) || Missing(r) || r.FoundClient?
    case GetIntegration(id) =>
      Fault(r) || (if id in t.integrations then r == FoundIntegration(id, t.integrations[id]) else Missing(r))
    case GetByClientAndPlatform(c, p) =>
      || Fault(r)
      || (r.FoundIntegration? && r.id in t.integrations && r.integration == t.integrations[r.id]
          && r.integration.clientId == c && r.integration.platformId == p)
      || (Missing(r) && forall i :: i in t.integrations ==>
                                      t.integrations[i].clientId != c || t.integrations[i].platformId != p)
    case GetByExternalAccountID(e) =>
      || Fault(r)
      || (r.FoundIntegration? && r.id in t.integrations && r.integration == t.integrations[r.id]
          && r.integration.externalAccountId == e)
      || (Missing(r) && forall i :: i in t.integrations ==> t.integrations[i].externalAccountId != e)
    case GetToken(id) => Fault(r) || (if id in t.tokens then r == FoundToken(t.tokens[id]) else Missing(r))
    case GetConfigByIntegration(id) =>
      Fault(r) || (if id in t.configs then r == FoundConfig(id, t.configs[id]) else Missing(r))
    case GetConfigByLocation(l) =>
      || Fault(r)
      || (r.FoundConfig? && r.id in t.configs && r.config == t.configs[r.id] && r.config.config.locationId == l)
      || (Missing(r) && forall i :: i in t.configs ==> t.configs[i].config.locationId != l)
    case GetConfigByApiKey(k) =>
      || Fault(r)
      || (r.FoundConfig? && r.id in t.configs && r.config == t.configs[r.id] && r.config.apiKey == k)
      || (Missing(r) && forall i :: i in t.configs ==> t.configs[i].apiKey != k)
    case GetSubscription(id, endpoint) =>
      || Fault(r)
      || (if (id, endpoint) in t.subscriptions then r == FoundSubscription(t.subscriptions[(id, endpoint)]) else Missing(r))
    case GetState(s) => Fault(r) || (if s in t.states then r == FoundState(t.states[s]) else Missing(r))
    case GetUserInfo(_) => r.Refused? || r.UserIs?
    case RefreshUpstream(_) => r.Refused? || r.Exchanged?
    case FetchProviderConfig(l) => r.Refused? || (l in w.upstream.configs && r == Fetched(w.upstream.configs[l]))
    case DelegateVerify => (r.Verdict? && Exclusive(r.success, r.failed)) || r.RpcFailed?
  }

  // ---- Writes: what a call that was carried out does, table by table ----

  predicate IsIntegrationWrite(call: Call) { call.CreateIntegration? || call.UpdateStatus? || call.DeleteIntegration? }

  ghost predicate IntegrationWrite(w: World, call: Call, r: Reply, w': World)
    requires IsIntegrationWrite(call)
  {
    var t, h := w.tables, w.history;
    match call
    case CreateIntegration(row) =>
      if exists i :: i in t.integrations
                       && t.integrations[i].clientId == row.clientId && t.integrations[i].platformId == row.platformId
      then Violates(r, UniqueViolation) && w' == w
      else
        || (Violates(r, ForeignKeyViolation) && w' == w)  // the client or the platform is gone
        || (r == FoundIntegration(t.nextId, row)
            && w' == w.(tables := t.(integrations := t.integrations[t.nextId := row], nextId := t.nextId + 1)))
    case UpdateStatus(id, status) =>
      if id !in t.integrations then Missing(r) && w' == w
      else
        var row := t.integrations[id].(status := status);
        r == FoundIntegration(id, row) && w' == w.(tables := t.(integrations := t.integrations[id := row]))
    case DeleteIntegration(id) =>
      if id !in t.integrations then Missing(r) && w' == w
      else r == Ack && w' == w.(tables := WithoutIntegration(t, id))
  }

  predicate IsTokenWrite(call: Call) { call.CreateToken? || call.UpdateToken? }

  ghost predicate TokenWrite(w: World, call: Call, r: Reply, w': World)
    requires IsTokenWrite(call)
  {
    var t, h := w.tables, w.history;
    match call
    case CreateToken(id, response) =>
      var noted := w.(history := h.(tokenFailed := h.tokenFailed + {id}));
      if id !in t.integrations then Violates(r, ForeignKeyViolation) && w' == noted
      else if id in t.tokens then Violates(r, UniqueViolation) && w' == noted
      else
        && r.FoundToken? && r.token == TokenRow(t.nextId, response, r.token.expiresAt)
        && NearNow(w, r.token.expiresAt - response.expiresIn)
        && w' == w.(tables := t.(tokens := t.tokens[id := r.token], nextId := t.nextId + 1))
    case UpdateToken(id, tokenId, response) =>
      if !(id in t.tokens && t.tokens[id].id == tokenId) then Missing(r) && w' == w
      else
        && r.FoundToken? && r.token == TokenRow(tokenId, response, r.token.expiresAt)
        && NearNow(w, r.token.expiresAt - response.expiresIn)
        && w' == w.(tables := t.(tokens := t.tokens[id := r.token]))
  }

  predicate IsConfigWrite(call: Call) { call.CreateConfig? || call.UpdateConfig? }

  ghost predicate ConfigWrite(w: World, call: Call, r: Reply, w': World)
    requires IsConfigWrite(call)
  {
    var t, h := w.tables, w.history;
    match call
    case CreateConfig(id, config, apiKey) =>
      if id in t.configs then Violates(r, UniqueViolation) && w' == w
      else if id !in t.integrations then Violates(r, ForeignKeyViolation) && w' == w
      else
        && r == FoundConfig(id, ConfigRow(config, apiKey))
        && w' == w.(tables := t.(configs := t.configs[id := ConfigRow(config, apiKey)]), history := LogKey(h, id, apiKey))
    case UpdateConfig(id, config, apiKey) =>
      if id !in t.configs then Missing(r) && w' == w
      else
        && r == FoundConfig(id, ConfigRow(config, apiKey))
        && w' == w.(tables := t.(configs := t.configs[id := ConfigRow(config, apiKey)]), history := LogKey(h, id, apiKey))
  }

  predicate IsWebhookWrite(call: Call) {
    call.CreateEvent? || call.CreateSubscription? || call.UpdateLastDelivery? || call.DeleteSubscription?
  }

  ghost predicate WebhookWrite(w: World, call: Call, r: Reply, w': World)
    requires IsWebhookWrite(call)
  {
    var t, h := w.tables, w.history;
    match call
    case CreateEvent(key) =>
      // ON CONFLICT DO NOTHING RETURNING yields no row
      if key in t.events then Violates(r, NoRows) && w' == w
      else if key.0 !in t.integrations then Violates(r, ForeignKeyViolation) && w' == w
      else r == Ack && w' == w.(tables := t.(events := t.events + {key}))
    case CreateSubscription(id, endpoint) =>
      if id !in t.integrations then Violates(r, ForeignKeyViolation) && w' == w
      else if (id, endpoint) in t.subscriptions then Violates(r, UniqueViolation) && w' == w
      else
        && r == Ack
        && w' == w.(tables := t.(subscriptions := t.subscriptions[(id, endpoint) := Subscription(t.nextId, None)],
                                 nextId := t.nextId + 1),
                    history := h.(urls := h.urls + {(id, endpoint)}))
    case UpdateLastDelivery(id, endpoint, subscriptionId) =>
      var k := (id, endpoint);
      if !(k in t.subscriptions && t.subscriptions[k].id == subscriptionId) then Missing(r) && w' == w
      else
        && r.FoundSubscription? && r.subscription.id == subscriptionId
        && w' == w.(tables := t.(subscriptions := t.subscriptions[k := r.subscription]))
    case DeleteSubscription(id, endpoint, subscriptionId) =>
      var k := (id, endpoint);
      if !(k in t.subscriptions && t.subscriptions[k].id == subscriptionId) then Missing(r) && w' == w
      else r == Ack && w' == w.(tables := t.(subscriptions := t.subscriptions - {k}))
  }

  predicate IsStateWrite(call: Call) { call.CreateState? || call.ConsumeState? || call.DeleteExpiredStates? }

  ghost predicate StateWrite(w: World, call: Call, r: Reply, w': World)
    requires IsStateWrite(call)
  {
    var t, h := w.tables, w.history;
    match call
    case CreateState(c, p) =>
      || (Violates(r, ForeignKeyViolation) && w' == w)
      || (&& r.NewState? && r.text != "" && r.text !in h.presented && r.text !in h.issued
          && r.state == OauthState(c, p, r.state.expiresAt, false)
          && NearNow(w, r.state.expiresAt - STATE_TTL)
          && w' == w.(tables := t.(states := t.states[r.text := r.state]),
                      history := h.(issued := h.issued[r.text := Issue(c, p, w.clock, r.state.expiresAt)])))
    case ConsumeState(s) =>
      var h' := h.(presented := h.presented + {s});
      if s in t.states && !t.states[s].consumed && t.states[s].expiresAt > w.clock
      then
        var row := t.states[s].(consumed := true);
        && r == FoundState(row)
        && w' == w.(tables := t.(states := t.states[s := row]),
                    history := h'.(accepted := h.accepted[s := Acceptance(row.clientId, row.platformId, w.clock)]))
      else Missing(r) && w' == w.(history := h')
    case DeleteExpiredStates =>
      && r == Ack
      && w' == w.(tables := t.(states := map s | s in t.states && t.states[s].expiresAt > w.clock :: t.states[s]))
  }

  predicate IsOutsideWrite(call: Call) {
    call.ExchangeCode? || call.CreateAssociation? || call.CreateProviderConfig? || call.Dispatch? || call.DelegateWebhook?
  }

  ghost predicate OutsideWrite(w: World, call: Call, r: Reply, w': World)
    requires IsOutsideWrite(call)
  {
    var t, h := w.tables, w.history;
    match call
    case ExchangeCode(code) =>
      var u := w.upstream;
      var w1 := w.(upstream := u.(usedCodes := u.usedCodes + {code}));
      // A refusal or a lost answer may or may not have spent the code.
      (r.Refused? && (w' == w || w' == w1)) || (r.Exchanged? && !(u.singleUseCodes && code in u.usedCodes) && w' == w1)
    case CreateAssociation(l) =>
      var u := w.upstream;
      var w1 := w.(upstream := u.(associations := u.associations + {l}));
      if l in u.associations then r.Refused? && w' == w
      else (r == Ack && w' == w1) || (r.Refused? && w' == w) || (r == Refused(OtherHttp) && w' == w1)
    case CreateProviderConfig(config) =>
      var u := w.upstream;
      var w1 := w.(upstream := u.(configs := u.configs[config.locationId := config]));
      if config.locationId in u.configs then r.Refused? && w' == w
      else (r == Ack && w' == w1) || (r.Refused? && w' == w) || (r == Refused(OtherHttp) && w' == w1)
    case Dispatch(key) =>
      r == Ack && w' == w.(history := h.(effects := h.effects + multiset{key}))
    case DelegateWebhook(key) =>
      (r == Ack || r.RpcFailed?) && w' == w.(history := h.(effects := h.effects + multiset{key}))
  }

  ghost predicate CarriedOut(w: World, call: Call, r: Reply, w': World)
    requires !IsRead(call)
  {
    if IsIntegrationWrite(call) then IntegrationWrite(w, call, r, w')
    else if IsTokenWrite(call) then TokenWrite(w, call, r, w')
    else if IsConfigWrite(call) then ConfigWrite(w, call, r, w')
    else if IsWebhookWrite(call) then WebhookWrite(w, call, r, w')
    else if IsStateWrite(call) then StateWrite(w, call, r, w')
    else OutsideWrite(w, call, r, w')
  }

  /** A statement that fails changes no row; the history still notes what was attempted. */
  function AfterFault(w: World, call: Call): World {
    match call
    case CreateToken(id, _) => w.(history := w.history.(tokenFailed := w.history.tokenFailed + {id}))
    case ConsumeState(s) => w.(history := w.history.(presented := w.history.presented + {s}))
    case _ => w
  }

  ghost predicate Answers(w: World, call: Call, r: Reply, w': World) {
    if IsRead(call) then AnswersRead(w, call, r) && w' == w
    else (!IsOutsideWrite(call) && Fault(r) && w' == AfterFault(w, call)) || CarriedOut(w, call, r, w')
  }

  // ---- What a call leaves alone ----

  /** A downstream effect: a marketplace event dispatched or a payment event delegated. */
  predicate IsEffect(call: Call) { call.Dispatch? || call.DelegateWebhook? }

  ghost predicate Frames(w: World, call: Call, w': World) {
    var t, t', h, h' := w.tables, w'.tables, w.history, w'.history;
    && w'.clock == w.clock && w'.skew == w.skew
    && (!IsStateWrite(call) ==>
          t'.states == t.states && h'.issued == h.issued && h'.accepted == h.accepted && h'.presented == h.presented)
    && (!IsConfigWrite(call) ==>
          h'.written == h.written && h'.lastKey == h.lastKey && (!IsIntegrationWrite(call) ==> t'.configs == t.configs))
    && (!IsWebhookWrite(call) ==>
          h'.urls == h.urls && (!IsIntegrationWrite(call) ==> t'.events == t.events && t'.subscriptions == t.subscriptions))
    && (!IsTokenWrite(call) ==>
          h'.tokenFailed == h.tokenFailed && (!IsIntegrationWrite(call) ==> t'.tokens == t.tokens))
    && (!IsIntegrationWrite(call) ==> t'.integrations == t.integrations)
    && (IsOutsideWrite(call) ==> t' == t)
    && (!IsOutsideWrite(call) || IsEffect(call) ==> w'.upstream == w.upstream)
    && h'.effects == (if IsEffect(call) then h.effects + multiset{call.key} else h.effects)
    && h.lastKey.Keys <= h'.lastKey.Keys && h.urls <= h'.urls && h.tokenFailed <= h'.tokenFailed
  }

  lemma CallFrames(w: World, call: Call, r: Reply, w': World)
    requires Answers(w, call, r, w')
    ensures Frames(w, call, w')
  {
    hide Frames, AnswersRead, IntegrationWrite, TokenWrite, ConfigWrite, WebhookWrite, StateWrite, OutsideWrite;
    if IsRead(call) {
      FaultFrames(w, call);
    } else if !IsOutsideWrite(call) && Fault(r) && w' == AfterFault(w, call) {
      FaultFrames(w, call);
    } else if IsIntegrationWrite(call) {
      IntegrationFrames(w, call, r, w');
    } else if IsTokenWrite(call) {
      TokenFrames(w, call, r, w');
    } else if IsConfigWrite(call) {
      ConfigFrames(w, call, r, w');
    } else if IsWebhookWrite(call) {
      WebhookFrames(w, call, r, w');
    } else if IsStateWrite(call) {
      StateFrames(w, call, r, w');
    } else {
      OutsideFrames(w, call, r, w');
    }
  }

  lemma FaultFrames(w: World, call: Call)
    requires !IsOutsideWrite(call)
    ensures Frames(w, call, AfterFault(w, call))
  {
  }

  lemma IntegrationFrames(w: World, call: Call, r: Reply, w': World)
    requires IsIntegrationWrite(call) && IntegrationWrite(w, call, r, w')
    ensures Frames(w, call, w')
  {
  }

  lemma TokenFrames(w: World, call: Call, r: Reply, w': World)
    requires IsTokenWrite(call) && TokenWrite(w, call, r, w')
    ensures Frames(w, call, w')
  {
  }

  lemma ConfigFrames(w: World, call: Call, r: Reply, w': World)
    requires IsConfigWrite(call) && ConfigWrite(w, call, r, w')
    ensures Frames(w, call, w')
  {
  }

  lemma WebhookFrames(w: World, call: Call, r: Reply, w': World)
    requires IsWebhookWrite(call) && WebhookWrite(w, call, r, w')
    ensures Frames(w, call, w')
  {
  }

  lemma StateFrames(w: World, call: Call, r: Reply, w': World)
    requires IsStateWrite(call) && StateWrite(w, call, r, w')
    ensures Frames(w, call, w')
  {
  }

  lemma OutsideFrames(w: World, call: Call, r: Reply, w': World)
    requires IsOutsideWrite(call) && OutsideWrite(w, call, r, w')
    ensures Frames(w, call, w')
  {
  }

  // ---- What every call guarantees to every other call in flight ----

  /** No id is reused, identities never change, and dependents go only with their integration. */
  ghost predicate TablesEvolve(t: Tables, t': Tables) {
    && t.nextId <= t'.nextId
    && (forall i :: i in t'.integrations && i < t.nextId ==>
          i in t.integrations && t'.integrations[i] == t.integrations[i].(status := t'.integrations[i].status))
    && (forall i :: i in t.configs && i in t'.integrations ==> i in t'.configs)
    && (forall i :: i in t.tokens && i in t'.integrations ==> i in t'.tokens && t'.tokens[i].id == t.tokens[i].id)
    && (forall k :: k in t.events && k.0 in t'.integrations ==> k in t'.events)
  }

  /** Nothing HighLevel knows or the history notes is forgotten, and a state string that
      was ever presented is not issued afterwards. */
  ghost predicate OutsideEvolves(w: World, w': World) {
    var u, u', h, h' := w.upstream, w'.upstream, w.history, w'.history;
    && w.clock <= w'.clock && w.skew == w'.skew
    && u'.singleUseCodes == u.singleUseCodes
    && u.usedCodes <= u'.usedCodes
    && (forall l :: l in u.configs ==> l in u'.configs && u'.configs[l] == u.configs[l])
    && (forall s :: s in h.issued ==> s in h'.issued && h'.issued[s] == h.issued[s])
    && (forall s :: s in h'.issued && s !in h.issued ==> s !in h.presented)
    && h.presented <= h'.presented
    && h.accepted.Keys <= h'.accepted.Keys
    && h.lastKey.Keys <= h'.lastKey.Keys
    && h.urls <= h'.urls
    && h.tokenFailed <= h'.tokenFailed
  }

  ghost predicate Evolves(w: World, w': World) {
    TablesEvolve(w.tables, w'.tables) && OutsideEvolves(w, w')
  }

  lemma CallTablesEvolve(w: World, call: Call, r: Reply, w': World)
    requires SchemaInv(w.tables) && Answers(w, call, r, w')
    ensures TablesEvolve(w.tables, w'.tables) && SchemaInv(w'.tables)
  {
    if IsRead(call) || w'.tables == w.tables {
    } else if IsIntegrationWrite(call) {
      IntegrationTablesEvolve(w, call, r, w');
    } else if IsTokenWrite(call) {
      TokenTablesEvolve(w, call, r, w');
    } else if IsConfigWrite(call) {
      ConfigTablesEvolve(w, call, r, w');
    } else if IsWebhookWrite(call) {
      WebhookTablesEvolve(w, call, r, w');
    }
  }

  lemma IntegrationTablesEvolve(w: World, call: Call, r: Reply, w': World)
    requires SchemaInv(w.tables) && IsIntegrationWrite(call) && IntegrationWrite(w, call, r, w')
    ensures TablesEvolve(w.tables, w'.tables) && SchemaInv(w'.tables)
  {
  }

  lemma TokenTablesEvolve(w: World, call: Call, r: Reply, w': World)
    requires SchemaInv(w.tables) && IsTokenWrite(call) && TokenWrite(w, call, r, w')
    ensures TablesEvolve(w.tables, w'.tables) && SchemaInv(w'.tables)
  {
  }

  lemma ConfigTablesEvolve(w: World, call: Call, r: Reply, w': World)
    requires SchemaInv(w.tables) && IsConfigWrite(call) && ConfigWrite(w, call, r, w')
    ensures TablesEvolve(w.tables, w'.tables) && SchemaInv(w'.tables)
  {
  }

  lemma WebhookTablesEvolve(w: World, call: Call, r: Reply, w': World)
    requires SchemaInv(w.tables) && IsWebhookWrite(call) && WebhookWrite(w, call, r, w')
    ensures TablesEvolve(w.tables, w'.tables) && SchemaInv(w'.tables)
  {
  }

  lemma CallOutsideEvolves(w: World, call: Call, r: Reply, w': World)
    requires Answers(w, call, r, w')
    ensures OutsideEvolves(w, w')
  {
    hide OutsideEvolves, Frames, AnswersRead, IntegrationWrite, TokenWrite, ConfigWrite, WebhookWrite, StateWrite, OutsideWrite;
    if IsStateWrite(call) {
      StateOutsideEvolves(w, call, r, w');
    } else if IsOutsideWrite(call) {
      OutsideOutsideEvolves(w, call, r, w');
    } else {
      CallFrames(w, call, r, w');
      FramesEvolve(w, call, w');
    }
  }

  lemma FramesEvolve(w: World, call: Call, w': World)
    requires !IsStateWrite(call) && !IsOutsideWrite(call) && Frames(w, call, w')
    ensures OutsideEvolves(w, w')
  {
  }

  lemma StateOutsideEvolves(w: World, call: Call, r: Reply, w': World)
    requires IsStateWrite(call) && (w' == AfterFault(w, call) || StateWrite(w, call, r, w'))
    ensures OutsideEvolves(w, w')
  {
  }

  lemma OutsideOutsideEvolves(w: World, call: Call, r: Reply, w': World)
    requires IsOutsideWrite(call) && OutsideWrite(w, call, r, w')
    ensures OutsideEvolves(w, w')
  {
  }
}
