/** The procedures of the Clients service as programs over calls.

A program counter says which call a procedure makes next (`NextCall`) and what
it carries; `Resume` is the code between that call's reply and the next call.
Nothing is atomic beyond a single call.
*/
module Program {
  import opened Schema
  import opened Calls

  /** The provider settings; both the OAuth service and the dispatcher get the same ones. */
  datatype Settings = Settings(name: string, description: string, imageUrl: string, paymentsUrl: string, queryUrl: string)

  function OwnConfig(s: Settings, locationId: string): ProviderConfig {
    ProviderConfig(s.name, s.description, s.imageUrl, locationId, s.queryUrl, s.paymentsUrl, false)
  }

  /** The configuration says what the settings say, field by field, and is for this location. */
  predicate Announces(c: ProviderConfig, s: Settings, locationId: string) {
    && c.name == s.name && c.description == s.description && c.imageUrl == s.imageUrl
    && c.queryUrl == s.queryUrl && c.paymentsUrl == s.paymentsUrl
    && c.locationId == locationId && !c.supportsSubscriptionSchedule
  }

  // ---- Requests ----

  datatype Event = Event(eventType: string, eventId: string, appId: Option<Id>, locationId: string)

  datatype PaymentEvent = PaymentEvent(eventId: string, locationId: string, apiKey: string)

  datatype QueryRequest = QueryRequest(opType: string, transactionId: string, apiKey: string, chargeId: string)

  /** Whether the random generator gives a state and the configured authorization URL parses. */
  datatype Begin = Begin(at: Pair, stateDrawn: bool, urlParses: bool)

  datatype Pair = Pair(clientId: Id, platformId: Id)

  /** `apiKey` is the random key a registration would draw, if the generator works. */
  datatype Request =
    | Callback(code: string, state: string, apiKey: Option<string>)
    | Register(id: Id, locationId: string, accessToken: string, apiKey: Option<string>)
    | Webhook(providerId: string, signed: bool, parsed: Option<Event>)
    | PaymentWebhook(payment: Option<PaymentEvent>)
    | Query(query: QueryRequest)
    | BeginAuthorization(begin: Begin)
    | ExpireStates
    | RegisterWebhook(id: Id, callbackUrl: string)
    | UnregisterWebhook(id: Id)
    | Install(clientId: Id, platformId: Id, externalAccountId: string)
    | Uninstall(id: Id)
    | Reconnect(id: Id)
    | Disconnect(id: Id)
    | Sync(id: Id)
    | Refresh(id: Id)

  // ---- Outcomes ----

  datatype Error =
    | MissingCode | StateConsumed | StateExpired | InvalidState
    | ProviderNotSupported | PlatformNotFound | PlatformDisabled | ClientNotFound | ClientInactive
    | TokenExchangeFailed | UserInfoFailed | MissingLocationId | MissingAccessToken
    | IntegrationNotFound | IntegrationAlreadyExists | IntegrationNotActive
    | ProviderAssociationFailed | ProviderConfigFailed | ApiKeyGenerationFailed
    | OAuthTokenNotFound | TokenRefreshFailed
    | InvalidSignature | InvalidPayload | DuplicateEvent | WebhookNotFound | DispatchFailed
    | ProviderConfigNotFound | MissingApiKey | InvalidApiKey | UnsupportedType | MissingTransactionId
    | TransactionNotFound | SubscriptionsNotSupported | InvalidVerification
    | RecordNotFound | RecordExists | ConstraintViolated | Internal

  function Translate(e: RepoError): Error {
    match e
    case NotFound => RecordNotFound
    case Duplicate => RecordExists
    case Constraint => ConstraintViolated
    case Raw(_) => Internal
  }

  /** The usual `if err == repo.ErrNotFound { return X }; if err != nil { return translateError(err) }`. */
  function NotFoundAs(e: RepoError, x: Error): Error {
    if e == NotFound then x else Translate(e)
  }

  datatype CallbackResult = CallbackResult(id: Id, clientId: Id, platformId: Id, response: TokenResponse, expiresAt: int,
                                           userId: string, registered: bool, registrationError: Option<Error>)

  datatype Outcome =
    | Failed(error: Error)
    | CallbackDone(result: CallbackResult)
    | Registered(id: Id)
    | Installed(id: Id)                    // an INSTALL event was dispatched and its config is in place
    | Dispatched                           // any other marketplace event was dispatched
    | Delegated                            // a payment event was processed by Transactions
    | Verified(success: bool, failed: bool)
    | Begun(state: string)
    | Completed

  // ---- Program counters ----

  datatype CallbackCtx = CallbackCtx(settings: Settings, code: string, state: string, apiKey: Option<string>)

  datatype CallbackPc =
    | Consume | Classify
    | FirstExchange | ByExternalAccount(loc: string) | ByConfigLocation(loc: string) | ById(id: Id)
    | CheckPlatform(at: Pair) | CheckClient(at: Pair) | Exchange(at: Pair)
    | UserInfo(at: Pair, resp: TokenResponse)
    | Existing(at: Pair, resp: TokenResponse, user: string)
    | Activate(at: Pair, resp: TokenResponse, user: string, id: Id)
    | Create(at: Pair, resp: TokenResponse, user: string)
    | StoreToken(at: Pair, resp: TokenResponse, user: string, id: Id)

  datatype RegisterCtx = RegisterCtx(settings: Settings, id: Id, loc: string, accessToken: string,
                                     apiKey: Option<string>, parent: Option<CallbackResult>)

  datatype RegisterPc =
    | ReadIntegration | ReadPlatform(platformId: Id)
    | Associate | Connect | Fetch
    | Insert(config: ProviderConfig, key: string) | Overwrite(config: ProviderConfig, key: string)

  datatype WebhookCtx = WebhookCtx(settings: Settings, event: Event)

  datatype WebhookPc =
    | ResolveExternal | ResolveConfig | ResolveOther
    | Record(id: Id) | CheckSubscription(id: Id) | Touch(id: Id, subscriptionId: Id) | Hand(id: Id)
    | InstallExternal | InstallConfig | InstallById(id: Id) | InstallFind(id: Id) | InstallCreate(id: Id)

  datatype PaymentPc =
    | PayConfig(ev: PaymentEvent) | PayIntegration(ev: PaymentEvent, id: Id)
    | PayRecord(ev: PaymentEvent, id: Id) | PayDelegate(ev: PaymentEvent, id: Id)
    | QueryKey(query: QueryRequest) | QueryVerify

  datatype AdminPc =
    | BeginPlatform(begin: Begin) | BeginClient(begin: Begin, slug: string) | BeginCreate(begin: Begin)
    | Expire
    | HookIntegration(id: Id, url: string) | HookPlatform(id: Id, url: string, platformId: Id) | HookCreate(id: Id, url: string)
    | UnhookFind(id: Id) | UnhookIntegration(id: Id, sub: Id) | UnhookPlatform(id: Id, sub: Id, platformId: Id) | UnhookDelete(id: Id, sub: Id)
    | InstallClient(at: Pair, ext: string) | InstallPlatform(at: Pair, ext: string)
    | InstallExisting(at: Pair, ext: string) | InstallInsert(at: Pair, ext: string)
    | UninstallRead(id: Id) | UninstallRevoke(id: Id) | UninstallDelete(id: Id)
    | ReconnectRead(id: Id) | ReconnectWrite(id: Id)
    | DisconnectRead(id: Id) | DisconnectWrite(id: Id)
    | SyncRead(id: Id) | SyncWrite(id: Id)
    | RefreshRead(id: Id) | RefreshToken(id: Id, platformId: Id) | RefreshPlatform(id: Id, token: Token, platformId: Id)
    | RefreshCall(id: Id, token: Token) | RefreshStore(id: Id, token: Token, resp: TokenResponse)

  datatype Pc =
    | InCallback(cx: CallbackCtx, cb: CallbackPc)
    | InRegister(rx: RegisterCtx, rg: RegisterPc)
    | InWebhook(wx: WebhookCtx, wh: WebhookPc)
    | InPayment(py: PaymentPc)
    | InAdmin(ad: AdminPc)
    | Done(outcome: Outcome)

  /** A callback about to store its token. */
  predicate Storing(pc: Pc) { pc.InCallback? && pc.cb.StoreToken? }

  function Fail(e: Error): Pc { Done(Failed(e)) }

  function Supported(slug: string): bool { slug == "highlevel" }

  predicate IsInstall(e: Event) { e.eventType == "INSTALL" || e.eventType == "integration.installed" }

  // ---- Entry points ----

  function Start(settings: Settings, req: Request): Pc {
    match req
    case Callback(code, state, key) =>
      if code == "" then Fail(MissingCode)
      else InCallback(CallbackCtx(settings, code, state, key), if state != "" then Consume else FirstExchange)
    case Register(id, loc, accessToken, key) =>
      StartRegister(RegisterCtx(settings, id, loc, accessToken, key, None))
    case Webhook(providerId, signed, parsed) =>
      if !Supported(providerId) then Fail(ProviderNotSupported)
      else if !signed then Fail(InvalidSignature)
      else if parsed.None? then Fail(InvalidPayload)
      else StartWebhook(WebhookCtx(settings, parsed.value))
    case PaymentWebhook(payment) =>
      if payment.None? || Blank(payment.value.eventId) then Fail(InvalidPayload) else InPayment(PayConfig(payment.value))
    case Query(q) => if Blank(q.apiKey) then Fail(MissingApiKey) else InPayment(QueryKey(q))
    case BeginAuthorization(begin) => InAdmin(BeginPlatform(begin))
    case ExpireStates => InAdmin(Expire)
    case RegisterWebhook(id, url) => InAdmin(HookIntegration(id, url))
    case UnregisterWebhook(id) => InAdmin(UnhookFind(id))
    case Install(c, p, ext) => InAdmin(InstallClient(Pair(c, p), ext))
    case Uninstall(id) => InAdmin(UninstallRead(id))
    case Reconnect(id) => InAdmin(ReconnectRead(id))
    case Disconnect(id) => InAdmin(DisconnectRead(id))
    case Sync(id) => InAdmin(SyncRead(id))
    case Refresh(id) => InAdmin(RefreshRead(id))
  }

  function StartRegister(rx: RegisterCtx): Pc {
    if rx.loc == "" then EndRegister(rx, Some(MissingLocationId))
    else if rx.accessToken == "" then EndRegister(rx, Some(MissingAccessToken))
    else InRegister(rx, ReadIntegration)
  }

  /** Called on its own a registration reports its error; inside a callback it is best effort. */
  function EndRegister(rx: RegisterCtx, error: Option<Error>): Pc {
    match (rx.parent, error)
    case (None, None) => Done(Registered(rx.id))
    case (None, Some(e)) => Fail(e)
    case (Some(result), _) => Done(CallbackDone(result.(registered := error.None?, registrationError := error)))
  }

  function StartWebhook(wx: WebhookCtx): Pc {
    if wx.event.locationId != "" then
      InWebhook(wx, if IsInstall(wx.event) then ResolveExternal else ResolveOther)
    else match wx.event.appId
      case Some(id) => InWebhook(wx, Record(id))
      case None => Fail(InvalidPayload)
  }

  // ---- The next call ----

  function NextCall(pc: Pc): Call
    requires !pc.Done?
  {
    match pc
    case InCallback(cx, cb) => CallbackCall(cx, cb)
    case InRegister(rx, rg) => RegisterCall(rx, rg)
    case InWebhook(wx, wh) => WebhookCall(wx, wh)
    case InPayment(py) => PaymentCall(py)
    case InAdmin(ad) => AdminCall(ad)
  }

  function Resume(pc: Pc, r: Reply): Pc
    requires !pc.Done?
  {
    match pc
    case InCallback(cx, cb) => CallbackResume(cx, cb, r)
    case InRegister(rx, rg) => RegisterResume(rx, rg, r)
    case InWebhook(wx, wh) => WebhookResume(wx, wh, r)
    case InPayment(py) => PaymentResume(py, r)
    case InAdmin(ad) => AdminResume(ad, r)
  }

  // ---- HandleCallback and ProcessCallback ----

  function CallbackCall(cx: CallbackCtx, cb: CallbackPc): Call {
    match cb
    case Consume => ConsumeState(cx.state)
    case Classify => GetState(cx.state)
    case FirstExchange => ExchangeCode(cx.code)
    case ByExternalAccount(loc) => GetByExternalAccountID(loc)
    case ByConfigLocation(loc) => GetConfigByLocation(loc)
    case ById(id) => GetIntegration(id)
    case CheckPlatform(at) => GetPlatform(at.platformId)
    case CheckClient(at) => GetClient(at.clientId)
    case Exchange(_) => ExchangeCode(cx.code)
    case UserInfo(_, resp) => GetUserInfo(resp.accessToken)
    case Existing(at, _, _) => GetByClientAndPlatform(at.clientId, at.platformId)
    case Activate(_, _, _, id) => UpdateStatus(id, ACTIVE)
    case Create(at, _, user) => CreateIntegration(Integration(at.clientId, at.platformId, user, ACTIVE))
    case StoreToken(_, resp, _, id) => CreateToken(id, resp)
  }

  function CallbackResume(cx: CallbackCtx, cb: CallbackPc, r: Reply): Pc {
    match (cb, r)
    case (Consume, FoundState(row)) => InCallback(cx, CheckPlatform(Pair(row.clientId, row.platformId)))
    case (Consume, Err(e)) => if e == NotFound then InCallback(cx, Classify) else Fail(Translate(e))
    case (Classify, FoundState(row)) => Fail(if row.consumed then StateConsumed else StateExpired)
    case (Classify, Err(_)) => Fail(InvalidState)
    case (FirstExchange, Exchanged(resp)) =>
      if resp.locationId == "" then Fail(MissingLocationId) else InCallback(cx, ByExternalAccount(resp.locationId))
    case (FirstExchange, Refused(_)) => Fail(TokenExchangeFailed)
    case (ByExternalAccount(_), FoundIntegration(_, row)) => InCallback(cx, CheckPlatform(Pair(row.clientId, row.platformId)))
    case (ByExternalAccount(loc), Err(e)) => if e == NotFound then InCallback(cx, ByConfigLocation(loc)) else Fail(Translate(e))
    case (ByConfigLocation(_), FoundConfig(id, _)) => InCallback(cx, ById(id))
    case (ByConfigLocation(_), Err(e)) => Fail(NotFoundAs(e, IntegrationNotFound))
    case (ById(_), FoundIntegration(_, row)) => InCallback(cx, CheckPlatform(Pair(row.clientId, row.platformId)))
    case (ById(_), Err(e)) => Fail(NotFoundAs(e, IntegrationNotFound))
    case (CheckPlatform(at), FoundPlatform(enabled, slug)) =>
      if !enabled then Fail(PlatformDisabled) else if !Supported(slug) then Fail(ProviderNotSupported)
      else InCallback(cx, CheckClient(at))
    case (CheckPlatform(_), Err(e)) => Fail(NotFoundAs(e, PlatformNotFound))
    case (CheckClient(at), FoundClient(active)) => if active then InCallback(cx, Exchange(at)) else Fail(ClientInactive)
    case (CheckClient(_), Err(e)) => Fail(NotFoundAs(e, ClientNotFound))
    case (Exchange(at), Exchanged(resp)) => InCallback(cx, UserInfo(at, resp))
    case (Exchange(_), Refused(_)) => Fail(TokenExchangeFailed)
    case (UserInfo(at, resp), UserIs(user)) => InCallback(cx, Existing(at, resp, user))
    case (UserInfo(_, _), Refused(_)) => Fail(UserInfoFailed)
    case (Existing(at, resp, user), FoundIntegration(id, row)) =>
      if row.status == CREATED then InCallback(cx, Activate(at, resp, user, id)) else Fail(IntegrationAlreadyExists)
    case (Existing(at, resp, user), Err(e)) =>
      if e == NotFound then InCallback(cx, Create(at, resp, user)) else Fail(Translate(e))
    case (Activate(at, resp, user, _), FoundIntegration(id, _)) => InCallback(cx, StoreToken(at, resp, user, id))
    case (Create(at, resp, user), FoundIntegration(id, _)) => InCallback(cx, StoreToken(at, resp, user, id))
    case (StoreToken(at, resp, user, id), FoundToken(token)) =>
      var result := CallbackResult(id, at.clientId, at.platformId, resp, token.expiresAt, user, false, None);
      StartRegister(RegisterCtx(cx.settings, id, resp.locationId, resp.accessToken, cx.apiKey, Some(result)))
    case (_, Err(e)) => Fail(Translate(e))
    case _ => Fail(Internal)
  }

  // ---- RegisterProvider ----

  function RegisterCall(rx: RegisterCtx, rg: RegisterPc): Call {
    match rg
    case ReadIntegration => GetIntegration(rx.id)
    case ReadPlatform(p) => GetPlatform(p)
    case Associate => CreateAssociation(rx.loc)
    case Connect => CreateProviderConfig(OwnConfig(rx.settings, rx.loc))
    case Fetch => FetchProviderConfig(rx.loc)
    case Insert(config, key) => CreateConfig(rx.id, config, key)
    case Overwrite(config, key) => UpdateConfig(rx.id, config, key)
  }

  /** HighLevel says 400 or 422 when the thing exists already. */
  predicate MayExist(e: HttpError) { e == BadRequest || e == Unprocessable }

  function Persist(rx: RegisterCtx, config: ProviderConfig): Pc {
    match rx.apiKey
    case Some(key) => InRegister(rx, Insert(config, key))
    case None => EndRegister(rx, Some(ApiKeyGenerationFailed))
  }

  function RegisterResume(rx: RegisterCtx, rg: RegisterPc, r: Reply): Pc {
    match (rg, r)
    case (ReadIntegration, FoundIntegration(_, row)) => InRegister(rx, ReadPlatform(row.platformId))
    case (ReadIntegration, Err(e)) => EndRegister(rx, Some(NotFoundAs(e, IntegrationNotFound)))
    case (ReadPlatform(_), FoundPlatform(_, slug)) =>
      if Supported(slug) then InRegister(rx, Associate) else EndRegister(rx, Some(ProviderNotSupported))
    case (ReadPlatform(_), Err(e)) => EndRegister(rx, Some(NotFoundAs(e, PlatformNotFound)))
    case (Associate, Ack) => InRegister(rx, Connect)
    case (Associate, Refused(e)) =>
      if MayExist(e) then InRegister(rx, Connect) else EndRegister(rx, Some(ProviderAssociationFailed))
    case (Connect, Ack) => Persist(rx, OwnConfig(rx.settings, rx.loc))
    case (Connect, Refused(e)) =>
      if MayExist(e) then InRegister(rx, Fetch) else EndRegister(rx, Some(ProviderConfigFailed))
    case (Fetch, Fetched(config)) => Persist(rx, config)
    case (Fetch, Refused(_)) => EndRegister(rx, Some(ProviderConfigFailed))
    case (Insert(_, _), FoundConfig(_, _)) => EndRegister(rx, None)
    case (Insert(config, key), Err(e)) =>
      if e == Duplicate then InRegister(rx, Overwrite(config, key)) else EndRegister(rx, Some(Translate(e)))
    case (Overwrite(_, _), FoundConfig(_, _)) => EndRegister(rx, None)
    case (Overwrite(_, _), Err(e)) => EndRegister(rx, Some(Translate(e)))
    case _ => EndRegister(rx, Some(Internal))
  }

  // ---- ProcessWebhook and the dispatcher ----

  function WebhookCall(wx: WebhookCtx, wh: WebhookPc): Call {
    var loc, eventId := wx.event.locationId, wx.event.eventId;
    match wh
    case ResolveExternal => GetByExternalAccountID(loc)
    case ResolveConfig => GetConfigByLocation(loc)
    case ResolveOther => GetConfigByLocation(loc)
    case Record(id) => CreateEvent((id, eventId))
    case CheckSubscription(id) => GetSubscription(id, "")
    case Touch(id, sub) => UpdateLastDelivery(id, "", sub)
    case Hand(id) => Dispatch((id, eventId))
    case InstallExternal => GetByExternalAccountID(loc)
    case InstallConfig => GetConfigByLocation(loc)
    case InstallById(id) => GetIntegration(id)
    case InstallFind(id) => GetConfigByIntegration(id)
    case InstallCreate(id) => CreateConfig(id, OwnConfig(wx.settings, loc), "")
  }

  function WebhookResume(wx: WebhookCtx, wh: WebhookPc, r: Reply): Pc {
    match (wh, r)
    case (ResolveExternal, FoundIntegration(id, _)) => InWebhook(wx, Record(id))
    case (ResolveExternal, Err(e)) => if e == NotFound then InWebhook(wx, ResolveConfig) else Fail(Translate(e))
    case (ResolveConfig, FoundConfig(id, _)) => InWebhook(wx, Record(id))
    case (ResolveConfig, Err(e)) => Fail(NotFoundAs(e, IntegrationNotFound))
    case (ResolveOther, FoundConfig(id, _)) => InWebhook(wx, Record(id))
    case (ResolveOther, Err(e)) => Fail(NotFoundAs(e, IntegrationNotFound))
    case (Record(id), Ack) => InWebhook(wx, if IsInstall(wx.event) then Hand(id) else CheckSubscription(id))
    case (Record(_), Err(e)) => Fail(if e == Duplicate then DuplicateEvent else Translate(e))
    case (CheckSubscription(id), FoundSubscription(sub)) => InWebhook(wx, Touch(id, sub.id))
    case (CheckSubscription(_), Err(e)) => Fail(NotFoundAs(e, WebhookNotFound))
    case (Touch(id, _), FoundSubscription(_)) => InWebhook(wx, Hand(id))
    case (Touch(_, _), Err(e)) => Fail(Translate(e))
    case (Hand(_), Ack) =>
      if !IsInstall(wx.event) then Done(Dispatched)  // the other handlers only log
      else if wx.event.locationId == "" then Fail(DispatchFailed)
      else InWebhook(wx, InstallExternal)
    case (InstallExternal, FoundIntegration(id, _)) => InWebhook(wx, InstallFind(id))
    case (InstallExternal, Err(e)) => if e == NotFound then InWebhook(wx, InstallConfig) else Fail(DispatchFailed)
    case (InstallConfig, FoundConfig(id, _)) => InWebhook(wx, InstallById(id))
    case (InstallById(_), FoundIntegration(id, _)) => InWebhook(wx, InstallFind(id))
    case (InstallFind(id), FoundConfig(_, _)) => Done(Installed(id))
    case (InstallFind(id), Err(e)) => if e == NotFound then InWebhook(wx, InstallCreate(id)) else Fail(DispatchFailed)
    case (InstallCreate(id), FoundConfig(_, _)) => Done(Installed(id))
    case (InstallCreate(id), Err(e)) => if e == Duplicate then Done(Installed(id)) else Fail(DispatchFailed)
    case _ => Fail(DispatchFailed)
  }

  // ---- The payment-provider webhook and query ----

  function PaymentCall(py: PaymentPc): Call {
    match py
    case PayConfig(ev) => GetConfigByLocation(ev.locationId)
    case PayIntegration(_, id) => GetIntegration(id)
    case PayRecord(ev, id) => CreateEvent((id, ev.eventId))
    case PayDelegate(ev, id) => DelegateWebhook((id, ev.eventId))
    case QueryKey(q) => GetConfigByApiKey(q.apiKey)
    case QueryVerify => DelegateVerify
  }

  function PaymentResume(py: PaymentPc, r: Reply): Pc {
    match (py, r)
    case (PayConfig(ev), FoundConfig(id, row)) =>
      if Blank(ev.apiKey) then Fail(MissingApiKey)
      else if row.apiKey != ev.apiKey then Fail(InvalidApiKey)
      else InPayment(PayIntegration(ev, id))
    case (PayConfig(_), Err(e)) => Fail(NotFoundAs(e, ProviderConfigNotFound))
    case (PayIntegration(ev, _), FoundIntegration(id, _)) => InPayment(PayRecord(ev, id))
    case (PayIntegration(_, _), Err(e)) => Fail(NotFoundAs(e, IntegrationNotFound))
    case (PayRecord(ev, id), Ack) => InPayment(PayDelegate(ev, id))
    case (PayRecord(_, _), Err(e)) => Fail(if e == Duplicate then DuplicateEvent else Translate(e))
    case (PayDelegate(_, _), Ack) => Done(Delegated)
    case (QueryKey(q), FoundConfig(_, row)) =>
      if row.apiKey != q.apiKey then Fail(InvalidApiKey)
      else if Trim(q.opType) != "verify" then Fail(UnsupportedType)
      else if Blank(q.transactionId) && Blank(q.chargeId) then Fail(MissingTransactionId)
      else InPayment(QueryVerify)
    case (QueryKey(_), Err(e)) => Fail(NotFoundAs(e, InvalidApiKey))
    case (QueryVerify, Verdict(success, failed)) => Done(Verified(success, failed))
    case (QueryVerify, RpcFailed(code)) =>
      Fail(match code
           case RpcNotFound => TransactionNotFound
           case RpcFailedPrecondition => SubscriptionsNotSupported
           case RpcInvalidArgument => InvalidVerification
           case RpcOther => Internal)
    case _ => Fail(Internal)
  }

  // ---- The remaining procedures ----

  function AdminCall(ad: AdminPc): Call {
    match ad
    case BeginPlatform(begin) => GetPlatform(begin.at.platformId)
    case BeginClient(begin, _) => GetClient(begin.at.clientId)
    case BeginCreate(begin) => CreateState(begin.at.clientId, begin.at.platformId)
    case Expire => DeleteExpiredStates
    case HookIntegration(id, _) => GetIntegration(id)
    case HookPlatform(_, _, p) => GetPlatform(p)
    case HookCreate(id, url) => CreateSubscription(id, url)
    case UnhookFind(id) => GetSubscription(id, "")
    case UnhookIntegration(id, _) => GetIntegration(id)
    case UnhookPlatform(_, _, p) => GetPlatform(p)
    case UnhookDelete(id, sub) => DeleteSubscription(id, "", sub)
    case InstallClient(at, _) => GetClient(at.clientId)
    case InstallPlatform(at, _) => GetPlatform(at.platformId)
    case InstallExisting(at, _) => GetByClientAndPlatform(at.clientId, at.platformId)
    case InstallInsert(at, ext) => CreateIntegration(Integration(at.clientId, at.platformId, ext, CREATED))
    case UninstallRead(id) => GetIntegration(id)
    case UninstallRevoke(id) => UpdateStatus(id, REVOKED)
    case UninstallDelete(id) => DeleteIntegration(id)
    case ReconnectRead(id) => GetIntegration(id)
    case ReconnectWrite(id) => UpdateStatus(id, CREATED)
    case DisconnectRead(id) => GetIntegration(id)
    case DisconnectWrite(id) => UpdateStatus(id, REVOKED)
    case SyncRead(id) => GetIntegration(id)
    case SyncWrite(id) => UpdateStatus(id, ACTIVE)
    case RefreshRead(id) => GetIntegration(id)
    case RefreshToken(id, _) => GetToken(id)
    case RefreshPlatform(_, _, p) => GetPlatform(p)
    case RefreshCall(_, token) => RefreshUpstream(token.refreshToken)
    case RefreshStore(id, token, resp) => UpdateToken(id, token.id, resp)
  }

  function AdminResume(ad: AdminPc, r: Reply): Pc {
    match (ad, r)
    case (BeginPlatform(begin), FoundPlatform(enabled, slug)) =>
      if enabled then InAdmin(BeginClient(begin, slug)) else Fail(PlatformDisabled)
    case (BeginPlatform(_), Err(e)) => Fail(NotFoundAs(e, PlatformNotFound))
    case (BeginClient(begin, slug), FoundClient(active)) =>
      if !active then Fail(ClientInactive) else if !Supported(slug) then Fail(ProviderNotSupported)
      else if begin.stateDrawn then InAdmin(BeginCreate(begin)) else Fail(Internal)
    case (BeginClient(_, _), Err(e)) => Fail(NotFoundAs(e, ClientNotFound))
    case (BeginCreate(begin), NewState(text, _)) => if begin.urlParses then Done(Begun(text)) else Fail(Internal)
    case (Expire, Ack) => Done(Completed)
    case (HookIntegration(id, url), FoundIntegration(_, row)) =>
      if row.status == ACTIVE then InAdmin(HookPlatform(id, url, row.platformId)) else Fail(IntegrationNotActive)
    case (HookIntegration(_, _), Err(e)) => Fail(NotFoundAs(e, IntegrationNotFound))
    case (HookPlatform(id, url, _), FoundPlatform(_, slug)) =>
      if Supported(slug) then InAdmin(HookCreate(id, url)) else Fail(ProviderNotSupported)
    case (HookPlatform(_, _, _), Err(e)) => Fail(NotFoundAs(e, PlatformNotFound))
    case (HookCreate(_, _), Ack) => Done(Completed)
    case (UnhookFind(id), FoundSubscription(sub)) => InAdmin(UnhookIntegration(id, sub.id))
    case (UnhookFind(_), Err(e)) => Fail(NotFoundAs(e, WebhookNotFound))
    case (UnhookIntegration(id, sub), FoundIntegration(_, row)) => InAdmin(UnhookPlatform(id, sub, row.platformId))
    case (UnhookIntegration(_, _), Err(e)) => Fail(NotFoundAs(e, IntegrationNotFound))
    case (UnhookPlatform(id, sub, _), FoundPlatform(_, slug)) =>
      if Supported(slug) then InAdmin(UnhookDelete(id, sub)) else Fail(ProviderNotSupported)
    case (UnhookPlatform(_, _, _), Err(e)) => Fail(NotFoundAs(e, PlatformNotFound))
    case (UnhookDelete(_, _), Ack) => Done(Completed)
    case (InstallClient(at, ext), FoundClient(active)) => if active then InAdmin(InstallPlatform(at, ext)) else Fail(ClientInactive)
    case (InstallClient(_, _), Err(e)) => Fail(NotFoundAs(e, ClientNotFound))
    case (InstallPlatform(at, ext), FoundPlatform(enabled, _)) =>
      if enabled then InAdmin(InstallExisting(at, ext)) else Fail(PlatformDisabled)
    case (InstallPlatform(_, _), Err(e)) => Fail(NotFoundAs(e, PlatformNotFound))
    case (InstallExisting(_, _), FoundIntegration(_, _)) => Fail(IntegrationAlreadyExists)
    case (InstallExisting(at, ext), Err(e)) => if e == NotFound then InAdmin(InstallInsert(at, ext)) else Fail(Translate(e))
    case (InstallInsert(_, _), FoundIntegration(_, _)) => Done(Completed)
    case (UninstallRead(id), FoundIntegration(_, row)) =>
      InAdmin(if row.status == ACTIVE then UninstallRevoke(id) else UninstallDelete(id))
    case (UninstallRead(_), Err(e)) => Fail(NotFoundAs(e, IntegrationNotFound))
    case (UninstallRevoke(id), FoundIntegration(_, _)) => InAdmin(UninstallDelete(id))
    case (UninstallDelete(_), Ack) => Done(Completed)
    case (ReconnectRead(id), FoundIntegration(_, row)) =>
      if row.status == ACTIVE then InAdmin(ReconnectWrite(id)) else Fail(IntegrationNotActive)
    case (ReconnectRead(_), Err(e)) => Fail(NotFoundAs(e, IntegrationNotFound))
    case (ReconnectWrite(_), FoundIntegration(_, _)) => Done(Completed)
    case (DisconnectRead(id), FoundIntegration(_, _)) => InAdmin(DisconnectWrite(id))
    case (DisconnectRead(_), Err(e)) => Fail(NotFoundAs(e, IntegrationNotFound))
    case (DisconnectWrite(_), FoundIntegration(_, _)) => Done(Completed)
    case (SyncRead(id), FoundIntegration(_, row)) =>
      if row.status == ACTIVE then InAdmin(SyncWrite(id)) else Fail(IntegrationNotActive)
    case (SyncRead(_), Err(e)) => Fail(NotFoundAs(e, IntegrationNotFound))
    case (SyncWrite(_), FoundIntegration(_, _)) => Done(Completed)
    case (RefreshRead(id), FoundIntegration(_, row)) =>
      if row.status == ACTIVE then InAdmin(RefreshToken(id, row.platformId)) else Fail(IntegrationNotActive)
    case (RefreshRead(_), Err(e)) => Fail(NotFoundAs(e, IntegrationNotFound))
    case (RefreshToken(id, p), FoundToken(token)) => InAdmin(RefreshPlatform(id, token, p))
    case (RefreshToken(_, _), Err(e)) => Fail(NotFoundAs(e, OAuthTokenNotFound))
    case (RefreshPlatform(id, token, _), FoundPlatform(_, slug)) =>
      if Supported(slug) then InAdmin(RefreshCall(id, token)) else Fail(ProviderNotSupported)
    case (RefreshPlatform(_, _, _), Err(e)) => Fail(NotFoundAs(e, PlatformNotFound))
    case (RefreshCall(id, token), Exchanged(resp)) => InAdmin(RefreshStore(id, token, resp))
    case (RefreshCall(_, _), Refused(_)) => Fail(TokenRefreshFailed)
    case (RefreshStore(_, _, _), FoundToken(_)) => Done(Completed)
    case (_, Err(e)) => Fail(Translate(e))
    case _ => Fail(Internal)
  }

  /** An administrative procedure stays one, and ends in an outcome of its own. */
  lemma AdminStaysAside(ad: AdminPc, r: Reply)
    ensures var next := AdminResume(ad, r);
            next.InAdmin? || (next.Done? && !next.outcome.Installed? && !next.outcome.Registered? && !next.outcome.CallbackDone?)
  {
    hide Supported, Translate, NotFoundAs;
  }
}
