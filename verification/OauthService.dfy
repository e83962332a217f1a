/** The OAuth service, step by step as it is written. */
module OauthService {
  import opened Schema
  import opened Calls
  import opened Program
  import opened Machine
  import opened Lifecycle
  import opened Backend
  import opened Evidence

  class Service {
    const db: Database

    constructor (db: Database)
      ensures this.db == db
    {
      this.db := db;
    }

    /** The token expires when the response said, counted from the application's now. */
    predicate Timely(res: CallbackResult)
      reads db
    {
      db.clock - db.skew <= res.expiresAt - res.response.expiresIn <= db.clock + db.skew
    }

    /** At most the state in question was consumed, while it was unused and alive; and success takes exactly that. */
    ghost predicate StateUsed(before: map<string, OauthState>, after: map<string, OauthState>, now: int, state: string, o: Outcome) {
      var used := && state in before && !before[state].consumed && before[state].expiresAt > now
                  && after == before[state := before[state].(consumed := true)];
      && (after == before || (state != "" && used))
      && (o.CallbackDone? && state != "" ==>
            used && o.result.clientId == before[state].clientId && o.result.platformId == before[state].platformId)
    }

    /** Handles the redirect from HighLevel. Undisturbed, it follows its program; if it succeeds the integration is active
        with a first token, and its configuration was written exactly if registration is reported; if it fails no
        token and no configuration has changed. A state is consumed at most once, and success with a state takes that;
        without a state and with single-use codes it always fails and changes no table. */
    method HandleCallback(code: string, state: string, apiKey: Option<string>) returns (o: Outcome)
      requires db.Valid() && (apiKey.Some? ==> !Blank(apiKey.value) && apiKey.value !in Last(db.run).keys)
      modifies db
      ensures db.At(Done(o)) && db.request == Callback(code, state, apiKey)
      ensures db.clock == old(db.clock) && (o.CallbackDone? ==> Timely(o.result))
      ensures o.CallbackDone? || o.Failed?
      ensures o.CallbackDone? ==>
                && Connected(old(db.Tables()), db.Tables(), o.result)
                && (if o.result.registered then ConfigWritten(old(db.Tables()), db.Tables(), o.result.id, apiKey)
                    else db.configs == old(db.configs))
      ensures o.CallbackDone? ==> (o.result.registered <==> o.result.registrationError.None?)
      ensures o.CallbackDone? ==> Introduced(HeardBy(db.run, db.pid), o.result.response, o.result.userId)
      ensures o.Failed? ==> db.configs == old(db.configs) && db.tokens == old(db.tokens)
      ensures StateUsed(old(db.states), db.states, db.clock, state, o)
      ensures state == "" && db.singleUseCodes ==> o.Failed? && db.Tables() == old(db.Tables())
      ensures code == "" ==> o == Failed(MissingCode)
    {
      hide Database.At, Database.Valid, Database.Took, CallbackCall, CallbackResume, RegisterCall, RegisterResume,
           WebhookCall, WebhookResume, PaymentCall, PaymentResume, AdminCall, AdminResume;
      db.Accept(Callback(code, state, apiKey));
      o := Resolve(code, state, apiKey);
      ServedUndisturbed(db, Done(o));
      ServedIsGrounded(db, Done(o));
    }

    method Resolve(code: string, state: string, apiKey: Option<string>) returns (o: Outcome)
      requires db.At(Start(db.settings, Callback(code, state, apiKey)))
      modifies db
      ensures db.At(Done(o)) && db.request == old(db.request) && db.found == old(db.found)
      ensures db.clock == old(db.clock) && (o.CallbackDone? ==> Timely(o.result))
      ensures StateUsed(old(db.states), db.states, db.clock, state, o)
      ensures state == "" && db.singleUseCodes ==> o.Failed? && db.Tables() == old(db.Tables())
      ensures code == "" ==> o == Failed(MissingCode)
    {
      hide Database.At, Database.Valid, Database.Took, RegisterCall, RegisterResume, WebhookCall, WebhookResume,
           PaymentCall, PaymentResume, AdminCall, AdminResume;
      if code == "" {
        return Failed(MissingCode);
      }
      var cx := CallbackCtx(db.settings, code, state, apiKey);
      if state != "" {
        o := UseState(cx);
        return;
      }
      var exchanged := db.ExchangeCode(code, InCallback(cx, FirstExchange));
      if exchanged.Refused? {
        return Failed(TokenExchangeFailed);
      }
      if exchanged.response.locationId == "" {
        return Failed(MissingLocationId);
      }
      o := ResolveLocation(cx, exchanged.response.locationId);
    }

    /** Consume succeeds only on a state that exists, is unused and alive; otherwise a second look says why not. */
    method UseState(cx: CallbackCtx) returns (o: Outcome)
      requires cx.settings == db.settings && cx.state != "" && db.At(InCallback(cx, Consume))
      modifies db
      ensures db.At(Done(o)) && db.request == old(db.request) && db.found == old(db.found)
      ensures db.clock == old(db.clock) && (o.CallbackDone? ==> Timely(o.result))
      ensures StateUsed(old(db.states), db.states, db.clock, cx.state, o)
    {
      hide Database.At, Database.Valid, Database.Took, RegisterCall, RegisterResume, WebhookCall, WebhookResume,
           PaymentCall, PaymentResume, AdminCall, AdminResume;
      var record := db.ConsumeState(cx.state, InCallback(cx, Consume));
      if record == Err(NotFound) {
        var existing := db.GetState(cx.state, InCallback(cx, Classify));
        if existing.FoundState? {
          return Failed(if existing.state.consumed then StateConsumed else StateExpired);
        }
        return Failed(InvalidState);
      }
      if record.Err? {
        return Failed(Translate(record.error));
      }
      o := ProcessCallback(cx, Pair(record.state.clientId, record.state.platformId));
    }

    /** External account id first, then the configured location; then down to the integration row. */
    method ResolveLocation(cx: CallbackCtx, loc: string) returns (o: Outcome)
      requires cx.settings == db.settings && db.At(InCallback(cx, ByExternalAccount(loc)))
      modifies db`run, db`usedCodes, db`integrations, db`nextId, db`tokens, db`associations, db`providerConfigs,
               db`configs, db`history
      ensures db.At(Done(o)) && db.request == old(db.request) && db.found == old(db.found)
      ensures db.clock == old(db.clock) && (o.CallbackDone? ==> Timely(o.result))
      ensures db.singleUseCodes && cx.code in old(db.usedCodes) ==> o.Failed? && db.Tables() == old(db.Tables())
      ensures o.CallbackDone? ==>
                exists i :: i in ExtFirst(old(db.Tables()), loc) && i in old(db.integrations)
                  && old(db.integrations[i]).clientId == o.result.clientId && old(db.integrations[i]).platformId == o.result.platformId
    {
      hide Database.At, Database.Valid, Database.Took, RegisterCall, RegisterResume, WebhookCall, WebhookResume,
           PaymentCall, PaymentResume, AdminCall, AdminResume, LocHolders;
      var integration := db.GetByExternalAccountID(loc, InCallback(cx, ByExternalAccount(loc)));
      if integration == Err(NotFound) {
        o := ResolveConfig(cx, loc);
        return;
      }
      if integration.Err? {
        return Failed(Translate(integration.error));
      }
      o := ProcessCallback(cx, Pair(integration.integration.clientId, integration.integration.platformId));
    }

    method ResolveConfig(cx: CallbackCtx, loc: string) returns (o: Outcome)
      requires cx.settings == db.settings && db.At(InCallback(cx, ByConfigLocation(loc)))
      modifies db`run, db`usedCodes, db`integrations, db`nextId, db`tokens, db`associations, db`providerConfigs,
               db`configs, db`history
      ensures db.At(Done(o)) && db.request == old(db.request) && db.found == old(db.found)
      ensures db.clock == old(db.clock) && (o.CallbackDone? ==> Timely(o.result))
      ensures db.singleUseCodes && cx.code in old(db.usedCodes) ==> o.Failed? && db.Tables() == old(db.Tables())
      ensures o.CallbackDone? ==>
                exists i :: i in LocHolders(old(db.Tables()), loc) && i in old(db.integrations)
                  && old(db.integrations[i]).clientId == o.result.clientId && old(db.integrations[i]).platformId == o.result.platformId
    {
      hide Database.At, Database.Valid, Database.Took, RegisterCall, RegisterResume, WebhookCall, WebhookResume,
           PaymentCall, PaymentResume, AdminCall, AdminResume, ExtHolders;
      var config := db.GetConfigByLocation(loc, InCallback(cx, ByConfigLocation(loc)));
      if config == Err(NotFound) {
        return Failed(IntegrationNotFound);
      }
      if config.Err? {
        return Failed(Translate(config.error));
      }
      var integration := db.GetIntegration(config.id, InCallback(cx, ById(config.id)));
      if integration == Err(NotFound) {
        return Failed(IntegrationNotFound);
      }
      if integration.Err? {
        return Failed(Translate(integration.error));
      }
      o := ProcessCallback(cx, Pair(integration.integration.clientId, integration.integration.platformId));
    }

    method ProcessCallback(cx: CallbackCtx, at: Pair) returns (o: Outcome)
      requires cx.settings == db.settings && db.At(InCallback(cx, CheckPlatform(at)))
      modifies db`run, db`usedCodes, db`integrations, db`nextId, db`tokens, db`associations, db`providerConfigs,
               db`configs, db`history
      ensures db.At(Done(o)) && db.request == old(db.request) && db.found == old(db.found)
      ensures db.clock == old(db.clock) && (o.CallbackDone? ==> Timely(o.result))
      ensures o.CallbackDone? ==> o.result.clientId == at.clientId && o.result.platformId == at.platformId
      ensures db.singleUseCodes && cx.code in old(db.usedCodes) ==> o.Failed? && db.Tables() == old(db.Tables())
    {
      hide Database.At, Database.Valid, Database.Took, RegisterCall, RegisterResume, WebhookCall, WebhookResume,
           PaymentCall, PaymentResume, AdminCall, AdminResume;
      var platform := db.GetPlatform(at.platformId, InCallback(cx, CheckPlatform(at)));
      if platform == Err(NotFound) {
        return Failed(PlatformNotFound);
      }
      if platform.Err? {
        return Failed(Translate(platform.error));
      }
      if !platform.enabled {
        return Failed(PlatformDisabled);
      }
      if !Supported(platform.slug) {
        return Failed(ProviderNotSupported);
      }
      var client := db.GetClient(at.clientId, InCallback(cx, CheckClient(at)));
      if client == Err(NotFound) {
        return Failed(ClientNotFound);
      }
      if client.Err? {
        return Failed(Translate(client.error));
      }
      if !client.active {
        return Failed(ClientInactive);
      }
      o := Identify(cx, at);
    }

    method Identify(cx: CallbackCtx, at: Pair) returns (o: Outcome)
      requires cx.settings == db.settings && db.At(InCallback(cx, Exchange(at)))
      modifies db`run, db`usedCodes, db`integrations, db`nextId, db`tokens, db`associations, db`providerConfigs,
               db`configs, db`history
      ensures db.At(Done(o)) && db.request == old(db.request) && db.found == old(db.found)
      ensures db.clock == old(db.clock) && (o.CallbackDone? ==> Timely(o.result))
      ensures o.CallbackDone? ==> o.result.clientId == at.clientId && o.result.platformId == at.platformId
      ensures db.singleUseCodes && cx.code in old(db.usedCodes) ==> o.Failed? && db.Tables() == old(db.Tables())
    {
      hide Database.At, Database.Valid, Database.Took, RegisterCall, RegisterResume, WebhookCall, WebhookResume,
           PaymentCall, PaymentResume, AdminCall, AdminResume;
      var exchanged := db.ExchangeCode(cx.code, InCallback(cx, Exchange(at)));
      if exchanged.Refused? {
        return Failed(TokenExchangeFailed);
      }
      var user := db.GetUserInfo(exchanged.response.accessToken, InCallback(cx, UserInfo(at, exchanged.response)));
      if user.Refused? {
        return Failed(UserInfoFailed);
      }
      o := Connect(cx, at, exchanged.response, user.userId);
    }

    /** The pair's integration is ACTIVE: a CREATED one before, or the first of the pair, under the next id. */
    ghost predicate Activated(before: map<Id, Integration>, after: map<Id, Integration>, next: Id, at: Pair, user: string, id: Id) {
      || (&& id in before && before[id].clientId == at.clientId && before[id].platformId == at.platformId
          && before[id].status == CREATED && after == before[id := before[id].(status := ACTIVE)])
      || (&& id == next && after == before[id := Integration(at.clientId, at.platformId, user, ACTIVE)]
          && forall i :: i in before ==> before[i].clientId != at.clientId || before[i].platformId != at.platformId)
    }

    /** Activates the CREATED integration there is, or creates one, and stores the token. */
    method Connect(cx: CallbackCtx, at: Pair, resp: TokenResponse, user: string) returns (o: Outcome)
      requires cx.settings == db.settings && db.At(InCallback(cx, Existing(at, resp, user)))
      modifies db`run, db`integrations, db`nextId, db`tokens, db`associations, db`providerConfigs, db`configs, db`history
      ensures db.At(Done(o)) && db.request == old(db.request) && db.found == old(db.found)
      ensures db.clock == old(db.clock) && (o.CallbackDone? ==> Timely(o.result))
      ensures o.CallbackDone? ==> o.result.clientId == at.clientId && o.result.platformId == at.platformId
      ensures o.CallbackDone? || o.Failed?
      ensures o.CallbackDone? ==>
                && Tokened(old(db.tokens), db.tokens, o.result.id, resp, o.result)
                && Activated(old(db.integrations), db.integrations, old(db.nextId), at, user, o.result.id)
      ensures o.Failed? ==> db.tokens == old(db.tokens)
    {
      hide Database.At, Database.Valid, Database.Took, RegisterCall, RegisterResume, WebhookCall, WebhookResume,
           PaymentCall, PaymentResume, AdminCall, AdminResume;
      var integration := db.GetByClientAndPlatform(at, InCallback(cx, Existing(at, resp, user)));
      if integration.FoundIntegration? {
        if integration.integration.status != CREATED {
          return Failed(IntegrationAlreadyExists);
        }
        integration := db.UpdateStatus(integration.id, ACTIVE, InCallback(cx, Activate(at, resp, user, integration.id)));
        if integration.Err? {
          return Failed(Translate(integration.error));
        }
      } else if integration != Err(NotFound) {
        return Failed(Translate(integration.error));
      } else {
        integration := db.CreateIntegration(Integration(at.clientId, at.platformId, user, ACTIVE),
                                            InCallback(cx, Create(at, resp, user)));
        if integration.Err? {
          return Failed(Translate(integration.error));
        }
      }
      o := Finish(cx, at, resp, user, integration.id);
    }

    /** The first token of this integration, with the values of the response. */
    ghost predicate Tokened(before: map<Id, Token>, after: map<Id, Token>, id: Id, resp: TokenResponse, res: CallbackResult) {
      && res.id == id && res.response == resp && id !in before && id in after && after == before[id := after[id]]
      && FromResponse(after[id], resp) && after[id].expiresAt == res.expiresAt
    }

    /** Stores the token and registers the provider, best effort. */
    method Finish(cx: CallbackCtx, at: Pair, resp: TokenResponse, user: string, id: Id) returns (o: Outcome)
      requires cx.settings == db.settings && db.At(InCallback(cx, StoreToken(at, resp, user, id)))
      modifies db`run, db`nextId, db`tokens, db`associations, db`providerConfigs, db`configs, db`history
      ensures db.At(Done(o)) && db.request == old(db.request) && db.found == old(db.found)
      ensures db.clock == old(db.clock) && (o.CallbackDone? ==> Timely(o.result))
      ensures o.CallbackDone? ==> o.result.clientId == at.clientId && o.result.platformId == at.platformId
      ensures o.CallbackDone? || o.Failed?
      ensures o.CallbackDone? ==> Tokened(old(db.tokens), db.tokens, id, resp, o.result)
      ensures o.Failed? ==> db.tokens == old(db.tokens)
    {
      hide Database.At, Database.Valid, Database.Took, RegisterCall, RegisterResume, WebhookCall, WebhookResume,
           PaymentCall, PaymentResume, AdminCall, AdminResume;
      var token := db.CreateToken(id, resp, InCallback(cx, StoreToken(at, resp, user, id)));
      if token.Err? {
        return Failed(Translate(token.error));
      }
      var result := CallbackResult(id, at.clientId, at.platformId, resp, token.token.expiresAt, user, false, None);
      var error := RegisterProvider(RegisterCtx(cx.settings, id, resp.locationId, resp.accessToken, cx.apiKey, Some(result)));
      return CallbackDone(result.(registered := error.None?, registrationError := error));
    }

    /** Registration, on its own or inside a callback; the error if it fails. */
    method RegisterProvider(rx: RegisterCtx) returns (error: Option<Error>)
      requires rx.settings == db.settings && db.At(StartRegister(rx))
      modifies db`run, db`associations, db`providerConfigs, db`configs, db`history
      ensures db.At(EndRegister(rx, error)) && db.request == old(db.request) && db.found == old(db.found)
      ensures error.None? ==> Mirrored(rx, old(db.configs), db.configs, old(db.providerConfigs), db.providerConfigs)
      ensures error.Some? ==> db.configs == old(db.configs)
      ensures error.None? ==> rx.id in db.integrations && rx.loc != "" && rx.accessToken != ""
    {
      hide Database.At, Database.Valid, Database.Took, CallbackCall, CallbackResume, WebhookCall, WebhookResume,
           PaymentCall, PaymentResume, AdminCall, AdminResume, EndRegister, Mirrored;
      if rx.loc == "" {
        return Some(MissingLocationId);
      }
      if rx.accessToken == "" {
        return Some(MissingAccessToken);
      }
      var integration := db.GetIntegration(rx.id, InRegister(rx, ReadIntegration));
      if integration == Err(NotFound) {
        return Some(IntegrationNotFound);
      }
      if integration.Err? {
        return Some(Translate(integration.error));
      }
      error := RegisterAt(rx, integration.integration.platformId);
    }

    method RegisterAt(rx: RegisterCtx, platformId: Id) returns (error: Option<Error>)
      requires rx.settings == db.settings && db.At(InRegister(rx, ReadPlatform(platformId)))
      modifies db`run, db`associations, db`providerConfigs, db`configs, db`history
      ensures db.At(EndRegister(rx, error)) && db.request == old(db.request) && db.found == old(db.found)
      ensures error.None? ==> Mirrored(rx, old(db.configs), db.configs, old(db.providerConfigs), db.providerConfigs)
      ensures error.Some? ==> db.configs == old(db.configs)
    {
      hide Database.At, Database.Valid, Database.Took, CallbackCall, CallbackResume, WebhookCall, WebhookResume,
           PaymentCall, PaymentResume, AdminCall, AdminResume, EndRegister, Mirrored;
      var platform := db.GetPlatform(platformId, InRegister(rx, ReadPlatform(platformId)));
      if platform == Err(NotFound) {
        return Some(PlatformNotFound);
      }
      if platform.Err? {
        return Some(Translate(platform.error));
      }
      if !Supported(platform.slug) {
        return Some(ProviderNotSupported);
      }
      var associated := db.CreateAssociation(rx.loc, InRegister(rx, Associate));
      if associated.Refused? && !MayExist(associated.http) {
        return Some(ProviderAssociationFailed);
      }
      error := Configure(rx);
    }

    /** HighLevel holds a configuration for the location, the one it had or else our own, and the integration's row is
        that configuration under the key in hand. */
    ghost predicate Mirrored(rx: RegisterCtx, before: map<Id, ConfigRow>, after: map<Id, ConfigRow>,
                             had: map<string, ProviderConfig>, has: map<string, ProviderConfig>) {
      && rx.apiKey.Some? && rx.loc in has
      && (if rx.loc in had then has[rx.loc] == had[rx.loc] else Announces(has[rx.loc], rx.settings, rx.loc))
      && after == before[rx.id := ConfigRow(has[rx.loc], rx.apiKey.value)]
    }

    method Configure(rx: RegisterCtx) returns (error: Option<Error>)
      requires rx.settings == db.settings && db.At(InRegister(rx, Program.Connect))
      modifies db`run, db`providerConfigs, db`configs, db`history
      ensures db.At(EndRegister(rx, error)) && db.request == old(db.request) && db.found == old(db.found)
      ensures error.None? ==> Mirrored(rx, old(db.configs), db.configs, old(db.providerConfigs), db.providerConfigs)
      ensures error.Some? ==> db.configs == old(db.configs)
    {
      hide Database.At, Database.Valid, Database.Took, CallbackCall, CallbackResume, WebhookCall, WebhookResume,
           PaymentCall, PaymentResume, AdminCall, AdminResume, EndRegister;
      var config := OwnConfig(db.settings, rx.loc);
      var connected := db.CreateProviderConfig(config, InRegister(rx, Program.Connect));
      if connected.Refused? {
        if !MayExist(connected.http) {
          return Some(ProviderConfigFailed);
        }
        var existing := db.FetchProviderConfig(rx.loc, InRegister(rx, Fetch));
        if existing.Refused? {
          return Some(ProviderConfigFailed);
        }
        config := existing.providerConfig;
      }
      error := Store(rx, config);
    }

    method Store(rx: RegisterCtx, config: ProviderConfig) returns (error: Option<Error>)
      requires rx.settings == db.settings && db.At(Persist(rx, config))
      modifies db`run, db`configs, db`history
      ensures db.At(EndRegister(rx, error)) && db.request == old(db.request) && db.found == old(db.found)
      ensures error.None? ==> rx.apiKey.Some? && db.configs == old(db.configs)[rx.id := ConfigRow(config, rx.apiKey.value)]
      ensures error.Some? ==> db.configs == old(db.configs)
    {
      hide Database.At, Database.Valid, Database.Took, CallbackCall, CallbackResume, WebhookCall, WebhookResume,
           PaymentCall, PaymentResume, AdminCall, AdminResume, EndRegister;
      if rx.apiKey.None? {
        return Some(ApiKeyGenerationFailed);
      }
      var key := rx.apiKey.value;
      var stored := db.CreateConfig(rx.id, config, key, InRegister(rx, Insert(config, key)));
      if stored == Err(Duplicate) {
        stored := db.UpdateConfig(rx.id, config, key, InRegister(rx, Overwrite(config, key)));
      }
      return if stored.Err? then Some(Translate(stored.error)) else None;
    }

    /** RegisterProvider as an operation of its own. */
    method Register(id: Id, loc: string, accessToken: string, apiKey: Option<string>) returns (o: Outcome)
      requires db.Valid() && (apiKey.Some? ==> !Blank(apiKey.value) && apiKey.value !in Last(db.run).keys)
      modifies db
      ensures db.At(Done(o)) && db.request == Request.Register(id, loc, accessToken, apiKey)
      ensures o == Registered(id) || o.Failed?
      ensures o.Registered? ==> ConfigWritten(old(db.Tables()), db.Tables(), id, apiKey)
      ensures o.Failed? ==> db.configs == old(db.configs)
    {
      hide Database.At, Database.Valid, Database.Took, CallbackCall, CallbackResume, RegisterCall, RegisterResume,
           WebhookCall, WebhookResume, PaymentCall, PaymentResume, AdminCall, AdminResume;
      db.Accept(Request.Register(id, loc, accessToken, apiKey));
      var error := RegisterProvider(RegisterCtx(db.settings, id, loc, accessToken, apiKey, None));
      ServedUndisturbed(db, EndRegister(RegisterCtx(db.settings, id, loc, accessToken, apiKey, None), error));
      return if error.Some? then Failed(error.value) else Registered(id);
    }

    /** One fresh, unconsumed state was stored for the pair, to expire one lifetime from now, give or take the skew. */
    ghost predicate Issued(before: map<string, OauthState>, after: map<string, OauthState>, state: string, at: Pair, now: int, skew: nat) {
      && state in after && after == before[state := after[state]] && !after[state].consumed
      && after[state].clientId == at.clientId && after[state].platformId == at.platformId
      && now + 600 - skew <= after[state].expiresAt <= now + 600 + skew
    }

    /** `state` is the random string it hands out, if the generator gives one. A state is also left behind if the
        authorization URL turns out not to parse, and in no other failure. */
    method BeginAuthorization(begin: Begin, state: string) returns (o: Outcome)
      requires db.Valid() && state != "" && state !in db.history.issued && state !in db.history.presented
      modifies db
      ensures db.At(Done(o)) && db.request == Request.BeginAuthorization(begin)
      ensures o == Begun(state) || o.Failed?
      ensures o.Begun? ==> Issued(old(db.states), db.states, state, begin.at, old(db.clock), db.skew)
      ensures o.Failed? ==>
                || db.states == old(db.states)
                || (!begin.urlParses && Issued(old(db.states), db.states, state, begin.at, old(db.clock), db.skew))
    {
      hide Database.At, Database.Valid, Database.Took, CallbackCall, CallbackResume, RegisterCall, RegisterResume,
           WebhookCall, WebhookResume, PaymentCall, PaymentResume;
      db.Accept(Request.BeginAuthorization(begin));
      var platform := db.GetPlatform(begin.at.platformId, InAdmin(BeginPlatform(begin)));
      if platform == Err(NotFound) {
        return Failed(PlatformNotFound);
      }
      if platform.Err? {
        return Failed(Translate(platform.error));
      }
      if !platform.enabled {
        return Failed(PlatformDisabled);
      }
      var client := db.GetClient(begin.at.clientId, InAdmin(BeginClient(begin, platform.slug)));
      if client == Err(NotFound) {
        return Failed(ClientNotFound);
      }
      if client.Err? {
        return Failed(Translate(client.error));
      }
      if !client.active {
        return Failed(ClientInactive);
      }
      if !Supported(platform.slug) {
        return Failed(ProviderNotSupported);
      }
      if !begin.stateDrawn {
        return Failed(Internal);
      }
      o := IssueState(begin, state);
    }

    method IssueState(begin: Begin, state: string) returns (o: Outcome)
      requires db.At(InAdmin(BeginCreate(begin)))
      requires state != "" && state !in db.history.issued && state !in db.history.presented
      modifies db`run, db`states, db`history
      ensures db.At(Done(o)) && db.request == old(db.request)
      ensures o == Begun(state) || o.Failed?
      ensures o.Begun? ==> Issued(old(db.states), db.states, state, begin.at, db.clock, db.skew)
      ensures o.Failed? ==>
                || db.states == old(db.states)
                || (!begin.urlParses && Issued(old(db.states), db.states, state, begin.at, db.clock, db.skew))
    {
      hide Database.At, Database.Valid, Database.Took, CallbackCall, CallbackResume, RegisterCall, RegisterResume,
           WebhookCall, WebhookResume, PaymentCall, PaymentResume;
      var stored := db.CreateState(begin.at, state, InAdmin(BeginCreate(begin)));
      if stored.Err? {
        return Failed(Translate(stored.error));
      }
      return if begin.urlParses then Begun(state) else Failed(Internal);
    }

    /** The integration's token was replaced under its id by what some response said, and no other token changed. */
    /** This token, and no other, has the values of a response HighLevel gave to the request in hand, under its own id. */
    ghost predicate Refreshed(before: map<Id, Token>, after: map<Id, Token>, id: Id, heard: set<Reply>)
      reads db
    {
      && id in before && id in after && after == before[id := after[id]] && after[id].id == before[id].id
      && exists resp: TokenResponse :: Exchanged(resp) in heard && FromResponse(after[id], resp)
           && db.clock - db.skew <= after[id].expiresAt - resp.expiresIn <= db.clock + db.skew
    }

    method RefreshAccessToken(id: Id) returns (o: Outcome)
      requires db.Valid()
      modifies db
      ensures db.At(Done(o)) && db.request == Refresh(id)
      ensures o == Completed || o.Failed?
      ensures o.Completed? ==>
                && id in old(db.integrations) && old(db.integrations[id]).status == ACTIVE
                && Refreshed(old(db.tokens), db.tokens, id, HeardBy(db.run, db.pid)) && db.Tables() == old(db.Tables()).(tokens := db.tokens)
      ensures o.Failed? ==> db.Tables() == old(db.Tables())
      ensures !old(db.failing) && id !in old(db.integrations) ==> o == Failed(IntegrationNotFound)
      ensures !old(db.failing) && id in old(db.integrations) && old(db.integrations[id]).status != ACTIVE ==>
                o == Failed(IntegrationNotActive)
      ensures !old(db.failing) && id in old(db.integrations) && old(db.integrations[id]).status == ACTIVE && id !in old(db.tokens) ==>
                o == Failed(OAuthTokenNotFound)
    {
      hide Database.At, Database.Valid, Database.Took, CallbackCall, CallbackResume, RegisterCall, RegisterResume,
           WebhookCall, WebhookResume, PaymentCall, PaymentResume;
      db.Accept(Refresh(id));
      var integration := db.GetIntegration(id, InAdmin(RefreshRead(id)));
      if integration == Err(NotFound) {
        return Failed(IntegrationNotFound);
      }
      if integration.Err? {
        return Failed(Translate(integration.error));
      }
      if integration.integration.status != ACTIVE {
        return Failed(IntegrationNotActive);
      }
      o := RefreshActive(id, integration.integration.platformId);
    }

    method RefreshActive(id: Id, platformId: Id) returns (o: Outcome)
      requires db.At(InAdmin(RefreshToken(id, platformId)))
      modifies db`run, db`tokens
      ensures db.At(Done(o)) && db.request == old(db.request)
      ensures o == Completed || o.Failed?
      ensures if o.Completed? then Refreshed(old(db.tokens), db.tokens, id, HeardBy(db.run, db.pid)) else db.tokens == old(db.tokens)
      ensures !db.failing && id !in old(db.tokens) ==> o == Failed(OAuthTokenNotFound)
    {
      hide Database.At, Database.Valid, Database.Took, CallbackCall, CallbackResume, RegisterCall, RegisterResume,
           WebhookCall, WebhookResume, PaymentCall, PaymentResume;
      var token := db.GetToken(id, InAdmin(RefreshToken(id, platformId)));
      if token == Err(NotFound) {
        return Failed(OAuthTokenNotFound);
      }
      if token.Err? {
        return Failed(Translate(token.error));
      }
      o := Renew(id, token.token, platformId);
    }

    method Renew(id: Id, token: Token, platformId: Id) returns (o: Outcome)
      requires db.At(InAdmin(RefreshPlatform(id, token, platformId)))
      modifies db`run, db`tokens
      ensures db.At(Done(o)) && db.request == old(db.request)
      ensures o == Completed || o.Failed?
      ensures if o.Completed? then Refreshed(old(db.tokens), db.tokens, id, HeardBy(db.run, db.pid)) else db.tokens == old(db.tokens)
    {
      hide Database.At, Database.Valid, Database.Took, CallbackCall, CallbackResume, RegisterCall, RegisterResume,
           WebhookCall, WebhookResume, PaymentCall, PaymentResume;
      var platform := db.GetPlatform(platformId, InAdmin(RefreshPlatform(id, token, platformId)));
      if platform == Err(NotFound) {
        return Failed(PlatformNotFound);
      }
      if platform.Err? {
        return Failed(Translate(platform.error));
      }
      if !Supported(platform.slug) {
        return Failed(ProviderNotSupported);
      }
      o := Replace(id, token);
    }

    method Replace(id: Id, token: Token) returns (o: Outcome)
      requires db.At(InAdmin(RefreshCall(id, token)))
      modifies db`run, db`tokens
      ensures db.At(Done(o)) && db.request == old(db.request)
      ensures o == Completed || o.Failed?
      ensures if o.Completed? then Refreshed(old(db.tokens), db.tokens, id, HeardBy(db.run, db.pid)) else db.tokens == old(db.tokens)
    {
      hide Database.At, Database.Valid, CallbackCall, CallbackResume, RegisterCall, RegisterResume, WebhookCall,
           WebhookResume, PaymentCall, PaymentResume;
      var refreshed := db.RefreshUpstream(token.refreshToken, InAdmin(RefreshCall(id, token)));
      if refreshed.Refused? {
        return Failed(TokenRefreshFailed);
      }
      var stored := db.UpdateToken(id, token.id, refreshed.response, InAdmin(RefreshStore(id, token, refreshed.response)));
      return if stored.Err? then Failed(Translate(stored.error)) else Completed;
    }
  }

  /** The request in hand is where it is on the evidence of the replies it got. */
  lemma ServedIsGrounded(db: Database, pc: Pc)
    requires db.At(pc)
    ensures Grounded(HeardBy(db.run, db.pid), db.request, pc)
  {
    hide Machine.Valid, Sequential, Grounded;
    RunIsGrounded(db.run, db.pid);
  }
}
