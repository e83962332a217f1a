/** That the operations can succeed: from any world that has what they need, some replies let them through. */
module Successes {
  import opened Schema
  import opened Calls
  import opened Program
  import opened Machine
  import opened Scenarios
  import opened Stories

  lemma GoesNowhere(w: World, pc: Pc)
    ensures CanGo(w, pc, w, pc)
  {
    assert Along(w, pc, [], w, pc);
  }

  lemma GoesThen(w: World, pc: Pc, w1: World, pc1: Pc, reply: Reply, w2: World, pc2: Pc)
    requires CanGo(w, pc, w1, pc1) && May(w1, pc1, reply, w2, pc2)
    ensures CanGo(w, pc, w2, pc2)
  {
    hide May, CanGo;
    GoesBy(w1, pc1, reply, w2, pc2);
    GoesOn(w, pc, w1, pc1, w2, pc2);
  }

  // ---- INSTALL events ----

  predicate Installation(ev: Event) { ev.eventType in {"INSTALL", "integration.installed"} }

  function Handed(w: World, key: EventKey): World { w.(history := w.history.(effects := w.history.effects + multiset{key})) }

  /** With the row of an INSTALL: the settings' own fields, for the event's location, under no key. */
  function Configured(w: World, s: Settings, id: Id, loc: string): World {
    w.(tables := w.tables.(configs := w.tables.configs[id :=
         ConfigRow(ProviderConfig(s.name, s.description, s.imageUrl, loc, s.queryUrl, s.paymentsUrl, false), "")]),
       history := LogKey(w.history, id, ""))
  }

  lemma InstallEnters(settings: Settings, ev: Event)
    requires Installation(ev) && ev.locationId != ""
    ensures Start(settings, Webhook("highlevel", true, Some(ev))) == InWebhook(WebhookCtx(settings, ev), ResolveExternal)
  {
  }

  lemma InstallIsRecorded(w: World, wx: WebhookCtx, id: Id)
    requires Installation(wx.event) && id in w.tables.integrations
    requires w.tables.integrations[id].externalAccountId == wx.event.locationId && (id, wx.event.eventId) !in w.tables.events
    ensures May(w, InWebhook(wx, ResolveExternal), FoundIntegration(id, w.tables.integrations[id]), w, InWebhook(wx, Record(id)))
    ensures May(w, InWebhook(wx, Record(id)), Ack, Recorded(w, (id, wx.event.eventId)), InWebhook(wx, Hand(id)))
  {
    assert WebhookWrite(w, CreateEvent((id, wx.event.eventId)), Ack, Recorded(w, (id, wx.event.eventId)));
  }

  lemma InstallIsHanded(w: World, wx: WebhookCtx, id: Id)
    requires Installation(wx.event) && wx.event.locationId != ""
    ensures May(w, InWebhook(wx, Hand(id)), Ack, Handed(w, (id, wx.event.eventId)), InWebhook(wx, InstallExternal))
  {
    assert OutsideWrite(w, Dispatch((id, wx.event.eventId)), Ack, Handed(w, (id, wx.event.eventId)));
  }

  lemma InstallIsLocated(w: World, wx: WebhookCtx, id: Id)
    requires id in w.tables.integrations && w.tables.integrations[id].externalAccountId == wx.event.locationId
    ensures May(w, InWebhook(wx, InstallExternal), FoundIntegration(id, w.tables.integrations[id]), w, InWebhook(wx, InstallFind(id)))
  {
  }

  lemma InstallFindsOrCreates(w: World, wx: WebhookCtx, id: Id)
    requires id in w.tables.integrations
    ensures if id in w.tables.configs
            then May(w, InWebhook(wx, InstallFind(id)), FoundConfig(id, w.tables.configs[id]), w, Done(Installed(id)))
            else May(w, InWebhook(wx, InstallFind(id)), Err(NotFound), w, InWebhook(wx, InstallCreate(id)))
  {
  }

  lemma InstallCreates(w: World, wx: WebhookCtx, id: Id)
    requires id in w.tables.integrations && id !in w.tables.configs
    ensures var w' := Configured(w, wx.settings, id, wx.event.locationId);
            May(w, InWebhook(wx, InstallCreate(id)), FoundConfig(id, w'.tables.configs[id]), w', Done(Installed(id)))
  {
    var w' := Configured(w, wx.settings, id, wx.event.locationId);
    assert ConfigWrite(w, WebhookCall(wx, InstallCreate(id)), FoundConfig(id, w'.tables.configs[id]), w');
  }

  /** An unrecorded event of either installation type can be Installed, for any integration with its location as external
      account id: it is recorded and handed on, and the integration has its row, the one it had or else the settings'. */
  lemma InstallsCanSucceed(settings: Settings, w: World, id: Id, ev: Event)
    requires Installation(ev) && ev.locationId != "" && id in w.tables.integrations
    requires w.tables.integrations[id].externalAccountId == ev.locationId && (id, ev.eventId) !in w.tables.events
    ensures var key := (id, ev.eventId);
            var handed := Handed(Recorded(w, key), key);
            CanGo(w, Start(settings, Webhook("highlevel", true, Some(ev))),
                  if id in w.tables.configs then handed else Configured(handed, settings, id, ev.locationId), Done(Installed(id)))
  {
    hide CanGo, May, Start;
    var wx, key := WebhookCtx(settings, ev), (id, ev.eventId);
    var pc, w1, w2 := InWebhook(wx, ResolveExternal), Recorded(w, key), Handed(Recorded(w, key), key);
    InstallEnters(settings, ev);
    InstallIsRecorded(w, wx, id);
    InstallIsHanded(w1, wx, id);
    InstallIsLocated(w2, wx, id);
    InstallFindsOrCreates(w2, wx, id);
    GoesNowhere(w, pc);
    GoesThen(w, pc, w, pc, FoundIntegration(id, w.tables.integrations[id]), w, InWebhook(wx, Record(id)));
    GoesThen(w, pc, w, InWebhook(wx, Record(id)), Ack, w1, InWebhook(wx, Hand(id)));
    GoesThen(w, pc, w1, InWebhook(wx, Hand(id)), Ack, w2, InWebhook(wx, InstallExternal));
    GoesThen(w, pc, w2, InWebhook(wx, InstallExternal), FoundIntegration(id, w.tables.integrations[id]), w2, InWebhook(wx, InstallFind(id)));
    if id in w.tables.configs {
      GoesThen(w, pc, w2, InWebhook(wx, InstallFind(id)), FoundConfig(id, w.tables.configs[id]), w2, Done(Installed(id)));
    } else {
      InstallCreates(w2, wx, id);
      var w3 := Configured(w2, settings, id, ev.locationId);
      GoesThen(w, pc, w2, InWebhook(wx, InstallFind(id)), Err(NotFound), w2, InWebhook(wx, InstallCreate(id)));
      GoesThen(w, pc, w2, InWebhook(wx, InstallCreate(id)), FoundConfig(id, w3.tables.configs[id]), w3, Done(Installed(id)));
    }
  }

  // ---- Other marketplace events ----

  function Touched(w: World, id: Id, now: int): World
    requires (id, "") in w.tables.subscriptions
  {
    w.(tables := w.tables.(subscriptions :=
         w.tables.subscriptions[(id, "") := Subscription(w.tables.subscriptions[(id, "")].id, Some(now))]))
  }

  lemma EventEnters(settings: Settings, ev: Event)
    requires !Installation(ev) && ev.locationId != ""
    ensures Start(settings, Webhook("highlevel", true, Some(ev))) == InWebhook(WebhookCtx(settings, ev), ResolveOther) && !IsInstall(ev)
  {
  }

  lemma EventIsFound(w: World, wx: WebhookCtx, id: Id)
    requires (id, "") in w.tables.subscriptions
    ensures var sub := w.tables.subscriptions[(id, "")];
            May(w, InWebhook(wx, CheckSubscription(id)), FoundSubscription(sub), w, InWebhook(wx, Touch(id, sub.id)))
  {
  }

  lemma EventIsTouched(w: World, wx: WebhookCtx, id: Id, now: int)
    requires (id, "") in w.tables.subscriptions
    ensures var sub := w.tables.subscriptions[(id, "")];
            May(w, InWebhook(wx, Touch(id, sub.id)), FoundSubscription(Subscription(sub.id, Some(now))), Touched(w, id, now),
                InWebhook(wx, Hand(id)))
  {
    var sub := w.tables.subscriptions[(id, "")];
    assert WebhookWrite(w, UpdateLastDelivery(id, "", sub.id), FoundSubscription(Subscription(sub.id, Some(now))), Touched(w, id, now));
  }

  lemma EventIsHanded(w: World, wx: WebhookCtx, id: Id)
    requires !Installation(wx.event)
    ensures May(w, InWebhook(wx, Hand(id)), Ack, Handed(w, (id, wx.event.eventId)), Done(Dispatched))
  {
    assert OutsideWrite(w, Dispatch((id, wx.event.eventId)), Ack, Handed(w, (id, wx.event.eventId)));
  }

  /** An unrecorded event of any other type can be Dispatched, for any integration configured for its location and
      subscribed under the empty endpoint. */
  lemma EventsCanSucceed(settings: Settings, w: World, id: Id, ev: Event, now: int)
    requires !Installation(ev) && ev.locationId != "" && id in w.tables.integrations && id in w.tables.configs
    requires w.tables.configs[id].config.locationId == ev.locationId
    requires (id, ev.eventId) !in w.tables.events && (id, "") in w.tables.subscriptions
    ensures var key := (id, ev.eventId);
            CanGo(w, Start(settings, Webhook("highlevel", true, Some(ev))), Handed(Touched(Recorded(w, key), id, now), key), Done(Dispatched))
  {
    hide CanGo, May, Start, IsInstall;
    var wx, key := WebhookCtx(settings, ev), (id, ev.eventId);
    var pc, w1, sub := InWebhook(wx, ResolveOther), Recorded(w, key), w.tables.subscriptions[(id, "")];
    var w2 := Touched(w1, id, now);
    EventEnters(settings, ev);
    EventMay(w, wx, id);
    EventIsFound(w1, wx, id);
    EventIsTouched(w1, wx, id, now);
    EventIsHanded(w2, wx, id);
    GoesNowhere(w, pc);
    GoesThen(w, pc, w, pc, FoundConfig(id, w.tables.configs[id]), w, InWebhook(wx, Record(id)));
    GoesThen(w, pc, w, InWebhook(wx, Record(id)), Ack, w1, InWebhook(wx, CheckSubscription(id)));
    GoesThen(w, pc, w1, InWebhook(wx, CheckSubscription(id)), FoundSubscription(sub), w1, InWebhook(wx, Touch(id, sub.id)));
    GoesThen(w, pc, w1, InWebhook(wx, Touch(id, sub.id)), FoundSubscription(Subscription(sub.id, Some(now))), w2, InWebhook(wx, Hand(id)));
    GoesThen(w, pc, w2, InWebhook(wx, Hand(id)), Ack, Handed(w2, key), Done(Dispatched));
  }

  // ---- Payments ----

  lemma PaymentIsAuthentic(settings: Settings, w: World, ev: PaymentEvent, id: Id)
    requires id in w.tables.configs && w.tables.configs[id].apiKey == ev.apiKey && !Blank(ev.apiKey) && !Blank(ev.eventId)
    requires w.tables.configs[id].config.locationId == ev.locationId && id in w.tables.integrations
    ensures Start(settings, PaymentWebhook(Some(ev))) == InPayment(PayConfig(ev))
    ensures May(w, InPayment(PayConfig(ev)), FoundConfig(id, w.tables.configs[id]), w, InPayment(PayIntegration(ev, id)))
    ensures May(w, InPayment(PayIntegration(ev, id)), FoundIntegration(id, w.tables.integrations[id]), w, InPayment(PayRecord(ev, id)))
  {
    hide Trim, Blank;
  }

  lemma PaymentIsDelegated(w: World, ev: PaymentEvent, id: Id)
    requires id in w.tables.integrations && (id, ev.eventId) !in w.tables.events
    ensures var key := (id, ev.eventId);
            && May(w, InPayment(PayRecord(ev, id)), Ack, Recorded(w, key), InPayment(PayDelegate(ev, id)))
            && May(Recorded(w, key), InPayment(PayDelegate(ev, id)), Ack, Handed(Recorded(w, key), key), Done(Delegated))
  {
    var key := (id, ev.eventId);
    assert WebhookWrite(w, CreateEvent(key), Ack, Recorded(w, key));
    assert OutsideWrite(Recorded(w, key), DelegateWebhook(key), Ack, Handed(Recorded(w, key), key));
  }

  /** A payment event with the location and the key of a configuration can be recorded and delegated. */
  lemma PaymentsCanSucceed(settings: Settings, w: World, ev: PaymentEvent, id: Id)
    requires id in w.tables.configs && w.tables.configs[id].apiKey == ev.apiKey && !Blank(ev.apiKey) && !Blank(ev.eventId)
    requires w.tables.configs[id].config.locationId == ev.locationId && id in w.tables.integrations
    requires (id, ev.eventId) !in w.tables.events
    ensures var key := (id, ev.eventId);
            CanGo(w, Start(settings, PaymentWebhook(Some(ev))), Handed(Recorded(w, key), key), Done(Delegated))
  {
    hide CanGo, May, Start, Trim, Blank;
    var pc, key := InPayment(PayConfig(ev)), (id, ev.eventId);
    PaymentIsAuthentic(settings, w, ev, id);
    PaymentIsDelegated(w, ev, id);
    GoesNowhere(w, pc);
    GoesThen(w, pc, w, pc, FoundConfig(id, w.tables.configs[id]), w, InPayment(PayIntegration(ev, id)));
    GoesThen(w, pc, w, InPayment(PayIntegration(ev, id)), FoundIntegration(id, w.tables.integrations[id]), w, InPayment(PayRecord(ev, id)));
    GoesThen(w, pc, w, InPayment(PayRecord(ev, id)), Ack, Recorded(w, key), InPayment(PayDelegate(ev, id)));
    GoesThen(w, pc, Recorded(w, key), InPayment(PayDelegate(ev, id)), Ack, Handed(Recorded(w, key), key), Done(Delegated));
  }

  lemma QueryMay(settings: Settings, w: World, q: QueryRequest, id: Id)
    requires id in w.tables.configs && w.tables.configs[id].apiKey == q.apiKey && !Blank(q.apiKey)
    requires Trim(q.opType) == "verify" && !(Blank(q.transactionId) && Blank(q.chargeId))
    ensures Start(settings, Query(q)) == InPayment(QueryKey(q))
    ensures May(w, InPayment(QueryKey(q)), FoundConfig(id, w.tables.configs[id]), w, InPayment(QueryVerify))
  {
    hide Trim, Blank;
  }

  lemma VerdictMay(w: World, success: bool, failed: bool)
    requires !(success && failed)
    ensures May(w, InPayment(QueryVerify), Verdict(success, failed), w, Done(Verified(success, failed)))
  {
    hide CallbackCall, CallbackResume, RegisterCall, RegisterResume, WebhookCall, WebhookResume, AdminCall, AdminResume, Trim, Blank;
  }

  /** A verification query with the key of a configuration can be answered with every verdict a deposit can have. */
  lemma QueriesCanSucceed(settings: Settings, w: World, q: QueryRequest, id: Id, success: bool, failed: bool)
    requires id in w.tables.configs && w.tables.configs[id].apiKey == q.apiKey && !Blank(q.apiKey) && !(success && failed)
    requires Trim(q.opType) == "verify" && !(Blank(q.transactionId) && Blank(q.chargeId))
    ensures CanGo(w, Start(settings, Query(q)), w, Done(Verified(success, failed)))
  {
    hide CanGo, May, Start, Trim, Blank;
    QueryMay(settings, w, q, id);
    VerdictMay(w, success, failed);
    GoesNowhere(w, InPayment(QueryKey(q)));
    GoesThen(w, InPayment(QueryKey(q)), w, InPayment(QueryKey(q)), FoundConfig(id, w.tables.configs[id]), w, InPayment(QueryVerify));
    GoesThen(w, InPayment(QueryKey(q)), w, InPayment(QueryVerify), Verdict(success, failed), w, Done(Verified(success, failed)));
  }

  // ---- Refreshing, unsubscribing, uninstalling ----

  function Renewed(w: World, id: Id, resp: TokenResponse): World
    requires id in w.tables.tokens
  {
    var token := Token(w.tables.tokens[id].id, resp.accessToken, resp.refreshToken, w.clock + resp.expiresIn, resp.scope, resp.tokenType);
    w.(tables := w.tables.(tokens := w.tables.tokens[id := token]))
  }

  lemma RefreshRowMay(w: World, id: Id)
    requires id in w.tables.integrations && w.tables.integrations[id].status == ACTIVE
    ensures var row := w.tables.integrations[id];
            May(w, InAdmin(RefreshRead(id)), FoundIntegration(id, row), w, InAdmin(RefreshToken(id, row.platformId)))
  {
  }

  lemma RefreshTokenMay(w: World, id: Id, platformId: Id)
    requires id in w.tables.tokens
    ensures var token := w.tables.tokens[id];
            May(w, InAdmin(RefreshToken(id, platformId)), FoundToken(token), w, InAdmin(RefreshPlatform(id, token, platformId)))
  {
  }

  lemma RefreshPlatformMay(w: World, id: Id, token: Token, platformId: Id)
    ensures May(w, InAdmin(RefreshPlatform(id, token, platformId)), FoundPlatform(true, "highlevel"), w, InAdmin(RefreshCall(id, token)))
  {
  }

  lemma RefreshCallMay(w: World, id: Id, token: Token, resp: TokenResponse)
    ensures May(w, InAdmin(RefreshCall(id, token)), Exchanged(resp), w, InAdmin(RefreshStore(id, token, resp)))
  {
  }

  lemma RefreshStoreMay(w: World, id: Id, resp: TokenResponse)
    requires id in w.tables.tokens
    ensures var w' := Renewed(w, id, resp);
            May(w, InAdmin(RefreshStore(id, w.tables.tokens[id], resp)), FoundToken(w'.tables.tokens[id]), w', Done(Completed))
  {
    hide CallbackCall, CallbackResume, RegisterCall, RegisterResume, WebhookCall, WebhookResume, PaymentCall, PaymentResume;
    var w' := Renewed(w, id, resp);
    assert TokenWrite(w, UpdateToken(id, w.tables.tokens[id].id, resp), FoundToken(w'.tables.tokens[id]), w');
  }

  /** The token of an ACTIVE integration can be refreshed with any response. */
  lemma RefreshesCanSucceed(settings: Settings, w: World, id: Id, resp: TokenResponse)
    requires id in w.tables.integrations && w.tables.integrations[id].status == ACTIVE && id in w.tables.tokens
    ensures CanGo(w, Start(settings, Refresh(id)), Renewed(w, id, resp), Done(Completed))
  {
    hide CanGo, May;
    var row, token, w' := w.tables.integrations[id], w.tables.tokens[id], Renewed(w, id, resp);
    var pc := InAdmin(RefreshRead(id));
    RefreshRowMay(w, id);
    RefreshTokenMay(w, id, row.platformId);
    RefreshPlatformMay(w, id, token, row.platformId);
    RefreshCallMay(w, id, token, resp);
    RefreshStoreMay(w, id, resp);
    GoesNowhere(w, pc);
    GoesThen(w, pc, w, pc, FoundIntegration(id, row), w, InAdmin(RefreshToken(id, row.platformId)));
    GoesThen(w, pc, w, InAdmin(RefreshToken(id, row.platformId)), FoundToken(token), w, InAdmin(RefreshPlatform(id, token, row.platformId)));
    GoesThen(w, pc, w, InAdmin(RefreshPlatform(id, token, row.platformId)), FoundPlatform(true, "highlevel"), w, InAdmin(RefreshCall(id, token)));
    GoesThen(w, pc, w, InAdmin(RefreshCall(id, token)), Exchanged(resp), w, InAdmin(RefreshStore(id, token, resp)));
    GoesThen(w, pc, w, InAdmin(RefreshStore(id, token, resp)), FoundToken(w'.tables.tokens[id]), w', Done(Completed));
  }

  function Unsubscribed(w: World, id: Id): World {
    w.(tables := w.tables.(subscriptions := w.tables.subscriptions - {(id, "")}))
  }

  lemma UnhookFindMay(w: World, id: Id)
    requires (id, "") in w.tables.subscriptions
    ensures var sub := w.tables.subscriptions[(id, "")];
            May(w, InAdmin(UnhookFind(id)), FoundSubscription(sub), w, InAdmin(UnhookIntegration(id, sub.id)))
  {
  }

  lemma UnhookRowMay(w: World, id: Id, sub: Id)
    requires id in w.tables.integrations
    ensures var row := w.tables.integrations[id];
            May(w, InAdmin(UnhookIntegration(id, sub)), FoundIntegration(id, row), w, InAdmin(UnhookPlatform(id, sub, row.platformId)))
  {
  }

  lemma UnhookPlatformMay(w: World, id: Id, sub: Id, platformId: Id)
    ensures May(w, InAdmin(UnhookPlatform(id, sub, platformId)), FoundPlatform(true, "highlevel"), w, InAdmin(UnhookDelete(id, sub)))
  {
  }

  lemma UnhookDeleteMay(w: World, id: Id)
    requires (id, "") in w.tables.subscriptions
    ensures May(w, InAdmin(UnhookDelete(id, w.tables.subscriptions[(id, "")].id)), Ack, Unsubscribed(w, id), Done(Completed))
  {
    assert WebhookWrite(w, DeleteSubscription(id, "", w.tables.subscriptions[(id, "")].id), Ack, Unsubscribed(w, id));
  }

  /** The subscription under the empty endpoint can be removed. */
  lemma UnsubscribingCanSucceed(settings: Settings, w: World, id: Id)
    requires id in w.tables.integrations && (id, "") in w.tables.subscriptions
    ensures CanGo(w, Start(settings, UnregisterWebhook(id)), Unsubscribed(w, id), Done(Completed))
  {
    hide CanGo, May;
    var row, sub := w.tables.integrations[id], w.tables.subscriptions[(id, "")];
    var pc := InAdmin(UnhookFind(id));
    UnhookFindMay(w, id);
    UnhookRowMay(w, id, sub.id);
    UnhookPlatformMay(w, id, sub.id, row.platformId);
    UnhookDeleteMay(w, id);
    GoesNowhere(w, pc);
    GoesThen(w, pc, w, pc, FoundSubscription(sub), w, InAdmin(UnhookIntegration(id, sub.id)));
    GoesThen(w, pc, w, InAdmin(UnhookIntegration(id, sub.id)), FoundIntegration(id, row), w, InAdmin(UnhookPlatform(id, sub.id, row.platformId)));
    GoesThen(w, pc, w, InAdmin(UnhookPlatform(id, sub.id, row.platformId)), FoundPlatform(true, "highlevel"), w, InAdmin(UnhookDelete(id, sub.id)));
    GoesThen(w, pc, w, InAdmin(UnhookDelete(id, sub.id)), Ack, Unsubscribed(w, id), Done(Completed));
  }
}
