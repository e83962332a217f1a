/** Whole stories from a fresh deployment, where the code and what is said of it part ways. */
module Stories {
  import opened Schema
  import opened Calls
  import opened Program
  import opened Machine
  import opened Registrations
  import opened Runs
  import opened Scenarios

  // ---- A callback that succeeds ----

  /** A callback and what HighLevel will say to it. */
  datatype Visit = Visit(at: Pair, text: string, code: string, key: string, resp: TokenResponse, user: string, id: Id)

  function Asked(v: Visit): Request { Callback(v.code, v.text, Some(v.key)) }

  function Cx(settings: Settings, v: Visit): CallbackCtx { CallbackCtx(settings, v.code, v.text, Some(v.key)) }

  /** The integration awaits its callback, the code can be exchanged, and the answer names a location. */
  predicate Ready(w: World, v: Visit) {
    Has(w, v.id, v.at, CREATED) && Usable(w, v.code) && v.resp.locationId != "" && v.resp.accessToken != ""
  }

  function Activated(w: World, v: Visit): World
    requires v.id in w.tables.integrations
  {
    WithStatus(CodeSpent(w, v.code), v.id, ACTIVE)
  }

  function Rx(settings: Settings, w: World, v: Visit): RegisterCtx {
    Registering(w, Cx(settings, v), v.at, v.resp, v.user, v.id)
  }

  /** The world after the integration was activated, its token stored and its provider registered. */
  function Connected(settings: Settings, w: World, v: Visit): World
    requires v.id in w.tables.integrations
  {
    var active := Activated(w, v);
    Scenarios.Registered(WithToken(active, v.id, v.resp), Rx(settings, active, v))
  }

  function Success(w: World, v: Visit): Pc {
    Done(CallbackDone(Result(w, v.at, v.resp, v.user, v.id).(registered := true)))
  }

  /** From ProcessCallback on, where the integration has no token yet. */
  lemma ConnectGoes(settings: Settings, w: World, v: Visit)
    requires Ready(w, v) && v.id !in w.tables.tokens
    ensures CanGo(w, InCallback(Cx(settings, v), CheckPlatform(v.at)), Connected(settings, w, v), Success(w, v))
  {
    hide CanGo, Settled;
    var cx, active := Cx(settings, v), Activated(w, v);
    var rx, stored := Rx(settings, active, v), WithToken(active, v.id, v.resp);
    var pc1, pc2, pc3 := InCallback(cx, CheckPlatform(v.at)), InCallback(cx, StoreToken(v.at, v.resp, v.user, v.id)), InRegister(rx, ReadIntegration);
    CallbackActivates(w, cx, v.at, v.resp, v.user, v.id);
    TokenGoesIn(active, cx, v.at, v.resp, v.user, v.id);
    RegistrationGoes(stored, rx);
    GoesOn(w, pc1, active, pc2, stored, pc3);
    GoesOn(w, pc1, stored, pc3, Connected(settings, w, v), EndRegister(rx, None));
  }

  /** A callback with a live state can succeed for any CREATED integration that has no token. */
  lemma CallbacksCanSucceed(settings: Settings, w: World, v: Visit)
    requires Alive(w, v.text, v.at) && v.text != "" && v.code != "" && Ready(w, v) && v.id !in w.tables.tokens
    ensures CanGo(w, Start(settings, Asked(v)), Connected(settings, StateSpent(w, v.text), v), Success(w, v))
  {
    hide CanGo, Connected;
    var cx := Cx(settings, v);
    StateOpens(w, cx, v.at);
    ConnectGoes(settings, StateSpent(w, v.text), v);
    GoesOn(w, InCallback(cx, Consume), StateSpent(w, v.text), InCallback(cx, CheckPlatform(v.at)),
           Connected(settings, StateSpent(w, v.text), v), Success(w, v));
  }

  /** HighLevel files configurations under their location. */
  predicate Filed(w: World) { forall l :: l in w.upstream.configs ==> w.upstream.configs[l].locationId == l }

  lemma ConnectLeaves(settings: Settings, w: World, v: Visit)
    requires v.id in w.tables.integrations && Filed(w)
    ensures var w', t, t' := Connected(settings, w, v), w.tables, Connected(settings, w, v).tables;
            && t'.integrations == t.integrations[v.id := t.integrations[v.id].(status := ACTIVE)]
            && v.id in t'.tokens && t'.tokens[v.id].accessToken == v.resp.accessToken
            && v.id in t'.configs && t'.configs[v.id].config.locationId == v.resp.locationId
            && t'.states == t.states && t'.events == t.events && t'.subscriptions == t.subscriptions
            && w'.history.issued == w.history.issued && w'.history.presented == w.history.presented
            && w'.history.effects == w.history.effects && w'.clock == w.clock
            && w'.upstream.usedCodes == w.upstream.usedCodes + {v.code} && Filed(w')
            && w'.upstream.singleUseCodes == w.upstream.singleUseCodes
  {
  }

  // ---- The first connection of a deployment ----

  function Beginning(v: Visit): Begin { Begin(v.at, true, true) }

  function Issued(w: World, v: Visit): World { WithState(w, v.at, v.text) }

  /** Provisioned as integration 0, with this location. */
  function Ground(start: State, v: Visit, loc: string): World { Provisioned(start.world, v.at, loc) }

  function FirstConnection(start: State, v: Visit, loc: string): Point
    requires v.id == start.world.tables.nextId
  {
    var w1 := Ground(start, v, loc);
    var w2 := Issued(w1, v);
    var c1 := After(Point(map[], map[], start.world, {}), 0, Install(v.at.clientId, v.at.platformId, loc), Done(Completed), w1);
    var c2 := After(c1, 1, BeginAuthorization(Beginning(v)), Done(Begun(v.text)), w2);
    After(c2, 2, Asked(v), Success(w2, v), Connected(start.settings, StateSpent(w2, v.text), v))
  }

  predicate Plausible(start: State, v: Visit) {
    && v.id == 0 && v.text != "" && v.code != "" && !Blank(v.key) && v.code !in start.world.upstream.usedCodes
    && v.resp.locationId != "" && v.resp.accessToken != ""
  }

  /** A fresh deployment can provision an integration, begin its authorization and connect it, registration included. */
  lemma DeploymentConnects(start: State, v: Visit, loc: string)
    requires Initial(start) && Plausible(start, v)
    ensures CanReach(start, FirstConnection(start, v, loc))
  {
    hide CanReach, CanGo, Connected;
    var w0, w1 := start.world, Ground(start, v, loc);
    var w2 := Issued(w1, v);
    var c0 := Point(map[], map[], w0, {});
    var c1 := After(c0, 0, Install(v.at.clientId, v.at.platformId, loc), Done(Completed), w1);
    var c2 := After(c1, 1, BeginAuthorization(Beginning(v)), Done(Begun(v.text)), w2);
    StartsThere(start);
    InstallGoes(w0, v.at, loc);
    Serves(start, c0, 0, Install(v.at.clientId, v.at.platformId, loc), w1, Done(Completed));
    AuthorizationGoes(w1, Beginning(v), v.text);
    Serves(start, c1, 1, BeginAuthorization(Beginning(v)), w2, Done(Begun(v.text)));
    CallbacksCanSucceed(start.settings, w2, v);
    Serves(start, c2, 2, Asked(v), Connected(start.settings, StateSpent(w2, v.text), v), Success(w2, v));
  }

  lemma ConnectionLeaves(start: State, v: Visit, loc: string)
    requires Initial(start) && Plausible(start, v)
    ensures var c, w, t := FirstConnection(start, v, loc), FirstConnection(start, v, loc).world, FirstConnection(start, v, loc).world.tables;
            && Has(w, 0, v.at, ACTIVE) && 0 in t.tokens && t.tokens[0].accessToken == v.resp.accessToken
            && 0 in t.configs && t.configs[0].config.locationId == v.resp.locationId
            && t.events == {} && t.subscriptions == map[] && w.history.effects == multiset{}
            && w.history.issued.Keys == {v.text} && w.history.presented == {v.text}
            && w.upstream.usedCodes == start.world.upstream.usedCodes + {v.code}
            && c.pcs.Keys == {0, 1, 2} && c.keys == {v.key}
  {
    hide Connected;
    var w2 := Issued(Ground(start, v, loc), v);
    ConnectLeaves(start.settings, StateSpent(w2, v.text), v);
  }

  // ---- A reconnection that cannot be completed ----

  /** A sync is to leave ACTIVE, a reconnect CREATED. */
  predicate Rewrites(to: Status) { to == ACTIVE || to == CREATED }

  function Rewriter(id: Id, to: Status): Request { if to == ACTIVE then Sync(id) else Reconnect(id) }

  function Reading(id: Id, to: Status): Pc { InAdmin(if to == ACTIVE then SyncRead(id) else ReconnectRead(id)) }

  function Writing(id: Id, to: Status): Pc { InAdmin(if to == ACTIVE then SyncWrite(id) else ReconnectWrite(id)) }

  lemma ReadMay(w: World, id: Id, to: Status)
    requires Rewrites(to) && id in w.tables.integrations && w.tables.integrations[id].status == ACTIVE
    ensures May(w, Reading(id, to), FoundIntegration(id, w.tables.integrations[id]), w, Writing(id, to))
  {
  }

  lemma WriteMay(w: World, id: Id, to: Status)
    requires Rewrites(to) && id in w.tables.integrations
    ensures var w' := WithStatus(w, id, to);
            May(w, Writing(id, to), FoundIntegration(id, w'.tables.integrations[id]), w', Done(Completed))
  {
    hide CallbackCall, CallbackResume, RegisterCall, RegisterResume, WebhookCall, WebhookResume, PaymentCall,
         PaymentResume, TokenWrite, ConfigWrite, WebhookWrite, StateWrite, OutsideWrite;
    var w' := WithStatus(w, id, to);
    assert IntegrationWrite(w, UpdateStatus(id, to), FoundIntegration(id, w'.tables.integrations[id]), w');
  }

  lemma ReconnectGoes(w: World, id: Id)
    requires id in w.tables.integrations && w.tables.integrations[id].status == ACTIVE
    ensures CanGo(w, InAdmin(ReconnectRead(id)), WithStatus(w, id, CREATED), Done(Completed))
  {
    hide CanGo, May;
    var w' := WithStatus(w, id, CREATED);
    ReadMay(w, id, CREATED);
    WriteMay(w, id, CREATED);
    GoesBy(w, InAdmin(ReconnectRead(id)), FoundIntegration(id, w.tables.integrations[id]), w, InAdmin(ReconnectWrite(id)));
    GoesBy(w, InAdmin(ReconnectWrite(id)), FoundIntegration(id, w'.tables.integrations[id]), w', Done(Completed));
    GoesOn(w, InAdmin(ReconnectRead(id)), w, InAdmin(ReconnectWrite(id)), w', Done(Completed));
  }

  function AfterRefusal(w: World, v: Visit): World
    requires v.id in w.tables.integrations
  {
    var active := Activated(SpentIfThere(w, v.text), v);
    active.(history := active.history.(tokenFailed := active.history.tokenFailed + {v.id}))
  }

  /** StateSpent, for a state that is there. */
  function SpentIfThere(w: World, text: string): World {
    if text in w.tables.states then StateSpent(w, text) else w
  }

  /** With a token already there the same callback activates the integration and then fails. */
  lemma CallbackIsRefused(settings: Settings, w: World, v: Visit)
    requires Alive(w, v.text, v.at) && v.text != "" && v.code != "" && Ready(w, v) && v.id in w.tables.tokens
    ensures CanGo(w, Start(settings, Asked(v)), AfterRefusal(w, v), Fail(RecordExists))
  {
    hide CanGo;
    var cx, spent := Cx(settings, v), StateSpent(w, v.text);
    var active := Activated(spent, v);
    var pc1, pc2, pc3 := InCallback(cx, Consume), InCallback(cx, CheckPlatform(v.at)), InCallback(cx, StoreToken(v.at, v.resp, v.user, v.id));
    StateOpens(w, cx, v.at);
    CallbackActivates(spent, cx, v.at, v.resp, v.user, v.id);
    RefusalGoes(active, cx, v.at, v.resp, v.user, v.id);
    GoesOn(w, pc1, spent, pc2, active, pc3);
    GoesOn(w, pc1, active, pc3, AfterRefusal(w, v), Fail(RecordExists));
  }

  /** Connected once, reconnected with success, called back with everything in order: the second callback fails, and
      leaves an ACTIVE integration with the first token. */
  ghost predicate ReconnectionFailed(c: Point, v: Visit, v': Visit) {
    && 2 in c.pcs && c.pcs[2].Done? && c.pcs[2].outcome.CallbackDone? && c.pcs[2].outcome.result.registered
    && 3 in c.pcs && c.pcs[3] == Done(Completed) && 3 in c.requests && c.requests[3] == Reconnect(0)
    && 5 in c.pcs && c.pcs[5] == Fail(RecordExists) && 5 in c.requests && c.requests[5] == Asked(v')
    && Has(c.world, 0, v.at, ACTIVE) && 0 in c.world.tables.tokens && c.world.tables.tokens[0].accessToken == v.resp.accessToken
  }

  /** Connected, reconnected, and a new authorization begun. */
  function SecondBeginning(start: State, v: Visit, v': Visit, loc: string): Point
    requires v.id == start.world.tables.nextId == 0 && 0 in FirstConnection(start, v, loc).world.tables.integrations
  {
    var c2 := FirstConnection(start, v, loc);
    var w3 := WithStatus(c2.world, 0, CREATED);
    var c3 := After(c2, 3, Reconnect(0), Done(Completed), w3);
    After(c3, 4, BeginAuthorization(Beginning(v')), Done(Begun(v'.text)), Issued(w3, v'))
  }

  lemma BeginsAgain(start: State, v: Visit, v': Visit, loc: string)
    requires Initial(start) && Plausible(start, v) && v'.text != "" && v'.text != v.text
    ensures 0 in FirstConnection(start, v, loc).world.tables.integrations
    ensures CanReach(start, SecondBeginning(start, v, v', loc))
  {
    hide CanReach, CanGo, FirstConnection;
    var c2 := FirstConnection(start, v, loc);
    DeploymentConnects(start, v, loc);
    ConnectionLeaves(start, v, loc);
    var w3 := WithStatus(c2.world, 0, CREATED);
    var c3 := After(c2, 3, Reconnect(0), Done(Completed), w3);
    ReconnectGoes(c2.world, 0);
    Serves(start, c2, 3, Reconnect(0), w3, Done(Completed));
    AuthorizationGoes(w3, Beginning(v'), v'.text);
    Serves(start, c3, 4, BeginAuthorization(Beginning(v')), Issued(w3, v'), Done(Begun(v'.text)));
  }

  lemma SecondBeginningLeaves(start: State, v: Visit, v': Visit, loc: string)
    requires Initial(start) && Plausible(start, v) && Plausible(start, v')
    requires v'.at == v.at && v'.text != v.text && v'.code != v.code && v'.key != v.key
    ensures 0 in FirstConnection(start, v, loc).world.tables.integrations
    ensures var c := SecondBeginning(start, v, v', loc);
            && Alive(c.world, v'.text, v'.at) && Ready(c.world, v') && 0 in c.world.tables.tokens
            && c.world.tables.tokens[0].accessToken == v.resp.accessToken && c.keys == {v.key} && 5 !in c.pcs
  {
    hide FirstConnection;
    ConnectionLeaves(start, v, loc);
  }

  lemma RefusalLeaves(w: World, v: Visit)
    requires Ready(w, v)
    ensures AfterRefusal(w, v).tables.tokens == w.tables.tokens && Has(AfterRefusal(w, v), v.id, v.at, ACTIVE)
  {
  }

  /** Install, callback, reconnect, and the callback that should complete the reconnection fails at the token insert;
      the integration is left active with its old token. */
  lemma ReconnectionsFail(start: State, v: Visit, v': Visit, loc: string)
    requires Initial(start) && Plausible(start, v) && Plausible(start, v')
    requires v'.at == v.at && v'.text != v.text && v'.code != v.code && v'.key != v.key
    ensures exists c :: CanReach(start, c) && ReconnectionFailed(c, v, v')
  {
    hide CanReach, CanGo, FirstConnection, AfterRefusal, Start;
    BeginsAgain(start, v, v', loc);
    SecondBeginningLeaves(start, v, v', loc);
    var c := SecondBeginning(start, v, v', loc);
    CallbackIsRefused(start.settings, c.world, v');
    Serves(start, c, 5, Asked(v'), AfterRefusal(c.world, v'), Fail(RecordExists));
    RefusalLeaves(c.world, v');
    FirstCallbackSucceeded(start, v, loc);
    assert ReconnectionFailed(After(c, 5, Asked(v'), Fail(RecordExists), AfterRefusal(c.world, v')), v, v');
  }

  lemma FirstCallbackSucceeded(start: State, v: Visit, loc: string)
    requires Plausible(start, v) && start.world.tables.nextId == 0
    ensures var c := FirstConnection(start, v, loc);
            2 in c.pcs && c.pcs[2].Done? && c.pcs[2].outcome.CallbackDone? && c.pcs[2].outcome.result.registered
  {
    hide Connected;
  }

  // ---- An event that is lost ----

  function Subscribed(w: World, id: Id, url: string): World {
    var t := w.tables;
    w.(tables := t.(subscriptions := t.subscriptions[(id, url) := Subscription(t.nextId, None)], nextId := t.nextId + 1),
       history := w.history.(urls := w.history.urls + {(id, url)}))
  }

  lemma HookReadMay(w: World, id: Id, url: string)
    requires id in w.tables.integrations && w.tables.integrations[id].status == ACTIVE
    ensures var row := w.tables.integrations[id];
            May(w, InAdmin(HookIntegration(id, url)), FoundIntegration(id, row), w, InAdmin(HookPlatform(id, url, row.platformId)))
  {
  }

  lemma HookPlatformMay(w: World, id: Id, url: string, platformId: Id)
    ensures May(w, InAdmin(HookPlatform(id, url, platformId)), FoundPlatform(true, "highlevel"), w, InAdmin(HookCreate(id, url)))
  {
  }

  lemma HookCreateMay(w: World, id: Id, url: string)
    requires id in w.tables.integrations && (id, url) !in w.tables.subscriptions
    ensures May(w, InAdmin(HookCreate(id, url)), Ack, Subscribed(w, id, url), Done(Completed))
  {
    assert WebhookWrite(w, CreateSubscription(id, url), Ack, Subscribed(w, id, url));
  }

  lemma HookGoes(w: World, id: Id, url: string)
    requires id in w.tables.integrations && w.tables.integrations[id].status == ACTIVE && (id, url) !in w.tables.subscriptions
    ensures CanGo(w, InAdmin(HookIntegration(id, url)), Subscribed(w, id, url), Done(Completed))
  {
    hide CanGo, May;
    var row, w' := w.tables.integrations[id], Subscribed(w, id, url);
    var pc1, pc2, pc3 := InAdmin(HookIntegration(id, url)), InAdmin(HookPlatform(id, url, row.platformId)), InAdmin(HookCreate(id, url));
    HookReadMay(w, id, url);
    HookPlatformMay(w, id, url, row.platformId);
    HookCreateMay(w, id, url);
    GoesBy(w, pc1, FoundIntegration(id, row), w, pc2);
    GoesBy(w, pc2, FoundPlatform(true, "highlevel"), w, pc3);
    GoesBy(w, pc3, Ack, w', Done(Completed));
    GoesOn(w, pc1, w, pc2, w, pc3);
    GoesOn(w, pc1, w, pc3, w', Done(Completed));
  }

  /** A recorded event that is not an INSTALL goes on, unless the lookup fails, exactly if there is a subscription
      under the empty endpoint; else the delivery is over. */
  lemma SubscriptionDecides(w: World, wx: WebhookCtx, id: Id, r: Reply, w': World)
    requires Answers(w, GetSubscription(id, ""), r, w') && !Fault(r)
    ensures w' == w
    ensures Resume(InWebhook(wx, CheckSubscription(id)), r)
            == if (id, "") in w.tables.subscriptions then InWebhook(wx, Touch(id, w.tables.subscriptions[(id, "")].id)) else Fail(WebhookNotFound)
  {
  }

  function Recorded(w: World, key: EventKey): World { w.(tables := w.tables.(events := w.tables.events + {key})) }

  lemma EventMay(w: World, wx: WebhookCtx, id: Id)
    requires !IsInstall(wx.event) && id in w.tables.integrations && id in w.tables.configs
    requires w.tables.configs[id].config.locationId == wx.event.locationId
    requires (id, wx.event.eventId) !in w.tables.events
    ensures May(w, InWebhook(wx, ResolveOther), FoundConfig(id, w.tables.configs[id]), w, InWebhook(wx, Record(id)))
    ensures May(w, InWebhook(wx, Record(id)), Ack, Recorded(w, (id, wx.event.eventId)), InWebhook(wx, CheckSubscription(id)))
  {
    assert WebhookWrite(w, CreateEvent((id, wx.event.eventId)), Ack, Recorded(w, (id, wx.event.eventId)));
  }

  lemma UnsubscribedMay(w: World, wx: WebhookCtx, id: Id)
    requires (id, "") !in w.tables.subscriptions
    ensures May(w, InWebhook(wx, CheckSubscription(id)), Err(NotFound), w, Fail(WebhookNotFound))
  {
  }

  lemma EventGetsLost(w: World, wx: WebhookCtx, id: Id)
    requires !IsInstall(wx.event) && id in w.tables.integrations && id in w.tables.configs
    requires w.tables.configs[id].config.locationId == wx.event.locationId
    requires (id, wx.event.eventId) !in w.tables.events && (id, "") !in w.tables.subscriptions
    ensures CanGo(w, InWebhook(wx, ResolveOther), Recorded(w, (id, wx.event.eventId)), Fail(WebhookNotFound))
  {
    hide CanGo, May;
    var w' := Recorded(w, (id, wx.event.eventId));
    var pc1, pc2, pc3 := InWebhook(wx, ResolveOther), InWebhook(wx, Record(id)), InWebhook(wx, CheckSubscription(id));
    EventMay(w, wx, id);
    UnsubscribedMay(w', wx, id);
    GoesBy(w, pc1, FoundConfig(id, w.tables.configs[id]), w, pc2);
    GoesBy(w, pc2, Ack, w', pc3);
    GoesBy(w', pc3, Err(NotFound), w', Fail(WebhookNotFound));
    GoesOn(w, pc1, w, pc2, w', pc3);
    GoesOn(w, pc1, w', pc3, w', Fail(WebhookNotFound));
  }

  /** A webhook registered under its URL, and an event recorded, without effect, with its delivery over. */
  ghost predicate EventLost(c: Point, url: string, ev: Event) {
    && 3 in c.pcs && c.pcs[3] == Done(Completed) && 3 in c.requests && c.requests[3] == RegisterWebhook(0, url)
    && 4 in c.pcs && c.pcs[4] == Fail(WebhookNotFound) && 4 in c.requests && c.requests[4] == Webhook("highlevel", true, Some(ev))
    && (0, ev.eventId) in c.world.tables.events && c.world.history.effects == multiset{}
  }

  /** By LostForGood nothing will ever dispatch it. */
  lemma EventsGetLost(start: State, v: Visit, loc: string, url: string, ev: Event)
    requires Initial(start) && Plausible(start, v) && url != "" && !IsInstall(ev) && ev.locationId == v.resp.locationId
    ensures exists c :: CanReach(start, c) && EventLost(c, url, ev)
  {
    hide CanReach, CanGo, FirstConnection;
    var c2, request := FirstConnection(start, v, loc), Webhook("highlevel", true, Some(ev));
    DeploymentConnects(start, v, loc);
    ConnectionLeaves(start, v, loc);
    var w3 := Subscribed(c2.world, 0, url);
    var c3 := After(c2, 3, RegisterWebhook(0, url), Done(Completed), w3);
    HookGoes(c2.world, 0, url);
    Serves(start, c2, 3, RegisterWebhook(0, url), w3, Done(Completed));
    var wx, w4 := WebhookCtx(start.settings, ev), Recorded(w3, (0, ev.eventId));
    EventGetsLost(w3, wx, 0);
    Serves(start, c3, 4, request, w4, Fail(WebhookNotFound));
    assert EventLost(After(c3, 4, request, Fail(WebhookNotFound), w4), url, ev);
  }

  // ---- A callback without a state ----

  /** With codes that can be used twice it can succeed. */
  lemma StatelessCallbackGoes(settings: Settings, w: World, v: Visit)
    requires !w.upstream.singleUseCodes && v.text == "" && v.code != "" && Ready(w, v) && v.id !in w.tables.tokens
    requires w.tables.integrations[v.id].externalAccountId == v.resp.locationId
    ensures CanGo(w, Start(settings, Asked(v)), Connected(settings, CodeSpent(w, v.code), v), Success(w, v))
  {
    hide CanGo, Connected;
    var cx, spent := Cx(settings, v), CodeSpent(w, v.code);
    LocationOpens(w, cx, v.resp, v.id, v.at);
    ConnectGoes(settings, spent, v);
    GoesOn(w, InCallback(cx, FirstExchange), spent, InCallback(cx, CheckPlatform(v.at)), Connected(settings, spent, v), Success(w, v));
  }

  ghost predicate StatelessSuccess(s: State, p: nat) {
    p in s.procs && s.procs[p].request.Callback? && s.procs[p].request.state == "" && s.procs[p].pc.Done? && s.procs[p].pc.outcome.CallbackDone?
  }

  lemma StatelessCallbacksCanSucceed(start: State)
    requires Initial(start) && !start.world.upstream.singleUseCodes
    ensures exists r, p :: Valid(r) && First(r) == start && StatelessSuccess(Last(r), p)
  {
    hide CanReach, CanGo, Connected, Valid, First, Last;
    var resp := TokenResponse("access", "refresh", 3600, "Bearer", "", "location");
    var v := Visit(Pair(0, 0), "", "code", "key", resp, "user", 0);
    assert !Blank(v.key);
    var w1 := Ground(start, v, "location");
    var c0 := Point(map[], map[], start.world, {});
    var c1 := After(c0, 0, Install(0, 0, "location"), Done(Completed), w1);
    StartsThere(start);
    InstallGoes(start.world, v.at, "location");
    Serves(start, c0, 0, Install(0, 0, "location"), w1, Done(Completed));
    StatelessCallbackGoes(start.settings, w1, v);
    var w2 := Connected(start.settings, CodeSpent(w1, v.code), v);
    Serves(start, c1, 1, Asked(v), w2, Success(w1, v));
    StatelessAt(start, After(c1, 1, Asked(v), Success(w1, v), w2), 1);
  }

  lemma StatelessAt(start: State, c: Point, p: nat)
    requires CanReach(start, c) && p in c.pcs && p in c.requests && c.requests[p].Callback? && c.requests[p].state == ""
    requires c.pcs[p].Done? && c.pcs[p].outcome.CallbackDone?
    ensures exists r, p :: Valid(r) && First(r) == start && StatelessSuccess(Last(r), p)
  {
    hide Valid;
    var r :| Leads(start, r, c);
    assert StatelessSuccess(Last(r), p);
  }

  /** A callback without a state can succeed if and only if HighLevel lets a code be exchanged twice. */
  lemma StatelessCallbacksSucceedIff(start: State)
    requires Initial(start)
    ensures (exists r, p :: Valid(r) && First(r) == start && StatelessSuccess(Last(r), p)) <==> !start.world.upstream.singleUseCodes
  {
    hide Valid, Initial;
    if !start.world.upstream.singleUseCodes {
      StatelessCallbacksCanSucceed(start);
    }
    forall r, p | Valid(r) && First(r) == start && StatelessSuccess(Last(r), p) ensures !start.world.upstream.singleUseCodes {
      CodesArePresented(r);
      CodePolicyStays(r);
    }
  }

  lemma {:induction false} CodePolicyStays(r: Run)
    requires Valid(r)
    ensures Last(r).world.upstream.singleUseCodes == First(r).world.upstream.singleUseCodes
  {
    if r.Then? {
      CodePolicyStays(r.before);
      RunKeepsSchema(r.before);
      StepKeepsSchema(Last(r.before), r.step, r.after);
    }
  }

  // ---- Stale writes ----

  lemma DisconnectMay(w: World, id: Id)
    requires id in w.tables.integrations
    ensures May(w, InAdmin(DisconnectRead(id)), FoundIntegration(id, w.tables.integrations[id]), w, InAdmin(DisconnectWrite(id)))
    ensures var w' := WithStatus(w, id, REVOKED);
            May(w, InAdmin(DisconnectWrite(id)), FoundIntegration(id, w'.tables.integrations[id]), w', Done(Completed))
  {
    hide CallbackCall, CallbackResume, RegisterCall, RegisterResume, WebhookCall, WebhookResume, PaymentCall,
         PaymentResume, TokenWrite, ConfigWrite, WebhookWrite, StateWrite, OutsideWrite;
    var w' := WithStatus(w, id, REVOKED);
    assert IntegrationWrite(w, UpdateStatus(id, REVOKED), FoundIntegration(id, w'.tables.integrations[id]), w');
  }

  lemma DisconnectGoes(w: World, id: Id)
    requires id in w.tables.integrations
    ensures CanGo(w, InAdmin(DisconnectRead(id)), WithStatus(w, id, REVOKED), Done(Completed))
  {
    hide CanGo, May;
    var w' := WithStatus(w, id, REVOKED);
    DisconnectMay(w, id);
    GoesBy(w, InAdmin(DisconnectRead(id)), FoundIntegration(id, w.tables.integrations[id]), w, InAdmin(DisconnectWrite(id)));
    GoesBy(w, InAdmin(DisconnectWrite(id)), FoundIntegration(id, w'.tables.integrations[id]), w', Done(Completed));
    GoesOn(w, InAdmin(DisconnectRead(id)), w, InAdmin(DisconnectWrite(id)), w', Done(Completed));
  }

  /** The disconnect is done and integration 0 revoked, while a sync or reconnect that read ACTIVE is about to write. */
  ghost predicate WriteIsStale(c: Point, to: Status) {
    && 3 in c.pcs && c.pcs[3] == Writing(0, to) && 3 in c.requests && c.requests[3] == Rewriter(0, to)
    && 4 in c.pcs && c.pcs[4] == Done(Completed) && 4 in c.requests && c.requests[4] == Disconnect(0)
    && 0 in c.world.tables.integrations && c.world.tables.integrations[0].status == REVOKED
  }

  /** Connected, and a sync or reconnect has read it. */
  function ReadBefore(start: State, v: Visit, loc: string, to: Status): Point
    requires v.id == start.world.tables.nextId
  {
    var c := FirstConnection(start, v, loc);
    Moved(Joined(c, 3, start.settings, Rewriter(0, to)), 3, Writing(0, to), c.world)
  }

  lemma StartsReading(settings: Settings, to: Status)
    requires Rewrites(to)
    ensures Start(settings, Rewriter(0, to)) == Reading(0, to) && Keys(Rewriter(0, to)) == {}
  {
  }

  lemma ReadsBefore(start: State, v: Visit, loc: string, to: Status)
    requires Initial(start) && Plausible(start, v) && Rewrites(to)
    ensures CanReach(start, ReadBefore(start, v, loc, to))
  {
    hide CanReach, CanGo, May, FirstConnection, Reading, Writing, Rewriter, Start;
    var c := FirstConnection(start, v, loc);
    DeploymentConnects(start, v, loc);
    ConnectionLeaves(start, v, loc);
    StartsReading(start.settings, to);
    Arrives(start, c, 3, Rewriter(0, to));
    ReadMay(c.world, 0, to);
    Acts(start, Joined(c, 3, start.settings, Rewriter(0, to)), 3, FoundIntegration(0, c.world.tables.integrations[0]), c.world,
         Writing(0, to));
  }

  /** Call by call all three rules of the lifecycle can be broken: from a fresh deployment a sync that read ACTIVE before
      a disconnect can afterwards take REVOKED to ACTIVE, and a reconnect to CREATED; and both requests report success. */
  lemma StaleWritesRevive(start: State, v: Visit, loc: string, to: Status)
    requires Initial(start) && Plausible(start, v) && Rewrites(to)
    ensures exists c :: CanReach(start, c) && WriteIsStale(c, to)
              && CanReach(start, Moved(c, 3, Done(Completed), WithStatus(c.world, 0, to)))
  {
    hide CanReach, CanGo, May, FirstConnection, Reading, Writing, Rewriter;
    ReadsBefore(start, v, loc, to);
    ConnectionLeaves(start, v, loc);
    StartsReading(start.settings, to);
    var c, w := ReadBefore(start, v, loc, to), FirstConnection(start, v, loc).world;
    var revoked := WithStatus(w, 0, REVOKED);
    DisconnectGoes(w, 0);
    Serves(start, c, 4, Disconnect(0), revoked, Done(Completed));
    var c', revived := After(c, 4, Disconnect(0), Done(Completed), revoked), WithStatus(revoked, 0, to);
    WriteMay(revoked, 0, to);
    Acts(start, c', 3, FoundIntegration(0, revived.tables.integrations[0]), revived, Done(Completed));
    assert WriteIsStale(c', to);
  }
}
