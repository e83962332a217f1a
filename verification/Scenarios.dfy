/** What the service may do: points that some run from a fresh deployment reaches. */
module Scenarios {
  import opened Schema
  import opened Calls
  import opened Program
  import opened Machine

  // ---- One request on its own ----

  /** The next call may be answered like this, and then the request is at `next`. */
  ghost predicate May(w: World, pc: Pc, reply: Reply, w': World, next: Pc) {
    !pc.Done? && Answers(w, NextCall(pc), reply, w') && Resume(pc, reply) == next
  }

  /** A reply, the world it leaves, and where it leaves the request. */
  datatype Leg = Leg(reply: Reply, world: World, next: Pc)

  ghost predicate Along(w: World, pc: Pc, way: seq<Leg>, w': World, pc': Pc)
    decreases |way|
  {
    if way == [] then w' == w && pc' == pc
    else May(w, pc, way[0].reply, way[0].world, way[0].next) && Along(way[0].world, way[0].next, way[1..], w', pc')
  }

  ghost predicate CanGo(w: World, pc: Pc, w': World, pc': Pc) {
    exists way :: Along(w, pc, way, w', pc')
  }

  lemma GoesBy(w: World, pc: Pc, reply: Reply, w': World, next: Pc)
    requires May(w, pc, reply, w', next)
    ensures CanGo(w, pc, w', next)
  {
    hide May;
    assert Along(w', next, [], w', next);
    assert [Leg(reply, w', next)][1..] == [];
    assert Along(w, pc, [Leg(reply, w', next)], w', next);
  }

  lemma {:induction false} GoesAlong(w: World, pc: Pc, way: seq<Leg>, w1: World, pc1: Pc, w2: World, pc2: Pc)
    requires Along(w, pc, way, w1, pc1) && CanGo(w1, pc1, w2, pc2)
    ensures CanGo(w, pc, w2, pc2)
    decreases |way|
  {
    hide May;
    if way != [] {
      GoesAlong(way[0].world, way[0].next, way[1..], w1, pc1, w2, pc2);
      var rest :| Along(way[0].world, way[0].next, rest, w2, pc2);
      assert ([way[0]] + rest)[1..] == rest;
      assert Along(w, pc, [way[0]] + rest, w2, pc2);
    }
  }

  lemma GoesOn(w: World, pc: Pc, w1: World, pc1: Pc, w2: World, pc2: Pc)
    requires CanGo(w, pc, w1, pc1) && CanGo(w1, pc1, w2, pc2)
    ensures CanGo(w, pc, w2, pc2)
  {
    var way :| Along(w, pc, way, w1, pc1);
    GoesAlong(w, pc, way, w1, pc1, w2, pc2);
  }

  // ---- Requests together ----

  /** Where every request is and what it asked, the world, and the keys drawn so far. */
  datatype Point = Point(pcs: map<nat, Pc>, requests: map<nat, Request>, world: World, keys: set<string>)

  function PointOf(s: State): Point {
    Point(map p | p in s.procs :: s.procs[p].pc, map p | p in s.procs :: s.procs[p].request, s.world, s.keys)
  }

  ghost predicate Leads(start: State, r: Run, c: Point) {
    Valid(r) && First(r) == start && Last(r).settings == start.settings && PointOf(Last(r)) == c
  }

  /** Some run from `start` gets there. */
  ghost predicate CanReach(start: State, c: Point) {
    exists r :: Leads(start, r, c)
  }

  function Moved(c: Point, pid: nat, next: Pc, w: World): Point { c.(pcs := c.pcs[pid := next], world := w) }

  function Joined(c: Point, pid: nat, settings: Settings, req: Request): Point {
    c.(pcs := c.pcs[pid := Start(settings, req)], requests := c.requests[pid := req], keys := c.keys + Keys(req))
  }

  lemma PointJoins(s: State, pid: nat, p: Proc, keys: set<string>)
    ensures var c, c' := PointOf(s), PointOf(s.(procs := s.procs[pid := p], keys := keys));
            c' == c.(pcs := c.pcs[pid := p.pc], requests := c.requests[pid := p.request], keys := keys)
  {
  }

  lemma PointKnows(s: State, pid: nat)
    ensures pid in s.procs <==> pid in PointOf(s).pcs
    ensures pid in s.procs ==> s.procs[pid].pc == PointOf(s).pcs[pid]
    ensures PointOf(s).world == s.world && PointOf(s).keys == s.keys
  {
  }

  lemma PointActs(s: State, pid: nat, p: Proc, w': World, owner: map<EventKey, nat>)
    requires pid in s.procs && p.request == s.procs[pid].request
    ensures PointOf(s.(world := w', procs := s.procs[pid := p], owner := owner)) == Moved(PointOf(s), pid, p.pc, w')
  {
  }

  lemma StartsThere(start: State)
    requires Initial(start)
    ensures CanReach(start, Point(map[], map[], start.world, {}))
  {
    assert Leads(start, From(start), Point(map[], map[], start.world, {}));
  }

  lemma Arrives(start: State, c: Point, pid: nat, req: Request)
    requires CanReach(start, c) && pid !in c.pcs && forall k :: k in Keys(req) ==> !Blank(k) && k !in c.keys
    ensures CanReach(start, Joined(c, pid, start.settings, req))
  {
    hide Answers, Start, PointOf;
    var r :| Leads(start, r, c);
    var s := Last(r);
    var s' := s.(procs := s.procs[pid := Arrived(s.settings, req)], keys := s.keys + Keys(req));
    PointJoins(s, pid, Arrived(s.settings, req), s.keys + Keys(req));
    PointKnows(s, pid);
    assert Leads(start, Then(r, Arrive(pid, req), s'), Joined(c, pid, start.settings, req));
  }

  lemma Acts(start: State, c: Point, pid: nat, reply: Reply, w': World, next: Pc)
    requires CanReach(start, c) && pid in c.pcs && May(c.world, c.pcs[pid], reply, w', next)
    ensures CanReach(start, Moved(c, pid, next, w'))
  {
    hide Answers, Resume, NextCall, PointOf;
    var r :| Leads(start, r, c);
    var s, call := Last(r), NextCall(c.pcs[pid]);
    PointKnows(s, pid);
    var p := Advance(s.procs[pid], reply, s.world, w');
    var owner := if call.CreateEvent? && reply.Ack? then s.owner[call.key := pid] else s.owner;
    var r' := Then(r, Act(pid, reply), s.(world := w', procs := s.procs[pid := p], owner := owner));
    PointActs(s, pid, p, w', owner);
    assert Leads(start, r', Moved(c, pid, next, w'));
  }

  lemma MovedTwice(c: Point, pid: nat, a: Pc, w: World, b: Pc, w': World)
    ensures Moved(Moved(c, pid, a, w), pid, b, w') == Moved(c, pid, b, w')
  {
    assert c.pcs[pid := a][pid := b] == c.pcs[pid := b];
  }

  lemma {:induction false} ActsAlong(start: State, c: Point, pid: nat, way: seq<Leg>, w': World, pc': Pc)
    requires CanReach(start, c) && pid in c.pcs && Along(c.world, c.pcs[pid], way, w', pc')
    ensures CanReach(start, Moved(c, pid, pc', w'))
    decreases |way|
  {
    hide CanReach, May;
    if way == [] {
      assert c.pcs[pid := pc'] == c.pcs;
    } else {
      Acts(start, c, pid, way[0].reply, way[0].world, way[0].next);
      ActsAlong(start, Moved(c, pid, way[0].next, way[0].world), pid, way[1..], w', pc');
      MovedTwice(c, pid, way[0].next, way[0].world, pc', w');
    }
  }

  /** What one request can do on its own it can do from any point, while the others wait. */
  lemma Goes(start: State, c: Point, pid: nat, w': World, pc': Pc)
    requires CanReach(start, c) && pid in c.pcs && CanGo(c.world, c.pcs[pid], w', pc')
    ensures CanReach(start, Moved(c, pid, pc', w'))
  {
    hide CanReach, May;
    var way :| Along(c.world, c.pcs[pid], way, w', pc');
    ActsAlong(start, c, pid, way, w', pc');
  }

  /** The point after one more request has arrived and gone its way. */
  function After(c: Point, pid: nat, req: Request, pc: Pc, w: World): Point {
    Point(c.pcs[pid := pc], c.requests[pid := req], w, c.keys + Keys(req))
  }

  lemma Serves(start: State, c: Point, pid: nat, req: Request, w': World, pc': Pc)
    requires CanReach(start, c) && pid !in c.pcs && forall k :: k in Keys(req) ==> !Blank(k) && k !in c.keys
    requires CanGo(c.world, Start(start.settings, req), w', pc')
    ensures CanReach(start, After(c, pid, req, pc', w'))
  {
    hide CanReach, CanGo, Start;
    Arrives(start, c, pid, req);
    var joined := Joined(c, pid, start.settings, req);
    Goes(start, joined, pid, w', pc');
    assert joined.pcs[pid := pc'] == c.pcs[pid := pc'];
  }

  // ---- Worlds ----

  function WithStatus(w: World, id: Id, status: Status): World
    requires id in w.tables.integrations
  {
    w.(tables := w.tables.(integrations := w.tables.integrations[id := w.tables.integrations[id].(status := status)]))
  }

  function Provisioned(w: World, at: Pair, ext: string): World {
    var t := w.tables;
    w.(tables := t.(integrations := t.integrations[t.nextId := Integration(at.clientId, at.platformId, ext, CREATED)],
                    nextId := t.nextId + 1))
  }

  function NewRow(w: World, at: Pair): OauthState { OauthState(at.clientId, at.platformId, w.clock + STATE_TTL, false) }

  function WithState(w: World, at: Pair, text: string): World {
    w.(tables := w.tables.(states := w.tables.states[text := NewRow(w, at)]),
       history := w.history.(issued := w.history.issued[text := Issue(at.clientId, at.platformId, w.clock, w.clock + STATE_TTL)]))
  }

  function StateSpent(w: World, text: string): World
    requires text in w.tables.states
  {
    var row, h := w.tables.states[text].(consumed := true), w.history;
    w.(tables := w.tables.(states := w.tables.states[text := row]),
       history := h.(presented := h.presented + {text},
                     accepted := h.accepted[text := Acceptance(row.clientId, row.platformId, w.clock)]))
  }

  function CodeSpent(w: World, code: string): World {
    w.(upstream := w.upstream.(usedCodes := w.upstream.usedCodes + {code}))
  }

  function WithToken(w: World, id: Id, resp: TokenResponse): World {
    var t := w.tables;
    w.(tables := t.(tokens := t.tokens[id := TokenRow(t.nextId, resp, w.clock + resp.expiresIn)], nextId := t.nextId + 1))
  }

  function Associated(w: World, loc: string): World {
    w.(upstream := w.upstream.(associations := w.upstream.associations + {loc}))
  }

  function Configured(w: World, config: ProviderConfig): World {
    w.(upstream := w.upstream.(configs := w.upstream.configs[config.locationId := config]))
  }

  function WithConfig(w: World, id: Id, config: ProviderConfig, key: string): World {
    w.(tables := w.tables.(configs := w.tables.configs[id := ConfigRow(config, key)]), history := LogKey(w.history, id, key))
  }

  predicate Has(w: World, id: Id, at: Pair, status: Status) {
    && id in w.tables.integrations && w.tables.integrations[id].status == status
    && w.tables.integrations[id].clientId == at.clientId && w.tables.integrations[id].platformId == at.platformId
  }

  predicate Vacant(w: World, at: Pair) {
    forall i :: i in w.tables.integrations ==>
                  w.tables.integrations[i].clientId != at.clientId || w.tables.integrations[i].platformId != at.platformId
  }

  // ---- Provisioning ----

  lemma InstallChecksMay(w: World, at: Pair, ext: string)
    ensures May(w, InAdmin(InstallClient(at, ext)), FoundClient(true), w, InAdmin(InstallPlatform(at, ext)))
    ensures May(w, InAdmin(InstallPlatform(at, ext)), FoundPlatform(true, "highlevel"), w, InAdmin(InstallExisting(at, ext)))
  {
  }

  lemma VacancyMay(w: World, at: Pair, ext: string)
    requires Vacant(w, at)
    ensures May(w, InAdmin(InstallExisting(at, ext)), Err(NotFound), w, InAdmin(InstallInsert(at, ext)))
  {
  }

  lemma InstallInsertMay(w: World, at: Pair, ext: string)
    requires Vacant(w, at)
    ensures var row := Integration(at.clientId, at.platformId, ext, CREATED);
            May(w, InAdmin(InstallInsert(at, ext)), FoundIntegration(w.tables.nextId, row), Provisioned(w, at, ext), Done(Completed))
  {
    hide CallbackCall, CallbackResume, RegisterCall, RegisterResume, WebhookCall, WebhookResume, PaymentCall,
         PaymentResume, TokenWrite, ConfigWrite, WebhookWrite, StateWrite, OutsideWrite;
    var row := Integration(at.clientId, at.platformId, ext, CREATED);
    assert IntegrationWrite(w, CreateIntegration(row), FoundIntegration(w.tables.nextId, row), Provisioned(w, at, ext));
  }

  /** Provisioning can go through for any client and platform that have no integration, whatever its location. */
  lemma InstallGoes(w: World, at: Pair, ext: string)
    requires Vacant(w, at)
    ensures CanGo(w, InAdmin(InstallClient(at, ext)), Provisioned(w, at, ext), Done(Completed))
  {
    hide CanGo, May;
    var pc1, pc2, pc3, pc4 :=
      InAdmin(InstallClient(at, ext)), InAdmin(InstallPlatform(at, ext)), InAdmin(InstallExisting(at, ext)), InAdmin(InstallInsert(at, ext));
    var done := Provisioned(w, at, ext);
    InstallChecksMay(w, at, ext);
    VacancyMay(w, at, ext);
    InstallInsertMay(w, at, ext);
    GoesBy(w, pc1, FoundClient(true), w, pc2);
    GoesBy(w, pc2, FoundPlatform(true, "highlevel"), w, pc3);
    GoesBy(w, pc3, Err(NotFound), w, pc4);
    GoesBy(w, pc4, FoundIntegration(w.tables.nextId, Integration(at.clientId, at.platformId, ext, CREATED)), done, Done(Completed));
    GoesOn(w, pc1, w, pc2, w, pc3);
    GoesOn(w, pc1, w, pc3, w, pc4);
    GoesOn(w, pc1, w, pc4, done, Done(Completed));
  }

  // ---- Authorization ----

  lemma BeginChecksMay(w: World, begin: Begin)
    requires begin.stateDrawn
    ensures May(w, InAdmin(BeginPlatform(begin)), FoundPlatform(true, "highlevel"), w, InAdmin(BeginClient(begin, "highlevel")))
    ensures May(w, InAdmin(BeginClient(begin, "highlevel")), FoundClient(true), w, InAdmin(BeginCreate(begin)))
  {
  }

  lemma BeginCreateMay(w: World, begin: Begin, text: string)
    requires begin.urlParses && text != "" && text !in w.history.issued && text !in w.history.presented
    ensures May(w, InAdmin(BeginCreate(begin)), NewState(text, NewRow(w, begin.at)), WithState(w, begin.at, text), Done(Begun(text)))
  {
    assert StateWrite(w, CreateState(begin.at.clientId, begin.at.platformId), NewState(text, NewRow(w, begin.at)), WithState(w, begin.at, text));
  }

  lemma AuthorizationGoes(w: World, begin: Begin, text: string)
    requires begin.stateDrawn && begin.urlParses && text != "" && text !in w.history.issued && text !in w.history.presented
    ensures CanGo(w, InAdmin(BeginPlatform(begin)), WithState(w, begin.at, text), Done(Begun(text)))
  {
    hide CanGo, May;
    var pc1, pc2, pc3 := InAdmin(BeginPlatform(begin)), InAdmin(BeginClient(begin, "highlevel")), InAdmin(BeginCreate(begin));
    var done := WithState(w, begin.at, text);
    BeginChecksMay(w, begin);
    BeginCreateMay(w, begin, text);
    GoesBy(w, pc1, FoundPlatform(true, "highlevel"), w, pc2);
    GoesBy(w, pc2, FoundClient(true), w, pc3);
    GoesBy(w, pc3, NewState(text, NewRow(w, begin.at)), done, Done(Begun(text)));
    GoesOn(w, pc1, w, pc2, w, pc3);
    GoesOn(w, pc1, w, pc3, done, Done(Begun(text)));
  }

  // ---- Callbacks ----

  predicate Usable(w: World, code: string) { !(w.upstream.singleUseCodes && code in w.upstream.usedCodes) }

  predicate Alive(w: World, state: string, at: Pair) {
    && state in w.tables.states && !w.tables.states[state].consumed && w.tables.states[state].expiresAt > w.clock
    && w.tables.states[state].clientId == at.clientId && w.tables.states[state].platformId == at.platformId
  }

  /** A live state lets its callback into ProcessCallback. */
  lemma StateOpens(w: World, cx: CallbackCtx, at: Pair)
    requires Alive(w, cx.state, at)
    ensures CanGo(w, InCallback(cx, Consume), StateSpent(w, cx.state), InCallback(cx, CheckPlatform(at)))
  {
    var row := w.tables.states[cx.state].(consumed := true);
    assert StateWrite(w, ConsumeState(cx.state), FoundState(row), StateSpent(w, cx.state));
    GoesBy(w, InCallback(cx, Consume), FoundState(row), StateSpent(w, cx.state), InCallback(cx, CheckPlatform(at)));
  }

  lemma LocationMay(w: World, cx: CallbackCtx, resp: TokenResponse, id: Id)
    requires Usable(w, cx.code) && resp.locationId != ""
    requires id in w.tables.integrations && w.tables.integrations[id].externalAccountId == resp.locationId
    ensures May(w, InCallback(cx, FirstExchange), Exchanged(resp), CodeSpent(w, cx.code), InCallback(cx, ByExternalAccount(resp.locationId)))
    ensures var row := w.tables.integrations[id];
            May(CodeSpent(w, cx.code), InCallback(cx, ByExternalAccount(resp.locationId)), FoundIntegration(id, row), CodeSpent(w, cx.code),
                InCallback(cx, CheckPlatform(Pair(row.clientId, row.platformId))))
  {
  }

  /** So does a code that HighLevel exchanges for the location of an integration. */
  lemma LocationOpens(w: World, cx: CallbackCtx, resp: TokenResponse, id: Id, at: Pair)
    requires Usable(w, cx.code) && resp.locationId != "" && Has(w, id, at, CREATED)
    requires w.tables.integrations[id].externalAccountId == resp.locationId
    ensures CanGo(w, InCallback(cx, FirstExchange), CodeSpent(w, cx.code), InCallback(cx, CheckPlatform(at)))
  {
    hide CanGo, May;
    var pc1, pc2, pc3 := InCallback(cx, FirstExchange), InCallback(cx, ByExternalAccount(resp.locationId)), InCallback(cx, CheckPlatform(at));
    var spent := CodeSpent(w, cx.code);
    LocationMay(w, cx, resp, id);
    GoesBy(w, pc1, Exchanged(resp), spent, pc2);
    GoesBy(spent, pc2, FoundIntegration(id, w.tables.integrations[id]), spent, pc3);
    GoesOn(w, pc1, spent, pc2, spent, pc3);
  }

  lemma ChecksMay(w: World, cx: CallbackCtx, at: Pair)
    ensures May(w, InCallback(cx, CheckPlatform(at)), FoundPlatform(true, "highlevel"), w, InCallback(cx, CheckClient(at)))
    ensures May(w, InCallback(cx, CheckClient(at)), FoundClient(true), w, InCallback(cx, Exchange(at)))
  {
  }

  lemma ExchangeMay(w: World, cx: CallbackCtx, at: Pair, resp: TokenResponse)
    requires Usable(w, cx.code)
    ensures May(w, InCallback(cx, Exchange(at)), Exchanged(resp), CodeSpent(w, cx.code), InCallback(cx, UserInfo(at, resp)))
  {
  }

  lemma UserMay(w: World, cx: CallbackCtx, at: Pair, resp: TokenResponse, user: string)
    ensures May(w, InCallback(cx, UserInfo(at, resp)), UserIs(user), w, InCallback(cx, Existing(at, resp, user)))
  {
  }

  lemma ExchangeGoes(w: World, cx: CallbackCtx, at: Pair, resp: TokenResponse, user: string)
    requires Usable(w, cx.code)
    ensures CanGo(w, InCallback(cx, CheckPlatform(at)), CodeSpent(w, cx.code), InCallback(cx, Existing(at, resp, user)))
  {
    hide CanGo, May;
    var pc1, pc2, pc3 := InCallback(cx, CheckPlatform(at)), InCallback(cx, CheckClient(at)), InCallback(cx, Exchange(at));
    var pc4, pc5 := InCallback(cx, UserInfo(at, resp)), InCallback(cx, Existing(at, resp, user));
    var spent := CodeSpent(w, cx.code);
    ChecksMay(w, cx, at);
    ExchangeMay(w, cx, at, resp);
    UserMay(spent, cx, at, resp, user);
    GoesBy(w, pc1, FoundPlatform(true, "highlevel"), w, pc2);
    GoesBy(w, pc2, FoundClient(true), w, pc3);
    GoesBy(w, pc3, Exchanged(resp), spent, pc4);
    GoesBy(spent, pc4, UserIs(user), spent, pc5);
    GoesOn(w, pc1, w, pc2, w, pc3);
    GoesOn(w, pc1, w, pc3, spent, pc4);
    GoesOn(w, pc1, spent, pc4, spent, pc5);
  }

  lemma ActivateMay(w: World, cx: CallbackCtx, at: Pair, resp: TokenResponse, user: string, id: Id)
    requires Has(w, id, at, CREATED)
    ensures May(w, InCallback(cx, Existing(at, resp, user)), FoundIntegration(id, w.tables.integrations[id]), w,
                InCallback(cx, Activate(at, resp, user, id)))
    ensures var w' := WithStatus(w, id, ACTIVE);
            May(w, InCallback(cx, Activate(at, resp, user, id)), FoundIntegration(id, w'.tables.integrations[id]), w',
                InCallback(cx, StoreToken(at, resp, user, id)))
  {
    hide RegisterCall, RegisterResume, WebhookCall, WebhookResume, PaymentCall, PaymentResume, AdminCall,
         AdminResume, TokenWrite, ConfigWrite, WebhookWrite, StateWrite, OutsideWrite;
    var w' := WithStatus(w, id, ACTIVE);
    assert IntegrationWrite(w, UpdateStatus(id, ACTIVE), FoundIntegration(id, w'.tables.integrations[id]), w');
  }

  /** Inside ProcessCallback a CREATED integration gets activated. */
  lemma CallbackActivates(w: World, cx: CallbackCtx, at: Pair, resp: TokenResponse, user: string, id: Id)
    requires Usable(w, cx.code) && Has(w, id, at, CREATED)
    ensures CanGo(w, InCallback(cx, CheckPlatform(at)), WithStatus(CodeSpent(w, cx.code), id, ACTIVE),
                  InCallback(cx, StoreToken(at, resp, user, id)))
  {
    hide CanGo, May;
    var spent := CodeSpent(w, cx.code);
    var active := WithStatus(spent, id, ACTIVE);
    var pc1, pc2 := InCallback(cx, CheckPlatform(at)), InCallback(cx, Existing(at, resp, user));
    var pc3, pc4 := InCallback(cx, Activate(at, resp, user, id)), InCallback(cx, StoreToken(at, resp, user, id));
    ExchangeGoes(w, cx, at, resp, user);
    ActivateMay(spent, cx, at, resp, user, id);
    GoesBy(spent, pc2, FoundIntegration(id, spent.tables.integrations[id]), spent, pc3);
    GoesBy(spent, pc3, FoundIntegration(id, active.tables.integrations[id]), active, pc4);
    GoesOn(w, pc1, spent, pc2, spent, pc3);
    GoesOn(w, pc1, spent, pc3, active, pc4);
  }

  function Result(w: World, at: Pair, resp: TokenResponse, user: string, id: Id): CallbackResult {
    CallbackResult(id, at.clientId, at.platformId, resp, w.clock + resp.expiresIn, user, false, None)
  }

  function Registering(w: World, cx: CallbackCtx, at: Pair, resp: TokenResponse, user: string, id: Id): RegisterCtx {
    RegisterCtx(cx.settings, id, resp.locationId, resp.accessToken, cx.apiKey, Some(Result(w, at, resp, user, id)))
  }

  lemma TokenMay(w: World, cx: CallbackCtx, at: Pair, resp: TokenResponse, user: string, id: Id)
    requires id in w.tables.integrations && id !in w.tables.tokens && resp.locationId != "" && resp.accessToken != ""
    ensures May(w, InCallback(cx, StoreToken(at, resp, user, id)), FoundToken(TokenRow(w.tables.nextId, resp, w.clock + resp.expiresIn)),
                WithToken(w, id, resp), InRegister(Registering(w, cx, at, resp, user, id), ReadIntegration))
  {
    var token := TokenRow(w.tables.nextId, resp, w.clock + resp.expiresIn);
    assert TokenWrite(w, CreateToken(id, resp), FoundToken(token), WithToken(w, id, resp));
  }

  lemma TokenGoesIn(w: World, cx: CallbackCtx, at: Pair, resp: TokenResponse, user: string, id: Id)
    requires id in w.tables.integrations && id !in w.tables.tokens && resp.locationId != "" && resp.accessToken != ""
    ensures CanGo(w, InCallback(cx, StoreToken(at, resp, user, id)), WithToken(w, id, resp),
                  InRegister(Registering(w, cx, at, resp, user, id), ReadIntegration))
  {
    hide CanGo, May, Registering, WithToken;
    TokenMay(w, cx, at, resp, user, id);
    GoesBy(w, InCallback(cx, StoreToken(at, resp, user, id)), FoundToken(TokenRow(w.tables.nextId, resp, w.clock + resp.expiresIn)),
           WithToken(w, id, resp), InRegister(Registering(w, cx, at, resp, user, id), ReadIntegration));
  }

  /** Where the integration has a token already, whatever the database says the callback fails and changes no table. */
  lemma SecondTokenIsRefused(w: World, cx: CallbackCtx, at: Pair, resp: TokenResponse, user: string, id: Id, r: Reply, w': World)
    requires id in w.tables.tokens && Answers(w, CreateToken(id, resp), r, w')
    ensures w'.tables == w.tables && Resume(InCallback(cx, StoreToken(at, resp, user, id)), r).Done?
    ensures Resume(InCallback(cx, StoreToken(at, resp, user, id)), r).outcome.Failed?
  {
  }

  lemma RefusalGoes(w: World, cx: CallbackCtx, at: Pair, resp: TokenResponse, user: string, id: Id)
    requires id in w.tables.integrations && id in w.tables.tokens
    ensures var h := w.history;
            CanGo(w, InCallback(cx, StoreToken(at, resp, user, id)), w.(history := h.(tokenFailed := h.tokenFailed + {id})), Fail(RecordExists))
  {
    var w' := w.(history := w.history.(tokenFailed := w.history.tokenFailed + {id}));
    assert TokenWrite(w, CreateToken(id, resp), Err(Duplicate), w');
    GoesBy(w, InCallback(cx, StoreToken(at, resp, user, id)), Err(Duplicate), w', Fail(RecordExists));
  }

  // ---- Registration ----

  lemma RegisterChecksMay(w: World, rx: RegisterCtx)
    requires rx.id in w.tables.integrations
    ensures var row := w.tables.integrations[rx.id];
            && May(w, InRegister(rx, ReadIntegration), FoundIntegration(rx.id, row), w, InRegister(rx, ReadPlatform(row.platformId)))
            && May(w, InRegister(rx, ReadPlatform(row.platformId)), FoundPlatform(true, "highlevel"), w, InRegister(rx, Associate))
  {
  }

  /** An association that exists is refused with 400, and that is taken for success. */
  lemma AssociateMay(w: World, rx: RegisterCtx)
    ensures if rx.loc in w.upstream.associations
            then May(w, InRegister(rx, Associate), Refused(BadRequest), w, InRegister(rx, Connect))
            else May(w, InRegister(rx, Associate), Ack, Associated(w, rx.loc), InRegister(rx, Connect))
  {
  }

  lemma ConnectMay(w: World, rx: RegisterCtx)
    requires rx.apiKey.Some?
    ensures var own := OwnConfig(rx.settings, rx.loc);
            if rx.loc in w.upstream.configs
            then && May(w, InRegister(rx, Connect), Refused(Unprocessable), w, InRegister(rx, Fetch))
                 && May(w, InRegister(rx, Fetch), Fetched(w.upstream.configs[rx.loc]), w,
                        InRegister(rx, Insert(w.upstream.configs[rx.loc], rx.apiKey.value)))
            else May(w, InRegister(rx, Connect), Ack, Configured(w, own), InRegister(rx, Insert(own, rx.apiKey.value)))
  {
  }

  lemma InsertMay(w: World, rx: RegisterCtx, config: ProviderConfig, key: string)
    requires rx.id in w.tables.integrations && rx.id !in w.tables.configs
    ensures May(w, InRegister(rx, Insert(config, key)), FoundConfig(rx.id, ConfigRow(config, key)),
                WithConfig(w, rx.id, config, key), EndRegister(rx, None))
  {
  }

  lemma ClashMay(w: World, rx: RegisterCtx, config: ProviderConfig, key: string)
    requires rx.id in w.tables.configs
    ensures May(w, InRegister(rx, Insert(config, key)), Err(Duplicate), w, InRegister(rx, Overwrite(config, key)))
  {
  }

  lemma OverwriteMay(w: World, rx: RegisterCtx, config: ProviderConfig, key: string)
    requires rx.id in w.tables.configs
    ensures May(w, InRegister(rx, Overwrite(config, key)), FoundConfig(rx.id, ConfigRow(config, key)),
                WithConfig(w, rx.id, config, key), EndRegister(rx, None))
  {
  }

  /** What a registration makes of HighLevel, and the configuration it ends up with. */
  function Settled(w: World, rx: RegisterCtx): (ProviderConfig, World) {
    var known := if rx.loc in w.upstream.associations then w else Associated(w, rx.loc);
    if rx.loc in w.upstream.configs then (w.upstream.configs[rx.loc], known)
    else (OwnConfig(rx.settings, rx.loc), Configured(known, OwnConfig(rx.settings, rx.loc)))
  }

  lemma AssociationGoes(w: World, rx: RegisterCtx)
    requires rx.id in w.tables.integrations
    ensures CanGo(w, InRegister(rx, ReadIntegration), if rx.loc in w.upstream.associations then w else Associated(w, rx.loc),
                  InRegister(rx, Connect))
  {
    hide CanGo, May;
    var row := w.tables.integrations[rx.id];
    var pc1, pc2, pc3, pc4 :=
      InRegister(rx, ReadIntegration), InRegister(rx, ReadPlatform(row.platformId)), InRegister(rx, Associate), InRegister(rx, Connect);
    var known := rx.loc in w.upstream.associations;
    var w' := if known then w else Associated(w, rx.loc);
    RegisterChecksMay(w, rx);
    AssociateMay(w, rx);
    GoesBy(w, pc1, FoundIntegration(rx.id, row), w, pc2);
    GoesBy(w, pc2, FoundPlatform(true, "highlevel"), w, pc3);
    GoesBy(w, pc3, if known then Refused(BadRequest) else Ack, w', pc4);
    GoesOn(w, pc1, w, pc2, w, pc3);
    GoesOn(w, pc1, w, pc3, w', pc4);
  }

  lemma ConnectionGoes(w: World, rx: RegisterCtx)
    requires rx.apiKey.Some?
    ensures var own, known := OwnConfig(rx.settings, rx.loc), w.upstream.configs;
            if rx.loc in known then CanGo(w, InRegister(rx, Connect), w, InRegister(rx, Insert(known[rx.loc], rx.apiKey.value)))
            else CanGo(w, InRegister(rx, Connect), Configured(w, own), InRegister(rx, Insert(own, rx.apiKey.value)))
  {
    hide CanGo, May;
    ConnectMay(w, rx);
    if rx.loc in w.upstream.configs {
      var config := w.upstream.configs[rx.loc];
      var pc1, pc2, pc3 := InRegister(rx, Connect), InRegister(rx, Fetch), InRegister(rx, Insert(config, rx.apiKey.value));
      GoesBy(w, pc1, Refused(Unprocessable), w, pc2);
      GoesBy(w, pc2, Fetched(config), w, pc3);
      GoesOn(w, pc1, w, pc2, w, pc3);
    } else {
      var own := OwnConfig(rx.settings, rx.loc);
      GoesBy(w, InRegister(rx, Connect), Ack, Configured(w, own), InRegister(rx, Insert(own, rx.apiKey.value)));
    }
  }

  lemma StorageGoes(w: World, rx: RegisterCtx, config: ProviderConfig, key: string)
    requires rx.id in w.tables.integrations
    ensures CanGo(w, InRegister(rx, Insert(config, key)), WithConfig(w, rx.id, config, key), EndRegister(rx, None))
  {
    hide CanGo, May;
    var pc1, pc2, end := InRegister(rx, Insert(config, key)), InRegister(rx, Overwrite(config, key)), EndRegister(rx, None);
    var done, w' := FoundConfig(rx.id, ConfigRow(config, key)), WithConfig(w, rx.id, config, key);
    if rx.id in w.tables.configs {
      ClashMay(w, rx, config, key);
      OverwriteMay(w, rx, config, key);
      GoesBy(w, pc1, Err(Duplicate), w, pc2);
      GoesBy(w, pc2, done, w', end);
      GoesOn(w, pc1, w, pc2, w', end);
    } else {
      InsertMay(w, rx, config, key);
      GoesBy(w, pc1, done, w', end);
    }
  }

  function Registered(w: World, rx: RegisterCtx): World
    requires rx.apiKey.Some?
  {
    var (config, w') := Settled(w, rx);
    WithConfig(w', rx.id, config, rx.apiKey.value)
  }

  /** Whatever earlier attempts left behind - an association, an upstream configuration, a local row, or any part of
      these - a registration can get through, on an upstream that refuses what exists, and leaves its row. */
  lemma RegistrationGoes(w: World, rx: RegisterCtx)
    requires rx.id in w.tables.integrations && rx.apiKey.Some?
    ensures CanGo(w, InRegister(rx, ReadIntegration), Registered(w, rx), EndRegister(rx, None))
  {
    hide CanGo;
    var (config, w') := Settled(w, rx);
    var known := if rx.loc in w.upstream.associations then w else Associated(w, rx.loc);
    var pc1, pc2, pc3 := InRegister(rx, ReadIntegration), InRegister(rx, Connect), InRegister(rx, Insert(config, rx.apiKey.value));
    AssociationGoes(w, rx);
    ConnectionGoes(known, rx);
    StorageGoes(w', rx, config, rx.apiKey.value);
    GoesOn(w, pc1, known, pc2, w', pc3);
    GoesOn(w, pc1, w', pc3, Registered(w, rx), EndRegister(rx, None));
  }
}
