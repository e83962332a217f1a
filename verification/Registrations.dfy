/** Provider configurations: INSTALL events and registrations meeting over one row, its API key, and its upstream twin. */
module Registrations {
  import opened Schema
  import opened Calls
  import opened Program
  import opened Machine

  /** What HighLevel holds for a location once a registration got through: what was there before, or ours. */
  function Canon(base: map<string, ProviderConfig>, settings: Settings, loc: string): ProviderConfig {
    if loc in base then base[loc] else OwnConfig(settings, loc)
  }

  // ---- Invariants ----

  ghost predicate UpstreamInv(base: map<string, ProviderConfig>, settings: Settings, w: World) {
    && (forall l :: l in base ==> base[l].locationId == l && l in w.upstream.configs)
    && (forall l :: l in w.upstream.configs ==> w.upstream.configs[l] == Canon(base, settings, l))
  }

  /** A row carries the last key registered for it, or none; a registered row is HighLevel's, any other is ours. */
  ghost predicate RowInv(settings: Settings, w: World) {
    var t, h := w.tables, w.history;
    && (forall i :: i in t.configs ==>
          var row := t.configs[i];
          if i in h.lastKey
          then row.apiKey == h.lastKey[i] && row.config.locationId in w.upstream.configs
               && row.config == w.upstream.configs[row.config.locationId]
          else row.apiKey == "" && row.config == OwnConfig(settings, row.config.locationId))
    && (forall i :: i in h.lastKey ==>
          && h.lastKey[i] != "" && h.lastKey[i] in h.written && h.written[h.lastKey[i]] == i
          && i < t.nextId && (i in t.integrations ==> i in t.configs))
  }

  /** No two requests draw the same key, and a request in flight has not stored its key yet. */
  ghost predicate KeyInv(s: State) {
    && (forall k :: k in s.world.history.written ==> k in s.keys)
    && "" !in s.keys
    && (forall p :: p in s.procs ==>
          && (forall k :: k in Keys(s.procs[p].request) ==>
                k in s.keys && k != "" && (!s.procs[p].pc.Done? ==> k !in s.world.history.written)))
    && (forall p, q :: p in s.procs && q in s.procs && p != q ==> Keys(s.procs[p].request) !! Keys(s.procs[q].request))
  }

  predicate Persisting(pc: Pc) { pc.InRegister? && (pc.rg.Insert? || pc.rg.Overwrite?) }

  /** A request carries the deployment's settings and its own key, and HighLevel's configuration once it has it. */
  ghost predicate CarriesOk(settings: Settings, w: World, p: Proc) {
    && (p.pc.InCallback? ==> p.pc.cx.settings == settings && p.pc.cx.apiKey == DrawnKey(p.request))
    && (p.pc.InWebhook? ==> p.pc.wx.settings == settings)
    && (p.pc.InPayment? && p.pc.py.QueryKey? ==> !Blank(p.pc.py.query.apiKey))
    && (p.pc.InRegister? ==>
          && p.pc.rx.settings == settings && p.pc.rx.apiKey == DrawnKey(p.request)
          && (p.pc.rx.parent.Some? ==> p.pc.rx.parent.value.id == p.pc.rx.id))
    && PersistsOk(w, p.pc)
  }

  /** A registration about to write holds HighLevel's configuration and the key it drew. */
  predicate PersistsOk(w: World, pc: Pc) {
    Persisting(pc) ==>
      && pc.rx.apiKey == Some(pc.rg.key)
      && pc.rx.loc in w.upstream.configs && pc.rg.config == w.upstream.configs[pc.rx.loc]
  }

  /** What an INSTALL has resolved still means what it did, and finished requests left their row. */
  ghost predicate ResolvedOk(w: World, p: Proc) {
    var t, h := w.tables, w.history;
    && (p.pc.InWebhook? && p.pc.wh.InstallById? ==>
          p.pc.wh.id < t.nextId && (p.pc.wh.id in t.integrations ==> p.pc.wh.id in t.configs))
    && (p.pc.InWebhook? && (p.pc.wh.InstallFind? || p.pc.wh.InstallCreate?) ==>
          && p.pc.wh.id < t.nextId
          && (p.pc.wh.id in t.integrations ==>
                p.pc.wh.id in t.configs || t.integrations[p.pc.wh.id].externalAccountId == p.pc.wx.event.locationId))
    && (p.pc.InRegister? && p.pc.rg.Overwrite? ==>
          p.pc.rx.id < t.nextId && (p.pc.rx.id in t.integrations ==> p.pc.rx.id in t.configs))
    && (p.pc.Done? && p.pc.outcome.Installed? ==>
          p.pc.outcome.id < t.nextId && (p.pc.outcome.id in t.integrations ==> p.pc.outcome.id in t.configs))
    && (p.pc.Done? && p.pc.outcome.Registered? ==> p.pc.outcome.id in h.lastKey)
    && (p.pc.Done? && p.pc.outcome.CallbackDone? && p.pc.outcome.result.registered ==> p.pc.outcome.result.id in h.lastKey)
  }

  ghost predicate RegisterOk(settings: Settings, w: World, p: Proc) {
    CarriesOk(settings, w, p) && ResolvedOk(w, p)
  }

  ghost predicate RegisterInv(base: map<string, ProviderConfig>, s: State) {
    && UpstreamInv(base, s.settings, s.world)
    && RowInv(s.settings, s.world)
    && KeyInv(s)
    && (forall p :: p in s.procs ==> RegisterOk(s.settings, s.world, s.procs[p]))
  }

  // ---- The programs ----

  /** Who writes configurations, with what, and what then becomes of the request. */
  ghost predicate RegisterFlows(pc: Pc, call: Call, r: Reply, next: Pc) {
    && (call.UpdateConfig? ==>
          pc.InRegister? && pc.rg.Overwrite? && call.id == pc.rx.id && call.config == pc.rg.config && call.apiKey == pc.rg.key)
    && (call.CreateConfig? ==>
          || (pc.InRegister? && pc.rg.Insert? && call.id == pc.rx.id && call.config == pc.rg.config && call.apiKey == pc.rg.key)
          || (pc.InWebhook? && pc.wh == InstallCreate(call.id) && call.apiKey == ""
              && call.config == OwnConfig(pc.wx.settings, pc.wx.event.locationId)))
    && (call.CreateProviderConfig? ==>
          pc.InRegister? && pc.rg.Connect? && call.config == OwnConfig(pc.rx.settings, pc.rx.loc))
    && (Persisting(pc) ==> (call.CreateConfig? || call.UpdateConfig?) && (r.FoundConfig? ==> next.Done?))
    && (next.InCallback? ==> pc.InCallback? && next.cx == pc.cx)
    && (next.InWebhook? ==> pc.InWebhook? && next.wx == pc.wx)
    && !(next.InPayment? && next.py.QueryKey?)
    && (next.InRegister? ==>
          || (pc.InRegister? && next.rx == pc.rx)
          || (pc.InCallback? && next.rx.settings == pc.cx.settings && next.rx.apiKey == pc.cx.apiKey && next.rg.ReadIntegration?
              && next.rx.parent.Some? && next.rx.parent.value.id == next.rx.id))
    && (Persisting(next) ==>
          && pc.InRegister?
          && (|| (call == CreateProviderConfig(next.rg.config) && r.Ack? && next.rg.config == OwnConfig(pc.rx.settings, pc.rx.loc)
                  && next.rx.apiKey == Some(next.rg.key))
              || (call == FetchProviderConfig(pc.rx.loc) && r == Fetched(next.rg.config) && next.rx.apiKey == Some(next.rg.key))
              || (pc.rg.Insert? && next.rg.config == pc.rg.config && next.rg.key == pc.rg.key)))
    && (next.InRegister? && next.rg.Overwrite? ==>
          pc.InRegister? && next.rx.id == pc.rx.id && call.CreateConfig? && call.id == pc.rx.id && r == Err(Duplicate))
    && (next.InWebhook? && next.wh.InstallById? ==> pc.wh.InstallConfig? && r.FoundConfig? && r.id == next.wh.id && call.GetConfigByLocation?)
    && (next.InWebhook? && next.wh.InstallFind? ==>
          || (call == GetByExternalAccountID(pc.wx.event.locationId) && r.FoundIntegration? && r.id == next.wh.id)
          || (pc.wh.InstallById? && call == GetIntegration(pc.wh.id) && r.FoundIntegration? && r.id == next.wh.id))
    && (next.InWebhook? && next.wh.InstallCreate? ==> pc.wh == InstallFind(next.wh.id))
    && (next.Done? && next.outcome.Installed? ==>
          && pc.InWebhook?
          && (|| (pc.wh == InstallFind(next.outcome.id) && call == GetConfigByIntegration(next.outcome.id) && r.FoundConfig?)
              || (pc.wh == InstallCreate(next.outcome.id) && call.CreateConfig? && (r.FoundConfig? || r == Err(Duplicate)))))
    && (next.Done? && next.outcome.Registered? ==> Persisting(pc) && r.FoundConfig? && next.outcome.id == pc.rx.id)
    && (next.Done? && next.outcome.CallbackDone? && next.outcome.result.registered ==>
          Persisting(pc) && r.FoundConfig? && pc.rx.parent.Some? && next.outcome.result.id == pc.rx.parent.value.id)
  }

  lemma RegisterStep(rx: RegisterCtx, rg: RegisterPc, r: Reply)
    ensures RegisterFlows(InRegister(rx, rg), RegisterCall(rx, rg), r, RegisterResume(rx, rg, r))
  {
  }

  lemma CallbackStep(cx: CallbackCtx, cb: CallbackPc, r: Reply)
    ensures RegisterFlows(InCallback(cx, cb), CallbackCall(cx, cb), r, CallbackResume(cx, cb, r))
  {
  }

  lemma WebhookStep(wx: WebhookCtx, wh: WebhookPc, r: Reply)
    ensures RegisterFlows(InWebhook(wx, wh), WebhookCall(wx, wh), r, WebhookResume(wx, wh, r))
  {
  }

  lemma PaymentStep(py: PaymentPc, r: Reply)
    ensures RegisterFlows(InPayment(py), PaymentCall(py), r, PaymentResume(py, r))
  {
  }

  lemma AdminStep(ad: AdminPc, r: Reply)
    ensures RegisterFlows(InAdmin(ad), AdminCall(ad), r, AdminResume(ad, r))
  {
    hide AdminResume;
    AdminStaysAside(ad, r);
  }

  lemma AllRegisterFlows(pc: Pc, r: Reply)
    requires !pc.Done?
    ensures RegisterFlows(pc, NextCall(pc), r, Resume(pc, r))
  {
    match pc {
      case InCallback(cx, cb) => CallbackStep(cx, cb, r);
      case InRegister(rx, rg) => RegisterStep(rx, rg, r);
      case InWebhook(wx, wh) => WebhookStep(wx, wh, r);
      case InPayment(py) => PaymentStep(py, r);
      case InAdmin(ad) => AdminStep(ad, r);
    }
  }

  // ---- The calls ----

  ghost predicate CallRegisters(w: World, call: Call, r: Reply, w': World) {
    var t, t', h, h', u, u' := w.tables, w'.tables, w.history, w'.history, w.upstream, w'.upstream;
    // configuration rows
    && (call.CreateConfig? || call.UpdateConfig? ==>
          if r.FoundConfig?
          then && call.id in t.integrations && (call.CreateConfig? <==> call.id !in t.configs)
               && w' == w.(tables := t.(configs := t.configs[call.id := ConfigRow(call.config, call.apiKey)]),
                           history := LogKey(h, call.id, call.apiKey))
          else w' == w)
    && (call.CreateConfig? && r == Err(Duplicate) ==> call.id in t.configs)
    && (!call.CreateConfig? && !call.UpdateConfig? ==>
          && h'.written == h.written && h'.lastKey == h.lastKey
          && (forall i :: i in t'.configs ==> i in t.configs && t'.configs[i] == t.configs[i])
          && (forall i :: i in t.configs && i in t'.integrations ==> i in t'.configs))
    // HighLevel's configurations
    && (u'.configs == u.configs
        || (call.CreateProviderConfig? && call.config.locationId !in u.configs
            && u'.configs == u.configs[call.config.locationId := call.config]))
    && (call.CreateProviderConfig? && r.Ack? ==> call.config.locationId !in u.configs && call.config.locationId in u'.configs)
    && (call.FetchProviderConfig? && r.Fetched? ==>
          w' == w && call.locationId in u.configs && r.providerConfig == u.configs[call.locationId])
    // lookups
    && (call.GetConfigByIntegration? && r.FoundConfig? ==> w' == w && call.id in t.configs)
    && (call.GetConfigByLocation? && r.FoundConfig? ==> w' == w && r.id in t.configs)
    && (call.GetIntegration? && r.FoundIntegration? ==> w' == w && r.id == call.id && r.id in t.integrations)
    && (call.GetByExternalAccountID? && r.FoundIntegration? ==>
          w' == w && r.id in t.integrations && t.integrations[r.id].externalAccountId == call.externalAccountId)
  }

  lemma ReadsRegister(w: World, call: Call, r: Reply)
    requires IsRead(call) && AnswersRead(w, call, r)
    ensures CallRegisters(w, call, r, w)
  {
  }

  lemma ConfigsRegister(w: World, call: Call, r: Reply, w': World)
    requires SchemaInv(w.tables) && IsConfigWrite(call) && ((Fault(r) && w' == AfterFault(w, call)) || ConfigWrite(w, call, r, w'))
    ensures CallRegisters(w, call, r, w')
  {
  }

  lemma OutsideRegisters(w: World, call: Call, r: Reply, w': World)
    requires IsOutsideWrite(call) && OutsideWrite(w, call, r, w')
    ensures CallRegisters(w, call, r, w')
  {
  }

  lemma IntegrationsRegister(w: World, call: Call, r: Reply, w': World)
    requires SchemaInv(w.tables) && IsIntegrationWrite(call) && (w' == AfterFault(w, call) || IntegrationWrite(w, call, r, w'))
    ensures CallRegisters(w, call, r, w')
  {
  }

  lemma FramesRegister(w: World, call: Call, r: Reply, w': World)
    requires Frames(w, call, w') && !IsRead(call) && !IsConfigWrite(call) && !IsOutsideWrite(call) && !IsIntegrationWrite(call)
    ensures CallRegisters(w, call, r, w')
  {
  }

  lemma AnswersRegister(w: World, call: Call, r: Reply, w': World)
    requires SchemaInv(w.tables) && Answers(w, call, r, w')
    ensures CallRegisters(w, call, r, w')
  {
    if IsRead(call) {
      ReadsRegister(w, call, r);
    } else if IsConfigWrite(call) {
      ConfigsRegister(w, call, r, w');
    } else if IsOutsideWrite(call) {
      OutsideRegisters(w, call, r, w');
    } else if IsIntegrationWrite(call) {
      IntegrationsRegister(w, call, r, w');
    } else {
      CallFrames(w, call, r, w');
      FramesRegister(w, call, r, w');
    }
  }

  // ---- One step ----

  /** What the tables may do to rows and ids, and what nobody takes away. */
  ghost predicate IdsPersist(w: World, w': World) {
    var t, t' := w.tables, w'.tables;
    && t.nextId <= t'.nextId
    && (forall i :: i in t'.integrations && i < t.nextId ==>
          i in t.integrations && t'.integrations[i] == t.integrations[i].(status := t'.integrations[i].status))
    && (forall i :: i in t.configs && i in t'.integrations ==> i in t'.configs)
    && (forall l :: l in w.upstream.configs ==> l in w'.upstream.configs && w'.upstream.configs[l] == w.upstream.configs[l])
    && w.history.lastKey.Keys <= w'.history.lastKey.Keys
  }

  lemma StaysRegistered(settings: Settings, w: World, w': World, p: Proc)
    requires RegisterOk(settings, w, p) && IdsPersist(w, w')
    ensures RegisterOk(settings, w', p)
  {
  }

  lemma UpstreamStays(base: map<string, ProviderConfig>, settings: Settings, w: World, pc: Pc, call: Call, r: Reply, w': World, next: Pc)
    requires UpstreamInv(base, settings, w)
    requires RegisterFlows(pc, call, r, next) && CallRegisters(w, call, r, w')
    requires pc.InRegister? ==> pc.rx.settings == settings
    ensures UpstreamInv(base, settings, w')
  {
  }

  /** A registration stores a key nobody stored before, over HighLevel's configuration. */
  lemma RegistrationWrites(settings: Settings, w: World, id: Id, config: ProviderConfig, key: string, w': World)
    requires RowInv(settings, w) && id in w.tables.integrations && id < w.tables.nextId
    requires key != "" && key !in w.history.written
    requires config.locationId in w.upstream.configs && config == w.upstream.configs[config.locationId]
    requires w' == w.(tables := w.tables.(configs := w.tables.configs[id := ConfigRow(config, key)]),
                      history := LogKey(w.history, id, key))
    ensures RowInv(settings, w')
  {
  }

  /** An INSTALL inserts its row only where there was none, hence where no registration ever wrote. */
  lemma InstallWrites(settings: Settings, w: World, id: Id, loc: string, w': World)
    requires RowInv(settings, w) && id in w.tables.integrations && id !in w.tables.configs
    requires w' == w.(tables := w.tables.(configs := w.tables.configs[id := ConfigRow(OwnConfig(settings, loc), "")]))
    ensures RowInv(settings, w')
  {
  }

  lemma RowsLinger(settings: Settings, w: World, w': World)
    requires RowInv(settings, w) && SchemaInv(w'.tables) && IdsPersist(w, w')
    requires w'.history.written == w.history.written && w'.history.lastKey == w.history.lastKey
    requires forall i :: i in w'.tables.configs ==> i in w.tables.configs && w'.tables.configs[i] == w.tables.configs[i]
    ensures RowInv(settings, w')
  {
  }

  lemma RowsStay(settings: Settings, w: World, p: Proc, call: Call, r: Reply, w': World, next: Pc)
    requires SchemaInv(w.tables) && SchemaInv(w'.tables) && RowInv(settings, w) && RegisterOk(settings, w, p)
    requires RegisterFlows(p.pc, call, r, next) && CallRegisters(w, call, r, w') && IdsPersist(w, w')
    requires Persisting(p.pc) ==> p.pc.rg.key != "" && p.pc.rg.key !in w.history.written
    requires forall l :: l in w.upstream.configs ==> w.upstream.configs[l].locationId == l
    ensures RowInv(settings, w')
  {
    if !call.CreateConfig? && !call.UpdateConfig? {
      RowsLinger(settings, w, w');
    } else if r.FoundConfig? {
      if p.pc.InRegister? {
        RegistrationWrites(settings, w, call.id, call.config, call.apiKey, w');
      } else {
        InstallWrites(settings, w, call.id, p.pc.wx.event.locationId, w');
      }
    }
  }

  lemma ActorCarries(settings: Settings, w: World, p: Proc, call: Call, r: Reply, w': World, q: Proc)
    requires CarriesOk(settings, w, p) && RegisterFlows(p.pc, call, r, q.pc) && CallRegisters(w, call, r, w')
    requires forall l :: l in w.upstream.configs ==> l in w'.upstream.configs && w'.upstream.configs[l] == w.upstream.configs[l]
    requires q.request == p.request && !p.pc.Done?
    ensures CarriesOk(settings, w', q)
  {
    hide CallRegisters, PersistsOk;
    ActorPersists(settings, w, p.pc, call, r, w', q.pc);
  }

  lemma ActorPersists(settings: Settings, w: World, pc: Pc, call: Call, r: Reply, w': World, next: Pc)
    requires PersistsOk(w, pc) && RegisterFlows(pc, call, r, next) && CallRegisters(w, call, r, w')
    requires forall l :: l in w.upstream.configs ==> l in w'.upstream.configs && w'.upstream.configs[l] == w.upstream.configs[l]
    ensures PersistsOk(w', next)
  {
  }

  lemma ActorResolves(w: World, p: Proc, call: Call, r: Reply, w': World, q: Proc)
    requires SchemaInv(w.tables) && ResolvedOk(w, p) && !p.pc.Done?
    requires RegisterFlows(p.pc, call, r, q.pc) && CallRegisters(w, call, r, w') && IdsPersist(w, w')
    requires p.pc.InRegister? && p.pc.rx.parent.Some? ==> p.pc.rx.parent.value.id == p.pc.rx.id
    requires Persisting(p.pc) ==> p.pc.rg.key != ""
    ensures ResolvedOk(w', q)
  {
  }

  lemma ActorRegisters(settings: Settings, w: World, p: Proc, call: Call, r: Reply, w': World, q: Proc)
    requires SchemaInv(w.tables) && RegisterOk(settings, w, p)
    requires RegisterFlows(p.pc, call, r, q.pc) && CallRegisters(w, call, r, w') && IdsPersist(w, w')
    requires q.request == p.request && !p.pc.Done?
    requires Persisting(p.pc) ==> p.pc.rg.key != ""
    ensures RegisterOk(settings, w', q)
  {
    ActorCarries(settings, w, p, call, r, w', q);
    ActorResolves(w, p, call, r, w', q);
  }

  lemma KeysStay(s: State, pid: nat, stored: set<string>, s': State)
    requires KeyInv(s) && pid in s.procs && pid in s'.procs && !s.procs[pid].pc.Done?
    requires s'.procs == s.procs[pid := s'.procs[pid]] && s'.procs[pid].request == s.procs[pid].request && s'.keys == s.keys
    requires s'.world.history.written.Keys == s.world.history.written.Keys + stored
    requires stored == {} || (stored == Keys(s.procs[pid].request) && s'.procs[pid].pc.Done?)
    ensures KeyInv(s')
  {
  }

  /** One call of one request, given what its program and the call do to configurations. */
  ghost predicate Registers(s: State, pid: nat, call: Call, r: Reply, s': State) {
    && pid in s.procs && pid in s'.procs && !s.procs[pid].pc.Done?
    && s'.settings == s.settings && s'.keys == s.keys
    && var p, q := s.procs[pid], s'.procs[pid];
    && RegisterFlows(p.pc, call, r, q.pc)
    && q.request == p.request
    && s'.procs == s.procs[pid := q]
    && CallRegisters(s.world, call, r, s'.world)
    && IdsPersist(s.world, s'.world)
  }

  lemma KeyInHand(s: State, pid: nat)
    requires KeyInv(s) && pid in s.procs && RegisterOk(s.settings, s.world, s.procs[pid])
    requires Persisting(s.procs[pid].pc)
    ensures var key := s.procs[pid].pc.rg.key;
            key in Keys(s.procs[pid].request) && key != "" && key !in s.world.history.written
  {
    assert DrawnKey(s.procs[pid].request) == Some(s.procs[pid].pc.rg.key);
  }

  lemma ActKeepsRows(base: map<string, ProviderConfig>, s: State, pid: nat, call: Call, r: Reply, s': State)
    requires SchemaInv(s.world.tables) && SchemaInv(s'.world.tables) && RegisterInv(base, s) && Registers(s, pid, call, r, s')
    ensures UpstreamInv(base, s.settings, s'.world) && RowInv(s.settings, s'.world)
  {
    var p, next := s.procs[pid], s'.procs[pid].pc;
    if Persisting(p.pc) { KeyInHand(s, pid); }
    UpstreamStays(base, s.settings, s.world, p.pc, call, r, s'.world, next);
    RowsStay(s.settings, s.world, p, call, r, s'.world, next);
  }

  lemma ActKeepsProcs(base: map<string, ProviderConfig>, s: State, pid: nat, call: Call, r: Reply, s': State)
    requires SchemaInv(s.world.tables) && RegisterInv(base, s) && Registers(s, pid, call, r, s')
    ensures forall p :: p in s'.procs ==> RegisterOk(s.settings, s'.world, s'.procs[p])
  {
    hide RegisterOk, KeyInv, RowInv, UpstreamInv, RegisterFlows, CallRegisters, IdsPersist, SchemaInv;
    forall p | p in s.procs ensures RegisterOk(s.settings, s'.world, s.procs[p]) {
      StaysRegistered(s.settings, s.world, s'.world, s.procs[p]);
    }
    if Persisting(s.procs[pid].pc) { KeyInHand(s, pid); }
    ActorRegisters(s.settings, s.world, s.procs[pid], call, r, s'.world, s'.procs[pid]);
  }

  lemma ActKeepsKeys(base: map<string, ProviderConfig>, s: State, pid: nat, call: Call, r: Reply, s': State)
    requires RegisterInv(base, s) && Registers(s, pid, call, r, s')
    ensures KeyInv(s')
  {
    var p := s.procs[pid];
    if (call.CreateConfig? || call.UpdateConfig?) && r.FoundConfig? && call.apiKey != "" {
      KeyInHand(s, pid);
      assert Keys(p.request) == {call.apiKey};
      KeysStay(s, pid, {call.apiKey}, s');
    } else {
      KeysStay(s, pid, {}, s');
    }
  }

  lemma ActRegisters(s: State, pid: nat, r: Reply, s': State)
    requires SchemaInv(s.world.tables) && Step(s, Act(pid, r), s')
    ensures Registers(s, pid, NextCall(s.procs[pid].pc), r, s')
  {
    hide Answers, NextCall, Resume, RegisterFlows, CallRegisters;
    var call := NextCall(s.procs[pid].pc);
    AllRegisterFlows(s.procs[pid].pc, r);
    AnswersRegister(s.world, call, r, s'.world);
    CallTablesEvolve(s.world, call, r, s'.world);
    CallOutsideEvolves(s.world, call, r, s'.world);
  }

  lemma ActKeepsRegister(base: map<string, ProviderConfig>, s: State, pid: nat, r: Reply, s': State)
    requires SchemaInv(s.world.tables) && RegisterInv(base, s) && Step(s, Act(pid, r), s')
    ensures RegisterInv(base, s')
  {
    hide Answers, NextCall, Resume, Registers, RegisterOk, RowInv, KeyInv, UpstreamInv;
    var call := NextCall(s.procs[pid].pc);
    ActRegisters(s, pid, r, s');
    CallTablesEvolve(s.world, call, r, s'.world);
    ActKeepsRows(base, s, pid, call, r, s');
    ActKeepsProcs(base, s, pid, call, r, s');
    ActKeepsKeys(base, s, pid, call, r, s');
  }

  lemma ArrivalRegisters(base: map<string, ProviderConfig>, s: State, pid: nat, req: Request)
    requires RegisterInv(base, s) && pid !in s.procs && forall k :: k in Keys(req) ==> !Blank(k) && k !in s.keys
    ensures RegisterInv(base, s.(procs := s.procs[pid := Arrived(s.settings, req)], keys := s.keys + Keys(req)))
  {
    ArrivedIsOk(s.settings, s.world, req);
    assert Blank("");
  }

  lemma ArrivedIsOk(settings: Settings, w: World, req: Request)
    ensures RegisterOk(settings, w, Arrived(settings, req))
  {
  }

  lemma TickRegisters(base: map<string, ProviderConfig>, s: State, now: int)
    requires RegisterInv(base, s)
    ensures RegisterInv(base, s.(world := s.world.(clock := now)))
  {
    var w' := s.world.(clock := now);
    assert IdsPersist(s.world, w');
    forall p | p in s.procs ensures RegisterOk(s.settings, w', s.procs[p]) {
      StaysRegistered(s.settings, s.world, w', s.procs[p]);
    }
  }

  lemma StepKeepsRegister(base: map<string, ProviderConfig>, s: State, l: Label, s': State)
    requires SchemaInv(s.world.tables) && RegisterInv(base, s) && Step(s, l, s')
    ensures RegisterInv(base, s')
  {
    match l {
      case Arrive(pid, req) => ArrivalRegisters(base, s, pid, req);
      case Act(pid, r) => ActKeepsRegister(base, s, pid, r, s');
      case Tick(now) => TickRegisters(base, s, now);
    }
  }
}
