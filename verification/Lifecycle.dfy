/** The life of an integration: its statuses, the token behind an active one, and what a callback leaves behind. */
module Lifecycle {
  import opened Schema
  import opened Calls
  import opened Program
  import opened Machine

  // ---- The programs ----

  predicate Resyncing(pc: Pc) { pc.InAdmin? && pc.ad.SyncWrite? }

  /** Who writes statuses and tokens, and what was read before. */
  ghost predicate LifeFlows(pc: Pc, call: Call, r: Reply, next: Pc) {
    && (call.UpdateStatus? ==>
          || (pc.InCallback? && pc.cb.Activate? && pc.cb.id == call.id && call.status == ACTIVE)
          || (pc.InAdmin? && (pc.ad == UninstallRevoke(call.id) || pc.ad == DisconnectWrite(call.id)) && call.status == REVOKED)
          || (pc.InAdmin? && pc.ad == ReconnectWrite(call.id) && call.status == CREATED)
          || (pc.InAdmin? && pc.ad == SyncWrite(call.id) && call.status == ACTIVE))
    && (call.UpdateStatus? && call.status == ACTIVE && pc.InCallback? && r.FoundIntegration? ==> Storing(next) && next.cb.id == r.id)
    && (call.CreateIntegration? ==>
          || (pc.InCallback? && pc.cb.Create? && call.row.status == ACTIVE
              && (r.FoundIntegration? ==> Storing(next) && next.cb.id == r.id))
          || (pc.InAdmin? && pc.ad.InstallInsert? && call.row.status == CREATED))
    && (call.DeleteIntegration? ==> pc.InAdmin? && pc.ad == UninstallDelete(call.id))
    && (Storing(pc) ==> call.CreateToken? && call.id == pc.cb.id)
    && (call.CreateToken? ==> Storing(pc))
    && (Resyncing(next) ==> call == GetIntegration(next.ad.id) && r.FoundIntegration? && r.integration.status == ACTIVE)
  }

  lemma AllLifeFlows(pc: Pc, r: Reply)
    requires !pc.Done?
    ensures LifeFlows(pc, NextCall(pc), r, Resume(pc, r))
  {
    match pc {
      case InCallback(cx, cb) => CallbackLife(cx, cb, r);
      case InRegister(rx, rg) => RegisterLife(rx, rg, r);
      case InWebhook(wx, wh) => WebhookLife(wx, wh, r);
      case InPayment(py) => PaymentLife(py, r);
      case InAdmin(ad) => AdminLife(ad, r);
    }
  }

  lemma CallbackLife(cx: CallbackCtx, cb: CallbackPc, r: Reply)
    ensures LifeFlows(InCallback(cx, cb), CallbackCall(cx, cb), r, CallbackResume(cx, cb, r))
  {
  }

  lemma RegisterLife(rx: RegisterCtx, rg: RegisterPc, r: Reply)
    ensures LifeFlows(InRegister(rx, rg), RegisterCall(rx, rg), r, RegisterResume(rx, rg, r))
  {
  }

  lemma WebhookLife(wx: WebhookCtx, wh: WebhookPc, r: Reply)
    ensures LifeFlows(InWebhook(wx, wh), WebhookCall(wx, wh), r, WebhookResume(wx, wh, r))
  {
  }

  lemma PaymentLife(py: PaymentPc, r: Reply)
    ensures LifeFlows(InPayment(py), PaymentCall(py), r, PaymentResume(py, r))
  {
  }

  lemma AdminLife(ad: AdminPc, r: Reply)
    ensures LifeFlows(InAdmin(ad), AdminCall(ad), r, AdminResume(ad, r))
  {
    hide Supported, Translate, NotFoundAs;
  }

  // ---- The calls ----

  ghost predicate CallLives(w: World, call: Call, r: Reply, w': World) {
    var t, t', h, h' := w.tables, w'.tables, w.history, w'.history;
    && t.nextId <= t'.nextId
    && h.tokenFailed <= h'.tokenFailed
    && (if call.CreateIntegration? && r.FoundIntegration?
        then r.id == t.nextId && t' == t.(integrations := t.integrations[r.id := call.row], nextId := t.nextId + 1)
        else if call.UpdateStatus? && r.FoundIntegration?
        then && r.id == call.id && call.id in t.integrations
             && t' == t.(integrations := t.integrations[call.id := t.integrations[call.id].(status := call.status)])
        else if call.DeleteIntegration? && r.Ack? then t' == WithoutIntegration(t, call.id)
        else t'.integrations == t.integrations)
    && (call.GetIntegration? && r.FoundIntegration? ==>
          call.id in t.integrations && r == FoundIntegration(call.id, t.integrations[call.id]))
    && (call.GetByClientAndPlatform? && r.FoundIntegration? ==>
          && r.id in t.integrations && r.integration == t.integrations[r.id]
          && r.integration.clientId == call.clientId && r.integration.platformId == call.platformId)
    && (call.CreateToken? ==>
          if r.FoundToken?
          then call.id in t.integrations && call.id !in t.tokens && t'.tokens == t.tokens[call.id := r.token]
               && r.token == TokenRow(r.token.id, call.response, r.token.expiresAt)
          else t' == t && call.id in h'.tokenFailed)
    && (!call.CreateToken? ==> t'.tokens.Keys == t.tokens.Keys || (call.DeleteIntegration? && r.Ack?))
    && (!IsTokenWrite(call) && !call.DeleteIntegration? ==> t'.tokens == t.tokens)
    && (if (call.CreateConfig? || call.UpdateConfig?) && r.FoundConfig?
        then t'.configs == t.configs[call.id := ConfigRow(call.config, call.apiKey)]
        else t'.configs == t.configs || (call.DeleteIntegration? && r.Ack?))
  }

  lemma OthersLive(w: World, call: Call, r: Reply, w': World)
    requires IsWebhookWrite(call) || IsStateWrite(call) || IsOutsideWrite(call)
    requires Frames(w, call, w') && w.tables.nextId <= w'.tables.nextId
    ensures CallLives(w, call, r, w')
  {
  }

  lemma AnswersLive(w: World, call: Call, r: Reply, w': World)
    requires Answers(w, call, r, w')
    ensures CallLives(w, call, r, w')
  {
    hide CallLives, Frames, AnswersRead, IntegrationWrite, TokenWrite, ConfigWrite, WebhookWrite, StateWrite, OutsideWrite;
    if IsIntegrationWrite(call) {
      IntegrationsLive(w, call, r, w');
    } else if IsTokenWrite(call) {
      TokensLive(w, call, r, w');
    } else if IsConfigWrite(call) {
      ConfigsLive(w, call, r, w');
    } else if IsRead(call) {
      ReadsLive(w, call, r);
    } else {
      CallFrames(w, call, r, w');
      NextIdStays(w, call, r, w');
      OthersLive(w, call, r, w');
    }
  }

  lemma ReadsLive(w: World, call: Call, r: Reply)
    requires IsRead(call) && AnswersRead(w, call, r)
    ensures CallLives(w, call, r, w)
  {
  }

  lemma IntegrationsLive(w: World, call: Call, r: Reply, w': World)
    requires IsIntegrationWrite(call) && ((Fault(r) && w' == AfterFault(w, call)) || IntegrationWrite(w, call, r, w'))
    ensures CallLives(w, call, r, w')
  {
  }

  lemma TokensLive(w: World, call: Call, r: Reply, w': World)
    requires IsTokenWrite(call) && ((Fault(r) && w' == AfterFault(w, call)) || TokenWrite(w, call, r, w'))
    ensures CallLives(w, call, r, w')
  {
  }

  lemma ConfigsLive(w: World, call: Call, r: Reply, w': World)
    requires IsConfigWrite(call) && ((Fault(r) && w' == AfterFault(w, call)) || ConfigWrite(w, call, r, w'))
    ensures CallLives(w, call, r, w')
  {
  }

  lemma NextIdStays(w: World, call: Call, r: Reply, w': World)
    requires Answers(w, call, r, w') && (IsWebhookWrite(call) || IsStateWrite(call) || IsOutsideWrite(call))
    ensures w.tables.nextId <= w'.tables.nextId
  {
    hide AnswersRead, IntegrationWrite, TokenWrite, ConfigWrite;
  }

  // ---- Every interleaving: statuses and tokens ----

  /** A token was stored, or an insert of it failed, or the callback that activated it is about to store one. */
  ghost predicate Activated(s: State, i: Id) {
    || i in s.world.tables.tokens
    || i in s.world.history.tokenFailed
    || exists p :: p in s.procs && Storing(s.procs[p].pc) && s.procs[p].pc.cb.id == i
  }

  ghost predicate LifeInv(s: State) {
    var t := s.world.tables;
    && (forall i :: i in t.integrations ==>
          && i < t.nextId
          && t.integrations[i].status != OAUTH_PENDING
          && (t.integrations[i].status == ACTIVE ==> Activated(s, i)))
    && (forall p :: p in s.procs && Resyncing(s.procs[p].pc) ==>
          var i := s.procs[p].pc.ad.id;
          i < t.nextId && (i in t.integrations ==> Activated(s, i)))
  }

  /** What one call does to a request and the tables, as far as lives go. */
  ghost predicate Lives(s: State, pid: nat, call: Call, r: Reply, s': State) {
    && pid in s.procs && pid in s'.procs && s'.procs == s.procs[pid := s'.procs[pid]]
    && LifeFlows(s.procs[pid].pc, call, r, s'.procs[pid].pc)
    && CallLives(s.world, call, r, s'.world)
  }

  /** Once activated, an integration stays so until it is deleted. */
  lemma StaysActivated(s: State, pid: nat, call: Call, r: Reply, s': State, i: Id)
    requires Lives(s, pid, call, r, s') && Activated(s, i) && i in s'.world.tables.integrations
    ensures Activated(s', i)
  {
    if i !in s.world.tables.tokens && i !in s.world.history.tokenFailed {
      var p :| p in s.procs && Storing(s.procs[p].pc) && s.procs[p].pc.cb.id == i;
      assert p != pid ==> s'.procs[p] == s.procs[p];
    }
  }

  lemma BecomesActive(s: State, pid: nat, call: Call, r: Reply, s': State, i: Id)
    requires LifeInv(s) && Lives(s, pid, call, r, s') && i in s'.world.tables.integrations
    ensures i < s'.world.tables.nextId && s'.world.tables.integrations[i].status != OAUTH_PENDING
    ensures s'.world.tables.integrations[i].status == ACTIVE ==> Activated(s', i)
  {
    var t, t' := s.world.tables, s'.world.tables;
    if i in t.integrations && Activated(s, i) {
      StaysActivated(s, pid, call, r, s', i);
    }
  }

  lemma ResyncsActive(s: State, pid: nat, call: Call, r: Reply, s': State, p: nat)
    requires LifeInv(s) && Lives(s, pid, call, r, s') && p in s'.procs && Resyncing(s'.procs[p].pc)
    ensures var i, t' := s'.procs[p].pc.ad.id, s'.world.tables;
            i < t'.nextId && (i in t'.integrations ==> Activated(s', i))
  {
    var i := s'.procs[p].pc.ad.id;
    if i in s'.world.tables.integrations && Activated(s, i) {
      StaysActivated(s, pid, call, r, s', i);
    }
  }

  lemma StepKeepsLife(s: State, l: Label, s': State)
    requires LifeInv(s) && Step(s, l, s')
    ensures LifeInv(s')
  {
    match l {
      case Arrive(pid, req) => ArrivalKeepsLife(s, pid, Arrived(s.settings, req), s');
      case Act(pid, r) =>
        var call := NextCall(s.procs[pid].pc);
        AllLifeFlows(s.procs[pid].pc, r);
        AnswersLive(s.world, call, r, s'.world);
        ActKeepsLife(s, pid, call, r, s');
      case Tick(now) => TickKeepsLife(s, s');
    }
  }

  lemma ActKeepsLife(s: State, pid: nat, call: Call, r: Reply, s': State)
    requires LifeInv(s) && Lives(s, pid, call, r, s')
    ensures LifeInv(s')
  {
    forall i | i in s'.world.tables.integrations
      ensures i < s'.world.tables.nextId && s'.world.tables.integrations[i].status != OAUTH_PENDING
      ensures s'.world.tables.integrations[i].status == ACTIVE ==> Activated(s', i)
    {
      BecomesActive(s, pid, call, r, s', i);
    }
    forall p | p in s'.procs && Resyncing(s'.procs[p].pc)
      ensures var i, t' := s'.procs[p].pc.ad.id, s'.world.tables;
              i < t'.nextId && (i in t'.integrations ==> Activated(s', i))
    {
      ResyncsActive(s, pid, call, r, s', p);
    }
  }

  lemma ArrivalKeepsLife(s: State, pid: nat, p: Proc, s': State)
    requires LifeInv(s) && pid !in s.procs && s'.world == s.world && s'.procs == s.procs[pid := p] && !Resyncing(p.pc)
    ensures LifeInv(s')
  {
    forall i | Activated(s, i) ensures Activated(s', i) {
      if i !in s.world.tables.tokens && i !in s.world.history.tokenFailed {
        var q :| q in s.procs && Storing(s.procs[q].pc) && s.procs[q].pc.cb.id == i;
        assert q in s'.procs;
      }
    }
  }

  lemma TickKeepsLife(s: State, s': State)
    requires LifeInv(s) && s'.world.tables == s.world.tables && s'.world.history == s.world.history && s'.procs == s.procs
    ensures LifeInv(s')
  {
    forall i | Activated(s, i) ensures Activated(s', i) {
    }
  }

  lemma {:induction false} RunKeepsLife(r: Run)
    requires Valid(r)
    ensures LifeInv(Last(r))
  {
    if r.Then? {
      RunKeepsLife(r.before);
      StepKeepsLife(Last(r.before), r.step, r.after);
    }
  }

  /** OAUTH_PENDING is never reached; and an active integration has a token unless storing one failed, or the
      callback that activated it has not got round to it. */
  lemma {:induction false} ActiveHasToken(r: Run, i: Id)
    requires Valid(r) && i in Last(r).world.tables.integrations
    ensures var s, t := Last(r), Last(r).world.tables;
            && t.integrations[i].status != OAUTH_PENDING
            && (t.integrations[i].status == ACTIVE && i !in t.tokens && i !in s.world.history.tokenFailed ==>
                  exists p :: p in s.procs && Storing(s.procs[p].pc) && s.procs[p].pc.cb.id == i)
  {
    RunKeepsLife(r);
  }

  // ---- Every interleaving: who changes a status ----

  /** The status an UpdateStatus program counter writes, and the status, if any, its procedure insisted on. */
  datatype Decision = Decision(id: Id, from: Option<Status>, to: Status)

  function Decided(pc: Pc): Option<Decision> {
    match pc
    case InCallback(_, Activate(_, _, _, id)) => Some(Decision(id, Some(CREATED), ACTIVE))
    case InAdmin(SyncWrite(id)) => Some(Decision(id, Some(ACTIVE), ACTIVE))
    case InAdmin(ReconnectWrite(id)) => Some(Decision(id, Some(ACTIVE), CREATED))
    case InAdmin(UninstallRevoke(id)) => Some(Decision(id, Some(ACTIVE), REVOKED))
    case InAdmin(DisconnectWrite(id)) => Some(Decision(id, None, REVOKED))
    case _ => None
  }

  /** An existing integration changes only its status, and only as some request decided; a new one is CREATED if
      provisioned and ACTIVE if a callback made it. */
  ghost predicate ChangesByDecision(t: Tables, pc: Pc, call: Call, t': Tables, i: Id)
    requires i in t'.integrations
  {
    if i !in t.integrations then
      call.CreateIntegration? && t'.integrations[i].status == (if pc.InCallback? then ACTIVE else CREATED)
    else t'.integrations[i] != t.integrations[i] ==>
      && Decided(pc).Some? && Decided(pc).value.id == i
      && t'.integrations[i] == t.integrations[i].(status := Decided(pc).value.to)
  }

  /** A status is written only as decided, and an integration is created only as a callback or a provisioning does. */
  lemma WritesAreDecided(pc: Pc, call: Call, r: Reply, next: Pc)
    requires LifeFlows(pc, call, r, next)
    ensures call.UpdateStatus? ==> Decided(pc).Some? && Decided(pc).value.id == call.id && Decided(pc).value.to == call.status
    ensures call.CreateIntegration? ==> call.row.status == if pc.InCallback? then ACTIVE else CREATED
  {
  }

  lemma CallsChangeByDecision(w: World, pc: Pc, call: Call, r: Reply, w': World, next: Pc, i: Id)
    requires SchemaInv(w.tables) && LifeFlows(pc, call, r, next) && CallLives(w, call, r, w') && i in w'.tables.integrations
    ensures ChangesByDecision(w.tables, pc, call, w'.tables, i)
  {
    hide LifeFlows, Decided;
    WritesAreDecided(pc, call, r, next);
  }

  lemma StatusesChangeByDecision(s: State, pid: nat, r: Reply, s': State, i: Id)
    requires SchemaInv(s.world.tables) && Step(s, Act(pid, r), s') && i in s'.world.tables.integrations
    ensures ChangesByDecision(s.world.tables, s.procs[pid].pc, NextCall(s.procs[pid].pc), s'.world.tables, i)
  {
    var pc, call := s.procs[pid].pc, NextCall(s.procs[pid].pc);
    AllLifeFlows(pc, r);
    AnswersLive(s.world, call, r, s'.world);
    CallsChangeByDecision(s.world, pc, call, r, s'.world, Resume(pc, r), i);
  }

  // ---- Requests one at a time ----

  /** The request that acted last. */
  function Current(r: Run): Option<nat> {
    match r
    case From(_) => None
    case Then(_, Arrive(pid, _), _) => Some(pid)
    case Then(_, Act(pid, _), _) => Some(pid)
    case Then(b, Tick(_), _) => Current(b)
  }

  /** No request acts once another has arrived: each runs to its end, or to where it stops for good, undisturbed. */
  predicate Sequential(r: Run) {
    r.Then? ==> Sequential(r.before) && (r.step.Act? ==> Current(r.before) == Some(r.step.pid))
  }

  /** The tables when the last request arrived. */
  function Arrival(r: Run): Tables {
    match r
    case From(s) => s.world.tables
    case Then(b, l, s) => if l.Arrive? then s.world.tables else Arrival(b)
  }

  ghost predicate Has(t: Tables, id: Id, at: Pair, status: Status) {
    id in t.integrations && t.integrations[id].status == status && t.integrations[id].clientId == at.clientId
    && t.integrations[id].platformId == at.platformId
  }

  /** The callback's integration is active and has its first token, with the values HighLevel returned. */
  ghost predicate Connected(t0: Tables, t: Tables, res: CallbackResult) {
    && Has(t, res.id, Pair(res.clientId, res.platformId), ACTIVE)
    && res.id !in t0.tokens && res.id in t.tokens
    && FromResponse(t.tokens[res.id], res.response) && t.tokens[res.id].expiresAt == res.expiresAt
  }

  /** One configuration was written, for this integration and under this key. */
  ghost predicate ConfigWritten(t0: Tables, t: Tables, id: Id, key: Option<string>) {
    key.Some? && id in t.configs && t.configs[id].apiKey == key.value && t.configs == t0.configs[id := t.configs[id]]
  }

  predicate Connecting(req: Request) { req.Callback? || req.Register? }

  /** Where an undisturbed request stands, given the tables it found. */
  ghost predicate Undisturbed(t0: Tables, t: Tables, req: Request, pc: Pc) {
    && (Decided(pc).Some? ==>
          var d := Decided(pc).value;
          d.id in t.integrations && (d.from.Some? ==> t.integrations[d.id].status == d.from.value))
    && (pc.InCallback? || pc.InRegister? ==> Connecting(req) && t.configs == t0.configs)
    && (Connecting(req) ==> pc.InCallback? || pc.InRegister? || pc.Done?)
    && (pc.InCallback? ==>
          && req.Callback? && pc.cx.apiKey == DrawnKey(req) && t.tokens == t0.tokens
          && (pc.cb.Activate? ==> Has(t, pc.cb.id, pc.cb.at, CREATED))
          && (pc.cb.StoreToken? ==> Has(t, pc.cb.id, pc.cb.at, ACTIVE)))
    && (pc.InRegister? ==>
          && pc.rx.apiKey == DrawnKey(req)
          && (pc.rg.Insert? || pc.rg.Overwrite? ==> DrawnKey(req) == Some(pc.rg.key))
          && (pc.rx.parent.Some? <==> req.Callback?)
          && (req.Register? ==> pc.rx.id == req.id)
          && (pc.rx.parent.Some? ==> pc.rx.parent.value.id == pc.rx.id && Connected(t0, t, pc.rx.parent.value)))
    && (Connecting(req) && pc.Done? ==>
          match pc.outcome
          case Failed(_) => t.configs == t0.configs && (req.Callback? ==> t.tokens == t0.tokens)
          case CallbackDone(res) =>
            && req.Callback? && Connected(t0, t, res)
            && (if res.registered then ConfigWritten(t0, t, res.id, DrawnKey(req)) else t.configs == t0.configs)
          case Registered(id) => req.Register? && id == req.id && ConfigWritten(t0, t, id, DrawnKey(req))
          case _ => false)
  }

  lemma CallbackUndisturbed(t0: Tables, w: World, req: Request, cx: CallbackCtx, cb: CallbackPc, r: Reply, w': World)
    requires Undisturbed(t0, w.tables, req, InCallback(cx, cb)) && CallLives(w, CallbackCall(cx, cb), r, w')
    ensures Undisturbed(t0, w'.tables, req, CallbackResume(cx, cb, r))
  {
    if cb.Existing? || cb.Activate? || cb.Create? || cb.StoreToken? {
      ConnectingUndisturbed(t0, w, req, cx, cb, r, w');
    } else {
      ResolvingUndisturbed(t0, w, req, cx, cb, r, w');
    }
  }

  lemma ResolvingUndisturbed(t0: Tables, w: World, req: Request, cx: CallbackCtx, cb: CallbackPc, r: Reply, w': World)
    requires Undisturbed(t0, w.tables, req, InCallback(cx, cb)) && CallLives(w, CallbackCall(cx, cb), r, w')
    requires !cb.Existing? && !cb.Activate? && !cb.Create? && !cb.StoreToken?
    ensures Undisturbed(t0, w'.tables, req, CallbackResume(cx, cb, r))
  {
    hide Connected, ConfigWritten, Has, WithoutIntegration, OwnConfig, StartRegister;
  }

  lemma ConnectingUndisturbed(t0: Tables, w: World, req: Request, cx: CallbackCtx, cb: CallbackPc, r: Reply, w': World)
    requires Undisturbed(t0, w.tables, req, InCallback(cx, cb)) && CallLives(w, CallbackCall(cx, cb), r, w')
    requires cb.Existing? || cb.Activate? || cb.Create? || cb.StoreToken?
    ensures Undisturbed(t0, w'.tables, req, CallbackResume(cx, cb, r))
  {
    hide ConfigWritten, WithoutIntegration, OwnConfig;
  }

  lemma RegisterUndisturbed(t0: Tables, w: World, req: Request, rx: RegisterCtx, rg: RegisterPc, r: Reply, w': World)
    requires Undisturbed(t0, w.tables, req, InRegister(rx, rg)) && CallLives(w, RegisterCall(rx, rg), r, w')
    ensures Undisturbed(t0, w'.tables, req, RegisterResume(rx, rg, r))
  {
    if rg.Insert? || rg.Overwrite? {
      WritingUndisturbed(t0, w, req, rx, rg, r, w');
    } else {
      PreparingUndisturbed(t0, w, req, rx, rg, r, w');
    }
  }

  /** A registration that has not come to its write goes on, or ends with an error. */
  lemma PreparationLeadsOn(rx: RegisterCtx, rg: RegisterPc, r: Reply)
    requires !rg.Insert? && !rg.Overwrite?
    ensures var next := RegisterResume(rx, rg, r);
            || (next.InRegister? && next.rx == rx
                && (next.rg.Insert? || next.rg.Overwrite? ==> rx.apiKey == Some(next.rg.key)))
            || exists e :: next == EndRegister(rx, Some(e))
  {
    hide EndRegister;
  }

  /** Until the row is written a registration changes no table. */
  lemma PreparingUndisturbed(t0: Tables, w: World, req: Request, rx: RegisterCtx, rg: RegisterPc, r: Reply, w': World)
    requires Undisturbed(t0, w.tables, req, InRegister(rx, rg)) && CallLives(w, RegisterCall(rx, rg), r, w')
    requires !rg.Insert? && !rg.Overwrite?
    ensures Undisturbed(t0, w'.tables, req, RegisterResume(rx, rg, r))
  {
    hide ConfigWritten, WithoutIntegration, RegisterResume;
    PreparationLeadsOn(rx, rg, r);
  }

  lemma WritingUndisturbed(t0: Tables, w: World, req: Request, rx: RegisterCtx, rg: RegisterPc, r: Reply, w': World)
    requires Undisturbed(t0, w.tables, req, InRegister(rx, rg)) && CallLives(w, RegisterCall(rx, rg), r, w')
    requires rg.Insert? || rg.Overwrite?
    ensures Undisturbed(t0, w'.tables, req, RegisterResume(rx, rg, r))
  {
    hide WithoutIntegration, OwnConfig, Supported, Translate, NotFoundAs;
  }

  /** The reads on which an administrative procedure decides on a new status. */
  predicate Deciding(ad: AdminPc) { ad.UninstallRead? || ad.ReconnectRead? || ad.DisconnectRead? || ad.SyncRead? }

  lemma ReadingDecides(ad: AdminPc, r: Reply)
    requires Deciding(ad)
    ensures var next := AdminResume(ad, r);
            && (next.InAdmin? || next.Done?)
            && (Decided(next).Some? ==>
                  var d := Decided(next).value;
                  AdminCall(ad) == GetIntegration(d.id) && r.FoundIntegration? && (d.from.Some? ==> r.integration.status == d.from.value))
  {
    hide Supported, Translate, NotFoundAs;
  }

  lemma TheRestDecidesNothing(ad: AdminPc, r: Reply)
    requires !Deciding(ad)
    ensures var next := AdminResume(ad, r); (next.InAdmin? || next.Done?) && Decided(next).None?
  {
    hide Supported, Translate, NotFoundAs;
  }

  /** An administrative procedure decides on a new status right after reading the old one. */
  lemma AdminDecides(ad: AdminPc, r: Reply)
    ensures var next := AdminResume(ad, r);
            && (next.InAdmin? || next.Done?)
            && (Decided(next).Some? ==>
                  var d := Decided(next).value;
                  AdminCall(ad) == GetIntegration(d.id) && r.FoundIntegration? && (d.from.Some? ==> r.integration.status == d.from.value))
  {
    hide AdminResume, AdminCall;
    if Deciding(ad) { ReadingDecides(ad, r); } else { TheRestDecidesNothing(ad, r); }
  }

  lemma AdminUndisturbed(t0: Tables, w: World, req: Request, ad: AdminPc, r: Reply, w': World)
    requires Undisturbed(t0, w.tables, req, InAdmin(ad)) && CallLives(w, AdminCall(ad), r, w')
    ensures Undisturbed(t0, w'.tables, req, AdminResume(ad, r))
  {
    AdminDecides(ad, r);
    DecisionsAreFresh(t0, w, req, InAdmin(ad), AdminCall(ad), r, w', AdminResume(ad, r));
  }

  lemma DecisionsAreFresh(t0: Tables, w: World, req: Request, pc: Pc, call: Call, r: Reply, w': World, next: Pc)
    requires Undisturbed(t0, w.tables, req, pc) && CallLives(w, call, r, w')
    requires pc.InAdmin? && (next.InAdmin? || next.Done?)
    requires Decided(next).Some? ==>
               var d := Decided(next).value;
               call == GetIntegration(d.id) && r.FoundIntegration? && (d.from.Some? ==> r.integration.status == d.from.value)
    ensures Undisturbed(t0, w'.tables, req, next)
  {
  }

  lemma OtherUndisturbed(t0: Tables, w: World, req: Request, pc: Pc, r: Reply, w': World)
    requires Undisturbed(t0, w.tables, req, pc) && (pc.InWebhook? || pc.InPayment?)
    ensures Undisturbed(t0, w'.tables, req, Resume(pc, r))
  {
    match pc {
      case InWebhook(wx, wh) => assert var n := WebhookResume(wx, wh, r); n.InWebhook? || n.Done?;
      case InPayment(py) => assert var n := PaymentResume(py, r); n.InPayment? || n.Done?;
    }
  }

  lemma StepUndisturbed(t0: Tables, w: World, req: Request, pc: Pc, r: Reply, w': World)
    requires Undisturbed(t0, w.tables, req, pc) && !pc.Done? && CallLives(w, NextCall(pc), r, w')
    ensures Undisturbed(t0, w'.tables, req, Resume(pc, r))
  {
    match pc {
      case InCallback(cx, cb) => CallbackUndisturbed(t0, w, req, cx, cb, r, w');
      case InRegister(rx, rg) => RegisterUndisturbed(t0, w, req, rx, rg, r, w');
      case InWebhook(wx, wh) => OtherUndisturbed(t0, w, req, pc, r, w');
      case InPayment(py) => OtherUndisturbed(t0, w, req, pc, r, w');
      case InAdmin(ad) => AdminUndisturbed(t0, w, req, ad, r, w');
    }
  }

  lemma ArrivesUndisturbed(t: Tables, settings: Settings, req: Request)
    ensures Undisturbed(t, t, req, Start(settings, req))
  {
  }

  lemma {:induction false} RunUndisturbed(r: Run)
    requires Valid(r) && Sequential(r) && Current(r).Some?
    ensures Current(r).value in Last(r).procs
    ensures var p := Last(r).procs[Current(r).value];
            Undisturbed(Arrival(r), Last(r).world.tables, p.request, p.pc)
  {
    match r.step {
      case Arrive(pid, req) => ArrivesUndisturbed(Arrival(r), Last(r).settings, req);
      case Tick(now) => RunUndisturbed(r.before);
      case Act(pid, reply) =>
        RunUndisturbed(r.before);
        ActUndisturbed(Arrival(r), Last(r.before), pid, reply, r.after);
    }
  }

  lemma ActUndisturbed(t0: Tables, s: State, pid: nat, reply: Reply, s': State)
    requires Step(s, Act(pid, reply), s') && Undisturbed(t0, s.world.tables, s.procs[pid].request, s.procs[pid].pc)
    ensures Undisturbed(t0, s'.world.tables, s'.procs[pid].request, s'.procs[pid].pc)
  {
    AnswersLive(s.world, NextCall(s.procs[pid].pc), reply, s'.world);
    StepUndisturbed(t0, s.world, s.procs[pid].request, s.procs[pid].pc, reply, s'.world);
  }

  /** ACTIVE is entered from another status only by a callback, and only from CREATED; CREATED is re-entered only by a
      reconnect, from ACTIVE; REVOKED is left only by deletion. */
  predicate InOrder(pc: Pc, i: Id, a: Status, b: Status) {
    a != b ==>
      && a != REVOKED
      && (b == ACTIVE ==> a == CREATED && pc.InCallback?)
      && (b == CREATED ==> a == ACTIVE && pc == InAdmin(ReconnectWrite(i)))
      && b != OAUTH_PENDING
  }

  /** The step changes statuses, if at all, in that order. */
  ghost predicate Orderly(s: State, l: Label, s': State) {
    var t, t' := s.world.tables, s'.world.tables;
    forall i :: i in t.integrations && i in t'.integrations && t'.integrations[i].status != t.integrations[i].status ==>
      l.Act? && l.pid in s.procs && InOrder(s.procs[l.pid].pc, i, t.integrations[i].status, t'.integrations[i].status)
  }

  /** One request at a time, statuses change in order. */
  lemma {:induction false} LifecycleIsOrderly(r: Run)
    requires Valid(r) && Sequential(r) && r.Then?
    ensures Orderly(Last(r.before), r.step, r.after)
  {
    hide Answers, Resume, Start, SchemaInv;
    if r.step.Act? {
      RunUndisturbed(r.before);
      RunKeepsSchema(r.before);
      var t, t' := Last(r.before).world.tables, r.after.world.tables;
      forall i | i in t.integrations && i in t'.integrations
        ensures ChangesByDecision(t, Last(r.before).procs[r.step.pid].pc, NextCall(Last(r.before).procs[r.step.pid].pc), t', i)
      {
        StatusesChangeByDecision(Last(r.before), r.step.pid, r.step.reply, r.after, i);
      }
    }
  }

  /** One request at a time, a callback that succeeds leaves its integration active with a first token holding what
      HighLevel returned. Registration is best effort: it is reported exactly when this callback wrote the
      configuration, under its own key; otherwise the configurations are as it found them. */
  lemma {:induction false} CallbackConnects(r: Run, res: CallbackResult)
    requires Valid(r) && Sequential(r) && Current(r).Some? && Current(r).value in Last(r).procs
    requires Last(r).procs[Current(r).value].request.Callback? && Last(r).procs[Current(r).value].pc == Done(CallbackDone(res))
    ensures var t0, t, key := Arrival(r), Last(r).world.tables, DrawnKey(Last(r).procs[Current(r).value].request);
            && Connected(t0, t, res)
            && (res.registered ==> ConfigWritten(t0, t, res.id, key))
            && (!res.registered ==> t.configs == t0.configs)
  {
    RunUndisturbed(r);
  }

  /** A callback or registration that fails leaves every configuration as it was, and a callback every token. */
  lemma {:induction false} FailuresLeaveNothing(r: Run, e: Error)
    requires Valid(r) && Sequential(r) && Current(r).Some? && Current(r).value in Last(r).procs
    requires Connecting(Last(r).procs[Current(r).value].request) && Last(r).procs[Current(r).value].pc == Fail(e)
    ensures Last(r).world.tables.configs == Arrival(r).configs
    ensures Last(r).procs[Current(r).value].request.Callback? ==> Last(r).world.tables.tokens == Arrival(r).tokens
  {
    RunUndisturbed(r);
  }
}
