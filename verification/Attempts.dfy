/** Registration attempts: what a callback or registration reports is what it wrote, in every interleaving. */
module Attempts {
  import opened Schema
  import opened Calls
  import opened Program
  import opened Machine
  import opened Registrations

  /** The integration whose configuration a finished request reports to have written. */
  function Wrote(pc: Pc): Option<Id> {
    match pc
    case Done(Registered(id)) => Some(id)
    case Done(CallbackDone(res)) => if res.registered then Some(res.id) else None
    case _ => None
  }

  /** The integration a callback has stored a token for; from then on it registers, or is done. */
  function Stored(pc: Pc): Option<Id> {
    match pc
    case InRegister(rx, _) => (match rx.parent case Some(res) => Some(res.id) case None => None)
    case Done(CallbackDone(res)) => Some(res.id)
    case _ => None
  }

  ghost predicate Drew(s: State, k: string) {
    exists p :: p in s.procs && k in Keys(s.procs[p].request)
  }

  // ---- Invariant ----

  ghost predicate AttemptOk(w: World, p: Proc) {
    var t, h := w.tables, w.history;
    && (forall k :: k in Keys(p.request) ==>
          && (k in h.written <==> Wrote(p.pc).Some?)
          && (Wrote(p.pc).Some? ==> h.written[k] == Wrote(p.pc).value))
    && (Wrote(p.pc).Some? ==> DrawnKey(p.request).Some?)
    && (p.pc.InCallback? || Stored(p.pc).Some? ==> p.request.Callback?)
    && (Wrote(p.pc).Some? && Stored(p.pc).None? ==> p.request.Register?)
    && (p.pc.InRegister? && p.pc.rx.parent.None? ==> p.request.Register?)
    && (Stored(p.pc).Some? ==>
          Stored(p.pc).value < t.nextId && (Stored(p.pc).value in t.integrations ==> Stored(p.pc).value in t.tokens))
  }

  ghost predicate AttemptInv(s: State) {
    && (forall p :: p in s.procs ==> AttemptOk(s.world, s.procs[p]))
    && (forall k :: k in s.keys ==> Drew(s, k))
    && (forall p, q :: p in s.procs && q in s.procs && p != q && Stored(s.procs[p].pc).Some? ==>
          Stored(s.procs[p].pc) != Stored(s.procs[q].pc))
  }

  // ---- The programs ----

  ghost predicate AttemptFlows(pc: Pc, call: Call, r: Reply, next: Pc) {
    && (Wrote(next).Some? ==> Persisting(pc) && r.FoundConfig?)
    && (Persisting(pc) && r.FoundConfig? ==>
          Wrote(next) == Some(if pc.rx.parent.Some? then pc.rx.parent.value.id else pc.rx.id))
    && (Wrote(next).Some? && Stored(next).None? ==> pc.InRegister? && pc.rx.parent.None?)
    && (Stored(pc).Some? ==> Stored(next) == Stored(pc))
    && (Stored(pc).None? && Stored(next).Some? ==>
          Storing(pc) && call == CreateToken(Stored(next).value, pc.cb.resp) && r.FoundToken?)
    && (call.CreateToken? ==> Storing(pc) && call == CreateToken(pc.cb.id, pc.cb.resp))
    && (Storing(pc) && r.FoundToken? ==> Stored(next) == Some(pc.cb.id))
    && (next.InCallback? ==> pc.InCallback?)
    && (next.InRegister? && next.rx.parent.None? ==> pc.InRegister? && pc.rx.parent.None?)
    && (pc.InCallback? || pc.InRegister? ==> !call.DeleteIntegration? && !call.UpdateToken?)
  }

  lemma CallbackAttempts(cx: CallbackCtx, cb: CallbackPc, r: Reply)
    ensures AttemptFlows(InCallback(cx, cb), CallbackCall(cx, cb), r, CallbackResume(cx, cb, r))
  {
  }

  lemma RegisterAttempts(rx: RegisterCtx, rg: RegisterPc, r: Reply)
    ensures AttemptFlows(InRegister(rx, rg), RegisterCall(rx, rg), r, RegisterResume(rx, rg, r))
  {
  }

  /** Where a request goes that neither connects nor registers. */
  predicate Aside(next: Pc) { Wrote(next).None? && Stored(next).None? && !next.InCallback? && !next.InRegister? }

  lemma WebhookAttemptsNothing(wx: WebhookCtx, wh: WebhookPc, r: Reply)
    ensures Aside(WebhookResume(wx, wh, r)) && !WebhookCall(wx, wh).CreateToken?
  {
  }

  lemma PaymentAttemptsNothing(py: PaymentPc, r: Reply)
    ensures Aside(PaymentResume(py, r)) && !PaymentCall(py).CreateToken?
  {
  }

  lemma AdminAttemptsNothing(ad: AdminPc, r: Reply)
    ensures Aside(AdminResume(ad, r)) && !AdminCall(ad).CreateToken?
  {
    hide AdminResume;
    AdminStaysAside(ad, r);
  }

  lemma OthersAttemptNothing(pc: Pc, r: Reply)
    requires !pc.Done? && !pc.InCallback? && !pc.InRegister?
    ensures Aside(Resume(pc, r)) && !NextCall(pc).CreateToken?
  {
    hide WebhookCall, WebhookResume, PaymentCall, PaymentResume, AdminCall, AdminResume;
    match pc {
      case InWebhook(wx, wh) => WebhookAttemptsNothing(wx, wh, r);
      case InPayment(py) => PaymentAttemptsNothing(py, r);
      case InAdmin(ad) => AdminAttemptsNothing(ad, r);
    }
  }

  lemma AllAttempt(pc: Pc, r: Reply)
    requires !pc.Done?
    ensures AttemptFlows(pc, NextCall(pc), r, Resume(pc, r))
  {
    hide CallbackCall, CallbackResume, RegisterCall, RegisterResume, WebhookCall, WebhookResume, PaymentCall, PaymentResume,
         AdminCall, AdminResume;
    match pc {
      case InCallback(cx, cb) => CallbackAttempts(cx, cb, r);
      case InRegister(rx, rg) => RegisterAttempts(rx, rg, r);
      case _ => OthersAttemptNothing(pc, r);
    }
  }

  // ---- The calls ----

  /** A token goes in only where there is none, and tokens go only with their integration. */
  ghost predicate CallStores(w: World, call: Call, r: Reply, w': World) {
    var t, t' := w.tables, w'.tables;
    && t.nextId <= t'.nextId
    && (forall i :: i in t'.integrations && i < t.nextId ==> i in t.integrations)
    && (forall i :: i in t.tokens && i in t'.integrations ==> i in t'.tokens)
    && (call.CreateToken? && r.FoundToken? ==>
          && call.id in t.integrations && call.id < t.nextId && call.id !in t.tokens
          && t'.tokens == t.tokens[call.id := r.token]
          && r.token == TokenRow(r.token.id, call.response, r.token.expiresAt))
    && (call.CreateToken? && !r.FoundToken? ==> t' == t)
    && (!call.CreateToken? && !call.UpdateToken? && !call.DeleteIntegration? ==> t'.tokens == t.tokens)
    && (!call.CreateConfig? && !call.UpdateConfig? && !call.DeleteIntegration? ==> t'.configs == t.configs)
  }

  lemma IntegrationsStore(w: World, call: Call, r: Reply, w': World)
    requires IsIntegrationWrite(call) && (w' == w || IntegrationWrite(w, call, r, w')) && TablesEvolve(w.tables, w'.tables)
    ensures CallStores(w, call, r, w')
  {
  }

  lemma TokensStore(w: World, call: Call, r: Reply, w': World)
    requires SchemaInv(w.tables) && IsTokenWrite(call) && TablesEvolve(w.tables, w'.tables)
    requires (Fault(r) && w' == AfterFault(w, call)) || TokenWrite(w, call, r, w')
    ensures CallStores(w, call, r, w')
  {
  }

  lemma OthersStore(w: World, call: Call, r: Reply, w': World)
    requires !IsIntegrationWrite(call) && !IsTokenWrite(call) && Frames(w, call, w') && TablesEvolve(w.tables, w'.tables)
    ensures CallStores(w, call, r, w')
  {
  }

  lemma AnswersStore(w: World, call: Call, r: Reply, w': World)
    requires SchemaInv(w.tables) && Answers(w, call, r, w')
    ensures CallStores(w, call, r, w')
  {
    hide CallStores, SchemaInv, TablesEvolve, Frames, IntegrationWrite, TokenWrite;
    CallTablesEvolve(w, call, r, w');
    if IsIntegrationWrite(call) {
      IntegrationsStore(w, call, r, w');
    } else if IsTokenWrite(call) {
      TokensStore(w, call, r, w');
    } else {
      CallFrames(w, call, r, w');
      OthersStore(w, call, r, w');
    }
  }

  // ---- One step ----

  ghost predicate TokensPersist(w: World, w': World) {
    var t, t' := w.tables, w'.tables;
    && t.nextId <= t'.nextId
    && (forall i :: i in t'.integrations && i < t.nextId ==> i in t.integrations)
    && (forall i :: i in t.tokens && i in t'.integrations ==> i in t'.tokens)
  }

  /** A bystander: its own key was not written by this call. */
  lemma OthersAttempt(w: World, p: Proc, w': World)
    requires AttemptOk(w, p) && TokensPersist(w, w')
    requires forall k :: k in Keys(p.request) ==>
               (k in w'.history.written <==> k in w.history.written)
               && (k in w.history.written ==> w'.history.written[k] == w.history.written[k])
    ensures AttemptOk(w', p)
  {
  }

  lemma ActorAttempts(w: World, p: Proc, call: Call, r: Reply, w': World, q: Proc)
    requires AttemptOk(w, p) && !p.pc.Done? && q.request == p.request
    requires AttemptFlows(p.pc, call, r, q.pc) && CallStores(w, call, r, w')
    requires if Persisting(p.pc) && r.FoundConfig?
             then DrawnKey(p.request).Some? && w'.history.written == w.history.written[DrawnKey(p.request).value := p.pc.rx.id]
             else w'.history.written == w.history.written
    requires p.pc.InRegister? && p.pc.rx.parent.Some? ==> p.pc.rx.parent.value.id == p.pc.rx.id
    ensures AttemptOk(w', q)
  {
  }

  /** One call of one request, given what its program and the call do. */
  ghost predicate Attempting(s: State, pid: nat, call: Call, r: Reply, s': State) {
    && pid in s.procs && pid in s'.procs && !s.procs[pid].pc.Done? && s'.keys == s.keys
    && var p, q := s.procs[pid], s'.procs[pid];
    && AttemptFlows(p.pc, call, r, q.pc) && CallStores(s.world, call, r, s'.world)
    && q.request == p.request && s'.procs == s.procs[pid := q]
    && (if Persisting(p.pc) && r.FoundConfig?
        then DrawnKey(p.request).Some? && s'.world.history.written == s.world.history.written[DrawnKey(p.request).value := p.pc.rx.id]
        else s'.world.history.written == s.world.history.written)
    && (p.pc.InRegister? && p.pc.rx.parent.Some? ==> p.pc.rx.parent.value.id == p.pc.rx.id)
  }

  lemma ProcsAttempt(s: State, pid: nat, call: Call, r: Reply, s': State)
    requires KeyInv(s) && AttemptInv(s) && Attempting(s, pid, call, r, s')
    ensures forall p :: p in s'.procs ==> AttemptOk(s'.world, s'.procs[p])
  {
    ActorAttempts(s.world, s.procs[pid], call, r, s'.world, s'.procs[pid]);
    forall p | p in s.procs && p != pid ensures AttemptOk(s'.world, s.procs[p]) {
      assert Keys(s.procs[p].request) !! Keys(s.procs[pid].request);
      OthersAttempt(s.world, s.procs[p], s'.world);
    }
  }

  /** Whoever stored a token before has one there, or its integration is gone; so the one who stores now is the only one. */
  lemma StoredOnce(s: State, pid: nat, call: Call, r: Reply, s': State)
    requires AttemptInv(s) && Attempting(s, pid, call, r, s')
    ensures forall p, q :: p in s'.procs && q in s'.procs && p != q && Stored(s'.procs[p].pc).Some? ==>
              Stored(s'.procs[p].pc) != Stored(s'.procs[q].pc)
  {
    forall p | p in s.procs && p != pid && Stored(s'.procs[pid].pc).Some?
      ensures Stored(s.procs[p].pc) != Stored(s'.procs[pid].pc)
    {
      assert AttemptOk(s.world, s.procs[p]);
    }
  }

  lemma StillDrawn(s: State, s': State)
    requires forall k :: k in s.keys ==> Drew(s, k)
    requires forall p :: p in s.procs ==> p in s'.procs && s'.procs[p].request == s.procs[p].request
    ensures forall k :: k in s.keys ==> Drew(s', k)
  {
    forall k | k in s.keys ensures Drew(s', k) {
      var p :| p in s.procs && k in Keys(s.procs[p].request);
      assert p in s'.procs;
    }
  }

  lemma ActKeepsAttempts(s: State, pid: nat, call: Call, r: Reply, s': State)
    requires KeyInv(s) && AttemptInv(s) && Attempting(s, pid, call, r, s')
    ensures AttemptInv(s')
  {
    ProcsAttempt(s, pid, call, r, s');
    StoredOnce(s, pid, call, r, s');
    StillDrawn(s, s');
  }

  /** The history of keys grows by exactly what a registration stores. */
  lemma KeysAreLogged(settings: Settings, w: World, p: Proc, call: Call, r: Reply, w': World, next: Pc)
    requires CarriesOk(settings, w, p) && (Persisting(p.pc) ==> p.pc.rg.key != "")
    requires RegisterFlows(p.pc, call, r, next) && CallRegisters(w, call, r, w')
    ensures if Persisting(p.pc) && r.FoundConfig?
            then DrawnKey(p.request).Some? && w'.history.written == w.history.written[DrawnKey(p.request).value := p.pc.rx.id]
            else w'.history.written == w.history.written
  {
  }

  lemma StepKeepsAttempts(base: map<string, ProviderConfig>, s: State, l: Label, s': State)
    requires SchemaInv(s.world.tables) && RegisterInv(base, s) && AttemptInv(s) && Step(s, l, s')
    ensures AttemptInv(s')
  {
    match l {
      case Arrive(pid, req) =>
        ArrivedAttempts(s.world, s.settings, req);
        ArrivalKeepsAttempts(s, pid, req, Arrived(s.settings, req), s');
      case Act(pid, r) => CallKeepsAttempts(base, s, pid, r, s');
      case Tick(now) => TickKeepsAttempts(s, s');
    }
  }

  lemma CallKeepsAttempts(base: map<string, ProviderConfig>, s: State, pid: nat, r: Reply, s': State)
    requires SchemaInv(s.world.tables) && RegisterInv(base, s) && AttemptInv(s) && Step(s, Act(pid, r), s')
    ensures AttemptInv(s')
  {
    hide Answers, Resume, NextCall, AttemptFlows, CallStores, RegisterFlows, CallRegisters, UpstreamInv, RowInv, KeyInv, SchemaInv;
    var p, call := s.procs[pid], NextCall(s.procs[pid].pc);
    AllAttempt(p.pc, r);
    AllRegisterFlows(p.pc, r);
    AnswersStore(s.world, call, r, s'.world);
    AnswersRegister(s.world, call, r, s'.world);
    assert RegisterOk(s.settings, s.world, p);
    if Persisting(p.pc) { KeyInHand(s, pid); }
    KeysAreLogged(s.settings, s.world, p, call, r, s'.world, Resume(p.pc, r));
    assert Attempting(s, pid, call, r, s');
    ActKeepsAttempts(s, pid, call, r, s');
  }

  lemma ArrivedAttempts(w: World, settings: Settings, req: Request)
    requires forall k :: k in Keys(req) ==> k !in w.history.written
    ensures var p := Arrived(settings, req); AttemptOk(w, p) && Stored(p.pc).None? && p.request == req
  {
  }

  lemma ArrivalKeepsAttempts(s: State, pid: nat, req: Request, p: Proc, s': State)
    requires AttemptInv(s) && pid !in s.procs && AttemptOk(s.world, p) && Stored(p.pc).None? && p.request == req
    requires s' == s.(procs := s.procs[pid := p], keys := s.keys + Keys(req))
    ensures AttemptInv(s')
  {
    StillDrawn(s, s');
    assert s'.procs[pid].request == req;
  }

  lemma TickKeepsAttempts(s: State, s': State)
    requires AttemptInv(s) && s'.procs == s.procs && s'.keys == s.keys
    requires s'.world.tables == s.world.tables && s'.world.history == s.world.history
    ensures AttemptInv(s')
  {
    StillDrawn(s, s');
  }

  // ---- What follows ----

  /** The one call in which a connecting request changes configurations ends it, and it reports success. */
  lemma ConnectingWrites(settings: Settings, w: World, p: Proc, call: Call, r: Reply, w': World, next: Pc)
    requires CarriesOk(settings, w, p) && (p.pc.InCallback? || p.pc.InRegister?)
    requires AttemptFlows(p.pc, call, r, next) && CallStores(w, call, r, w')
    requires RegisterFlows(p.pc, call, r, next) && CallRegisters(w, call, r, w')
    requires w'.tables.configs != w.tables.configs
    ensures Wrote(next) == Some(p.pc.rx.id) && DrawnKey(p.request).Some? && p.pc.rx.id in w'.tables.configs
    ensures w'.tables.configs == w.tables.configs[p.pc.rx.id := w'.tables.configs[p.pc.rx.id]]
    ensures w'.tables.configs[p.pc.rx.id].apiKey == DrawnKey(p.request).value
  {
  }

  /** The one call in which a connecting request changes tokens finds none and stores what it was given. */
  lemma ConnectingStores(w: World, pc: Pc, call: Call, r: Reply, w': World, next: Pc)
    requires pc.InCallback? || pc.InRegister?
    requires AttemptFlows(pc, call, r, next) && CallStores(w, call, r, w') && w'.tables.tokens != w.tables.tokens
    ensures Storing(pc) && Stored(next) == Some(pc.cb.id) && pc.cb.id !in w.tables.tokens && r.FoundToken?
    ensures w'.tables.tokens == w.tables.tokens[pc.cb.id := r.token] && r.token == TokenRow(r.token.id, pc.cb.resp, r.token.expiresAt)
  {
  }

  /** Two keys written for one integration: one of their requests was a registration of its own. */
  lemma RotatedByRegister(s: State, key: string, key': string)
    requires AttemptInv(s) && key in s.keys && key' in s.keys && key != key'
    requires key in s.world.history.written && key' in s.world.history.written
    requires s.world.history.written[key] == s.world.history.written[key']
    ensures exists p :: p in s.procs && s.procs[p].request.Register? && s.procs[p].pc == Done(Registered(s.world.history.written[key]))
  {
    var p :| p in s.procs && key in Keys(s.procs[p].request);
    var q :| q in s.procs && key' in Keys(s.procs[q].request);
    assert AttemptOk(s.world, s.procs[p]) && AttemptOk(s.world, s.procs[q]);
    assert Stored(s.procs[p].pc).None? || Stored(s.procs[q].pc).None?;
  }

  // ---- How a registration can fail ----

  /** The most calls a registration can still make. */
  function CallsLeft(rg: RegisterPc): nat {
    match rg
    case ReadIntegration => 7
    case ReadPlatform(_) => 6
    case Associate => 5
    case Connect => 4
    case Fetch => 3
    case Insert(_, _) => 2
    case Overwrite(_, _) => 1
  }

  /** A statement fails, the integration is gone, its platform is unknown or has no provider, HighLevel refuses with
      something other than 400 or 422 or does not say what it holds, or there is no key. */
  predicate Setback(w: World, rx: RegisterCtx, rg: RegisterPc, r: Reply) {
    match rg
    case ReadIntegration => Fault(r) || rx.id !in w.tables.integrations
    case ReadPlatform(_) => !r.FoundPlatform? || !Supported(r.slug)
    case Associate => r == Refused(OtherHttp)
    case Connect => r == Refused(OtherHttp) || (r.Ack? && rx.apiKey.None?)
    case Fetch => r.Refused? || rx.apiKey.None?
    case Insert(_, _) => Fault(r) || rx.id !in w.tables.integrations
    case Overwrite(_, _) => Fault(r) || rx.id !in w.tables.integrations
  }

  ghost predicate FailsNow(rx: RegisterCtx, next: Pc) {
    exists e :: next == EndRegister(rx, Some(e))
  }

  /** A registration goes on, with fewer calls left, or succeeds, unless it meets a setback. */
  ghost predicate MovesOn(w: World, rx: RegisterCtx, rg: RegisterPc, r: Reply, next: Pc) {
    if Setback(w, rx, rg, r) then FailsNow(rx, next)
    else next == EndRegister(rx, None) || (next.InRegister? && next.rx == rx && CallsLeft(next.rg) < CallsLeft(rg))
  }

  lemma LookupMovesOn(w: World, rx: RegisterCtx, rg: RegisterPc, r: Reply)
    requires IsRead(RegisterCall(rx, rg)) && AnswersRead(w, RegisterCall(rx, rg), r)
    ensures MovesOn(w, rx, rg, r, RegisterResume(rx, rg, r))
  {
  }

  lemma RequestMovesOn(w: World, rx: RegisterCtx, rg: RegisterPc, r: Reply, w': World)
    requires IsOutsideWrite(RegisterCall(rx, rg)) && OutsideWrite(w, RegisterCall(rx, rg), r, w')
    ensures MovesOn(w, rx, rg, r, RegisterResume(rx, rg, r))
  {
  }

  lemma StoreMovesOn(w: World, rx: RegisterCtx, rg: RegisterPc, r: Reply, w': World)
    requires SchemaInv(w.tables) && IsConfigWrite(RegisterCall(rx, rg))
    requires (Fault(r) && w' == w) || ConfigWrite(w, RegisterCall(rx, rg), r, w')
    requires rg.Overwrite? && rx.id in w.tables.integrations ==> rx.id in w.tables.configs
    ensures MovesOn(w, rx, rg, r, RegisterResume(rx, rg, r))
  {
  }

  lemma CallMovesOn(w: World, rx: RegisterCtx, rg: RegisterPc, r: Reply, w': World)
    requires SchemaInv(w.tables) && Answers(w, RegisterCall(rx, rg), r, w')
    requires rg.Overwrite? && rx.id in w.tables.integrations ==> rx.id in w.tables.configs
    ensures MovesOn(w, rx, rg, r, RegisterResume(rx, rg, r))
  {
    hide MovesOn, RegisterResume;
    if IsRead(RegisterCall(rx, rg)) {
      LookupMovesOn(w, rx, rg, r);
    } else if IsOutsideWrite(RegisterCall(rx, rg)) {
      RequestMovesOn(w, rx, rg, r, w');
    } else {
      StoreMovesOn(w, rx, rg, r, w');
    }
  }
}
