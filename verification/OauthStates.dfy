/** OAuth states: single use, bound to their client and platform, and soundly classified. */
module OauthStates {
  import opened Schema
  import opened Calls
  import opened Program
  import opened Machine

  /** The oauth_states table against its history. */
  ghost predicate StateInv(w: World) {
    var t, h := w.tables, w.history;
    && (forall s :: s in t.states ==>
          && s in h.issued
          && h.issued[s].clientId == t.states[s].clientId && h.issued[s].platformId == t.states[s].platformId
          && h.issued[s].expiresAt == t.states[s].expiresAt
          && (t.states[s].consumed <==> s in h.accepted))
    && (forall s :: s in h.issued ==>
          && h.issued[s].expiresAt <= h.issued[s].issuedAt + STATE_TTL + w.skew
          && (s !in t.states ==> h.issued[s].expiresAt <= w.clock))
    && (forall s :: s in h.accepted ==>
          && s in h.issued && s in h.presented
          && h.accepted[s].clientId == h.issued[s].clientId && h.accepted[s].platformId == h.issued[s].platformId
          && h.accepted[s].at < h.issued[s].expiresAt)
  }

  /** The client and platform a callback has settled on once it is inside ProcessCallback. */
  function Context(pc: Pc): Option<Pair> {
    match pc
    case InCallback(_, cb) =>
      (match cb
       case CheckPlatform(at) => Some(at)
       case CheckClient(at) => Some(at)
       case Exchange(at) => Some(at)
       case UserInfo(at, _) => Some(at)
       case Existing(at, _, _) => Some(at)
       case Activate(at, _, _, _) => Some(at)
       case Create(at, _, _) => Some(at)
       case StoreToken(at, _, _, _) => Some(at)
       case _ => None)
    case InRegister(rx, _) => (match rx.parent case Some(res) => Some(Pair(res.clientId, res.platformId)) case None => None)
    case Done(CallbackDone(res)) => Some(Pair(res.clientId, res.platformId))
    case _ => None
  }

  predicate Stateful(req: Request) { req.Callback? && req.state != "" }

  /** What a consume that found nothing at `at` has established about the state. */
  ghost predicate Spent(w: World, s: string, at: int) {
    s in w.history.presented && (s in w.history.issued ==> s in w.history.accepted || w.history.issued[s].expiresAt <= at)
  }

  ghost predicate OauthOk(w: World, p: Proc) {
    var h := w.history;
    && (p.entered.Some? ==>
          && Stateful(p.request) && p.entered.value == p.request.state && p.entered.value in h.accepted
          && p.consumeTime == Some(h.accepted[p.entered.value].at))
    && (p.pc.InCallback? && p.pc.cb.Consume? ==> p.entered.None?)
    && (p.pc.InCallback? ==>
          && p.request.Callback? && p.pc.cx.state == p.request.state && p.pc.cx.code == p.request.code
          && (p.pc.cb.Consume? ==> Stateful(p.request)))
    && (Stateful(p.request) ==>
          var s := p.request.state;
          && (!p.pc.Done? ==> Context(p.pc).Some? || (p.pc.InCallback? && (p.pc.cb.Consume? || p.pc.cb.Classify?)))
          && (Context(p.pc).Some? ==>
                && p.entered == Some(s) && s in h.accepted
                && h.accepted[s].clientId == Context(p.pc).value.clientId
                && h.accepted[s].platformId == Context(p.pc).value.platformId)
          && (p.pc.InCallback? && p.pc.cb.Classify? ==> p.consumeTime.Some? && Spent(w, s, p.consumeTime.value))
          && (p.pc == Fail(StateConsumed) ==> s in h.accepted)
          && (p.pc == Fail(StateExpired) ==>
                p.consumeTime.Some? && s in h.issued && h.issued[s].expiresAt <= p.consumeTime.value)
          && (p.pc == Fail(InvalidState) && !p.faulted ==>
                s in h.presented && (s in h.issued ==> h.issued[s].expiresAt <= w.clock)))
  }

  ghost predicate OauthInv(s: State) {
    && StateInv(s.world)
    && (forall p :: p in s.procs ==> OauthOk(s.world, s.procs[p]))
    && (forall p, q :: p in s.procs && q in s.procs && p != q && s.procs[p].entered.Some? && s.procs[q].entered.Some? ==>
          s.procs[p].entered != s.procs[q].entered)
  }

  lemma CreateKeepsStateInv(w: World, call: Call, r: Reply, w': World)
    requires StateInv(w) && call.CreateState? && StateWrite(w, call, r, w')
    ensures StateInv(w') && w'.history.accepted == w.history.accepted
  {
  }

  lemma ConsumeKeepsStateInv(w: World, call: Call, r: Reply, w': World)
    requires StateInv(w) && call.ConsumeState? && StateWrite(w, call, r, w')
    ensures StateInv(w')
    ensures forall s :: s in w.history.accepted ==> s in w'.history.accepted && w'.history.accepted[s] == w.history.accepted[s]
  {
  }

  lemma ExpiryKeepsStateInv(w: World, call: Call, r: Reply, w': World)
    requires StateInv(w) && call.DeleteExpiredStates? && StateWrite(w, call, r, w')
    ensures StateInv(w') && w'.history.accepted == w.history.accepted
  {
  }

  lemma StateWriteKeepsStateInv(w: World, call: Call, r: Reply, w': World)
    requires StateInv(w) && IsStateWrite(call) && StateWrite(w, call, r, w')
    ensures StateInv(w')
    ensures forall s :: s in w.history.accepted ==> s in w'.history.accepted && w'.history.accepted[s] == w.history.accepted[s]
  {
    hide StateInv, StateWrite;
    match call {
      case CreateState(_, _) => CreateKeepsStateInv(w, call, r, w');
      case ConsumeState(_) => ConsumeKeepsStateInv(w, call, r, w');
      case DeleteExpiredStates => ExpiryKeepsStateInv(w, call, r, w');
    }
  }

  lemma CallKeepsStateInv(w: World, call: Call, r: Reply, w': World)
    requires StateInv(w) && Answers(w, call, r, w')
    ensures StateInv(w')
    ensures forall s :: s in w.history.accepted ==> s in w'.history.accepted && w'.history.accepted[s] == w.history.accepted[s]
  {
    CallFrames(w, call, r, w');
    if IsStateWrite(call) && w' != AfterFault(w, call) {
      StateWriteKeepsStateInv(w, call, r, w');
    }
  }

  lemma OthersStayOk(w: World, w': World, p: Proc)
    requires OauthOk(w, p) && OutsideEvolves(w, w')
    requires forall s :: s in w.history.accepted ==> s in w'.history.accepted && w'.history.accepted[s] == w.history.accepted[s]
    ensures OauthOk(w', p)
  {
  }

  /** Outside HandleCallback the context of a callback is only carried along, and no state error arises. */
  lemma ContextIsCarried(pc: Pc, r: Reply)
    requires !pc.Done? && !pc.InCallback?
    ensures var next := Resume(pc, r);
            && !next.InCallback?
            && (Context(next).Some? ==> Context(next) == Context(pc))
            && (Context(pc).Some? ==> Context(next) == Context(pc) && (!next.Done? || next.outcome.CallbackDone?))
  {
    match pc {
      case InRegister(rx, rg) => RegisterCarries(rx, rg, r);
      case InWebhook(wx, wh) => WebhookHasNoContext(wx, wh, r);
      case InPayment(py) => PaymentHasNoContext(py, r);
      case InAdmin(ad) => AdminHasNoContext(ad, r);
    }
  }

  lemma RegisterCarries(rx: RegisterCtx, rg: RegisterPc, r: Reply)
    ensures var next, pc := RegisterResume(rx, rg, r), InRegister(rx, rg);
            && !next.InCallback?
            && Context(next) == Context(pc)
            && (Context(pc).Some? ==> !next.Done? || next.outcome.CallbackDone?)
  {
  }

  lemma WebhookHasNoContext(wx: WebhookCtx, wh: WebhookPc, r: Reply)
    ensures !WebhookResume(wx, wh, r).InCallback? && Context(WebhookResume(wx, wh, r)).None?
  {
  }

  lemma PaymentHasNoContext(py: PaymentPc, r: Reply)
    ensures !PaymentResume(py, r).InCallback? && Context(PaymentResume(py, r)).None?
  {
  }

  lemma AdminHasNoContext(ad: AdminPc, r: Reply)
    ensures !AdminResume(ad, r).InCallback? && Context(AdminResume(ad, r)).None?
  {
    hide AdminResume;
    AdminStaysAside(ad, r);
  }

  // ---- The acting process ----

  lemma ConsumeEnters(cx: CallbackCtx, r: Reply)
    requires r.FoundState?
    ensures CallbackResume(cx, Consume, r) == InCallback(cx, CheckPlatform(Pair(r.state.clientId, r.state.platformId)))
  {
  }

  lemma AcceptedStaysOk(w: World, p: Proc, r: Reply, w': World)
    requires StateInv(w) && StateInv(w') && OauthOk(w, p) && p.pc.InCallback? && p.pc.cb.Consume? && Stateful(p.request)
    requires var call := ConsumeState(p.pc.cx.state);
             (Fault(r) && w' == AfterFault(w, call)) || StateWrite(w, call, r, w')
    requires r.FoundState?
    ensures OauthOk(w', Advance(p, r, w, w'))
  {
    hide RegisterCall, RegisterResume, WebhookCall, WebhookResume, PaymentCall, PaymentResume, AdminCall, AdminResume;
    hide CallbackResume;
    ConsumeEnters(p.pc.cx, r);
    assert NextCall(p.pc) == ConsumeState(p.pc.cx.state);
  }

  lemma RefusedStaysOk(w: World, p: Proc, r: Reply, w': World)
    requires StateInv(w) && StateInv(w') && OauthOk(w, p) && p.pc.InCallback? && p.pc.cb.Consume? && Stateful(p.request)
    requires var call := ConsumeState(p.pc.cx.state);
             (Fault(r) && w' == AfterFault(w, call)) || StateWrite(w, call, r, w')
    requires !r.FoundState?
    ensures OauthOk(w', Advance(p, r, w, w'))
  {
    hide RegisterCall, RegisterResume, WebhookCall, WebhookResume, PaymentCall, PaymentResume, AdminCall, AdminResume;
    assert NextCall(p.pc) == ConsumeState(p.pc.cx.state);
  }

  lemma ConsumeStaysOk(w: World, p: Proc, r: Reply, w': World)
    requires StateInv(w) && StateInv(w') && OauthOk(w, p) && p.pc.InCallback? && p.pc.cb.Consume? && Stateful(p.request)
    requires var call := ConsumeState(p.pc.cx.state);
             (Fault(r) && w' == AfterFault(w, call)) || StateWrite(w, call, r, w')
    ensures OauthOk(w', Advance(p, r, w, w'))
  {
    hide OauthOk, StateInv, StateWrite, AfterFault;
    if r.FoundState? {
      AcceptedStaysOk(w, p, r, w');
    } else {
      RefusedStaysOk(w, p, r, w');
    }
  }

  lemma ClassifyStaysOk(w: World, p: Proc, r: Reply)
    requires StateInv(w) && OauthOk(w, p) && p.pc.InCallback? && p.pc.cb.Classify? && Stateful(p.request)
    requires AnswersRead(w, GetState(p.pc.cx.state), r)
    ensures OauthOk(w, Advance(p, r, w, w))
  {
    assert NextCall(p.pc) == GetState(p.pc.cx.state);
  }

  /** Past its first call a stateful callback keeps the pair it has and meets no state error. */
  lemma CallbackCarries(cx: CallbackCtx, cb: CallbackPc, r: Reply)
    requires Context(InCallback(cx, cb)).Some?
    ensures var next := CallbackResume(cx, cb, r);
            && (Context(next).Some? ==> Context(next) == Context(InCallback(cx, cb)))
            && (!next.Done? ==> Context(next).Some?)
            && (next.InCallback? ==> next.cx == cx)
            && next != Fail(StateConsumed) && next != Fail(StateExpired) && next != Fail(InvalidState)
            && !CallbackCall(cx, cb).ConsumeState?
  {
  }

  lemma StatelessCallback(cx: CallbackCtx, cb: CallbackPc, r: Reply)
    requires !cb.Consume?
    ensures var next := CallbackResume(cx, cb, r);
            && (next.InCallback? ==> next.cx == cx && !next.cb.Consume?)
            && !CallbackCall(cx, cb).ConsumeState?
  {
  }

  lemma NeverConsumes(pc: Pc)
    requires !pc.Done? && !pc.InCallback?
    ensures !NextCall(pc).ConsumeState?
  {
  }

  lemma CarrierStaysOk(w: World, p: Proc, r: Reply, w': World)
    requires OauthOk(w', p) && p.pc.InCallback? && (Context(p.pc).Some? || !Stateful(p.request))
    ensures OauthOk(w', Advance(p, r, w, w'))
  {
    hide CallbackResume, RegisterResume, WebhookResume, PaymentResume, AdminResume;
    if Stateful(p.request) {
      CallbackCarries(p.pc.cx, p.pc.cb, r);
    } else {
      StatelessCallback(p.pc.cx, p.pc.cb, r);
    }
  }

  lemma SuccessorStaysOk(w: World, p: Proc, q: Proc)
    requires OauthOk(w, p) && !p.pc.InCallback? && !q.pc.InCallback?
    requires q.request == p.request && q.entered == p.entered && q.consumeTime == p.consumeTime
    requires Context(q.pc).Some? ==> Context(q.pc) == Context(p.pc)
    requires Context(p.pc).Some? ==> !q.pc.Done? || q.pc.outcome.CallbackDone?
    requires Context(p.pc).Some? && !q.pc.Done? ==> Context(q.pc).Some?
    requires !p.pc.Done?
    ensures OauthOk(w, q)
  {
  }

  lemma BystanderStaysOk(w: World, p: Proc, r: Reply, w': World)
    requires OauthOk(w', p) && !p.pc.Done? && !p.pc.InCallback?
    ensures OauthOk(w', Advance(p, r, w, w'))
  {
    ContextIsCarried(p.pc, r);
    NeverConsumes(p.pc);
    SuccessorStaysOk(w', p, Advance(p, r, w, w'));
  }

  lemma ActorStaysOk(w: World, p: Proc, r: Reply, w': World)
    requires StateInv(w) && StateInv(w') && OauthOk(w, p) && OauthOk(w', p) && !p.pc.Done?
    requires Answers(w, NextCall(p.pc), r, w')
    ensures OauthOk(w', Advance(p, r, w, w'))
  {
    if !p.pc.InCallback? {
      BystanderStaysOk(w, p, r, w');
    } else if Context(p.pc).Some? || !Stateful(p.request) {
      CarrierStaysOk(w, p, r, w');
    } else if p.pc.cb.Consume? {
      ConsumeStaysOk(w, p, r, w');
    } else {
      ClassifyStaysOk(w, p, r);
    }
  }

  // ---- Every step ----

  /** A consume that succeeds accepts a state nobody had accepted. */
  lemma AcceptedOnce(w: World, state: string, r: Reply, w': World)
    requires StateInv(w) && Answers(w, ConsumeState(state), r, w') && r.FoundState?
    ensures state !in w.history.accepted && state in w'.history.accepted
  {
    assert StateWrite(w, ConsumeState(state), r, w');
  }

  lemma ActKeepsOauth(s: State, pid: nat, r: Reply, s': State)
    requires OauthInv(s) && Step(s, Act(pid, r), s')
    ensures OauthInv(s')
  {
    hide OauthOk, StateInv, Answers, NextCall, Resume, OutsideEvolves;
    var p, call := s.procs[pid], NextCall(s.procs[pid].pc);
    var w, w' := s.world, s'.world;
    CallKeepsStateInv(w, call, r, w');
    CallOutsideEvolves(w, call, r, w');
    forall q | q in s.procs ensures OauthOk(w', s.procs[q]) {
      OthersStayOk(w, w', s.procs[q]);
    }
    ActorStaysOk(w, p, r, w');
    var p' := Advance(p, r, w, w');
    assert s'.procs == s.procs[pid := p'];
    if p'.entered != p.entered {
      AcceptedOnce(w, call.state, r, w');
    }
    SetEntered(s, pid, p');
  }

  lemma SetEntered(s: State, pid: nat, p': Proc)
    requires OauthInv(s) && pid in s.procs
    requires p'.entered == s.procs[pid].entered || (p'.entered.Some? && p'.entered.value !in s.world.history.accepted)
    ensures var procs := s.procs[pid := p'];
            forall p, q :: p in procs && q in procs && p != q && procs[p].entered.Some? && procs[q].entered.Some? ==>
              procs[p].entered != procs[q].entered
  {
  }

  lemma ArrivalIsOk(w: World, settings: Settings, req: Request)
    ensures OauthOk(w, Arrived(settings, req))
  {
  }

  lemma StepKeepsOauth(s: State, l: Label, s': State)
    requires OauthInv(s) && Step(s, l, s')
    ensures OauthInv(s')
  {
    hide Answers, NextCall, Resume, Start;
    match l {
      case Arrive(pid, req) => ArrivalIsOk(s.world, s.settings, req);
      case Act(pid, r) => ActKeepsOauth(s, pid, r, s');
      case Tick(now) =>
    }
  }
}
