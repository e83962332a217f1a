/** How often a callback presents its authorization code, and what that does to callbacks without a state. */
module CodeExchange {
  import opened Schema
  import opened Calls
  import opened Program
  import opened Machine

  /** From the resolved integration up to the exchange inside ProcessCallback. */
  predicate Midway(pc: Pc) {
    pc.InCallback? && (pc.cb.ByExternalAccount? || pc.cb.ByConfigLocation? || pc.cb.ById?
                       || pc.cb.CheckPlatform? || pc.cb.CheckClient? || pc.cb.Exchange?)
  }

  /** Past the exchange inside ProcessCallback. */
  predicate Late(pc: Pc) {
    || (pc.InCallback? && (pc.cb.UserInfo? || pc.cb.Existing? || pc.cb.Activate? || pc.cb.Create? || pc.cb.StoreToken?))
    || (pc.InRegister? && pc.rx.parent.Some?)
    || (pc.Done? && pc.outcome.CallbackDone?)
  }

  predicate FirstCall(pc: Pc) { pc.InCallback? && (pc.cb.Consume? || pc.cb.Classify? || pc.cb.FirstExchange?) }

  ghost predicate ExchangeOk(w: World, p: Proc) {
    match p.request
    case Callback(code, state, _) =>
      var before := if state == "" then 1 else 0;
      && (p.pc.InCallback? ==> p.pc.cx.code == code && (p.pc.cb.FirstExchange? <==> FirstCall(p.pc) && state == ""))
      && (FirstCall(p.pc) || Midway(p.pc) || Late(p.pc) || (p.pc.Done? && p.pc.outcome.Failed?))
      && (FirstCall(p.pc) ==> p.exchanges == 0)
      && (Midway(p.pc) ==> p.exchanges == before)
      && (Late(p.pc) ==> p.exchanges == before + 1)
      && p.exchanges <= before + 1
      && (state == "" && p.wrote ==> p.exchanges == 2)
      && (state == "" && w.upstream.singleUseCodes ==>
            && !p.wrote && !Late(p.pc)
            && (Midway(p.pc) ==> code in w.upstream.usedCodes))
    case _ => p.exchanges == 0 && !p.pc.InCallback? && !(p.pc.InRegister? && p.pc.rx.parent.Some?)
  }

  ghost predicate ExchangeInv(s: State) {
    forall p :: p in s.procs ==> ExchangeOk(s.world, s.procs[p])
  }

  ghost predicate ExchangeFlows(pc: Pc, call: Call, r: Reply, next: Pc) {
    && (call.ExchangeCode? ==>
          && pc.InCallback? && (pc.cb.FirstExchange? || pc.cb.Exchange?) && call.code == pc.cx.code
          && (if !r.Exchanged? then next.Done? && next.outcome.Failed?
              else if pc.cb.FirstExchange? then Midway(next) || (next.Done? && next.outcome.Failed?)
              else Late(next)))
    && (pc.InCallback? && (pc.cb.FirstExchange? || pc.cb.Exchange?) ==> call.ExchangeCode?)
    && (Midway(pc) && !call.ExchangeCode? ==> IsRead(call) && (Midway(next) || (next.Done? && next.outcome.Failed?)))
    && (FirstCall(pc) && !call.ExchangeCode? ==> FirstCall(next) || Midway(next) || (next.Done? && next.outcome.Failed?))
    && (Late(pc) ==> Late(next) || (next.Done? && next.outcome.Failed?))
    && (next.InCallback? ==> pc.InCallback? && next.cx == pc.cx && !next.cb.FirstExchange?)
    && (next.InRegister? && next.rx.parent.Some? ==> pc.InCallback? || (pc.InRegister? && pc.rx.parent.Some?))
    && (pc.InRegister? && pc.rx.parent.Some? ==> Late(next))
  }

  lemma CallbackExchanges(cx: CallbackCtx, cb: CallbackPc, r: Reply)
    ensures ExchangeFlows(InCallback(cx, cb), CallbackCall(cx, cb), r, CallbackResume(cx, cb, r))
  {
  }

  lemma RegisterExchanges(rx: RegisterCtx, rg: RegisterPc, r: Reply)
    ensures ExchangeFlows(InRegister(rx, rg), RegisterCall(rx, rg), r, RegisterResume(rx, rg, r))
  {
  }

  lemma WebhookExchanges(wx: WebhookCtx, wh: WebhookPc, r: Reply)
    ensures ExchangeFlows(InWebhook(wx, wh), WebhookCall(wx, wh), r, WebhookResume(wx, wh, r))
  {
  }

  lemma PaymentExchanges(py: PaymentPc, r: Reply)
    ensures ExchangeFlows(InPayment(py), PaymentCall(py), r, PaymentResume(py, r))
  {
  }

  lemma AdminExchanges(ad: AdminPc, r: Reply)
    ensures ExchangeFlows(InAdmin(ad), AdminCall(ad), r, AdminResume(ad, r))
  {
    hide Supported, Translate, NotFoundAs;
  }

  lemma AllExchange(pc: Pc, r: Reply)
    requires !pc.Done?
    ensures ExchangeFlows(pc, NextCall(pc), r, Resume(pc, r))
  {
    match pc {
      case InCallback(cx, cb) => CallbackExchanges(cx, cb, r);
      case InRegister(rx, rg) => RegisterExchanges(rx, rg, r);
      case InWebhook(wx, wh) => WebhookExchanges(wx, wh, r);
      case InPayment(py) => PaymentExchanges(py, r);
      case InAdmin(ad) => AdminExchanges(ad, r);
    }
  }

  /** A single-use code is refused the second time. */
  ghost predicate CallExchanges(w: World, call: Call, r: Reply, w': World) {
    && (IsRead(call) || call.ExchangeCode? ==> w'.tables == w.tables)
    && w'.upstream.singleUseCodes == w.upstream.singleUseCodes && w.upstream.usedCodes <= w'.upstream.usedCodes
    && (call.ExchangeCode? && r.Exchanged? ==>
          call.code in w'.upstream.usedCodes && !(w.upstream.singleUseCodes && call.code in w.upstream.usedCodes))
  }

  lemma AnswersExchange(w: World, call: Call, r: Reply, w': World)
    requires Answers(w, call, r, w')
    ensures CallExchanges(w, call, r, w')
  {
    hide AnswersRead, IntegrationWrite, TokenWrite, ConfigWrite, WebhookWrite, StateWrite;
    CallOutsideEvolves(w, call, r, w');
    if call.ExchangeCode? {
      assert OutsideWrite(w, call, r, w');
    }
  }

  lemma ActorExchanges(w: World, p: Proc, call: Call, r: Reply, w': World, q: Proc)
    requires ExchangeOk(w, p) && !p.pc.Done? && ExchangeFlows(p.pc, call, r, q.pc) && CallExchanges(w, call, r, w')
    requires q.request == p.request && q.exchanges == p.exchanges + (if call.ExchangeCode? then 1 else 0)
    requires q.wrote == (p.wrote || w'.tables != w.tables)
    ensures ExchangeOk(w', q)
  {
  }

  lemma OthersExchange(w: World, w': World, p: Proc)
    requires ExchangeOk(w, p)
    requires w'.upstream.singleUseCodes == w.upstream.singleUseCodes && w.upstream.usedCodes <= w'.upstream.usedCodes
    ensures ExchangeOk(w', p)
  {
  }

  lemma ArrivalExchanges(w: World, settings: Settings, req: Request)
    ensures ExchangeOk(w, Arrived(settings, req))
  {
  }

  lemma StepKeepsExchange(s: State, l: Label, s': State)
    requires ExchangeInv(s) && Step(s, l, s')
    ensures ExchangeInv(s')
  {
    match l {
      case Arrive(pid, req) => ArrivalExchanges(s.world, s.settings, req);
      case Act(pid, r) =>
        var p, call := s.procs[pid], NextCall(s.procs[pid].pc);
        AllExchange(p.pc, r);
        AnswersExchange(s.world, call, r, s'.world);
        ActorExchanges(s.world, p, call, r, s'.world, s'.procs[pid]);
        forall q | q in s.procs ensures ExchangeOk(s'.world, s.procs[q]) {
          OthersExchange(s.world, s'.world, s.procs[q]);
        }
      case Tick(now) =>
    }
  }
}
