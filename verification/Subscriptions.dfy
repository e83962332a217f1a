/** Where webhook subscriptions come from: every stored endpoint was the callback URL of a RegisterWebhook request. */
module Subscriptions {
  import opened Schema
  import opened Calls
  import opened Program
  import opened Machine

  predicate HookOk(p: Proc) {
    p.pc.InAdmin? ==>
      && (p.pc.ad.HookIntegration? || p.pc.ad.HookPlatform? || p.pc.ad.HookCreate? ==>
            p.request == RegisterWebhook(p.pc.ad.id, p.pc.ad.url))
  }

  ghost predicate Asked(s: State, id: Id, url: string) {
    exists p :: p in s.procs && s.procs[p].request == RegisterWebhook(id, url)
  }

  ghost predicate UrlInv(s: State) {
    && (forall p :: p in s.procs ==> HookOk(s.procs[p]))
    && (forall id, url :: (id, url) in s.world.history.urls ==> Asked(s, id, url))
  }

  ghost predicate HookFlows(pc: Pc, call: Call, r: Reply, next: Pc) {
    && (call.CreateSubscription? ==> pc == InAdmin(HookCreate(call.id, call.endpoint)))
    && (next.InAdmin? && (next.ad.HookIntegration? || next.ad.HookPlatform? || next.ad.HookCreate?) ==>
          pc.InAdmin? && (pc.ad.HookIntegration? || pc.ad.HookPlatform?) && pc.ad.id == next.ad.id && pc.ad.url == next.ad.url)
  }

  lemma AdminHooks(ad: AdminPc, r: Reply)
    ensures HookFlows(InAdmin(ad), AdminCall(ad), r, AdminResume(ad, r))
  {
  }

  lemma CallbackHooks(cx: CallbackCtx, cb: CallbackPc, r: Reply)
    ensures !CallbackCall(cx, cb).CreateSubscription? && !CallbackResume(cx, cb, r).InAdmin?
  {
  }

  lemma RegisterHooks(rx: RegisterCtx, rg: RegisterPc, r: Reply)
    ensures !RegisterCall(rx, rg).CreateSubscription? && !RegisterResume(rx, rg, r).InAdmin?
  {
  }

  lemma WebhookHooks(wx: WebhookCtx, wh: WebhookPc, r: Reply)
    ensures !WebhookCall(wx, wh).CreateSubscription? && !WebhookResume(wx, wh, r).InAdmin?
  {
  }

  lemma PaymentHooks(py: PaymentPc, r: Reply)
    ensures !PaymentCall(py).CreateSubscription? && !PaymentResume(py, r).InAdmin?
  {
  }

  lemma OthersHook(pc: Pc, r: Reply)
    requires !pc.Done? && !pc.InAdmin?
    ensures HookFlows(pc, NextCall(pc), r, Resume(pc, r))
  {
    hide CallbackCall, CallbackResume, RegisterCall, RegisterResume, WebhookCall, WebhookResume, PaymentCall, PaymentResume;
    match pc {
      case InCallback(cx, cb) => CallbackHooks(cx, cb, r);
      case InRegister(rx, rg) => RegisterHooks(rx, rg, r);
      case InWebhook(wx, wh) => WebhookHooks(wx, wh, r);
      case InPayment(py) => PaymentHooks(py, r);
    }
  }

  lemma AllHook(pc: Pc, r: Reply)
    requires !pc.Done?
    ensures HookFlows(pc, NextCall(pc), r, Resume(pc, r))
  {
    if pc.InAdmin? { AdminHooks(pc.ad, r); } else { OthersHook(pc, r); }
  }

  lemma SuccessorHooks(p: Proc, call: Call, r: Reply, q: Proc)
    requires HookOk(p) && HookFlows(p.pc, call, r, q.pc) && q.request == p.request
    ensures HookOk(q)
    ensures call.CreateSubscription? ==> p.request == RegisterWebhook(call.id, call.endpoint)
  {
  }

  lemma UrlsGrow(w: World, call: Call, r: Reply, w': World)
    requires Answers(w, call, r, w')
    ensures w'.history.urls == w.history.urls
            || (call.CreateSubscription? && w'.history.urls == w.history.urls + {(call.id, call.endpoint)})
  {
    CallFrames(w, call, r, w');
    if IsWebhookWrite(call) {
      assert w' == w || WebhookWrite(w, call, r, w');
    }
  }

  lemma AskedPersists(s: State, s': State, id: Id, url: string)
    requires Asked(s, id, url)
    requires forall p :: p in s.procs ==> p in s'.procs && s'.procs[p].request == s.procs[p].request
    ensures Asked(s', id, url)
  {
    var p :| p in s.procs && s.procs[p].request == RegisterWebhook(id, url);
    assert p in s'.procs;
  }

  lemma ActHooks(s: State, pid: nat, r: Reply, s': State)
    requires UrlInv(s) && Step(s, Act(pid, r), s')
    ensures HookOk(s'.procs[pid]) && s.world.history.urls <= s'.world.history.urls
    ensures forall k :: k in s'.world.history.urls - s.world.history.urls ==> s.procs[pid].request == RegisterWebhook(k.0, k.1)
  {
    var p, call := s.procs[pid], NextCall(s.procs[pid].pc);
    AllHook(p.pc, r);
    SuccessorHooks(p, call, r, s'.procs[pid]);
    UrlsGrow(s.world, call, r, s'.world);
  }

  lemma UrlsWereAsked(s: State, s': State, pid: nat, hooked: set<(Id, string)>)
    requires UrlInv(s) && s'.world.history.urls == s.world.history.urls + hooked
    requires forall p :: p in s.procs ==> p in s'.procs && s'.procs[p].request == s.procs[p].request
    requires forall k :: k in hooked ==> pid in s.procs && s.procs[pid].request == RegisterWebhook(k.0, k.1)
    ensures forall id, url :: (id, url) in s'.world.history.urls ==> Asked(s', id, url)
  {
    forall id, url | (id, url) in s'.world.history.urls ensures Asked(s', id, url) {
      if (id, url) in s.world.history.urls {
        AskedPersists(s, s', id, url);
      } else {
        assert s'.procs[pid].request == RegisterWebhook((id, url).0, (id, url).1);
      }
    }
  }

  lemma StepKeepsUrls(s: State, l: Label, s': State)
    requires UrlInv(s) && Step(s, l, s')
    ensures UrlInv(s')
  {
    hide Answers, NextCall, Resume;
    match l {
      case Arrive(pid, req) => UrlsWereAsked(s, s', pid, {});
      case Act(pid, r) =>
        ActHooks(s, pid, r, s');
        UrlsWereAsked(s, s', pid, s'.world.history.urls - s.world.history.urls);
      case Tick(now) => UrlsWereAsked(s, s', 0, {});
    }
  }
}
