/** Webhook deliveries, marketplace and payment alike: at most one effect per event, and where lost events go. */
module Deliveries {
  import opened Schema
  import opened Calls
  import opened Program
  import opened Machine

  predicate IsDelivery(req: Request) { req.Webhook? || req.PaymentWebhook? }

  /** The event a delivery has recorded and not yet handed on. */
  function Held(pc: Pc): Option<EventKey> {
    match pc
    case InWebhook(wx, wh) =>
      (match wh
       case CheckSubscription(id) => Some((id, wx.event.eventId))
       case Touch(id, _) => Some((id, wx.event.eventId))
       case Hand(id) => Some((id, wx.event.eventId))
       case _ => None)
    case InPayment(PayDelegate(ev, id)) => Some((id, ev.eventId))
    case _ => None
  }

  /** A delivery that has not recorded its event yet. */
  predicate Unrecorded(pc: Pc) {
    || (pc.InWebhook? && (pc.wh.ResolveExternal? || pc.wh.ResolveConfig? || pc.wh.ResolveOther? || pc.wh.Record?))
    || (pc.InPayment? && (pc.py.PayConfig? || pc.py.PayIntegration? || pc.py.PayRecord?))
  }

  predicate Succeeded(pc: Pc) {
    pc.Done? && (pc.outcome.Installed? || pc.outcome.Dispatched? || pc.outcome.Delegated?)
  }

  predicate Paying(pc: Pc) {
    pc.InPayment? && (pc.py.PayConfig? || pc.py.PayIntegration? || pc.py.PayRecord? || pc.py.PayDelegate?)
  }

  predicate Installing(wh: WebhookPc) {
    wh.InstallExternal? || wh.InstallConfig? || wh.InstallById? || wh.InstallFind? || wh.InstallCreate?
  }

  /** Marketplace events other than INSTALL may fail between being recorded and being handed on; nothing else does. */
  predicate MayFailInHand(req: Request) { req.Webhook? && req.parsed.Some? && !IsInstall(req.parsed.value) }

  predicate FailedPc(pc: Pc) { pc.Done? && pc.outcome.Failed? }

  /** An empty-URL subscription stands behind every marketplace event that is not an INSTALL. */
  ghost predicate Subscribed(w: World, pc: Pc) {
    pc.InWebhook? && !IsInstall(pc.wx.event) && (pc.wh.Touch? || pc.wh.Hand?) ==> (pc.wh.id, "") in w.history.urls
  }

  /** Where a delivery stands, and what it has recorded. */
  ghost predicate DeliveryShape(w: World, p: Proc) {
    && (Unrecorded(p.pc) ==> IsDelivery(p.request) && p.recorded.None?)
    && (IsDelivery(p.request) && p.recorded.None? ==> !p.wrote && (Unrecorded(p.pc) || FailedPc(p.pc)))
    && (Held(p.pc).Some? ==> p.recorded == Held(p.pc))
    && (IsDelivery(p.request) ==> p.pc.InWebhook? || Paying(p.pc) || FailedPc(p.pc) || Succeeded(p.pc))
    && (p.pc.InWebhook? ==>
          && p.request.Webhook? && p.request.parsed == Some(p.pc.wx.event)
          && (p.pc.wh.CheckSubscription? || p.pc.wh.Touch? ==> !IsInstall(p.pc.wx.event))
          && (Installing(p.pc.wh) ==> IsInstall(p.pc.wx.event)))
    && (p.pc.InPayment? ==> p.request.PaymentWebhook? || p.request.Query?)
    && (p.recorded.Some? ==> IsDelivery(p.request))
    && (Succeeded(p.pc) ==> p.recorded.Some?)
    && Subscribed(w, p.pc)
    && (p.pc == Done(Dispatched) ==> p.recorded.Some? && (p.recorded.value.0, "") in w.history.urls)
    && p.pc != Fail(DuplicateEvent)
    && (p.pc.Done? && p.pc.outcome.Verified? ==> Exclusive(p.pc.outcome.success, p.pc.outcome.failed))
  }

  /** An event held has had no effect; one let go has had its one effect, unless it failed in hand. */
  ghost predicate EffectOk(w: World, p: Proc) {
    p.recorded.Some? ==>
      w.history.effects[p.recorded.value]
      == if Held(p.pc).Some? || (FailedPc(p.pc) && MayFailInHand(p.request)) then 0 else 1
  }

  ghost predicate DeliveryOk(w: World, p: Proc) { DeliveryShape(w, p) && EffectOk(w, p) }

  /** Every event was recorded by exactly one request, and its row outlives everything but its integration. */
  ghost predicate OwnerInv(s: State) {
    var t := s.world.tables;
    && (forall k :: k in t.events ==> k in s.owner)
    && (forall k :: k in s.owner ==>
          && k.0 < t.nextId
          && (k.0 in t.integrations ==> k in t.events)
          && s.owner[k] in s.procs && s.procs[s.owner[k]].recorded == Some(k))
    && (forall p :: p in s.procs && s.procs[p].recorded.Some? ==>
          s.procs[p].recorded.value in s.owner && s.owner[s.procs[p].recorded.value] == p)
  }

  ghost predicate EffectInv(s: State) {
    var t, h := s.world.tables, s.world.history;
    && (forall k :: k in t.subscriptions ==> k in h.urls)
    && (forall k :: h.effects[k] <= 1)
    && (forall k :: k in h.effects ==> k in s.owner)
    && (forall p :: p in s.procs ==> DeliveryOk(s.world, s.procs[p]))
  }

  ghost predicate EventInv(s: State) { OwnerInv(s) && EffectInv(s) }

  // ---- The programs ----

  /** How a delivery moves: record, hold, hand on. */
  ghost predicate Flows(pc: Pc, call: Call, r: Reply, next: Pc) {
    && (Held(next).Some? ==>
          (Held(pc) == Held(next) && !IsEffect(call)) || (call == CreateEvent(Held(next).value) && r.Ack?))
    && (IsEffect(call) ==> Held(pc) == Some(call.key))
    && (Held(pc).Some? && Held(next).None? ==> IsEffect(call) || FailedPc(next))
    && (call.CreateEvent? ==> Unrecorded(pc))
    && (call.CreateEvent? && r.Ack? ==> Held(next) == Some(call.key))
    && (Unrecorded(next) ==> Unrecorded(pc) && !call.CreateEvent?)
    && (Unrecorded(pc) ==> IsRead(call) || call.CreateEvent?)
    && (Unrecorded(pc) && !(call.CreateEvent? && r.Ack?) ==> Unrecorded(next) || FailedPc(next))
    && (next.InWebhook? ==> pc.InWebhook? && next.wx == pc.wx)
    && (next.InPayment? ==> pc.InPayment?)
    && (pc.InWebhook? ==> next.InWebhook? || FailedPc(next) || Succeeded(next))
    && (Paying(pc) ==> Paying(next) || FailedPc(next) || Succeeded(next))
    && (pc.InWebhook? || pc.InPayment? || !Succeeded(next))
    && (pc.InPayment? && (pc.py.QueryKey? || pc.py.QueryVerify?) ==>
          !Succeeded(next) && (next.InPayment? ==> next.py.QueryKey? || next.py.QueryVerify?))
    && (next.InWebhook? && next.wh.Touch? ==>
          pc.wh.CheckSubscription? && pc.wh.id == next.wh.id && call == GetSubscription(next.wh.id, "") && r.FoundSubscription?)
    && (next.InWebhook? && next.wh.Hand? && !IsInstall(next.wx.event) ==> pc.wh.Touch? && pc.wh.id == next.wh.id)
    && (next.InWebhook? && (next.wh.CheckSubscription? || next.wh.Touch?) ==> !IsInstall(next.wx.event) || pc.wh.CheckSubscription?)
    && (next.InWebhook? && Installing(next.wh) ==> IsInstall(next.wx.event) || Installing(pc.wh))
    && (call.Dispatch? ==> pc.InWebhook? && (r.Ack? && FailedPc(next) ==> IsInstall(pc.wx.event)))
    && (call.DelegateWebhook? ==> pc.InPayment?)
    && (Held(pc).Some? && !IsEffect(call) ==> pc.InWebhook? && (pc.wh.CheckSubscription? || pc.wh.Touch?))
    && (next == Fail(DuplicateEvent) ==> call.CreateEvent? && r == Err(Duplicate))
    && (next.Done? && next.outcome.Verified? ==>
          call.DelegateVerify? && r == Verdict(next.outcome.success, next.outcome.failed))
    && (next == Done(Dispatched) ==> pc.InWebhook? && pc.wh.Hand? && !IsInstall(pc.wx.event))
  }

  lemma WebhookFlows(wx: WebhookCtx, wh: WebhookPc, r: Reply)
    ensures Flows(InWebhook(wx, wh), WebhookCall(wx, wh), r, WebhookResume(wx, wh, r))
  {
  }

  lemma PaymentFlows(py: PaymentPc, r: Reply)
    ensures Flows(InPayment(py), PaymentCall(py), r, PaymentResume(py, r))
  {
  }

  lemma AdminDeliversNothing(ad: AdminPc, r: Reply)
    ensures var next, call := AdminResume(ad, r), AdminCall(ad);
            && (next.InAdmin? || (next.Done? && !Succeeded(next) && !next.outcome.Verified? && next != Fail(DuplicateEvent)))
            && !IsEffect(call) && !call.CreateEvent?
  {
    hide Supported;
  }

  lemma AdminFlows(ad: AdminPc, r: Reply)
    ensures Flows(InAdmin(ad), AdminCall(ad), r, AdminResume(ad, r))
  {
    hide AdminCall, AdminResume;
    AdminDeliversNothing(ad, r);
  }

  lemma CallbackFlows(cx: CallbackCtx, cb: CallbackPc, r: Reply)
    ensures Flows(InCallback(cx, cb), CallbackCall(cx, cb), r, CallbackResume(cx, cb, r))
  {
  }

  lemma RegisterFlows(rx: RegisterCtx, rg: RegisterPc, r: Reply)
    ensures Flows(InRegister(rx, rg), RegisterCall(rx, rg), r, RegisterResume(rx, rg, r))
  {
  }

  lemma AllFlow(pc: Pc, r: Reply)
    requires !pc.Done?
    ensures Flows(pc, NextCall(pc), r, Resume(pc, r))
  {
    match pc {
      case InCallback(cx, cb) => CallbackFlows(cx, cb, r);
      case InRegister(rx, rg) => RegisterFlows(rx, rg, r);
      case InWebhook(wx, wh) => WebhookFlows(wx, wh, r);
      case InPayment(py) => PaymentFlows(py, r);
      case InAdmin(ad) => AdminFlows(ad, r);
    }
  }

  // ---- The calls ----

  ghost predicate CallDelivers(w: World, call: Call, r: Reply, w': World) {
    var t, t', h, h' := w.tables, w'.tables, w.history, w'.history;
    && (IsRead(call) ==> w' == w)
    && h'.effects == (if IsEffect(call) then h.effects + multiset{call.key} else h.effects)
    && h.urls <= h'.urls
    && ((forall k :: k in t.subscriptions ==> k in h.urls) ==> forall k :: k in t'.subscriptions ==> k in h'.urls)
    && (call.GetSubscription? && r.FoundSubscription? ==> (call.id, call.endpoint) in t.subscriptions)
    && (call.CreateEvent? && !r.Ack? ==> w' == w && r != Err(Duplicate))
    && (call.Dispatch? ==> r.Ack?)
    && (call.DelegateVerify? && r.Verdict? ==> Exclusive(r.success, r.failed))
    && (call.CreateEvent? && r.Ack? ==>
          call.key !in t.events && call.key.0 in t.integrations && t'.events == t.events + {call.key})
    && (!call.CreateEvent? ==> t'.events <= t.events)
  }

  lemma AnswersDeliver(w: World, call: Call, r: Reply, w': World)
    requires Answers(w, call, r, w')
    ensures CallDelivers(w, call, r, w')
  {
    hide WithoutIntegration, TokenRow, LogKey, StateWrite, TokenWrite, ConfigWrite;
    if IsIntegrationWrite(call) {
      IntegrationsDeliver(w, call, r, w');
    } else if IsWebhookWrite(call) {
      WebhooksDeliver(w, call, r, w');
    } else {
      CallFrames(w, call, r, w');
      FramesDeliver(w, call, r, w');
      if call.GetSubscription? || call.DelegateVerify? {
        assert AnswersRead(w, call, r);
      } else if call.Dispatch? {
        assert OutsideWrite(w, call, r, w');
      }
    }
  }

  lemma FramesDeliver(w: World, call: Call, r: Reply, w': World)
    requires !IsIntegrationWrite(call) && !IsWebhookWrite(call) && Frames(w, call, w')
    requires IsRead(call) ==> w' == w
    requires call.GetSubscription? || call.DelegateVerify? ==> AnswersRead(w, call, r)
    requires call.Dispatch? ==> r.Ack?
    ensures CallDelivers(w, call, r, w')
  {
  }

  lemma IntegrationsDeliver(w: World, call: Call, r: Reply, w': World)
    requires IsIntegrationWrite(call) && (w' == AfterFault(w, call) || IntegrationWrite(w, call, r, w'))
    ensures CallDelivers(w, call, r, w')
  {
  }

  lemma WebhooksDeliver(w: World, call: Call, r: Reply, w': World)
    requires IsWebhookWrite(call) && ((Fault(r) && w' == AfterFault(w, call)) || WebhookWrite(w, call, r, w'))
    ensures CallDelivers(w, call, r, w')
  {
  }

  // ---- One step ----

  lemma ActorShapes(w: World, p: Proc, call: Call, r: Reply, w': World, q: Proc)
    requires DeliveryShape(w, p) && !p.pc.Done? && Flows(p.pc, call, r, q.pc) && CallDelivers(w, call, r, w')
    requires q.request == p.request
    requires q.recorded == if call.CreateEvent? && r.Ack? then Some(call.key) else p.recorded
    requires q.wrote == (p.wrote || w'.tables != w.tables)
    requires forall k :: k in w.tables.subscriptions ==> k in w.history.urls
    ensures DeliveryShape(w', q)
  {
  }

  lemma ActorEffects(w: World, p: Proc, call: Call, r: Reply, w': World, q: Proc)
    requires DeliveryOk(w, p) && !p.pc.Done? && Flows(p.pc, call, r, q.pc) && CallDelivers(w, call, r, w')
    requires q.request == p.request
    requires q.recorded == if call.CreateEvent? && r.Ack? then Some(call.key) else p.recorded
    requires call.CreateEvent? && r.Ack? ==> w.history.effects[call.key] == 0
    ensures EffectOk(w', q)
  {
  }

  lemma OthersDeliver(s: State, pid: nat, call: Call, r: Reply, w': World)
    requires EventInv(s) && pid in s.procs && CallDelivers(s.world, call, r, w')
    requires IsEffect(call) ==> Held(s.procs[pid].pc) == Some(call.key)
    ensures forall q :: q in s.procs && q != pid ==> DeliveryOk(w', s.procs[q])
  {
  }

  lemma EffectsStayRare(s: State, pid: nat, call: Call, r: Reply, w': World)
    requires EventInv(s) && pid in s.procs && CallDelivers(s.world, call, r, w')
    requires IsEffect(call) ==> Held(s.procs[pid].pc) == Some(call.key)
    ensures forall k :: w'.history.effects[k] <= 1
    ensures forall k :: k in w'.history.effects ==> k in s.owner
  {
  }

  /** No row is forgotten while its integration lives, and no old id comes back. */
  ghost predicate RowsPersist(t: Tables, t': Tables) {
    && t.nextId <= t'.nextId
    && (forall i :: i in t'.integrations && i < t.nextId ==> i in t.integrations)
    && (forall k :: k in t.events && k.0 in t'.integrations ==> k in t'.events)
  }

  lemma OwnersStay(s: State, pid: nat, s': State)
    requires OwnerInv(s) && RowsPersist(s.world.tables, s'.world.tables)
    requires s'.world.tables.events <= s.world.tables.events
    requires pid in s.procs && pid in s'.procs && s'.procs == s.procs[pid := s'.procs[pid]] && s'.owner == s.owner
    requires s'.procs[pid].recorded == s.procs[pid].recorded
    ensures OwnerInv(s')
  {
  }

  /** An event that goes in was never recorded before: its row would still be there. */
  lemma OwnerIsNew(s: State, pid: nat, key: EventKey, s': State)
    requires OwnerInv(s) && RowsPersist(s.world.tables, s'.world.tables)
    requires key !in s.world.tables.events && key.0 in s.world.tables.integrations && key.0 < s.world.tables.nextId
    requires s'.world.tables.events == s.world.tables.events + {key}
    requires pid in s.procs && pid in s'.procs && s'.procs == s.procs[pid := s'.procs[pid]] && s'.owner == s.owner[key := pid]
    requires s.procs[pid].recorded.None? && s'.procs[pid].recorded == Some(key)
    ensures key !in s.owner && OwnerInv(s')
  {
  }

  /** One call of one delivery, given what its program and the call do. */
  ghost predicate Delivers(s: State, pid: nat, call: Call, r: Reply, s': State) {
    && pid in s.procs && pid in s'.procs && !s.procs[pid].pc.Done?
    && var p, q := s.procs[pid], s'.procs[pid];
    && Flows(p.pc, call, r, q.pc)
    && q.request == p.request
    && q.recorded == (if call.CreateEvent? && r.Ack? then Some(call.key) else p.recorded)
    && q.wrote == (p.wrote || s'.world.tables != s.world.tables)
    && s'.procs == s.procs[pid := q]
    && s'.owner == (if call.CreateEvent? && r.Ack? then s.owner[call.key := pid] else s.owner)
    && CallDelivers(s.world, call, r, s'.world)
    && RowsPersist(s.world.tables, s'.world.tables)
  }

  lemma ActKeepsOwners(s: State, pid: nat, call: Call, r: Reply, s': State)
    requires SchemaInv(s.world.tables) && EventInv(s) && Delivers(s, pid, call, r, s')
    ensures OwnerInv(s')
    ensures call.CreateEvent? && r.Ack? ==> call.key !in s.owner
  {
    if call.CreateEvent? && r.Ack? {
      OwnerIsNew(s, pid, call.key, s');
    } else {
      OwnersStay(s, pid, s');
    }
  }

  lemma CountersStayRare(s: State, pid: nat, call: Call, r: Reply, s': State)
    requires EventInv(s) && Delivers(s, pid, call, r, s')
    ensures forall k :: k in s'.world.tables.subscriptions ==> k in s'.world.history.urls
    ensures forall k :: s'.world.history.effects[k] <= 1
    ensures forall k :: k in s'.world.history.effects ==> k in s'.owner
  {
    hide DeliveryOk, RowsPersist;
    EffectsStayRare(s, pid, call, r, s'.world);
  }

  lemma ProcsDeliver(s: State, pid: nat, call: Call, r: Reply, s': State)
    requires EventInv(s) && Delivers(s, pid, call, r, s')
    requires call.CreateEvent? && r.Ack? ==> call.key !in s.owner
    ensures forall p :: p in s'.procs ==> DeliveryOk(s'.world, s'.procs[p])
  {
    hide DeliveryShape, EffectOk, RowsPersist;
    OthersDeliver(s, pid, call, r, s'.world);
    ActorShapes(s.world, s.procs[pid], call, r, s'.world, s'.procs[pid]);
    ActorEffects(s.world, s.procs[pid], call, r, s'.world, s'.procs[pid]);
  }

  lemma ActKeepsEffects(s: State, pid: nat, call: Call, r: Reply, s': State)
    requires EventInv(s) && Delivers(s, pid, call, r, s')
    requires call.CreateEvent? && r.Ack? ==> call.key !in s.owner
    ensures EffectInv(s')
  {
    hide Delivers, DeliveryOk, OwnerInv;
    CountersStayRare(s, pid, call, r, s');
    ProcsDeliver(s, pid, call, r, s');
  }

  lemma ActKeepsEvents(s: State, pid: nat, r: Reply, s': State)
    requires SchemaInv(s.world.tables) && EventInv(s) && Step(s, Act(pid, r), s')
    ensures EventInv(s')
  {
    var p, call := s.procs[pid], NextCall(s.procs[pid].pc);
    AllFlow(p.pc, r);
    AnswersDeliver(s.world, call, r, s'.world);
    CallTablesEvolve(s.world, call, r, s'.world);
    assert Delivers(s, pid, call, r, s');
    ActKeepsOwners(s, pid, call, r, s');
    ActKeepsEffects(s, pid, call, r, s');
  }

  lemma ArrivedDelivers(w: World, settings: Settings, req: Request)
    ensures DeliveryOk(w, Arrived(settings, req)) && Arrived(settings, req).recorded.None?
  {
  }

  lemma ArrivalKeepsEvents(s: State, pid: nat, req: Request, s': State)
    requires EventInv(s) && pid !in s.procs && s'.world == s.world && s'.owner == s.owner
    requires s'.procs == s.procs[pid := Arrived(s.settings, req)]
    ensures EventInv(s')
  {
    ArrivedDelivers(s.world, s.settings, req);
    NewcomerKeepsEvents(s, pid, Arrived(s.settings, req), s');
  }

  lemma NewcomerKeepsEvents(s: State, pid: nat, p: Proc, s': State)
    requires EventInv(s) && pid !in s.procs && s'.world == s.world && s'.owner == s.owner
    requires s'.procs == s.procs[pid := p] && DeliveryOk(s.world, p) && p.recorded.None?
    ensures EventInv(s')
  {
  }

  lemma TickKeepsEvents(s: State, now: int)
    requires EventInv(s)
    ensures EventInv(s.(world := s.world.(clock := now)))
  {
  }

  lemma StepKeepsEvents(s: State, l: Label, s': State)
    requires SchemaInv(s.world.tables) && EventInv(s) && Step(s, l, s')
    ensures EventInv(s')
  {
    match l {
      case Arrive(pid, req) => ArrivalKeepsEvents(s, pid, req, s');
      case Act(pid, r) => ActKeepsEvents(s, pid, r, s');
      case Tick(now) => TickKeepsEvents(s, now);
    }
  }
}
