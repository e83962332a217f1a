/** The main results over all runs: any requests, any interleaving of their calls, any failures, any crash. */
module Runs {
  import opened Schema
  import opened Calls
  import opened Program
  import opened Machine
  import opened OauthStates
  import opened Deliveries
  import opened Subscriptions
  import opened Registrations
  import opened CodeExchange
  import opened Attempts

  ghost predicate Inv(base: map<string, ProviderConfig>, s: State) {
    SchemaInv(s.world.tables) && OauthInv(s) && EventInv(s) && UrlInv(s) && RegisterInv(base, s) && ExchangeInv(s)
    && AttemptInv(s)
  }

  lemma StepKeepsInv(base: map<string, ProviderConfig>, s: State, l: Label, s': State)
    requires Inv(base, s) && Step(s, l, s')
    ensures Inv(base, s')
  {
    StepKeepsSchema(s, l, s');
    StepKeepsOauth(s, l, s');
    StepKeepsEvents(s, l, s');
    StepKeepsUrls(s, l, s');
    StepKeepsRegister(base, s, l, s');
    StepKeepsExchange(s, l, s');
    StepKeepsAttempts(base, s, l, s');
  }

  lemma InitiallyInv(s: State)
    requires Initial(s)
    ensures Inv(s.world.upstream.configs, s)
  {
  }

  /** HighLevel's configurations before the first request. */
  function Base(r: Run): map<string, ProviderConfig> { First(r).world.upstream.configs }

  lemma {:induction false} RunKeepsInv(r: Run)
    requires Valid(r)
    ensures Inv(Base(r), Last(r))
  {
    hide Step, Inv, Initial;
    if r.Then? {
      RunKeepsInv(r.before);
      StepKeepsInv(Base(r), Last(r.before), r.step, r.after);
    } else {
      InitiallyInv(Last(r));
    }
  }

  lemma {:induction false} RunKeepsOauth(r: Run)
    requires Valid(r)
    ensures OauthInv(Last(r))
  {
    RunKeepsInv(r);
  }

  lemma {:induction false} RunKeepsEvents(r: Run)
    requires Valid(r)
    ensures EventInv(Last(r)) && UrlInv(Last(r))
  {
    RunKeepsInv(r);
  }

  lemma {:induction false} RunKeepsRegister(r: Run)
    requires Valid(r)
    ensures RegisterInv(Base(r), Last(r))
  {
    RunKeepsInv(r);
  }

  lemma {:induction false} RunKeepsExchange(r: Run)
    requires Valid(r)
    ensures ExchangeInv(Last(r))
  {
    RunKeepsInv(r);
  }

  lemma {:induction false} RunKeepsAttempts(r: Run)
    requires Valid(r)
    ensures AttemptInv(Last(r))
  {
    RunKeepsInv(r);
  }

  // ---- Runs and their continuations ----

  predicate Continues(r: Run, r': Run) {
    r == r' || (r'.Then? && Continues(r, r'.before))
  }

  /** What later steps leave of a state: finished requests, the owners of events, ids, registered keys. */
  ghost predicate Later(s: State, s': State) {
    && IdsPersist(s.world, s'.world)
    && (forall p :: p in s.procs ==> p in s'.procs && s'.procs[p].request == s.procs[p].request
                                     && (s.procs[p].pc.Done? ==> s'.procs[p] == s.procs[p]))
    && (forall k :: k in s.owner ==> k in s'.owner && s'.owner[k] == s.owner[k])
  }

  lemma ActPersists(w: World, call: Call, r: Reply, w': World)
    requires SchemaInv(w.tables) && Answers(w, call, r, w')
    ensures IdsPersist(w, w')
  {
    CallTablesEvolve(w, call, r, w');
    CallOutsideEvolves(w, call, r, w');
  }

  lemma ActIsLater(s: State, pid: nat, r: Reply, s': State)
    requires SchemaInv(s.world.tables) && OwnerInv(s) && Step(s, Act(pid, r), s')
    ensures Later(s, s')
  {
    hide Answers, Resume, NextCall, SchemaInv, IdsPersist, OwnerInv;
    var call := NextCall(s.procs[pid].pc);
    ActPersists(s.world, call, r, s'.world);
    if call.CreateEvent? && r.Ack? { RecordedOnce(s, pid, r, s'); }
  }

  lemma StepIsLater(s: State, l: Label, s': State)
    requires SchemaInv(s.world.tables) && OwnerInv(s) && Step(s, l, s')
    ensures Later(s, s')
  {
    hide Answers, Resume, NextCall, SchemaInv, Start;
    if l.Act? { ActIsLater(s, l.pid, l.reply, s'); }
  }

  /** An insert that succeeds is for an event no request had recorded. */
  lemma RecordedOnce(s: State, pid: nat, r: Reply, s': State)
    requires SchemaInv(s.world.tables) && OwnerInv(s) && Step(s, Act(pid, r), s')
    requires NextCall(s.procs[pid].pc).CreateEvent? && r.Ack?
    ensures NextCall(s.procs[pid].pc).key !in s.owner
  {
    var call := NextCall(s.procs[pid].pc);
    AnswersDeliver(s.world, call, r, s'.world);
  }

  lemma LaterComposes(s: State, m: State, s': State)
    requires SchemaInv(s.world.tables) && Later(s, m) && Later(m, s')
    ensures Later(s, s')
  {
  }

  lemma {:induction false} ContinuationIsLater(r: Run, r': Run)
    requires Valid(r') && Continues(r, r')
    ensures Valid(r) && Later(Last(r), Last(r'))
  {
    if r != r' {
      ContinuationIsLater(r, r'.before);
      RunKeepsInv(r'.before);
      StepIsLater(Last(r'.before), r'.step, r'.after);
      RunKeepsInv(r);
      LaterComposes(Last(r), Last(r'.before), r'.after);
    }
  }

  /** An id seen once names the same client, platform and location for ever, or nothing. */
  lemma {:induction false} IdsAreNeverReused(r: Run, r': Run, i: Id)
    requires Valid(r') && Continues(r, r') && i < Last(r).world.tables.nextId && i in Last(r').world.tables.integrations
    ensures var t, t' := Last(r).world.tables, Last(r').world.tables;
            i in t.integrations && t'.integrations[i] == t.integrations[i].(status := t'.integrations[i].status)
  {
    ContinuationIsLater(r, r');
  }

  // ---- OAuth states ----

  /** No two callbacks ever consume one state; only a callback that consumed its state is inside ProcessCallback,
      and there it works for exactly the client and platform the state was issued to; and it consumed the state
      less than the lifetime plus the clock skew after it was issued. */
  lemma {:induction false} StatesAreSingleUse(r: Run)
    requires Valid(r)
    ensures var s, h := Last(r), Last(r).world.history;
            && (forall p, q :: p in s.procs && q in s.procs && p != q
                  && s.procs[p].entered.Some? && s.procs[q].entered.Some?
                  ==> s.procs[p].entered != s.procs[q].entered)
            && (forall p :: p in s.procs && Stateful(s.procs[p].request) && Context(s.procs[p].pc).Some? ==>
                  var state := s.procs[p].request.state;
                  && s.procs[p].entered == Some(state) && state in h.issued
                  && Context(s.procs[p].pc) == Some(Pair(h.issued[state].clientId, h.issued[state].platformId)))
            && (forall p :: p in s.procs && s.procs[p].entered.Some? ==>
                  && Stateful(s.procs[p].request)
                  && var state := s.procs[p].request.state;
                  && s.procs[p].entered == Some(state) && state in h.issued && s.procs[p].consumeTime.Some?
                  && s.procs[p].consumeTime.value < h.issued[state].issuedAt + 600 + s.world.skew)
  {
    RunKeepsOauth(r);
  }

  /** "Already used" means some consume of it succeeded; "expired" means it had expired when this callback's
      consume ran; "invalid", unless a statement failed, means never issued or expired (and deleted). */
  lemma {:induction false} StateErrorsAreSound(r: Run)
    requires Valid(r)
    ensures var s, h := Last(r), Last(r).world.history;
            forall p :: p in s.procs && Stateful(s.procs[p].request) ==>
              var proc, state := s.procs[p], s.procs[p].request.state;
              && (proc.pc == Fail(StateConsumed) ==> state in h.accepted)
              && (proc.pc == Fail(StateExpired) ==>
                    proc.consumeTime.Some? && state in h.issued && h.issued[state].expiresAt <= proc.consumeTime.value)
              && (proc.pc == Fail(InvalidState) && !proc.faulted ==>
                    state in h.issued ==> h.issued[state].expiresAt <= s.world.clock)
  {
    RunKeepsOauth(r);
  }

  // ---- Webhook deliveries ----

  /** Over marketplace dispatches and payment delegations together, an event has at most one effect; at most one
      delivery records it; and a delivery that does not record one changes no table. */
  lemma {:induction false} OneEffectPerEvent(r: Run)
    requires Valid(r)
    ensures var s := Last(r);
            && (forall k :: s.world.history.effects[k] <= 1)
            && (forall p, q :: p in s.procs && q in s.procs && s.procs[p].recorded.Some?
                               && s.procs[p].recorded == s.procs[q].recorded
                  ==> p == q)
            && (forall p :: p in s.procs && IsDelivery(s.procs[p].request) && s.procs[p].recorded.None? ==> !s.procs[p].wrote)
  {
    RunKeepsEvents(r);
  }

  /** A replay is not acknowledged as the duplicate it is: the empty RETURNING surfaces as an internal error. */
  lemma ReplayIsInternal(w: World, pc: Pc, r: Reply, w': World)
    requires (pc.InWebhook? && pc.wh.Record?) || (pc.InPayment? && pc.py.PayRecord?)
    requires Answers(w, NextCall(pc), r, w') && NextCall(pc).key in w.tables.events
    ensures w' == w && Resume(pc, r) == Fail(Internal)
  {
    assert NextCall(pc).CreateEvent?;
  }

  /** Every recorded event has one recording delivery. It has had no downstream effect exactly while that delivery
      still holds it, or stopped holding it, or failed in hand: a marketplace event other than INSTALL whose
      subscription was missing or could not be touched. Otherwise it has had exactly one. */
  lemma {:induction false} LostEvents(r: Run)
    requires Valid(r)
    ensures var s := Last(r);
            forall k :: k in s.owner ==>
              && s.owner[k] in s.procs && s.procs[s.owner[k]].recorded == Some(k)
              && var p := s.procs[s.owner[k]];
              && (s.world.history.effects[k] == 0 <==> Held(p.pc) == Some(k) || (FailedPc(p.pc) && MayFailInHand(p.request)))
              && (s.world.history.effects[k] != 0 ==> s.world.history.effects[k] == 1)
  {
    RunKeepsEvents(r);
  }

  /** No request ever ends in the documented duplicate: a replay is never recognised as one. */
  lemma {:induction false} NoDuplicateIsReported(r: Run)
    requires Valid(r)
    ensures forall p :: p in Last(r).procs ==> Last(r).procs[p].pc != Fail(DuplicateEvent)
  {
    RunKeepsEvents(r);
  }

  /** Across both services no query is ever answered with success and failure at once. */
  lemma {:induction false} QueriesGetOneVerdict(r: Run, p: nat, success: bool, failed: bool)
    requires Valid(r) && p in Last(r).procs && Last(r).procs[p].pc == Done(Verified(success, failed))
    ensures !(success && failed)
  {
    RunKeepsEvents(r);
    assert DeliveryOk(Last(r).world, Last(r).procs[p]);
  }

  /** Nobody but the delivery that recorded an event ever hands it on. */
  lemma EffectNeedsItsOwner(s: State, l: Label, s': State, k: EventKey)
    requires EventInv(s) && Step(s, l, s') && s'.world.history.effects[k] != s.world.history.effects[k]
    ensures k in s.owner && l.Act? && l.pid == s.owner[k] && Held(s.procs[l.pid].pc) == Some(k)
  {
    if l.Act? {
      var call := NextCall(s.procs[l.pid].pc);
      CallFrames(s.world, call, l.reply, s'.world);
      AllFlow(s.procs[l.pid].pc, l.reply);
    }
  }

  /** Once the delivery that recorded an event is over, no later delivery is ever dispatched for it. */
  lemma {:induction false} LostForGood(r: Run, r': Run, k: EventKey)
    requires Valid(r') && Continues(r, r') && k in Last(r).owner && Last(r).owner[k] in Last(r).procs
    requires Last(r).procs[Last(r).owner[k]].pc.Done?
    ensures Last(r').world.history.effects[k] == Last(r).world.history.effects[k]
  {
    if r != r' {
      LostForGood(r, r'.before, k);
      ContinuationIsLater(r, r'.before);
      RunKeepsInv(r'.before);
      if r'.after.world.history.effects[k] != Last(r'.before).world.history.effects[k] {
        EffectNeedsItsOwner(Last(r'.before), r'.step, r'.after, k);
      }
    }
  }

  /** A marketplace event other than INSTALL is dispatched only where someone registered an empty callback URL. */
  lemma {:induction false} OnlyEmptyUrlsDispatch(r: Run)
    requires Valid(r)
    ensures var s := Last(r);
            forall p :: p in s.procs && s.procs[p].pc == Done(Dispatched) ==>
              s.procs[p].recorded.Some? && Asked(s, s.procs[p].recorded.value.0, "")
  {
    RunKeepsEvents(r);
  }

  // ---- Provider configurations ----

  /** Whatever the order of INSTALL events and registrations: a finished one left the integration its one row;
      the key is non-empty exactly when a registration wrote; and the row is what HighLevel holds for its
      location if one did, our own settings otherwise. */
  lemma {:induction false} ConfigsConverge(r: Run)
    requires Valid(r)
    ensures var s, t, h := Last(r), Last(r).world.tables, Last(r).world.history;
            && (forall p :: p in s.procs && s.procs[p].pc.Done? && s.procs[p].pc.outcome.Installed? ==>
                  var i := s.procs[p].pc.outcome.id;
                  i in t.integrations ==> i in t.configs)
            && (forall p :: p in s.procs && s.procs[p].pc.Done? && s.procs[p].pc.outcome.Registered? ==>
                  var i := s.procs[p].pc.outcome.id;
                  i in t.integrations ==> i in t.configs && t.configs[i].apiKey != "")
            && (forall p, res :: p in s.procs && s.procs[p].pc == Done(CallbackDone(res)) && res.registered ==>
                  res.id in t.integrations ==> res.id in t.configs && t.configs[res.id].apiKey != "")
            && (forall i :: i in t.configs ==>
                  && (t.configs[i].apiKey != "" <==> i in h.lastKey)
                  && var loc := t.configs[i].config.locationId;
                     t.configs[i].config == if i in h.lastKey then Canon(Base(r), s.settings, loc) else OwnConfig(s.settings, loc))
            && (forall l :: l in s.world.upstream.configs ==> s.world.upstream.configs[l] == Canon(Base(r), s.settings, l))
  {
    RunKeepsRegister(r);
  }

  /** A row stays while its integration does, and a key never becomes empty again. */
  lemma {:induction false} ConfigsNeverRegress(r: Run, r': Run, i: Id)
    requires Valid(r') && Continues(r, r') && i in Last(r).world.tables.configs && i in Last(r').world.tables.integrations
    ensures i in Last(r').world.tables.configs
    ensures Last(r).world.tables.configs[i].apiKey != "" ==> Last(r').world.tables.configs[i].apiKey != ""
  {
    ContinuationIsLater(r, r');
    RunKeepsRegister(r);
    RunKeepsInv(r');
  }

  lemma WebhooksInsertOnly(wx: WebhookCtx, wh: WebhookPc)
    ensures var call := WebhookCall(wx, wh);
            !IsIntegrationWrite(call) && !call.UpdateConfig?
  {
  }

  /** No step of a webhook delivery alters or removes an existing configuration. */
  lemma {:induction false} InstallLeavesRowsAlone(r: Run, i: Id)
    requires Valid(r) && r.Then? && r.step.Act? && r.step.pid in Last(r.before).procs
    requires Last(r.before).procs[r.step.pid].pc.InWebhook? && i in Last(r.before).world.tables.configs
    ensures i in r.after.world.tables.configs
            && r.after.world.tables.configs[i] == Last(r.before).world.tables.configs[i]
  {
    var s, pc := Last(r.before), Last(r.before).procs[r.step.pid].pc;
    RunKeepsSchema(r.before);
    WebhooksInsertOnly(pc.wx, pc.wh);
    InsertsLeaveRowsAlone(s.world, NextCall(pc), r.step.reply, r.after.world);
  }

  lemma InsertsLeaveRowsAlone(w: World, call: Call, r: Reply, w': World)
    requires SchemaInv(w.tables) && Answers(w, call, r, w') && !IsIntegrationWrite(call) && !call.UpdateConfig?
    ensures forall i :: i in w.tables.configs ==> i in w'.tables.configs && w'.tables.configs[i] == w.tables.configs[i]
  {
    AnswersRegister(w, call, r, w');
    CallFrames(w, call, r, w');
  }

  /** However many attempts failed before, and wherever, the one that gets through leaves the same row up to the
      key: HighLevel's configuration for the location, which is what an unbroken first attempt would have left. */
  lemma {:induction false} RegistrationReachesCanon(r: Run)
    requires Valid(r) && r.Then? && r.step.Act? && r.step.pid in Last(r.before).procs
    requires Persisting(Last(r.before).procs[r.step.pid].pc) && r.step.reply.FoundConfig?
    ensures var rx, t := Last(r.before).procs[r.step.pid].pc.rx, r.after.world.tables;
            && rx.id in t.configs && rx.apiKey.Some?
            && t.configs[rx.id] == ConfigRow(Canon(Base(r), r.after.settings, rx.loc), rx.apiKey.value)
            && rx.loc in r.after.world.upstream.configs && r.after.world.upstream.configs[rx.loc] == t.configs[rx.id].config
  {
    hide OauthInv, EventInv, UrlInv, ExchangeInv, AttemptInv;
    var s, call := Last(r.before), NextCall(Last(r.before).procs[r.step.pid].pc);
    RunKeepsInv(r.before);
    AnswersRegister(s.world, call, r.step.reply, r.after.world);
    AllRegisterFlows(s.procs[r.step.pid].pc, r.step.reply);
  }

  /** Retrying is safe: in every interleaving, and whatever earlier attempts left behind, each call of a registration
      brings it nearer to its end, at most seven calls away, and it fails exactly at a setback. What exists already,
      here or at HighLevel, is none. */
  lemma {:induction false} RegistrationsFailOnlyBySetback(r: Run, pid: nat)
    requires Valid(r) && r.Then? && r.step.Act? && r.step.pid == pid && pid in Last(r.before).procs && pid in r.after.procs
    requires Last(r.before).procs[pid].pc.InRegister?
    ensures var pc := Last(r.before).procs[pid].pc;
            MovesOn(Last(r.before).world, pc.rx, pc.rg, r.step.reply, r.after.procs[pid].pc)
  {
    hide Answers, MovesOn, RegisterResume;
    var s, pc := Last(r.before), Last(r.before).procs[pid].pc;
    RunKeepsSchema(r.before);
    RunKeepsRegister(r.before);
    assert ResolvedOk(s.world, s.procs[pid]);
    CallMovesOn(s.world, pc.rx, pc.rg, r.step.reply, r.after.world);
  }

  // ---- Best effort ----

  /** Registration inside a callback is best effort, and honest: it is reported exactly if this callback wrote a
      configuration, for its own integration and under its own key; and a callback or registration that failed has
      written none. */
  lemma {:induction false} CallbackIsBestEffort(r: Run)
    requires Valid(r)
    ensures var s, h := Last(r), Last(r).world.history;
            && (forall p, res :: p in s.procs && s.procs[p].pc == Done(CallbackDone(res)) ==>
                  var key := DrawnKey(s.procs[p].request);
                  && (res.registered <==> key.Some? && key.value in h.written)
                  && (res.registered ==> h.written[key.value] == res.id))
            && (forall p, k :: p in s.procs && FailedPc(s.procs[p].pc) && k in Keys(s.procs[p].request) ==> k !in h.written)
  {
    RunKeepsAttempts(r);
    forall p, res | p in Last(r).procs && Last(r).procs[p].pc == Done(CallbackDone(res)) ensures AttemptOk(Last(r).world, Last(r).procs[p]) {
    }
  }

  /** The one step in which a callback or registration changes configurations is its last, and it reports success. */
  lemma {:induction false} ConfigsAreWrittenLast(r: Run, pid: nat)
    requires Valid(r) && r.Then? && r.step.Act? && r.step.pid == pid && pid in Last(r.before).procs && pid in r.after.procs
    requires Last(r.before).procs[pid].pc.InCallback? || Last(r.before).procs[pid].pc.InRegister?
    requires r.after.world.tables.configs != Last(r.before).world.tables.configs
    ensures var p, t' := r.after.procs[pid], r.after.world.tables;
            && Wrote(p.pc).Some? && DrawnKey(p.request).Some? && Wrote(p.pc).value in t'.configs
            && t'.configs == Last(r.before).world.tables.configs[Wrote(p.pc).value := t'.configs[Wrote(p.pc).value]]
            && t'.configs[Wrote(p.pc).value].apiKey == DrawnKey(p.request).value
  {
    hide Answers, Resume, NextCall, AttemptFlows, CallStores, Registrations.RegisterFlows, CallRegisters;
    var s, p := Last(r.before), Last(r.before).procs[pid];
    var call, next := NextCall(p.pc), Resume(p.pc, r.step.reply);
    RunKeepsSchema(r.before);
    RunKeepsRegister(r.before);
    assert RegisterOk(s.settings, s.world, p);
    AllAttempt(p.pc, r.step.reply);
    AllRegisterFlows(p.pc, r.step.reply);
    AnswersStore(s.world, call, r.step.reply, r.after.world);
    AnswersRegister(s.world, call, r.step.reply, r.after.world);
    ConnectingWrites(s.settings, s.world, p, call, r.step.reply, r.after.world, next);
  }

  lemma StoringCalls(pc: Pc)
    requires Storing(pc)
    ensures NextCall(pc) == CreateToken(pc.cb.id, pc.cb.resp)
  {
  }

  lemma InsertIsTimely(w: World, id: Id, resp: TokenResponse, r: Reply, w': World)
    requires Answers(w, CreateToken(id, resp), r, w') && r.FoundToken?
    ensures FromResponse(r.token, resp) && NearNow(w, r.token.expiresAt - resp.expiresIn)
  {
    assert TokenWrite(w, CreateToken(id, resp), r, w');
  }

  /** The one step in which a callback changes tokens finds none for its integration and stores what HighLevel said,
      to expire when HighLevel said, counted from the application's now. */
  lemma {:induction false} TokensAreStoredOnce(r: Run, pid: nat)
    requires Valid(r) && r.Then? && r.step.Act? && r.step.pid == pid && pid in Last(r.before).procs && pid in r.after.procs
    requires Last(r.before).procs[pid].pc.InCallback? || Last(r.before).procs[pid].pc.InRegister?
    requires r.after.world.tables.tokens != Last(r.before).world.tables.tokens
    ensures var pc, t, t' := Last(r.before).procs[pid].pc, Last(r.before).world.tables, r.after.world.tables;
            && Storing(pc) && Stored(r.after.procs[pid].pc) == Some(pc.cb.id)
            && pc.cb.id !in t.tokens && pc.cb.id in t'.tokens
            && t'.tokens == t.tokens[pc.cb.id := t'.tokens[pc.cb.id]]
            && FromResponse(t'.tokens[pc.cb.id], pc.cb.resp)
            && NearNow(Last(r.before).world, t'.tokens[pc.cb.id].expiresAt - pc.cb.resp.expiresIn)
  {
    hide Answers, Resume, NextCall, AttemptFlows, CallStores;
    var s, pc := Last(r.before), Last(r.before).procs[pid].pc;
    RunKeepsSchema(r.before);
    AllAttempt(pc, r.step.reply);
    AnswersStore(s.world, NextCall(pc), r.step.reply, r.after.world);
    ConnectingStores(s.world, pc, NextCall(pc), r.step.reply, r.after.world, Resume(pc, r.step.reply));
    StoringCalls(pc);
    InsertIsTimely(s.world, pc.cb.id, pc.cb.resp, r.step.reply, r.after.world);
  }

  /** At most one callback ever gets past its token insert for an integration, so registration inside callbacks is
      attempted at most once per integration. */
  lemma {:induction false} OneAttemptPerIntegration(r: Run, p: nat, q: nat)
    requires Valid(r) && p in Last(r).procs && q in Last(r).procs
    requires Stored(Last(r).procs[p].pc).Some? && Stored(Last(r).procs[p].pc) == Stored(Last(r).procs[q].pc)
    ensures p == q
  {
    RunKeepsAttempts(r);
  }

  /** A key is retired only by a direct registration of its integration. Without those - and the service has no
      handler for them - the first key an integration gets is its last. */
  lemma {:induction false} OnlyRegisterRotatesKeys(r: Run, key: string)
    requires Valid(r) && Retired(Last(r), key)
    ensures var s := Last(r);
            exists p :: p in s.procs && s.procs[p].request.Register? && s.procs[p].pc == Done(Registered(s.world.history.written[key]))
  {
    RunKeepsAttempts(r);
    RunKeepsRegister(r);
    RotatedByRegister(Last(r), key, Last(r).world.history.lastKey[Last(r).world.history.written[key]]);
  }

  // ---- API keys ----

  /** A key is found only as the last one registered for its integration, and for no other. */
  lemma {:induction false} KeyOpensItsIntegration(r: Run, key: string, i: Id)
    requires Valid(r) && !Blank(key)
    requires i in Last(r).world.tables.configs && Last(r).world.tables.configs[i].apiKey == key
    ensures var h := Last(r).world.history;
            i in h.lastKey && h.lastKey[i] == key && key in h.written && h.written[key] == i
  {
    RunKeepsRegister(r);
    assert Blank("");
  }

  lemma QueryChecksKey(w: World, q: QueryRequest, r: Reply, w': World)
    requires Answers(w, NextCall(InPayment(QueryKey(q))), r, w') && Resume(InPayment(QueryKey(q)), r) == InPayment(QueryVerify)
    ensures exists i :: i in w.tables.configs && w.tables.configs[i].apiKey == q.apiKey
  {
  }

  /** A query is passed on only with the last key registered for some integration. */
  lemma {:induction false} QueriesNeedACurrentKey(r: Run, q: QueryRequest)
    requires Valid(r) && r.Then? && r.step.Act? && r.step.pid in Last(r.before).procs && r.step.pid in r.after.procs
    requires Last(r.before).procs[r.step.pid].pc == InPayment(QueryKey(q)) && r.after.procs[r.step.pid].pc == InPayment(QueryVerify)
    ensures var h := Last(r.before).world.history;
            exists i :: i in h.lastKey && h.lastKey[i] == q.apiKey && q.apiKey in h.written && h.written[q.apiKey] == i
  {
    hide Answers, NextCall, Resume;
    var s := Last(r.before);
    RunKeepsRegister(r.before);
    assert CarriesOk(s.settings, s.world, s.procs[r.step.pid]);
    QueryChecksKey(s.world, q, r.step.reply, r.after.world);
    var i :| i in s.world.tables.configs && s.world.tables.configs[i].apiKey == q.apiKey;
    KeyOpensItsIntegration(r.before, q.apiKey, i);
  }

  lemma PaymentChecksKey(w: World, ev: PaymentEvent, id: Id, r: Reply)
    requires AnswersRead(w, GetConfigByLocation(ev.locationId), r) && PaymentResume(PayConfig(ev), r) == InPayment(PayIntegration(ev, id))
    ensures id in w.tables.configs && w.tables.configs[id].apiKey == ev.apiKey && !Blank(ev.apiKey)
  {
  }

  /** A payment webhook goes ahead for an integration only with the last key registered for it. */
  lemma {:induction false} PaymentsNeedTheCurrentKey(r: Run, ev: PaymentEvent, id: Id)
    requires Valid(r) && r.Then? && r.step.Act? && r.step.pid in Last(r.before).procs && r.step.pid in r.after.procs
    requires Last(r.before).procs[r.step.pid].pc == InPayment(PayConfig(ev))
    requires r.after.procs[r.step.pid].pc == InPayment(PayIntegration(ev, id))
    ensures var h := Last(r.before).world.history;
            id in h.lastKey && h.lastKey[id] == ev.apiKey && ev.apiKey in h.written && h.written[ev.apiKey] == id
  {
    PaymentChecksKey(Last(r.before).world, ev, id, r.step.reply);
    KeyOpensItsIntegration(r.before, ev.apiKey, id);
  }

  ghost predicate Retired(s: State, key: string) {
    var h := s.world.history;
    key in h.written && h.written[key] in h.lastKey && h.lastKey[h.written[key]] != key
  }

  lemma StepKeepsRetired(base: map<string, ProviderConfig>, s: State, l: Label, s': State, key: string)
    requires SchemaInv(s.world.tables) && RegisterInv(base, s) && Step(s, l, s') && Retired(s, key)
    ensures Retired(s', key)
  {
    if l.Act? {
      var p, call := s.procs[l.pid], NextCall(s.procs[l.pid].pc);
      AnswersRegister(s.world, call, l.reply, s'.world);
      AllRegisterFlows(p.pc, l.reply);
      if Persisting(p.pc) { KeyInHand(s, l.pid); }
      CallKeepsRetired(s, p.pc, call, l.reply, s', Resume(p.pc, l.reply), key);
    }
  }

  lemma CallKeepsRetired(s: State, pc: Pc, call: Call, r: Reply, s': State, next: Pc, key: string)
    requires Registrations.RegisterFlows(pc, call, r, next) && CallRegisters(s.world, call, r, s'.world) && Retired(s, key)
    requires Persisting(pc) ==> pc.rg.key !in s.world.history.written
    ensures Retired(s', key)
  {
  }

  /** Rows hold current keys only. */
  lemma RetiredMatchesNothing(s: State, key: string)
    requires RowInv(s.settings, s.world) && KeyInv(s) && Retired(s, key)
    ensures forall i :: i in s.world.tables.configs ==> s.world.tables.configs[i].apiKey != key
  {
    assert key in s.keys;
  }

  /** Registering again retires the old key for ever: no row will match it, neither in a query nor in a webhook. */
  lemma {:induction false} RetiredKeysNeverMatch(r: Run, r': Run, key: string)
    requires Valid(r') && Continues(r, r') && Retired(Last(r), key)
    ensures Retired(Last(r'), key)
    ensures forall i :: i in Last(r').world.tables.configs ==> Last(r').world.tables.configs[i].apiKey != key
  {
    if r != r' {
      RetiredKeysNeverMatch(r, r'.before, key);
      RunKeepsSchema(r'.before);
      RunKeepsRegister(r'.before);
      StepKeepsRetired(Base(r'.before), Last(r'.before), r'.step, r'.after, key);
    }
    RunKeepsRegister(r');
    RetiredMatchesNothing(Last(r'), key);
  }

  // ---- Authorization codes ----

  /** A callback with a state presents its code at most once. One without has presented it twice by the time it
      changes a table, so if codes are single use it never changes one, and never succeeds. */
  lemma {:induction false} CodesArePresented(r: Run)
    requires Valid(r)
    ensures var s := Last(r);
            forall p :: p in s.procs && s.procs[p].request.Callback? ==>
              var proc := s.procs[p];
              && (Stateful(proc.request) ==> proc.exchanges <= 1)
              && (!Stateful(proc.request) && (proc.wrote || (proc.pc.Done? && proc.pc.outcome.CallbackDone?)) ==>
                    proc.exchanges == 2 && !s.world.upstream.singleUseCodes)
  {
    RunKeepsExchange(r);
  }
}
