/** Statuses between calls: exactly which writes break the order of the lifecycle, and exactly when REVOKED will hold. */
module Revivals {
  import opened Schema
  import opened Calls
  import opened Program
  import opened Machine
  import opened Lifecycle
  import opened Runs

  // ---- What breaks the order ----

  /** A status write that finds the integration neither as its procedure had read it nor as it wants it, and that does
      not revoke. */
  ghost predicate Stale(s: State, l: Label) {
    && l.Act? && l.pid in s.procs && l.reply.FoundIntegration?
    && var d, t := Decided(s.procs[l.pid].pc), s.world.tables;
    && d.Some? && d.value.to != REVOKED && d.value.id in t.integrations
    && d.value.from != Some(t.integrations[d.value.id].status) && t.integrations[d.value.id].status != d.value.to
  }

  /** A request that has decided on a status writes it, or its statement fails, or the integration is gone. */
  lemma DecisionIsWritten(w: World, pc: Pc, r: Reply, w': World)
    requires Decided(pc).Some? && !pc.Done? && Answers(w, NextCall(pc), r, w')
    ensures var d, t := Decided(pc).value, w.tables;
            if r.FoundIntegration?
            then && d.id in t.integrations
                 && w' == w.(tables := t.(integrations := t.integrations[d.id := t.integrations[d.id].(status := d.to)]))
            else w' == w
  {
    hide CallbackResume, RegisterCall, RegisterResume, WebhookCall, WebhookResume, PaymentCall, PaymentResume, AdminResume;
    assert NextCall(pc) == UpdateStatus(Decided(pc).value.id, Decided(pc).value.to);
  }

  /** The procedure that decides to activate or reconnect is the one the lifecycle lets do so. */
  lemma FreshDecisionsAreInOrder(pc: Pc, a: Status)
    requires Decided(pc).Some?
    ensures var d := Decided(pc).value;
            InOrder(pc, d.id, a, d.to) <==> d.to == REVOKED || d.from == Some(a) || a == d.to
  {
  }

  /** In every interleaving a step keeps the order if and only if it is no stale write. */
  lemma StepIsOrderlyIff(s: State, l: Label, s': State)
    requires SchemaInv(s.world.tables) && Step(s, l, s')
    ensures Orderly(s, l, s') <==> !Stale(s, l)
  {
    hide Answers, Resume, NextCall, SchemaInv, Decided, InOrder;
    if l.Act? {
      var pc, t, t' := s.procs[l.pid].pc, s.world.tables, s'.world.tables;
      forall i | i in t'.integrations ensures ChangesByDecision(t, pc, NextCall(pc), t', i) {
        StatusesChangeByDecision(s, l.pid, l.reply, s', i);
      }
      if Decided(pc).Some? {
        var d := Decided(pc).value;
        DecisionIsWritten(s.world, pc, l.reply, s'.world);
        if d.id in t.integrations { FreshDecisionsAreInOrder(pc, t.integrations[d.id].status); }
      }
    }
  }

  ghost predicate AlwaysOrderly(r: Run) {
    r.Then? ==> Orderly(Last(r.before), r.step, r.after) && AlwaysOrderly(r.before)
  }

  ghost predicate NeverStale(r: Run) {
    r.Then? ==> !Stale(Last(r.before), r.step) && NeverStale(r.before)
  }

  /** All three rules of the lifecycle hold throughout a run if and only if no activation, sync or reconnect ever writes
      over a status it did not read. */
  lemma {:induction false} RunIsOrderlyIff(r: Run)
    requires Valid(r)
    ensures AlwaysOrderly(r) <==> NeverStale(r)
  {
    hide Step, Orderly, Stale;
    if r.Then? {
      RunIsOrderlyIff(r.before);
      RunKeepsSchema(r.before);
      StepIsOrderlyIff(Last(r.before), r.step, r.after);
    }
  }

  // ---- When REVOKED holds for good ----

  /** About to write another status than REVOKED on this integration. */
  predicate Reviving(pc: Pc, i: Id) {
    Decided(pc).Some? && Decided(pc).value.id == i && Decided(pc).value.to != REVOKED
  }

  ghost predicate Pending(s: State, i: Id) {
    exists p :: p in s.procs && Reviving(s.procs[p].pc, i)
  }

  /** Revoked, or deleted. */
  predicate Over(t: Tables, i: Id) {
    i < t.nextId && (i in t.integrations ==> t.integrations[i].status == REVOKED)
  }

  predicate Alive(t: Tables, i: Id) { i in t.integrations && t.integrations[i].status != REVOKED }

  lemma CallbackDecides(cx: CallbackCtx, cb: CallbackPc, r: Reply)
    ensures var next := CallbackResume(cx, cb, r);
            Decided(next).Some? ==>
              && CallbackCall(cx, cb).GetByClientAndPlatform? && r.FoundIntegration?
              && Decided(next).value.id == r.id && Decided(next).value.from == Some(r.integration.status)
  {
    hide StartRegister, Supported, Translate, NotFoundAs;
    assert forall rx :: !StartRegister(rx).InCallback? && !StartRegister(rx).InAdmin? by { StartsOutside(); }
  }

  lemma StartsOutside()
    ensures forall rx :: !StartRegister(rx).InCallback? && !StartRegister(rx).InAdmin?
  {
  }

  lemma OthersDecideNothing(pc: Pc, r: Reply)
    requires !pc.Done? && !pc.InCallback? && !pc.InAdmin?
    ensures Decided(Resume(pc, r)).None?
  {
    match pc {
      case InRegister(rx, rg) => assert var n := RegisterResume(rx, rg, r); n.InRegister? || n.Done?;
      case InWebhook(wx, wh) => assert var n := WebhookResume(wx, wh, r); n.InWebhook? || n.Done?;
      case InPayment(py) => assert var n := PaymentResume(py, r); n.InPayment? || n.Done?;
    }
  }

  /** A decision is made on reading the row, and insists on the status that was read, unless it is to revoke. */
  lemma DecisionsAreInformed(w: World, pc: Pc, r: Reply, w': World)
    requires !pc.Done? && Answers(w, NextCall(pc), r, w') && Decided(Resume(pc, r)).Some?
    ensures var d := Decided(Resume(pc, r)).value;
            w' == w && d.id in w.tables.integrations && (d.from.Some? ==> d.from.value == w.tables.integrations[d.id].status)
  {
    hide CallbackCall, CallbackResume, RegisterCall, RegisterResume, WebhookCall, WebhookResume, PaymentCall, PaymentResume,
         AdminCall, AdminResume, Decided;
    match pc {
      case InCallback(cx, cb) => CallbackDecides(cx, cb, r);
      case InAdmin(ad) => AdminDecides(ad, r);
      case _ => OthersDecideNothing(pc, r);
    }
  }

  /** Nobody decides to revive what is over. */
  lemma NobodyDecidesToRevive(w: World, pc: Pc, r: Reply, w': World, i: Id)
    requires !pc.Done? && Answers(w, NextCall(pc), r, w') && Over(w.tables, i)
    ensures !Reviving(Resume(pc, r), i)
  {
    hide Answers, Resume, NextCall;
    if Decided(Resume(pc, r)).Some? { DecisionsAreInformed(w, pc, r, w'); }
  }

  lemma StartDecidesNothing(settings: Settings, req: Request)
    ensures Decided(Start(settings, req)).None?
  {
  }

  /** What is over stays over at a call of a request that is not about to revive it. */
  lemma CallKeepsOver(s: State, pid: nat, r: Reply, s': State, i: Id)
    requires SchemaInv(s.world.tables) && Step(s, Act(pid, r), s') && Over(s.world.tables, i) && !Reviving(s.procs[pid].pc, i)
    ensures Over(s'.world.tables, i)
  {
    hide Answers, Resume, NextCall, Decided, SchemaInv;
    StepKeepsSchema(s, Act(pid, r), s');
    CallTablesEvolve(s.world, NextCall(s.procs[pid].pc), r, s'.world);
    if i in s'.world.tables.integrations {
      StatusesChangeByDecision(s, pid, r, s', i);
    }
  }

  lemma StepKeepsOver(s: State, l: Label, s': State, i: Id)
    requires SchemaInv(s.world.tables) && Step(s, l, s') && Over(s.world.tables, i) && !Pending(s, i)
    ensures Over(s'.world.tables, i) && !Pending(s', i)
  {
    hide Answers, Resume, NextCall, Decided, Start, SchemaInv;
    match l {
      case Arrive(pid, req) => StartDecidesNothing(s.settings, req);
      case Tick(now) =>
      case Act(pid, r) =>
        CallKeepsOver(s, pid, r, s', i);
        NobodyDecidesToRevive(s.world, s.procs[pid].pc, r, s'.world, i);
    }
  }

  /** With nobody about to write over it, a revocation or deletion is final, whatever requests are in flight or arrive. */
  lemma {:induction false} OverForGood(r: Run, r': Run, i: Id)
    requires Valid(r') && Continues(r, r') && Over(Last(r).world.tables, i) && !Pending(Last(r), i)
    ensures Over(Last(r').world.tables, i) && !Pending(Last(r'), i)
  {
    hide Step, Pending, Over;
    if r != r' {
      OverForGood(r, r'.before, i);
      RunKeepsSchema(r'.before);
      StepKeepsOver(Last(r'.before), r'.step, r'.after, i);
    }
  }

  lemma WriteCanBeAnswered(w: World, pc: Pc, i: Id)
    requires Reviving(pc, i) && i in w.tables.integrations
    ensures var row := w.tables.integrations[i].(status := Decided(pc).value.to);
            Answers(w, NextCall(pc), FoundIntegration(i, row),
                    w.(tables := w.tables.(integrations := w.tables.integrations[i := row])))
  {
    hide CallbackResume, RegisterCall, RegisterResume, WebhookCall, WebhookResume, PaymentCall, PaymentResume, AdminResume;
    assert NextCall(pc) == UpdateStatus(i, Decided(pc).value.to);
  }

  /** A request about to write can be answered at once. */
  lemma {:induction false} PendingCanWrite(r: Run, p: nat, i: Id)
    requires Valid(r) && p in Last(r).procs && Reviving(Last(r).procs[p].pc, i) && i in Last(r).world.tables.integrations
    ensures exists r' :: Valid(r') && Continues(r, r') && i in Last(r').world.tables.integrations
              && Last(r').world.tables.integrations[i].status == Decided(Last(r).procs[p].pc).value.to
  {
    hide Answers, NextCall, Resume, SchemaInv;
    var s, d := Last(r), Decided(Last(r).procs[p].pc).value;
    var t, row := s.world.tables, s.world.tables.integrations[i].(status := d.to);
    var w', reply := s.world.(tables := t.(integrations := t.integrations[i := row])), FoundIntegration(i, row);
    WriteCanBeAnswered(s.world, s.procs[p].pc, i);
    DecisionIsWritten(s.world, s.procs[p].pc, reply, w');
    var s' := s.(world := w', procs := s.procs[p := Advance(s.procs[p], reply, s.world, w')]);
    var r' := Then(r, Act(p, reply), s');
    assert Valid(r') && Continues(r, r');
  }

  /** A revoked integration can be left in another status, in some continuation of the run, if and only if a request that
      read it before the revocation is about to write. Whoever disconnects can tell. */
  lemma {:induction false} RevokedCanBeLeftIff(r: Run, i: Id)
    requires Valid(r) && i in Last(r).world.tables.integrations && Last(r).world.tables.integrations[i].status == REVOKED
    ensures (exists r' :: Valid(r') && Continues(r, r') && Alive(Last(r').world.tables, i)) <==> Pending(Last(r), i)
  {
    hide Step, Decided, SchemaInv;
    RunKeepsSchema(r);
    if Pending(Last(r), i) {
      var p :| p in Last(r).procs && Reviving(Last(r).procs[p].pc, i);
      PendingCanWrite(r, p, i);
    } else {
      forall r' | Valid(r') && Continues(r, r') ensures !Alive(Last(r').world.tables, i) {
        IdBelowCounter(Last(r).world.tables, i);
        OverForGood(r, r', i);
      }
    }
  }

  lemma IdBelowCounter(t: Tables, i: Id)
    requires SchemaInv(t) && i in t.integrations
    ensures i < t.nextId
  {
  }
}
