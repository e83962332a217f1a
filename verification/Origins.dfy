/** Where configuration rows come from, and what an INSTALL event that failed leaves to others. */
module Origins {
  import opened Schema
  import opened Calls
  import opened Program
  import opened Machine
  import opened Deliveries
  import opened Registrations
  import opened Attempts
  import opened Runs

  /** A finished request that says this integration's configuration is in place. */
  predicate Reports(pc: Pc, i: Id) { pc == Done(Installed(i)) || Wrote(pc) == Some(i) }

  ghost predicate Reported(s: State, i: Id) {
    exists p :: p in s.procs && Reports(s.procs[p].pc, i)
  }

  ghost predicate OriginInv(s: State) {
    forall i :: i in s.world.tables.configs ==> Reported(s, i)
  }

  /** Whoever inserts a configuration is done then, and reports it. */
  lemma InsertsAreReported(settings: Settings, w: World, p: Proc, r: Reply)
    requires CarriesOk(settings, w, p) && !p.pc.Done? && NextCall(p.pc).CreateConfig? && r.FoundConfig?
    ensures Reports(Resume(p.pc, r), NextCall(p.pc).id)
  {
    hide CallbackResume, PaymentResume, AdminResume;
    AllRegisterFlows(p.pc, r);
    AllAttempt(p.pc, r);
  }

  lemma ReportsStay(s: State, l: Label, s': State, i: Id)
    requires Step(s, l, s') && Reported(s, i)
    ensures Reported(s', i)
  {
    hide Answers, Resume, NextCall;
    var p :| p in s.procs && Reports(s.procs[p].pc, i);
    assert s'.procs[p] == s.procs[p];
  }

  lemma StepKeepsOrigins(base: map<string, ProviderConfig>, s: State, l: Label, s': State)
    requires SchemaInv(s.world.tables) && RegisterInv(base, s) && OriginInv(s) && Step(s, l, s')
    ensures OriginInv(s')
  {
    hide Answers, Resume, NextCall, Reports, SchemaInv, CarriesOk;
    forall i | i in s'.world.tables.configs ensures Reported(s', i) {
      if i in s.world.tables.configs {
        ReportsStay(s, l, s', i);
      } else {
        NewRowsAreReported(base, s, l, s', i);
      }
    }
  }

  lemma NewRowsAreReported(base: map<string, ProviderConfig>, s: State, l: Label, s': State, i: Id)
    requires SchemaInv(s.world.tables) && RegisterInv(base, s) && Step(s, l, s')
    requires i in s'.world.tables.configs && i !in s.world.tables.configs
    ensures Reported(s', i)
  {
    hide Answers, Resume, NextCall, Reports, SchemaInv, CarriesOk;
    var p, call := s.procs[l.pid], NextCall(s.procs[l.pid].pc);
    AnswersRegister(s.world, call, l.reply, s'.world);
    assert RegisterOk(s.settings, s.world, p);
    InsertsAreReported(s.settings, s.world, p, l.reply);
    assert Reports(s'.procs[l.pid].pc, i);
  }

  lemma {:induction false} RunKeepsOrigins(r: Run)
    requires Valid(r)
    ensures OriginInv(Last(r))
  {
    hide Step, OriginInv, SchemaInv, RegisterInv;
    if r.Then? {
      RunKeepsOrigins(r.before);
      RunKeepsSchema(r.before);
      RunKeepsRegister(r.before);
      StepKeepsOrigins(Base(r.before), Last(r.before), r.step, r.after);
    } else {
      assert OriginInv(Last(r)) by { EmptyHasOrigins(Last(r)); }
    }
  }

  lemma EmptyHasOrigins(s: State)
    requires Initial(s)
    ensures OriginInv(s)
  {
  }

  /** An integration has a configuration if and only if some finished INSTALL delivery, callback or registration says
      so: nothing else makes one, and none is lost while its integration is there. */
  lemma {:induction false} ConfiguredIffReported(r: Run, i: Id)
    requires Valid(r) && i in Last(r).world.tables.integrations
    ensures i in Last(r).world.tables.configs <==> Reported(Last(r), i)
  {
    RunKeepsOrigins(r);
    ConfigsConverge(r);
  }

  /** As long as the delivery that recorded an INSTALL event does not report a configuration - it failed, or stopped, or
      has not got there - its event has left none: an integration has a configuration if and only if a request says so
      that did not record this event. */
  lemma {:induction false} LostInstallsLeaveItToOthers(r: Run, k: EventKey, i: Id)
    requires Valid(r) && k in Last(r).owner && Last(r).owner[k] in Last(r).procs && i in Last(r).world.tables.integrations
    requires forall j :: !Reports(Last(r).procs[Last(r).owner[k]].pc, j)
    ensures i in Last(r).world.tables.configs <==>
            exists p :: p in Last(r).procs && Reports(Last(r).procs[p].pc, i) && Last(r).procs[p].recorded != Some(k)
  {
    ConfiguredIffReported(r, i);
    OneEffectPerEvent(r);
    LostEvents(r);
  }

  /** And a failed delivery stays failed, so what its event would have configured is up to other events and requests for
      good. */
  lemma {:induction false} FailedInstallsStayLost(r: Run, r': Run, k: EventKey, i: Id)
    requires Valid(r') && Continues(r, r') && k in Last(r).owner && Last(r).owner[k] in Last(r).procs
    requires FailedPc(Last(r).procs[Last(r).owner[k]].pc) && i in Last(r').world.tables.integrations
    ensures i in Last(r').world.tables.configs <==>
            exists p :: p in Last(r').procs && Reports(Last(r').procs[p].pc, i) && Last(r').procs[p].recorded != Some(k)
  {
    ContinuationIsLater(r, r');
    LostInstallsLeaveItToOthers(r', k, i);
  }
}
