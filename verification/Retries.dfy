/** Registrations over whole runs: how many calls they make, and exactly when they fail. */
module Retries {
  import opened Schema
  import opened Calls
  import opened Program
  import opened Machine
  import opened Deliveries
  import opened Attempts
  import opened Runs

  // ---- What a run says of one registration ----

  /** This step is a registration call of this request, on its own or inside a callback. */
  predicate Registering(s: State, l: Label, pid: nat) {
    l.Act? && l.pid == pid && pid in s.procs && s.procs[pid].pc.InRegister?
  }

  function RegisterCalls(r: Run, pid: nat): nat {
    match r
    case From(_) => 0
    case Then(b, l, _) => RegisterCalls(b, pid) + if Registering(Last(b), l, pid) then 1 else 0
  }

  predicate MeetsSetback(s: State, l: Label, pid: nat) {
    Registering(s, l, pid) && Setback(s.world, s.procs[pid].pc.rx, s.procs[pid].pc.rg, l.reply)
  }

  /** Some registration call of this request met a setback. */
  predicate WasSetBack(r: Run, pid: nat) {
    r.Then? && (WasSetBack(r.before, pid) || MeetsSetback(Last(r.before), r.step, pid))
  }

  // ---- Where a request with a registration can be ----

  predicate Incomplete(loc: string, accessToken: string) { loc == "" || accessToken == "" }

  /** A registration in progress or over, given its calls and setbacks so far. */
  predicate Story(p: Proc, calls: nat, setBack: bool) {
    match p.pc
    case InRegister(rx, rg) =>
      && !setBack && calls + CallsLeft(rg) <= 7 && !Incomplete(rx.loc, rx.accessToken)
      && (match rx.parent
          case None => p.request.Register? && rx.loc == p.request.locationId && rx.accessToken == p.request.accessToken
          case Some(res) =>
            !p.request.Register? && res.response.locationId == rx.loc && res.response.accessToken == rx.accessToken)
    case Done(o) =>
      && calls <= 7
      && (p.request.Register? ==>
            if o.Failed? then setBack || Incomplete(p.request.locationId, p.request.accessToken)
            else o.Registered? && !setBack && !Incomplete(p.request.locationId, p.request.accessToken))
      && (o.CallbackDone? ==>
            && !p.request.Register?
            && (!o.result.registered <==> setBack || Incomplete(o.result.response.locationId, o.result.response.accessToken)))
    case _ => calls == 0 && !setBack && !p.request.Register?
  }

  lemma ArrivesInStory(settings: Settings, req: Request)
    ensures Story(Arrived(settings, req), 0, false)
  {
  }

  /** A registration call: one more, and a setback if it met one. */
  lemma RegistrationGoesOn(w: World, p: Proc, calls: nat, r: Reply, q: Proc)
    requires p.pc.InRegister? && Story(p, calls, false) && q.request == p.request
    requires MovesOn(w, p.pc.rx, p.pc.rg, r, q.pc)
    ensures Story(q, calls + 1, Setback(w, p.pc.rx, p.pc.rg, r))
  {
    hide Setback;
  }

  /** Where a callback goes on to: further on, to its registration, or to its end without one. */
  lemma CallbackGoesOn(cx: CallbackCtx, cb: CallbackPc, r: Reply)
    ensures var next := CallbackResume(cx, cb, r);
            || next.InCallback? || FailedPc(next)
            || exists rx :: next == StartRegister(rx) && rx.parent.Some? && !rx.parent.value.registered
                      && rx.parent.value.response.locationId == rx.loc && rx.parent.value.response.accessToken == rx.accessToken
  {
    hide StartRegister, Supported, Translate, NotFoundAs;
  }

  lemma CallbackStaysInStory(p: Proc, calls: nat, setBack: bool, r: Reply, q: Proc)
    requires p.pc.InCallback? && Story(p, calls, setBack) && q.request == p.request
    requires q.pc == Resume(p.pc, r)
    ensures Story(q, calls, setBack)
  {
    hide CallbackResume;
    CallbackGoesOn(p.pc.cx, p.pc.cb, r);
  }

  lemma OthersStayInStory(p: Proc, calls: nat, setBack: bool, r: Reply, q: Proc)
    requires !p.pc.Done? && !p.pc.InCallback? && !p.pc.InRegister? && Story(p, calls, setBack) && q.request == p.request
    requires q.pc == Resume(p.pc, r)
    ensures Story(q, calls, setBack)
  {
    hide Resume;
    OthersAttemptNothing(p.pc, r);
  }

  ghost predicate Told(r: Run, pid: nat) {
    if pid in Last(r).procs then Story(Last(r).procs[pid], RegisterCalls(r, pid), WasSetBack(r, pid))
    else RegisterCalls(r, pid) == 0 && !WasSetBack(r, pid)
  }

  lemma ActTellsOn(r: Run, pid: nat)
    requires Valid(r) && r.Then? && r.step.Act? && r.step.pid == pid && Told(r.before, pid)
    ensures Told(r, pid)
  {
    hide Answers, Resume, Story, Setback;
    var s, p := Last(r.before), Last(r.before).procs[pid];
    var calls, setBack := RegisterCalls(r.before, pid), WasSetBack(r.before, pid);
    if p.pc.InRegister? {
      InRegisterIsFine(p, calls, setBack);
      RegistrationsFailOnlyBySetback(r, pid);
      RegistrationGoesOn(s.world, p, calls, r.step.reply, r.after.procs[pid]);
    } else if p.pc.InCallback? {
      CallbackStaysInStory(p, calls, setBack, r.step.reply, r.after.procs[pid]);
    } else {
      OthersStayInStory(p, calls, setBack, r.step.reply, r.after.procs[pid]);
    }
  }

  lemma InRegisterIsFine(p: Proc, calls: nat, setBack: bool)
    requires Story(p, calls, setBack) && p.pc.InRegister?
    ensures !setBack
  {
  }

  lemma {:induction false} RunTells(r: Run, pid: nat)
    requires Valid(r)
    ensures Told(r, pid)
  {
    hide Answers, Resume, NextCall, Start, Story, Setback;
    if r.Then? {
      RunTells(r.before, pid);
      match r.step {
        case Arrive(p, req) => if p == pid { ArrivesInStory(Last(r.before).settings, req); }
        case Tick(now) =>
        case Act(p, reply) => if p == pid { ActTellsOn(r, pid); }
      }
    }
  }

  /** A registration makes at most seven calls, in every interleaving. On its own it fails if and only if one of them met
      a setback, or it was asked without a location or an access token; inside a callback registration is reported as
      failed if and only if one of them met a setback, or HighLevel returned no location or no access token. */
  lemma {:induction false} RegistrationsFailIff(r: Run, pid: nat)
    requires Valid(r) && pid in Last(r).procs
    ensures var req, pc := Last(r).procs[pid].request, Last(r).procs[pid].pc;
            && RegisterCalls(r, pid) <= 7
            && (req.Register? && pc.Done? ==>
                  (FailedPc(pc) <==> WasSetBack(r, pid) || Incomplete(req.locationId, req.accessToken)))
            && (pc.Done? && pc.outcome.CallbackDone? ==>
                  var res := pc.outcome.result;
                  !res.registered <==> WasSetBack(r, pid) || Incomplete(res.response.locationId, res.response.accessToken))
  {
    RunTells(r, pid);
  }
}
