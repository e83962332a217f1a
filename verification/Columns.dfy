/** What the columns hold, over whole runs: tokens what HighLevel last returned, configurations what the settings say. */
module Columns {
  import opened Schema
  import opened Calls
  import opened Program
  import opened Machine
  import opened Deliveries
  import opened Registrations
  import opened Runs
  import opened Evidence

  // ---- Tokens ----

  /** The response this step stores for the integration, if it does. */
  function StoredAt(s: State, l: Label, i: Id): Option<TokenResponse> {
    if l.Act? && l.pid in s.procs && !s.procs[l.pid].pc.Done? && l.reply.FoundToken? then
      match NextCall(s.procs[l.pid].pc)
      case CreateToken(id, resp) => if id == i then Some(resp) else None
      case UpdateToken(id, _, resp) => if id == i then Some(resp) else None
      case _ => None
    else None
  }

  /** The last response stored for the integration. */
  function LastStored(r: Run, i: Id): Option<TokenResponse> {
    match r
    case From(_) => None
    case Then(b, l, _) => if StoredAt(Last(b), l, i).Some? then StoredAt(Last(b), l, i) else LastStored(b, i)
  }

  lemma TokenWriteStoresResponse(w: World, call: Call, r: Reply, w': World, i: Id)
    requires IsTokenWrite(call) && ((Fault(r) && w' == AfterFault(w, call)) || TokenWrite(w, call, r, w')) && i in w'.tables.tokens
    ensures if r.FoundToken? && call.id == i then FromResponse(w'.tables.tokens[i], call.response)
            else i in w.tables.tokens && w'.tables.tokens[i] == w.tables.tokens[i]
  {
  }

  lemma OthersLeaveTokens(w: World, call: Call, r: Reply, w': World, i: Id)
    requires Answers(w, call, r, w') && !IsTokenWrite(call) && i in w'.tables.tokens
    ensures i in w.tables.tokens && w'.tables.tokens[i] == w.tables.tokens[i]
  {
    hide AnswersRead, TokenWrite, ConfigWrite, WebhookWrite, StateWrite, OutsideWrite;
    CallFrames(w, call, r, w');
    if IsIntegrationWrite(call) {
      assert w' == w || IntegrationWrite(w, call, r, w');
    }
  }

  /** A call leaves a token alone, or stores a response in it, field by field. */
  lemma CallStoresResponse(w: World, call: Call, r: Reply, w': World, i: Id)
    requires Answers(w, call, r, w') && i in w'.tables.tokens
    ensures if r.FoundToken? && ((call.CreateToken? || call.UpdateToken?) && call.id == i)
            then FromResponse(w'.tables.tokens[i], call.response)
            else i in w.tables.tokens && w'.tables.tokens[i] == w.tables.tokens[i]
  {
    hide AnswersRead, TokenWrite, ConfigWrite, WebhookWrite, StateWrite, OutsideWrite, IntegrationWrite, FromResponse, AfterFault;
    if IsTokenWrite(call) {
      TokenWriteStoresResponse(w, call, r, w', i);
    } else {
      OthersLeaveTokens(w, call, r, w', i);
    }
  }

  /** In every run a token has the access token, refresh token, scope and type of the last response that was stored for
      its integration. */
  lemma {:induction false} TokensHoldWhatWasStored(r: Run, i: Id)
    requires Valid(r) && i in Last(r).world.tables.tokens
    ensures LastStored(r, i).Some? && FromResponse(Last(r).world.tables.tokens[i], LastStored(r, i).value)
  {
    hide Answers, Resume, NextCall;
    match r.step {
      case Arrive(_, _) => TokensHoldWhatWasStored(r.before, i);
      case Tick(_) => TokensHoldWhatWasStored(r.before, i);
      case Act(pid, reply) =>
        CallStoresResponse(Last(r.before).world, NextCall(Last(r.before).procs[pid].pc), reply, r.after.world, i);
        if StoredAt(Last(r.before), r.step, i).None? { TokensHoldWhatWasStored(r.before, i); }
    }
  }

  /** Only what HighLevel answered is stored: for a code, or for a refresh token. */
  lemma StorersHaveHeard(heard: set<Reply>, req: Request, pc: Pc)
    requires !pc.Done? && Grounded(heard, req, pc) && (NextCall(pc).CreateToken? || NextCall(pc).UpdateToken?)
    ensures Exchanged(NextCall(pc).response) in heard
    ensures NextCall(pc).UpdateToken? ==> req == Refresh(NextCall(pc).id)
  {
    hide RegisterResume, CallbackResume, WebhookResume, PaymentResume, AdminResume;
  }

  lemma {:induction false} StoredResponsesWereGiven(r: Run, i: Id)
    requires Valid(r) && LastStored(r, i).Some?
    ensures exists pid :: Exchanged(LastStored(r, i).value) in HeardBy(r, pid)
  {
    hide Answers, Resume, NextCall, Grounded;
    var at := StoredAt(Last(r.before), r.step, i);
    if at.Some? {
      var p := Last(r.before).procs[r.step.pid];
      RunIsGrounded(r.before, r.step.pid);
      StorersHaveHeard(HeardBy(r.before, r.step.pid), p.request, p.pc);
      assert Exchanged(at.value) in HeardBy(r, r.step.pid);
    } else {
      StoredResponsesWereGiven(r.before, i);
      var pid :| Exchanged(LastStored(r.before, i).value) in HeardBy(r.before, pid);
      assert Exchanged(LastStored(r, i).value) in HeardBy(r, pid);
    }
  }

  /** The token a refresh works with. */
  function Working(pc: Pc): Option<(Id, Token)> {
    match pc
    case InAdmin(RefreshPlatform(id, token, _)) => Some((id, token))
    case InAdmin(RefreshCall(id, token)) => Some((id, token))
    case _ => None
  }

  lemma AdminReadsFirst(ad: AdminPc, r: Reply)
    requires Working(AdminResume(ad, r)).Some?
    ensures var it := Working(AdminResume(ad, r)).value;
            Working(InAdmin(ad)) == Some(it) || (AdminCall(ad) == GetToken(it.0) && r == FoundToken(it.1))
  {
    hide Translate, NotFoundAs;
  }

  lemma OthersKeepOutOfAdmin(pc: Pc, r: Reply)
    requires !pc.Done? && !pc.InAdmin?
    ensures !Resume(pc, r).InAdmin?
  {
    hide Translate, NotFoundAs, OwnConfig;
    match pc {
      case InCallback(cx, cb) => assert !CallbackResume(cx, cb, r).InAdmin?;
      case InRegister(rx, rg) => assert !RegisterResume(rx, rg, r).InAdmin?;
      case InWebhook(wx, wh) => assert !WebhookResume(wx, wh, r).InAdmin?;
      case InPayment(py) => assert !PaymentResume(py, r).InAdmin?;
    }
  }

  lemma RefreshReadsFirst(pc: Pc, r: Reply)
    requires !pc.Done? && Working(Resume(pc, r)).Some?
    ensures Working(pc) == Working(Resume(pc, r))
            || (NextCall(pc) == GetToken(Working(Resume(pc, r)).value.0) && r == FoundToken(Working(Resume(pc, r)).value.1))
  {
    hide AdminCall, AdminResume, CallbackResume, RegisterResume, WebhookResume, PaymentResume;
    if pc.InAdmin? {
      AdminReadsFirst(pc.ad, r);
    } else {
      OthersKeepOutOfAdmin(pc, r);
    }
  }

  /** That token was in the table at some point of the run. */
  lemma {:induction false} WorkingTokenWasThere(r: Run, pid: nat)
    requires Valid(r) && pid in Last(r).procs && Working(Last(r).procs[pid].pc).Some?
    ensures var it := Working(Last(r).procs[pid].pc).value;
            exists r0 :: Valid(r0) && Continues(r0, r) && it.0 in Last(r0).world.tables.tokens && Last(r0).world.tables.tokens[it.0] == it.1
  {
    hide Answers, Resume, NextCall, Start;
    var it := Working(Last(r).procs[pid].pc).value;
    if r.step.Act? && r.step.pid == pid {
      var s, pc := Last(r.before), Last(r.before).procs[pid].pc;
      RefreshReadsFirst(pc, r.step.reply);
      if Working(pc) == Some(it) {
        WorkingTokenWasThere(r.before, pid);
        var r0 :| Valid(r0) && Continues(r0, r.before) && it.0 in Last(r0).world.tables.tokens && Last(r0).world.tables.tokens[it.0] == it.1;
        assert Continues(r0, r);
      } else {
        TokenReadIsThere(s.world, it.0, r.step.reply, r.after.world);
        assert Continues(r.before, r.before) && Continues(r.before, r);
      }
    } else {
      assert Working(Start(Last(r.before).settings, if r.step.Arrive? then r.step.request else ExpireStates)).None? by {
        StartsWithoutToken(Last(r.before).settings, if r.step.Arrive? then r.step.request else ExpireStates);
      }
      WorkingTokenWasThere(r.before, pid);
      var r0 :| Valid(r0) && Continues(r0, r.before) && it.0 in Last(r0).world.tables.tokens && Last(r0).world.tables.tokens[it.0] == it.1;
      assert Continues(r0, r);
    }
  }

  lemma StartsWithoutToken(settings: Settings, req: Request)
    ensures Working(Start(settings, req)).None?
  {
  }

  lemma TokenReadIsThere(w: World, id: Id, r: Reply, w': World)
    requires Answers(w, GetToken(id), r, w') && r.FoundToken?
    ensures id in w.tables.tokens && r.token == w.tables.tokens[id]
  {
  }

  lemma RefreshersWork(heard: set<Reply>, req: Request, pc: Pc)
    requires !pc.Done? && Grounded(heard, req, pc) && NextCall(pc).RefreshUpstream?
    ensures Working(pc).Some? && req == Refresh(Working(pc).value.0)
    ensures NextCall(pc) == RefreshUpstream(Working(pc).value.1.refreshToken)
  {
  }

  /** In every interleaving a refresh presents the refresh token of a response that was, when it read the row, the last one
      stored for its integration. */
  lemma {:induction false} RefreshPresentsWhatWasStored(r: Run, pid: nat)
    requires Valid(r) && pid in Last(r).procs && !Last(r).procs[pid].pc.Done? && NextCall(Last(r).procs[pid].pc).RefreshUpstream?
    ensures var p := Last(r).procs[pid];
            && p.request.Refresh?
            && exists r0 :: Valid(r0) && Continues(r0, r) && LastStored(r0, p.request.id).Some?
                 && NextCall(p.pc) == RefreshUpstream(LastStored(r0, p.request.id).value.refreshToken)
  {
    hide Step, Grounded, NextCall, Working;
    var p := Last(r).procs[pid];
    RunIsGrounded(r, pid);
    RefreshersWork(HeardBy(r, pid), p.request, p.pc);
    WorkingTokenWasThere(r, pid);
    var it := Working(p.pc).value;
    var r0 :| Valid(r0) && Continues(r0, r) && it.0 in Last(r0).world.tables.tokens && Last(r0).world.tables.tokens[it.0] == it.1;
    TokensHoldWhatWasStored(r0, it.0);
  }

  // ---- Provider configurations ----

  /** A configuration that no key was registered for, or for a location HighLevel had none for, says what the settings
      say, field by field; and so does what HighLevel itself came to hold. */
  lemma {:induction false} ConfigurationsSayTheSettings(r: Run)
    requires Valid(r)
    ensures var s, t := Last(r), Last(r).world.tables;
            && (forall i :: i in t.configs && (i !in s.world.history.lastKey || t.configs[i].config.locationId !in Base(r)) ==>
                  Announces(t.configs[i].config, s.settings, t.configs[i].config.locationId))
            && (forall l :: l in s.world.upstream.configs && l !in Base(r) ==> Announces(s.world.upstream.configs[l], s.settings, l))
  {
    hide Step;
    ConfigsConverge(r);
  }

  lemma WritersGoByTheirRequest(base: map<string, ProviderConfig>, settings: Settings, w: World, heard: set<Reply>, p: Proc)
    requires UpstreamInv(base, settings, w) && CarriesOk(settings, w, p) && Grounded(heard, p.request, p.pc) && !p.pc.Done?
    requires NextCall(p.pc).CreateConfig? || NextCall(p.pc).UpdateConfig?
    ensures var loc := NextCall(p.pc).config.locationId;
            match p.request
            case Webhook(_, _, parsed) => parsed.Some? && loc == parsed.value.locationId
            case Register(id, locationId, _, _) => NextCall(p.pc).id == id && loc == locationId
            case Callback(_, _, _) => exists resp :: Exchanged(resp) in heard && loc == resp.locationId
            case _ => false
  {
    hide CallbackResume, RegisterResume, WebhookResume, PaymentResume, AdminResume;
    if p.pc.InRegister? && p.pc.rx.parent.Some? { assert Exchanged(p.pc.rx.parent.value.response) in heard; }
  }

  /** A configuration is written for the location its request is about: an INSTALL's, a registration's own, or the one
      HighLevel returned for the callback's code. */
  lemma {:induction false} ConfigurationsAreForTheirLocation(r: Run, pid: nat)
    requires Valid(r) && r.Then? && r.step.Act? && r.step.pid == pid && pid in Last(r.before).procs && !Last(r.before).procs[pid].pc.Done?
    requires var call := NextCall(Last(r.before).procs[pid].pc); (call.CreateConfig? || call.UpdateConfig?) && r.step.reply.FoundConfig?
    ensures var call, t' := NextCall(Last(r.before).procs[pid].pc), r.after.world.tables;
            && call.id in t'.configs
            && var loc := t'.configs[call.id].config.locationId;
               match Last(r.before).procs[pid].request
               case Webhook(_, _, parsed) => parsed.Some? && loc == parsed.value.locationId
               case Register(id, locationId, _, _) => call.id == id && loc == locationId
               case Callback(_, _, _) => exists resp :: Exchanged(resp) in HeardBy(r.before, pid) && loc == resp.locationId
               case _ => false
  {
    hide Answers, NextCall, Resume, Grounded;
    var s, p := Last(r.before), Last(r.before).procs[pid];
    RunKeepsSchema(r.before);
    RunKeepsRegister(r.before);
    RunIsGrounded(r.before, pid);
    assert RegisterOk(s.settings, s.world, p);
    AnswersRegister(s.world, NextCall(p.pc), r.step.reply, r.after.world);
    WritersGoByTheirRequest(Base(r.before), s.settings, s.world, HeardBy(r.before, pid), p);
  }

  /** An event of any type but "INSTALL" and "integration.installed" never changes a configuration. */
  lemma {:induction false} OtherEventsConfigureNothing(r: Run)
    requires Valid(r) && r.Then? && r.step.Act? && r.step.pid in Last(r.before).procs
    requires var req := Last(r.before).procs[r.step.pid].request;
             req.Webhook? && (req.parsed.Some? ==> req.parsed.value.eventType !in {"INSTALL", "integration.installed"})
    ensures r.after.world.tables.configs == Last(r.before).world.tables.configs
  {
    hide Answers, NextCall, Resume;
    var s, p := Last(r.before), Last(r.before).procs[r.step.pid];
    RunIsGrounded(r.before, r.step.pid);
    OthersInsertNothing(p.pc.wx, p.pc.wh);
    CallFrames(s.world, NextCall(p.pc), r.step.reply, r.after.world);
  }

  lemma OthersInsertNothing(wx: WebhookCtx, wh: WebhookPc)
    requires !Installing(wh)
    ensures var call := NextCall(InWebhook(wx, wh)); !IsConfigWrite(call) && !IsIntegrationWrite(call)
  {
  }

  // ---- What goes out ----

  /** The location a registration is for: the one it was asked for, or the one HighLevel returned with the tokens. */
  ghost predicate ItsLocation(heard: set<Reply>, req: Request, loc: string) {
    || (req.Register? && loc == req.locationId)
    || (req.Callback? && exists resp :: Exchanged(resp) in heard && loc == resp.locationId)
  }

  /** Every call to HighLevel says what the request or HighLevel itself said before. */
  ghost predicate GoesByWhatWasSaid(settings: Settings, heard: set<Reply>, req: Request, call: Call) {
    match call
    case ExchangeCode(code) => req.Callback? && code == req.code
    case GetUserInfo(accessToken) => req.Callback? && exists resp :: Exchanged(resp) in heard && accessToken == resp.accessToken
    case RefreshUpstream(refreshToken) => req.Refresh? && exists token :: FoundToken(token) in heard && refreshToken == token.refreshToken
    case CreateAssociation(loc) => ItsLocation(heard, req, loc)
    case CreateProviderConfig(config) => ItsLocation(heard, req, config.locationId) && Announces(config, settings, config.locationId)
    case FetchProviderConfig(loc) => ItsLocation(heard, req, loc)
    case ConsumeState(state) => req.Callback? && state == req.state
    case _ => true
  }

  lemma CallbackGoesByIt(settings: Settings, heard: set<Reply>, req: Request, cx: CallbackCtx, cb: CallbackPc)
    requires Grounded(heard, req, InCallback(cx, cb))
    ensures GoesByWhatWasSaid(settings, heard, req, CallbackCall(cx, cb))
  {
  }

  lemma RegisterGoesByIt(settings: Settings, heard: set<Reply>, req: Request, rx: RegisterCtx, rg: RegisterPc)
    requires Grounded(heard, req, InRegister(rx, rg)) && rx.settings == settings
    ensures GoesByWhatWasSaid(settings, heard, req, RegisterCall(rx, rg))
  {
    if rx.parent.Some? { assert Exchanged(rx.parent.value.response) in heard; }
  }

  lemma OthersGoByIt(settings: Settings, heard: set<Reply>, req: Request, pc: Pc)
    requires Grounded(heard, req, pc) && !pc.Done? && !pc.InCallback? && !pc.InRegister?
    ensures GoesByWhatWasSaid(settings, heard, req, NextCall(pc))
  {
  }

  /** In every interleaving a callback presents its own code and state, and asks for the user with the access token it was
      given; a refresh presents a refresh token it has read; and registrations go to HighLevel for their own location,
      with the settings' own fields. */
  lemma {:induction false} CallsGoByWhatWasSaid(r: Run, pid: nat)
    requires Valid(r) && pid in Last(r).procs && !Last(r).procs[pid].pc.Done?
    ensures GoesByWhatWasSaid(Last(r).settings, HeardBy(r, pid), Last(r).procs[pid].request, NextCall(Last(r).procs[pid].pc))
  {
    hide Step, Grounded, GoesByWhatWasSaid, CallbackCall, RegisterCall, WebhookCall, PaymentCall, AdminCall;
    var s, p := Last(r), Last(r).procs[pid];
    RunIsGrounded(r, pid);
    RunKeepsRegister(r);
    assert RegisterOk(s.settings, s.world, p);
    match p.pc {
      case InCallback(cx, cb) => CallbackGoesByIt(s.settings, HeardBy(r, pid), p.request, cx, cb);
      case InRegister(rx, rg) => RegisterGoesByIt(s.settings, HeardBy(r, pid), p.request, rx, rg);
      case InWebhook(_, _) => OthersGoByIt(s.settings, HeardBy(r, pid), p.request, p.pc);
      case InPayment(_) => OthersGoByIt(s.settings, HeardBy(r, pid), p.request, p.pc);
      case InAdmin(_) => OthersGoByIt(s.settings, HeardBy(r, pid), p.request, p.pc);
    }
  }
}
