/** What a request has been told before it gets where it is: the checks it has passed, and the replies it works with. */
module Evidence {
  import opened Schema
  import opened Calls
  import opened Program
  import opened Machine
  import opened Deliveries
  import opened Runs

  /** The replies a request has had. */
  function HeardBy(r: Run, pid: nat): set<Reply> {
    match r
    case From(_) => {}
    case Then(b, l, _) => HeardBy(b, pid) + if l.Act? && l.pid == pid then {l.reply} else {}
  }

  // ---- What each place in a program presupposes ----

  /** The platform is enabled and HighLevel's, and the client is active. */
  predicate Admitted(heard: set<Reply>) {
    FoundPlatform(true, "highlevel") in heard && FoundClient(true) in heard
  }

  predicate OfHighLevel(heard: set<Reply>) {
    FoundPlatform(true, "highlevel") in heard || FoundPlatform(false, "highlevel") in heard
  }

  /** ProcessCallback got this response for its code, and this user. */
  predicate Introduced(heard: set<Reply>, resp: TokenResponse, user: string) {
    Admitted(heard) && Exchanged(resp) in heard && UserIs(user) in heard
  }

  predicate CallbackGrounded(heard: set<Reply>, cb: CallbackPc) {
    match cb
    case CheckClient(_) => FoundPlatform(true, "highlevel") in heard
    case Exchange(_) => Admitted(heard)
    case UserInfo(_, resp) => Admitted(heard) && Exchanged(resp) in heard
    case Existing(_, resp, user) => Introduced(heard, resp, user)
    case Activate(_, resp, user, _) => Introduced(heard, resp, user)
    case Create(_, resp, user) => Introduced(heard, resp, user)
    case StoreToken(_, resp, user, _) => Introduced(heard, resp, user)
    case _ => true
  }

  predicate RegisterGrounded(heard: set<Reply>, req: Request, rx: RegisterCtx, rg: RegisterPc) {
    && (match rx.parent
        case None => req.Register? && rx.id == req.id && rx.loc == req.locationId && rx.accessToken == req.accessToken
        case Some(res) =>
          && req.Callback? && Introduced(heard, res.response, res.userId) && res.id == rx.id
          && rx.loc == res.response.locationId && rx.accessToken == res.response.accessToken)
    && (rg.ReadIntegration? || rg.ReadPlatform? || OfHighLevel(heard))
  }

  predicate AdminGrounded(heard: set<Reply>, req: Request, ad: AdminPc) {
    match ad
    case BeginPlatform(begin) => req == Request.BeginAuthorization(begin)
    case BeginClient(begin, slug) => req == Request.BeginAuthorization(begin) && FoundPlatform(true, slug) in heard
    case BeginCreate(begin) => req == Request.BeginAuthorization(begin) && Admitted(heard)
    case Expire => req.ExpireStates?
    case HookIntegration(id, url) => req == Request.RegisterWebhook(id, url)
    case HookPlatform(id, url, _) => req == Request.RegisterWebhook(id, url)
    case HookCreate(id, url) => req == Request.RegisterWebhook(id, url) && OfHighLevel(heard)
    case UnhookFind(id) => req == Request.UnregisterWebhook(id)
    case UnhookIntegration(id, _) => req == Request.UnregisterWebhook(id)
    case UnhookPlatform(id, _, _) => req == Request.UnregisterWebhook(id)
    case UnhookDelete(id, _) => req == Request.UnregisterWebhook(id) && OfHighLevel(heard)
    case InstallClient(at, ext) => req == Install(at.clientId, at.platformId, ext)
    case InstallPlatform(at, ext) => req == Install(at.clientId, at.platformId, ext) && FoundClient(true) in heard
    case InstallExisting(at, ext) => req == Install(at.clientId, at.platformId, ext) && Provisionable(heard)
    case InstallInsert(at, ext) => req == Install(at.clientId, at.platformId, ext) && Provisionable(heard)
    case UninstallRead(id) => req == Uninstall(id)
    case UninstallRevoke(id) => req == Uninstall(id)
    case UninstallDelete(id) => req == Uninstall(id)
    case ReconnectRead(id) => req == Reconnect(id)
    case ReconnectWrite(id) => req == Reconnect(id)
    case DisconnectRead(id) => req == Disconnect(id)
    case DisconnectWrite(id) => req == Disconnect(id)
    case SyncRead(id) => req == Sync(id)
    case SyncWrite(id) => req == Sync(id)
    case RefreshRead(id) => req == Refresh(id)
    case RefreshToken(id, _) => req == Refresh(id)
    case RefreshPlatform(id, token, _) => req == Refresh(id) && FoundToken(token) in heard
    case RefreshCall(id, token) => req == Refresh(id) && FoundToken(token) in heard && OfHighLevel(heard)
    case RefreshStore(id, token, resp) =>
      req == Refresh(id) && FoundToken(token) in heard && OfHighLevel(heard) && Exchanged(resp) in heard
  }

  predicate Provisionable(heard: set<Reply>) {
    && FoundClient(true) in heard
    && exists reply :: reply in heard && reply.FoundPlatform? && reply.enabled
  }

  predicate DoneGrounded(heard: set<Reply>, req: Request, o: Outcome) {
    match o
    case CallbackDone(res) =>
      req.Callback? && Introduced(heard, res.response, res.userId) && (res.registered <==> res.registrationError.None?)
    case Registered(id) => req.Register? && id == req.id && OfHighLevel(heard)
    case Installed(_) => req.Webhook? && req.parsed.Some? && IsInstall(req.parsed.value)
    case Dispatched => req.Webhook? && req.parsed.Some? && !IsInstall(req.parsed.value)
    case Delegated => req.PaymentWebhook?
    case Verified(_, _) => req.Query?
    case Begun(_) => req.BeginAuthorization? && Admitted(heard)
    case Completed =>
      && (req.Install? ==> Provisionable(heard))
      && (req.RegisterWebhook? || req.UnregisterWebhook? || req.Refresh? ==> OfHighLevel(heard))
      && !req.Callback? && !req.Register? && !req.Webhook? && !req.BeginAuthorization?
    case Failed(_) => true
  }

  /** The requests the door lets in: signed, for HighLevel, and parsed. */
  predicate LetIn(req: Request) { req.Webhook? ==> req.providerId == "highlevel" && req.signed && req.parsed.Some? }

  ghost predicate Grounded(heard: set<Reply>, req: Request, pc: Pc) {
    match pc
    case InCallback(cx, cb) =>
      req.Callback? && cx.code == req.code && cx.state == req.state && CallbackGrounded(heard, cb)
    case InRegister(rx, rg) => RegisterGrounded(heard, req, rx, rg)
    case InWebhook(wx, wh) =>
      req.Webhook? && LetIn(req) && req.parsed == Some(wx.event) && (Installing(wh) ==> IsInstall(wx.event))
    case InPayment(py) => if py.QueryKey? || py.QueryVerify? then req.Query? else req.PaymentWebhook?
    case InAdmin(ad) => AdminGrounded(heard, req, ad)
    case Done(o) => DoneGrounded(heard, req, o) && (!o.Failed? ==> LetIn(req))
  }

  lemma StartIsGrounded(settings: Settings, req: Request)
    ensures Grounded({}, req, Start(settings, req))
  {
  }

  // ---- Every reply gives the next place what it presupposes ----

  lemma CallbackStaysGrounded(heard: set<Reply>, req: Request, cx: CallbackCtx, cb: CallbackPc, r: Reply)
    requires Grounded(heard, req, InCallback(cx, cb))
    ensures Grounded(heard + {r}, req, CallbackResume(cx, cb, r))
  {
    hide Translate, NotFoundAs;
  }

  lemma RegisterStaysGrounded(heard: set<Reply>, req: Request, rx: RegisterCtx, rg: RegisterPc, r: Reply)
    requires Grounded(heard, req, InRegister(rx, rg))
    ensures Grounded(heard + {r}, req, RegisterResume(rx, rg, r))
  {
    hide Translate, NotFoundAs, OwnConfig;
  }

  lemma WebhookStaysGrounded(heard: set<Reply>, req: Request, wx: WebhookCtx, wh: WebhookPc, r: Reply)
    requires Grounded(heard, req, InWebhook(wx, wh))
    ensures Grounded(heard + {r}, req, WebhookResume(wx, wh, r))
  {
    hide Translate, NotFoundAs, IsInstall;
  }

  lemma PaymentStaysGrounded(heard: set<Reply>, req: Request, py: PaymentPc, r: Reply)
    requires Grounded(heard, req, InPayment(py))
    ensures Grounded(heard + {r}, req, PaymentResume(py, r))
  {
    hide Translate, NotFoundAs, Trim, Blank;
  }

  predicate Beginning(ad: AdminPc) { ad.BeginPlatform? || ad.BeginClient? || ad.BeginCreate? || ad.Expire? }

  predicate Hooking(ad: AdminPc) {
    || ad.HookIntegration? || ad.HookPlatform? || ad.HookCreate?
    || ad.UnhookFind? || ad.UnhookIntegration? || ad.UnhookPlatform? || ad.UnhookDelete?
  }

  predicate Provisioning(ad: AdminPc) { ad.InstallClient? || ad.InstallPlatform? || ad.InstallExisting? || ad.InstallInsert? }

  predicate Refreshing(ad: AdminPc) {
    ad.RefreshRead? || ad.RefreshToken? || ad.RefreshPlatform? || ad.RefreshCall? || ad.RefreshStore?
  }

  lemma BeginningStaysGrounded(heard: set<Reply>, req: Request, ad: AdminPc, r: Reply)
    requires Grounded(heard, req, InAdmin(ad)) && Beginning(ad)
    ensures Grounded(heard + {r}, req, AdminResume(ad, r))
  {
    hide Translate, NotFoundAs;
  }

  lemma HookingStaysGrounded(heard: set<Reply>, req: Request, ad: AdminPc, r: Reply)
    requires Grounded(heard, req, InAdmin(ad)) && Hooking(ad)
    ensures Grounded(heard + {r}, req, AdminResume(ad, r))
  {
    hide Translate, NotFoundAs;
  }

  lemma ProvisioningStaysGrounded(heard: set<Reply>, req: Request, ad: AdminPc, r: Reply)
    requires Grounded(heard, req, InAdmin(ad)) && Provisioning(ad)
    ensures Grounded(heard + {r}, req, AdminResume(ad, r))
  {
    hide Translate, NotFoundAs;
  }

  lemma RefreshingStaysGrounded(heard: set<Reply>, req: Request, ad: AdminPc, r: Reply)
    requires Grounded(heard, req, InAdmin(ad)) && Refreshing(ad)
    ensures Grounded(heard + {r}, req, AdminResume(ad, r))
  {
    hide Translate, NotFoundAs;
  }

  lemma SwitchingStaysGrounded(heard: set<Reply>, req: Request, ad: AdminPc, r: Reply)
    requires Grounded(heard, req, InAdmin(ad)) && !Beginning(ad) && !Hooking(ad) && !Provisioning(ad) && !Refreshing(ad)
    ensures Grounded(heard + {r}, req, AdminResume(ad, r))
  {
    hide Translate, NotFoundAs;
  }

  lemma AdminStaysGrounded(heard: set<Reply>, req: Request, ad: AdminPc, r: Reply)
    requires Grounded(heard, req, InAdmin(ad))
    ensures Grounded(heard + {r}, req, AdminResume(ad, r))
  {
    hide Grounded, AdminResume;
    if Beginning(ad) {
      BeginningStaysGrounded(heard, req, ad, r);
    } else if Hooking(ad) {
      HookingStaysGrounded(heard, req, ad, r);
    } else if Provisioning(ad) {
      ProvisioningStaysGrounded(heard, req, ad, r);
    } else if Refreshing(ad) {
      RefreshingStaysGrounded(heard, req, ad, r);
    } else {
      SwitchingStaysGrounded(heard, req, ad, r);
    }
  }

  lemma ReplyGrounds(heard: set<Reply>, req: Request, pc: Pc, r: Reply)
    requires !pc.Done? && Grounded(heard, req, pc)
    ensures Grounded(heard + {r}, req, Resume(pc, r))
  {
    hide Grounded, CallbackResume, RegisterResume, WebhookResume, PaymentResume, AdminResume;
    match pc {
      case InCallback(cx, cb) => CallbackStaysGrounded(heard, req, cx, cb, r);
      case InRegister(rx, rg) => RegisterStaysGrounded(heard, req, rx, rg, r);
      case InWebhook(wx, wh) => WebhookStaysGrounded(heard, req, wx, wh, r);
      case InPayment(py) => PaymentStaysGrounded(heard, req, py, r);
      case InAdmin(ad) => AdminStaysGrounded(heard, req, ad, r);
    }
  }

  lemma {:induction false} RunIsGrounded(r: Run, pid: nat)
    requires Valid(r) && pid in Last(r).procs
    ensures Grounded(HeardBy(r, pid), Last(r).procs[pid].request, Last(r).procs[pid].pc)
  {
    hide Answers, Grounded, Start, Resume, NextCall;
    if !(r.step.Act? && r.step.pid == pid) { assert HeardBy(r, pid) == HeardBy(r.before, pid); }
    match r.step {
      case Arrive(p, req) =>
        if p == pid {
          StartIsGrounded(Last(r.before).settings, req);
          NobodyHeard(r.before, pid);
        } else {
          RunIsGrounded(r.before, pid);
        }
      case Tick(now) => RunIsGrounded(r.before, pid);
      case Act(p, reply) =>
        RunIsGrounded(r.before, pid);
        if p == pid {
          var q := Last(r.before).procs[pid];
          ReplyGrounds(HeardBy(r.before, pid), q.request, q.pc, reply);
        }
    }
  }

  lemma {:induction false} NobodyHeard(r: Run, pid: nat)
    requires Valid(r) && pid !in Last(r).procs
    ensures HeardBy(r, pid) == {}
  {
    hide Answers, Start, Resume, NextCall;
    if r.Then? { NobodyHeard(r.before, pid); }
  }

  // ---- What follows ----

  /** In or past ProcessCallback's exchange, or past the checks of a new authorization or integration. */
  predicate PastTheChecks(req: Request, pc: Pc) {
    match pc
    case InCallback(_, cb) =>
      cb.Exchange? || cb.UserInfo? || cb.Existing? || cb.Activate? || cb.Create? || cb.StoreToken?
    case InRegister(rx, _) => rx.parent.Some?
    case InAdmin(ad) => ad.BeginCreate? || ad.InstallExisting? || ad.InstallInsert?
    case Done(o) => o.CallbackDone? || o.Begun? || (o.Completed? && req.Install?)
    case _ => false
  }

  lemma PastIsAdmitted(heard: set<Reply>, req: Request, pc: Pc)
    requires Grounded(heard, req, pc) && PastTheChecks(req, pc)
    ensures FoundClient(true) in heard
    ensures if req.Install? then exists slug :: FoundPlatform(true, slug) in heard else FoundPlatform(true, "highlevel") in heard
  {
    if req.Install? {
      var reply :| reply in heard && reply.FoundPlatform? && reply.enabled;
      assert FoundPlatform(true, reply.slug) in heard;
    }
  }

  /** In every interleaving ProcessCallback presents its code, and a callback, an authorization or a provisioning goes on
      to change anything or succeeds, only after it was told that the client is active and the platform enabled; and,
      but for a provisioning, that the platform is HighLevel's. */
  lemma {:induction false} ChecksComeFirst(r: Run, pid: nat)
    requires Valid(r) && pid in Last(r).procs && PastTheChecks(Last(r).procs[pid].request, Last(r).procs[pid].pc)
    ensures FoundClient(true) in HeardBy(r, pid)
    ensures if Last(r).procs[pid].request.Install? then exists slug :: FoundPlatform(true, slug) in HeardBy(r, pid)
            else FoundPlatform(true, "highlevel") in HeardBy(r, pid)
  {
    hide Step, Grounded, PastTheChecks;
    RunIsGrounded(r, pid);
    PastIsAdmitted(HeardBy(r, pid), Last(r).procs[pid].request, Last(r).procs[pid].pc);
  }

  /** A registration, a subscription, its removal or a refresh succeeds only after the platform was found to be HighLevel's,
      enabled or not. */
  lemma {:induction false} HighLevelComesFirst(r: Run, pid: nat)
    requires Valid(r) && pid in Last(r).procs
    requires var req, pc := Last(r).procs[pid].request, Last(r).procs[pid].pc;
             || (pc == Done(Completed) && (req.RegisterWebhook? || req.UnregisterWebhook? || req.Refresh?))
             || (pc.Done? && pc.outcome.Registered?)
    ensures exists enabled :: FoundPlatform(enabled, "highlevel") in HeardBy(r, pid)
  {
    hide Step;
    RunIsGrounded(r, pid);
  }

  predicate Refuses(reply: Reply) { (reply.FoundPlatform? && !reply.enabled) || reply == FoundClient(false) }

  lemma CallbackRefusalEndsIt(w: World, cx: CallbackCtx, cb: CallbackPc, reply: Reply, w': World)
    requires Answers(w, CallbackCall(cx, cb), reply, w') && Refuses(reply)
    ensures w' == w && !CallbackCall(cx, cb).ExchangeCode?
    ensures CallbackResume(cx, cb, reply) == Fail(if reply.FoundPlatform? then PlatformDisabled else ClientInactive)
  {
    hide Translate, NotFoundAs, Supported;
    OnlyLookupsRefuse(w, CallbackCall(cx, cb), reply, w');
  }

  lemma AdminRefusalEndsIt(heard: set<Reply>, req: Request, w: World, ad: AdminPc, reply: Reply, w': World)
    requires (req.Callback? || req.BeginAuthorization? || req.Install?) && AdminGrounded(heard, req, ad)
    requires Answers(w, AdminCall(ad), reply, w') && Refuses(reply)
    ensures w' == w && !AdminCall(ad).ExchangeCode?
    ensures AdminResume(ad, reply) == Fail(if reply.FoundPlatform? then PlatformDisabled else ClientInactive)
  {
    hide Translate, NotFoundAs, Supported, Answers;
    OnlyLookupsRefuse(w, AdminCall(ad), reply, w');
  }

  lemma WritesDoNotRefuse(w: World, call: Call, reply: Reply, w': World)
    requires !IsRead(call) && CarriedOut(w, call, reply, w')
    ensures !Refuses(reply)
  {
  }

  lemma OnlyLookupsRefuse(w: World, call: Call, reply: Reply, w': World)
    requires Answers(w, call, reply, w') && Refuses(reply)
    ensures w' == w && if reply.FoundPlatform? then call.GetPlatform? else call.GetClient?
  {
    hide CarriedOut, AfterFault;
    if !IsRead(call) && CarriedOut(w, call, reply, w') { WritesDoNotRefuse(w, call, reply, w'); }
  }

  lemma RefusalEndsIt(heard: set<Reply>, req: Request, w: World, pc: Pc, reply: Reply, w': World)
    requires req.Callback? || req.BeginAuthorization? || req.Install?
    requires !pc.Done? && !pc.InRegister? && Grounded(heard, req, pc)
    requires Answers(w, NextCall(pc), reply, w') && Refuses(reply)
    ensures w' == w && !NextCall(pc).ExchangeCode?
    ensures Resume(pc, reply) == Fail(if reply.FoundPlatform? then PlatformDisabled else ClientInactive)
  {
    hide Answers, CallbackCall, CallbackResume, AdminCall, AdminResume, AdminGrounded, CallbackGrounded;
    if pc.InCallback? {
      CallbackRefusalEndsIt(w, pc.cx, pc.cb, reply, w');
    } else {
      AdminRefusalEndsIt(heard, req, w, pc.ad, reply, w');
    }
  }

  /** A callback, authorization or provisioning that is told of a disabled platform or an inactive client is over: it
      presents no code and changes nothing, then or in any continuation. */
  lemma {:induction false} RefusalIsFinal(r: Run, r': Run, pid: nat)
    requires Valid(r') && Continues(r, r') && r.Then? && r.step.Act? && r.step.pid == pid && Refuses(r.step.reply)
    requires pid in Last(r.before).procs && pid in Last(r).procs && pid in Last(r').procs && !Last(r.before).procs[pid].pc.InRegister?
    requires var req := Last(r.before).procs[pid].request; req.Callback? || req.BeginAuthorization? || req.Install?
    ensures var p, q := Last(r.before).procs[pid], Last(r').procs[pid];
            && q.pc == Fail(if r.step.reply.FoundPlatform? then PlatformDisabled else ClientInactive)
            && q.exchanges == p.exchanges && q.wrote == p.wrote && r.after.world == Last(r.before).world
  {
    hide Answers, Grounded, Resume, NextCall;
    ContinuationIsLater(r, r');
    ContinuationIsLater(r.before, r);
    RunIsGrounded(r.before, pid);
    var p := Last(r.before).procs[pid];
    RefusalEndsIt(HeardBy(r.before, pid), p.request, Last(r.before).world, p.pc, r.step.reply, r.after.world);
  }

  /** Nothing is recorded or done for a marketplace event that is not for HighLevel, not signed or not parsed; an event
      ends Installed only if its type is "INSTALL" or "integration.installed", and Dispatched only if it is neither. */
  lemma {:induction false} EventsAreHandledByType(r: Run, pid: nat)
    requires Valid(r) && pid in Last(r).procs && Last(r).procs[pid].request.Webhook?
    ensures var req, p := Last(r).procs[pid].request, Last(r).procs[pid];
            && (!FailedPc(p.pc) || p.recorded.Some? ==> req.providerId == "highlevel" && req.signed && req.parsed.Some?)
            && (p.pc.Done? && p.pc.outcome.Installed? ==> req.parsed.value.eventType in {"INSTALL", "integration.installed"})
            && (p.pc == Done(Dispatched) ==> req.parsed.value.eventType !in {"INSTALL", "integration.installed"})
  {
    hide Step;
    RunIsGrounded(r, pid);
    if !LetIn(Last(r).procs[pid].request) { OthersStayOut(r, pid); }
  }

  lemma {:induction false} OthersStayOut(r: Run, pid: nat)
    requires Valid(r) && pid in Last(r).procs && !LetIn(Last(r).procs[pid].request)
    ensures Last(r).procs[pid].recorded.None? && FailedPc(Last(r).procs[pid].pc)
  {
    hide Answers, Resume, NextCall;
    if pid in Last(r.before).procs {
      OthersStayOut(r.before, pid);
    }
  }
}
