/** Which integration a location resolves to: five resolvers, when they agree, and which steps keep it so. */
module Tenants {
  import opened Schema
  import opened Calls
  import opened Program
  import opened Machine
  import opened Registrations
  import opened Runs
  import opened Scenarios

  // ---- What the resolvers can answer ----

  /** On one state, without a failing statement, the program gets from `pc` to `target` by reading these replies. */
  ghost predicate Reads(w: World, pc: Pc, replies: seq<Reply>, target: Pc)
    decreases |replies|
  {
    if replies == [] then pc == target
    else
      && !pc.Done? && IsRead(NextCall(pc)) && !Fault(replies[0]) && AnswersRead(w, NextCall(pc), replies[0])
      && Reads(w, Resume(pc, replies[0]), replies[1..], target)
  }

  ghost predicate Reaches(w: World, pc: Pc, target: Pc) {
    exists replies :: Reads(w, pc, replies, target)
  }

  /** ProcessWebhook gets to record the event under this integration. */
  ghost predicate WebhookResolves(w: World, wx: WebhookCtx, id: Id) {
    Reaches(w, StartWebhook(wx), InWebhook(wx, Record(id)))
  }

  /** The INSTALL handler gets to look for this integration's configuration. */
  ghost predicate DispatchResolves(w: World, wx: WebhookCtx, id: Id) {
    Reaches(w, InWebhook(wx, InstallExternal), InWebhook(wx, InstallFind(id)))
  }

  /** A callback without a state gets into ProcessCallback for this client and platform. */
  ghost predicate CallbackResolves(w: World, cx: CallbackCtx, loc: string, at: Pair) {
    Reaches(w, InCallback(cx, ByExternalAccount(loc)), InCallback(cx, CheckPlatform(at)))
  }

  /** A payment webhook gets past the API key check with this integration. */
  ghost predicate PaymentResolves(w: World, ev: PaymentEvent, id: Id) {
    Reaches(w, InPayment(PayConfig(ev)), InPayment(PayIntegration(ev, id)))
  }

  function PairOf(t: Tables, id: Id): Pair
    requires id in t.integrations
  {
    Pair(t.integrations[id].clientId, t.integrations[id].platformId)
  }

  // ---- One reply at a time ----

  lemma ReachesNow(w: World, pc: Pc)
    ensures Reaches(w, pc, pc)
  {
    assert Reads(w, pc, [], pc);
  }

  lemma ReachesNothing(w: World, pc: Pc, target: Pc)
    requires pc.Done? || !IsRead(NextCall(pc))
    ensures Reaches(w, pc, target) <==> pc == target
  {
    ReachesNow(w, pc);
  }

  lemma ReachesBy(w: World, pc: Pc, r: Reply, target: Pc)
    requires !pc.Done? && IsRead(NextCall(pc)) && !Fault(r) && AnswersRead(w, NextCall(pc), r)
    requires Reaches(w, Resume(pc, r), target)
    ensures Reaches(w, pc, target)
  {
    var rest :| Reads(w, Resume(pc, r), rest, target);
    assert ([r] + rest)[1..] == rest;
    assert Reads(w, pc, [r] + rest, target);
  }

  /** One reply on the way to `target`. */
  ghost predicate Way(w: World, pc: Pc, r: Reply, target: Pc) {
    !pc.Done? && IsRead(NextCall(pc)) && !Fault(r) && AnswersRead(w, NextCall(pc), r) && Reaches(w, Resume(pc, r), target)
  }

  lemma ReachedBy(w: World, pc: Pc, target: Pc)
    requires Reaches(w, pc, target) && pc != target
    ensures exists r :: Way(w, pc, r, target)
  {
    var replies :| Reads(w, pc, replies, target);
    assert Reads(w, Resume(pc, replies[0]), replies[1..], target);
    assert Way(w, pc, replies[0], target);
  }

  // ---- The resolvers ----

  predicate ByConfig(wh: WebhookPc) { wh.ResolveConfig? || wh.ResolveOther? }

  lemma ConfigFinds(w: World, wx: WebhookCtx, wh: WebhookPc, id: Id)
    requires ByConfig(wh) && id in LocHolders(w.tables, wx.event.locationId)
    ensures Reaches(w, InWebhook(wx, wh), InWebhook(wx, Record(id)))
  {
    hide Reaches;
    ReachesNow(w, InWebhook(wx, Record(id)));
    ReachesBy(w, InWebhook(wx, wh), FoundConfig(id, w.tables.configs[id]), InWebhook(wx, Record(id)));
  }

  lemma ConfigFindsOnly(w: World, wx: WebhookCtx, wh: WebhookPc, id: Id)
    requires ByConfig(wh) && Reaches(w, InWebhook(wx, wh), InWebhook(wx, Record(id)))
    ensures id in LocHolders(w.tables, wx.event.locationId)
  {
    hide Reaches;
    ReachedBy(w, InWebhook(wx, wh), InWebhook(wx, Record(id)));
    var r :| Way(w, InWebhook(wx, wh), r, InWebhook(wx, Record(id)));
    var next := WebhookResume(wx, wh, r);
    assert next.Done? || next == InWebhook(wx, Record(r.id));
    ReachesNothing(w, next, InWebhook(wx, Record(id)));
  }

  lemma InstallFinds(w: World, wx: WebhookCtx, id: Id)
    requires id in ExtFirst(w.tables, wx.event.locationId)
    ensures Reaches(w, InWebhook(wx, ResolveExternal), InWebhook(wx, Record(id)))
  {
    hide Reaches;
    var t, loc := w.tables, wx.event.locationId;
    var pc, target := InWebhook(wx, ResolveExternal), InWebhook(wx, Record(id));
    if id in ExtHolders(t, loc) {
      ReachesNow(w, target);
      ReachesBy(w, pc, FoundIntegration(id, t.integrations[id]), target);
    } else {
      NobodyHolds(t, loc);
      ConfigFinds(w, wx, ResolveConfig, id);
      ReachesBy(w, pc, Err(NotFound), target);
    }
  }

  lemma InstallFindsOnly(w: World, wx: WebhookCtx, id: Id)
    requires Reaches(w, InWebhook(wx, ResolveExternal), InWebhook(wx, Record(id)))
    ensures id in ExtFirst(w.tables, wx.event.locationId)
  {
    hide Reaches;
    var target := InWebhook(wx, Record(id));
    ReachedBy(w, InWebhook(wx, ResolveExternal), target);
    var r :| Way(w, InWebhook(wx, ResolveExternal), r, target);
    if r.FoundIntegration? {
      ReachesNothing(w, WebhookResume(wx, ResolveExternal, r), target);
      assert r.id in ExtHolders(w.tables, wx.event.locationId);
    } else {
      ConfigFindsOnly(w, wx, ResolveConfig, id);
      assert ExtHolders(w.tables, wx.event.locationId) == {};
    }
  }

  /** Marketplace events look at external account ids first if they are INSTALLs, at configurations only if not. */
  lemma WebhookResolution(w: World, wx: WebhookCtx, id: Id)
    requires wx.event.locationId != ""
    ensures var t, loc := w.tables, wx.event.locationId;
            WebhookResolves(w, wx, id) <==>
              id in if wx.event.eventType in {"INSTALL", "integration.installed"} then ExtFirst(t, loc) else LocHolders(t, loc)
  {
    if IsInstall(wx.event) {
      if WebhookResolves(w, wx, id) { InstallFindsOnly(w, wx, id); }
      if id in ExtFirst(w.tables, wx.event.locationId) { InstallFinds(w, wx, id); }
    } else {
      if WebhookResolves(w, wx, id) { ConfigFindsOnly(w, wx, ResolveOther, id); }
      if id in LocHolders(w.tables, wx.event.locationId) { ConfigFinds(w, wx, ResolveOther, id); }
    }
  }

  lemma NobodyHolds(t: Tables, loc: string)
    requires ExtHolders(t, loc) == {}
    ensures forall i :: i in t.integrations ==> t.integrations[i].externalAccountId != loc
  {
    assert forall i :: i in t.integrations && t.integrations[i].externalAccountId == loc ==> i in ExtHolders(t, loc);
  }

  // The INSTALL handler resolves the location a second time, down to the integration row.

  lemma DispatchConfigFinds(w: World, wx: WebhookCtx, id: Id)
    requires SchemaInv(w.tables) && id in LocHolders(w.tables, wx.event.locationId)
    ensures Reaches(w, InWebhook(wx, InstallConfig), InWebhook(wx, InstallFind(id)))
  {
    hide Reaches;
    DispatchByIdFinds(w, wx, id);
    ReachesBy(w, InWebhook(wx, InstallConfig), FoundConfig(id, w.tables.configs[id]), InWebhook(wx, InstallFind(id)));
  }

  lemma DispatchByIdFinds(w: World, wx: WebhookCtx, id: Id)
    requires id in w.tables.integrations
    ensures Reaches(w, InWebhook(wx, InstallById(id)), InWebhook(wx, InstallFind(id)))
  {
    hide Reaches;
    ReachesNow(w, InWebhook(wx, InstallFind(id)));
    ReachesBy(w, InWebhook(wx, InstallById(id)), FoundIntegration(id, w.tables.integrations[id]), InWebhook(wx, InstallFind(id)));
  }

  lemma DispatchFinds(w: World, wx: WebhookCtx, id: Id)
    requires SchemaInv(w.tables) && id in ExtFirst(w.tables, wx.event.locationId)
    ensures DispatchResolves(w, wx, id)
  {
    hide Reaches;
    var t, loc := w.tables, wx.event.locationId;
    var pc, target := InWebhook(wx, InstallExternal), InWebhook(wx, InstallFind(id));
    if id in ExtHolders(t, loc) {
      ReachesNow(w, target);
      ReachesBy(w, pc, FoundIntegration(id, t.integrations[id]), target);
    } else {
      NobodyHolds(t, loc);
      DispatchConfigFinds(w, wx, id);
      ReachesBy(w, pc, Err(NotFound), target);
    }
  }

  lemma FindLeadsOn(w: World, wx: WebhookCtx, i: Id, id: Id)
    requires Reaches(w, InWebhook(wx, InstallFind(i)), InWebhook(wx, InstallFind(id)))
    ensures i == id
  {
    hide Reaches;
    if i != id {
      ReachedBy(w, InWebhook(wx, InstallFind(i)), InWebhook(wx, InstallFind(id)));
      var r :| Way(w, InWebhook(wx, InstallFind(i)), r, InWebhook(wx, InstallFind(id)));
      ReachesNothing(w, WebhookResume(wx, InstallFind(i), r), InWebhook(wx, InstallFind(id)));
    }
  }

  lemma ByIdLeadsOn(w: World, wx: WebhookCtx, i: Id, id: Id)
    requires Reaches(w, InWebhook(wx, InstallById(i)), InWebhook(wx, InstallFind(id)))
    ensures i == id
  {
    hide Reaches;
    var target := InWebhook(wx, InstallFind(id));
    ReachedBy(w, InWebhook(wx, InstallById(i)), target);
    var r :| Way(w, InWebhook(wx, InstallById(i)), r, target);
    if r.FoundIntegration? {
      FindLeadsOn(w, wx, i, id);
    } else {
      ReachesNothing(w, WebhookResume(wx, InstallById(i), r), target);
    }
  }

  lemma DispatchConfigFindsOnly(w: World, wx: WebhookCtx, id: Id)
    requires Reaches(w, InWebhook(wx, InstallConfig), InWebhook(wx, InstallFind(id)))
    ensures id in LocHolders(w.tables, wx.event.locationId)
  {
    hide Reaches;
    var target := InWebhook(wx, InstallFind(id));
    ReachedBy(w, InWebhook(wx, InstallConfig), target);
    var r :| Way(w, InWebhook(wx, InstallConfig), r, target);
    if r.FoundConfig? {
      ByIdLeadsOn(w, wx, r.id, id);
    } else {
      ReachesNothing(w, WebhookResume(wx, InstallConfig, r), target);
    }
  }

  lemma DispatchFindsOnly(w: World, wx: WebhookCtx, id: Id)
    requires DispatchResolves(w, wx, id)
    ensures id in ExtFirst(w.tables, wx.event.locationId)
  {
    hide Reaches;
    ReachedBy(w, InWebhook(wx, InstallExternal), InWebhook(wx, InstallFind(id)));
    var r :| Way(w, InWebhook(wx, InstallExternal), r, InWebhook(wx, InstallFind(id)));
    if r.FoundIntegration? {
      FindLeadsOn(w, wx, r.id, id);
      assert r.id in ExtHolders(w.tables, wx.event.locationId);
    } else {
      DispatchConfigFindsOnly(w, wx, id);
      assert ExtHolders(w.tables, wx.event.locationId) == {};
    }
  }

  // A callback without a state ends up with a client and platform, which name one integration.

  lemma CallbackConfigFinds(w: World, cx: CallbackCtx, loc: string, id: Id)
    requires SchemaInv(w.tables) && id in LocHolders(w.tables, loc)
    ensures Reaches(w, InCallback(cx, ByConfigLocation(loc)), InCallback(cx, CheckPlatform(PairOf(w.tables, id))))
  {
    hide Reaches;
    CallbackByIdFinds(w, cx, id);
    ReachesBy(w, InCallback(cx, ByConfigLocation(loc)), FoundConfig(id, w.tables.configs[id]),
              InCallback(cx, CheckPlatform(PairOf(w.tables, id))));
  }

  lemma CallbackByIdFinds(w: World, cx: CallbackCtx, id: Id)
    requires id in w.tables.integrations
    ensures Reaches(w, InCallback(cx, ById(id)), InCallback(cx, CheckPlatform(PairOf(w.tables, id))))
  {
    hide Reaches;
    var target := InCallback(cx, CheckPlatform(PairOf(w.tables, id)));
    ReachesNow(w, target);
    ReachesBy(w, InCallback(cx, ById(id)), FoundIntegration(id, w.tables.integrations[id]), target);
  }

  lemma CallbackFinds(w: World, cx: CallbackCtx, loc: string, id: Id)
    requires SchemaInv(w.tables) && id in ExtFirst(w.tables, loc)
    ensures CallbackResolves(w, cx, loc, PairOf(w.tables, id))
  {
    hide Reaches;
    var t := w.tables;
    var pc, target := InCallback(cx, ByExternalAccount(loc)), InCallback(cx, CheckPlatform(PairOf(t, id)));
    if id in ExtHolders(t, loc) {
      ReachesNow(w, target);
      ReachesBy(w, pc, FoundIntegration(id, t.integrations[id]), target);
    } else {
      NobodyHolds(t, loc);
      CallbackConfigFinds(w, cx, loc, id);
      ReachesBy(w, pc, Err(NotFound), target);
    }
  }

  /** Whatever the two lookups say, they do not bring the callback back to them with another pair. */
  lemma ChecksLeadOn(cx: CallbackCtx, from: Pair, r: Reply, r2: Reply)
    ensures var next := CallbackResume(cx, CheckPlatform(from), r); next.Done? || next == InCallback(cx, CheckClient(from))
    ensures var next := CallbackResume(cx, CheckClient(from), r2); next.Done? || next == InCallback(cx, Exchange(from))
  {
  }

  lemma PlatformLeadsOn(w: World, cx: CallbackCtx, from: Pair, at: Pair)
    requires Reaches(w, InCallback(cx, CheckPlatform(from)), InCallback(cx, CheckPlatform(at)))
    ensures from == at
  {
    hide Reaches, CallbackResume, RegisterResume, WebhookResume, PaymentResume, AdminResume, RegisterCall, WebhookCall,
         PaymentCall, AdminCall;
    var target := InCallback(cx, CheckPlatform(at));
    if from != at {
      ReachedBy(w, InCallback(cx, CheckPlatform(from)), target);
      var r :| Way(w, InCallback(cx, CheckPlatform(from)), r, target);
      ChecksLeadOn(cx, from, r, r);
      var next := CallbackResume(cx, CheckPlatform(from), r);
      if next.Done? {
        ReachesNothing(w, next, target);
      } else {
        ReachedBy(w, next, target);
        var r2 :| Way(w, next, r2, target);
        ChecksLeadOn(cx, from, r, r2);
        ReachesNothing(w, CallbackResume(cx, CheckClient(from), r2), target);
      }
    }
  }

  lemma CallbackByIdFindsOnly(w: World, cx: CallbackCtx, i: Id, at: Pair)
    requires Reaches(w, InCallback(cx, ById(i)), InCallback(cx, CheckPlatform(at)))
    ensures i in w.tables.integrations && PairOf(w.tables, i) == at
  {
    hide Reaches;
    var target := InCallback(cx, CheckPlatform(at));
    ReachedBy(w, InCallback(cx, ById(i)), target);
    var r :| Way(w, InCallback(cx, ById(i)), r, target);
    if r.FoundIntegration? {
      PlatformLeadsOn(w, cx, PairOf(w.tables, i), at);
    } else {
      ReachesNothing(w, CallbackResume(cx, ById(i), r), target);
    }
  }

  lemma CallbackFindsOnly(w: World, cx: CallbackCtx, loc: string, at: Pair)
    requires SchemaInv(w.tables) && CallbackResolves(w, cx, loc, at)
    ensures exists id :: id in ExtFirst(w.tables, loc) && PairOf(w.tables, id) == at
  {
    hide Reaches;
    var target := InCallback(cx, CheckPlatform(at));
    ReachedBy(w, InCallback(cx, ByExternalAccount(loc)), target);
    var r :| Way(w, InCallback(cx, ByExternalAccount(loc)), r, target);
    if r.FoundIntegration? {
      PlatformLeadsOn(w, cx, PairOf(w.tables, r.id), at);
      assert r.id in ExtHolders(w.tables, loc);
    } else {
      CallbackConfigFindsOnly(w, cx, loc, at);
      assert ExtHolders(w.tables, loc) == {};
    }
  }

  lemma CallbackConfigFindsOnly(w: World, cx: CallbackCtx, loc: string, at: Pair)
    requires SchemaInv(w.tables) && Reaches(w, InCallback(cx, ByConfigLocation(loc)), InCallback(cx, CheckPlatform(at)))
    ensures exists id :: id in LocHolders(w.tables, loc) && PairOf(w.tables, id) == at
  {
    hide Reaches;
    var target := InCallback(cx, CheckPlatform(at));
    ReachedBy(w, InCallback(cx, ByConfigLocation(loc)), target);
    var r :| Way(w, InCallback(cx, ByConfigLocation(loc)), r, target);
    if r.FoundConfig? {
      CallbackByIdFindsOnly(w, cx, r.id, at);
      assert r.id in LocHolders(w.tables, loc);
    } else {
      ReachesNothing(w, CallbackResume(cx, ByConfigLocation(loc), r), target);
    }
  }

  // A payment webhook resolves by configuration, and has to know that configuration's key.

  lemma PaymentResolution(w: World, ev: PaymentEvent, id: Id)
    ensures PaymentResolves(w, ev, id) <==>
            id in LocHolders(w.tables, ev.locationId) && w.tables.configs[id].apiKey == ev.apiKey && !Blank(ev.apiKey)
  {
    hide Reaches;
    var pc, target := InPayment(PayConfig(ev)), InPayment(PayIntegration(ev, id));
    if PaymentResolves(w, ev, id) {
      ReachedBy(w, pc, target);
      var r :| Way(w, pc, r, target);
      PaymentLeadsOn(w, ev, Resume(pc, r), id);
    }
    if id in LocHolders(w.tables, ev.locationId) && w.tables.configs[id].apiKey == ev.apiKey && !Blank(ev.apiKey) {
      ReachesNow(w, target);
      ReachesBy(w, pc, FoundConfig(id, w.tables.configs[id]), target);
    }
  }

  lemma PaymentLeadsOn(w: World, ev: PaymentEvent, pc: Pc, id: Id)
    requires pc.Done? || (pc.InPayment? && pc.py.PayIntegration?)
    requires Reaches(w, pc, InPayment(PayIntegration(ev, id)))
    ensures pc == InPayment(PayIntegration(ev, id))
  {
    hide Reaches;
    var target := InPayment(PayIntegration(ev, id));
    if pc != target {
      ReachedBy(w, pc, target);
      var r :| Way(w, pc, r, target);
      ReachesNothing(w, Resume(pc, r), target);
    }
  }

  // ---- Agreement ----

  /** The three resolvers of an installation can answer exactly the same integrations on any one state. */
  lemma InstallResolversAgree(w: World, wx: WebhookCtx, cx: CallbackCtx, id: Id)
    requires SchemaInv(w.tables) && wx.event.eventType in {"INSTALL", "integration.installed"}
    requires wx.event.locationId != "" && id in w.tables.integrations
    ensures WebhookResolves(w, wx, id) <==> DispatchResolves(w, wx, id)
    ensures DispatchResolves(w, wx, id) <==> CallbackResolves(w, cx, wx.event.locationId, PairOf(w.tables, id))
  {
    WebhookResolution(w, wx, id);
    if DispatchResolves(w, wx, id) {
      DispatchFindsOnly(w, wx, id);
      CallbackFinds(w, cx, wx.event.locationId, id);
    }
    if CallbackResolves(w, cx, wx.event.locationId, PairOf(w.tables, id)) {
      CallbackFindsOnly(w, cx, wx.event.locationId, PairOf(w.tables, id));
      DispatchFinds(w, wx, id);
    }
    if WebhookResolves(w, wx, id) {
      DispatchFinds(w, wx, id);
    }
  }

  // ---- Tenant safety ----

  /** A location names one integration: as an external account id, as a configured location, and across the two. */
  ghost predicate Safe(t: Tables) {
    && (forall i, j :: i in t.integrations && j in t.integrations && t.integrations[i].externalAccountId != ""
                       && t.integrations[i].externalAccountId == t.integrations[j].externalAccountId
          ==> i == j)
    && (forall i, j :: i in t.configs && j in t.configs && t.configs[i].config.locationId != ""
                       && t.configs[i].config.locationId == t.configs[j].config.locationId
          ==> i == j)
    && (forall i, j :: i in t.configs && j in t.integrations && t.configs[i].config.locationId != ""
                       && t.configs[i].config.locationId == t.integrations[j].externalAccountId
          ==> i == j)
  }

  /** Some marketplace or payment event of this location can be resolved to this integration. */
  ghost predicate Resolvable(w: World, loc: string, id: Id) {
    || (exists wx: WebhookCtx :: wx.event.locationId == loc && WebhookResolves(w, wx, id))
    || (exists ev: PaymentEvent :: ev.locationId == loc && PaymentResolves(w, ev, id))
  }

  lemma Resolvables(w: World, loc: string, id: Id)
    requires loc != ""
    ensures Resolvable(w, loc, id) <==> id in Named(w.tables, loc)
  {
    var settings := Settings("", "", "", "", "");
    var install, other := WebhookCtx(settings, Event("INSTALL", "", None, loc)), WebhookCtx(settings, Event("", "", None, loc));
    WebhookResolution(w, install, id);
    WebhookResolution(w, other, id);
    forall wx: WebhookCtx | wx.event.locationId == loc && WebhookResolves(w, wx, id)
      ensures id in Named(w.tables, loc)
    {
      WebhookResolution(w, wx, id);
    }
    forall ev: PaymentEvent | ev.locationId == loc && PaymentResolves(w, ev, id) ensures id in LocHolders(w.tables, loc) {
      PaymentResolution(w, ev, id);
    }
  }

  /** What some event of the location can be resolved to. */
  function Named(t: Tables, loc: string): set<Id> { ExtFirst(t, loc) + LocHolders(t, loc) }

  lemma SafeNamesOne(t: Tables, loc: string, i: Id, j: Id)
    requires Safe(t) && loc != "" && i in Named(t, loc) && j in Named(t, loc)
    ensures i == j
  {
    if ExtHolders(t, loc) != {} {
      var k :| k in ExtHolders(t, loc);
      assert i == k && j == k;
    }
  }

  lemma NamingOneIsSafe(t: Tables)
    requires forall loc, i, j :: loc != "" && i in Named(t, loc) && j in Named(t, loc) ==> i == j
    ensures Safe(t)
  {
    forall i | i in t.integrations ensures i in Named(t, t.integrations[i].externalAccountId) {
      assert i in ExtHolders(t, t.integrations[i].externalAccountId);
    }
    forall i | i in t.configs ensures i in Named(t, t.configs[i].config.locationId) {
      assert i in LocHolders(t, t.configs[i].config.locationId);
    }
  }

  /** Events of one location go to one integration, whatever their kind, exactly if no two integrations share it. */
  lemma SafeMeansUnambiguous(w: World)
    ensures Safe(w.tables) <==>
            forall loc, i, j :: loc != "" && Resolvable(w, loc, i) && Resolvable(w, loc, j) ==> i == j
  {
    var t := w.tables;
    forall loc, i | loc != "" ensures Resolvable(w, loc, i) <==> i in Named(t, loc) {
      Resolvables(w, loc, i);
    }
    if Safe(t) {
      forall loc, i, j | loc != "" && i in Named(t, loc) && j in Named(t, loc) ensures i == j {
        SafeNamesOne(t, loc, i, j);
      }
    }
    if forall loc, i, j :: loc != "" && i in Named(t, loc) && j in Named(t, loc) ==> i == j {
      NamingOneIsSafe(t);
    }
  }

  // ---- Steps ----

  /** Nobody uses this external account id, neither as such nor as a configured location. */
  ghost predicate Free(t: Tables, ext: string) {
    ext == "" || (ExtHolders(t, ext) == {} && LocHolders(t, ext) == {})
  }

  /** Nobody but this integration uses this location. */
  ghost predicate FreeFor(t: Tables, id: Id, loc: string) {
    loc == "" || (ExtHolders(t, loc) <= {id} && LocHolders(t, loc) <= {id})
  }

  lemma SharingIsUnsafe(t: Tables, loc: string, i: Id, j: Id)
    requires loc != "" && i != j
    requires (i in ExtHolders(t, loc) && j in ExtHolders(t, loc)) || (i in LocHolders(t, loc) && j in ExtHolders(t, loc))
             || (i in LocHolders(t, loc) && j in LocHolders(t, loc))
    ensures !Safe(t)
  {
  }

  lemma FreeInsertIsSafe(t: Tables, row: Integration)
    requires SchemaInv(t) && Safe(t) && Free(t, row.externalAccountId)
    ensures Safe(t.(integrations := t.integrations[t.nextId := row], nextId := t.nextId + 1))
  {
    var ext := row.externalAccountId;
    assert forall i :: i in t.integrations && t.integrations[i].externalAccountId == ext ==> i in ExtHolders(t, ext);
    assert forall i :: i in t.configs && t.configs[i].config.locationId == ext ==> i in LocHolders(t, ext);
  }

  lemma InsertKeepsSafeIff(t: Tables, row: Integration)
    requires SchemaInv(t) && Safe(t)
    ensures Safe(t.(integrations := t.integrations[t.nextId := row], nextId := t.nextId + 1)) <==> Free(t, row.externalAccountId)
  {
    var ext := row.externalAccountId;
    var t' := t.(integrations := t.integrations[t.nextId := row], nextId := t.nextId + 1);
    if Free(t, ext) {
      FreeInsertIsSafe(t, row);
    } else if i :| i in ExtHolders(t, ext) {
      SharingIsUnsafe(t', ext, t.nextId, i);
    } else {
      var i :| i in LocHolders(t, ext);
      SharingIsUnsafe(t', ext, i, t.nextId);
    }
  }

  lemma FreeConfigIsSafe(t: Tables, id: Id, row: ConfigRow)
    requires Safe(t) && FreeFor(t, id, row.config.locationId)
    ensures Safe(t.(configs := t.configs[id := row]))
  {
    var loc := row.config.locationId;
    assert forall i :: i in t.integrations && t.integrations[i].externalAccountId == loc ==> i in ExtHolders(t, loc);
    assert forall i :: i in t.configs && t.configs[i].config.locationId == loc ==> i in LocHolders(t, loc);
  }

  lemma ConfigKeepsSafeIff(t: Tables, id: Id, row: ConfigRow)
    requires Safe(t)
    ensures Safe(t.(configs := t.configs[id := row])) <==> FreeFor(t, id, row.config.locationId)
  {
    var loc := row.config.locationId;
    var t' := t.(configs := t.configs[id := row]);
    if FreeFor(t, id, loc) {
      FreeConfigIsSafe(t, id, row);
    } else if i :| i in ExtHolders(t, loc) && i != id {
      SharingIsUnsafe(t', loc, id, i);
    } else {
      var i :| i in LocHolders(t, loc) && i != id;
      SharingIsUnsafe(t', loc, i, id);
    }
  }

  /** What a call must not do for tenants to stay apart: give an integration a location that another one holds. */
  ghost predicate Proper(t: Tables, pc: Pc, call: Call, r: Reply) {
    && (call.CreateIntegration? && r.FoundIntegration? ==> Free(t, call.row.externalAccountId))
    && (pc.InRegister? && (call.CreateConfig? || call.UpdateConfig?) && r.FoundConfig? ==>
          FreeFor(t, call.id, call.config.locationId))
  }

  ghost predicate Considerate(s: State, l: Label) {
    l.Act? && l.pid in s.procs && !s.procs[l.pid].pc.Done? ==>
      Proper(s.world.tables, s.procs[l.pid].pc, NextCall(s.procs[l.pid].pc), l.reply)
  }

  lemma SmallerIsSafe(t: Tables, t': Tables)
    requires Safe(t)
    requires forall i :: i in t'.integrations ==>
               i in t.integrations && t'.integrations[i].externalAccountId == t.integrations[i].externalAccountId
    requires forall i :: i in t'.configs ==> i in t.configs && t'.configs[i] == t.configs[i]
    ensures Safe(t')
  {
  }

  /** An INSTALL inserts a configuration only where the location is the integration's own external account id. */
  lemma InstallIsConsiderate(t: Tables, id: Id, loc: string)
    requires Safe(t) && id in t.integrations && t.integrations[id].externalAccountId == loc && id !in t.configs
    ensures FreeFor(t, id, loc)
  {
  }

  /** The tables of one call, in terms of its effect on integrations and configurations. */
  ghost predicate OnTenants(t: Tables, call: Call, r: Reply, t': Tables) {
    if call.CreateIntegration? && r.FoundIntegration?
    then t' == t.(integrations := t.integrations[t.nextId := call.row], nextId := t.nextId + 1)
    else if (call.CreateConfig? || call.UpdateConfig?) && r.FoundConfig?
    then call.id in t.integrations && (call.CreateConfig? ==> call.id !in t.configs)
         && t' == t.(configs := t.configs[call.id := ConfigRow(call.config, call.apiKey)])
    else && (forall i :: i in t'.integrations ==>
               i in t.integrations && t'.integrations[i].externalAccountId == t.integrations[i].externalAccountId)
         && (forall i :: i in t'.configs ==> i in t.configs && t'.configs[i] == t.configs[i])
  }

  lemma IntegrationOnTenants(w: World, call: Call, r: Reply, w': World)
    requires IsIntegrationWrite(call) && ((Fault(r) && w' == w) || IntegrationWrite(w, call, r, w'))
    ensures OnTenants(w.tables, call, r, w'.tables)
  {
  }

  lemma ConfigOnTenants(w: World, call: Call, r: Reply, w': World)
    requires SchemaInv(w.tables) && IsConfigWrite(call) && ((Fault(r) && w' == w) || ConfigWrite(w, call, r, w'))
    ensures OnTenants(w.tables, call, r, w'.tables)
  {
  }

  lemma OthersOnTenants(w: World, call: Call, r: Reply, w': World)
    requires !IsIntegrationWrite(call) && !IsConfigWrite(call) && Frames(w, call, w')
    ensures OnTenants(w.tables, call, r, w'.tables)
  {
  }

  lemma CallOnTenants(w: World, call: Call, r: Reply, w': World)
    requires SchemaInv(w.tables) && Answers(w, call, r, w')
    ensures OnTenants(w.tables, call, r, w'.tables)
  {
    hide OnTenants, SchemaInv, IntegrationWrite, ConfigWrite;
    if IsIntegrationWrite(call) {
      IntegrationOnTenants(w, call, r, w');
    } else if IsConfigWrite(call) {
      ConfigOnTenants(w, call, r, w');
    } else {
      CallFrames(w, call, r, w');
      OthersOnTenants(w, call, r, w');
    }
  }

  /** In every interleaving a step keeps tenants apart exactly if it is considerate; INSTALL steps always are. */
  lemma StepKeepsSafeIff(base: map<string, ProviderConfig>, s: State, l: Label, s': State)
    requires SchemaInv(s.world.tables) && RegisterInv(base, s) && Step(s, l, s') && Safe(s.world.tables)
    ensures Safe(s'.world.tables) <==> Considerate(s, l)
  {
    if l.Act? {
      var p, call := s.procs[l.pid], NextCall(s.procs[l.pid].pc);
      CallOnTenants(s.world, call, l.reply, s'.world);
      AllRegisterFlows(p.pc, l.reply);
      assert ResolvedOk(s.world, p);
      CallKeepsSafeIff(s.world.tables, p.pc, call, l.reply, s'.world.tables, Resume(p.pc, l.reply));
    }
  }

  lemma CallKeepsSafeIff(t: Tables, pc: Pc, call: Call, r: Reply, t': Tables, next: Pc)
    requires SchemaInv(t) && Safe(t) && RegisterFlows(pc, call, r, next) && OnTenants(t, call, r, t')
    requires pc.InWebhook? && pc.wh.InstallCreate? && pc.wh.id in t.integrations ==>
               pc.wh.id in t.configs || t.integrations[pc.wh.id].externalAccountId == pc.wx.event.locationId
    ensures Safe(t') <==> Proper(t, pc, call, r)
  {
    if call.CreateIntegration? && r.FoundIntegration? {
      InsertKeepsSafeIff(t, call.row);
    } else if (call.CreateConfig? || call.UpdateConfig?) && r.FoundConfig? {
      ConfigKeepsSafeIff(t, call.id, ConfigRow(call.config, call.apiKey));
      if !pc.InRegister? {
        InstallIsConsiderate(t, call.id, call.config.locationId);
      }
    } else {
      SmallerIsSafe(t, t');
    }
  }

  // ---- Runs ----

  ghost predicate AlwaysSafe(r: Run) {
    Safe(Last(r).world.tables) && (r.Then? ==> AlwaysSafe(r.before))
  }

  ghost predicate AlwaysConsiderate(r: Run) {
    r.Then? ==> Considerate(Last(r.before), r.step) && AlwaysConsiderate(r.before)
  }

  /** Tenants stay apart throughout a run exactly if no provisioning, callback or registration ever gives an
      integration a location that another one holds. Nothing else in the service can mix them up. */
  lemma {:induction false} RunIsSafeIff(r: Run)
    requires Valid(r)
    ensures AlwaysSafe(r) <==> AlwaysConsiderate(r)
  {
    if r.Then? {
      RunIsSafeIff(r.before);
      RunKeepsSchema(r.before);
      RunKeepsRegister(r.before);
      if Safe(Last(r.before).world.tables) {
        StepKeepsSafeIff(Base(r.before), Last(r.before), r.step, r.after);
      }
    }
  }

  // ---- The service itself does not insist on it ----

  lemma TwoHolders(w: World, loc: string)
    requires w.tables == EMPTY_TABLES && loc != ""
    ensures Vacant(w, Pair(0, 0)) && Vacant(Provisioned(w, Pair(0, 0), loc), Pair(1, 0))
    ensures var w' := Provisioned(Provisioned(w, Pair(0, 0), loc), Pair(1, 0), loc);
            0 in Named(w'.tables, loc) && 1 in Named(w'.tables, loc)
  {
    var w' := Provisioned(Provisioned(w, Pair(0, 0), loc), Pair(1, 0), loc);
    assert 0 in ExtHolders(w'.tables, loc) && 1 in ExtHolders(w'.tables, loc);
  }

  /** From a fresh deployment two clients can be provisioned with one location: from then on its INSTALL may go to
      either of them. */
  lemma LocationsCanBeShared(start: State, loc: string)
    requires Initial(start) && loc != ""
    ensures exists c :: CanReach(start, c) && Resolvable(c.world, loc, 0) && Resolvable(c.world, loc, 1)
  {
    hide CanReach, Resolvable, CanGo;
    var w, a, b := start.world, Pair(0, 0), Pair(1, 0);
    var w1, w2 := Provisioned(w, a, loc), Provisioned(Provisioned(w, a, loc), b, loc);
    var c0 := Point(map[], map[], w, {});
    var c1 := After(c0, 0, Install(0, 0, loc), Done(Completed), w1);
    TwoHolders(w, loc);
    StartsThere(start);
    InstallGoes(w, a, loc);
    Serves(start, c0, 0, Install(0, 0, loc), w1, Done(Completed));
    InstallGoes(w1, b, loc);
    Serves(start, c1, 1, Install(1, 0, loc), w2, Done(Completed));
    Resolvables(w2, loc, 0);
    Resolvables(w2, loc, 1);
  }
}
