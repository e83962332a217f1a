/** The webhook service and the INSTALL handler it dispatches to, step by step as they are written. */
module WebhookService {
  import opened Schema
  import opened Calls
  import opened Program
  import opened Machine
  import opened Backend

  class Service {
    const db: Database

    constructor (db: Database)
      ensures this.db == db
    {
      this.db := db;
    }

    /** The integration an event is recorded under: by location where it has one, otherwise the app it names. */
    predicate Belongs(t: Tables, ev: Event, id: Id) {
      if ev.locationId == "" then ev.appId == Some(id)
      else id in if ev.eventType in {"INSTALL", "integration.installed"} then ExtFirst(t, ev.locationId) else LocHolders(t, ev.locationId)
    }

    /** A marketplace event. Undisturbed, it follows its program; it records at most the one event, and existing
        configurations stay as they are; a replay changes nothing and comes back as an internal error. */
    method ProcessWebhook(providerId: string, signed: bool, parsed: Option<Event>) returns (o: Outcome)
      requires db.Valid()
      modifies db
      ensures db.At(Done(o)) && db.request == Webhook(providerId, signed, parsed)
      ensures db.events == old(db.events) ||
              exists key :: key !in old(db.events) && db.events == old(db.events) + {key} && parsed.Some?
                && key.1 == parsed.value.eventId && Belongs(old(db.Tables()), parsed.value, key.0)
      ensures forall i :: i in old(db.configs) ==> i in db.configs && db.configs[i] == old(db.configs[i])
      ensures db.events == old(db.events) ==> o.Failed? && db.Tables() == old(db.Tables()) && db.history.effects == old(db.history.effects)
      ensures o.Installed? ==> o.id in db.configs
      ensures o.Installed? && o.id !in old(db.configs) ==>
                parsed.Some? && db.configs[o.id].apiKey == "" && Announces(db.configs[o.id].config, db.settings, parsed.value.locationId)
      ensures o.Installed? || db.configs != old(db.configs) ==>
                parsed.Some? && parsed.value.eventType in {"INSTALL", "integration.installed"}
      ensures o.Dispatched? ==> parsed.Some? && parsed.value.eventType !in {"INSTALL", "integration.installed"}
      ensures db.events != old(db.events) ==> providerId == "highlevel" && signed && parsed.Some?
      ensures providerId != "highlevel" ==> o == Failed(ProviderNotSupported)
      ensures providerId == "highlevel" && !signed ==> o == Failed(InvalidSignature)
      ensures providerId == "highlevel" && signed && parsed.None? ==> o == Failed(InvalidPayload)
    {
      hide Database.At, Database.Valid, Database.Took, CallbackCall, CallbackResume, RegisterCall, RegisterResume,
           PaymentCall, PaymentResume, AdminCall, AdminResume, ExtHolders, LocHolders;
      db.Accept(Webhook(providerId, signed, parsed));
      if !Supported(providerId) {
        return Failed(ProviderNotSupported);
      }
      if !signed {
        return Failed(InvalidSignature);
      }
      if parsed.None? {
        return Failed(InvalidPayload);
      }
      o := Process(WebhookCtx(db.settings, parsed.value));
    }

    method Process(wx: WebhookCtx) returns (o: Outcome)
      requires wx.settings == db.settings && db.At(StartWebhook(wx))
      modifies db
      ensures db.At(Done(o)) && db.request == old(db.request)
      ensures db.events == old(db.events) ||
              exists key :: key !in old(db.events) && db.events == old(db.events) + {key}
                && key.1 == wx.event.eventId && Belongs(old(db.Tables()), wx.event, key.0)
      ensures forall i :: i in old(db.configs) ==> i in db.configs && db.configs[i] == old(db.configs[i])
      ensures db.events == old(db.events) ==> o.Failed? && db.Tables() == old(db.Tables()) && db.history.effects == old(db.history.effects)
      ensures o.Installed? ==> o.id in db.configs
      ensures o.Installed? && o.id !in old(db.configs) ==>
                db.configs[o.id].apiKey == "" && Announces(db.configs[o.id].config, db.settings, wx.event.locationId)
      ensures o.Installed? || db.configs != old(db.configs) ==> IsInstall(wx.event)
      ensures o.Dispatched? ==> !IsInstall(wx.event)
    {
      hide Database.At, Database.Valid, Database.Took, CallbackCall, CallbackResume, RegisterCall, RegisterResume,
           PaymentCall, PaymentResume, AdminCall, AdminResume, ExtHolders, LocHolders;
      var id: Id;
      if wx.event.locationId != "" {
        var resolved := Resolve(wx);
        if resolved.1.Some? {
          return Failed(resolved.1.value);
        }
        id := resolved.0;
      } else {
        if wx.event.appId.None? {
          return Failed(InvalidPayload);
        }
        id := wx.event.appId.value;
      }
      var key := (id, wx.event.eventId);
      var recorded := db.CreateEvent(key, InWebhook(wx, Record(id)));
      if recorded == Err(Duplicate) {
        return Failed(DuplicateEvent);
      }
      if recorded.Err? {
        return Failed(Translate(recorded.error));
      }
      o := Deliver(wx, id);
    }

    method Resolve(wx: WebhookCtx) returns (resolved: (Id, Option<Error>))
      requires wx.settings == db.settings && db.At(StartWebhook(wx)) && wx.event.locationId != ""
      modifies db`run
      ensures db.request == old(db.request)
      ensures match resolved.1
              case None =>
                && db.At(InWebhook(wx, Record(resolved.0)))
                && resolved.0 in if IsInstall(wx.event) then ExtFirst(db.Tables(), wx.event.locationId)
                                 else LocHolders(db.Tables(), wx.event.locationId)
              case Some(e) => db.At(Fail(e))
    {
      hide Database.At, Database.Valid, Database.Took, CallbackCall, CallbackResume, RegisterCall, RegisterResume,
           PaymentCall, PaymentResume, AdminCall, AdminResume, IsInstall;
      var loc := wx.event.locationId;
      if IsInstall(wx.event) {
        var integration := db.GetByExternalAccountID(loc, InWebhook(wx, ResolveExternal));
        if integration == Err(NotFound) {
          var config := db.GetConfigByLocation(loc, InWebhook(wx, ResolveConfig));
          if config == Err(NotFound) {
            return (0, Some(IntegrationNotFound));
          }
          if config.Err? {
            return (0, Some(Translate(config.error)));
          }
          return (config.id, None);
        }
        if integration.Err? {
          return (0, Some(Translate(integration.error)));
        }
        return (integration.id, None);
      }
      var config := db.GetConfigByLocation(loc, InWebhook(wx, ResolveOther));
      if config == Err(NotFound) {
        return (0, Some(IntegrationNotFound));
      }
      if config.Err? {
        return (0, Some(Translate(config.error)));
      }
      return (config.id, None);
    }

    /** A recorded event: INSTALLs go straight to their handler, others need a subscription under endpoint "". */
    method Deliver(wx: WebhookCtx, id: Id) returns (o: Outcome)
      requires wx.settings == db.settings && db.At(InWebhook(wx, if IsInstall(wx.event) then Hand(id) else CheckSubscription(id)))
      modifies db
      ensures db.At(Done(o)) && db.request == old(db.request) && db.events == old(db.events)
      ensures forall i :: i in old(db.configs) ==> i in db.configs && db.configs[i] == old(db.configs[i])
      ensures o.Installed? ==> o.id in db.configs
      ensures o.Installed? && o.id !in old(db.configs) ==>
                db.configs[o.id].apiKey == "" && Announces(db.configs[o.id].config, db.settings, wx.event.locationId)
      ensures o.Installed? ==> IsInstall(wx.event)
      ensures o.Dispatched? ==> !IsInstall(wx.event) && (id, "") in old(db.subscriptions)
      ensures db.configs != old(db.configs) ==> IsInstall(wx.event)
    {
      hide Database.At, Database.Valid, Database.Took, CallbackCall, CallbackResume, RegisterCall, RegisterResume,
           PaymentCall, PaymentResume, AdminCall, AdminResume, IsInstall;
      if IsInstall(wx.event) {
        db.Dispatch((id, wx.event.eventId), InWebhook(wx, Hand(id)));
        o := HandleIntegrationInstalled(wx);
        return;
      }
      o := DeliverToSubscriber(wx, id);
    }

    /** Dispatched only under a subscription with endpoint "", and only its delivery time changes. */
    method DeliverToSubscriber(wx: WebhookCtx, id: Id) returns (o: Outcome)
      requires wx.settings == db.settings && !IsInstall(wx.event) && db.At(InWebhook(wx, CheckSubscription(id)))
      modifies db`run, db`subscriptions, db`history
      ensures db.At(Done(o)) && db.request == old(db.request)
      ensures o.Dispatched? || o.Failed?
      ensures o.Dispatched? ==> (id, "") in old(db.subscriptions)
      ensures db.subscriptions.Keys == old(db.subscriptions.Keys)
      ensures forall k :: k in old(db.subscriptions) && k != (id, "") ==> db.subscriptions[k] == old(db.subscriptions[k])
    {
      hide Database.At, Database.Valid, Database.Took, CallbackCall, CallbackResume, RegisterCall, RegisterResume,
           PaymentCall, PaymentResume, AdminCall, AdminResume, IsInstall;
      var key := (id, wx.event.eventId);
      var webhook := db.GetSubscription(id, "", InWebhook(wx, CheckSubscription(id)));
      if webhook == Err(NotFound) {
        return Failed(WebhookNotFound);
      }
      if webhook.Err? {
        return Failed(Translate(webhook.error));
      }
      var sub := webhook.subscription.id;
      var touched := db.UpdateLastDelivery(id, "", sub, InWebhook(wx, Touch(id, sub)));
      if touched.Err? {
        return Failed(Translate(touched.error));
      }
      db.Dispatch(key, InWebhook(wx, Hand(id)));
      return Dispatched;
    }

    /** Creates or finds the configuration of the integration the location belongs to. */
    method HandleIntegrationInstalled(wx: WebhookCtx) returns (o: Outcome)
      requires wx.settings == db.settings
      requires db.At(if wx.event.locationId == "" then Fail(DispatchFailed) else InWebhook(wx, InstallExternal))
      modifies db`run, db`configs, db`history
      ensures db.At(Done(o)) && db.request == old(db.request)
      ensures forall i :: i in old(db.configs) ==> i in db.configs && db.configs[i] == old(db.configs[i])
      ensures o.Installed? ==> o.id in db.configs
      ensures o.Installed? && o.id !in old(db.configs) ==>
                db.configs[o.id].apiKey == "" && Announces(db.configs[o.id].config, db.settings, wx.event.locationId)
      ensures o.Installed? ==> o.id in ExtFirst(old(db.Tables()), wx.event.locationId) && o.id in db.integrations
      ensures o.Installed? || o == Failed(DispatchFailed)
    {
      hide Database.At, Database.Valid, Database.Took, CallbackCall, CallbackResume, RegisterCall, RegisterResume,
           PaymentCall, PaymentResume, AdminCall, AdminResume, IsInstall;
      if wx.event.locationId == "" {
        return Failed(DispatchFailed);
      }
      var located := Locate(wx);
      if located.None? {
        return Failed(DispatchFailed);
      }
      o := CreateOrFind(wx, located.value);
    }

    /** External account id first, then the configured location; any error counts as no integration. */
    method Locate(wx: WebhookCtx) returns (located: Option<Id>)
      requires wx.settings == db.settings && db.At(InWebhook(wx, InstallExternal))
      modifies db`run
      ensures db.request == old(db.request)
      ensures db.At(if located.Some? then InWebhook(wx, InstallFind(located.value)) else Fail(DispatchFailed))
      ensures located.Some? ==> located.value in ExtFirst(db.Tables(), wx.event.locationId) && located.value in db.integrations
    {
      hide Database.At, Database.Valid, Database.Took, CallbackCall, CallbackResume, RegisterCall, RegisterResume,
           PaymentCall, PaymentResume, AdminCall, AdminResume, IsInstall, LocHolders;
      var loc := wx.event.locationId;
      var integration := db.GetByExternalAccountID(loc, InWebhook(wx, InstallExternal));
      if integration == Err(NotFound) {
        located := LocateByConfig(wx);
        return;
      }
      return if integration.Err? then None else Some(integration.id);
    }

    method LocateByConfig(wx: WebhookCtx) returns (located: Option<Id>)
      requires wx.settings == db.settings && db.At(InWebhook(wx, InstallConfig))
      modifies db`run
      ensures db.request == old(db.request)
      ensures db.At(if located.Some? then InWebhook(wx, InstallFind(located.value)) else Fail(DispatchFailed))
      ensures located.Some? ==> located.value in LocHolders(db.Tables(), wx.event.locationId) && located.value in db.integrations
    {
      hide Database.At, Database.Valid, Database.Took, CallbackCall, CallbackResume, RegisterCall, RegisterResume,
           PaymentCall, PaymentResume, AdminCall, AdminResume, IsInstall, ExtHolders;
      var config := db.GetConfigByLocation(wx.event.locationId, InWebhook(wx, InstallConfig));
      if config.Err? {
        return None;
      }
      var integration := db.GetIntegration(config.id, InWebhook(wx, InstallById(config.id)));
      return if integration.Err? then None else Some(config.id);
    }

    /** The first to get there creates the row; whoever comes later reuses it. */
    method CreateOrFind(wx: WebhookCtx, id: Id) returns (o: Outcome)
      requires wx.settings == db.settings && db.At(InWebhook(wx, InstallFind(id)))
      modifies db`run, db`configs, db`history
      ensures db.At(Done(o)) && db.request == old(db.request)
      ensures forall i :: i in old(db.configs) ==> i in db.configs && db.configs[i] == old(db.configs[i])
      ensures o == Failed(DispatchFailed) || (o == Installed(id) && id in db.configs)
      ensures o.Installed? && id !in old(db.configs) ==>
                db.configs[id].apiKey == "" && Announces(db.configs[id].config, db.settings, wx.event.locationId)
    {
      hide Database.At, Database.Valid, Database.Took, CallbackCall, CallbackResume, RegisterCall, RegisterResume,
           PaymentCall, PaymentResume, AdminCall, AdminResume, IsInstall;
      var existing := db.GetConfigByIntegration(id, InWebhook(wx, InstallFind(id)));
      if existing.FoundConfig? {
        return Installed(id);
      }
      if existing != Err(NotFound) {
        return Failed(DispatchFailed);
      }
      var created := db.CreateConfig(id, OwnConfig(db.settings, wx.event.locationId), "", InWebhook(wx, InstallCreate(id)));
      if created == Err(Duplicate) {
        return Installed(id);
      }
      return if created.Err? then Failed(DispatchFailed) else Installed(id);
    }

    /** The subscription is stored under the callback URL. */
    method RegisterWebhook(id: Id, callbackUrl: string) returns (o: Outcome)
      requires db.Valid()
      modifies db
      ensures db.At(Done(o)) && db.request == Request.RegisterWebhook(id, callbackUrl)
      ensures o == Completed || o.Failed?
      ensures o.Completed? ==>
                && (id, callbackUrl) !in old(db.subscriptions) && (id, callbackUrl) in db.subscriptions
                && db.subscriptions == old(db.subscriptions)[(id, callbackUrl) := db.subscriptions[(id, callbackUrl)]]
      ensures o.Completed? ==> id in db.integrations && db.integrations[id].status == ACTIVE
      ensures o.Failed? ==> db.Tables() == old(db.Tables())
      ensures !old(db.failing) && id !in old(db.integrations) ==> o == Failed(IntegrationNotFound)
      ensures !old(db.failing) && id in old(db.integrations) && old(db.integrations[id]).status != ACTIVE ==>
                o == Failed(IntegrationNotActive)
      ensures o == Failed(RecordExists) ==> (id, callbackUrl) in old(db.subscriptions)
    {
      hide Database.At, Database.Valid, Database.Took, CallbackCall, CallbackResume, RegisterCall, RegisterResume,
           WebhookCall, WebhookResume, PaymentCall, PaymentResume, IsInstall;
      db.Accept(Request.RegisterWebhook(id, callbackUrl));
      var integration := db.GetIntegration(id, InAdmin(HookIntegration(id, callbackUrl)));
      if integration == Err(NotFound) {
        return Failed(IntegrationNotFound);
      }
      if integration.Err? {
        return Failed(Translate(integration.error));
      }
      if integration.integration.status != ACTIVE {
        return Failed(IntegrationNotActive);
      }
      o := Subscribe(id, callbackUrl, integration.integration.platformId);
    }

    method Subscribe(id: Id, callbackUrl: string, platformId: Id) returns (o: Outcome)
      requires db.At(InAdmin(HookPlatform(id, callbackUrl, platformId)))
      modifies db`run, db`subscriptions, db`nextId, db`history
      ensures db.At(Done(o)) && db.request == old(db.request)
      ensures o == Completed || o.Failed?
      ensures o.Completed? ==>
                && (id, callbackUrl) !in old(db.subscriptions) && (id, callbackUrl) in db.subscriptions
                && db.subscriptions == old(db.subscriptions)[(id, callbackUrl) := db.subscriptions[(id, callbackUrl)]]
      ensures o.Failed? ==> db.Tables() == old(db.Tables())
      ensures o == Failed(RecordExists) ==> (id, callbackUrl) in old(db.subscriptions)
    {
      hide Database.At, Database.Valid, Database.Took, CallbackCall, CallbackResume, RegisterCall, RegisterResume,
           WebhookCall, WebhookResume, PaymentCall, PaymentResume, IsInstall;
      var platform := db.GetPlatform(platformId, InAdmin(HookPlatform(id, callbackUrl, platformId)));
      if platform == Err(NotFound) {
        return Failed(PlatformNotFound);
      }
      if platform.Err? {
        return Failed(Translate(platform.error));
      }
      if !Supported(platform.slug) {
        return Failed(ProviderNotSupported);
      }
      var created := db.CreateSubscription(id, callbackUrl, InAdmin(HookCreate(id, callbackUrl)));
      return if created.Err? then Failed(Translate(created.error)) else Completed;
    }

    /** And looked up under endpoint "". */
    method UnregisterWebhook(id: Id) returns (o: Outcome)
      requires db.Valid()
      modifies db
      ensures db.At(Done(o)) && db.request == Request.UnregisterWebhook(id)
      ensures o == Completed || o.Failed?
      ensures o.Completed? ==> (id, "") in old(db.subscriptions) && db.subscriptions == old(db.subscriptions) - {(id, "")}
      ensures o.Failed? ==> db.Tables() == old(db.Tables())
      ensures !old(db.failing) && (id, "") !in old(db.subscriptions) ==> o == Failed(WebhookNotFound)
    {
      hide Database.At, Database.Valid, Database.Took, CallbackCall, CallbackResume, RegisterCall, RegisterResume,
           WebhookCall, WebhookResume, PaymentCall, PaymentResume, IsInstall;
      db.Accept(Request.UnregisterWebhook(id));
      var webhook := db.GetSubscription(id, "", InAdmin(UnhookFind(id)));
      if webhook == Err(NotFound) {
        return Failed(WebhookNotFound);
      }
      if webhook.Err? {
        return Failed(Translate(webhook.error));
      }
      o := Unsubscribe(id, webhook.subscription.id);
    }

    method Unsubscribe(id: Id, sub: Id) returns (o: Outcome)
      requires db.At(InAdmin(UnhookIntegration(id, sub)))
      modifies db`run, db`subscriptions
      ensures db.At(Done(o)) && (o == Completed || o.Failed?) && db.request == old(db.request)
      ensures db.subscriptions == if o.Completed? then old(db.subscriptions) - {(id, "")} else old(db.subscriptions)
    {
      hide Database.At, Database.Valid, Database.Took, CallbackCall, CallbackResume, RegisterCall, RegisterResume,
           WebhookCall, WebhookResume, PaymentCall, PaymentResume, IsInstall;
      var integration := db.GetIntegration(id, InAdmin(UnhookIntegration(id, sub)));
      if integration == Err(NotFound) {
        return Failed(IntegrationNotFound);
      }
      if integration.Err? {
        return Failed(Translate(integration.error));
      }
      o := RemoveSubscription(id, sub, integration.integration.platformId);
    }

    method RemoveSubscription(id: Id, sub: Id, platformId: Id) returns (o: Outcome)
      requires db.At(InAdmin(UnhookPlatform(id, sub, platformId)))
      modifies db`run, db`subscriptions
      ensures db.At(Done(o)) && (o == Completed || o.Failed?) && db.request == old(db.request)
      ensures db.subscriptions == if o.Completed? then old(db.subscriptions) - {(id, "")} else old(db.subscriptions)
    {
      hide Database.At, Database.Valid, Database.Took, CallbackCall, CallbackResume, RegisterCall, RegisterResume,
           WebhookCall, WebhookResume, PaymentCall, PaymentResume, IsInstall;
      var platform := db.GetPlatform(platformId, InAdmin(UnhookPlatform(id, sub, platformId)));
      if platform == Err(NotFound) {
        return Failed(PlatformNotFound);
      }
      if platform.Err? {
        return Failed(Translate(platform.error));
      }
      if !Supported(platform.slug) {
        return Failed(ProviderNotSupported);
      }
      var deleted := db.DeleteSubscription(id, "", sub, InAdmin(UnhookDelete(id, sub)));
      return if deleted.Err? then Failed(Translate(deleted.error)) else Completed;
    }
  }
}
