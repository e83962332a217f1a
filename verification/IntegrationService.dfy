/** The integrations service: provisioning and the administrative status changes, step by step as they are written. */
module IntegrationService {
  import opened Schema
  import opened Calls
  import opened Program
  import opened Machine
  import opened Backend
  import opened Evidence

  class Service {
    const db: Database

    constructor (db: Database)
      ensures this.db == db
    {
      this.db := db;
    }

    method InstallIntegration(at: Pair, externalAccountId: string) returns (o: Outcome)
      requires db.Valid()
      modifies db
      ensures db.At(Done(o)) && db.request == Install(at.clientId, at.platformId, externalAccountId)
      ensures o == Completed || o.Failed?
      ensures o.Completed? ==>
                var row := Integration(at.clientId, at.platformId, externalAccountId, CREATED);
                db.Tables() == old(db.Tables()).(integrations := old(db.integrations)[old(db.nextId) := row], nextId := old(db.nextId) + 1)
      ensures o.Failed? ==> db.Tables() == old(db.Tables())
    {
      hide Database.At, Database.Valid, Database.Took, CallbackCall, CallbackResume, RegisterCall, RegisterResume,
           WebhookCall, WebhookResume, PaymentCall, PaymentResume;
      db.Accept(Install(at.clientId, at.platformId, externalAccountId));
      var client := db.GetClient(at.clientId, InAdmin(InstallClient(at, externalAccountId)));
      if client == Err(NotFound) {
        return Failed(ClientNotFound);
      }
      if client.Err? {
        return Failed(Translate(client.error));
      }
      if !client.active {
        return Failed(ClientInactive);
      }
      var platform := db.GetPlatform(at.platformId, InAdmin(InstallPlatform(at, externalAccountId)));
      if platform == Err(NotFound) {
        return Failed(PlatformNotFound);
      }
      if platform.Err? {
        return Failed(Translate(platform.error));
      }
      if !platform.enabled {
        return Failed(PlatformDisabled);
      }
      o := Provision(at, externalAccountId);
    }

    method Provision(at: Pair, externalAccountId: string) returns (o: Outcome)
      requires db.At(InAdmin(InstallExisting(at, externalAccountId)))
      modifies db`run, db`integrations, db`nextId
      ensures db.At(Done(o)) && (o == Completed || o.Failed?)
      ensures o.Completed? ==>
                var row := Integration(at.clientId, at.platformId, externalAccountId, CREATED);
                && db.integrations == old(db.integrations)[old(db.nextId) := row]
                && db.nextId == old(db.nextId) + 1
      ensures o.Failed? ==> db.integrations == old(db.integrations) && db.nextId == old(db.nextId)
    {
      hide Database.At, Database.Valid, Database.Took, CallbackCall, CallbackResume, RegisterCall, RegisterResume,
           WebhookCall, WebhookResume, PaymentCall, PaymentResume;
      var existing := db.GetByClientAndPlatform(at, InAdmin(InstallExisting(at, externalAccountId)));
      if existing.FoundIntegration? {
        return Failed(IntegrationAlreadyExists);
      }
      if existing != Err(NotFound) {
        return Failed(Translate(existing.error));
      }
      var created := db.CreateIntegration(Integration(at.clientId, at.platformId, externalAccountId, CREATED),
                                          InAdmin(InstallInsert(at, externalAccountId)));
      return if created.Err? then Failed(Translate(created.error)) else Completed;
    }

    /** Everything that hangs off the integration goes with it. */
    method UninstallIntegration(id: Id) returns (o: Outcome)
      requires db.Valid()
      modifies db
      ensures db.At(Done(o)) && db.request == Uninstall(id)
      ensures o == Completed || o.Failed?
      ensures o.Completed? ==> id in old(db.integrations) && Gone(old(db.Tables()), db.Tables(), id)
      ensures o.Failed? ==> StatusOnly(old(db.Tables()), db.Tables(), id)
      ensures !old(db.failing) ==>
                o == if id !in old(db.integrations) then Failed(IntegrationNotFound) else Completed
      ensures o.Completed? && old(db.integrations[id]).status == ACTIVE ==>
                FoundIntegration(id, old(db.integrations[id]).(status := REVOKED)) in HeardBy(db.run, db.pid)
    {
      hide Database.At, Database.Valid, Database.Took, CallbackCall, CallbackResume, RegisterCall, RegisterResume,
           WebhookCall, WebhookResume, PaymentCall, PaymentResume, WithoutIntegration;
      db.Accept(Uninstall(id));
      var integration := db.GetIntegration(id, InAdmin(UninstallRead(id)));
      if integration == Err(NotFound) {
        return Failed(IntegrationNotFound);
      }
      if integration.Err? {
        return Failed(Translate(integration.error));
      }
      CascadeTakesItsOwn(old(db.Tables()), id);
      if integration.integration.status == ACTIVE {
        o := RevokeAndRemove(id);
        return;
      }
      o := Remove(id);
    }

    /** An active integration is revoked before it goes, so it stays behind REVOKED if only its removal fails. */
    method RevokeAndRemove(id: Id) returns (o: Outcome)
      requires db.At(InAdmin(UninstallRevoke(id)))
      modifies db`run, db`integrations, db`tokens, db`configs, db`events, db`subscriptions
      ensures db.At(Done(o)) && (o == Completed || o.Failed?)
      ensures o.Completed? ==> id in old(db.integrations) && db.Tables() == WithoutIntegration(old(db.Tables()), id)
      ensures o.Failed? ==> db.Tables() == old(db.Tables()) || Switched(old(db.Tables()), db.Tables(), id, REVOKED)
      ensures !db.failing && id in old(db.integrations) ==> o == Completed
      ensures o.Completed? ==> FoundIntegration(id, old(db.integrations[id]).(status := REVOKED)) in HeardBy(db.run, db.pid)
    {
      hide Database.At, Database.Valid, CallbackCall, CallbackResume, RegisterCall, RegisterResume, WebhookCall,
           WebhookResume, PaymentCall, PaymentResume, WithoutIntegration;
      var revoked := db.UpdateStatus(id, REVOKED, InAdmin(UninstallRevoke(id)));
      if revoked.Err? {
        return Failed(Translate(revoked.error));
      }
      RevokedOrNot(old(db.Tables()), id, db.integrations[id]);
      o := Remove(id);
    }

    method Remove(id: Id) returns (o: Outcome)
      requires db.At(InAdmin(UninstallDelete(id)))
      modifies db`run, db`integrations, db`tokens, db`configs, db`events, db`subscriptions
      ensures db.At(Done(o)) && (o == Completed || o.Failed?)
      ensures o.Completed? ==> id in old(db.integrations) && db.Tables() == WithoutIntegration(old(db.Tables()), id)
      ensures o.Failed? ==> db.Tables() == old(db.Tables())
      ensures !db.failing && id in old(db.integrations) ==> o == Completed
      ensures HeardBy(old(db.run), db.pid) <= HeardBy(db.run, db.pid)
    {
      hide Database.At, Database.Valid, CallbackCall, CallbackResume, RegisterCall, RegisterResume, WebhookCall,
           WebhookResume, PaymentCall, PaymentResume;
      var deleted := db.DeleteIntegration(id, InAdmin(UninstallDelete(id)));
      return if deleted.Err? then Failed(Translate(deleted.error)) else Completed;
    }

    /** What reconnecting, disconnecting and syncing come down to. */
    method SetStatus(id: Id, status: Status, ghost ad: AdminPc) returns (o: Outcome)
      requires db.At(InAdmin(ad))
      requires || (ad == ReconnectWrite(id) && status == CREATED) || (ad == DisconnectWrite(id) && status == REVOKED)
               || (ad == SyncWrite(id) && status == ACTIVE)
      modifies db`run, db`integrations
      ensures db.At(Done(o)) && db.request == old(db.request)
      ensures o == Completed || o.Failed?
      ensures if o.Completed? then Switched(old(db.Tables()), db.Tables(), id, status) else db.Tables() == old(db.Tables())
      ensures !db.failing && id in old(db.integrations) ==> o == Completed
    {
      hide Database.At, Database.Valid, Database.Took, CallbackCall, CallbackResume, RegisterCall, RegisterResume,
           WebhookCall, WebhookResume, PaymentCall, PaymentResume;
      var updated := db.UpdateStatus(id, status, InAdmin(ad));
      return if updated.Err? then Failed(Translate(updated.error)) else Completed;
    }

    method ReconnectIntegration(id: Id) returns (o: Outcome)
      requires db.Valid()
      modifies db
      ensures db.At(Done(o)) && db.request == Reconnect(id)
      ensures o == Completed || o.Failed?
      ensures o.Completed? ==> Switched(old(db.Tables()), db.Tables(), id, CREATED) && old(db.Tables()).integrations[id].status == ACTIVE
      ensures o.Failed? ==> db.Tables() == old(db.Tables())
      ensures !old(db.failing) ==>
                o == (if id !in old(db.integrations) then Failed(IntegrationNotFound)
                      else if old(db.integrations[id]).status != ACTIVE then Failed(IntegrationNotActive) else Completed)
    {
      hide Database.At, Database.Valid, Database.Took, CallbackCall, CallbackResume, RegisterCall, RegisterResume,
           WebhookCall, WebhookResume, PaymentCall, PaymentResume;
      db.Accept(Reconnect(id));
      var integration := db.GetIntegration(id, InAdmin(ReconnectRead(id)));
      if integration == Err(NotFound) {
        return Failed(IntegrationNotFound);
      }
      if integration.Err? {
        return Failed(Translate(integration.error));
      }
      if integration.integration.status != ACTIVE {
        return Failed(IntegrationNotActive);
      }
      o := SetStatus(id, CREATED, ReconnectWrite(id));
    }

    method DisconnectIntegration(id: Id) returns (o: Outcome)
      requires db.Valid()
      modifies db
      ensures db.At(Done(o)) && db.request == Disconnect(id)
      ensures o == Completed || o.Failed?
      ensures o.Completed? ==> Switched(old(db.Tables()), db.Tables(), id, REVOKED)
      ensures o.Failed? ==> db.Tables() == old(db.Tables())
      ensures !old(db.failing) ==>
                o == if id !in old(db.integrations) then Failed(IntegrationNotFound) else Completed
    {
      hide Database.At, Database.Valid, Database.Took, CallbackCall, CallbackResume, RegisterCall, RegisterResume,
           WebhookCall, WebhookResume, PaymentCall, PaymentResume;
      db.Accept(Disconnect(id));
      var integration := db.GetIntegration(id, InAdmin(DisconnectRead(id)));
      if integration == Err(NotFound) {
        return Failed(IntegrationNotFound);
      }
      if integration.Err? {
        return Failed(Translate(integration.error));
      }
      o := SetStatus(id, REVOKED, DisconnectWrite(id));
    }

    /** Undisturbed, a sync changes nothing: it writes the status it has just insisted on. */
    method SyncIntegration(id: Id) returns (o: Outcome)
      requires db.Valid()
      modifies db
      ensures db.At(Done(o)) && db.request == Sync(id)
      ensures o == Completed || o.Failed?
      ensures o.Completed? ==> id in old(db.integrations) && old(db.integrations[id]).status == ACTIVE
      ensures db.Tables() == old(db.Tables())
      ensures !old(db.failing) ==>
                o == (if id !in old(db.integrations) then Failed(IntegrationNotFound)
                      else if old(db.integrations[id]).status != ACTIVE then Failed(IntegrationNotActive) else Completed)
    {
      hide Database.At, Database.Valid, Database.Took, CallbackCall, CallbackResume, RegisterCall, RegisterResume,
           WebhookCall, WebhookResume, PaymentCall, PaymentResume;
      db.Accept(Sync(id));
      var integration := db.GetIntegration(id, InAdmin(SyncRead(id)));
      if integration == Err(NotFound) {
        return Failed(IntegrationNotFound);
      }
      if integration.Err? {
        return Failed(Translate(integration.error));
      }
      if integration.integration.status != ACTIVE {
        return Failed(IntegrationNotActive);
      }
      o := SetStatus(id, ACTIVE, SyncWrite(id));
    }
  }

  /** The integration and everything keyed by it are gone, and nothing else is. */
  ghost predicate Gone(t: Tables, t': Tables, id: Id) {
    && t'.states == t.states && t'.nextId == t.nextId
    && id !in t'.integrations && id !in t'.tokens && id !in t'.configs
    && (forall i :: i != id ==>
          && (i in t'.integrations <==> i in t.integrations) && (i in t.integrations ==> t'.integrations[i] == t.integrations[i])
          && (i in t'.tokens <==> i in t.tokens) && (i in t.tokens ==> t'.tokens[i] == t.tokens[i])
          && (i in t'.configs <==> i in t.configs) && (i in t.configs ==> t'.configs[i] == t.configs[i]))
    && (forall k :: k in t'.events <==> k in t.events && k.0 != id)
    && (forall k :: k in t'.subscriptions <==> k in t.subscriptions && k.0 != id)
    && (forall k :: k in t'.subscriptions ==> t'.subscriptions[k] == t.subscriptions[k])
  }

  lemma CascadeTakesItsOwn(t: Tables, id: Id)
    ensures Gone(t, WithoutIntegration(t, id), id)
  {
  }

  lemma RevokedOrNot(t: Tables, id: Id, row: Integration)
    ensures WithoutIntegration(t.(integrations := t.integrations[id := row]), id) == WithoutIntegration(t, id)
  {
  }

  /** The integration has this status now, and nothing else has changed. */
  ghost predicate Switched(t: Tables, t': Tables, id: Id, status: Status) {
    id in t.integrations && t' == t.(integrations := t.integrations[id := t.integrations[id].(status := status)])
  }

  /** At most, an active integration was revoked. */
  ghost predicate StatusOnly(t: Tables, t': Tables, id: Id) {
    t' == t || (Switched(t, t', id, REVOKED) && t.integrations[id].status == ACTIVE)
  }
}
