/** The payment-provider adapter: payment webhooks and queries, step by step as they are written. */
module PaymentService {
  import opened Schema
  import opened Calls
  import opened Program
  import opened Machine
  import opened Backend

  class Service {
    const db: Database

    constructor (db: Database)
      ensures this.db == db
    {
      this.db := db;
    }

    /** A payment webhook. Undisturbed, it records at most its own event, and delegates exactly what it records. */
    method HandleWebhook(payment: Option<PaymentEvent>) returns (o: Outcome)
      requires db.Valid()
      modifies db
      ensures db.At(Done(o)) && db.request == PaymentWebhook(payment)
      ensures db.Tables().(events := old(db.events)) == old(db.Tables())
      ensures payment.None? || Blank(payment.value.eventId) <==> o == Failed(InvalidPayload)
      ensures (db.events == old(db.events) && db.history.effects == old(db.history.effects) && o.Failed?) ||
              exists key :: key !in old(db.events) && db.events == old(db.events) + {key}
                && payment.Some? && key.1 == payment.value.eventId
                && key.0 in db.configs && db.configs[key.0].apiKey == payment.value.apiKey && !Blank(payment.value.apiKey)
                && db.configs[key.0].config.locationId == payment.value.locationId
                && db.history.effects == old(db.history.effects) + multiset{key}
    {
      hide Database.At, Database.Valid, Database.Took, CallbackCall, CallbackResume, RegisterCall, RegisterResume,
           WebhookCall, WebhookResume, AdminCall, AdminResume, Trim, Blank;
      db.Accept(PaymentWebhook(payment));
      if payment.None? || Blank(payment.value.eventId) {
        return Failed(InvalidPayload);
      }
      var ev := payment.value;
      var authenticated := Authenticate(ev);
      if authenticated.1.Some? {
        return Failed(authenticated.1.value);
      }
      o := RecordAndDelegate(ev, authenticated.0);
    }

    /** The event is recorded and delegated once, or nothing happens. */
    method RecordAndDelegate(ev: PaymentEvent, id: Id) returns (o: Outcome)
      requires db.At(InPayment(PayRecord(ev, id)))
      modifies db`run, db`events, db`history
      ensures db.At(Done(o)) && db.request == old(db.request) && o != Failed(InvalidPayload)
      ensures (db.events == old(db.events) && db.history.effects == old(db.history.effects) && o.Failed?) ||
              var key := (id, ev.eventId);
              key !in old(db.events) && db.events == old(db.events) + {key}
                && db.history.effects == old(db.history.effects) + multiset{key}
    {
      hide Database.At, Database.Valid, Database.Took, CallbackCall, CallbackResume, RegisterCall, RegisterResume,
           WebhookCall, WebhookResume, AdminCall, AdminResume, Trim, Blank;
      var key := (id, ev.eventId);
      var recorded := db.CreateEvent(key, InPayment(PayRecord(ev, id)));
      if recorded == Err(Duplicate) {
        return Failed(DuplicateEvent);
      }
      if recorded.Err? {
        return Failed(Translate(recorded.error));
      }
      var delegated := db.DelegateWebhook(key, InPayment(PayDelegate(ev, id)));
      return if delegated.RpcFailed? then Failed(Internal) else Delegated;
    }

    /** The integration whose configuration has this location and this key. */
    method Authenticate(ev: PaymentEvent) returns (authenticated: (Id, Option<Error>))
      requires db.At(InPayment(PayConfig(ev)))
      modifies db`run
      ensures match authenticated.1
              case None =>
                && db.At(InPayment(PayRecord(ev, authenticated.0))) && authenticated.0 in db.configs
                && db.configs[authenticated.0].apiKey == ev.apiKey && !Blank(ev.apiKey)
                && db.configs[authenticated.0].config.locationId == ev.locationId
              case Some(e) =>
                && db.At(Fail(e)) && e != InvalidPayload
                && (e == MissingApiKey ==> Blank(ev.apiKey))
                && (e == ProviderConfigNotFound ==> forall i :: i in db.configs ==> db.configs[i].config.locationId != ev.locationId)
    {
      hide Database.At, Database.Valid, Database.Took, CallbackCall, CallbackResume, RegisterCall, RegisterResume,
           WebhookCall, WebhookResume, AdminCall, AdminResume, Trim, Blank;
      var config := db.GetConfigByLocation(ev.locationId, InPayment(PayConfig(ev)));
      if config == Err(NotFound) {
        return (0, Some(ProviderConfigNotFound));
      }
      if config.Err? {
        return (0, Some(Translate(config.error)));
      }
      if Blank(ev.apiKey) {
        return (0, Some(MissingApiKey));
      }
      if config.config.apiKey != ev.apiKey {
        return (0, Some(InvalidApiKey));
      }
      var integration := db.GetIntegration(config.id, InPayment(PayIntegration(ev, config.id)));
      if integration == Err(NotFound) {
        return (0, Some(IntegrationNotFound));
      }
      if integration.Err? {
        return (0, Some(Translate(integration.error)));
      }
      return (integration.id, None);
    }

    /** A verification query changes nothing, and passes only with the key of some configuration. */
    method HandleQuery(query: QueryRequest) returns (o: Outcome)
      requires db.Valid()
      modifies db
      ensures db.At(Done(o)) && db.request == Query(query)
      ensures db.Tables() == old(db.Tables()) && db.history == old(db.history)
      ensures o.Verified? ==> !Blank(query.apiKey) && exists i :: i in db.configs && db.configs[i].apiKey == query.apiKey
      ensures o.Verified? ==> Trim(query.opType) == "verify" && !(Blank(query.transactionId) && Blank(query.chargeId))
      ensures o.Verified? ==> !(o.success && o.failed)
      ensures Blank(query.apiKey) <==> o == Failed(MissingApiKey)
      ensures o == Failed(InvalidApiKey) ==> forall i :: i in db.configs ==> db.configs[i].apiKey != query.apiKey
      ensures !db.failing && !Blank(query.apiKey) && (forall i :: i in db.configs ==> db.configs[i].apiKey != query.apiKey) ==>
                o == Failed(InvalidApiKey)
      ensures o == Failed(UnsupportedType) ==> Trim(query.opType) != "verify"
      ensures o == Failed(MissingTransactionId) ==> Blank(query.transactionId) && Blank(query.chargeId)
    {
      hide Database.At, Database.Valid, Database.Took, CallbackCall, CallbackResume, RegisterCall, RegisterResume,
           WebhookCall, WebhookResume, AdminCall, AdminResume, Trim, Blank;
      db.Accept(Query(query));
      if Blank(query.apiKey) {
        return Failed(MissingApiKey);
      }
      var config := db.GetConfigByApiKey(query.apiKey, InPayment(QueryKey(query)));
      if config == Err(NotFound) {
        return Failed(InvalidApiKey);
      }
      if config.Err? {
        return Failed(Translate(config.error));
      }
      if config.config.apiKey != query.apiKey {
        return Failed(InvalidApiKey);
      }
      if Trim(query.opType) != "verify" {
        return Failed(UnsupportedType);
      }
      if Blank(query.transactionId) && Blank(query.chargeId) {
        return Failed(MissingTransactionId);
      }
      o := HandleVerify();
    }

    /** What the other service's reply comes to. */
    predicate ReplyGives(r: Reply, o: Outcome) {
      || (r.Verdict? && o == Verified(r.success, r.failed))
      || (r == RpcFailed(RpcNotFound) && o == Failed(TransactionNotFound))
      || (r == RpcFailed(RpcFailedPrecondition) && o == Failed(SubscriptionsNotSupported))
      || (r == RpcFailed(RpcInvalidArgument) && o == Failed(InvalidVerification))
      || (r == RpcFailed(RpcOther) && o == Failed(Internal))
    }

    method HandleVerify() returns (o: Outcome)
      requires db.At(InPayment(QueryVerify))
      modifies db`run
      ensures db.At(Done(o)) && (o.Verified? || o.Failed?)
      ensures o.Verified? ==> !(o.success && o.failed)
      ensures exists r :: db.Took(r) && ReplyGives(r, o)
    {
      hide Database.At, Database.Valid, Database.Took, CallbackCall, CallbackResume, RegisterCall, RegisterResume,
           WebhookCall, WebhookResume, AdminCall, AdminResume, Trim, Blank;
      var verdict := db.DelegateVerify(InPayment(QueryVerify));
      if verdict.RpcFailed? {
        match verdict.code
        case RpcNotFound => return Failed(TransactionNotFound);
        case RpcFailedPrecondition => return Failed(SubscriptionsNotSupported);
        case RpcInvalidArgument => return Failed(InvalidVerification);
        case RpcOther => return Failed(Internal);
      }
      return Verified(verdict.success, verdict.failed);
    }
  }
}
