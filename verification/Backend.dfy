/** The database and HighLevel as the Clients service uses them: one method per repository or upstream call. */
module Backend {
  import opened Schema
  import opened Calls
  import opened Program
  import opened Machine
  import opened Lifecycle

  /** The tables, HighLevel's memory and the clock, with the run of requests that led there. Each method carries out
      one call of the request in hand, may fail at it, and moves that request's program on by the reply. */
  class Database {
    const settings: Settings
    const singleUseCodes: bool
    const skew: nat

    var integrations: map<Id, Integration>
    var tokens: map<Id, Token>
    var configs: map<Id, ConfigRow>
    var events: set<EventKey>
    var subscriptions: map<(Id, string), Subscription>
    var states: map<string, OauthState>
    var nextId: Id

    var usedCodes: set<string>
    var associations: set<string>
    var providerConfigs: map<string, ProviderConfig>

    var clock: int

    var failing: bool             // whether statements may fail outright

    ghost var history: History
    ghost var run: Run
    ghost var pid: nat            // the request in hand
    ghost var request: Request
    ghost var found: Tables       // the tables it found

    // ---- Abstraction ----

    ghost function Tables(): Tables
      reads this
    {
      Schema.Tables.Tables(integrations, tokens, configs, events, subscriptions, states, nextId)
    }

    ghost function World(): World
      reads this
    {
      Calls.World.World(Tables(), Upstream(singleUseCodes, usedCodes, associations, providerConfigs), clock, skew, history)
    }

    ghost predicate Valid()
      reads this
    {
      Machine.Valid(run) && Sequential(run) && Last(run).settings == settings && Last(run).world == World()
    }

    /** The request in hand is the one that acts, and its program is here. */
    ghost predicate Working(pc: Pc)
      reads this`run, this`pid, this`request, this`found
    {
      && Machine.Valid(run) && Sequential(run) && Last(run).settings == settings
      && Current(run) == Some(pid) && Arrival(run) == found
      && pid in Last(run).procs && Last(run).procs[pid].request == request && Last(run).procs[pid].pc == pc
    }

    ghost predicate At(pc: Pc)
      reads this
    {
      Working(pc) && Last(run).world == World()
    }

    /** Where a call leaves the program. */
    ghost predicate Next(pc: Pc, r: Reply)
      requires !pc.Done?
      reads this
    {
      At(Resume(pc, r))
    }

    /** The run has grown by exactly this call of the request in hand, so what the call does is what `Answers` says. */
    twostate predicate Took(r: Reply)
      reads this
    {
      run == Then(old(run), Act(pid, r), Last(run))
    }

    constructor (settings: Settings, singleUseCodes: bool, skew: nat, clock: int)
      ensures Valid() && this.settings == settings && Tables() == EMPTY_TABLES
    {
      this.settings, this.singleUseCodes, this.skew, this.clock := settings, singleUseCodes, skew, clock;
      failing := *;
      integrations, tokens, configs, events, subscriptions, states, nextId := map[], map[], map[], {}, map[], map[], 0;
      usedCodes, associations, providerConfigs := {}, {}, map[];
      history := NO_HISTORY;
      run := From(State(settings,
                        Calls.World.World(EMPTY_TABLES, Upstream(singleUseCodes, {}, {}, map[]), clock, skew, NO_HISTORY),
                        map[], {}, map[]));
    }

    /** A request arrives, with a key that was never drawn before if it draws one. */
    ghost method Accept(req: Request)
      requires Valid() && forall k :: k in Keys(req) ==> !Blank(k) && k !in Last(run).keys
      modifies this`run, this`pid, this`request, this`found
      ensures At(Start(settings, req)) && request == req && found == Tables()
    {
      hide Machine.Valid, Sequential, Start;
      var s := Last(run);
      pid, request, found := Unused(s.procs.Keys), req, Tables();
      ArrivalIsValid(run, pid, req);
      run := Then(run, Arrive(pid, req), s.(procs := s.procs[pid := Arrived(settings, req)], keys := s.keys + Keys(req)));
    }

    /** The reply to the call in hand is known, and the fields are as the call leaves them. */
    ghost method Record(pc: Pc, r: Reply, w: World)
      requires Working(pc) && !pc.Done? && Last(run).world == w && Answers(w, NextCall(pc), r, World())
      modifies this`run
      ensures Next(pc, r) && Took(r)
    {
      var s, call := Last(run), NextCall(pc);
      var p := Advance(s.procs[pid], r, w, World());
      var owner := if call.CreateEvent? && r.Ack? then s.owner[call.key := pid] else s.owner;
      run := Then(run, Act(pid, r), s.(world := World(), procs := s.procs[pid := p], owner := owner));
    }

    // ---- Clients and platforms ----

    method GetPlatform(id: Id, ghost pc: Pc) returns (r: Reply)
      requires At(pc) && !pc.Done? && NextCall(pc) == Call.GetPlatform(id)
      modifies this`run
      ensures Next(pc, r) && Took(r)
      ensures r.FoundPlatform? || r == Err(NotFound) || (failing && Fault(r))
    {
      hide Working, NextCall, Resume;
      var fault: bool := *;
      if failing && fault {
        r := Err(Raw(OtherSql));
      } else if * {
        r := Err(NotFound);
      } else {
        var enabled: bool, slug: string := *, *;
        r := FoundPlatform(enabled, slug);
      }
      Record(pc, r, World());
    }

    method GetClient(id: Id, ghost pc: Pc) returns (r: Reply)
      requires At(pc) && !pc.Done? && NextCall(pc) == Call.GetClient(id)
      modifies this`run
      ensures Next(pc, r) && Took(r)
      ensures r.FoundClient? || r == Err(NotFound) || (failing && Fault(r))
    {
      hide Working, NextCall, Resume;
      var fault: bool := *;
      if failing && fault {
        r := Err(Raw(OtherSql));
      } else if * {
        r := Err(NotFound);
      } else {
        var active: bool := *;
        r := FoundClient(active);
      }
      Record(pc, r, World());
    }

    // ---- Integrations ----

    method GetIntegration(id: Id, ghost pc: Pc) returns (r: Reply)
      requires At(pc) && !pc.Done? && NextCall(pc) == Call.GetIntegration(id)
      modifies this`run
      ensures Next(pc, r) && Took(r)
      ensures !failing ==> !Fault(r)
      ensures r.Err? ==> Fault(r) || (r == Err(NotFound) && id !in integrations)
      ensures r.Err? || (id in integrations && r == FoundIntegration(id, integrations[id]))
    {
      hide Working, NextCall, Resume;
      ghost var w := World();
      var fault: bool := *;
      if failing && fault {
        r := Err(Raw(OtherSql));
      } else if id !in integrations {
        r := Err(NotFound);
      } else {
        r := FoundIntegration(id, integrations[id]);
      }
      Record(pc, r, w);
    }

    method GetByClientAndPlatform(at: Pair, ghost pc: Pc) returns (r: Reply)
      requires At(pc) && !pc.Done? && NextCall(pc) == Call.GetByClientAndPlatform(at.clientId, at.platformId)
      modifies this`run
      ensures Next(pc, r) && Took(r)
      ensures !failing ==> !Fault(r)
      ensures r.Err? || (r.FoundIntegration? && r.id in integrations && r.integration == integrations[r.id]
                         && r.integration.clientId == at.clientId && r.integration.platformId == at.platformId)
    {
      hide Working, NextCall, Resume;
      ghost var w := World();
      var fault: bool := *;
      if failing && fault {
        r := Err(Raw(OtherSql));
      } else if i :| i in integrations
                     && integrations[i].clientId == at.clientId && integrations[i].platformId == at.platformId {
        r := FoundIntegration(i, integrations[i]);
      } else {
        r := Err(NotFound);
      }
      Record(pc, r, w);
    }

    /** Nothing makes external account ids unique: any row that has it may come back. */
    method GetByExternalAccountID(externalAccountId: string, ghost pc: Pc) returns (r: Reply)
      requires At(pc) && !pc.Done? && NextCall(pc) == Call.GetByExternalAccountID(externalAccountId)
      modifies this`run
      ensures Next(pc, r) && Took(r)
      ensures !failing ==> !Fault(r)
      ensures r.FoundIntegration? ==> r.id in ExtHolders(Tables(), externalAccountId) && r.integration == integrations[r.id]
      ensures r == Err(NotFound) ==> ExtHolders(Tables(), externalAccountId) == {}
      ensures r.Err? || r.FoundIntegration?
    {
      hide Working, NextCall, Resume;
      ghost var w := World();
      var fault: bool := *;
      if failing && fault {
        r := Err(Raw(OtherSql));
      } else if i :| i in integrations && integrations[i].externalAccountId == externalAccountId {
        r := FoundIntegration(i, integrations[i]);
      } else {
        r := Err(NotFound);
      }
      Record(pc, r, w);
    }

    method InsertIntegration(row: Integration) returns (r: Reply)
      modifies this`integrations, this`nextId
      ensures IntegrationWrite(old(World()), Call.CreateIntegration(row), r, World())
      ensures !Fault(r)
      ensures || (r.Err? && integrations == old(integrations) && nextId == old(nextId))
              || (&& r == FoundIntegration(old(nextId), row)
                  && (forall i :: i in old(integrations) ==>
                        old(integrations[i]).clientId != row.clientId || old(integrations[i]).platformId != row.platformId)
                  && integrations == old(integrations)[old(nextId) := row]
                  && nextId == old(nextId) + 1)
    {
      if exists i :: i in integrations
                       && integrations[i].clientId == row.clientId && integrations[i].platformId == row.platformId {
        r := Err(WrapError(UniqueViolation));
      } else if * {
        r := Err(WrapError(ForeignKeyViolation));  // the client or the platform is gone
      } else {
        r := FoundIntegration(nextId, row);
        integrations, nextId := integrations[nextId := row], nextId + 1;
      }
    }

    method CreateIntegration(row: Integration, ghost pc: Pc) returns (r: Reply)
      requires At(pc) && !pc.Done? && NextCall(pc) == Call.CreateIntegration(row)
      modifies this`run, this`integrations, this`nextId
      ensures Next(pc, r) && Took(r)
      ensures !failing ==> !Fault(r)
      ensures || (r.Err? && integrations == old(integrations) && nextId == old(nextId))
              || (&& r == FoundIntegration(old(nextId), row)
                  && (forall i :: i in old(integrations) ==>
                        old(integrations[i]).clientId != row.clientId || old(integrations[i]).platformId != row.platformId)
                  && integrations == old(integrations)[old(nextId) := row]
                  && nextId == old(nextId) + 1)
    {
      hide Working, NextCall, Resume, Answers, IntegrationWrite;
      ghost var w := World();
      var fault: bool := *;
      if failing && fault {
        r := Err(Raw(OtherSql));
      } else {
        r := InsertIntegration(row);
      }
      IntegrationAnswered(w, Call.CreateIntegration(row), r, World());
      Record(pc, r, w);
    }

    /** Unconditional: whatever the status is by now. */
    method UpdateStatus(id: Id, status: Status, ghost pc: Pc) returns (r: Reply)
      requires At(pc) && !pc.Done? && NextCall(pc) == Call.UpdateStatus(id, status)
      modifies this`run, this`integrations
      ensures Next(pc, r) && Took(r)
      ensures !failing ==> !Fault(r)
      ensures r.Err? ==> Fault(r) || (r == Err(NotFound) && id !in integrations)
      ensures || (r.Err? && integrations == old(integrations))
              || (&& id in old(integrations)
                  && integrations == old(integrations)[id := old(integrations[id]).(status := status)]
                  && r == FoundIntegration(id, integrations[id]))
    {
      hide Working, NextCall, Resume;
      ghost var w := World();
      var fault: bool := *;
      if failing && fault {
        r := Err(Raw(OtherSql));
      } else if id !in integrations {
        r := Err(NotFound);
      } else {
        integrations := integrations[id := integrations[id].(status := status)];
        r := FoundIntegration(id, integrations[id]);
      }
      Record(pc, r, w);
    }

    /** The foreign keys cascade. */
    method RemoveRows(id: Id)
      modifies this`integrations, this`tokens, this`configs, this`events, this`subscriptions
      ensures Tables() == WithoutIntegration(old(Tables()), id)
    {
      var t := WithoutIntegration(Schema.Tables.Tables(integrations, tokens, configs, events, subscriptions, states, nextId), id);
      integrations, tokens, configs, events, subscriptions := t.integrations, t.tokens, t.configs, t.events, t.subscriptions;
    }

    method DeleteIntegration(id: Id, ghost pc: Pc) returns (r: Reply)
      requires At(pc) && !pc.Done? && NextCall(pc) == Call.DeleteIntegration(id)
      modifies this`run, this`integrations, this`tokens, this`configs, this`events, this`subscriptions
      ensures Next(pc, r) && Took(r)
      ensures !failing ==> !Fault(r)
      ensures r.Err? ==> Fault(r) || (r == Err(NotFound) && id !in integrations)
      ensures || (r.Err? && Tables() == old(Tables()))
              || (r.Ack? && id in old(integrations) && Tables() == WithoutIntegration(old(Tables()), id))
    {
      hide Working, NextCall, Resume, Answers;
      ghost var w := World();
      var fault: bool := *;
      if failing && fault {
        r := Err(Raw(OtherSql));
      } else if id !in integrations {
        r := Err(NotFound);
      } else {
        RemoveRows(id);
        r := Ack;
      }
      IntegrationAnswered(w, Call.DeleteIntegration(id), r, World());
      Record(pc, r, w);
    }

    // ---- OAuth tokens ----

    method GetToken(id: Id, ghost pc: Pc) returns (r: Reply)
      requires At(pc) && !pc.Done? && NextCall(pc) == Call.GetToken(id)
      modifies this`run
      ensures Next(pc, r) && Took(r)
      ensures !failing ==> !Fault(r)
      ensures r.Err? ==> Fault(r) || (r == Err(NotFound) && id !in tokens)
      ensures r.Err? || (id in tokens && r == FoundToken(tokens[id]))
    {
      hide Working, NextCall, Resume;
      ghost var w := World();
      var fault: bool := *;
      if failing && fault {
        r := Err(Raw(OtherSql));
      } else if id !in tokens {
        r := Err(NotFound);
      } else {
        r := FoundToken(tokens[id]);
      }
      Record(pc, r, w);
    }

    /** The INSERT itself; the history notes what it refuses. */
    method InsertToken(id: Id, response: TokenResponse) returns (r: Reply)
      modifies this`tokens, this`nextId, this`history
      ensures TokenWrite(old(World()), Call.CreateToken(id, response), r, World())
      ensures !Fault(r)
      ensures || (r.Err? && tokens == old(tokens) && nextId == old(nextId))
              || (&& r.FoundToken? && id !in old(tokens) && tokens == old(tokens)[id := r.token]
                  && r.token.id == old(nextId) && FromResponse(r.token, response)
                  && NearNow(World(), r.token.expiresAt - response.expiresIn))
    {
      if id !in integrations {
        r := Err(WrapError(ForeignKeyViolation));
      } else if id in tokens {
        r := Err(WrapError(UniqueViolation));
      } else {
        var now :| clock - skew <= now <= clock + skew;  // the application's clock
        r := FoundToken(TokenRow(nextId, response, now + response.expiresIn));
        tokens, nextId := tokens[id := r.token], nextId + 1;
      }
      if r.Err? {
        history := history.(tokenFailed := history.tokenFailed + {id});
      }
    }

    method CreateToken(id: Id, response: TokenResponse, ghost pc: Pc) returns (r: Reply)
      requires At(pc) && !pc.Done? && NextCall(pc) == Call.CreateToken(id, response)
      modifies this`run, this`tokens, this`nextId, this`history
      ensures Next(pc, r) && Took(r)
      ensures !failing ==> !Fault(r)
      ensures || (r.Err? && tokens == old(tokens) && nextId == old(nextId))
              || (&& r.FoundToken? && id !in old(tokens) && tokens == old(tokens)[id := r.token]
                  && r.token.id == old(nextId) && FromResponse(r.token, response)
                  && NearNow(World(), r.token.expiresAt - response.expiresIn))
    {
      hide Working, NextCall, Resume, Answers, TokenWrite, TokenRow;
      ghost var w := World();
      var fault: bool := *;
      if failing && fault {
        r := Err(Raw(OtherSql));
        history := history.(tokenFailed := history.tokenFailed + {id});
      } else {
        r := InsertToken(id, response);
      }
      TokenAnswered(w, Call.CreateToken(id, response), r, World());
      Record(pc, r, w);
    }

    method UpdateToken(id: Id, tokenId: Id, response: TokenResponse, ghost pc: Pc) returns (r: Reply)
      requires At(pc) && !pc.Done? && NextCall(pc) == Call.UpdateToken(id, tokenId, response)
      modifies this`run, this`tokens
      ensures Next(pc, r) && Took(r)
      ensures !failing ==> !Fault(r)
      ensures || (r.Err? && tokens == old(tokens))
              || (&& id in old(tokens) && old(tokens[id]).id == tokenId && r.FoundToken?
                  && r.token.id == tokenId && FromResponse(r.token, response)
                  && NearNow(World(), r.token.expiresAt - response.expiresIn) && tokens == old(tokens)[id := r.token])
    {
      hide Working, NextCall, Resume;
      ghost var w := World();
      var fault: bool := *;
      if failing && fault {
        r := Err(Raw(OtherSql));
      } else if !(id in tokens && tokens[id].id == tokenId) {
        r := Err(NotFound);
      } else {
        var now :| clock - skew <= now <= clock + skew;  // the application's clock
        r := FoundToken(TokenRow(tokenId, response, now + response.expiresIn));
        tokens := tokens[id := r.token];
      }
      Record(pc, r, w);
    }

    // ---- Payment provider configurations ----

    method GetConfigByIntegration(id: Id, ghost pc: Pc) returns (r: Reply)
      requires At(pc) && !pc.Done? && NextCall(pc) == Call.GetConfigByIntegration(id)
      modifies this`run
      ensures Next(pc, r) && Took(r)
      ensures !failing ==> !Fault(r)
      ensures r.Err? || (id in configs && r == FoundConfig(id, configs[id]))
    {
      hide Working, NextCall, Resume;
      ghost var w := World();
      var fault: bool := *;
      if failing && fault {
        r := Err(Raw(OtherSql));
      } else if id !in configs {
        r := Err(NotFound);
      } else {
        r := FoundConfig(id, configs[id]);
      }
      Record(pc, r, w);
    }

    method GetConfigByLocation(locationId: string, ghost pc: Pc) returns (r: Reply)
      requires At(pc) && !pc.Done? && NextCall(pc) == Call.GetConfigByLocation(locationId)
      modifies this`run
      ensures Next(pc, r) && Took(r)
      ensures !failing ==> !Fault(r)
      ensures r.Err? ==> Fault(r) || (r == Err(NotFound) && forall i :: i in configs ==> configs[i].config.locationId != locationId)
      ensures || r.Err?
              || (&& r.FoundConfig?
                  && r.id in configs
                  && r.config == configs[r.id]
                  && r.config.config.locationId == locationId)
    {
      hide Working, NextCall, Resume;
      ghost var w := World();
      var fault: bool := *;
      if failing && fault {
        r := Err(Raw(OtherSql));
      } else if i :| i in configs && configs[i].config.locationId == locationId {
        r := FoundConfig(i, configs[i]);
      } else {
        r := Err(NotFound);
      }
      Record(pc, r, w);
    }

    method GetConfigByApiKey(apiKey: string, ghost pc: Pc) returns (r: Reply)
      requires At(pc) && !pc.Done? && NextCall(pc) == Call.GetConfigByApiKey(apiKey)
      modifies this`run
      ensures Next(pc, r) && Took(r)
      ensures !failing ==> !Fault(r)
      ensures r.Err? ==> Fault(r) || (r == Err(NotFound) && forall i :: i in configs ==> configs[i].apiKey != apiKey)
      ensures r.Err? || (r.FoundConfig? && r.id in configs && r.config == configs[r.id] && r.config.apiKey == apiKey)
    {
      hide Working, NextCall, Resume;
      ghost var w := World();
      var fault: bool := *;
      if failing && fault {
        r := Err(Raw(OtherSql));
      } else if i :| i in configs && configs[i].apiKey == apiKey {
        r := FoundConfig(i, configs[i]);
      } else {
        r := Err(NotFound);
      }
      Record(pc, r, w);
    }

    method InsertConfig(id: Id, config: ProviderConfig, apiKey: string) returns (r: Reply)
      modifies this`configs, this`history
      ensures ConfigWrite(old(World()), Call.CreateConfig(id, config, apiKey), r, World())
      ensures !Fault(r)
      ensures || (r.Err? && configs == old(configs) && (r.error == Duplicate ==> id in configs))
              || (r.FoundConfig? && id !in old(configs) && configs == old(configs)[id := ConfigRow(config, apiKey)])
    {
      if id in configs {
        r := Err(WrapError(UniqueViolation));
      } else if id !in integrations {
        r := Err(WrapError(ForeignKeyViolation));
      } else {
        configs := configs[id := ConfigRow(config, apiKey)];
        history := LogKey(history, id, apiKey);
        r := FoundConfig(id, configs[id]);
      }
    }

    method CreateConfig(id: Id, config: ProviderConfig, apiKey: string, ghost pc: Pc) returns (r: Reply)
      requires At(pc) && !pc.Done? && NextCall(pc) == Call.CreateConfig(id, config, apiKey)
      modifies this`run, this`configs, this`history
      ensures Next(pc, r) && Took(r)
      ensures !failing ==> !Fault(r)
      ensures || (r.Err? && configs == old(configs) && (r.error == Duplicate ==> id in configs))
              || (r.FoundConfig? && id !in old(configs) && configs == old(configs)[id := ConfigRow(config, apiKey)])
    {
      hide Working, NextCall, Resume, Answers, ConfigWrite;
      ghost var w := World();
      var fault: bool := *;
      if failing && fault {
        r := Err(Raw(OtherSql));
      } else {
        r := InsertConfig(id, config, apiKey);
      }
      ConfigAnswered(w, Call.CreateConfig(id, config, apiKey), r, World());
      Record(pc, r, w);
    }

    method UpdateConfig(id: Id, config: ProviderConfig, apiKey: string, ghost pc: Pc) returns (r: Reply)
      requires At(pc) && !pc.Done? && NextCall(pc) == Call.UpdateConfig(id, config, apiKey)
      modifies this`run, this`configs, this`history
      ensures Next(pc, r) && Took(r)
      ensures !failing ==> !Fault(r)
      ensures || (r.Err? && configs == old(configs))
              || (r.FoundConfig? && id in old(configs) && configs == old(configs)[id := ConfigRow(config, apiKey)])
    {
      hide Working, NextCall, Resume, Answers;
      ghost var w := World();
      var fault: bool := *;
      if failing && fault {
        r := Err(Raw(OtherSql));
      } else if id !in configs {
        r := Err(NotFound);
      } else {
        configs := configs[id := ConfigRow(config, apiKey)];
        history := LogKey(history, id, apiKey);
        r := FoundConfig(id, configs[id]);
      }
      ConfigAnswered(w, Call.UpdateConfig(id, config, apiKey), r, World());
      Record(pc, r, w);
    }

    // ---- Webhook events and subscriptions ----

    /** INSERT ... ON CONFLICT DO NOTHING RETURNING: a conflict yields no row, and no row is not a duplicate. */
    method CreateEvent(key: EventKey, ghost pc: Pc) returns (r: Reply)
      requires At(pc) && !pc.Done? && NextCall(pc) == Call.CreateEvent(key)
      modifies this`run, this`events
      ensures Next(pc, r) && Took(r)
      ensures !failing ==> !Fault(r)
      ensures || (r.Err? && r.error != Duplicate && events == old(events))
              || (r.Ack? && key !in old(events) && events == old(events) + {key})
    {
      hide Working, NextCall, Resume;
      ghost var w := World();
      var fault: bool := *;
      if failing && fault {
        r := Err(Raw(OtherSql));
      } else if key in events {
        r := Err(WrapError(NoRows));
      } else if key.0 !in integrations {
        r := Err(WrapError(ForeignKeyViolation));
      } else {
        events := events + {key};
        r := Ack;
      }
      Record(pc, r, w);
    }

    method GetSubscription(id: Id, endpoint: string, ghost pc: Pc) returns (r: Reply)
      requires At(pc) && !pc.Done? && NextCall(pc) == Call.GetSubscription(id, endpoint)
      modifies this`run
      ensures Next(pc, r) && Took(r)
      ensures !failing ==> !Fault(r)
      ensures r.Err? ==> Fault(r) || (r == Err(NotFound) && (id, endpoint) !in subscriptions)
      ensures r.Err? || ((id, endpoint) in subscriptions && r == FoundSubscription(subscriptions[(id, endpoint)]))
    {
      hide Working, NextCall, Resume;
      ghost var w := World();
      var fault: bool := *;
      if failing && fault {
        r := Err(Raw(OtherSql));
      } else if (id, endpoint) !in subscriptions {
        r := Err(NotFound);
      } else {
        r := FoundSubscription(subscriptions[(id, endpoint)]);
      }
      Record(pc, r, w);
    }

    method InsertSubscription(id: Id, endpoint: string) returns (r: Reply)
      modifies this`subscriptions, this`nextId, this`history
      ensures WebhookWrite(old(World()), Call.CreateSubscription(id, endpoint), r, World())
      ensures !Fault(r)
      ensures || (r.Err? && subscriptions == old(subscriptions) && nextId == old(nextId))
              || (&& r.Ack?
                  && (id, endpoint) !in old(subscriptions)
                  && subscriptions == old(subscriptions)[(id, endpoint) := Subscription(old(nextId), None)])
      ensures r.Err? ==>
                || (r == Err(Duplicate) && (id, endpoint) in subscriptions)
                || (r == Err(Constraint) && id !in integrations)
    {
      if id !in integrations {
        r := Err(WrapError(ForeignKeyViolation));
      } else if (id, endpoint) in subscriptions {
        r := Err(WrapError(UniqueViolation));
      } else {
        subscriptions, nextId := subscriptions[(id, endpoint) := Subscription(nextId, None)], nextId + 1;
        history := history.(urls := history.urls + {(id, endpoint)});
        r := Ack;
      }
    }

    method CreateSubscription(id: Id, endpoint: string, ghost pc: Pc) returns (r: Reply)
      requires At(pc) && !pc.Done? && NextCall(pc) == Call.CreateSubscription(id, endpoint)
      modifies this`run, this`subscriptions, this`nextId, this`history
      ensures Next(pc, r) && Took(r)
      ensures !failing ==> !Fault(r)
      ensures || (r.Err? && subscriptions == old(subscriptions) && nextId == old(nextId))
              || (&& r.Ack?
                  && (id, endpoint) !in old(subscriptions)
                  && subscriptions == old(subscriptions)[(id, endpoint) := Subscription(old(nextId), None)])
      ensures r.Err? ==>
                || (r == Err(Duplicate) && (id, endpoint) in subscriptions)
                || (r == Err(Constraint) && id !in integrations) || Fault(r)
    {
      hide Working, NextCall, Resume, Answers, WebhookWrite;
      ghost var w := World();
      var fault: bool := *;
      if failing && fault {
        r := Err(Raw(OtherSql));
      } else {
        r := InsertSubscription(id, endpoint);
      }
      WebhookAnswered(w, Call.CreateSubscription(id, endpoint), r, World());
      Record(pc, r, w);
    }

    method UpdateLastDelivery(id: Id, endpoint: string, subscriptionId: Id, ghost pc: Pc) returns (r: Reply)
      requires At(pc) && !pc.Done? && NextCall(pc) == Call.UpdateLastDelivery(id, endpoint, subscriptionId)
      modifies this`run, this`subscriptions
      ensures Next(pc, r) && Took(r)
      ensures !failing ==> !Fault(r)
      ensures || (r.Err? && subscriptions == old(subscriptions))
              || (r.FoundSubscription? && (id, endpoint) in old(subscriptions)
                  && subscriptions == old(subscriptions)[(id, endpoint) := r.subscription])
    {
      hide Working, NextCall, Resume;
      ghost var w := World();
      var fault: bool := *;
      if failing && fault {
        r := Err(Raw(OtherSql));
      } else if !((id, endpoint) in subscriptions && subscriptions[(id, endpoint)].id == subscriptionId) {
        r := Err(NotFound);
      } else {
        var now: int := *;
        subscriptions := subscriptions[(id, endpoint) := Subscription(subscriptionId, Some(now))];
        r := FoundSubscription(subscriptions[(id, endpoint)]);
      }
      Record(pc, r, w);
    }

    method DeleteSubscription(id: Id, endpoint: string, subscriptionId: Id, ghost pc: Pc) returns (r: Reply)
      requires At(pc) && !pc.Done? && NextCall(pc) == Call.DeleteSubscription(id, endpoint, subscriptionId)
      modifies this`run, this`subscriptions
      ensures Next(pc, r) && Took(r)
      ensures !failing ==> !Fault(r)
      ensures || (r.Err? && subscriptions == old(subscriptions))
              || (r.Ack? && subscriptions == old(subscriptions) - {(id, endpoint)})
    {
      hide Working, NextCall, Resume;
      ghost var w := World();
      var fault: bool := *;
      if failing && fault {
        r := Err(Raw(OtherSql));
      } else if !((id, endpoint) in subscriptions && subscriptions[(id, endpoint)].id == subscriptionId) {
        r := Err(NotFound);
      } else {
        subscriptions := subscriptions - {(id, endpoint)};
        r := Ack;
      }
      Record(pc, r, w);
    }

    // ---- OAuth states ----

    method InsertState(at: Pair, text: string) returns (r: Reply)
      requires text != "" && text !in history.issued && text !in history.presented
      modifies this`states, this`history
      ensures StateWrite(old(World()), Call.CreateState(at.clientId, at.platformId), r, World())
      ensures !Fault(r)
      ensures || (r.Err? && states == old(states))
              || (&& r.NewState?
                  && r.text == text
                  && r.state == OauthState(at.clientId, at.platformId, r.state.expiresAt, false)
                  && NearNow(World(), r.state.expiresAt - STATE_TTL)
                  && states == old(states)[text := r.state])
    {
      if * {
        r := Err(WrapError(ForeignKeyViolation));
      } else {
        var now :| clock - skew <= now <= clock + skew;  // the application's clock
        r := NewState(text, OauthState(at.clientId, at.platformId, now + STATE_TTL, false));
        states := states[text := r.state];
        history := history.(issued := history.issued[text := Issue(at.clientId, at.platformId, clock, r.state.expiresAt)]);
      }
    }

    /** `text` is 32 random bytes, so nobody has seen it. */
    method CreateState(at: Pair, text: string, ghost pc: Pc) returns (r: Reply)
      requires At(pc) && !pc.Done? && NextCall(pc) == Call.CreateState(at.clientId, at.platformId)
      requires text != "" && text !in history.issued && text !in history.presented
      modifies this`run, this`states, this`history
      ensures Next(pc, r) && Took(r)
      ensures !failing ==> !Fault(r)
      ensures || (r.Err? && states == old(states))
              || (&& r.NewState?
                  && r.text == text
                  && r.state == OauthState(at.clientId, at.platformId, r.state.expiresAt, false)
                  && NearNow(World(), r.state.expiresAt - STATE_TTL)
                  && states == old(states)[text := r.state])
    {
      hide Working, NextCall, Resume, Answers, StateWrite;
      ghost var w := World();
      var fault: bool := *;
      if failing && fault {
        r := Err(Raw(OtherSql));
      } else {
        r := InsertState(at, text);
      }
      StateAnswered(w, Call.CreateState(at.clientId, at.platformId), r, World());
      Record(pc, r, w);
    }

    method GetState(state: string, ghost pc: Pc) returns (r: Reply)
      requires At(pc) && !pc.Done? && NextCall(pc) == Call.GetState(state)
      modifies this`run
      ensures Next(pc, r) && Took(r)
      ensures !failing ==> !Fault(r)
      ensures r.Err? || r.FoundState?
    {
      hide Working, NextCall, Resume;
      ghost var w := World();
      var fault: bool := *;
      if failing && fault {
        r := Err(Raw(OtherSql));
      } else if state !in states {
        r := Err(NotFound);
      } else {
        r := FoundState(states[state]);
      }
      Record(pc, r, w);
    }

    method TakeState(state: string) returns (r: Reply)
      modifies this`states, this`history
      ensures StateWrite(old(World()), Call.ConsumeState(state), r, World())
      ensures !Fault(r)
      ensures || (r.Err? && states == old(states))
              || (&& state in old(states) && !old(states[state]).consumed && old(states[state]).expiresAt > clock
                  && r == FoundState(old(states[state]).(consumed := true)) && states == old(states)[state := r.state])
    {
      history := history.(presented := history.presented + {state});
      if state in states && !states[state].consumed && states[state].expiresAt > clock {
        var row := states[state].(consumed := true);
        states := states[state := row];
        history := history.(accepted := history.accepted[state := Acceptance(row.clientId, row.platformId, clock)]);
        r := FoundState(row);
      } else {
        r := Err(NotFound);
      }
    }

    /** UPDATE ... WHERE state = $1 AND consumed_at IS NULL AND expires_at > NOW(): check and consume in one statement. */
    method ConsumeState(state: string, ghost pc: Pc) returns (r: Reply)
      requires At(pc) && !pc.Done? && NextCall(pc) == Call.ConsumeState(state)
      modifies this`run, this`states, this`history
      ensures Next(pc, r) && Took(r)
      ensures !failing ==> !Fault(r)
      ensures || (r.Err? && states == old(states))
              || (&& state in old(states) && !old(states[state]).consumed && old(states[state]).expiresAt > clock
                  && r == FoundState(old(states[state]).(consumed := true)) && states == old(states)[state := r.state])
    {
      hide Working, NextCall, Resume, Answers, StateWrite;
      ghost var w := World();
      var fault: bool := *;
      if failing && fault {
        r := Err(Raw(OtherSql));
        history := history.(presented := history.presented + {state});
      } else {
        r := TakeState(state);
      }
      StateAnswered(w, Call.ConsumeState(state), r, World());
      Record(pc, r, w);
    }

    method DeleteExpiredStates(ghost pc: Pc) returns (r: Reply)
      requires At(pc) && !pc.Done? && NextCall(pc) == Call.DeleteExpiredStates
      modifies this`run, this`states
      ensures Next(pc, r) && Took(r)
      ensures !failing ==> !Fault(r) && (r.Err? || r.Ack?)
      ensures if r.Ack? then forall text :: text in states <==> text in old(states) && old(states[text]).expiresAt > clock
              else states == old(states)
      ensures forall text :: text in states ==> states[text] == old(states[text])
    {
      hide Working, NextCall, Resume, Answers;
      ghost var w := World();
      var fault: bool := *;
      if failing && fault {
        r := Err(Raw(OtherSql));
      } else {
        states := map s | s in states && states[s].expiresAt > clock :: states[s];
        r := Ack;
      }
      StateAnswered(w, Call.DeleteExpiredStates, r, World());
      Record(pc, r, w);
    }

    // ---- HighLevel ----

    /** A code that fails may or may not be spent. */
    method ExchangeCode(code: string, ghost pc: Pc) returns (r: Reply)
      requires At(pc) && !pc.Done? && NextCall(pc) == Call.ExchangeCode(code)
      modifies this`run, this`usedCodes
      ensures Next(pc, r) && Took(r)
      ensures r.Refused? || (r.Exchanged? && code in usedCodes && !(singleUseCodes && code in old(usedCodes)))
      ensures old(usedCodes) <= usedCodes
    {
      hide Working, NextCall, Resume;
      ghost var w := World();
      if * {
        var http: HttpError := *;
        r := Refused(http);
      } else if * {
        usedCodes := usedCodes + {code};
        var http: HttpError := *;
        r := Refused(http);
      } else if singleUseCodes && code in usedCodes {
        var http: HttpError := *;
        r := Refused(http);
      } else {
        var response: TokenResponse := *;
        usedCodes := usedCodes + {code};
        r := Exchanged(response);
      }
      Record(pc, r, w);
    }

    method GetUserInfo(accessToken: string, ghost pc: Pc) returns (r: Reply)
      requires At(pc) && !pc.Done? && NextCall(pc) == Call.GetUserInfo(accessToken)
      modifies this`run
      ensures Next(pc, r) && Took(r)
      ensures r.Refused? || r.UserIs?
    {
      hide Working, NextCall, Resume;
      ghost var w := World();
      if * {
        var http: HttpError := *;
        r := Refused(http);
      } else {
        var user: string := *;
        r := UserIs(user);
      }
      Record(pc, r, w);
    }

    method RefreshUpstream(refreshToken: string, ghost pc: Pc) returns (r: Reply)
      requires At(pc) && !pc.Done? && NextCall(pc) == Call.RefreshUpstream(refreshToken)
      modifies this`run
      ensures Next(pc, r) && Took(r)
      ensures r.Refused? || r.Exchanged?
    {
      hide Working, NextCall, Resume;
      ghost var w := World();
      if * {
        var http: HttpError := *;
        r := Refused(http);
      } else {
        var response: TokenResponse := *;
        r := Exchanged(response);
      }
      Record(pc, r, w);
    }

    /** What exists is refused; what is refused as if by accident may have been done all the same. */
    method CreateAssociation(locationId: string, ghost pc: Pc) returns (r: Reply)
      requires At(pc) && !pc.Done? && NextCall(pc) == Call.CreateAssociation(locationId)
      modifies this`run, this`associations
      ensures Next(pc, r) && Took(r)
      ensures r.Refused? || r.Ack?
    {
      hide Working, NextCall, Resume;
      ghost var w := World();
      if locationId in associations {
        var http: HttpError := *;
        r := Refused(http);
      } else if * {
        var http: HttpError := *;
        r := Refused(http);
      } else if * {
        associations := associations + {locationId};
        r := Refused(OtherHttp);
      } else {
        associations := associations + {locationId};
        r := Ack;
      }
      Record(pc, r, w);
    }

    method CreateProviderConfig(config: ProviderConfig, ghost pc: Pc) returns (r: Reply)
      requires At(pc) && !pc.Done? && NextCall(pc) == Call.CreateProviderConfig(config)
      modifies this`run, this`providerConfigs
      ensures Next(pc, r) && Took(r)
      ensures || (r.Refused? && (providerConfigs == old(providerConfigs) || r.http == OtherHttp))
              || (&& r.Ack? && config.locationId !in old(providerConfigs)
                  && providerConfigs == old(providerConfigs)[config.locationId := config])
    {
      hide Working, NextCall, Resume;
      ghost var w := World();
      if config.locationId in providerConfigs {
        var http: HttpError := *;
        r := Refused(http);
      } else if * {
        var http: HttpError := *;
        r := Refused(http);
      } else if * {
        providerConfigs := providerConfigs[config.locationId := config];
        r := Refused(OtherHttp);
      } else {
        providerConfigs := providerConfigs[config.locationId := config];
        r := Ack;
      }
      Record(pc, r, w);
    }

    method FetchProviderConfig(locationId: string, ghost pc: Pc) returns (r: Reply)
      requires At(pc) && !pc.Done? && NextCall(pc) == Call.FetchProviderConfig(locationId)
      modifies this`run
      ensures Next(pc, r) && Took(r)
      ensures r.Refused? || (locationId in providerConfigs && r == Fetched(providerConfigs[locationId]))
    {
      hide Working, NextCall, Resume;
      ghost var w := World();
      if locationId !in providerConfigs {
        var http: HttpError := *;
        r := Refused(http);
      } else if * {
        var http: HttpError := *;
        r := Refused(http);
      } else {
        r := Fetched(providerConfigs[locationId]);
      }
      Record(pc, r, w);
    }

    // ---- Effects, counted ----

    /** A recorded marketplace event is handed to the dispatcher. */
    ghost method Dispatch(key: EventKey, pc: Pc)
      requires At(pc) && !pc.Done? && NextCall(pc) == Call.Dispatch(key)
      modifies this`run, this`history
      ensures Next(pc, Ack) && Took(Ack)
      ensures history == old(history).(effects := old(history).effects + multiset{key})
    {
      hide Working, NextCall, Resume;
      var w := World();
      history := history.(effects := history.effects + multiset{key});
      Record(pc, Ack, w);
    }

    /** Transactions.ProcessPaymentWebhook, over gRPC. */
    method DelegateWebhook(key: EventKey, ghost pc: Pc) returns (r: Reply)
      requires At(pc) && !pc.Done? && NextCall(pc) == Call.DelegateWebhook(key)
      modifies this`run, this`history
      ensures Next(pc, r) && Took(r)
      ensures (r.Ack? || r.RpcFailed?) && history == old(history).(effects := old(history).effects + multiset{key})
    {
      hide Working, NextCall, Resume;
      ghost var w := World();
      history := history.(effects := history.effects + multiset{key});
      if * {
        var code: RpcCode := *;
        r := RpcFailed(code);
      } else {
        r := Ack;
      }
      Record(pc, r, w);
    }

    /** Transactions.VerifyPayment, over gRPC. */
    method DelegateVerify(ghost pc: Pc) returns (r: Reply)
      requires At(pc) && !pc.Done? && NextCall(pc) == Call.DelegateVerify
      modifies this`run
      ensures Next(pc, r) && Took(r)
      ensures (r.Verdict? && Exclusive(r.success, r.failed)) || r.RpcFailed?
    {
      if * {
        var code: RpcCode := *;
        r := RpcFailed(code);
      } else {
        var success: bool, failed: bool := *, *;
        r := Verdict(success, failed && !success);
      }
      Record(pc, r, World());
    }
  }

  /** What Lifecycle says of an undisturbed request holds of the request in hand. */
  lemma ServedUndisturbed(db: Database, pc: Pc)
    requires db.At(pc)
    ensures Undisturbed(db.found, db.Tables(), db.request, pc)
  {
    hide Machine.Valid, Sequential;
    RunUndisturbed(db.run);
  }

  lemma IntegrationAnswered(w: World, call: Call, r: Reply, w': World)
    requires IsIntegrationWrite(call) && ((Fault(r) && w' == w) || IntegrationWrite(w, call, r, w'))
    ensures Answers(w, call, r, w')
  {
  }

  lemma TokenAnswered(w: World, call: Call, r: Reply, w': World)
    requires IsTokenWrite(call) && ((Fault(r) && w' == AfterFault(w, call)) || TokenWrite(w, call, r, w'))
    ensures Answers(w, call, r, w')
  {
  }

  lemma ConfigAnswered(w: World, call: Call, r: Reply, w': World)
    requires IsConfigWrite(call) && ((Fault(r) && w' == w) || ConfigWrite(w, call, r, w'))
    ensures Answers(w, call, r, w')
  {
  }

  lemma StateAnswered(w: World, call: Call, r: Reply, w': World)
    requires IsStateWrite(call) && ((Fault(r) && w' == AfterFault(w, call)) || StateWrite(w, call, r, w'))
    ensures Answers(w, call, r, w')
  {
  }

  lemma WebhookAnswered(w: World, call: Call, r: Reply, w': World)
    requires IsWebhookWrite(call) && ((Fault(r) && w' == w) || WebhookWrite(w, call, r, w'))
    ensures Answers(w, call, r, w')
  {
  }

  lemma ArrivalIsValid(run: Run, pid: nat, req: Request)
    requires Machine.Valid(run) && Sequential(run) && pid !in Last(run).procs
    requires forall k :: k in Keys(req) ==> !Blank(k) && k !in Last(run).keys
    ensures var s := Last(run);
            var r := Then(run, Arrive(pid, req), s.(procs := s.procs[pid := Arrived(s.settings, req)], keys := s.keys + Keys(req)));
            Machine.Valid(r) && Sequential(r) && Current(r) == Some(pid) && Arrival(r) == s.world.tables
  {
    hide Answers, Start;
  }

  /** Some number beyond all of these. */
  ghost function Unused(ids: set<nat>): (id: nat)
    ensures forall i :: i in ids ==> i < id
  {
    if ids == {} then 0
    else
      var i :| i in ids;
      var rest := Unused(ids - {i});
      assert forall j :: j in ids ==> j == i || j in ids - {i};
      if i < rest then rest else i + 1
  }
}
