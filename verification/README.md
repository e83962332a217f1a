# A verified model of the Clients and Transactions services

This project models two Go services that connect merchants to HighLevel's custom payment provider, and proves what
holds of them in every run. Clients owns the OAuth flow, the installation webhooks, the provider registration and the
payment-facing endpoints; Transactions owns deposits, their verification and the merchants list.

## How it is built

Clients runs no database transaction: every repository call is one SQL statement, and any number of requests
interleave between calls. The model takes that as its grain.

- `Schema` has the tables with the constraints of the up migrations; `Calls` says what one repository or upstream call
  may answer and do, as a relation that leaves open which matching row a lookup returns, which statements fail, and
  what HighLevel says. HighLevel is a second machine of its own: codes, associations and configurations that persist,
  answers that may be lost.
- `Program` has each procedure of the source as a program over calls: `NextCall` is the call a program counter makes,
  `Resume` the code between its reply and the next one, with the same branches, errors and order as the source.
- `Machine` interleaves any number of requests call by call; a request that is never scheduled again has crashed. A
  `Run` starts on freshly migrated tables, with any contents at HighLevel.
- `OauthStates`, `Deliveries`, `Subscriptions`, `Registrations`, `CodeExchange` and `Attempts` each keep one invariant
  through every step; `Runs` draws the results about all runs and their continuations. `Tenants` settles which
  integration a location resolves to. `Lifecycle` has statuses and tokens, call by call and with one request at a time;
  `Revivals` says exactly which writes break the order of statuses, and when a revocation is final. `Origins` says where
  configurations come from, `Retries` exactly when registrations fail. `Evidence` says what a request has been told
  before it gets where it is, and `Columns` what tokens and configurations hold, column by column.
- `Scenarios` says what the service may do, request by request, and `Stories` puts such requests together into runs from
  a fresh deployment: the witnesses for what can go wrong, and for what can succeed. `Successes` has the remaining
  operations succeed from any world that has what they need.
- `Backend`, `OauthService`, `WebhookService`, `PaymentService` and `IntegrationService` are the source's own imperative
  form: a database object with one method per repository call, and service methods that read like the Go code. Each
  is proved to follow its program, whatever the replies, and to change the tables as it promises. A service method is
  an undisturbed execution; what other requests may do between its calls is the business of `Machine`, whose requests
  run the same programs.
- `Deposits`, `Money` and `Paging` are the Transactions side.

## Facts the proofs rest on

- Unique, by the migrations of Clients: an integration's client and platform, one token and one configuration per
  integration, one event per integration and provider event id, one subscription per integration and endpoint, state
  strings. Dependents of an integration are deleted with it. External account ids, configured locations, API keys and
  the two HighLevel references of a deposit are not unique, so a lookup by one of them may return any matching row.
- State strings and API keys are 32 random bytes each: fresh, and not blank. Rows get ids that are never used again.
- The database clock does not go back, and the application's clock is within `skew` of it.
- HighLevel returns for a location the configuration it holds for that location, and refuses to create what exists.
- The registry holds the HighLevel provider, and that provider has the payment capability, as the service is wired.

## Where the code and its documentation part ways

- A replayed event is documented to be acknowledged as a duplicate. The insert's empty RETURNING is not turned into
  the duplicate error, so it comes back as an internal error (`Runs.ReplayIsInternal`), and no request ever ends in the
  documented one (`Runs.NoDuplicateIsReported`).
- Subscriptions are stored under their callback URL and looked up under the empty one. A recorded event goes on exactly
  if the empty one is subscribed (`Stories.SubscriptionDecides`), which takes a request with an empty URL
  (`Runs.OnlyEmptyUrlsDispatch`); with any other URL the event is lost (`Stories.EventsGetLost`).
- A stateless callback exchanges its code twice (`Runs.CodesArePresented`): it can succeed if and only if HighLevel
  takes a code twice (`Stories.StatelessCallbacksSucceedIff`).
- A location is said never to resolve to another client. Nothing in the schema or the code insists on it
  (`Tenants.LocationsCanBeShared`); `Tenants.RunIsSafeIff` says exactly when it holds.
- A reconnected integration keeps its token, so the callback that should complete the reconnection fails
  (`Stories.ReconnectionsFail`). Where there is a token every callback fails at it (`Scenarios.SecondTokenIsRefused`);
  where there is none, a callback for a CREATED integration can succeed (`Stories.CallbacksCanSucceed`).
- Syncing and reconnecting are refused unless the integration is ACTIVE, and a callback activates only a CREATED one; but
  each then writes its status whatever the status is by that time. Call by call this breaks all three rules that hold one
  request at a time (`Lifecycle.LifecycleIsOrderly`): a sync that read ACTIVE before a disconnect takes REVOKED to ACTIVE,
  a reconnect takes it to CREATED (`Stories.StaleWritesRevive`). `Revivals.RunIsOrderlyIff` says exactly which runs keep
  the rules, `Revivals.RevokedCanBeLeftIff` when a revocation can still be undone.
- CreateDeposit returns four columns that are NULL at first into plain Go strings, which pgx refuses to scan. The row is
  committed and the caller gets an internal error: `Deposits.DepositTable.Create` and `InitiateDeposit` say what a
  failed reply leaves behind, and when.
- No operation stores a HighLevel transaction reference on a deposit that has none
  (`Deposits.FreshDeploymentVerifiesNothing`); and under pgx a capture does not record the charge of a deposit that has
  none, because that deposit cannot be read (`Deposits.FirstChargesAreNeverRecorded`).

## Model

| member | source | states |
|---|---|---|
| Machine.RunKeepsSchema | clients/db/migrations/000001_init_schema.up.sql:61-147 | in every run the foreign keys hold, one integration exists per client and platform, and every id is below the counter that gives out the next |
| Runs.IdsAreNeverReused | clients/db/migrations/000001_init_schema.up.sql:61-80 | in every continuation of a run an id that was given out names the same integration, up to its status, or nothing |
| Runs.StatesAreSingleUse | clients/oauth/service.go:193-213 | over all interleavings no two callbacks consume one state; inside ProcessCallback a stateful callback works for exactly the client and platform its state was issued to; it consumed the state before issue time plus lifetime plus clock skew |
| Runs.StateErrorsAreSound | clients/oauth/service.go:197-208 | "already used" means a consume succeeded; "expired" means it had expired when this callback's consume ran; "invalid", unless a statement failed, means never issued or expired |
| OauthStates.StepKeepsOauth | clients/oauth/service.go:193-213 | the invariant behind both, kept by every step of every request |
| Runs.OneEffectPerEvent | clients/webhooks/service.go:228-288 | over marketplace dispatches and payment delegations together an event has at most one effect and one recorder; a delivery that does not record changes no table |
| Runs.ReplayIsInternal | clients/db/repo/webhook_event_repo.go:34-37 | a replayed insert leaves the world as it is and surfaces as Internal, not as the documented duplicate |
| Runs.NoDuplicateIsReported | clients/webhooks/service.go:239-243 | in every run no request ends in the duplicate-event error |
| Runs.LostEvents | clients/webhooks/service.go:239-288 | every recorded event has one recording delivery; it has had no effect if and only if that delivery still holds it, stopped holding it, or is a marketplace event other than INSTALL that failed in hand; otherwise it has had exactly one |
| Runs.EffectNeedsItsOwner | clients/webhooks/service.go:239-288 | only the delivery that recorded an event ever hands it on |
| Runs.LostForGood | clients/webhooks/service.go:239-242 | once that delivery is over, no later delivery, in any continuation of the run, adds an effect for the event |
| Origins.ConfiguredIffReported | clients/providers/highlevel_webhook.go:317-342 | in every run an integration has a configuration if and only if a finished INSTALL delivery, callback or registration reports one |
| Origins.LostInstallsLeaveItToOthers | clients/providers/highlevel_webhook.go:276-348 | as long as the delivery that recorded an event does not report a configuration, whether integrations have one is up to requests that did not record that event |
| Origins.FailedInstallsStayLost | clients/webhooks/service.go:239-257 | if that delivery failed, this is so in every continuation: the event is never made good |
| Runs.OnlyEmptyUrlsDispatch | clients/webhooks/service.go:266-272 | a marketplace event other than INSTALL is dispatched only where some RegisterWebhook request used an empty callback URL |
| Stories.SubscriptionDecides | clients/webhooks/service.go:266-272 | unless the lookup fails, a recorded event goes on if and only if the empty endpoint is subscribed, and otherwise its delivery is over |
| Stories.EventsGetLost | clients/webhooks/service.go:266-272 | from every fresh deployment a run registers a non-empty URL for an active integration and loses an event for it |
| Evidence.EventsAreHandledByType | clients/webhooks/service.go:153-264 | in every run nothing is recorded for an event that is not for HighLevel, not signed or not parsed; an event ends Installed only if its type is "INSTALL" or "integration.installed", and Dispatched only if it is another |
| Successes.InstallsCanSucceed | clients/webhooks/service.go:190-264 | from any world in which an integration has the location as external account id, an unrecorded event of either type can be recorded, handed on and Installed, leaving the row there was or else one of the settings' own fields for the event's location |
| Successes.EventsCanSucceed | clients/webhooks/service.go:201-288 | an unrecorded event of any other type can be Dispatched where its location is configured and the empty endpoint subscribed |
| Runs.QueriesGetOneVerdict | clients/payments/service.go:130-153 | across both services no query is answered with success and failure at once |
| Deliveries.StepKeepsEvents | clients/webhooks/service.go:228-288 | the delivery invariant, kept by every step |
| Subscriptions.StepKeepsUrls | clients/webhooks/service.go:86-94 | every stored endpoint was the callback URL of some RegisterWebhook request, kept by every step |
| Runs.ConfigsConverge | clients/providers/highlevel_webhook.go:317-342 | in any order of INSTALL events, callbacks and registrations: one row per integration once any of them reports it in place, with a non-empty key if a registration or a callback reports one; a key is non-empty exactly if a registration wrote; the contents are HighLevel's if one did and our settings otherwise |
| Runs.ConfigsNeverRegress | clients/providers/highlevel_webhook.go:317-342 | a row stays as long as its integration, and a key never becomes empty again |
| Runs.InstallLeavesRowsAlone | clients/providers/highlevel_webhook.go:317-342 | no step of a webhook delivery alters or removes a configuration |
| Columns.OtherEventsConfigureNothing | clients/webhooks/service.go:254-264 | no event of a type other than "INSTALL" and "integration.installed" ever changes a configuration |
| Columns.ConfigurationsSayTheSettings | clients/oauth/service.go:472-480 | in every run a configuration without a registered key, or for a location HighLevel had none for, has the name, description, image, query and payments URL of the settings, each in its own column, and no subscription schedule; so has what HighLevel came to hold |
| Columns.ConfigurationsAreForTheirLocation | clients/providers/highlevel_webhook.go:326-336 | in every run a configuration is written for the location of the INSTALL event or registration that writes it, or for the one HighLevel returned for the callback's code |
| Runs.RegistrationReachesCanon | clients/oauth/service.go:461-516 | whatever failed before, a registration that writes leaves HighLevel's configuration for its location under its own key: the row an unbroken first attempt would have left, up to the key |
| Retries.RegistrationsFailIff | clients/oauth/service.go:410-521 | in every run a registration makes at most seven calls; one that is over has failed if and only if one of its calls met a setback or it had no location or access token to work with, and the same for what a callback reports of its registration; a setback is a failing statement, a missing integration, platform, provider or key, or a refusal that does not mean "exists" |
| Scenarios.RegistrationGoes | clients/oauth/service.go:421-521 | for any integration there is, and whatever is left behind here or at HighLevel, a registration can go through, and leaves its row |
| Registrations.StepKeepsRegister | clients/oauth/service.go:461-516 | rows mirror HighLevel, keys are written once, INSTALL resolutions stay meaningful: kept by every step |
| Runs.CallbackIsBestEffort | clients/oauth/service.go:389-406 | in every interleaving a finished callback reports registration if and only if it wrote a configuration, for its own integration under its own key; a failed callback or registration has written none |
| Runs.ConfigsAreWrittenLast | clients/oauth/service.go:502-518 | the only step in which a callback or registration changes configurations is its last: it writes the one row of its integration, under its own key, and reports success |
| Runs.TokensAreStoredOnce | clients/oauth/service.go:374-378 | the only step in which a callback changes tokens finds none for its integration and stores the access token, refresh token, scope and type of its response, to expire within the clock skew of now plus its lifetime |
| Columns.TokensHoldWhatWasStored | clients/oauth/service.go:373-378 | in every run a token has the access token, refresh token, scope and type of the last response stored for its integration |
| Columns.StoredResponsesWereGiven | clients/oauth/service.go:331-378 | and that is a response HighLevel gave to some request |
| Columns.RefreshPresentsWhatWasStored | clients/oauth/service.go:537-558 | in every interleaving a refresh presents the refresh token of the response that was the last one stored when it read the row |
| Columns.CallsGoByWhatWasSaid | clients/oauth/service.go:331-341 | in every interleaving a callback presents its own code and state and asks for the user with the access token it was given, and registrations go to HighLevel for their own location with the settings' own fields |
| Runs.OneAttemptPerIntegration | clients/oauth/service.go:374-397 | at most one callback ever gets past its token insert for an integration, so registration inside callbacks is attempted at most once per integration |
| Runs.OnlyRegisterRotatesKeys | clients/oauth/service.go:421-516 | a key is ever replaced only by a registration requested on its own; without those the first key of an integration is its last |
| Attempts.StepKeepsAttempts | clients/oauth/service.go:374-408 | the invariant behind these, kept by every step |
| Runs.KeyOpensItsIntegration | clients/payments/service.go:97-107 | a stored non-blank key is the last one registered for its integration and was written for no other |
| Runs.QueriesNeedACurrentKey | clients/payments/service.go:239-255 | a query is passed on only with the last key registered for some integration |
| Runs.PaymentsNeedTheCurrentKey | clients/payments/service.go:187-192 | a payment webhook goes ahead only with the last key registered for the integration of its location |
| Runs.RetiredKeysNeverMatch | clients/oauth/service.go:502-516 | after a re-registration the old key matches no row in any continuation |
| Runs.CodesArePresented | clients/oauth/service.go:228-265 | a stateful callback presents its code at most once; a stateless one has presented it twice by the time it changes a table, so with single-use codes it never changes one and never succeeds |
| Evidence.ChecksComeFirst | clients/oauth/service.go:301-335 | in every interleaving ProcessCallback presents its code, and a callback, authorization or provisioning goes on or succeeds, only after it was told of an enabled platform and an active client; and, but for a provisioning, of HighLevel's platform |
| Evidence.HighLevelComesFirst | clients/oauth/service.go:440-455 | in every interleaving a registration, a subscription or its removal, or a refresh succeeds only after it was told of HighLevel's platform |
| Evidence.RefusalIsFinal | clients/oauth/service.go:301-329 | a callback, authorization or provisioning that is told of a disabled platform or an inactive client ends with that error, and neither presents a code nor changes anything, then or in any continuation |
| Stories.StatelessCallbacksSucceedIff | clients/oauth/service.go:228-265 | from any fresh deployment some run has a stateless callback succeed if and only if HighLevel's codes are not single use |
| CodeExchange.StepKeepsExchange | clients/oauth/service.go:331-335 | the count behind it, kept by every step |
| Tenants.WebhookResolution | clients/webhooks/service.go:190-221 | on one state an event of type "INSTALL" or "integration.installed" can resolve to exactly the holders of the external account id or, if there are none, of the configured location; any other to exactly the latter |
| Tenants.PaymentResolution | clients/payments/service.go:173-192 | a payment webhook can get past the key check with exactly the integrations configured for its location under its key |
| Tenants.InstallResolversAgree | clients/providers/highlevel_webhook.go:290-315 | webhook resolution, dispatcher and stateless callback can answer exactly the same integrations |
| Tenants.SafeMeansUnambiguous | clients/providers/highlevel_webhook.go:276-278 | events of a location go to one integration, whatever their kind, if and only if no two integrations share it as external account id or configured location |
| Tenants.StepKeepsSafeIff | clients/providers/highlevel_webhook.go:326-337 | in every interleaving a step keeps tenants apart if and only if it gives no integration a location another one holds; INSTALL steps never do |
| Tenants.RunIsSafeIff | clients/oauth/service.go:244-263 | a whole run keeps tenants apart if and only if every provisioning, callback and registration step in it is considerate |
| Tenants.LocationsCanBeShared | clients/service/integrations_service.go:84-84 | from every fresh deployment a run provisions two clients with one location, and its events then go to either |
| Lifecycle.ActiveHasToken | clients/oauth/service.go:348-377 | in every interleaving OAUTH_PENDING is never reached and an active integration has a token, unless storing it failed or its callback has not got there |
| Lifecycle.StatusesChangeByDecision | clients/service/integrations_service.go:96-267 | an existing integration changes only its status, only as the acting request decided; a new one is CREATED if provisioned and ACTIVE if a callback made it |
| Lifecycle.LifecycleIsOrderly | clients/service/integrations_service.go:183-267 | one request at a time: ACTIVE is entered only by a callback and only from CREATED, CREATED re-entered only by a reconnect and only from ACTIVE, REVOKED left only by deletion |
| Stories.StaleWritesRevive | clients/service/integrations_service.go:195-257 | call by call each of the three fails: from every fresh deployment a run has a sync that read ACTIVE take REVOKED to ACTIVE after a disconnect, and another has a reconnect take it to CREATED; all report success |
| Revivals.StepIsOrderlyIff | clients/db/sqlc/integrations.sql.go:327-332 | in every interleaving a step keeps all three rules if and only if it is no stale write: one that does not revoke and finds a status that its procedure neither read nor writes |
| Revivals.RunIsOrderlyIff | clients/service/integrations_service.go:183-267 | a whole run keeps all three rules if and only if none of its steps is a stale write |
| Revivals.OverForGood | clients/service/integrations_service.go:96-120 | in every continuation a revoked or deleted integration stays so, if no request in flight is about to write another status on it |
| Revivals.RevokedCanBeLeftIff | clients/service/integrations_service.go:213-267 | some continuation leaves REVOKED other than by deletion if and only if a request in flight is about to write another status on the integration |
| Lifecycle.CallbackConnects | clients/oauth/service.go:379-408 | one request at a time: a successful callback leaves an active integration with its first token, which has the access token, refresh token, scope and type of the response and the reported expiry, and the configuration it reports, and otherwise the configurations as it found them |
| Lifecycle.FailuresLeaveNothing | clients/oauth/service.go:421-521 | one request at a time: a failed callback or registration leaves all configurations, and a failed callback all tokens, as it found them |
| Stories.CallbacksCanSucceed | clients/oauth/service.go:301-408 | a callback with a live state can succeed for any CREATED integration that has no token |
| Scenarios.SecondTokenIsRefused | clients/oauth/service.go:374-378 | for an integration that has a token every callback fails at storing another, and changes no table there |
| Stories.DeploymentConnects | clients/oauth/service.go:301-408 | from every fresh deployment a run provisions an integration, begins its authorization and connects it, registration included |
| Stories.ReconnectionsFail | clients/service/integrations_service.go:183-211 | from every fresh deployment a run installs, connects and reconnects an integration, and the callback that follows fails |
| OauthService.Service.HandleCallback | clients/oauth/service.go:188-266 | success leaves an active integration with its first token and reports registration exactly if the configuration was written; failure changes no token and no configuration; success with a state consumed that state, unused and alive, for its client and platform; without a state and with single-use codes it fails and changes no table; the token has the response's values column by column, and the response, the user and the checks are what this request was told |
| OauthService.Service.Resolve | clients/oauth/service.go:188-266 | the same two clauses about states and codes |
| OauthService.Service.UseState | clients/oauth/service.go:193-214 | at most this state was consumed, while unused and alive; success takes that |
| OauthService.Service.ResolveLocation | clients/oauth/service.go:238-265 | success is for the client and platform of an integration with this external account id or, only if there is none, one configured for the location; a spent single-use code fails and changes no table |
| OauthService.Service.ResolveConfig | clients/oauth/service.go:246-263 | the same where no external account id matches |
| OauthService.Service.ProcessCallback | clients/oauth/service.go:301-408 | success is for the given client and platform; a spent single-use code fails and changes no table |
| OauthService.Service.Identify | clients/oauth/service.go:331-341 | the same from the exchange on |
| OauthService.Service.Connect | clients/oauth/service.go:343-372 | success leaves the pair's integration ACTIVE, a CREATED one before or else the first of the pair, and its first token with the response's values; failure changes no token |
| OauthService.Service.Finish | clients/oauth/service.go:374-407 | success stores the first token of the integration, with the response's values; failure changes no token |
| OauthService.Service.RegisterProvider | clients/oauth/service.go:421-521 | success leaves the integration's one row as HighLevel's configuration of the location, the one it held or else one with the settings' fields in their own columns, under the key in hand; an error leaves all configurations as they were |
| OauthService.Service.RegisterAt | clients/oauth/service.go:440-470 | the same from the platform check on |
| OauthService.Service.Configure | clients/oauth/service.go:472-521 | the same from the upstream configuration on |
| OauthService.Service.Store | clients/oauth/service.go:502-516 | success writes exactly the given configuration under the key in hand, whether or not there was a row; an error writes none |
| OauthService.Service.Register | clients/oauth/service.go:421-521 | on its own: success writes exactly one configuration, failure none |
| OauthService.Service.BeginAuthorization | clients/oauth/service.go:122-170 | success hands out the state it stored: unconsumed, for the pair, expiring one lifetime from now within the clock skew; a failure leaves such a state behind only if the authorization URL does not parse |
| OauthService.Service.IssueState | clients/oauth/service.go:157-170 | the same from the insert on |
| OauthService.Service.RefreshAccessToken | clients/oauth/service.go:524-573 | success changes only the token of an ACTIVE integration, under its id, to the values of a response this request was given, to expire within the clock skew of now plus its lifetime; a failure changes nothing; unless statements fail a missing or inactive integration or a missing token is told as such |
| OauthService.Service.RefreshActive | clients/oauth/service.go:537-573 | the same for an ACTIVE integration |
| OauthService.Service.Renew | clients/oauth/service.go:545-573 | the same from the platform check on |
| OauthService.Service.Replace | clients/oauth/service.go:558-573 | the same from the refresh on |
| Successes.RefreshesCanSucceed | clients/oauth/service.go:524-573 | the token of an ACTIVE integration can be replaced by any response |
| WebhookService.Service.ProcessWebhook | clients/webhooks/service.go:153-293 | records at most the one event, under the app it names or an integration its location resolves to, and only if it is signed and for HighLevel; keeps every configuration, changes one only for "INSTALL" or "integration.installed", and then adds the settings' own fields for its location; changes nothing at all if it records nothing; each refusal at the door has its error |
| WebhookService.Service.Process | clients/webhooks/service.go:190-293 | the same from the parsed event on |
| WebhookService.Service.Resolve | clients/webhooks/service.go:190-226 | goes on to record under an integration its location resolves to, or ends with the error it answers |
| WebhookService.Service.Deliver | clients/webhooks/service.go:248-288 | keeps every configuration and records nothing further; Installed only for an INSTALL, whose row is then there; Dispatched only for another event whose integration has a subscription under endpoint "" |
| WebhookService.Service.DeliverToSubscriber | clients/webhooks/service.go:266-288 | Dispatched only under endpoint ""; adds and removes no subscription and changes no other one |
| WebhookService.Service.HandleIntegrationInstalled | clients/providers/highlevel_webhook.go:279-348 | Installed for an integration with the location as external account id or, only if there is none, configured for it, and its row is there; every other outcome is a dispatch failure; existing rows stay |
| WebhookService.Service.Locate | clients/providers/highlevel_webhook.go:290-315 | an integration that exists, found by external account id first; or the dispatch failure |
| WebhookService.Service.LocateByConfig | clients/providers/highlevel_webhook.go:293-308 | the same where no external account id matches |
| WebhookService.Service.CreateOrFind | clients/providers/highlevel_webhook.go:317-348 | the integration's row is there, old or new or made by somebody else in between, or it is a dispatch failure; existing rows stay; a new one has the settings' fields in their own columns, for the event's location and without a key |
| WebhookService.Service.RegisterWebhook | clients/webhooks/service.go:55-99 | one new subscription under the callback URL, or no change; only for an ACTIVE integration, and a missing, inactive or already subscribed one is told as such |
| WebhookService.Service.Subscribe | clients/webhooks/service.go:68-99 | the same from the platform check on |
| WebhookService.Service.UnregisterWebhook | clients/webhooks/service.go:102-150 | removes the subscription under endpoint "", or nothing |
| Successes.UnsubscribingCanSucceed | clients/webhooks/service.go:102-150 | the subscription under endpoint "" of an integration can be removed |
| WebhookService.Service.Unsubscribe | clients/webhooks/service.go:111-149 | the same from the integration lookup on |
| WebhookService.Service.RemoveSubscription | clients/webhooks/service.go:118-149 | the subscription goes on success and stays on failure |
| PaymentService.Service.HandleWebhook | clients/payments/service.go:161-234 | either nothing happens, or exactly its own event is recorded, for the integration whose key it knows, and delegated once |
| PaymentService.Service.RecordAndDelegate | clients/payments/service.go:206-233 | the event is recorded and delegated once for this integration, or neither |
| PaymentService.Service.Authenticate | clients/payments/service.go:173-204 | the integration whose configuration has this location and key |
| Successes.PaymentsCanSucceed | clients/payments/service.go:161-233 | an unrecorded payment event with the location and the key of a configuration can be recorded and delegated |
| PaymentService.Service.HandleQuery | clients/payments/service.go:92-154 | changes nothing; a verdict needs the key of some configuration and a verify operation that names a payment; a blank key is told as missing and, unless statements fail, a key no configuration has as invalid |
| Schema.BlankIsAllSpace | clients/payments/service.go:94-118 | blank is what has nothing but space; by Schema.TrimTakesTheEnds trimming takes exactly the space at both ends |
| PaymentService.Service.HandleVerify | clients/payments/service.go:130-153 | ends as the one reply it got says: with its verdict, never success and failure at once, or in the error of its code |
| Successes.QueriesCanSucceed | clients/payments/service.go:92-153 | a verification query with the key of a configuration can be answered with every verdict that is not both |
| IntegrationService.Service.InstallIntegration | clients/service/integrations_service.go:42-94 | one CREATED integration, or no change |
| IntegrationService.Service.Provision | clients/service/integrations_service.go:71-87 | the same from the existence check on |
| IntegrationService.Service.UninstallIntegration | clients/service/integrations_service.go:96-127 | the integration goes with every row that hangs off it, and no other row does; an ACTIVE one was revoked before; a failure may leave it revoked; unless statements fail it succeeds if and only if there is the integration |
| IntegrationService.Service.RevokeAndRemove | clients/service/integrations_service.go:110-120 | likewise for an active integration, which a failed removal leaves revoked |
| IntegrationService.Service.Remove | clients/service/integrations_service.go:117-120 | the deletion and its cascade |
| IntegrationService.Service.SetStatus | clients/service/integrations_service.go:201-257 | the one status and nothing else, or no change |
| IntegrationService.Service.ReconnectIntegration | clients/service/integrations_service.go:183-211 | ACTIVE to CREATED and nothing else, or no change; unless statements fail it succeeds if and only if the integration is there and ACTIVE, and says which is not |
| IntegrationService.Service.DisconnectIntegration | clients/service/integrations_service.go:213-237 | REVOKED and nothing else, or no change; unless statements fail it succeeds if and only if the integration is there |
| IntegrationService.Service.SyncIntegration | clients/service/integrations_service.go:239-267 | undisturbed it changes nothing; unless statements fail it succeeds if and only if the integration is there and ACTIVE, and says which is not |
| Backend.Database.GetPlatform | clients/db/repo/platform_repo.go:48-54 | found with any attributes, not found, or a failure, which only failing statements give; the platforms table is not part of this model |
| Backend.Database.GetClient | clients/db/repo/client_repo.go:43-49 | found with any attributes, not found, or a failure, which only failing statements give; the clients table is not part of this model |
| Backend.Database.GetIntegration | clients/db/repo/integration_repo.go:49-55 | the row, NotFound, or a failure |
| Backend.Database.GetByClientAndPlatform | clients/db/sqlc/integrations.sql.go:73-76 | a row of this client and platform |
| Backend.Database.GetByExternalAccountID | clients/db/sqlc/integrations.sql.go:101-104 | any row with this external account id |
| Backend.Database.CreateIntegration | clients/db/repo/integration_repo.go:36-47 | one row under a new id where the pair has none, Duplicate for a taken pair, or no change |
| Backend.Database.UpdateStatus | clients/db/sqlc/integrations.sql.go:327-332 | unconditional by id |
| Backend.Database.DeleteIntegration | clients/db/repo/integration_repo.go:153-162 | the row and, by cascade, its dependents |
| Backend.Database.GetToken | clients/db/repo/oauth_token_repo.go:54-60 | the row, NotFound, or a failure |
| Backend.Database.CreateToken | clients/db/sqlc/oauth_tokens.sql.go:15-28 | one token per integration |
| Backend.Database.UpdateToken | clients/db/sqlc/oauth_tokens.sql.go:137-148 | by token id |
| Backend.Database.GetConfigByIntegration | clients/db/sqlc/payment_provider_configs.sql.go:110-113 | the row, NotFound, or a failure |
| Backend.Database.GetConfigByLocation | clients/db/sqlc/payment_provider_configs.sql.go:136-139 | any row with this location |
| Backend.Database.GetConfigByApiKey | clients/db/sqlc/payment_provider_configs.sql.go:84-87 | any row with this key |
| Backend.Database.CreateConfig | clients/db/repo/payment_provider_config_repo.go:32-48 | one row per integration, Duplicate if there is one |
| Backend.Database.UpdateConfig | clients/db/repo/payment_provider_config_repo.go:74-90 | by integration |
| Backend.Database.CreateEvent | clients/db/repo/webhook_event_repo.go:28-39 | inserts a new key; a conflict is never reported as Duplicate |
| Backend.Database.GetSubscription | clients/db/repo/webhook_subscription_repo.go:55-64 | the row, NotFound, or a failure |
| Backend.Database.CreateSubscription | clients/db/repo/webhook_subscription_repo.go:34-45 | one row per integration and endpoint |
| Backend.Database.UpdateLastDelivery | clients/db/repo/webhook_subscription_repo.go:116-125 | by subscription id |
| Backend.Database.DeleteSubscription | clients/db/repo/webhook_subscription_repo.go:127-136 | by subscription id |
| Backend.Database.CreateState | clients/db/repo/oauth_state_repo.go:31-42 | one unconsumed row, expiring one lifetime from the application's now |
| Backend.Database.GetState | clients/db/repo/oauth_state_repo.go:44-50 | the row, NotFound, or a failure |
| Backend.Database.ConsumeState | clients/db/sqlc/oauth_states.sql.go:15-22 | check and consume in one statement |
| Backend.Database.DeleteExpiredStates | clients/db/sqlc/oauth_states.sql.go:75-77 | what has expired, and only that |
| Backend.Database.ExchangeCode | clients/providers/highlevel.go:137-196 | refused, or any response; single-use codes only once |
| Backend.Database.GetUserInfo | clients/providers/highlevel.go:253-283 | refused, or any user |
| Backend.Database.RefreshUpstream | clients/providers/highlevel.go:198-251 | refused, or any response |
| Backend.Database.CreateAssociation | clients/providers/highlevel_payment_provider.go:47-65 | an existing association is refused; a lost answer may have made one |
| Backend.Database.CreateProviderConfig | clients/providers/highlevel_payment_provider.go:70-94 | likewise for the configuration of a location |
| Backend.Database.FetchProviderConfig | clients/providers/highlevel_payment_provider.go:99-135 | what HighLevel holds for the location, or refused |
| Backend.Database.Dispatch | clients/webhooks/service.go:251-257 | counts one downstream effect |
| Backend.Database.DelegateWebhook | clients/payments/service.go:222-231 | counts one downstream effect, and may fail |
| Backend.Database.DelegateVerify | clients/payments/service.go:130-135 | an error of the other service, or a verdict that is not both success and failure |
| Backend.ServedUndisturbed | clients/oauth/service.go:301-408 | a request these methods serve is an undisturbed request of a run |
| Deposits.DepositTable.VerifyPayment | transactions/payments/service.go:52-96 | a verdict of some deposit the request may be about, by transaction first and by charge if that finds nothing, or the internal error if that row cannot be read; or the error due; any other internal error only if a statement fails; a verdict is success if and only if that deposit is COMPLETED, and failure if and only if it is FAILED |
| Deposits.DepositTable.ResolveDeposit | transactions/payments/service.go:102-125 | transaction first, charge as a fallback |
| Deposits.DepositTable.ProcessPaymentWebhook | transactions/payments/service.go:134-188 | records at most the charge of one deposit of the transaction; a capture that is acknowledged for a known transaction has recorded it; refused exactly for a blank event type, and failing only if a statement does or a row cannot be scanned |
| Deposits.DepositTable.InitiateDeposit | transactions/deposits/service.go:42-120 | unless statements fail the deposit is inserted if and only if the request is well formed, its customer is known and the table takes it, and success is reported if and only if moreover the driver takes NULLs; a reply that fails leaves the table alone or, with an internal error from a driver that does not, exactly this one INITIATED deposit; the deposit has the request's client and merchant, the customer, the amount as the column stores it, status INITIATED and nothing from the provider or HighLevel |
| Deposits.DepositTable.Create | transactions/db/repo/deposit_repo.go:38-55 | one row with the amount as the column stores it; an error leaves the table alone or, if the driver refuses the NULL columns, exactly that row; unless statements fail, each of these if and only if; that row is INITIATED, for the request's client and merchant and the customer, without references |
| Deposits.DepositTable.GetByGHLTransactionID | transactions/db/repo/deposit_repo.go:73-79 | any row with this transaction id, if it can be scanned; not found exactly without one, unless statements fail |
| Deposits.DepositTable.GetByGHLChargeID | transactions/db/repo/deposit_repo.go:81-87 | any row with this charge id, if it can be scanned; not found exactly without one, unless statements fail |
| Deposits.DepositTable.UpdateGHLReference | transactions/db/repo/deposit_repo.go:163-173 | both references of one row; an error leaves the table alone, or that row updated if it cannot be scanned |
| Deposits.VerdictsAreStable | transactions/payments/service.go:134-188 | no sequence of payment webhooks changes a status, a transaction lookup, or the reply to a verification of a known transaction, be it a verdict or the internal error of an unreadable row |
| Deposits.FirstChargesAreNeverRecorded | transactions/db/sqlc/models.go:285-304 | under a driver that refuses NULL no sequence of payment webhooks gives a deposit its first charge or touches one without; only a charge there is can be replaced |
| Deposits.NeverBoth | transactions/payments/service.go:84-95 | no verdict is both success and failure, and every other one is the verdict of some status: what the query endpoint is told |
| Deposits.VerdictsSayTheStatus | transactions/payments/service.go:84-95 | the verdicts that can be given are exactly those that say of a readable deposit of the request's whether it is COMPLETED and whether it is FAILED |
| Deposits.CandidatesByColumn | transactions/payments/service.go:102-125 | the deposits of a request are those with its transaction id if there are any, and otherwise those with its charge id |
| Deposits.CaptureTies | transactions/payments/service.go:169-176 | a recorded capture ties a transaction to a charge nobody else has |
| Deposits.ChargeSpeaksForTransaction | transactions/payments/service.go:102-125 | from then on verifying by the charge alone gives the verdict on the transaction, until either gets another partner |
| Deposits.FreshDeploymentVerifiesNothing | transactions/db/sqlc/deposits.sql.go:16-43 | no deposit ever gets a HighLevel reference, so from an empty table no verification finds a transaction; and every deposit in it is INITIATED, none paid or failed |
| Money.ToBinary64IsNearest | transactions/deposits/converters.go:30-33 | the conversion gives the nearest binary64 number, ties to even |
| Money.CentsSurvive | transactions/deposits/converters.go:30-33 | every stored amount from 0 to 2^46 is shown as it is |
| Money.NextCentIsLost | transactions/deposits/converters.go:30-33 | the next cent is shown one too high, inside the range of the column |
| Money.RoundTripBoundIsTight | transactions/deposits/converters.go:30-33 | all amounts up to a limit survive if and only if the limit is at most 2^46 |
| Money.AcceptedFinite | transactions/deposits/service.go:179-198 | a finite amount is accepted if and only if it exceeds half the smallest binary64 number and is in range |
| Money.AcceptedCents | transactions/deposits/service.go:179-198 | with at most two decimals, accepted means greater than zero |
| Money.ColumnTakes | transactions/deposits/service.go:179-198 | the column takes a finite amount if and only if it is below 9999999999999999.995 in size, as the nearest number of cents, away from zero on a tie |
| Money.AmountsAreConserved | transactions/deposits/service.go:179-198 | up to 2^46 the reply shows the request rounded to cents, positive if and only if the request is at least half a cent |
| Money.NaNIsAccepted | transactions/deposits/service.go:189-195 | NaN passes validation, storage and display |
| Paging.Merchants.ListMerchants | transactions/merchants/service.go:108-160 | the page the request asks for, with a token while anything lies beyond, or the internal error, only if a statement fails; the total is the number of merchants |
| Paging.EffectiveSize | transactions/merchants/service.go:113-121 | a page size from 1 to 100 is taken as it is, a larger one as 100, none or a smaller one as 20 |
| Paging.Merchants.List | transactions/db/sqlc/merchants.sql.go:87-91 | at most the limit, one after the other from the offset on, and fewer only at the end of the table; which leaves one answer |
| Paging.FollowingTokens | transactions/merchants/service.go:113-149 | following tokens returns every merchant once and stops if and only if there are at most two pages; otherwise the second page repeats for ever |

## Left out

- Backend.Database.GetPlatform: keeps no platforms table, so a platform may be enabled now and not then.
- Backend.Database.GetClient: keeps no clients table, so a client may be active now and not then.
- Deletion of clients and platforms, which would cascade to OAuth states; the tables of both are any answer to a lookup.
- A statement that fails is taken to have changed nothing; a database answer lost after a commit is not modelled.
- Ed25519 signatures, AES-GCM, base64, JSON and URL handling, HTTP status mapping: a request says whether it was signed and what it parses to.
- gRPC and gateway code, configuration, logging, migrations runner: plumbing.
- UUID parsing at the RPC boundary: a request carries ids.
- ValidateToken, deposit status updates and the expiry sweep's caller: nothing in the services calls them; the expiry statement itself is a request of the machine.
- ListIntegrations, GetIntegration and the CRUD of clients, platforms, customers and payouts: easy members only.
- The order of merchants with equal creation times, which PostgreSQL leaves open: the table is a fixed sequence.
- The legacy `deposits/` and `integrations/` services: linear code over clients that are not part of this model.
