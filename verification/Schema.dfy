/** The tables of the Clients service and the repository errors.

The columns, the unique constraints and the cascades are those of the service's
up migrations: one integration per client and platform, one token and one
provider configuration per integration, one event per integration and provider
event id, one subscription per integration and endpoint, unique state strings.
Nothing makes `external_account_id`, `location_id` or `provider_api_key` unique.
*/
module Schema {

  type Id = nat

  datatype Option<+T> = None | Some(value: T)

  datatype Status = CREATED | OAUTH_PENDING | ACTIVE | REVOKED

  datatype Integration = Integration(clientId: Id, platformId: Id, externalAccountId: string, status: Status)

  datatype TokenResponse = TokenResponse(accessToken: string, refreshToken: string, expiresIn: int,
                                         tokenType: string, scope: string, locationId: string)

  datatype Token = Token(id: Id, accessToken: string, refreshToken: string, expiresAt: int,
                         scope: string, tokenType: string)

  /** The token has the values of this response. */
  predicate FromResponse(token: Token, resp: TokenResponse) {
    && token.accessToken == resp.accessToken && token.refreshToken == resp.refreshToken
    && token.scope == resp.scope && token.tokenType == resp.tokenType
  }

  datatype ProviderConfig = ProviderConfig(name: string, description: string, imageUrl: string, locationId: string,
                                           queryUrl: string, paymentsUrl: string, supportsSubscriptionSchedule: bool)

  datatype ConfigRow = ConfigRow(config: ProviderConfig, apiKey: string)

  datatype OauthState = OauthState(clientId: Id, platformId: Id, expiresAt: int, consumed: bool)

  datatype Subscription = Subscription(id: Id, lastDelivery: Option<int>)

  /** (integration_id, provider_event_id) */
  type EventKey = (Id, string)

  /** Rows that hang off an integration are keyed by it, as their unique constraints say. */
  datatype Tables = Tables(
    integrations: map<Id, Integration>,
    tokens: map<Id, Token>,
    configs: map<Id, ConfigRow>,
    events: set<EventKey>,
    subscriptions: map<(Id, string), Subscription>,
    states: map<string, OauthState>,
    nextId: Id)

  const EMPTY_TABLES := Tables(map[], map[], map[], {}, map[], map[], 0)

  /** DELETE FROM integrations cascades to every dependent table. */
  function WithoutIntegration(t: Tables, id: Id): Tables {
    t.(integrations := t.integrations - {id},
       tokens := t.tokens - {id},
       configs := t.configs - {id},
       events := (set k | k in t.events && k.0 != id),
       subscriptions := (map k | k in t.subscriptions && k.0 != id :: t.subscriptions[k]))
  }

  ghost predicate SchemaInv(t: Tables) {
    && (forall i :: i in t.integrations ==> i < t.nextId)
    && t.tokens.Keys <= t.integrations.Keys
    && t.configs.Keys <= t.integrations.Keys
    && (forall k :: k in t.events ==> k.0 in t.integrations)
    && (forall k :: k in t.subscriptions ==> k.0 in t.integrations)
    && (forall i, j :: i in t.integrations && j in t.integrations && i != j ==>
          t.integrations[i].clientId != t.integrations[j].clientId || t.integrations[i].platformId != t.integrations[j].platformId)
  }

  // ---- Who uses a location ----

  /** Integrations with this external account id. */
  function ExtHolders(t: Tables, loc: string): set<Id> {
    set i | i in t.integrations && t.integrations[i].externalAccountId == loc
  }

  /** Integrations with a configuration for this location. */
  function LocHolders(t: Tables, loc: string): set<Id> {
    set i | i in t.configs && t.configs[i].config.locationId == loc
  }

  function ExtFirst(t: Tables, loc: string): set<Id> {
    if ExtHolders(t, loc) != {} then ExtHolders(t, loc) else LocHolders(t, loc)
  }

  // ---- Repository errors ----

  datatype SqlError = NoRows | UniqueViolation | ForeignKeyViolation | CheckViolation | OtherSql

  datatype RepoError = NotFound | Duplicate | Constraint | Raw(cause: SqlError)

  function WrapError(e: SqlError): RepoError {
    match e
    case UniqueViolation => Duplicate
    case ForeignKeyViolation => Constraint
    case CheckViolation => Constraint
    case _ => Raw(e)
  }

  function WrapNotFound(e: SqlError): RepoError {
    if e == NoRows then NotFound else Raw(e)
  }

  // ---- Strings ----

  /** Go's unicode.IsSpace. */
  predicate IsSpace(c: char) {
    || '\t' <= c <= '\r'
    || c == ' '
    || c == '\U{85}' || c == '\U{A0}' || c == '\U{1680}'
    || '\U{2000}' <= c <= '\U{200A}'
    || c == '\U{2028}' || c == '\U{2029}' || c == '\U{202F}' || c == '\U{205F}' || c == '\U{3000}'
  }

  /** strings.TrimSpace */
  function Trim(s: string): string {
    if s == "" then s
    else if IsSpace(s[0]) then Trim(s[1..])
    else if IsSpace(s[|s| - 1]) then Trim(s[..|s| - 1])
    else s
  }

  predicate Blank(s: string) { Trim(s) == "" }

  predicate AllSpace(s: string) { forall i :: 0 <= i < |s| ==> IsSpace(s[i]) }

  /** `t` is what is between space at the two ends of `s`. */
  ghost predicate Between(s: string, t: string) {
    exists before, after :: s == before + t + after && AllSpace(before) && AllSpace(after)
  }

  lemma BetweenAll(s: string)
    ensures Between(s, s)
  {
    assert s == "" + s + "" && AllSpace("");
  }

  lemma BetweenFront(s: string, t: string)
    requires s != "" && IsSpace(s[0]) && Between(s[1..], t)
    ensures Between(s, t)
  {
    var before, after :| s[1..] == before + t + after && AllSpace(before) && AllSpace(after);
    assert s == ([s[0]] + before) + t + after;
    assert AllSpace([s[0]] + before);
  }

  lemma BetweenBack(s: string, t: string)
    requires s != "" && IsSpace(s[|s| - 1]) && Between(s[..|s| - 1], t)
    ensures Between(s, t)
  {
    var before, after :| s[..|s| - 1] == before + t + after && AllSpace(before) && AllSpace(after);
    assert s == before + t + (after + [s[|s| - 1]]);
    assert AllSpace(after + [s[|s| - 1]]);
  }

  /** Trim takes off space at both ends, and leaves none there. */
  lemma {:induction false} TrimTakesTheEnds(s: string)
    ensures Between(s, Trim(s))
    ensures Trim(s) != "" ==> !IsSpace(Trim(s)[0]) && !IsSpace(Trim(s)[|Trim(s)| - 1])
  {
    hide IsSpace, Between;
    if s == "" {
      BetweenAll(s);
    } else if IsSpace(s[0]) {
      TrimTakesTheEnds(s[1..]);
      BetweenFront(s, Trim(s));
    } else if IsSpace(s[|s| - 1]) {
      TrimTakesTheEnds(s[..|s| - 1]);
      BetweenBack(s, Trim(s));
    } else {
      BetweenAll(s);
    }
  }

  /** Blank is what has nothing but space. */
  lemma BlankIsAllSpace(s: string)
    ensures Blank(s) <==> AllSpace(s)
  {
    hide IsSpace;
    TrimTakesTheEnds(s);
    var before, after :| s == before + Trim(s) + after && AllSpace(before) && AllSpace(after);
    if Trim(s) != "" { assert s[|before|] == Trim(s)[0]; }
  }
}
