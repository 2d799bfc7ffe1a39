/** The tables the OAuth token-family protocol reads and writes, as maps of records,
    and the settings and directory facts its transactions consult. */
module OAuthTables {
  import opened Prelude

  type Tool = string
  type Scope = string

  datatype Status = Pending | Active | Disabled

  datatype Role = Admin | User

  datatype TokenKind = Static | OAuth | Unknown

  datatype AuthRequest = AuthRequest(
    client: Id, scopes: seq<Scope>, resource: string, expiresAt: Time, resolvedAt: Option<Time>)

  datatype AuthCode = AuthCode(
    client: Id, user: Id, scopes: seq<Scope>, tools: set<Tool>, resource: string,
    expiresAt: Time, refreshExpiresAt: Option<Time>, consumedAt: Option<Time>)

  datatype Family = Family(revokedAt: Option<Time>)

  datatype RefreshToken = RefreshToken(
    family: Id, client: Id, user: Id, scopes: seq<Scope>, resource: string,
    mcpToken: Option<Id>, expiresAt: Time, rotatedAt: Option<Time>, revokedAt: Option<Time>)

  datatype McpToken = McpToken(
    user: Id, kind: TokenKind, enabled: bool, expiresAt: Option<Time>,
    revokedAt: Option<Time>, lastUsedAt: Option<Time>)

  datatype AccessLink = AccessLink(
    client: Id, refresh: Id, resource: string, revokedAt: Option<Time>)

  datatype ToolSetting = ToolSetting(enabled: bool, version: int)

  datatype Tables = Tables(
    requests: map<Id, AuthRequest>,
    codes: map<Id, AuthCode>,
    families: map<Id, Family>,
    refreshes: map<Id, RefreshToken>,
    tokens: map<Id, McpToken>,
    links: map<Id, AccessLink>,
    grants: map<Id, set<Tool>>,
    allowances: map<Id, set<Tool>>,
    settings: map<Tool, ToolSetting>)

  datatype Account = Account(role: Role, user: Option<Id>, status: Status, mustChangePassword: bool)

  /** Facts owned by other services. They may change arbitrarily between transactions. */
  datatype Directory = Directory(
    users: map<Id, Status>,
    accounts: map<Id, Account>,
    credentialed: set<Id>,
    clients: map<Id, string>)

  datatype Settings = Settings(
    resourceUrl: string,
    accessTtlSeconds: int,
    refreshTtlDays: int,
    grantTtlOptionsDays: set<int>,
    codeTtlSeconds: int,
    graceSeconds: int)

  /** What the token endpoint returns. A token string is identified with the id of the
      record it unlocks, because lookups go through an injective hash. */
  datatype TokenResponse = TokenResponse(access: Id, refresh: Id, expiresIn: int, scopes: seq<Scope>)

  datatype FreshPair = FreshPair(access: Id, refresh: Id)

  datatype TokenError =
    | InvalidGrant          // "authorization code / refresh token is invalid"
    | InvalidScope          // scope or audience mismatch
    | UserNotReady          // user disabled or without an active credential
    | NoToolsAvailable      // every selected tool has been withdrawn
    | AuthorizationExpired  // less than one second of lifetime is left
    | RecoveryUnavailable   // duplicate inside the grace window, nothing cached
    | ReuseDetected         // replay outside the grace window

  function GrantsOf(db: Tables, token: Id): set<Tool> {
    if token in db.grants then db.grants[token] else {}
  }

  function AllowancesOf(db: Tables, user: Id): set<Tool> {
    if user in db.allowances then db.allowances[user] else {}
  }

  /** The user's allowed tools that are also enabled globally. */
  function EffectiveTools(db: Tables, user: Id): set<Tool> {
    set n | n in AllowancesOf(db, user) && n in db.settings && db.settings[n].enabled
  }

  predicate Authorizable(dir: Directory, user: Id) {
    user in dir.users && dir.users[user] == Active && user in dir.credentialed
  }

  predicate ScopesWithin(requested: seq<Scope>, granted: seq<Scope>) {
    forall s :: s in requested ==> s in granted
  }

  /** Python's int() on a timedelta in seconds: truncation toward zero. */
  function WholeSeconds(d: Time): int {
    if d >= 0 then d / SECOND else -((-d) / SECOND)
  }

  predicate IsFresh(db: Tables, pair: FreshPair) {
    pair.access !in db.tokens && pair.access !in db.links && pair.access !in db.grants &&
    pair.refresh !in db.refreshes
  }
}
