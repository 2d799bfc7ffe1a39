/** What each database transaction of the authorization server computes, as functions on
    the tables. A failed transaction rolls back, so a refusal carries no tables. */
module OAuthTransactions {
  import opened Prelude
  import opened OAuthTables

  // ---------------------------------------------------------------- consent

  datatype ConsentError =
    | RequestExpired | AccountRequired | ClientUnavailable | LifetimeNotAllowed
    | UserUnavailable | CredentialRequired | ToolsRequired | SelectionRequired | SelectionInvalid

  datatype Consent =
    | Refused(error: ConsentError)
    | Declined(db: Tables)
    | Approved(db: Tables, code: Id)

  predicate PendingRequest(db: Tables, request: Id, now: Time) {
    request in db.requests && db.requests[request].resolvedAt.None? &&
    db.requests[request].expiresAt > now
  }

  predicate UsableAccount(dir: Directory, account: Id) {
    account in dir.accounts &&
    var a := dir.accounts[account];
    a.role == User && a.user.Some? && a.status == Active && !a.mustChangePassword
  }

  function ConsentReadiness(db: Tables, dir: Directory, user: Id): Option<ConsentError> {
    if user !in dir.users || dir.users[user] != Active then Some(UserUnavailable)
    else if user !in dir.credentialed then Some(CredentialRequired)
    else if EffectiveTools(db, user) == {} then Some(ToolsRequired)
    else None
  }

  function ResolveRequest(db: Tables, request: Id, now: Time): Tables
    requires request in db.requests
  {
    db.(requests := db.requests[request := db.requests[request].(resolvedAt := Some(now))])
  }

  function ResolveConsent(db: Tables, dir: Directory, cfg: Settings, request: Id, account: Id,
                          approve: bool, ttlDays: Option<int>, tools: set<Tool>, now: Time,
                          freshCode: Id): Consent
  {
    if !PendingRequest(db, request, now) then Refused(RequestExpired)
    else if !UsableAccount(dir, account) then Refused(AccountRequired)
    else if db.requests[request].client !in dir.clients then Refused(ClientUnavailable)
    else
      var days := if ttlDays.None? then cfg.refreshTtlDays else ttlDays.value;
      if approve && days !in cfg.grantTtlOptionsDays then Refused(LifetimeNotAllowed)
      else if !approve then Declined(ResolveRequest(db, request, now))
      else
        var user := dir.accounts[account].user.value;
        var unready := ConsentReadiness(db, dir, user);
        if unready.Some? then Refused(unready.value)
        else if tools == {} then Refused(SelectionRequired)
        else if !(tools <= EffectiveTools(db, user)) then Refused(SelectionInvalid)
        else
          var req := db.requests[request];
          var code := AuthCode(req.client, user, req.scopes, tools, req.resource,
                               now + cfg.codeTtlSeconds * SECOND, Some(now + days * DAY), None);
          Approved(ResolveRequest(db, request, now).(codes := db.codes[freshCode := code]), freshCode)
  }

  // ---------------------------------------------------------------- issuing token pairs

  datatype Issue = NotIssued(error: TokenError) | Issued(db: Tables, token: TokenResponse)

  function IssuePair(db: Tables, dir: Directory, cfg: Settings, client: Id, user: Id,
                     scopes: seq<Scope>, resource: string, family: Id, refreshExpiresAt: Time,
                     selected: set<Tool>, now: Time, pair: FreshPair): Issue
  {
    var tools := selected * EffectiveTools(db, user);
    var accessExpiresAt := if now + cfg.accessTtlSeconds * SECOND <= refreshExpiresAt
                           then now + cfg.accessTtlSeconds * SECOND else refreshExpiresAt;
    var expiresIn := WholeSeconds(accessExpiresAt - now);
    if !Authorizable(dir, user) then NotIssued(UserNotReady)
    else if tools == {} then NotIssued(NoToolsAvailable)
    else if expiresIn <= 0 then NotIssued(AuthorizationExpired)
    else
      Issued(
        db.(tokens := db.tokens[pair.access :=
              McpToken(user, OAuth, true, Some(accessExpiresAt), None, None)],
            grants := db.grants[pair.access := tools],
            refreshes := db.refreshes[pair.refresh :=
              RefreshToken(family, client, user, scopes, resource, Some(pair.access),
                           refreshExpiresAt, None, None)],
            links := db.links[pair.access := AccessLink(client, pair.refresh, resource, None)]),
        TokenResponse(pair.access, pair.refresh, expiresIn, scopes))
  }

  /** The authorization code as it was loaded before the exchange. */
  datatype StoredCode = StoredCode(record: Id, client: Id)

  /** The code is used up and its family starts. */
  function Consume(db: Tables, code: Id, f: Id, now: Time): Tables
    requires code in db.codes
  {
    db.(codes := db.codes[code := db.codes[code].(consumedAt := Some(now))],
        families := db.families[f := Family(None)])
  }

  /** A code that passed validation is consumed and a new family gets its first pair. */
  function RedeemRecord(db: Tables, dir: Directory, cfg: Settings, id: Id, now: Time, issueNow: Time,
                        freshFamily: Id, pair: FreshPair): Issue
    requires id in db.codes
  {
    var code := db.codes[id];
    var expiry := if code.refreshExpiresAt.Some? then code.refreshExpiresAt.value
                  else now + cfg.refreshTtlDays * DAY;
    IssuePair(Consume(db, id, freshFamily, now), dir, cfg, code.client, code.user, code.scopes, code.resource,
              freshFamily, expiry, code.tools, issueNow, pair)
  }

  function RedeemCode(db: Tables, dir: Directory, cfg: Settings, clientId: string, stored: StoredCode,
                      now: Time, issueNow: Time, freshFamily: Id, pair: FreshPair): Issue
  {
    if stored.record !in db.codes then NotIssued(InvalidGrant)
    else
      var code := db.codes[stored.record];
      if code.consumedAt.Some? || code.expiresAt <= now || code.client != stored.client then
        NotIssued(InvalidGrant)
      else if code.client !in dir.clients || dir.clients[code.client] != clientId then
        NotIssued(InvalidGrant)
      else if code.resource != cfg.resourceUrl then NotIssued(InvalidGrant)
      else RedeemRecord(db, dir, cfg, stored.record, now, issueNow, freshFamily, pair)
  }

  // ---------------------------------------------------------------- revocation

  function FamilyTokens(db: Tables, family: Id): set<Id> {
    set r | r in db.refreshes && db.refreshes[r].family == family && db.refreshes[r].mcpToken.Some?
          :: db.refreshes[r].mcpToken.value
  }

  function RevokeFamily(db: Tables, family: Id, now: Time): Tables
    requires family in db.families
  {
    var at := if db.families[family].revokedAt.Some? then db.families[family].revokedAt else Some(now);
    var ids := FamilyTokens(db, family);
    db.(families := db.families[family := Family(at)],
        refreshes := map r | r in db.refreshes ::
          if db.refreshes[r].family == family then db.refreshes[r].(revokedAt := at)
          else db.refreshes[r],
        tokens := map t | t in db.tokens ::
          if t in ids then db.tokens[t].(enabled := false, revokedAt := at) else db.tokens[t],
        links := map t | t in db.links ::
          if t in ids then db.links[t].(revokedAt := at) else db.links[t])
  }

  /** The family an access token belongs to, through its link and refresh records. */
  function FamilyOfToken(db: Tables, token: Id): Option<Id> {
    if token in db.links && db.links[token].refresh in db.refreshes
    then Some(db.refreshes[db.links[token].refresh].family)
    else None
  }

  /** Dashboard revocation, applied to a token record that was read earlier. */
  function DashboardRevoke(db: Tables, token: Id, family: Option<Id>, now: Time): Option<Tables>
    requires token in db.tokens
  {
    if family.Some? && family.value !in db.families then None
    else
      var d := if family.Some? then RevokeFamily(db, family.value, now) else db;
      Some(d.(tokens := d.tokens[token := d.tokens[token].(enabled := false, revokedAt := Some(now))]))
  }

  // ---------------------------------------------------------------- refresh rotation

  datatype StoredRefresh = StoredRefresh(record: Id, family: Id)

  datatype Cached = Cached(token: TokenResponse, expiresAt: Time)

  datatype Exchange =
    | Rejected(error: TokenError)               // rolled back, or committed only an audit row
    | Recovered(token: TokenResponse)           // duplicate inside the grace window
    | Replayed(db: Tables)                      // replay outside it: the family was revoked
    | Rotated(db: Tables, token: TokenResponse)

  /** The access token of a refreshed record is revoked; a revocation already on record keeps its time. */
  function RetireToken(db: Tables, token: Id, now: Time): Tables {
    db.(tokens := if token in db.tokens && db.tokens[token].revokedAt.None?
                  then db.tokens[token := db.tokens[token].(enabled := false, revokedAt := Some(now))]
                  else db.tokens,
        links := if token in db.links
                 then db.links[token := db.links[token].(revokedAt := Some(now))] else db.links)
  }

  predicate InGrace(cfg: Settings, rotatedAt: Time, now: Time) {
    cfg.graceSeconds > 0 && now - rotatedAt <= cfg.graceSeconds * SECOND
  }

  /** The record is marked rotated and its access token retired. */
  function Retire(db: Tables, record: Id, now: Time): Tables
    requires record in db.refreshes
  {
    var rec := db.refreshes[record];
    var marked := db.(refreshes := db.refreshes[record := rec.(rotatedAt := Some(now))]);
    if rec.mcpToken.Some? then RetireToken(marked, rec.mcpToken.value, now) else marked
  }

  /** Only the predecessor's grants are carried over, so later policy changes cannot widen a connection. */
  function Rotate(db: Tables, dir: Directory, cfg: Settings, record: Id, scopes: seq<Scope>,
                  now: Time, issueNow: Time, pair: FreshPair): Issue
    requires record in db.refreshes
  {
    var rec := db.refreshes[record];
    var selected := if rec.mcpToken.Some? then GrantsOf(db, rec.mcpToken.value) else {};
    IssuePair(Retire(db, record, now), dir, cfg, rec.client, rec.user, scopes, rec.resource, rec.family,
              rec.expiresAt, selected, issueNow, pair)
  }

  function ExchangeRefresh(db: Tables, dir: Directory, cfg: Settings, cached: Option<Cached>,
                           clientId: string, stored: StoredRefresh, scopes: seq<Scope>,
                           now: Time, issueNow: Time, pair: FreshPair): Exchange
  {
    if stored.family !in db.families || db.families[stored.family].revokedAt.Some? then
      Rejected(InvalidGrant)
    else if stored.record !in db.refreshes then Rejected(InvalidGrant)
    else
      var rec := db.refreshes[stored.record];
      if rec.family != stored.family || rec.expiresAt <= now || rec.revokedAt.Some? then
        Rejected(InvalidGrant)
      else if rec.resource != cfg.resourceUrl || !ScopesWithin(scopes, rec.scopes) then
        Rejected(InvalidScope)
      else if rec.client !in dir.clients || dir.clients[rec.client] != clientId then
        Rejected(InvalidGrant)
      else if rec.rotatedAt.Some? then
        if InGrace(cfg, rec.rotatedAt.value, now) then
          if !Authorizable(dir, rec.user) then Rejected(UserNotReady)
          else if cached.Some? && cached.value.expiresAt >= now then Recovered(cached.value.token)
          else Rejected(RecoveryUnavailable)
        else Replayed(RevokeFamily(db, rec.family, now))
      else
        match Rotate(db, dir, cfg, stored.record, scopes, now, issueNow, pair)
        case NotIssued(error) => Rejected(error)
        case Issued(db', token) => Rotated(db', token)
  }

  // ---------------------------------------------------------------- bearer authentication

  datatype Identity = Identity(token: Id, user: Id, scopes: seq<Scope>, family: Option<Id>)

  /** The first read: the candidate record is active at time now. */
  predicate ActiveToken(db: Tables, dir: Directory, token: Id, now: Time) {
    token in db.tokens &&
    var t := db.tokens[token];
    t.enabled && t.revokedAt.None? &&
    t.user in dir.users && dir.users[t.user] == Active &&
    (t.expiresAt.None? || t.expiresAt.value > now)
  }

  /** How far the reads of one authentication have got, each a statement of its own, with the rows they
      saw. */
  datatype Reads =
    | SawToken
    | SawLink(link: AccessLink)
    | SawRefresh(link: AccessLink, refresh: RefreshToken)
    | Resolved(identity: Identity)

  /** The second read: an OAuth token needs its unrevoked link for this resource, a static token must
      have none. */
  function ReadLink(db: Tables, cfg: Settings, token: Id, record: McpToken): Option<Reads> {
    if record.kind == OAuth then
      if token !in db.links || db.links[token].revokedAt.Some? || db.links[token].resource != cfg.resourceUrl
      then None
      else Some(SawLink(db.links[token]))
    else if record.kind != Static || token in db.links then None
    else Some(Resolved(Identity(token, record.user, [], None)))
  }

  /** The third read: the refresh record of the link. */
  function ReadRefresh(db: Tables, link: AccessLink): Option<Reads> {
    if link.refresh !in db.refreshes || db.refreshes[link.refresh].revokedAt.Some? then None
    else Some(SawRefresh(link, db.refreshes[link.refresh]))
  }

  /** The fourth read: the family of the refresh record. */
  function ReadFamily(db: Tables, token: Id, record: McpToken, refresh: RefreshToken): Option<Reads> {
    if refresh.family !in db.families || db.families[refresh.family].revokedAt.Some? then None
    else Some(Resolved(Identity(token, record.user, refresh.scopes, Some(refresh.family))))
  }

  /** The conditional update that decides the request: it rechecks the row it stamps. */
  predicate StampSucceeds(db: Tables, token: Id) {
    token in db.tokens && db.tokens[token].enabled && db.tokens[token].revokedAt.None?
  }

  function Stamp(db: Tables, token: Id, now: Time): Tables {
    if StampSucceeds(db, token)
    then db.(tokens := db.tokens[token := db.tokens[token].(lastUsedAt := Some(now))])
    else db
  }

  // ---------------------------------------------------------------- tool permissions

  function OwnedTokens(db: Tables, user: Id): set<Id> {
    set t | t in db.tokens && db.tokens[t].user == user
  }

  function ReplaceAllowances(db: Tables, user: Id, tools: set<Tool>): Tables {
    db.(grants := map t | t in db.grants ::
          if t in OwnedTokens(db, user) then db.grants[t] * tools else db.grants[t],
        allowances := db.allowances[user := tools])
  }

  /** A token's grants may be replaced by its owner, within the allowances, while it is unrevoked. */
  predicate MayReplaceGrants(db: Tables, user: Id, token: Id, tools: set<Tool>) {
    token in db.tokens && db.tokens[token].user == user && db.tokens[token].revokedAt.None? &&
    tools <= AllowancesOf(db, user)
  }

  function ReplaceGrants(db: Tables, token: Id, tools: set<Tool>): Tables {
    db.(grants := db.grants[token := tools])
  }

  function SyncedSettings(settings: map<Tool, ToolSetting>, specs: seq<(Tool, int)>): map<Tool, ToolSetting>
    decreases |specs|
  {
    if specs == [] then settings
    else
      var (name, version) := specs[0];
      var enabled := name in settings && settings[name].enabled;
      SyncedSettings(settings[name := ToolSetting(enabled, version)], specs[1..])
  }
}
