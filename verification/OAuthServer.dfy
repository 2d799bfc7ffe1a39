/** The authorization server in the source's own shape: transactions that update a private
    working copy of the tables and commit it, or return without committing and so roll back.
    Each method is proved to compute the transaction function that the protocol steps use. */
module OAuthServer {
  import opened Prelude
  import opened OAuthTables
  import opened OAuthTransactions

  /** The tables after a transaction: what it issued, or the old ones after a rollback. */
  function TablesAfter(db: Tables, issue: Issue): Tables {
    match issue
    case NotIssued(_) => db
    case Issued(d, _) => d
  }

  function AnswerOf(issue: Issue): Result<TokenResponse, TokenError> {
    match issue
    case NotIssued(error) => Err(error)
    case Issued(_, token) => Ok(token)
  }

  /** The committed state. */
  class Database {
    var tables: Tables
    var directory: Directory
    const settings: Settings

    constructor (tables: Tables, directory: Directory, settings: Settings)
      ensures this.tables == tables && this.directory == directory && this.settings == settings
    {
      this.tables := tables;
      this.directory := directory;
      this.settings := settings;
    }
  }

  /** One unit of work. Its row changes stay private until Commit. */
  class Session {
    var requests: map<Id, AuthRequest>
    var codes: map<Id, AuthCode>
    var families: map<Id, Family>
    var refreshes: map<Id, RefreshToken>
    var tokens: map<Id, McpToken>
    var links: map<Id, AccessLink>
    var grants: map<Id, set<Tool>>
    var allowances: map<Id, set<Tool>>
    var settings: map<Tool, ToolSetting>

    function View(): Tables
      reads this
    {
      Tables(requests, codes, families, refreshes, tokens, links, grants, allowances, settings)
    }

    constructor Begin(db: Database)
      ensures View() == db.tables
    {
      var t := db.tables;
      requests, codes, families, refreshes := t.requests, t.codes, t.families, t.refreshes;
      tokens, links, grants := t.tokens, t.links, t.grants;
      allowances, settings := t.allowances, t.settings;
    }

    method Commit(db: Database)
      modifies db
      ensures db.tables == View() && db.directory == old(db.directory)
    {
      db.tables := View();
    }

    /** Locks the family row and sweeps every record of the family. */
    method RevokeOAuthFamily(family: Id, revokedAt: Time) returns (swept: Option<set<Id>>)
      modifies this
      ensures family !in old(families) ==> swept == None && View() == old(View())
      ensures family in old(families) ==>
                swept == Some(FamilyTokens(old(View()), family)) &&
                View() == RevokeFamily(old(View()), family, revokedAt)
    {
      if family !in families { return None; }
      var effective := revokedAt;
      if families[family].revokedAt.Some? { effective := families[family].revokedAt.value; }
      families := families[family := families[family].(revokedAt := Some(effective))];
      var ids := set r | r in refreshes && refreshes[r].family == family && refreshes[r].mcpToken.Some?
                       :: refreshes[r].mcpToken.value;
      refreshes := map r | r in refreshes ::
        if refreshes[r].family == family then refreshes[r].(revokedAt := Some(effective))
        else refreshes[r];
      if ids != {} { SweepTokens(ids, effective); }
      ghost var d := RevokeFamily(old(View()), family, revokedAt);
      assert ids == FamilyTokens(old(View()), family);
      assert families == d.families && refreshes == d.refreshes;
      assert tokens == d.tokens && links == d.links;
      return Some(ids);
    }

    /** Disables the listed access tokens and stamps their links. */
    method SweepTokens(ids: set<Id>, at: Time)
      modifies this
      ensures View() == old(View()).(
        tokens := map t | t in old(tokens) ::
          if t in ids then old(tokens)[t].(enabled := false, revokedAt := Some(at)) else old(tokens)[t],
        links := map t | t in old(links) ::
          if t in ids then old(links)[t].(revokedAt := Some(at)) else old(links)[t])
    {
      tokens := map t | t in tokens ::
        if t in ids then tokens[t].(enabled := false, revokedAt := Some(at)) else tokens[t];
      links := map t | t in links ::
        if t in ids then links[t].(revokedAt := Some(at)) else links[t];
    }

    /** The access token of a rotated record stops working; its link is stamped as well. */
    method RevokeMcpToken(token: Id, now: Time)
      modifies this
      ensures View() == RetireToken(old(View()), token, now)
      ensures token in old(tokens) ==>
                token in tokens && tokens[token].revokedAt.Some? &&
                (old(tokens)[token].revokedAt.Some? ==> tokens[token] == old(tokens)[token])
      ensures forall t | t in old(tokens) && t != token :: t in tokens && tokens[t] == old(tokens)[t]
    {
      if token in tokens && tokens[token].revokedAt.None? {
        tokens := tokens[token := tokens[token].(enabled := false, revokedAt := Some(now))];
      }
      if token in links {
        links := links[token := links[token].(revokedAt := Some(now))];
      }
    }

    /** Marks a code consumed and adds the family it starts. */
    method StartFamily(code: Id, family: Id, now: Time)
      requires code in codes
      modifies this
      ensures View() == Consume(old(View()), code, family, now)
    {
      codes := codes[code := codes[code].(consumedAt := Some(now))];
      families := families[family := Family(None)];
    }

    /** Marks a refresh record rotated and retires its access token. */
    method RetireRecord(record: Id, now: Time)
      requires record in refreshes
      modifies this
      ensures View() == Retire(old(View()), record, now)
    {
      var row := refreshes[record];
      refreshes := refreshes[record := row.(rotatedAt := Some(now))];
      if row.mcpToken.Some? { RevokeMcpToken(row.mcpToken.value, now); }
    }

    method IssueTokenPair(dir: Directory, cfg: Settings, client: Id, user: Id, scopes: seq<Scope>,
                          resource: string, family: Id, refreshExpiresAt: Time, selected: set<Tool>,
                          now: Time, pair: FreshPair)
      returns (result: Result<TokenResponse, TokenError>)
      modifies this
      ensures var issue := IssuePair(old(View()), dir, cfg, client, user, scopes, resource, family,
                                     refreshExpiresAt, selected, now, pair);
              result == AnswerOf(issue) && View() == TablesAfter(old(View()), issue)
      ensures result.Ok? <==>
                user in dir.users && dir.users[user] == Active && user in dir.credentialed &&
                (exists n :: n in selected && user in old(allowances) && n in old(allowances)[user] &&
                             n in old(settings) && old(settings)[n].enabled) &&
                cfg.accessTtlSeconds >= 1 && now + SECOND <= refreshExpiresAt
    {
      if !Authorizable(dir, user) { return Err(UserNotReady); }
      var tools := selected * EffectiveTools(View(), user);
      assert forall n :: n in tools <==> n in selected && user in allowances && n in allowances[user] &&
                                         n in settings && settings[n].enabled;
      if tools == {} { return Err(NoToolsAvailable); }
      ghost var some :| some in tools;
      var accessExpiresAt := now + cfg.accessTtlSeconds * SECOND;
      if refreshExpiresAt < accessExpiresAt { accessExpiresAt := refreshExpiresAt; }
      var expiresIn := WholeSeconds(accessExpiresAt - now);
      if expiresIn <= 0 { return Err(AuthorizationExpired); }
      tokens := tokens[pair.access := McpToken(user, OAuth, true, Some(accessExpiresAt), None, None)];
      grants := grants[pair.access := tools];
      refreshes := refreshes[pair.refresh :=
        RefreshToken(family, client, user, scopes, resource, Some(pair.access), refreshExpiresAt,
                     None, None)];
      links := links[pair.access := AccessLink(client, pair.refresh, resource, None)];
      return Ok(TokenResponse(pair.access, pair.refresh, expiresIn, scopes));
    }
  }

  /** An in-memory answer for duplicates of one refresh token, guarded by its own lock. */
  class RecoveryEntry {
    var locked: bool
    var cached: Option<Cached>

    constructor ()
      ensures cached == None && !locked
    {
      locked := false;
      cached := None;
    }
  }

  class OAuthService {
    const database: Database

    constructor (database: Database)
      ensures this.database == database
    {
      this.database := database;
    }

    method ResolveConsent(request: Id, account: Id, approve: bool, ttlDays: Option<int>,
                          tools: set<Tool>, now: Time, code: Id)
      returns (result: Result<Option<Id>, ConsentError>)
      modifies database
      ensures database.directory == old(database.directory)
      ensures match OAuthTransactions.ResolveConsent(old(database.tables), database.directory,
                      database.settings, request, account, approve, ttlDays, tools, now, code)
              case Refused(error) => result == Err(error) && database.tables == old(database.tables)
              case Declined(db) => result == Ok(None) && database.tables == db
              case Approved(db, c) => result == Ok(Some(c)) && database.tables == db
      ensures result.Ok? ==> (result.value.Some? <==> approve)
      ensures code !in old(database.tables).codes ==> (code in database.tables.codes <==> result == Ok(Some(code)))
    {
      var session := new Session.Begin(database);
      var dir, cfg := database.directory, database.settings;
      if !(request in session.requests && session.requests[request].resolvedAt.None? &&
           session.requests[request].expiresAt > now) {
        return Err(RequestExpired);
      }
      var record := session.requests[request];
      if !UsableAccount(dir, account) { return Err(AccountRequired); }
      if record.client !in dir.clients { return Err(ClientUnavailable); }
      var days := cfg.refreshTtlDays;
      if ttlDays.Some? { days := ttlDays.value; }
      if approve && days !in cfg.grantTtlOptionsDays { return Err(LifetimeNotAllowed); }
      session.requests := session.requests[request := record.(resolvedAt := Some(now))];
      if !approve {
        session.Commit(database);
        return Ok(None);
      }
      var user := dir.accounts[account].user.value;
      var unready := ConsentReadiness(session.View(), dir, user);
      if unready.Some? { return Err(unready.value); }
      if tools == {} { return Err(SelectionRequired); }
      if !(tools <= EffectiveTools(session.View(), user)) { return Err(SelectionInvalid); }
      session.codes := session.codes[code :=
        AuthCode(record.client, user, record.scopes, tools, record.resource,
                 now + cfg.codeTtlSeconds * SECOND, Some(now + days * DAY), None)];
      session.Commit(database);
      return Ok(Some(code));
    }

    method ExchangeAuthorizationCode(clientId: string, stored: StoredCode, now: Time, issueNow: Time,
                                     family: Id, pair: FreshPair)
      returns (result: Result<TokenResponse, TokenError>)
      modifies database
      ensures database.directory == old(database.directory)
      ensures var issue := RedeemCode(old(database.tables), old(database.directory),
                                      database.settings, clientId, stored, now, issueNow, family, pair);
              result == AnswerOf(issue) && database.tables == TablesAfter(old(database.tables), issue)
    {
      var session := new Session.Begin(database);
      var dir, cfg := database.directory, database.settings;
      if stored.record !in session.codes { return Err(InvalidGrant); }
      var record := session.codes[stored.record];
      if record.consumedAt.Some? || record.expiresAt <= now || record.client != stored.client {
        return Err(InvalidGrant);
      }
      if record.client !in dir.clients || dir.clients[record.client] != clientId {
        return Err(InvalidGrant);
      }
      if record.resource != cfg.resourceUrl { return Err(InvalidGrant); }
      result := ConsumeCode(session, stored.record, now, issueNow, family, pair);
    }

    /** The validated code is consumed and a new family receives its first pair. */
    method ConsumeCode(session: Session, code: Id, now: Time, issueNow: Time, family: Id,
                       pair: FreshPair)
      returns (result: Result<TokenResponse, TokenError>)
      requires code in session.codes && session.View() == database.tables
      modifies database, session
      ensures database.directory == old(database.directory)
      ensures var issue := RedeemRecord(old(database.tables), old(database.directory),
                                        database.settings, code, now, issueNow, family, pair);
              result == AnswerOf(issue) && database.tables == TablesAfter(old(database.tables), issue)
    {
      var cfg, record := database.settings, session.codes[code];
      session.StartFamily(code, family, now);
      var expiry := now + cfg.refreshTtlDays * DAY;
      if record.refreshExpiresAt.Some? { expiry := record.refreshExpiresAt.value; }
      ghost var issue := RedeemRecord(database.tables, database.directory, cfg, code, now, issueNow,
                                      family, pair);
      result := IssueAndCommit(session, record.client, record.user, record.scopes, record.resource,
                               family, expiry, record.tools, issueNow, pair, issue);
    }

    /** Issues a pair on top of the session's changes; a refusal leaves them uncommitted. */
    method IssueAndCommit(session: Session, client: Id, user: Id, scopes: seq<Scope>, resource: string,
                          family: Id, expiry: Time, selected: set<Tool>, issueNow: Time,
                          pair: FreshPair, ghost issue: Issue)
      returns (result: Result<TokenResponse, TokenError>)
      requires issue == IssuePair(session.View(), database.directory, database.settings, client, user,
                                  scopes, resource, family, expiry, selected, issueNow, pair)
      modifies database, session
      ensures database.directory == old(database.directory)
      ensures result == AnswerOf(issue) && database.tables == TablesAfter(old(database.tables), issue)
    {
      result := session.IssueTokenPair(database.directory, database.settings, client, user, scopes,
                                       resource, family, expiry, selected, issueNow, pair);
      if result.Ok? { session.Commit(database); }
    }

    /** Runs while the caller holds the entry's lock. The entry is filled after the commit. */
    method ExchangeRefreshToken(entry: RecoveryEntry, clientId: string, stored: StoredRefresh,
                                scopes: seq<Scope>, now: Time, issueNow: Time, pair: FreshPair)
      returns (result: Result<TokenResponse, TokenError>)
      modifies database, entry`cached
      ensures database.directory == old(database.directory)
      ensures match ExchangeRefresh(old(database.tables), database.directory, database.settings,
                      old(entry.cached), clientId, stored, scopes, now, issueNow, pair)
              case Rejected(error) =>
                result == Err(error) && database.tables == old(database.tables) &&
                entry.cached == old(entry.cached)
              case Recovered(token) =>
                result == Ok(token) && database.tables == old(database.tables) &&
                entry.cached == old(entry.cached)
              case Replayed(db) =>
                result == Err(ReuseDetected) && database.tables == db &&
                entry.cached == old(entry.cached)
              case Rotated(db, token) =>
                result == Ok(token) && database.tables == db &&
                entry.cached == Some(Cached(token, now + database.settings.graceSeconds * SECOND))
    {
      var session := new Session.Begin(database);
      var dir, cfg := database.directory, database.settings;
      if stored.family !in session.families || session.families[stored.family].revokedAt.Some? {
        return Err(InvalidGrant);
      }
      if stored.record !in session.refreshes { return Err(InvalidGrant); }
      var record := session.refreshes[stored.record];
      if record.family != stored.family || record.expiresAt <= now { return Err(InvalidGrant); }
      if record.revokedAt.Some? { return Err(InvalidGrant); }
      if record.resource != cfg.resourceUrl || !ScopesWithin(scopes, record.scopes) {
        return Err(InvalidScope);
      }
      if record.client !in dir.clients || dir.clients[record.client] != clientId {
        return Err(InvalidGrant);
      }
      if record.rotatedAt.Some? {
        result := AnswerDuplicate(session, entry, record, now);
        return;
      }
      result := RotateRecord(session, entry, stored.record, scopes, now, issueNow, pair);
    }

    /** The unrotated record is exchanged for a new pair of its family. */
    method RotateRecord(session: Session, entry: RecoveryEntry, id: Id, scopes: seq<Scope>, now: Time,
                        issueNow: Time, pair: FreshPair)
      returns (result: Result<TokenResponse, TokenError>)
      requires id in session.refreshes && session.View() == database.tables
      modifies database, session, entry`cached
      ensures database.directory == old(database.directory)
      ensures var issue := Rotate(old(database.tables), old(database.directory), database.settings, id,
                                  scopes, now, issueNow, pair);
              result == AnswerOf(issue) && database.tables == TablesAfter(old(database.tables), issue)
      ensures entry.cached ==
                if result.Ok?
                then Some(Cached(result.value, now + database.settings.graceSeconds * SECOND))
                else old(entry.cached)
    {
      var cfg, record := database.settings, session.refreshes[id];
      var selected := {};
      if record.mcpToken.Some? { selected := GrantsOf(session.View(), record.mcpToken.value); }
      session.RetireRecord(id, now);
      ghost var issue := Rotate(database.tables, database.directory, cfg, id, scopes, now, issueNow, pair);
      result := IssueAndCommit(session, record.client, record.user, scopes, record.resource,
                               record.family, record.expiresAt, selected, issueNow, pair, issue);
      if result.Ok? {
        entry.cached := Some(Cached(result.value, now + cfg.graceSeconds * SECOND));
      }
    }

    /** A record that was rotated before is presented again. */
    method AnswerDuplicate(session: Session, entry: RecoveryEntry, record: RefreshToken, now: Time)
      returns (result: Result<TokenResponse, TokenError>)
      requires record.rotatedAt.Some? && record.family in session.families
      requires session.View() == database.tables
      modifies database, session
      ensures database.directory == old(database.directory)
      ensures var grace, dir := database.settings.graceSeconds, database.directory;
              if grace <= 0 || now > record.rotatedAt.value + grace * SECOND
              then result == Err(ReuseDetected) &&
                   database.tables == RevokeFamily(old(database.tables), record.family, now)
              else database.tables == old(database.tables) &&
                   result == (if !(record.user in dir.users && dir.users[record.user] == Active &&
                                   record.user in dir.credentialed)
                              then Err(UserNotReady)
                              else if entry.cached.Some? && entry.cached.value.expiresAt >= now
                              then Ok(entry.cached.value.token)
                              else Err(RecoveryUnavailable))
    {
      var age := now - record.rotatedAt.value;
      var grace := database.settings.graceSeconds;
      if grace > 0 && age <= grace * SECOND {
        if !Authorizable(database.directory, record.user) { return Err(UserNotReady); }
        session.Commit(database);
        if entry.cached.Some? && entry.cached.value.expiresAt >= now {
          return Ok(entry.cached.value.token);
        }
        return Err(RecoveryUnavailable);
      }
      var swept := session.RevokeOAuthFamily(record.family, now);
      session.Commit(database);
      return Err(ReuseDetected);
    }

    /** Client-initiated revocation; an unknown family rolls back. */
    method RevokeToken(family: Id, now: Time) returns (ok: bool)
      modifies database
      ensures database.directory == old(database.directory)
      ensures ok <==> family in old(database.tables).families
      ensures database.tables == (if ok then RevokeFamily(old(database.tables), family, now)
                                  else old(database.tables))
    {
      var session := new Session.Begin(database);
      var swept := session.RevokeOAuthFamily(family, now);
      if swept.None? { return false; }
      session.Commit(database);
      return true;
    }
  }

  /** Dashboard revocation. The record was read, and the family looked up, before any lock. */
  class McpTokenService {
    const database: Database

    constructor (database: Database)
      ensures this.database == database
    {
      this.database := database;
    }

    method Revoke(token: Id, family: Option<Id>, now: Time) returns (ok: bool)
      requires token in database.tables.tokens
      modifies database
      ensures database.directory == old(database.directory)
      ensures match DashboardRevoke(old(database.tables), token, family, now)
              case None => !ok && database.tables == old(database.tables)
              case Some(db) => ok && database.tables == db
    {
      var session := new Session.Begin(database);
      if family.Some? {
        var swept := session.RevokeOAuthFamily(family.value, now);
        if swept.None? { return false; }
      }
      session.tokens := session.tokens[token :=
        session.tokens[token].(enabled := false, revokedAt := Some(now))];
      session.Commit(database);
      return true;
    }
  }

  /** Bearer authentication: reads that take no lock, then one conditional update. */
  class McpBearerAuthenticator {
    const database: Database

    constructor (database: Database)
      ensures this.database == database
    {
      this.database := database;
    }

    /** The candidate record, if it is active. */
    method FindToken(token: Id, now: Time) returns (record: Option<McpToken>)
      ensures record.Some? <==>
                token in database.tables.tokens &&
                var row, users := database.tables.tokens[token], database.directory.users;
                row.enabled && row.revokedAt.None? && (row.expiresAt.None? || row.expiresAt.value > now) &&
                row.user in users && users[row.user] == Active
      ensures record.Some? ==> record.value == database.tables.tokens[token]
    {
      var db := database.tables;
      if !ActiveToken(db, database.directory, token, now) { return None; }
      return Some(db.tokens[token]);
    }

    /** Fails closed on unknown or internally inconsistent token records. */
    method FindLink(token: Id, record: McpToken) returns (seen: Option<Reads>)
      ensures seen == ReadLink(database.tables, database.settings, token, record)
      ensures seen.Some? && seen.value.Resolved? ==> record.kind == Static && token !in database.tables.links
    {
      var db := database.tables;
      if record.kind == OAuth {
        if token !in db.links { return None; }
        var link := db.links[token];
        if link.revokedAt.Some? || link.resource != database.settings.resourceUrl { return None; }
        return Some(SawLink(link));
      }
      if record.kind != Static || token in db.links { return None; }
      return Some(Resolved(Identity(token, record.user, [], None)));
    }

    method FindRefresh(link: AccessLink) returns (seen: Option<Reads>)
      ensures seen == ReadRefresh(database.tables, link)
    {
      var db := database.tables;
      if link.refresh !in db.refreshes { return None; }
      if db.refreshes[link.refresh].revokedAt.Some? { return None; }
      return Some(SawRefresh(link, db.refreshes[link.refresh]));
    }

    /** The identity names the family that the refresh record belonged to when it was read. */
    method FindFamily(token: Id, record: McpToken, refresh: RefreshToken) returns (seen: Option<Reads>)
      ensures seen == ReadFamily(database.tables, token, record, refresh)
      ensures seen.Some? <==> refresh.family in database.tables.families &&
                               database.tables.families[refresh.family].revokedAt.None?
    {
      var db := database.tables;
      if refresh.family !in db.families { return None; }
      if db.families[refresh.family].revokedAt.Some? { return None; }
      return Some(Resolved(Identity(token, record.user, refresh.scopes, Some(refresh.family))));
    }

    method StampUse(token: Id, now: Time) returns (updated: bool)
      modifies database
      ensures updated <==> StampSucceeds(old(database.tables), token)
      ensures database.tables == Stamp(old(database.tables), token, now)
      ensures database.directory == old(database.directory)
    {
      var session := new Session.Begin(database);
      if token in session.tokens && session.tokens[token].enabled &&
         session.tokens[token].revokedAt.None? {
        session.tokens := session.tokens[token := session.tokens[token].(lastUsedAt := Some(now))];
        session.Commit(database);
        return true;
      }
      return false;
    }
  }
}
