/** When the server issues, refuses and revokes: every decision of the protocol, said in full of the rows
    before and after a step and in both directions. */
module OAuthOutcomes {
  import opened Prelude
  import opened OAuthTables
  import opened OAuthTransactions
  import opened OAuthInvariant
  import opened OAuthIssuance
  import opened OAuthRevocation
  import opened OAuthPolicy
  import opened OAuthMonotone
  import opened OAuthProtocol
  import opened OAuthSafety

  /** The user is active and has a Forgejo credential. */
  predicate Ready(dir: Directory, user: Id) {
    user in dir.users && dir.users[user] == Active && user in dir.credentialed
  }

  /** The tool is allowed to the user and enabled for everyone. */
  predicate Usable(db: Tables, user: Id, tool: Tool) {
    user in db.allowances && tool in db.allowances[user] && tool in db.settings && db.settings[tool].enabled
  }

  lemma UsableIsEffective(db: Tables, user: Id)
    ensures forall n :: n in EffectiveTools(db, user) <==> Usable(db, user, n)
  {
  }

  // ---------------------------------------------------------------- consent

  /** The request is pending and the account may answer it. */
  predicate MayDecide(s: Sys, e: Event)
    requires e.DecideConsent?
  {
    e.request in s.db.requests && s.db.requests[e.request].resolvedAt.None? &&
    s.db.requests[e.request].expiresAt > e.now &&
    e.account in s.dir.accounts &&
    (var a := s.dir.accounts[e.account];
     a.role == User && a.user.Some? && a.status == Active && !a.mustChangePassword) &&
    s.db.requests[e.request].client in s.dir.clients
  }

  function Days(cfg: Settings, e: Event): int
    requires e.DecideConsent?
  {
    match e.ttlDays
    case Some(days) => days
    case None => cfg.refreshTtlDays
  }

  /** Its approval is acceptable: an offered lifetime, a ready user, and a selection of usable tools. */
  predicate MayApprove(cfg: Settings, s: Sys, e: Event)
    requires e.DecideConsent?
  {
    MayDecide(s, e) && Days(cfg, e) in cfg.grantTtlOptionsDays &&
    var user := s.dir.accounts[e.account].user.value;
    Ready(s.dir, user) && e.tools != {} && forall n | n in e.tools :: Usable(s.db, user, n)
  }

  function ResolvedRequests(s: Sys, e: Event): map<Id, AuthRequest>
    requires e.DecideConsent? && e.request in s.db.requests
  {
    s.db.requests[e.request := s.db.requests[e.request].(resolvedAt := Some(e.now))]
  }

  /** The code of an approval: the request's client, scopes and resource, the account's user and the
      selected tools, short-lived itself, for a grant that ends after the chosen days. */
  function GrantedCode(cfg: Settings, s: Sys, e: Event): AuthCode
    requires e.DecideConsent? && MayDecide(s, e)
  {
    var req := s.db.requests[e.request];
    AuthCode(req.client, s.dir.accounts[e.account].user.value, req.scopes, e.tools, req.resource,
             e.now + cfg.codeTtlSeconds * SECOND, Some(e.now + Days(cfg, e) * (24 * 60 * 60) * SECOND), None)
  }

  lemma ConsentDecides(cfg: Settings, s: Sys, e: Event)
    requires e.DecideConsent?
    ensures var x := ConsentOf(cfg, s, e);
            if e.approve && MayApprove(cfg, s, e)
            then x == Approved(s.db.(requests := ResolvedRequests(s, e),
                                     codes := s.db.codes[e.code := GrantedCode(cfg, s, e)]), e.code)
            else if !e.approve && MayDecide(s, e)
            then x == Declined(s.db.(requests := ResolvedRequests(s, e)))
            else x.Refused?
  {
    if MayDecide(s, e) {
      var user := s.dir.accounts[e.account].user.value;
      UsableIsEffective(s.db, user);
      if MayApprove(cfg, s, e) {
        var n :| n in e.tools;
        assert n in EffectiveTools(s.db, user);
      }
    }
  }

  /** An approval adds the code and resolves the request exactly if it is acceptable; a denial resolves
      the request and adds nothing; everything else changes no table. */
  lemma ConsentOutcome(cfg: Settings, s: Sys, e: Event)
    requires e.DecideConsent? && s.clock <= e.now && e.code !in s.db.codes
    ensures var db' := Next(cfg, s, e).db;
            if e.approve && MayApprove(cfg, s, e)
            then db' == s.db.(requests := ResolvedRequests(s, e),
                              codes := s.db.codes[e.code := GrantedCode(cfg, s, e)])
            else if !e.approve && MayDecide(s, e)
            then db' == s.db.(requests := ResolvedRequests(s, e))
            else db' == s.db
  {
    ConsentDecides(cfg, s, e);
    ConsentTables(s, e, ConsentOf(cfg, s, e));
  }

  /** What a refused decision lacks, by the error that the server shows. */
  predicate Lacks(cfg: Settings, s: Sys, e: Event, error: ConsentError)
    requires e.DecideConsent?
  {
    match error
    case RequestExpired =>
      e.request !in s.db.requests || s.db.requests[e.request].resolvedAt.Some? ||
      s.db.requests[e.request].expiresAt <= e.now
    case AccountRequired =>
      e.account !in s.dir.accounts ||
      var a := s.dir.accounts[e.account];
      a.role != User || a.user.None? || a.status != Active || a.mustChangePassword
    case ClientUnavailable => e.request in s.db.requests && s.db.requests[e.request].client !in s.dir.clients
    case LifetimeNotAllowed => e.approve && Days(cfg, e) !in cfg.grantTtlOptionsDays
    case _ => e.approve && MayDecide(s, e) && LacksTools(s, e, s.dir.accounts[e.account].user.value, error)
  }

  predicate LacksTools(s: Sys, e: Event, user: Id, error: ConsentError)
    requires e.DecideConsent?
  {
    match error
    case UserUnavailable => user !in s.dir.users || s.dir.users[user] != Active
    case CredentialRequired => user in s.dir.users && user !in s.dir.credentialed
    case ToolsRequired => forall n | user in s.db.allowances && n in s.db.allowances[user] :: !Usable(s.db, user, n)
    case SelectionRequired => e.tools == {}
    case SelectionInvalid => exists n :: n in e.tools && !Usable(s.db, user, n)
    case _ => false
  }

  /** A refusal names something that is really missing. */
  lemma ConsentRefusalTells(cfg: Settings, s: Sys, e: Event)
    requires e.DecideConsent? && ConsentOf(cfg, s, e).Refused?
    ensures Lacks(cfg, s, e, ConsentOf(cfg, s, e).error)
  {
    if MayDecide(s, e) {
      var user := s.dir.accounts[e.account].user.value;
      UsableIsEffective(s.db, user);
      if ConsentOf(cfg, s, e).error.SelectionInvalid? {
        var n :| n in e.tools && n !in EffectiveTools(s.db, user);
      }
    }
  }

  lemma ConsentTables(s: Sys, e: Event, x: Consent)
    requires e.DecideConsent?
    ensures ApplyConsent(s, e, x).db == match x
                                        case Refused(_) => s.db
                                        case Declined(db) => db
                                        case Approved(db, _) => db
  {
  }

  // ---------------------------------------------------------------- issuing a pair

  function Earlier(a: Time, b: Time): Time {
    if a <= b then a else b
  }

  function UsableOf(db: Tables, user: Id, tools: set<Tool>): set<Tool> {
    set n | n in tools && Usable(db, user, n)
  }

  /** A pair may be issued: the user is ready, a selected tool is usable, and at least a second of
      lifetime is left. */
  predicate MayIssue(cfg: Settings, db: Tables, dir: Directory, user: Id, tools: set<Tool>, until: Time,
                     issueNow: Time)
  {
    Ready(dir, user) && (exists n :: n in tools && Usable(db, user, n)) && cfg.accessTtlSeconds >= 1 &&
    issueNow + SECOND <= until
  }

  /** db' has the record and its access token, which holds the usable ones among the selected tools and
      ends with its own lifetime or the grant's, whichever is first; the response tells the remaining
      whole seconds. */
  ghost predicate Issues(cfg: Settings, db: Tables, db': Tables, rec: RefreshToken, tools: set<Tool>,
                         issueNow: Time, pair: FreshPair, token: TokenResponse)
  {
    var end := Earlier(issueNow + cfg.accessTtlSeconds * SECOND, rec.expiresAt);
    Adds(db, db', pair, rec, end, UsableOf(db, rec.user, tools)) &&
    token == TokenResponse(pair.access, pair.refresh, token.expiresIn, rec.scopes) &&
    token.expiresIn * SECOND <= end - issueNow < (token.expiresIn + 1) * SECOND
  }

  lemma WholeSecondsMeans(d: Time)
    ensures WholeSeconds(d) > 0 <==> d >= SECOND
    ensures d >= 0 ==> WholeSeconds(d) * SECOND <= d < (WholeSeconds(d) + 1) * SECOND
  {
  }

  lemma IssueDecides(db: Tables, dir: Directory, cfg: Settings, client: Id, user: Id, scopes: seq<Scope>,
                     resource: string, family: Id, until: Time, tools: set<Tool>, issueNow: Time, pair: FreshPair)
    ensures var x := IssuePair(db, dir, cfg, client, user, scopes, resource, family, until, tools, issueNow, pair);
            (x.Issued? <==> MayIssue(cfg, db, dir, user, tools, until, issueNow)) &&
            (x.Issued? ==>
               Issues(cfg, db, x.db, RefreshToken(family, client, user, scopes, resource, Some(pair.access), until,
                                                  None, None), tools, issueNow, pair, x.token))
  {
    UsableIsEffective(db, user);
    var granted := tools * EffectiveTools(db, user);
    assert granted == UsableOf(db, user, tools);
    if granted != {} { var n :| n in granted; }
    if n :| n in tools && Usable(db, user, n) { assert n in granted; }
    WholeSecondsMeans(Earlier(issueNow + cfg.accessTtlSeconds * SECOND, until) - issueNow);
  }

  // ---------------------------------------------------------------- code redemption

  /** The code is unconsumed and unexpired, and presented by its own client for this resource. */
  predicate ValidCode(cfg: Settings, s: Sys, e: Event)
    requires e.Redeem?
  {
    e.storedCode.record in s.db.codes &&
    var code := s.db.codes[e.storedCode.record];
    code.consumedAt.None? && code.expiresAt > e.now && code.client == e.storedCode.client &&
    code.client in s.dir.clients && s.dir.clients[code.client] == e.clientId && code.resource == cfg.resourceUrl
  }

  /** When the grant behind a code ends. */
  function GrantEnd(cfg: Settings, code: AuthCode, now: Time): Time {
    match code.refreshExpiresAt
    case Some(at) => at
    case None => now + cfg.refreshTtlDays * (24 * 60 * 60) * SECOND
  }

  predicate MayRedeem(cfg: Settings, s: Sys, e: Event)
    requires e.Redeem?
  {
    ValidCode(cfg, s, e) &&
    var code := s.db.codes[e.storedCode.record];
    MayIssue(cfg, s.db, s.dir, code.user, code.tools, GrantEnd(cfg, code, e.now), e.issueNow)
  }

  /** The code is consumed and a new, unrevoked family exists. */
  function CodeConsumed(s: Sys, e: Event): Tables
    requires e.Redeem? && e.storedCode.record in s.db.codes
  {
    var k := e.storedCode.record;
    s.db.(codes := s.db.codes[k := s.db.codes[k].(consumedAt := Some(e.now))],
          families := s.db.families[e.family := Family(None)])
  }

  /** The first record of the family. */
  function FirstRecord(cfg: Settings, s: Sys, e: Event): RefreshToken
    requires e.Redeem? && e.storedCode.record in s.db.codes
  {
    var code := s.db.codes[e.storedCode.record];
    RefreshToken(e.family, code.client, code.user, code.scopes, code.resource, Some(e.pair.access),
                 GrantEnd(cfg, code, e.now), None, None)
  }

  /** The pair that a step exchanges a code for, if any. */
  function PairRedeemed(cfg: Settings, s: Sys, e: Event): Option<TokenResponse> {
    if !e.Redeem? || !Enabled(s, e) then None
    else
      match RedeemOf(cfg, s, e)
      case Issued(_, token) => Some(token)
      case NotIssued(_) => None
  }

  lemma SameUsable(db: Tables, db': Tables, dir: Directory, cfg: Settings, user: Id, tools: set<Tool>, until: Time,
                   issueNow: Time)
    requires db'.allowances == db.allowances && db'.settings == db.settings
    ensures MayIssue(cfg, db', dir, user, tools, until, issueNow) <==>
            MayIssue(cfg, db, dir, user, tools, until, issueNow)
  {
    if n :| n in tools && Usable(db, user, n) { assert Usable(db', user, n); }
    if n :| n in tools && Usable(db', user, n) { assert Usable(db, user, n); }
  }

  lemma ValidRedeems(cfg: Settings, s: Sys, e: Event)
    requires e.Redeem? && ValidCode(cfg, s, e)
    ensures var x := RedeemRecord(s.db, s.dir, cfg, e.storedCode.record, e.now, e.issueNow, e.family, e.pair);
            (x.Issued? <==> MayRedeem(cfg, s, e)) &&
            (x.Issued? ==>
               Issues(cfg, CodeConsumed(s, e), x.db, FirstRecord(cfg, s, e),
                      s.db.codes[e.storedCode.record].tools, e.issueNow, e.pair, x.token))
  {
    var code, mid := s.db.codes[e.storedCode.record], CodeConsumed(s, e);
    IssueDecides(mid, s.dir, cfg, code.client, code.user, code.scopes, code.resource, e.family,
                 GrantEnd(cfg, code, e.now), code.tools, e.issueNow, e.pair);
    SameUsable(s.db, mid, s.dir, cfg, code.user, code.tools, GrantEnd(cfg, code, e.now), e.issueNow);
  }

  lemma RedeemDecides(cfg: Settings, s: Sys, e: Event)
    requires e.Redeem?
    ensures var x := RedeemOf(cfg, s, e);
            (x.Issued? <==> MayRedeem(cfg, s, e)) &&
            (x.Issued? ==>
               Issues(cfg, CodeConsumed(s, e), x.db, FirstRecord(cfg, s, e),
                      s.db.codes[e.storedCode.record].tools, e.issueNow, e.pair, x.token))
  {
    if ValidCode(cfg, s, e) { ValidRedeems(cfg, s, e); }
  }

  lemma IssueTables(s: Sys, e: Event, x: Issue)
    requires e.Redeem?
    ensures ApplyIssue(s, e, x).db == if x.Issued? then x.db else s.db
  {
  }

  /** A code is redeemed exactly if it is valid and a pair may be issued; then it is consumed, and a new
      family starts with one record. A failed redemption leaves the code as it was. */
  lemma RedemptionOutcome(cfg: Settings, s: Sys, e: Event)
    requires e.Redeem? && s.clock <= e.now <= e.issueNow && e.family !in s.db.families && IsFresh(s.db, e.pair)
    ensures var db', pair := Next(cfg, s, e).db, PairRedeemed(cfg, s, e);
            if MayRedeem(cfg, s, e)
            then pair.Some? &&
                 Issues(cfg, CodeConsumed(s, e), db', FirstRecord(cfg, s, e),
                        s.db.codes[e.storedCode.record].tools, e.issueNow, e.pair, pair.value)
            else pair == None && db' == s.db
  {
    RedeemDecides(cfg, s, e);
    IssueTables(s, e, RedeemOf(cfg, s, e));
  }

  /** Why no pair is issued, in the order in which the server looks. */
  lemma IssueRefusalTells(db: Tables, dir: Directory, cfg: Settings, client: Id, user: Id, scopes: seq<Scope>,
                          resource: string, family: Id, until: Time, tools: set<Tool>, issueNow: Time,
                          pair: FreshPair)
    ensures var x := IssuePair(db, dir, cfg, client, user, scopes, resource, family, until, tools, issueNow, pair);
            x.NotIssued? ==> x.error == IssueLacks(db, dir, user, tools)
  {
    UsableIsEffective(db, user);
    var granted := tools * EffectiveTools(db, user);
    if granted != {} { var n :| n in granted; }
    if n :| n in tools && Usable(db, user, n) { assert n in granted; }
  }

  function IssueLacks(db: Tables, dir: Directory, user: Id, tools: set<Tool>): TokenError {
    if !Ready(dir, user) then UserNotReady
    else if forall n | n in tools :: !Usable(db, user, n) then NoToolsAvailable
    else AuthorizationExpired
  }

  /** A redemption fails as an invalid grant exactly if the code is not valid, and otherwise for what a new
      pair lacks. */
  lemma RedemptionRefusalTells(cfg: Settings, s: Sys, e: Event)
    requires e.Redeem? && RedeemOf(cfg, s, e).NotIssued?
    ensures RedeemOf(cfg, s, e).error ==
              if !ValidCode(cfg, s, e) then InvalidGrant
              else var code := s.db.codes[e.storedCode.record]; IssueLacks(s.db, s.dir, code.user, code.tools)
  {
    if ValidCode(cfg, s, e) {
      var code, mid := s.db.codes[e.storedCode.record], CodeConsumed(s, e);
      IssueRefusalTells(mid, s.dir, cfg, code.client, code.user, code.scopes, code.resource, e.family,
                        GrantEnd(cfg, code, e.now), code.tools, e.issueNow, e.pair);
      assert forall n :: Usable(mid, code.user, n) <==> Usable(s.db, code.user, n);
    }
  }

  // ---------------------------------------------------------------- refresh

  /** The presenter holds a cell in which nothing waits to be filled in, and what is to be new is new. */
  predicate Holds(s: Sys, e: Event) {
    e.Refresh? && e.cell in s.cells && s.cells[e.cell].pending.None? && s.clock <= e.now <= e.issueNow &&
    IsFresh(s.db, e.pair)
  }

  /** The record behind the token is unexpired and unrevoked, of the unrevoked family that was named,
      and presented by its own client, for this resource and for scopes it holds. */
  predicate Presented(cfg: Settings, s: Sys, e: Event)
    requires e.Refresh? && e.cell in s.cells
  {
    e.family in s.db.families && s.db.families[e.family].revokedAt.None? &&
    s.cells[e.cell].refresh in s.db.refreshes &&
    var rec := s.db.refreshes[s.cells[e.cell].refresh];
    rec.family == e.family && rec.revokedAt.None? && rec.expiresAt > e.now && rec.resource == cfg.resourceUrl &&
    (forall x | x in e.scopes :: x in rec.scopes) &&
    rec.client in s.dir.clients && s.dir.clients[rec.client] == e.clientId
  }

  /** A record rotated at the given time can no longer be recovered. */
  predicate WindowOver(cfg: Settings, rotatedAt: Time, now: Time) {
    cfg.graceSeconds <= 0 || now > rotatedAt + cfg.graceSeconds * SECOND
  }

  /** The tools granted to the access token of a record. */
  function ToolsOf(db: Tables, rec: RefreshToken): set<Tool> {
    if rec.mcpToken.Some? && rec.mcpToken.value in db.grants then db.grants[rec.mcpToken.value] else {}
  }

  /** An unrotated record that is presented in order, and for which a pair may be issued. */
  predicate MayRotate(cfg: Settings, s: Sys, e: Event)
    requires e.Refresh? && e.cell in s.cells
  {
    Presented(cfg, s, e) &&
    var rec := s.db.refreshes[s.cells[e.cell].refresh];
    rec.rotatedAt.None? && MayIssue(cfg, s.db, s.dir, rec.user, ToolsOf(s.db, rec), rec.expiresAt, e.issueNow)
  }

  /** A rotated record presented after its recovery window. */
  predicate IsReplay(cfg: Settings, s: Sys, e: Event)
    requires e.Refresh? && e.cell in s.cells
  {
    Presented(cfg, s, e) &&
    var rec := s.db.refreshes[s.cells[e.cell].refresh];
    rec.rotatedAt.Some? && WindowOver(cfg, rec.rotatedAt.value, e.now)
  }

  /** A rotated record presented within the window for a ready user. */
  predicate MayRecover(cfg: Settings, s: Sys, e: Event)
    requires e.Refresh? && e.cell in s.cells
  {
    Presented(cfg, s, e) &&
    var rec := s.db.refreshes[s.cells[e.cell].refresh];
    rec.rotatedAt.Some? && !WindowOver(cfg, rec.rotatedAt.value, e.now) && Ready(s.dir, rec.user)
  }

  /** The record is rotated, its access token revoked, and their link with it. */
  function RecordRetired(db: Tables, r: Id, now: Time): Tables
    requires r in db.refreshes && db.refreshes[r].mcpToken.Some?
    requires db.refreshes[r].mcpToken.value in db.tokens && db.refreshes[r].mcpToken.value in db.links
  {
    var t := db.refreshes[r].mcpToken.value;
    db.(refreshes := db.refreshes[r := db.refreshes[r].(rotatedAt := Some(now))],
        tokens := db.tokens[t := db.tokens[t].(enabled := false, revokedAt := Some(now))],
        links := db.links[t := db.links[t].(revokedAt := Some(now))])
  }

  /** The record that replaces r. */
  function NextRecord(s: Sys, e: Event, r: Id): RefreshToken
    requires e.Refresh? && r in s.db.refreshes
  {
    var rec := s.db.refreshes[r];
    RefreshToken(rec.family, rec.client, rec.user, e.scopes, rec.resource, Some(e.pair.access), rec.expiresAt,
                 None, None)
  }

  /** The access token of an unrotated record of an unrevoked family works until the rotation. */
  lemma HeadTokenLive(db: Tables, h: History, r: Id)
    requires RowsOk(db) && ChainsOk(db, h) && r in db.refreshes && db.refreshes[r].rotatedAt.None?
    requires db.refreshes[r].family in db.families && db.families[db.refreshes[r].family].revokedAt.None?
    ensures Linked(db, r) && db.tokens[TokenOf(db, r)].revokedAt.None?
  {
    var f := db.refreshes[r].family;
    assert Linked(db, r) && ChainOk(db, f, h.chains[f]);
    HeadIsLast(db, f, h.chains[f], r);
  }

  lemma RetireDecides(db: Tables, h: History, r: Id, now: Time)
    requires RowsOk(db) && ChainsOk(db, h) && r in db.refreshes && db.refreshes[r].rotatedAt.None?
    requires db.refreshes[r].family in db.families && db.families[db.refreshes[r].family].revokedAt.None?
    ensures Linked(db, r) && Retire(db, r, now) == RecordRetired(db, r, now)
  {
    HeadTokenLive(db, h, r);
  }

  lemma RotateDecides(db: Tables, h: History, dir: Directory, cfg: Settings, r: Id, scopes: seq<Scope>, now: Time,
                      issueNow: Time, pair: FreshPair)
    requires RowsOk(db) && ChainsOk(db, h) && r in db.refreshes && db.refreshes[r].rotatedAt.None?
    requires db.refreshes[r].family in db.families && db.families[db.refreshes[r].family].revokedAt.None?
    ensures var x, rec := Rotate(db, dir, cfg, r, scopes, now, issueNow, pair), db.refreshes[r];
            Linked(db, r) &&
            (x.Issued? <==> MayIssue(cfg, db, dir, rec.user, ToolsOf(db, rec), rec.expiresAt, issueNow)) &&
            (x.Issued? ==>
               Issues(cfg, RecordRetired(db, r, now), x.db,
                      RefreshToken(rec.family, rec.client, rec.user, scopes, rec.resource, Some(pair.access),
                                   rec.expiresAt, None, None), ToolsOf(db, rec), issueNow, pair, x.token))
  {
    RetireDecides(db, h, r, now);
    var rec, mid := db.refreshes[r], RecordRetired(db, r, now);
    IssueDecides(mid, dir, cfg, rec.client, rec.user, scopes, rec.resource, rec.family, rec.expiresAt,
                 ToolsOf(db, rec), issueNow, pair);
    SameUsable(db, mid, dir, cfg, rec.user, ToolsOf(db, rec), rec.expiresAt, issueNow);
  }

  lemma UnpresentedIsRejected(cfg: Settings, s: Sys, e: Event)
    requires e.Refresh? && e.cell in s.cells && !Presented(cfg, s, e)
    ensures ExchangeOf(cfg, s, e).Rejected?
  {
  }

  lemma DuplicateDecides(cfg: Settings, s: Sys, e: Event)
    requires e.Refresh? && e.cell in s.cells && Presented(cfg, s, e)
    requires s.db.refreshes[s.cells[e.cell].refresh].rotatedAt.Some?
    ensures var x, filled := ExchangeOf(cfg, s, e), s.cells[e.cell].filled;
            if IsReplay(cfg, s, e) then x == Replayed(RevokeFamily(s.db, e.family, e.now))
            else if MayRecover(cfg, s, e) && filled.Some? && filled.value.expiresAt >= e.now
            then x == Recovered(filled.value.token)
            else x.Rejected?
  {
  }

  lemma UnrotatedDecides(cfg: Settings, s: Sys, e: Event)
    requires e.Refresh? && e.cell in s.cells && Presented(cfg, s, e)
    requires s.db.refreshes[s.cells[e.cell].refresh].rotatedAt.None?
    ensures var x := ExchangeOf(cfg, s, e);
            var y := Rotate(s.db, s.dir, cfg, s.cells[e.cell].refresh, e.scopes, e.now, e.issueNow, e.pair);
            if y.Issued? then x == Rotated(y.db, y.token) else x.Rejected?
  {
  }

  /** The record is there, live and in the named family, but for another resource or without a scope. */
  predicate BeyondScope(cfg: Settings, s: Sys, e: Event)
    requires e.Refresh? && e.cell in s.cells
  {
    e.family in s.db.families && s.db.families[e.family].revokedAt.None? &&
    s.cells[e.cell].refresh in s.db.refreshes &&
    var rec := s.db.refreshes[s.cells[e.cell].refresh];
    rec.family == e.family && rec.revokedAt.None? && rec.expiresAt > e.now &&
    (rec.resource != cfg.resourceUrl || exists x :: x in e.scopes && x !in rec.scopes)
  }

  /** A rejected refresh is outside its scope or not presented in order; or it is a duplicate for a user
      who is not ready, or whose answer is not there; or it lacks what a new pair needs. */
  lemma RefreshRefusalTells(cfg: Settings, s: Sys, e: Event)
    requires e.Refresh? && e.cell in s.cells && ExchangeOf(cfg, s, e).Rejected?
    ensures ExchangeOf(cfg, s, e).error ==
              if BeyondScope(cfg, s, e) then InvalidScope
              else if !Presented(cfg, s, e) then InvalidGrant
              else
                var rec := s.db.refreshes[s.cells[e.cell].refresh];
                if rec.rotatedAt.None? then IssueLacks(s.db, s.dir, rec.user, ToolsOf(s.db, rec))
                else if Ready(s.dir, rec.user) then RecoveryUnavailable else UserNotReady
  {
    if Presented(cfg, s, e) && s.db.refreshes[s.cells[e.cell].refresh].rotatedAt.None? {
      UnrotatedDecides(cfg, s, e);
      var r := s.cells[e.cell].refresh;
      var rec, mid := s.db.refreshes[r], Retire(s.db, r, e.now);
      IssueRefusalTells(mid, s.dir, cfg, rec.client, rec.user, e.scopes, rec.resource, rec.family, rec.expiresAt,
                        ToolsOf(s.db, rec), e.issueNow, e.pair);
      assert forall n :: Usable(mid, rec.user, n) <==> Usable(s.db, rec.user, n);
    }
  }

  lemma ExchangeTables(cfg: Settings, s: Sys, e: Event, x: Exchange)
    requires e.Refresh? && e.cell in s.cells
    ensures ApplyExchange(cfg, s, e, x).db == match x
                                              case Rejected(_) => s.db
                                              case Recovered(_) => s.db
                                              case Replayed(db) => db
                                              case Rotated(db, _) => db
  {
  }

  /** An unrotated record is exchanged exactly if it may be rotated; then it is retired and one record,
      narrower in scopes and tools, takes its place. Otherwise no table changes. */
  lemma RotationOutcome(cfg: Settings, s: Sys, e: Event)
    requires RowsOk(s.db) && ChainsOk(s.db, s.h) && Holds(s, e)
    requires s.cells[e.cell].refresh in s.db.refreshes
    requires s.db.refreshes[s.cells[e.cell].refresh].rotatedAt.None?
    ensures var db', pair, r := Next(cfg, s, e).db, PairReturned(cfg, s, e), s.cells[e.cell].refresh;
            if MayRotate(cfg, s, e)
            then pair.Some? && Linked(s.db, r) &&
                 Issues(cfg, RecordRetired(s.db, r, e.now), db', NextRecord(s, e, r),
                        ToolsOf(s.db, s.db.refreshes[r]), e.issueNow, e.pair, pair.value)
            else pair == None && db' == s.db
  {
    var x := ExchangeOf(cfg, s, e);
    ExchangeTables(cfg, s, e, x);
    if Presented(cfg, s, e) {
      UnrotatedDecides(cfg, s, e);
      RotateDecides(s.db, s.h, s.dir, cfg, s.cells[e.cell].refresh, e.scopes, e.now, e.issueNow, e.pair);
    } else {
      UnpresentedIsRejected(cfg, s, e);
    }
  }

  lemma DuplicateAnswer(cfg: Settings, s: Sys, e: Event)
    requires Holds(s, e) && s.cells[e.cell].refresh in s.db.refreshes
    requires s.db.refreshes[s.cells[e.cell].refresh].rotatedAt.Some?
    ensures var filled := s.cells[e.cell].filled;
            PairReturned(cfg, s, e) ==
              if MayRecover(cfg, s, e) && filled.Some? && filled.value.expiresAt >= e.now
              then Some(filled.value.token) else None
  {
    if Presented(cfg, s, e) { DuplicateDecides(cfg, s, e); } else { UnpresentedIsRejected(cfg, s, e); }
  }

  /** A filled entry answers with the minted pair and until the end of the window. */
  lemma FilledUntil(cfg: Settings, s: Sys, c: Id)
    requires CacheOk(cfg, s) && c in s.cells && s.cells[c].filled.Some?
    ensures var r, filled := s.cells[c].refresh, s.cells[c].filled.value;
            r in s.h.minted && filled.token == s.h.minted[r] && r in s.db.refreshes &&
            s.db.refreshes[r].rotatedAt.Some? &&
            filled.expiresAt == s.db.refreshes[r].rotatedAt.value + cfg.graceSeconds * SECOND
  {
    assert CellOk(cfg, s.db, s.h, s.cells[c]);
  }

  /** A duplicate closes its family exactly if it is presented in order and its window is over, or there is
      none; the presenter then gets nothing. Otherwise no table changes. */
  lemma ReplayOutcome(cfg: Settings, s: Sys, e: Event)
    requires RowsOk(s.db) && ChainsOk(s.db, s.h) && Holds(s, e)
    requires s.cells[e.cell].refresh in s.db.refreshes
    requires s.db.refreshes[s.cells[e.cell].refresh].rotatedAt.Some?
    ensures var db', rotatedAt := Next(cfg, s, e).db, s.db.refreshes[s.cells[e.cell].refresh].rotatedAt.value;
            if Presented(cfg, s, e) && (cfg.graceSeconds <= 0 || e.now > rotatedAt + cfg.graceSeconds * SECOND)
            then Closed(db', e.family) && PairReturned(cfg, s, e).None?
            else db' == s.db
  {
    ExchangeTables(cfg, s, e, ExchangeOf(cfg, s, e));
    if Presented(cfg, s, e) {
      DuplicateDecides(cfg, s, e);
      if IsReplay(cfg, s, e) { RevokeCloses(s.db, s.h, e.family, e.now); }
    } else {
      UnpresentedIsRejected(cfg, s, e);
    }
  }

  /** A duplicate gets the pair that its token was exchanged for exactly if it is presented in order for a
      ready user, and the entry it was handed is filled and has not expired. Nothing else is answered. */
  lemma RecoveryOutcome(cfg: Settings, s: Sys, e: Event)
    requires SysInv(cfg, s) && Holds(s, e)
    requires s.cells[e.cell].refresh in s.db.refreshes
    requires s.db.refreshes[s.cells[e.cell].refresh].rotatedAt.Some?
    ensures var r, filled := s.cells[e.cell].refresh, s.cells[e.cell].filled;
            r in s.h.minted &&
            PairReturned(cfg, s, e) ==
              if Presented(cfg, s, e) && Ready(s.dir, s.db.refreshes[r].user) && filled.Some? &&
                 cfg.graceSeconds > 0 && e.now <= filled.value.expiresAt
              then Some(s.h.minted[r]) else None
  {
    DuplicateAnswer(cfg, s, e);
    if s.cells[e.cell].filled.Some? { FilledUntil(cfg, s, e.cell); }
  }

  // ---------------------------------------------------------------- what the other steps leave alone

  lemma DashboardIs(cfg: Settings, s: Sys, e: Event)
    requires Enabled(s, e) && OnDashboard(e)
    ensures Next(cfg, s, e) == StepDashboard(s, e)
  {
  }

  lemma BearerIs(cfg: Settings, s: Sys, e: Event)
    requires Enabled(s, e) && OnBearer(e)
    ensures Next(cfg, s, e) == StepBearer(cfg, s, e)
  {
  }

  lemma PolicyIs(cfg: Settings, s: Sys, e: Event)
    requires Enabled(s, e) && OnPolicy(e)
    ensures Next(cfg, s, e) == StepPolicy(s, e)
  {
  }

  /** x names no new code and no new record. */
  predicate NothingNew(db: Tables, db': Tables, x: Id) {
    (x in db'.codes ==> x in db.codes) && (x in db'.refreshes ==> x in db.refreshes)
  }

  lemma DashboardAddsNothing(s: Sys, e: Event, x: Id)
    requires Enabled(s, e) && OnDashboard(e)
    ensures NothingNew(s.db, StepDashboard(s, e).db, x)
  {
  }

  lemma BearerAddsNothing(cfg: Settings, s: Sys, e: Event, x: Id)
    requires Enabled(s, e) && OnBearer(e)
    ensures NothingNew(s.db, StepBearer(cfg, s, e).db, x)
  {
    if !e.BearerRead? && !e.BearerCommit? { ReadRows(s, e.job, NextReads(cfg, s, e)); }
  }

  lemma PolicyAddsNothing(s: Sys, e: Event, x: Id)
    requires Enabled(s, e) && OnPolicy(e)
    ensures NothingNew(s.db, StepPolicy(s, e).db, x)
  {
  }

  /** Only consent, redemption and refresh add codes and records. */
  lemma OthersAddNothing(cfg: Settings, s: Sys, e: Event, x: Id)
    requires !e.DecideConsent? && !e.Redeem? && !e.Refresh?
    ensures NothingNew(s.db, Next(cfg, s, e).db, x)
  {
    var s' := Next(cfg, s, e);
    if Enabled(s, e) {
      if OnDashboard(e) {
        DashboardIs(cfg, s, e);
        DashboardAddsNothing(s, e, x);
      } else if OnBearer(e) {
        BearerIs(cfg, s, e);
        BearerAddsNothing(cfg, s, e, x);
      } else if OnPolicy(e) {
        PolicyIs(cfg, s, e);
        PolicyAddsNothing(s, e, x);
      }
    }
    assert NothingNew(s.db, s'.db, x);
  }

  lemma RefreshTables(cfg: Settings, s: Sys, e: Event)
    requires SysInv(cfg, s) && e.Refresh? && Enabled(s, e)
    ensures var db' := Next(cfg, s, e).db;
            if MayRotate(cfg, s, e) then
              Linked(s.db, s.cells[e.cell].refresh) && PairReturned(cfg, s, e).Some? &&
              Issues(cfg, RecordRetired(s.db, s.cells[e.cell].refresh, e.now), db',
                     NextRecord(s, e, s.cells[e.cell].refresh), ToolsOf(s.db, s.db.refreshes[s.cells[e.cell].refresh]),
                     e.issueNow, e.pair, PairReturned(cfg, s, e).value)
            else if IsReplay(cfg, s, e) then db' == RevokeFamily(s.db, e.family, e.now)
            else db' == s.db
  {
    var r := s.cells[e.cell].refresh;
    if r in s.db.refreshes && s.db.refreshes[r].rotatedAt.None? {
      RotationOutcome(cfg, s, e);
    } else {
      ExchangeTables(cfg, s, e, ExchangeOf(cfg, s, e));
      if Presented(cfg, s, e) { DuplicateDecides(cfg, s, e); } else { UnpresentedIsRejected(cfg, s, e); }
    }
  }

  // ---------------------------------------------------------------- why something came to be

  lemma ConsentNews(cfg: Settings, s: Sys, e: Event, x: Id)
    requires e.DecideConsent? && Enabled(s, e)
    ensures var db' := Next(cfg, s, e).db;
            (x in db'.refreshes ==> x in s.db.refreshes) &&
            (x in db'.codes && x !in s.db.codes ==>
               e.approve && e.code == x && MayApprove(cfg, s, e) && db'.codes[x] == GrantedCode(cfg, s, e))
  {
    ConsentOutcome(cfg, s, e);
  }

  lemma IssuesNews(cfg: Settings, db: Tables, db': Tables, rec: RefreshToken, tools: set<Tool>, issueNow: Time,
                   pair: FreshPair, token: TokenResponse, x: Id)
    requires Issues(cfg, db, db', rec, tools, issueNow, pair, token)
    ensures x in db'.codes ==> x in db.codes
    ensures x in db'.refreshes && x !in db.refreshes ==> x == pair.refresh && db'.refreshes[x] == rec
  {
  }

  lemma RedemptionNews(cfg: Settings, s: Sys, e: Event, x: Id)
    requires e.Redeem? && Enabled(s, e)
    ensures var db' := Next(cfg, s, e).db;
            (x in db'.codes ==> x in s.db.codes) &&
            (x in db'.refreshes && x !in s.db.refreshes ==>
               MayRedeem(cfg, s, e) && e.pair.refresh == x && db'.refreshes[x] == FirstRecord(cfg, s, e))
  {
    RedemptionOutcome(cfg, s, e);
    if MayRedeem(cfg, s, e) {
      IssuesNews(cfg, CodeConsumed(s, e), Next(cfg, s, e).db, FirstRecord(cfg, s, e),
                 s.db.codes[e.storedCode.record].tools, e.issueNow, e.pair, PairRedeemed(cfg, s, e).value, x);
    }
  }

  lemma RefreshNews(cfg: Settings, s: Sys, e: Event, x: Id)
    requires SysInv(cfg, s) && e.Refresh? && Enabled(s, e)
    ensures var db' := Next(cfg, s, e).db;
            (x in db'.codes ==> x in s.db.codes) &&
            (x in db'.refreshes && x !in s.db.refreshes ==>
               MayRotate(cfg, s, e) && e.pair.refresh == x &&
               db'.refreshes[x] == NextRecord(s, e, s.cells[e.cell].refresh))
  {
    RefreshTables(cfg, s, e);
    if MayRotate(cfg, s, e) {
      var r := s.cells[e.cell].refresh;
      IssuesNews(cfg, RecordRetired(s.db, r, e.now), Next(cfg, s, e).db, NextRecord(s, e, r),
                 ToolsOf(s.db, s.db.refreshes[r]), e.issueNow, e.pair, PairReturned(cfg, s, e).value, x);
    }
  }

  /** A new code is an approval's. */
  lemma NewCodeMeansApproval(cfg: Settings, s: Sys, e: Event, k: Id)
    requires SysInv(cfg, s) && k in Next(cfg, s, e).db.codes && k !in s.db.codes
    ensures Enabled(s, e) && e.DecideConsent? && e.approve && e.code == k && MayApprove(cfg, s, e)
    ensures Next(cfg, s, e).db.codes[k] == GrantedCode(cfg, s, e)
  {
    assert Enabled(s, e);
    if e.DecideConsent? {
      ConsentNews(cfg, s, e, k);
    } else if e.Redeem? {
      RedemptionNews(cfg, s, e, k);
    } else if e.Refresh? {
      RefreshNews(cfg, s, e, k);
    } else {
      OthersAddNothing(cfg, s, e, k);
    }
  }

  /** A new refresh record is the successor of one that may be rotated, or the first one for a code that
      may be redeemed; its user is ready at that moment. */
  lemma NewRecordMeansIssue(cfg: Settings, s: Sys, e: Event, r: Id)
    requires SysInv(cfg, s) && r in Next(cfg, s, e).db.refreshes && r !in s.db.refreshes
    ensures Enabled(s, e) && ((e.Refresh? && MayRotate(cfg, s, e)) || (e.Redeem? && MayRedeem(cfg, s, e)))
    ensures e.pair.refresh == r && Ready(s.dir, Next(cfg, s, e).db.refreshes[r].user)
  {
    assert Enabled(s, e);
    if e.DecideConsent? {
      ConsentNews(cfg, s, e, r);
    } else if e.Redeem? {
      RedemptionNews(cfg, s, e, r);
    } else if e.Refresh? {
      RefreshNews(cfg, s, e, r);
    } else {
      OthersAddNothing(cfg, s, e, r);
    }
  }

  // ---------------------------------------------------------------- why something was withdrawn

  /** The access token belongs to the family. */
  predicate BelongsTo(db: Tables, t: Id, f: Id) {
    t in db.links && db.links[t].refresh in db.refreshes && db.refreshes[db.links[t].refresh].family == f
  }

  /** Sweeping a family touches no row of another one and no static token. */
  lemma SweepIsLocal(db: Tables, f: Id, now: Time, g: Id, r: Id, t: Id)
    requires RowsOk(db) && f in db.families
    ensures var db' := RevokeFamily(db, f, now);
            (g in db.families && g != f ==> g in db'.families && db'.families[g] == db.families[g]) &&
            (r in db.refreshes && db.refreshes[r].family != f ==>
               r in db'.refreshes && db'.refreshes[r] == db.refreshes[r]) &&
            (t in db.tokens && !BelongsTo(db, t, f) ==>
               t in db'.tokens && db'.tokens[t] == db.tokens[t] && (t in db.links ==> db'.links[t] == db.links[t]))
  {
    if t in FamilyTokens(db, f) {
      var x :| x in db.refreshes && db.refreshes[x].family == f && db.refreshes[x].mcpToken == Some(t);
      assert Linked(db, x);
    }
  }

  /** f is not revoked by the step. */
  predicate FamilyStays(db: Tables, db': Tables, f: Id) {
    f in db.families ==> f in db'.families && db'.families[f] == db.families[f]
  }

  /** t works after the step if it did before. */
  predicate TokenStays(db: Tables, db': Tables, t: Id) {
    t in db.tokens && db.tokens[t].enabled ==> t in db'.tokens && db'.tokens[t].enabled
  }

  /** The step sweeps the family f: a client's revocation of it, the Dashboard's of one of its tokens, or
      the replay of one of its records. */
  predicate Sweeps(cfg: Settings, s: Sys, e: Event, f: Id) {
    (e.RevokeGrant? && e.family == f) ||
    (e.DashboardCommit? && e.job in s.dashboard && BelongsTo(s.db, s.dashboard[e.job].token, f)) ||
    (e.Refresh? && e.cell in s.cells && e.family == f && IsReplay(cfg, s, e))
  }

  lemma IssuesKeep(cfg: Settings, db: Tables, db': Tables, rec: RefreshToken, tools: set<Tool>, issueNow: Time,
                   pair: FreshPair, token: TokenResponse, x: Id)
    requires Issues(cfg, db, db', rec, tools, issueNow, pair, token) && pair.access !in db.tokens
    ensures FamilyStays(db, db', x) && TokenStays(db, db', x)
  {
  }

  lemma RedemptionWithdraws(cfg: Settings, s: Sys, e: Event, x: Id)
    requires e.Redeem? && Enabled(s, e)
    ensures FamilyStays(s.db, Next(cfg, s, e).db, x) && TokenStays(s.db, Next(cfg, s, e).db, x)
  {
    RedemptionOutcome(cfg, s, e);
    if MayRedeem(cfg, s, e) {
      IssuesKeep(cfg, CodeConsumed(s, e), Next(cfg, s, e).db, FirstRecord(cfg, s, e),
                 s.db.codes[e.storedCode.record].tools, e.issueNow, e.pair, PairRedeemed(cfg, s, e).value, x);
    }
  }

  lemma RotationWithdraws(cfg: Settings, s: Sys, e: Event, x: Id)
    requires SysInv(cfg, s) && e.Refresh? && Enabled(s, e) && MayRotate(cfg, s, e)
    ensures FamilyStays(s.db, Next(cfg, s, e).db, x)
    ensures TokenStays(s.db, Next(cfg, s, e).db, x) || s.db.refreshes[s.cells[e.cell].refresh].mcpToken == Some(x)
  {
    RefreshTables(cfg, s, e);
    var r := s.cells[e.cell].refresh;
    IssuesKeep(cfg, RecordRetired(s.db, r, e.now), Next(cfg, s, e).db, NextRecord(s, e, r),
               ToolsOf(s.db, s.db.refreshes[r]), e.issueNow, e.pair, PairReturned(cfg, s, e).value, x);
  }

  lemma RefreshWithdraws(cfg: Settings, s: Sys, e: Event, x: Id)
    requires SysInv(cfg, s) && e.Refresh? && Enabled(s, e) && !MayRotate(cfg, s, e)
    ensures FamilyStays(s.db, Next(cfg, s, e).db, x) || Sweeps(cfg, s, e, x)
    ensures TokenStays(s.db, Next(cfg, s, e).db, x) || exists f :: BelongsTo(s.db, x, f) && Sweeps(cfg, s, e, f)
  {
    RefreshTables(cfg, s, e);
    if IsReplay(cfg, s, e) {
      SweepIsLocal(s.db, e.family, e.now, x, x, x);
      assert BelongsTo(s.db, x, e.family) ==> Sweeps(cfg, s, e, e.family);
    }
  }

  lemma DashboardIsLocal(db: Tables, token: Id, now: Time, x: Id)
    requires RowsOk(db) && token in db.tokens && DashboardRevoke(db, token, DashboardFamily(db, token), now).Some?
    ensures var db', family := DashboardRevoke(db, token, DashboardFamily(db, token), now).value,
                               DashboardFamily(db, token);
            (family.Some? ==> BelongsTo(db, token, family.value)) &&
            (FamilyStays(db, db', x) || family == Some(x)) &&
            (TokenStays(db, db', x) || x == token || (family.Some? && BelongsTo(db, x, family.value)))
  {
    DashboardFamilyKnown(db, token);
    var family := DashboardFamily(db, token);
    if family.Some? { SweepIsLocal(db, family.value, now, x, x, x); }
  }

  lemma DashboardWithdraws(cfg: Settings, s: Sys, e: Event, x: Id)
    requires RowsOk(s.db) && JobsOk(s) && OnDashboard(e) && Enabled(s, e)
    ensures FamilyStays(s.db, StepDashboard(s, e).db, x) || Sweeps(cfg, s, e, x)
    ensures TokenStays(s.db, StepDashboard(s, e).db, x) ||
            (e.DashboardCommit? && s.dashboard[e.job].token == x) ||
            exists f :: BelongsTo(s.db, x, f) && Sweeps(cfg, s, e, f)
  {
    if e.DashboardCommit? {
      var token := s.dashboard[e.job].token;
      assert DashboardOk(s.db, s.dashboard[e.job]);
      if DashboardRevoke(s.db, token, DashboardFamily(s.db, token), e.now).Some? {
        DashboardIsLocal(s.db, token, e.now, x);
        if DashboardFamily(s.db, token).Some? { assert Sweeps(cfg, s, e, DashboardFamily(s.db, token).value); }
      }
    }
  }

  lemma PolicyWithdraws(cfg: Settings, s: Sys, e: Event, x: Id)
    requires SysInv(cfg, s) && OnPolicy(e) && Enabled(s, e)
    ensures FamilyStays(s.db, StepPolicy(s, e).db, x) || Sweeps(cfg, s, e, x)
    ensures TokenStays(s.db, StepPolicy(s, e).db, x) || exists f :: BelongsTo(s.db, x, f) && Sweeps(cfg, s, e, f)
  {
    if e.RevokeGrant? && e.family in s.db.families {
      SweepIsLocal(s.db, e.family, e.now, x, x, x);
      assert Sweeps(cfg, s, e, e.family);
    }
  }

  /** x as a family stays unless the step sweeps it; x as a token keeps working unless the step sweeps its
      family, rotates the record it came with, or is the Dashboard's revocation of it. */
  ghost predicate Withdraws(cfg: Settings, s: Sys, e: Event, db': Tables, x: Id) {
    (FamilyStays(s.db, db', x) || Sweeps(cfg, s, e, x)) &&
    (TokenStays(s.db, db', x) || (exists f :: BelongsTo(s.db, x, f) && Sweeps(cfg, s, e, f)) ||
     (e.DashboardCommit? && e.job in s.dashboard && s.dashboard[e.job].token == x) ||
     (e.Refresh? && e.cell in s.cells && MayRotate(cfg, s, e) &&
      s.db.refreshes[s.cells[e.cell].refresh].mcpToken == Some(x)))
  }

  lemma ConsentWithdraws(cfg: Settings, s: Sys, e: Event, x: Id)
    requires e.DecideConsent? && Enabled(s, e)
    ensures FamilyStays(s.db, Next(cfg, s, e).db, x) && TokenStays(s.db, Next(cfg, s, e).db, x)
  {
    ConsentOutcome(cfg, s, e);
  }

  lemma StampWithdraws(cfg: Settings, s: Sys, e: Event, x: Id)
    requires OnBearer(e) && Enabled(s, e)
    ensures FamilyStays(s.db, StepBearer(cfg, s, e).db, x) && TokenStays(s.db, StepBearer(cfg, s, e).db, x)
  {
    if !e.BearerRead? && !e.BearerCommit? { ReadRows(s, e.job, NextReads(cfg, s, e)); }
  }

  /** Families are revoked and tokens disabled for these reasons and no others. */
  lemma WithdrawalHasACause(cfg: Settings, s: Sys, e: Event, x: Id)
    requires SysInv(cfg, s)
    ensures Withdraws(cfg, s, e, Next(cfg, s, e).db, x)
  {
    var s' := Next(cfg, s, e);
    if !Enabled(s, e) {
    } else if e.DecideConsent? {
      ConsentWithdraws(cfg, s, e, x);
    } else if e.Redeem? {
      RedemptionWithdraws(cfg, s, e, x);
    } else if e.Refresh? {
      if MayRotate(cfg, s, e) { RotationWithdraws(cfg, s, e, x); } else { RefreshWithdraws(cfg, s, e, x); }
    } else if OnCache(e) {
      assert s'.db == s.db;
    } else {
      if OnDashboard(e) {
        DashboardIs(cfg, s, e);
        DashboardWithdraws(cfg, s, e, x);
      } else if OnBearer(e) {
        BearerIs(cfg, s, e);
        StampWithdraws(cfg, s, e, x);
      } else {
        PolicyIs(cfg, s, e);
        PolicyWithdraws(cfg, s, e, x);
      }
    }
    assert Withdraws(cfg, s, e, s'.db, x);
  }

  /** Nothing of the family is usable, and the time of a revocation that was on record before has stayed. */
  ghost predicate SweptBy(db: Tables, db': Tables, f: Id, now: Time) {
    Closed(db', f) && f in db.families &&
    db'.families[f].revokedAt == if db.families[f].revokedAt.Some? then db.families[f].revokedAt else Some(now)
  }

  lemma SweepCloses(db: Tables, h: History, f: Id, now: Time)
    requires RowsOk(db) && ChainsOk(db, h) && f in db.families
    ensures SweptBy(db, RevokeFamily(db, f, now), f, now)
  {
    RevokeCloses(db, h, f, now);
  }

  /** Revoking a token through the Dashboard disables it, and closes its family if it has one. */
  lemma DashboardCloses(db: Tables, h: History, token: Id, now: Time)
    requires Inv(db, h) && token in db.tokens
    ensures var x := DashboardRevoke(db, token, DashboardFamily(db, token), now);
            x.Some? && token in x.value.tokens && !x.value.tokens[token].enabled &&
            x.value.tokens[token].revokedAt == Some(now) &&
            forall f | f in db.families && BelongsTo(db, token, f) ::
              SweptBy(db, x.value, f, now)
  {
    DashboardKeeps(db, h, token, now);
    var x := DashboardRevoke(db, token, DashboardFamily(db, token), now).value;
    forall f | f in db.families && BelongsTo(db, token, f)
      ensures SweptBy(db, x, f, now)
    {
      assert Linked(db, db.links[token].refresh);
      assert DashboardFamily(db, token) == Some(f);
      RevokedIsClosed(x, h, f);
    }
  }

  lemma GrantSweeps(cfg: Settings, s: Sys, e: Event)
    requires Inv(s.db, s.h) && Enabled(s, e) && e.RevokeGrant? && e.family in s.db.families
    ensures SweptBy(s.db, Next(cfg, s, e).db, e.family, e.now)
  {
    PolicyIs(cfg, s, e);
    SweepCloses(s.db, s.h, e.family, e.now);
  }

  lemma DashboardSweeps(cfg: Settings, s: Sys, e: Event, f: Id)
    requires e.DashboardCommit? && Enabled(s, e) && BelongsTo(s.db, s.dashboard[e.job].token, f)
    requires f in s.db.families && Inv(s.db, s.h) && JobsOk(s)
    ensures SweptBy(s.db, Next(cfg, s, e).db, f, e.now)
  {
    DashboardIs(cfg, s, e);
    assert DashboardOk(s.db, s.dashboard[e.job]);
    DashboardCloses(s.db, s.h, s.dashboard[e.job].token, e.now);
  }

  lemma ReplaySweeps(cfg: Settings, s: Sys, e: Event)
    requires SysInv(cfg, s) && Enabled(s, e) && e.Refresh? && IsReplay(cfg, s, e)
    ensures SweptBy(s.db, Next(cfg, s, e).db, e.family, e.now)
  {
    RefreshTables(cfg, s, e);
    SweepCloses(s.db, s.h, e.family, e.now);
  }

  /** Every step that sweeps a family closes it: nothing of the family is usable afterwards. */
  lemma EverySweepCloses(cfg: Settings, s: Sys, e: Event, f: Id)
    requires SysInv(cfg, s) && Enabled(s, e) && f in s.db.families && Sweeps(cfg, s, e, f)
    ensures SweptBy(s.db, Next(cfg, s, e).db, f, e.now)
  {
    if e.RevokeGrant? {
      GrantSweeps(cfg, s, e);
    } else if e.DashboardCommit? {
      DashboardSweeps(cfg, s, e, f);
    } else {
      ReplaySweeps(cfg, s, e);
    }
  }

  /** The Dashboard starts to revoke exactly a token that is there and not revoked yet. */
  lemma DashboardReadOutcome(cfg: Settings, s: Sys, e: Event)
    requires e.DashboardRead? && e.job !in s.dashboard
    ensures Next(cfg, s, e) ==
              if e.token in s.db.tokens && s.db.tokens[e.token].revokedAt.None?
              then s.(dashboard := s.dashboard[e.job := DashboardJob(e.token, None)]) else s
  {
    DashboardIs(cfg, s, e);
  }

  /** The Dashboard's revocation disables its token, whatever its kind. */
  lemma DashboardOutcome(cfg: Settings, s: Sys, e: Event)
    requires SysInv(cfg, s) && e.DashboardCommit? && e.job in s.dashboard && s.dashboard[e.job].lookup.Some?
    requires s.clock <= e.now
    ensures var db', t := Next(cfg, s, e).db, s.dashboard[e.job].token;
            t in db'.tokens && !db'.tokens[t].enabled && db'.tokens[t].revokedAt == Some(e.now)
  {
    DashboardIs(cfg, s, e);
    assert DashboardOk(s.db, s.dashboard[e.job]);
    DashboardCloses(s.db, s.h, s.dashboard[e.job].token, e.now);
  }

  // ---------------------------------------------------------------- permissions

  /** The owner of an unrevoked token replaces its grants by tools allowed to the owner. */
  predicate MayEdit(s: Sys, e: Event)
    requires e.SetGrants?
  {
    e.token in s.db.tokens && s.db.tokens[e.token].user == e.user && s.db.tokens[e.token].revokedAt.None? &&
    forall n | n in e.tools :: e.user in s.db.allowances && n in s.db.allowances[e.user]
  }

  lemma EditOutcome(cfg: Settings, s: Sys, e: Event)
    requires e.SetGrants?
    ensures Next(cfg, s, e).db ==
            if MayEdit(s, e) then s.db.(grants := s.db.grants[e.token := e.tools]) else s.db
  {
    PolicyIs(cfg, s, e);
    assert MayEdit(s, e) <==> MayReplaceGrants(s.db, e.user, e.token, e.tools);
  }

  /** Replacing a user's allowances cuts the grants of exactly the user's tokens down to them. */
  lemma AllowanceOutcome(cfg: Settings, s: Sys, e: Event, t: Id)
    requires e.SetAllowances?
    ensures var db' := Next(cfg, s, e).db;
            db' == s.db.(grants := db'.grants, allowances := s.db.allowances[e.user := e.tools]) &&
            (t in db'.grants <==> t in s.db.grants) &&
            (t in s.db.grants ==>
               forall n :: n in db'.grants[t] <==>
                           n in s.db.grants[t] &&
                           (t in s.db.tokens && s.db.tokens[t].user == e.user ==> n in e.tools))
  {
    PolicyIs(cfg, s, e);
    assert t in OwnedTokens(s.db, e.user) <==> t in s.db.tokens && s.db.tokens[t].user == e.user;
  }
}
