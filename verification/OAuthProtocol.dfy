/** The authorization server as a state machine. Every database transaction is one step;
    reads that take no lock are earlier steps of their own, so any interleaving is a run.

    The recovery cache is kept here with arbitrary eviction and restarts. RecoveryRefinement shows
    that a lookup in the bounded cache is one of these behaviours. */
module OAuthProtocol {
  import opened Prelude
  import opened OAuthTables
  import opened OAuthTransactions
  import opened OAuthInvariant
  import opened OAuthIssuance
  import opened OAuthRevocation
  import opened OAuthPolicy
  import opened OAuthMonotone

  /** A recovery entry. A pending value was minted under the entry's lock but not stored yet;
      while it is pending the lock is held. */
  datatype Cell = Cell(refresh: Id, filled: Option<Cached>, pending: Option<Cached>)

  /** A Dashboard revocation that has read its token, and later looked up the family. */
  datatype DashboardJob = DashboardJob(token: Id, lookup: Option<Option<Id>>)

  /** A bearer authentication that has read its token record, and what it has read since. */
  datatype BearerJob = BearerJob(token: Id, record: McpToken, seen: Reads)

  datatype Sys = Sys(
    db: Tables, dir: Directory, clock: Time,
    cells: map<Id, Cell>,      // every entry some request may still hold
    resident: map<Id, Id>,     // refresh token -> the entry the cache returns for it
    dashboard: map<Id, DashboardJob>, bearers: map<Id, BearerJob>,
    h: History)

  datatype Event =
    | NewRequest(id: Id, row: AuthRequest)
    | DecideConsent(request: Id, account: Id, approve: bool, ttlDays: Option<int>, tools: set<Tool>,
                    now: Time, code: Id)
    | Redeem(clientId: string, storedCode: StoredCode, now: Time, issueNow: Time, family: Id,
             pair: FreshPair)
    | TakeCell(refresh: Id, entry: Id, keep: bool)
    | Evict(refresh: Id)
    | Refresh(cell: Id, clientId: string, family: Id, scopes: seq<Scope>, now: Time, issueNow: Time,
              pair: FreshPair)
    | Fill(cell: Id)
    | Abandon(cell: Id)
    | RevokeGrant(family: Id, now: Time)
    | DashboardRead(job: Id, token: Id)
    | DashboardLookup(job: Id)
    | DashboardCommit(job: Id, now: Time)
    | BearerRead(job: Id, token: Id, now: Time)
    | BearerLink(job: Id)
    | BearerRefresh(job: Id)
    | BearerFamily(job: Id)
    | BearerCommit(job: Id, now: Time)
    | IssueStatic(id: Id, user: Id, expiresAt: Option<Time>)
    | SetAllowances(user: Id, tools: set<Tool>)
    | SetGrants(user: Id, token: Id, tools: set<Tool>)
    | ConfigureTools(settings: map<Tool, ToolSetting>)
    | Administer(dir: Directory)
    | Restart

  /** The clock never runs backwards and random ids are never reused. */
  predicate Enabled(s: Sys, e: Event) {
    match e
    case NewRequest(id, row) => id !in s.db.requests && row.resolvedAt.None?
    case DecideConsent(_, _, _, _, _, now, code) => s.clock <= now && code !in s.db.codes
    case Redeem(_, _, now, issueNow, family, pair) =>
      s.clock <= now <= issueNow && family !in s.db.families && IsFresh(s.db, pair)
    case TakeCell(_, id, _) => id !in s.cells
    case Evict(_) => true
    case Refresh(cell, _, _, _, now, issueNow, pair) =>
      cell in s.cells && s.cells[cell].pending.None? && s.clock <= now <= issueNow &&
      IsFresh(s.db, pair)
    case Fill(cell) => cell in s.cells && s.cells[cell].pending.Some?
    case Abandon(cell) => cell in s.cells && s.cells[cell].pending.Some?
    case RevokeGrant(family, now) => s.clock <= now
    case DashboardRead(job, token) => job !in s.dashboard
    case DashboardLookup(job) => job in s.dashboard
    case DashboardCommit(job, now) =>
      job in s.dashboard && s.dashboard[job].lookup.Some? && s.clock <= now
    case BearerRead(job, token, now) => job !in s.bearers && s.clock <= now
    case BearerLink(job) => job in s.bearers && s.bearers[job].seen.SawToken?
    case BearerRefresh(job) => job in s.bearers && s.bearers[job].seen.SawLink?
    case BearerFamily(job) => job in s.bearers && s.bearers[job].seen.SawRefresh?
    case BearerCommit(job, now) =>
      job in s.bearers && s.bearers[job].seen.Resolved? && s.clock <= now
    case IssueStatic(id, _, _) => id !in s.db.tokens
    case _ => true
  }

  function ExchangeOf(cfg: Settings, s: Sys, e: Event): Exchange
    requires e.Refresh? && e.cell in s.cells
  {
    ExchangeRefresh(s.db, s.dir, cfg, s.cells[e.cell].filled, e.clientId,
                    StoredRefresh(s.cells[e.cell].refresh, e.family), e.scopes, e.now, e.issueNow,
                    e.pair)
  }

  function ConsentOf(cfg: Settings, s: Sys, e: Event): Consent
    requires e.DecideConsent?
  {
    ResolveConsent(s.db, s.dir, cfg, e.request, e.account, e.approve, e.ttlDays, e.tools, e.now, e.code)
  }

  function RedeemOf(cfg: Settings, s: Sys, e: Event): Issue
    requires e.Redeem?
  {
    RedeemCode(s.db, s.dir, cfg, e.clientId, e.storedCode, e.now, e.issueNow, e.family, e.pair)
  }

  function ApplyConsent(s: Sys, e: Event, x: Consent): Sys
    requires e.DecideConsent?
  {
    match x
    case Refused(_) => s
    case Declined(db) => s.(db := db, clock := e.now)
    case Approved(db, code) => s.(db := db, clock := e.now, h := AfterApproval(s.h, code, e.request))
  }

  function ApplyIssue(s: Sys, e: Event, x: Issue): Sys
    requires e.Redeem?
  {
    match x
    case NotIssued(_) => s
    case Issued(db, token) =>
      s.(db := db, clock := e.issueNow,
         h := AfterRedemption(s.h, e.family, e.storedCode.record, token))
  }

  function ApplyExchange(cfg: Settings, s: Sys, e: Event, x: Exchange): Sys
    requires e.Refresh? && e.cell in s.cells
  {
    match x
    case Rejected(_) => s.(clock := e.now)
    case Recovered(_) => s.(clock := e.now)
    case Replayed(db) => s.(db := db, clock := e.now)
    case Rotated(db, token) =>
      var c := s.cells[e.cell];
      s.(db := db, clock := e.issueNow,
         h := if e.family in s.h.chains then AfterRotation(s.h, e.family, c.refresh, token) else s.h,
         cells := s.cells[e.cell :=
           c.(pending := Some(Cached(token, e.now + cfg.graceSeconds * SECOND)))])
  }

  predicate OnCache(e: Event) {
    e.TakeCell? || e.Evict? || e.Fill? || e.Abandon? || e.Restart?
  }

  function StepCache(s: Sys, e: Event): Sys
    requires Enabled(s, e) && OnCache(e)
  {
    match e
    case TakeCell(refresh, id, keep) =>
      if refresh in s.resident then s
      else s.(cells := s.cells[id := Cell(refresh, None, None)],
              resident := if keep then s.resident[refresh := id] else s.resident)
    case Evict(refresh) => s.(resident := s.resident - {refresh})
    case Fill(cell) =>
      var c := s.cells[cell];
      s.(cells := s.cells[cell := c.(filled := c.pending, pending := None)])
    case Abandon(cell) => s.(cells := s.cells[cell := s.cells[cell].(pending := None)])
    case Restart => s.(cells := map[], resident := map[], dashboard := map[], bearers := map[])
  }

  predicate OnDashboard(e: Event) {
    e.DashboardRead? || e.DashboardLookup? || e.DashboardCommit?
  }

  /** The end of a Dashboard revocation, committed or rolled back. */
  function ApplyDashboard(s: Sys, job: Id, now: Time, x: Option<Tables>): Sys {
    match x
    case None => s.(dashboard := s.dashboard - {job})
    case Some(db) => s.(dashboard := s.dashboard - {job}, db := db, clock := now)
  }

  function StepDashboard(s: Sys, e: Event): Sys
    requires Enabled(s, e) && OnDashboard(e)
  {
    match e
    case DashboardRead(job, token) =>
      if token in s.db.tokens && s.db.tokens[token].revokedAt.None?
      then s.(dashboard := s.dashboard[job := DashboardJob(token, None)]) else s
    case DashboardLookup(job) =>
      var j := s.dashboard[job];
      if j.token in s.db.tokens
      then s.(dashboard := s.dashboard[job := j.(lookup := Some(DashboardFamily(s.db, j.token)))])
      else s
    case DashboardCommit(job, now) =>
      var j := s.dashboard[job];
      ApplyDashboard(s, job, now,
        if j.token in s.db.tokens then DashboardRevoke(s.db, j.token, j.lookup.value, now) else None)
  }

  predicate OnBearer(e: Event) {
    e.BearerRead? || e.BearerLink? || e.BearerRefresh? || e.BearerFamily? || e.BearerCommit?
  }

  /** What the next read of an authentication sees; None rejects the request. */
  function NextReads(cfg: Settings, s: Sys, e: Event): Option<Reads>
    requires Enabled(s, e) && (e.BearerLink? || e.BearerRefresh? || e.BearerFamily?)
  {
    var j := s.bearers[e.job];
    match e
    case BearerLink(_) => ReadLink(s.db, cfg, j.token, j.record)
    case BearerRefresh(_) => ReadRefresh(s.db, j.seen.link)
    case BearerFamily(_) => ReadFamily(s.db, j.token, j.record, j.seen.refresh)
  }

  function AfterRead(s: Sys, job: Id, x: Option<Reads>): Sys
    requires job in s.bearers
  {
    match x
    case None => s.(bearers := s.bearers - {job})
    case Some(seen) => s.(bearers := s.bearers[job := s.bearers[job].(seen := seen)])
  }

  function StepBearer(cfg: Settings, s: Sys, e: Event): Sys
    requires Enabled(s, e) && OnBearer(e)
  {
    if e.BearerRead? then
      if ActiveToken(s.db, s.dir, e.token, e.now)
      then s.(bearers := s.bearers[e.job := BearerJob(e.token, s.db.tokens[e.token], SawToken)]) else s
    else if e.BearerCommit? then
      s.(bearers := s.bearers - {e.job}, db := Stamp(s.db, s.bearers[e.job].token, e.now), clock := e.now)
    else
      AfterRead(s, e.job, NextReads(cfg, s, e))
  }

  predicate OnPolicy(e: Event) {
    e.NewRequest? || e.RevokeGrant? || e.IssueStatic? || e.SetAllowances? || e.SetGrants? ||
    e.ConfigureTools? || e.Administer?
  }

  function StepPolicy(s: Sys, e: Event): Sys
    requires Enabled(s, e) && OnPolicy(e)
  {
    match e
    case NewRequest(id, row) => s.(db := s.db.(requests := s.db.requests[id := row]))
    case RevokeGrant(family, now) =>
      if family in s.db.families then s.(db := RevokeFamily(s.db, family, now), clock := now) else s
    case IssueStatic(id, user, expiresAt) => s.(db := CreateStatic(s.db, id, user, expiresAt))
    case SetAllowances(user, tools) => s.(db := ReplaceAllowances(s.db, user, tools))
    case SetGrants(user, token, tools) =>
      if MayReplaceGrants(s.db, user, token, tools)
      then s.(db := ReplaceGrants(s.db, token, tools),
              h := AfterEdit(s.h, FamilyOfToken(s.db, token), tools))
      else s
    case ConfigureTools(settings) => s.(db := s.db.(settings := settings))
    case Administer(dir) => s.(dir := dir)
  }

  function Next(cfg: Settings, s: Sys, e: Event): Sys {
    if !Enabled(s, e) then s
    else if e.DecideConsent? then ApplyConsent(s, e, ConsentOf(cfg, s, e))
    else if e.Redeem? then ApplyIssue(s, e, RedeemOf(cfg, s, e))
    else if e.Refresh? then ApplyExchange(cfg, s, e, ExchangeOf(cfg, s, e))
    else if OnCache(e) then StepCache(s, e)
    else if OnDashboard(e) then StepDashboard(s, e)
    else if OnBearer(e) then StepBearer(cfg, s, e)
    else StepPolicy(s, e)
  }

  // ---------------------------------------------------------------- what clients see

  /** The token pair a step hands out, if any. */
  function PairReturned(cfg: Settings, s: Sys, e: Event): Option<TokenResponse> {
    if !e.Refresh? || !Enabled(s, e) then None
    else
      match ExchangeOf(cfg, s, e)
      case Rotated(_, token) => Some(token)
      case Recovered(token) => Some(token)
      case _ => None
  }

  /** The identity a bearer authentication reports, if it succeeds. */
  function Authenticated(s: Sys, e: Event): Option<Identity> {
    if e.BearerCommit? && Enabled(s, e) && StampSucceeds(s.db, s.bearers[e.job].token)
    then Some(s.bearers[e.job].seen.identity)
    else None
  }

  // ---------------------------------------------------------------- the system invariant

  /** A cached pair is the pair its refresh token was exchanged for, until the grace window ends. */
  ghost predicate Faithful(cfg: Settings, db: Tables, h: History, refresh: Id, x: Cached) {
    refresh in h.minted && x.token == h.minted[refresh] &&
    refresh in db.refreshes && db.refreshes[refresh].rotatedAt.Some? &&
    x.expiresAt == db.refreshes[refresh].rotatedAt.value + cfg.graceSeconds * SECOND
  }

  ghost predicate CellOk(cfg: Settings, db: Tables, h: History, c: Cell) {
    (c.filled.Some? ==> Faithful(cfg, db, h, c.refresh, c.filled.value)) &&
    (c.pending.Some? ==> Faithful(cfg, db, h, c.refresh, c.pending.value))
  }

  ghost predicate CacheOk(cfg: Settings, s: Sys) {
    (forall c {:trigger CellOk(cfg, s.db, s.h, s.cells[c])} | c in s.cells ::
      CellOk(cfg, s.db, s.h, s.cells[c])) &&
    (forall r | r in s.resident :: s.resident[r] in s.cells && s.cells[s.resident[r]].refresh == r)
  }

  ghost predicate DashboardOk(db: Tables, j: DashboardJob) {
    j.token in db.tokens && (j.lookup.Some? ==> j.lookup.value == DashboardFamily(db, j.token))
  }

  ghost predicate LinkSeen(db: Tables, token: Id, link: AccessLink) {
    token in db.links && link.refresh == db.links[token].refresh
  }

  /** The rows an authentication has seen may be stale, but what it uses of them never changes. */
  ghost predicate BearerOk(db: Tables, j: BearerJob) {
    j.token in db.tokens && j.record.user == db.tokens[j.token].user && j.record.kind == db.tokens[j.token].kind &&
    match j.seen
    case SawToken => true
    case SawLink(link) => j.record.kind == OAuth && LinkSeen(db, j.token, link)
    case SawRefresh(link, refresh) =>
      j.record.kind == OAuth && LinkSeen(db, j.token, link) && link.refresh in db.refreshes &&
      refresh.family == db.refreshes[link.refresh].family
    case Resolved(who) =>
      who.token == j.token && who.user == j.record.user && who.family == DashboardFamily(db, j.token)
  }

  ghost predicate JobsOk(s: Sys) {
    (forall j {:trigger DashboardOk(s.db, s.dashboard[j])} | j in s.dashboard ::
      DashboardOk(s.db, s.dashboard[j])) &&
    (forall j {:trigger BearerOk(s.db, s.bearers[j])} | j in s.bearers ::
      BearerOk(s.db, s.bearers[j]))
  }

  ghost predicate SysInv(cfg: Settings, s: Sys) {
    Inv(s.db, s.h) && CacheOk(cfg, s) && JobsOk(s)
  }

  /** A fresh installation: no request, code or OAuth token; anything else is arbitrary. */
  ghost predicate Initial(s: Sys) {
    s.db.requests == map[] && s.db.codes == map[] && s.db.families == map[] &&
    s.db.refreshes == map[] && s.db.links == map[] && s.db.grants == map[] && s.db.tokens == map[] &&
    s.cells == map[] && s.resident == map[] && s.dashboard == map[] &&
    s.bearers == map[] && s.h == History(map[], map[], map[], map[], map[])
  }
}
