/** Every step of the protocol keeps the system invariant and undoes nothing. */
module OAuthSafety {
  import opened Prelude
  import opened OAuthTables
  import opened OAuthTransactions
  import opened OAuthInvariant
  import opened OAuthIssuance
  import opened OAuthRevocation
  import opened OAuthPolicy
  import opened OAuthMonotone
  import opened OAuthProtocol

  /** The tables move forward and the invariant holds again. */
  ghost predicate Good(db: Tables, h: History, db': Tables, h': History) {
    Inv(db', h') && Evolves(db, h, db', h')
  }

  /** One step of the tables and the history. */
  ghost predicate GoodStep(s: Sys, s': Sys) {
    Good(s.db, s.h, s'.db, s'.h)
  }

  lemma IdleStep(s: Sys, s': Sys)
    requires Inv(s.db, s.h) && s'.db == s.db && s'.h == s.h
    ensures GoodStep(s, s')
  {
    EvolvesRefl(s.db, s.h);
  }

  // ---------------------------------------------------------------- consent

  ghost predicate ConsentIsGood(db: Tables, h: History, request: Id, x: Consent) {
    match x
    case Refused(_) => true
    case Declined(db') => Good(db, h, db', h)
    case Approved(db', code) => Good(db, h, db', AfterApproval(h, code, request))
  }

  lemma DeclinedRows(db: Tables, dir: Directory, cfg: Settings, request: Id, account: Id, approve: bool,
                     ttlDays: Option<int>, tools: set<Tool>, now: Time, code: Id)
    requires ResolveConsent(db, dir, cfg, request, account, approve, ttlDays, tools, now, code).Declined?
    ensures PendingRequest(db, request, now)
    ensures ResolveConsent(db, dir, cfg, request, account, approve, ttlDays, tools, now, code).db ==
            ResolveRequest(db, request, now)
  {
  }

  lemma ApprovedRows(db: Tables, dir: Directory, cfg: Settings, request: Id, account: Id, approve: bool,
                     ttlDays: Option<int>, tools: set<Tool>, now: Time, code: Id)
    requires ResolveConsent(db, dir, cfg, request, account, approve, ttlDays, tools, now, code).Approved?
    ensures PendingRequest(db, request, now)
    ensures var x := ResolveConsent(db, dir, cfg, request, account, approve, ttlDays, tools, now, code);
            x.code == code && code in x.db.codes &&
            x.db == ResolveRequest(db, request, now).(codes := db.codes[code := x.db.codes[code]])
  {
  }

  lemma ResolvedEvolves(db: Tables, h: History, request: Id, now: Time)
    requires PendingRequest(db, request, now)
    ensures Evolves(db, h, ResolveRequest(db, request, now), h)
  {
    QuietEvolves(db, h, ResolveRequest(db, request, now), h);
  }

  lemma ApprovalEvolves(db: Tables, h: History, request: Id, now: Time, code: Id, row: AuthCode)
    requires PendingRequest(db, request, now) && code !in db.codes && code !in h.requestOf
    ensures Evolves(db, h, ResolveRequest(db, request, now).(codes := db.codes[code := row]),
                    AfterApproval(h, code, request))
  {
    var mid := ResolveRequest(db, request, now);
    ResolvedEvolves(db, h, request, now);
    QuietEvolves(mid, h, mid.(codes := db.codes[code := row]), AfterApproval(h, code, request));
    EvolvesTwice(db, h, mid, h, mid.(codes := db.codes[code := row]), AfterApproval(h, code, request));
  }

  lemma ConsentGood(db: Tables, h: History, dir: Directory, cfg: Settings, request: Id, account: Id,
                    approve: bool, ttlDays: Option<int>, tools: set<Tool>, now: Time, code: Id)
    requires Inv(db, h) && code !in db.codes
    ensures ConsentIsGood(db, h, request,
              ResolveConsent(db, dir, cfg, request, account, approve, ttlDays, tools, now, code))
  {
    var x := ResolveConsent(db, dir, cfg, request, account, approve, ttlDays, tools, now, code);
    match x
    case Refused(_) =>
    case Declined(_) =>
      DeclinedRows(db, dir, cfg, request, account, approve, ttlDays, tools, now, code);
      ResolveRequestKeeps(db, h, request, now);
      ResolvedEvolves(db, h, request, now);
    case Approved(db', _) =>
      ApprovedRows(db, dir, cfg, request, account, approve, ttlDays, tools, now, code);
      ApprovalKeeps(db, h, dir, cfg, request, account, approve, ttlDays, tools, now, code);
      ApprovalEvolves(db, h, request, now, code, db'.codes[code]);
  }

  lemma AppliedConsent(s: Sys, e: Event, x: Consent)
    requires Inv(s.db, s.h) && e.DecideConsent? && ConsentIsGood(s.db, s.h, e.request, x)
    ensures GoodStep(s, ApplyConsent(s, e, x))
  {
    if x.Refused? { IdleStep(s, ApplyConsent(s, e, x)); }
  }

  // ---------------------------------------------------------------- redemption

  ghost predicate IssueIsGood(db: Tables, h: History, family: Id, code: Id, x: Issue) {
    x.Issued? ==> Good(db, h, x.db, AfterRedemption(h, family, code, x.token))
  }

  lemma RedemptionGood(db: Tables, h: History, dir: Directory, cfg: Settings, clientId: string,
                       stored: StoredCode, now: Time, issueNow: Time, f: Id, pair: FreshPair)
    requires Inv(db, h) && f !in db.families && IsFresh(db, pair)
    ensures IssueIsGood(db, h, f, stored.record,
                        RedeemCode(db, dir, cfg, clientId, stored, now, issueNow, f, pair))
  {
    if RedeemCode(db, dir, cfg, clientId, stored, now, issueNow, f, pair).Issued? {
      RedemptionKeeps(db, h, dir, cfg, clientId, stored, now, issueNow, f, pair);
      RedemptionEvolves(db, h, dir, cfg, clientId, stored, now, issueNow, f, pair);
    }
  }

  lemma AppliedIssue(s: Sys, e: Event, x: Issue)
    requires Inv(s.db, s.h) && e.Redeem? && IssueIsGood(s.db, s.h, e.family, e.storedCode.record, x)
    ensures GoodStep(s, ApplyIssue(s, e, x))
  {
    if x.NotIssued? { IdleStep(s, ApplyIssue(s, e, x)); }
  }

  // ---------------------------------------------------------------- refresh

  /** What an exchange did, in terms of the transactions it is made of. */
  ghost predicate Explains(cfg: Settings, s: Sys, e: Event, x: Exchange)
    requires e.Refresh? && e.cell in s.cells
  {
    var r := s.cells[e.cell].refresh;
    (x.Replayed? ==>
      e.family in s.db.families && x.db == RevokeFamily(s.db, e.family, e.now)) &&
    (x.Rotated? ==>
      r in s.db.refreshes && e.family in s.db.families && s.db.refreshes[r].family == e.family &&
      s.db.families[e.family].revokedAt.None? && s.db.refreshes[r].rotatedAt.None? &&
      s.db.refreshes[r].revokedAt.None? && ScopesWithin(e.scopes, s.db.refreshes[r].scopes) &&
      Rotate(s.db, s.dir, cfg, r, e.scopes, e.now, e.issueNow, e.pair) == Issued(x.db, x.token))
  }

  /** A rotation rotates an unrotated record of an unrevoked family; a replay revokes the family. */
  lemma ExchangeExplained(cfg: Settings, s: Sys, e: Event)
    requires e.Refresh? && e.cell in s.cells
    ensures Explains(cfg, s, e, ExchangeOf(cfg, s, e))
  {
  }

  lemma RotationGood(db: Tables, h: History, dir: Directory, cfg: Settings, r: Id, scopes: seq<Scope>,
                     now: Time, issueNow: Time, pair: FreshPair)
    requires Inv(db, h) && r in db.refreshes && IsFresh(db, pair)
    requires db.refreshes[r].rotatedAt.None? && db.refreshes[r].revokedAt.None?
    requires ScopesWithin(scopes, db.refreshes[r].scopes)
    requires db.refreshes[r].family in db.families &&
             db.families[db.refreshes[r].family].revokedAt.None?
    requires Rotate(db, dir, cfg, r, scopes, now, issueNow, pair).Issued?
    ensures var out := Rotate(db, dir, cfg, r, scopes, now, issueNow, pair);
            db.refreshes[r].family in h.chains &&
            Good(db, h, out.db, AfterRotation(h, db.refreshes[r].family, r, out.token))
  {
    RotationKeeps(db, h, dir, cfg, r, scopes, now, issueNow, pair);
    RotationEvolves(db, h, dir, cfg, r, scopes, now, issueNow, pair);
  }

  lemma RevokeGood(db: Tables, h: History, f: Id, now: Time)
    requires Inv(db, h) && f in db.families
    ensures Good(db, h, RevokeFamily(db, f, now), h)
  {
    RevokeKeeps(db, h, f, now);
    RevokeEvolves(db, h, f, now);
  }

  ghost predicate ExchangeIsGood(db: Tables, h: History, family: Id, r: Id, x: Exchange) {
    match x
    case Rejected(_) => true
    case Recovered(_) => true
    case Replayed(db') => Good(db, h, db', h)
    case Rotated(db', token) => family in h.chains && Good(db, h, db', AfterRotation(h, family, r, token))
  }

  lemma ExchangeGood(cfg: Settings, s: Sys, e: Event, x: Exchange)
    requires Inv(s.db, s.h) && e.Refresh? && e.cell in s.cells && IsFresh(s.db, e.pair)
    requires Explains(cfg, s, e, x)
    ensures ExchangeIsGood(s.db, s.h, e.family, s.cells[e.cell].refresh, x)
  {
    if x.Replayed? {
      RevokeGood(s.db, s.h, e.family, e.now);
    } else if x.Rotated? {
      RotationGood(s.db, s.h, s.dir, cfg, s.cells[e.cell].refresh, e.scopes, e.now, e.issueNow, e.pair);
    }
  }

  lemma AppliedRows(cfg: Settings, s: Sys, e: Event, x: Exchange)
    requires e.Refresh? && e.cell in s.cells && (x.Rotated? ==> e.family in s.h.chains)
    ensures var s' := ApplyExchange(cfg, s, e, x);
            match x
            case Rejected(_) => s'.db == s.db && s'.h == s.h
            case Recovered(_) => s'.db == s.db && s'.h == s.h
            case Replayed(db) => s'.db == db && s'.h == s.h
            case Rotated(db, token) =>
              s'.db == db && s'.h == AfterRotation(s.h, e.family, s.cells[e.cell].refresh, token)
  {
  }

  lemma AppliedExchange(cfg: Settings, s: Sys, e: Event, x: Exchange)
    requires Inv(s.db, s.h) && e.Refresh? && e.cell in s.cells
    requires ExchangeIsGood(s.db, s.h, e.family, s.cells[e.cell].refresh, x)
    ensures GoodStep(s, ApplyExchange(cfg, s, e, x))
  {
    AppliedRows(cfg, s, e, x);
    if x.Rejected? || x.Recovered? { IdleStep(s, ApplyExchange(cfg, s, e, x)); }
  }

  lemma RefreshStep(cfg: Settings, s: Sys, e: Event)
    requires Inv(s.db, s.h) && e.Refresh? && Enabled(s, e)
    ensures GoodStep(s, ApplyExchange(cfg, s, e, ExchangeOf(cfg, s, e)))
  {
    var x := ExchangeOf(cfg, s, e);
    ExchangeExplained(cfg, s, e);
    ExchangeGood(cfg, s, e, x);
    AppliedExchange(cfg, s, e, x);
  }

  // ---------------------------------------------------------------- Dashboard and bearer requests

  lemma DashboardGood(db: Tables, h: History, t: Id, now: Time)
    requires Inv(db, h) && t in db.tokens
    ensures var out := DashboardRevoke(db, t, DashboardFamily(db, t), now);
            out.Some? && Good(db, h, out.value, h)
  {
    DashboardKeeps(db, h, t, now);
    DashboardEvolves(db, h, t, DashboardFamily(db, t), now);
  }

  lemma DashboardStep(s: Sys, e: Event)
    requires Inv(s.db, s.h) && JobsOk(s) && Enabled(s, e) && OnDashboard(e)
    ensures GoodStep(s, StepDashboard(s, e))
  {
    if e.DashboardCommit? {
      assert DashboardOk(s.db, s.dashboard[e.job]);
      DashboardGood(s.db, s.h, s.dashboard[e.job].token, e.now);
    } else {
      IdleStep(s, StepDashboard(s, e));
    }
  }

  lemma StampGood(db: Tables, h: History, token: Id, now: Time)
    requires Inv(db, h)
    ensures Good(db, h, Stamp(db, token, now), h)
  {
    StampKeeps(db, h, token, now);
    StampEvolves(db, h, token, now);
  }

  lemma ReadRows(s: Sys, job: Id, x: Option<Reads>)
    requires job in s.bearers
    ensures AfterRead(s, job, x).db == s.db && AfterRead(s, job, x).h == s.h
    ensures SameCache(s, AfterRead(s, job, x))
  {
  }

  lemma BearerStep(cfg: Settings, s: Sys, e: Event)
    requires Inv(s.db, s.h) && Enabled(s, e) && OnBearer(e)
    ensures GoodStep(s, StepBearer(cfg, s, e))
  {
    if e.BearerCommit? {
      StampGood(s.db, s.h, s.bearers[e.job].token, e.now);
    } else {
      if !e.BearerRead? { ReadRows(s, e.job, NextReads(cfg, s, e)); }
      IdleStep(s, StepBearer(cfg, s, e));
    }
  }

  // ---------------------------------------------------------------- policy

  lemma RequestGood(db: Tables, h: History, id: Id, row: AuthRequest)
    requires Inv(db, h) && id !in db.requests
    ensures Good(db, h, db.(requests := db.requests[id := row]), h)
  {
    NewRequestKeeps(db, h, id, row);
    RequestEvolves(db, h, id, row);
  }

  lemma StaticGood(db: Tables, h: History, id: Id, user: Id, expiresAt: Option<Time>)
    requires Inv(db, h) && id !in db.tokens
    ensures Good(db, h, CreateStatic(db, id, user, expiresAt), h)
  {
    CreateStaticKeeps(db, h, id, user, expiresAt);
    StaticEvolves(db, h, id, user, expiresAt);
  }

  lemma AllowancesGood(db: Tables, h: History, user: Id, tools: set<Tool>)
    requires Inv(db, h)
    ensures Good(db, h, ReplaceAllowances(db, user, tools), h)
  {
    AllowancesKeep(db, h, user, tools);
    AllowancesEvolve(db, h, user, tools);
  }

  lemma SettingsGood(db: Tables, h: History, settings: map<Tool, ToolSetting>)
    requires Inv(db, h)
    ensures Good(db, h, db.(settings := settings), h)
  {
    SettingsKeep(db, h, settings);
    SettingsEvolve(db, h, settings);
  }

  lemma EditGood(db: Tables, h: History, user: Id, token: Id, tools: set<Tool>)
    requires Inv(db, h) && MayReplaceGrants(db, user, token, tools)
    ensures Good(db, h, ReplaceGrants(db, token, tools), AfterEdit(h, FamilyOfToken(db, token), tools))
  {
    EditKeeps(db, h, user, token, tools);
    EditEvolves(db, h, FamilyOfToken(db, token), token, tools);
  }

  lemma PolicyStep(s: Sys, e: Event)
    requires Inv(s.db, s.h) && Enabled(s, e) && OnPolicy(e)
    ensures GoodStep(s, StepPolicy(s, e))
  {
    match e
    case NewRequest(id, row) => RequestGood(s.db, s.h, id, row);
    case RevokeGrant(family, now) =>
      if family in s.db.families { RevokeGood(s.db, s.h, family, now); } else { IdleStep(s, StepPolicy(s, e)); }
    case IssueStatic(id, user, expiresAt) => StaticGood(s.db, s.h, id, user, expiresAt);
    case SetAllowances(user, tools) => AllowancesGood(s.db, s.h, user, tools);
    case SetGrants(user, token, tools) =>
      if MayReplaceGrants(s.db, user, token, tools) {
        EditGood(s.db, s.h, user, token, tools);
      } else {
        IdleStep(s, StepPolicy(s, e));
      }
    case ConfigureTools(settings) => SettingsGood(s.db, s.h, settings);
    case Administer(_) => IdleStep(s, StepPolicy(s, e));
  }

  lemma TablesStep(cfg: Settings, s: Sys, e: Event)
    requires Inv(s.db, s.h) && JobsOk(s)
    ensures GoodStep(s, Next(cfg, s, e))
  {
    if !Enabled(s, e) {
      IdleStep(s, s);
    } else if e.DecideConsent? {
      ConsentGood(s.db, s.h, s.dir, cfg, e.request, e.account, e.approve, e.ttlDays, e.tools, e.now, e.code);
      AppliedConsent(s, e, ConsentOf(cfg, s, e));
    } else if e.Redeem? {
      RedemptionGood(s.db, s.h, s.dir, cfg, e.clientId, e.storedCode, e.now, e.issueNow, e.family, e.pair);
      AppliedIssue(s, e, RedeemOf(cfg, s, e));
    } else if e.Refresh? {
      RefreshStep(cfg, s, e);
    } else if OnCache(e) {
      IdleStep(s, StepCache(s, e));
    } else if OnDashboard(e) {
      DashboardStep(s, e);
    } else if OnBearer(e) {
      BearerStep(cfg, s, e);
    } else {
      PolicyStep(s, e);
    }
  }

  // ---------------------------------------------------------------- the cache

  /** What a cached pair says stays true as the tables evolve. */
  lemma FaithfulKept(cfg: Settings, db: Tables, h: History, db': Tables, h': History, r: Id, x: Cached)
    requires Faithful(cfg, db, h, r, x) && RowsKept(db, db') && HistoryGrows(h, h')
    ensures Faithful(cfg, db', h', r, x)
  {
    assert RefreshKept(db, db', r);
  }

  lemma CellKept(cfg: Settings, db: Tables, h: History, db': Tables, h': History, c: Cell)
    requires CellOk(cfg, db, h, c) && RowsKept(db, db') && HistoryGrows(h, h')
    ensures CellOk(cfg, db', h', c)
  {
    if c.filled.Some? { FaithfulKept(cfg, db, h, db', h', c.refresh, c.filled.value); }
    if c.pending.Some? { FaithfulKept(cfg, db, h, db', h', c.refresh, c.pending.value); }
  }

  /** Steps that do not concern the cache leave it alone, and likewise for pending requests. */
  ghost predicate SameCache(s: Sys, s': Sys) {
    s'.cells == s.cells && s'.resident == s.resident
  }

  ghost predicate SameJobs(s: Sys, s': Sys) {
    s'.dashboard == s.dashboard && s'.bearers == s.bearers
  }

  lemma CacheFrame(cfg: Settings, s: Sys, s': Sys)
    requires CacheOk(cfg, s) && RowsKept(s.db, s'.db) && HistoryGrows(s.h, s'.h) && SameCache(s, s')
    ensures CacheOk(cfg, s')
  {
    forall c | c in s'.cells ensures CellOk(cfg, s'.db, s'.h, s'.cells[c]) {
      assert CellOk(cfg, s.db, s.h, s.cells[c]);
      CellKept(cfg, s.db, s.h, s'.db, s'.h, s.cells[c]);
    }
  }

  /** The pair just minted is what the entry will answer duplicates with. */
  lemma RotationFaithful(cfg: Settings, s: Sys, e: Event, x: Exchange)
    requires ChainsOk(s.db, s.h) && e.Refresh? && Enabled(s, e) && x.Rotated?
    requires Explains(cfg, s, e, x)
    ensures var s' := ApplyExchange(cfg, s, e, x);
            e.cell in s'.cells && s'.cells[e.cell].pending.Some? &&
            Faithful(cfg, s'.db, s'.h, s.cells[e.cell].refresh, s'.cells[e.cell].pending.value)
  {
  }

  /** One entry gains a faithful pending value. */
  lemma CacheAfterMinting(cfg: Settings, s: Sys, s': Sys, cell: Id)
    requires CacheOk(cfg, s) && RowsKept(s.db, s'.db) && HistoryGrows(s.h, s'.h)
    requires cell in s.cells && cell in s'.cells
    requires s'.cells == s.cells[cell := s.cells[cell].(pending := s'.cells[cell].pending)]
    requires s'.cells[cell].pending.Some? &&
             Faithful(cfg, s'.db, s'.h, s.cells[cell].refresh, s'.cells[cell].pending.value)
    requires s'.resident == s.resident
    ensures CacheOk(cfg, s')
  {
    forall c | c in s'.cells ensures CellOk(cfg, s'.db, s'.h, s'.cells[c]) {
      assert CellOk(cfg, s.db, s.h, s.cells[c]);
      CellKept(cfg, s.db, s.h, s'.db, s'.h, s.cells[c]);
    }
  }

  lemma AppliedSame(cfg: Settings, s: Sys, e: Event, x: Exchange)
    requires e.Refresh? && e.cell in s.cells
    ensures SameJobs(s, ApplyExchange(cfg, s, e, x))
    ensures !x.Rotated? ==> SameCache(s, ApplyExchange(cfg, s, e, x))
  {
  }

  lemma AppliedCache(cfg: Settings, s: Sys, e: Event, x: Exchange)
    requires ChainsOk(s.db, s.h) && CacheOk(cfg, s) && e.Refresh? && Enabled(s, e)
    requires Explains(cfg, s, e, x)
    requires var s' := ApplyExchange(cfg, s, e, x); RowsKept(s.db, s'.db) && HistoryGrows(s.h, s'.h)
    ensures CacheOk(cfg, ApplyExchange(cfg, s, e, x))
  {
    if x.Rotated? {
      RotationCache(cfg, s, e, x);
    } else {
      AppliedSame(cfg, s, e, x);
      CacheFrame(cfg, s, ApplyExchange(cfg, s, e, x));
    }
  }

  lemma RotationCache(cfg: Settings, s: Sys, e: Event, x: Exchange)
    requires ChainsOk(s.db, s.h) && CacheOk(cfg, s) && e.Refresh? && Enabled(s, e) && x.Rotated?
    requires Explains(cfg, s, e, x)
    requires var s' := ApplyExchange(cfg, s, e, x); RowsKept(s.db, s'.db) && HistoryGrows(s.h, s'.h)
    ensures CacheOk(cfg, ApplyExchange(cfg, s, e, x))
  {
    RotationFaithful(cfg, s, e, x);
    CacheAfterMinting(cfg, s, ApplyExchange(cfg, s, e, x), e.cell);
  }

  lemma CacheStep(cfg: Settings, s: Sys, e: Event)
    requires CacheOk(cfg, s) && Enabled(s, e) && OnCache(e)
    ensures CacheOk(cfg, StepCache(s, e))
  {
    var s' := StepCache(s, e);
    forall c | c in s'.cells ensures CellOk(cfg, s'.db, s'.h, s'.cells[c]) {
      if c in s.cells { assert CellOk(cfg, s.db, s.h, s.cells[c]); }
    }
  }

  lemma ConsentSame(s: Sys, e: Event, x: Consent)
    requires e.DecideConsent?
    ensures SameCache(s, ApplyConsent(s, e, x)) && SameJobs(s, ApplyConsent(s, e, x))
  {
  }

  lemma IssueSame(s: Sys, e: Event, x: Issue)
    requires e.Redeem?
    ensures SameCache(s, ApplyIssue(s, e, x)) && SameJobs(s, ApplyIssue(s, e, x))
  {
  }

  lemma PolicySame(s: Sys, e: Event)
    requires Enabled(s, e) && OnPolicy(e)
    ensures SameCache(s, StepPolicy(s, e)) && SameJobs(s, StepPolicy(s, e))
  {
  }

  lemma DashboardSame(s: Sys, e: Event)
    requires Enabled(s, e) && OnDashboard(e)
    ensures SameCache(s, StepDashboard(s, e))
  {
  }

  lemma BearerSame(cfg: Settings, s: Sys, e: Event)
    requires Enabled(s, e) && OnBearer(e)
    ensures SameCache(s, StepBearer(cfg, s, e))
  {
    if !e.BearerRead? && !e.BearerCommit? { ReadRows(s, e.job, NextReads(cfg, s, e)); }
  }

  lemma CacheKept(cfg: Settings, s: Sys, e: Event)
    requires ChainInv(s.db, s.h) && CacheOk(cfg, s) && Enabled(s, e)
    requires var s' := Next(cfg, s, e); RowsKept(s.db, s'.db) && HistoryGrows(s.h, s'.h)
    ensures CacheOk(cfg, Next(cfg, s, e))
  {
    if e.Refresh? {
      ExchangeExplained(cfg, s, e);
      AppliedCache(cfg, s, e, ExchangeOf(cfg, s, e));
    } else if OnCache(e) {
      CacheStep(cfg, s, e);
    } else {
      if e.DecideConsent? {
        ConsentSame(s, e, ConsentOf(cfg, s, e));
      } else if e.Redeem? {
        IssueSame(s, e, RedeemOf(cfg, s, e));
      } else if OnDashboard(e) {
        DashboardSame(s, e);
      } else if OnBearer(e) {
        BearerSame(cfg, s, e);
      } else {
        PolicySame(s, e);
      }
      CacheFrame(cfg, s, Next(cfg, s, e));
    }
  }

  // ---------------------------------------------------------------- pending requests

  /** The family of a token never changes. */
  lemma FamilyKeptOfToken(db: Tables, db': Tables, t: Id)
    requires RowsOk(db) && RowsKept(db, db') && t in db.tokens
    ensures t in db'.tokens && DashboardFamily(db', t) == DashboardFamily(db, t)
    ensures db'.tokens[t].user == db.tokens[t].user && db'.tokens[t].kind == db.tokens[t].kind
  {
    assert TokenKept(db, db', t);
    if db.tokens[t].kind == OAuth {
      assert t in db.links;
      assert LinkKept(db, db', t) && RefreshKept(db, db', db.links[t].refresh);
    }
  }

  lemma LinkSeenKept(db: Tables, db': Tables, t: Id, link: AccessLink)
    requires RowsKept(db, db') && LinkSeen(db, t, link)
    ensures LinkSeen(db', t, link)
  {
    assert LinkKept(db, db', t);
  }

  lemma BearerKept(db: Tables, db': Tables, j: BearerJob)
    requires RowsOk(db) && RowsKept(db, db') && BearerOk(db, j)
    ensures BearerOk(db', j)
  {
    FamilyKeptOfToken(db, db', j.token);
    match j.seen
    case SawToken =>
    case SawLink(link) => LinkSeenKept(db, db', j.token, link);
    case SawRefresh(link, _) =>
      LinkSeenKept(db, db', j.token, link);
      assert RefreshKept(db, db', link.refresh);
    case Resolved(_) =>
  }

  lemma JobsFrame(s: Sys, s': Sys)
    requires RowsOk(s.db) && JobsOk(s) && RowsKept(s.db, s'.db)
    requires forall j | j in s'.dashboard :: j in s.dashboard && s'.dashboard[j] == s.dashboard[j]
    requires forall j | j in s'.bearers :: j in s.bearers && s'.bearers[j] == s.bearers[j]
    ensures JobsOk(s')
  {
    forall j | j in s'.dashboard ensures DashboardOk(s'.db, s'.dashboard[j]) {
      assert DashboardOk(s.db, s.dashboard[j]);
      FamilyKeptOfToken(s.db, s'.db, s.dashboard[j].token);
    }
    forall j | j in s'.bearers ensures BearerOk(s'.db, s'.bearers[j]) {
      assert BearerOk(s.db, s.bearers[j]);
      BearerKept(s.db, s'.db, s.bearers[j]);
    }
  }

  lemma SameJobsFrame(s: Sys, s': Sys)
    requires RowsOk(s.db) && JobsOk(s) && RowsKept(s.db, s'.db) && SameJobs(s, s')
    ensures JobsOk(s')
  {
    JobsFrame(s, s');
  }

  lemma DashboardJobs(s: Sys, e: Event)
    requires RowsOk(s.db) && JobsOk(s) && Enabled(s, e) && OnDashboard(e)
    requires RowsKept(s.db, StepDashboard(s, e).db)
    ensures JobsOk(StepDashboard(s, e))
  {
    if e.DashboardCommit? {
      JobsFrame(s, StepDashboard(s, e));
    } else {
      DashboardReads(s, e);
    }
  }

  lemma DashboardReads(s: Sys, e: Event)
    requires RowsOk(s.db) && JobsOk(s) && Enabled(s, e) && (e.DashboardRead? || e.DashboardLookup?)
    ensures JobsOk(StepDashboard(s, e))
  {
    var s' := StepDashboard(s, e);
    assert s'.db == s.db && s'.bearers == s.bearers;
    forall j | j in s'.dashboard ensures DashboardOk(s'.db, s'.dashboard[j]) {
      if j in s.dashboard { assert DashboardOk(s.db, s.dashboard[j]); }
    }
    forall j | j in s'.bearers ensures BearerOk(s'.db, s'.bearers[j]) {
      assert BearerOk(s.db, s.bearers[j]);
    }
  }

  /** Each read of an authentication goes on from what the reads before it saw. */
  lemma ReadsGoOn(cfg: Settings, s: Sys, e: Event)
    requires Enabled(s, e) && (e.BearerLink? || e.BearerRefresh? || e.BearerFamily?)
    requires BearerOk(s.db, s.bearers[e.job]) && NextReads(cfg, s, e).Some?
    ensures BearerOk(s.db, s.bearers[e.job].(seen := NextReads(cfg, s, e).value))
  {
  }

  /** One pending authentication is replaced; the tables stay. */
  lemma OneJob(s: Sys, s': Sys, job: Id)
    requires JobsOk(s) && s'.db == s.db && s'.dashboard == s.dashboard
    requires job in s'.bearers && BearerOk(s.db, s'.bearers[job])
    requires s'.bearers == s.bearers[job := s'.bearers[job]]
    ensures JobsOk(s')
  {
    forall j | j in s'.dashboard ensures DashboardOk(s'.db, s'.dashboard[j]) {
      assert DashboardOk(s.db, s.dashboard[j]);
    }
    forall j | j in s'.bearers ensures BearerOk(s'.db, s'.bearers[j]) {
      if j != job { assert BearerOk(s.db, s.bearers[j]); }
    }
  }

  lemma BearerJobs(cfg: Settings, s: Sys, e: Event)
    requires RowsOk(s.db) && JobsOk(s) && Enabled(s, e) && OnBearer(e)
    requires RowsKept(s.db, StepBearer(cfg, s, e).db)
    ensures JobsOk(StepBearer(cfg, s, e))
  {
    var s' := StepBearer(cfg, s, e);
    if e.BearerCommit? {
      JobsFrame(s, s');
    } else if e.BearerRead? {
      if ActiveToken(s.db, s.dir, e.token, e.now) { OneJob(s, s', e.job); }
    } else {
      ReadJobs(cfg, s, e);
    }
  }

  lemma ReadJobs(cfg: Settings, s: Sys, e: Event)
    requires RowsOk(s.db) && JobsOk(s) && Enabled(s, e) && (e.BearerLink? || e.BearerRefresh? || e.BearerFamily?)
    ensures JobsOk(AfterRead(s, e.job, NextReads(cfg, s, e)))
  {
    var x := NextReads(cfg, s, e);
    if x.Some? {
      assert BearerOk(s.db, s.bearers[e.job]);
      ReadsGoOn(cfg, s, e);
      OneJob(s, AfterRead(s, e.job, x), e.job);
    } else {
      EvolvesRefl(s.db, s.h);
      JobsFrame(s, AfterRead(s, e.job, x));
    }
  }

  lemma CacheJobs(s: Sys, e: Event)
    requires RowsOk(s.db) && JobsOk(s) && Enabled(s, e) && OnCache(e)
    ensures JobsOk(StepCache(s, e))
  {
    EvolvesRefl(s.db, s.h);
    JobsFrame(s, StepCache(s, e));
  }

  /** Transactions that take their locks at once concern no pending request. */
  lemma LockedSame(cfg: Settings, s: Sys, e: Event)
    requires Enabled(s, e) && !OnDashboard(e) && !OnBearer(e) && !OnCache(e)
    ensures SameJobs(s, Next(cfg, s, e))
  {
    if e.DecideConsent? {
      ConsentSame(s, e, ConsentOf(cfg, s, e));
    } else if e.Redeem? {
      IssueSame(s, e, RedeemOf(cfg, s, e));
    } else if e.Refresh? {
      AppliedSame(cfg, s, e, ExchangeOf(cfg, s, e));
    } else {
      PolicySame(s, e);
    }
  }

  lemma JobsKept(cfg: Settings, s: Sys, e: Event)
    requires RowsOk(s.db) && JobsOk(s) && Enabled(s, e)
    requires RowsKept(s.db, Next(cfg, s, e).db)
    ensures JobsOk(Next(cfg, s, e))
  {
    var s' := Next(cfg, s, e);
    if OnDashboard(e) {
      assert s' == StepDashboard(s, e);
      DashboardJobs(s, e);
    } else if OnBearer(e) {
      assert s' == StepBearer(cfg, s, e);
      BearerJobs(cfg, s, e);
    } else if OnCache(e) {
      assert s' == StepCache(s, e);
      CacheJobs(s, e);
    } else {
      LockedSame(cfg, s, e);
      SameJobsFrame(s, s');
    }
    assert JobsOk(s');
  }

  // ---------------------------------------------------------------- one step of the system

  lemma StepKeeps(cfg: Settings, s: Sys, e: Event)
    requires SysInv(cfg, s)
    ensures SysInv(cfg, Next(cfg, s, e))
    ensures Evolves(s.db, s.h, Next(cfg, s, e).db, Next(cfg, s, e).h)
  {
    TablesStep(cfg, s, e);
    if Enabled(s, e) {
      CacheKept(cfg, s, e);
      JobsKept(cfg, s, e);
    }
  }

  lemma InitialKeeps(cfg: Settings, s: Sys)
    requires Initial(s)
    ensures SysInv(cfg, s)
  {
  }
}
