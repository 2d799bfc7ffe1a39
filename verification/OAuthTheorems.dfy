/** Guarantees over every run of the protocol, whatever the interleaving. */
module OAuthTheorems {
  import opened Prelude
  import opened OAuthTables
  import opened OAuthTransactions
  import opened OAuthInvariant
  import opened OAuthIssuance
  import opened OAuthRevocation
  import opened OAuthPolicy
  import opened OAuthMonotone
  import opened OAuthProtocol
  import opened OAuthSafety
  import opened OAuthOutcomes

  /** A run starts in a state satisfying the invariant, a fresh installation for instance
      (OAuthSafety.InitialKeeps), and takes any steps. */
  ghost predicate Run(cfg: Settings, ss: seq<Sys>, es: seq<Event>) {
    |ss| == |es| + 1 && SysInv(cfg, ss[0]) &&
    forall i {:trigger Next(cfg, ss[i], es[i])} | 0 <= i < |es| ::
      ss[i + 1] == Next(cfg, ss[i], es[i])
  }

  lemma RunStep(cfg: Settings, ss: seq<Sys>, es: seq<Event>, i: nat)
    requires Run(cfg, ss, es) && i < |es| && SysInv(cfg, ss[i])
    ensures SysInv(cfg, ss[i + 1])
    ensures Evolves(ss[i].db, ss[i].h, ss[i + 1].db, ss[i + 1].h)
  {
    assert ss[i + 1] == Next(cfg, ss[i], es[i]);
    StepKeeps(cfg, ss[i], es[i]);
  }

  lemma {:induction false} RunKeeps(cfg: Settings, ss: seq<Sys>, es: seq<Event>, i: nat)
    requires Run(cfg, ss, es) && i < |ss|
    ensures SysInv(cfg, ss[i])
  {
    if i > 0 {
      RunKeeps(cfg, ss, es, i - 1);
      RunStep(cfg, ss, es, i - 1);
    }
  }

  lemma RunEvolvesOnce(cfg: Settings, ss: seq<Sys>, es: seq<Event>, i: nat)
    requires Run(cfg, ss, es) && i < |es|
    ensures Evolves(ss[i].db, ss[i].h, ss[i + 1].db, ss[i + 1].h)
  {
    RunKeeps(cfg, ss, es, i);
    RunStep(cfg, ss, es, i);
  }

  lemma EvolvesFurther(cfg: Settings, ss: seq<Sys>, es: seq<Event>, i: nat, j: nat)
    requires Run(cfg, ss, es) && i < j < |ss| && Evolves(ss[i].db, ss[i].h, ss[j - 1].db, ss[j - 1].h)
    ensures Evolves(ss[i].db, ss[i].h, ss[j].db, ss[j].h)
  {
    var a, b, c := ss[i], ss[j - 1], ss[j];
    assert c == ss[j - 1 + 1];
    RunEvolvesOnce(cfg, ss, es, j - 1);
    EvolvesTwice(a.db, a.h, b.db, b.h, c.db, c.h);
  }

  lemma {:induction false} RunEvolves(cfg: Settings, ss: seq<Sys>, es: seq<Event>, i: nat, j: nat)
    requires Run(cfg, ss, es) && i <= j < |ss|
    ensures Evolves(ss[i].db, ss[i].h, ss[j].db, ss[j].h)
  {
    if i == j {
      EvolvesRefl(ss[i].db, ss[i].h);
    } else {
      RunEvolves(cfg, ss, es, i, j - 1);
      EvolvesFurther(cfg, ss, es, i, j);
    }
  }

  // ---------------------------------------------------------------- linear chains

  /** One unrotated head, and one usable access token while unrevoked, none once revoked. */
  ghost predicate OneHeadOneToken(db: Tables, h: History, f: Id, r: Id, t: Id)
    requires f in db.families
  {
    f in h.chains && ChainOk(db, f, h.chains[f]) &&
    var head := h.chains[f][|h.chains[f]| - 1];
    head in db.refreshes &&
    ((r in db.refreshes && db.refreshes[r].family == f && db.refreshes[r].rotatedAt.None?)
      <==> r == head) &&
    ((t in db.tokens && FamilyOfToken(db, t) == Some(f) && db.tokens[t].enabled)
      <==> (db.families[f].revokedAt.None? && db.refreshes[head].mcpToken == Some(t)))
  }

  lemma ChainsHaveOneHead(db: Tables, h: History, f: Id, r: Id, t: Id)
    requires RowsOk(db) && ChainsOk(db, h) && f in db.families
    ensures OneHeadOneToken(db, h, f, r, t)
  {
    assert ChainOk(db, f, h.chains[f]);
    assert h.chains[f][|h.chains[f]| - 1] in h.chains[f];
    OneHead(db, h, f, r);
    if db.families[f].revokedAt.None? {
      OneLiveToken(db, h, f, t);
    } else {
      RevokedIsClosed(db, h, f);
    }
  }

  /** In every reachable state each family is one linear chain. */
  lemma FamiliesAreChains(cfg: Settings, ss: seq<Sys>, es: seq<Event>, i: nat, f: Id, r: Id, t: Id)
    requires Run(cfg, ss, es) && i < |ss| && f in ss[i].db.families
    ensures OneHeadOneToken(ss[i].db, ss[i].h, f, r, t)
  {
    RunKeeps(cfg, ss, es, i);
    ChainsHaveOneHead(ss[i].db, ss[i].h, f, r, t);
  }

  // ---------------------------------------------------------------- revocation is final

  lemma RevocationIsFinal(cfg: Settings, ss: seq<Sys>, es: seq<Event>, i: nat, j: nat, f: Id)
    requires Run(cfg, ss, es) && i <= j < |ss|
    requires f in ss[i].db.families && ss[i].db.families[f].revokedAt.Some?
    ensures f in ss[j].db.families && ss[j].db.families[f] == ss[i].db.families[f]
    ensures Closed(ss[j].db, f)
    ensures forall r ::
              (r in ss[j].db.refreshes && ss[j].db.refreshes[r].family == f) <==>
              (r in ss[i].db.refreshes && ss[i].db.refreshes[r].family == f)
  {
    RunKeeps(cfg, ss, es, j);
    RunEvolves(cfg, ss, es, i, j);
    assert FamilyKept(ss[i].db, ss[j].db, f);
    RevokedIsClosed(ss[j].db, ss[j].h, f);
    forall r
      ensures (r in ss[j].db.refreshes && ss[j].db.refreshes[r].family == f) <==>
              (r in ss[i].db.refreshes && ss[i].db.refreshes[r].family == f)
    {
      if r in ss[i].db.refreshes { assert RefreshKept(ss[i].db, ss[j].db, r); }
    }
  }

  /** An enabled OAuth token belongs to an unrevoked family. */
  lemma EnabledIsLive(db: Tables, h: History, t: Id, f: Id)
    requires RowsOk(db) && ChainsOk(db, h) && t in db.tokens && db.tokens[t].enabled
    requires DashboardFamily(db, t) == Some(f)
    ensures f in db.families && db.families[f].revokedAt.None?
  {
    DashboardFamilyKnown(db, t);
    assert Linked(db, db.links[t].refresh);
    if db.families[f].revokedAt.Some? { RevokedIsClosed(db, h, f); }
  }

  /** What an authentication reports is what its token row says at the commit. */
  lemma AuthenticatedRow(s: Sys, e: Event)
    requires JobsOk(s) && Authenticated(s, e).Some?
    ensures var who, db := Authenticated(s, e).value, s.db;
            who.token in db.tokens && who.user == db.tokens[who.token].user &&
            db.tokens[who.token].enabled && db.tokens[who.token].revokedAt.None? &&
            who.family == DashboardFamily(db, who.token)
  {
    assert BearerOk(s.db, s.bearers[e.job]);
  }

  /** A bearer request that succeeds reports its token's own family, unrevoked at that instant. */
  lemma AuthenticationIsLive(cfg: Settings, ss: seq<Sys>, es: seq<Event>, i: nat)
    requires Run(cfg, ss, es) && i < |es| && Authenticated(ss[i], es[i]).Some?
    ensures var who, db := Authenticated(ss[i], es[i]).value, ss[i].db;
            who.token in db.tokens && who.user == db.tokens[who.token].user &&
            db.tokens[who.token].enabled && who.family == DashboardFamily(db, who.token) &&
            (who.family.Some? ==>
              who.family.value in db.families && db.families[who.family.value].revokedAt.None?)
  {
    RunKeeps(cfg, ss, es, i);
    AuthenticatedRow(ss[i], es[i]);
    var who := Authenticated(ss[i], es[i]).value;
    if who.family.Some? { EnabledIsLive(ss[i].db, ss[i].h, who.token, who.family.value); }
  }

  /** After the revoking commit no bearer request of the family succeeds, however early it
      read the token, its link and the family. */
  lemma NoAuthenticationAfterRevocation(cfg: Settings, ss: seq<Sys>, es: seq<Event>, i: nat, j: nat,
                                        f: Id)
    requires Run(cfg, ss, es) && i <= j < |es|
    requires f in ss[i].db.families && ss[i].db.families[f].revokedAt.Some?
    ensures Authenticated(ss[j], es[j]).Some? ==> Authenticated(ss[j], es[j]).value.family != Some(f)
  {
    if Authenticated(ss[j], es[j]).Some? {
      AuthenticationIsLive(cfg, ss, es, j);
      RevocationIsFinal(cfg, ss, es, i, j, f);
    }
  }

  /** Nor does any request with a token that was itself revoked, static tokens included. */
  lemma NoAuthenticationOfRevokedToken(cfg: Settings, ss: seq<Sys>, es: seq<Event>, i: nat, j: nat,
                                       t: Id)
    requires Run(cfg, ss, es) && i <= j < |es|
    requires t in ss[i].db.tokens && ss[i].db.tokens[t].revokedAt.Some?
    ensures Authenticated(ss[j], es[j]).Some? ==> Authenticated(ss[j], es[j]).value.token != t
  {
    RunEvolves(cfg, ss, es, i, j);
    assert TokenKept(ss[i].db, ss[j].db, t);
    if Authenticated(ss[j], es[j]).Some? {
      RunKeeps(cfg, ss, es, j);
      AuthenticatedRow(ss[j], es[j]);
    }
  }

  /** The identity to which an HTTP session is bound: the grant's family, or a static token itself. */
  datatype ClientIdentity = OfFamily(family: Id) | OfToken(token: Id)

  function SessionIdentity(who: Identity): ClientIdentity {
    if who.family.Some? then OfFamily(who.family.value) else OfToken(who.token)
  }

  /** The access token that replaced a record's token belongs to the record's family. */
  lemma SuccessorFamily(db: Tables, h: History, r: Id)
    requires ChainInv(db, h) && r in h.minted
    ensures r in db.refreshes && db.refreshes[r].mcpToken.Some?
    ensures TokenOf(db, r) in db.tokens && DashboardFamily(db, TokenOf(db, r)) == Some(db.refreshes[r].family)
    ensures h.minted[r].access in db.tokens &&
            DashboardFamily(db, h.minted[r].access) == Some(db.refreshes[r].family)
  {
    assert Linked(db, r);
    var f := db.refreshes[r].family;
    var c := h.chains[f];
    assert ChainOk(db, f, c);
    assert r in c;
    var i :| 0 <= i < |c| && c[i] == r;
    assert MintsNext(db, h, c, i);
    assert c[i + 1] in c && Linked(db, c[i + 1]);
  }

  /** A session survives rotation: the successor token authenticates as the same identity. */
  lemma SuccessorKeepsIdentity(cfg: Settings, ss: seq<Sys>, es: seq<Event>, i: nat, j: nat, r: Id)
    requires Run(cfg, ss, es) && i <= j < |es|
    requires Authenticated(ss[i], es[i]).Some? && Authenticated(ss[j], es[j]).Some?
    requires r in ss[j].h.minted && r in ss[j].db.refreshes
    requires ss[j].db.refreshes[r].mcpToken == Some(Authenticated(ss[i], es[i]).value.token)
    requires ss[j].h.minted[r].access == Authenticated(ss[j], es[j]).value.token
    ensures SessionIdentity(Authenticated(ss[i], es[i]).value) == SessionIdentity(Authenticated(ss[j], es[j]).value)
  {
    AuthenticationIsLive(cfg, ss, es, i);
    AuthenticationIsLive(cfg, ss, es, j);
    DashboardFamilyStays(cfg, ss, es, i, j, Authenticated(ss[i], es[i]).value.token);
    RunKeeps(cfg, ss, es, j);
    SuccessorFamily(ss[j].db, ss[j].h, r);
  }

  // ---------------------------------------------------------------- the Dashboard race

  lemma DashboardCommitCloses(cfg: Settings, s: Sys, e: Event)
    requires RowsOk(s.db) && JobsOk(s) && e.DashboardCommit? && Enabled(s, e)
    ensures var t := s.dashboard[e.job].token;
            t in s.db.tokens &&
            var f := DashboardFamily(s.db, t);
            f.Some? ==> f.value in Next(cfg, s, e).db.families &&
                        Next(cfg, s, e).db.families[f.value].revokedAt.Some?
  {
    assert DashboardOk(s.db, s.dashboard[e.job]);
    DashboardFamilyKnown(s.db, s.dashboard[e.job].token);
  }

  /** The Dashboard read an access token of family f at step i and committed at step j. Whatever
      rotated in between, the whole family is closed afterwards, records added meanwhile included. */
  lemma DashboardBeatsRotation(cfg: Settings, ss: seq<Sys>, es: seq<Event>, i: nat, j: nat, t: Id, f: Id)
    requires Run(cfg, ss, es) && i < j < |es|
    requires t in ss[i].db.tokens && DashboardFamily(ss[i].db, t) == Some(f)
    requires es[j].DashboardCommit? && Enabled(ss[j], es[j]) && ss[j].dashboard[es[j].job].token == t
    ensures Closed(ss[j + 1].db, f)
    ensures forall r | r in ss[j].db.refreshes && ss[j].db.refreshes[r].family == f ::
              r in ss[j + 1].db.refreshes && ss[j + 1].db.refreshes[r].family == f
  {
    DashboardFamilyStays(cfg, ss, es, i, j, t);
    CommitCloses(cfg, ss, es, j);
    RecordsStay(cfg, ss, es, j, f);
  }

  lemma DashboardFamilyStays(cfg: Settings, ss: seq<Sys>, es: seq<Event>, i: nat, j: nat, t: Id)
    requires Run(cfg, ss, es) && i <= j < |ss| && t in ss[i].db.tokens
    ensures t in ss[j].db.tokens && DashboardFamily(ss[j].db, t) == DashboardFamily(ss[i].db, t)
  {
    RunKeeps(cfg, ss, es, i);
    RunEvolves(cfg, ss, es, i, j);
    FamilyKeptOfToken(ss[i].db, ss[j].db, t);
  }

  lemma CommitCloses(cfg: Settings, ss: seq<Sys>, es: seq<Event>, j: nat)
    requires Run(cfg, ss, es) && j < |es| && es[j].DashboardCommit? && Enabled(ss[j], es[j])
    ensures var t := ss[j].dashboard[es[j].job].token;
            t in ss[j].db.tokens &&
            (DashboardFamily(ss[j].db, t).Some? ==>
              Closed(ss[j + 1].db, DashboardFamily(ss[j].db, t).value))
  {
    RunKeeps(cfg, ss, es, j);
    RunStep(cfg, ss, es, j);
    assert ss[j + 1] == Next(cfg, ss[j], es[j]);
    DashboardCommitCloses(cfg, ss[j], es[j]);
    var t := ss[j].dashboard[es[j].job].token;
    if DashboardFamily(ss[j].db, t).Some? {
      RevokedIsClosed(ss[j + 1].db, ss[j + 1].h, DashboardFamily(ss[j].db, t).value);
    }
  }

  lemma RecordsStay(cfg: Settings, ss: seq<Sys>, es: seq<Event>, j: nat, f: Id)
    requires Run(cfg, ss, es) && j < |es|
    ensures forall r | r in ss[j].db.refreshes && ss[j].db.refreshes[r].family == f ::
              r in ss[j + 1].db.refreshes && ss[j + 1].db.refreshes[r].family == f
  {
    RunEvolves(cfg, ss, es, j, j + 1);
    forall r | r in ss[j].db.refreshes && ss[j].db.refreshes[r].family == f
      ensures r in ss[j + 1].db.refreshes && ss[j + 1].db.refreshes[r].family == f
    {
      assert RefreshKept(ss[j].db, ss[j + 1].db, r);
    }
  }

  // ---------------------------------------------------------------- one successor per token

  /** A pair handed out for a refresh token is the pair minted when that token was rotated. */
  lemma ReturnedIsMinted(cfg: Settings, s: Sys, e: Event)
    requires SysInv(cfg, s) && PairReturned(cfg, s, e).Some?
    ensures var r, h' := s.cells[e.cell].refresh, Next(cfg, s, e).h;
            r in h'.minted && h'.minted[r] == PairReturned(cfg, s, e).value
  {
    var x := ExchangeOf(cfg, s, e);
    ExchangeExplained(cfg, s, e);
    if x.Recovered? {
      RecoveredIsFilled(cfg, s, e);
      assert CellOk(cfg, s.db, s.h, s.cells[e.cell]);
    }
  }

  lemma RecoveredIsFilled(cfg: Settings, s: Sys, e: Event)
    requires e.Refresh? && e.cell in s.cells && ExchangeOf(cfg, s, e).Recovered?
    ensures s.cells[e.cell].filled.Some? &&
            ExchangeOf(cfg, s, e).token == s.cells[e.cell].filled.value.token
  {
  }

  lemma ReturnedInRun(cfg: Settings, ss: seq<Sys>, es: seq<Event>, i: nat)
    requires Run(cfg, ss, es) && i < |es| && PairReturned(cfg, ss[i], es[i]).Some?
    ensures var r := ss[i].cells[es[i].cell].refresh;
            r in ss[i + 1].h.minted && ss[i + 1].h.minted[r] == PairReturned(cfg, ss[i], es[i]).value
  {
    RunKeeps(cfg, ss, es, i);
    assert ss[i + 1] == Next(cfg, ss[i], es[i]);
    ReturnedIsMinted(cfg, ss[i], es[i]);
  }

  lemma MintedStays(cfg: Settings, ss: seq<Sys>, es: seq<Event>, i: nat, j: nat, r: Id)
    requires Run(cfg, ss, es) && i <= j < |ss| && r in ss[i].h.minted
    ensures r in ss[j].h.minted && ss[j].h.minted[r] == ss[i].h.minted[r]
  {
    RunEvolves(cfg, ss, es, i, j);
  }

  /** However often a refresh token is presented in a run, every successful answer is the same pair. */
  lemma OneSuccessorPair(cfg: Settings, ss: seq<Sys>, es: seq<Event>, i: nat, j: nat)
    requires Run(cfg, ss, es) && i <= j < |es|
    requires PairReturned(cfg, ss[i], es[i]).Some? && PairReturned(cfg, ss[j], es[j]).Some?
    requires ss[i].cells[es[i].cell].refresh == ss[j].cells[es[j].cell].refresh
    ensures PairReturned(cfg, ss[i], es[i]) == PairReturned(cfg, ss[j], es[j])
  {
    ReturnedInRun(cfg, ss, es, i);
    ReturnedInRun(cfg, ss, es, j);
    MintedStays(cfg, ss, es, i + 1, j + 1, ss[i].cells[es[i].cell].refresh);
  }

  // ---------------------------------------------------------------- recovery over a run

  /** r is presented by a request that holds the entry c. */
  predicate Presents(s: Sys, e: Event, c: Id, r: Id) {
    e.Refresh? && Enabled(s, e) && e.cell == c && s.cells[c].refresh == r
  }

  predicate Rotates(cfg: Settings, s: Sys, e: Event, c: Id, r: Id) {
    Presents(s, e, c, r) && ExchangeOf(cfg, s, e).Rotated?
  }

  /** The entry was made for r and holds, or is about to hold, an answer. */
  ghost predicate Holds(s: Sys, c: Id, r: Id) {
    c in s.cells && s.cells[c].refresh == r && (s.cells[c].filled.Some? || s.cells[c].pending.Some?)
  }

  /** Neither the process nor the request that rotated ended before the entry was filled. */
  predicate Spares(e: Event, c: Id) {
    !e.Restart? && e != Abandon(c)
  }

  lemma RotationHolds(cfg: Settings, s: Sys, e: Event, c: Id, r: Id)
    requires Rotates(cfg, s, e, c, r)
    ensures Holds(Next(cfg, s, e), c, r)
  {
    MintingHolds(cfg, s, e, ExchangeOf(cfg, s, e));
  }

  /** The same over the steps from i up to j. */
  predicate Spared(es: seq<Event>, i: nat, j: nat, c: Id)
    requires j <= |es|
  {
    forall k | i <= k < j :: Spares(es[k], c)
  }

  lemma MintingHolds(cfg: Settings, s: Sys, e: Event, x: Exchange)
    requires e.Refresh? && Enabled(s, e) && x.Rotated?
    ensures Holds(ApplyExchange(cfg, s, e, x), e.cell, s.cells[e.cell].refresh)
  {
  }

  lemma RotationRunHolds(cfg: Settings, ss: seq<Sys>, es: seq<Event>, i: nat, c: Id, r: Id)
    requires Run(cfg, ss, es) && i < |es| && Rotates(cfg, ss[i], es[i], c, r)
    ensures Holds(ss[i + 1], c, r)
  {
    assert ss[i + 1] == Next(cfg, ss[i], es[i]);
    RotationHolds(cfg, ss[i], es[i], c, r);
  }

  lemma ExchangeHolds(cfg: Settings, s: Sys, e: Event, x: Exchange, c: Id, r: Id)
    requires e.Refresh? && e.cell in s.cells && Holds(s, c, r)
    ensures Holds(ApplyExchange(cfg, s, e, x), c, r)
  {
  }

  lemma CacheHolds(s: Sys, e: Event, c: Id, r: Id)
    requires OnCache(e) && Enabled(s, e) && Holds(s, c, r) && Spares(e, c)
    ensures Holds(StepCache(s, e), c, r)
  {
  }

  /** Only exchanges and cache steps touch entries. */
  lemma OthersSame(cfg: Settings, s: Sys, e: Event)
    requires Enabled(s, e) && !e.Refresh? && !OnCache(e)
    ensures SameCache(s, Next(cfg, s, e))
  {
    if e.DecideConsent? {
      ConsentSame(s, e, ConsentOf(cfg, s, e));
    } else if e.Redeem? {
      IssueSame(s, e, RedeemOf(cfg, s, e));
    } else if OnDashboard(e) {
      DashboardSame(s, e);
    } else if OnBearer(e) {
      BearerSame(cfg, s, e);
    } else {
      PolicySame(s, e);
    }
  }

  lemma StepHolds(cfg: Settings, s: Sys, e: Event, c: Id, r: Id)
    requires Holds(s, c, r) && Spares(e, c)
    ensures Holds(Next(cfg, s, e), c, r)
  {
    if Enabled(s, e) {
      if e.Refresh? {
        ExchangeHolds(cfg, s, e, ExchangeOf(cfg, s, e), c, r);
      } else if OnCache(e) {
        CacheHolds(s, e, c, r);
      } else {
        OthersSame(cfg, s, e);
      }
    }
  }

  lemma {:induction false} RunHolds(cfg: Settings, ss: seq<Sys>, es: seq<Event>, i: nat, j: nat, c: Id, r: Id)
    requires Run(cfg, ss, es) && i <= j < |ss| && Holds(ss[i], c, r)
    requires Spared(es, i, j, c)
    ensures Holds(ss[j], c, r)
  {
    if i < j {
      RunHolds(cfg, ss, es, i, j - 1, c, r);
      assert ss[j] == Next(cfg, ss[j - 1], es[j - 1]);
      StepHolds(cfg, ss[j - 1], es[j - 1], c, r);
    }
  }

  lemma HeldIsFilled(cfg: Settings, ss: seq<Sys>, es: seq<Event>, i: nat, j: nat, c: Id, r: Id)
    requires Run(cfg, ss, es) && i <= j < |es| && Holds(ss[i], c, r) && Spared(es, i, j, c)
    requires es[j].Refresh? && Enabled(ss[j], es[j]) && es[j].cell == c
    ensures Presents(ss[j], es[j], c, r) && ss[j].cells[c].filled.Some?
  {
    RunHolds(cfg, ss, es, i, j, c, r);
  }

  /** Unless the process or the rotating request ended in between, whoever later takes the lock of the
      entry a rotation went through finds it filled. */
  lemma RotatedEntryIsFilled(cfg: Settings, ss: seq<Sys>, es: seq<Event>, i: nat, j: nat, c: Id, r: Id)
    requires Run(cfg, ss, es) && i < j < |es| && Rotates(cfg, ss[i], es[i], c, r)
    requires Spared(es, i + 1, j, c)
    requires es[j].Refresh? && Enabled(ss[j], es[j]) && es[j].cell == c
    ensures Presents(ss[j], es[j], c, r) && ss[j].cells[c].filled.Some?
  {
    RotationRunHolds(cfg, ss, es, i, c, r);
    HeldIsFilled(cfg, ss, es, i + 1, j, c, r);
  }

  lemma FilledAnswers(cfg: Settings, s: Sys, e: Event)
    requires SysInv(cfg, s) && e.Refresh? && Enabled(s, e) && MayRecover(cfg, s, e)
    requires s.cells[e.cell].filled.Some?
    ensures PairReturned(cfg, s, e).Some?
  {
    FilledUntil(cfg, s, e.cell);
    RecoveryOutcome(cfg, s, e);
  }

  lemma RotationAnswers(cfg: Settings, s: Sys, e: Event, c: Id, r: Id)
    requires Rotates(cfg, s, e, c, r)
    ensures PairReturned(cfg, s, e).Some?
  {
  }

  /** Then a duplicate inside the grace window gets the very pair that the rotation returned. */
  lemma DuplicateGetsThePair(cfg: Settings, ss: seq<Sys>, es: seq<Event>, i: nat, j: nat, c: Id, r: Id)
    requires Run(cfg, ss, es) && i < j < |es| && Rotates(cfg, ss[i], es[i], c, r)
    requires Spared(es, i + 1, j, c)
    requires es[j].Refresh? && Enabled(ss[j], es[j]) && es[j].cell == c && MayRecover(cfg, ss[j], es[j])
    ensures PairReturned(cfg, ss[i], es[i]).Some?
    ensures PairReturned(cfg, ss[j], es[j]) == PairReturned(cfg, ss[i], es[i])
  {
    RotatedEntryIsFilled(cfg, ss, es, i, j, c, r);
    RunKeeps(cfg, ss, es, j);
    FilledAnswers(cfg, ss[j], es[j]);
    RotationAnswers(cfg, ss[i], es[i], c, r);
    OneSuccessorPair(cfg, ss, es, i, j);
  }

  /** The entry that a lookup hands to a request. */
  function Handed(s: Sys, e: Event): Id
    requires e.TakeCell?
  {
    if e.refresh in s.resident then s.resident[e.refresh] else e.entry
  }

  /** The process goes on and the entry of r is not evicted. */
  predicate Retains(e: Event, r: Id) {
    !e.Restart? && e != Evict(r)
  }

  predicate Retained(es: seq<Event>, i: nat, j: nat, r: Id)
    requires j <= |es|
  {
    forall k | i <= k < j :: Retains(es[k], r)
  }

  lemma StepStaysResident(cfg: Settings, s: Sys, e: Event, r: Id)
    requires r in s.resident && Retains(e, r)
    ensures r in Next(cfg, s, e).resident && Next(cfg, s, e).resident[r] == s.resident[r]
  {
    if Enabled(s, e) {
      if e.Refresh? {
        ExchangeResident(cfg, s, e, ExchangeOf(cfg, s, e));
      } else if !OnCache(e) {
        OthersSame(cfg, s, e);
      }
    }
  }

  lemma ExchangeResident(cfg: Settings, s: Sys, e: Event, x: Exchange)
    requires e.Refresh? && e.cell in s.cells
    ensures ApplyExchange(cfg, s, e, x).resident == s.resident
  {
  }

  lemma {:induction false} RunStaysResident(cfg: Settings, ss: seq<Sys>, es: seq<Event>, i: nat, j: nat, r: Id)
    requires Run(cfg, ss, es) && i <= j < |ss| && r in ss[i].resident
    requires Retained(es, i, j, r)
    ensures r in ss[j].resident && ss[j].resident[r] == ss[i].resident[r]
  {
    if i < j {
      RunStaysResident(cfg, ss, es, i, j - 1, r);
      assert ss[j] == Next(cfg, ss[j - 1], es[j - 1]);
      StepStaysResident(cfg, ss[j - 1], es[j - 1], r);
    }
  }

  /** While the entry of a refresh token is resident, a lookup makes no other one: it hands that entry out
      and changes nothing. */
  lemma ResidentIsHandedOut(cfg: Settings, ss: seq<Sys>, es: seq<Event>, i: nat, k: nat, r: Id)
    requires Run(cfg, ss, es) && i <= k < |es| && r in ss[i].resident
    requires Retained(es, i, k, r)
    requires es[k].TakeCell? && es[k].refresh == r
    ensures Handed(ss[k], es[k]) == ss[i].resident[r] && ss[k + 1] == ss[k]
    ensures Handed(ss[k], es[k]) in ss[k].cells && ss[k].cells[Handed(ss[k], es[k])].refresh == r
  {
    RunStaysResident(cfg, ss, es, i, k, r);
    RunKeeps(cfg, ss, es, k);
    assert ss[k + 1] == Next(cfg, ss[k], es[k]);
  }

  lemma HandedOutAfter(cfg: Settings, ss: seq<Sys>, es: seq<Event>, i: nat, k: nat, r: Id)
    requires Run(cfg, ss, es) && i < k < |es| && es[i].Refresh? && r in ss[i].resident
    requires Retained(es, i + 1, k, r) && es[k].TakeCell? && es[k].refresh == r
    ensures Handed(ss[k], es[k]) == ss[i].resident[r]
  {
    assert ss[i + 1] == Next(cfg, ss[i], es[i]);
    StepStaysResident(cfg, ss[i], es[i], r);
    ResidentIsHandedOut(cfg, ss, es, i + 1, k, r);
  }

  /** The whole promise: es[i] rotates r through its resident entry, es[k] looks r up while it is still
      resident, and es[j] presents r through what the lookup handed out. Inside the grace window the answer
      is the pair the rotation returned. */
  lemma LookupRecoversThePair(cfg: Settings, ss: seq<Sys>, es: seq<Event>, i: nat, k: nat, j: nat, c: Id, r: Id)
    requires Run(cfg, ss, es) && i < k < j < |es| && Rotates(cfg, ss[i], es[i], c, r)
    requires r in ss[i].resident && ss[i].resident[r] == c && es[k].TakeCell? && es[k].refresh == r
    requires Retained(es, i + 1, k, r)
    requires Spared(es, i + 1, j, c)
    requires es[j].Refresh? && Enabled(ss[j], es[j]) && es[j].cell == Handed(ss[k], es[k])
    requires MayRecover(cfg, ss[j], es[j])
    ensures PairReturned(cfg, ss[i], es[i]).Some?
    ensures PairReturned(cfg, ss[j], es[j]) == PairReturned(cfg, ss[i], es[i])
  {
    HandedOutAfter(cfg, ss, es, i, k, r);
    DuplicateGetsThePair(cfg, ss, es, i, j, c, r);
  }

  // ---------------------------------------------------------------- authority only shrinks

  /** What a rotation gives its successor: the predecessor's grants, cut down to what is effective
      now, and an access token that ends no later than the grant. */
  ghost predicate Inherits(db: Tables, db': Tables, r: Id, pair: FreshPair, issueNow: Time) {
    r in db.refreshes && pair.refresh in db'.refreshes && pair.access in db'.tokens &&
    var rec := db.refreshes[r];
    rec.mcpToken.Some? && Continues(rec, db'.refreshes[pair.refresh]) &&
    GrantsOf(db', pair.access) ==
      GrantsOf(db, rec.mcpToken.value) * EffectiveTools(db, rec.user) &&
    GrantsOf(db', pair.access) != {} &&
    db'.tokens[pair.access].expiresAt.Some? &&
    issueNow + SECOND <= db'.tokens[pair.access].expiresAt.value <= rec.expiresAt
  }

  lemma RotateInherits(db: Tables, dir: Directory, cfg: Settings, r: Id, scopes: seq<Scope>,
                       now: Time, issueNow: Time, pair: FreshPair)
    requires r in db.refreshes && Linked(db, r) && ScopesWithin(scopes, db.refreshes[r].scopes)
    requires Rotate(db, dir, cfg, r, scopes, now, issueNow, pair).Issued?
    ensures Inherits(db, Rotate(db, dir, cfg, r, scopes, now, issueNow, pair).db, r, pair, issueNow)
  {
    var mid := Retire(db, r, now);
    assert EffectiveTools(mid, db.refreshes[r].user) == EffectiveTools(db, db.refreshes[r].user);
  }

  lemma RotatedTables(cfg: Settings, s: Sys, e: Event, x: Exchange)
    requires e.Refresh? && Enabled(s, e) && x == ExchangeOf(cfg, s, e) && x.Rotated?
    ensures Next(cfg, s, e).db == x.db
  {
  }

  lemma RotationNarrows(cfg: Settings, s: Sys, e: Event)
    requires RowsOk(s.db) && e.Refresh? && Enabled(s, e) && ExchangeOf(cfg, s, e).Rotated?
    ensures Inherits(s.db, Next(cfg, s, e).db, s.cells[e.cell].refresh, e.pair, e.issueNow)
  {
    ExchangeExplained(cfg, s, e);
    RotatedTables(cfg, s, e, ExchangeOf(cfg, s, e));
    var r := s.cells[e.cell].refresh;
    assert Linked(s.db, r);
    RotateInherits(s.db, s.dir, cfg, r, e.scopes, e.now, e.issueNow, e.pair);
  }

  /** Over a whole run, what a token may do never exceeds the consent it stems from plus its
      owner's own grant edits; scopes, lifetime, client and user stay those of the consent. */
  lemma AuthorityWithinConsent(cfg: Settings, ss: seq<Sys>, es: seq<Event>, i: nat, r: Id)
    requires Run(cfg, ss, es) && i < |ss| && r in ss[i].db.refreshes
    ensures var db, h := ss[i].db, ss[i].h;
            var rec := db.refreshes[r];
            rec.mcpToken.Some? && rec.family in h.codeOf && h.codeOf[rec.family] in db.codes &&
            rec.family in h.edits &&
            var code := db.codes[h.codeOf[rec.family]];
            rec.user == code.user && rec.client == code.client &&
            ScopesWithin(rec.scopes, code.scopes) && code.refreshExpiresAt == Some(rec.expiresAt) &&
            GrantsOf(db, rec.mcpToken.value) <= code.tools + h.edits[rec.family] &&
            rec.mcpToken.value in db.tokens && db.tokens[rec.mcpToken.value].expiresAt.Some? &&
            db.tokens[rec.mcpToken.value].expiresAt.value <= rec.expiresAt
  {
    RunKeeps(cfg, ss, es, i);
    assert WithinConsent(ss[i].db, ss[i].h, r) && Linked(ss[i].db, r);
  }

  lemma PolicyEdits(s: Sys, e: Event, f: Id)
    requires Enabled(s, e) && f in s.h.edits && OnPolicy(e)
    requires f in StepPolicy(s, e).h.edits && StepPolicy(s, e).h.edits[f] != s.h.edits[f]
    ensures e.SetGrants? && FamilyOfToken(s.db, e.token) == Some(f) && e.tools <= AllowancesOf(s.db, e.user) &&
            StepPolicy(s, e).h.edits[f] == s.h.edits[f] + e.tools
  {
  }

  /** An exchange records the pair it mints and nothing about consent. */
  lemma ExchangeRecords(cfg: Settings, s: Sys, e: Event, x: Exchange)
    requires e.Refresh? && e.cell in s.cells
    ensures ApplyExchange(cfg, s, e, x).h.edits == s.h.edits
    ensures ApplyExchange(cfg, s, e, x).h.codeOf == s.h.codeOf
    ensures ApplyExchange(cfg, s, e, x).h.requestOf == s.h.requestOf
  {
  }

  lemma ConsentRecords(s: Sys, e: Event, x: Consent)
    requires e.DecideConsent?
    ensures ApplyConsent(s, e, x).h == if x.Approved? then AfterApproval(s.h, x.code, e.request) else s.h
  {
  }

  lemma IssueRecords(s: Sys, e: Event, x: Issue)
    requires e.Redeem?
    ensures ApplyIssue(s, e, x).h ==
            if x.Issued? then AfterRedemption(s.h, e.family, e.storedCode.record, x.token) else s.h
  {
  }

  /** Cache, Dashboard and bearer steps record nothing. */
  lemma UnrecordedSteps(cfg: Settings, s: Sys, e: Event)
    requires Enabled(s, e) && (OnCache(e) || OnDashboard(e) || OnBearer(e))
    ensures Next(cfg, s, e).h == s.h
  {
    if OnBearer(e) && !e.BearerRead? && !e.BearerCommit? { ReadRows(s, e.job, NextReads(cfg, s, e)); }
  }

  /** The steps that are neither redemptions nor policy changes leave the recorded edits alone. */
  lemma QuietEdits(cfg: Settings, s: Sys, e: Event)
    requires !e.Redeem? && !OnPolicy(e)
    ensures Next(cfg, s, e).h.edits == s.h.edits
  {
    if Enabled(s, e) {
      if e.DecideConsent? {
        ConsentRecords(s, e, ConsentOf(cfg, s, e));
      } else if e.Refresh? {
        ExchangeRecords(cfg, s, e, ExchangeOf(cfg, s, e));
      } else {
        UnrecordedSteps(cfg, s, e);
      }
    }
  }

  /** Only an explicit edit by the owner, within the allowances of that moment, raises the ceiling. */
  lemma OnlyEditsRaise(cfg: Settings, s: Sys, e: Event, f: Id)
    requires f in s.h.edits && f in Next(cfg, s, e).h.edits
    requires Next(cfg, s, e).h.edits[f] != s.h.edits[f] && !(e.Redeem? && e.family == f)
    ensures e.SetGrants? && FamilyOfToken(s.db, e.token) == Some(f) &&
            e.tools <= AllowancesOf(s.db, e.user) &&
            Next(cfg, s, e).h.edits[f] == s.h.edits[f] + e.tools
  {
    if e.Redeem? {
      IssueRecords(s, e, RedeemOf(cfg, s, e));
    } else if OnPolicy(e) {
      if Enabled(s, e) {
        assert Next(cfg, s, e) == StepPolicy(s, e);
        PolicyEdits(s, e, f);
      }
    } else {
      QuietEdits(cfg, s, e);
    }
  }

  /** In every reachable state a token's grants are among its user's allowances. */
  lemma GrantsWithinAllowances(cfg: Settings, ss: seq<Sys>, es: seq<Event>, i: nat, t: Id)
    requires Run(cfg, ss, es) && i < |ss| && t in ss[i].db.tokens
    ensures GrantsOf(ss[i].db, t) <= AllowancesOf(ss[i].db, ss[i].db.tokens[t].user)
  {
    RunKeeps(cfg, ss, es, i);
  }

  // ---------------------------------------------------------------- consent to family

  /** Two codes of one consent request are the same code, and two families of one code are the
      same family, even when they were seen at different moments of a run. */
  lemma OneCodeOneFamily(cfg: Settings, ss: seq<Sys>, es: seq<Event>, i: nat, j: nat,
                         k: Id, l: Id, f: Id, g: Id)
    requires Run(cfg, ss, es) && i <= j < |ss|
    requires k in ss[i].h.requestOf && l in ss[j].h.requestOf
    requires f in ss[i].h.codeOf && g in ss[j].h.codeOf
    ensures ss[i].h.requestOf[k] == ss[j].h.requestOf[l] ==> k == l
    ensures ss[i].h.codeOf[f] == ss[j].h.codeOf[g] ==> f == g
    ensures k in ss[i].db.codes && ss[i].h.requestOf[k] in ss[i].db.requests &&
            ss[i].db.requests[ss[i].h.requestOf[k]].resolvedAt.Some?
    ensures ss[i].h.codeOf[f] in ss[i].db.codes && ss[i].db.codes[ss[i].h.codeOf[f]].consumedAt.Some?
  {
    RunKeeps(cfg, ss, es, i);
    RunKeeps(cfg, ss, es, j);
    RunEvolves(cfg, ss, es, i, j);
    assert ss[j].h.requestOf[k] == ss[i].h.requestOf[k];
    assert ss[j].h.codeOf[f] == ss[i].h.codeOf[f];
  }

  lemma PolicyRecords(s: Sys, e: Event)
    requires Enabled(s, e) && OnPolicy(e)
    ensures StepPolicy(s, e).h.codeOf == s.h.codeOf && StepPolicy(s, e).h.requestOf == s.h.requestOf
  {
  }

  /** Only approvals and redemptions record anything. */
  lemma QuietRecords(cfg: Settings, s: Sys, e: Event)
    requires Enabled(s, e) && !e.DecideConsent? && !e.Redeem?
    ensures Next(cfg, s, e).h.codeOf == s.h.codeOf && Next(cfg, s, e).h.requestOf == s.h.requestOf
  {
    var s' := Next(cfg, s, e);
    if e.Refresh? {
      assert s' == ApplyExchange(cfg, s, e, ExchangeOf(cfg, s, e));
      ExchangeRecords(cfg, s, e, ExchangeOf(cfg, s, e));
    } else if OnPolicy(e) {
      assert s' == StepPolicy(s, e);
      PolicyRecords(s, e);
    } else {
      UnrecordedSteps(cfg, s, e);
    }
  }

  lemma ApprovedCode(cfg: Settings, s: Sys, e: Event)
    requires Enabled(s, e) && e.DecideConsent? && ConsentOf(cfg, s, e).Approved?
    ensures ConsentOf(cfg, s, e).code == e.code && e.code !in s.db.codes
  {
  }

  /** Approving a consent records its code against the request, redeeming a code records its family
      against the code, and nothing else records either. */
  lemma CodesAndFamiliesAreRecorded(cfg: Settings, s: Sys, e: Event)
    requires s.h.requestOf.Keys == s.db.codes.Keys && s.h.codeOf.Keys == s.db.families.Keys && Enabled(s, e)
    ensures if e.DecideConsent? && ConsentOf(cfg, s, e).Approved?
            then Next(cfg, s, e).h.requestOf == s.h.requestOf[e.code := e.request] &&
                 e.code !in s.h.requestOf
            else Next(cfg, s, e).h.requestOf == s.h.requestOf
    ensures if e.Redeem? && RedeemOf(cfg, s, e).Issued?
            then Next(cfg, s, e).h.codeOf == s.h.codeOf[e.family := e.storedCode.record] &&
                 e.family !in s.h.codeOf
            else Next(cfg, s, e).h.codeOf == s.h.codeOf
  {
    if e.DecideConsent? {
      ConsentRecords(s, e, ConsentOf(cfg, s, e));
      if ConsentOf(cfg, s, e).Approved? { ApprovedCode(cfg, s, e); }
    } else if e.Redeem? {
      IssueRecords(s, e, RedeemOf(cfg, s, e));
    } else {
      QuietRecords(cfg, s, e);
    }
  }
}
