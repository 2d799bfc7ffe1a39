/** What no transaction ever undoes: rows persist, revocations and rotations stay, a revoked
    family gains no record, and the history only grows. */
module OAuthMonotone {
  import opened Prelude
  import opened OAuthTables
  import opened OAuthTransactions
  import opened OAuthInvariant
  import opened OAuthIssuance
  import opened OAuthRevocation
  import opened OAuthPolicy

  // ---------------------------------------------------------------- row by row

  ghost predicate FamilyKept(db: Tables, db': Tables, f: Id)
    requires f in db.families
  {
    f in db'.families && (db.families[f].revokedAt.Some? ==> db'.families[f] == db.families[f])
  }

  ghost predicate RefreshKept(db: Tables, db': Tables, r: Id)
    requires r in db.refreshes
  {
    r in db'.refreshes &&
    var a, b := db.refreshes[r], db'.refreshes[r];
    b == a.(rotatedAt := b.rotatedAt, revokedAt := b.revokedAt) &&
    (a.rotatedAt.Some? ==> b.rotatedAt == a.rotatedAt) &&
    (a.revokedAt.Some? ==> b.revokedAt.Some?)
  }

  ghost predicate TokenKept(db: Tables, db': Tables, t: Id)
    requires t in db.tokens
  {
    t in db'.tokens &&
    var a, b := db.tokens[t], db'.tokens[t];
    b.user == a.user && b.kind == a.kind && b.expiresAt == a.expiresAt &&
    (a.revokedAt.Some? ==> b.revokedAt.Some?) && (b.enabled ==> a.enabled)
  }

  ghost predicate LinkKept(db: Tables, db': Tables, t: Id)
    requires t in db.links
  {
    t in db'.links &&
    var a, b := db.links[t], db'.links[t];
    b == a.(revokedAt := b.revokedAt) && (a.revokedAt.Some? ==> b.revokedAt.Some?)
  }

  ghost predicate RowsKept(db: Tables, db': Tables) {
    (forall f {:trigger FamilyKept(db, db', f)} | f in db.families :: FamilyKept(db, db', f)) &&
    (forall r {:trigger RefreshKept(db, db', r)} | r in db.refreshes :: RefreshKept(db, db', r)) &&
    (forall t {:trigger TokenKept(db, db', t)} | t in db.tokens :: TokenKept(db, db', t)) &&
    (forall t {:trigger LinkKept(db, db', t)} | t in db.links :: LinkKept(db, db', t))
  }

  /** A record added to a family finds the family unrevoked. */
  ghost predicate NoLateRecords(db: Tables, db': Tables) {
    forall r {:trigger db'.refreshes[r]} | r in db'.refreshes && r !in db.refreshes ::
      db'.refreshes[r].family in db.families ==>
        db.families[db'.refreshes[r].family].revokedAt.None?
  }

  ghost predicate RequestKept(db: Tables, db': Tables, q: Id)
    requires q in db.requests
  {
    q in db'.requests &&
    (db.requests[q].resolvedAt.Some? ==> db'.requests[q] == db.requests[q])
  }

  ghost predicate CodeKept(db: Tables, db': Tables, k: Id)
    requires k in db.codes
  {
    k in db'.codes && db'.codes[k] == db.codes[k].(consumedAt := db'.codes[k].consumedAt) &&
    (db.codes[k].consumedAt.Some? ==> db'.codes[k].consumedAt == db.codes[k].consumedAt)
  }

  ghost predicate ConsentKept(db: Tables, db': Tables) {
    (forall q {:trigger RequestKept(db, db', q)} | q in db.requests :: RequestKept(db, db', q)) &&
    (forall k {:trigger CodeKept(db, db', k)} | k in db.codes :: CodeKept(db, db', k))
  }

  ghost predicate MapGrows<V>(m: map<Id, V>, m': map<Id, V>) {
    m.Keys <= m'.Keys && forall x | x in m :: m'[x] == m[x]
  }

  ghost predicate ChainGrows(h: History, h': History, f: Id)
    requires f in h.chains
  {
    f in h'.chains && h.chains[f] <= h'.chains[f]
  }

  ghost predicate EditsGrow(h: History, h': History, f: Id)
    requires f in h.edits
  {
    f in h'.edits && h.edits[f] <= h'.edits[f]
  }

  ghost predicate HistoryGrows(h: History, h': History) {
    MapGrows(h.minted, h'.minted) && MapGrows(h.codeOf, h'.codeOf) &&
    MapGrows(h.requestOf, h'.requestOf) &&
    (forall f {:trigger ChainGrows(h, h', f)} | f in h.chains :: ChainGrows(h, h', f)) &&
    (forall f {:trigger EditsGrow(h, h', f)} | f in h.edits :: EditsGrow(h, h', f))
  }

  ghost predicate Evolves(db: Tables, h: History, db': Tables, h': History) {
    RowsKept(db, db') && NoLateRecords(db, db') && ConsentKept(db, db') && HistoryGrows(h, h')
  }

  // ---------------------------------------------------------------- it composes

  lemma RowsKeptTwice(a: Tables, b: Tables, c: Tables)
    requires RowsKept(a, b) && RowsKept(b, c)
    ensures RowsKept(a, c)
  {
    forall f | f in a.families ensures FamilyKept(a, c, f) {
      assert FamilyKept(a, b, f) && FamilyKept(b, c, f);
    }
    forall r | r in a.refreshes ensures RefreshKept(a, c, r) {
      assert RefreshKept(a, b, r) && RefreshKept(b, c, r);
    }
    forall t | t in a.tokens ensures TokenKept(a, c, t) {
      assert TokenKept(a, b, t) && TokenKept(b, c, t);
    }
    forall t | t in a.links ensures LinkKept(a, c, t) {
      assert LinkKept(a, b, t) && LinkKept(b, c, t);
    }
  }

  lemma NoLateTwice(a: Tables, b: Tables, c: Tables)
    requires RowsKept(a, b) && RowsKept(b, c) && NoLateRecords(a, b) && NoLateRecords(b, c)
    ensures NoLateRecords(a, c)
  {
    forall r | r in c.refreshes && r !in a.refreshes && c.refreshes[r].family in a.families
      ensures a.families[c.refreshes[r].family].revokedAt.None?
    {
      var f := c.refreshes[r].family;
      assert FamilyKept(a, b, f);
      if r in b.refreshes {
        assert RefreshKept(b, c, r);
        assert b.refreshes[r].family == f;
      }
    }
  }

  lemma HistoryTwice(h: History, h1: History, h2: History)
    requires HistoryGrows(h, h1) && HistoryGrows(h1, h2)
    ensures HistoryGrows(h, h2)
  {
    forall f | f in h.chains ensures ChainGrows(h, h2, f) {
      assert ChainGrows(h, h1, f) && ChainGrows(h1, h2, f);
    }
    forall f | f in h.edits ensures EditsGrow(h, h2, f) {
      assert EditsGrow(h, h1, f) && EditsGrow(h1, h2, f);
    }
  }

  lemma ConsentTwice(a: Tables, b: Tables, c: Tables)
    requires ConsentKept(a, b) && ConsentKept(b, c)
    ensures ConsentKept(a, c)
  {
    forall q | q in a.requests ensures RequestKept(a, c, q) {
      assert RequestKept(a, b, q) && RequestKept(b, c, q);
    }
    forall k | k in a.codes ensures CodeKept(a, c, k) {
      assert CodeKept(a, b, k) && CodeKept(b, c, k);
    }
  }

  lemma EvolvesTwice(a: Tables, h: History, b: Tables, h1: History, c: Tables, h2: History)
    requires Evolves(a, h, b, h1) && Evolves(b, h1, c, h2)
    ensures Evolves(a, h, c, h2)
  {
    RowsKeptTwice(a, b, c);
    NoLateTwice(a, b, c);
    ConsentTwice(a, b, c);
    HistoryTwice(h, h1, h2);
  }

  lemma EvolvesRefl(db: Tables, h: History)
    ensures Evolves(db, h, db, h)
  {
  }

  // ---------------------------------------------------------------- every transaction evolves

  lemma RevokeEvolves(db: Tables, h: History, f: Id, now: Time)
    requires f in db.families
    ensures Evolves(db, h, RevokeFamily(db, f, now), h)
  {
  }

  lemma OverwriteEvolves(db: Tables, h: History, token: Id, now: Time)
    requires token in db.tokens
    ensures Evolves(db, h, Overwrite(db, token, now), h)
  {
  }

  lemma DashboardEvolves(db: Tables, h: History, token: Id, family: Option<Id>, now: Time)
    requires token in db.tokens && DashboardRevoke(db, token, family, now).Some?
    ensures Evolves(db, h, DashboardRevoke(db, token, family, now).value, h)
  {
    var mid := if family.Some? then RevokeFamily(db, family.value, now) else db;
    if family.Some? { RevokeEvolves(db, h, family.value, now); } else { EvolvesRefl(db, h); }
    OverwriteEvolves(mid, h, token, now);
    EvolvesTwice(db, h, mid, h, Overwrite(mid, token, now), h);
  }

  lemma TokensOnly(db: Tables, tokens: map<Id, McpToken>)
    requires forall t | t in db.tokens :: TokenKept(db, db.(tokens := tokens), t)
    ensures RowsKept(db, db.(tokens := tokens))
  {
  }

  lemma StampRowsKept(db: Tables, token: Id, now: Time)
    ensures RowsKept(db, Stamp(db, token, now))
  {
    if StampSucceeds(db, token) {
      TokensOnly(db, db.tokens[token := db.tokens[token].(lastUsedAt := Some(now))]);
    } else {
      TokensOnly(db, db.tokens);
      assert db.(tokens := db.tokens) == db;
    }
  }

  lemma StampEvolves(db: Tables, h: History, token: Id, now: Time)
    ensures Evolves(db, h, Stamp(db, token, now), h)
  {
    StampRowsKept(db, token, now);
  }

  /** Changes confined to permissions, requests and codes, or adding static tokens. */
  lemma QuietEvolves(db: Tables, h: History, db': Tables, h': History)
    requires db'.families == db.families && db'.refreshes == db.refreshes && db'.links == db.links
    requires forall t | t in db.tokens :: t in db'.tokens && db'.tokens[t] == db.tokens[t]
    requires ConsentKept(db, db') && HistoryGrows(h, h')
    ensures Evolves(db, h, db', h')
  {
  }

  lemma RequestEvolves(db: Tables, h: History, id: Id, row: AuthRequest)
    requires id !in db.requests
    ensures Evolves(db, h, db.(requests := db.requests[id := row]), h)
  {
    QuietEvolves(db, h, db.(requests := db.requests[id := row]), h);
  }

  lemma StaticEvolves(db: Tables, h: History, id: Id, user: Id, expiresAt: Option<Time>)
    requires id !in db.tokens
    ensures Evolves(db, h, CreateStatic(db, id, user, expiresAt), h)
  {
    QuietEvolves(db, h, CreateStatic(db, id, user, expiresAt), h);
  }

  lemma AllowancesEvolve(db: Tables, h: History, user: Id, tools: set<Tool>)
    ensures Evolves(db, h, ReplaceAllowances(db, user, tools), h)
  {
    QuietEvolves(db, h, ReplaceAllowances(db, user, tools), h);
  }

  lemma SettingsEvolve(db: Tables, h: History, settings: map<Tool, ToolSetting>)
    ensures Evolves(db, h, db.(settings := settings), h)
  {
    QuietEvolves(db, h, db.(settings := settings), h);
  }

  lemma EditGrows(h: History, family: Option<Id>, tools: set<Tool>)
    ensures HistoryGrows(h, AfterEdit(h, family, tools))
  {
  }

  lemma EditEvolves(db: Tables, h: History, family: Option<Id>, token: Id, tools: set<Tool>)
    ensures Evolves(db, h, ReplaceGrants(db, token, tools), AfterEdit(h, family, tools))
  {
    EditGrows(h, family, tools);
    QuietEvolves(db, h, ReplaceGrants(db, token, tools), AfterEdit(h, family, tools));
  }

  lemma RedemptionRowsKept(db: Tables, dir: Directory, cfg: Settings, clientId: string,
                           stored: StoredCode, now: Time, issueNow: Time, f: Id, pair: FreshPair)
    requires f !in db.families && IsFresh(db, pair)
    requires RedeemCode(db, dir, cfg, clientId, stored, now, issueNow, f, pair).Issued?
    ensures var out := RedeemCode(db, dir, cfg, clientId, stored, now, issueNow, f, pair);
            RowsKept(db, out.db) && NoLateRecords(db, out.db)
  {
  }

  lemma RedemptionConsentKept(db: Tables, dir: Directory, cfg: Settings, clientId: string,
                              stored: StoredCode, now: Time, issueNow: Time, f: Id, pair: FreshPair)
    requires RedeemCode(db, dir, cfg, clientId, stored, now, issueNow, f, pair).Issued?
    ensures ConsentKept(db, RedeemCode(db, dir, cfg, clientId, stored, now, issueNow, f, pair).db)
  {
  }

  lemma RedemptionGrows(h: History, f: Id, code: Id, token: TokenResponse)
    requires f !in h.chains && f !in h.codeOf && f !in h.edits
    ensures HistoryGrows(h, AfterRedemption(h, f, code, token))
  {
  }

  lemma RedemptionEvolves(db: Tables, h: History, dir: Directory, cfg: Settings, clientId: string,
                          stored: StoredCode, now: Time, issueNow: Time, f: Id, pair: FreshPair)
    requires f !in db.families && f !in h.chains && f !in h.codeOf && f !in h.edits
    requires IsFresh(db, pair)
    requires RedeemCode(db, dir, cfg, clientId, stored, now, issueNow, f, pair).Issued?
    ensures var out := RedeemCode(db, dir, cfg, clientId, stored, now, issueNow, f, pair);
            Evolves(db, h, out.db, AfterRedemption(h, f, stored.record, out.token))
  {
    RedemptionRowsKept(db, dir, cfg, clientId, stored, now, issueNow, f, pair);
    RedemptionConsentKept(db, dir, cfg, clientId, stored, now, issueNow, f, pair);
    RedemptionGrows(h, f, stored.record,
                    RedeemCode(db, dir, cfg, clientId, stored, now, issueNow, f, pair).token);
  }

  lemma RotationRowsKept(db: Tables, dir: Directory, cfg: Settings, record: Id,
                         scopes: seq<Scope>, now: Time, issueNow: Time, pair: FreshPair)
    requires record in db.refreshes && db.refreshes[record].family in db.families
    requires db.families[db.refreshes[record].family].revokedAt.None?
    requires db.refreshes[record].rotatedAt.None? && IsFresh(db, pair)
    requires Rotate(db, dir, cfg, record, scopes, now, issueNow, pair).Issued?
    ensures var out := Rotate(db, dir, cfg, record, scopes, now, issueNow, pair);
            RowsKept(db, out.db) && NoLateRecords(db, out.db)
  {
  }

  lemma RotationGrows(h: History, f: Id, record: Id, token: TokenResponse)
    requires f in h.chains && record !in h.minted
    ensures HistoryGrows(h, AfterRotation(h, f, record, token))
  {
  }

  lemma RotationEvolves(db: Tables, h: History, dir: Directory, cfg: Settings, record: Id,
                        scopes: seq<Scope>, now: Time, issueNow: Time, pair: FreshPair)
    requires record in db.refreshes && db.refreshes[record].family in db.families
    requires db.families[db.refreshes[record].family].revokedAt.None?
    requires db.refreshes[record].rotatedAt.None? && record !in h.minted && IsFresh(db, pair)
    requires db.refreshes[record].family in h.chains
    requires Rotate(db, dir, cfg, record, scopes, now, issueNow, pair).Issued?
    ensures var out := Rotate(db, dir, cfg, record, scopes, now, issueNow, pair);
            Evolves(db, h, out.db, AfterRotation(h, db.refreshes[record].family, record, out.token))
  {
    RotationRowsKept(db, dir, cfg, record, scopes, now, issueNow, pair);
    RotationGrows(h, db.refreshes[record].family, record,
                  Rotate(db, dir, cfg, record, scopes, now, issueNow, pair).token);
  }
}
