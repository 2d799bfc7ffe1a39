/** Revoking a family, from a client, a replay or the Dashboard, keeps the invariant
    and closes over every record of the family. */
module OAuthRevocation {
  import opened Prelude
  import opened OAuthTables
  import opened OAuthTransactions
  import opened OAuthInvariant

  /** A record's access token is swept by the bulk update exactly when the record is. */
  lemma FamilyTokensExact(db: Tables, f: Id, r: Id)
    requires RowsOk(db) && r in db.refreshes
    ensures Linked(db, r)
    ensures TokenOf(db, r) in FamilyTokens(db, f) <==> db.refreshes[r].family == f
  {
    assert Linked(db, r);
    var t := TokenOf(db, r);
    if t in FamilyTokens(db, f) {
      var s :| s in db.refreshes && db.refreshes[s].family == f &&
               db.refreshes[s].mcpToken == Some(t);
      assert Linked(db, s);
    }
  }

  lemma RevokeRows(db: Tables, f: Id, now: Time)
    requires RowsOk(db) && f in db.families
    ensures RowsOk(RevokeFamily(db, f, now))
  {
    var db' := RevokeFamily(db, f, now);
    forall r | r in db'.refreshes ensures Linked(db', r) {
      FamilyTokensExact(db, f, r);
    }
    forall t | t in db'.links
      ensures db'.links[t].refresh in db'.refreshes
      ensures db'.refreshes[db'.links[t].refresh].mcpToken == Some(t)
    {
      assert t in db.links;
    }
  }

  lemma RevokeFrame(db: Tables, f: Id, now: Time, g: Id, d: seq<Id>)
    requires RowsOk(db) && f in db.families && g != f && ChainOk(db, g, d)
    ensures ChainOk(RevokeFamily(db, f, now), g, d)
  {
    var db' := RevokeFamily(db, f, now);
    forall r | r in d ensures SameRow(db, db', r) {
      FamilyTokensExact(db, f, r);
    }
    ChainFrame(db, db', g, d);
  }

  lemma RevokeChain(db: Tables, f: Id, now: Time, c: seq<Id>)
    requires RowsOk(db) && ChainOk(db, f, c)
    ensures ChainOk(RevokeFamily(db, f, now), f, c)
  {
    var db' := RevokeFamily(db, f, now);
    forall i | 0 <= i < |c|
      ensures c[i] in db.refreshes && db.refreshes[c[i]].family == f
      ensures db'.refreshes[c[i]].revokedAt.Some? && TokenRevoked(db', c[i])
    {
      assert c[i] in c;
      FamilyTokensExact(db, f, c[i]);
    }
    forall i, j | 0 <= i < j < |c| ensures Narrows(db', c[i], c[j]) {
      assert Narrows(db, c[i], c[j]);
    }
  }

  lemma RevokeMints(db: Tables, h: History, f: Id, now: Time)
    requires ChainsOk(db, h) && MintedOk(db, h) && f in db.families
    ensures MintedOk(RevokeFamily(db, f, now), h)
  {
    var db' := RevokeFamily(db, f, now);
    forall g, i | g in h.chains && 0 <= i < |h.chains[g]| - 1
      ensures MintsNext(db', h, h.chains[g], i)
    {
      assert MintsNext(db, h, h.chains[g], i);
    }
  }

  lemma RevokeChains(db: Tables, h: History, f: Id, now: Time)
    requires RowsOk(db) && ChainsOk(db, h) && f in db.families
    ensures ChainsOk(RevokeFamily(db, f, now), h)
  {
    var db' := RevokeFamily(db, f, now);
    forall g | g in db'.families ensures ChainOk(db', g, h.chains[g]) {
      assert ChainOk(db, g, h.chains[g]);
      if g == f { RevokeChain(db, f, now, h.chains[g]); } else { RevokeFrame(db, f, now, g, h.chains[g]); }
    }
  }

  lemma RevokeAuthority(db: Tables, h: History, f: Id, now: Time)
    requires AuthorityOk(db, h) && f in db.families
    ensures AuthorityOk(RevokeFamily(db, f, now), h)
  {
    var db' := RevokeFamily(db, f, now);
    forall r | r in db'.refreshes ensures WithinConsent(db', h, r) {
      assert WithinConsent(db, h, r);
      WithinFrame(db, db', h, h, r);
    }
  }

  lemma RevokeGrants(db: Tables, f: Id, now: Time)
    requires GrantsOk(db) && f in db.families
    ensures GrantsOk(RevokeFamily(db, f, now))
  {
    var db' := RevokeFamily(db, f, now);
    forall t | t in db'.grants
      ensures t in db'.tokens && db'.grants[t] <= AllowancesOf(db', db'.tokens[t].user)
    {
      assert t in db.grants;
    }
  }

  lemma RevokePolicy(db: Tables, h: History, f: Id, now: Time)
    requires PolicyInv(db, h) && f in db.families
    ensures PolicyInv(RevokeFamily(db, f, now), h)
  {
    RevokeAuthority(db, h, f, now);
    RevokeGrants(db, f, now);
    RevokeOrigins(db, h, f, now);
  }

  lemma RevokeOrigins(db: Tables, h: History, f: Id, now: Time)
    requires FamilyOrigins(db, h) && CodeOrigins(db, h) && f in db.families
    ensures FamilyOrigins(RevokeFamily(db, f, now), h) && CodeOrigins(RevokeFamily(db, f, now), h)
  {
  }

  lemma RevokeKeeps(db: Tables, h: History, f: Id, now: Time)
    requires Inv(db, h) && f in db.families
    ensures Inv(RevokeFamily(db, f, now), h)
  {
    RevokeRows(db, f, now);
    RevokeChains(db, h, f, now);
    RevokeMints(db, h, f, now);
    RevokePolicy(db, h, f, now);
  }

  // ---------------------------------------------------------------- what closure means

  /** Nothing that could still be used is left in the family. */
  ghost predicate Closed(db: Tables, f: Id) {
    f in db.families && db.families[f].revokedAt.Some? &&
    forall r | r in db.refreshes && db.refreshes[r].family == f ::
      db.refreshes[r].revokedAt.Some? && db.refreshes[r].mcpToken.Some? &&
      var t := TokenOf(db, r);
      t in db.tokens && !db.tokens[t].enabled && db.tokens[t].revokedAt.Some? &&
      t in db.links && db.links[t].revokedAt.Some?
  }

  /** In every state of the protocol, a revoked family is closed. */
  lemma RevokedIsClosed(db: Tables, h: History, f: Id)
    requires RowsOk(db) && ChainsOk(db, h)
    requires f in db.families && db.families[f].revokedAt.Some?
    ensures Closed(db, f)
  {
    var c := h.chains[f];
    assert ChainOk(db, f, c);
    forall r | r in db.refreshes && db.refreshes[r].family == f
      ensures db.refreshes[r].revokedAt.Some? && TokenRevoked(db, r) && Linked(db, r)
    {
      assert r in c;
      var i :| 0 <= i < |c| && c[i] == r;
      assert Linked(db, r);
    }
  }

  lemma RevokeCloses(db: Tables, h: History, f: Id, now: Time)
    requires RowsOk(db) && ChainsOk(db, h) && f in db.families
    ensures Closed(RevokeFamily(db, f, now), f)
  {
    RevokeRows(db, f, now);
    RevokeChains(db, h, f, now);
    RevokedIsClosed(RevokeFamily(db, f, now), h, f);
  }

  /** An unrevoked family has exactly one usable access token, and it is its head's. */
  lemma OneLiveToken(db: Tables, h: History, f: Id, t: Id)
    requires RowsOk(db) && ChainsOk(db, h)
    requires f in db.families && db.families[f].revokedAt.None?
    ensures f in h.chains && |h.chains[f]| > 0 && h.chains[f][|h.chains[f]| - 1] in db.refreshes
    ensures (t in db.tokens && FamilyOfToken(db, t) == Some(f) && db.tokens[t].enabled)
            <==> db.refreshes[h.chains[f][|h.chains[f]| - 1]].mcpToken == Some(t)
  {
    var c := h.chains[f];
    assert ChainOk(db, f, c);
    var head := c[|c| - 1];
    assert head in c;
    assert Linked(db, head);
    if t in db.tokens && FamilyOfToken(db, t) == Some(f) && db.tokens[t].enabled {
      var r := db.links[t].refresh;
      assert r in c;
      assert Linked(db, r);
      var i :| 0 <= i < |c| && c[i] == r;
      assert !TokenRevoked(db, c[i]);
    }
  }

  /** Exactly one refresh token of a family is unrotated. */
  lemma OneHead(db: Tables, h: History, f: Id, r: Id)
    requires ChainsOk(db, h) && f in db.families
    ensures f in h.chains && |h.chains[f]| > 0
    ensures (r in db.refreshes && db.refreshes[r].family == f && db.refreshes[r].rotatedAt.None?)
            <==> r == h.chains[f][|h.chains[f]| - 1]
  {
    var c := h.chains[f];
    assert ChainOk(db, f, c);
    assert c[|c| - 1] in c;
    if r in db.refreshes && db.refreshes[r].family == f && db.refreshes[r].rotatedAt.None? {
      HeadIsLast(db, f, c, r);
    }
  }

  // ---------------------------------------------------------------- Dashboard revocation

  /** The family the Dashboard looks up for a token record; static tokens have none. */
  function DashboardFamily(db: Tables, token: Id): Option<Id>
    requires token in db.tokens
  {
    if db.tokens[token].kind == OAuth then FamilyOfToken(db, token) else None
  }

  lemma DashboardFamilyKnown(db: Tables, token: Id)
    requires RowsOk(db) && token in db.tokens
    ensures db.tokens[token].kind == OAuth ==>
              DashboardFamily(db, token).Some? && DashboardFamily(db, token).value in db.families
  {
    if db.tokens[token].kind == OAuth {
      assert token in db.links;
      assert Linked(db, db.links[token].refresh);
    }
  }

  /** Overwriting the stale record after its family is closed undoes no revocation. */
  lemma DashboardKeeps(db: Tables, h: History, token: Id, now: Time)
    requires Inv(db, h) && token in db.tokens
    ensures var out := DashboardRevoke(db, token, DashboardFamily(db, token), now);
            out.Some? && Inv(out.value, h)
  {
    DashboardFamilyKnown(db, token);
    var family := DashboardFamily(db, token);
    if family.Some? {
      RevokeKeeps(db, h, family.value, now);
      SweptToken(db, token, now);
      OverwriteKeeps(RevokeFamily(db, family.value, now), h, token, now);
    } else {
      OverwriteKeeps(db, h, token, now);
    }
  }

  lemma SweptToken(db: Tables, token: Id, now: Time)
    requires RowsOk(db) && token in db.tokens && DashboardFamily(db, token).Some?
    requires DashboardFamily(db, token).value in db.families
    ensures var mid := RevokeFamily(db, DashboardFamily(db, token).value, now);
            mid.tokens[token].revokedAt.Some? && mid.tokens[token].kind == db.tokens[token].kind
  {
    FamilyTokensExact(db, DashboardFamily(db, token).value, db.links[token].refresh);
  }

  function Overwrite(db: Tables, token: Id, now: Time): Tables
    requires token in db.tokens
  {
    db.(tokens := db.tokens[token := db.tokens[token].(enabled := false, revokedAt := Some(now))])
  }

  lemma OverwriteKeeps(db: Tables, h: History, token: Id, now: Time)
    requires Inv(db, h) && token in db.tokens
    requires db.tokens[token].kind == OAuth ==> db.tokens[token].revokedAt.Some?
    ensures Inv(Overwrite(db, token, now), h)
  {
    OverwriteStructure(db, h, token, now);
    OverwritePolicy(db, h, token, now);
  }

  lemma OverwriteStructure(db: Tables, h: History, token: Id, now: Time)
    requires ChainInv(db, h) && token in db.tokens
    requires db.tokens[token].kind == OAuth ==> db.tokens[token].revokedAt.Some?
    ensures ChainInv(Overwrite(db, token, now), h)
  {
    OverwriteRows(db, token, now);
    SameStatusChains(db, Overwrite(db, token, now), h);
    MintsFrame(db, Overwrite(db, token, now), h, h);
  }

  lemma OverwriteRows(db: Tables, token: Id, now: Time)
    requires RowsOk(db) && token in db.tokens
    requires db.tokens[token].kind == OAuth ==> db.tokens[token].revokedAt.Some?
    ensures RowsOk(Overwrite(db, token, now)) && SameStatus(db, Overwrite(db, token, now))
  {
    var db' := Overwrite(db, token, now);
    forall r | r in db'.refreshes
      ensures Linked(db', r) && TokenRevoked(db', r) == TokenRevoked(db, r)
    {
      assert Linked(db, r);
    }
  }

  /** Records and families are the same, and the same access tokens are revoked. */
  ghost predicate SameStatus(db: Tables, db': Tables) {
    db'.refreshes == db.refreshes && db'.families == db.families &&
    forall r {:trigger TokenRevoked(db', r)} | r in db.refreshes ::
      TokenRevoked(db', r) == TokenRevoked(db, r)
  }

  lemma SameStatusChains(db: Tables, db': Tables, h: History)
    requires ChainsOk(db, h) && SameStatus(db, db')
    ensures ChainsOk(db', h)
  {
    forall g | g in db'.families ensures ChainOk(db', g, h.chains[g]) {
      assert ChainOk(db, g, h.chains[g]);
      SameStatusChain(db, db', g, h.chains[g]);
    }
  }

  lemma SameStatusChain(db: Tables, db': Tables, g: Id, c: seq<Id>)
    requires ChainOk(db, g, c) && SameStatus(db, db')
    ensures ChainOk(db', g, c)
  {
    forall i, j | 0 <= i < j < |c| ensures Narrows(db', c[i], c[j]) {
      assert Narrows(db, c[i], c[j]);
    }
  }

  lemma OverwritePolicy(db: Tables, h: History, token: Id, now: Time)
    requires PolicyInv(db, h) && token in db.tokens
    ensures PolicyInv(Overwrite(db, token, now), h)
  {
    var db' := Overwrite(db, token, now);
    forall r | r in db'.refreshes ensures WithinConsent(db', h, r) {
      assert WithinConsent(db, h, r);
    }
  }
}
