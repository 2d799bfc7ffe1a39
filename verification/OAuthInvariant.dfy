/** The invariant of the token-family protocol and the proof that every transaction keeps it.

    The tables do not record which refresh token replaced which. A History records that on
    the side, and the invariant says that the tables always agree with it. */
module OAuthInvariant {
  import opened Prelude
  import opened OAuthTables
  import opened OAuthTransactions

  datatype History = History(
    chains: map<Id, seq<Id>>,        // family -> its refresh tokens, oldest first
    minted: map<Id, TokenResponse>,  // rotated refresh token -> the pair that replaced it
    codeOf: map<Id, Id>,             // family -> the authorization code it was issued for
    requestOf: map<Id, Id>,          // authorization code -> the consent request it answers
    edits: map<Id, set<Tool>>)       // family -> tools its owner granted explicitly

  // ---------------------------------------------------------------- the invariant

  function TokenOf(db: Tables, r: Id): Id
    requires r in db.refreshes && db.refreshes[r].mcpToken.Some?
  {
    db.refreshes[r].mcpToken.value
  }

  /** A refresh record, its access token and their link describe the same grant. */
  ghost predicate Linked(db: Tables, r: Id)
    requires r in db.refreshes
  {
    var rec := db.refreshes[r];
    rec.mcpToken.Some? && rec.family in db.families &&
    var t := rec.mcpToken.value;
    t in db.tokens && t in db.links &&
    var token, link := db.tokens[t], db.links[t];
    link.refresh == r && link.client == rec.client && link.resource == rec.resource &&
    token.kind == OAuth && token.user == rec.user &&
    token.expiresAt.Some? && token.expiresAt.value <= rec.expiresAt &&
    (token.enabled <==> token.revokedAt.None?) &&
    (link.revokedAt.Some? <==> token.revokedAt.Some?)
  }

  ghost predicate RowsOk(db: Tables) {
    (forall r {:trigger Linked(db, r)} | r in db.refreshes :: Linked(db, r)) &&
    (forall t | t in db.links ::
      db.links[t].refresh in db.refreshes && db.refreshes[db.links[t].refresh].mcpToken == Some(t)) &&
    (forall t | t in db.tokens && db.tokens[t].kind == OAuth :: t in db.links)
  }

  /** b holds no more authority than a: same grant and lifetime, no new scope. */
  ghost predicate Continues(a: RefreshToken, b: RefreshToken) {
    b.client == a.client && b.user == a.user && b.resource == a.resource &&
    b.expiresAt == a.expiresAt && ScopesWithin(b.scopes, a.scopes)
  }

  ghost predicate Narrows(db: Tables, r: Id, s: Id)
    requires r in db.refreshes && s in db.refreshes
  {
    Continues(db.refreshes[r], db.refreshes[s])
  }

  predicate TokenRevoked(db: Tables, r: Id) {
    r in db.refreshes && db.refreshes[r].mcpToken.Some? && TokenOf(db, r) in db.tokens &&
    db.tokens[TokenOf(db, r)].revokedAt.Some?
  }

  ghost predicate Distinct(c: seq<Id>) {
    forall i, j | 0 <= i < j < |c| :: c[i] != c[j]
  }

  /** c lists exactly the family's refresh tokens. */
  ghost predicate Members(db: Tables, f: Id, c: seq<Id>) {
    forall r :: r in c <==> r in db.refreshes && db.refreshes[r].family == f
  }

  /** The family is one linear chain: every record but the last is rotated and its access
      token revoked, the last is unrotated, and revocation covers all or none of it. */
  ghost predicate ChainOk(db: Tables, f: Id, c: seq<Id>) {
    |c| > 0 && Distinct(c) && f in db.families && Members(db, f, c) &&
    (forall i, j {:trigger Narrows(db, c[i], c[j])} | 0 <= i < j < |c| :: Narrows(db, c[i], c[j])) &&
    (forall i | 0 <= i < |c| - 1 :: db.refreshes[c[i]].rotatedAt.Some? && TokenRevoked(db, c[i])) &&
    db.refreshes[c[|c| - 1]].rotatedAt.None? &&
    (forall i | 0 <= i < |c| ::
      db.refreshes[c[i]].revokedAt.Some? <==> db.families[f].revokedAt.Some?) &&
    (TokenRevoked(db, c[|c| - 1]) <==> db.families[f].revokedAt.Some?)
  }

  ghost predicate ChainsOk(db: Tables, h: History) {
    h.chains.Keys == db.families.Keys &&
    forall f {:trigger ChainOk(db, f, h.chains[f])} | f in db.families :: ChainOk(db, f, h.chains[f])
  }

  /** The pair minted for the i-th record is the next record and its access token. */
  ghost predicate MintsNext(db: Tables, h: History, c: seq<Id>, i: int)
    requires 0 <= i < |c| - 1
  {
    c[i] in h.minted && c[i + 1] in db.refreshes &&
    h.minted[c[i]].refresh == c[i + 1] &&
    db.refreshes[c[i + 1]].mcpToken == Some(h.minted[c[i]].access) &&
    db.refreshes[c[i + 1]].scopes == h.minted[c[i]].scopes
  }

  ghost predicate MintedOk(db: Tables, h: History) {
    (forall r :: r in h.minted <==> r in db.refreshes && db.refreshes[r].rotatedAt.Some?) &&
    (forall f, i {:trigger MintsNext(db, h, h.chains[f], i)} |
      f in h.chains && 0 <= i < |h.chains[f]| - 1 :: MintsNext(db, h, h.chains[f], i))
  }

  /** Each family was issued for a consumed code of its own. */
  ghost predicate FamilyOrigins(db: Tables, h: History) {
    h.codeOf.Keys == db.families.Keys && h.edits.Keys == db.families.Keys &&
    (forall f {:trigger h.codeOf[f]} | f in db.families ::
      h.codeOf[f] in db.codes && db.codes[h.codeOf[f]].consumedAt.Some?) &&
    (forall f, g {:trigger h.codeOf[f], h.codeOf[g]} |
      f in db.families && g in db.families && h.codeOf[f] == h.codeOf[g] :: f == g)
  }

  /** Each code answers a resolved request of its own and fixes the grant's expiry. */
  ghost predicate CodeOrigins(db: Tables, h: History) {
    h.requestOf.Keys == db.codes.Keys &&
    (forall k {:trigger h.requestOf[k]} | k in db.codes ::
      h.requestOf[k] in db.requests && db.requests[h.requestOf[k]].resolvedAt.Some? &&
      db.codes[k].refreshExpiresAt.Some?) &&
    (forall k, l {:trigger h.requestOf[k], h.requestOf[l]} |
      k in db.codes && l in db.codes && h.requestOf[k] == h.requestOf[l] :: k == l)
  }

  /** The tools selected at consent, and what the owner added by editing grants. */
  function Ceiling(db: Tables, h: History, f: Id): set<Tool> {
    (if f in h.codeOf && h.codeOf[f] in db.codes then db.codes[h.codeOf[f]].tools else {}) +
    (if f in h.edits then h.edits[f] else {})
  }

  ghost predicate WithinConsent(db: Tables, h: History, r: Id)
    requires r in db.refreshes
  {
    var rec := db.refreshes[r];
    rec.mcpToken.Some? && rec.family in h.codeOf && h.codeOf[rec.family] in db.codes &&
    var code := db.codes[h.codeOf[rec.family]];
    rec.user == code.user && rec.client == code.client && rec.resource == code.resource &&
    code.refreshExpiresAt == Some(rec.expiresAt) && ScopesWithin(rec.scopes, code.scopes) &&
    GrantsOf(db, TokenOf(db, r)) <= Ceiling(db, h, rec.family)
  }

  ghost predicate AuthorityOk(db: Tables, h: History) {
    forall r {:trigger WithinConsent(db, h, r)} | r in db.refreshes :: WithinConsent(db, h, r)
  }

  ghost predicate GrantsOk(db: Tables) {
    forall t | t in db.grants ::
      t in db.tokens && db.grants[t] <= AllowancesOf(db, db.tokens[t].user)
  }

  /** The structure of the token tables. */
  ghost predicate ChainInv(db: Tables, h: History) {
    RowsOk(db) && ChainsOk(db, h) && MintedOk(db, h)
  }

  /** Where authority comes from and what bounds it. */
  ghost predicate PolicyInv(db: Tables, h: History) {
    FamilyOrigins(db, h) && CodeOrigins(db, h) && AuthorityOk(db, h) && GrantsOk(db)
  }

  ghost predicate Inv(db: Tables, h: History) {
    ChainInv(db, h) && PolicyInv(db, h)
  }

  // ---------------------------------------------------------------- framing

  /** Rows that decide a family's chain are the same in both databases. */
  ghost predicate SameRow(db: Tables, db': Tables, r: Id) {
    r in db.refreshes && r in db'.refreshes && db.refreshes[r] == db'.refreshes[r] &&
    (db.refreshes[r].mcpToken.Some? ==>
      var t := TokenOf(db, r);
      t in db.tokens && t in db'.tokens &&
      db.tokens[t].revokedAt == db'.tokens[t].revokedAt)
  }

  lemma ChainFrame(db: Tables, db': Tables, f: Id, c: seq<Id>)
    requires ChainOk(db, f, c) && f in db'.families && db'.families[f] == db.families[f]
    requires forall r | r in c :: SameRow(db, db', r)
    requires forall r | r in db'.refreshes && db'.refreshes[r].family == f :: r in c
    ensures ChainOk(db', f, c)
  {
    assert Members(db', f, c) by {
      forall r ensures r in c <==> r in db'.refreshes && db'.refreshes[r].family == f {
        if r in c { assert SameRow(db, db', r); }
      }
    }
    forall i, j | 0 <= i < j < |c| ensures Narrows(db', c[i], c[j]) {
      assert SameRow(db, db', c[i]) && SameRow(db, db', c[j]) && Narrows(db, c[i], c[j]);
    }
    forall i | 0 <= i < |c|
      ensures db'.refreshes[c[i]] == db.refreshes[c[i]]
      ensures TokenRevoked(db', c[i]) <==> TokenRevoked(db, c[i])
    {
      assert SameRow(db, db', c[i]);
    }
  }

  lemma MintsFrame(db: Tables, db': Tables, h: History, h': History)
    requires MintedOk(db, h) && db'.refreshes == db.refreshes
    requires h'.chains == h.chains && h'.minted == h.minted
    ensures MintedOk(db', h')
  {
    forall g, i | g in h'.chains && 0 <= i < |h'.chains[g]| - 1
      ensures MintsNext(db', h', h'.chains[g], i)
    {
      assert MintsNext(db, h, h.chains[g], i);
    }
  }

  lemma OriginsFrame(db: Tables, db': Tables, h: History, h': History)
    requires FamilyOrigins(db, h) && CodeOrigins(db, h)
    requires db'.families == db.families && db'.codes == db.codes && db'.requests == db.requests
    requires h'.codeOf == h.codeOf && h'.requestOf == h.requestOf && h'.edits == h.edits
    ensures FamilyOrigins(db', h') && CodeOrigins(db', h')
  {
  }

  /** A record whose row, grants and consent are unchanged stays within its consent. */
  lemma WithinFrame(db: Tables, db': Tables, h: History, h': History, r: Id)
    requires r in db.refreshes && WithinConsent(db, h, r) && r in db'.refreshes
    requires db'.refreshes[r].(rotatedAt := None, revokedAt := None) ==
             db.refreshes[r].(rotatedAt := None, revokedAt := None)
    requires var f := db.refreshes[r].family;
             f in h'.codeOf && h'.codeOf[f] == h.codeOf[f] && h.codeOf[f] in db'.codes &&
             db'.codes[h.codeOf[f]].(consumedAt := None) == db.codes[h.codeOf[f]].(consumedAt := None) &&
             Ceiling(db, h, f) <= Ceiling(db', h', f)
    requires GrantsOf(db', TokenOf(db, r)) <= GrantsOf(db, TokenOf(db, r))
    ensures WithinConsent(db', h', r)
  {
  }

  /** The unrotated record of a family is the last one of its chain. */
  lemma HeadIsLast(db: Tables, f: Id, c: seq<Id>, record: Id)
    requires ChainOk(db, f, c)
    requires record in db.refreshes && db.refreshes[record].family == f
    requires db.refreshes[record].rotatedAt.None?
    ensures c[|c| - 1] == record
  {
    assert record in c;
    var i :| 0 <= i < |c| && c[i] == record;
    assert i == |c| - 1;
  }
}
