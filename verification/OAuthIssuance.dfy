/** Issuing token pairs: refresh rotation and code redemption keep the invariant. */
module OAuthIssuance {
  import opened Prelude
  import opened OAuthTables
  import opened OAuthTransactions
  import opened OAuthInvariant

  // ---------------------------------------------------------------- issuing a pair

  /** db' is db with one refresh record, its access token, their link and its grants added. */
  ghost predicate Adds(db: Tables, db': Tables, pair: FreshPair, rec: RefreshToken, at: Time,
                       tools: set<Tool>)
  {
    rec.mcpToken == Some(pair.access) && rec.rotatedAt.None? && rec.revokedAt.None? &&
    at <= rec.expiresAt &&
    db' == db.(
      refreshes := db.refreshes[pair.refresh := rec],
      tokens := db.tokens[pair.access := McpToken(rec.user, OAuth, true, Some(at), None, None)],
      links := db.links[pair.access := AccessLink(rec.client, pair.refresh, rec.resource, None)],
      grants := db.grants[pair.access := tools])
  }

  /** An unrevoked family all of whose records have been used up. */
  ghost predicate Spent(db: Tables, f: Id, c: seq<Id>) {
    Distinct(c) && f in db.families && db.families[f].revokedAt.None? && Members(db, f, c) &&
    (forall i, j {:trigger Narrows(db, c[i], c[j])} | 0 <= i < j < |c| :: Narrows(db, c[i], c[j])) &&
    (forall i | 0 <= i < |c| ::
      db.refreshes[c[i]].rotatedAt.Some? && db.refreshes[c[i]].revokedAt.None? && TokenRevoked(db, c[i]))
  }

  lemma IssueRows(db: Tables, db': Tables, pair: FreshPair, rec: RefreshToken, at: Time, tools: set<Tool>)
    requires RowsOk(db) && IsFresh(db, pair) && rec.family in db.families
    requires Adds(db, db', pair, rec, at, tools)
    ensures RowsOk(db')
  {
    forall r | r in db'.refreshes ensures Linked(db', r) {
      if r != pair.refresh { assert Linked(db, r); }
    }
  }

  lemma IssueSameRow(db: Tables, db': Tables, pair: FreshPair, rec: RefreshToken, at: Time,
                     tools: set<Tool>, r: Id)
    requires IsFresh(db, pair) && Adds(db, db', pair, rec, at, tools)
    requires r in db.refreshes && Linked(db, r)
    ensures SameRow(db, db', r)
  {
  }

  lemma IssueChain(db: Tables, db': Tables, pair: FreshPair, rec: RefreshToken, at: Time,
                   tools: set<Tool>, f: Id, c: seq<Id>)
    requires RowsOk(db) && IsFresh(db, pair) && Adds(db, db', pair, rec, at, tools)
    requires rec.family == f && Spent(db, f, c)
    requires forall i | 0 <= i < |c| :: Continues(db.refreshes[c[i]], rec)
    ensures ChainOk(db', f, c + [pair.refresh])
  {
    var d := c + [pair.refresh];
    forall r | r in c ensures SameRow(db, db', r) {
      IssueSameRow(db, db', pair, rec, at, tools, r);
    }
    assert forall i | 0 <= i < |c| :: d[i] == c[i] && c[i] in c;
    assert Distinct(d);
    assert Members(db', f, d) by {
      forall r ensures r in d <==> r in db'.refreshes && db'.refreshes[r].family == f {
        if r in c { assert SameRow(db, db', r); }
      }
    }
    forall i, j | 0 <= i < j < |d| ensures Narrows(db', d[i], d[j]) {
      assert SameRow(db, db', c[i]);
      if j < |c| { assert SameRow(db, db', c[j]) && Narrows(db, c[i], c[j]); }
    }
    forall i | 0 <= i < |c|
      ensures db'.refreshes[d[i]] == db.refreshes[c[i]] && TokenRevoked(db', d[i])
    {
      assert SameRow(db, db', c[i]);
    }
  }

  lemma IssueFrame(db: Tables, db': Tables, pair: FreshPair, rec: RefreshToken, at: Time,
                   tools: set<Tool>, g: Id, d: seq<Id>)
    requires RowsOk(db) && IsFresh(db, pair) && Adds(db, db', pair, rec, at, tools)
    requires rec.family != g && ChainOk(db, g, d)
    ensures ChainOk(db', g, d)
  {
    forall r | r in d ensures SameRow(db, db', r) {
      IssueSameRow(db, db', pair, rec, at, tools, r);
    }
    ChainFrame(db, db', g, d);
  }

  /** The lifetime given to a new access token. */
  function AccessExpiry(cfg: Settings, now: Time, refreshExpiresAt: Time): Time {
    if now + cfg.accessTtlSeconds * SECOND <= refreshExpiresAt
    then now + cfg.accessTtlSeconds * SECOND else refreshExpiresAt
  }

  lemma IssueAdds(db: Tables, dir: Directory, cfg: Settings, client: Id, user: Id, scopes: seq<Scope>,
                  resource: string, family: Id, refreshExpiresAt: Time, selected: set<Tool>, now: Time,
                  pair: FreshPair)
    requires IssuePair(db, dir, cfg, client, user, scopes, resource, family, refreshExpiresAt,
                       selected, now, pair).Issued?
    ensures var issue := IssuePair(db, dir, cfg, client, user, scopes, resource, family,
                                   refreshExpiresAt, selected, now, pair);
            && Adds(db, issue.db, pair,
                 RefreshToken(family, client, user, scopes, resource, Some(pair.access),
                              refreshExpiresAt, None, None),
                 AccessExpiry(cfg, now, refreshExpiresAt), selected * EffectiveTools(db, user))
            && issue.token.access == pair.access && issue.token.refresh == pair.refresh
            && issue.token.scopes == scopes
  {
  }

  // ---------------------------------------------------------------- rotation

  lemma RetireRows(db: Tables, record: Id, now: Time)
    requires RowsOk(db) && record in db.refreshes
    ensures RowsOk(Retire(db, record, now))
  {
    var mid := Retire(db, record, now);
    assert Linked(db, record);
    forall r | r in mid.refreshes ensures Linked(mid, r) {
      assert Linked(db, r);
    }
  }

  lemma RetireSpends(db: Tables, f: Id, c: seq<Id>, record: Id, now: Time)
    requires RowsOk(db) && ChainOk(db, f, c) && db.families[f].revokedAt.None?
    requires record in db.refreshes && db.refreshes[record].family == f
    requires db.refreshes[record].rotatedAt.None?
    ensures Spent(Retire(db, record, now), f, c)
  {
    var mid := Retire(db, record, now);
    HeadIsLast(db, f, c, record);
    assert Linked(db, record);
    forall i | 0 <= i < |c|
      ensures mid.refreshes[c[i]].rotatedAt.Some? && mid.refreshes[c[i]].revokedAt.None?
      ensures TokenRevoked(mid, c[i])
    {
      assert Linked(db, c[i]);
    }
    forall i, j | 0 <= i < j < |c| ensures Narrows(mid, c[i], c[j]) {
      assert Narrows(db, c[i], c[j]);
    }
  }

  lemma RetireFrame(db: Tables, record: Id, now: Time, g: Id, d: seq<Id>)
    requires RowsOk(db) && record in db.refreshes && db.refreshes[record].family != g
    requires ChainOk(db, g, d)
    ensures ChainOk(Retire(db, record, now), g, d)
  {
    var mid := Retire(db, record, now);
    assert Linked(db, record);
    forall r | r in d ensures SameRow(db, mid, r) {
      assert Linked(db, r);
    }
    ChainFrame(db, mid, g, d);
  }

  function AfterRotation(h: History, f: Id, record: Id, token: TokenResponse): History
    requires f in h.chains
  {
    h.(chains := h.chains[f := h.chains[f] + [token.refresh]], minted := h.minted[record := token])
  }

  /** The refresh rows after a rotation: one is marked, one is added. */
  ghost predicate RotatesRows(db: Tables, db': Tables, record: Id, now: Time, added: Id,
                              next: RefreshToken)
  {
    record in db.refreshes && added !in db.refreshes && next.rotatedAt.None? &&
    next.family == db.refreshes[record].family &&
    db'.families == db.families && db'.codes == db.codes && db'.requests == db.requests &&
    db'.refreshes ==
      db.refreshes[record := db.refreshes[record].(rotatedAt := Some(now))][added := next]
  }

  lemma MintsNextFrame(db: Tables, db': Tables, h: History, h': History, c: seq<Id>, i: int)
    requires 0 <= i < |c| - 1 && MintsNext(db, h, c, i)
    requires c[i] in h'.minted && h'.minted[c[i]] == h.minted[c[i]]
    requires c[i + 1] in db'.refreshes
    requires db'.refreshes[c[i + 1]].mcpToken == db.refreshes[c[i + 1]].mcpToken
    requires db'.refreshes[c[i + 1]].scopes == db.refreshes[c[i + 1]].scopes
    ensures MintsNext(db', h', c, i)
  {
  }

  /** Appending the new record keeps every earlier link of the chain. */
  lemma MintsAppend(db: Tables, h: History, c: seq<Id>, x: Id, i: int)
    requires 0 <= i < |c| - 1 && MintsNext(db, h, c, i)
    ensures MintsNext(db, h, c + [x], i)
  {
    var d := c + [x];
    assert d[i] == c[i] && d[i + 1] == c[i + 1];
  }

  lemma RotationMintsChain(db: Tables, db': Tables, h: History, record: Id, now: Time,
                           token: TokenResponse, next: RefreshToken, g: Id, i: int)
    requires RotatesRows(db, db', record, now, token.refresh, next)
    requires next.mcpToken == Some(token.access) && next.scopes == token.scopes
    requires g in h.chains && ChainOk(db, g, h.chains[g])
    requires db.refreshes[record].rotatedAt.None? && next.family in h.chains
    requires forall j | 0 <= j < |h.chains[g]| - 1 :: MintsNext(db, h, h.chains[g], j)
    requires 0 <= i < |AfterRotation(h, next.family, record, token).chains[g]| - 1
    ensures var h' := AfterRotation(h, next.family, record, token);
            MintsNext(db', h', h'.chains[g], i)
  {
    var h' := AfterRotation(h, next.family, record, token);
    var c := h.chains[g];
    if i < |c| - 1 {
      assert db.refreshes[c[i]].rotatedAt.Some?;
      assert MintsNext(db, h, c, i);
      MintsNextFrame(db, db', h, h', c, i);
      if g == next.family { MintsAppend(db', h', c, token.refresh, i); }
    } else {
      HeadIsLast(db, g, c, record);
      assert h'.chains[g][i] == record;
    }
  }

  lemma RotationMints(db: Tables, db': Tables, h: History, record: Id, now: Time,
                      token: TokenResponse, next: RefreshToken)
    requires ChainsOk(db, h) && MintedOk(db, h)
    requires RotatesRows(db, db', record, now, token.refresh, next)
    requires next.mcpToken == Some(token.access) && next.scopes == token.scopes
    requires db.refreshes[record].rotatedAt.None? && next.family in h.chains
    ensures MintedOk(db', AfterRotation(h, next.family, record, token))
  {
    var h' := AfterRotation(h, next.family, record, token);
    forall g, i | g in h'.chains && 0 <= i < |h'.chains[g]| - 1
      ensures MintsNext(db', h', h'.chains[g], i)
    {
      RotationMintsChain(db, db', h, record, now, token, next, g, i);
    }
  }

  lemma RotationAuthority(db: Tables, db': Tables, h: History, h': History, record: Id, now: Time,
                          pair: FreshPair, next: RefreshToken, tools: set<Tool>)
    requires RowsOk(db) && AuthorityOk(db, h)
    requires h'.codeOf == h.codeOf && h'.edits == h.edits
    requires RotatesRows(db, db', record, now, pair.refresh, next)
    requires Continues(db.refreshes[record], next) && next.mcpToken == Some(pair.access)
    requires pair.access !in db.tokens && db'.grants == db.grants[pair.access := tools]
    requires Linked(db, record) && tools <= GrantsOf(db, TokenOf(db, record))
    ensures AuthorityOk(db', h')
  {
    forall r | r in db'.refreshes ensures WithinConsent(db', h', r) {
      if r == pair.refresh {
        RotatedWithin(db, db', h, h', record, pair, tools);
      } else {
        assert Linked(db, r) && WithinConsent(db, h, r);
        UnrotatedWithin(db, db', h, h', record, now, pair, next, tools, r);
      }
    }
  }

  lemma UnrotatedWithin(db: Tables, db': Tables, h: History, h': History, record: Id, now: Time,
                        pair: FreshPair, next: RefreshToken, tools: set<Tool>, r: Id)
    requires h'.codeOf == h.codeOf && h'.edits == h.edits
    requires RotatesRows(db, db', record, now, pair.refresh, next) && r != pair.refresh
    requires r in db.refreshes && Linked(db, r) && WithinConsent(db, h, r)
    requires pair.access !in db.tokens && db'.grants == db.grants[pair.access := tools]
    ensures WithinConsent(db', h', r)
  {
    WithinFrame(db, db', h, h', r);
  }

  lemma RotatedWithin(db: Tables, db': Tables, h: History, h': History, record: Id,
                      pair: FreshPair, tools: set<Tool>)
    requires h'.codeOf == h.codeOf && h'.edits == h.edits && db'.codes == db.codes
    requires record in db.refreshes && WithinConsent(db, h, record)
    requires pair.refresh in db'.refreshes
    requires var next := db'.refreshes[pair.refresh];
             next.mcpToken == Some(pair.access) && next.family == db.refreshes[record].family &&
             Continues(db.refreshes[record], next)
    requires db'.grants == db.grants[pair.access := tools] && tools <= GrantsOf(db, TokenOf(db, record))
    ensures WithinConsent(db', h', pair.refresh)
  {
  }

  lemma IssueGrants(db: Tables, mid: Tables, db': Tables, pair: FreshPair, rec: RefreshToken, at: Time,
                    tools: set<Tool>)
    requires GrantsOk(db) && mid.grants == db.grants && mid.allowances == db.allowances
    requires forall t | t in db.tokens :: t in mid.tokens && mid.tokens[t].user == db.tokens[t].user
    requires IsFresh(mid, pair) && Adds(mid, db', pair, rec, at, tools)
    requires tools <= AllowancesOf(mid, rec.user)
    ensures GrantsOk(db')
  {
  }

  lemma RotationChains(db: Tables, h: History, mid: Tables, db': Tables, record: Id, now: Time,
                       pair: FreshPair, next: RefreshToken, at: Time, tools: set<Tool>, g: Id)
    requires RowsOk(db) && record in db.refreshes && g in h.chains && ChainOk(db, g, h.chains[g])
    requires mid == Retire(db, record, now) && RowsOk(mid) && IsFresh(mid, pair)
    requires db.refreshes[record].rotatedAt.None? && db.refreshes[record].revokedAt.None?
    requires Adds(mid, db', pair, next, at, tools)
    requires next.family == db.refreshes[record].family && Continues(db.refreshes[record], next)
    ensures ChainOk(db', g, if g == next.family then h.chains[g] + [pair.refresh] else h.chains[g])
  {
    var c := h.chains[g];
    if g == next.family {
      RotationExtends(db, mid, db', record, now, pair, next, at, tools, g, c);
    } else {
      RetireFrame(db, record, now, g, c);
      IssueFrame(mid, db', pair, next, at, tools, g, c);
    }
  }

  lemma RotationExtends(db: Tables, mid: Tables, db': Tables, record: Id, now: Time,
                        pair: FreshPair, next: RefreshToken, at: Time, tools: set<Tool>, f: Id,
                        c: seq<Id>)
    requires RowsOk(db) && record in db.refreshes && ChainOk(db, f, c)
    requires mid == Retire(db, record, now) && RowsOk(mid) && IsFresh(mid, pair)
    requires db.refreshes[record].rotatedAt.None? && db.refreshes[record].revokedAt.None?
    requires Adds(mid, db', pair, next, at, tools)
    requires next.family == db.refreshes[record].family == f && Continues(db.refreshes[record], next)
    ensures ChainOk(db', f, c + [pair.refresh])
  {
    RetireSpends(db, f, c, record, now);
    HeadNarrowest(db, f, c, record, now, next);
    IssueChain(mid, db', pair, next, at, tools, f, c);
  }

  /** What continues the head continues every record before it. */
  lemma HeadNarrowest(db: Tables, f: Id, c: seq<Id>, record: Id, now: Time, next: RefreshToken)
    requires ChainOk(db, f, c) && record in db.refreshes && db.refreshes[record].family == f
    requires db.refreshes[record].rotatedAt.None? && Continues(db.refreshes[record], next)
    ensures forall i | 0 <= i < |c| ::
              c[i] in db.refreshes && Continues(Retire(db, record, now).refreshes[c[i]], next)
  {
    HeadIsLast(db, f, c, record);
    forall i | 0 <= i < |c|
      ensures c[i] in db.refreshes && Continues(Retire(db, record, now).refreshes[c[i]], next)
    {
      assert c[i] in c;
      if i < |c| - 1 { assert Narrows(db, c[i], c[|c| - 1]); }
    }
  }

  lemma RotationKeeps(db: Tables, h: History, dir: Directory, cfg: Settings, record: Id,
                      scopes: seq<Scope>, now: Time, issueNow: Time, pair: FreshPair)
    requires Inv(db, h) && record in db.refreshes && IsFresh(db, pair)
    requires db.refreshes[record].rotatedAt.None? && db.refreshes[record].revokedAt.None?
    requires ScopesWithin(scopes, db.refreshes[record].scopes)
    requires Rotate(db, dir, cfg, record, scopes, now, issueNow, pair).Issued?
    ensures var out := Rotate(db, dir, cfg, record, scopes, now, issueNow, pair);
            db.refreshes[record].family in h.chains &&
            Inv(out.db, AfterRotation(h, db.refreshes[record].family, record, out.token))
  {
    var out := Rotate(db, dir, cfg, record, scopes, now, issueNow, pair);
    assert Linked(db, record);
    var rec := db.refreshes[record];
    var t := TokenOf(db, record);
    var mid := Retire(db, record, now);
    var next := RefreshToken(rec.family, rec.client, rec.user, scopes, rec.resource,
                             Some(pair.access), rec.expiresAt, None, None);
    var at := AccessExpiry(cfg, issueNow, rec.expiresAt);
    var tools := GrantsOf(db, t) * EffectiveTools(mid, rec.user);
    IssueAdds(mid, dir, cfg, rec.client, rec.user, scopes, rec.resource, rec.family, rec.expiresAt,
              GrantsOf(db, t), issueNow, pair);
    RotationKeepsParts(db, h, mid, out.db, record, now, pair, next, at, tools, out.token);
  }

  lemma RotationKeepsParts(db: Tables, h: History, mid: Tables, db': Tables, record: Id, now: Time,
                           pair: FreshPair, next: RefreshToken, at: Time, tools: set<Tool>,
                           token: TokenResponse)
    requires Inv(db, h) && record in db.refreshes && IsFresh(db, pair) && Linked(db, record)
    requires db.refreshes[record].rotatedAt.None? && db.refreshes[record].revokedAt.None?
    requires mid == Retire(db, record, now) && Adds(mid, db', pair, next, at, tools)
    requires next.family == db.refreshes[record].family && Continues(db.refreshes[record], next)
    requires token.access == pair.access && token.refresh == pair.refresh && token.scopes == next.scopes
    requires tools <= GrantsOf(db, TokenOf(db, record)) && tools <= AllowancesOf(db, next.user)
    ensures next.family in h.chains && Inv(db', AfterRotation(h, next.family, record, token))
  {
    RotationKeepsStructure(db, h, mid, db', record, now, pair, next, at, tools, token);
    RotationKeepsPolicy(db, h, mid, db', record, now, pair, next, at, tools, token);
  }

  lemma RotationKeepsStructure(db: Tables, h: History, mid: Tables, db': Tables, record: Id, now: Time,
                               pair: FreshPair, next: RefreshToken, at: Time, tools: set<Tool>,
                               token: TokenResponse)
    requires ChainInv(db, h)
    requires record in db.refreshes && IsFresh(db, pair) && Linked(db, record)
    requires db.refreshes[record].rotatedAt.None? && db.refreshes[record].revokedAt.None?
    requires mid == Retire(db, record, now) && Adds(mid, db', pair, next, at, tools)
    requires next.family == db.refreshes[record].family && Continues(db.refreshes[record], next)
    requires token.access == pair.access && token.refresh == pair.refresh && token.scopes == next.scopes
    ensures next.family in h.chains && ChainInv(db', AfterRotation(h, next.family, record, token))
  {
    assert RotatesRows(db, db', record, now, pair.refresh, next);
    RotationKeepsRows(db, mid, db', record, now, pair, next, at, tools);
    RotationKeepsChains(db, h, mid, db', record, now, pair, next, at, tools, token);
    RotationMints(db, db', h, record, now, token, next);
  }

  lemma RotationKeepsPolicy(db: Tables, h: History, mid: Tables, db': Tables, record: Id, now: Time,
                            pair: FreshPair, next: RefreshToken, at: Time, tools: set<Tool>,
                            token: TokenResponse)
    requires RowsOk(db) && PolicyInv(db, h)
    requires record in db.refreshes && IsFresh(db, pair) && Linked(db, record)
    requires mid == Retire(db, record, now) && Adds(mid, db', pair, next, at, tools)
    requires next.family == db.refreshes[record].family && Continues(db.refreshes[record], next)
    requires tools <= GrantsOf(db, TokenOf(db, record)) && tools <= AllowancesOf(db, next.user)
    requires next.family in h.chains
    ensures PolicyInv(db', AfterRotation(h, next.family, record, token))
  {
    var h' := AfterRotation(h, next.family, record, token);
    OriginsFrame(db, db', h, h');
    RotationAuthorityKept(db, h, h', mid, db', record, now, pair, next, at, tools);
    RotationGrants(db, mid, db', record, now, pair, next, at, tools);
  }

  lemma RotationAuthorityKept(db: Tables, h: History, h': History, mid: Tables, db': Tables, record: Id, now: Time,
                              pair: FreshPair, next: RefreshToken, at: Time, tools: set<Tool>)
    requires RowsOk(db) && AuthorityOk(db, h)
    requires record in db.refreshes && IsFresh(db, pair) && Linked(db, record)
    requires mid == Retire(db, record, now) && Adds(mid, db', pair, next, at, tools)
    requires next.family == db.refreshes[record].family && Continues(db.refreshes[record], next)
    requires tools <= GrantsOf(db, TokenOf(db, record))
    requires h'.codeOf == h.codeOf && h'.edits == h.edits
    ensures AuthorityOk(db', h')
  {
    assert RotatesRows(db, db', record, now, pair.refresh, next);
    RotationAuthority(db, db', h, h', record, now, pair, next, tools);
  }

  lemma RotationGrants(db: Tables, mid: Tables, db': Tables, record: Id, now: Time, pair: FreshPair,
                       next: RefreshToken, at: Time, tools: set<Tool>)
    requires GrantsOk(db) && record in db.refreshes && IsFresh(db, pair) && Linked(db, record)
    requires mid == Retire(db, record, now) && Adds(mid, db', pair, next, at, tools)
    requires tools <= AllowancesOf(db, next.user)
    ensures GrantsOk(db')
  {
    IssueGrants(db, mid, db', pair, next, at, tools);
  }

  lemma RotationKeepsRows(db: Tables, mid: Tables, db': Tables, record: Id, now: Time,
                          pair: FreshPair, next: RefreshToken, at: Time, tools: set<Tool>)
    requires RowsOk(db) && record in db.refreshes && IsFresh(db, pair) && Linked(db, record)
    requires mid == Retire(db, record, now) && Adds(mid, db', pair, next, at, tools)
    requires next.family in db.families
    ensures RowsOk(db')
  {
    RetireRows(db, record, now);
    IssueRows(mid, db', pair, next, at, tools);
  }

  lemma RotationKeepsChains(db: Tables, h: History, mid: Tables, db': Tables, record: Id, now: Time,
                            pair: FreshPair, next: RefreshToken, at: Time, tools: set<Tool>,
                            token: TokenResponse)
    requires RowsOk(db) && ChainsOk(db, h)
    requires record in db.refreshes && IsFresh(db, pair) && Linked(db, record)
    requires db.refreshes[record].rotatedAt.None? && db.refreshes[record].revokedAt.None?
    requires mid == Retire(db, record, now) && Adds(mid, db', pair, next, at, tools)
    requires next.family == db.refreshes[record].family && Continues(db.refreshes[record], next)
    requires token.refresh == pair.refresh && next.family in h.chains
    ensures ChainsOk(db', AfterRotation(h, next.family, record, token))
  {
    RetireRows(db, record, now);
    RotationFamilies(db, mid, db', record, now, pair, next, at, tools);
    RotationKeepsEveryChain(db, h, AfterRotation(h, next.family, record, token), mid, db', record, now, pair,
                            next, at, tools);
  }

  lemma RotationKeepsEveryChain(db: Tables, h: History, h': History, mid: Tables, db': Tables, record: Id,
                                now: Time, pair: FreshPair, next: RefreshToken, at: Time, tools: set<Tool>)
    requires RowsOk(db) && RowsOk(mid) && ChainsOk(db, h)
    requires record in db.refreshes && IsFresh(mid, pair)
    requires db.refreshes[record].rotatedAt.None? && db.refreshes[record].revokedAt.None?
    requires mid == Retire(db, record, now) && Adds(mid, db', pair, next, at, tools)
    requires next.family == db.refreshes[record].family && Continues(db.refreshes[record], next)
    requires next.family in h.chains && db'.families == db.families
    requires h'.chains == h.chains[next.family := h.chains[next.family] + [pair.refresh]]
    ensures ChainsOk(db', h')
  {
    forall g | g in db'.families ensures ChainOk(db', g, h'.chains[g]) {
      assert ChainOk(db, g, h.chains[g]);
      RotationChains(db, h, mid, db', record, now, pair, next, at, tools, g);
    }
  }

  lemma RotationFamilies(db: Tables, mid: Tables, db': Tables, record: Id, now: Time, pair: FreshPair,
                         next: RefreshToken, at: Time, tools: set<Tool>)
    requires record in db.refreshes && mid == Retire(db, record, now) && Adds(mid, db', pair, next, at, tools)
    ensures db'.families == db.families
  {
    RetireFamilies(db, record, now);
    AddsFamilies(mid, db', pair, next, at, tools);
  }

  lemma RetireFamilies(db: Tables, record: Id, now: Time)
    requires record in db.refreshes
    ensures Retire(db, record, now).families == db.families
  {
    var rec := db.refreshes[record];
    var marked := db.(refreshes := db.refreshes[record := rec.(rotatedAt := Some(now))]);
    if rec.mcpToken.Some? { RetireTokenFamilies(marked, rec.mcpToken.value, now); }
  }

  lemma RetireTokenFamilies(db: Tables, token: Id, now: Time)
    ensures RetireToken(db, token, now).families == db.families
  {
  }

  lemma AddsFamilies(db: Tables, db': Tables, pair: FreshPair, rec: RefreshToken, at: Time, tools: set<Tool>)
    requires Adds(db, db', pair, rec, at, tools)
    ensures db'.families == db.families
  {
  }

  // ---------------------------------------------------------------- code redemption

  function AfterRedemption(h: History, f: Id, code: Id, token: TokenResponse): History {
    h.(chains := h.chains[f := [token.refresh]], codeOf := h.codeOf[f := code],
       edits := h.edits[f := {}])
  }

  lemma ConsumeFrame(db: Tables, code: Id, f: Id, now: Time, g: Id, d: seq<Id>)
    requires RowsOk(db) && code in db.codes && f !in db.families && g != f
    requires ChainOk(db, g, d)
    ensures ChainOk(Consume(db, code, f, now), g, d)
  {
    forall r | r in d ensures SameRow(db, Consume(db, code, f, now), r) {
      assert Linked(db, r);
    }
    ChainFrame(db, Consume(db, code, f, now), g, d);
  }

  lemma ConsumeRows(db: Tables, code: Id, f: Id, now: Time)
    requires RowsOk(db) && code in db.codes && f !in db.families
    ensures RowsOk(Consume(db, code, f, now)) && Spent(Consume(db, code, f, now), f, [])
  {
    var mid := Consume(db, code, f, now);
    forall r | r in mid.refreshes ensures Linked(mid, r) && mid.refreshes[r].family != f {
      assert Linked(db, r);
    }
  }

  lemma RedemptionKeepsChain(db: Tables, mid: Tables, db': Tables, code: Id, f: Id,
                             now: Time, pair: FreshPair, rec: RefreshToken, at: Time,
                             tools: set<Tool>, g: Id, d: seq<Id>)
    requires RowsOk(db) && RowsOk(mid) && code in db.codes && f !in db.families && IsFresh(db, pair)
    requires mid == Consume(db, code, f, now) && Adds(mid, db', pair, rec, at, tools)
    requires rec.family == f
    requires if g == f then Spent(mid, f, d) else ChainOk(db, g, d)
    requires g == f ==> d == []
    ensures ChainOk(db', g, if g == f then [pair.refresh] else d)
  {
    if g == f {
      IssueChain(mid, db', pair, rec, at, tools, f, []);
      assert [] + [pair.refresh] == [pair.refresh];
    } else {
      ConsumeFrame(db, code, f, now, g, d);
      IssueFrame(mid, db', pair, rec, at, tools, g, d);
    }
  }

  lemma RedemptionKeepsChains(db: Tables, h: History, mid: Tables, db': Tables, code: Id, f: Id,
                              now: Time, pair: FreshPair, rec: RefreshToken, at: Time,
                              tools: set<Tool>, token: TokenResponse)
    requires RowsOk(db) && RowsOk(mid) && ChainsOk(db, h) && Spent(mid, f, [])
    requires code in db.codes && f !in db.families && IsFresh(db, pair)
    requires mid == Consume(db, code, f, now) && Adds(mid, db', pair, rec, at, tools)
    requires rec.family == f && token.refresh == pair.refresh
    ensures ChainsOk(db', AfterRedemption(h, f, code, token))
  {
    var h' := AfterRedemption(h, f, code, token);
    forall g | g in db'.families ensures ChainOk(db', g, h'.chains[g]) {
      RedemptionKeepsChain(db, mid, db', code, f, now, pair, rec, at, tools, g,
                           if g == f then [] else h.chains[g]);
    }
  }

  lemma RedemptionMints(db: Tables, h: History, db': Tables, code: Id, f: Id, pair: FreshPair,
                        rec: RefreshToken, token: TokenResponse)
    requires ChainsOk(db, h) && MintedOk(db, h) && f !in db.families
    requires pair.refresh !in db.refreshes && db'.refreshes == db.refreshes[pair.refresh := rec]
    requires rec.rotatedAt.None?
    ensures MintedOk(db', AfterRedemption(h, f, code, token))
  {
    var h' := AfterRedemption(h, f, code, token);
    forall g, i | g in h'.chains && 0 <= i < |h'.chains[g]| - 1
      ensures MintsNext(db', h', h'.chains[g], i)
    {
      assert MintsNext(db, h, h.chains[g], i);
      MintsNextFrame(db, db', h, h', h.chains[g], i);
    }
  }

  lemma RedemptionFamilies(db: Tables, h: History, db': Tables, code: Id, f: Id, now: Time,
                           token: TokenResponse)
    requires FamilyOrigins(db, h) && code in db.codes && db.codes[code].consumedAt.None?
    requires f !in db.families
    requires db'.codes == db.codes[code := db.codes[code].(consumedAt := Some(now))]
    requires db'.families == db.families[f := Family(None)]
    ensures FamilyOrigins(db', AfterRedemption(h, f, code, token))
  {
    var h' := AfterRedemption(h, f, code, token);
    forall g | g in db.families ensures h'.codeOf[g] == h.codeOf[g] != code {}
  }

  lemma RedemptionCodes(db: Tables, h: History, db': Tables, code: Id, f: Id, now: Time,
                        token: TokenResponse)
    requires CodeOrigins(db, h) && code in db.codes && db'.requests == db.requests
    requires db'.codes == db.codes[code := db.codes[code].(consumedAt := Some(now))]
    ensures CodeOrigins(db', AfterRedemption(h, f, code, token))
  {
  }

  lemma RedemptionAuthority(db: Tables, h: History, db': Tables, code: Id, f: Id, now: Time,
                            pair: FreshPair, rec: RefreshToken, tools: set<Tool>,
                            token: TokenResponse)
    requires RowsOk(db) && AuthorityOk(db, h)
    requires code in db.codes && f !in db.families && IsFresh(db, pair)
    requires db'.refreshes == db.refreshes[pair.refresh := rec]
    requires db'.codes == db.codes[code := db.codes[code].(consumedAt := Some(now))]
    requires db'.grants == db.grants[pair.access := tools]
    requires var k := db.codes[code];
             rec.family == f && rec.user == k.user && rec.client == k.client &&
             rec.resource == k.resource && rec.scopes == k.scopes &&
             k.refreshExpiresAt == Some(rec.expiresAt) && tools <= k.tools
    requires rec.mcpToken == Some(pair.access)
    ensures AuthorityOk(db', AfterRedemption(h, f, code, token))
  {
    var h' := AfterRedemption(h, f, code, token);
    forall r | r in db'.refreshes ensures WithinConsent(db', h', r) {
      if r != pair.refresh {
        assert Linked(db, r) && WithinConsent(db, h, r);
        assert db.refreshes[r].family != f && TokenOf(db, r) != pair.access;
        WithinFrame(db, db', h, h', r);
      }
    }
  }

  lemma RedemptionKeeps(db: Tables, h: History, dir: Directory, cfg: Settings, clientId: string,
                        stored: StoredCode, now: Time, issueNow: Time, f: Id, pair: FreshPair)
    requires Inv(db, h) && f !in db.families && IsFresh(db, pair)
    requires RedeemCode(db, dir, cfg, clientId, stored, now, issueNow, f, pair).Issued?
    ensures var out := RedeemCode(db, dir, cfg, clientId, stored, now, issueNow, f, pair);
            Inv(out.db, AfterRedemption(h, f, stored.record, out.token))
  {
    var out := RedeemCode(db, dir, cfg, clientId, stored, now, issueNow, f, pair);
    var code := db.codes[stored.record];
    assert h.requestOf[stored.record] in db.requests;
    var mid := Consume(db, stored.record, f, now);
    var expiry := code.refreshExpiresAt.value;
    var rec := RefreshToken(f, code.client, code.user, code.scopes, code.resource,
                            Some(pair.access), expiry, None, None);
    var tools := code.tools * EffectiveTools(mid, code.user);
    IssueAdds(mid, dir, cfg, code.client, code.user, code.scopes, code.resource, f, expiry,
              code.tools, issueNow, pair);
    ConsumeRows(db, stored.record, f, now);
    var at := AccessExpiry(cfg, issueNow, expiry);
    IssueRows(mid, out.db, pair, rec, at, tools);
    RedemptionKeepsChains(db, h, mid, out.db, stored.record, f, now, pair, rec, at, tools, out.token);
    RedemptionMints(db, h, out.db, stored.record, f, pair, rec, out.token);
    RedemptionFamilies(db, h, out.db, stored.record, f, now, out.token);
    RedemptionCodes(db, h, out.db, stored.record, f, now, out.token);
    RedemptionAuthority(db, h, out.db, stored.record, f, now, pair, rec, tools, out.token);
    IssueGrants(db, mid, out.db, pair, rec, at, tools);
  }
}
