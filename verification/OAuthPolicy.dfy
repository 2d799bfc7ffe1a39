/** Consent, bearer stamps, static tokens and tool-permission edits keep the invariant. */
module OAuthPolicy {
  import opened Prelude
  import opened OAuthTables
  import opened OAuthTransactions
  import opened OAuthInvariant

  /** Token rows may be stamped, and static ones added, without touching any family. */
  ghost predicate SameStructure(db: Tables, db': Tables) {
    db'.families == db.families && db'.refreshes == db.refreshes && db'.links == db.links &&
    (forall t | t in db.tokens ::
      t in db'.tokens && db'.tokens[t].(lastUsedAt := None) == db.tokens[t].(lastUsedAt := None)) &&
    (forall t | t in db'.tokens && t !in db.tokens :: db'.tokens[t].kind != OAuth)
  }

  lemma StructureRows(db: Tables, db': Tables)
    requires RowsOk(db) && SameStructure(db, db')
    ensures RowsOk(db')
  {
    forall r | r in db'.refreshes ensures Linked(db', r) { assert Linked(db, r); }
  }

  lemma StructureChains(db: Tables, db': Tables, h: History, h': History)
    requires RowsOk(db) && ChainsOk(db, h) && SameStructure(db, db') && h'.chains == h.chains
    ensures ChainsOk(db', h')
  {
    forall g | g in db'.families ensures ChainOk(db', g, h'.chains[g]) {
      var c := h.chains[g];
      assert ChainOk(db, g, c);
      forall r | r in c ensures SameRow(db, db', r) { assert Linked(db, r); }
      ChainFrame(db, db', g, c);
    }
  }

  lemma StructureFrame(db: Tables, db': Tables, h: History, h': History)
    requires ChainInv(db, h) && SameStructure(db, db')
    requires h'.chains == h.chains && h'.minted == h.minted
    ensures ChainInv(db', h')
  {
    StructureRows(db, db');
    StructureChains(db, db', h, h');
    MintsFrame(db, db', h, h');
  }

  lemma AuthorityFrame(db: Tables, db': Tables, h: History)
    requires AuthorityOk(db, h) && db'.refreshes == db.refreshes && db'.codes == db.codes
    requires forall t :: GrantsOf(db', t) <= GrantsOf(db, t)
    ensures AuthorityOk(db', h)
  {
    forall r | r in db'.refreshes ensures WithinConsent(db', h, r) {
      assert WithinConsent(db, h, r);
    }
  }

  /** Nothing that policy depends on has changed. */
  lemma PolicyFrame(db: Tables, db': Tables, h: History)
    requires PolicyInv(db, h)
    requires db' == db.(tokens := db'.tokens, settings := db'.settings)
    requires forall t | t in db.tokens :: t in db'.tokens && db'.tokens[t].user == db.tokens[t].user
    ensures PolicyInv(db', h)
  {
    AuthorityFrame(db, db', h);
    OriginsFrame(db, db', h, h);
  }

  // ---------------------------------------------------------------- stamps and static tokens

  lemma StampSame(db: Tables, token: Id, now: Time)
    ensures var db' := Stamp(db, token, now);
            SameStructure(db, db') && db' == db.(tokens := db'.tokens) &&
            forall t | t in db.tokens :: t in db'.tokens && db'.tokens[t].user == db.tokens[t].user
  {
    if StampSucceeds(db, token) { StampedRow(db, token, db.tokens[token].(lastUsedAt := Some(now))); }
  }

  lemma StampedRow(db: Tables, token: Id, row: McpToken)
    requires token in db.tokens && row == db.tokens[token].(lastUsedAt := row.lastUsedAt)
    ensures SameStructure(db, db.(tokens := db.tokens[token := row]))
  {
  }

  lemma StampKeeps(db: Tables, h: History, token: Id, now: Time)
    requires Inv(db, h)
    ensures Inv(Stamp(db, token, now), h)
  {
    var db' := Stamp(db, token, now);
    StampSame(db, token, now);
    StructureFrame(db, db', h, h);
    PolicyFrame(db, db', h);
  }

  function CreateStatic(db: Tables, id: Id, user: Id, expiresAt: Option<Time>): Tables {
    db.(tokens := db.tokens[id := McpToken(user, Static, true, expiresAt, None, None)])
  }

  lemma CreateStaticKeeps(db: Tables, h: History, id: Id, user: Id, expiresAt: Option<Time>)
    requires Inv(db, h) && id !in db.tokens
    ensures Inv(CreateStatic(db, id, user, expiresAt), h)
  {
    var db' := CreateStatic(db, id, user, expiresAt);
    StructureFrame(db, db', h, h);
    PolicyFrame(db, db', h);
  }

  // ---------------------------------------------------------------- tool permissions

  /** Permissions, requests and codes do not matter to the chains. */
  lemma PermissionFrame(db: Tables, db': Tables, h: History, h': History)
    requires ChainInv(db, h)
    requires db'.families == db.families && db'.refreshes == db.refreshes && db'.links == db.links
    requires db'.tokens == db.tokens && h'.chains == h.chains && h'.minted == h.minted
    ensures ChainInv(db', h')
  {
    StructureFrame(db, db', h, h');
  }

  lemma AllowancesGrants(db: Tables, user: Id, tools: set<Tool>)
    requires GrantsOk(db)
    ensures GrantsOk(ReplaceAllowances(db, user, tools))
  {
    var db' := ReplaceAllowances(db, user, tools);
    forall t | t in db'.grants
      ensures t in db'.tokens && db'.grants[t] <= AllowancesOf(db', db'.tokens[t].user)
    {
      assert t in db.grants;
      if db.tokens[t].user == user { assert t in OwnedTokens(db, user); }
    }
  }

  lemma AllowancesKeep(db: Tables, h: History, user: Id, tools: set<Tool>)
    requires Inv(db, h)
    ensures Inv(ReplaceAllowances(db, user, tools), h)
  {
    var db' := ReplaceAllowances(db, user, tools);
    PermissionFrame(db, db', h, h);
    AuthorityFrame(db, db', h);
    OriginsFrame(db, db', h, h);
    AllowancesGrants(db, user, tools);
  }

  lemma SettingsKeep(db: Tables, h: History, settings: map<Tool, ToolSetting>)
    requires Inv(db, h)
    ensures Inv(db.(settings := settings), h)
  {
    var db' := db.(settings := settings);
    PermissionFrame(db, db', h, h);
    PolicyFrame(db, db', h);
  }

  /** An explicit grant edit raises the ceiling of the family it touches, and nothing else does. */
  function AfterEdit(h: History, family: Option<Id>, tools: set<Tool>): History {
    if family.Some? && family.value in h.edits
    then h.(edits := h.edits[family.value := h.edits[family.value] + tools])
    else h
  }

  lemma EditKeeps(db: Tables, h: History, user: Id, token: Id, tools: set<Tool>)
    requires Inv(db, h) && MayReplaceGrants(db, user, token, tools)
    ensures Inv(ReplaceGrants(db, token, tools), AfterEdit(h, FamilyOfToken(db, token), tools))
  {
    var db' := ReplaceGrants(db, token, tools);
    var h' := AfterEdit(h, FamilyOfToken(db, token), tools);
    PermissionFrame(db, db', h, h');
    EditOrigins(db, db', h, FamilyOfToken(db, token), tools);
    EditAuthority(db, h, token, tools);
    EditGrants(db, user, token, tools);
  }

  lemma EditGrants(db: Tables, user: Id, token: Id, tools: set<Tool>)
    requires GrantsOk(db) && MayReplaceGrants(db, user, token, tools)
    ensures GrantsOk(ReplaceGrants(db, token, tools))
  {
  }

  lemma EditOrigins(db: Tables, db': Tables, h: History, family: Option<Id>, tools: set<Tool>)
    requires FamilyOrigins(db, h) && CodeOrigins(db, h)
    requires db'.families == db.families && db'.codes == db.codes && db'.requests == db.requests
    ensures FamilyOrigins(db', AfterEdit(h, family, tools)) &&
            CodeOrigins(db', AfterEdit(h, family, tools))
  {
    EditFamilies(db, db', h, family, tools);
  }

  lemma EditFamilies(db: Tables, db': Tables, h: History, family: Option<Id>, tools: set<Tool>)
    requires FamilyOrigins(db, h) && db'.families == db.families && db'.codes == db.codes
    ensures FamilyOrigins(db', AfterEdit(h, family, tools))
  {
    assert AfterEdit(h, family, tools).edits.Keys == h.edits.Keys;
  }

  lemma EditAuthority(db: Tables, h: History, token: Id, tools: set<Tool>)
    requires RowsOk(db) && AuthorityOk(db, h) && h.edits.Keys == db.families.Keys
    ensures AuthorityOk(ReplaceGrants(db, token, tools), AfterEdit(h, FamilyOfToken(db, token), tools))
  {
    var db' := ReplaceGrants(db, token, tools);
    var h' := AfterEdit(h, FamilyOfToken(db, token), tools);
    forall r | r in db'.refreshes ensures WithinConsent(db', h', r) {
      assert Linked(db, r) && WithinConsent(db, h, r);
    }
  }

  // ---------------------------------------------------------------- consent

  /** Requests may be added and resolved without touching what codes and families stem from. */
  lemma RequestsFrame(db: Tables, db': Tables, h: History)
    requires FamilyOrigins(db, h) && CodeOrigins(db, h)
    requires db'.families == db.families && db'.codes == db.codes
    requires forall q | q in db.requests && db.requests[q].resolvedAt.Some? ::
               q in db'.requests && db'.requests[q].resolvedAt.Some?
    ensures FamilyOrigins(db', h) && CodeOrigins(db', h)
  {
  }

  lemma ResolveRequestKeeps(db: Tables, h: History, request: Id, now: Time)
    requires Inv(db, h) && request in db.requests
    ensures Inv(ResolveRequest(db, request, now), h)
  {
    var db' := ResolveRequest(db, request, now);
    PermissionFrame(db, db', h, h);
    AuthorityFrame(db, db', h);
    RequestsFrame(db, db', h);
  }

  lemma NewRequestKeeps(db: Tables, h: History, id: Id, request: AuthRequest)
    requires Inv(db, h) && id !in db.requests
    ensures Inv(db.(requests := db.requests[id := request]), h)
  {
    var db' := db.(requests := db.requests[id := request]);
    PermissionFrame(db, db', h, h);
    AuthorityFrame(db, db', h);
    RequestsFrame(db, db', h);
  }

  function AfterApproval(h: History, code: Id, request: Id): History {
    h.(requestOf := h.requestOf[code := request])
  }

  lemma ApprovalOrigins(db: Tables, h: History, db': Tables, code: Id, request: Id, now: Time,
                        record: AuthCode)
    requires FamilyOrigins(db, h) && CodeOrigins(db, h) && code !in db.codes
    requires request in db.requests && db.requests[request].resolvedAt.None?
    requires record.refreshExpiresAt.Some?
    requires db'.families == db.families && db'.codes == db.codes[code := record]
    requires db'.requests == ResolveRequest(db, request, now).requests
    ensures FamilyOrigins(db', AfterApproval(h, code, request)) &&
            CodeOrigins(db', AfterApproval(h, code, request))
  {
    ApprovalFamilies(db, h, db', code, request);
    ApprovalCodes(db, h, db', code, request);
  }

  lemma ApprovalFamilies(db: Tables, h: History, db': Tables, code: Id, request: Id)
    requires FamilyOrigins(db, h) && db'.families == db.families && code !in db.codes && code in db'.codes
    requires db'.codes == db.codes[code := db'.codes[code]]
    ensures FamilyOrigins(db', AfterApproval(h, code, request))
  {
  }

  lemma ApprovalCodes(db: Tables, h: History, db': Tables, code: Id, request: Id)
    requires CodeOrigins(db, h) && code !in db.codes && code in db'.codes && db'.codes[code].refreshExpiresAt.Some?
    requires db'.codes == db.codes[code := db'.codes[code]]
    requires request in db.requests && db.requests[request].resolvedAt.None?
    requires request in db'.requests && db'.requests[request].resolvedAt.Some?
    requires forall q | q in db.requests && q != request :: q in db'.requests && db'.requests[q] == db.requests[q]
    ensures CodeOrigins(db', AfterApproval(h, code, request))
  {
    var h' := AfterApproval(h, code, request);
    forall k | k in db.codes ensures h'.requestOf[k] == h.requestOf[k] != request {}
  }

  lemma ApprovalAuthority(db: Tables, h: History, db': Tables, code: Id, request: Id, record: AuthCode)
    requires AuthorityOk(db, h) && code !in db.codes
    requires db'.codes == db.codes[code := record] && db'.refreshes == db.refreshes
    requires db'.grants == db.grants
    ensures AuthorityOk(db', AfterApproval(h, code, request))
  {
    var h' := AfterApproval(h, code, request);
    forall r | r in db'.refreshes ensures WithinConsent(db', h', r) {
      assert WithinConsent(db, h, r);
    }
  }

  lemma ApprovalKeeps(db: Tables, h: History, dir: Directory, cfg: Settings, request: Id,
                      account: Id, approve: bool, ttlDays: Option<int>, tools: set<Tool>,
                      now: Time, freshCode: Id)
    requires Inv(db, h) && freshCode !in db.codes
    requires ResolveConsent(db, dir, cfg, request, account, approve, ttlDays, tools, now,
                            freshCode).Approved?
    ensures Inv(ResolveConsent(db, dir, cfg, request, account, approve, ttlDays, tools, now,
                               freshCode).db, AfterApproval(h, freshCode, request))
  {
    var db' := ResolveConsent(db, dir, cfg, request, account, approve, ttlDays, tools, now,
                              freshCode).db;
    var record := db'.codes[freshCode];
    PermissionFrame(db, db', h, AfterApproval(h, freshCode, request));
    ApprovalOrigins(db, h, db', freshCode, request, now, record);
    ApprovalAuthority(db, h, db', freshCode, request, record);
  }
}
