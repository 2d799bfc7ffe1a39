/** Tool permissions: registry synchronisation, replacement of allowances and grants, and the
    authorization decision for one invocation. */
module ToolPermissions {
  import opened Prelude
  import opened OAuthTables
  import opened OAuthTransactions
  import opened OAuthInvariant
  import opened OAuthRevocation
  import opened OAuthServer

  // ---------------------------------------------------------------- registry synchronisation

  /** Synchronising never flips an enabled flag: known tools keep theirs, new ones start disabled. */
  lemma {:induction false} SyncKeepsFlags(settings: map<Tool, ToolSetting>, specs: seq<(Tool, int)>, t: Tool)
    ensures var synced := SyncedSettings(settings, specs);
            (t in synced <==> t in settings || exists i :: 0 <= i < |specs| && specs[i].0 == t) &&
            (t in synced ==> synced[t].enabled == (t in settings && settings[t].enabled))
    decreases |specs|
  {
    if specs != [] {
      var (name, version) := specs[0];
      var enabled := name in settings && settings[name].enabled;
      var next := settings[name := ToolSetting(enabled, version)];
      SyncKeepsFlags(next, specs[1..], t);
      if exists i :: 0 <= i < |specs| && specs[i].0 == t {
        var i :| 0 <= i < |specs| && specs[i].0 == t;
        if i > 0 { assert specs[1..][i - 1].0 == t; }
      }
      if exists i :: 0 <= i < |specs[1..]| && specs[1..][i].0 == t {
        var i :| 0 <= i < |specs[1..]| && specs[1..][i].0 == t;
        assert specs[i + 1].0 == t;
      }
    }
  }

  /** A registered tool takes the version listed last for it, and any other tool keeps its row. */
  lemma {:induction false} SyncSetsVersions(settings: map<Tool, ToolSetting>, specs: seq<(Tool, int)>, t: Tool, i: nat)
    requires i <= |specs| && forall j | i < j < |specs| :: specs[j].0 != t
    requires if i < |specs| then specs[i].0 == t else forall j | 0 <= j < |specs| :: specs[j].0 != t
    ensures var after := SyncedSettings(settings, specs);
            if i < |specs| then t in after && after[t].version == specs[i].1
            else (t in after <==> t in settings) && (t in settings ==> after[t] == settings[t])
    decreases specs
  {
    if specs != [] {
      var (name, version) := specs[0];
      var next := settings[name := ToolSetting(name in settings && settings[name].enabled, version)];
      if i > 0 {
        SyncSetsVersions(next, specs[1..], t, i - 1);
      } else {
        SyncSetsVersions(next, specs[1..], t, |specs| - 1);
      }
    }
  }

  /** The effective tools of a user do not change when the registry is synchronised. */
  lemma SyncKeepsEffective(db: Tables, specs: seq<(Tool, int)>, user: Id)
    ensures EffectiveTools(db.(settings := SyncedSettings(db.settings, specs)), user) ==
            EffectiveTools(db, user)
  {
    var db' := db.(settings := SyncedSettings(db.settings, specs));
    forall n ensures n in EffectiveTools(db', user) <==> n in EffectiveTools(db, user) {
      SyncKeepsFlags(db.settings, specs, n);
    }
  }

  lemma {:induction false} SyncStep(settings: map<Tool, ToolSetting>, specs: seq<(Tool, int)>, i: nat)
    requires i < |specs|
    ensures var before := SyncedSettings(settings, specs[..i]);
            var (name, version) := specs[i];
            SyncedSettings(settings, specs[..i + 1]) ==
              before[name := ToolSetting(name in before && before[name].enabled, version)]
    decreases i
  {
    if i > 0 {
      var (name, version) := specs[0];
      var next := settings[name := ToolSetting(name in settings && settings[name].enabled, version)];
      SyncStep(next, specs[1..], i - 1);
      assert specs[..i][1..] == specs[1..][..i - 1] && specs[..i + 1][1..] == specs[1..][..i];
    }
  }

  // ---------------------------------------------------------------- repository

  class ToolPermissionRepository {
    const session: Session

    constructor (session: Session)
      ensures this.session == session
    {
      this.session := session;
    }

    /** Inserts unknown tools as disabled and refreshes the version of known ones. */
    method SyncRegistry(specs: seq<(Tool, int)>)
      modifies session
      ensures session.View() ==
        old(session.View()).(settings := SyncedSettings(old(session.settings), specs))
    {
      var i := 0;
      while i < |specs|
        invariant 0 <= i <= |specs|
        invariant session.View() ==
          old(session.View()).(settings := SyncedSettings(old(session.settings), specs[..i]))
      {
        var (name, version) := specs[i];
        SyncStep(old(session.settings), specs, i);
        if name in session.settings {
          session.settings :=
            session.settings[name := session.settings[name].(version := version)];
        } else {
          session.settings := session.settings[name := ToolSetting(false, version)];
        }
        i := i + 1;
      }
      assert specs[..i] == specs;
    }

    /** Withdraws grants outside the new allowances before the allowances are replaced. */
    method ReplaceAllowances(user: Id, tools: set<Tool>)
      modifies session
      ensures session.View() == OAuthTransactions.ReplaceAllowances(old(session.View()), user, tools)
    {
      var owned := set t | t in session.tokens && session.tokens[t].user == user;
      assert owned == OwnedTokens(session.View(), user);
      session.grants := map t | t in session.grants ::
        if t in owned then session.grants[t] * tools else session.grants[t];
      session.allowances := session.allowances[user := tools];
    }

    method ReplaceGrants(token: Id, tools: set<Tool>)
      modifies session
      ensures session.View() == OAuthTransactions.ReplaceGrants(old(session.View()), token, tools)
    {
      session.grants := session.grants - {token};
      session.grants := session.grants[token := tools];
    }
  }

  datatype PermissionError = NotFound | UnknownTools | RevokedToken | NotAllowed

  class ToolPermissionService {
    const database: Database
    const registry: seq<(Tool, int)>

    constructor (database: Database, registry: seq<(Tool, int)>)
      ensures this.database == database && this.registry == registry
    {
      this.database := database;
      this.registry := registry;
    }

    function Registered(): set<Tool> {
      set i | 0 <= i < |registry| :: registry[i].0
    }

    method ReplaceUserAllowances(user: Id, tools: set<Tool>) returns (result: Result<set<Tool>, PermissionError>)
      modifies database
      ensures database.directory == old(database.directory)
      ensures result == (if user !in old(database.directory).users then Err(NotFound)
                         else if !(tools <= Registered()) then Err(UnknownTools) else Ok(tools))
      ensures database.tables ==
        (if result.Ok?
         then OAuthTransactions.ReplaceAllowances(
                old(database.tables).(settings := SyncedSettings(old(database.tables).settings, registry)),
                user, tools)
         else old(database.tables))
    {
      if user !in database.directory.users { return Err(NotFound); }
      if !(tools <= Registered()) { return Err(UnknownTools); }
      var session := new Session.Begin(database);
      var permissions := new ToolPermissionRepository(session);
      permissions.SyncRegistry(registry);
      permissions.ReplaceAllowances(user, tools);
      session.Commit(database);
      return Ok(tools);
    }

    method ReplaceTokenGrants(user: Id, token: Id, tools: set<Tool>)
      returns (result: Result<set<Tool>, PermissionError>)
      modifies database
      ensures database.directory == old(database.directory)
      ensures result == (
        var db := old(database.tables);
        if token !in db.tokens || db.tokens[token].user != user then Err(NotFound)
        else if db.tokens[token].revokedAt.Some? then Err(RevokedToken)
        else if !(tools <= Registered()) then Err(UnknownTools)
        else if !(tools <= AllowancesOf(db, user)) then Err(NotAllowed)
        else Ok(tools))
      ensures result.Ok? ==> MayReplaceGrants(old(database.tables), user, token, tools)
      ensures database.tables ==
        (if result.Ok?
         then OAuthTransactions.ReplaceGrants(
                old(database.tables).(settings := SyncedSettings(old(database.tables).settings, registry)),
                token, tools)
         else old(database.tables))
    {
      var session := new Session.Begin(database);
      if token !in session.tokens || session.tokens[token].user != user { return Err(NotFound); }
      if session.tokens[token].revokedAt.Some? { return Err(RevokedToken); }
      if !(tools <= Registered()) { return Err(UnknownTools); }
      var permissions := new ToolPermissionRepository(session);
      permissions.SyncRegistry(registry);
      if !(tools <= AllowancesOf(session.View(), user)) { return Err(NotAllowed); }
      permissions.ReplaceGrants(token, tools);
      session.Commit(database);
      return Ok(tools);
    }
  }

  // ---------------------------------------------------------------- the decision

  datatype Denial =
    | TokenInvalid | UserDisabled | ToolGloballyDisabled | ToolNotAllowedForUser
    | ToolNotGrantedToToken | CredentialMissing

  /** The checks of one invocation, in the order they are reported. */
  function Checks(db: Tables, dir: Directory, token: Id, tool: Tool, known: bool, now: Time)
    : (checks: seq<(bool, Denial)>)
  {
    if !known || token !in db.tokens then [(false, TokenInvalid)]
    else
      var t := db.tokens[token];
      [(t.enabled && t.revokedAt.None? && (t.expiresAt.None? || t.expiresAt.value > now), TokenInvalid),
       (t.user in dir.users && dir.users[t.user] == Active, UserDisabled),
       (tool in db.settings && db.settings[tool].enabled, ToolGloballyDisabled),
       (tool in AllowancesOf(db, t.user), ToolNotAllowedForUser),
       (tool in GrantsOf(db, token), ToolNotGrantedToToken),
       (t.user in dir.credentialed, CredentialMissing)]
  }

  /** Allowed exactly when every check passes; otherwise the first failing check is the reason. */
  method AuthorizeTool(checks: seq<(bool, Denial)>) returns (denied: Option<Denial>)
    ensures denied.None? <==> forall i | 0 <= i < |checks| :: checks[i].0
    ensures denied.Some? ==>
              exists i :: 0 <= i < |checks| && !checks[i].0 && checks[i].1 == denied.value &&
                          forall j | 0 <= j < i :: checks[j].0
  {
    var i := 0;
    while i < |checks|
      invariant 0 <= i <= |checks|
      invariant forall j | 0 <= j < i :: checks[j].0
    {
      if !checks[i].0 { return Some(checks[i].1); }
      i := i + 1;
    }
    return None;
  }

  ghost predicate Allowed(db: Tables, dir: Directory, token: Id, tool: Tool, known: bool, now: Time) {
    forall i | 0 <= i < |Checks(db, dir, token, tool, known, now)| ::
      Checks(db, dir, token, tool, known, now)[i].0
  }

  /** Why an invocation is denied, in the order of the checks, if it is. */
  function Reason(db: Tables, dir: Directory, token: Id, tool: Tool, known: bool, now: Time): Option<Denial> {
    if !known || token !in db.tokens then Some(TokenInvalid)
    else
      var t := db.tokens[token];
      if !t.enabled || t.revokedAt.Some? || (t.expiresAt.Some? && t.expiresAt.value <= now) then Some(TokenInvalid)
      else if t.user !in dir.users || dir.users[t.user] != Active then Some(UserDisabled)
      else if tool !in db.settings || !db.settings[tool].enabled then Some(ToolGloballyDisabled)
      else if t.user !in db.allowances || tool !in db.allowances[t.user] then Some(ToolNotAllowedForUser)
      else if token !in db.grants || tool !in db.grants[token] then Some(ToolNotGrantedToToken)
      else if t.user !in dir.credentialed then Some(CredentialMissing)
      else None
  }

  /** An invocation is allowed exactly if there is no reason against it. */
  lemma AllowedWithoutReason(db: Tables, dir: Directory, token: Id, tool: Tool, known: bool, now: Time)
    ensures Allowed(db, dir, token, tool, known, now) <==> Reason(db, dir, token, tool, known, now).None?
  {
    var checks := Checks(db, dir, token, tool, known, now);
    if !known || token !in db.tokens {
      assert !checks[0].0;
    } else if Allowed(db, dir, token, tool, known, now) {
      assert checks[0].0 && checks[1].0 && checks[2].0 && checks[3].0 && checks[4].0 && checks[5].0;
    }
  }

  /** The first check that fails reports it. */
  lemma FirstReason(db: Tables, dir: Directory, token: Id, tool: Tool, known: bool, now: Time, i: nat)
    requires var checks := Checks(db, dir, token, tool, known, now);
             i < |checks| && !checks[i].0 && forall j | 0 <= j < i :: checks[j].0
    ensures Reason(db, dir, token, tool, known, now) == Some(Checks(db, dir, token, tool, known, now)[i].1)
  {
    var checks := Checks(db, dir, token, tool, known, now);
    assert i > 0 ==> checks[0].0;
    assert i > 1 ==> checks[1].0;
    assert i > 2 ==> checks[2].0;
    assert i > 3 ==> checks[3].0;
    assert i > 4 ==> checks[4].0;
  }

  /** An allowed invocation uses a live token of an unrevoked family, and a tool that is at once
      registered, enabled, allowed to the user and within the consent behind the token. */
  lemma AllowedMeans(db: Tables, h: History, dir: Directory, token: Id, tool: Tool, known: bool, now: Time)
    requires Inv(db, h) && Allowed(db, dir, token, tool, known, now)
    ensures known && token in db.tokens && Authorizable(dir, db.tokens[token].user)
    ensures tool in GrantsOf(db, token) && tool in EffectiveTools(db, db.tokens[token].user)
    ensures db.tokens[token].kind == OAuth ==>
              FamilyOfToken(db, token).Some? &&
              var f := FamilyOfToken(db, token).value;
              f in db.families && db.families[f].revokedAt.None? && tool in Ceiling(db, h, f)
  {
    var checks := Checks(db, dir, token, tool, known, now);
    assert checks[0].0;
    assert checks[1].0 && checks[2].0 && checks[3].0 && checks[4].0 && checks[5].0;
    if db.tokens[token].kind == OAuth {
      OAuthToolWithinConsent(db, h, token, tool);
    }
  }

  lemma OAuthToolWithinConsent(db: Tables, h: History, token: Id, tool: Tool)
    requires RowsOk(db) && ChainsOk(db, h) && AuthorityOk(db, h)
    requires token in db.tokens && db.tokens[token].kind == OAuth
    requires db.tokens[token].enabled && tool in GrantsOf(db, token)
    ensures FamilyOfToken(db, token).Some? &&
            var f := FamilyOfToken(db, token).value;
            f in db.families && db.families[f].revokedAt.None? && tool in Ceiling(db, h, f)
  {
    assert token in db.links;
    var r := db.links[token].refresh;
    assert Linked(db, r) && WithinConsent(db, h, r);
    var f := db.refreshes[r].family;
    if db.families[f].revokedAt.Some? {
      RevokedIsClosed(db, h, f);
    }
  }
}
