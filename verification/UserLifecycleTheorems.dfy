/** What holds of users, accounts, sessions, invitations and credentials after any sequence of calls. */
module UserLifecycleTheorems {
  import opened Prelude
  import opened UserLifecycle

  // ---------------------------------------------------------------- the invariant

  /** A user and its account agree, and only an account that must change its password is pending. */
  ghost predicate UserOk(d: Tables, u: Id)
    requires u in d.users
  {
    d.users[u].account.Some? &&
    var a := d.users[u].account.value;
    a in d.accounts && d.accounts[a].user == Some(u) && d.accounts[a].status == d.users[u].status &&
    (d.users[u].status == Active ==> !d.accounts[a].mustChangePassword) &&
    (d.users[u].status == Pending ==> d.accounts[a].mustChangePassword)
  }

  ghost predicate AccountOk(d: Tables, a: Id)
    requires a in d.accounts
  {
    d.accounts[a].user.Some? ==>
      d.accounts[a].user.value in d.users && d.users[d.accounts[a].user.value].account == Some(a)
  }

  ghost predicate NamesApart(d: Tables, u: Id, v: Id)
    requires u in d.users && v in d.users
  {
    u != v ==> d.users[u].forgejo.normalized != d.users[v].forgejo.normalized
  }

  ghost predicate LoginsApart(d: Tables, a: Id, b: Id)
    requires a in d.accounts && b in d.accounts
  {
    a != b ==> d.accounts[a].login != d.accounts[b].login
  }

  ghost predicate People(d: Tables) {
    (forall u {:trigger UserOk(d, u)} | u in d.users :: UserOk(d, u)) &&
    (forall a {:trigger AccountOk(d, a)} | a in d.accounts :: AccountOk(d, a)) &&
    (forall u, v {:trigger NamesApart(d, u, v)} | u in d.users && v in d.users :: NamesApart(d, u, v)) &&
    (forall a, b {:trigger LoginsApart(d, a, b)} | a in d.accounts && b in d.accounts :: LoginsApart(d, a, b))
  }

  /** An active credential is its active user's own, and usable; any other has no secret left. */
  ghost predicate CredentialOk(d: Tables, c: Id)
    requires c in d.credentials
  {
    var x := d.credentials[c];
    if x.active then
      x.user in d.users && d.users[x.user].status == Active &&
      x.forgejoName == d.users[x.user].forgejo.normalized &&
      x.token.Some? && x.nonce.Some? && x.revokedAt.None?
    else
      x.token.None? && x.nonce.None? && x.refreshToken.None? && x.refreshNonce.None? && x.revokedAt.Some?
  }

  ghost predicate OneActive(d: Tables, c: Id, e: Id)
    requires c in d.credentials && e in d.credentials
  {
    d.credentials[c].active && d.credentials[e].active && d.credentials[c].user == d.credentials[e].user ==> c == e
  }

  ghost predicate Creds(d: Tables) {
    (forall c {:trigger CredentialOk(d, c)} | c in d.credentials :: CredentialOk(d, c)) &&
    (forall c, e {:trigger OneActive(d, c, e)} | c in d.credentials && e in d.credentials :: OneActive(d, c, e))
  }

  /** A session that is not revoked belongs to an active account, unless it is an administrator's. */
  ghost predicate SessionOk(d: Tables, s: Id)
    requires s in d.sessions
  {
    d.sessions[s].revokedAt.None? ==>
      d.sessions[s].account in d.accounts &&
      (d.accounts[d.sessions[s].account].user.Some? ==> d.accounts[d.sessions[s].account].status == Active)
  }

  ghost predicate Sess(d: Tables) {
    forall s {:trigger SessionOk(d, s)} | s in d.sessions :: SessionOk(d, s)
  }

  ghost predicate Outstanding(d: Tables, i: Id) {
    i in d.invitations && d.invitations[i].usedAt.None? && d.invitations[i].revokedAt.None?
  }

  ghost predicate InvitationOk(d: Tables, i: Id)
    requires i in d.invitations
  {
    d.invitations[i].user in d.users &&
    (Outstanding(d, i) ==> d.users[d.invitations[i].user].status != Disabled)
  }

  ghost predicate OneOutstanding(d: Tables, i: Id, j: Id)
    requires i in d.invitations && j in d.invitations
  {
    Outstanding(d, i) && Outstanding(d, j) && d.invitations[i].user == d.invitations[j].user ==> i == j
  }

  ghost predicate Invs(d: Tables) {
    (forall i {:trigger InvitationOk(d, i)} | i in d.invitations :: InvitationOk(d, i)) &&
    (forall i, j {:trigger OneOutstanding(d, i, j)} | i in d.invitations && j in d.invitations ::
       OneOutstanding(d, i, j))
  }

  ghost predicate Inv(d: Tables) {
    People(d) && Creds(d) && Sess(d) && Invs(d)
  }

  // ---------------------------------------------------------------- frames

  /** Users keep what credentials depend on. */
  lemma CredsFrame(d: Tables, d': Tables)
    requires Creds(d) && d'.credentials == d.credentials
    requires forall u | u in d.users && d.users[u].status == Active ::
      u in d'.users && d'.users[u].status == Active && d'.users[u].forgejo == d.users[u].forgejo
    ensures Creds(d')
  {
    forall c | c in d'.credentials ensures CredentialOk(d', c) { assert CredentialOk(d, c); }
    forall c, e | c in d'.credentials && e in d'.credentials ensures OneActive(d', c, e) { assert OneActive(d, c, e); }
  }

  lemma SessFrame(d: Tables, d': Tables)
    requires Sess(d) && d'.sessions == d.sessions
    requires forall a | a in d.accounts ::
      a in d'.accounts && d'.accounts[a].user == d.accounts[a].user &&
      (d.accounts[a].status == Active ==> d'.accounts[a].status == Active)
    ensures Sess(d')
  {
    forall s | s in d'.sessions ensures SessionOk(d', s) { assert SessionOk(d, s); }
  }

  lemma InvsFrame(d: Tables, d': Tables)
    requires Invs(d) && d'.invitations == d.invitations
    requires forall u | u in d.users ::
      u in d'.users && (d.users[u].status != Disabled ==> d'.users[u].status != Disabled)
    ensures Invs(d')
  {
    forall i | i in d'.invitations ensures InvitationOk(d', i) { assert InvitationOk(d, i); }
    forall i, j | i in d'.invitations && j in d'.invitations ensures OneOutstanding(d', i, j) {
      assert OneOutstanding(d, i, j);
    }
  }

  /** Revoking a user's credentials allows the user to change arbitrarily. */
  lemma RevokedCreds(d: Tables, d': Tables, u: Id, now: Time)
    requires Creds(d) && d'.credentials == RevokeCredentials(d.credentials, u, now)
    requires forall v | v in d.users && v != u ::
      v in d'.users && d'.users[v].status == d.users[v].status && d'.users[v].forgejo == d.users[v].forgejo
    ensures Creds(d') && !HasActive(d', u)
  {
    forall c | c in d'.credentials
      ensures CredentialOk(d', c) && !(d'.credentials[c].user == u && d'.credentials[c].active)
    {
      assert CredentialOk(d, c);
    }
    forall c, e | c in d'.credentials && e in d'.credentials ensures OneActive(d', c, e) { assert OneActive(d, c, e); }
  }

  /** Revoking an account's sessions allows the account to change arbitrarily, but for the session
      that is excepted. */
  lemma RevokedSess(d: Tables, d': Tables, a: Id, now: Time)
    requires Sess(d) && d'.sessions == RevokeSessions(d.sessions, a, None, now)
    requires forall b | b in d.accounts && b != a :: b in d'.accounts && d'.accounts[b] == d.accounts[b]
    ensures Sess(d')
  {
    forall s | s in d'.sessions ensures SessionOk(d', s) { assert SessionOk(d, s); }
  }

  lemma RevokedInvs(d: Tables, d': Tables, u: Id, now: Time)
    requires Invs(d) && d'.invitations == RevokeInvitations(d.invitations, u, now)
    requires forall v | v in d.users :: v in d'.users && (v != u ==> d'.users[v].status == d.users[v].status)
    ensures Invs(d')
    ensures forall i | Outstanding(d', i) :: d'.invitations[i].user != u
  {
    forall i | i in d'.invitations ensures InvitationOk(d', i) && (Outstanding(d', i) ==> d'.invitations[i].user != u) {
      assert InvitationOk(d, i);
    }
    forall i, j | i in d'.invitations && j in d'.invitations ensures OneOutstanding(d', i, j) {
      assert OneOutstanding(d, i, j);
    }
  }

  /** The user and its account take a new status that fits the account's password state. */
  lemma SetStatusKeepsPeople(d: Tables, u: Id, status: Status)
    requires People(d) && u in d.users
    requires UserOk(d, u) && var must := d.accounts[d.users[u].account.value].mustChangePassword;
             (status == Active ==> !must) && (status == Pending ==> must)
    ensures People(SetStatus(d, u, status))
  {
    var d' := SetStatus(d, u, status);
    forall v | v in d'.users ensures UserOk(d', v) { assert UserOk(d, v); }
    forall a | a in d'.accounts ensures AccountOk(d', a) { assert AccountOk(d, a); }
    forall v, w | v in d'.users && w in d'.users ensures NamesApart(d', v, w) { assert NamesApart(d, v, w); }
    forall a, b | a in d'.accounts && b in d'.accounts ensures LoginsApart(d', a, b) { assert LoginsApart(d, a, b); }
  }

  lemma PeopleFrame(d: Tables, d': Tables)
    requires People(d) && d'.users == d.users && d'.accounts == d.accounts
    ensures People(d')
  {
    forall u | u in d'.users ensures UserOk(d', u) { assert UserOk(d, u); }
    forall a | a in d'.accounts ensures AccountOk(d', a) { assert AccountOk(d, a); }
    forall u, v | u in d'.users && v in d'.users ensures NamesApart(d', u, v) { assert NamesApart(d, u, v); }
    forall a, b | a in d'.accounts && b in d'.accounts ensures LoginsApart(d', a, b) { assert LoginsApart(d, a, b); }
  }

  // ---------------------------------------------------------------- each call

  lemma CreateUserKeeps(d: Tables, u: Id, a: Id, display: string, login: Name, forgejo: Name, password: Id)
    requires Inv(d) && u !in d.users && a !in d.accounts
    requires CreateUser(d, u, a, display, login, forgejo, password).Ok?
    ensures Inv(CreateUser(d, u, a, display, login, forgejo, password).value)
  {
    var d' := CreateUser(d, u, a, display, login, forgejo, password).value;
    forall v | v in d'.users ensures UserOk(d', v) {
      if v != u { assert UserOk(d, v); }
    }
    forall b | b in d'.accounts ensures AccountOk(d', b) {
      if b != a { assert AccountOk(d, b); }
    }
    forall v, w | v in d'.users && w in d'.users ensures NamesApart(d', v, w) {
      if v != u && w != u { assert NamesApart(d, v, w); }
    }
    forall b, c | b in d'.accounts && c in d'.accounts ensures LoginsApart(d', b, c) {
      if b != a && c != a { assert LoginsApart(d, b, c); }
    }
    CredsFrame(d, d');
    SessFrame(d, d');
    InvsFrame(d, d');
  }

  lemma UpdateUserKeeps(d: Tables, u: Id, display: string, forgejo: Name, now: Time)
    requires Inv(d) && UpdateUser(d, u, display, forgejo, now).Ok?
    ensures Inv(UpdateUser(d, u, display, forgejo, now).value)
  {
    var d' := UpdateUser(d, u, display, forgejo, now).value;
    forall v | v in d'.users ensures UserOk(d', v) { assert UserOk(d, v); }
    forall b | b in d'.accounts ensures AccountOk(d', b) { assert AccountOk(d, b); }
    forall v, w | v in d'.users && w in d'.users ensures NamesApart(d', v, w) { assert NamesApart(d, v, w); }
    forall b, c | b in d'.accounts && c in d'.accounts ensures LoginsApart(d', b, c) { assert LoginsApart(d, b, c); }
    if forgejo.normalized != d.users[u].forgejo.normalized {
      RevokedCreds(d, d', u, now);
    } else {
      SameNameCreds(d, d');
    }
    SessFrame(d, d');
    InvsFrame(d, d');
  }

  lemma SameNameCreds(d: Tables, d': Tables)
    requires Creds(d) && d'.credentials == d.credentials
    requires forall u | u in d.users ::
      u in d'.users && d'.users[u].status == d.users[u].status &&
      d'.users[u].forgejo.normalized == d.users[u].forgejo.normalized
    ensures Creds(d')
  {
    forall c | c in d'.credentials ensures CredentialOk(d', c) { assert CredentialOk(d, c); }
    forall c, e | c in d'.credentials && e in d'.credentials ensures OneActive(d', c, e) { assert OneActive(d, c, e); }
  }

  lemma DisableUserKeeps(d: Tables, u: Id, now: Time)
    requires Inv(d) && DisableUser(d, u, now).Ok?
    ensures var d' := DisableUser(d, u, now).value;
            Inv(d') && !HasActive(d', u) && forall i | Outstanding(d', i) :: d'.invitations[i].user != u
  {
    var d' := DisableUser(d, u, now).value;
    assert UserOk(d, u);
    SetStatusKeepsPeople(d, u, Disabled);
    PeopleFrame(SetStatus(d, u, Disabled), d');
    RevokedCreds(d, d', u, now);
    RevokedSess(d, d', d.users[u].account.value, now);
    RevokedInvs(d, d', u, now);
  }

  lemma EnableUserKeeps(d: Tables, u: Id)
    requires Inv(d) && EnableUser(d, u).Ok?
    ensures Inv(EnableUser(d, u).value)
  {
    var d' := EnableUser(d, u).value;
    assert UserOk(d, u);
    SetStatusKeepsPeople(d, u, d'.users[u].status);
    CredsFrame(d, d');
    SessFrame(d, d');
    InvsFrame(d, d');
  }

  lemma CreateInvitationKeeps(d: Tables, u: Id, i: Id, now: Time)
    requires Inv(d) && i !in d.invitations && CreateInvitation(d, u, i, now).Ok?
    ensures Inv(CreateInvitation(d, u, i, now).value)
  {
    var d' := CreateInvitation(d, u, i, now).value;
    var mid := d.(invitations := RevokeInvitations(d.invitations, u, now));
    RevokedInvs(d, mid, u, now);
    forall j | j in d'.invitations ensures InvitationOk(d', j) {
      if j != i { assert InvitationOk(mid, j); assert Outstanding(d', j) ==> Outstanding(mid, j); }
    }
    forall j, k | j in d'.invitations && k in d'.invitations ensures OneOutstanding(d', j, k) {
      assert j != i && Outstanding(d', j) ==> Outstanding(mid, j);
      assert k != i && Outstanding(d', k) ==> Outstanding(mid, k);
      if j != i && k != i { assert OneOutstanding(mid, j, k); }
    }
    PeopleFrame(d, d');
    CredsFrame(d, d');
    SessFrame(d, d');
  }

  /** Ending an invitation, one way or the other. */
  lemma EndedInvitation(d: Tables, d': Tables, i: Id)
    requires Invs(d) && i in d.invitations && d'.invitations.Keys == d.invitations.Keys
    requires forall j | j in d.invitations && j != i :: d'.invitations[j] == d.invitations[j]
    requires !Outstanding(d', i) && d'.invitations[i].user == d.invitations[i].user
    requires forall u | u in d.users ::
      u in d'.users && (d.users[u].status != Disabled ==> d'.users[u].status != Disabled)
    ensures Invs(d')
  {
    forall j | j in d'.invitations ensures InvitationOk(d', j) { assert InvitationOk(d, j); }
    forall j, k | j in d'.invitations && k in d'.invitations ensures OneOutstanding(d', j, k) {
      assert OneOutstanding(d, j, k);
    }
  }

  lemma RevokeInvitationKeeps(d: Tables, u: Id, i: Id, now: Time)
    requires Inv(d) && RevokeInvitation(d, u, i, now).Ok?
    ensures Inv(RevokeInvitation(d, u, i, now).value)
  {
    var d' := RevokeInvitation(d, u, i, now).value;
    EndedInvitation(d, d', i);
    PeopleFrame(d, d');
    CredsFrame(d, d');
    SessFrame(d, d');
  }

  lemma AcceptKeeps(d: Tables, i: Id, password: Id, length: nat, now: Time)
    requires Inv(d) && Accept(d, i, password, length, now).Ok?
    ensures Inv(Accept(d, i, password, length, now).value)
  {
    var d' := Accept(d, i, password, length, now).value;
    var u := d.invitations[i].user;
    assert UserOk(d, u);
    var a := d.users[u].account.value;
    AcceptKeepsPeople(d, d', u, a, password);
    CredsFrame(d, d');
    RevokedSess(d, d', a, now);
    EndedInvitation(d, d', i);
  }

  lemma AcceptKeepsPeople(d: Tables, d': Tables, u: Id, a: Id, password: Id)
    requires People(d) && u in d.users && d.users[u].account == Some(a) && a in d.accounts
    requires d'.users == d.users[u := d.users[u].(status := Active)]
    requires d'.accounts ==
             d.accounts[a := d.accounts[a].(status := Active, mustChangePassword := false, password := password)]
    ensures People(d')
  {
    assert UserOk(d, u);
    forall v | v in d'.users ensures UserOk(d', v) { assert UserOk(d, v); }
    forall b | b in d'.accounts ensures AccountOk(d', b) { assert AccountOk(d, b); }
    forall v, w | v in d'.users && w in d'.users ensures NamesApart(d', v, w) { assert NamesApart(d, v, w); }
    forall b, c | b in d'.accounts && c in d'.accounts ensures LoginsApart(d', b, c) { assert LoginsApart(d, b, c); }
  }

  lemma SaveCredentialKeeps(d: Tables, u: Id, c: Id, principal: Option<Principal>, secrets: Secrets, now: Time)
    requires Inv(d) && c !in d.credentials && SaveCredential(d, u, c, principal, secrets, now).Ok?
    ensures Inv(SaveCredential(d, u, c, principal, secrets, now).value)
  {
    var d' := SaveCredential(d, u, c, principal, secrets, now).value;
    var mid := d.(credentials := RevokeCredentials(d.credentials, u, now));
    RevokedCreds(d, mid, u, now);
    forall x | x in d'.credentials ensures CredentialOk(d', x) {
      if x != c { assert CredentialOk(mid, x); }
    }
    forall x, y | x in d'.credentials && y in d'.credentials ensures OneActive(d', x, y) {
      if x != c && y != c { assert OneActive(mid, x, y); }
    }
    PeopleFrame(d, d');
    SessFrame(d, d');
    InvsFrame(d, d');
  }

  lemma RevokeCredentialKeeps(d: Tables, u: Id, now: Time)
    requires Inv(d) && RevokeCredential(d, u, now).Ok?
    ensures Inv(RevokeCredential(d, u, now).value) && !HasActive(RevokeCredential(d, u, now).value, u)
  {
    var d' := RevokeCredential(d, u, now).value;
    RevokedCreds(d, d', u, now);
    PeopleFrame(d, d');
    SessFrame(d, d');
    InvsFrame(d, d');
  }

  lemma LoginKeeps(d: Tables, account: Option<Id>, password: Id, s: Id, expiresAt: Time)
    requires Inv(d) && s !in d.sessions && Login(d, account, password, s, expiresAt).Ok?
    ensures Inv(Login(d, account, password, s, expiresAt).value)
  {
    var d' := Login(d, account, password, s, expiresAt).value;
    forall t | t in d'.sessions ensures SessionOk(d', t) {
      if t != s { assert SessionOk(d, t); }
    }
    PeopleFrame(d, d');
    CredsFrame(d, d');
    InvsFrame(d, d');
  }

  lemma ChangePasswordKeeps(d: Tables, s: Id, old': Id, new': Id, length: nat, now: Time)
    requires Inv(d) && ChangePassword(d, s, old', new', length, now).Ok?
    ensures Inv(ChangePassword(d, s, old', new', length, now).value)
  {
    var d' := ChangePassword(d, s, old', new', length, now).value;
    var a := d.sessions[s].account;
    assert SessionOk(d, s) && AccountOk(d, a);
    forall v | v in d'.users ensures UserOk(d', v) { assert UserOk(d, v); }
    forall b | b in d'.accounts ensures AccountOk(d', b) { assert AccountOk(d, b); }
    forall v, w | v in d'.users && w in d'.users ensures NamesApart(d', v, w) { assert NamesApart(d, v, w); }
    forall b, c | b in d'.accounts && c in d'.accounts ensures LoginsApart(d', b, c) { assert LoginsApart(d, b, c); }
    forall t | t in d'.sessions ensures SessionOk(d', t) { assert SessionOk(d, t); }
    CredsFrame(d, d');
    InvsFrame(d, d');
  }

  lemma RevokeSessionKeeps(d: Tables, s: Id, target: Id, now: Time)
    requires Inv(d) && RevokeSession(d, s, target, now).Ok?
    ensures Inv(RevokeSession(d, s, target, now).value)
  {
    var d' := RevokeSession(d, s, target, now).value;
    forall t | t in d'.sessions ensures SessionOk(d', t) { assert SessionOk(d, t); }
    PeopleFrame(d, d');
    CredsFrame(d, d');
    InvsFrame(d, d');
  }

  // ---------------------------------------------------------------- every run

  datatype Call =
    | DoCreateUser(user: Id, account: Id, display: string, login: Name, forgejo: Name, password: Id)
    | DoUpdateUser(user: Id, display: string, forgejo: Name, now: Time)
    | DoDisableUser(user: Id, now: Time)
    | DoEnableUser(user: Id)
    | DoCreateInvitation(user: Id, invitation: Id, now: Time)
    | DoRevokeInvitation(user: Id, invitation: Id, now: Time)
    | DoAccept(invitation: Id, password: Id, length: nat, now: Time)
    | DoSaveCredential(user: Id, credential: Id, principal: Option<Principal>, secrets: Secrets, now: Time)
    | DoRevokeCredential(user: Id, now: Time)
    | DoLogin(who: Option<Id>, password: Id, session: Id, expiresAt: Time)
    | DoChangePassword(session: Id, current: Id, password: Id, length: nat, now: Time)
    | DoRevokeSession(session: Id, target: Id, now: Time)

  /** The ids of new rows are new. */
  predicate Fresh(d: Tables, call: Call) {
    match call
    case DoCreateUser(u, a, _, _, _, _) => u !in d.users && a !in d.accounts
    case DoCreateInvitation(_, i, _) => i !in d.invitations
    case DoSaveCredential(_, c, _, _, _) => c !in d.credentials
    case DoLogin(_, _, s, _) => s !in d.sessions
    case _ => true
  }

  function Perform(d: Tables, call: Call): Result<Tables, Error> {
    match call
    case DoCreateUser(u, a, display, login, forgejo, password) =>
      CreateUser(d, u, a, display, login, forgejo, password)
    case DoUpdateUser(u, display, forgejo, now) => UpdateUser(d, u, display, forgejo, now)
    case DoDisableUser(u, now) => DisableUser(d, u, now)
    case DoEnableUser(u) => EnableUser(d, u)
    case DoCreateInvitation(u, i, now) => CreateInvitation(d, u, i, now)
    case DoRevokeInvitation(u, i, now) => RevokeInvitation(d, u, i, now)
    case DoAccept(i, password, length, now) => Accept(d, i, password, length, now)
    case DoSaveCredential(u, c, principal, secrets, now) => SaveCredential(d, u, c, principal, secrets, now)
    case DoRevokeCredential(u, now) => RevokeCredential(d, u, now)
    case DoLogin(who, password, s, expiresAt) => Login(d, who, password, s, expiresAt)
    case DoChangePassword(s, current, password, length, now) => ChangePassword(d, s, current, password, length, now)
    case DoRevokeSession(s, target, now) => RevokeSession(d, s, target, now)
  }

  /** A failed call rolls back. */
  function After(d: Tables, call: Call): Tables {
    match Perform(d, call)
    case Ok(d') => d'
    case Err(_) => d
  }

  lemma CallKeeps(d: Tables, call: Call)
    requires Inv(d) && Fresh(d, call)
    ensures Inv(After(d, call))
  {
    if Perform(d, call).Ok? {
      match call
      case DoCreateUser(u, a, display, login, forgejo, password) =>
        CreateUserKeeps(d, u, a, display, login, forgejo, password);
      case DoUpdateUser(u, display, forgejo, now) => UpdateUserKeeps(d, u, display, forgejo, now);
      case DoDisableUser(u, now) => DisableUserKeeps(d, u, now);
      case DoEnableUser(u) => EnableUserKeeps(d, u);
      case DoCreateInvitation(u, i, now) => CreateInvitationKeeps(d, u, i, now);
      case DoRevokeInvitation(u, i, now) => RevokeInvitationKeeps(d, u, i, now);
      case DoAccept(i, password, length, now) => AcceptKeeps(d, i, password, length, now);
      case DoSaveCredential(u, c, principal, secrets, now) => SaveCredentialKeeps(d, u, c, principal, secrets, now);
      case DoRevokeCredential(u, now) => RevokeCredentialKeeps(d, u, now);
      case DoLogin(who, password, s, expiresAt) => LoginKeeps(d, who, password, s, expiresAt);
      case DoChangePassword(s, current, password, length, now) =>
        ChangePasswordKeeps(d, s, current, password, length, now);
      case DoRevokeSession(s, target, now) => RevokeSessionKeeps(d, s, target, now);
    }
  }

  ghost predicate Run(d: Tables, calls: seq<Call>)
    decreases calls
  {
    calls == [] || (Fresh(d, calls[0]) && Run(After(d, calls[0]), calls[1..]))
  }

  function Final(d: Tables, calls: seq<Call>): Tables
    decreases calls
  {
    if calls == [] then d else Final(After(d, calls[0]), calls[1..])
  }

  /** Every sequence of calls keeps the invariant. */
  lemma {:induction false} RunKeeps(d: Tables, calls: seq<Call>)
    requires Inv(d) && Run(d, calls)
    ensures Inv(Final(d, calls))
    decreases calls
  {
    if calls != [] {
      CallKeeps(d, calls[0]);
      RunKeeps(After(d, calls[0]), calls[1..]);
    }
  }

  /** The state after bootstrap: an administrator and no users. */
  function Bootstrapped(admin: Id, login: Id, password: Id): Tables {
    Tables(map[], map[admin := Account(None, login, Active, true, password)], map[], map[], map[])
  }

  lemma BootstrapKeeps(admin: Id, login: Id, password: Id)
    ensures Inv(Bootstrapped(admin, login, password))
  {
  }

  /** Every sequence of calls after bootstrap leads to a state that satisfies the invariant. */
  lemma EveryRunFromBootstrap(admin: Id, login: Id, password: Id, calls: seq<Call>)
    requires Run(Bootstrapped(admin, login, password), calls)
    ensures Inv(Final(Bootstrapped(admin, login, password), calls))
  {
    BootstrapKeeps(admin, login, password);
    RunKeeps(Bootstrapped(admin, login, password), calls);
  }

  /** A user that is not active can neither act through a session nor hold a credential. */
  lemma InactiveUserIsPowerless(d: Tables, u: Id)
    requires Inv(d) && u in d.users && d.users[u].status != Active
    ensures !HasActive(d, u)
    ensures forall s | Live(d, s) :: d.accounts[d.sessions[s].account].user != Some(u)
  {
    assert UserOk(d, u);
    forall c | c in d.credentials && d.credentials[c].user == u ensures !d.credentials[c].active {
      assert CredentialOk(d, c);
    }
    forall s | Live(d, s) ensures d.accounts[d.sessions[s].account].user != Some(u) {
      assert SessionOk(d, s) && AccountOk(d, d.sessions[s].account);
    }
  }

  // ---------------------------------------------------------------- a save that is interrupted

  /** If other calls run during the network call, the invariant survives exactly when the user is still
      active and still has the verified name at the moment of storing. */
  lemma InterruptedSaveKeeps(d: Tables, u: Id, c: Id, principal: Principal, secrets: Secrets, now: Time)
    requires Inv(d) && c !in d.credentials
    ensures Inv(StoreVerified(d, u, c, principal, secrets, now)) <==>
            u in d.users && d.users[u].status == Active && d.users[u].forgejo.normalized == principal.name
  {
    var d' := StoreVerified(d, u, c, principal, secrets, now);
    if u in d.users && d.users[u].status == Active && d.users[u].forgejo.normalized == principal.name {
      var mid := d.(credentials := RevokeCredentials(d.credentials, u, now));
      RevokedCreds(d, mid, u, now);
      forall x | x in d'.credentials ensures CredentialOk(d', x) {
        if x != c { assert CredentialOk(mid, x); }
      }
      forall x, y | x in d'.credentials && y in d'.credentials ensures OneActive(d', x, y) {
        if x != c && y != c { assert OneActive(mid, x, y); }
      }
      PeopleFrame(d, d');
      SessFrame(d, d');
      InvsFrame(d, d');
    } else {
      assert !CredentialOk(d', c);
    }
  }

  /** A save that would have succeeded breaks the invariant if the user is disabled during its network
      call: the disabled user ends up with an active credential. */
  lemma DisableDuringSaveBreaks(d: Tables, u: Id, c: Id, principal: Principal, secrets: Secrets, now: Time)
    requires Inv(d) && c !in d.credentials && SaveCredential(d, u, c, Some(principal), secrets, now).Ok?
    ensures DisableUser(d, u, now).Ok?
    ensures var disabled := DisableUser(d, u, now).value;
            Inv(disabled) && !Inv(StoreVerified(disabled, u, c, principal, secrets, now))
  {
    DisableUserKeeps(d, u, now);
    InterruptedSaveKeeps(DisableUser(d, u, now).value, u, c, principal, secrets, now);
  }

  /** And if the user is given another Forgejo name meanwhile: the credential is active under the old. */
  lemma RenameDuringSaveBreaks(d: Tables, u: Id, c: Id, principal: Principal, secrets: Secrets, now: Time,
                               display: string, forgejo: Name)
    requires Inv(d) && c !in d.credentials && SaveCredential(d, u, c, Some(principal), secrets, now).Ok?
    requires UpdateUser(d, u, display, forgejo, now).Ok?
    requires forgejo.normalized != d.users[u].forgejo.normalized
    ensures var renamed := UpdateUser(d, u, display, forgejo, now).value;
            Inv(renamed) && !Inv(StoreVerified(renamed, u, c, principal, secrets, now))
  {
    UpdateUserKeeps(d, u, display, forgejo, now);
    InterruptedSaveKeeps(UpdateUser(d, u, display, forgejo, now).value, u, c, principal, secrets, now);
  }
}
