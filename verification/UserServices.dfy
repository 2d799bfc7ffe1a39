/** The user, invitation, credential and sign-in services over their tables, field by field. Each
    method is proved to make the transition of its call; a failed call leaves the tables as they were. */
module UserServices {
  import opened Prelude
  import opened UserLifecycle
  import opened UserLifecycleTheorems
  import opened UserOutcomes

  /** The flush finds the unique index of names, or of logins, violated by a row just written. */
  predicate NameTwice(users: map<Id, User>, u: Id)
    requires u in users
  {
    exists v :: v in users && v != u && users[v].forgejo.normalized == users[u].forgejo.normalized
  }

  predicate LoginTwice(accounts: map<Id, Account>, a: Id)
    requires a in accounts
  {
    exists b :: b in accounts && b != a && accounts[b].login == accounts[a].login
  }

  lemma CreatedTwice(d: Tables, u: Id, a: Id, user: User, account: Account)
    requires u !in d.users && a !in d.accounts
    ensures NameTwice(d.users[u := user], u) <==> ForgejoTaken(d, user.forgejo.normalized, None)
    ensures LoginTwice(d.accounts[a := account], a) <==> LoginTaken(d, account.login)
  {
    if v :| v in d.users && None != Some(v) && d.users[v].forgejo.normalized == user.forgejo.normalized {
      assert d.users[u := user][v] == d.users[v];
    }
    if b :| b in d.accounts && d.accounts[b].login == account.login {
      assert d.accounts[a := account][b] == d.accounts[b];
    }
  }

  lemma RenamedTwice(d: Tables, u: Id, forgejo: Name)
    requires u in d.users
    ensures NameTwice(d.users[u := d.users[u].(forgejo := forgejo)], u) <==>
            ForgejoTaken(d, forgejo.normalized, Some(u))
  {
    if v :| v in d.users && Some(u) != Some(v) && d.users[v].forgejo.normalized == forgejo.normalized {
      assert d.users[u := d.users[u].(forgejo := forgejo)][v] == d.users[v];
    }
  }

  class ManagementDatabase {
    var users: map<Id, User>
    var accounts: map<Id, Account>
    var sessions: map<Id, Session>
    var invitations: map<Id, Invitation>
    var credentials: map<Id, Credential>

    function View(): Tables
      reads this
    {
      Tables(users, accounts, sessions, invitations, credentials)
    }

    constructor (d: Tables)
      ensures View() == d
    {
      users, accounts, sessions := d.users, d.accounts, d.sessions;
      invitations, credentials := d.invitations, d.credentials;
    }

    /** Some active credential of the user. */
    method ActiveForUser(u: Id) returns (found: Option<Id>)
      ensures found.None? <==> !HasActive(View(), u)
      ensures found.Some? ==> found.value in credentials && credentials[found.value].user == u &&
                              credentials[found.value].active
    {
      var todo := credentials.Keys;
      while todo != {}
        invariant todo <= credentials.Keys
        invariant forall c | c in credentials && c !in todo :: !(credentials[c].user == u && credentials[c].active)
        decreases |todo|
      {
        var c :| c in todo;
        if credentials[c].user == u && credentials[c].active { return Some(c); }
        todo := todo - {c};
      }
      return None;
    }

    /** Erases the user's active credential; there is at most one. */
    method RevokeActive(u: Id, now: Time)
      requires Creds(View())
      modifies this`credentials
      ensures credentials == RevokeCredentials(old(credentials), u, now)
    {
      var current := ActiveForUser(u);
      ghost var d := View();
      if current.Some? {
        forall c | c in credentials && credentials[c].user == u && credentials[c].active ensures c == current.value {
          assert OneActive(d, c, current.value);
        }
        credentials := credentials[current.value := Erased(credentials[current.value], now)];
      }
      assert credentials == RevokeCredentials(old(credentials), u, now);
    }

    /** The unique indexes are found violated at the flush, after the rows were added. */
    method CreateUserCall(u: Id, a: Id, display: string, login: Name, forgejo: Name, password: Id)
      returns (error: Option<Error>)
      requires Inv(View()) && u !in users && a !in accounts
      modifies this`users, this`accounts
      ensures View() == After(old(View()), DoCreateUser(u, a, display, login, forgejo, password)) && Inv(View())
      ensures error.None? <==> MayPerform(old(View()), DoCreateUser(u, a, display, login, forgejo, password))
    {
      CallKeeps(View(), DoCreateUser(u, a, display, login, forgejo, password));
      SucceedsExactly(View(), DoCreateUser(u, a, display, login, forgejo, password));
      if display == "" || login.text == "" || forgejo.text == "" { return Some(ValidationFailed); }
      ghost var d := View();
      var users0, accounts0 := users, accounts;
      users := users[u := User(Some(a), forgejo, Pending)];
      accounts := accounts[a := Account(Some(u), login.normalized, Pending, true, password)];
      CreatedTwice(d, u, a, users[u], accounts[a]);
      if NameTwice(users, u) || LoginTwice(accounts, a) {
        users, accounts := users0, accounts0;
        return Some(Conflict);
      }
      return None;
    }

    method UpdateUserCall(u: Id, display: string, forgejo: Name, now: Time) returns (error: Option<Error>)
      requires Inv(View())
      modifies this`users, this`credentials
      ensures View() == After(old(View()), DoUpdateUser(u, display, forgejo, now)) && Inv(View())
      ensures error.None? <==> MayPerform(old(View()), DoUpdateUser(u, display, forgejo, now))
    {
      CallKeeps(View(), DoUpdateUser(u, display, forgejo, now));
      SucceedsExactly(View(), DoUpdateUser(u, display, forgejo, now));
      if u !in users { return Some(NotFound); }
      if display == "" || forgejo.text == "" { return Some(ValidationFailed); }
      ghost var d := View();
      var users0, credentials0 := users, credentials;
      if forgejo.normalized != users[u].forgejo.normalized { RevokeActive(u, now); }
      users := users[u := users[u].(forgejo := forgejo)];
      RenamedTwice(d, u, forgejo);
      if NameTwice(users, u) {
        users, credentials := users0, credentials0;
        return Some(Conflict);
      }
      return None;
    }

    method DisableUserCall(u: Id, now: Time) returns (error: Option<Error>)
      requires Inv(View())
      modifies this
      ensures View() == After(old(View()), DoDisableUser(u, now)) && Inv(View())
      ensures error.None? <==> u in old(users)
    {
      CallKeeps(View(), DoDisableUser(u, now));
      if u !in users { return Some(NotFound); }
      ghost var d := View();
      assert UserOk(d, u);
      RevokeActive(u, now);
      var a := users[u].account;
      users := users[u := users[u].(status := Disabled)];
      if a.Some? {
        accounts := accounts[a.value := accounts[a.value].(status := Disabled)];
        sessions := RevokeSessions(sessions, a.value, None, now);
      }
      invitations := RevokeInvitations(invitations, u, now);
      assert View() == DisableUser(d, u, now).value;
      return None;
    }

    method EnableUserCall(u: Id) returns (error: Option<Error>)
      requires Inv(View())
      modifies this`users, this`accounts
      ensures View() == After(old(View()), DoEnableUser(u)) && Inv(View())
      ensures error.None? <==> u in old(users)
    {
      CallKeeps(View(), DoEnableUser(u));
      if u !in users { return Some(NotFound); }
      assert UserOk(View(), u);
      var a := users[u].account.value;
      var next := if accounts[a].mustChangePassword then Pending else Active;
      users := users[u := users[u].(status := next)];
      accounts := accounts[a := accounts[a].(status := next)];
      return None;
    }

    method CreateInvitationCall(u: Id, i: Id, now: Time) returns (error: Option<Error>)
      requires Inv(View()) && i !in invitations
      modifies this`invitations
      ensures View() == After(old(View()), DoCreateInvitation(u, i, now)) && Inv(View())
      ensures error.None? <==> u in users && users[u].status != Disabled
    {
      CallKeeps(View(), DoCreateInvitation(u, i, now));
      if u !in users { return Some(NotFound); }
      if users[u].status == Disabled { return Some(Conflict); }
      invitations := RevokeInvitations(invitations, u, now);
      invitations := invitations[i := Invitation(u, now + INVITATION_TTL_MINUTES * 60 * SECOND, None, None)];
      return None;
    }

    method AcceptCall(i: Id, password: Id, length: nat, now: Time) returns (error: Option<Error>)
      requires Inv(View())
      modifies this`users, this`accounts, this`invitations, this`sessions
      ensures View() == After(old(View()), DoAccept(i, password, length, now)) && Inv(View())
      ensures error.None? <==> MayPerform(old(View()), DoAccept(i, password, length, now))
    {
      CallKeeps(View(), DoAccept(i, password, length, now));
      SucceedsExactly(View(), DoAccept(i, password, length, now));
      if i !in invitations { return Some(NotFound); }
      var inv := invitations[i];
      if inv.usedAt.Some? || inv.revokedAt.Some? || inv.expiresAt <= now { return Some(Gone); }
      if inv.user in users && users[inv.user].status == Disabled { return Some(Gone); }
      if inv.user !in users || users[inv.user].account.None? || users[inv.user].account.value !in accounts {
        return Some(Conflict);
      }
      if length < MIN_PASSWORD_LENGTH { return Some(ValidationFailed); }
      var a := users[inv.user].account.value;
      accounts := accounts[a := accounts[a].(password := password, mustChangePassword := false, status := Active)];
      users := users[inv.user := users[inv.user].(status := Active)];
      invitations := invitations[i := inv.(usedAt := Some(now))];
      sessions := RevokeSessions(sessions, a, None, now);
      return None;
    }

    method SaveCredentialCall(u: Id, c: Id, principal: Option<Principal>, secrets: Secrets, now: Time)
      returns (error: Option<Error>)
      requires Inv(View()) && c !in credentials
      modifies this`credentials
      ensures View() == After(old(View()), DoSaveCredential(u, c, principal, secrets, now)) && Inv(View())
      ensures error.None? <==> MayPerform(old(View()), DoSaveCredential(u, c, principal, secrets, now))
    {
      CallKeeps(View(), DoSaveCredential(u, c, principal, secrets, now));
      SucceedsExactly(View(), DoSaveCredential(u, c, principal, secrets, now));
      if u !in users { return Some(NotFound); }
      if users[u].status != Active || principal.None? || principal.value.name != users[u].forgejo.normalized {
        return Some(ValidationFailed);
      }
      var current := ActiveForUser(u);
      ghost var d := View();
      forall x | x in credentials && credentials[x].user == u && credentials[x].active ensures current == Some(x) {
        assert OneActive(d, x, current.value);
      }
      if current.Some? && credentials[current.value].forgejoUser != principal.value.id {
        return Some(ValidationFailed);
      }
      RevokeActive(u, now);
      var row := Credential(u, true, principal.value.id, principal.value.name, Some(secrets.token),
                            Some(secrets.nonce), None, None, None);
      if secrets.refresh.Some? {
        row := row.(refreshToken := Some(secrets.refresh.value.0), refreshNonce := Some(secrets.refresh.value.1));
      }
      credentials := credentials[c := row];
      return None;
    }

    method RevokeCredentialCall(u: Id, now: Time) returns (error: Option<Error>)
      requires Inv(View())
      modifies this`credentials
      ensures View() == After(old(View()), DoRevokeCredential(u, now)) && Inv(View())
      ensures error.None? <==> u in users && HasActive(old(View()), u)
    {
      CallKeeps(View(), DoRevokeCredential(u, now));
      if u !in users { return Some(NotFound); }
      var current := ActiveForUser(u);
      if current.None? { return Some(NotFound); }
      RevokeActive(u, now);
      return None;
    }

    method RevokeInvitationCall(u: Id, i: Id, now: Time) returns (error: Option<Error>)
      requires Inv(View())
      modifies this`invitations
      ensures View() == After(old(View()), DoRevokeInvitation(u, i, now)) && Inv(View())
      ensures error.None? <==> i in old(invitations) && old(invitations)[i].user == u
    {
      CallKeeps(View(), DoRevokeInvitation(u, i, now));
      if i !in invitations || invitations[i].user != u { return Some(NotFound); }
      invitations := invitations[i := invitations[i].(revokedAt := Some(now))];
      return None;
    }

    /** who is the account with the normalized name, if any; only an active account signs in. */
    method LoginCall(who: Option<Id>, password: Id, s: Id, expiresAt: Time) returns (error: Option<Error>)
      requires Inv(View()) && s !in sessions
      modifies this`sessions
      ensures View() == After(old(View()), DoLogin(who, password, s, expiresAt)) && Inv(View())
      ensures error.None? <==> who.Some? && who.value in accounts && accounts[who.value].status == Active &&
                               accounts[who.value].password == password
    {
      CallKeeps(View(), DoLogin(who, password, s, expiresAt));
      if who.None? || who.value !in accounts { return Some(AuthenticationFailed); }
      var account := accounts[who.value];
      if account.password != password || account.status != Active { return Some(AuthenticationFailed); }
      sessions := sessions[s := Session(who.value, expiresAt, None)];
      return None;
    }

    /** Changing the password ends every other session of the account. */
    method ChangePasswordCall(s: Id, current: Id, password: Id, length: nat, now: Time) returns (error: Option<Error>)
      requires Inv(View())
      modifies this`accounts, this`sessions
      ensures View() == After(old(View()), DoChangePassword(s, current, password, length, now)) && Inv(View())
      ensures error.None? <==> MayPerform(old(View()), DoChangePassword(s, current, password, length, now))
      ensures error.None? ==> forall t | Live(View(), t) && sessions[t].account == sessions[s].account :: t == s
    {
      CallKeeps(View(), DoChangePassword(s, current, password, length, now));
      SucceedsExactly(View(), DoChangePassword(s, current, password, length, now));
      if s !in sessions || sessions[s].revokedAt.Some? || sessions[s].account !in accounts {
        return Some(AuthenticationFailed);
      }
      var a := sessions[s].account;
      if accounts[a].password != current || length < MIN_PASSWORD_LENGTH || password == current {
        return Some(ValidationFailed);
      }
      accounts := accounts[a := accounts[a].(password := password, mustChangePassword := false)];
      sessions := RevokeSessions(sessions, a, Some(s), now);
      return None;
    }

    method RevokeSessionCall(s: Id, target: Id, now: Time) returns (error: Option<Error>)
      requires Inv(View())
      modifies this`sessions
      ensures View() == After(old(View()), DoRevokeSession(s, target, now)) && Inv(View())
      ensures error.None? <==> MayPerform(old(View()), DoRevokeSession(s, target, now))
      ensures error.None? ==> !Live(View(), target)
    {
      CallKeeps(View(), DoRevokeSession(s, target, now));
      SucceedsExactly(View(), DoRevokeSession(s, target, now));
      if s !in sessions || sessions[s].revokedAt.Some? || sessions[s].account !in accounts {
        return Some(AuthenticationFailed);
      }
      if target !in sessions || sessions[target].account != sessions[s].account { return Some(NotFound); }
      sessions := sessions[target := sessions[target].(revokedAt := Some(now))];
      return None;
    }
  }
}
