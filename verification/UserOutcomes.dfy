/** When the management calls succeed, what they do, and why anything changed: every decision said in
    full of the rows before and after a call. */
module UserOutcomes {
  import opened Prelude
  import opened UserLifecycle
  import opened UserLifecycleTheorems

  // ---------------------------------------------------------------- success

  /** The session is not revoked and belongs to the account. */
  predicate SignedIn(d: Tables, s: Id, a: Id) {
    s in d.sessions && d.sessions[s].revokedAt.None? && d.sessions[s].account == a && a in d.accounts
  }

  /** The invitation is unused, unrevoked and unexpired, and its user is not disabled. */
  predicate Open(d: Tables, i: Id, now: Time) {
    i in d.invitations &&
    var inv := d.invitations[i];
    inv.usedAt.None? && inv.revokedAt.None? && inv.expiresAt > now &&
    (inv.user in d.users ==> d.users[inv.user].status != Disabled)
  }

  predicate HasAccount(d: Tables, u: Id) {
    u in d.users && d.users[u].account.Some? && d.users[u].account.value in d.accounts
  }

  /** The conditions under which a call succeeds. */
  ghost predicate MayPerform(d: Tables, call: Call) {
    match call
    case DoCreateUser(_, _, display, login, forgejo, _) =>
      display != "" && login.text != "" && forgejo.text != "" &&
      (forall v | v in d.users :: d.users[v].forgejo.normalized != forgejo.normalized) &&
      forall b | b in d.accounts :: d.accounts[b].login != login.normalized
    case DoUpdateUser(u, display, forgejo, _) =>
      u in d.users && display != "" && forgejo.text != "" &&
      forall v | v in d.users && v != u :: d.users[v].forgejo.normalized != forgejo.normalized
    case DoDisableUser(u, _) => u in d.users
    case DoEnableUser(u) => HasAccount(d, u)
    case DoCreateInvitation(u, _, _) => u in d.users && d.users[u].status != Disabled
    case DoRevokeInvitation(u, i, _) => i in d.invitations && d.invitations[i].user == u
    case DoAccept(i, _, length, now) => Open(d, i, now) && HasAccount(d, d.invitations[i].user) && length >= 12
    case DoSaveCredential(u, _, principal, _, _) =>
      u in d.users && d.users[u].status == Active && principal.Some? &&
      principal.value.name == d.users[u].forgejo.normalized &&
      forall x | x in d.credentials && d.credentials[x].user == u && d.credentials[x].active ::
        d.credentials[x].forgejoUser == principal.value.id
    case DoRevokeCredential(u, _) =>
      u in d.users && exists x :: x in d.credentials && d.credentials[x].user == u && d.credentials[x].active
    case DoLogin(who, password, _, _) =>
      who.Some? && who.value in d.accounts && d.accounts[who.value].status == Active &&
      d.accounts[who.value].password == password
    case DoChangePassword(s, current, password, length, _) =>
      s in d.sessions && SignedIn(d, s, d.sessions[s].account) &&
      d.accounts[d.sessions[s].account].password == current && length >= 12 && password != current
    case DoRevokeSession(s, target, _) =>
      s in d.sessions && SignedIn(d, s, d.sessions[s].account) &&
      target in d.sessions && d.sessions[target].account == d.sessions[s].account
  }

  /** A call succeeds exactly under its conditions. */
  lemma SucceedsExactly(d: Tables, call: Call)
    ensures Perform(d, call).Ok? <==> MayPerform(d, call)
  {
  }

  /** Why a call fails, by the first of its conditions that is not met. */
  function Complaint(d: Tables, call: Call): Error {
    match call
    case DoCreateUser(_, _, display, login, forgejo, _) =>
      if display == "" || login.text == "" || forgejo.text == "" then ValidationFailed else Conflict
    case DoUpdateUser(u, display, forgejo, _) =>
      if u !in d.users then NotFound else if display == "" || forgejo.text == "" then ValidationFailed else Conflict
    case DoEnableUser(u) => if u in d.users then Conflict else NotFound
    case DoCreateInvitation(u, _, _) => if u in d.users then Conflict else NotFound
    case DoAccept(i, _, _, now) =>
      if i !in d.invitations then NotFound
      else if !Open(d, i, now) then Gone
      else if !HasAccount(d, d.invitations[i].user) then Conflict else ValidationFailed
    case DoSaveCredential(u, _, _, _, _) => if u in d.users then ValidationFailed else NotFound
    case DoLogin(_, _, _, _) => AuthenticationFailed
    case DoChangePassword(s, _, _, _, _) =>
      if s in d.sessions && SignedIn(d, s, d.sessions[s].account) then ValidationFailed else AuthenticationFailed
    case DoRevokeSession(s, _, _) =>
      if s in d.sessions && SignedIn(d, s, d.sessions[s].account) then NotFound else AuthenticationFailed
    case _ => NotFound
  }

  /** A call that may not be performed fails with its complaint. */
  lemma FailureTells(d: Tables, call: Call)
    requires !MayPerform(d, call)
    ensures Perform(d, call) == Err(Complaint(d, call))
  {
    SucceedsExactly(d, call);
  }

  // ---------------------------------------------------------------- effect

  /** The account is left without a session, except at most the given one. */
  ghost predicate SignedOut(d: Tables, a: Id, except: Option<Id>) {
    forall s: Id | SignedIn(d, s, a) :: except == Some(s)
  }

  ghost predicate NoCredential(d: Tables, u: Id) {
    forall c | c in d.credentials && d.credentials[c].user == u :: !d.credentials[c].active
  }

  /** What a call brings about if it succeeds. */
  ghost predicate Effect(d: Tables, d': Tables, call: Call) {
    match call
    case DoCreateUser(u, a, _, login, forgejo, password) =>
      d' == d.(users := d.users[u := User(Some(a), forgejo, Pending)],
               accounts := d.accounts[a := Account(Some(u), login.normalized, Pending, true, password)])
    case DoUpdateUser(u, _, forgejo, _) =>
      u in d.users && u in d'.users && d'.users[u] == d.users[u].(forgejo := forgejo) &&
      (forgejo.normalized != d.users[u].forgejo.normalized ==> NoCredential(d', u))
    case DoDisableUser(u, _) =>
      u in d'.users && d'.users[u].status == Disabled && NoCredential(d', u) &&
      (forall i | i in d'.invitations && d'.invitations[i].user == u ::
         d'.invitations[i].usedAt.Some? || d'.invitations[i].revokedAt.Some?) &&
      (HasAccount(d', u) ==>
         d'.accounts[d'.users[u].account.value].status == Disabled && SignedOut(d', d'.users[u].account.value, None))
    case DoEnableUser(u) =>
      HasAccount(d, u) && HasAccount(d', u) &&
      var a := d.users[u].account.value;
      var status := if d.accounts[a].mustChangePassword then Pending else Active;
      d'.users[u] == d.users[u].(status := status) && a in d'.accounts &&
      d'.accounts[a] == d.accounts[a].(status := status)
    case DoCreateInvitation(u, i, now) =>
      i in d'.invitations && d'.invitations[i] == Invitation(u, now + 30 * 60 * SECOND, None, None) &&
      forall j | j in d'.invitations && j != i && d'.invitations[j].user == u ::
        d'.invitations[j].usedAt.Some? || d'.invitations[j].revokedAt.Some?
    case DoRevokeInvitation(_, i, now) => i in d'.invitations && d'.invitations[i].revokedAt == Some(now)
    case DoAccept(i, password, _, now) =>
      i in d.invitations && i in d'.invitations && d'.invitations[i] == d.invitations[i].(usedAt := Some(now)) &&
      var u := d.invitations[i].user;
      HasAccount(d, u) && HasAccount(d', u) && d'.users[u] == d.users[u].(status := Active) &&
      var a := d.users[u].account.value;
      a in d'.accounts &&
      d'.accounts[a] == d.accounts[a].(status := Active, mustChangePassword := false, password := password) &&
      SignedOut(d', a, None)
    case DoSaveCredential(u, c, principal, secrets, _) =>
      principal.Some? && c in d'.credentials &&
      var w := d'.credentials[c];
      w.user == u && w.active && w.forgejoUser == principal.value.id && w.forgejoName == principal.value.name &&
      w.token == Some(secrets.token) && w.nonce == Some(secrets.nonce) && w.revokedAt.None? &&
      (secrets.refresh.Some? ==>
         w.refreshToken == Some(secrets.refresh.value.0) && w.refreshNonce == Some(secrets.refresh.value.1)) &&
      (secrets.refresh.None? ==> w.refreshToken.None? && w.refreshNonce.None?) &&
      forall x | x in d'.credentials && x != c && d'.credentials[x].user == u :: !d'.credentials[x].active
    case DoRevokeCredential(u, _) => NoCredential(d', u)
    case DoLogin(who, _, s, expiresAt) =>
      who.Some? && s in d'.sessions && d'.sessions[s] == Session(who.value, expiresAt, None)
    case DoChangePassword(s, _, password, _, _) =>
      s in d.sessions && d.sessions[s].account in d.accounts && d.sessions[s].account in d'.accounts &&
      var a := d.sessions[s].account;
      d'.accounts[a] == d.accounts[a].(password := password, mustChangePassword := false) && SignedOut(d', a, Some(s))
    case DoRevokeSession(_, target, now) => target in d'.sessions && d'.sessions[target].revokedAt == Some(now)
  }

  /** A call that succeeds has its effect; one that does not changes nothing. */
  lemma CallOutcome(d: Tables, call: Call)
    requires Fresh(d, call)
    ensures if MayPerform(d, call) then Effect(d, After(d, call), call) else After(d, call) == d
  {
    SucceedsExactly(d, call);
  }

  // ---------------------------------------------------------------- why something changed

  /** The user of an accepted invitation, or the user that is enabled and has chosen a password before. */
  predicate Activates(d: Tables, call: Call, u: Id) {
    (call.DoAccept? && Open(d, call.invitation, call.now) && d.invitations[call.invitation].user == u) ||
    (call.DoEnableUser? && call.user == u && HasAccount(d, u) &&
     !d.accounts[d.users[u].account.value].mustChangePassword)
  }

  lemma ActivationHasACause(d: Tables, call: Call, u: Id)
    requires Fresh(d, call) && u in After(d, call).users && After(d, call).users[u].status == Active
    requires u in d.users ==> d.users[u].status != Active
    ensures MayPerform(d, call) && Activates(d, call, u)
  {
    SucceedsExactly(d, call);
  }

  /** The password of an account is replaced by whoever accepts its user's open invitation, or by its
      own session that knows the old one. */
  predicate SetsPassword(d: Tables, call: Call, a: Id, password: Id) {
    (call.DoAccept? && Open(d, call.invitation, call.now) && call.password == password && call.length >= 12 &&
     HasAccount(d, d.invitations[call.invitation].user) &&
     d.users[d.invitations[call.invitation].user].account.value == a) ||
    (call.DoChangePassword? && SignedIn(d, call.session, a) && d.accounts[a].password == call.current &&
     call.password == password && call.length >= 12)
  }

  lemma PasswordHasACause(d: Tables, call: Call, a: Id)
    requires Fresh(d, call) && a in d.accounts && a in After(d, call).accounts
    requires After(d, call).accounts[a].password != d.accounts[a].password
    ensures SetsPassword(d, call, a, After(d, call).accounts[a].password)
  {
    SucceedsExactly(d, call);
  }

  /** A new session is that of a sign-in to an active account with its password. */
  lemma SessionHasACause(d: Tables, call: Call, s: Id)
    requires Fresh(d, call) && s in After(d, call).sessions && s !in d.sessions
    ensures call.DoLogin? && call.session == s && MayPerform(d, call)
    ensures After(d, call).sessions[s] == Session(call.who.value, call.expiresAt, None)
  {
    SucceedsExactly(d, call);
  }

  /** Why the call may end a session of the account. */
  predicate EndsSession(d: Tables, call: Call, s: Id)
    requires s in d.sessions
  {
    var a := d.sessions[s].account;
    (call.DoDisableUser? && HasAccount(d, call.user) && d.users[call.user].account.value == a) ||
    (call.DoAccept? && Open(d, call.invitation, call.now) && HasAccount(d, d.invitations[call.invitation].user) &&
     d.users[d.invitations[call.invitation].user].account.value == a) ||
    (call.DoChangePassword? && call.session != s && SignedIn(d, call.session, a)) ||
    (call.DoRevokeSession? && call.target == s && SignedIn(d, call.session, a))
  }

  /** A session ends when its account is disabled or activated, when another session of it changes the
      password, or when a session of it ends this one. */
  lemma SessionEndHasACause(d: Tables, call: Call, s: Id)
    requires Inv(d) && Fresh(d, call) && s in d.sessions && d.sessions[s].revokedAt.None?
    requires s in After(d, call).sessions && After(d, call).sessions[s].revokedAt.Some?
    ensures EndsSession(d, call, s)
  {
    SucceedsExactly(d, call);
    if call.DoDisableUser? && call.user in d.users { assert UserOk(d, call.user); }
  }

  /** A credential becomes active only by a save for its own active user whose Forgejo name it confirms. */
  lemma CredentialHasACause(d: Tables, call: Call, c: Id)
    requires Fresh(d, call) && c in After(d, call).credentials && After(d, call).credentials[c].active
    requires c in d.credentials ==> !d.credentials[c].active
    ensures call.DoSaveCredential? && call.credential == c && MayPerform(d, call)
    ensures After(d, call).credentials[c].user == call.user
  {
    SucceedsExactly(d, call);
  }

  /** Why the call may erase the credential of a user. */
  predicate ErasesCredential(d: Tables, call: Call, u: Id) {
    ((call.DoDisableUser? || call.DoRevokeCredential? || call.DoSaveCredential?) && call.user == u) ||
    (call.DoUpdateUser? && call.user == u && u in d.users &&
     call.forgejo.normalized != d.users[u].forgejo.normalized)
  }

  lemma CredentialEndHasACause(d: Tables, call: Call, c: Id)
    requires Fresh(d, call) && c in d.credentials && d.credentials[c].active
    requires c in After(d, call).credentials && !After(d, call).credentials[c].active
    ensures MayPerform(d, call) && ErasesCredential(d, call, d.credentials[c].user)
  {
    SucceedsExactly(d, call);
  }

  /** A user is disabled, or an invitation made, only by the call of that name. */
  lemma DisabledHasACause(d: Tables, call: Call, u: Id)
    requires Fresh(d, call) && u in d.users && d.users[u].status != Disabled
    requires u in After(d, call).users && After(d, call).users[u].status == Disabled
    ensures call.DoDisableUser? && call.user == u
  {
  }

  lemma InvitationHasACause(d: Tables, call: Call, i: Id)
    requires Fresh(d, call) && i in After(d, call).invitations && i !in d.invitations
    ensures call.DoCreateInvitation? && call.invitation == i && MayPerform(d, call)
  {
    SucceedsExactly(d, call);
  }

  /** Rows are never removed. */
  lemma RowsStay(d: Tables, call: Call, x: Id)
    requires Fresh(d, call)
    ensures var d' := After(d, call);
            (x in d.users ==> x in d'.users) && (x in d.accounts ==> x in d'.accounts) &&
            (x in d.sessions ==> x in d'.sessions && d'.sessions[x].account == d.sessions[x].account) &&
            (x in d.invitations ==> x in d'.invitations) && (x in d.credentials ==> x in d'.credentials)
  {
  }

  /** An invitation is used only by being accepted while it is open. */
  lemma UseHasACause(d: Tables, call: Call, i: Id)
    requires Fresh(d, call) && i in d.invitations && d.invitations[i].usedAt.None?
    requires i in After(d, call).invitations && After(d, call).invitations[i].usedAt.Some?
    ensures call.DoAccept? && call.invitation == i && MayPerform(d, call)
  {
    SucceedsExactly(d, call);
  }

  /** An unused invitation is revoked by name, when its user is disabled, or when a new one replaces it. */
  lemma InvitationEndHasACause(d: Tables, call: Call, i: Id)
    requires Fresh(d, call) && i in d.invitations && d.invitations[i].revokedAt.None?
    requires i in After(d, call).invitations && After(d, call).invitations[i].revokedAt.Some?
    ensures MayPerform(d, call)
    ensures (call.DoRevokeInvitation? && call.invitation == i) ||
            ((call.DoDisableUser? || call.DoCreateInvitation?) && call.user == d.invitations[i].user &&
             d.invitations[i].usedAt.None?)
  {
    SucceedsExactly(d, call);
  }

  /** A user's Forgejo name changes only by an update to a name that no other user has. */
  lemma NameHasACause(d: Tables, call: Call, u: Id)
    requires Fresh(d, call) && u in d.users && u in After(d, call).users
    requires After(d, call).users[u].forgejo != d.users[u].forgejo
    ensures call.DoUpdateUser? && call.user == u && MayPerform(d, call)
    ensures After(d, call).users[u].forgejo == call.forgejo
  {
    SucceedsExactly(d, call);
  }
}
