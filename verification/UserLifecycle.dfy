/** Users, their dashboard accounts, sessions, invitations and Forgejo credentials, and the service
    calls that change them. Each call is one transaction. */
module UserLifecycle {
  import opened Prelude

  datatype Status = Pending | Active | Disabled

  /** A name as entered, without surrounding space, and its normalized form, which stands for the
      Unicode compatibility and case folding that lookups compare. */
  datatype Name = Name(text: string, normalized: Id)

  datatype User = User(account: Option<Id>, forgejo: Name, status: Status)

  /** Administrators have no user. */
  datatype Account = Account(user: Option<Id>, login: Id, status: Status, mustChangePassword: bool, password: Id)

  datatype Session = Session(account: Id, expiresAt: Time, revokedAt: Option<Time>)

  datatype Invitation = Invitation(user: Id, expiresAt: Time, usedAt: Option<Time>, revokedAt: Option<Time>)

  datatype Credential = Credential(
    user: Id, active: bool, forgejoUser: int, forgejoName: Id,
    token: Option<Id>, nonce: Option<Id>, refreshToken: Option<Id>, refreshNonce: Option<Id>,
    revokedAt: Option<Time>)

  datatype Tables = Tables(
    users: map<Id, User>, accounts: map<Id, Account>, sessions: map<Id, Session>,
    invitations: map<Id, Invitation>, credentials: map<Id, Credential>)

  datatype Error = NotFound | Conflict | ValidationFailed | Gone | AuthenticationFailed

  const INVITATION_TTL_MINUTES: int := 30
  const MIN_PASSWORD_LENGTH: nat := 12

  // ---------------------------------------------------------------- shared updates

  /** Every secret field is emptied. */
  function Erased(c: Credential, now: Time): Credential {
    c.(active := false, token := None, nonce := None, refreshToken := None, refreshNonce := None,
       revokedAt := Some(now))
  }

  function RevokeCredentials(credentials: map<Id, Credential>, u: Id, now: Time): map<Id, Credential> {
    map c | c in credentials ::
      if credentials[c].user == u && credentials[c].active then Erased(credentials[c], now) else credentials[c]
  }

  function RevokeSessions(sessions: map<Id, Session>, a: Id, except: Option<Id>, now: Time): map<Id, Session> {
    map s | s in sessions ::
      if sessions[s].account == a && sessions[s].revokedAt.None? && except != Some(s)
      then sessions[s].(revokedAt := Some(now)) else sessions[s]
  }

  function RevokeInvitations(invitations: map<Id, Invitation>, u: Id, now: Time): map<Id, Invitation> {
    map i | i in invitations ::
      if invitations[i].user == u && invitations[i].usedAt.None? && invitations[i].revokedAt.None?
      then invitations[i].(revokedAt := Some(now)) else invitations[i]
  }

  predicate HasActive(d: Tables, u: Id) {
    exists c :: c in d.credentials && d.credentials[c].user == u && d.credentials[c].active
  }

  /** Another user already has the Forgejo name. */
  predicate ForgejoTaken(d: Tables, name: Id, except: Option<Id>) {
    exists u :: u in d.users && except != Some(u) && d.users[u].forgejo.normalized == name
  }

  predicate LoginTaken(d: Tables, login: Id) {
    exists a :: a in d.accounts && d.accounts[a].login == login
  }

  function SetStatus(d: Tables, u: Id, status: Status): Tables
    requires u in d.users
  {
    var a := d.users[u].account;
    d.(users := d.users[u := d.users[u].(status := status)],
       accounts := if a.Some? && a.value in d.accounts
                   then d.accounts[a.value := d.accounts[a.value].(status := status)] else d.accounts)
  }

  // ---------------------------------------------------------------- the calls

  function CreateUser(d: Tables, u: Id, a: Id, display: string, login: Name, forgejo: Name, password: Id)
    : Result<Tables, Error>
  {
    if display == "" || login.text == "" || forgejo.text == "" then Err(ValidationFailed)
    else if ForgejoTaken(d, forgejo.normalized, None) || LoginTaken(d, login.normalized) then Err(Conflict)
    else Ok(d.(users := d.users[u := User(Some(a), forgejo, Pending)],
               accounts := d.accounts[a := Account(Some(u), login.normalized, Pending, true, password)]))
  }

  function UpdateUser(d: Tables, u: Id, display: string, forgejo: Name, now: Time): Result<Tables, Error> {
    if u !in d.users then Err(NotFound)
    else if display == "" || forgejo.text == "" then Err(ValidationFailed)
    else if ForgejoTaken(d, forgejo.normalized, Some(u)) then Err(Conflict)
    else Ok(d.(users := d.users[u := d.users[u].(forgejo := forgejo)],
               credentials := if forgejo.normalized != d.users[u].forgejo.normalized
                              then RevokeCredentials(d.credentials, u, now) else d.credentials))
  }

  function DisableUser(d: Tables, u: Id, now: Time): Result<Tables, Error> {
    if u !in d.users then Err(NotFound)
    else
      var a := d.users[u].account;
      Ok(SetStatus(d, u, Disabled).(
        sessions := if a.Some? then RevokeSessions(d.sessions, a.value, None, now) else d.sessions,
        invitations := RevokeInvitations(d.invitations, u, now),
        credentials := RevokeCredentials(d.credentials, u, now)))
  }

  function EnableUser(d: Tables, u: Id): Result<Tables, Error> {
    if u !in d.users then Err(NotFound)
    else if d.users[u].account.None? || d.users[u].account.value !in d.accounts then Err(Conflict)
    else Ok(SetStatus(d, u, if d.accounts[d.users[u].account.value].mustChangePassword then Pending else Active))
  }

  function CreateInvitation(d: Tables, u: Id, i: Id, now: Time): Result<Tables, Error> {
    if u !in d.users then Err(NotFound)
    else if d.users[u].status == Disabled then Err(Conflict)
    else Ok(d.(invitations := RevokeInvitations(d.invitations, u, now)[
      i := Invitation(u, now + INVITATION_TTL_MINUTES * 60 * SECOND, None, None)]))
  }

  function RevokeInvitation(d: Tables, u: Id, i: Id, now: Time): Result<Tables, Error> {
    if i !in d.invitations || d.invitations[i].user != u then Err(NotFound)
    else Ok(d.(invitations := d.invitations[i := d.invitations[i].(revokedAt := Some(now))]))
  }

  /** The invitation as accept and preview load it. */
  function LoadValid(d: Tables, i: Id, now: Time): Result<Invitation, Error> {
    if i !in d.invitations then Err(NotFound)
    else
      var inv := d.invitations[i];
      if inv.usedAt.Some? then Err(Gone)
      else if inv.revokedAt.Some? || inv.expiresAt <= now then Err(Gone)
      else if inv.user in d.users && d.users[inv.user].status == Disabled then Err(Gone)
      else Ok(inv)
  }

  function Accept(d: Tables, i: Id, password: Id, length: nat, now: Time): Result<Tables, Error> {
    match LoadValid(d, i, now)
    case Err(e) => Err(e)
    case Ok(inv) =>
      if inv.user !in d.users || d.users[inv.user].account.None? || d.users[inv.user].account.value !in d.accounts
      then Err(Conflict)
      else if length < MIN_PASSWORD_LENGTH then Err(ValidationFailed)
      else
        var a := d.users[inv.user].account.value;
        Ok(d.(users := d.users[inv.user := d.users[inv.user].(status := Active)],
              accounts := d.accounts[a := d.accounts[a].(status := Active, mustChangePassword := false,
                                                         password := password)],
              invitations := d.invitations[i := inv.(usedAt := Some(now))],
              sessions := RevokeSessions(d.sessions, a, None, now)))
  }

  /** What Forgejo says about the token: nothing if it rejects it. */
  datatype Principal = Principal(id: int, name: Id)

  datatype Secrets = Secrets(token: Id, nonce: Id, refresh: Option<(Id, Id)>)

  /** The second half of a credential save: what it stores once Forgejo has confirmed the principal. The
      user row is read before that network call and not again after it. */
  function StoreVerified(d: Tables, u: Id, c: Id, principal: Principal, secrets: Secrets, now: Time): Tables {
    var (t, n) := if secrets.refresh.Some? then (Some(secrets.refresh.value.0), Some(secrets.refresh.value.1))
                  else (None, None);
    d.(credentials := RevokeCredentials(d.credentials, u, now)[
      c := Credential(u, true, principal.id, principal.name, Some(secrets.token), Some(secrets.nonce), t, n, None)])
  }

  function SaveCredential(d: Tables, u: Id, c: Id, principal: Option<Principal>, secrets: Secrets, now: Time)
    : Result<Tables, Error>
  {
    if u !in d.users then Err(NotFound)
    else if d.users[u].status != Active || principal.None? ||
            principal.value.name != d.users[u].forgejo.normalized ||
            (exists x :: x in d.credentials && d.credentials[x].user == u && d.credentials[x].active &&
                         d.credentials[x].forgejoUser != principal.value.id)
    then Err(ValidationFailed)
    else Ok(StoreVerified(d, u, c, principal.value, secrets, now))
  }

  function RevokeCredential(d: Tables, u: Id, now: Time): Result<Tables, Error> {
    if u !in d.users || !HasActive(d, u) then Err(NotFound)
    else Ok(d.(credentials := RevokeCredentials(d.credentials, u, now)))
  }

  /** account is the one with the normalized login name, if any. */
  function Login(d: Tables, account: Option<Id>, password: Id, s: Id, expiresAt: Time): Result<Tables, Error> {
    if account.None? || account.value !in d.accounts || d.accounts[account.value].password != password ||
       d.accounts[account.value].status != Active
    then Err(AuthenticationFailed)
    else Ok(d.(sessions := d.sessions[s := Session(account.value, expiresAt, None)]))
  }

  predicate Live(d: Tables, s: Id) {
    s in d.sessions && d.sessions[s].revokedAt.None? && d.sessions[s].account in d.accounts
  }

  function ChangePassword(d: Tables, s: Id, old': Id, new': Id, length: nat, now: Time): Result<Tables, Error> {
    if !Live(d, s) then Err(AuthenticationFailed)
    else
      var a := d.sessions[s].account;
      if d.accounts[a].password != old' || length < MIN_PASSWORD_LENGTH || new' == old' then Err(ValidationFailed)
      else Ok(d.(accounts := d.accounts[a := d.accounts[a].(password := new', mustChangePassword := false)],
                 sessions := RevokeSessions(d.sessions, a, Some(s), now)))
  }

  /** Signing out, or ending another session of the same account. */
  function RevokeSession(d: Tables, s: Id, target: Id, now: Time): Result<Tables, Error> {
    if !Live(d, s) then Err(AuthenticationFailed)
    else if target !in d.sessions || d.sessions[target].account != d.sessions[s].account then Err(NotFound)
    else Ok(d.(sessions := d.sessions[target := d.sessions[target].(revokedAt := Some(now))]))
  }
}
