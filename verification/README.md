# Forgejo MCP server: verified models

A Dafny model of the stateful core of the Forgejo MCP server, with proofs that hold for every input, every
run and every interleaving. `dafny verify dfyconfig.toml` checks all of it.

What is modelled, and how the files fit together:

* **OAuth token families** (`OAuthTables`, `OAuthTransactions`, `OAuthServer`, `OAuthProtocol` and the proofs beside
  them). The tables are maps of rows. `OAuthTransactions` says what each transaction computes; `OAuthServer` has the
  services in their own imperative form, with a private working copy that is committed or dropped, and proves that
  they compute exactly that. `OAuthProtocol` interleaves the transactions: reads that take no lock (the Dashboard's
  read of a token and of its family, the reads of token, link, refresh record and family before the conditional
  update of bearer authentication, the recovery entry a refresh was handed) are steps of their own, and anything may
  happen between them. A `History` on the side records which token replaced which, which code a family stems from
  and which tools its owner granted explicitly; the invariant says that the tables always agree with it.
  `OAuthOutcomes` says of every decision exactly when it is made and what it changes, and of every change why it was
  made, spelled out in rows and clock readings and not through the functions that compute it; `OAuthAuthentication`
  does so for bearer requests and traces each success back to the reads behind it.
* **Recovery cache** (`RecoveryCache`, `RecoveryRefinement`): the ordered dictionary of recovery entries, with
  expiry, LRU eviction and locks. The protocol allows any eviction at any time; `RecoveryRefinement` proves that a
  lookup in the cache is a number of such evictions and one step that hands out an entry.
* **Rate limiters** (`RateLimit`, `LoginLimiter` and their theorems). Each class prunes its deques and is proved to
  make the decisions of a limiter that never forgets; the run theorems are about the latter.
* **Tool permissions** (`ToolPermissions`): registry synchronisation, replacement of allowances and grants, and the
  decision for one invocation.
* **Backfills 0011 and 0012** (`Migrations`, `MigrationTheorems`): the SQL updates one after the other, with the
  aggregate and the join as loops; where SQL may pick any matching row, so may the model.
* **Forgejo account linking** (`ForgejoConfig`, `ForgejoLinking`, `ForgejoLinkingTheorems`, `ForgejoBinding`): flows
  bound to a configuration revision, racing with administrators who save a new configuration. Moments are counted in
  saves, and a trail remembers who started, consumed, sent and linked each flow, on which server and as which client.
* **Users, invitations, sessions and credentials** (`UserLifecycle`, `UserLifecycleTheorems`,
  `UserOutcomes`, `UserServices`). `UserOutcomes` says exactly when each call succeeds, how it fails, what it brings
  about, and for each kind of change which calls can be behind it.
* **OpenAPI comparison** (`StructuralDiff`, `StructuralPatch`, `StructuralUndo`, `OpenApiComparison`): the recursive
  comparison, its JSON pointers (RFC 6901), and the proofs that its report is a patch and, turned around, undoes it.
* **Log archive excerpt** (`LogArchive`) and **shutdown gate** (`ShutdownGate`).

Conventions. Token strings are identified with the ids of their rows, because lookups go through a hash that is
taken to be injective; new ids are parameters that are not yet in use. Clock readings are parameters that do not
decrease (microseconds in the database models, reals in the limiters). A database transaction is one step unless
its reads visibly happen before its locks.

Findings where a promise does not hold on all inputs; the exact condition is proved in each case:

* A multi-scope check that names one key several times can exceed that key's limit. With at most n repetitions per
  check the bound is the limit plus n - 1 (`WindowBound`), for every limit and every n some run reaches it
  (`BoundIsReached`), and the limit holds in every run if and only if no check repeats the key
  (`LimitHoldsIffNotRepeated`).
* If the Forgejo OAuth settings come from the environment there is no row to lock, so an administrator's first save
  can commit between the last check and the storing commit (`EnvironmentSaveCanInterleave`). With settings from the
  administrator's record this cannot happen (`NoSaveBeforeLinking`).
* A credential save reads the user before its network call and not again. If other calls run meanwhile, the
  cross-table invariant survives exactly when the user is still active under the verified name
  (`InterruptedSaveKeeps`). Disabling or renaming the user meanwhile breaks it, whatever the reachable state
  (`DisableDuringSaveBreaks`, `RenameDuringSaveBreaks`).
* The comparison uses Python equality, so `true` replaced by `1` goes unreported (`TruthAndOneLookAlike`), and a NaN
  that did not change is reported (`NaNLooksChanged`). The report is empty exactly when the documents are equal in
  Python's sense and have no NaN at one place reached through objects (`EmptyMeansEqual`).

## Model

| member | source | states |
|---|---|---|
| OAuthSafety.InitialKeeps | src/forgejo_mcp/application/oauth_service.py:120-148 | a fresh installation satisfies the whole invariant of the protocol |
| OAuthSafety.StepKeeps | src/forgejo_mcp/application/oauth_service.py:285-841 | every step, locked transaction or unlocked read, keeps the invariant (chains, origins, authority, cache, pending jobs) and only moves rows forward: nothing is un-rotated, un-revoked or re-enabled, and no record joins a revoked family |
| OAuthTheorems.FamiliesAreChains | src/forgejo_mcp/application/oauth_service.py:420-611 | in every reachable state a family's refresh tokens form one linear chain whose last element is the only unrotated one; an unrevoked family has exactly one enabled access token, that of the last element, and a revoked one has none |
| OAuthTheorems.RevocationIsFinal | src/forgejo_mcp/application/oauth_revocation.py:45-83 | once a family is revoked, in every later state all its records, access tokens and links are revoked, its revocation time is unchanged and no record was added |
| OAuthRevocation.RevokeKeeps | src/forgejo_mcp/application/oauth_revocation.py:45-83 | sweeping a family keeps every other family's chain and the whole invariant |
| OAuthRevocation.RevokedIsClosed | src/forgejo_mcp/application/oauth_revocation.py:52-82 | the invariant implies that a revoked family is closed over its records, tokens and links |
| OAuthAuthentication.AuthenticationIsEarned | src/forgejo_mcp/auth/mcp_bearer.py:54-125 | behind every success in a run that starts without pending requests there are the reads of that request, in order: its token was enabled, unrevoked and unexpired and its user active at the first, and for an OAuth token the link, the record and the family were each unrevoked, for this resource, at theirs; the identity is theirs |
| OAuthAuthentication.UninterruptedAuthentication | src/forgejo_mcp/auth/mcp_bearer.py:54-125 | a request that nothing interrupts succeeds if and only if all of that holds, with the user of the token and the scopes and family of its refresh record |
| OAuthAuthentication.StampOutcome | src/forgejo_mcp/auth/mcp_bearer.py:99-116 | the last step succeeds if and only if the token is still enabled and unrevoked; then it stamps the last use, and otherwise changes no table |
| OAuthTheorems.AuthenticationIsLive | src/forgejo_mcp/auth/mcp_bearer.py:71-125 | a bearer request that succeeds reports its token's own user and family, with the token enabled and the family unrevoked at the commit, although the family was read earlier without a lock |
| OAuthTheorems.NoAuthenticationAfterRevocation | src/forgejo_mcp/auth/mcp_bearer.py:99-114 | no request of a family succeeds after the revoking commit, however early it read the token and its family |
| OAuthTheorems.NoAuthenticationOfRevokedToken | src/forgejo_mcp/auth/mcp_bearer.py:101-114 | nor does any request with a token that was itself revoked before, static tokens included |
| OAuthTheorems.SuccessorKeepsIdentity | src/forgejo_mcp/auth/mcp_bearer.py:151-159 | the access token that replaced another in a rotation authenticates as the same session identity |
| OAuthTheorems.DashboardBeatsRotation | src/forgejo_mcp/application/mcp_token_service.py:117-158 | if the Dashboard read a token before a rotation and commits after it, the whole family is closed, including records added in between |
| OAuthRevocation.DashboardKeeps | src/forgejo_mcp/application/mcp_token_service.py:124-158 | overwriting the stale token row after sweeping its family keeps the invariant and undoes no revocation |
| OAuthTheorems.OneSuccessorPair | src/forgejo_mcp/application/oauth_service.py:512-611 | however often a refresh token is presented in a run, every successful answer is the same pair |
| OAuthOutcomes.ConsentOutcome | src/forgejo_mcp/application/oauth_service.py:297-384 | an approval adds the code (the request's client, scopes and resource, the account's user, the selected tools, a short lifetime, a grant of the chosen days) and resolves the request if and only if the request is pending, the account may answer it, the lifetime is offered, the user is active with a credential, and the selection is not empty and usable; a denial only resolves it; anything else changes no table |
| OAuthOutcomes.NewCodeMeansApproval | src/forgejo_mcp/application/oauth_service.py:344-384 | no other step brings a code into being |
| OAuthOutcomes.ConsentRefusalTells | src/forgejo_mcp/application/oauth_service.py:302-357 | a refused decision names something that is really missing |
| OAuthOutcomes.RedemptionOutcome | src/forgejo_mcp/application/oauth_service.py:420-461 | a code is redeemed if and only if it is unconsumed, unexpired, presented by its own client for this resource, its user is ready, a selected tool is usable and a second of lifetime is left; then it is consumed and a family starts with exactly one record, token, link and grant set; otherwise no table changes (section 4.1.3 of RFC 6749) |
| OAuthOutcomes.RedemptionRefusalTells | src/forgejo_mcp/application/oauth_service.py:420-461 | the error is an invalid grant exactly if the code is not valid, and otherwise names what a new pair lacks |
| OAuthOutcomes.RotationOutcome | src/forgejo_mcp/application/oauth_service.py:512-611 | an unrotated refresh token is exchanged if and only if its record and family are unrevoked and unexpired, it is presented by its own client, for this resource and scopes it holds, its user is ready, a granted tool is usable and a second is left; then its record is retired with its access token and link and exactly one record takes its place; otherwise no table changes (section 6 of RFC 6749) |
| OAuthOutcomes.RefreshRefusalTells | src/forgejo_mcp/application/oauth_service.py:512-611 | the error of a rejected refresh is determined by what is wrong with the presentation, the user, the recovery answer or the new pair |
| OAuthOutcomes.NewRecordMeansIssue | src/forgejo_mcp/application/oauth_service.py:701-790 | a refresh record comes into being only by a rotation or redemption that is allowed, for a user who is active with a credential at that moment |
| OAuthOutcomes.ReplayOutcome | src/forgejo_mcp/application/oauth_service.py:529-579 | presenting a rotated token again closes its family, and gives nothing, if and only if it is presented in order and more than the grace seconds have passed since the rotation, or there are none (section 4.14.2 of RFC 9700); otherwise no table changes |
| OAuthOutcomes.RecoveryOutcome | src/forgejo_mcp/application/oauth_service.py:543-576 | until the expiry of the filled entry a duplicate presented in order for a ready user gets the pair minted for its token; any other duplicate gets nothing |
| OAuthOutcomes.WithdrawalHasACause | src/forgejo_mcp/application/oauth_revocation.py:45-83 | a family is revoked or a token disabled only by a client revocation, a replay, the Dashboard, or, for the token, the rotation of its own record |
| OAuthOutcomes.SweepIsLocal | src/forgejo_mcp/application/oauth_revocation.py:52-82 | sweeping a family touches no row of another one and no static token |
| OAuthOutcomes.EverySweepCloses | src/forgejo_mcp/application/oauth_revocation.py:45-83 | every step that sweeps a family leaves all of it revoked, at the earlier time if it was revoked before |
| OAuthOutcomes.DashboardReadOutcome | src/forgejo_mcp/application/mcp_token_service.py:117-123 | the Dashboard starts to revoke exactly a token that exists and is not revoked |
| OAuthOutcomes.DashboardOutcome | src/forgejo_mcp/application/mcp_token_service.py:117-158 | the Dashboard's commit disables and revokes its token, whatever its kind |
| OAuthOutcomes.EditOutcome | src/forgejo_mcp/application/tool_permission_service.py:95-118 | grants are replaced if and only if the user owns the unrevoked token and is allowed every tool |
| OAuthOutcomes.AllowanceOutcome | src/forgejo_mcp/db/repositories/tool_permissions.py:48-62 | replacing allowances cuts the grants of exactly the user's own tokens down to them |
| OAuthTheorems.RotatedEntryIsFilled | src/forgejo_mcp/application/oauth_service.py:497-611 | in a run, whoever later takes the lock of the entry a rotation went through finds it filled, unless the process restarted or the rotating request ended before it filled the entry |
| OAuthTheorems.DuplicateGetsThePair | src/forgejo_mcp/application/oauth_service.py:543-611 | then a presentable duplicate of a ready user inside the grace window gets exactly the pair that the rotation returned |
| OAuthTheorems.ResidentIsHandedOut | src/forgejo_mcp/application/oauth_service.py:613-638 | as long as the entry of a refresh token is resident, a lookup makes no other one: it hands that entry out and changes nothing |
| OAuthTheorems.LookupRecoversThePair | src/forgejo_mcp/application/oauth_service.py:480-638 | both together: a rotation through the resident entry, a later lookup while it is resident, and the duplicate presented through what the lookup handed out return the same pair |
| OAuthIssuance.RotationKeeps | src/forgejo_mcp/application/oauth_service.py:580-611 | a rotation extends the chain by exactly one narrower record and keeps the whole invariant |
| OAuthTheorems.RotationNarrows | src/forgejo_mcp/application/oauth_service.py:580-605 | the successor's tools are the predecessor's grants cut down to the effective ones and not empty, its scopes are among the predecessor's, its expiry is the grant's, and its access token expires no later |
| OAuthTheorems.AuthorityWithinConsent | src/forgejo_mcp/application/oauth_service.py:340-605 | over a whole run a token's tools never exceed the consent's selection plus its owner's explicit grants; user, client, scopes and grant expiry remain those of the consent |
| OAuthTheorems.OnlyEditsRaise | src/forgejo_mcp/application/tool_permission_service.py:95-118 | the only step that raises that ceiling is an owner's grant edit within the allowances of that moment |
| OAuthTheorems.GrantsWithinAllowances | src/forgejo_mcp/db/repositories/tool_permissions.py:48-76 | in every reachable state each token's grants are among its user's allowances |
| OAuthTheorems.OneCodeOneFamily | src/forgejo_mcp/application/oauth_service.py:297-461 | over a run one consent request has at most one code and one code at most one family (section 4.1.2 of RFC 6749); requests with codes are resolved and codes with families consumed |
| OAuthTheorems.CodesAndFamiliesAreRecorded | src/forgejo_mcp/application/oauth_service.py:344-461 | an approval and a redemption that succeed, and nothing else, link a new code to its request and a new family to its code, so the previous statement is about every code and family |
| OAuthIssuance.RedemptionKeeps | src/forgejo_mcp/application/oauth_service.py:420-461 | redeeming a code starts a family with a chain of one and keeps the invariant |
| OAuthPolicy.ApprovalKeeps | src/forgejo_mcp/application/oauth_service.py:302-384 | approving a consent keeps the invariant; the new code answers its own request only |
| OAuthPolicy.EditKeeps | src/forgejo_mcp/application/tool_permission_service.py:95-118 | an owner's replacement of a token's grants keeps the invariant with the ceiling raised by the edit |
| OAuthPolicy.AllowancesKeep | src/forgejo_mcp/db/repositories/tool_permissions.py:48-62 | replacing a user's allowances keeps every grant of the user within them |
| OAuthServer.Session.RevokeOAuthFamily | src/forgejo_mcp/application/oauth_revocation.py:45-83 | the three bulk updates compute the closure of the family, or nothing for an unknown family |
| OAuthServer.Session.IssueTokenPair | src/forgejo_mcp/application/oauth_service.py:701-790 | issuing succeeds if and only if the user is active with a credential, a selected tool is allowed and enabled and a whole second remains; it then adds exactly one record, token, link and grant set, and otherwise nothing |
| OAuthServer.Session.RevokeMcpToken | src/forgejo_mcp/application/oauth_service.py:826-841 | retiring a token keeps an earlier revocation time of the token and stamps its link |
| OAuthServer.OAuthService.ResolveConsent | src/forgejo_mcp/application/oauth_service.py:285-384 | the consent transaction computes the decision the protocol steps use and answers with a code only to an approval; any refusal leaves the request pending and the tables untouched |
| OAuthServer.OAuthService.ExchangeAuthorizationCode | src/forgejo_mcp/application/oauth_service.py:420-461 | the exchange computes the redemption the protocol steps use; a failed one leaves the code unconsumed |
| OAuthServer.OAuthService.ExchangeRefreshToken | src/forgejo_mcp/application/oauth_service.py:497-611 | the exchange has exactly the four outcomes the theorems are about, with the tables and the recovery entry each leaves |
| OAuthServer.OAuthService.RotateRecord | src/forgejo_mcp/application/oauth_service.py:580-611 | the entry is filled, until the end of the grace window, only if the rotation committed |
| OAuthServer.OAuthService.AnswerDuplicate | src/forgejo_mcp/application/oauth_service.py:542-579 | until the grace seconds after the rotation are over the tables stay as they are, and a ready user gets the cached pair if there is one; after that the family is swept and committed before the error |
| OAuthServer.OAuthService.RevokeToken | src/forgejo_mcp/application/oauth_service.py:688-699 | client revocation sweeps the token's family (section 2.1 of RFC 7009) |
| OAuthServer.McpTokenService.Revoke | src/forgejo_mcp/application/mcp_token_service.py:117-158 | the Dashboard's transaction, given the token and family it read before |
| OAuthServer.McpBearerAuthenticator.FindToken | src/forgejo_mcp/auth/mcp_bearer.py:54-69 | the first read gives the candidate row exactly if it is enabled, unrevoked and unexpired and its user active |
| OAuthServer.McpBearerAuthenticator.FindLink | src/forgejo_mcp/auth/mcp_bearer.py:71-97 | the second read goes on for an OAuth token with an unrevoked link for this resource, identifies a static token without a link, and rejects everything else |
| OAuthServer.McpBearerAuthenticator.FindRefresh | src/forgejo_mcp/auth/mcp_bearer.py:85-87 | the third read goes on exactly with an unrevoked refresh record of that link |
| OAuthServer.McpBearerAuthenticator.FindFamily | src/forgejo_mcp/auth/mcp_bearer.py:88-94 | the fourth read identifies the token exactly if the record's family is unrevoked then |
| OAuthServer.McpBearerAuthenticator.StampUse | src/forgejo_mcp/auth/mcp_bearer.py:99-116 | the conditional update succeeds exactly on an enabled, unrevoked row and changes only its last use |
| RecoveryCache.RecoveryCache.Purge | src/forgejo_mcp/application/oauth_service.py:618-625 | the purge drops exactly the unlocked entries whose answer has expired and keeps the others in order |
| RecoveryCache.RecoveryCache.ExpiredIsUseless | src/forgejo_mcp/application/oauth_service.py:618-625 | no entry the purge drops could answer a duplicate then or later, and none is in use |
| RecoveryCache.RecoveryCache.KeptIsUseful | src/forgejo_mcp/application/oauth_service.py:618-625 | conversely, an unlocked answer that the purge keeps could still be given |
| RecoveryCache.RecoveryCache.EvictOldest | src/forgejo_mcp/application/oauth_service.py:630-634 | the victim is the unlocked entry that was asked for longest ago; there is none only if every entry is locked |
| RecoveryCache.RecoveryCache.Entry | src/forgejo_mcp/application/oauth_service.py:613-638 | a lookup never leaves more than 1024 entries; it returns the resident entry as the most recent, or a new one that is kept if there is room after the purge and one eviction |
| RecoveryCache.OnlyTheVictimIsLost | src/forgejo_mcp/application/oauth_service.py:613-638 | apart from expired entries a lookup loses at most its victim, which was not locked |
| RecoveryRefinement.LookupIsEvictionsAndTake | src/forgejo_mcp/application/oauth_service.py:613-638 | from a protocol state that mirrors the cache, evicting the expired keys and the victim in any order and then taking an entry leads to a state that mirrors the cache after the lookup, and hands out the same entry |
| RecoveryRefinement.Lookup | src/forgejo_mcp/application/oauth_service.py:613-638 | so every call of the cache is such a sequence of protocol steps |
| RecoveryCache.KeepOrdered | src/forgejo_mcp/application/oauth_service.py:618-629 | dropping keys keeps the order of last use |
| RateLimit.MultiScopeRateLimiter.Check | src/forgejo_mcp/auth/rate_limit.py:90-124 | the limiter decides and charges exactly as one that keeps every admission; it never stores an empty deque or more than max_keys keys |
| RateLimit.MultiScopeRateLimiter.MakeRoom | src/forgejo_mcp/auth/rate_limit.py:112-115 | the capacity test, before or after the prune, is exact for the keys that are live or requested |
| RateLimit.NewKeysExact | src/forgejo_mcp/auth/rate_limit.py:96-113 | the capacity prune never drops a key that was just checked, so the set of new keys stays exact |
| RateLimit.AgreeCharged | src/forgejo_mcp/auth/rate_limit.py:122-123 | charging keeps stored and full histories in agreement on every live admission |
| RateLimit.ScopeKeyInjective | src/forgejo_mcp/auth/rate_limit.py:92-94 | scopes without a colon never share a key |
| RateLimit.FirstFullFound | src/forgejo_mcp/auth/rate_limit.py:96-110 | a denial names a requested key that is full, and without one no requested key is |
| RateLimitTheorems.AllowedMeans | src/forgejo_mcp/auth/rate_limit.py:96-124 | a check passes if and only if no requested key is full and the keys in use fit |
| RateLimitTheorems.PassesExactly | src/forgejo_mcp/auth/rate_limit.py:90-124 | after any run a check passes if and only if each of its keys has fewer admissions within the window than its limit and the keys in use fit |
| RateLimitTheorems.DenialNamesTheFirst | src/forgejo_mcp/auth/rate_limit.py:90-124 | a denial names the first requested key without room; if all have room it is for the keys in use not fitting, and asks for a whole window |
| RateLimitTheorems.RunKeepsSpacing | src/forgejo_mcp/auth/rate_limit.py:90-124 | over any run, admissions of a key that are limit places apart are at least a window apart |
| RateLimitTheorems.WindowBound | src/forgejo_mcp/auth/rate_limit.py:90-124 | over any run no window holds more admissions of a key than its limit, plus the repetitions of the key within one check |
| RateLimitTheorems.BoundIsReached | src/forgejo_mcp/auth/rate_limit.py:122-123 | for every limit and number of repetitions a run with exactly limit plus repetitions minus one admissions in one window |
| RateLimitTheorems.LimitHoldsIffNotRepeated | src/forgejo_mcp/auth/rate_limit.py:90-124 | the limit holds in every run if and only if no check names the key more than once |
| RateLimitTheorems.FullUntilDelay | src/forgejo_mcp/auth/rate_limit.py:101-105 | without a new charge a full key is free again exactly once the admission limit places from the end has left the window |
| RateLimitTheorems.RetryAfterIsTight | src/forgejo_mcp/auth/rate_limit.py:105-110 | waiting the Retry-After value suffices, it exceeds the true delay by at most a second, and any wait below the true delay fails (section 10.2.3 of RFC 9110) |
| RateLimitTheorems.DenialTellsWhenToRetry | src/forgejo_mcp/auth/rate_limit.py:90-110 | end to end: after any run that never repeats the key, a denial for it names its scope and a Retry-After value; waiting that long frees the key, no wait short of the true delay does, and the value is at most a second longer |
| RateLimitTheorems.LiveWithinLimit | src/forgejo_mcp/auth/rate_limit.py:101-105 | in runs with distinct keys the premise of the previous statement holds at every moment |
| LoginLimiter.LoginRateLimiter.Check | src/forgejo_mcp/auth/rate_limit.py:31-55 | reserves, or refuses, exactly as a limiter that never forgets; afterwards the key's deque is its unrefunded reservations of the window |
| LoginLimiter.LoginRateLimiter.Success | src/forgejo_mcp/auth/rate_limit.py:61-71 | refunds the reservation of this lease; the first match in the deque is the only one |
| LoginLimiter.LiveTail | src/forgejo_mcp/auth/rate_limit.py:143-149 | pruning from the front of an ordered deque loses exactly the expired reservations |
| LoginLimiterTheorems.UnrefundedAttemptsBounded | src/forgejo_mcp/auth/rate_limit.py:31-71 | over any interleaving of checks, successes and failures a key's reservations are sorted with distinct lease numbers, and at most attempts unrefunded ones fall within a window |
| LoginLimiterTheorems.RefusalMeans | src/forgejo_mcp/auth/rate_limit.py:31-55 | a check is refused for too many attempts if and only if the key has that many reservations after the cut, and for lack of room if and only if it has none and too many other keys have one |
| LoginLimiterTheorems.ReserveOutcome | src/forgejo_mcp/auth/rate_limit.py:31-55 | any other check reserves exactly one attempt of its own key at its own time under a new lease; a refused one changes nothing |
| LoginLimiterTheorems.SuccessRefundsItsOwn | src/forgejo_mcp/auth/rate_limit.py:61-71 | a success removes its own reservation and no other, of any key |
| LoginLimiterTheorems.ReserveThenRefund | src/forgejo_mcp/auth/rate_limit.py:52-71 | a refund right after its reservation restores the key's history |
| ToolPermissions.ToolPermissionRepository.SyncRegistry | src/forgejo_mcp/db/repositories/tool_permissions.py:21-31 | the upsert loop computes the synchronised settings |
| ToolPermissions.SyncKeepsFlags | src/forgejo_mcp/db/repositories/tool_permissions.py:21-31 | synchronising adds the registered tools, keeps every enabled flag and starts new tools disabled |
| ToolPermissions.SyncSetsVersions | src/forgejo_mcp/db/repositories/tool_permissions.py:21-31 | a registered tool takes the version listed for it last; any other keeps its row |
| ToolPermissions.SyncKeepsEffective | src/forgejo_mcp/application/oauth_service.py:814-824 | synchronising never changes a user's effective tools |
| ToolPermissions.ToolPermissionService.ReplaceTokenGrants | src/forgejo_mcp/application/tool_permission_service.py:95-118 | every error case of the replacement rolls back, the synchronisation included |
| ToolPermissions.ToolPermissionService.ReplaceUserAllowances | src/forgejo_mcp/application/tool_permission_service.py:69-88 | the same for allowances, with grants outside them withdrawn |
| ToolPermissions.AuthorizeTool | src/forgejo_mcp/authorization/tools.py:20-32 | allowed if and only if every check passes; otherwise the first failing check is the reason |
| ToolPermissions.AllowedWithoutReason | src/forgejo_mcp/application/tool_permission_service.py:120-148 | an invocation is allowed if and only if its token is known, enabled, unrevoked and unexpired, its user active with a credential, and the tool enabled, allowed to the user and granted to the token |
| ToolPermissions.FirstReason | src/forgejo_mcp/authorization/tools.py:20-32 | the first failing check reports the first of these that is missing |
| ToolPermissions.AllowedMeans | src/forgejo_mcp/application/tool_permission_service.py:120-148 | in every reachable state an allowed invocation uses an effective, granted tool of a ready user, and for OAuth tokens one within the ceiling of an unrevoked family |
| Migrations.LegacyDatabase.Upgrade0011 | migrations/versions/20260908_0011_oauth_token_families.py:19-73 | the insert and the three updates compute the relation the theorems are about |
| Migrations.LegacyDatabase.Upgrade0012 | migrations/versions/20260908_0012_legacy_dashboard_revocations.py:19-59 | the same for the evidence-based backfill |
| Migrations.LeastByFamily | migrations/versions/20260908_0011_oauth_token_families.py:31-41 | the aggregate gives each family the least time of its members that have one |
| Migrations.SweptInTurn | migrations/versions/20260908_0011_oauth_token_families.py:43-73 | running the three updates one after the other equals running them on the tables before the first |
| MigrationTheorems.CreatedCloses | migrations/versions/20260908_0011_oauth_token_families.py:31-73 | after 0011 on a well-linked database a family is revoked if and only if one of its records was; then it is closed, else its rows are untouched |
| MigrationTheorems.BackfilledCloses | migrations/versions/20260908_0012_legacy_dashboard_revocations.py:22-59 | after 0012 a family is revoked if and only if it was before or a token shows a revocation; revoked ones are closed, the others untouched |
| MigrationTheorems.CreatedTimes | migrations/versions/20260908_0011_oauth_token_families.py:31-73 | 0011 gives a revoked family the earliest time of its revoked records, and its records, tokens and links that same time |
| MigrationTheorems.BackfilledTimes | migrations/versions/20260908_0012_legacy_dashboard_revocations.py:22-59 | 0012 keeps every time that is there; a newly revoked family gets the earliest time its tokens show, and its rows without a time get the family's |
| MigrationTheorems.BackfillsDecide | migrations/versions/20260908_0012_legacy_dashboard_revocations.py:20-59 | both backfills together close every family with a sign of revocation, leave every other one untouched, un-revoke nothing, and leave no sign of revocation in an open family |
| MigrationTheorems.BackfillIsIdempotent | migrations/versions/20260908_0012_legacy_dashboard_revocations.py:22-59 | running 0012 again changes nothing |
| MigrationTheorems.ClosedForTheProtocol | src/forgejo_mcp/application/oauth_revocation.py:52-82 | a family closed by the backfills is closed for the running protocol |
| ForgejoConfig.ForgejoOAuthConfigService.Save | src/forgejo_mcp/application/forgejo_oauth_config_service.py:181-304 | exactly when a save succeeds, and that a kept secret is that of the same confidential client, an enabled confidential client has one and a public one has none |
| ForgejoConfig.SavedResolves | src/forgejo_mcp/application/forgejo_oauth_config_service.py:126-164 | a saved record resolves without error, to nothing if disabled and otherwise under its own revision |
| ForgejoConfig.EnvironmentResolves | src/forgejo_mcp/application/forgejo_oauth_config_service.py:126-179 | without a record the deployment's client and redirect are used if both are set, with the secret of its file; an unreadable file is then an error |
| ForgejoLinking.ForgejoOAuthService.Read | src/forgejo_mcp/application/forgejo_oauth_service.py:51-79 | reads, without locking, a configuration that resolves and a server that is allowlisted and meets the TLS policy, or stops |
| ForgejoLinking.ForgejoOAuthService.Insert | src/forgejo_mcp/application/forgejo_oauth_service.py:144-169 | a new flow replaces the session's other flows and every expired one |
| ForgejoLinking.ForgejoOAuthService.ConsumeFlow | src/forgejo_mcp/application/forgejo_oauth_service.py:197-230 | a flow is consumed, and its verifier erased, if and only if it is the session's own, unconsumed, unexpired, and server, address, client, redirect and revision are those it was bound to |
| ForgejoLinking.ForgejoOAuthService.CheckConfiguration | src/forgejo_mcp/application/forgejo_credential_service.py:161-181 | storing goes on only if the configuration under lock is the one the request worked with |
| ForgejoLinkingTheorems.StepKeeps | src/forgejo_mcp/application/forgejo_oauth_service.py:127-255 | every step keeps the linking invariant |
| ForgejoLinkingTheorems.OneExchangePerFlow | src/forgejo_mcp/application/forgejo_oauth_service.py:197-243 | in every run the code of a flow is sent to the provider at most once, and its verifier is gone by then |
| ForgejoBinding.FlowStaysWithItsStarter | src/forgejo_mcp/application/forgejo_oauth_service.py:127-243 | in every run a flow whose code is sent or whose credential is stored was consumed, sent and stored by the session that started it, on the same server and for the same client and redirect, and consumed within ten minutes |
| ForgejoBinding.OneFlowPerSession | src/forgejo_mcp/application/forgejo_oauth_service.py:144-169 | in every run no session has two flows |
| ForgejoBinding.ConsumeOutcome | src/forgejo_mcp/application/forgejo_oauth_service.py:197-230 | a callback consumes its flow, and goes on, if and only if session, server, address, client, redirect and revision are those of the flow and it is unconsumed and unexpired; otherwise the request ends and the flow stays |
| ForgejoBinding.InsertOutcome | src/forgejo_mcp/application/forgejo_oauth_service.py:144-169 | exactly the flows of other sessions that have not expired stay beside a new one, unchanged |
| ForgejoBinding.ReadOutcome | src/forgejo_mcp/application/forgejo_oauth_service.py:51-79 | a request gets past its first read if and only if there is a usable configuration and a trusted server |
| ForgejoBinding.CheckOutcome | src/forgejo_mcp/application/forgejo_credential_service.py:161-181 | storing goes on if and only if the configuration under lock is the whole one the request worked with and the server is still at its address |
| ForgejoLinkingTheorems.NoSaveBeforeLinking | src/forgejo_mcp/application/forgejo_credential_service.py:161-181 | a credential is stored only after one exchange and with no configuration save between the read that started its flow and the check under lock; with settings from the administrator's record, none before the commit either |
| ForgejoLinkingTheorems.EnvironmentSaveCanInterleave | src/forgejo_mcp/application/forgejo_oauth_config_service.py:126-179 | with settings from the environment there is, for every such configuration, a run with a save between check and commit |
| UserLifecycleTheorems.RunKeeps | src/forgejo_mcp/application/user_service.py:57-242 | every sequence of calls keeps: users and accounts agree, names are unique, at most one active credential per user and only of an active user under its own name, other credentials without secrets, live sessions only of active accounts, at most one outstanding invitation per user and none of a disabled one |
| UserLifecycleTheorems.EveryRunFromBootstrap | src/forgejo_mcp/application/bootstrap_service.py:29-45 | so does every sequence of calls after the first administrator was created |
| UserLifecycleTheorems.DisableUserKeeps | src/forgejo_mcp/application/user_service.py:146-170 | disabling keeps the invariant and leaves the user no credential and no outstanding invitation |
| UserLifecycleTheorems.UpdateUserKeeps | src/forgejo_mcp/application/user_service.py:103-144 | renaming keeps the invariant, because a changed name revokes the active credential |
| UserLifecycleTheorems.AcceptKeeps | src/forgejo_mcp/application/invitation_service.py:53-74 | accepting an invitation keeps the invariant |
| UserLifecycleTheorems.SaveCredentialKeeps | src/forgejo_mcp/application/forgejo_credential_service.py:144-235 | storing a verified credential keeps the invariant |
| UserLifecycleTheorems.InterruptedSaveKeeps | src/forgejo_mcp/application/forgejo_credential_service.py:90-210 | storing after other calls ran keeps the invariant if and only if the user is still active under the verified name |
| UserLifecycleTheorems.DisableDuringSaveBreaks | src/forgejo_mcp/application/forgejo_credential_service.py:90-210 | a save that would have succeeded breaks the invariant if its user is disabled during the network call |
| UserLifecycleTheorems.RenameDuringSaveBreaks | src/forgejo_mcp/application/forgejo_credential_service.py:90-210 | and if its user is given another Forgejo name meanwhile |
| UserLifecycleTheorems.InactiveUserIsPowerless | src/forgejo_mcp/application/user_service.py:146-170 | a user that is not active has neither an active credential nor a live session |
| UserOutcomes.SucceedsExactly | src/forgejo_mcp/application/user_service.py:57-242 | each call succeeds if and only if its rows exist and its conditions hold: free names, an open invitation, a ready account, the right password, the verified principal, one's own session |
| UserOutcomes.FailureTells | src/forgejo_mcp/application/user_service.py:57-242 | a call that fails does so with the error of its first unmet condition |
| UserOutcomes.CallOutcome | src/forgejo_mcp/application/user_service.py:57-242 | a call that succeeds brings about its effect, rows and fields, and one that fails changes nothing |
| UserOutcomes.ActivationHasACause | src/forgejo_mcp/application/invitation_service.py:53-74 | a user becomes active only by accepting an open invitation, or by being enabled with a chosen password |
| UserOutcomes.PasswordHasACause | src/forgejo_mcp/application/auth_service.py:82-106 | a password is replaced only by accepting the user's open invitation, or by a session of the account that knows the old one |
| UserOutcomes.SessionHasACause | src/forgejo_mcp/application/auth_service.py:43-80 | a session starts only by a sign-in to an active account with its password |
| UserOutcomes.SessionEndHasACause | src/forgejo_mcp/application/auth_service.py:82-135 | a session ends only when its account is disabled or activated, when another session of it changes the password, or when a session of it ends this one |
| UserOutcomes.CredentialHasACause | src/forgejo_mcp/application/forgejo_credential_service.py:144-235 | a credential becomes active only by a save for its own active user under the verified name |
| UserOutcomes.CredentialEndHasACause | src/forgejo_mcp/application/forgejo_credential_service.py:237-260 | a credential is erased only when its user is disabled or renamed, saves another one, or erases it |
| UserOutcomes.DisabledHasACause | src/forgejo_mcp/application/user_service.py:146-170 | a user becomes disabled only by the call of that name |
| UserOutcomes.NameHasACause | src/forgejo_mcp/application/user_service.py:103-144 | a Forgejo name changes only by an update of its user to a name that no other user has |
| UserOutcomes.InvitationHasACause | src/forgejo_mcp/application/user_service.py:192-212 | an invitation is made only for a user that is not disabled |
| UserOutcomes.UseHasACause | src/forgejo_mcp/application/invitation_service.py:28-74 | an invitation is used only by being accepted while it is open |
| UserOutcomes.InvitationEndHasACause | src/forgejo_mcp/application/user_service.py:146-242 | an invitation is revoked only by name, when its user is disabled, or when a new one replaces it |
| UserServices.ManagementDatabase.CreateUserCall | src/forgejo_mcp/application/user_service.py:57-101 | the call adds a pending user and account or, on a conflict of either name found at the flush, rolls both back |
| UserServices.ManagementDatabase.LoginCall | src/forgejo_mcp/application/auth_service.py:43-80 | a session starts if and only if the password matches and the account is active |
| UserServices.ManagementDatabase.ChangePasswordCall | src/forgejo_mcp/application/auth_service.py:82-106 | a changed password leaves the account one live session, the current one |
| UserServices.ManagementDatabase.RevokeSessionCall | src/forgejo_mcp/application/auth_service.py:108-135 | signing out or ending a session reaches the account's own sessions only, and the target is no longer live |
| UserServices.ManagementDatabase.RevokeInvitationCall | src/forgejo_mcp/application/user_service.py:228-242 | an invitation is revoked only under its own user |
| UserServices.ManagementDatabase.UpdateUserCall | src/forgejo_mcp/application/user_service.py:103-144 | the call makes its transition or, on a name conflict found at the flush, rolls back the erased credential as well |
| UserServices.ManagementDatabase.DisableUserCall | src/forgejo_mcp/application/user_service.py:146-170 | the call makes its transition field by field |
| UserServices.ManagementDatabase.EnableUserCall | src/forgejo_mcp/application/user_service.py:172-190 | the call restores the status that the account's password state demands |
| UserServices.ManagementDatabase.CreateInvitationCall | src/forgejo_mcp/application/user_service.py:192-212 | the call replaces the user's outstanding invitation |
| UserServices.ManagementDatabase.AcceptCall | src/forgejo_mcp/application/invitation_service.py:28-74 | every refusal leaves the tables untouched; acceptance uses the invitation up and ends all sessions |
| UserServices.ManagementDatabase.SaveCredentialCall | src/forgejo_mcp/application/forgejo_credential_service.py:79-235 | every refusal leaves the tables untouched; otherwise the old credential is erased and the new one stored |
| UserServices.ManagementDatabase.RevokeCredentialCall | src/forgejo_mcp/application/forgejo_credential_service.py:237-260 | erases all secrets of the active credential, if there is one |
| StructuralDiff.SameIsSameNorm | scripts/compare_forgejo_openapi.py:82-87 | values inside lists and objects are the same for Python (identical or equal) if and only if they are identical once truth values and integers are written as numbers |
| StructuralPatch.DiffBelow | scripts/compare_forgejo_openapi.py:66-81 | seen from a key, the comparison of two objects is the comparison of what they have there |
| StructuralPatch.PatchGivesAfter | scripts/compare_forgejo_openapi.py:66-87 | applying the differences to the older document, in any order, gives the newer one up to that sameness |
| StructuralUndo.UndoGivesBefore | scripts/compare_forgejo_openapi.py:66-87 | turned around and applied to the newer document, in any order, the differences give back the older one |
| StructuralPatch.EmptyMeansEqual | scripts/compare_forgejo_openapi.py:66-87 | for object-rooted documents the comparison is empty if and only if they are equal and do not have NaN at one place reached through objects |
| StructuralPatch.TruthAndOneLookAlike | scripts/compare_forgejo_openapi.py:85-87 | a truth value replaced by the number one is not reported |
| StructuralPatch.NaNLooksChanged | scripts/compare_forgejo_openapi.py:85-87 | a NaN under a key is reported although the documents are equal |
| StructuralPatch.DiffPrefixFree | scripts/compare_forgejo_openapi.py:66-87 | the differences are at distinct places, none inside another |
| OpenApiComparison.UnescapeEscape | scripts/compare_forgejo_openapi.py:89-91 | unescaping undoes escaping, and escaped keys contain no slash |
| OpenApiComparison.ParsePointer | scripts/compare_forgejo_openapi.py:89-91 | parsing a pointer as RFC 6901 does gives back its keys, so joining is injective |
| OpenApiComparison.Differences | scripts/compare_forgejo_openapi.py:66-87 | the recursive comparison that passes pointers down reports exactly the differences, each at the pointer of its path |
| OpenApiComparison.ReportIsPatch | scripts/compare_forgejo_openapi.py:66-91 | the report of two object-rooted documents, read back from its pointers and applied in any order, turns the older into the newer up to that sameness |
| OpenApiComparison.PointersApart | scripts/compare_forgejo_openapi.py:66-91 | the reported pointers are pairwise distinct, none is inside another and none is the root |
| OpenApiComparison.CountsAddUp | scripts/compare_forgejo_openapi.py:22-39 | the summary counts each difference once by kind and at most once by area |
| OpenApiComparison.SummaryMeans | scripts/compare_forgejo_openapi.py:22-39 | the summary has the number of differences of each kind and of those properly below the endpoints and the definitions |
| OpenApiComparison.UnderMeans | scripts/compare_forgejo_openapi.py:24-25 | a difference counts for an area if and only if it lies properly inside it |
| LogArchive.RunLogs | src/forgejo_mcp/forgejo/client.py:1379-1408 | the excerpt is a prefix of the members, at most 100 and 1 MiB in all, each cut only at the budget; it is flagged as truncated if and only if a member is missing or cut, and refused if and only if the archive is too large or unreadable or the first bad member within reach is too large or unreadable, each with its own error |
| LogArchive.ReturnedTotal | src/forgejo_mcp/forgejo/client.py:1393-1407 | the excerpt holds what its members hold, capped at the budget |
| ShutdownGate.InvocationCoordinator.EnterInvocation | src/forgejo_mcp/application/runtime.py:28-35 | a call is admitted exactly while the gate is open; a refused one counts nowhere |
| ShutdownGate.InvocationCoordinator.LeaveInvocation | src/forgejo_mcp/application/runtime.py:36-42 | the last call to leave wakes every sleeping waiter |
| ShutdownGate.InvocationCoordinator.Shutdown | src/forgejo_mcp/application/runtime.py:44-48 | closing the gate wakes the waiters if nothing is active |
| ShutdownGate.NoWakeupIsLost | src/forgejo_mcp/application/runtime.py:28-54 | in every run nobody sleeps while nothing is active |
| ShutdownGate.WaitersFinish | src/forgejo_mcp/application/runtime.py:50-59 | while nothing is active every unfinished waiter can take the lock and then reports idle |
| ShutdownGate.IdleReportIsFinal | src/forgejo_mcp/application/runtime.py:44-59 | a drain that reports idle after the shutdown began stays idle in every continuation |

## Left out

- HTTP routes, HTML, cookies, CORS, headers, the MCP SDK's handlers and the React frontend are not modelled.
- Cryptography and randomness are not modelled: hashes are injective, new ids are fresh, an encrypted secret is
  present or erased.
- PKCE verification, client registration, client metadata documents, redirect URIs and the state parameter of the
  authorization endpoint are not modelled.
- Audit rows, log lines and metrics are not modelled, except as the evidence that backfill 0012 reads.
- Deletion of rows and cascades are not modelled; no modelled service deletes users, clients or tokens.
- OAuthServer.OAuthService.ExchangeRefreshToken: a refresh is one step under its entry's lock and the family's row lock; waiting for these locks and deadlock are not modelled.
- RateLimit.MultiScopeRateLimiter.Check: the limiter reads the clock before it takes its lock, so two threads could charge out of order; the model reads it under the lock.
- The file src/forgejo_mcp/auth/oauth_rate_limit.py is a copy of the modelled limiters and has no model of its own.
- Migrations.LegacyDatabase.Upgrade0011: creation times, the table and its foreign key are left out; so is a downgrade.
- ForgejoLinking.ForgejoOAuthService.Read: session, user and code-format checks are represented by the possibility that a task stops at any point.
- Refreshing a stored Forgejo access token through the provider is not modelled.
- UserServices.ManagementDatabase.SaveCredentialCall: the call is one step; what other calls during its network request can do is stated by UserLifecycleTheorems.InterruptedSaveKeeps.
- UserLifecycleTheorems.RunKeeps: a session that has expired but was not revoked may still act in the model; the service rejects it before these calls.
- Unicode normalisation of names is an uninterpreted form carried beside the text.
- StructuralDiff.SameIsSameNorm: rounding of decimal fractions to binary ones is left out.
- The version check, the Markdown rendering and the command line of the comparison script are not modelled.
- LogArchive.RunLogs: hashes and UTF-8 decoding are left out.
- ShutdownGate has no timers: a timeout may end a wait at any moment.
