# Properties of the auth backend

A Dafny model of the backend's database-backed account machine and of its self-contained algorithms, with proofs
about every history, every interleaving and every input. `dafny verify dfyconfig.toml` checks it.

## What is modelled

**Accounts** (`Schema`, `Journal`, `Calls`, `Outcomes`, `Queries`, `AuthService`, `OAuthFlow`, `Handlers`).
`Queries.Tables` holds the tables as fields that the SQL statements overwrite; `AuthService.Service`,
`OAuthFlow.Linker` and `Handlers.AuthHandler` are the service calls, the OAuth flow and the session handling built
on them. Every committed statement adds a `Change` to a ghost journal. `Journal.Do` says what a change does to the
tables, and `Journal.Allowed` when it may happen, which is more than the statements themselves check. Each class
keeps the journal legal and the tables equal to its replay, and the contract of each call says which changes it
added. The theorems of `LoginThrottle`, `AccountRows`, `SessionRevocation`, `OneTimeTokens`, `TotpStability` and
`OAuthOwnership` are about every legal journal, so about every history the calls can leave. `Provenance` and
`TokenLifetimes` say where what an account holds comes from and how long a token lives, `Outcomes` what a call has
made of the tables, field by field and without the functions the model computes with, and `Confirmations` which
call, with which token, can make the changes that matter. `Calls.Effect` says which changes a call leaves on given
tables, and the classes keep the journal equal to `Calls.History` of the calls so far, so that a statement about
what the calls can do, as in `ShortWindows`, speaks of these histories only. The statements of `Queries.Tables`
that have no row below follow the SQL line by line.

**Role cache** (`RoleCache`, `RoleIsolation`, `RoleStaleness`, `Authorization`). The class works on arrays, so
that aliasing is visible, and `RoleIsolation` lets the holders of slices do what they like with them.
`RoleStaleness` interleaves requests, role changes and sweeps freely: each lock-protected section and each
database read is one step. Both use the same `AfterEvict` and `AfterSweep`.

**E-mail outbox** (`Outbox`, `OutboxProgress`, `OutboxWorker`). A machine in which each statement is one step, and
an attempt to send is one with its mark, also when a sweep is cut short; the worker class logs its steps and stays
equal to the machine.

**Names of environment variables** (`Splitting`, `EnvNames`, `ConfigTree`). A route through the configuration type
is the declarative meaning of a name; the backtracking search is proved to answer the first route.

## Assumptions

- The application and the database read one clock, which does not go back. Instants count nanoseconds.
- Each account, token, TOTP and OAuth call is one atomic step at one instant. The code takes no row locks, so the
  login bound, the one-live-token, the TOTP and the ownership theorems are about serial histories and are not
  claimed for interleaved transactions. The cache and outbox theorems hold under interleaving.
- Any statement of a call may fail. The `faults` parameter names the ones that do; a transaction with a failed
  statement, or a failed commit, is rolled back (internal/database/database.go:14-26).
- Where a theorem needs hashes that are never drawn twice, it says so (`OneTimeTokens.Fresh`).
- Outbox sweeps do not overlap, as the repository's README.md:226 explains.

## Where the code and its intent part

- The counter restarts after a gap of whole seconds, at least one, while the lock lasts for the window itself
  (internal/auth/service.go:584 and 596). For a window of at least one second the bound holds for the whole
  seconds of the window. For a shorter one it does not hold per counting gap: `ShortWindows.RunTheCalls` runs the
  calls that break it, and `ShortWindows.BoundedPerGapIff` gives the exact condition, for every configuration that
  `Load` lets through (internal/config/config.go:168-218).
- `LockUserUntil` runs outside a transaction after `RecordFailedLogin`: when it fails, the failure stays recorded
  and the account stays open. The bound counts these errors.
- At the very instant a lock ends, the next failure can still add to the old count instead of restarting it
  (`FirstFailureAfterTheLock`).
- `UpsertOAuthAccount` on its own would hand an identity to another user. That it never does is a property of the
  code around it.

## Model

| member | source | states |
|---|---|---|
| `LoginThrottle.CounterIsTheLongestStreak` | internal/store/sqlc/users.sql.go:237-248 | in every reachable state `failed_login_count` is the length of the longest suffix of the failures since the last clear whose consecutive gaps are at most the counting gap, and `last_failed_login_at` is the last of them |
| `LoginThrottle.LongestStreakIsUnique` | internal/store/sqlc/users.sql.go:237-248 | a list of failures has only one such length, so the refinement determines the counter |
| `LoginThrottle.BruteForceBound` | internal/auth/service.go:216-264 | any stretch of any history that does not clear the counter, and whose failures fall in a half-open interval of the guarded length, records at most the threshold of failures, plus one for each failed locking statement; the bound follows from gap counter and lock together |
| `LoginThrottle.GuardedIsTheWholeSeconds` | internal/auth/service.go:583-602 | for a window of at least a second the guarded length is the whole seconds of the window |
| `LoginThrottle.CountedSegment` | internal/store/sqlc/users.sql.go:237-248 | within an interval of at most the counting gap no recorded failure is lost from the counter |
| `LoginThrottle.LocksFollowFailures` | internal/auth/service.go:593-599 | a lock that outlives the last failure is that failure plus the window |
| `AccountRows.EveryRowIsConsistent` | internal/store/sqlc/users.sql.go:208-336 | every reachable row: inactive iff `disabled_at` set iff reason `inactivity`; active with a lock date iff reason `failed_login_attempts`; locked implies count at least the threshold; count positive iff a last failure is set |
| `AccountRows.NothingIsUndone` | internal/auth/service.go:374-403 | between any two states: rows and addresses stay, verification stays, versions do not fall, and a disabled account is active again only if a recovery was committed in between |
| `AccountRows.AddressesAreUnique` | internal/store/sqlc/users.sql.go:13-22 | the unique index on the address finds exactly the rows of the table |
| `SessionRevocation.VersionCountsRevocations` | internal/store/sqlc/users.sql.go:194-199 | `auth_version` is 1 plus the committed resets and recoveries of the user |
| `SessionRevocation.SessionAcceptedIff` | internal/auth/service.go:439-454 | the version of a login is accepted in a later state if and only if the account is usable there and no reset or recovery was committed since |
| `SessionRevocation.RevokedForever` | internal/auth/service.go:374-454 | after a committed reset or recovery every earlier version is rejected in all later states |
| `OneTimeTokens.TokensAreTraced` | internal/store/sqlc/auth.sql.go:14-22 | every stored token goes back to the last change about its hash: unused to its issue, used to its consumption; its owner exists |
| `OneTimeTokens.EveryConsumptionHasItsIssue` | internal/store/sqlc/auth.sql.go:14-22 | each confirmation used a token issued earlier to that user for that kind, within its lifetime and not used in between |
| `OneTimeTokens.SingleUse` | internal/store/sqlc/auth.sql.go:14-22 | between two confirmations of one hash the hash was issued again |
| `OneTimeTokens.FreshTokensAreConfirmedOnce` | internal/auth/service.go:334-430 | with fresh hashes each token is confirmed at most once in the whole history |
| `OneTimeTokens.OnlyTheLastTokenIsLive` | internal/store/sqlc/auth.sql.go:113-120 | a token of a user and kind that can still be confirmed is the last one issued |
| `OneTimeTokens.AtMostOneLiveToken` | internal/auth/service.go:732-769 | each user and kind has at most one live token |
| `OneTimeTokens.OneMailPerToken` | internal/auth/service.go:753-769 | the outbox holds exactly one e-mail per committed token, in order of issue, addressed to the owner and dated one second back |
| `OneTimeTokens.SameAnswers` | internal/store/sqlc/auth.sql.go:14-22 | a cleaned store and one that never deletes answer every confirmation alike |
| `OneTimeTokens.CleanupIsInvisible` | internal/river/jobs/cleanup.go:36-64 | cleanups inserted anywhere in a history change neither whether it is possible nor the tables, except for dead token rows |
| `TotpStability.EnabledSecretIsStable` | internal/auth/service.go:266-326 | from a confirmation until the configuration is dropped it stays enabled with the confirmed secret, and every confirmation in between carried a code valid for it |
| `TotpStability.EnabledOnlyByAValidCode` | internal/auth/service.go:309-326 | an enabled configuration was enabled by a code valid for the stored secret, and not dropped since |
| `TotpStability.GuardedLogins` | internal/auth/service.go:689-712 | every password login while enabled carried a code valid for the confirmed secret at that instant |
| `OAuthOwnership.AccountsAreABijection` | db/migrations/00001_initial_schema.sql:45-46 | in every reachable state the table is a partial bijection between (provider, subject) and (user, provider), and owners exist |
| `OAuthOwnership.OwnershipIsPermanent` | internal/auth/oauth.go:184-264 | an identity once linked belongs to the same user in every later state, although the upsert writes the owner |
| `Queries.Tables.RecordFailedLogin` | internal/store/sqlc/users.sql.go:237-248 | counts a failure on the one row: restarts at 1 after the gap, else adds one; an overflow of the 32-bit column is an error that changes nothing |
| `Queries.Tables.CreateUser` | internal/store/sqlc/users.sql.go:13-22 | inserts a row with the column defaults unless the address is taken; the identity value is spent either way |
| `Queries.Tables.ConsumeUserToken` | internal/store/sqlc/auth.sql.go:14-22 | selects the unused, unexpired token of that hash and kind, marks it used and returns its owner; else no row |
| `Queries.Tables.UpsertOAuthAccount` | internal/store/sqlc/oauth.sql.go:71-94 | inserts or overwrites the row, owner included; fails when the user has another identity of the provider |
| `Queries.Tables.Restore` | internal/database/database.go:14-26 | rollback puts back every table and the history; only the identity column keeps its value |
| `AuthService.Service.HandleFailedLogin` | internal/auth/service.go:583-602 | a failed attempt is recorded and locks the account at the threshold; which statement failed decides what is left |
| `AuthService.Service.ValidateSecondFactor` | internal/auth/service.go:689-712 | passes exactly without an enabled configuration or with a valid code; the two refusals |
| `AuthService.Service.CompleteUserAuthentication` | internal/auth/service.go:613-638 | succeeds exactly for a usable account with no failed statement; the principal carries the version read; what is written in each case |
| `AuthService.Service.LoginWithPassword` | internal/auth/service.go:216-264 | nothing is written before the password is judged; a wrong password or factor is counted; success exactly for an active, unlocked, verified account with the right password and factor, and what the row is then; the reason of each refusal; nobody gets in unverified |
| `AuthService.Service.ResetPassword` | internal/auth/service.go:405-430 | all or nothing: consume, new password, new version, cleared failures, in that order; success exactly when a live reset token was given and nothing failed; the new row, field by field; a failure leaves all tables as they were |
| `AuthService.Service.RecoverAccount` | internal/auth/service.go:374-403 | all or nothing: consume, new password, restored access, dropped second factor, new version; afterwards the account is active and verified, field by field; success and failure as above |
| `AuthService.Service.VerifyEmail` | internal/auth/service.go:334-351 | all or nothing: consume and verify; success and failure as above |
| `AuthService.Service.Register` | internal/auth/service.go:143-214 | all or nothing: a new account, field by field and not verified, with one verification token and its e-mail; fails exactly on a taken address, a known hash or a failed statement |
| `AuthService.Service.RequestTokenEmail` | internal/auth/service.go:732-769 | unknown addresses, and verified ones asking for verification, are answered with success and change nothing; else the old tokens of that user and kind expire and one token with its e-mail is issued, all or nothing; every other token stays as it was |
| `AuthService.Service.BeginTOTPSetup` | internal/auth/service.go:266-307 | stores a new secret exactly when none is enabled |
| `AuthService.Service.ConfirmTOTPSetup` | internal/auth/service.go:309-326 | enables exactly with a code valid for the stored secret; otherwise nothing changes |
| `AuthService.Service.DisableTOTP` | internal/auth/service.go:328-332 | drops the configuration, all or nothing |
| `AuthService.Service.CurrentUser` | internal/auth/service.go:432-437 | answers exactly for a usable account and changes no table |
| `AuthService.Service.ValidateSession` | internal/auth/service.go:439-454 | accepts exactly a usable account whose version is that of the session |
| `AuthService.Service.DisableInactiveAccounts` | internal/river/jobs/inactivity.go:30-41 | exactly the active accounts without a login for the configured time, or else created before it, are disabled; the others stay as they are |
| `AuthService.Service.CleanTokens` | internal/river/jobs/cleanup.go:36-64 | both token deletions run, whichever of them fails; when none does, exactly the unused and unexpired tokens are left, untouched |
| `OAuthFlow.Linker.ResolveOwner` | internal/auth/oauth.go:184-234 | the account is the owner of the identity, else the linking user, else the user with the address, else a new one; a link conflicts exactly when the identity is someone else's or the user has another one |
| `OAuthFlow.Linker.LinkIdentity` | internal/store/sqlc/oauth.sql.go:71-94 | with the owner unchanged the upsert fails exactly on the unique constraint |
| `OAuthFlow.Linker.CompleteOAuthFlow` | internal/auth/oauth.go:184-264 | whom a completed flow logs in, what it reports and what it leaves in the history; it completes whenever nothing stands in the way |
| `OAuthFlow.Linker.CompleteOAuthAuthentication` | internal/auth/service.go:505-552 | success means that state and provider are those of the stored flow, in time, with a code, and a verified profile for that code and verifier; nobody loses an identity whatever happens; a failure changes nothing; the reason of each refused callback; with no failed statement the flow completes if and only if it is accepted, the profile is complete and the account can be linked |
| `Handlers.AuthHandler.SessionsNeverRunAhead` | internal/httpapi/handlers/auth.go:406-433 | the version of every session is at most that of the account, and one that is behind is rejected |
| `Handlers.AuthHandler.CompleteLogin` | internal/httpapi/handlers/auth.go:406-415 | the session gets user and version of a login that happened; a failed renewal changes nothing |
| `Handlers.AuthHandler.Login` | internal/httpapi/handlers/auth.go:54-78 | a session is logged in if and only if password and factor are proven and no statement fails, with the version then current |
| `Handlers.AuthHandler.ValidatedOptionalUserID` | internal/httpapi/handlers/auth.go:417-433 | returns the user exactly for an accepted session; a rejected session is destroyed |
| `Handlers.AuthHandler.RequireAuthenticated` | internal/httpapi/middleware/authz.go:25-51 | admits exactly the accepted sessions; a rejected one is destroyed |
| `Handlers.AuthHandler.StartOAuth` | internal/httpapi/handlers/auth.go:140-159 | a flow starts if and only if the provider is configured and the session is accepted or logged out, and it is bound to that user, or to nobody |
| `Handlers.AuthHandler.CompleteOAuth` | internal/httpapi/handlers/auth.go:161-197 | what succeeds presents the state that the last `StartOAuth` of this session drew, in time, and no callback came for it before; with no failing statement the callback succeeds if and only if the session is accepted or logged out and the flow completes; an identity is linked only to the user of a session accepted at that moment; a refusal leaves the tables as they were; other sessions are untouched |
| `RoleCache.Cache.EvictIfExpired` | internal/cache/cache.go:57-63 | the write-locked part of `Get` deletes only an entry that is expired at its own instant |
| `RoleCache.Cache.Get` | internal/cache/cache.go:47-68 | a hit is what was last set, within the time limit; with instants that do not go back a hit exactly when the cache that never deletes has one |
| `RoleCache.Cache.Set` | internal/cache/cache.go:70-81 | stores a fresh copy for that key only |
| `RoleCache.Cache.Sweep` | internal/cache/cache.go:34-45 | deletes exactly the expired entries |
| `RoleStaleness.EveryStateIsJustified` | internal/httpapi/middleware/authz.go:84-97 | in every interleaving every entry, and every request holding roles, goes back to a database state recent enough |
| `RoleStaleness.BoundedStaleness` | internal/httpapi/middleware/authz.go:84-97 | a decision whose instant was captured at t uses roles the database showed at some instant from t - ttl on, also when a slow request overwrites a newer entry |
| `RoleStaleness.DecisionsFollowTheDatabase` | internal/httpapi/middleware/authz.go:53-82 | roles that have permitted, or refused, something for the time limit decide every request that way |
| `Authorization.ResolveRoleNames` | internal/httpapi/middleware/authz.go:84-97 | from the cache what it remembers, else from the resolver, and then the cache remembers that with the instant read first; with an instant behind an earlier caller's, one of the two |
| `Authorization.Admits` | internal/httpapi/middleware/authz.go:67-77 | `admin` passes, so does each of the required roles, and nothing else |
| `Authorization.RequireRoles` | internal/httpapi/middleware/authz.go:53-82 | which roles decide, and the verdict: `admin` passes every route, each required role passes, nothing else does; for every case: no user, a remembered answer, a resolved answer, a failing resolver, and either of them for an instant behind an earlier caller's |
| `Outbox.EveryStateIsSound` | internal/river/jobs/email_outbox.go:38-68 | the invariant of the outbox under all interleavings of sweeps, new e-mails, purges, crashes and failing statements |
| `Outbox.Conservation` | internal/store/sqlc/mailer.sql.go:16-35 | an enqueued e-mail is in exactly one of pending, sent, purged as sent, purged after failing |
| `Outbox.RetriesAreSpaced` | internal/store/sqlc/mailer.sql.go:139-145 | attempts are at most 1 plus the time since the first failure divided by 300 s; nothing is purged as failed without an attempt |
| `Outbox.SentAtMostOnceUnlessAMarkIsLost` | internal/river/jobs/email_outbox.go:49-65 | an e-mail is sent at most once, plus once for each failed mark |
| `OutboxProgress.NothingOvertakes` | internal/auth/service.go:771-775 | once the clock is past an e-mail by a second, no new e-mail and no retry gets in front of it |
| `OutboxProgress.SweepTakesABatch` | internal/river/jobs/email_outbox.go:38-68 | a clean sweep that ends without having reached the e-mail leaves 25 fewer ahead of it |
| `OutboxProgress.SweepsMakeProgress` | internal/store/sqlc/mailer.sql.go:95-102 | at every point of a run the e-mails ahead, plus 25 for each clean sweep, are at most the rank at the start |
| `OutboxProgress.ReachedWithinItsRank` | internal/river/jobs/email_outbox.go:38-68 | while the e-mail is neither attempted nor purged, fewer than ceil(rank / 25) clean sweeps have gone through |
| `OutboxWorker.Worker.EnqueueEmail` | internal/store/sqlc/mailer.sql.go:45-60 | adds one pending row under a new id, dated one second back |
| `OutboxWorker.Worker.ListPendingEmails` | internal/store/sqlc/mailer.sql.go:95-102 | at most 25 due rows, earliest first, and no due row left out is earlier than one taken |
| `OutboxWorker.Worker.MarkEmailSent` | internal/store/sqlc/mailer.sql.go:158-162 | marks that row, if it is still there |
| `OutboxWorker.Worker.MarkEmailFailed` | internal/store/sqlc/mailer.sql.go:139-145 | counts the attempt and puts that row 300 s ahead |
| `OutboxWorker.Worker.HandleEmail` | internal/river/jobs/email_outbox.go:49-65 | one turn of the loop is one attempt and one mark of the machine |
| `OutboxWorker.Worker.HandleBatch` | internal/river/jobs/email_outbox.go:49-65 | the loop takes the batch in order, each e-mail once, and does not stop at failures |
| `OutboxWorker.Worker.Work` | internal/river/jobs/email_outbox.go:38-68 | a sweep is a run of the machine; without a mailer, or when listing fails, nothing changes |
| `OutboxWorker.Worker.PurgeEmails` | internal/river/jobs/cleanup.go:44-57 | what goes and what stays, row by row, for the two purges with the retention cutoff, whichever of them fails |
| `EnvNames.HasTokenPrefix` | internal/config/config.go:370-380 | answers whether the prefix begins the tokens |
| `EnvNames.MatchEnvTokens` | internal/config/config.go:265-313 | sound, complete and terminating on every type: it answers the first route, in the order of the search, that spells the tokens, with its path and type, and none exactly when no route does |
| `EnvNames.FirstIsUnique` | internal/config/config.go:265-313 | there is only one first route, so the search is determined by its specification |
| `EnvNames.EnvVarToConfigKey` | internal/config/config.go:251-263 | the key and type of the first route of the name, or nothing exactly when the name is empty or spells no route; joining the path gives the name again |
| `EnvNames.PathSpellsTheName` | internal/config/config.go:265-313 | the path of any route that spells a name is that name, when its parts are joined |
| `EnvNames.NameSpellsRoute` | internal/config/config.go:251-263 | the name built from a path splits into the words of its route |
| `EnvNames.MapFreeNamesAreUnambiguous` | internal/config/config.go:268-292 | when no tag begins a sibling tag, a name spelled along fields only has one reading |
| `EnvNames.MapFreePathsRoundTrip` | internal/config/config.go:249-292 | in any type whose tags do not begin their siblings, every path of fields round trips and its name has no other reading |
| `ConfigTree.ConfigWellTagged` | internal/config/config.go:17-122 | no tag of the configuration begins a sibling tag |
| `ConfigTree.FieldPathsRoundTrip` | internal/config/config.go:17-122 | every path of fields of `Config` round trips, and its name has no other reading |
| `ConfigTree.ProviderTagsAreSuffixFree` | internal/config/config.go:83-97 | no provider tag is the end of another, so key and field can be read off the words |
| `ConfigTree.ProviderNamesDecode` | internal/config/config.go:76-97 | for every nonempty key, of any words, and every provider field, the name decodes to that key and field first |
| `ConfigTree.ConfigKeyOf` | internal/config/config.go:249-263 | the decoder on `Config`: the prefix and the name of any path of fields, or of any provider field under any lower-case key, with any letters in upper case, decode to that path and its type |
| `Splitting.SplitJoin` | internal/config/config.go:257-262 | splitting joined words gives the words |
| `Splitting.JoinSplit` | internal/config/config.go:257-262 | joining a split name gives the name |
| `LoginThrottle.FirstFailureAfterTheLock` | internal/auth/service.go:583-602 | from the end of a lock on, the next failure restarts the count at 1, except at the very instant the lock ends when the window is a whole number of seconds: then it adds to the count |
| `ShortWindows.OneAttemptTooMany` | internal/auth/service.go:583-602 | for a window below one second the bound per counting gap is false of the histories the calls leave: a registration, a verification, threshold many wrong logins, the wait for the short lock, and one more |
| `ShortWindows.RunTheCalls` | internal/auth/service.go:216-264 | those calls, run on the service from an empty database without a failing statement, leave a history that breaks the bound |
| `ShortWindows.LongWindowsBound` | internal/auth/service.go:583-602 | for a window of at least a second, or a threshold beyond the 32-bit counter, every history keeps the bound per counting gap |
| `ShortWindows.BoundedPerGapIff` | internal/auth/service.go:583-602 | over all histories the calls can leave, the bound per counting gap holds if and only if the window is at least a second or the threshold is beyond the 32-bit counter |
| `RoleStaleness.UnexpiredEntriesStay` | internal/cache/cache.go:34-68 | in any state a step deletes exactly the entries that have expired at the deleter's own instant, so never one refreshed between the two sections of `Get` |
| `RoleStaleness.OnlyExpiredEntriesGo` | internal/cache/cache.go:34-68 | in every run an entry unexpired by the clock stays through every step |
| `RoleIsolation.Take` | internal/app/app.go:83-85 | after every step of a holder (a write to any held slice, `Set` from any, `Get` of any key, `Sweep`) no held slice is in the cache, and no slice in the cache was written |
| `RoleIsolation.Run` | internal/cache/cache.go:47-88 | any steps in any order: the cache answers exactly as a cache of values may, and the slices in it are never written after `Set` |
| `RoleIsolation.LastSetIsRemembered` | internal/cache/cache.go:70-88 | what is remembered for a key is what the slice given to the last `Set` read at that moment, whatever was written since |
| `RoleIsolation.AnswersAreSnapshots` | internal/cache/cache.go:47-88 | every answer of a run is that snapshot, at most the time limit old, and while instants do not go back every such snapshot is answered |
| `Handlers.AuthHandler.FinishOAuth` | internal/httpapi/handlers/auth.go:170-188 | a callback whose user is known: with no failing statement it succeeds if and only if the flow completes; a refusal changes neither tables nor sessions; in link mode the session stays as it is |
| `AuthService.Service.FinishPasskeyLogin` | internal/auth/passkeys.go:131-154 | a validated ceremony logs in exactly a usable account, with the version then current |
| `AuthService.Service.PrincipalWithFactors` | internal/auth/service.go:670-681 | the principal tells whether an enabled second factor is stored, and a failed read hands out nothing |
| `Provenance.OthersAreUntouched` | internal/auth/service.go:143-452 | a change about one user leaves the row and the second factor of every other user as they are |
| `Provenance.TokensOfOthersAreUntouched` | internal/store/sqlc/auth.sql.go:113-120 | and the tokens of every other user |
| `Provenance.PasswordIsTheLastSet` | internal/store/sqlc/auth.sql.go:161-166 | the stored password is the one set last by a registration, a reset or a recovery |
| `Provenance.VerifiedIff` | internal/store/sqlc/users.sql.go:226-230 | an account is verified if and only if a verification or a recovery of it was committed; a new one is not |
| `Provenance.LastLoginIsTheLastTouch` | internal/store/sqlc/users.sql.go:324-336 | `last_login_at` is the instant of the last login |
| `Provenance.RecentLoginsStayActive` | internal/store/sqlc/users.sql.go:53-61 | a bulk update keeps an account whose last login is not before its deadline |
| `Provenance.SecretIsTheLastSetUp` | internal/store/sqlc/totp.sql.go:13-73 | the stored secret is the one set up last and not dropped, and it guards logins if and only if it was confirmed |
| `Provenance.LoginsAreEarned` | internal/auth/service.go:651-668 | whoever was logged in had an active, unlocked account that was verified earlier, and got its version |
| `TokenLifetimes.ConfirmableIff` | internal/store/sqlc/auth.sql.go:14-22 | a token can be confirmed, for its kind and owner, if and only if its configured lifetime is not over, it was not used, and its owner has not asked for another of the kind since; nobody else's requests and no cleanup matter |
| `Confirmations.VerificationIsConfirmed` | internal/auth/service.go:334-351 | in every history of calls an address is verified only right after a verification token of that user was confirmed, or with an account created from a profile the provider had verified |
| `Confirmations.RecoveryIsConfirmed` | internal/auth/service.go:374-403 | an account is recovered only with a recovery token of that user |
| `Confirmations.PasswordIsConfirmed` | internal/auth/service.go:405-430 | a password is set only at registration or with a reset or recovery token of that user |
| `Confirmations.DropIsAskedFor` | internal/auth/service.go:328-332 | a second factor is dropped only by its user or with a recovery token of that user |
| `Confirmations.ExpiryIsARequest` | internal/auth/service.go:753-769 | a token dies early only by a committed request for the same user and kind, which issues the next one |
| `Confirmations.VerifiedAccountsAreConfirmed` | internal/auth/service.go:334-403 | every verified account has such a confirmation in its history |
| `Confirmations.RecentLoginsSurvive` | internal/river/jobs/inactivity.go:30-41 | the periodic check never disables an account with a login within the configured time |
| `OAuthFlow.CompletesIff` | internal/auth/service.go:505-552 | when a callback completes, in the terms of session, profile and tables: state, provider, code, time limit, user, verified profile, and whose account it can be |
| `OAuthFlow.Linker.CommitFlow` | internal/auth/service.go:538-551 | the transaction: whose account it is, what has become of every table, and nothing at all after a failure |
| `RoleStaleness.RolesFollowTheDatabase` | internal/httpapi/middleware/authz.go:84-97 | a role that the database has, or has not, shown all through the time limit is, or is not, among the roles of the decision |
| `Outbox.AttemptsAreDue` | internal/store/sqlc/mailer.sql.go:95-102 | in every reachable state only pending e-mails whose date has come are attempted |
| `OutboxWorker.Worker.DeleteSentEmailsBefore` | internal/store/sqlc/mailer.sql.go:31-35 | exactly the e-mails sent before the cutoff go, the others stay as they are |
| `OutboxWorker.Worker.DeleteFailedEmailsBefore` | internal/store/sqlc/mailer.sql.go:16-21 | exactly the unsent e-mails that failed and were due before the cutoff go |
| `EnvNames.DecodesOnce` | internal/config/config.go:265-313 | a name decodes to one thing |
| `EnvNames.CaseDoesNotMatter` | internal/config/config.go:251-257 | two names that differ only in the case of letters after the prefix get the same answer |
| `ConfigTree.DecodesSpelling` | internal/config/config.go:251-263 | the name of a path of fields decodes to it with any of its letters in upper case |
| `ConfigTree.DocumentedNames` | README.md:99-103 | `BASE_APP_ENV` and `BASE_DATABASE_URL` decode to `app.env` and `database.url` |
| `Outcomes.RegisterOutcome` | internal/auth/service.go:158-209 | after a registration: a new row with its password and nothing else set, a live verification token, its e-mail, and all other accounts as they were |
| `Outcomes.ResetOutcome` | internal/auth/service.go:411-429 | after a reset: new password and version, no failures, no lock, the token used up; what disabled the account still does |
| `Outcomes.RecoverOutcome` | internal/auth/service.go:380-402 | after a recovery: besides, active, verified and without second factor |
| `Outcomes.VerifyOutcome` | internal/auth/service.go:335-350 | after a verification: the row is verified and otherwise the same |
| `Outcomes.LoginOutcome` | internal/store/sqlc/users.sql.go:324-336 | after a login: its date, no failures, no lock, and nothing else about the account |
| `Outcomes.FailOutcome` | internal/auth/service.go:583-602 | after a counted failure: one more, or 1 after a gap of the whole seconds of the window, and a lock for the window at the threshold |
| `Outcomes.RequestOutcome` | internal/auth/service.go:753-769 | after a token request: one live token of that user and kind, with the configured lifetime, and every other token as it was |
| `Outcomes.DisableOutcome` | internal/store/sqlc/users.sql.go:53-61 | after the bulk update: exactly the rows it is about, and the others as they were |
| `Outcomes.CleanOutcome` | internal/store/sqlc/auth.sql.go:86-103 | after both deletions: exactly the unused, unexpired tokens |
| `Outcomes.FlowOutcome` | internal/auth/oauth.go:184-292 | after an OAuth flow: the identity, the new or old account it belongs to, and the mark of a login, field by field |

## Left out

- SMTP, HTTP routing, JSON, logging, migrations, startup: input and output; sending an e-mail is a success or an error.
- Argon2id, SHA-256, AES-GCM, random values and the TOTP algorithm: library code; they are functions and parameters of the model, and encryption of stored secrets is not represented.
- The rate limiter: its verdict is the parameter `admitted` of a login.
- River scheduling and retries: a job is a call of the model.
- The session store: a session is identified across renewals of its token; expiry of sessions is not represented.
- WebAuthn ceremonies and credential rows: a passkey login starts from the user whose credential was validated.
- Interleaved account transactions: see the assumptions.
- Role tables in the account machine: reading and granting roles are statements that may fail; roles themselves are in the cache part.
- A commit that reports an error although it took effect: a failed commit is taken to have rolled back.
- Usernames: a taken username is one of the reasons why `InsertUser` fails.
- Trimming and lower-casing of addresses, tokens and provider names: inputs are taken as already normalised.
- Columns no decision reads (`last_seen_at`, `updated_at`, subjects and templates of e-mails): not represented.
- Width of integers: ids, versions and attempts are unbounded; only the 32-bit failure counter can overflow.
- Microsecond rounding of timestamps by the database: instants are exact.
- The token outbox of the accounts and the outbox machine are two models of one table: the first says which e-mails are enqueued, the second what happens to them.
- Lower-casing of names is that of ASCII letters; other letters do not occur in tags.
- `Load`, `parseEnvValue` and its defaults and checks, and reflection: configuration types are a finite tree.
- The generic cache: keys are user ids, values are role slices, and the clone is the copying one that is installed.
- `RequireAuthenticated` with several validators: the one that is installed.
