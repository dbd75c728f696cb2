// The calls of the auth service, and what each of them leaves in the history. Given the inputs of a call,
// the statements that fail, and the tables it meets, the changes it commits are determined; the classes
// prove that they commit exactly these. A history of the service is what some sequence of calls leaves.
module Calls {
  import opened Wrappers
  import opened Schema
  import opened Journal

  datatype Statement =
    | BeginTx | CommitTx
    | GetUserWithPassword | ComparePassword | GetUserByEmail | GetUserByID | RereadUser | ListRoles
    | GetTotp | Decrypt | RereadTotp | Encrypt | NewToken
    | InsertUser | StorePassword | AddRole | MarkVerified | RecordFailure | LockUser | ResetFailures | UpdateLogin
    | RestoreAccess | IncrementVersion | DisableUsers
    | CreateToken | ConsumeToken | ExpireTokens | DeleteExpiredTokens | DeleteUsedTokens | Enqueue
    | UpsertTotp | MarkEnabled | DeleteTotp
    | GetIdentity | GetLinked | Seal | UpsertAccount

  // The statements of a call that fail.
  type Faults = set<Statement>

  // What the session keeps between the redirect and the callback of an OAuth flow.
  datatype Flow = Flow(provider: string, state: string, verifier: string, startedAt: Option<Time>, linkUser: UserId)

  datatype Profile = Profile(subject: string, email: string, emailVerified: bool)

  // `user` is the identity value the database draws for a new row; `newHash` is the outcome of hashing the
  // new password, None for one that is too short; `admitted` is the verdict of the rate limiter; `profile`
  // is the answer of the provider, and `committed` says whether no statement failed.
  datatype Call =
    | Wait(elapsed: nat)
    | Register(user: UserId, email: string, newHash: Option<string>, token: string, faults: Faults)
    | Login(email: string, password: string, code: string, admitted: bool, faults: Faults)
    | PasskeyLogin(owner: Option<UserId>, faults: Faults)
    | ResetPassword(token: string, newHash: Option<string>, faults: Faults)
    | RecoverAccount(token: string, newHash: Option<string>, faults: Faults)
    | VerifyEmail(token: string, faults: Faults)
    | RequestTokenEmail(email: string, kind: TokenKind, token: string, faults: Faults)
    | BeginTOTPSetup(user: UserId, secret: string, faults: Faults)
    | ConfirmTOTPSetup(user: UserId, code: string, faults: Faults)
    | DisableTOTP(user: UserId, faults: Faults)
    | CurrentUser(user: UserId, faults: Faults)
    | CompleteOAuth(provider: string, flow: Option<Flow>, state: string, code: string, currentUser: UserId,
                    profile: Option<Profile>, sealedTokens: string, user: UserId, committed: bool)
    | DisableInactiveAccounts(faults: Faults)
    | CleanTokens(faults: Faults)

  // ---- Logins ----

  // The account a password login is about.
  function Candidate(s: Store, email: string): Option<UserId> {
    if email in s.emails && s.emails[email] in s.users && s.users[s.emails[email]].passwordHash.Some?
    then Some(s.emails[email]) else None
  }

  // The login gets as far as judging the password and the second factor.
  predicate Judged(s: Store, email: string, admitted: bool, faults: Faults) {
    && admitted && GetUserWithPassword !in faults && ComparePassword !in faults
    && Candidate(s, email).Some? && s.users[Candidate(s, email).value].Usable(s.now)
  }

  predicate SecondFactorOk(cfg: Config, s: Store, u: UserId, code: string, faults: Faults) {
    && GetTotp !in faults
    && (TotpEnabled(s, u) ==>
          Decrypt !in faults && code != "" && cfg.crypto.totpValid(s.totp[u].secret, code, s.now))
  }

  predicate Proven(cfg: Config, s: Store, u: UserId, password: string, code: string, faults: Faults)
    requires u in s.users && s.users[u].passwordHash.Some?
  {
    cfg.crypto.passwordMatches(password, s.users[u].passwordHash.value) && SecondFactorOk(cfg, s, u, code, faults)
  }

  // What a failed attempt leaves in the history.
  function FailureOf(cfg: Config, s: Store, u: UserId, faults: Faults): seq<Change>
    requires u in s.users
  {
    var count := s.users[u].Recorded(cfg.Gap(), s.now).failedCount;
    if RecordFailure in faults || count > MAX_INT32 then []
    else [Fail(u, s.now, LockUser in faults && count >= cfg.failedLoginThreshold)]
  }

  // What completing an authentication leaves: nothing, the login mark, or the login mark and a grant.
  const AFTER_LOGIN: Faults := {RereadUser, ListRoles, RereadTotp}

  function LoginOf(s: Store, u: UserId, factor: Factor, faults: Faults): seq<Change>
    requires u in s.users
  {
    if GetUserByID in faults || UpdateLogin in faults then []
    else if faults !! AFTER_LOGIN then [Touch(u), Grant(u, s.users[u].authVersion, factor, s.now)]
    else [Touch(u)]
  }

  // ---- Token requests ----

  // The account a token request is about: unknown addresses, and verified ones that ask for another
  // verification, are answered alike and nothing happens.
  function Requester(s: Store, email: string, kind: TokenKind): Option<UserId> {
    if email in s.emails && s.emails[email] in s.users
       && !(kind == EmailVerification && s.users[s.emails[email]].verifiedAt.Some?)
    then Some(s.emails[email]) else None
  }

  // ---- OAuth flows ----

  // The callback belongs to the flow: it is recent, and provider, state and user are those it started with.
  predicate FlowAccepted(cfg: Config, flow: Option<Flow>, provider: string, state: string, code: string,
                         currentUser: UserId, now: Time)
  {
    && flow.Some? && flow.value.startedAt.Some?
    && flow.value.startedAt.value <= now + 60 * SECOND
    && now - flow.value.startedAt.value <= cfg.oauthStateTTL
    && provider in cfg.oauthProviders && flow.value.provider == provider
    && flow.value.state == state && code != ""
    && (flow.value.linkUser != 0 ==> flow.value.linkUser == currentUser)
  }

  // The identity, its address and the assertion about the address are all there.
  predicate Complete(profile: Profile) {
    profile.subject != "" && profile.email != "" && profile.emailVerified
  }

  // Whether a completed flow has to register a new account.
  predicate Creates(s: Store, id: Identity, linkUser: UserId, email: string) {
    id !in s.accounts && linkUser == 0 && !(email in s.emails && s.emails[email] in s.users)
  }

  // The account an identity leads to: its owner; else the user who asked for the link; else the user
  // with the asserted address; else a new one.
  function Owner(s: Store, id: Identity, linkUser: UserId, email: string, newUser: UserId): UserId {
    if id in s.accounts then s.accounts[id].user
    else if linkUser != 0 then linkUser
    else if email in s.emails && s.emails[email] in s.users then s.emails[email]
    else newUser
  }

  // With no failing statement, what stands in the way of a flow.
  ghost predicate Linkable(s: Store, id: Identity, linkUser: UserId, email: string) {
    Creates(s, id, linkUser, email)
    || (var u := Owner(s, id, linkUser, email, 0);
        && u in s.users && s.users[u].Usable(s.now)
        && (linkUser != 0 ==> u == linkUser)
        && !ClashesWith(s.accounts, id, u))
  }

  // The answer of the provider to the code and the verifier of section 4.5 of RFC 7636: the profile of the
  // user, or a refusal.
  type Provider = (string, string) -> Option<Profile>

  function Answer(flow: Option<Flow>, code: string, fetch: Provider): Option<Profile> {
    if flow.Some? then fetch(code, flow.value.verifier) else None
  }

  // With no failing statement, when a callback completes its flow.
  ghost predicate Completes(cfg: Config, s: Store, provider: string, flow: Option<Flow>, state: string, code: string,
                            currentUser: UserId, profile: Option<Profile>)
  {
    && FlowAccepted(cfg, flow, provider, state, code, currentUser, s.now)
    && profile.Some? && Complete(profile.value)
    && Linkable(s, Identity(provider, profile.value.subject), flow.value.linkUser, profile.value.email)
  }

  function OwnerChanges(s: Store, id: Identity, linkUser: UserId, email: string, u: UserId): seq<Change> {
    if Creates(s, id, linkUser, email) then [CreateUser(u, email), Verify(u)] else []
  }

  function LinkChanges(id: Identity, login: bool, sealedTokens: string, u: UserId, version: int, now: Time)
    : seq<Change>
  {
    [Link(id, u, sealedTokens)] + (if login then [Touch(u)] else []) + [Grant(u, version, OtherFactor, now)]
  }

  // The version of the account a flow leads to; a new account starts at 1.
  function OwnerVersion(s: Store, u: UserId): int {
    if u in s.users then s.users[u].authVersion else 1
  }

  // What a completed flow leaves in the history.
  function FlowChanges(s: Store, id: Identity, linkUser: UserId, email: string, sealedTokens: string, u: UserId)
    : seq<Change>
  {
    OwnerChanges(s, id, linkUser, email, u)
    + LinkChanges(id, linkUser == 0, sealedTokens, u, OwnerVersion(s, u), s.now)
  }

  // ---- The calls ----

  predicate Above(users: map<UserId, User>, u: UserId) {
    u > 0 && forall x :: x in users ==> x < u
  }

  // The changes a call leaves on the tables s.
  ghost function Effect(cfg: Config, s: Store, c: Call): seq<Change> {
    match c
    case Wait(elapsed) => [Tick(elapsed)]
    case Register(u, email, newHash, token, faults) =>
      if newHash.Some? && email !in s.emails && cfg.crypto.hashToken(token) !in s.tokens && Above(s.users, u)
         && faults !! {NewToken, BeginTx, InsertUser, StorePassword, AddRole, CreateToken, Enqueue, ListRoles, CommitTx}
      then
        [CreateUser(u, email), SetPassword(u, newHash.value), Issue(u, EmailVerification, token, email, s.now)]
      else []
    case Login(email, password, code, admitted, faults) =>
      if !Judged(s, email, admitted, faults) then []
      else
        var u := Candidate(s, email).value;
        if Proven(cfg, s, u, password, code, faults) then LoginOf(s, u, Password(code), faults)
        else FailureOf(cfg, s, u, faults)
    case PasskeyLogin(owner, faults) =>
      if owner.Some? && owner.value in s.users && s.users[owner.value].Usable(s.now)
      then LoginOf(s, owner.value, OtherFactor, faults) else []
    case ResetPassword(token, newHash, faults) =>
      var hash := cfg.crypto.hashToken(token);
      var owner := Lookup(s, hash, PasswordReset);
      if newHash.Some? && owner.Some?
         && faults !! {BeginTx, ConsumeToken, StorePassword, IncrementVersion, ResetFailures, CommitTx}
      then
        [Consume(hash, PasswordReset, owner.value), SetPassword(owner.value, newHash.value), Revoke(owner.value),
         Clear(owner.value)]
      else []
    case RecoverAccount(token, newHash, faults) =>
      var hash := cfg.crypto.hashToken(token);
      var owner := Lookup(s, hash, AccountRecovery);
      if newHash.Some? && owner.Some?
         && faults !! {BeginTx, ConsumeToken, StorePassword, RestoreAccess, DeleteTotp, IncrementVersion, CommitTx}
      then
        [Consume(hash, AccountRecovery, owner.value), SetPassword(owner.value, newHash.value), Restore(owner.value),
         DropTotp(owner.value), Revoke(owner.value)]
      else []
    case VerifyEmail(token, faults) =>
      var hash := cfg.crypto.hashToken(token);
      var owner := Lookup(s, hash, EmailVerification);
      if owner.Some? && faults !! {BeginTx, ConsumeToken, MarkVerified, CommitTx}
      then [Consume(hash, EmailVerification, owner.value), Verify(owner.value)] else []
    case RequestTokenEmail(email, kind, token, faults) =>
      var u := Requester(s, email, kind);
      if u.Some? && cfg.crypto.hashToken(token) !in s.tokens
         && faults !! {GetUserByEmail, NewToken, BeginTx, ExpireTokens, CreateToken, Enqueue, CommitTx}
      then [Expire(u.value, kind), Issue(u.value, kind, token, email, s.now)] else []
    case BeginTOTPSetup(u, secret, faults) =>
      if u in s.users && !TotpEnabled(s, u) && faults !! {GetUserByID, GetTotp, Encrypt, UpsertTotp}
      then [PutSecret(u, secret)] else []
    case ConfirmTOTPSetup(u, code, faults) =>
      if u in s.totp && cfg.crypto.totpValid(s.totp[u].secret, code, s.now)
         && faults !! {GetTotp, Decrypt, BeginTx, MarkEnabled, CommitTx}
      then [EnableTotp(u, code, s.now)] else []
    case DisableTOTP(u, faults) => if faults !! {BeginTx, DeleteTotp, CommitTx} then [DropTotp(u)] else []
    case CurrentUser(u, faults) =>
      if u != 0 && u in s.users && s.users[u].Usable(s.now) && faults !! {GetUserByID, ListRoles, RereadTotp}
      then [Grant(u, s.users[u].authVersion, OtherFactor, s.now)] else []
    case CompleteOAuth(provider, flow, state, code, currentUser, profile, sealedTokens, user, committed) =>
      if committed && Completes(cfg, s, provider, flow, state, code, currentUser, profile) && Above(s.users, user)
      then
        var id, link, email := Identity(provider, profile.value.subject), flow.value.linkUser, profile.value.email;
        FlowChanges(s, id, link, email, sealedTokens, Owner(s, id, link, email, user))
      else []
    case DisableInactiveAccounts(faults) =>
      if DisableUsers in faults then [] else [DisableInactive(s.now - cfg.inactivityDisableAfter)]
    case CleanTokens(faults) =>
      (if DeleteExpiredTokens in faults then [] else [DeleteExpired])
      + (if DeleteUsedTokens in faults then [] else [DeleteUsed])
  }

  // What a sequence of calls leaves, from the empty database.
  ghost function History(cfg: Config, calls: seq<Call>): seq<Change> {
    if calls == [] then []
    else
      var before := History(cfg, calls[..|calls| - 1]);
      before + Effect(cfg, Replay(cfg, before), calls[|calls| - 1])
  }

  // The histories of the service: what its calls leave, as far as the database can have drawn the identity
  // values the calls name.
  ghost predicate Served(cfg: Config, calls: seq<Call>) {
    Legal(cfg, History(cfg, calls))
  }

  lemma OneMoreCall(cfg: Config, calls: seq<Call>, c: Call)
    ensures var before := History(cfg, calls);
            History(cfg, calls + [c]) == before + Effect(cfg, Replay(cfg, before), c)
  {
    assert (calls + [c])[..|calls|] == calls;
  }
}
