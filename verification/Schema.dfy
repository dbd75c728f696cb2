// The database tables of the auth backend, and the row transitions of its UPDATE statements.
module Schema {
  import opened Wrappers

  // Instants and durations are counted in nanoseconds.
  type Time = int
  type UserId = int

  const SECOND: int := 1_000_000_000
  const MAX_INT32: int := 0x7fff_ffff

  datatype TokenKind = PasswordReset | EmailVerification | AccountRecovery

  datatype Reason = FailedLoginAttempts | Inactivity

  // Library code the service calls: SHA-256 of a token, the Argon2id comparison of a password with a
  // stored hash, and the time-based code check of section 5.2 of RFC 6238.
  datatype Crypto = Crypto(
    hashToken: string -> string,
    passwordMatches: (string, string) -> bool,
    totpValid: (string, string, Time) -> bool)

  datatype Config = Config(
    failedLoginThreshold: int,
    failedLoginWindow: int,
    passwordResetTTL: int,
    emailVerificationTTL: int,
    recoveryTTL: int,
    inactivityDisableAfter: int,
    oauthStateTTL: int,
    oauthProviders: set<string>,
    crypto: Crypto)
  {
    // What NewService checks before it hands out a service.
    predicate Accepted() {
      failedLoginThreshold > 0 && failedLoginWindow > 0
    }

    // What Load makes of missing values, and refuses, before anyone sees the configuration.
    predicate Loaded() {
      && failedLoginThreshold > 0 && failedLoginWindow > 0
      && passwordResetTTL > 0 && emailVerificationTTL > 0 && recoveryTTL > 0
    }

    // The counting gap of RecordFailedLogin: the whole seconds of the window, at least one.
    function Gap(): int {
      var seconds := failedLoginWindow / SECOND;
      (if seconds < 1 then 1 else seconds) * SECOND
    }

    function TokenTTL(kind: TokenKind): int {
      match kind
      case PasswordReset => passwordResetTTL
      case EmailVerification => emailVerificationTTL
      case AccountRecovery => recoveryTTL
    }
  }

  datatype User = User(
    email: string,
    passwordHash: Option<string>,
    verifiedAt: Option<Time>,
    lastLoginAt: Option<Time>,
    createdAt: Time,
    isActive: bool,
    disabledReason: Option<Reason>,
    disabledAt: Option<Time>,
    failedCount: int,
    lastFailedAt: Option<Time>,
    lockedUntil: Option<Time>,
    authVersion: int)
  {
    predicate IsLocked(now: Time) {
      lockedUntil.Some? && lockedUntil.value > now
    }

    predicate Usable(now: Time) {
      isActive && !IsLocked(now) && verifiedAt.Some?
    }

    // RecordFailedLogin
    function Recorded(gap: int, now: Time): User {
      this.(failedCount := if lastFailedAt.None? || lastFailedAt.value < now - gap then 1 else failedCount + 1,
            lastFailedAt := Some(now))
    }

    // LockUserUntil
    function Locked(until: Time): User {
      this.(lockedUntil := Some(until), disabledReason := Some(FailedLoginAttempts))
    }

    // ResetLoginFailures
    function Cleared(): User {
      this.(failedCount := 0, lastFailedAt := None, lockedUntil := None,
            disabledReason := if disabledReason == Some(FailedLoginAttempts) then None else disabledReason)
    }

    // UpdateUserLastLogin
    function LoggedIn(now: Time): User {
      Cleared().(lastLoginAt := Some(now))
    }

    // RestoreUserAccess
    function Restored(now: Time): User {
      this.(isActive := true, verifiedAt := if verifiedAt.Some? then verifiedAt else Some(now),
            failedCount := 0, lastFailedAt := None, lockedUntil := None, disabledReason := None, disabledAt := None)
    }

    // DisableInactiveUsers: the WHERE clause, and the SET clause for a row it selects
    predicate InactiveSince(deadline: Time) {
      isActive && (if lastLoginAt.Some? then lastLoginAt.value else createdAt) < deadline
    }

    function Disabled(now: Time): User {
      this.(isActive := false, disabledReason := Some(Inactivity), disabledAt := Some(now))
    }
  }

  // The row CreateUser inserts, with the column defaults of the schema.
  function NewUser(email: string, now: Time): User {
    User(email, None, None, None, now, true, None, None, 0, None, None, 1)
  }

  datatype Token = Token(user: UserId, kind: TokenKind, expiresAt: Time, usedAt: Option<Time>)
  {
    predicate Live(now: Time) {
      usedAt.None? && expiresAt > now
    }
  }

  datatype Totp = Totp(secret: string, enabledAt: Option<Time>)

  datatype Identity = Identity(provider: string, subject: string)

  datatype Account = Account(user: UserId, sealedTokens: string)

  datatype Mail = Mail(kind: TokenKind, recipient: string, token: string, availableAt: Time)

  // The tables. `emails` is the unique index on users.email; `outbox` lists the e-mails in the order
  // they were enqueued.
  datatype Store = Store(
    now: Time,
    users: map<UserId, User>,
    emails: map<string, UserId>,
    tokens: map<string, Token>,
    totp: map<UserId, Totp>,
    accounts: map<Identity, Account>,
    outbox: seq<Mail>)

  // The answer of ConsumeUserToken: the owner of the one row its WHERE clause selects.
  function Lookup(s: Store, hash: string, kind: TokenKind): Option<UserId> {
    if hash in s.tokens && s.tokens[hash].kind == kind && s.tokens[hash].Live(s.now)
    then Some(s.tokens[hash].user) else None
  }

  // ExpireUserTokens
  function Expired(tokens: map<string, Token>, user: UserId, kind: TokenKind, now: Time): map<string, Token> {
    map h | h in tokens ::
      var t := tokens[h];
      if t.user == user && t.kind == kind && t.Live(now) then t.(expiresAt := now) else t
  }

  // DeleteExpiredUserTokens
  function WithoutExpired(tokens: map<string, Token>, now: Time): map<string, Token> {
    map h | h in tokens && !(tokens[h].expiresAt < now && tokens[h].usedAt.None?) :: tokens[h]
  }

  // DeleteUsedUserTokens
  function WithoutUsed(tokens: map<string, Token>): map<string, Token> {
    map h | h in tokens && tokens[h].usedAt.None? :: tokens[h]
  }

  // DisableInactiveUsers
  function WithoutInactive(users: map<UserId, User>, deadline: Time, now: Time): map<UserId, User> {
    map u | u in users :: if users[u].InactiveSince(deadline) then users[u].Disabled(now) else users[u]
  }

  // UNIQUE (user_id, provider): an upsert of `id` for `user` violates it when another identity of
  // the same provider already belongs to the user.
  ghost predicate ClashesWith(accounts: map<Identity, Account>, id: Identity, user: UserId) {
    exists other :: other in accounts && other != id && other.provider == id.provider && accounts[other].user == user
  }

  // ValidateSession on the tables: the session of `user` carrying `version` is accepted.
  predicate SessionValid(s: Store, user: UserId, version: int) {
    user != 0 && version != 0 && user in s.users && s.users[user].Usable(s.now) && s.users[user].authVersion == version
  }

  predicate TotpEnabled(s: Store, user: UserId) {
    user in s.totp && s.totp[user].enabledAt.Some?
  }
}
