// What the changes of one call have made of the tables when the call is over, field by field.
module Outcomes {
  import opened Wrappers
  import opened Schema
  import opened Journal

  // ---- A block of changes, taken apart ----

  lemma LastStep(cfg: Config, j: seq<Change>, c: Change)
    requires Legal(cfg, j + [c])
    ensures Legal(cfg, j) && Allowed(cfg, Replay(cfg, j), c)
    ensures Replay(cfg, j + [c]) == Do(cfg, Replay(cfg, j), c)
  {
    assert (j + [c])[..|j|] == j;
  }

  lemma TwoSteps(cfg: Config, j: seq<Change>, a: Change, b: Change)
    requires Legal(cfg, j + [a, b])
    ensures Legal(cfg, j) && Allowed(cfg, Replay(cfg, j), a) && Allowed(cfg, Do(cfg, Replay(cfg, j), a), b)
    ensures Replay(cfg, j + [a, b]) == Do(cfg, Do(cfg, Replay(cfg, j), a), b)
  {
    hide Replay, Legal, Allowed, Do;
    assert j + [a] + [b] == j + [a, b];
    LastStep(cfg, j + [a], b);
    LastStep(cfg, j, a);
  }

  lemma ThreeSteps(cfg: Config, j: seq<Change>, a: Change, b: Change, c: Change)
    requires Legal(cfg, j + [a, b, c])
    ensures Legal(cfg, j) && Allowed(cfg, Replay(cfg, j), a)
    ensures var s := Do(cfg, Replay(cfg, j), a);
            && Allowed(cfg, s, b) && Allowed(cfg, Do(cfg, s, b), c)
            && Replay(cfg, j + [a, b, c]) == Do(cfg, Do(cfg, s, b), c)
  {
    hide Replay, Legal, Allowed, Do;
    assert j + [a, b] + [c] == j + [a, b, c];
    LastStep(cfg, j + [a, b], c);
    TwoSteps(cfg, j, a, b);
  }

  lemma FourSteps(cfg: Config, j: seq<Change>, a: Change, b: Change, c: Change, d: Change)
    requires Legal(cfg, j + [a, b, c, d])
    ensures Legal(cfg, j) && Allowed(cfg, Replay(cfg, j), a)
    ensures var s := Do(cfg, Replay(cfg, j), a);
            && Allowed(cfg, s, b) && Allowed(cfg, Do(cfg, s, b), c) && Allowed(cfg, Do(cfg, Do(cfg, s, b), c), d)
            && Replay(cfg, j + [a, b, c, d]) == Do(cfg, Do(cfg, Do(cfg, s, b), c), d)
  {
    hide Replay, Legal, Allowed, Do;
    assert j + [a, b, c] + [d] == j + [a, b, c, d];
    LastStep(cfg, j + [a, b, c], d);
    ThreeSteps(cfg, j, a, b, c);
  }

  lemma FiveSteps(cfg: Config, j: seq<Change>, a: Change, b: Change, c: Change, d: Change, e: Change)
    requires Legal(cfg, j + [a, b, c, d, e])
    ensures Legal(cfg, j) && Allowed(cfg, Replay(cfg, j), a)
    ensures var s := Do(cfg, Replay(cfg, j), a);
            && Allowed(cfg, s, b) && Allowed(cfg, Do(cfg, s, b), c) && Allowed(cfg, Do(cfg, Do(cfg, s, b), c), d)
            && Allowed(cfg, Do(cfg, Do(cfg, Do(cfg, s, b), c), d), e)
            && Replay(cfg, j + [a, b, c, d, e]) == Do(cfg, Do(cfg, Do(cfg, Do(cfg, s, b), c), d), e)
  {
    hide Replay, Legal, Allowed, Do;
    assert j + [a, b, c, d] + [e] == j + [a, b, c, d, e];
    LastStep(cfg, j + [a, b, c, d], e);
    FourSteps(cfg, j, a, b, c, d);
  }

  // ---- What the calls achieve ----

  // Everyone but u has the row and the second factor of before.
  ghost predicate OnlyFor(u: UserId, s: Store, t: Store) {
    && (forall x :: x in s.users && x != u ==> x in t.users && t.users[x] == s.users[x])
    && (forall x :: x in t.users && x != u ==> x in s.users)
    && (forall x :: x in s.totp && x != u ==> x in t.totp && t.totp[x] == s.totp[x])
    && (forall x :: x in t.totp && x != u ==> x in s.totp)
  }

  // The token is used up, and no other token has changed.
  ghost predicate UsedUp(hash: string, s: Store, t: Store) {
    && hash in s.tokens && t.tokens == s.tokens[hash := s.tokens[hash].(usedAt := Some(s.now))]
  }

  // A new account: not verified, never logged in, and with a live verification token.
  ghost predicate Registered(cfg: Config, s: Store, t: Store, u: UserId, email: string, newHash: string,
                             token: string)
  {
    && u !in s.users && u in t.users && OnlyFor(u, s, t)
    && t.users[u] == User(email, Some(newHash), None, None, s.now, true, None, None, 0, None, None, 1)
    && t.tokens == s.tokens[cfg.crypto.hashToken(token) :=
                              Token(u, EmailVerification, s.now + cfg.emailVerificationTTL, None)]
    && t.outbox == s.outbox + [Mail(EmailVerification, email, token, s.now - 1_000_000_000)]
  }

  lemma RegisterDone(cfg: Config, s: Store, u: UserId, email: string, newHash: string, token: string, at: Time)
    requires Allowed(cfg, s, CreateUser(u, email))
    requires var s1 := Do(cfg, s, CreateUser(u, email));
             Allowed(cfg, s1, SetPassword(u, newHash)) &&
             var s2 := Do(cfg, s1, SetPassword(u, newHash));
             Allowed(cfg, s2, Issue(u, EmailVerification, token, email, at))
    ensures var s1 := Do(cfg, s, CreateUser(u, email));
            var s2 := Do(cfg, s1, SetPassword(u, newHash));
            var s3 := Do(cfg, s2, Issue(u, EmailVerification, token, email, at));
            Registered(cfg, s, s3, u, email, newHash, token)
  {
  }

  lemma RegisterOutcome(cfg: Config, j: seq<Change>, block: seq<Change>,
                         u: UserId, email: string, newHash: string, token: string)
    requires block == [CreateUser(u, email), SetPassword(u, newHash),
                       Issue(u, EmailVerification, token, email, Replay(cfg, j).now)]
    requires Legal(cfg, j + block)
    ensures Registered(cfg, Replay(cfg, j), Replay(cfg, j + block), u, email, newHash, token)
  {
    hide Replay, Legal, Allowed, Do, Registered;
    assert j + block == j + [block[0], block[1], block[2]];
    ThreeSteps(cfg, j, block[0], block[1], block[2]);
    RegisterDone(cfg, Replay(cfg, j), u, email, newHash, token, Replay(cfg, j).now);
  }

  // A reset: a new password and version, no failures and no lock; what disabled the account still does.
  ghost predicate WasReset(s: Store, t: Store, hash: string, u: UserId, newHash: string) {
    && u in s.users && u in t.users && OnlyFor(u, s, t) && UsedUp(hash, s, t) && t.totp == s.totp
    && var row, now := s.users[u], t.users[u];
       && now.passwordHash == Some(newHash) && now.authVersion == row.authVersion + 1
       && now.failedCount == 0 && now.lastFailedAt.None? && now.lockedUntil.None?
       && now.isActive == row.isActive && now.disabledAt == row.disabledAt
       && now.verifiedAt == row.verifiedAt && now.lastLoginAt == row.lastLoginAt && now.email == row.email
  }

  lemma ResetDone(cfg: Config, s: Store, hash: string, u: UserId, newHash: string)
    requires Allowed(cfg, s, Consume(hash, PasswordReset, u))
    requires var s1 := Do(cfg, s, Consume(hash, PasswordReset, u));
             Allowed(cfg, s1, SetPassword(u, newHash)) &&
             var s2 := Do(cfg, s1, SetPassword(u, newHash));
             Allowed(cfg, s2, Revoke(u)) &&
             var s3 := Do(cfg, s2, Revoke(u));
             Allowed(cfg, s3, Clear(u))
    ensures var s1 := Do(cfg, s, Consume(hash, PasswordReset, u));
            var s2 := Do(cfg, s1, SetPassword(u, newHash));
            var s3 := Do(cfg, s2, Revoke(u));
            var s4 := Do(cfg, s3, Clear(u));
            WasReset(s, s4, hash, u, newHash)
  {
  }

  lemma ResetOutcome(cfg: Config, j: seq<Change>, block: seq<Change>, hash: string, u: UserId, newHash: string)
    requires block == [Consume(hash, PasswordReset, u), SetPassword(u, newHash), Revoke(u), Clear(u)]
    requires Legal(cfg, j + block)
    ensures WasReset(Replay(cfg, j), Replay(cfg, j + block), hash, u, newHash)
  {
    hide Replay, Legal, Allowed, Do, WasReset;
    assert j + block == j + [block[0], block[1], block[2], block[3]];
    FourSteps(cfg, j, block[0], block[1], block[2], block[3]);
    ResetDone(cfg, Replay(cfg, j), hash, u, newHash);
  }

  // A recovery: besides, the account is active and verified, and has no second factor.
  ghost predicate WasRecovered(s: Store, t: Store, hash: string, u: UserId, newHash: string) {
    && u in s.users && u in t.users && OnlyFor(u, s, t) && UsedUp(hash, s, t) && u !in t.totp
    && var row, now := s.users[u], t.users[u];
       && now.passwordHash == Some(newHash) && now.authVersion == row.authVersion + 1
       && now.failedCount == 0 && now.lastFailedAt.None? && now.lockedUntil.None?
       && now.isActive && now.disabledAt.None? && now.disabledReason.None?
       && now.verifiedAt == (if row.verifiedAt.Some? then row.verifiedAt else Some(s.now))
       && now.lastLoginAt == row.lastLoginAt && now.email == row.email
  }

  lemma RecoverDone(cfg: Config, s: Store, hash: string, u: UserId, newHash: string)
    requires Allowed(cfg, s, Consume(hash, AccountRecovery, u))
    requires var s1 := Do(cfg, s, Consume(hash, AccountRecovery, u));
             Allowed(cfg, s1, SetPassword(u, newHash)) &&
             var s2 := Do(cfg, s1, SetPassword(u, newHash));
             Allowed(cfg, s2, Restore(u)) &&
             var s3 := Do(cfg, s2, Restore(u));
             Allowed(cfg, s3, DropTotp(u)) &&
             var s4 := Do(cfg, s3, DropTotp(u));
             Allowed(cfg, s4, Revoke(u))
    ensures var s1 := Do(cfg, s, Consume(hash, AccountRecovery, u));
            var s2 := Do(cfg, s1, SetPassword(u, newHash));
            var s3 := Do(cfg, s2, Restore(u));
            var s4 := Do(cfg, s3, DropTotp(u));
            var s5 := Do(cfg, s4, Revoke(u));
            WasRecovered(s, s5, hash, u, newHash)
  {
  }

  lemma RecoverOutcome(cfg: Config, j: seq<Change>, block: seq<Change>, hash: string, u: UserId, newHash: string)
    requires block == [Consume(hash, AccountRecovery, u), SetPassword(u, newHash), Restore(u), DropTotp(u),
                       Revoke(u)]
    requires Legal(cfg, j + block)
    ensures WasRecovered(Replay(cfg, j), Replay(cfg, j + block), hash, u, newHash)
  {
    hide Replay, Legal, Allowed, Do, WasRecovered;
    assert j + block == j + [block[0], block[1], block[2], block[3], block[4]];
    FiveSteps(cfg, j, block[0], block[1], block[2], block[3], block[4]);
    RecoverDone(cfg, Replay(cfg, j), hash, u, newHash);
  }

  // A confirmed address: the account is verified, and nothing else about it has changed.
  ghost predicate WasVerified(s: Store, t: Store, hash: string, u: UserId) {
    && u in s.users && OnlyFor(u, s, t) && UsedUp(hash, s, t) && t.totp == s.totp
    && u in t.users && t.users[u] == s.users[u].(verifiedAt := Some(s.now))
  }

  lemma VerifyDone(cfg: Config, s: Store, hash: string, u: UserId)
    requires Allowed(cfg, s, Consume(hash, EmailVerification, u))
    requires var s1 := Do(cfg, s, Consume(hash, EmailVerification, u));
             Allowed(cfg, s1, Verify(u))
    ensures var s1 := Do(cfg, s, Consume(hash, EmailVerification, u));
            var s2 := Do(cfg, s1, Verify(u));
            WasVerified(s, s2, hash, u)
  {
  }

  lemma VerifyOutcome(cfg: Config, j: seq<Change>, block: seq<Change>, hash: string, u: UserId)
    requires block == [Consume(hash, EmailVerification, u), Verify(u)] && Legal(cfg, j + block)
    ensures WasVerified(Replay(cfg, j), Replay(cfg, j + block), hash, u)
  {
    hide Replay, Legal, Allowed, Do, WasVerified;
    assert j + block == j + [block[0], block[1]];
    TwoSteps(cfg, j, block[0], block[1]);
    VerifyDone(cfg, Replay(cfg, j), hash, u);
  }

  // Who may log in: an active account that is not locked, with a confirmed address.
  predicate Open(row: User, now: Time) {
    && row.isActive && row.verifiedAt.Some?
    && (row.lockedUntil.None? || row.lockedUntil.value <= now)
  }

  // The code that an enabled second factor asks for.
  predicate FactorGiven(cfg: Config, s: Store, u: UserId, code: string) {
    u in s.totp && s.totp[u].enabledAt.Some? ==> code != "" && cfg.crypto.totpValid(s.totp[u].secret, code, s.now)
  }

  // A login: its date, and no failures and no lock; password, version, verification and second factor stay.
  ghost predicate WasLoggedIn(s: Store, t: Store, u: UserId) {
    && u in s.users && u in t.users && OnlyFor(u, s, t) && t.totp == s.totp && t.tokens == s.tokens
    && var row, now := s.users[u], t.users[u];
       && now.lastLoginAt == Some(s.now)
       && now.failedCount == 0 && now.lastFailedAt.None? && now.lockedUntil.None?
       && now.passwordHash == row.passwordHash && now.authVersion == row.authVersion
       && now.isActive == row.isActive && now.verifiedAt == row.verifiedAt && now.email == row.email
  }

  lemma LoginDone(cfg: Config, s: Store, u: UserId, version: int, factor: Factor, at: Time)
    requires Allowed(cfg, s, Touch(u))
    requires var s1 := Do(cfg, s, Touch(u));
             Allowed(cfg, s1, Grant(u, version, factor, at))
    ensures var s1 := Do(cfg, s, Touch(u));
            var s2 := Do(cfg, s1, Grant(u, version, factor, at));
            WasLoggedIn(s, s2, u)
  {
  }

  lemma LoginOutcome(cfg: Config, j: seq<Change>, block: seq<Change>, u: UserId, version: int, factor: Factor)
    requires block == [Touch(u), Grant(u, version, factor, Replay(cfg, j).now)] && Legal(cfg, j + block)
    ensures WasLoggedIn(Replay(cfg, j), Replay(cfg, j + block), u)
  {
    hide Replay, Legal, Allowed, Do, WasLoggedIn;
    assert j + block == j + [block[0], block[1]];
    TwoSteps(cfg, j, block[0], block[1]);
    LoginDone(cfg, Replay(cfg, j), u, version, factor, Replay(cfg, j).now);
  }

  // A counted failure: one more, or the first after a gap of whole seconds; at the threshold the account is
  // locked for the window.
  ghost predicate WasRefused(cfg: Config, s: Store, t: Store, u: UserId) {
    && u in s.users && u in t.users && OnlyFor(u, s, t) && t.totp == s.totp && t.tokens == s.tokens
    && var row, now := s.users[u], t.users[u];
       var seconds := if cfg.failedLoginWindow / 1_000_000_000 < 1 then 1 else cfg.failedLoginWindow / 1_000_000_000;
       && now.failedCount ==
            (if row.lastFailedAt.Some? && s.now - row.lastFailedAt.value <= seconds * 1_000_000_000
             then row.failedCount + 1 else 1)
       && now.lastFailedAt == Some(s.now)
       && now.lockedUntil == (if now.failedCount >= cfg.failedLoginThreshold
                              then Some(s.now + cfg.failedLoginWindow) else row.lockedUntil)
       && now.passwordHash == row.passwordHash && now.authVersion == row.authVersion
       && now.isActive == row.isActive && now.verifiedAt == row.verifiedAt && now.lastLoginAt == row.lastLoginAt
  }

  lemma FailDone(cfg: Config, s: Store, u: UserId, at: Time)
    requires Allowed(cfg, s, Fail(u, at, false))
    ensures WasRefused(cfg, s, Do(cfg, s, Fail(u, at, false)), u)
  {
  }

  lemma FailOutcome(cfg: Config, j: seq<Change>, block: seq<Change>, u: UserId)
    requires block == [Fail(u, Replay(cfg, j).now, false)] && Legal(cfg, j + block)
    ensures WasRefused(cfg, Replay(cfg, j), Replay(cfg, j + block), u)
  {
    hide Replay, Legal, Allowed, Do, WasRefused;
    assert j + block == j + [block[0]];
    LastStep(cfg, j, block[0]);
    FailDone(cfg, Replay(cfg, j), u, Replay(cfg, j).now);
  }

  // A token request: the tokens of the user and kind are dead, but for the new one, and all others are as they
  // were; the accounts have not changed.
  ghost predicate WasRequested(cfg: Config, s: Store, t: Store, u: UserId, kind: TokenKind, token: string) {
    var h := cfg.crypto.hashToken(token);
    && h !in s.tokens && t.users == s.users && t.totp == s.totp && t.tokens.Keys == s.tokens.Keys + {h}
    && t.tokens[h] == Token(u, kind, s.now + (match kind
                                              case PasswordReset => cfg.passwordResetTTL
                                              case EmailVerification => cfg.emailVerificationTTL
                                              case AccountRecovery => cfg.recoveryTTL), None)
    && (forall g :: g in s.tokens && (s.tokens[g].user != u || s.tokens[g].kind != kind) ==>
          t.tokens[g] == s.tokens[g])
    && (forall g :: g in s.tokens && s.tokens[g].user == u && s.tokens[g].kind == kind ==> !t.tokens[g].Live(s.now))
  }

  lemma RequestDone(cfg: Config, s: Store, u: UserId, kind: TokenKind, token: string, email: string, at: Time)
    requires Allowed(cfg, s, Expire(u, kind))
    requires var s1 := Do(cfg, s, Expire(u, kind));
             Allowed(cfg, s1, Issue(u, kind, token, email, at))
    ensures var s1 := Do(cfg, s, Expire(u, kind));
            var s2 := Do(cfg, s1, Issue(u, kind, token, email, at));
            WasRequested(cfg, s, s2, u, kind, token)
  {
  }

  lemma RequestOutcome(cfg: Config, j: seq<Change>, block: seq<Change>,
                         u: UserId, kind: TokenKind, token: string, email: string)
    requires block == [Expire(u, kind), Issue(u, kind, token, email, Replay(cfg, j).now)] && Legal(cfg, j + block)
    ensures WasRequested(cfg, Replay(cfg, j), Replay(cfg, j + block), u, kind, token)
  {
    hide Replay, Legal, Allowed, Do, WasRequested;
    assert j + block == j + [block[0], block[1]];
    TwoSteps(cfg, j, block[0], block[1]);
    RequestDone(cfg, Replay(cfg, j), u, kind, token, email, Replay(cfg, j).now);
  }

  // The bulk update: the active accounts whose last login, or else creation, is before the deadline are
  // disabled, and all others are as they were.
  ghost predicate WereDisabled(s: Store, t: Store, deadline: Time) {
    && t.users.Keys == s.users.Keys
    && forall u :: u in s.users ==>
         var row := s.users[u];
         if row.isActive && (match row.lastLoginAt case Some(at) => at < deadline case None => row.createdAt < deadline)
         then
           && !t.users[u].isActive
           && t.users[u].disabledAt == Some(s.now) && t.users[u].disabledReason == Some(Inactivity)
         else t.users[u] == row
  }

  lemma DisableDone(cfg: Config, s: Store, deadline: Time)
    requires Allowed(cfg, s, DisableInactive(deadline))
    ensures WereDisabled(s, Do(cfg, s, DisableInactive(deadline)), deadline)
  {
  }

  lemma DisableOutcome(cfg: Config, j: seq<Change>, block: seq<Change>, deadline: Time)
    requires block == [DisableInactive(deadline)] && Legal(cfg, j + block)
    ensures WereDisabled(Replay(cfg, j), Replay(cfg, j + block), deadline)
  {
    hide Replay, Legal, Allowed, Do, WereDisabled;
    assert j + block == j + [block[0]];
    LastStep(cfg, j, block[0]);
    DisableDone(cfg, Replay(cfg, j), deadline);
  }

  // The cleanup: what is left is unused and not expired, and that is untouched.
  ghost predicate WereCleaned(s: Store, t: Store) {
    && (forall h :: h in t.tokens <==> h in s.tokens && s.tokens[h].usedAt.None? && s.tokens[h].expiresAt >= s.now)
    && (forall h :: h in t.tokens ==> t.tokens[h] == s.tokens[h])
    && t.users == s.users && t.totp == s.totp && t.accounts == s.accounts && t.outbox == s.outbox
  }

  lemma CleanDone(cfg: Config, s: Store)
    requires Allowed(cfg, s, DeleteExpired)
    requires var s1 := Do(cfg, s, DeleteExpired);
             Allowed(cfg, s1, DeleteUsed)
    ensures var s1 := Do(cfg, s, DeleteExpired);
            var s2 := Do(cfg, s1, DeleteUsed);
            WereCleaned(s, s2)
  {
  }

  lemma CleanOutcome(cfg: Config, j: seq<Change>, block: seq<Change>)
    requires block == [DeleteExpired, DeleteUsed] && Legal(cfg, j + block)
    ensures WereCleaned(Replay(cfg, j), Replay(cfg, j + block))
  {
    hide Replay, Legal, Allowed, Do, WereCleaned;
    assert j + block == j + [block[0], block[1]];
    TwoSteps(cfg, j, block[0], block[1]);
    CleanDone(cfg, Replay(cfg, j));
  }

  // A completed OAuth flow: the identity belongs to u, who is a user of before or, in a flow without a user, a
  // new and verified one. A login leaves its mark, a link none.
  ghost predicate WasLinked(s: Store, t: Store, id: Identity, u: UserId, email: string, login: bool,
                            sealedTokens: string)
  {
    && OnlyFor(u, s, t) && t.totp == s.totp && t.tokens == s.tokens && t.outbox == s.outbox
    && t.accounts == s.accounts[id := Account(u, sealedTokens)]
    && u in t.users && t.users[u].isActive && t.users[u].verifiedAt.Some?
    && (t.users[u].lockedUntil.None? || t.users[u].lockedUntil.value <= s.now)
    && (login ==> t.users[u].lastLoginAt == Some(s.now))
    && (!login ==> t.users == s.users)
    && (u in s.users ==>
          && t.emails == s.emails && Open(s.users[u], s.now)
          && t.users[u].passwordHash == s.users[u].passwordHash && t.users[u].authVersion == s.users[u].authVersion
          && t.users[u].verifiedAt == s.users[u].verifiedAt && t.users[u].email == s.users[u].email)
    && (u !in s.users ==>
          && login && email !in s.emails && t.emails == s.emails[email := u]
          && t.users[u] == User(email, None, Some(s.now), Some(s.now), s.now, true, None, None, 0, None, None, 1))
  }

  lemma LinkedDone(cfg: Config, s: Store, id: Identity, u: UserId, email: string, sealedTokens: string, version: int)
    requires Allowed(cfg, s, Link(id, u, sealedTokens))
    requires var s1 := Do(cfg, s, Link(id, u, sealedTokens)); Allowed(cfg, s1, Grant(u, version, OtherFactor, s.now))
    ensures var s1 := Do(cfg, s, Link(id, u, sealedTokens));
            WasLinked(s, Do(cfg, s1, Grant(u, version, OtherFactor, s.now)), id, u, email, false, sealedTokens)
  {
  }

  lemma LoggedInDone(cfg: Config, s: Store, id: Identity, u: UserId, email: string, sealedTokens: string, version: int)
    requires Allowed(cfg, s, Link(id, u, sealedTokens))
    requires var s1 := Do(cfg, s, Link(id, u, sealedTokens));
             Allowed(cfg, s1, Touch(u)) &&
             var s2 := Do(cfg, s1, Touch(u));
             Allowed(cfg, s2, Grant(u, version, OtherFactor, s.now))
    ensures var s1 := Do(cfg, s, Link(id, u, sealedTokens)); var s2 := Do(cfg, s1, Touch(u));
            WasLinked(s, Do(cfg, s2, Grant(u, version, OtherFactor, s.now)), id, u, email, true, sealedTokens)
  {
  }

  lemma CreatedDone(cfg: Config, s: Store, id: Identity, u: UserId, email: string, sealedTokens: string, version: int)
    requires Allowed(cfg, s, CreateUser(u, email))
    requires var s1 := Do(cfg, s, CreateUser(u, email));
             Allowed(cfg, s1, Verify(u)) &&
             var s2 := Do(cfg, s1, Verify(u));
             Allowed(cfg, s2, Link(id, u, sealedTokens)) &&
             var s3 := Do(cfg, s2, Link(id, u, sealedTokens));
             Allowed(cfg, s3, Touch(u)) &&
             var s4 := Do(cfg, s3, Touch(u));
             Allowed(cfg, s4, Grant(u, version, OtherFactor, s.now))
    ensures var s1 := Do(cfg, s, CreateUser(u, email)); var s2 := Do(cfg, s1, Verify(u));
            var s3 := Do(cfg, s2, Link(id, u, sealedTokens)); var s4 := Do(cfg, s3, Touch(u));
            WasLinked(s, Do(cfg, s4, Grant(u, version, OtherFactor, s.now)), id, u, email, true, sealedTokens)
  {
  }

  lemma FlowOutcome(cfg: Config, j: seq<Change>, block: seq<Change>, id: Identity, u: UserId, email: string,
                    login: bool, sealedTokens: string, version: int)
    requires var grant := Grant(u, version, OtherFactor, Replay(cfg, j).now);
             || (login && block == [CreateUser(u, email), Verify(u), Link(id, u, sealedTokens), Touch(u), grant])
             || (login && block == [Link(id, u, sealedTokens), Touch(u), grant])
             || (!login && block == [Link(id, u, sealedTokens), grant])
    requires Legal(cfg, j + block)
    ensures WasLinked(Replay(cfg, j), Replay(cfg, j + block), id, u, email, login, sealedTokens)
  {
    hide Replay, Legal, Allowed, Do, WasLinked;
    if |block| == 5 {
      assert j + block == j + [block[0], block[1], block[2], block[3], block[4]];
      FiveSteps(cfg, j, block[0], block[1], block[2], block[3], block[4]);
      CreatedDone(cfg, Replay(cfg, j), id, u, email, sealedTokens, version);
    } else if |block| == 3 {
      assert j + block == j + [block[0], block[1], block[2]];
      ThreeSteps(cfg, j, block[0], block[1], block[2]);
      LoggedInDone(cfg, Replay(cfg, j), id, u, email, sealedTokens, version);
    } else {
      assert j + block == j + [block[0], block[1]];
      TwoSteps(cfg, j, block[0], block[1]);
      LinkedDone(cfg, Replay(cfg, j), id, u, email, sealedTokens, version);
    }
  }
}
