// The account operations of the auth service. Each call is one atomic step at one instant. `faults`
// names the statements of the call that fail; a transaction with a failed statement is rolled back.
// Every public call is entered into `calls` and leaves what Calls.Effect says.
module AuthService {
  import opened Wrappers
  import opened Schema
  import opened Journal
  import opened AccountRows
  import opened OneTimeTokens
  import opened Queries
  import opened Calls
  import opened Outcomes
  import opened Provenance

  datatype Principal = Principal(user: UserId, version: int, totpEnabled: bool)

  // validateUserAccount
  function AccountError(row: User, now: Time): Option<Error> {
    if !row.isActive then Some(AccountDisabled)
    else if row.IsLocked(now) then Some(AccountLocked)
    else if row.verifiedAt.None? then Some(EmailUnverified)
    else None
  }

  lemma FailedStep(cfg: Config, s: Store, u: UserId, lockError: bool)
    requires u in s.users && s.users[u].Usable(s.now) && s.users[u].Recorded(cfg.Gap(), s.now).failedCount <= MAX_INT32
    requires lockError ==> s.users[u].Recorded(cfg.Gap(), s.now).failedCount >= cfg.failedLoginThreshold
    ensures var c := Fail(u, s.now, lockError);
            && Allowed(cfg, s, c)
            && Do(cfg, s, c) == s.(users := s.users[u := FailedRow(cfg, s.users[u], s.now, lockError)])
  {
  }

  lemma IssueStep(cfg: Config, s: Store, u: UserId, kind: TokenKind, token: string, recipient: string)
    requires u in s.users && recipient == s.users[u].email && cfg.crypto.hashToken(token) !in s.tokens
    requires forall h :: h in s.tokens && s.tokens[h].user == u && s.tokens[h].kind == kind ==>
               !s.tokens[h].Live(s.now)
    ensures var c := Issue(u, kind, token, recipient, s.now);
            && Allowed(cfg, s, c)
            && Do(cfg, s, c) ==
                 s.(tokens := s.tokens[cfg.crypto.hashToken(token) :=
                                         Token(u, kind, s.now + cfg.TokenTTL(kind), None)],
                    outbox := s.outbox + [Mail(kind, recipient, token, s.now - SECOND)])
  {
  }

  class Service {
    const cfg: Config
    const q: Tables

    // What holds after every statement.
    ghost predicate InStep()
      reads this, q
    {
      cfg.Accepted() && q.Valid(cfg)
    }

    // What holds between two calls: the history is what the calls have left.
    ghost predicate Valid()
      reads this, q
    {
      InStep() && q.journal == History(cfg, q.calls)
    }

    constructor (cfg: Config, q: Tables)
      requires cfg.Accepted() && q.Valid(cfg) && q.journal == History(cfg, q.calls)
      ensures Valid() && this.cfg == cfg && this.q == q
    {
      this.cfg, this.q := cfg, q;
    }

    // A call begins: what it has to leave in the history.
    ghost method Begin(c: Call)
      requires Valid()
      modifies q`calls
      ensures InStep() && q.calls == old(q.calls) + [c]
      ensures History(cfg, q.calls) == q.journal + Effect(cfg, q.State(), c)
    {
      OneMoreCall(cfg, q.calls, c);
      q.calls := q.calls + [c];
    }

    // A call whose outcome decides what it leaves is entered when it ends.
    ghost method End(s: Store, history: seq<Change>, c: Call)
      requires InStep() && history == History(cfg, q.calls) && s == Replay(cfg, history)
      requires q.journal == history + Effect(cfg, s, c)
      modifies q`calls
      ensures Valid() && q.calls == old(q.calls) + [c]
    {
      OneMoreCall(cfg, q.calls, c);
      q.calls := q.calls + [c];
    }

    // The clock moves on.
    method Wait(elapsed: nat)
      requires Valid()
      modifies q
      ensures Valid() && q.calls == old(q.calls) + [Call.Wait(elapsed)]
      ensures q.journal == old(q.journal) + [Tick(elapsed)] && q.now == old(q.now) + elapsed
    {
      hide History, Replay, Legal;
      Begin(Call.Wait(elapsed));
      q.now := q.now + elapsed;
      q.Log(cfg, Tick(elapsed));
    }

    // ---- The statements a call is made of, each with its place in the history ----

    method StoreNewPassword(u: UserId, hash: string, fault: bool) returns (r: Result<(), Error>)
      requires InStep() && u in q.users
      modifies q`users, q`journal
      ensures InStep() && u in q.users && q.users[u].email == old(q.users)[u].email
      ensures r == if fault then Failure(Database) else Success(())
      ensures q.journal == old(q.journal) + if fault then [] else [SetPassword(u, hash)]
    {
      r := q.SetUserPasswordHash(u, hash, fault);
      if r.Success? {
        q.Log(cfg, SetPassword(u, hash));
      }
    }

    method BumpVersion(u: UserId, fault: bool) returns (r: Result<(), Error>)
      requires InStep() && u in q.users
      modifies q`users, q`journal
      ensures InStep() && u in q.users
      ensures r == if fault then Failure(Database) else Success(())
      ensures q.journal == old(q.journal) + if fault then [] else [Revoke(u)]
    {
      var version := q.IncrementUserAuthVersion(u, fault);
      r := if fault then Failure(Database) else Success(());
      if version.Success? {
        q.Log(cfg, Revoke(u));
      }
    }

    method ClearFailures(u: UserId, fault: bool) returns (r: Result<(), Error>)
      requires InStep() && u in q.users
      modifies q`users, q`journal
      ensures InStep() && u in q.users
      ensures r == if fault then Failure(Database) else Success(())
      ensures q.journal == old(q.journal) + if fault then [] else [Clear(u)]
    {
      r := q.ResetLoginFailures(u, fault);
      if r.Success? {
        q.Log(cfg, Clear(u));
      }
    }

    method GiveBackAccess(u: UserId, fault: bool) returns (r: Result<(), Error>)
      requires InStep() && u in q.users
      modifies q`users, q`journal
      ensures InStep() && u in q.users
      ensures r == if fault then Failure(Database) else Success(())
      ensures q.journal == old(q.journal) + if fault then [] else [Restore(u)]
    {
      r := q.RestoreUserAccess(u, fault);
      if r.Success? {
        q.Log(cfg, Restore(u));
      }
    }

    method VerifyAddress(u: UserId, fault: bool) returns (r: Result<(), Error>)
      requires InStep() && u in q.users
      modifies q`users, q`journal
      ensures InStep() && u in q.users
      ensures r == if fault then Failure(Database) else Success(())
      ensures q.journal == old(q.journal) + if fault then [] else [Verify(u)]
      ensures r.Success? ==> q.users == old(q.users)[u := old(q.users)[u].(verifiedAt := Some(q.now))]
    {
      r := q.MarkUserEmailVerified(u, fault);
      if r.Success? {
        q.Log(cfg, Verify(u));
      }
    }

    method RemoveTotp(u: UserId, fault: bool) returns (r: Result<(), Error>)
      requires InStep()
      modifies q`totp, q`journal
      ensures InStep()
      ensures r == if fault then Failure(Database) else Success(())
      ensures q.journal == old(q.journal) + if fault then [] else [DropTotp(u)]
      ensures q.totp == if fault then old(q.totp) else old(q.totp) - {u}
    {
      r := q.DeleteTotpConfiguration(u, fault);
      if r.Success? {
        q.Log(cfg, DropTotp(u));
      }
    }

    method MarkLogin(u: UserId, fault: bool) returns (r: Result<(), Error>)
      requires InStep() && u in q.users && q.users[u].Usable(q.now)
      modifies q`users, q`journal
      ensures InStep()
      ensures r == if fault then Failure(Database) else Success(())
      ensures q.journal == old(q.journal) + if fault then [] else [Touch(u)]
      ensures q.users == if fault then old(q.users) else old(q.users)[u := old(q.users)[u].LoggedIn(q.now)]
    {
      r := q.UpdateUserLastLogin(u, fault);
      if r.Success? {
        q.Log(cfg, Touch(u));
      }
    }

    // ExpireUserTokens, so that no token of the user and kind stays live.
    method RetireTokens(u: UserId, kind: TokenKind, fault: bool) returns (r: Result<(), Error>)
      requires InStep()
      modifies q`tokens, q`journal
      ensures InStep()
      ensures r == if fault then Failure(Database) else Success(())
      ensures q.journal == old(q.journal) + if fault then [] else [Expire(u, kind)]
      ensures q.tokens.Keys == old(q.tokens.Keys)
      ensures !fault ==>
        forall h :: h in q.tokens && q.tokens[h].user == u && q.tokens[h].kind == kind ==> !q.tokens[h].Live(q.now)
    {
      r := q.ExpireUserTokens(u, kind, fault);
      if r.Success? {
        q.Log(cfg, Expire(u, kind));
      }
    }

    // CreateUserToken and EnqueueEmail: a token and the e-mail that carries it.
    method IssueToken(u: UserId, kind: TokenKind, token: string, recipient: string, faults: Faults)
      returns (r: Result<(), Error>)
      requires InStep() && u in q.users && recipient == q.users[u].email
      requires forall h :: h in q.tokens && q.tokens[h].user == u && q.tokens[h].kind == kind ==>
                 !q.tokens[h].Live(q.now)
      modifies q`tokens, q`outbox, q`journal
      ensures r.Success? <==> cfg.crypto.hashToken(token) !in old(q.tokens) && faults !! {CreateToken, Enqueue}
      ensures r.Success? ==> InStep() && q.journal == old(q.journal) + [Issue(u, kind, token, recipient, q.now)]
    {
      hide History, Replay, Legal, Do, Allowed;
      ghost var s := q.State();
      r := q.CreateUserToken(u, kind, cfg.crypto.hashToken(token), q.now + cfg.TokenTTL(kind), CreateToken in faults);
      if r.Failure? { return; }
      r := q.EnqueueEmail(Mail(kind, recipient, token, q.now - SECOND), Enqueue in faults);
      if r.Success? {
        IssueStep(cfg, s, u, kind, token, recipient);
        q.Log(cfg, Issue(u, kind, token, recipient, q.now));
      }
    }

    method AddUser(email: string, fault: bool) returns (r: Result<UserId, Error>)
      requires InStep()
      modifies q`users, q`emails, q`nextUser, q`journal
      ensures InStep()
      ensures r.Success? <==> !fault && email !in old(q.emails)
      ensures r.Success? ==>
        && r.value == old(q.nextUser) && r.value !in old(q.users)
        && q.users == old(q.users)[r.value := NewUser(email, q.now)]
        && q.journal == old(q.journal) + [Change.CreateUser(r.value, email)]
      ensures r.Failure? ==> q.journal == old(q.journal) && q.State() == old(q.State())
      ensures q.nextUser == old(q.nextUser) + 1
    {
      r := q.CreateUser(email, fault);
      if r.Success? {
        q.Log(cfg, Change.CreateUser(r.value, email));
      }
    }

    method StoreSecret(u: UserId, secret: string, fault: bool) returns (r: Result<(), Error>)
      requires InStep() && u in q.users && !TotpEnabled(q.State(), u)
      modifies q`totp, q`journal
      ensures InStep()
      ensures r == if fault then Failure(Database) else Success(())
      ensures q.journal == old(q.journal) + if fault then [] else [PutSecret(u, secret)]
      ensures q.totp == if fault then old(q.totp) else old(q.totp)[u := Totp(secret, None)]
    {
      r := q.UpsertTotpConfiguration(u, secret, fault);
      if r.Success? {
        q.Log(cfg, PutSecret(u, secret));
      }
    }

    method EnableSecret(u: UserId, ghost code: string, fault: bool) returns (r: Result<(), Error>)
      requires InStep() && u in q.totp && cfg.crypto.totpValid(q.totp[u].secret, code, q.now)
      modifies q`totp, q`journal
      ensures InStep()
      ensures r == if fault then Failure(Database) else Success(())
      ensures q.journal == old(q.journal) + if fault then [] else [EnableTotp(u, code, q.now)]
      ensures q.totp == if fault then old(q.totp) else old(q.totp)[u := old(q.totp)[u].(enabledAt := Some(q.now))]
    {
      r := q.EnableTotpConfiguration(u, fault);
      if r.Success? {
        q.Log(cfg, EnableTotp(u, code, q.now));
      }
    }

    method DisableUnused(deadline: Time, fault: bool) returns (r: Result<(), Error>)
      requires InStep()
      modifies q`users, q`journal
      ensures InStep()
      ensures r == if fault then Failure(Database) else Success(())
      ensures q.journal == old(q.journal) + if fault then [] else [DisableInactive(deadline)]
      ensures fault ==> q.State() == old(q.State())
    {
      r := q.DisableInactiveUsers(deadline, fault);
      if r.Success? {
        q.Log(cfg, DisableInactive(deadline));
      }
    }

    // A principal of the account leaves the service.
    ghost method HandOut(u: UserId, version: int, factor: Factor)
      requires InStep() && u in q.users && q.users[u].Usable(q.now) && q.users[u].authVersion == version
      requires factor.Password? && TotpEnabled(q.State(), u) ==>
        cfg.crypto.totpValid(q.totp[u].secret, factor.code, q.now)
      modifies q`journal
      ensures InStep() && q.journal == old(q.journal) + [Grant(u, version, factor, q.now)]
    {
      q.Log(cfg, Grant(u, version, factor, q.now));
    }

    method UseToken(hash: string, kind: TokenKind, fault: bool) returns (r: Result<UserId, Error>)
      requires InStep()
      modifies q`tokens, q`journal
      ensures InStep()
      ensures fault ==> r == Failure(Database)
      ensures !fault ==>
        r == match Lookup(old(q.State()), hash, kind) case Some(u) => Success(u) case None => Failure(RequestFailed)
      ensures r.Success? ==> r.value in q.users && q.journal == old(q.journal) + [Consume(hash, kind, r.value)]
      ensures r.Failure? ==> q.journal == old(q.journal) && q.tokens == old(q.tokens)
    {
      TokensAreTraced(cfg, q.journal, hash);
      r := q.ConsumeUserToken(hash, kind, fault);
      if r.Failure? {
        return Failure(if r.error == NoRows then RequestFailed else r.error);
      }
      q.Log(cfg, Consume(hash, kind, r.value));
    }

    method HandleFailedLogin(u: UserId, faults: Faults) returns (r: Result<(), Error>)
      requires InStep() && u in q.users && q.users[u].Usable(q.now)
      modifies q`users, q`journal
      ensures InStep()
      ensures q.journal == old(q.journal) + FailureOf(cfg, old(q.State()), u, faults)
      ensures r.Success? <==> FailureOf(cfg, old(q.State()), u, faults) == [Fail(u, old(q.now), false)]
      ensures r.Success? ==> WasRefused(cfg, old(q.State()), q.State(), u)
      ensures faults !! {RecordFailure, LockUser} && old(q.users)[u].failedCount < MAX_INT32 ==> r.Success?
    {
      hide Legal, Replay, Do;
      ghost var s, history := q.State(), q.journal;
      var updated := q.RecordFailedLogin(u, cfg.Gap(), RecordFailure in faults);
      if updated.Failure? {
        return Failure(updated.error);
      }
      r := Success(());
      if updated.value.failedCount >= cfg.failedLoginThreshold {
        r := q.LockUserUntil(u, q.now + cfg.failedLoginWindow, LockUser in faults);
      }
      FailedStep(cfg, s, u, r.Failure?);
      q.Log(cfg, Fail(u, s.now, r.Failure?));
      if r.Success? {
        FailOutcome(cfg, history, [Fail(u, s.now, false)], u);
      }
    }

    method ValidateSecondFactor(u: UserId, code: string, faults: Faults) returns (r: Result<(), Error>)
      ensures r.Success? <==> SecondFactorOk(cfg, q.State(), u, code, faults)
      ensures GetTotp !in faults && Decrypt !in faults && r.Failure? ==>
        r.error == if code == "" then TotpRequired else InvalidTotp
    {
      var row := q.GetTotpConfiguration(u, GetTotp in faults);
      if row.Failure? {
        return if row.error == NoRows then Success(()) else Failure(row.error);
      }
      if row.value.enabledAt.None? { return Success(()); }
      if Decrypt in faults { return Failure(Database); }
      if code == "" { return Failure(TotpRequired); }
      if !cfg.crypto.totpValid(row.value.secret, code, q.now) { return Failure(InvalidTotp); }
      return Success(());
    }

    method PrincipalWithFactors(u: UserId, version: int, ghost factor: Factor, faults: Faults)
      returns (r: Result<Principal, Error>)
      requires InStep() && u in q.users && q.users[u].Usable(q.now) && q.users[u].authVersion == version
      requires factor.Password? && TotpEnabled(q.State(), u) ==>
        cfg.crypto.totpValid(q.totp[u].secret, factor.code, q.now)
      modifies q`journal
      ensures InStep()
      ensures r.Success? <==> RereadTotp !in faults
      ensures r.Success? ==> r.value == Principal(u, version, TotpEnabled(q.State(), u))
      ensures q.journal == old(q.journal) + if r.Success? then [Grant(u, version, factor, q.now)] else []
    {
      hide History, Replay, Legal, Do, Allowed;
      var config := q.GetTotpConfiguration(u, RereadTotp in faults);
      if config.Failure? && config.error != NoRows { return Failure(config.error); }
      r := Success(Principal(u, version, config.Success? && config.value.enabledAt.Some?));
      HandOut(u, version, factor);
    }

    method CompleteUserAuthentication(u: UserId, updateLastLogin: bool, ghost factor: Factor, faults: Faults)
      returns (r: Result<Principal, Error>)
      requires InStep()
      requires factor.Password? && TotpEnabled(q.State(), u) ==>
        cfg.crypto.totpValid(q.totp[u].secret, factor.code, q.now)
      modifies q`users, q`journal
      ensures InStep()
      ensures r.Success? <==>
        && u in old(q.users) && old(q.users)[u].Usable(old(q.now)) && GetUserByID !in faults
        && ListRoles !in faults && RereadTotp !in faults
        && (updateLastLogin ==> UpdateLogin !in faults && RereadUser !in faults)
      ensures r.Success? ==>
        && r.value == Principal(u, old(q.users)[u].authVersion, TotpEnabled(old(q.State()), u))
        && Open(old(q.users)[u], q.now)
      ensures r.Success? && updateLastLogin ==> WasLoggedIn(old(q.State()), q.State(), u)
      ensures GetUserByID !in faults && u in old(q.users) && AccountError(old(q.users)[u], old(q.now)).Some? ==>
        r == Failure(AccountError(old(q.users)[u], old(q.now)).value)
      ensures r.Failure? && !updateLastLogin ==> q.journal == old(q.journal) && q.State() == old(q.State())
      ensures r.Success? && !updateLastLogin ==>
        q.journal == old(q.journal) + [Grant(u, r.value.version, factor, old(q.now))]
      ensures updateLastLogin && u in old(q.users) && old(q.users)[u].Usable(old(q.now)) ==>
        q.journal == old(q.journal) + LoginOf(old(q.State()), u, factor, faults)
      ensures updateLastLogin && !(u in old(q.users) && old(q.users)[u].Usable(old(q.now))) ==>
        q.journal == old(q.journal) && q.State() == old(q.State())
    {
      hide History, Replay, Legal, Do, Allowed;
      ghost var s := q.State();
      var user := q.GetUserByID(u, GetUserByID in faults);
      if user.Failure? { return Failure(user.error); }
      var account := AccountError(user.value, q.now);
      if account.Some? { return Failure(account.value); }
      if updateLastLogin {
        var updated := MarkLogin(u, UpdateLogin in faults);
        if updated.Failure? { return Failure(updated.error); }
        user := q.GetUserByID(u, RereadUser in faults);
        if user.Failure? { return Failure(user.error); }
      }
      if ListRoles in faults { return Failure(Database); }
      r := PrincipalWithFactors(u, user.value.authVersion, factor, faults);
      if r.Success? && updateLastLogin {
        ghost var block := [Touch(u), Grant(u, r.value.version, factor, s.now)];
        assert q.journal == old(q.journal) + block;
        LoginOutcome(cfg, old(q.journal), block, u, r.value.version, factor);
      }
    }

    // A password login. `admitted` is the verdict of the rate limiter.
    method LoginWithPassword(email: string, password: string, code: string, admitted: bool, faults: Faults)
      returns (r: Result<Principal, Error>)
      requires Valid()
      modifies q`users, q`journal, q`calls
      ensures Valid() && q.calls == old(q.calls) + [Login(email, password, code, admitted, faults)]
      // Nothing is written before the password is judged.
      ensures !Judged(old(q.State()), email, admitted, faults) ==>
        r.Failure? && q.journal == old(q.journal) && q.State() == old(q.State())
      // A wrong password or second factor is counted.
      ensures Judged(old(q.State()), email, admitted, faults) ==>
        var s := old(q.State()); var u := Candidate(s, email).value;
        if !Proven(cfg, s, u, password, code, faults)
        then r.Failure? && q.journal == old(q.journal) + FailureOf(cfg, s, u, faults)
        else
          && q.journal == old(q.journal) + LoginOf(s, u, Password(code), faults)
          && (r.Success? <==> faults !! {GetUserByID, UpdateLogin} + AFTER_LOGIN)
          && (r.Success? ==> r.value == Principal(u, s.users[u].authVersion, TotpEnabled(s, u)))
      // In the terms of the row: who gets in, who is counted, and who is told why.
      ensures r.Success? ==>
        var s := old(q.State()); var u := r.value.user;
        && email in s.emails && s.emails[email] == u && u in s.users && Open(s.users[u], s.now)
        && s.users[u].passwordHash.Some? && cfg.crypto.passwordMatches(password, s.users[u].passwordHash.value)
        && FactorGiven(cfg, s, u, code) && WasLoggedIn(s, q.State(), u)
      ensures admitted && faults == {} && Candidate(old(q.State()), email).Some? ==>
        var s := old(q.State()); var u := Candidate(s, email).value; var row := s.users[u];
        if Open(row, s.now)
        then
          if cfg.crypto.passwordMatches(password, row.passwordHash.value) && FactorGiven(cfg, s, u, code)
          then r.Success?
          else r.Failure? && (row.failedCount < MAX_INT32 ==> WasRefused(cfg, s, q.State(), u))
        else
          && q.State() == s
          && r == Failure(if !row.isActive then AccountDisabled
                          else if row.lockedUntil.Some? && row.lockedUntil.value > s.now then AccountLocked
                          else EmailUnverified)
      // Nobody gets in before the address was confirmed or the account recovered, whatever the password.
      ensures admitted && faults == {} && Candidate(old(q.State()), email).Some? ==>
        var u := Candidate(old(q.State()), email).value; var row := old(q.users)[u];
        Verify(u) !in old(q.journal) && Change.Restore(u) !in old(q.journal) ==>
          row.isActive && (row.lockedUntil.None? || row.lockedUntil.value <= old(q.now)) ==>
            r == Failure(EmailUnverified)
      // The reasons for a refusal.
      ensures !admitted ==> r == Failure(RateLimited)
      ensures admitted && GetUserWithPassword !in faults && ComparePassword !in faults ==>
        var s := old(q.State());
        match Candidate(s, email)
        case None => r == Failure(InvalidCredentials)
        case Some(u) =>
          && (AccountError(s.users[u], s.now).Some? ==> r == Failure(AccountError(s.users[u], s.now).value))
          && (s.users[u].Usable(s.now) && FailureOf(cfg, s, u, faults) == [Fail(u, s.now, false)] ==>
                if !cfg.crypto.passwordMatches(password, s.users[u].passwordHash.value)
                then r == Failure(InvalidCredentials)
                else faults !! {GetTotp, Decrypt} && !SecondFactorOk(cfg, s, u, code, faults) ==>
                  r == Failure(if code == "" then TotpRequired else InvalidTotp))
    {
      hide History, Replay, Legal, Do, Allowed;
      Begin(Login(email, password, code, admitted, faults));
      if !admitted { return Failure(RateLimited); }
      if GetUserWithPassword in faults { return Failure(Database); }
      if email !in q.emails || q.emails[email] !in q.users || q.users[q.emails[email]].passwordHash.None? {
        if ComparePassword in faults { return Failure(Database); }
        return Failure(InvalidCredentials);
      }
      var u := q.emails[email];
      VerifiedIff(cfg, q.journal, u);
      var user := q.users[u];
      if ComparePassword in faults { return Failure(Database); }
      var matched := cfg.crypto.passwordMatches(password, user.passwordHash.value);
      if !user.isActive { return Failure(AccountDisabled); }
      if user.IsLocked(q.now) { return Failure(AccountLocked); }
      if user.verifiedAt.None? { return Failure(EmailUnverified); }
      if !matched {
        var handled := HandleFailedLogin(u, faults);
        return if handled.Failure? then Failure(handled.error) else Failure(InvalidCredentials);
      }
      var second := ValidateSecondFactor(u, code, faults);
      if second.Failure? {
        var handled := HandleFailedLogin(u, faults);
        return if handled.Failure? then Failure(handled.error) else Failure(second.error);
      }
      r := CompleteUserAuthentication(u, true, Password(code), faults);
    }

    // FinishPasskeyLogin. `owner` is the user whose credential the ceremony has validated, None when it failed.
    method FinishPasskeyLogin(owner: Option<UserId>, faults: Faults) returns (r: Result<Principal, Error>)
      requires Valid()
      modifies q`users, q`journal, q`calls
      ensures Valid() && q.calls == old(q.calls) + [PasskeyLogin(owner, faults)]
      ensures r.Success? <==>
        && owner.Some? && owner.value in old(q.users) && old(q.users)[owner.value].Usable(old(q.now))
        && faults !! {GetUserByID, UpdateLogin} + AFTER_LOGIN
      ensures r.Success? ==>
        && Open(old(q.users)[owner.value], q.now) && WasLoggedIn(old(q.State()), q.State(), owner.value)
        && r.value.user == owner.value && r.value.version == old(q.users)[owner.value].authVersion
        && q.journal == old(q.journal) + [Touch(r.value.user), Grant(r.value.user, r.value.version, OtherFactor, q.now)]
    {
      hide History, Replay, Legal, Do, Allowed;
      Begin(PasskeyLogin(owner, faults));
      if owner.None? { return Failure(Unauthorized); }
      r := CompleteUserAuthentication(owner.value, true, OtherFactor, faults);
    }

    // ---- Confirmations: a one-time token, and what it entitles to, all or nothing ----

    // The outcome of the password hashing comes first: None is a password that is too short.
    method ResetPassword(token: string, newHash: Option<string>, faults: Faults) returns (r: Result<(), Error>)
      requires Valid()
      modifies q
      ensures Valid() && q.calls == old(q.calls) + [Call.ResetPassword(token, newHash, faults)]
      ensures var owner := Lookup(old(q.State()), cfg.crypto.hashToken(token), PasswordReset);
        && (r.Success? <==>
              (newHash.Some? && owner.Some?
               && faults !! {BeginTx, ConsumeToken, StorePassword, IncrementVersion, ResetFailures, CommitTx}))
        && (newHash.None? ==> r == Failure(WeakPassword))
        && (newHash.Some? && owner.None? && faults !! {BeginTx, ConsumeToken} ==> r == Failure(RequestFailed))
        && (r.Failure? ==> q.journal == old(q.journal) && q.State() == old(q.State()))
        && (r.Success? ==>
              q.journal == old(q.journal) +
                [Consume(cfg.crypto.hashToken(token), PasswordReset, owner.value),
                 SetPassword(owner.value, newHash.value), Revoke(owner.value), Clear(owner.value)])
      ensures r.Success? ==>
        var owner := Lookup(old(q.State()), cfg.crypto.hashToken(token), PasswordReset);
        owner.Some? && WasReset(old(q.State()), q.State(), cfg.crypto.hashToken(token), owner.value, newHash.value)
    {
      hide History, Replay, Legal, Do, Allowed;
      Begin(Call.ResetPassword(token, newHash, faults));
      if newHash.None? { return Failure(WeakPassword); }
      if BeginTx in faults { return Failure(Database); }
      var saved := q.State();
      ghost var history := q.journal;
      r := ResetBody(cfg.crypto.hashToken(token), newHash.value, faults);
      if r.Success? && CommitTx in faults { r := Failure(Database); }
      if r.Failure? {
        q.Restore(saved, history);
      } else {
        ghost var hash := cfg.crypto.hashToken(token);
        ResetOutcome(cfg, history, Effect(cfg, saved, Call.ResetPassword(token, newHash, faults)), hash,
                     Lookup(saved, hash, PasswordReset).value, newHash.value);
      }
    }

    method ResetBody(hash: string, newHash: string, faults: Faults) returns (r: Result<(), Error>)
      requires InStep()
      modifies q`users, q`tokens, q`journal
      ensures r.Success? <==>
        Lookup(old(q.State()), hash, PasswordReset).Some?
        && faults !! {ConsumeToken, StorePassword, IncrementVersion, ResetFailures}
      ensures Lookup(old(q.State()), hash, PasswordReset).None? && ConsumeToken !in faults ==>
        r == Failure(RequestFailed)
      ensures r.Success? ==>
        var u := Lookup(old(q.State()), hash, PasswordReset).value;
        InStep() && q.journal == old(q.journal) +
          [Consume(hash, PasswordReset, u), SetPassword(u, newHash), Revoke(u), Clear(u)]
    {
      hide History, Replay, Legal, Do, Allowed, Lookup;
      var owner := UseToken(hash, PasswordReset, ConsumeToken in faults);
      if owner.Failure? { return Failure(owner.error); }
      r := StoreNewPassword(owner.value, newHash, StorePassword in faults);
      if r.Failure? { return; }
      r := BumpVersion(owner.value, IncrementVersion in faults);
      if r.Failure? { return; }
      r := ClearFailures(owner.value, ResetFailures in faults);
    }

    method RecoverAccount(token: string, newHash: Option<string>, faults: Faults) returns (r: Result<(), Error>)
      requires Valid()
      modifies q
      ensures Valid() && q.calls == old(q.calls) + [Call.RecoverAccount(token, newHash, faults)]
      ensures var owner := Lookup(old(q.State()), cfg.crypto.hashToken(token), AccountRecovery);
        && (r.Success? <==>
              (newHash.Some? && owner.Some?
               && faults !! {BeginTx, ConsumeToken, StorePassword, RestoreAccess, DeleteTotp, IncrementVersion,
                             CommitTx}))
        && (newHash.None? ==> r == Failure(WeakPassword))
        && (newHash.Some? && owner.None? && faults !! {BeginTx, ConsumeToken} ==> r == Failure(RequestFailed))
        && (r.Failure? ==> q.journal == old(q.journal) && q.State() == old(q.State()))
        && (r.Success? ==>
              q.journal == old(q.journal) +
                [Consume(cfg.crypto.hashToken(token), AccountRecovery, owner.value),
                 SetPassword(owner.value, newHash.value), Restore(owner.value), DropTotp(owner.value),
                 Revoke(owner.value)])
      ensures r.Success? ==>
        var owner := Lookup(old(q.State()), cfg.crypto.hashToken(token), AccountRecovery);
        owner.Some? && WasRecovered(old(q.State()), q.State(), cfg.crypto.hashToken(token), owner.value, newHash.value)
    {
      hide History, Replay, Legal, Do, Allowed;
      Begin(Call.RecoverAccount(token, newHash, faults));
      if newHash.None? { return Failure(WeakPassword); }
      if BeginTx in faults { return Failure(Database); }
      var saved := q.State();
      ghost var history := q.journal;
      r := RecoverBody(cfg.crypto.hashToken(token), newHash.value, faults);
      if r.Success? && CommitTx in faults { r := Failure(Database); }
      if r.Failure? {
        q.Restore(saved, history);
      } else {
        ghost var hash := cfg.crypto.hashToken(token);
        RecoverOutcome(cfg, history, Effect(cfg, saved, Call.RecoverAccount(token, newHash, faults)), hash,
                     Lookup(saved, hash, AccountRecovery).value, newHash.value);
      }
    }

    method RecoverBody(hash: string, newHash: string, faults: Faults) returns (r: Result<(), Error>)
      requires InStep()
      modifies q`users, q`tokens, q`totp, q`journal
      ensures r.Success? <==>
        Lookup(old(q.State()), hash, AccountRecovery).Some?
        && faults !! {ConsumeToken, StorePassword, RestoreAccess, DeleteTotp, IncrementVersion}
      ensures Lookup(old(q.State()), hash, AccountRecovery).None? && ConsumeToken !in faults ==>
        r == Failure(RequestFailed)
      ensures r.Success? ==>
        var u := Lookup(old(q.State()), hash, AccountRecovery).value;
        InStep() && q.journal == old(q.journal) +
          [Consume(hash, AccountRecovery, u), SetPassword(u, newHash), Restore(u), DropTotp(u), Revoke(u)]
    {
      hide History, Replay, Legal, Do, Allowed, Lookup;
      var owner := UseToken(hash, AccountRecovery, ConsumeToken in faults);
      if owner.Failure? { return Failure(owner.error); }
      r := StoreNewPassword(owner.value, newHash, StorePassword in faults);
      if r.Failure? { return; }
      r := GiveBackAccount(owner.value, faults);
    }

    // The second half of a recovery: the account is open again, without its second factor and its sessions.
    method GiveBackAccount(u: UserId, faults: Faults) returns (r: Result<(), Error>)
      requires InStep() && u in q.users
      modifies q`users, q`totp, q`journal
      ensures r.Success? <==> faults !! {RestoreAccess, DeleteTotp, IncrementVersion}
      ensures r.Success? ==> InStep() && q.journal == old(q.journal) + [Restore(u), DropTotp(u), Revoke(u)]
    {
      hide History, Replay, Legal, Do, Allowed, Lookup;
      r := GiveBackAccess(u, RestoreAccess in faults);
      if r.Failure? { return; }
      r := RemoveTotp(u, DeleteTotp in faults);
      if r.Failure? { return; }
      r := BumpVersion(u, IncrementVersion in faults);
    }

    method VerifyEmail(token: string, faults: Faults) returns (r: Result<(), Error>)
      requires Valid()
      modifies q
      ensures Valid() && q.calls == old(q.calls) + [Call.VerifyEmail(token, faults)]
      ensures var owner := Lookup(old(q.State()), cfg.crypto.hashToken(token), EmailVerification);
        && (r.Success? <==> owner.Some? && faults !! {BeginTx, ConsumeToken, MarkVerified, CommitTx})
        && (owner.None? && faults !! {BeginTx, ConsumeToken} ==> r == Failure(RequestFailed))
        && (r.Failure? ==> q.journal == old(q.journal) && q.State() == old(q.State()))
        && (r.Success? ==>
              q.journal == old(q.journal) +
                [Consume(cfg.crypto.hashToken(token), EmailVerification, owner.value), Verify(owner.value)])
      ensures r.Success? ==>
        var owner := Lookup(old(q.State()), cfg.crypto.hashToken(token), EmailVerification);
        owner.Some? && WasVerified(old(q.State()), q.State(), cfg.crypto.hashToken(token), owner.value)
    {
      hide History, Replay, Legal, Do, Allowed, Lookup;
      Begin(Call.VerifyEmail(token, faults));
      if BeginTx in faults { return Failure(Database); }
      var saved := q.State();
      ghost var history := q.journal;
      var owner := UseToken(cfg.crypto.hashToken(token), EmailVerification, ConsumeToken in faults);
      if owner.Failure? {
        r := Failure(owner.error);
      } else {
        r := VerifyAddress(owner.value, MarkVerified in faults);
      }
      if r.Success? && CommitTx in faults { r := Failure(Database); }
      if r.Failure? {
        q.Restore(saved, history);
      } else {
        ghost var block := Effect(cfg, saved, Call.VerifyEmail(token, faults));
        assert q.journal == history + block;
        VerifyOutcome(cfg, history, block, cfg.crypto.hashToken(token), owner.value);
      }
    }

    // ---- Registration and token requests ----

    method Register(email: string, newHash: Option<string>, token: string, faults: Faults)
      returns (r: Result<Principal, Error>)
      requires Valid()
      modifies q
      ensures Valid() && q.calls == old(q.calls) + [Call.Register(old(q.nextUser), email, newHash, token, faults)]
      ensures r.Success? <==>
        newHash.Some? && email !in old(q.emails) && cfg.crypto.hashToken(token) !in old(q.tokens)
        && faults !! {NewToken, BeginTx, InsertUser, StorePassword, AddRole, CreateToken, Enqueue, ListRoles, CommitTx}
      ensures newHash.None? ==> r == Failure(WeakPassword)
      ensures r.Failure? ==> q.journal == old(q.journal) && q.State() == old(q.State())
      ensures r.Success? ==>
        && r.value == Principal(old(q.nextUser), 1, false) && r.value.user !in old(q.users)
        && q.journal == old(q.journal) +
             [Change.CreateUser(r.value.user, email), SetPassword(r.value.user, newHash.value),
              Issue(r.value.user, EmailVerification, token, email, old(q.now))]
      ensures r.Success? ==>
        Registered(cfg, old(q.State()), q.State(), r.value.user, email, newHash.value, token)
    {
      hide History, Replay, Legal, Do, Allowed;
      Begin(Call.Register(q.nextUser, email, newHash, token, faults));
      if newHash.None? { return Failure(WeakPassword); }
      if {NewToken, BeginTx} * faults != {} { return Failure(Database); }
      var saved := q.State();
      ghost var history := q.journal;
      r := RegisterBody(email, newHash.value, token, faults);
      if r.Success? && CommitTx in faults { r := Failure(Database); }
      if r.Failure? {
        q.Restore(saved, history);
      } else {
        RegisterOutcome(cfg, history, Effect(cfg, saved, Call.Register(r.value.user, email, newHash, token, faults)),
                        r.value.user, email, newHash.value, token);
      }
    }

    // Tokens belong to registered users.
    lemma NoTokenOf(u: UserId)
      requires InStep() && u !in q.users
      ensures forall h :: h in q.tokens ==> q.tokens[h].user != u
    {
      forall h | h in q.tokens ensures q.tokens[h].user != u {
        TokensAreTraced(cfg, q.journal, h);
      }
    }

    method RegisterBody(email: string, newHash: string, token: string, faults: Faults)
      returns (r: Result<Principal, Error>)
      requires InStep()
      modifies q`users, q`emails, q`nextUser, q`tokens, q`outbox, q`journal
      ensures r.Success? <==>
        email !in old(q.emails) && cfg.crypto.hashToken(token) !in old(q.tokens)
        && faults !! {InsertUser, StorePassword, AddRole, CreateToken, Enqueue, ListRoles}
      ensures r.Success? ==>
        && r.value == Principal(old(q.nextUser), 1, false) && r.value.user !in old(q.users)
        && InStep() && q.journal == old(q.journal) +
             [Change.CreateUser(r.value.user, email), SetPassword(r.value.user, newHash),
              Issue(r.value.user, EmailVerification, token, email, old(q.now))]
      ensures q.nextUser >= old(q.nextUser)
    {
      hide History, Replay, Legal, Do, Allowed;
      NoTokenOf(q.nextUser);
      var user := AddUser(email, InsertUser in faults);
      if user.Failure? { return Failure(user.error); }
      var u := user.value;
      var stored := StoreNewPassword(u, newHash, StorePassword in faults);
      if stored.Failure? { return Failure(stored.error); }
      if AddRole in faults { return Failure(Database); }
      var issued := IssueToken(u, EmailVerification, token, email, faults);
      if issued.Failure? { return Failure(issued.error); }
      if ListRoles in faults { return Failure(Database); }
      return Success(Principal(u, 1, false));
    }

    // The transaction of a token request.
    method ReplaceToken(u: UserId, kind: TokenKind, token: string, faults: Faults) returns (r: Result<(), Error>)
      requires InStep() && u in q.users
      modifies q
      ensures InStep() && q.calls == old(q.calls)
      ensures r.Success? <==>
        cfg.crypto.hashToken(token) !in old(q.tokens)
        && faults !! {NewToken, BeginTx, ExpireTokens, CreateToken, Enqueue, CommitTx}
      ensures r.Success? ==>
        q.journal == old(q.journal) + [Expire(u, kind), Issue(u, kind, token, old(q.users)[u].email, old(q.now))]
      ensures r.Failure? ==> q.journal == old(q.journal) && q.State() == old(q.State())
      ensures r.Success? ==> WasRequested(cfg, old(q.State()), q.State(), u, kind, token)
    {
      hide History, Replay, Legal, Do, Allowed;
      if {NewToken, BeginTx} * faults != {} { return Failure(Database); }
      var saved := q.State();
      ghost var history := q.journal;
      r := RetireTokens(u, kind, ExpireTokens in faults);
      if r.Success? {
        r := IssueToken(u, kind, token, q.users[u].email, faults);
      }
      if r.Success? && CommitTx in faults { r := Failure(Database); }
      if r.Failure? {
        q.Restore(saved, history);
      } else {
        ghost var block := [Expire(u, kind), Issue(u, kind, token, q.users[u].email, q.now)];
        assert q.journal == history + block;
        RequestOutcome(cfg, history, block, u, kind, token, q.users[u].email);
      }
    }

    method RequestTokenEmail(email: string, kind: TokenKind, token: string, faults: Faults)
      returns (r: Result<(), Error>)
      requires Valid()
      modifies q
      ensures Valid() && q.calls == old(q.calls) + [Call.RequestTokenEmail(email, kind, token, faults)]
      ensures var u := Requester(old(q.State()), email, kind);
        && (r.Failure? || u.None? ==> q.journal == old(q.journal) && q.State() == old(q.State()))
        && (u.None? ==> (r.Success? <==> GetUserByEmail !in faults))
        && (u.Some? ==>
              (r.Success? <==>
                 (cfg.crypto.hashToken(token) !in old(q.tokens)
                  && faults !! {GetUserByEmail, NewToken, BeginTx, ExpireTokens, CreateToken, Enqueue, CommitTx})))
        && (u.Some? && r.Success? ==>
              q.journal == old(q.journal) + [Expire(u.value, kind), Issue(u.value, kind, token, email, old(q.now))])
      // A request changes nothing, or the tokens of the one account and kind it is about.
      ensures q.State() == old(q.State())
        || (email in old(q.emails) && WasRequested(cfg, old(q.State()), q.State(), old(q.emails)[email], kind, token))
      ensures email in old(q.emails) && faults == {} && cfg.crypto.hashToken(token) !in old(q.tokens) ==>
        var s := old(q.State()); var u := s.emails[email];
        && u in s.users
        && (kind != EmailVerification || s.users[u].verifiedAt.None? ==>
              r.Success? && WasRequested(cfg, s, q.State(), u, kind, token))
    {
      hide History, Replay, Legal, Do, Allowed;
      Begin(Call.RequestTokenEmail(email, kind, token, faults));
      AddressesAreUnique(cfg, q.journal);
      var user := q.GetUserByEmail(email, GetUserByEmail in faults);
      if user.Failure? {
        return if user.error == NoRows then Success(()) else Failure(user.error);
      }
      var u := user.value;
      if kind == EmailVerification && q.users[u].verifiedAt.Some? { return Success(()); }
      r := ReplaceToken(u, kind, token, faults);
    }

    // ---- Two-factor authentication ----

    // `secret` is the secret generated for the setup; it is stored encrypted, which the model leaves out.
    method BeginTOTPSetup(u: UserId, secret: string, faults: Faults) returns (r: Result<string, Error>)
      requires Valid()
      modifies q
      ensures Valid() && q.calls == old(q.calls) + [Call.BeginTOTPSetup(u, secret, faults)]
      ensures r.Success? <==>
        u in old(q.users) && !TotpEnabled(old(q.State()), u) && faults !! {GetUserByID, GetTotp, Encrypt, UpsertTotp}
      ensures u in old(q.users) && TotpEnabled(old(q.State()), u) && faults !! {GetUserByID, GetTotp} ==>
        r == Failure(TotpAlreadyEnabled)
      ensures r.Success? ==> r.value == secret && q.journal == old(q.journal) + [PutSecret(u, secret)]
      ensures r.Failure? ==> q.journal == old(q.journal) && q.State() == old(q.State())
      ensures r.Success? ==> q.totp == old(q.totp)[u := Totp(secret, None)]
    {
      hide History, Replay, Legal, Do, Allowed;
      Begin(Call.BeginTOTPSetup(u, secret, faults));
      var user := q.GetUserByID(u, GetUserByID in faults);
      if user.Failure? { return Failure(user.error); }
      var config := q.GetTotpConfiguration(u, GetTotp in faults);
      if config.Success? && config.value.enabledAt.Some? { return Failure(TotpAlreadyEnabled); }
      if config.Failure? && config.error != NoRows { return Failure(config.error); }
      if Encrypt in faults { return Failure(Database); }
      var stored := StoreSecret(u, secret, UpsertTotp in faults);
      if stored.Failure? { return Failure(stored.error); }
      return Success(secret);
    }

    method ConfirmTOTPSetup(u: UserId, code: string, faults: Faults) returns (r: Result<(), Error>)
      requires Valid()
      modifies q
      ensures Valid() && q.calls == old(q.calls) + [Call.ConfirmTOTPSetup(u, code, faults)]
      ensures r.Success? <==>
        u in old(q.totp) && cfg.crypto.totpValid(old(q.totp)[u].secret, code, old(q.now))
        && faults !! {GetTotp, Decrypt, BeginTx, MarkEnabled, CommitTx}
      ensures u in old(q.totp) && faults !! {GetTotp, Decrypt} ==>
        (r == Failure(InvalidTotp) <==> !cfg.crypto.totpValid(old(q.totp)[u].secret, code, old(q.now)))
      ensures r.Success? ==> q.journal == old(q.journal) + [EnableTotp(u, code, old(q.now))]
      ensures r.Failure? ==> q.journal == old(q.journal) && q.State() == old(q.State())
      ensures r.Success? ==> q.totp == old(q.totp)[u := Totp(old(q.totp)[u].secret, Some(old(q.now)))]
    {
      hide History, Replay, Legal, Do, Allowed;
      Begin(Call.ConfirmTOTPSetup(u, code, faults));
      var config := q.GetTotpConfiguration(u, GetTotp in faults);
      if config.Failure? { return Failure(config.error); }
      if Decrypt in faults { return Failure(Database); }
      if !cfg.crypto.totpValid(config.value.secret, code, q.now) { return Failure(InvalidTotp); }
      if BeginTx in faults { return Failure(Database); }
      var saved := q.State();
      ghost var history := q.journal;
      r := EnableSecret(u, code, MarkEnabled in faults);
      if r.Success? && CommitTx in faults { r := Failure(Database); }
      if r.Failure? { q.Restore(saved, history); }
    }

    method DisableTOTP(u: UserId, faults: Faults) returns (r: Result<(), Error>)
      requires Valid()
      modifies q
      ensures Valid() && q.calls == old(q.calls) + [Call.DisableTOTP(u, faults)]
      ensures r.Success? <==> faults !! {BeginTx, DeleteTotp, CommitTx}
      ensures r.Success? ==> q.journal == old(q.journal) + [DropTotp(u)]
      ensures r.Failure? ==> q.journal == old(q.journal) && q.State() == old(q.State())
      ensures r.Success? ==> q.totp == old(q.totp) - {u}
    {
      hide History, Replay, Legal, Do, Allowed;
      Begin(Call.DisableTOTP(u, faults));
      if BeginTx in faults { return Failure(Database); }
      var saved := q.State();
      ghost var history := q.journal;
      r := RemoveTotp(u, DeleteTotp in faults);
      if r.Success? && CommitTx in faults { r := Failure(Database); }
      if r.Failure? { q.Restore(saved, history); }
    }

    // ---- Sessions ----

    method CurrentUser(u: UserId, faults: Faults) returns (r: Result<Principal, Error>)
      requires Valid()
      modifies q`users, q`journal, q`calls
      ensures Valid() && q.calls == old(q.calls) + [Call.CurrentUser(u, faults)]
      ensures r.Success? <==>
        && u != 0 && u in old(q.users) && old(q.users)[u].Usable(old(q.now))
        && faults !! {GetUserByID, ListRoles, RereadTotp}
      ensures u == 0 ==> r == Failure(Unauthorized)
      ensures r.Failure? ==> q.journal == old(q.journal) && q.State() == old(q.State())
      ensures r.Success? ==>
        q.journal == old(q.journal) + [Grant(u, old(q.users)[u].authVersion, OtherFactor, old(q.now))]
      ensures r.Success? ==> Open(old(q.users)[u], old(q.now)) && r.value.user == u
    {
      hide History, Replay, Legal, Do, Allowed;
      Begin(Call.CurrentUser(u, faults));
      if u == 0 { return Failure(Unauthorized); }
      r := CompleteUserAuthentication(u, false, OtherFactor, faults);
    }

    method ValidateSession(u: UserId, version: int, fault: bool) returns (r: Result<bool, Error>)
      ensures r == if fault && u != 0 && version != 0 then Failure(Database)
                   else Success(SessionValid(q.State(), u, version))
      ensures !fault ==>
        r == Success(u != 0 && version != 0 && u in q.users && Open(q.users[u], q.now)
                     && q.users[u].authVersion == version)
    {
      if u == 0 || version == 0 { return Success(false); }
      var user := q.GetUserByID(u, fault);
      if user.Failure? {
        return if user.error == NoRows then Success(false) else Failure(user.error);
      }
      var usable := user.value.isActive && !user.value.IsLocked(q.now) && user.value.verifiedAt.Some?;
      return Success(usable && user.value.authVersion == version);
    }

    // ---- Periodic jobs ----

    // InactivityCheckWorker.Work
    method DisableInactiveAccounts(faults: Faults) returns (r: Result<(), Error>)
      requires Valid()
      modifies q
      ensures Valid() && q.calls == old(q.calls) + [Call.DisableInactiveAccounts(faults)]
      ensures r.Success? <==> DisableUsers !in faults
      ensures q.journal == old(q.journal) +
        if r.Success? then [DisableInactive(old(q.now) - cfg.inactivityDisableAfter)] else []
      ensures r.Success? ==>
        WereDisabled(old(q.State()), q.State(), old(q.now) - cfg.inactivityDisableAfter)
      ensures r.Failure? ==> q.State() == old(q.State())
    {
      hide History, Replay, Legal, Do, Allowed;
      Begin(Call.DisableInactiveAccounts(faults));
      var deadline := q.now - cfg.inactivityDisableAfter;
      r := DisableUnused(deadline, DisableUsers in faults);
      if r.Success? {
        DisableOutcome(cfg, old(q.journal), [DisableInactive(deadline)], deadline);
      }
    }

    method PurgeExpired(fault: bool)
      requires InStep()
      modifies q`tokens, q`journal
      ensures InStep() && q.journal == old(q.journal) + if fault then [] else [DeleteExpired]
    {
      q.DeleteExpiredUserTokens(fault);
      if !fault {
        q.Log(cfg, DeleteExpired);
      }
    }

    method PurgeUsed(fault: bool)
      requires InStep()
      modifies q`tokens, q`journal
      ensures InStep() && q.journal == old(q.journal) + if fault then [] else [DeleteUsed]
    {
      q.DeleteUsedUserTokens(fault);
      if !fault {
        q.Log(cfg, DeleteUsed);
      }
    }

    // CleanupWorker.Work, the token deletions: a failed one does not keep the other from running
    method CleanTokens(faults: Faults)
      requires Valid()
      modifies q`tokens, q`journal, q`calls
      ensures Valid() && q.calls == old(q.calls) + [Call.CleanTokens(faults)]
      ensures q.journal == old(q.journal)
        + (if DeleteExpiredTokens in faults then [] else [DeleteExpired])
        + (if DeleteUsedTokens in faults then [] else [DeleteUsed])
      ensures faults !! {DeleteExpiredTokens, DeleteUsedTokens} ==> WereCleaned(old(q.State()), q.State())
    {
      hide History, Replay, Legal, Do, Allowed;
      Begin(Call.CleanTokens(faults));
      PurgeExpired(DeleteExpiredTokens in faults);
      PurgeUsed(DeleteUsedTokens in faults);
      if faults !! {DeleteExpiredTokens, DeleteUsedTokens} {
        assert q.journal == old(q.journal) + [DeleteExpired, DeleteUsed];
        CleanOutcome(cfg, old(q.journal), [DeleteExpired, DeleteUsed]);
      }
    }
  }
}
