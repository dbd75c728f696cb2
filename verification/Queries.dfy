// The SQL statements the auth service runs, over the tables they overwrite in place. Every statement
// may fail for reasons of the database; `fault` says that it does, and a failed statement changes nothing.
module Queries {
  import opened Wrappers
  import opened Schema
  import opened Journal
  import opened Calls

  datatype Error =
    | Database | NoRows
    | InvalidCredentials | AccountLocked | AccountDisabled | EmailUnverified | RequestFailed
    | TotpRequired | InvalidTotp | TotpAlreadyEnabled | Unauthorized | WeakPassword | RateLimited
    | OAuthProvider | OAuthState | OAuthConflict | OAuthProfile

  class Tables {
    var now: Time
    var users: map<UserId, User>
    var emails: map<string, UserId>
    var tokens: map<string, Token>
    var totp: map<UserId, Totp>
    var accounts: map<Identity, Account>
    var outbox: seq<Mail>
    // The identity column of users; a rolled-back transaction does not give its value back.
    var nextUser: UserId
    // The changes committed so far, and the calls so far.
    ghost var journal: seq<Change>
    ghost var calls: seq<Call>

    function State(): Store
      reads this
    {
      Store(now, users, emails, tokens, totp, accounts, outbox)
    }

    // The tables are what the journal says, and every change of the journal was allowed.
    ghost predicate Valid(cfg: Config)
      reads this
    {
      && Legal(cfg, journal)
      && State() == Replay(cfg, journal)
      && nextUser > 0
      && forall u :: u in users ==> u < nextUser
    }

    constructor (ghost cfg: Config)
      ensures Valid(cfg) && journal == [] && calls == []
      ensures State() == EMPTY && nextUser == 1
    {
      now, nextUser := 0, 1;
      users, emails, tokens, totp, accounts, outbox := map[], map[], map[], map[], map[], [];
      journal, calls := [], [];
    }

    // Records that the statements since the last entry made the change c.
    ghost method Log(cfg: Config, c: Change)
      requires Legal(cfg, journal) && Allowed(cfg, Replay(cfg, journal), c)
      requires State() == Do(cfg, Replay(cfg, journal), c)
      modifies this`journal
      ensures journal == old(journal) + [c]
      ensures Legal(cfg, journal) && State() == Replay(cfg, journal)
    {
      Extend(cfg, journal, c);
      journal := journal + [c];
    }

    // Rollback: the tables and the history as they were when the transaction began.
    method Restore(saved: Store, ghost history: seq<Change>)
      modifies this
      ensures State() == saved && journal == history && nextUser == old(nextUser) && calls == old(calls)
    {
      now, users, emails, tokens := saved.now, saved.users, saved.emails, saved.tokens;
      totp, accounts, outbox := saved.totp, saved.accounts, saved.outbox;
      journal := history;
    }

    // ---- Reads ----

    method GetUserByID(id: UserId, fault: bool) returns (r: Result<User, Error>)
      ensures r == if fault then Failure(Database) else if id in users then Success(users[id]) else Failure(NoRows)
    {
      r := if fault then Failure(Database) else if id in users then Success(users[id]) else Failure(NoRows);
    }

    method GetUserByEmail(email: string, fault: bool) returns (r: Result<UserId, Error>)
      ensures r == if fault then Failure(Database)
                   else if email in emails && emails[email] in users then Success(emails[email]) else Failure(NoRows)
    {
      r := if fault then Failure(Database)
           else if email in emails && emails[email] in users then Success(emails[email]) else Failure(NoRows);
    }

    method GetTotpConfiguration(id: UserId, fault: bool) returns (r: Result<Totp, Error>)
      ensures r == if fault then Failure(Database) else if id in totp then Success(totp[id]) else Failure(NoRows)
    {
      r := if fault then Failure(Database) else if id in totp then Success(totp[id]) else Failure(NoRows);
    }

    // ---- Users ----

    method CreateUser(email: string, fault: bool) returns (r: Result<UserId, Error>)
      requires nextUser > 0 && forall u :: u in users ==> u < nextUser
      modifies this`users, this`emails, this`nextUser
      ensures r.Failure? <==> fault || email in old(emails)
      ensures r.Failure? ==> r.error == Database && users == old(users) && emails == old(emails)
      ensures r.Success? ==>
        && r.value == old(nextUser)
        && users == old(users)[r.value := NewUser(email, now)] && emails == old(emails)[email := r.value]
      ensures nextUser == old(nextUser) + 1 && forall u :: u in users ==> u < nextUser
    {
      var id := nextUser;
      nextUser := nextUser + 1;
      if fault || email in emails {
        return Failure(Database);
      }
      users, emails := users[id := NewUser(email, now)], emails[email := id];
      return Success(id);
    }

    method SetUserPasswordHash(id: UserId, hash: string, fault: bool) returns (r: Result<(), Error>)
      modifies this`users
      ensures r == if fault then Failure(Database) else if id in old(users) then Success(()) else Failure(NoRows)
      ensures users == if r.Success? then old(users)[id := old(users)[id].(passwordHash := Some(hash))] else old(users)
    {
      if fault { return Failure(Database); }
      if id !in users { return Failure(NoRows); }
      users := users[id := users[id].(passwordHash := Some(hash))];
      return Success(());
    }

    method MarkUserEmailVerified(id: UserId, fault: bool) returns (r: Result<(), Error>)
      modifies this`users
      ensures r == if fault then Failure(Database) else Success(())
      ensures users == if !fault && id in old(users)
                       then old(users)[id := old(users)[id].(verifiedAt := Some(now))] else old(users)
    {
      if fault { return Failure(Database); }
      if id in users {
        users := users[id := users[id].(verifiedAt := Some(now))];
      }
      return Success(());
    }

    // The counter is a 32-bit column: counting past its largest value is an error.
    method RecordFailedLogin(id: UserId, gap: int, fault: bool) returns (r: Result<User, Error>)
      modifies this`users
      ensures r.Success? <==> !fault && id in old(users) && old(users)[id].Recorded(gap, now).failedCount <= MAX_INT32
      ensures r.Success? ==>
        r.value == old(users)[id].Recorded(gap, now) && users == old(users)[id := r.value]
      ensures r.Failure? ==> users == old(users)
    {
      if fault { return Failure(Database); }
      if id !in users { return Failure(NoRows); }
      var row := users[id].Recorded(gap, now);
      if row.failedCount > MAX_INT32 { return Failure(Database); }
      users := users[id := row];
      return Success(row);
    }

    method LockUserUntil(id: UserId, until: Time, fault: bool) returns (r: Result<(), Error>)
      modifies this`users
      ensures r == if fault then Failure(Database) else Success(())
      ensures users == if !fault && id in old(users) then old(users)[id := old(users)[id].Locked(until)] else old(users)
    {
      if fault { return Failure(Database); }
      if id in users {
        users := users[id := users[id].Locked(until)];
      }
      return Success(());
    }

    method ResetLoginFailures(id: UserId, fault: bool) returns (r: Result<(), Error>)
      modifies this`users
      ensures r == if fault then Failure(Database) else Success(())
      ensures users == if !fault && id in old(users) then old(users)[id := old(users)[id].Cleared()] else old(users)
    {
      if fault { return Failure(Database); }
      if id in users {
        users := users[id := users[id].Cleared()];
      }
      return Success(());
    }

    method UpdateUserLastLogin(id: UserId, fault: bool) returns (r: Result<(), Error>)
      modifies this`users
      ensures r == if fault then Failure(Database) else Success(())
      ensures users == if !fault && id in old(users) then old(users)[id := old(users)[id].LoggedIn(now)] else old(users)
    {
      if fault { return Failure(Database); }
      if id in users {
        users := users[id := users[id].LoggedIn(now)];
      }
      return Success(());
    }

    method RestoreUserAccess(id: UserId, fault: bool) returns (r: Result<(), Error>)
      modifies this`users
      ensures r == if fault then Failure(Database) else Success(())
      ensures users == if !fault && id in old(users) then old(users)[id := old(users)[id].Restored(now)] else old(users)
    {
      if fault { return Failure(Database); }
      if id in users {
        users := users[id := users[id].Restored(now)];
      }
      return Success(());
    }

    method IncrementUserAuthVersion(id: UserId, fault: bool) returns (r: Result<int, Error>)
      modifies this`users
      ensures r.Success? <==> !fault && id in old(users)
      ensures r.Success? ==>
        && r.value == old(users)[id].authVersion + 1
        && users == old(users)[id := old(users)[id].(authVersion := r.value)]
      ensures r.Failure? ==> users == old(users)
    {
      if fault { return Failure(Database); }
      if id !in users { return Failure(NoRows); }
      var version := users[id].authVersion + 1;
      users := users[id := users[id].(authVersion := version)];
      return Success(version);
    }

    method DisableInactiveUsers(deadline: Time, fault: bool) returns (r: Result<(), Error>)
      modifies this`users
      ensures r == if fault then Failure(Database) else Success(())
      ensures users == if fault then old(users) else WithoutInactive(old(users), deadline, now)
    {
      if fault { return Failure(Database); }
      users := WithoutInactive(users, deadline, now);
      return Success(());
    }

    // ---- Tokens ----

    method CreateUserToken(user: UserId, kind: TokenKind, hash: string, expiresAt: Time, fault: bool)
      returns (r: Result<(), Error>)
      modifies this`tokens
      ensures r == if fault || hash in old(tokens) || user !in users then Failure(Database) else Success(())
      ensures tokens == if r.Success? then old(tokens)[hash := Token(user, kind, expiresAt, None)] else old(tokens)
    {
      if fault || hash in tokens || user !in users { return Failure(Database); }
      tokens := tokens[hash := Token(user, kind, expiresAt, None)];
      return Success(());
    }

    method ConsumeUserToken(hash: string, kind: TokenKind, fault: bool) returns (r: Result<UserId, Error>)
      modifies this`tokens
      ensures fault ==> r == Failure(Database)
      ensures !fault ==>
        r == match Lookup(old(State()), hash, kind) case Some(u) => Success(u) case None => Failure(NoRows)
      ensures tokens == if r.Success? then old(tokens)[hash := old(tokens)[hash].(usedAt := Some(now))] else old(tokens)
    {
      if fault { return Failure(Database); }
      if hash in tokens && tokens[hash].kind == kind && tokens[hash].usedAt.None? && tokens[hash].expiresAt > now {
        var user := tokens[hash].user;
        tokens := tokens[hash := tokens[hash].(usedAt := Some(now))];
        return Success(user);
      }
      return Failure(NoRows);
    }

    method ExpireUserTokens(user: UserId, kind: TokenKind, fault: bool) returns (r: Result<(), Error>)
      modifies this`tokens
      ensures r == if fault then Failure(Database) else Success(())
      ensures tokens == if fault then old(tokens) else Expired(old(tokens), user, kind, now)
    {
      if fault { return Failure(Database); }
      tokens := Expired(tokens, user, kind, now);
      return Success(());
    }

    method DeleteExpiredUserTokens(fault: bool)
      modifies this`tokens
      ensures tokens == if fault then old(tokens) else WithoutExpired(old(tokens), now)
    {
      if !fault {
        tokens := WithoutExpired(tokens, now);
      }
    }

    method DeleteUsedUserTokens(fault: bool)
      modifies this`tokens
      ensures tokens == if fault then old(tokens) else WithoutUsed(old(tokens))
    {
      if !fault {
        tokens := WithoutUsed(tokens);
      }
    }

    method EnqueueEmail(mail: Mail, fault: bool) returns (r: Result<(), Error>)
      modifies this`outbox
      ensures r == if fault then Failure(Database) else Success(())
      ensures outbox == if fault then old(outbox) else old(outbox) + [mail]
    {
      if fault { return Failure(Database); }
      outbox := outbox + [mail];
      return Success(());
    }

    // ---- Two-factor configurations ----

    method UpsertTotpConfiguration(user: UserId, secret: string, fault: bool) returns (r: Result<(), Error>)
      modifies this`totp
      ensures r == if fault || user !in users then Failure(Database) else Success(())
      ensures totp == if r.Failure? then old(totp) else old(totp)[user := Totp(secret, None)]
    {
      if fault || user !in users { return Failure(Database); }
      totp := totp[user := Totp(secret, None)];
      return Success(());
    }

    method EnableTotpConfiguration(user: UserId, fault: bool) returns (r: Result<(), Error>)
      modifies this`totp
      ensures r == if fault then Failure(Database) else Success(())
      ensures totp == if !fault && user in old(totp)
                      then old(totp)[user := old(totp)[user].(enabledAt := Some(now))] else old(totp)
    {
      if fault { return Failure(Database); }
      if user in totp {
        totp := totp[user := totp[user].(enabledAt := Some(now))];
      }
      return Success(());
    }

    method DeleteTotpConfiguration(user: UserId, fault: bool) returns (r: Result<(), Error>)
      modifies this`totp
      ensures r == if fault then Failure(Database) else Success(())
      ensures totp == if fault then old(totp) else old(totp) - {user}
    {
      if fault { return Failure(Database); }
      totp := totp - {user};
      return Success(());
    }

    // ---- External identities ----

    method GetOAuthAccountByProviderIdentity(id: Identity, fault: bool) returns (r: Result<Account, Error>)
      ensures r == if fault then Failure(Database)
                   else if id in accounts then Success(accounts[id]) else Failure(NoRows)
    {
      r := if fault then Failure(Database) else if id in accounts then Success(accounts[id]) else Failure(NoRows);
    }

    method GetOAuthAccountByUserIDAndProvider(user: UserId, provider: string, fault: bool)
      returns (r: Result<Identity, Error>)
      ensures fault ==> r == Failure(Database)
      ensures r.Success? ==> r.value in accounts && r.value.provider == provider && accounts[r.value].user == user
      ensures r.Failure? && !fault ==>
        (r.error == NoRows && forall id :: id in accounts && id.provider == provider ==> accounts[id].user != user)
    {
      if fault { return Failure(Database); }
      if id :| id in accounts && id.provider == provider && accounts[id].user == user {
        return Success(id);
      }
      return Failure(NoRows);
    }

    // Inserts the identity, or overwrites its row, owner included. The unique constraint on (user_id,
    // provider) makes it fail when the user already has another identity of the provider.
    method UpsertOAuthAccount(id: Identity, user: UserId, sealedTokens: string, fault: bool)
      returns (r: Result<(), Error>)
      modifies this`accounts
      ensures r == if fault || user !in users || ClashesWith(old(accounts), id, user) then Failure(Database)
                   else Success(())
      ensures accounts == if r.Success? then old(accounts)[id := Account(user, sealedTokens)] else old(accounts)
    {
      var clash := false;
      if other :| other in accounts && other != id && other.provider == id.provider && accounts[other].user == user {
        clash := true;
      }
      if fault || user !in users || clash { return Failure(Database); }
      accounts := accounts[id := Account(user, sealedTokens)];
      return Success(());
    }
  }
}
