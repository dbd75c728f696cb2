// The history of the auth tables. Every service call appends the changes it committed to a journal;
// the tables are the replay of the journal from the empty database. A journal is legal when each
// change was allowed by the tables it met. The theorems of the project are about every legal journal,
// and AuthService keeps its journal legal.
module Journal {
  import opened Wrappers
  import opened Schema

  // How the caller of a login proved who they are.
  datatype Factor = Password(code: string) | OtherFactor

  datatype Change =
    | Tick(elapsed: nat)
    | CreateUser(user: UserId, email: string)
    | SetPassword(user: UserId, hash: string)
    | Verify(user: UserId)
    | Fail(user: UserId, at: Time, lockError: bool)
    | Clear(user: UserId)
    | Touch(user: UserId)
    | Restore(user: UserId)
    | Revoke(user: UserId)
    | DisableInactive(deadline: Time)
    | Expire(user: UserId, kind: TokenKind)
    | Issue(user: UserId, kind: TokenKind, token: string, recipient: string, at: Time)
    | Consume(hash: string, kind: TokenKind, user: UserId)
    | DeleteExpired
    | DeleteUsed
    | PutSecret(user: UserId, secret: string)
    | EnableTotp(user: UserId, code: string, at: Time)
    | DropTotp(user: UserId)
    | Link(identity: Identity, user: UserId, sealedTokens: string)
    | Grant(user: UserId, version: int, factor: Factor, at: Time)

  const EMPTY := Store(0, map[], map[], map[], map[], map[], [])

  // A recorded failure, and the lock it leads to unless the locking statement fails.
  function FailedRow(cfg: Config, row: User, now: Time, lockError: bool): User {
    var counted := row.Recorded(cfg.Gap(), now);
    if counted.failedCount >= cfg.failedLoginThreshold && !lockError
    then counted.Locked(now + cfg.failedLoginWindow) else counted
  }

  function OnUser(s: Store, user: UserId, row: User): Store {
    s.(users := s.users[user := row])
  }

  function Do(cfg: Config, s: Store, c: Change): Store
    requires Allowed(cfg, s, c)
  {
    match c
    case Tick(elapsed) => s.(now := s.now + elapsed)
    case CreateUser(u, email) =>
      s.(users := s.users[u := NewUser(email, s.now)], emails := s.emails[email := u])
    case SetPassword(u, hash) => OnUser(s, u, s.users[u].(passwordHash := Some(hash)))
    case Verify(u) => OnUser(s, u, s.users[u].(verifiedAt := Some(s.now)))
    case Fail(u, _, lockError) => OnUser(s, u, FailedRow(cfg, s.users[u], s.now, lockError))
    case Clear(u) => OnUser(s, u, s.users[u].Cleared())
    case Touch(u) => OnUser(s, u, s.users[u].LoggedIn(s.now))
    case Restore(u) => OnUser(s, u, s.users[u].Restored(s.now))
    case Revoke(u) => OnUser(s, u, s.users[u].(authVersion := s.users[u].authVersion + 1))
    case DisableInactive(deadline) => s.(users := WithoutInactive(s.users, deadline, s.now))
    case Expire(u, kind) => s.(tokens := Expired(s.tokens, u, kind, s.now))
    case Issue(u, kind, token, recipient, _) =>
      s.(tokens := s.tokens[cfg.crypto.hashToken(token) := Token(u, kind, s.now + cfg.TokenTTL(kind), None)],
         outbox := s.outbox + [Mail(kind, recipient, token, s.now - SECOND)])
    case Consume(hash, _, _) => s.(tokens := s.tokens[hash := s.tokens[hash].(usedAt := Some(s.now))])
    case DeleteExpired => s.(tokens := WithoutExpired(s.tokens, s.now))
    case DeleteUsed => s.(tokens := WithoutUsed(s.tokens))
    case PutSecret(u, secret) => s.(totp := s.totp[u := Totp(secret, None)])
    case EnableTotp(u, _, _) => s.(totp := s.totp[u := s.totp[u].(enabledAt := Some(s.now))])
    case DropTotp(u) => s.(totp := s.totp - {u})
    case Link(identity, u, sealedTokens) => s.(accounts := s.accounts[identity := Account(u, sealedTokens)])
    case Grant(_, _, _, _) => s
  }

  // When a change may happen. The statements behind the changes do not check all of this themselves:
  // the service does, and AuthService proves that it does.
  predicate Allowed(cfg: Config, s: Store, c: Change) {
    match c
    case Tick(_) => true
    case CreateUser(u, email) => u > 0 && u !in s.users && email !in s.emails
    case SetPassword(u, _) => u in s.users
    case Verify(u) => u in s.users
    case Fail(u, at, lockError) =>
      u in s.users && s.users[u].Usable(s.now) && at == s.now
      && var count := s.users[u].Recorded(cfg.Gap(), s.now).failedCount;
         count <= MAX_INT32 && (lockError ==> count >= cfg.failedLoginThreshold)
    case Clear(u) => u in s.users
    case Touch(u) => u in s.users && s.users[u].Usable(s.now)
    case Restore(u) => u in s.users
    case Revoke(u) => u in s.users
    case DisableInactive(_) => true
    case Expire(_, _) => true
    case Issue(u, kind, token, recipient, at) =>
      && u in s.users && recipient == s.users[u].email && at == s.now
      && cfg.crypto.hashToken(token) !in s.tokens
      && forall h :: h in s.tokens && s.tokens[h].user == u && s.tokens[h].kind == kind ==> !s.tokens[h].Live(s.now)
    case Consume(hash, kind, u) => Lookup(s, hash, kind) == Some(u)
    case DeleteExpired => true
    case DeleteUsed => true
    case PutSecret(u, _) => u in s.users && !TotpEnabled(s, u)
    case EnableTotp(u, code, at) => u in s.totp && at == s.now && cfg.crypto.totpValid(s.totp[u].secret, code, at)
    case DropTotp(_) => true
    case Link(identity, u, _) =>
      && u in s.users
      && (identity in s.accounts ==> s.accounts[identity].user == u)
      && forall other :: other in s.accounts && other != identity && other.provider == identity.provider
           ==> s.accounts[other].user != u
    case Grant(u, version, factor, at) =>
      && u in s.users && s.users[u].Usable(s.now) && version == s.users[u].authVersion && at == s.now
      && (factor.Password? && TotpEnabled(s, u) ==> cfg.crypto.totpValid(s.totp[u].secret, factor.code, at))
  }

  // The tables after the changes of a journal; a change that is not allowed has no effect, and a
  // legal journal has none.
  function Replay(cfg: Config, j: seq<Change>): Store {
    if j == [] then EMPTY
    else
      var s := Replay(cfg, j[..|j| - 1]);
      if Allowed(cfg, s, j[|j| - 1]) then Do(cfg, s, j[|j| - 1]) else s
  }

  ghost predicate Legal(cfg: Config, j: seq<Change>) {
    j == [] || (Legal(cfg, j[..|j| - 1]) && Allowed(cfg, Replay(cfg, j[..|j| - 1]), j[|j| - 1]))
  }

  // Appending one allowed change.
  lemma Extend(cfg: Config, j: seq<Change>, c: Change)
    requires Legal(cfg, j) && Allowed(cfg, Replay(cfg, j), c)
    ensures Legal(cfg, j + [c]) && Replay(cfg, j + [c]) == Do(cfg, Replay(cfg, j), c)
  {
    assert (j + [c])[..|j + [c]| - 1] == j;
  }

  // Every state a legal journal has passed through is the replay of a legal journal.
  lemma {:induction false} PrefixLegal(cfg: Config, j: seq<Change>, n: nat)
    requires Legal(cfg, j) && n <= |j|
    ensures Legal(cfg, j[..n])
    decreases |j|
  {
    if n < |j| {
      PrefixLegal(cfg, j[..|j| - 1], n);
      assert j[..|j| - 1][..n] == j[..n];
    } else {
      assert j[..n] == j;
    }
  }

  // The change at position n was allowed by, and applied to, the tables before it.
  lemma StepAt(cfg: Config, j: seq<Change>, n: nat)
    requires Legal(cfg, j) && n < |j|
    ensures Legal(cfg, j[..n]) && Legal(cfg, j[..n + 1])
    ensures Allowed(cfg, Replay(cfg, j[..n]), j[n])
    ensures Replay(cfg, j[..n + 1]) == Do(cfg, Replay(cfg, j[..n]), j[n])
  {
    PrefixLegal(cfg, j, n);
    PrefixLegal(cfg, j, n + 1);
    assert j[..n + 1][..n] == j[..n];
  }

  // What a change does to the row of user u.
  function RowAfter(cfg: Config, row: User, now: Time, c: Change, u: UserId): User {
    match c
    case SetPassword(x, hash) => if x == u then row.(passwordHash := Some(hash)) else row
    case Verify(x) => if x == u then row.(verifiedAt := Some(now)) else row
    case Fail(x, _, lockError) => if x == u then FailedRow(cfg, row, now, lockError) else row
    case Clear(x) => if x == u then row.Cleared() else row
    case Touch(x) => if x == u then row.LoggedIn(now) else row
    case Restore(x) => if x == u then row.Restored(now) else row
    case Revoke(x) => if x == u then row.(authVersion := row.authVersion + 1) else row
    case DisableInactive(deadline) => if row.InactiveSince(deadline) then row.Disabled(now) else row
    case _ => row
  }

  // Rows are never deleted, appear only by CreateUser, and otherwise change as RowAfter says.
  lemma RowStep(cfg: Config, s: Store, c: Change, u: UserId)
    requires Allowed(cfg, s, c)
    ensures u in s.users ==>
      u in Do(cfg, s, c).users && Do(cfg, s, c).users[u] == RowAfter(cfg, s.users[u], s.now, c, u)
    ensures u !in s.users && u in Do(cfg, s, c).users ==>
      c.CreateUser? && c.user == u && Do(cfg, s, c).users[u] == NewUser(c.email, s.now)
    ensures u !in s.users && c.CreateUser? && c.user == u ==> u in Do(cfg, s, c).users
    ensures s.now <= Do(cfg, s, c).now
  {
  }
}
