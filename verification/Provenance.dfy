// Where what an account holds comes from: its password, its verification, its second factor and the date of its
// last login each go back to the last change that can set them, and nothing else touches them.
module Provenance {
  import opened Wrappers
  import opened Schema
  import opened Journal

  // ---- Nobody touches the account of another ----

  // The user a change is about; time, bulk updates and deletions of dead tokens are about nobody.
  function Subject(c: Change): Option<UserId> {
    match c
    case Tick(_) => None
    case CreateUser(u, _) => Some(u)
    case SetPassword(u, _) => Some(u)
    case Verify(u) => Some(u)
    case Fail(u, _, _) => Some(u)
    case Clear(u) => Some(u)
    case Touch(u) => Some(u)
    case Restore(u) => Some(u)
    case Revoke(u) => Some(u)
    case DisableInactive(_) => None
    case Expire(u, _) => Some(u)
    case Issue(u, _, _, _, _) => Some(u)
    case Consume(_, _, u) => Some(u)
    case DeleteExpired => None
    case DeleteUsed => None
    case PutSecret(u, _) => Some(u)
    case EnableTotp(u, _, _) => Some(u)
    case DropTotp(u) => Some(u)
    case Link(_, u, _) => Some(u)
    case Grant(u, _, _, _) => Some(u)
  }

  // A change about someone else leaves the row, the second factor and the tokens of u as they are.
  lemma OthersAreUntouched(cfg: Config, s: Store, c: Change, u: UserId)
    requires Allowed(cfg, s, c) && Subject(c).Some? && Subject(c).value != u
    ensures var t := Do(cfg, s, c);
            && (u in s.users <==> u in t.users) && (u in s.users ==> t.users[u] == s.users[u])
            && (u in s.totp <==> u in t.totp) && (u in s.totp ==> t.totp[u] == s.totp[u])
  {
  }

  lemma TokensOfOthersAreUntouched(cfg: Config, s: Store, c: Change, h: string)
    requires Allowed(cfg, s, c) && Subject(c).Some? && h in s.tokens && Subject(c).value != s.tokens[h].user
    ensures h in Do(cfg, s, c).tokens && Do(cfg, s, c).tokens[h] == s.tokens[h]
  {
  }

  // ---- The password ----

  function LastPassword(j: seq<Change>, u: UserId): Option<string> {
    if j == [] then None
    else
      var c := j[|j| - 1];
      if c.SetPassword? && c.user == u then Some(c.hash) else LastPassword(j[..|j| - 1], u)
  }

  // The stored hash is the one set last: by a registration, a reset or a recovery, and by nothing else.
  lemma {:induction false} PasswordIsTheLastSet(cfg: Config, j: seq<Change>, u: UserId)
    requires Legal(cfg, j)
    ensures var s := Replay(cfg, j);
            if u in s.users then s.users[u].passwordHash == LastPassword(j, u) else LastPassword(j, u) == None
  {
    if j != [] {
      var prefix := j[..|j| - 1];
      PasswordIsTheLastSet(cfg, prefix, u);
      RowStep(cfg, Replay(cfg, prefix), j[|j| - 1], u);
    }
  }

  // ---- The verification ----

  // An account is verified exactly when its address was confirmed, it was recovered, or it came with a verified
  // profile; a new account is not.
  lemma {:induction false} VerifiedIff(cfg: Config, j: seq<Change>, u: UserId)
    requires Legal(cfg, j)
    ensures var s := Replay(cfg, j);
            if u in s.users then s.users[u].verifiedAt.Some? <==> Verify(u) in j || Restore(u) in j
            else Verify(u) !in j && Restore(u) !in j
  {
    if j != [] {
      var prefix, c := j[..|j| - 1], j[|j| - 1];
      VerifiedIff(cfg, prefix, u);
      RowStep(cfg, Replay(cfg, prefix), c, u);
      assert j == prefix + [c];
    }
  }

  // ---- The last login ----

  // The position after the last login mark of u.
  function LastTouch(j: seq<Change>, u: UserId): nat {
    if j == [] then 0 else if j[|j| - 1] == Touch(u) then |j| else LastTouch(j[..|j| - 1], u)
  }

  lemma {:induction false} LastLoginIsTheLastTouch(cfg: Config, j: seq<Change>, u: UserId)
    requires Legal(cfg, j) && u in Replay(cfg, j).users
    ensures LastTouch(j, u) <= |j|
    ensures var n := LastTouch(j, u);
            Replay(cfg, j).users[u].lastLoginAt == if n == 0 then None else Some(Replay(cfg, j[..n]).now)
  {
    var prefix, c := j[..|j| - 1], j[|j| - 1];
    var s := Replay(cfg, prefix);
    RowStep(cfg, s, c, u);
    if c == Touch(u) {
      assert j[..|j|] == j;
    } else if u in s.users {
      LastLoginIsTheLastTouch(cfg, prefix, u);
      assert prefix[..LastTouch(prefix, u)] == j[..LastTouch(prefix, u)];
    } else {
      NoTouchBefore(cfg, prefix, u);
    }
  }

  lemma {:induction false} NoTouchBefore(cfg: Config, j: seq<Change>, u: UserId)
    requires Legal(cfg, j) && u !in Replay(cfg, j).users
    ensures LastTouch(j, u) == 0
  {
    if j != [] {
      var prefix := j[..|j| - 1];
      RowStep(cfg, Replay(cfg, prefix), j[|j| - 1], u);
      NoTouchBefore(cfg, prefix, u);
    }
  }

  // An account with a login not before the deadline is not disabled for inactivity.
  lemma RecentLoginsStayActive(cfg: Config, j: seq<Change>, m: nat, u: UserId)
    requires Legal(cfg, j) && m < |j| && j[m].DisableInactive?
    requires u in Replay(cfg, j[..m]).users && Replay(cfg, j[..m]).users[u].isActive
    requires 0 < LastTouch(j[..m], u) <= m && Replay(cfg, j[..LastTouch(j[..m], u)]).now >= j[m].deadline
    ensures u in Replay(cfg, j[..m + 1]).users && Replay(cfg, j[..m + 1]).users[u].isActive
  {
    StepAt(cfg, j, m);
    LastLoginIsTheLastTouch(cfg, j[..m], u);
    assert j[..m][..LastTouch(j[..m], u)] == j[..LastTouch(j[..m], u)];
    RowStep(cfg, Replay(cfg, j[..m]), j[m], u);
  }

  // ---- The second factor ----

  // The secret set up last and not dropped since.
  function LastSecret(j: seq<Change>, u: UserId): Option<string> {
    if j == [] then None
    else
      var c := j[|j| - 1];
      if c.PutSecret? && c.user == u then Some(c.secret)
      else if c == DropTotp(u) then None
      else LastSecret(j[..|j| - 1], u)
  }

  // A confirmation came after it.
  predicate Confirmed(j: seq<Change>, u: UserId) {
    j != []
    && var c := j[|j| - 1];
       if (c.PutSecret? && c.user == u) || c == DropTotp(u) then false
       else (c.EnableTotp? && c.user == u) || Confirmed(j[..|j| - 1], u)
  }

  // The stored secret is the one that was set up last, and it guards logins exactly when it was confirmed.
  lemma {:induction false} SecretIsTheLastSetUp(cfg: Config, j: seq<Change>, u: UserId)
    requires Legal(cfg, j)
    ensures var s := Replay(cfg, j);
            && LastSecret(j, u) == (if u in s.totp then Some(s.totp[u].secret) else None)
            && (u in s.totp ==> (s.totp[u].enabledAt.Some? <==> Confirmed(j, u)))
            && (u !in s.totp ==> !Confirmed(j, u))
  {
    if j != [] {
      var prefix, c := j[..|j| - 1], j[|j| - 1];
      SecretIsTheLastSetUp(cfg, prefix, u);
      SecretStep(cfg, Replay(cfg, prefix), c, u);
    }
  }

  lemma SecretStep(cfg: Config, s: Store, c: Change, u: UserId)
    requires Allowed(cfg, s, c)
    ensures var t := Do(cfg, s, c);
            if c == DropTotp(u) then u !in t.totp
            else if c.PutSecret? && c.user == u then u in t.totp && t.totp[u] == Totp(c.secret, None)
            else if c.EnableTotp? && c.user == u
            then u in s.totp && u in t.totp && t.totp[u] == Totp(s.totp[u].secret, Some(s.now))
            else (u in t.totp <==> u in s.totp) && (u in s.totp ==> t.totp[u] == s.totp[u])
  {
  }

  // ---- The logins ----

  // Whoever was logged in had an active account that was not locked, with a confirmed address, and got its
  // version.
  lemma LoginsAreEarned(cfg: Config, j: seq<Change>, n: nat)
    requires Legal(cfg, j) && n < |j| && j[n].Grant?
    ensures var s, u := Replay(cfg, j[..n]), j[n].user;
            && u in s.users && s.users[u].isActive && s.users[u].verifiedAt.Some?
            && (s.users[u].lockedUntil.None? || s.users[u].lockedUntil.value <= s.now)
            && j[n].version == s.users[u].authVersion && j[n].at == s.now
            && (Verify(u) in j[..n] || Restore(u) in j[..n])
  {
    StepAt(cfg, j, n);
    VerifiedIff(cfg, j[..n], j[n].user);
  }
}
