// What every reachable row of the users table looks like, and what can never be undone.
module AccountRows {
  import opened Wrappers
  import opened Schema
  import opened Journal

  ghost predicate Consistent(cfg: Config, row: User, now: Time) {
    && (!row.isActive <==> row.disabledAt.Some?)
    && (!row.isActive <==> row.disabledReason == Some(Inactivity))
    && (row.isActive ==> (row.lockedUntil.Some? <==> row.disabledReason == Some(FailedLoginAttempts)))
    && (row.IsLocked(now) ==> row.failedCount >= cfg.failedLoginThreshold)
    && (row.failedCount > 0 <==> row.lastFailedAt.Some?)
    && 0 <= row.failedCount <= MAX_INT32
    && row.createdAt <= now
    && (row.lastLoginAt.Some? ==> row.lastLoginAt.value <= now)
    && (row.lastFailedAt.Some? ==> row.lastFailedAt.value <= now)
  }

  lemma ConsistentStep(cfg: Config, s: Store, c: Change, u: UserId)
    requires cfg.Accepted() && Allowed(cfg, s, c)
    requires u in s.users ==> Consistent(cfg, s.users[u], s.now)
    ensures u in Do(cfg, s, c).users ==> Consistent(cfg, Do(cfg, s, c).users[u], Do(cfg, s, c).now)
  {
    RowStep(cfg, s, c, u);
  }

  // Inactive rows are exactly those with a disabling date and those disabled for inactivity; an active
  // row carries a lock date exactly when its reason says so; a locked account has used up its attempts.
  lemma {:induction false} EveryRowIsConsistent(cfg: Config, j: seq<Change>, u: UserId)
    requires cfg.Accepted() && Legal(cfg, j)
    ensures var s := Replay(cfg, j); u in s.users ==> Consistent(cfg, s.users[u], s.now)
  {
    if j != [] {
      var prefix := j[..|j| - 1];
      EveryRowIsConsistent(cfg, prefix, u);
      ConsistentStep(cfg, Replay(cfg, prefix), j[|j| - 1], u);
    }
  }

  // From any state to any later one: rows stay, the e-mail address stays, a verified address stays
  // verified, versions only grow, and an account that was disabled and is active again was recovered
  // in between.
  lemma {:induction false} NothingIsUndone(cfg: Config, j: seq<Change>, i: nat, u: UserId)
    requires Legal(cfg, j) && i <= |j| && u in Replay(cfg, j[..i]).users
    ensures u in Replay(cfg, j).users
    ensures var before, after := Replay(cfg, j[..i]).users[u], Replay(cfg, j).users[u];
            && after.email == before.email
            && (before.verifiedAt.Some? ==> after.verifiedAt.Some?)
            && before.authVersion <= after.authVersion
            && (!before.isActive && after.isActive ==> Restore(u) in j[i..])
    decreases |j|
  {
    if i == |j| {
      assert j[..i] == j;
    } else {
      var prefix, c := j[..|j| - 1], j[|j| - 1];
      assert prefix[..i] == j[..i];
      NothingIsUndone(cfg, prefix, i, u);
      RowStep(cfg, Replay(cfg, prefix), c, u);
      assert j[i..] == prefix[i..] + [c];
    }
  }

  // The unique index on the address: it finds exactly the rows of the users table.
  ghost predicate Indexed(s: Store) {
    && (forall u :: u in s.users ==> u > 0 && s.users[u].email in s.emails && s.emails[s.users[u].email] == u)
    && (forall e :: e in s.emails ==> s.emails[e] in s.users && s.users[s.emails[e]].email == e)
  }

  lemma IndexStep(cfg: Config, s: Store, c: Change)
    requires Allowed(cfg, s, c)
    ensures Do(cfg, s, c).emails == if c.CreateUser? then s.emails[c.email := c.user] else s.emails
    ensures c.CreateUser? ==> c.user > 0 && c.user !in s.users && c.email !in s.emails
  {
  }

  lemma IndexedStep(cfg: Config, s: Store, c: Change)
    requires Allowed(cfg, s, c) && Indexed(s)
    ensures Indexed(Do(cfg, s, c))
  {
    hide Allowed, Do;
    var t := Do(cfg, s, c);
    IndexStep(cfg, s, c);
    forall u | u in t.users
      ensures u > 0 && t.users[u].email in t.emails && t.emails[t.users[u].email] == u
    {
      RowStep(cfg, s, c, u);
    }
    forall e | e in t.emails ensures t.emails[e] in t.users && t.users[t.emails[e]].email == e {
      RowStep(cfg, s, c, t.emails[e]);
    }
  }

  lemma {:induction false} AddressesAreUnique(cfg: Config, j: seq<Change>)
    requires Legal(cfg, j)
    ensures Indexed(Replay(cfg, j))
  {
    if j != [] {
      var prefix := j[..|j| - 1];
      AddressesAreUnique(cfg, prefix);
      IndexedStep(cfg, Replay(cfg, prefix), j[|j| - 1]);
    }
  }
}
