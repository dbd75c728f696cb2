// Windows of less than a second: the counting gap is never shorter than that, so the lock is over before the
// gap is, and the service lets one attempt too many in.
module ShortWindows {
  import opened Wrappers
  import opened Schema
  import opened Journal
  import opened LoginThrottle
  import opened Queries
  import opened Calls
  import opened AuthService

  // The bound for intervals of the counting gap, on one history.
  ghost predicate Bounded(cfg: Config, j: seq<Change>) {
    forall i: nat, u: UserId, from: Time ::
      i <= |j| && Within(j[i..], u, from, cfg.Gap()) ==>
        Failures(j[i..], u) <= cfg.failedLoginThreshold + LockErrors(j[i..], u)
  }

  // The bound on every history the calls can leave.
  ghost predicate BoundedPerGap(cfg: Config) {
    forall calls: seq<Call> :: Served(cfg, calls) ==> Bounded(cfg, History(cfg, calls))
  }

  // Who attempts what: a user registers and verifies the address, and someone without the password attempts
  // to log in. `faults` is empty, or the second factor cannot be read, which counts as a failed attempt too.
  datatype Script = Script(hash: string, token: string, wrong: string, faults: Faults)
  {
    predicate Refused(cfg: Config) {
      && faults <= {GetTotp}
      && (cfg.crypto.passwordMatches(wrong, hash) ==> GetTotp in faults)
    }

    function Attempt(): Call {
      Login("user", wrong, "", true, faults)
    }

    // The first n attempts, all at one instant.
    function Burst(n: nat): seq<Call> {
      if n == 0 then [Register(1, "user", Some(hash), token, {}), VerifyEmail(token, {})]
      else Burst(n - 1) + [Attempt()]
    }

    // As many attempts as the threshold, and another when the lock is over.
    function Calls(cfg: Config): seq<Call>
      requires cfg.Accepted()
    {
      Burst(cfg.failedLoginThreshold) + [Wait(cfg.failedLoginWindow), Attempt()]
    }
  }

  // The tables after n attempts.
  predicate Bursted(cfg: Config, a: Script, s: Store, n: int) {
    && s.now == 0 && "user" in s.emails && s.emails["user"] == 1 && 1 in s.users && 1 !in s.totp
    && s.users[1].passwordHash == Some(a.hash)
    && s.users[1].isActive && s.users[1].verifiedAt.Some? && s.users[1].failedCount == n
    && s.users[1].lastFailedAt == (if n == 0 then None else Some(0))
    && s.users[1].lockedUntil == (if n < cfg.failedLoginThreshold then None else Some(cfg.failedLoginWindow))
  }

  // A block of changes that are allowed one after the other.
  lemma Extend3(cfg: Config, j: seq<Change>, a: Change, b: Change, c: Change)
    requires Legal(cfg, j) && Allowed(cfg, Replay(cfg, j), a)
    requires var s := Do(cfg, Replay(cfg, j), a); Allowed(cfg, s, b) && Allowed(cfg, Do(cfg, s, b), c)
    ensures Legal(cfg, j + [a, b, c])
    ensures Replay(cfg, j + [a, b, c]) == Do(cfg, Do(cfg, Do(cfg, Replay(cfg, j), a), b), c)
  {
    hide Replay, Allowed, Do, Legal;
    Extend(cfg, j, a);
    Extend(cfg, j + [a], b);
    Extend(cfg, j + [a] + [b], c);
    assert j + [a] + [b] + [c] == j + [a, b, c];
  }

  lemma Extend2(cfg: Config, j: seq<Change>, a: Change, b: Change)
    requires Legal(cfg, j) && Allowed(cfg, Replay(cfg, j), a)
    requires Allowed(cfg, Do(cfg, Replay(cfg, j), a), b)
    ensures Legal(cfg, j + [a, b])
    ensures Replay(cfg, j + [a, b]) == Do(cfg, Do(cfg, Replay(cfg, j), a), b)
  {
    hide Replay, Allowed, Do, Legal;
    Extend(cfg, j, a);
    Extend(cfg, j + [a], b);
    assert j + [a] + [b] == j + [a, b];
  }

  // The tables after the registration.
  function Registered(cfg: Config, a: Script): Store {
    var row := NewUser("user", 0).(passwordHash := Some(a.hash));
    Store(0, map[1 := row], map["user" := 1],
          map[cfg.crypto.hashToken(a.token) := Token(1, EmailVerification, cfg.emailVerificationTTL, None)],
          map[], map[], [Mail(EmailVerification, "user", a.token, -SECOND)])
  }

  lemma RegisterEffect(cfg: Config, a: Script)
    ensures Effect(cfg, EMPTY, Register(1, "user", Some(a.hash), a.token, {})) ==
      [CreateUser(1, "user"), SetPassword(1, a.hash), Issue(1, EmailVerification, a.token, "user", 0)]
  {
  }

  lemma RegisterFirst(cfg: Config, a: Script)
    ensures var block := Effect(cfg, EMPTY, Register(1, "user", Some(a.hash), a.token, {}));
            Legal(cfg, [] + block) && Replay(cfg, [] + block) == Registered(cfg, a)
  {
    hide Effect;
    RegisterEffect(cfg, a);
    Extend3(cfg, [], CreateUser(1, "user"), SetPassword(1, a.hash), Issue(1, EmailVerification, a.token, "user", 0));
  }

  lemma VerifyNext(cfg: Config, a: Script, j: seq<Change>)
    requires cfg.Loaded() && Legal(cfg, j) && Replay(cfg, j) == Registered(cfg, a)
    ensures var after := j + Effect(cfg, Registered(cfg, a), VerifyEmail(a.token, {}));
            Legal(cfg, after) && Bursted(cfg, a, Replay(cfg, after), 0)
  {
    var hash := cfg.crypto.hashToken(a.token);
    assert Effect(cfg, Registered(cfg, a), VerifyEmail(a.token, {})) ==
      [Consume(hash, EmailVerification, 1), Verify(1)];
    Extend2(cfg, j, Consume(hash, EmailVerification, 1), Verify(1));
  }

  // One more attempt in the burst.
  lemma AttemptFails(cfg: Config, a: Script, s: Store, n: nat)
    requires cfg.Loaded() && a.Refused(cfg) && n < cfg.failedLoginThreshold < MAX_INT32 && Bursted(cfg, a, s, n)
    ensures Effect(cfg, s, a.Attempt()) == [Fail(1, 0, false)]
    ensures Allowed(cfg, s, Fail(1, 0, false)) && Bursted(cfg, a, Do(cfg, s, Fail(1, 0, false)), n + 1)
  {
  }

  lemma {:induction false} BurstIsServed(cfg: Config, a: Script, n: nat)
    requires cfg.Loaded() && a.Refused(cfg) && n <= cfg.failedLoginThreshold < MAX_INT32
    ensures var j := History(cfg, a.Burst(n)); Legal(cfg, j) && Bursted(cfg, a, Replay(cfg, j), n)
    ensures n > 0 ==> History(cfg, a.Burst(n)) == History(cfg, a.Burst(n - 1)) + [Fail(1, 0, false)]
  {
    hide Replay, Allowed, Do, Legal, Effect, Bursted, History;
    if n == 0 {
      BurstStarts(cfg, a);
    } else {
      var j := History(cfg, a.Burst(n - 1));
      BurstIsServed(cfg, a, n - 1);
      AttemptFails(cfg, a, Replay(cfg, j), n - 1);
      OneMoreCall(cfg, a.Burst(n - 1), a.Attempt());
      Extend(cfg, j, Fail(1, 0, false));
    }
  }

  lemma BurstStarts(cfg: Config, a: Script)
    requires cfg.Loaded()
    ensures var j := History(cfg, a.Burst(0)); Legal(cfg, j) && Bursted(cfg, a, Replay(cfg, j), 0)
  {
    hide Replay, Allowed, Do, Legal, Effect, Bursted, Registered, History;
    var register := Register(1, "user", Some(a.hash), a.token, {});
    assert [] + [register] == [register] && [register] + [VerifyEmail(a.token, {})] == a.Burst(0);
    NoCalls(cfg);
    OneMoreCall(cfg, [], register);
    RegisterFirst(cfg, a);
    OneMoreCall(cfg, [register], VerifyEmail(a.token, {}));
    VerifyNext(cfg, a, History(cfg, [register]));
  }

  lemma NoCalls(cfg: Config)
    ensures History(cfg, []) == [] && Replay(cfg, History(cfg, [])) == EMPTY
  {
  }

  // The failures of the burst are the last n changes.
  lemma {:induction false} BurstCounts(cfg: Config, a: Script, n: nat) returns (i: nat)
    requires cfg.Loaded() && a.Refused(cfg) && n <= cfg.failedLoginThreshold < MAX_INT32
    ensures var j := History(cfg, a.Burst(n));
            && i <= |j| && Within(j[i..], 1, 0, cfg.Gap())
            && Failures(j[i..], 1) == n && LockErrors(j[i..], 1) == 0
  {
    hide Replay, Allowed, Do, Legal, Effect, Bursted, History;
    var j := History(cfg, a.Burst(n));
    if n == 0 {
      i := |j|;
      assert j[i..] == [];
    } else {
      var before := History(cfg, a.Burst(n - 1));
      i := BurstCounts(cfg, a, n - 1);
      BurstIsServed(cfg, a, n);
      assert j[i..] == before[i..] + [Fail(1, 0, false)];
      assert j[i..][..|before[i..]|] == before[i..];
    }
  }

  // When the lock is over the row takes one more failure.
  lemma OneMoreFits(cfg: Config, a: Script, s: Store)
    requires cfg.Loaded() && a.Refused(cfg) && cfg.failedLoginThreshold < MAX_INT32
    requires Bursted(cfg, a, s, cfg.failedLoginThreshold)
    ensures var wait := cfg.failedLoginWindow; var t := Do(cfg, s, Tick(wait));
            && Effect(cfg, s, Wait(wait)) == [Tick(wait)] && Effect(cfg, t, a.Attempt()) == [Fail(1, wait, false)]
            && Allowed(cfg, s, Tick(wait)) && Allowed(cfg, t, Fail(1, wait, false))
  {
  }

  lemma OneMoreCounts(cfg: Config, part: seq<Change>, n: int, wait: nat)
    requires wait < SECOND && Within(part, 1, 0, cfg.Gap()) && Failures(part, 1) == n && LockErrors(part, 1) == 0
    ensures var more := part + [Tick(wait), Fail(1, wait, false)];
            Within(more, 1, 0, cfg.Gap()) && Failures(more, 1) == n + 1 && LockErrors(more, 1) == 0
  {
    var waited := part + [Tick(wait)];
    var more := part + [Tick(wait), Fail(1, wait, false)];
    assert waited[..|part|] == part && more[..|waited|] == waited;
  }

  // What the calls of the script leave breaks the bound.
  lemma OneAttemptTooMany(cfg: Config, a: Script)
    requires cfg.Loaded() && a.Refused(cfg)
    requires cfg.failedLoginWindow < SECOND && cfg.failedLoginThreshold < MAX_INT32
    ensures Served(cfg, a.Calls(cfg)) && !Bounded(cfg, History(cfg, a.Calls(cfg)))
  {
    hide Replay, Allowed, Do, Legal, Effect, Bursted, History, Within, Failures, LockErrors;
    var n, wait := cfg.failedLoginThreshold, cfg.failedLoginWindow;
    var burst, last := a.Burst(n), Fail(1, wait, false);
    var j := History(cfg, burst);
    BurstIsServed(cfg, a, n);
    OneMoreFits(cfg, a, Replay(cfg, j));
    Extend2(cfg, j, Tick(wait), last);
    Extend(cfg, j, Tick(wait));
    OneMoreCall(cfg, burst, Wait(wait));
    OneMoreCall(cfg, burst + [Wait(wait)], a.Attempt());
    assert burst + [Wait(wait)] + [a.Attempt()] == a.Calls(cfg);
    assert j + [Tick(wait)] + [last] == j + [Tick(wait), last];
    var i := BurstCounts(cfg, a, n);
    OneMoreCounts(cfg, j[i..], n, wait);
    assert (j + [Tick(wait), last])[i..] == j[i..] + [Tick(wait), last];
  }

  // The bound holds, on the histories of the service, exactly when the window is at least a second, or the
  // threshold is beyond what the counter can hold.
  lemma BoundedPerGapIff(cfg: Config)
    requires cfg.Loaded()
    ensures BoundedPerGap(cfg) <==> cfg.failedLoginWindow >= SECOND || cfg.failedLoginThreshold >= MAX_INT32
  {
    if cfg.failedLoginWindow < SECOND && cfg.failedLoginThreshold < MAX_INT32 {
      var a := Script("hash", "token", "wrong", if cfg.crypto.passwordMatches("wrong", "hash") then {GetTotp} else {});
      OneAttemptTooMany(cfg, a);
    } else {
      forall calls: seq<Call> | Served(cfg, calls) ensures Bounded(cfg, History(cfg, calls)) {
        LongWindowsBound(cfg, History(cfg, calls));
      }
    }
  }

  lemma LongWindowsBound(cfg: Config, j: seq<Change>)
    requires cfg.Accepted() && Legal(cfg, j)
    requires cfg.failedLoginWindow >= SECOND || cfg.failedLoginThreshold >= MAX_INT32
    ensures Bounded(cfg, j)
  {
    forall i: nat, u: UserId, from: Time | i <= |j| && Within(j[i..], u, from, cfg.Gap())
      ensures Failures(j[i..], u) <= cfg.failedLoginThreshold + LockErrors(j[i..], u)
    {
      if cfg.failedLoginThreshold >= MAX_INT32 {
        CountedSegment(cfg, j, i, u, from, cfg.Gap());
      } else {
        GuardedIsTheWholeSeconds(cfg);
        assert j[i..|j|] == j[i..];
        BruteForceBound(cfg, j, i, |j|, u, from);
      }
    }
  }

  // The script run on the service itself, from an empty database and without a single failing statement.
  method RunTheCalls(cfg: Config, hash: string, token: string, wrong: string) returns (service: Service)
    requires cfg.Loaded() && cfg.failedLoginWindow < SECOND && cfg.failedLoginThreshold < MAX_INT32
    requires !cfg.crypto.passwordMatches(wrong, hash)
    ensures fresh(service) && fresh(service.q) && service.cfg == cfg && service.Valid()
    ensures service.q.calls == Script(hash, token, wrong, {}).Calls(cfg)
    ensures !Bounded(cfg, service.q.journal)
  {
    hide Replay, Allowed, Do, Legal, Effect, History, Bounded;
    var q := new Tables(cfg);
    NoCalls(cfg);
    service := new Service(cfg, q);
    ghost var a := Script(hash, token, wrong, {});
    var registered := service.Register("user", Some(hash), token, {});
    var verified := service.VerifyEmail(token, {});
    for i := 0 to cfg.failedLoginThreshold
      invariant service.Valid() && q.calls == a.Burst(i)
    {
      var refused := service.LoginWithPassword("user", wrong, "", true, {});
    }
    service.Wait(cfg.failedLoginWindow);
    var last := service.LoginWithPassword("user", wrong, "", true, {});
    assert q.calls == a.Calls(cfg);
    OneAttemptTooMany(cfg, a);
  }
}
