// The failure counter and the lock: what the counter counts, and how many wrong passwords a user's
// account takes before it refuses to look at another one.
module LoginThrottle {
  import opened Wrappers
  import opened Schema
  import opened Journal

  // The changes after which the counter starts afresh.
  predicate Clears(c: Change, u: UserId) {
    c == Clear(u) || c == Touch(u) || c == Restore(u) || (c.CreateUser? && c.user == u)
  }

  predicate FailsFor(c: Change, u: UserId) {
    c.Fail? && c.user == u
  }

  // The instants of the failures recorded for `u` since its counter was last cleared.
  function FailTimes(j: seq<Change>, u: UserId): seq<Time> {
    if j == [] then []
    else
      var c := j[|j| - 1];
      var before := FailTimes(j[..|j| - 1], u);
      if FailsFor(c, u) then before + [c.at] else if Clears(c, u) then [] else before
  }

  function GapBefore(times: seq<Time>, k: int): int
    requires 0 < k < |times|
  {
    times[k] - times[k - 1]
  }

  // n is the length of the longest suffix of `times` whose consecutive gaps are all at most `gap`.
  ghost predicate LongestStreak(times: seq<Time>, gap: int, n: int) {
    && 0 <= n <= |times|
    && (times != [] ==> n >= 1)
    && (forall k :: |times| - n < k < |times| ==> GapBefore(times, k) <= gap)
    && (0 < n < |times| ==> GapBefore(times, |times| - n) > gap)
  }

  lemma LongestStreakIsUnique(times: seq<Time>, gap: int, m: int, n: int)
    requires LongestStreak(times, gap, m) && LongestStreak(times, gap, n)
    ensures m == n
  {
  }

  // The row of `u` counts the longest streak of its failures.
  ghost predicate Counts(cfg: Config, j: seq<Change>, s: Store, u: UserId) {
    var times := FailTimes(j, u);
    if u !in s.users then times == []
    else
      && LongestStreak(times, cfg.Gap(), s.users[u].failedCount)
      && s.users[u].lastFailedAt == (if times == [] then None else Some(times[|times| - 1]))
  }

  lemma StreakGrows(times: seq<Time>, gap: int, n: int, at: Time)
    requires LongestStreak(times, gap, n)
    ensures LongestStreak(times + [at], gap, if times == [] || times[|times| - 1] < at - gap then 1 else n + 1)
  {
    forall k | 0 < k < |times| ensures GapBefore(times + [at], k) == GapBefore(times, k) {
    }
  }

  lemma CountsStep(cfg: Config, j: seq<Change>, s: Store, c: Change, u: UserId)
    requires Allowed(cfg, s, c) && Counts(cfg, j, s, u)
    ensures Counts(cfg, j + [c], Do(cfg, s, c), u)
  {
    assert (j + [c])[..|j|] == j;
    RowStep(cfg, s, c, u);
    if FailsFor(c, u) {
      StreakGrows(FailTimes(j, u), cfg.Gap(), s.users[u].failedCount, c.at);
    }
  }

  // `failed_login_count` is, in every reachable state, the length of the longest run of recent
  // failures with no gap of more than the window.
  lemma {:induction false} CounterIsTheLongestStreak(cfg: Config, j: seq<Change>, u: UserId)
    requires Legal(cfg, j)
    ensures Counts(cfg, j, Replay(cfg, j), u)
  {
    if j != [] {
      var prefix, c := j[..|j| - 1], j[|j| - 1];
      CounterIsTheLongestStreak(cfg, prefix, u);
      CountsStep(cfg, prefix, Replay(cfg, prefix), c, u);
      assert j == prefix + [c];
    }
  }

  // ---- The brute-force bound ----

  // How many failures the changes record for u, and for how many of them the locking statement failed.
  function Failures(j: seq<Change>, u: UserId): nat {
    if j == [] then 0
    else Failures(j[..|j| - 1], u) + if FailsFor(j[|j| - 1], u) then 1 else 0
  }

  function LockErrors(j: seq<Change>, u: UserId): nat {
    if j == [] then 0
    else LockErrors(j[..|j| - 1], u) + if FailsFor(j[|j| - 1], u) && j[|j| - 1].lockError then 1 else 0
  }

  // Nothing in `part` clears the counter of u, and the failures it records for u fall in [from, from + length).
  ghost predicate Within(part: seq<Change>, u: UserId, from: Time, length: int) {
    forall k :: 0 <= k < |part| ==>
      !Clears(part[k], u) && (FailsFor(part[k], u) ==> from <= part[k].at < from + length)
  }

  // The longest interval the counter and the lock guard together.
  function Guarded(cfg: Config): int {
    if cfg.failedLoginWindow < cfg.Gap() then cfg.failedLoginWindow else cfg.Gap()
  }

  // For a window of at least one second the guarded interval is the whole seconds of the window.
  lemma GuardedIsTheWholeSeconds(cfg: Config)
    requires cfg.failedLoginWindow >= SECOND
    ensures Guarded(cfg) == cfg.failedLoginWindow / SECOND * SECOND
  {
  }

  // The failures of a part are on the counter of the row it ends in, up to the largest 32-bit number.
  ghost predicate Counted(part: seq<Change>, s: Store, u: UserId, from: Time, length: int) {
    Failures(part, u) > 0 ==>
      && u in s.users && Failures(part, u) <= s.users[u].failedCount <= MAX_INT32
      && s.users[u].lastFailedAt.Some? && from <= s.users[u].lastFailedAt.value < from + length
  }

  lemma CountedStep(cfg: Config, part: seq<Change>, s: Store, c: Change, u: UserId, from: Time, length: int)
    requires length <= cfg.Gap() && Allowed(cfg, s, c)
    requires Counted(part, s, u, from, length) && Within([c], u, from, length)
    requires u in s.users ==> s.users[u].failedCount >= 0
    ensures Counted(part + [c], Do(cfg, s, c), u, from, length)
  {
    assert (part + [c])[..|part|] == part;
    assert [c][0] == c;
    RowStep(cfg, s, c, u);
  }

  // Cutting the last change off a stretch of a history.
  lemma WithinCut(j: seq<Change>, i: nat, u: UserId, from: Time, length: int)
    requires i < |j| && Within(j[i..], u, from, length)
    ensures var prefix, c := j[..|j| - 1], j[|j| - 1];
            j[i..] == prefix[i..] + [c] && Within(prefix[i..], u, from, length) && Within([c], u, from, length)
  {
    var prefix := j[..|j| - 1];
    assert j[i..][|j| - i - 1] == j[|j| - 1];
    forall k | 0 <= k < |prefix[i..]| ensures prefix[i..][k] == j[i..][k] {
    }
  }

  lemma {:induction false} CountedSegment(cfg: Config, j: seq<Change>, i: nat, u: UserId, from: Time, length: int)
    requires length <= cfg.Gap() && Legal(cfg, j) && i <= |j| && Within(j[i..], u, from, length)
    ensures Counted(j[i..], Replay(cfg, j), u, from, length)
    decreases |j|
  {
    if i < |j| {
      var prefix, c := j[..|j| - 1], j[|j| - 1];
      WithinCut(j, i, u, from, length);
      CountedSegment(cfg, prefix, i, u, from, length);
      CounterIsTheLongestStreak(cfg, prefix, u);
      CountedStep(cfg, prefix[i..], Replay(cfg, prefix), c, u, from, length);
    } else {
      assert j[i..] == [];
    }
  }

  // As many failures as the threshold have locked the row until the guarded interval is over.
  ghost predicate Throttled(cfg: Config, part: seq<Change>, s: Store, u: UserId, from: Time) {
    var f, e := Failures(part, u), LockErrors(part, u);
    && f <= cfg.failedLoginThreshold + e
    && (f >= cfg.failedLoginThreshold + e ==>
          u in s.users && s.users[u].lockedUntil.Some? && s.users[u].lockedUntil.value >= from + Guarded(cfg))
  }

  lemma ThrottledStep(cfg: Config, part: seq<Change>, s: Store, c: Change, u: UserId, from: Time)
    requires cfg.Accepted() && Allowed(cfg, s, c)
    requires Throttled(cfg, part, s, u, from) && Counted(part, s, u, from, Guarded(cfg))
    requires Within([c], u, from, Guarded(cfg)) && (u in s.users ==> s.users[u].failedCount >= 0)
    ensures Throttled(cfg, part + [c], Do(cfg, s, c), u, from)
  {
    assert (part + [c])[..|part|] == part;
    assert [c][0] == c;
    RowStep(cfg, s, c, u);
  }

  lemma {:induction false} ThrottledSegment(cfg: Config, j: seq<Change>, i: nat, u: UserId, from: Time)
    requires cfg.Accepted() && Legal(cfg, j) && i <= |j| && Within(j[i..], u, from, Guarded(cfg))
    ensures Throttled(cfg, j[i..], Replay(cfg, j), u, from)
    decreases |j|
  {
    if i < |j| {
      var prefix, c := j[..|j| - 1], j[|j| - 1];
      WithinCut(j, i, u, from, Guarded(cfg));
      ThrottledSegment(cfg, prefix, i, u, from);
      CountedSegment(cfg, prefix, i, u, from, Guarded(cfg));
      CounterIsTheLongestStreak(cfg, prefix, u);
      ThrottledStep(cfg, prefix[i..], Replay(cfg, prefix), c, u, from);
    } else {
      assert j[i..] == [];
    }
  }

  // Take any stretch of any history in which nothing clears u's counter and whose failures for u fall
  // in a half-open interval of the guarded length: it records at most the threshold of failures, plus
  // one for each time the locking statement itself failed.
  lemma BruteForceBound(cfg: Config, j: seq<Change>, i: nat, k: nat, u: UserId, from: Time)
    requires cfg.Accepted() && Legal(cfg, j) && i <= k <= |j|
    requires Within(j[i..k], u, from, Guarded(cfg))
    ensures Failures(j[i..k], u) <= cfg.failedLoginThreshold + LockErrors(j[i..k], u)
  {
    PrefixLegal(cfg, j, k);
    assert j[..k][i..] == j[i..k];
    ThrottledSegment(cfg, j[..k], i, u, from);
  }

  // ---- After the lock ----

  // A lock that outlives the last failure was set by that failure.
  ghost predicate LockFollowsFailure(cfg: Config, s: Store, u: UserId) {
    u in s.users && s.users[u].lockedUntil.Some? ==>
      && s.users[u].lastFailedAt.Some?
      && (|| s.users[u].lockedUntil.value == s.users[u].lastFailedAt.value + cfg.failedLoginWindow
          || s.users[u].lockedUntil.value <= s.users[u].lastFailedAt.value)
  }

  lemma {:induction false} LocksFollowFailures(cfg: Config, j: seq<Change>, u: UserId)
    requires Legal(cfg, j)
    ensures LockFollowsFailure(cfg, Replay(cfg, j), u)
  {
    if j != [] {
      var prefix := j[..|j| - 1];
      LocksFollowFailures(cfg, prefix, u);
      RowStep(cfg, Replay(cfg, prefix), j[|j| - 1], u);
    }
  }

  // The first failure from the end of a lock on, when the window is at least a second: it restarts the counter
  // at 1, unless it comes at the very instant the lock ends and the window is a whole number of seconds. Then it
  // adds to the counter.
  lemma FirstFailureAfterTheLock(cfg: Config, j: seq<Change>, u: UserId)
    requires cfg.Accepted() && cfg.failedLoginWindow >= SECOND && Legal(cfg, j)
    requires var s := Replay(cfg, j);
             && u in s.users && s.users[u].lockedUntil.Some? && s.users[u].lastFailedAt.Some?
             && s.users[u].lastFailedAt.value < s.users[u].lockedUntil.value <= s.now
    ensures var s := Replay(cfg, j); var row := s.users[u]; var next := row.Recorded(cfg.Gap(), s.now);
            && row.failedCount >= 1
            && next.failedCount ==
                 (if s.now > row.lockedUntil.value || cfg.failedLoginWindow % SECOND != 0 then 1
                  else row.failedCount + 1)
  {
    LocksFollowFailures(cfg, j, u);
    CounterIsTheLongestStreak(cfg, j, u);
  }
}
