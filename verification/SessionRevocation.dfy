// When a session stops being accepted.
module SessionRevocation {
  import opened Wrappers
  import opened Schema
  import opened Journal
  import opened AccountRows

  function Revocations(j: seq<Change>, u: UserId): nat {
    if j == [] then 0 else Revocations(j[..|j| - 1], u) + if j[|j| - 1] == Revoke(u) then 1 else 0
  }

  lemma {:induction false} NoRevocationNoCount(j: seq<Change>, i: nat, u: UserId)
    requires i <= |j|
    ensures Revocations(j, u) >= Revocations(j[..i], u)
    ensures Revocations(j, u) == Revocations(j[..i], u) <==> Revoke(u) !in j[i..]
    decreases |j|
  {
    if i == |j| {
      assert j[..i] == j;
    } else {
      var prefix := j[..|j| - 1];
      assert prefix[..i] == j[..i];
      assert j[i..] == prefix[i..] + [j[|j| - 1]];
      NoRevocationNoCount(prefix, i, u);
    }
  }

  // The version of an account counts its resets and recoveries, starting at 1.
  lemma {:induction false} VersionCountsRevocations(cfg: Config, j: seq<Change>, u: UserId)
    requires Legal(cfg, j)
    ensures var s := Replay(cfg, j);
            if u in s.users then s.users[u].authVersion == 1 + Revocations(j, u) else Revocations(j, u) == 0
  {
    if j != [] {
      var prefix := j[..|j| - 1];
      VersionCountsRevocations(cfg, prefix, u);
      RowStep(cfg, Replay(cfg, prefix), j[|j| - 1], u);
    }
  }

  // A version was handed out to someone who logged in as u.
  ghost predicate Granted(j: seq<Change>, u: UserId, version: int) {
    exists i :: 0 <= i < |j| && j[i].Grant? && j[i].user == u && j[i].version == version
  }

  // A session that carries the version of a login at position i is accepted in a later state exactly
  // when the account is usable there and no reset or recovery was committed since that login.
  lemma {:induction false} SessionAcceptedIff(cfg: Config, j: seq<Change>, i: nat, u: UserId, version: int)
    requires Legal(cfg, j) && i < |j| && j[i].Grant? && j[i].user == u && j[i].version == version
    ensures var s := Replay(cfg, j);
            && u in s.users
            && version <= s.users[u].authVersion
            && (SessionValid(s, u, version) <==> u != 0 && s.users[u].Usable(s.now) && Revoke(u) !in j[i..])
  {
    StepAt(cfg, j, i);
    VersionCountsRevocations(cfg, j, u);
    VersionCountsRevocations(cfg, j[..i], u);
    NoRevocationNoCount(j, i, u);
    NothingIsUndone(cfg, j, i, u);
  }

  // Once an account was reset or recovered, every session whose version was read earlier is rejected
  // for good, whenever that session was written.
  lemma RevokedForever(cfg: Config, j: seq<Change>, i: nat, k: nat, n: nat)
    requires Legal(cfg, j) && i < k < n <= |j|
    requires j[i].Grant? && j[k] == Revoke(j[i].user)
    ensures !SessionValid(Replay(cfg, j[..n]), j[i].user, j[i].version)
  {
    PrefixLegal(cfg, j, n);
    assert j[..n][i..][k - i] == Revoke(j[i].user);
    SessionAcceptedIff(cfg, j[..n], i, j[i].user, j[i].version);
  }
}
