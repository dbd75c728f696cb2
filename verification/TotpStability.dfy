// Two-factor authentication: the secret of an enabled configuration, and the logins it guards.
module TotpStability {
  import opened Wrappers
  import opened Schema
  import opened Journal

  lemma SecretStep(cfg: Config, s: Store, c: Change, u: UserId)
    requires Allowed(cfg, s, c) && TotpEnabled(s, u) && c != DropTotp(u)
    ensures TotpEnabled(Do(cfg, s, c), u) && Do(cfg, s, c).totp[u].secret == s.totp[u].secret
  {
  }

  // A configuration becomes enabled only by a confirmation.
  lemma EnableStep(cfg: Config, s: Store, c: Change, u: UserId)
    requires Allowed(cfg, s, c) && TotpEnabled(Do(cfg, s, c), u) && !(c.EnableTotp? && c.user == u)
    ensures TotpEnabled(s, u) && Do(cfg, s, c).totp[u].secret == s.totp[u].secret && c != DropTotp(u)
  {
  }

  // From the position of a confirmation on, as long as the configuration is not dropped: it stays
  // enabled, with the secret it was confirmed with, and it is confirmed again only by a code that is
  // valid for that secret.
  lemma {:induction false} EnabledSecretIsStable(cfg: Config, j: seq<Change>, i: nat, u: UserId)
    requires Legal(cfg, j) && i < |j| && j[i].EnableTotp? && j[i].user == u
    requires DropTotp(u) !in j[i..]
    ensures u in Replay(cfg, j[..i]).totp
    ensures var secret := Replay(cfg, j[..i]).totp[u].secret;
            && cfg.crypto.totpValid(secret, j[i].code, j[i].at)
            && TotpEnabled(Replay(cfg, j), u)
            && Replay(cfg, j).totp[u].secret == secret
            && (forall k :: i < k < |j| && j[k].EnableTotp? && j[k].user == u ==>
                  cfg.crypto.totpValid(secret, j[k].code, j[k].at))
    decreases |j|
  {
    var prefix, c := j[..|j| - 1], j[|j| - 1];
    if i < |j| - 1 {
      assert prefix[..i] == j[..i];
      assert j[i..] == prefix[i..] + [c];
      EnabledSecretIsStable(cfg, prefix, i, u);
      SecretStep(cfg, Replay(cfg, prefix), c, u);
    } else {
      assert j[..i] == prefix;
      assert j[i..] == [c];
    }
  }

  // An enabled configuration was enabled by a code valid for the stored secret, and not dropped since.
  lemma {:induction false} EnabledOnlyByAValidCode(cfg: Config, j: seq<Change>, u: UserId) returns (i: nat)
    requires Legal(cfg, j) && TotpEnabled(Replay(cfg, j), u)
    ensures i < |j| && j[i].EnableTotp? && j[i].user == u && DropTotp(u) !in j[i..]
    ensures cfg.crypto.totpValid(Replay(cfg, j).totp[u].secret, j[i].code, j[i].at)
  {
    var prefix, c := j[..|j| - 1], j[|j| - 1];
    if c.EnableTotp? && c.user == u {
      i := |j| - 1;
      assert j[i..] == [c];
    } else {
      EnableStep(cfg, Replay(cfg, prefix), c, u);
      i := EnabledOnlyByAValidCode(cfg, prefix, u);
      assert j[i..] == prefix[i..] + [c];
    }
  }

  // Every password login after a confirmation, and before the configuration is dropped, carried a code
  // that was valid for the confirmed secret at the time of the login.
  lemma GuardedLogins(cfg: Config, j: seq<Change>, i: nat, n: nat, u: UserId)
    requires Legal(cfg, j) && i < n < |j| && j[i].EnableTotp? && j[i].user == u
    requires DropTotp(u) !in j[i..n] && j[n].Grant? && j[n].user == u && j[n].factor.Password?
    ensures u in Replay(cfg, j[..i]).totp
    ensures cfg.crypto.totpValid(Replay(cfg, j[..i]).totp[u].secret, j[n].factor.code, j[n].at)
  {
    StepAt(cfg, j, n);
    assert j[..n][..i] == j[..i] && j[..n][i..] == j[i..n];
    EnabledSecretIsStable(cfg, j[..n], i, u);
  }
}
