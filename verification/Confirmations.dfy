// Who can verify, open or re-key an account: over the histories the calls leave, every such change follows the
// confirmation that entitles to it, within the same call.
module Confirmations {
  import opened Wrappers
  import opened Schema
  import opened Journal
  import opened Calls
  import opened OneTimeTokens
  import opened Provenance

  // Where a change of a history comes from: a call, the tables it met, and its place among what the call left.
  lemma {:induction false} Locate(cfg: Config, calls: seq<Call>, m: nat) returns (k: nat, p: nat)
    requires m < |History(cfg, calls)|
    ensures k < |calls| && m == |History(cfg, calls[..k])| + p
    ensures var block := Effect(cfg, Replay(cfg, History(cfg, calls[..k])), calls[k]);
            && p < |block| && m - p + |block| <= |History(cfg, calls)|
            && forall n :: 0 <= n < |block| ==> History(cfg, calls)[m - p + n] == block[n]
  {
    hide Effect, Replay;
    var init := calls[..|calls| - 1];
    var before := History(cfg, init);
    if m < |before| {
      k, p := Locate(cfg, init, m);
      assert init[..k] == calls[..k];
      assert History(cfg, calls)[..|before|] == before;
    } else {
      k, p := |calls| - 1, m - |before|;
      assert calls[..k] == init;
    }
  }

  // ---- What entitles to what, within a call ----

  // The places where one call verifies an address.
  lemma VerifyInCall(cfg: Config, s: Store, c: Call, p: nat, u: UserId)
    requires p < |Effect(cfg, s, c)| && Effect(cfg, s, c)[p] == Verify(u)
    ensures p > 0
    ensures var before := Effect(cfg, s, c)[p - 1];
            || (c.VerifyEmail? && before == Consume(cfg.crypto.hashToken(c.token), EmailVerification, u))
            || (c.CompleteOAuth? && c.profile.Some? && c.profile.value.emailVerified
                && before == CreateUser(u, c.profile.value.email))
  {
  }

  lemma RestoreInCall(cfg: Config, s: Store, c: Call, p: nat, u: UserId)
    requires p < |Effect(cfg, s, c)| && Effect(cfg, s, c)[p] == Restore(u)
    ensures p > 1 && c.RecoverAccount?
    ensures Effect(cfg, s, c)[p - 2] == Consume(cfg.crypto.hashToken(c.token), AccountRecovery, u)
  {
  }

  lemma PasswordInCall(cfg: Config, s: Store, c: Call, p: nat, u: UserId, hash: string)
    requires p < |Effect(cfg, s, c)| && Effect(cfg, s, c)[p] == SetPassword(u, hash)
    ensures p > 0
    ensures var before := Effect(cfg, s, c)[p - 1];
            || (c.Register? && c.newHash == Some(hash) && before == CreateUser(u, c.email))
            || (c.ResetPassword? && c.newHash == Some(hash)
                && before == Consume(cfg.crypto.hashToken(c.token), PasswordReset, u))
            || (c.RecoverAccount? && c.newHash == Some(hash)
                && before == Consume(cfg.crypto.hashToken(c.token), AccountRecovery, u))
  {
  }

  lemma DropInCall(cfg: Config, s: Store, c: Call, p: nat, u: UserId)
    requires p < |Effect(cfg, s, c)| && Effect(cfg, s, c)[p] == DropTotp(u)
    ensures c == Call.DisableTOTP(u, c.faults)
      || (c.RecoverAccount? && p > 2
          && Effect(cfg, s, c)[p - 3] == Consume(cfg.crypto.hashToken(c.token), AccountRecovery, u))
  {
  }

  lemma ExpireInCall(cfg: Config, s: Store, c: Call, p: nat, u: UserId, kind: TokenKind)
    requires p < |Effect(cfg, s, c)| && Effect(cfg, s, c)[p] == Expire(u, kind)
    ensures c.RequestTokenEmail? && c.kind == kind && c.email in s.emails && s.emails[c.email] == u
    ensures Effect(cfg, s, c) == [Expire(u, kind), Issue(u, kind, c.token, c.email, s.now)]
  {
  }

  // ---- Over whole histories ----

  // An address becomes verified only right after a verification token of that user was confirmed, or the
  // account was created from a profile whose address the provider has verified.
  lemma {:induction false} VerificationIsConfirmed(cfg: Config, calls: seq<Call>, m: nat, u: UserId) returns (k: nat)
    requires m < |History(cfg, calls)| && History(cfg, calls)[m] == Verify(u)
    ensures m > 0 && k < |calls|
    ensures var before := History(cfg, calls)[m - 1];
            || (calls[k].VerifyEmail?
                && before == Consume(cfg.crypto.hashToken(calls[k].token), EmailVerification, u))
            || (calls[k].CompleteOAuth? && calls[k].profile.Some? && calls[k].profile.value.emailVerified
                && before == CreateUser(u, calls[k].profile.value.email))
  {
    hide Effect, Replay, History;
    var p;
    k, p := Locate(cfg, calls, m);
    var s := Replay(cfg, History(cfg, calls[..k]));
    var block := Effect(cfg, s, calls[k]);
    assert History(cfg, calls)[m - p + p] == block[p];
    VerifyInCall(cfg, s, calls[k], p, u);
    assert History(cfg, calls)[m - p + (p - 1)] == block[p - 1];
  }

  // An account is recovered only with a recovery token of that user.
  lemma {:induction false} RecoveryIsConfirmed(cfg: Config, calls: seq<Call>, m: nat, u: UserId) returns (k: nat)
    requires m < |History(cfg, calls)| && History(cfg, calls)[m] == Restore(u)
    ensures m > 1 && k < |calls| && calls[k].RecoverAccount?
    ensures History(cfg, calls)[m - 2] == Consume(cfg.crypto.hashToken(calls[k].token), AccountRecovery, u)
  {
    hide Effect, Replay, History;
    var p;
    k, p := Locate(cfg, calls, m);
    var s := Replay(cfg, History(cfg, calls[..k]));
    var block := Effect(cfg, s, calls[k]);
    assert History(cfg, calls)[m - p + p] == block[p];
    RestoreInCall(cfg, s, calls[k], p, u);
    assert History(cfg, calls)[m - p + (p - 2)] == block[p - 2];
  }

  // A password is set only when its account is registered, or with a reset or recovery token of that user.
  lemma {:induction false} PasswordIsConfirmed(cfg: Config, calls: seq<Call>, m: nat, u: UserId, hash: string)
    returns (k: nat)
    requires m < |History(cfg, calls)| && History(cfg, calls)[m] == SetPassword(u, hash)
    ensures m > 0 && k < |calls|
    ensures var before := History(cfg, calls)[m - 1];
            || (calls[k].Register? && calls[k].newHash == Some(hash) && before == CreateUser(u, calls[k].email))
            || (calls[k].ResetPassword? && calls[k].newHash == Some(hash)
                && before == Consume(cfg.crypto.hashToken(calls[k].token), PasswordReset, u))
            || (calls[k].RecoverAccount? && calls[k].newHash == Some(hash)
                && before == Consume(cfg.crypto.hashToken(calls[k].token), AccountRecovery, u))
  {
    hide Effect, Replay, History;
    var p;
    k, p := Locate(cfg, calls, m);
    var s := Replay(cfg, History(cfg, calls[..k]));
    var block := Effect(cfg, s, calls[k]);
    assert History(cfg, calls)[m - p + p] == block[p];
    PasswordInCall(cfg, s, calls[k], p, u, hash);
    assert History(cfg, calls)[m - p + (p - 1)] == block[p - 1];
  }

  // A second factor is dropped only at the request of its user, or with a recovery token of that user.
  lemma {:induction false} DropIsAskedFor(cfg: Config, calls: seq<Call>, m: nat, u: UserId) returns (k: nat)
    requires m < |History(cfg, calls)| && History(cfg, calls)[m] == DropTotp(u)
    ensures k < |calls|
    ensures (calls[k].DisableTOTP? && calls[k].user == u)
      || (calls[k].RecoverAccount? && m > 2
          && History(cfg, calls)[m - 3] == Consume(cfg.crypto.hashToken(calls[k].token), AccountRecovery, u))
  {
    hide Effect, Replay, History;
    var p;
    k, p := Locate(cfg, calls, m);
    var s := Replay(cfg, History(cfg, calls[..k]));
    var block := Effect(cfg, s, calls[k]);
    assert History(cfg, calls)[m - p + p] == block[p];
    DropInCall(cfg, s, calls[k], p, u);
    assert p > 2 ==> History(cfg, calls)[m - p + (p - 3)] == block[p - 3];
  }

  // A token dies early only by a request, committed for the same user and kind, that issues the next one.
  lemma {:induction false} ExpiryIsARequest(cfg: Config, calls: seq<Call>, m: nat, u: UserId, kind: TokenKind)
    returns (k: nat)
    requires m < |History(cfg, calls)| && History(cfg, calls)[m] == Expire(u, kind)
    ensures k < |calls| && calls[k].RequestTokenEmail? && calls[k].kind == kind
    ensures var emails := Replay(cfg, History(cfg, calls[..k])).emails;
            calls[k].email in emails && emails[calls[k].email] == u
    ensures m + 1 < |History(cfg, calls)|
    ensures var next := History(cfg, calls)[m + 1];
            next.Issue? && next.user == u && next.kind == kind && next.token == calls[k].token
  {
    hide Effect, Replay, History;
    var p;
    k, p := Locate(cfg, calls, m);
    var s := Replay(cfg, History(cfg, calls[..k]));
    var block := Effect(cfg, s, calls[k]);
    assert History(cfg, calls)[m - p + p] == block[p];
    ExpireInCall(cfg, s, calls[k], p, u, kind);
    assert History(cfg, calls)[m - p + (p + 1)] == block[p + 1];
  }

  lemma DisableInCall(cfg: Config, s: Store, c: Call, p: nat, deadline: Time)
    requires p < |Effect(cfg, s, c)| && Effect(cfg, s, c)[p] == DisableInactive(deadline)
    ensures c.DisableInactiveAccounts? && deadline == s.now - cfg.inactivityDisableAfter
  {
  }

  // Accounts are disabled in bulk only by the periodic check, and only those without a login for the configured
  // time.
  lemma {:induction false} RecentLoginsSurvive(cfg: Config, calls: seq<Call>, m: nat, u: UserId)
    requires Served(cfg, calls) && m < |History(cfg, calls)| && History(cfg, calls)[m].DisableInactive?
    requires var j := History(cfg, calls); var n := LastTouch(j[..m], u);
             && u in Replay(cfg, j[..m]).users && Replay(cfg, j[..m]).users[u].isActive
             && 0 < n <= m && Replay(cfg, j[..m]).now - Replay(cfg, j[..n]).now <= cfg.inactivityDisableAfter
    ensures var after := Replay(cfg, History(cfg, calls)[..m + 1]).users; u in after && after[u].isActive
  {
    hide Effect, Replay, History, Legal, LastTouch;
    var j := History(cfg, calls);
    var k, p := Locate(cfg, calls, m);
    var s := Replay(cfg, History(cfg, calls[..k]));
    var block := Effect(cfg, s, calls[k]);
    assert j[m - p + p] == block[p];
    DisableInCall(cfg, s, calls[k], p, j[m].deadline);
    SingleEffect(cfg, s, calls[k]);
    assert j[..m] == History(cfg, calls[..k]) by {
      PastOfCall(cfg, calls, k);
    }
    RecentLoginsStayActive(cfg, j, m, u);
  }

  lemma SingleEffect(cfg: Config, s: Store, c: Call)
    requires c.DisableInactiveAccounts?
    ensures |Effect(cfg, s, c)| <= 1
  {
  }

  // The history begins with what the first calls left.
  lemma {:induction false} PastOfCall(cfg: Config, calls: seq<Call>, k: nat)
    requires k <= |calls|
    ensures History(cfg, calls[..k]) <= History(cfg, calls)
  {
    hide Effect, Replay;
    if k == |calls| {
      assert calls[..k] == calls;
    } else {
      var init := calls[..|calls| - 1];
      assert init[..k] == calls[..k];
      PastOfCall(cfg, init, k);
    }
  }

  // A verified account: some change of its history verified it, and that change followed a confirmation.
  lemma {:induction false} VerifiedAccountsAreConfirmed(cfg: Config, calls: seq<Call>, u: UserId)
    returns (k: nat, m: nat)
    requires Served(cfg, calls)
    requires var s := Replay(cfg, History(cfg, calls)); u in s.users && s.users[u].verifiedAt.Some?
    ensures k < |calls| && m < |History(cfg, calls)|
    ensures var c := History(cfg, calls)[m];
            || (calls[k].VerifyEmail? && c == Consume(cfg.crypto.hashToken(calls[k].token), EmailVerification, u))
            || (calls[k].RecoverAccount? && c == Consume(cfg.crypto.hashToken(calls[k].token), AccountRecovery, u))
            || (calls[k].CompleteOAuth? && calls[k].profile.Some? && calls[k].profile.value.emailVerified
                && c == CreateUser(u, calls[k].profile.value.email))
  {
    hide Effect, Replay, History;
    VerifiedIff(cfg, History(cfg, calls), u);
    var j := History(cfg, calls);
    if Verify(u) in j {
      var n :| 0 <= n < |j| && j[n] == Verify(u);
      k := VerificationIsConfirmed(cfg, calls, n, u);
      m := n - 1;
    } else {
      var n :| 0 <= n < |j| && j[n] == Restore(u);
      k := RecoveryIsConfirmed(cfg, calls, n, u);
      m := n - 2;
    }
  }
}
