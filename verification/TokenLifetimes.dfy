// How long a one-time token can be confirmed: until its lifetime is over, it was used, or its owner asked for
// another of the kind, and not a moment less.
module TokenLifetimes {
  import opened Wrappers
  import opened Schema
  import opened Journal
  import opened OneTimeTokens

  // The configured lifetimes.
  function Lifetime(cfg: Config, kind: TokenKind): int {
    if kind == PasswordReset then cfg.passwordResetTTL
    else if kind == EmailVerification then cfg.emailVerificationTTL
    else cfg.recoveryTTL
  }

  // Something that ends the life of the token: its use, or a request for another of its kind.
  predicate Ends(c: Change, h: string, u: UserId, kind: TokenKind) {
    Consumes(c, h) || c == Expire(u, kind)
  }

  // What the tables keep of a token that was issued at the instant `at`: as long as its time is not over and
  // nothing has ended it, the row as it was issued; otherwise nothing that can be confirmed.
  ghost predicate Kept(cfg: Config, s: Store, h: string, u: UserId, kind: TokenKind, at: Time, ended: bool) {
    if !ended && s.now < at + Lifetime(cfg, kind)
    then h in s.tokens && s.tokens[h] == Token(u, kind, at + Lifetime(cfg, kind), None)
    else h in s.tokens ==> !s.tokens[h].Live(s.now)
  }

  // Before its end a row with the token's hash belongs to the token.
  ghost predicate Owned(s: Store, h: string, u: UserId, kind: TokenKind) {
    h in s.tokens ==> s.tokens[h].user == u && s.tokens[h].kind == kind
  }

  lemma KeptStep(cfg: Config, s: Store, c: Change, h: string, u: UserId, kind: TokenKind, at: Time, ended: bool)
    requires Allowed(cfg, s, c) && Kept(cfg, s, h, u, kind, at, ended) && Owned(s, h, u, kind)
    requires !Issues(cfg, c, h) && AboutTokens(c)
    ensures Kept(cfg, Do(cfg, s, c), h, u, kind, at, ended || Ends(c, h, u, kind))
    ensures Owned(Do(cfg, s, c), h, u, kind)
  {
  }

  lemma KeptOther(cfg: Config, s: Store, c: Change, h: string, u: UserId, kind: TokenKind, at: Time, ended: bool)
    requires Allowed(cfg, s, c) && Kept(cfg, s, h, u, kind, at, ended) && Owned(s, h, u, kind) && !AboutTokens(c)
    ensures Kept(cfg, Do(cfg, s, c), h, u, kind, at, ended || Ends(c, h, u, kind))
    ensures Owned(Do(cfg, s, c), h, u, kind)
  {
    hide Allowed, Do;
    OtherTables(cfg, s, c, s.tokens);
  }

  lemma KeptStart(cfg: Config, s: Store, c: Change)
    requires Allowed(cfg, s, c) && c.Issue?
    ensures Kept(cfg, Do(cfg, s, c), cfg.crypto.hashToken(c.token), c.user, c.kind, c.at, false)
    ensures Owned(Do(cfg, s, c), cfg.crypto.hashToken(c.token), c.user, c.kind)
  {
  }

  predicate Ended(j: seq<Change>, h: string, u: UserId, kind: TokenKind) {
    exists c :: c in j && Ends(c, h, u, kind)
  }

  lemma EndedMore(j: seq<Change>, c: Change, h: string, u: UserId, kind: TokenKind)
    ensures Ended(j + [c], h, u, kind) <==> Ended(j, h, u, kind) || Ends(c, h, u, kind)
  {
    if Ended(j, h, u, kind) {
      var d :| d in j && Ends(d, h, u, kind);
      assert d in j + [c];
    }
    assert c in j + [c];
  }

  lemma {:induction false} IssuedTokenIsKept(cfg: Config, j: seq<Change>, i: nat)
    requires Legal(cfg, j) && i < |j| && j[i].Issue?
    requires forall m :: i < m < |j| ==> !Issues(cfg, j[m], cfg.crypto.hashToken(j[i].token))
    ensures var h, u, kind := cfg.crypto.hashToken(j[i].token), j[i].user, j[i].kind;
            && Kept(cfg, Replay(cfg, j), h, u, kind, j[i].at, Ended(j[i + 1..], h, u, kind))
            && Owned(Replay(cfg, j), h, u, kind)
    decreases |j|
  {
    hide Allowed, Do, Kept, Owned, Issues, Ends, AboutTokens, Ended;
    var prefix, c := j[..|j| - 1], j[|j| - 1];
    var h, u, kind, at := cfg.crypto.hashToken(j[i].token), j[i].user, j[i].kind, j[i].at;
    if i == |j| - 1 {
      KeptStart(cfg, Replay(cfg, prefix), c);
      NothingEnded(h, u, kind);
      assert j[i + 1..] == [];
    } else {
      IssuedTokenIsKept(cfg, prefix, i);
      assert j[i + 1..] == prefix[i + 1..] + [c];
      EndedMore(prefix[i + 1..], c, h, u, kind);
      var ended := Ended(prefix[i + 1..], h, u, kind);
      if AboutTokens(c) {
        KeptStep(cfg, Replay(cfg, prefix), c, h, u, kind, at, ended);
      } else {
        KeptOther(cfg, Replay(cfg, prefix), c, h, u, kind, at, ended);
      }
    }
  }

  lemma NothingEnded(h: string, u: UserId, kind: TokenKind)
    ensures !Ended([], h, u, kind)
  {
  }

  // A token issued at position i can be confirmed later on, for its own kind and on behalf of its owner, exactly
  // while its lifetime is not over, it was not used, and its owner did not ask for another of the kind. What
  // other users ask for, and what cleanups delete, does not matter.
  lemma ConfirmableIff(cfg: Config, j: seq<Change>, i: nat)
    requires Legal(cfg, j) && i < |j| && j[i].Issue?
    requires forall m :: i < m < |j| ==> !Issues(cfg, j[m], cfg.crypto.hashToken(j[i].token))
    ensures var h, u, kind := cfg.crypto.hashToken(j[i].token), j[i].user, j[i].kind;
            Lookup(Replay(cfg, j), h, kind) == Some(u) <==>
              && Replay(cfg, j).now < j[i].at + (match kind
                                                 case PasswordReset => cfg.passwordResetTTL
                                                 case EmailVerification => cfg.emailVerificationTTL
                                                 case AccountRecovery => cfg.recoveryTTL)
              && (forall m :: i < m < |j| ==> !Consumes(j[m], h) && j[m] != Expire(u, kind))
  {
    IssuedTokenIsKept(cfg, j, i);
    var h, u, kind := cfg.crypto.hashToken(j[i].token), j[i].user, j[i].kind;
    if m :| i < m < |j| && Ends(j[m], h, u, kind) {
      assert j[m] == j[i + 1..][m - i - 1];
    }
  }
}
