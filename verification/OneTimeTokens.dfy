// One-time tokens: each is good for one confirmation of its own kind, a new one retires the one before
// it, its e-mail is in the outbox, and deleting dead rows changes no answer.
module OneTimeTokens {
  import opened Wrappers
  import opened Schema
  import opened Journal

  predicate Issues(cfg: Config, c: Change, h: string) {
    c.Issue? && cfg.crypto.hashToken(c.token) == h
  }

  predicate Consumes(c: Change, h: string) {
    c.Consume? && c.hash == h
  }

  // The last change that issued or consumed the token with this hash.
  function LastAbout(cfg: Config, j: seq<Change>, h: string): Option<Change> {
    if j == [] then None
    else
      var c := j[|j| - 1];
      if Issues(cfg, c, h) || Consumes(c, h) then Some(c) else LastAbout(cfg, j[..|j| - 1], h)
  }

  // A stored token goes back to the last change about its hash: unused rows to their issue, used rows
  // to their consumption.
  ghost predicate Traced(cfg: Config, j: seq<Change>, s: Store, h: string) {
    h in s.tokens ==>
      && s.tokens[h].user in s.users
      && (match LastAbout(cfg, j, h)
          case Some(Issue(u, kind, _, _, at)) =>
            && s.tokens[h].usedAt.None? && s.tokens[h].user == u && s.tokens[h].kind == kind
            && s.tokens[h].expiresAt <= (if at + cfg.TokenTTL(kind) > s.now then at + cfg.TokenTTL(kind) else s.now)
          case Some(Consume(_, kind, u)) => s.tokens[h].usedAt.Some?
          case _ => false)
  }

  predicate Cleanup(c: Change) {
    c.DeleteExpired? || c.DeleteUsed?
  }

  predicate AboutTokens(c: Change) {
    c.Issue? || c.Expire? || c.Consume? || Cleanup(c)
  }

  // The other changes neither look at the tokens nor touch them.
  lemma OtherTables(cfg: Config, s: Store, c: Change, tokens: map<string, Token>)
    requires !AboutTokens(c)
    ensures Allowed(cfg, s, c) <==> Allowed(cfg, s.(tokens := tokens), c)
    ensures Allowed(cfg, s, c) ==> Do(cfg, s.(tokens := tokens), c) == Do(cfg, s, c).(tokens := tokens)
    ensures Allowed(cfg, s, c) ==> Do(cfg, s, c).tokens == s.tokens && Do(cfg, s, c).now >= s.now
  {
  }

  lemma TracedTokenStep(cfg: Config, j: seq<Change>, s: Store, c: Change, h: string)
    requires Allowed(cfg, s, c) && Traced(cfg, j, s, h) && (c.Issue? || c.Expire? || c.Consume?)
    ensures Traced(cfg, j + [c], Do(cfg, s, c), h)
  {
    assert (j + [c])[..|j|] == j;
  }

  lemma TracedCleanup(cfg: Config, j: seq<Change>, s: Store, c: Change, h: string)
    requires Allowed(cfg, s, c) && Traced(cfg, j, s, h) && Cleanup(c)
    ensures Traced(cfg, j + [c], Do(cfg, s, c), h)
  {
    assert (j + [c])[..|j|] == j;
  }

  lemma TracedStep(cfg: Config, j: seq<Change>, s: Store, c: Change, h: string)
    requires Allowed(cfg, s, c) && Traced(cfg, j, s, h)
    ensures Traced(cfg, j + [c], Do(cfg, s, c), h)
  {
    hide Allowed, Do;
    if c.Issue? || c.Expire? || c.Consume? {
      TracedTokenStep(cfg, j, s, c, h);
    } else if Cleanup(c) {
      TracedCleanup(cfg, j, s, c, h);
    } else {
      assert (j + [c])[..|j|] == j;
      OtherTables(cfg, s, c, s.tokens);
      if h in s.tokens {
        RowStep(cfg, s, c, s.tokens[h].user);
      }
    }
  }

  lemma {:induction false} TokensAreTraced(cfg: Config, j: seq<Change>, h: string)
    requires Legal(cfg, j)
    ensures Traced(cfg, j, Replay(cfg, j), h)
  {
    if j != [] {
      var prefix, c := j[..|j| - 1], j[|j| - 1];
      TokensAreTraced(cfg, prefix, h);
      TracedStep(cfg, prefix, Replay(cfg, prefix), c, h);
      assert j == prefix + [c];
    }
  }

  // What LastAbout means.
  lemma {:induction false} LastAboutIsTheLast(cfg: Config, j: seq<Change>, h: string) returns (i: nat)
    requires LastAbout(cfg, j, h).Some?
    ensures i < |j| && j[i] == LastAbout(cfg, j, h).value && (Issues(cfg, j[i], h) || Consumes(j[i], h))
    ensures forall m :: i < m < |j| ==> !Issues(cfg, j[m], h) && !Consumes(j[m], h)
  {
    var c := j[|j| - 1];
    if Issues(cfg, c, h) || Consumes(c, h) {
      i := |j| - 1;
    } else {
      i := LastAboutIsTheLast(cfg, j[..|j| - 1], h);
    }
  }

  // Every confirmation used a token issued earlier to that user for that kind of request, still within
  // its lifetime, and not used in between.
  lemma EveryConsumptionHasItsIssue(cfg: Config, j: seq<Change>, n: nat) returns (i: nat)
    requires Legal(cfg, j) && n < |j| && j[n].Consume?
    ensures i < n && Issues(cfg, j[i], j[n].hash) && j[i].user == j[n].user && j[i].kind == j[n].kind
    ensures Replay(cfg, j[..n]).now < j[i].at + cfg.TokenTTL(j[i].kind)
    ensures forall m :: i < m < n ==> !Issues(cfg, j[m], j[n].hash) && !Consumes(j[m], j[n].hash)
  {
    StepAt(cfg, j, n);
    TokensAreTraced(cfg, j[..n], j[n].hash);
    i := LastAboutIsTheLast(cfg, j[..n], j[n].hash);
    forall m | i < m < n ensures !Issues(cfg, j[m], j[n].hash) && !Consumes(j[m], j[n].hash) {
      assert j[m] == j[..n][m];
    }
  }

  // Between two confirmations of one hash, that hash was issued again.
  lemma SingleUse(cfg: Config, j: seq<Change>, m: nat, n: nat)
    requires Legal(cfg, j) && m < n < |j| && j[m].Consume? && j[n].Consume? && j[m].hash == j[n].hash
    ensures exists i :: m < i < n && Issues(cfg, j[i], j[n].hash)
  {
    var i := EveryConsumptionHasItsIssue(cfg, j, n);
    assert Consumes(j[m], j[n].hash);
  }

  // Tokens are drawn at random: no hash is issued twice.
  ghost predicate Fresh(cfg: Config, j: seq<Change>) {
    forall i, k :: 0 <= i < k < |j| && j[i].Issue? && j[k].Issue? ==>
      cfg.crypto.hashToken(j[i].token) != cfg.crypto.hashToken(j[k].token)
  }

  // A fresh token is confirmed at most once in the whole history.
  lemma FreshTokensAreConfirmedOnce(cfg: Config, j: seq<Change>, m: nat, n: nat)
    requires Legal(cfg, j) && Fresh(cfg, j) && m < |j| && n < |j|
    requires j[m].Consume? && j[n].Consume? && j[m].hash == j[n].hash
    ensures m == n
  {
    if m != n {
      var first, second := if m < n then m else n, if m < n then n else m;
      SingleUse(cfg, j, first, second);
      var i := EveryConsumptionHasItsIssue(cfg, j, first);
    }
  }

  // ---- One live token ----

  function LastIssued(cfg: Config, j: seq<Change>, u: UserId, kind: TokenKind): Option<string> {
    if j == [] then None
    else
      var c := j[|j| - 1];
      if c.Issue? && c.user == u && c.kind == kind then Some(cfg.crypto.hashToken(c.token))
      else LastIssued(cfg, j[..|j| - 1], u, kind)
  }

  ghost predicate LiveFor(s: Store, h: string, u: UserId, kind: TokenKind) {
    h in s.tokens && s.tokens[h].user == u && s.tokens[h].kind == kind && s.tokens[h].Live(s.now)
  }

  lemma LiveStep(cfg: Config, s: Store, c: Change, h: string, u: UserId, kind: TokenKind)
    requires Allowed(cfg, s, c) && LiveFor(Do(cfg, s, c), h, u, kind)
    ensures if c.Issue? && c.user == u && c.kind == kind then h == cfg.crypto.hashToken(c.token)
            else LiveFor(s, h, u, kind)
  {
  }

  // Whatever token of a user and kind can still be confirmed is the last one issued, so there is at
  // most one.
  lemma {:induction false} OnlyTheLastTokenIsLive(cfg: Config, j: seq<Change>, h: string, u: UserId, kind: TokenKind)
    requires Legal(cfg, j) && LiveFor(Replay(cfg, j), h, u, kind)
    ensures LastIssued(cfg, j, u, kind) == Some(h)
  {
    var prefix, c := j[..|j| - 1], j[|j| - 1];
    LiveStep(cfg, Replay(cfg, prefix), c, h, u, kind);
    if !(c.Issue? && c.user == u && c.kind == kind) {
      OnlyTheLastTokenIsLive(cfg, prefix, h, u, kind);
    }
  }

  lemma {:induction false} AtMostOneLiveToken(cfg: Config, j: seq<Change>, g: string, h: string,
                                              u: UserId, kind: TokenKind)
    requires Legal(cfg, j) && LiveFor(Replay(cfg, j), g, u, kind) && LiveFor(Replay(cfg, j), h, u, kind)
    ensures g == h
  {
    OnlyTheLastTokenIsLive(cfg, j, g, u, kind);
    OnlyTheLastTokenIsLive(cfg, j, h, u, kind);
  }

  // ---- One e-mail per token ----

  function MailsOf(j: seq<Change>): seq<Mail> {
    if j == [] then []
    else
      var c := j[|j| - 1];
      MailsOf(j[..|j| - 1]) + if c.Issue? then [Mail(c.kind, c.recipient, c.token, c.at - SECOND)] else []
  }

  lemma OutboxStep(cfg: Config, s: Store, c: Change)
    requires Allowed(cfg, s, c)
    ensures Do(cfg, s, c).outbox ==
      s.outbox + if c.Issue? then [Mail(c.kind, c.recipient, c.token, c.at - SECOND)] else []
  {
  }

  // The outbox holds exactly one e-mail for each committed token, in the order of issue, addressed to
  // the owner of the token.
  lemma {:induction false} OneMailPerToken(cfg: Config, j: seq<Change>)
    requires Legal(cfg, j)
    ensures Replay(cfg, j).outbox == MailsOf(j)
  {
    if j != [] {
      OneMailPerToken(cfg, j[..|j| - 1]);
      OutboxStep(cfg, Replay(cfg, j[..|j| - 1]), j[|j| - 1]);
    }
  }

  // ---- Cleanup ----

  // The same history on a store that never deletes a token.
  function WithoutCleanup(j: seq<Change>): seq<Change> {
    if j == [] then []
    else WithoutCleanup(j[..|j| - 1]) + if Cleanup(j[|j| - 1]) then [] else [j[|j| - 1]]
  }

  // The cleaned store `s` and the hoarding store `t`: the same tables, but for dead tokens of `t`.
  ghost predicate Hoards(t: Store, s: Store) {
    && t.(tokens := s.tokens) == s
    && (forall h :: h in s.tokens ==> h in t.tokens && t.tokens[h] == s.tokens[h])
    && (forall h :: h in t.tokens && h !in s.tokens ==> !t.tokens[h].Live(t.now))
  }

  // The two stores answer every confirmation alike.
  lemma SameAnswers(t: Store, s: Store, hash: string, kind: TokenKind)
    requires Hoards(t, s)
    ensures Lookup(t, hash, kind) == Lookup(s, hash, kind)
  {
  }

  lemma HoardsTokenStep(cfg: Config, t: Store, s: Store, c: Change)
    requires Hoards(t, s) && (c.Issue? || c.Expire? || c.Consume?)
    requires c.Issue? ==> cfg.crypto.hashToken(c.token) !in t.tokens
    ensures Allowed(cfg, s, c) <==> Allowed(cfg, t, c)
    ensures Allowed(cfg, s, c) ==> Hoards(Do(cfg, t, c), Do(cfg, s, c))
  {
    if c.Consume? {
      SameAnswers(t, s, c.hash, c.kind);
    }
  }

  lemma HoardsStep(cfg: Config, t: Store, s: Store, c: Change)
    requires Hoards(t, s) && !Cleanup(c)
    requires c.Issue? ==> cfg.crypto.hashToken(c.token) !in t.tokens
    ensures Allowed(cfg, s, c) <==> Allowed(cfg, t, c)
    ensures Allowed(cfg, s, c) ==> Hoards(Do(cfg, t, c), Do(cfg, s, c))
  {
    hide Allowed, Do;
    if AboutTokens(c) {
      HoardsTokenStep(cfg, t, s, c);
    } else {
      OtherTables(cfg, t, c, s.tokens);
    }
  }

  lemma HoardsNothing()
    ensures Hoards(EMPTY, EMPTY)
  {
  }

  lemma HoardsCleanup(cfg: Config, t: Store, s: Store, c: Change)
    requires Hoards(t, s) && Cleanup(c)
    ensures Allowed(cfg, s, c) && Hoards(t, Do(cfg, s, c))
  {
  }

  lemma StoredStep(cfg: Config, s: Store, c: Change, h: string)
    requires Allowed(cfg, s, c) && h in Do(cfg, s, c).tokens
    ensures h in s.tokens || Issues(cfg, c, h)
  {
  }

  // Stored hashes were issued.
  lemma {:induction false} StoredWasIssued(cfg: Config, j: seq<Change>, h: string) returns (i: nat)
    requires h in Replay(cfg, j).tokens
    ensures i < |j| && Issues(cfg, j[i], h)
  {
    var prefix, c := j[..|j| - 1], j[|j| - 1];
    if Allowed(cfg, Replay(cfg, prefix), c) {
      StoredStep(cfg, Replay(cfg, prefix), c, h);
    }
    if h in Replay(cfg, prefix).tokens {
      i := StoredWasIssued(cfg, prefix, h);
    } else {
      i := |j| - 1;
    }
  }

  lemma {:induction false} WithoutCleanupSelects(j: seq<Change>)
    ensures forall c :: c in WithoutCleanup(j) ==> c in j
  {
    if j != [] {
      WithoutCleanupSelects(j[..|j| - 1]);
    }
  }

  lemma IssuedEarlier(cfg: Config, j: seq<Change>, h: string) returns (k: nat)
    requires h in Replay(cfg, WithoutCleanup(j)).tokens
    ensures k < |j| && Issues(cfg, j[k], h)
  {
    var kept := WithoutCleanup(j);
    var i := StoredWasIssued(cfg, kept, h);
    WithoutCleanupSelects(j);
    assert kept[i] in j;
    k :| k < |j| && j[k] == kept[i];
  }

  lemma FreshStaysOut(cfg: Config, j: seq<Change>, c: Change)
    requires forall k :: 0 <= k < |j| && j[k].Issue? && c.Issue? ==>
               cfg.crypto.hashToken(j[k].token) != cfg.crypto.hashToken(c.token)
    ensures c.Issue? ==> cfg.crypto.hashToken(c.token) !in Replay(cfg, WithoutCleanup(j)).tokens
  {
    if c.Issue? && cfg.crypto.hashToken(c.token) in Replay(cfg, WithoutCleanup(j)).tokens {
      var k := IssuedEarlier(cfg, j, cfg.crypto.hashToken(c.token));
    }
  }

  // Put cleanups anywhere in a history of fresh tokens: it is legal exactly when the history without
  // them is, so every call meets the same answer, and the stores differ only in dead token rows.
  lemma {:induction false} CleanupIsInvisible(cfg: Config, j: seq<Change>)
    requires Fresh(cfg, j)
    ensures Legal(cfg, j) <==> Legal(cfg, WithoutCleanup(j))
    ensures Legal(cfg, j) ==> Hoards(Replay(cfg, WithoutCleanup(j)), Replay(cfg, j))
  {
    hide Do, Allowed, Hoards;
    HoardsNothing();
    if j != [] {
      var prefix, c := j[..|j| - 1], j[|j| - 1];
      CleanupIsInvisible(cfg, prefix);
      var kept := WithoutCleanup(prefix);
      if Cleanup(c) {
        assert WithoutCleanup(j) == kept;
        if Legal(cfg, prefix) {
          HoardsCleanup(cfg, Replay(cfg, kept), Replay(cfg, prefix), c);
        }
      } else {
        assert WithoutCleanup(j) == kept + [c] && (kept + [c])[..|kept|] == kept;
        if Legal(cfg, prefix) {
          FreshStaysOut(cfg, prefix, c);
          HoardsStep(cfg, Replay(cfg, kept), Replay(cfg, prefix), c);
        }
      }
    }
  }
}
