// Who owns an external identity.
module OAuthOwnership {
  import opened Wrappers
  import opened Schema
  import opened Journal

  // No user owns two identities of one provider. With accounts keyed by identity this makes the table a
  // partial bijection between (provider, subject) and (user, provider).
  ghost predicate Bijective(s: Store) {
    forall a, b | a in s.accounts && b in s.accounts && a.provider == b.provider
      :: s.accounts[a].user == s.accounts[b].user ==> a == b
  }

  ghost predicate OwnersExist(s: Store) {
    forall a :: a in s.accounts ==> s.accounts[a].user in s.users
  }

  lemma AccountsStep(cfg: Config, s: Store, c: Change)
    requires Allowed(cfg, s, c) && Bijective(s) && OwnersExist(s)
    ensures Bijective(Do(cfg, s, c)) && OwnersExist(Do(cfg, s, c))
  {
    var t := Do(cfg, s, c);
    forall a | a in t.accounts ensures t.accounts[a].user in t.users {
      RowStep(cfg, s, c, t.accounts[a].user);
    }
  }

  lemma {:induction false} AccountsAreABijection(cfg: Config, j: seq<Change>)
    requires Legal(cfg, j)
    ensures Bijective(Replay(cfg, j)) && OwnersExist(Replay(cfg, j))
  {
    if j != [] {
      var prefix := j[..|j| - 1];
      AccountsAreABijection(cfg, prefix);
      AccountsStep(cfg, Replay(cfg, prefix), j[|j| - 1]);
    }
  }

  lemma OwnerStep(cfg: Config, s: Store, c: Change, id: Identity)
    requires Allowed(cfg, s, c) && id in s.accounts
    ensures id in Do(cfg, s, c).accounts && Do(cfg, s, c).accounts[id].user == s.accounts[id].user
  {
  }

  // An identity once linked stays linked to the same user in every later state.
  lemma {:induction false} OwnershipIsPermanent(cfg: Config, j: seq<Change>, i: nat, id: Identity)
    requires Legal(cfg, j) && i <= |j| && id in Replay(cfg, j[..i]).accounts
    ensures id in Replay(cfg, j).accounts
    ensures Replay(cfg, j).accounts[id].user == Replay(cfg, j[..i]).accounts[id].user
    decreases |j|
  {
    if i == |j| {
      assert j[..i] == j;
    } else {
      var prefix := j[..|j| - 1];
      assert prefix[..i] == j[..i];
      OwnershipIsPermanent(cfg, prefix, i, id);
      OwnerStep(cfg, Replay(cfg, prefix), j[|j| - 1], id);
    }
  }
}
