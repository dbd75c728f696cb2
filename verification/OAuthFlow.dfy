// The authorization code grant of section 4.1 of RFC 6749 as the service completes it: which account an
// external identity logs in to, or is linked to.
module OAuthFlow {
  import opened Wrappers
  import opened Schema
  import opened Journal
  import opened AccountRows
  import opened OAuthOwnership
  import opened Queries
  import opened AuthService
  import opened Calls
  import opened Outcomes

  datatype Outcome = Outcome(principal: Principal, linkMode: bool, created: bool, linked: bool)

  // When nothing stands in the way of a flow, nothing stands in the way of linking the account it leads to,
  // and the other way round.
  lemma LinkableIff(s: Store, id: Identity, linkUser: UserId, email: string, u: UserId)
    requires OwnersExist(s) && u == Owner(s, id, linkUser, email, u) && (linkUser != 0 ==> u == linkUser)
    requires Creates(s, id, linkUser, email) ==> u !in s.users
    ensures Linkable(s, id, linkUser, email) <==>
      Creates(s, id, linkUser, email)
      || (u in s.users && s.users[u].Usable(s.now) && !ClashesWith(s.accounts, id, u))
    ensures Creates(s, id, linkUser, email) ==> !ClashesWith(s.accounts, id, u)
  {
  }

  // The checks on the callback, in their order.
  function FlowError(cfg: Config, flow: Option<Flow>, provider: string, state: string, code: string,
                     currentUser: UserId, now: Time): (e: Option<Error>)
    ensures e.None? <==> FlowAccepted(cfg, flow, provider, state, code, currentUser, now)
  {
    if flow.None? then Some(OAuthState)
    else
      var f := flow.value;
      if f.startedAt.None? || f.startedAt.value > now + 60 * SECOND || now - f.startedAt.value > cfg.oauthStateTTL
      then Some(OAuthState)
      else if provider !in cfg.oauthProviders then Some(OAuthProvider)
      else if f.provider != provider || f.state != state || code == "" then Some(OAuthState)
      else if f.linkUser != 0 && f.linkUser != currentUser then Some(OAuthState)
      else None
  }

  lemma FlowShape(s: Store, id: Identity, linkUser: UserId, email: string, sealedTokens: string, u: UserId)
    ensures var block := FlowChanges(s, id, linkUser, email, sealedTokens, u);
            var grant := Grant(u, OwnerVersion(s, u), OtherFactor, s.now);
            || (linkUser == 0
                && block == [Change.CreateUser(u, email), Verify(u), Link(id, u, sealedTokens), Touch(u), grant])
            || (linkUser == 0 && block == [Link(id, u, sealedTokens), Touch(u), grant])
            || (linkUser != 0 && block == [Link(id, u, sealedTokens), grant])
  {
  }

  // A callback completes its flow, in the terms of the session, the profile and the tables.
  lemma CompletesIff(cfg: Config, s: Store, provider: string, flow: Option<Flow>, state: string, code: string,
                     currentUser: UserId, profile: Option<Profile>)
    requires Indexed(s) && Bijective(s) && OwnersExist(s)
    ensures Completes(cfg, s, provider, flow, state, code, currentUser, profile) <==>
      && flow.Some? && flow.value.state == state && flow.value.provider == provider && provider in cfg.oauthProviders
      && code != ""
      && (match flow.value.startedAt
          case None => false
          case Some(at) => at - 60_000_000_000 <= s.now <= at + cfg.oauthStateTTL)
      && (flow.value.linkUser == 0 || flow.value.linkUser == currentUser)
      && profile.Some? && profile.value.subject != "" && profile.value.email != "" && profile.value.emailVerified
      && var id, link, email := Identity(provider, profile.value.subject), flow.value.linkUser, profile.value.email;
         if id in s.accounts
         then Open(s.users[s.accounts[id].user], s.now) && (link == 0 || link == s.accounts[id].user)
         else if link == 0 && email !in s.emails then true
         else
           var u := if link != 0 then link else s.emails[email];
           && u in s.users && Open(s.users[u], s.now)
           && forall other :: other in s.accounts && other.provider == provider ==> s.accounts[other].user != u
  {
  }

  lemma Associate(a: seq<Change>, b: seq<Change>, c: seq<Change>)
    ensures a + b + c == a + (b + c)
  {
  }

  // What a completed flow reports.
  predicate Reported(s: Store, id: Identity, linkUser: UserId, email: string, r: Outcome) {
    && r.created == Creates(s, id, linkUser, email)
    && r.linkMode == (linkUser != 0)
    && r.linked == (linkUser != 0 || (id !in s.accounts && !r.created))
  }

  // Whose account a completed flow has led to, what has become of it, and what is reported.
  ghost predicate Concluded(s: Store, t: Store, id: Identity, link: UserId, email: string, sealedTokens: string,
                            r: Outcome)
  {
    var u := r.principal.user;
    && WasLinked(s, t, id, u, email, link == 0, sealedTokens)
    && (id in s.accounts ==> u == s.accounts[id].user) && (link != 0 ==> u == link)
    && (id !in s.accounts && link == 0 && email in s.emails ==> u == s.emails[email])
    && r.linkMode == (link != 0) && r.created == (u !in s.users)
    && r.linked == (link != 0 || (id !in s.accounts && email in s.emails))
  }

  class Linker {
    const service: Service

    ghost predicate Valid()
      reads this, service, service.q
    {
      service.Valid()
    }

    constructor (service: Service)
      requires service.Valid()
      ensures Valid() && this.service == service
    {
      this.service := service;
    }

    method CreateOAuthUser(profile: Profile, faults: Faults) returns (r: Result<UserId, Error>)
      requires service.InStep()
      modifies service.q`users, service.q`emails, service.q`nextUser, service.q`journal
      ensures service.InStep()
      ensures r.Success? ==>
        && r.value == old(service.q.nextUser) && r.value !in old(service.q.users)
        && (var row := NewUser(profile.email, service.q.now).(verifiedAt := Some(service.q.now));
            service.q.users == old(service.q.users)[r.value := row])
        && service.q.journal == old(service.q.journal) + [Change.CreateUser(r.value, profile.email), Verify(r.value)]
      ensures Complete(profile) && profile.email !in old(service.q.emails) && faults == {} ==> r.Success?
      ensures service.q.nextUser >= old(service.q.nextUser)
    {
      hide History, Replay, Legal, Do, Allowed;
      if profile.email == "" || !profile.emailVerified { return Failure(OAuthProfile); }
      r := service.AddUser(profile.email, InsertUser in faults);
      if r.Failure? { return; }
      var verified := service.VerifyAddress(r.value, MarkVerified in faults);
      if verified.Failure? { return Failure(verified.error); }
      if AddRole in faults { return Failure(Database); }
    }

    // The first half of completeOAuthFlow: whose account is it?
    method ResolveOwner(id: Identity, linkUser: UserId, profile: Profile, faults: Faults)
      returns (r: Result<UserId, Error>)
      requires service.InStep() && Complete(profile)
      modifies service.q`users, service.q`emails, service.q`nextUser, service.q`journal
      ensures service.q.nextUser >= old(service.q.nextUser)
      ensures r.Success? ==> service.InStep()
      ensures r.Success? ==>
        var s := old(service.q.State()); var u := r.value;
        && u == Owner(s, id, linkUser, profile.email, old(service.q.nextUser))
        && (linkUser != 0 ==> u == linkUser && !ClashesWith(s.accounts, id, u))
        && service.q.journal == old(service.q.journal) + OwnerChanges(s, id, linkUser, profile.email, u)
        && (if Creates(s, id, linkUser, profile.email)
            then
              && u in service.q.users && service.q.users[u].Usable(s.now) && service.q.users[u].authVersion == 1
              && u !in s.users
            else service.q.State() == s)
      ensures faults == {} && Linkable(old(service.q.State()), id, linkUser, profile.email) ==> r.Success?
      ensures faults == {} && linkUser != 0 ==>
        var s := old(service.q.State());
        (r == Failure(OAuthConflict) <==>
           (id in s.accounts && s.accounts[id].user != linkUser) || ClashesWith(s.accounts, id, linkUser))
    {
      var q := service.q;
      AccountsAreABijection(service.cfg, q.journal);
      AddressesAreUnique(service.cfg, q.journal);
      hide History, Replay, Legal, Do, Allowed;
      var account := q.GetOAuthAccountByProviderIdentity(id, GetIdentity in faults);
      var u := linkUser;
      if account.Success? {
        if linkUser != 0 && account.value.user != linkUser { return Failure(OAuthConflict); }
        u := account.value.user;
      } else if account.error != NoRows {
        return Failure(account.error);
      } else if linkUser == 0 {
        var matched := q.GetUserByEmail(profile.email, GetUserByEmail in faults);
        if matched.Success? {
          if !q.users[matched.value].isActive { return Failure(AccountDisabled); }
          if q.users[matched.value].IsLocked(q.now) { return Failure(AccountLocked); }
          u := matched.value;
        } else if matched.error != NoRows {
          return Failure(matched.error);
        } else {
          r := CreateOAuthUser(profile, faults);
          return;
        }
      }
      if linkUser != 0 {
        var existing := q.GetOAuthAccountByUserIDAndProvider(linkUser, id.provider, GetLinked in faults);
        if existing.Success? && existing.value.subject != id.subject { return Failure(OAuthConflict); }
        if existing.Failure? && existing.error != NoRows { return Failure(existing.error); }
      }
      return Success(u);
    }

    // The upsert, which would overwrite the owner: the caller has made sure that it does not.
    method LinkIdentity(id: Identity, u: UserId, sealedTokens: string, fault: bool) returns (r: Result<(), Error>)
      requires service.InStep()
      requires id in service.q.accounts ==> service.q.accounts[id].user == u
      modifies service.q`accounts, service.q`journal
      ensures service.InStep()
      ensures r.Success? <==> !fault && u in service.q.users && !ClashesWith(old(service.q.accounts), id, u)
      ensures r.Success? ==>
        && service.q.journal == old(service.q.journal) + [Link(id, u, sealedTokens)]
        && service.q.accounts == old(service.q.accounts)[id := Account(u, sealedTokens)]
    {
      var q := service.q;
      r := q.UpsertOAuthAccount(id, u, sealedTokens, fault);
      if r.Success? {
        q.Log(service.cfg, Link(id, u, sealedTokens));
      }
    }

    // The second half of completeOAuthFlow: link the identity, then authenticate its owner.
    method LinkAndAuthenticate(id: Identity, u: UserId, login: bool, sealedTokens: string, faults: Faults)
      returns (r: Result<Principal, Error>)
      requires service.InStep()
      requires id in service.q.accounts ==> service.q.accounts[id].user == u
      modifies service.q`accounts, service.q`users, service.q`journal
      ensures r.Success? ==>
        && u in old(service.q.users) && old(service.q.users)[u].Usable(old(service.q.now))
        && service.InStep() && r.value.user == u && r.value.version == old(service.q.users)[u].authVersion
        && service.q.accounts == old(service.q.accounts)[id := Account(u, sealedTokens)]
        && !ClashesWith(old(service.q.accounts), id, u)
        && service.q.journal ==
             old(service.q.journal) +
               LinkChanges(id, login, sealedTokens, u, r.value.version, old(service.q.now))
      ensures faults == {} && u in old(service.q.users) && old(service.q.users)[u].Usable(old(service.q.now))
        ==> (!ClashesWith(old(service.q.accounts), id, u) ==> r.Success?)
    {
      hide History, Replay, Legal, Do, Allowed;
      if Seal in faults { return Failure(Database); }
      var linked := LinkIdentity(id, u, sealedTokens, UpsertAccount in faults);
      if linked.Failure? { return Failure(linked.error); }
      r := service.CompleteUserAuthentication(u, login, OtherFactor, faults);
    }

    method CompleteOAuthFlow(id: Identity, linkUser: UserId, profile: Profile, sealedTokens: string, faults: Faults)
      returns (r: Result<Outcome, Error>)
      requires service.InStep() && Complete(profile)
      modifies service.q`users, service.q`emails, service.q`nextUser, service.q`journal, service.q`accounts
      ensures service.q.nextUser >= old(service.q.nextUser)
      ensures r.Success? ==> service.InStep()
      ensures r.Success? ==>
        var s := old(service.q.State()); var u := r.value.principal.user;
        && u == Owner(s, id, linkUser, profile.email, old(service.q.nextUser))
        && (linkUser != 0 ==> u == linkUser)
        && r.value.principal.version == OwnerVersion(s, u)
        && service.q.accounts == s.accounts[id := Account(u, sealedTokens)]
        && service.q.journal ==
             old(service.q.journal) + FlowChanges(s, id, linkUser, profile.email, sealedTokens, u)
        && Reported(s, id, linkUser, profile.email, r.value)
      ensures r.Success? ==> Linkable(old(service.q.State()), id, linkUser, profile.email)
      ensures faults == {} && Linkable(old(service.q.State()), id, linkUser, profile.email) ==> r.Success?
      ensures faults == {} && linkUser != 0 && id in old(service.q.accounts) ==>
        old(service.q.accounts)[id].user != linkUser ==> r == Failure(OAuthConflict)
    {
      AccountsAreABijection(service.cfg, service.q.journal);
      hide History, Replay, Legal, Do, Allowed, OwnerChanges, LinkChanges, Linkable, ClashesWith,
           Bijective, OwnersExist;
      ghost var s, history := service.q.State(), service.q.journal;
      var unknown := id !in service.q.accounts;
      var known := profile.email in service.q.emails && service.q.emails[profile.email] in service.q.users;
      var created := unknown && linkUser == 0 && !known;
      var owner := ResolveOwner(id, linkUser, profile, faults);
      if owner.Failure? { return Failure(owner.error); }
      LinkableIff(s, id, linkUser, profile.email, owner.value);
      var principal := LinkAndAuthenticate(id, owner.value, linkUser == 0, sealedTokens, faults);
      if principal.Failure? { return Failure(principal.error); }
      Associate(history, OwnerChanges(s, id, linkUser, profile.email, owner.value),
                LinkChanges(id, linkUser == 0, sealedTokens, owner.value, principal.value.version, s.now));
      r := Success(Outcome(principal.value, linkUser != 0, created, linkUser != 0 || (unknown && !created)));
    }

    // The transaction of the flow.
    method CommitFlow(id: Identity, linkUser: UserId, profile: Profile, sealedTokens: string, faults: Faults)
      returns (r: Result<Outcome, Error>)
      requires service.InStep() && Complete(profile)
      modifies service.q
      ensures service.InStep() && service.q.calls == old(service.q.calls)
      // Whatever happens, nobody loses an identity.
      ensures forall a :: a in old(service.q.accounts) ==>
        a in service.q.accounts && service.q.accounts[a].user == old(service.q.accounts)[a].user
      ensures r.Failure? ==> service.q.journal == old(service.q.journal) && service.q.State() == old(service.q.State())
      ensures r.Success? ==>
        var s := old(service.q.State()); var u := r.value.principal.user;
        && u == Owner(s, id, linkUser, profile.email, old(service.q.nextUser))
        && (linkUser != 0 ==> u == linkUser)
        && r.value.principal.version == OwnerVersion(s, u)
        && id in service.q.accounts && service.q.accounts[id].user == u
        && service.q.journal ==
             old(service.q.journal) + FlowChanges(s, id, linkUser, profile.email, sealedTokens, u)
        && Reported(s, id, linkUser, profile.email, r.value)
      ensures r.Success? ==>
        Concluded(old(service.q.State()), service.q.State(), id, linkUser, profile.email, sealedTokens, r.value)
      ensures r.Success? ==> Linkable(old(service.q.State()), id, linkUser, profile.email)
      ensures faults == {} ==> (r.Success? <==> Linkable(old(service.q.State()), id, linkUser, profile.email))
    {
      AddressesAreUnique(service.cfg, service.q.journal);
      AccountsAreABijection(service.cfg, service.q.journal);
      hide History, Replay, Legal, Do, Allowed, Linkable, FlowChanges, WasLinked, Bijective;
      if BeginTx in faults { return Failure(Database); }
      var saved := service.q.State();
      ghost var history := service.q.journal;
      r := CompleteOAuthFlow(id, linkUser, profile, sealedTokens, faults);
      if r.Success? && CommitTx in faults { r := Failure(Database); }
      if r.Failure? {
        service.q.Restore(saved, history);
      } else {
        ghost var u := r.value.principal.user;
        FlowShape(saved, id, linkUser, profile.email, sealedTokens, u);
        FlowOutcome(service.cfg, history, FlowChanges(saved, id, linkUser, profile.email, sealedTokens, u), id, u,
                    profile.email, linkUser == 0, sealedTokens, OwnerVersion(saved, u));
      }
    }

    // The callback, up to the session.
    method CompleteOAuthAuthentication(provider: string, flow: Option<Flow>, state: string, code: string,
                                       currentUser: UserId, fetch: Provider, sealedTokens: string, faults: Faults)
      returns (r: Result<Outcome, Error>)
      requires Valid()
      modifies service.q
      ensures Valid()
      ensures service.q.calls == old(service.q.calls) +
        [CompleteOAuth(provider, flow, state, code, currentUser, Answer(flow, code, fetch), sealedTokens,
                       old(service.q.nextUser), r.Success?)]
      // Whatever happens, nobody loses an identity.
      ensures forall a :: a in old(service.q.accounts) ==>
        a in service.q.accounts && service.q.accounts[a].user == old(service.q.accounts)[a].user
      ensures r.Failure? ==> service.q.journal == old(service.q.journal) && service.q.State() == old(service.q.State())
      ensures r.Success? ==>
        Completes(service.cfg, old(service.q.State()), provider, flow, state, code, currentUser,
                  Answer(flow, code, fetch))
      ensures r.Success? ==>
        var s := old(service.q.State()); var profile := Answer(flow, code, fetch).value;
        var id := Identity(provider, profile.subject); var link := flow.value.linkUser; var u := r.value.principal.user;
        && id in service.q.accounts && service.q.accounts[id].user == u
        && u == Owner(s, id, link, profile.email, old(service.q.nextUser))
        && (link != 0 ==> u == link && u == currentUser)
        && r.value.principal.version == OwnerVersion(s, u)
        && Reported(s, id, link, profile.email, r.value)
        && service.q.journal ==
             old(service.q.journal) + FlowChanges(s, id, link, profile.email, sealedTokens, u)
      ensures var e := FlowError(service.cfg, flow, provider, state, code, currentUser, old(service.q.now));
        e.Some? ==> r == Failure(e.value)
      // In the terms of the session and the provider: what was presented is what was drawn, in time.
      ensures r.Success? ==>
        && flow.Some? && flow.value.state == state && flow.value.provider == provider
        && provider in service.cfg.oauthProviders && code != ""
        && flow.value.startedAt.Some?
        && old(service.q.now) <= flow.value.startedAt.value + service.cfg.oauthStateTTL
        && flow.value.startedAt.value <= old(service.q.now) + 60_000_000_000
        && (flow.value.linkUser != 0 ==> flow.value.linkUser == currentUser)
        && (match fetch(code, flow.value.verifier)
            case None => false
            case Some(profile) => profile.subject != "" && profile.email != "" && profile.emailVerified)
      // In the terms of the tables: whose account it is, and what has become of it.
      ensures r.Success? ==>
        var s := old(service.q.State()); var profile := fetch(code, flow.value.verifier).value;
        var id := Identity(provider, profile.subject); var link := flow.value.linkUser;
        Concluded(s, service.q.State(), id, link, profile.email, sealedTokens, r.value)
      // Without failing statements the flow completes exactly when it should.
      ensures faults == {} ==>
        (r.Success? <==>
           Completes(service.cfg, old(service.q.State()), provider, flow, state, code, currentUser,
                     Answer(flow, code, fetch)))
    {
      hide History, Replay, Legal, Do, Allowed, Linkable, Creates, FlowChanges, Owner, Reported, Concluded;
      ghost var s, history, newUser := service.q.State(), service.q.journal, service.q.nextUser;
      var refused := FlowError(service.cfg, flow, provider, state, code, currentUser, service.q.now);
      if refused.Some? {
        r := Failure(refused.value);
      } else {
        var profile := fetch(code, flow.value.verifier);
        if profile.None? {
          r := Failure(Database);
        } else if !Complete(profile.value) {
          r := Failure(OAuthProfile);
        } else {
          r := CommitFlow(Identity(provider, profile.value.subject), flow.value.linkUser, profile.value, sealedTokens,
                          faults);
        }
      }
      service.End(s, history, CompleteOAuth(provider, flow, state, code, currentUser, Answer(flow, code, fetch),
                                            sealedTokens, newUser, r.Success?));
    }
  }
}
