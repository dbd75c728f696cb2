// What the HTTP handlers and the authentication middleware do to the sessions.
module Handlers {
  import opened Wrappers
  import opened Schema
  import opened Journal
  import opened SessionRevocation
  import opened Queries
  import opened AuthService
  import opened Calls
  import opened OAuthFlow
  import opened Outcomes

  // The session values the handlers read and write; 0 is the value of a missing key.
  datatype Session = Session(user: UserId, version: int, flow: Option<Flow>)

  // What has happened to the flow of a session: one was started, with the values drawn for it, or a callback
  // came for it.
  datatype Event =
    | Started(session: string, provider: string, state: string, verifier: string, at: Time, user: UserId)
    | CalledBack(session: string)

  function LastEvent(events: seq<Event>, session: string): Option<Event> {
    if events == [] then None
    else if events[|events| - 1].session == session then Some(events[|events| - 1])
    else LastEvent(events[..|events| - 1], session)
  }

  lemma OneMoreEvent(events: seq<Event>, e: Event, session: string)
    ensures LastEvent(events + [e], session) == if e.session == session then Some(e) else LastEvent(events, session)
  {
    assert (events + [e])[..|events|] == events;
  }

  const NO_SESSION := Session(0, 0, None)

  lemma GrantedStays(j: seq<Change>, k: seq<Change>, u: UserId, version: int)
    requires j <= k && Granted(j, u, version)
    ensures Granted(k, u, version)
  {
    var i :| 0 <= i < |j| && j[i].Grant? && j[i].user == u && j[i].version == version;
    assert k[i] == j[i];
  }

  lemma GrantedLast(j: seq<Change>, c: Change)
    requires c.Grant? && j != [] && j[|j| - 1] == c
    ensures Granted(j, c.user, c.version)
  {
  }

  class AuthHandler {
    const linker: Linker
    var sessions: map<string, Session>

    // The flows that were started and called back.
    ghost var events: seq<Event>

    // A session that keeps a flow keeps the one that was started last, and no callback has come for it.
    ghost predicate FlowsAreStarted()
      reads this
    {
      forall id :: id in sessions && sessions[id].flow.Some? ==>
        var f := sessions[id].flow.value;
        f.startedAt.Some?
        && LastEvent(events, id) == Some(Started(id, f.provider, f.state, f.verifier, f.startedAt.value, f.linkUser))
    }

    // Every logged-in session carries a version that a login was given.
    ghost predicate Valid()
      reads this, linker, linker.service, linker.service.q
    {
      && linker.Valid() && FlowsAreStarted()
      && forall id :: id in sessions && sessions[id].user != 0 ==>
           Granted(linker.service.q.journal, sessions[id].user, sessions[id].version)
    }

    constructor (linker: Linker)
      requires linker.Valid()
      ensures Valid() && this.linker == linker && sessions == map[]
    {
      this.linker := linker;
      sessions, events := map[], [];
    }

    function Current(id: string): Session
      reads this
    {
      if id in sessions then sessions[id] else NO_SESSION
    }

    // No session is ahead of its account, and a session that is behind is rejected.
    lemma SessionsNeverRunAhead(id: string)
      requires Valid() && id in sessions && sessions[id].user != 0
      ensures var s := linker.service.q.State(); var u := sessions[id].user;
              && u in s.users && sessions[id].version <= s.users[u].authVersion
              && (sessions[id].version < s.users[u].authVersion ==> !SessionValid(s, u, sessions[id].version))
    {
      var j := linker.service.q.journal;
      var i :| 0 <= i < |j| && j[i].Grant? && j[i].user == sessions[id].user && j[i].version == sessions[id].version;
      SessionAcceptedIff(linker.service.cfg, j, i, sessions[id].user, sessions[id].version);
    }

    // The sessions stay good while the history grows.
    twostate lemma HistoryGrew()
      requires old(Valid()) && linker.Valid() && sessions == old(sessions) && events == old(events)
      requires old(linker.service.q.journal) <= linker.service.q.journal
      ensures Valid()
    {
      forall id | id in sessions && sessions[id].user != 0
        ensures Granted(linker.service.q.journal, sessions[id].user, sessions[id].version)
      {
        GrantedStays(old(linker.service.q.journal), linker.service.q.journal, sessions[id].user, sessions[id].version);
      }
    }

    // completeLogin: whenever it comes after the login, the session gets the version the login saw.
    method CompleteLogin(id: string, p: Principal, renewFails: bool) returns (r: Result<(), Error>)
      requires Valid() && Granted(linker.service.q.journal, p.user, p.version)
      modifies this
      ensures Valid() && events == old(events)
      ensures r == if renewFails then Failure(Database) else Success(())
      ensures sessions ==
        if renewFails then old(sessions)
        else old(sessions)[id := old(Current(id)).(user := p.user, version := p.version)]
    {
      if renewFails { return Failure(Database); }
      sessions := sessions[id := Current(id).(user := p.user, version := p.version)];
      return Success(());
    }

    method Login(id: string, email: string, password: string, code: string, admitted: bool, faults: Faults,
                 renewFails: bool)
      returns (r: Result<Principal, Error>)
      requires Valid()
      modifies this, linker.service.q
      ensures Valid() && events == old(events)
      ensures r.Failure? ==> sessions == old(sessions)
      ensures var s := old(linker.service.q.State());
        r.Success? <==>
          && Judged(s, email, admitted, faults)
          && Proven(linker.service.cfg, s, Candidate(s, email).value, password, code, faults)
          && faults !! {GetUserByID, UpdateLogin} + AFTER_LOGIN && !renewFails
      ensures r.Success? ==>
        && Judged(old(linker.service.q.State()), email, admitted, faults)
        && r.value.user == Candidate(old(linker.service.q.State()), email).value
        && Proven(linker.service.cfg, old(linker.service.q.State()), r.value.user, password, code, faults)
        && r.value.version == old(linker.service.q.users)[r.value.user].authVersion
        && sessions == old(sessions)[id := old(Current(id)).(user := r.value.user, version := r.value.version)]
    {
      hide History, Replay, Legal, Do, Allowed, SecondFactorOk, FailureOf;
      var q := linker.service.q;
      r := linker.service.LoginWithPassword(email, password, code, admitted, faults);
      HistoryGrew();
      if r.Failure? { return; }
      GrantedLast(q.journal, q.journal[|q.journal| - 1]);
      var completed := CompleteLogin(id, r.value, renewFails);
      if completed.Failure? { return Failure(completed.error); }
    }

    // The user of the session, when there is one and it is still accepted; a rejected session is destroyed.
    method ValidatedOptionalUserID(id: string, fault: bool, destroyFails: bool) returns (r: Result<UserId, Error>)
      requires Valid()
      modifies this
      ensures Valid() && events == old(events)
      ensures var was := old(Current(id)); var s := linker.service.q.State();
        && (r.Success? ==> r.value == was.user && sessions == old(sessions))
        && (r.Success? && r.value != 0 ==> SessionValid(s, r.value, was.version))
        && (was.user == 0 ==> r == Success(0))
        && (was.user != 0 && fault ==> r.Failure?)
        && (was.user != 0 && !fault ==>
              if SessionValid(s, was.user, was.version) then r == Success(was.user)
              else if destroyFails then r == Failure(Database) && sessions == old(sessions)
              else r == Failure(Unauthorized) && sessions == old(sessions) - {id})
        && (sessions == old(sessions) || sessions == old(sessions) - {id})
    {
      var user := Current(id).user;
      if user == 0 { return Success(0); }
      var valid := linker.service.ValidateSession(user, Current(id).version, fault);
      if valid.Failure? { return Failure(valid.error); }
      if !valid.value {
        if destroyFails { return Failure(Database); }
        sessions := sessions - {id};
        return Failure(Unauthorized);
      }
      return Success(user);
    }

    // RequireAuthenticated: the request goes through exactly when its session is accepted.
    method RequireAuthenticated(id: string, fault: bool, destroyFails: bool) returns (admitted: bool)
      requires Valid()
      modifies this
      ensures Valid() && events == old(events)
      ensures var was := old(Current(id));
        && (!fault || was.user == 0 ==> (admitted <==> SessionValid(linker.service.q.State(), was.user, was.version)))
        && (admitted ==> SessionValid(linker.service.q.State(), was.user, was.version) && sessions == old(sessions))
        && (was.user != 0 && !fault && !destroyFails && !admitted ==> sessions == old(sessions) - {id})
      ensures admitted ==>
        var was := old(Current(id)); var users := linker.service.q.users;
        && was.user in users && Open(users[was.user], linker.service.q.now)
        && users[was.user].authVersion == was.version
    {
      var user := Current(id).user;
      if user == 0 { return false; }
      var valid := linker.service.ValidateSession(user, Current(id).version, fault);
      if valid.Failure? { return false; }
      if !valid.value && !destroyFails {
        sessions := sessions - {id};
      }
      return valid.value;
    }

    method Logout(id: string, destroyFails: bool)
      requires Valid()
      modifies this
      ensures events == old(events)
      ensures Valid() && sessions == if destroyFails then old(sessions) else old(sessions) - {id}
    {
      if !destroyFails {
        sessions := sessions - {id};
      }
    }

    // `state` and `verifier` are the random values drawn for the flow.
    method StartOAuth(id: string, provider: string, state: string, verifier: string, fault: bool, destroyFails: bool)
      returns (r: Result<bool, Error>)
      requires Valid()
      modifies this
      ensures Valid()
      ensures events == old(events) +
        if r.Success?
        then [Started(id, provider, state, verifier, linker.service.q.now, old(Current(id)).user)] else []
      ensures var was := old(Current(id));
        r.Success? <==>
          && provider in linker.service.cfg.oauthProviders
          && (was.user == 0 || (!fault && SessionValid(linker.service.q.State(), was.user, was.version)))
      ensures r.Success? ==>
        var was := old(Current(id));
        && (was.user != 0 ==> SessionValid(linker.service.q.State(), was.user, was.version))
        && r.value == (was.user != 0) && provider in linker.service.cfg.oauthProviders
        && var flow := Flow(provider, state, verifier, Some(linker.service.q.now), was.user);
           sessions == old(sessions)[id := was.(flow := Some(flow))]
      ensures r.Failure? ==> sessions == old(sessions) || sessions == old(sessions) - {id}
    {
      var user := ValidatedOptionalUserID(id, fault, destroyFails);
      if user.Failure? { return Failure(user.error); }
      if provider !in linker.service.cfg.oauthProviders { return Failure(OAuthProvider); }
      var flow := Flow(provider, state, verifier, Some(linker.service.q.now), user.value);
      sessions := sessions[id := Current(id).(flow := Some(flow))];
      ghost var e := Started(id, provider, state, verifier, linker.service.q.now, user.value);
      forall other ensures LastEvent(events + [e], other) == if other == id then Some(e) else LastEvent(events, other) {
        OneMoreEvent(events, e, other);
      }
      events := events + [e];
      return Success(user.value != 0);
    }

    // The callback, once its flow is taken out of the session and its user is known.
    method FinishOAuth(id: string, provider: string, flow: Option<Flow>, state: string, code: string, user: UserId,
                       fetch: Provider, sealedTokens: string, faults: Faults, renewFails: bool)
      returns (r: Result<Outcome, Error>)
      requires Valid()
      modifies this, linker.service.q
      ensures Valid() && events == old(events)
      ensures r.Failure? ==> sessions == old(sessions)
      ensures r.Failure? && !renewFails ==>
        linker.service.q.State() == old(linker.service.q.State())
        && linker.service.q.journal == old(linker.service.q.journal)
      ensures r.Success? ==>
        && Completes(linker.service.cfg, old(linker.service.q.State()), provider, flow, state, code, user,
                     Answer(flow, code, fetch))
        && (var identity, p := Identity(provider, Answer(flow, code, fetch).value.subject), r.value.principal;
            && identity in linker.service.q.accounts && linker.service.q.accounts[identity].user == p.user
            && if flow.value.linkUser != 0 then p.user == flow.value.linkUser == user && sessions == old(sessions)
               else sessions == old(sessions)[id := old(Current(id)).(user := p.user, version := p.version)])
      ensures r.Success? ==>
        && flow.Some? && flow.value.state == state && flow.value.provider == provider && code != ""
        && flow.value.startedAt.Some?
        && old(linker.service.q.now) <= flow.value.startedAt.value + linker.service.cfg.oauthStateTTL
        && flow.value.startedAt.value <= old(linker.service.q.now) + 60_000_000_000
        && (flow.value.linkUser != 0 ==> flow.value.linkUser == user)
        && (match fetch(code, flow.value.verifier)
            case None => false
            case Some(profile) => profile.subject != "" && profile.email != "" && profile.emailVerified)
      ensures faults == {} && !renewFails ==>
        (r.Success? <==>
           Completes(linker.service.cfg, old(linker.service.q.State()), provider, flow, state, code, user,
                     Answer(flow, code, fetch)))
    {
      hide History, Replay, Legal, Do, Allowed, Owner, OwnerChanges, Creates, Linkable, Concluded, LastEvent;
      var q := linker.service.q;
      r := linker.CompleteOAuthAuthentication(provider, flow, state, code, user, fetch, sealedTokens, faults);
      HistoryGrew();
      if r.Success? && !r.value.linkMode {
        GrantedLast(q.journal, q.journal[|q.journal| - 1]);
        var completed := CompleteLogin(id, r.value.principal, renewFails);
        if completed.Failure? { return Failure(completed.error); }
      }
    }

    // The callback takes the flow out of the session before anything else: it cannot be completed twice.
    // An identity is linked only to the user of a session that is accepted at that moment, and a refused
    // callback leaves the tables as they were.
    method CompleteOAuth(id: string, provider: string, state: string, code: string, fetch: Provider,
                         sealedTokens: string, faults: Faults, fault: bool, destroyFails: bool, renewFails: bool)
      returns (r: Result<Outcome, Error>)
      requires Valid()
      modifies this, linker.service.q
      ensures Valid() && events == old(events) + [CalledBack(id)]
      // What succeeds presents the state drawn for the flow that this session started last, in time, and no
      // callback came for it before.
      ensures r.Success? ==>
        && LastEvent(old(events), id).Some?
        && var start := LastEvent(old(events), id).value;
           && start.Started? && start.state == state && start.provider == provider && code != ""
           && old(linker.service.q.now) <= start.at + linker.service.cfg.oauthStateTTL
           && start.at <= old(linker.service.q.now) + 60_000_000_000
           && (start.user != 0 ==> start.user == old(Current(id)).user == r.value.principal.user)
           && (match fetch(code, start.verifier)
               case None => false
               case Some(profile) => profile.subject != "" && profile.email != "" && profile.emailVerified)
      ensures Current(id).flow.None?
      ensures forall other | other != id :: Current(other) == old(Current(other))
      ensures r.Failure? && !renewFails ==>
        linker.service.q.State() == old(linker.service.q.State())
        && linker.service.q.journal == old(linker.service.q.journal)
      ensures r.Success? ==>
        var was := old(Current(id)); var s := old(linker.service.q.State()); var p := r.value.principal;
        && (was.user != 0 ==> SessionValid(s, was.user, was.version))
        && Completes(linker.service.cfg, s, provider, was.flow, state, code, was.user, Answer(was.flow, code, fetch))
        && (var identity := Identity(provider, Answer(was.flow, code, fetch).value.subject);
            identity in linker.service.q.accounts && linker.service.q.accounts[identity].user == p.user)
        && (if was.flow.value.linkUser != 0
            then p.user == was.flow.value.linkUser == was.user && Current(id) == was.(flow := None)
            else Current(id) == Session(p.user, p.version, None))
      ensures faults == {} && !fault && !renewFails ==>
        var was := old(Current(id)); var s := old(linker.service.q.State());
        (r.Success? <==>
           && (was.user == 0 || SessionValid(s, was.user, was.version))
           && Completes(linker.service.cfg, s, provider, was.flow, state, code, was.user,
                        Answer(was.flow, code, fetch)))
    {
      hide History, Replay, Legal, Do, Allowed, Completes, LastEvent;
      var flow := Current(id).flow;
      if id in sessions {
        sessions := sessions[id := sessions[id].(flow := None)];
      }
      forall other
        ensures LastEvent(events + [CalledBack(id)], other) ==
          if other == id then Some(CalledBack(id)) else LastEvent(events, other)
      {
        OneMoreEvent(events, CalledBack(id), other);
      }
      events := events + [CalledBack(id)];
      var user := ValidatedOptionalUserID(id, fault, destroyFails);
      if user.Failure? { return Failure(user.error); }
      r := FinishOAuth(id, provider, flow, state, code, user.value, fetch, sealedTokens, faults, renewFails);
    }
  }
}
