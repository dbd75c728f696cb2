// How old the roles behind an authorization decision can be. Requests, role changes and sweeps
// interleave freely; each lock-protected section of the cache, and each database read, is one step.
module RoleStaleness {
  import opened Wrappers
  import opened Schema
  import RoleCache

  type Roles = seq<string>
  type Items = map<UserId, RoleCache.Entry<Roles>>

  // Where a request stands; `at` is the instant it captured before anything else.
  datatype Request =
    | Looking(user: UserId, at: Time)
    | Evicting(user: UserId, at: Time)
    | Resolving(user: UserId, at: Time)
    | Storing(user: UserId, at: Time, roles: Roles)
    | Decided(user: UserId, at: Time, roles: Roles)
    | Failed

  datatype State = State(clock: Time, db: map<UserId, Roles>, items: Items, requests: map<nat, Request>)

  datatype Action =
    | Advance(elapsed: nat)
    | ChangeRoles(user: UserId, roles: Roles)
    | Sweep(at: Time)
    | Arrive(id: nat, user: UserId)
    | Look(id: nat)
    | Evict(id: nat)
    | Resolve(id: nat)
    | Fail(id: nat)
    | Store(id: nat)

  function RolesOf(s: State, user: UserId): Roles {
    if user in s.db then s.db[user] else []
  }

  // The decision of RequireRoles.
  predicate Permits(roles: Roles, required: seq<string>) {
    "admin" in roles || exists r :: r in required && r in roles
  }

  predicate Enabled(s: State, a: Action) {
    match a
    case Advance(_) => true
    case ChangeRoles(_, _) => true
    case Sweep(at) => at <= s.clock
    case Arrive(id, _) => id !in s.requests
    case Look(id) => id in s.requests && s.requests[id].Looking?
    case Evict(id) => id in s.requests && s.requests[id].Evicting?
    case Resolve(id) => id in s.requests && s.requests[id].Resolving?
    case Fail(id) => id in s.requests && s.requests[id].Resolving?
    case Store(id) => id in s.requests && s.requests[id].Storing?
  }

  function Do(ttl: int, s: State, a: Action): State
    requires Enabled(s, a)
  {
    match a
    case Advance(elapsed) => s.(clock := s.clock + elapsed)
    case ChangeRoles(user, roles) => s.(db := s.db[user := roles])
    case Sweep(at) => s.(items := RoleCache.AfterSweep(s.items, at))
    case Arrive(id, user) => s.(requests := s.requests[id := Looking(user, s.clock)])
    case Look(id) =>
      var r := s.requests[id];
      var next :=
        if r.user !in s.items then Resolving(r.user, r.at)
        else if r.at > s.items[r.user].expiresAt then Evicting(r.user, r.at)
        else Decided(r.user, r.at, s.items[r.user].value);
      s.(requests := s.requests[id := next])
    case Evict(id) =>
      var r := s.requests[id];
      s.(items := RoleCache.AfterEvict(s.items, r.user, r.at), requests := s.requests[id := Resolving(r.user, r.at)])
    case Resolve(id) =>
      var r := s.requests[id];
      s.(requests := s.requests[id := Storing(r.user, r.at, RolesOf(s, r.user))])
    case Fail(id) => s.(requests := s.requests[id := Request.Failed])
    case Store(id) =>
      var r := s.requests[id];
      s.(items := s.items[r.user := RoleCache.Entry(r.roles, r.at + ttl)],
         requests := s.requests[id := Decided(r.user, r.at, r.roles)])
  }

  ghost predicate Next(ttl: int, s: State, t: State) {
    exists a :: Enabled(s, a) && t == Do(ttl, s, a)
  }

  // A run from an empty cache.
  ghost predicate Run(ttl: int, run: seq<State>) {
    && run != [] && run[0].items == map[] && run[0].requests == map[]
    && forall i :: 0 <= i < |run| - 1 ==> Next(ttl, run[i], run[i + 1])
  }

  // Up to position i the database showed these roles of the user at an instant not before `since`.
  ghost predicate Stood(run: seq<State>, i: int, user: UserId, roles: Roles, since: Time)
    requires i < |run|
  {
    exists r :: 0 <= r <= i && run[r].clock >= since && RolesOf(run[r], user) == roles
  }

  ghost predicate RequestOk(ttl: int, run: seq<State>, i: nat, r: Request)
    requires i < |run|
  {
    match r
    case Storing(user, at, roles) => at <= run[i].clock && Stood(run, i, user, roles, at)
    case Decided(user, at, roles) => at <= run[i].clock && Stood(run, i, user, roles, at - ttl)
    case Failed => true
    case _ => r.at <= run[i].clock
  }

  // An entry holds roles that stood when, or after, its writer read the clock.
  ghost predicate Justified(ttl: int, run: seq<State>, i: nat)
    requires i < |run|
  {
    && (forall u :: u in run[i].items ==>
          Stood(run, i, u, run[i].items[u].value, run[i].items[u].expiresAt - ttl))
    && (forall id :: id in run[i].requests ==> RequestOk(ttl, run, i, run[i].requests[id]))
  }

  lemma StoodLater(run: seq<State>, i: nat, user: UserId, roles: Roles, since: Time, earlier: Time)
    requires i + 1 < |run| && Stood(run, i, user, roles, since) && earlier <= since
    ensures Stood(run, i + 1, user, roles, earlier)
  {
    var r :| 0 <= r <= i && run[r].clock >= since && RolesOf(run[r], user) == roles;
    assert run[r].clock >= earlier;
  }

  lemma RequestStep(ttl: int, run: seq<State>, i: nat, a: Action, id: nat)
    requires ttl > 0 && i + 1 < |run| && Justified(ttl, run, i)
    requires Enabled(run[i], a) && run[i + 1] == Do(ttl, run[i], a)
    requires id in run[i + 1].requests
    ensures RequestOk(ttl, run, i + 1, run[i + 1].requests[id])
  {
    var s, t := run[i], run[i + 1];
    var now := t.requests[id];
    if id in s.requests && s.requests[id] == now {
      assert RequestOk(ttl, run, i, now);
      if now.Storing? {
        StoodLater(run, i, now.user, now.roles, now.at, now.at);
      } else if now.Decided? {
        StoodLater(run, i, now.user, now.roles, now.at - ttl, now.at - ttl);
      }
    } else if now.Decided? {
      assert RequestOk(ttl, run, i, s.requests[id]);
      if s.requests[id].Looking? {
        StoodLater(run, i, now.user, now.roles, s.items[now.user].expiresAt - ttl, now.at - ttl);
      } else {
        StoodLater(run, i, now.user, now.roles, now.at, now.at - ttl);
      }
    } else if now.Storing? {
      assert RequestOk(ttl, run, i, s.requests[id]);
      assert Stood(run, i, now.user, now.roles, now.at);
      StoodLater(run, i, now.user, now.roles, now.at, now.at);
    } else if id in s.requests {
      assert RequestOk(ttl, run, i, s.requests[id]);
    }
  }

  lemma ItemStep(ttl: int, run: seq<State>, i: nat, a: Action, u: UserId)
    requires ttl > 0 && i + 1 < |run| && Justified(ttl, run, i)
    requires Enabled(run[i], a) && run[i + 1] == Do(ttl, run[i], a)
    requires u in run[i + 1].items
    ensures Stood(run, i + 1, u, run[i + 1].items[u].value, run[i + 1].items[u].expiresAt - ttl)
  {
    var e := run[i + 1].items[u];
    if !(u in run[i].items && run[i].items[u] == e) {
      assert RequestOk(ttl, run, i, run[i].requests[a.id]);
    }
    StoodLater(run, i, u, e.value, e.expiresAt - ttl, e.expiresAt - ttl);
  }

  lemma {:induction false} EveryStateIsJustified(ttl: int, run: seq<State>, i: nat)
    requires ttl > 0 && Run(ttl, run) && i < |run|
    ensures Justified(ttl, run, i)
  {
    if i > 0 {
      EveryStateIsJustified(ttl, run, i - 1);
      assert Next(ttl, run[i - 1], run[i - 1 + 1]);
      var a :| Enabled(run[i - 1], a) && run[i] == Do(ttl, run[i - 1], a);
      forall id | id in run[i].requests ensures RequestOk(ttl, run, i, run[i].requests[id]) {
        RequestStep(ttl, run, i - 1, a, id);
      }
      forall u | u in run[i].items ensures Stood(run, i, u, run[i].items[u].value, run[i].items[u].expiresAt - ttl) {
        ItemStep(ttl, run, i - 1, a, u);
      }
    }
  }

  // A decision of a request that captured the instant t uses roles the database showed at some instant
  // from t - ttl on, in every interleaving: also when a slow request overwrites a newer entry.
  lemma BoundedStaleness(ttl: int, run: seq<State>, i: nat, id: nat)
    requires ttl > 0 && Run(ttl, run) && i < |run| && id in run[i].requests && run[i].requests[id].Decided?
    ensures var d := run[i].requests[id]; Stood(run, i, d.user, d.roles, d.at - ttl)
  {
    EveryStateIsJustified(ttl, run, i);
    assert RequestOk(ttl, run, i, run[i].requests[id]);
  }

  // Once the roles of a user have not permitted something for the time limit, no request is let through;
  // and while they have permitted it all that time, none is turned away.
  lemma DecisionsFollowTheDatabase(ttl: int, run: seq<State>, i: nat, id: nat, required: seq<string>, verdict: bool)
    requires ttl > 0 && Run(ttl, run) && i < |run| && id in run[i].requests && run[i].requests[id].Decided?
    requires forall r :: 0 <= r <= i && run[r].clock >= run[i].requests[id].at - ttl ==>
               Permits(RolesOf(run[r], run[i].requests[id].user), required) == verdict
    ensures Permits(run[i].requests[id].roles, required) == verdict
  {
    BoundedStaleness(ttl, run, i, id);
    var d := run[i].requests[id];
    var r :| 0 <= r <= i && run[r].clock >= d.at - ttl && RolesOf(run[r], d.user) == d.roles;
  }

  // A role that the database has not shown for the user all that time is not among the roles of the decision,
  // and one that it has shown all that time is.
  lemma RolesFollowTheDatabase(ttl: int, run: seq<State>, i: nat, id: nat, role: string, held: bool)
    requires ttl > 0 && Run(ttl, run) && i < |run| && id in run[i].requests && run[i].requests[id].Decided?
    requires forall r :: 0 <= r <= i && run[r].clock >= run[i].requests[id].at - ttl ==>
               (role in RolesOf(run[r], run[i].requests[id].user) <==> held)
    ensures role in run[i].requests[id].roles <==> held
  {
    BoundedStaleness(ttl, run, i, id);
    var d := run[i].requests[id];
    var r :| 0 <= r <= i && run[r].clock >= d.at - ttl && RolesOf(run[r], d.user) == d.roles;
  }

  // What may delete entries of u: a sweep, at its instant, or the second section of a Get of u, at the instant
  // its request captured.
  predicate Deletes(s: State, a: Action, u: UserId) {
    a.Sweep? || (a.Evict? && a.id in s.requests && s.requests[a.id].Evicting? && s.requests[a.id].user == u)
  }

  function DeletedAt(s: State, a: Action, u: UserId): Time
    requires Deletes(s, a, u)
  {
    if a.Sweep? then a.at else s.requests[a.id].at
  }

  // In any state, a step removes exactly the entries that have expired at the instant of their deleter: none
  // that was refreshed between the two sections of the Get.
  lemma UnexpiredEntriesStay(ttl: int, s: State, a: Action, u: UserId)
    requires Enabled(s, a) && u in s.items
    ensures u !in Do(ttl, s, a).items <==> Deletes(s, a, u) && DeletedAt(s, a, u) > s.items[u].expiresAt
  {
  }

  // In a run no deleter is ahead of the clock, so what has not expired by the clock stays.
  lemma OnlyExpiredEntriesGo(ttl: int, run: seq<State>, i: nat, u: UserId)
    requires ttl > 0 && Run(ttl, run) && i + 1 < |run|
    requires u in run[i].items && run[i].clock <= run[i].items[u].expiresAt
    ensures u in run[i + 1].items
  {
    EveryStateIsJustified(ttl, run, i);
    assert Next(ttl, run[i], run[i + 1]);
    var a :| Enabled(run[i], a) && run[i + 1] == Do(ttl, run[i], a);
    UnexpiredEntriesStay(ttl, run[i], a, u);
    if a.Evict? {
      assert RequestOk(ttl, run, i, run[i].requests[a.id]);
    }
  }
}
