// The role middleware, over the cache.
module Authorization {
  import opened Wrappers
  import opened Schema
  import opened RoleCache
  import RoleStaleness

  // resolveRoleNames. `now` is read before anything else; `resolved` is what the resolver would answer.
  method ResolveRoleNames(c: Cache?, user: UserId, now: Time, resolved: Option<array<string>>)
    returns (r: Option<array<string>>)
    requires c != null ==> c.Valid()
    modifies c
    ensures c != null ==> c.Valid()
    ensures r.Some? ==> fresh(r.value)
    // From the cache only what it still remembers, and all of it while instants do not go back.
    ensures c != null && old(c.Remembers(user, now)) && now >= old(c.horizon) ==>
      r.Some? && r.value[..] == old(c.last[user].0) && c.last == old(c.last)
    // With an instant behind an earlier caller's, what is remembered may be gone from the cache already.
    ensures c != null && old(c.Remembers(user, now)) && now < old(c.horizon) ==>
      || (r.Some? && r.value[..] == old(c.last[user].0) && c.last == old(c.last))
      || (r.Some? && resolved.Some? && r.value[..] == old(resolved.value[..])
          && c.last == old(c.last)[user := (r.value[..], now)])
      || (r.None? && resolved.None? && c.last == old(c.last))
    ensures (c == null || !old(c.Remembers(user, now))) ==>
      && (r.Some? <==> resolved.Some?)
      && (r.Some? ==>
            && r.value[..] == old(resolved.value[..])
            && (c != null ==> c.last == old(c.last)[user := (r.value[..], now)]))
      && (r.None? ==> c != null ==> c.last == old(c.last))
  {
    if c != null {
      var roles, ok := c.Get(user, now);
      if ok { return Some(roles); }
    }
    if resolved.None? { return None; }
    if c != null {
      c.Set(user, resolved.value, now);
    }
    var copy := CloneRoles(resolved.value);
    return Some(copy);
  }

  // The decision: administrators pass, others need one of the required roles.
  method Admits(roles: array<string>, required: seq<string>) returns (admitted: bool)
    ensures admitted <==> RoleStaleness.Permits(roles[..], required)
    ensures "admin" in roles[..] ==> admitted
    ensures forall k :: 0 <= k < |required| && required[k] in roles[..] ==> admitted
    ensures admitted ==> "admin" in roles[..] || exists k :: 0 <= k < |required| && required[k] in roles[..]
  {
    if "admin" in roles[..] { return true; }
    for i := 0 to |required|
      invariant forall k :: 0 <= k < i ==> required[k] !in roles[..]
    {
      if required[i] in roles[..] { return true; }
    }
    return false;
  }

  datatype Verdict = Passed | Unauthorized | InternalError | Forbidden

  // `basis` is the list of roles the decision rests on.
  method RequireRoles(c: Cache?, user: UserId, now: Time, resolved: Option<array<string>>, required: seq<string>)
    returns (v: Verdict, ghost basis: seq<string>)
    requires c != null ==> c.Valid()
    modifies c
    ensures c != null ==> c.Valid()
    ensures user == 0 <==> v == Unauthorized
    // Which roles: those the cache remembers, or those the resolver answers.
    ensures user != 0 && c != null && old(c.Remembers(user, now)) && now >= old(c.horizon) ==>
      v != InternalError && basis == old(c.last[user].0)
    ensures user != 0 && (c == null || !old(c.Remembers(user, now))) ==>
      if resolved.None? then v == InternalError else v != InternalError && basis == old(resolved.value[..])
    // With an instant behind an earlier caller's, one of the two.
    ensures user != 0 && c != null && old(c.Remembers(user, now)) && now < old(c.horizon) ==>
      || (v != InternalError && basis == old(c.last[user].0))
      || (if resolved.None? then v == InternalError else v != InternalError && basis == old(resolved.value[..]))
    // Which verdict: administrators pass, so does whoever holds one of the required roles, and nobody else.
    ensures v == Passed || v == Forbidden ==>
      && ("admin" in basis ==> v == Passed)
      && (forall k :: 0 <= k < |required| && required[k] in basis ==> v == Passed)
      && (v == Passed ==> "admin" in basis || exists k :: 0 <= k < |required| && required[k] in basis)
    ensures (v == Passed || v == Forbidden) && required == ["admin"] ==> (v == Passed <==> "admin" in basis)
    ensures v == Passed ==> RoleStaleness.Permits(basis, required)
    ensures v == Forbidden ==> !RoleStaleness.Permits(basis, required)
  {
    basis := [];
    if user == 0 { return Unauthorized, basis; }
    var roles := ResolveRoleNames(c, user, now, resolved);
    if roles.None? { return InternalError, basis; }
    basis := roles.value[..];
    var admitted := Admits(roles.value, required);
    v := if admitted then Passed else Forbidden;
    if required == ["admin"] {
      assert required[0] == "admin";
    }
  }
}
