// The time-limited cache of role names, as the app installs it: values are slices, and the cache keeps
// and hands out copies.
module RoleCache {
  import opened Wrappers
  import opened Schema

  datatype Entry<V> = Entry(value: V, expiresAt: Time)

  // What the critical sections of the cache do to its items.
  function AfterEvict<V>(items: map<UserId, Entry<V>>, key: UserId, now: Time): map<UserId, Entry<V>> {
    if key in items && now > items[key].expiresAt then items - {key} else items
  }

  function AfterSweep<V>(items: map<UserId, Entry<V>>, now: Time): map<UserId, Entry<V>> {
    map k | k in items && !(now > items[k].expiresAt) :: items[k]
  }

  lemma SweepAfterEvict<V>(items: map<UserId, Entry<V>>, k: UserId, now: Time)
    ensures AfterSweep(AfterEvict(items, k, now), now) == AfterSweep(items, now)
  {
  }

  // The copying clone the app passes to the cache.
  method CloneRoles(roles: array<string>) returns (copy: array<string>)
    ensures fresh(copy) && copy[..] == roles[..]
  {
    copy := new string[roles.Length](_ => "");
    for i := 0 to roles.Length
      invariant copy[..i] == roles[..i]
    {
      copy[i] := roles[i];
    }
    assert copy[..] == copy[..roles.Length] && roles[..] == roles[..roles.Length];
  }

  class Cache {
    const ttl: int
    var items: map<UserId, Entry<array<string>>>
    // A cache that never deletes: the last value set for each key, and the instant given with it.
    ghost var last: map<UserId, (seq<string>, Time)>
    // The latest instant a caller has brought.
    ghost var horizon: Time

    ghost function Stored(): set<array<string>>
      reads this
    {
      set k | k in items :: items[k].value
    }

    // The items are what was last set, and what is missing had expired for somebody.
    ghost predicate Valid()
      reads this, Stored()
    {
      && ttl > 0
      && (forall k :: k in items ==>
            k in last && items[k].value[..] == last[k].0 && items[k].expiresAt == last[k].1 + ttl)
      && (forall k :: k in last && k !in items ==> last[k].1 + ttl < horizon)
    }

    constructor (ttl: int)
      requires ttl > 0
      ensures Valid() && this.ttl == ttl && last == map[] && items == map[] && horizon == 0
    {
      this.ttl := ttl;
      items, last, horizon := map[], map[], 0;
    }

    // What the never-deleting cache answers.
    ghost predicate Remembers(key: UserId, now: Time)
      reads this
    {
      key in last && now <= last[key].1 + ttl
    }

    ghost method Witness(now: Time)
      modifies this`horizon
      ensures horizon == if now > old(horizon) then now else old(horizon)
    {
      horizon := if now > horizon then now else horizon;
    }

    // The write-locked part of Get: it looks again before it deletes.
    method EvictIfExpired(key: UserId, now: Time)
      requires Valid()
      modifies this`items, this`horizon
      ensures Valid() && items == AfterEvict(old(items), key, now)
      ensures horizon == if now > old(horizon) then now else old(horizon)
    {
      Witness(now);
      if key in items && now > items[key].expiresAt {
        items := items - {key};
      }
    }

    // A hit is always right. With instants that never go back the answer is that of the cache that never
    // deletes: a hit exactly when the last value was set within the time limit.
    method Get(key: UserId, now: Time) returns (roles: array<string>, ok: bool)
      requires Valid()
      modifies this`items, this`horizon
      ensures Valid() && fresh(roles)
      ensures ok ==> Remembers(key, now) && roles[..] == last[key].0
      ensures !ok ==> roles[..] == []
      ensures now >= old(horizon) && Remembers(key, now) ==> ok
      ensures items == if ok then old(items) else AfterEvict(old(items), key, now)
      ensures horizon == if now > old(horizon) then now else old(horizon)
    {
      Witness(now);
      if key in items && !(now > items[key].expiresAt) {
        roles := CloneRoles(items[key].value);
        return roles, true;
      }
      if key in items {
        EvictIfExpired(key, now);
      }
      roles := new string[0];
      return roles, false;
    }

    // The cache keeps a copy of its own.
    method Set(key: UserId, value: array<string>, now: Time)
      requires Valid()
      modifies this
      ensures Valid() && last == old(last)[key := (value[..], now)]
      ensures key in items && fresh(items[key].value) && items == old(items)[key := items[key]]
      ensures horizon == if now > old(horizon) then now else old(horizon)
    {
      Witness(now);
      var copy := CloneRoles(value);
      items := items[key := Entry(copy, now + ttl)];
      last := last[key := (value[..], now)];
    }

    // `order` is the order in which the range statement happens to visit the keys.
    method Sweep(now: Time, order: seq<UserId>)
      requires Valid() && forall k :: k in items ==> k in order
      modifies this`items, this`horizon
      ensures Valid() && items == AfterSweep(old(items), now)
      ensures horizon == if now > old(horizon) then now else old(horizon)
    {
      Witness(now);
      for i := 0 to |order|
        invariant Valid() && horizon == if now > old(horizon) then now else old(horizon)
        invariant AfterSweep(items, now) == AfterSweep(old(items), now)
        invariant forall k :: k in items && now > items[k].expiresAt ==> k in order[i..]
      {
        SweepAfterEvict(items, order[i], now);
        EvictIfExpired(order[i], now);
      }
      forall k | k in items ensures !(now > items[k].expiresAt) {
        assert k !in order[|order|..];
      }
      assert items == AfterSweep(items, now);
    }
  }

  // New: no cache at all for a time limit that is not positive.
  method New(ttl: int) returns (c: Cache?)
    ensures c == null <==> ttl <= 0
    ensures c != null ==> c.Valid() && c.ttl == ttl && fresh(c) && c.last == map[]
  {
    if ttl <= 0 { return null; }
    c := new Cache(ttl);
  }
}
