// The holders of the slices given to Set and returned by Get can write to them as they like: the cache answers
// like one that keeps values.
module RoleIsolation {
  import opened Wrappers
  import opened Schema
  import opened RoleCache

  type Roles = seq<string>

  // What the holders of slices can do. They name a slice by its place among those they hold; a slice that Get
  // returns takes the next place.
  datatype Step =
    | Write(slice: nat, i: nat, role: string)
    | SetFrom(slice: nat, key: UserId, now: Time)
    | Ask(key: UserId, now: Time)
    | SweepAt(now: Time)

  // The same with values: what was last set for each key, the latest instant, and what the slices read.
  datatype World = World(last: map<UserId, (Roles, Time)>, horizon: Time, slices: seq<Roles>)

  function Later(a: Time, b: Time): Time {
    if b > a then b else a
  }

  predicate Remembered(ttl: int, w: World, key: UserId, now: Time) {
    key in w.last && now <= w.last[key].1 + ttl
  }

  // What the cache may answer: a hit is what was last set and not yet expired, and with instants that do not
  // go back every such value is a hit.
  predicate Right(ttl: int, w: World, step: Step, answer: Option<Roles>) {
    if !step.Ask? then answer.None?
    else
      && (answer.Some? ==> Remembered(ttl, w, step.key, step.now) && answer.value == w.last[step.key].0)
      && (step.now >= w.horizon && Remembered(ttl, w, step.key, step.now) ==> answer.Some?)
  }

  // A value changes only by a write to it, and what is remembered only by Set.
  function Next(w: World, step: Step, answer: Option<Roles>): World {
    match step
    case Write(k, i, role) =>
      if k < |w.slices| && i < |w.slices[k]| then w.(slices := w.slices[k := w.slices[k][i := role]]) else w
    case SetFrom(k, key, now) =>
      if k < |w.slices|
      then w.(last := w.last[key := (w.slices[k], now)], horizon := Later(w.horizon, now)) else w
    case Ask(_, now) =>
      w.(horizon := Later(w.horizon, now), slices := w.slices + [if answer.Some? then answer.value else []])
    case SweepAt(now) => w.(horizon := Later(w.horizon, now))
  }

  // A run of the cache of values: the world before each step and after the last, and right answers.
  ghost predicate Explained(ttl: int, worlds: seq<World>, steps: seq<Step>, answers: seq<Option<Roles>>) {
    && |answers| == |steps| && |worlds| == |steps| + 1
    && forall n :: 0 <= n < |steps| ==>
         Right(ttl, worlds[n], steps[n], answers[n]) && worlds[n + 1] == Next(worlds[n], steps[n], answers[n])
  }

  // The slices the holders have are distinct, and none of them is in the cache.
  ghost predicate Isolated(c: Cache, held: seq<array<string>>)
    reads c, c.Stored(), held
  {
    && c.Valid()
    && (forall k, m :: 0 <= k < m < |held| ==> held[k] != held[m])
    && (forall k :: 0 <= k < |held| ==> held[k] !in c.Stored())
  }

  ghost function Seen(c: Cache, held: seq<array<string>>): World
    reads c, held
  {
    World(c.last, c.horizon, seq(|held|, k requires 0 <= k < |held| reads held => held[k][..]))
  }

  method KeysOf(keys: set<UserId>) returns (order: seq<UserId>)
    ensures forall k :: k in keys ==> k in order
    decreases |keys|
  {
    if k :| k in keys {
      var rest := KeysOf(keys - {k});
      order := [k] + rest;
    } else {
      order := [];
    }
  }

  // ---- The steps on the real cache ----

  method WriteTo(c: Cache, held: seq<array<string>>, k: nat, i: nat, role: string)
    requires Isolated(c, held) && k < |held| && i < held[k].Length
    modifies held[k]
    ensures Isolated(c, held)
    ensures Seen(c, held) == Next(old(Seen(c, held)), Write(k, i, role), None)
    ensures forall a :: a in c.Stored() ==> a !in held && a[..] == old(a[..])
  {
    ghost var w := Seen(c, held);
    held[k][i] := role;
    assert held[k][..] == w.slices[k][i := role];
    assert Seen(c, held).slices == w.slices[k := w.slices[k][i := role]];
  }

  method AskFor(c: Cache, held: seq<array<string>>, key: UserId, at: Time)
    returns (now: seq<array<string>>, answer: Option<Roles>)
    requires Isolated(c, held)
    modifies c
    ensures Isolated(c, now) && |now| == |held| + 1 && now[..|held|] == held && fresh(now[|held|])
    ensures Right(c.ttl, old(Seen(c, held)), Ask(key, at), answer)
    ensures Seen(c, now) == Next(old(Seen(c, held)), Ask(key, at), answer)
    ensures forall a :: a in old(c.Stored()) ==> a !in now && a[..] == old(a[..])
    ensures c.Stored() <= old(c.Stored())
  {
    ghost var w := Seen(c, held);
    var roles, ok := c.Get(key, at);
    now, answer := held + [roles], if ok then Some(roles[..]) else None;
    assert Seen(c, now).slices == w.slices + [roles[..]];
  }

  // One step of a holder.
  method Take(c: Cache, held: seq<array<string>>, step: Step) returns (now: seq<array<string>>, answer: Option<Roles>)
    requires Isolated(c, held)
    modifies c, held
    ensures Isolated(c, now) && held <= now && forall k :: |held| <= k < |now| ==> fresh(now[k])
    ensures Right(c.ttl, old(Seen(c, held)), step, answer)
    ensures Seen(c, now) == Next(old(Seen(c, held)), step, answer)
    // No slice that is in the cache is ever written.
    ensures forall a :: a in old(c.Stored()) ==> a !in now && a[..] == old(a[..])
    ensures forall a :: a in c.Stored() ==> a in old(c.Stored()) || fresh(a)
  {
    now, answer := held, None;
    match step {
      case Write(k, i, role) =>
        if k < |held| && i < held[k].Length {
          WriteTo(c, held, k, i, role);
        }
      case SetFrom(k, key, at) =>
        if k < |held| {
          c.Set(key, held[k], at);
        }
      case Ask(key, at) =>
        now, answer := AskFor(c, held, key, at);
      case SweepAt(at) =>
        var order := KeysOf(c.items.Keys);
        c.Sweep(at, order);
    }
  }

  // Any steps in any order, from any state: the cache answers what the cache of values answers, and the slices
  // that were in it are never written again.
  method Run(c: Cache, held: seq<array<string>>, steps: seq<Step>)
    returns (now: seq<array<string>>, answers: seq<Option<Roles>>, ghost worlds: seq<World>)
    requires Isolated(c, held)
    modifies c, held
    ensures Isolated(c, now)
    ensures Explained(c.ttl, worlds, steps, answers)
    ensures worlds[0] == old(Seen(c, held)) && worlds[|steps|] == Seen(c, now)
    ensures forall a :: a in old(c.Stored()) ==> a !in now && a[..] == old(a[..])
  {
    hide Next, Right, Seen;
    now, answers, worlds := held, [], [Seen(c, held)];
    for n := 0 to |steps|
      invariant Isolated(c, now) && Explained(c.ttl, worlds, steps[..n], answers)
      invariant worlds[0] == old(Seen(c, held)) && worlds[n] == Seen(c, now)
      invariant held <= now && forall k :: |held| <= k < |now| ==> fresh(now[k])
      invariant forall a :: a in old(c.Stored()) ==> a !in now && a[..] == old(a[..])
      invariant forall a :: a in c.Stored() ==> a in old(c.Stored()) || fresh(a)
    {
      var answer;
      now, answer := Take(c, now, steps[n]);
      answers, worlds := answers + [answer], worlds + [Seen(c, now)];
    }
    assert steps[..|steps|] == steps;
  }

  // ---- What no write can change ----

  predicate Sets(w: World, step: Step, key: UserId) {
    step.SetFrom? && step.key == key && step.slice < |w.slices|
  }

  lemma NextRemembers(w: World, step: Step, answer: Option<Roles>, key: UserId)
    ensures Sets(w, step, key) ==>
      var last := Next(w, step, answer).last; key in last && last[key] == (w.slices[step.slice], step.now)
    ensures !Sets(w, step, key) && key in w.last ==>
      var last := Next(w, step, answer).last; key in last && last[key] == w.last[key]
  {
  }

  // The last of the first n steps that set the key was step i.
  ghost predicate LastSet(worlds: seq<World>, steps: seq<Step>, i: nat, n: nat, key: UserId)
    requires i < n <= |steps| && |worlds| == |steps| + 1
  {
    && Sets(worlds[i], steps[i], key)
    && forall m :: i < m < n ==> !Sets(worlds[m], steps[m], key)
  }

  // What is remembered for a key is what the slice given to the last Set read at that moment; whatever was
  // written to any slice since does not show.
  lemma {:induction false} LastSetIsRemembered(ttl: int, worlds: seq<World>, steps: seq<Step>,
                                               answers: seq<Option<Roles>>, i: nat, n: nat, key: UserId)
    requires Explained(ttl, worlds, steps, answers) && i < n <= |steps| && LastSet(worlds, steps, i, n, key)
    ensures key in worlds[n].last
    ensures worlds[n].last[key] == (worlds[i].slices[steps[i].slice], steps[i].now)
  {
    hide Next, Right;
    if i < n - 1 {
      LastSetIsRemembered(ttl, worlds, steps, answers, i, n - 1, key);
    }
    assert worlds[n - 1 + 1] == Next(worlds[n - 1], steps[n - 1], answers[n - 1]);
    NextRemembers(worlds[n - 1], steps[n - 1], answers[n - 1], key);
  }

  // Every answer is the value the last Set took, at most the time limit old; and while instants do not go
  // back, that value is answered until the time limit.
  lemma {:induction false} AnswersAreSnapshots(ttl: int, worlds: seq<World>, steps: seq<Step>,
                                               answers: seq<Option<Roles>>, i: nat, n: nat)
    requires Explained(ttl, worlds, steps, answers) && i < n < |steps| && steps[n].Ask?
    requires LastSet(worlds, steps, i, n, steps[n].key)
    ensures answers[n].Some? ==>
      && steps[n].now <= steps[i].now + ttl
      && answers[n].value == worlds[i].slices[steps[i].slice]
    ensures steps[n].now <= steps[i].now + ttl && steps[n].now >= worlds[n].horizon ==> answers[n].Some?
  {
    LastSetIsRemembered(ttl, worlds, steps, answers, i, n, steps[n].key);
    assert Right(ttl, worlds[n], steps[n], answers[n]);
  }
}
