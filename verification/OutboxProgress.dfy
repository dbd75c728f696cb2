// How long a pending e-mail can wait: the e-mails ahead of it only get fewer, and every sweep that goes
// through without reaching it takes 25 of them away.
module OutboxProgress {
  import opened Wrappers
  import opened Schema
  import opened Outbox

  // The pending e-mails that are not later than `bound`.
  function Ahead(s: State, bound: Time): set<EmailId> {
    set id | id in s.rows && s.rows[id].sentAt.None? && s.rows[id].availableAt <= bound
  }

  function Elements(batch: seq<EmailId>): set<EmailId> {
    set i | 0 <= i < |batch| :: batch[i]
  }

  lemma {:induction false} DistinctElements(batch: seq<EmailId>)
    requires forall i, k :: 0 <= i < k < |batch| ==> batch[i] != batch[k]
    ensures |Elements(batch)| == |batch|
  {
    if batch != [] {
      var init, last := batch[..|batch| - 1], batch[|batch| - 1];
      DistinctElements(init);
      assert Elements(batch) == Elements(init) + {last};
    }
  }

  lemma SubsetSize(a: set<EmailId>, b: set<EmailId>)
    requires a <= b
    ensures |a| <= |b|
  {
    assert b * a == a;
    assert |b - a| == |b| - |b * a|;
  }

  // Once the clock has passed the e-mail by a second, nothing gets in front of it: new e-mails are dated
  // one second back, retries 300 seconds ahead.
  lemma NothingOvertakes(s: State, a: Action, bound: Time)
    requires Enabled(s, a) && s.clock > bound + SECOND
    ensures Ahead(Do(s, a), bound) <= Ahead(s, bound) && Do(s, a).clock > bound + SECOND
  {
  }

  // The e-mail with this id is attempted by the next action.
  ghost predicate Attempts(s: State, a: Action, id: EmailId) {
    Enabled(s, a) && a.Handle? && Head(s) == id
  }

  // Through all the actions the e-mail is neither attempted nor purged.
  ghost predicate Untouched(s: State, acts: seq<Action>, id: EmailId) {
    acts == []
    || (var t := After(s, acts[..|acts| - 1]);
        && Untouched(s, acts[..|acts| - 1], id)
        && !Attempts(t, acts[|acts| - 1], id)
        && id in After(s, acts).rows)
  }

  lemma RowStays(s: State, a: Action, e: EmailId)
    requires Enabled(s, a) && e in s.rows && e < s.nextId && !Attempts(s, a, e) && e in Do(s, a).rows
    ensures Do(s, a).rows[e] == s.rows[e] && e < Do(s, a).nextId
  {
  }

  // Sweeps that ran to their end among the actions, with every mark written.
  ghost function CleanSweeps(s: State, acts: seq<Action>): nat {
    if acts == [] then 0
    else
      var t := After(s, acts[..|acts| - 1]);
      CleanSweeps(s, acts[..|acts| - 1])
      + if acts[|acts| - 1].EndSweep? && t.sweep.Some? && t.sweep.value.clean then 1 else 0
  }

  // The e-mails ahead when the current sweep began.
  ghost function AheadAtStart(s: State, acts: seq<Action>, bound: Time): set<EmailId> {
    if acts == [] then Ahead(s, bound)
    else if acts[|acts| - 1].BeginSweep? then Ahead(After(s, acts[..|acts| - 1]), bound)
    else AheadAtStart(s, acts[..|acts| - 1], bound)
  }

  // A sweep that has not reached e took a full batch from the e-mails ahead of it, and what it has
  // handled with written marks is ahead no more.
  ghost predicate Advancing(t: State, began: set<EmailId>, e: EmailId, bound: Time) {
    t.sweep.Some? ==>
      var w := t.sweep.value;
      && w.done <= |w.batch|
      && Ahead(t, bound) <= began
      && (forall i, k :: 0 <= i < k < |w.batch| ==> w.batch[i] != w.batch[k])
      && (w.clean ==> forall i :: 0 <= i < w.done ==> w.batch[i] !in Ahead(t, bound))
      && (e !in w.batch ==> |w.batch| == BATCH && Elements(w.batch) <= began)
      && (forall i :: 0 <= i < w.done ==> w.batch[i] != e)
  }

  lemma AdvancingStep(t: State, a: Action, began: set<EmailId>, e: EmailId, bound: Time)
    requires Enabled(t, a) && t.clock > bound + SECOND
    requires e in t.rows && t.rows[e].sentAt.None? && t.rows[e].availableAt == bound
    requires Advancing(t, began, e, bound) && !Attempts(t, a, e)
    ensures Advancing(Do(t, a), if a.BeginSweep? then Ahead(t, bound) else began, e, bound)
  {
    NothingOvertakes(t, a, bound);
  }

  // A clean sweep that ends without having reached e leaves 25 fewer ahead of it.
  lemma SweepTakesABatch(t: State, began: set<EmailId>, e: EmailId, bound: Time)
    requires Advancing(t, began, e, bound) && Enabled(t, EndSweep) && t.sweep.value.clean
    ensures |Ahead(t, bound)| + BATCH <= |began|
  {
    var batch := t.sweep.value.batch;
    var taken := Elements(batch);
    DistinctElements(batch);
    assert taken !! Ahead(t, bound);
    SubsetSize(Ahead(t, bound), began - taken);
    assert began * taken == taken;
    assert |began - taken| == |began| - |began * taken|;
  }

  // The measure at every point of the run.
  ghost predicate Measured(s: State, acts: seq<Action>, e: EmailId, bound: Time)
    requires e in s.rows
  {
    var t, began, sweeps := After(s, acts), AheadAtStart(s, acts, bound), CleanSweeps(s, acts);
    && t.clock > bound + SECOND
    && e in t.rows && t.rows[e] == s.rows[e] && e < t.nextId
    && |Ahead(t, bound)| + BATCH * sweeps <= |Ahead(s, bound)|
    && (t.sweep.Some? ==> |began| + BATCH * sweeps <= |Ahead(s, bound)|)
    && Advancing(t, began, e, bound)
  }

  lemma {:induction false} SweepsMakeProgress(s: State, acts: seq<Action>, e: EmailId)
    requires s.sweep.None? && Pending(s, e) && e < s.nextId && s.clock > s.rows[e].availableAt + SECOND
    requires Possible(s, acts) && Untouched(s, acts, e)
    ensures Measured(s, acts, e, s.rows[e].availableAt)
  {
    if acts != [] {
      var prefix, a, bound := acts[..|acts| - 1], acts[|acts| - 1], s.rows[e].availableAt;
      SweepsMakeProgress(s, prefix, e);
      var t, began := After(s, prefix), AheadAtStart(s, prefix, bound);
      NothingOvertakes(t, a, bound);
      RowStays(t, a, e);
      AdvancingStep(t, a, began, e, bound);
      SubsetSize(Ahead(Do(t, a), bound), Ahead(t, bound));
      if a.EndSweep? && t.sweep.value.clean {
        SweepTakesABatch(t, began, e, bound);
      }
    }
  }

  // An e-mail that has been due for more than a second is attempted, or purged, before as many clean
  // sweeps as it takes to work off the e-mails not later than it, 25 at a time: as long as it is
  // neither, strictly fewer sweeps have gone through.
  lemma ReachedWithinItsRank(before: seq<Action>, acts: seq<Action>, e: EmailId)
    requires Possible(INITIAL, before)
    requires var s := After(INITIAL, before);
             && s.sweep.None? && Pending(s, e) && s.clock > s.rows[e].availableAt + SECOND
             && Possible(s, acts) && Untouched(s, acts, e)
    ensures var s := After(INITIAL, before); var rank := |Ahead(s, s.rows[e].availableAt)|;
            rank > 0 && CleanSweeps(s, acts) < (rank + 24) / 25
  {
    var s := After(INITIAL, before);
    var bound := s.rows[e].availableAt;
    Conservation(before, e);
    SweepsMakeProgress(s, acts, e);
    assert e in Ahead(After(s, acts), bound);
    SubsetSize({e}, Ahead(After(s, acts), bound));
  }
}
