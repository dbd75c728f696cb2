// The e-mail outbox as a machine. Sweeps, new e-mails and purges interleave; each statement is one step, and an
// attempt to send is one step with the mark that follows it. Splitting these two would add nothing: sending
// touches no row, only the count of sends, which no step reads, so whatever comes between a send and its mark
// can as well come before the send. A worker that stops between the two is a mark that was not written. At most
// one sweep runs at a time.
module Outbox {
  import opened Wrappers
  import opened Schema

  type EmailId = nat

  const BATCH: nat := 25
  const RETRY: int := 300 * SECOND

  // A row of email_outbox; `failed` says that last_error is set.
  datatype Email = Email(availableAt: Time, sentAt: Option<Time>, attempts: nat, failed: bool)
  {
    predicate Due(now: Time) {
      sentAt.None? && availableAt <= now
    }

    // MarkEmailFailed
    function Retried(now: Time): Email {
      this.(attempts := attempts + 1, failed := true, availableAt := now + RETRY)
    }
  }

  type Rows = map<EmailId, Email>

  // A sweep in progress: its batch, how much of it is handled, and whether every mark so far was written.
  datatype Sweep = Sweep(batch: seq<EmailId>, done: nat, clean: bool)

  // `rows` to `sweep` are what there is; the rest records what happened.
  datatype State = State(
    clock: Time,
    rows: Rows,
    nextId: EmailId,
    sweep: Option<Sweep>,
    purgedSent: set<EmailId>,
    purgedFailed: map<EmailId, Email>,
    firstFailure: map<EmailId, Time>,
    sends: multiset<EmailId>,
    lostMarks: multiset<EmailId>)

  datatype Action =
    | Advance(elapsed: nat)
    | Enqueue
    | BeginSweep(batch: seq<EmailId>)
    | Handle(sent: bool, marked: bool)
    | EndSweep
    | AbortSweep
    | PurgeSent(cutoff: Time)
    | PurgeFailed(cutoff: Time)

  // What ListPendingEmails may answer: at most 25 due rows, the earliest first; ties in any order.
  ghost predicate IsBatch(rows: Rows, now: Time, batch: seq<EmailId>) {
    && |batch| <= BATCH
    && (forall i :: 0 <= i < |batch| ==> batch[i] in rows && rows[batch[i]].Due(now))
    && (forall i, k :: 0 <= i < k < |batch| ==>
          batch[i] != batch[k] && rows[batch[i]].availableAt <= rows[batch[k]].availableAt)
    && (forall id :: id in rows && rows[id].Due(now) && id !in batch ==>
          |batch| == BATCH && forall i :: 0 <= i < |batch| ==> rows[batch[i]].availableAt <= rows[id].availableAt)
  }

  function WithoutSent(rows: Rows, cutoff: Time): Rows {
    map id | id in rows && !(rows[id].sentAt.Some? && rows[id].sentAt.value < cutoff) :: rows[id]
  }

  predicate FailedBefore(row: Email, cutoff: Time) {
    row.sentAt.None? && row.failed && row.availableAt < cutoff
  }

  function WithoutFailed(rows: Rows, cutoff: Time): Rows {
    map id | id in rows && !FailedBefore(rows[id], cutoff) :: rows[id]
  }

  // The e-mail a Handle step is about.
  function Head(s: State): EmailId
    requires s.sweep.Some? && s.sweep.value.done < |s.sweep.value.batch|
  {
    s.sweep.value.batch[s.sweep.value.done]
  }

  ghost predicate Enabled(s: State, a: Action) {
    match a
    case BeginSweep(batch) => s.sweep.None? && IsBatch(s.rows, s.clock, batch)
    case Handle(_, _) => s.sweep.Some? && s.sweep.value.done < |s.sweep.value.batch|
    case EndSweep => s.sweep.Some? && s.sweep.value.done == |s.sweep.value.batch|
    case AbortSweep => s.sweep.Some?
    case PurgeSent(cutoff) => cutoff <= s.clock
    case PurgeFailed(cutoff) => cutoff <= s.clock
    case _ => true
  }

  // MarkEmailSent, or MarkEmailFailed, on a row that may be gone.
  function Marked(rows: Rows, id: EmailId, sent: bool, now: Time): Rows {
    if id !in rows then rows
    else if sent then rows[id := rows[id].(sentAt := Some(now))]
    else rows[id := rows[id].Retried(now)]
  }

  function Handled(s: State, sent: bool, marked: bool): State
    requires s.sweep.Some? && s.sweep.value.done < |s.sweep.value.batch|
  {
    var id, w := Head(s), s.sweep.value;
    var t := s.(sweep := Some(w.(done := w.done + 1, clean := w.clean && marked)),
                sends := if sent then s.sends[id := s.sends[id] + 1] else s.sends,
                lostMarks := if sent && !marked then s.lostMarks[id := s.lostMarks[id] + 1] else s.lostMarks);
    if !marked then t
    else
      t.(rows := Marked(s.rows, id, sent, s.clock),
         firstFailure := if !sent && id in s.rows && id !in s.firstFailure
                         then s.firstFailure[id := s.clock] else s.firstFailure)
  }

  function Do(s: State, a: Action): State
    requires Enabled(s, a)
  {
    match a
    case Advance(elapsed) => s.(clock := s.clock + elapsed)
    case Enqueue => s.(rows := s.rows[s.nextId := Email(s.clock - SECOND, None, 0, false)], nextId := s.nextId + 1)
    case BeginSweep(batch) => s.(sweep := Some(Sweep(batch, 0, true)))
    case Handle(sent, marked) => Handled(s, sent, marked)
    case EndSweep => s.(sweep := None)
    case AbortSweep => s.(sweep := None)
    case PurgeSent(cutoff) =>
      var kept := WithoutSent(s.rows, cutoff);
      s.(rows := kept, purgedSent := s.purgedSent + (s.rows.Keys - kept.Keys))
    case PurgeFailed(cutoff) =>
      s.(rows := WithoutFailed(s.rows, cutoff),
         purgedFailed := s.purgedFailed + map id | id in s.rows && FailedBefore(s.rows[id], cutoff) :: s.rows[id])
  }

  const INITIAL := State(0, map[], 0, None, {}, map[], map[], multiset{}, multiset{})

  // The state after the actions, taken one by one; each must be enabled where it happens.
  ghost function After(s: State, acts: seq<Action>): State {
    if acts == [] then s
    else
      var t := After(s, acts[..|acts| - 1]);
      if Enabled(t, acts[|acts| - 1]) then Do(t, acts[|acts| - 1]) else t
  }

  ghost predicate Possible(s: State, acts: seq<Action>) {
    acts == []
    || (Possible(s, acts[..|acts| - 1]) && Enabled(After(s, acts[..|acts| - 1]), acts[|acts| - 1]))
  }

  lemma Extend(s: State, acts: seq<Action>, a: Action)
    requires Possible(s, acts) && Enabled(After(s, acts), a)
    ensures Possible(s, acts + [a]) && After(s, acts + [a]) == Do(After(s, acts), a)
  {
    assert (acts + [a])[..|acts|] == acts;
  }

  // ---- What every reachable state keeps ----

  predicate Remaining(s: State, id: EmailId) {
    s.sweep.Some? && s.sweep.value.done <= |s.sweep.value.batch| && id in s.sweep.value.batch[s.sweep.value.done..]
  }

  // The rest of a sweep: distinct e-mails that are still due, or gone.
  ghost predicate SweepOk(s: State) {
    s.sweep.Some? ==>
      var w := s.sweep.value;
      && w.done <= |w.batch|
      && (forall i, k :: 0 <= i < k < |w.batch| ==> w.batch[i] != w.batch[k])
      && (forall i :: 0 <= i < |w.batch| ==> w.batch[i] < s.nextId)
      && (forall i :: w.done <= i < |w.batch| && w.batch[i] in s.rows ==> s.rows[w.batch[i]].Due(s.clock))
      && (forall i :: w.done <= i < |w.batch| ==> w.batch[i] !in s.purgedSent)
  }

  // Every e-mail ever enqueued is in exactly one place.
  predicate Pending(s: State, id: EmailId) {
    id in s.rows && s.rows[id].sentAt.None?
  }

  predicate Sent(s: State, id: EmailId) {
    id in s.rows && s.rows[id].sentAt.Some?
  }

  ghost predicate Placed(s: State, id: EmailId) {
    if id >= s.nextId
    then id !in s.rows && id !in s.purgedSent && id !in s.purgedFailed && id !in s.firstFailure && s.sends[id] == 0
    else if id in s.rows then id !in s.purgedSent && id !in s.purgedFailed
    else id in s.purgedSent <==> id !in s.purgedFailed
  }

  // The attempts of a row fit between its first failure and the instant it becomes available again.
  ghost predicate Spaced(s: State, id: EmailId) {
    && (id in s.rows ==>
          var row := s.rows[id];
          && (row.failed <==> row.attempts > 0) && (row.failed <==> id in s.firstFailure)
          && (row.failed ==>
                && s.firstFailure[id] + RETRY * row.attempts <= row.availableAt
                && row.availableAt <= s.clock + RETRY))
    && (id in s.purgedFailed ==> s.purgedFailed[id].attempts > 0)
  }

  // How often an e-mail can have gone out.
  ghost predicate Delivered(s: State, id: EmailId) {
    s.sends[id] <= s.lostMarks[id] + if Pending(s, id) || Remaining(s, id) then 0 else 1
  }

  ghost predicate Sound(s: State, id: EmailId) {
    Placed(s, id) && Spaced(s, id) && Delivered(s, id)
  }

  ghost predicate Inv(s: State) {
    SweepOk(s) && forall id: EmailId :: Sound(s, id)
  }

  lemma PlacedStep(s: State, a: Action, id: EmailId)
    requires Enabled(s, a) && SweepOk(s) && Sound(s, id)
    ensures Placed(Do(s, a), id)
  {
  }

  lemma HeadIsDue(s: State)
    requires SweepOk(s) && s.sweep.Some? && s.sweep.value.done < |s.sweep.value.batch|
    ensures Head(s) in s.rows ==> s.rows[Head(s)].Due(s.clock)
    ensures Head(s) < s.nextId && !Remaining(s.(sweep := Some(s.sweep.value.(done := s.sweep.value.done + 1))), Head(s))
  {
  }

  lemma SpacedStep(s: State, a: Action, id: EmailId)
    requires Enabled(s, a) && SweepOk(s) && Sound(s, id)
    ensures Spaced(Do(s, a), id)
  {
    if a.Handle? {
      HeadIsDue(s);
    }
  }

  lemma DeliveredHandle(s: State, sent: bool, marked: bool, id: EmailId)
    requires Enabled(s, Handle(sent, marked)) && SweepOk(s) && Sound(s, id)
    ensures Delivered(Do(s, Handle(sent, marked)), id)
  {
    HeadIsDue(s);
  }

  lemma DeliveredOther(s: State, a: Action, id: EmailId)
    requires Enabled(s, a) && SweepOk(s) && Sound(s, id) && !a.Handle?
    ensures Delivered(Do(s, a), id)
  {
  }

  lemma DeliveredStep(s: State, a: Action, id: EmailId)
    requires Enabled(s, a) && SweepOk(s) && Sound(s, id)
    ensures Delivered(Do(s, a), id)
  {
    hide Enabled, Do, SweepOk, Sound, Delivered;
    if a.Handle? {
      DeliveredHandle(s, a.sent, a.marked, id);
    } else {
      DeliveredOther(s, a, id);
    }
  }

  lemma SweepStepCore(s: State, a: Action)
    requires Enabled(s, a) && SweepOk(s)
    requires forall id :: id in s.rows ==> id < s.nextId && id !in s.purgedSent
    ensures SweepOk(Do(s, a))
  {
  }

  lemma SweepStep(s: State, a: Action)
    requires Enabled(s, a) && Inv(s)
    ensures SweepOk(Do(s, a))
  {
    forall id | id in s.rows ensures id < s.nextId && id !in s.purgedSent {
      assert Sound(s, id);
    }
    SweepStepCore(s, a);
  }

  lemma InvStep(s: State, a: Action)
    requires Enabled(s, a) && Inv(s)
    ensures Inv(Do(s, a))
  {
    SweepStep(s, a);
    forall id: EmailId ensures Sound(Do(s, a), id) {
      assert Sound(s, id);
      PlacedStep(s, a, id);
      SpacedStep(s, a, id);
      DeliveredStep(s, a, id);
    }
  }

  lemma {:induction false} EveryStateIsSound(acts: seq<Action>)
    requires Possible(INITIAL, acts)
    ensures Inv(After(INITIAL, acts))
  {
    if acts != [] {
      var prefix := acts[..|acts| - 1];
      EveryStateIsSound(prefix);
      InvStep(After(INITIAL, prefix), acts[|acts| - 1]);
    }
  }

  // Conservation: an e-mail that was enqueued is pending, or sent, or was purged as sent, or was purged
  // after failing; never two of these, and never none.
  lemma {:induction false} Conservation(acts: seq<Action>, id: EmailId)
    requires Possible(INITIAL, acts)
    ensures var s := After(INITIAL, acts);
            (if Pending(s, id) then 1 else 0) + (if Sent(s, id) then 1 else 0)
            + (if id in s.purgedSent then 1 else 0) + (if id in s.purgedFailed then 1 else 0)
            == (if id < s.nextId then 1 else 0)
  {
    hide After, Possible, SweepOk;
    EveryStateIsSound(acts);
    assert Sound(After(INITIAL, acts), id);
  }

  lemma Quotient(attempts: nat, elapsed: int)
    requires RETRY * attempts <= elapsed + RETRY
    ensures attempts <= 1 + elapsed / RETRY
  {
  }

  // Failed attempts are at least 300 seconds apart, and nothing is purged as failed that never failed.
  lemma {:induction false} RetriesAreSpaced(acts: seq<Action>, id: EmailId)
    requires Possible(INITIAL, acts)
    ensures var s := After(INITIAL, acts);
            && (id in s.rows && s.rows[id].attempts > 0 ==>
                  id in s.firstFailure && s.rows[id].attempts <= 1 + (s.clock - s.firstFailure[id]) / 300_000_000_000)
            && (id in s.purgedFailed ==> s.purgedFailed[id].attempts > 0)
  {
    hide After, Possible, SweepOk, Placed, Delivered;
    EveryStateIsSound(acts);
    var s := After(INITIAL, acts);
    assert Sound(s, id);
    if id in s.rows && s.rows[id].attempts > 0 {
      Quotient(s.rows[id].attempts, s.clock - s.firstFailure[id]);
    }
  }

  // An e-mail is attempted only when it is pending and its date has come.
  lemma {:induction false} AttemptsAreDue(acts: seq<Action>, sent: bool, marked: bool)
    requires Possible(INITIAL, acts) && Enabled(After(INITIAL, acts), Handle(sent, marked))
    ensures var s := After(INITIAL, acts);
            Head(s) in s.rows ==> s.rows[Head(s)].sentAt.None? && s.rows[Head(s)].availableAt <= s.clock
  {
    EveryStateIsSound(acts);
    HeadIsDue(After(INITIAL, acts));
  }

  // An e-mail goes out at most once, plus once for each time marking it as sent failed.
  lemma {:induction false} SentAtMostOnceUnlessAMarkIsLost(acts: seq<Action>, id: EmailId)
    requires Possible(INITIAL, acts)
    ensures var s := After(INITIAL, acts); s.sends[id] <= 1 + s.lostMarks[id]
  {
    hide After, Possible, SweepOk;
    EveryStateIsSound(acts);
    assert Sound(After(INITIAL, acts), id);
  }
}
