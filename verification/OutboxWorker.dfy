// The outbox table with its statements, the sweep of the e-mail worker, and the purges of the cleanup
// worker: all of them are runs of the outbox machine.
module OutboxWorker {
  import opened Wrappers
  import opened Schema
  import opened Outbox

  // What happens to one e-mail of a batch: the time its turn takes, whether the mailer accepts it, and
  // whether the row could be marked.
  datatype Attempt = Attempt(pause: nat, sent: bool, marked: bool)

  // The actions of the first n turns.
  function Turns(outcome: nat -> Attempt, n: nat): seq<Action> {
    if n == 0 then []
    else Turns(outcome, n - 1) + [Advance(outcome(n - 1).pause), Handle(outcome(n - 1).sent, outcome(n - 1).marked)]
  }

  class Worker {
    var now: Time
    var rows: Rows
    var nextId: EmailId
    ghost var log: seq<Action>

    // The table is that of the machine after the logged actions.
    ghost predicate InStep()
      reads this
    {
      && Possible(INITIAL, log)
      && var s := After(INITIAL, log); s.clock == now && s.rows == rows && s.nextId == nextId
    }

    // No sweep is under way between two jobs.
    ghost predicate Valid()
      reads this
    {
      InStep() && After(INITIAL, log).sweep.None?
    }

    constructor ()
      ensures Valid() && log == []
    {
      now, rows, nextId, log := 0, map[], 0, [];
    }

    ghost method Log(a: Action)
      requires Possible(INITIAL, log) && Enabled(After(INITIAL, log), a)
      requires var t := Do(After(INITIAL, log), a); t.clock == now && t.rows == rows && t.nextId == nextId
      modifies this`log
      ensures InStep() && log == old(log) + [a]
      ensures After(INITIAL, log) == Do(After(INITIAL, old(log)), a)
    {
      Extend(INITIAL, log, a);
      log := log + [a];
    }

    method Wait(elapsed: nat)
      requires InStep()
      modifies this`now, this`log
      ensures InStep() && now == old(now) + elapsed && log == old(log) + [Advance(elapsed)]
      ensures After(INITIAL, log) == Do(After(INITIAL, old(log)), Advance(elapsed))
    {
      now := now + elapsed;
      Log(Advance(elapsed));
    }

    // EnqueueEmail, with the date immediateEmailAvailableAt gives it.
    method EnqueueEmail() returns (id: EmailId)
      requires Valid()
      modifies this`rows, this`nextId, this`log
      ensures Valid() && log == old(log) + [Enqueue]
      ensures id == old(nextId) && id !in old(rows) && rows == old(rows)[id := Email(now - SECOND, None, 0, false)]
    {
      EveryStateIsSound(log);
      assert Sound(After(INITIAL, log), nextId);
      id := nextId;
      rows, nextId := rows[id := Email(now - SECOND, None, 0, false)], nextId + 1;
      Log(Enqueue);
    }

    // ---- The statements of a sweep ----

    // The earliest of some rows, starting from one of them.
    method Earliest(due: set<EmailId>, start: EmailId) returns (id: EmailId)
      requires start in due && due <= rows.Keys
      ensures id in due && forall other :: other in due ==> rows[id].availableAt <= rows[other].availableAt
      decreases set other | other in due && rows[other].availableAt < rows[start].availableAt
    {
      if earlier :| earlier in due && rows[earlier].availableAt < rows[start].availableAt {
        ghost var before := set other | other in due && rows[other].availableAt < rows[start].availableAt;
        ghost var left := set other | other in due && rows[other].availableAt < rows[earlier].availableAt;
        assert earlier in before && earlier !in left && left <= before;
        id := Earliest(due, earlier);
      } else {
        id := start;
      }
    }

    // ORDER BY available_at LIMIT 25
    method ListPendingEmails() returns (batch: seq<EmailId>)
      ensures IsBatch(rows, now, batch)
      ensures |batch| <= 25
      ensures forall id :: id in batch ==> id in rows && rows[id].sentAt.None? && rows[id].availableAt <= now
      ensures forall id :: id in rows && rows[id].sentAt.None? && rows[id].availableAt <= now && id !in batch ==>
        |batch| == 25 && forall other :: other in batch ==> rows[other].availableAt <= rows[id].availableAt
    {
      batch := [];
      var due := set id | id in rows && rows[id].Due(now);
      while |batch| < BATCH
        invariant |batch| <= BATCH
        invariant due <= rows.Keys && forall id :: id in rows && rows[id].Due(now) ==> id in due || id in batch
        invariant forall id :: id in due ==> rows[id].Due(now) && id !in batch
        invariant forall i :: 0 <= i < |batch| ==> batch[i] in rows && rows[batch[i]].Due(now)
        invariant forall i, k :: 0 <= i < k < |batch| ==>
          batch[i] != batch[k] && rows[batch[i]].availableAt <= rows[batch[k]].availableAt
        invariant forall i, id :: 0 <= i < |batch| && id in due ==> rows[batch[i]].availableAt <= rows[id].availableAt
      {
        if some :| some in due {
          var id := Earliest(due, some);
          batch := batch + [id];
          due := due - {id};
        } else {
          break;
        }
      }
    }

    method MarkEmailSent(id: EmailId, fault: bool)
      modifies this`rows
      ensures rows == if fault then old(rows) else Marked(old(rows), id, true, now)
      ensures !fault && id in old(rows) ==> rows == old(rows)[id := old(rows)[id].(sentAt := Some(now))]
    {
      if !fault && id in rows {
        rows := rows[id := rows[id].(sentAt := Some(now))];
      }
    }

    method MarkEmailFailed(id: EmailId, fault: bool)
      modifies this`rows
      ensures rows == if fault then old(rows) else Marked(old(rows), id, false, now)
      ensures !fault && id in old(rows) ==>
        var row := old(rows)[id];
        rows == old(rows)[id := Email(now + 300_000_000_000, row.sentAt, row.attempts + 1, true)]
    {
      if !fault && id in rows {
        var row := rows[id];
        rows := rows[id := row.(attempts := row.attempts + 1, failed := true, availableAt := now + 300 * SECOND)];
      }
    }

    // One turn of the loop.
    method HandleEmail(id: EmailId, attempt: Attempt)
      requires InStep() && var s := After(INITIAL, log);
               s.sweep.Some? && s.sweep.value.done < |s.sweep.value.batch| && Head(s) == id
      modifies this`now, this`rows, this`log
      ensures InStep() && log == old(log) + [Advance(attempt.pause), Handle(attempt.sent, attempt.marked)]
      ensures var w, v := old(After(INITIAL, log).sweep.value), After(INITIAL, log).sweep;
              v.Some? && v.value.batch == w.batch && v.value.done == w.done + 1
    {
      Wait(attempt.pause);
      if attempt.sent {
        MarkEmailSent(id, !attempt.marked);
      } else {
        MarkEmailFailed(id, !attempt.marked);
      }
      Log(Handle(attempt.sent, attempt.marked));
    }

    ghost method Begin(batch: seq<EmailId>)
      requires Valid() && IsBatch(rows, now, batch)
      modifies this`log
      ensures InStep() && log == old(log) + [BeginSweep(batch)]
      ensures After(INITIAL, log).sweep == Some(Sweep(batch, 0, true))
    {
      Log(BeginSweep(batch));
    }

    ghost method End()
      requires InStep() && Enabled(After(INITIAL, log), EndSweep)
      modifies this`log
      ensures Valid() && log == old(log) + [EndSweep]
    {
      Log(EndSweep);
    }

    // EmailOutboxWorker.Work
    method Work(mailerEnabled: bool, listFails: bool, outcome: nat -> Attempt) returns (ok: bool, batch: seq<EmailId>)
      requires Valid()
      modifies this`now, this`rows, this`log
      ensures Valid()
      ensures ok <==> !mailerEnabled || !listFails
      ensures !mailerEnabled || listFails ==> log == old(log) && rows == old(rows)
      ensures mailerEnabled && !listFails ==>
        && IsBatch(old(rows), old(now), batch)
        && log == old(log) + [BeginSweep(batch)] + Turns(outcome, |batch|) + [EndSweep]
    {
      batch := [];
      if !mailerEnabled { return true, batch; }
      if listFails { return false, batch; }
      hide After, Possible, Do, IsBatch, Turns;
      batch := ListPendingEmails();
      Begin(batch);
      HandleBatch(batch, outcome);
      End();
      ok := true;
    }

    // The loop over the batch.
    method HandleBatch(batch: seq<EmailId>, outcome: nat -> Attempt)
      requires InStep() && var w := After(INITIAL, log).sweep; w.Some? && w.value.batch == batch && w.value.done == 0
      modifies this`now, this`rows, this`log
      ensures InStep() && log == old(log) + Turns(outcome, |batch|)
      ensures var w := After(INITIAL, log).sweep; w.Some? && w.value.batch == batch && w.value.done == |batch|
    {
      hide After, Possible, Do;
      for i := 0 to |batch|
        invariant InStep()
        invariant log == old(log) + Turns(outcome, i)
        invariant var w := After(INITIAL, log).sweep; w.Some? && w.value.batch == batch && w.value.done == i
      {
        HandleEmail(batch[i], outcome(i));
      }
    }

    // ---- The purges of CleanupWorker.Work ----

    method DeleteSentEmailsBefore(cutoff: Time)
      requires Valid() && cutoff <= now
      modifies this`rows, this`log
      ensures Valid() && log == old(log) + [PurgeSent(cutoff)]
      ensures forall id :: id in old(rows) ==>
        (id in rows <==> !(old(rows)[id].sentAt.Some? && old(rows)[id].sentAt.value < cutoff))
      ensures forall id :: id in rows ==> id in old(rows) && rows[id] == old(rows)[id]
    {
      rows := WithoutSent(rows, cutoff);
      Log(PurgeSent(cutoff));
    }

    method DeleteFailedEmailsBefore(cutoff: Time)
      requires Valid() && cutoff <= now
      modifies this`rows, this`log
      ensures Valid() && log == old(log) + [PurgeFailed(cutoff)]
      ensures forall id :: id in old(rows) ==>
        var row := old(rows)[id];
        (id in rows <==> !(row.sentAt.None? && row.failed && row.availableAt < cutoff))
      ensures forall id :: id in rows ==> id in old(rows) && rows[id] == old(rows)[id]
    {
      rows := WithoutFailed(rows, cutoff);
      Log(PurgeFailed(cutoff));
    }

    method PurgeEmails(retention: nat, sentFails: bool, failedFails: bool)
      requires Valid()
      modifies this`rows, this`log
      ensures Valid()
      ensures log == old(log)
        + (if sentFails then [] else [PurgeSent(now - retention)])
        + (if failedFails then [] else [PurgeFailed(now - retention)])
      // What goes: e-mails sent before the cutoff, and unsent ones that have failed and were due before it; the
      // others stay as they are.
      ensures forall id :: id in old(rows) ==>
        var row := old(rows)[id];
        (id in rows <==>
           && (row.sentAt.Some? && row.sentAt.value < now - retention ==> sentFails)
           && (row.sentAt.None? && row.failed && row.availableAt < now - retention ==> failedFails))
      ensures forall id :: id in rows ==> id in old(rows) && rows[id] == old(rows)[id]
    {
      hide Possible, After, Do;
      var cutoff := now - retention;
      if !sentFails {
        DeleteSentEmailsBefore(cutoff);
      }
      if !failedFails {
        DeleteFailedEmailsBefore(cutoff);
      }
    }
  }
}
