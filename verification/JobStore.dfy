/**
  The job store as the services use it: one object over the `agent_runs` and
  `approvals` tables, one method per transaction. Each method is proved to be the
  corresponding step of the protocol in `Lease`, so the guarantees proved there for
  every history hold of any interleaving of these calls.
*/
module JobStore {
  import opened Options
  import opened RunStatus
  import opened Artifacts
  import opened Lease

  datatype MarkOutcome = Committed | LostLease | TransitionDenied | Concurrent

  datatype RetryOutcome = LeaseLost | NotRunning(status: Status) | Requeued(status: Status)

  /** ORDER BY next_attempt_at ASC NULLS FIRST, started_at ASC. */
  predicate Before(a: Row, b: Row) {
    match (a.nextAttempt, b.nextAttempt)
    case (None, None) => a.started < b.started
    case (None, Some(_)) => true
    case (Some(_), None) => false
    case (Some(x), Some(y)) => x < y || (x == y && a.started < b.started)
  }

  predicate IsFirst(rows: Rows, candidates: set<RunId>, run: RunId) {
    && run in candidates && candidates <= rows.Keys
    && forall other :: other in candidates ==> !Before(rows[other], rows[run])
  }

  lemma {:induction false} SomeRunIsFirst(rows: Rows, candidates: set<RunId>)
    requires candidates != {} && candidates <= rows.Keys
    ensures exists run :: IsFirst(rows, candidates, run)
    decreases |candidates|
  {
    var pick :| pick in candidates;
    var rest := candidates - {pick};
    if rest == {} {
      assert candidates == {pick};
      assert IsFirst(rows, candidates, pick);
    } else {
      SomeRunIsFirst(rows, rest);
      var first :| IsFirst(rows, rest, first);
      assert IsFirst(rows, candidates, if Before(rows[pick], rows[first]) then pick else first);
    }
  }

  lemma MarkStep(cfg: Config, db: Db, c: Claim, snapshot: Status, target: Status, finished: bool)
    requires CallerMark(target, finished)
    ensures Next(cfg, db, Action.MarkStatus(c, snapshot, target, finished))
            == MarkResult(db, c, snapshot, target, finished)
  {
  }

  /** The database after `mark_status`, for any target and flag. */
  function MarkResult(db: Db, c: Claim, snapshot: Status, target: Status, finished: bool): Db {
    if MarkAllowed(db.rows, c, db.clock, snapshot, target) then MarkedDb(db, c, target, finished) else db
  }

  class JobStore {
    const cfg: Config
    var clock: int
    var rows: Rows
    var approvals: map<RunId, Approval>
    ghost var done: set<Claim>
    ghost var log: seq<Event>

    ghost function State(): Db
      reads this
    {
      Db(clock, rows, approvals, done, log)
    }

    constructor (cfg: Config, clock: int)
      ensures this.cfg == cfg && State() == Empty(clock)
    {
      this.cfg, this.clock, rows, approvals := cfg, clock, map[], map[];
      done, log := {}, [];
    }

    method CreateIncidentAndRun(run: RunId, started: int) returns (admitted: bool)
      modifies this
      ensures admitted <==> run !in old(rows) && |PendingRuns(old(rows))| < cfg.maxQueued
      ensures State() == Next(cfg, old(State()), Admit(run, started))
    {
      var queued := |PendingRuns(rows)|;
      if queued >= cfg.maxQueued || run in rows {
        return false;
      }
      rows := rows[run := NewRow(started)];
      admitted := true;
    }

    function Candidates(only: Option<RunId>, locked: set<RunId>): set<RunId>
      reads this
    {
      set r | r in rows && r !in locked && (only.Some? ==> r == only.value) && Eligible(rows[r], clock, cfg.maxAttempts)
    }

    /** `locked` are the rows other transactions hold; SKIP LOCKED passes over them. */
    method ClaimNextRun(worker: WorkerId, only: Option<RunId>, locked: set<RunId>)
      returns (claim: Option<Claim>, recover: bool)
      modifies this
      ensures claim.None? <==> old(Candidates(only, locked)) == {}
      ensures claim.None? ==> State() == old(State())
      ensures claim.Some? ==>
                var run := claim.value.run;
                && IsFirst(old(rows), old(Candidates(only, locked)), run)
                && claim.value == Claim(run, worker, old(rows)[run].attempts + 1)
                && (recover <==> old(rows)[run].status == Running)
                && State() == Next(cfg, old(State()), ClaimNext(worker, run))
                && Fenced(rows, claim.value, clock) == (cfg.leaseSeconds > 0)
    {
      var candidates := Candidates(only, locked);
      if candidates == {} {
        return None, false;
      }
      SomeRunIsFirst(rows, candidates);
      var run :| IsFirst(rows, candidates, run);
      var row := rows[run];
      recover := row.status == Running;
      row := row.(status := Running);
      row := row.(worker := Some(worker));
      row := row.(attempts := row.attempts + 1);
      row := row.(heartbeat := Some(clock));
      row := row.(lease := Some(clock + cfg.leaseSeconds));
      row := row.(nextAttempt := None);
      rows := rows[run := row];
      log := log + [Claimed(Claim(run, worker, row.attempts))];
      claim := Some(Claim(run, worker, row.attempts));
    }

    method RenewLease(c: Claim) returns (owned: bool)
      modifies this
      ensures owned <==> RenewAllowed(old(rows), c, clock)
      ensures owned ==> c.run in rows && rows[c.run].lease == Some(clock + cfg.leaseSeconds)
      ensures State() == Next(cfg, old(State()), Renew(c))
    {
      owned := c.run in rows && rows[c.run].status == Running && rows[c.run].worker == Some(c.worker)
               && rows[c.run].lease.Some? && rows[c.run].lease.value > clock && rows[c.run].attempts == c.attempt;
      if owned {
        var row := rows[c.run];
        rows := rows[c.run := row.(heartbeat := Some(clock), lease := Some(clock + cfg.leaseSeconds))];
        log := log + [Wrote(c)];
      }
    }

    /** History only: the claim's execution has returned. */
    ghost method NoteReturn(c: Claim)
      requires Over(rows, c)
      modifies this`done
      ensures State() == Next(cfg, old(State()), Return(c)) && c in done
    {
      done := done + {c};
    }

    method ReleaseClaim(c: Claim) returns (released: bool)
      modifies this
      ensures released <==> c.run in old(rows) && Names(old(rows)[c.run], c.worker, Some(c.attempt))
      ensures rows == if released then old(rows)[c.run := ReleaseRow(old(rows)[c.run])] else old(rows)
      // The worker calls this once its execution has returned.
      ensures c in old(done) ==> State() == Next(cfg, old(State()), Release(c))
      ensures clock == old(clock) && approvals == old(approvals) && done == old(done)
    {
      released := c.run in rows && rows[c.run].worker == Some(c.worker) && rows[c.run].attempts == c.attempt;
      if released {
        rows := rows[c.run := rows[c.run].(worker := None, lease := None, heartbeat := None)];
        log := log + [Wrote(c)];
      }
    }

    /** `local` is the worker's own clock; `delay` its back-off. */
    method RetryClaim(c: Claim, local: int, delay: nat) returns (outcome: RetryOutcome)
      modifies this
      ensures outcome.Requeued? <==> RetryAllowed(old(rows), c, local)
      ensures outcome.Requeued? ==>
                && c.run in rows && outcome.status == rows[c.run].status
                && outcome.status == if old(rows)[c.run].attempts >= cfg.maxAttempts then NeedsHuman else Pending
      ensures State() == Next(cfg, old(State()), Retry(c, local, delay))
    {
      if c.run !in rows || rows[c.run].worker != Some(c.worker) || rows[c.run].attempts != c.attempt {
        return LeaseLost;
      }
      var row := rows[c.run];
      if row.status != Running {
        return NotRunning(row.status);
      }
      if row.lease.None? || row.lease.value <= local {
        return LeaseLost;
      }
      row := row.(worker := None);
      row := row.(lease := None);
      row := row.(heartbeat := None);
      if row.attempts >= cfg.maxAttempts {
        row := row.(status := NeedsHuman);
      } else {
        row := row.(status := Pending);
        row := row.(nextAttempt := Some(local + delay));
      }
      rows := rows[c.run := row];
      log := log + [Wrote(c)];
      outcome := Requeued(row.status);
    }

    method ExpireExhaustedRuns() returns (expired: nat)
      modifies this
      ensures expired == |set r | r in old(rows) && Expirable(old(rows)[r], clock, cfg.maxAttempts)|
      ensures State() == Next(cfg, old(State()), Expire)
    {
      var due := set r | r in rows && Expirable(rows[r], clock, cfg.maxAttempts);
      expired := |due|;
      rows := map r | r in rows :: if r in due then ExpireRow(rows[r]) else rows[r];
    }

    /** `fence` for the claim in context; a claim of another run never passes. */
    method Fence(c: Claim, run: RunId) returns (held: bool)
      ensures held <==> c.run == run && Fenced(rows, c, clock)
    {
      if c.run != run {
        return false;
      }
      held := run in rows && rows[run].worker == Some(c.worker) && rows[run].attempts == c.attempt
              && rows[run].lease.Some? && rows[run].lease.value > clock && rows[run].status == Running;
    }

    method MarkRunning(c: Claim) returns (held: bool)
      modifies this
      ensures held <==> Fenced(old(rows), c, clock)
      ensures State() == Next(cfg, old(State()), Action.MarkRunning(c))
    {
      held := Fence(c, c.run);
      if held {
        rows := rows[c.run := rows[c.run].(status := Running)];
        log := log + [Wrote(c)];
      }
    }

    /** A commit of other tables right after `fence`, in its transaction. */
    method FencedCommit(c: Claim) returns (held: bool)
      modifies this
      ensures held <==> Fenced(old(rows), c, clock)
      ensures State() == Next(cfg, old(State()), Action.Write(c))
    {
      held := Fence(c, c.run);
      if held {
        log := log + [Wrote(c)];
        assert rows == rows[c.run := rows[c.run]];
      }
    }

    /** `snapshot` is the status the caller's ORM object still carries. */
    method MarkStatus(c: Claim, snapshot: Status, target: Status, finished: bool) returns (outcome: MarkOutcome)
      modifies this
      ensures outcome.LostLease? <==> !Fenced(old(rows), c, clock)
      ensures outcome.Committed? <==> MarkAllowed(old(rows), c, clock, snapshot, target)
      ensures outcome.Committed? ==> snapshot == Running && c.run in rows && rows[c.run].status == target
      ensures State() == MarkResult(old(State()), c, snapshot, target, finished)
      ensures CallerMark(target, finished) ==>
                State() == Next(cfg, old(State()), Action.MarkStatus(c, snapshot, target, finished))
    {
      if CallerMark(target, finished) {
        MarkStep(cfg, State(), c, snapshot, target, finished);
      }
      var held := Fence(c, c.run);
      if !held {
        return LostLease;
      }
      if target !in Transitions(snapshot) {
        return TransitionDenied;
      }
      var row := rows[c.run];
      if row.status != snapshot {
        return Concurrent;
      }
      row := row.(status := target);
      if finished {
        row := row.(worker := None, lease := None, heartbeat := None);
      }
      rows := rows[c.run := row];
      log := log + [Wrote(c)];
      if target != Running {
        done := done + {c};
      }
      outcome := Committed;
    }

    /** `artifact` is what `validated_artifact` found; None makes the decision a conflict. */
    method Decide(run: RunId, decision: Decision, artifact: Option<Artifact>, local: int) returns (recorded: bool)
      modifies this
      ensures recorded <==> DecideAllowed(old(State()), run, artifact)
      ensures recorded ==> run in approvals && approvals[run] == Approval(decision, BindingOf(artifact.value))
      ensures State() == Next(cfg, old(State()), Action.Decide(run, decision, artifact, local))
    {
      if artifact.None? || run !in rows || rows[run].status != WaitingApproval {
        return false;
      }
      var target := if decision == Reject then NeedsHuman else Pending;
      var row := rows[run].(status := target, worker := None, lease := None, heartbeat := None);
      row := row.(nextAttempt := if decision == Reject then None else Some(local));
      if run in approvals {
        return false;
      }
      rows := rows[run := row];
      approvals := approvals[run := Approval(decision, BindingOf(artifact.value))];
      recorded := true;
    }
  }
}
