/**
  What every history of the job queue keeps: fencing, the transition table, the
  attempt bound, the admission bound, and which runs can be stranded.
*/
module LeaseSafety {
  import opened Options
  import opened RunStatus
  import opened Artifacts
  import opened Lease

  // ------------------------------------------------------------ row invariant

  ghost predicate RowOk(cfg: Config, approvals: map<RunId, Approval>, run: RunId, row: Row) {
    && row.attempts <= cfg.maxAttempts
    && (row.status == Running ==> row.lease.Some? && row.worker.Some?)
    && (row.attempts == 0 ==> row.status == Pending)
    && (row.status == Pending ==> row.worker.None? && row.lease.None?)
    && (row.status == Pending && row.attempts == cfg.maxAttempts ==>
          run in approvals && approvals[run].decision == Approve)
    && (run in approvals && approvals[run].decision == Reject ==> row.status == NeedsHuman)
  }

  ghost predicate RowsOk(cfg: Config, db: Db) {
    && (forall r :: r in db.rows ==> RowOk(cfg, db.approvals, r, db.rows[r]))
    && db.approvals.Keys <= db.rows.Keys
  }

  // ------------------------------------------------------------ log invariant

  /** Attempts in commit order: a claim raises the attempt, a write never lowers it. */
  ghost predicate InOrder(earlier: Event, later: Event) {
    earlier.claim.run == later.claim.run ==>
      match later
      case Claimed(c) => earlier.claim.attempt < c.attempt
      case Wrote(c) => earlier.claim.attempt <= c.attempt
  }

  ghost predicate Ordered(log: seq<Event>) {
    forall i, j :: 0 <= i < j < |log| ==> InOrder(log[i], log[j])
  }

  /** Every write was preceded by the issue of the very claim it was made under. */
  ghost predicate WritesClaimed(log: seq<Event>) {
    forall j :: 0 <= j < |log| && log[j].Wrote? ==> Claimed(log[j].claim) in log[..j]
  }

  ghost predicate Bounded(rows: Rows, c: Claim) {
    c.run in rows && 1 <= c.attempt <= rows[c.run].attempts
  }

  ghost predicate LogOk(db: Db) {
    && Ordered(db.log)
    && WritesClaimed(db.log)
    && (forall i :: 0 <= i < |db.log| ==> Bounded(db.rows, db.log[i].claim))
    && (forall r :: r in db.rows && db.rows[r].worker.Some? ==>
          Claimed(Claim(r, db.rows[r].worker.value, db.rows[r].attempts)) in db.log)
  }

  /** A claim whose execution returned never holds a RUNNING row again. */
  ghost predicate DoneOk(db: Db) {
    forall c :: c in db.done ==> Over(db.rows, c)
  }

  ghost predicate Inv(cfg: Config, db: Db) {
    RowsOk(cfg, db) && LogOk(db) && DoneOk(db) && |NeverClaimed(db.rows)| <= cfg.maxQueued
  }

  // ------------------------------------------------------------- preservation

  lemma RowStaysOk(cfg: Config, db: Db, a: Action, r: RunId)
    requires cfg.Valid() && DoneOk(db) && r in db.rows && RowOk(cfg, db.approvals, r, db.rows[r])
    ensures r in Next(cfg, db, a).rows && RowOk(cfg, Next(cfg, db, a).approvals, r, Next(cfg, db, a).rows[r])
  {
  }

  lemma NewRowOk(cfg: Config, db: Db, a: Action, r: RunId)
    requires cfg.Valid() && db.approvals.Keys <= db.rows.Keys && r in Next(cfg, db, a).rows && r !in db.rows
    ensures RowOk(cfg, Next(cfg, db, a).approvals, r, Next(cfg, db, a).rows[r])
  {
  }

  lemma ApprovedRowsStay(cfg: Config, db: Db, a: Action)
    requires db.approvals.Keys <= db.rows.Keys
    ensures Next(cfg, db, a).approvals.Keys <= Next(cfg, db, a).rows.Keys
  {
  }

  lemma RowsOkPreserved(cfg: Config, db: Db, a: Action)
    requires cfg.Valid() && RowsOk(cfg, db) && DoneOk(db)
    ensures RowsOk(cfg, Next(cfg, db, a))
  {
    var db' := Next(cfg, db, a);
    forall r | r in db'.rows
      ensures RowOk(cfg, db'.approvals, r, db'.rows[r])
    {
      if r in db.rows {
        RowStaysOk(cfg, db, a, r);
      } else {
        NewRowOk(cfg, db, a, r);
      }
    }
    ApprovedRowsStay(cfg, db, a);
  }

  /** The three ways a transaction can extend the log. */
  ghost predicate LogStep(db: Db, db': Db) {
    || (db'.log == db.log)
    || (exists c :: db'.log == db.log + [Wrote(c)] && c.run in db.rows
          && Names(db.rows[c.run], c.worker, Some(c.attempt)))
    || (exists c :: db'.log == db.log + [Claimed(c)] && c.run in db.rows && c.run in db'.rows
          && c.attempt == db.rows[c.run].attempts + 1 == db'.rows[c.run].attempts
          && db'.rows[c.run].worker == Some(c.worker))
  }

  lemma NextIsLogStep(cfg: Config, db: Db, a: Action)
    ensures LogStep(db, Next(cfg, db, a))
  {
    var db' := Next(cfg, db, a);
    match a
    case ClaimNext(worker, run) =>
      if run in db.rows && Eligible(db.rows[run], db.clock, cfg.maxAttempts) {
        var c := Claim(run, worker, db.rows[run].attempts + 1);
        assert db'.log == db.log + [Claimed(c)];
      }
    case Renew(c) => assert db'.log == db.log || db'.log == db.log + [Wrote(c)];
    case Release(c) => assert db'.log == db.log || db'.log == db.log + [Wrote(c)];
    case Retry(c, _, _) => assert db'.log == db.log || db'.log == db.log + [Wrote(c)];
    case MarkRunning(c) => assert db'.log == db.log || db'.log == db.log + [Wrote(c)];
    case MarkStatus(c, _, _, _) => assert db'.log == db.log || db'.log == db.log + [Wrote(c)];
    case Write(c) => assert db'.log == db.log || db'.log == db.log + [Wrote(c)];
    case _ =>
  }

  /** Rows are never deleted, attempts never drop, and a worker name appears only by a claim. */
  ghost predicate RowEvolves(db: Db, db': Db, r: RunId)
    requires r in db.rows
  {
    && r in db'.rows
    && db'.rows[r].attempts >= db.rows[r].attempts
    && (db'.rows[r].worker.Some? ==>
          || (db'.rows[r].worker == db.rows[r].worker && db'.rows[r].attempts == db.rows[r].attempts)
          || db'.log == db.log + [Claimed(Claim(r, db'.rows[r].worker.value, db'.rows[r].attempts))])
  }

  ghost predicate Evolves(db: Db, db': Db) {
    && (forall r :: r in db.rows ==> RowEvolves(db, db', r))
    && (forall r :: r in db'.rows && r !in db.rows ==> db'.rows[r].worker.None?)
  }

  lemma NextEvolves(cfg: Config, db: Db, a: Action)
    ensures Evolves(db, Next(cfg, db, a))
  {
    var db' := Next(cfg, db, a);
    forall r | r in db.rows
      ensures RowEvolves(db, db', r)
    {
    }
  }

  lemma ExtendLog(rows: Rows, log: seq<Event>, e: Event)
    requires Ordered(log) && WritesClaimed(log)
    requires forall i :: 0 <= i < |log| ==> Bounded(rows, log[i].claim)
    requires e.claim.run in rows
    requires e.Wrote? ==> Claimed(e.claim) in log && e.claim.attempt == rows[e.claim.run].attempts
    requires e.Claimed? ==> e.claim.attempt == rows[e.claim.run].attempts + 1
    ensures Ordered(log + [e]) && WritesClaimed(log + [e])
  {
    var log' := log + [e];
    forall j | 0 <= j < |log'| && log'[j].Wrote?
      ensures Claimed(log'[j].claim) in log'[..j]
    {
      assert log'[..j] == log[..j];
      assert j == |log| ==> log[..j] == log;
    }
  }

  lemma LogOkPreserved(db: Db, db': Db)
    requires LogOk(db) && LogStep(db, db') && Evolves(db, db')
    ensures LogOk(db')
  {
    if db'.log != db.log {
      var e := db'.log[|db.log|];
      assert db'.log == db.log + [e];
      if e.Wrote? {
        assert Claimed(Claim(e.claim.run, e.claim.worker, e.claim.attempt)) in db.log;
      }
      ExtendLog(db.rows, db.log, e);
    }
    forall i | 0 <= i < |db'.log|
      ensures Bounded(db'.rows, db'.log[i].claim)
    {
      if i < |db.log| {
        assert Bounded(db.rows, db.log[i].claim) && RowEvolves(db, db', db.log[i].claim.run);
      } else {
        assert RowEvolves(db, db', db'.log[i].claim.run);
      }
    }
    forall r | r in db'.rows && db'.rows[r].worker.Some?
      ensures Claimed(Claim(r, db'.rows[r].worker.value, db'.rows[r].attempts)) in db'.log
    {
      assert RowEvolves(db, db', r);
    }
  }

  /** A row leaves a status other than RUNNING for RUNNING only by a new claim. */
  lemma StaysOver(cfg: Config, db: Db, a: Action, c: Claim)
    requires Over(db.rows, c)
    ensures Over(Next(cfg, db, a).rows, c)
  {
  }

  lemma {:induction false} OverForever(cfg: Config, db: Db, actions: seq<Action>, c: Claim)
    requires Over(db.rows, c)
    ensures Over(Run(cfg, db, actions).rows, c)
  {
    if actions != [] {
      OverForever(cfg, db, actions[..|actions| - 1], c);
      StaysOver(cfg, Run(cfg, db, actions[..|actions| - 1]), actions[|actions| - 1], c);
    }
  }

  lemma BecomesOver(cfg: Config, db: Db, a: Action, c: Claim)
    requires LogOk(db) && c !in db.done && c in Next(cfg, db, a).done
    ensures Over(Next(cfg, db, a).rows, c)
  {
    if a.MarkStatus? {
      assert Claimed(Claim(c.run, c.worker, c.attempt)) in db.log;
    }
  }

  lemma DoneOkPreserved(cfg: Config, db: Db, a: Action)
    requires cfg.Valid() && LogOk(db) && DoneOk(db)
    ensures DoneOk(Next(cfg, db, a))
  {
    var db' := Next(cfg, db, a);
    forall c | c in db'.done
      ensures Over(db'.rows, c)
    {
      if c in db.done {
        StaysOver(cfg, db, a, c);
      } else {
        BecomesOver(cfg, db, a, c);
      }
    }
  }

  /** Nothing but an admission makes a row that was never claimed. */
  lemma NeverClaimedBefore(cfg: Config, db: Db, a: Action, r: RunId)
    requires RowsOk(cfg, db) && r in NeverClaimed(Next(cfg, db, a).rows)
    ensures r in NeverClaimed(db.rows) || (a.Admit? && a.run == r && r !in db.rows)
  {
    assert r in db.rows ==> RowOk(cfg, db.approvals, r, db.rows[r]);
  }

  lemma QueueBoundPreserved(cfg: Config, db: Db, a: Action)
    requires cfg.Valid() && RowsOk(cfg, db) && |NeverClaimed(db.rows)| <= cfg.maxQueued
    ensures |NeverClaimed(Next(cfg, db, a).rows)| <= cfg.maxQueued
  {
    var before, after := NeverClaimed(db.rows), NeverClaimed(Next(cfg, db, a).rows);
    if a.Admit? && a.run !in db.rows && |PendingRuns(db.rows)| < cfg.maxQueued {
      SubsetSize(after, PendingRuns(db.rows) + {a.run});
    } else {
      forall r | r in after
        ensures r in before
      {
        NeverClaimedBefore(cfg, db, a, r);
      }
      SubsetSize(after, before);
    }
  }

  lemma {:induction false} SubsetSize<T>(a: set<T>, b: set<T>)
    requires a <= b
    ensures |a| <= |b|
  {
    assert b == a + (b - a);
    assert |a + (b - a)| == |a| + |b - a|;
  }

  lemma InvPreserved(cfg: Config, db: Db, a: Action)
    requires cfg.Valid() && Inv(cfg, db)
    ensures Inv(cfg, Next(cfg, db, a))
  {
    RowsOkPreserved(cfg, db, a);
    NextIsLogStep(cfg, db, a);
    NextEvolves(cfg, db, a);
    LogOkPreserved(db, Next(cfg, db, a));
    DoneOkPreserved(cfg, db, a);
    QueueBoundPreserved(cfg, db, a);
  }

  lemma {:induction false} InvAlways(cfg: Config, clock: int, actions: seq<Action>)
    requires cfg.Valid()
    ensures Inv(cfg, Run(cfg, Empty(clock), actions))
  {
    if actions == [] {
      assert NeverClaimed(map[]) == {};
    } else {
      InvAlways(cfg, clock, actions[..|actions| - 1]);
      InvPreserved(cfg, Run(cfg, Empty(clock), actions[..|actions| - 1]), actions[|actions| - 1]);
    }
  }
}
