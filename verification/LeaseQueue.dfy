/** When the queue of PENDING runs outgrows `max_queued_runs`, and by how much. */
module LeaseQueue {
  import opened Options
  import opened RunStatus
  import opened Artifacts
  import opened Lease
  import opened LeaseSafety
  import LeaseTheorems

  // ----------------------------------------------------------- which steps grow it

  /** A failed attempt goes back to the queue, or an approval puts its run there: no admission check. */
  predicate Requeues(cfg: Config, db: Db, a: Action) {
    match a
    case Retry(c, local, _) => RetryAllowed(db.rows, c, local) && db.rows[c.run].attempts < cfg.maxAttempts
    case Decide(run, decision, artifact, _) => decision == Approve && DecideAllowed(db, run, artifact)
    case _ => false
  }

  /** A re-queue while the queue is full. */
  predicate Overfills(cfg: Config, db: Db, a: Action) {
    |PendingRuns(db.rows)| == cfg.maxQueued && Requeues(cfg, db, a)
  }

  function Requeued(a: Action): RunId
    requires a.Retry? || a.Decide?
  {
    if a.Retry? then a.claim.run else a.run
  }

  /** A re-queue adds one run that was not PENDING before. */
  lemma RequeueAddsOne(cfg: Config, db: Db, a: Action)
    requires Requeues(cfg, db, a)
    ensures |PendingRuns(Next(cfg, db, a).rows)| == |PendingRuns(db.rows)| + 1
  {
    var run := Requeued(a);
    assert run !in PendingRuns(db.rows);
    assert PendingRuns(Next(cfg, db, a).rows) == PendingRuns(db.rows) + {run};
  }

  /** Every other step makes nothing PENDING, except an admission below the limit. */
  lemma OthersAddNone(cfg: Config, db: Db, a: Action)
    requires RowsOk(cfg, db) && !Requeues(cfg, db, a) && !a.Admit?
    ensures PendingRuns(Next(cfg, db, a).rows) <= PendingRuns(db.rows)
  {
    forall r | r in PendingRuns(Next(cfg, db, a).rows)
      ensures r in PendingRuns(db.rows)
    {
      assert r in db.rows ==> RowOk(cfg, db.approvals, r, db.rows[r]);
    }
  }

  lemma AdmissionStaysWithin(cfg: Config, db: Db, run: RunId, started: int)
    requires |PendingRuns(db.rows)| <= cfg.maxQueued
    ensures |PendingRuns(Next(cfg, db, Admit(run, started)).rows)| <= cfg.maxQueued
  {
    if run !in db.rows && |PendingRuns(db.rows)| < cfg.maxQueued {
      assert PendingRuns(Next(cfg, db, Admit(run, started)).rows) == PendingRuns(db.rows) + {run};
    }
  }

  /** One step takes the queue over its limit if and only if it re-queues a run while the queue is full. */
  lemma StepOverfillsExactly(cfg: Config, db: Db, a: Action)
    requires RowsOk(cfg, db) && |PendingRuns(db.rows)| <= cfg.maxQueued
    ensures |PendingRuns(Next(cfg, db, a).rows)| > cfg.maxQueued
            <==> Overfills(cfg, db, a)
  {
    if Requeues(cfg, db, a) {
      RequeueAddsOne(cfg, db, a);
    } else if a.Admit? {
      AdmissionStaysWithin(cfg, db, a.run, a.started);
    } else {
      OthersAddNone(cfg, db, a);
      SubsetSize(PendingRuns(Next(cfg, db, a).rows), PendingRuns(db.rows));
    }
  }

  // -------------------------------------------------------------- over histories

  function After(cfg: Config, clock: int, actions: seq<Action>, k: nat): Db
    requires k <= |actions|
  {
    Run(cfg, Empty(clock), actions[..k])
  }

  ghost predicate WithinLimit(cfg: Config, clock: int, actions: seq<Action>, n: nat)
    requires n <= |actions|
  {
    forall k :: 0 <= k <= n ==> |PendingRuns(After(cfg, clock, actions, k).rows)| <= cfg.maxQueued
  }

  ghost predicate NoRequeueWhenFull(cfg: Config, clock: int, actions: seq<Action>, n: nat)
    requires n <= |actions|
  {
    forall k :: 0 <= k < n ==> !Overfills(cfg, After(cfg, clock, actions, k), actions[k])
  }

  lemma AfterOneMore(cfg: Config, clock: int, actions: seq<Action>, k: nat)
    requires k < |actions|
    ensures After(cfg, clock, actions, k + 1) == Next(cfg, After(cfg, clock, actions, k), actions[k])
  {
    assert actions[..k + 1][..k] == actions[..k];
  }

  lemma OneMoreMoment(cfg: Config, clock: int, actions: seq<Action>, n: nat)
    requires n < |actions|
    requires WithinLimit(cfg, clock, actions, n) <==> NoRequeueWhenFull(cfg, clock, actions, n)
    requires WithinLimit(cfg, clock, actions, n) ==>
               (|PendingRuns(After(cfg, clock, actions, n + 1).rows)| > cfg.maxQueued
                <==> Overfills(cfg, After(cfg, clock, actions, n), actions[n]))
    ensures WithinLimit(cfg, clock, actions, n + 1) <==> NoRequeueWhenFull(cfg, clock, actions, n + 1)
  {
    assert WithinLimit(cfg, clock, actions, n + 1) ==> WithinLimit(cfg, clock, actions, n);
    assert NoRequeueWhenFull(cfg, clock, actions, n + 1) ==> NoRequeueWhenFull(cfg, clock, actions, n);
  }

  lemma {:induction false} QueueBoundUpTo(cfg: Config, clock: int, actions: seq<Action>, n: nat)
    requires cfg.Valid() && n <= |actions|
    ensures WithinLimit(cfg, clock, actions, n) <==> NoRequeueWhenFull(cfg, clock, actions, n)
    decreases n
  {
    if n == 0 {
      assert actions[..0] == [] && PendingRuns(map[]) == {};
    } else {
      QueueBoundUpTo(cfg, clock, actions, n - 1);
      var before := After(cfg, clock, actions, n - 1);
      AfterOneMore(cfg, clock, actions, n - 1);
      InvAlways(cfg, clock, actions[..n - 1]);
      if |PendingRuns(before.rows)| <= cfg.maxQueued {
        StepOverfillsExactly(cfg, before, actions[n - 1]);
      }
      OneMoreMoment(cfg, clock, actions, n - 1);
    }
  }

  /**
    The queue as a whole: over any history it stays within `max_queued_runs` at every moment
    if and only if no retry and no approval re-queues a run at a moment when it is full.
  */
  lemma QueueBoundExactly(cfg: Config, clock: int, actions: seq<Action>)
    requires cfg.Valid()
    ensures WithinLimit(cfg, clock, actions, |actions|) <==> NoRequeueWhenFull(cfg, clock, actions, |actions|)
  {
    QueueBoundUpTo(cfg, clock, actions, |actions|);
  }

  // ------------------------------------------------------------ how far it can grow

  /** Distinct run ids, told apart by their length. */
  function Name(i: nat): RunId {
    seq(i, _ => 'r')
  }

  /** The first `n` runs exist, the first `approved` of them decided and PENDING, the others waiting. */
  ghost predicate Waiting(db: Db, n: nat, approved: nat) {
    && approved <= n
    && (forall i :: 0 <= i < n ==>
          && Name(i) in db.rows && db.rows[Name(i)].status == (if i < approved then Pending else WaitingApproval)
          && (Name(i) in db.approvals <==> i < approved))
    && (forall r :: r in db.rows ==> |r| < n && r == Name(|r|))
  }

  lemma {:induction false} PendingCount(db: Db, n: nat, approved: nat)
    requires Waiting(db, n, approved)
    ensures |PendingRuns(db.rows)| == approved
  {
    assert PendingRuns(db.rows) == Names(approved) by {
      NamesOf(approved);
    }
    NamesCount(approved);
  }

  ghost function Names(n: nat): set<RunId> {
    if n == 0 then {} else Names(n - 1) + {Name(n - 1)}
  }

  lemma {:induction false} NamesOf(n: nat)
    ensures forall r :: r in Names(n) <==> |r| < n && r == Name(|r|)
  {
    if n > 0 {
      NamesOf(n - 1);
      assert |Name(n - 1)| == n - 1;
    }
  }

  lemma {:induction false} NamesCount(n: nat)
    ensures |Names(n)| == n
  {
    if n > 0 {
      NamesCount(n - 1);
      NamesOf(n - 1);
      assert |Name(n - 1)| == n - 1;
    }
  }

  /** Three commits that take a new run to the approval. */
  function Parked(cfg: Config, db: Db, r: RunId, w: WorkerId): Db {
    var admitted := Next(cfg, db, Admit(r, 0));
    var claimed := Next(cfg, admitted, ClaimNext(w, r));
    Next(cfg, claimed, MarkStatus(Claim(r, w, 1), Running, WaitingApproval, false))
  }

  lemma ParkedRow(cfg: Config, db: Db, r: RunId, w: WorkerId)
    requires cfg.Valid() && r !in db.rows && |PendingRuns(db.rows)| < cfg.maxQueued
    ensures var row := ClaimRow(NewRow(0), w, db.clock, cfg.leaseSeconds).(status := WaitingApproval);
            Parked(cfg, db, r, w).rows == db.rows[r := row] && Parked(cfg, db, r, w).approvals == db.approvals
  {
    var admitted := Next(cfg, db, Admit(r, 0));
    assert admitted == db.(rows := db.rows[r := NewRow(0)]);
    var claimed := Next(cfg, admitted, ClaimNext(w, r));
    assert claimed.rows == db.rows[r := ClaimRow(NewRow(0), w, db.clock, cfg.leaseSeconds)];
    assert MarkAllowed(claimed.rows, Claim(r, w, 1), claimed.clock, Running, WaitingApproval);
  }

  /** One more run, admitted to an empty queue, claimed, and parked on the approval. */
  lemma ParkOne(db: Db, db': Db, n: nat, row: Row)
    requires Waiting(db, n, 0) && row.status == WaitingApproval
    requires db'.rows == db.rows[Name(n) := row] && db'.approvals == db.approvals && Name(n) !in db.approvals
    ensures Waiting(db', n + 1, 0)
  {
    assert |Name(n)| == n;
    assert forall i :: 0 <= i < n ==> |Name(i)| == i;
  }

  /** An approval ignores how long the queue is. */
  lemma ApproveOne(cfg: Config, db: Db, n: nat, approved: nat, artifact: Artifact)
    requires Waiting(db, n, approved) && approved < n
    ensures Waiting(Next(cfg, db, Decide(Name(approved), Approve, Some(artifact), 0)), n, approved + 1)
  {
    assert forall i :: 0 <= i < n && i != approved ==> |Name(i)| == i && |Name(approved)| == approved;
  }

  lemma OneMoreParked(cfg: Config, db: Db, n: nat, w: WorkerId)
    requires cfg.Valid() && Waiting(db, n, 0) && db.approvals.Keys <= db.rows.Keys
    ensures Waiting(Parked(cfg, db, Name(n), w), n + 1, 0)
  {
    assert |Name(n)| == n;
    PendingCount(db, n, 0);
    ParkedRow(cfg, db, Name(n), w);
    ParkOne(db, Parked(cfg, db, Name(n), w), n,
            ClaimRow(NewRow(0), w, db.clock, cfg.leaseSeconds).(status := WaitingApproval));
  }

  lemma ExtendParked(cfg: Config, actions: seq<Action>, r: RunId, w: WorkerId) returns (longer: seq<Action>)
    ensures Run(cfg, Empty(0), longer) == Parked(cfg, Run(cfg, Empty(0), actions), r, w)
  {
    longer := LeaseTheorems.Extend(cfg, Empty(0), actions, Admit(r, 0));
    longer := LeaseTheorems.Extend(cfg, Empty(0), longer, ClaimNext(w, r));
    longer := LeaseTheorems.Extend(cfg, Empty(0), longer, MarkStatus(Claim(r, w, 1), Running, WaitingApproval, false));
  }

  lemma {:induction false} ParkRuns(cfg: Config, n: nat, w: WorkerId) returns (actions: seq<Action>)
    requires cfg.Valid()
    ensures Waiting(Run(cfg, Empty(0), actions), n, 0)
  {
    if n == 0 {
      actions := [];
    } else {
      actions := ParkRuns(cfg, n - 1, w);
      InvAlways(cfg, 0, actions);
      OneMoreParked(cfg, Run(cfg, Empty(0), actions), n - 1, w);
      actions := ExtendParked(cfg, actions, Name(n - 1), w);
    }
  }

  lemma ExtendApproved(cfg: Config, actions: seq<Action>, n: nat, approved: nat, artifact: Artifact)
    returns (longer: seq<Action>)
    requires Waiting(Run(cfg, Empty(0), actions), n, approved) && approved < n
    ensures Waiting(Run(cfg, Empty(0), longer), n, approved + 1)
  {
    ApproveOne(cfg, Run(cfg, Empty(0), actions), n, approved, artifact);
    longer := LeaseTheorems.Extend(cfg, Empty(0), actions, Decide(Name(approved), Approve, Some(artifact), 0));
  }

  lemma {:induction false} ApproveRuns(cfg: Config, n: nat, approved: nat, w: WorkerId, artifact: Artifact)
    returns (actions: seq<Action>)
    requires cfg.Valid() && approved <= n
    ensures Waiting(Run(cfg, Empty(0), actions), n, approved)
    decreases approved
  {
    if approved == 0 {
      actions := ParkRuns(cfg, n, w);
    } else {
      actions := ApproveRuns(cfg, n, approved - 1, w, artifact);
      actions := ExtendApproved(cfg, actions, n, approved - 1, artifact);
    }
  }

  /** No limit bounds the queue: under every configuration some history has any number of runs PENDING at once. */
  lemma QueueIsUnbounded(cfg: Config, n: nat, w: WorkerId, artifact: Artifact) returns (actions: seq<Action>)
    requires cfg.Valid()
    ensures |PendingRuns(Run(cfg, Empty(0), actions).rows)| == n
  {
    actions := ApproveRuns(cfg, n, n, w, artifact);
    PendingCount(Run(cfg, Empty(0), actions), n, n);
  }
}
