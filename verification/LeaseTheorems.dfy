/** The guarantees of the job queue, stated over every history of actions. */
module LeaseTheorems {
  import opened Options
  import opened RunStatus
  import opened Artifacts
  import opened Lease
  import opened LeaseSafety

  // ----------------------------------------------------------------- fencing

  /** `c` was issued in this prefix of the history and no later attempt of its run was. */
  ghost predicate IsLatestClaim(prefix: seq<Event>, c: Claim) {
    && Claimed(c) in prefix
    && (forall k :: 0 <= k < |prefix| && prefix[k].Claimed? && prefix[k].claim.run == c.run && prefix[k].claim != c ==>
          prefix[k].claim.attempt < c.attempt)
  }

  ghost predicate SameAttempt(d: Event, e: Event) {
    d.Claimed? && e.Claimed? && d.claim.run == e.claim.run && d.claim.attempt == e.claim.attempt
  }

  /**
    Fencing safety. Over any interleaving of any number of workers, with crashes,
    late writes, reused worker ids and arbitrary local clocks: an attempt of a run is
    issued to at most one claim, commits are in attempt order, and every commit
    belongs to the claim that is the latest one at that moment.
  */
  lemma FencingSafety(cfg: Config, clock: int, actions: seq<Action>)
    requires cfg.Valid()
    ensures var log := Run(cfg, Empty(clock), actions).log;
            && (forall i, j :: 0 <= i < |log| && 0 <= j < |log| && SameAttempt(log[i], log[j]) ==> i == j)
            && (forall i, j :: 0 <= i < j < |log| && log[i].claim.run == log[j].claim.run ==>
                  log[i].claim.attempt <= log[j].claim.attempt)
            && (forall j :: 0 <= j < |log| && log[j].Wrote? ==> IsLatestClaim(log[..j], log[j].claim))
  {
    InvAlways(cfg, clock, actions);
    var log := Run(cfg, Empty(clock), actions).log;
    forall i, j | 0 <= i < j < |log| && log[i].claim.run == log[j].claim.run
      ensures log[i].claim.attempt <= log[j].claim.attempt
      ensures log[j].Claimed? ==> log[i].claim.attempt < log[j].claim.attempt
    {
      assert InOrder(log[i], log[j]);
    }
    forall j | 0 <= j < |log| && log[j].Wrote?
      ensures IsLatestClaim(log[..j], log[j].claim)
    {
      LatestAtWrite(log, j);
    }
  }

  lemma LatestAtWrite(log: seq<Event>, j: nat)
    requires Ordered(log) && WritesClaimed(log)
    requires j < |log| && log[j].Wrote?
    ensures IsLatestClaim(log[..j], log[j].claim)
  {
    var c := log[j].claim;
    var i :| 0 <= i < j && log[..j][i] == Claimed(c);
    forall k | 0 <= k < j && log[k].Claimed? && log[k].claim.run == c.run && log[k].claim != c
      ensures log[k].claim.attempt < c.attempt
    {
      assert InOrder(log[k], log[j]);
      if k < i {
        assert InOrder(log[k], log[i]);
      }
    }
  }

  /** A fence, once lost, can only come back with a new attempt, which the old claim does not name. */
  lemma LostOnceByRow(cfg: Config, db: Db, a: Action, c: Claim)
    requires Bounded(db.rows, c) && !Fenced(db.rows, c, db.clock)
    requires RowOk(cfg, db.approvals, c.run, db.rows[c.run])
    ensures Bounded(Next(cfg, db, a).rows, c) && !Fenced(Next(cfg, db, a).rows, c, Next(cfg, db, a).clock)
  {
  }

  /** A claim that has lost its fence, for whatever reason, never passes a fence again. */
  lemma LostOnce(cfg: Config, db: Db, a: Action, c: Claim)
    requires cfg.Valid() && Inv(cfg, db)
    requires Bounded(db.rows, c) && !Fenced(db.rows, c, db.clock)
    ensures Bounded(Next(cfg, db, a).rows, c) && !Fenced(Next(cfg, db, a).rows, c, Next(cfg, db, a).clock)
  {
    assert RowOk(cfg, db.approvals, c.run, db.rows[c.run]);
    LostOnceByRow(cfg, db, a, c);
  }

  lemma {:induction false} LostForever(cfg: Config, db: Db, actions: seq<Action>, c: Claim)
    requires cfg.Valid() && Inv(cfg, db)
    requires Bounded(db.rows, c) && !Fenced(db.rows, c, db.clock)
    ensures Inv(cfg, Run(cfg, db, actions))
    ensures Bounded(Run(cfg, db, actions).rows, c)
    ensures !Fenced(Run(cfg, db, actions).rows, c, Run(cfg, db, actions).clock)
  {
    if actions != [] {
      LostForever(cfg, db, actions[..|actions| - 1], c);
      var mid := Run(cfg, db, actions[..|actions| - 1]);
      LostOnce(cfg, mid, actions[|actions| - 1], c);
      InvPreserved(cfg, mid, actions[|actions| - 1]);
    }
  }

  // ------------------------------------------------------- transition table

  /** Every status change lies in the table, although only `mark_status` consults it. */
  lemma StepRefinesTransitions(cfg: Config, db: Db, a: Action, r: RunId)
    requires r in db.rows
    ensures r in Next(cfg, db, a).rows
    ensures var s, s' := db.rows[r].status, Next(cfg, db, a).rows[r].status;
            s' == s || s' in Transitions(s)
    ensures db.rows[r].attempts <= Next(cfg, db, a).rows[r].attempts <= db.rows[r].attempts + 1
  {
  }

  lemma TerminalStays(cfg: Config, db: Db, a: Action, r: RunId)
    requires r in db.rows && db.rows[r].status in TERMINAL
    ensures var db' := Next(cfg, db, a);
            r in db'.rows && db'.rows[r].status == db.rows[r].status && db'.rows[r].attempts == db.rows[r].attempts
  {
  }

  lemma {:induction false} TerminalAbsorbing(cfg: Config, db: Db, actions: seq<Action>, r: RunId)
    requires r in db.rows && db.rows[r].status in TERMINAL
    ensures r in Run(cfg, db, actions).rows
    ensures Run(cfg, db, actions).rows[r].status == db.rows[r].status
    ensures Run(cfg, db, actions).rows[r].attempts == db.rows[r].attempts
  {
    if actions != [] {
      TerminalAbsorbing(cfg, db, actions[..|actions| - 1], r);
      TerminalStays(cfg, Run(cfg, db, actions[..|actions| - 1]), actions[|actions| - 1], r);
    }
  }

  // ------------------------------------------------------------ claim bound

  function Claims(log: seq<Event>): seq<Claim> {
    if log == [] then []
    else
      var init := Claims(log[..|log| - 1]);
      if log[|log| - 1].Claimed? then init + [log[|log| - 1].claim] else init
  }

  function Slots(runs: set<RunId>, attempts: nat): set<(RunId, nat)> {
    set r, k | r in runs && 1 <= k <= attempts :: (r, k)
  }

  function IssuedSlots(log: seq<Event>): set<(RunId, nat)> {
    set i | 0 <= i < |log| && log[i].Claimed? :: (log[i].claim.run, log[i].claim.attempt)
  }

  lemma {:induction false} SlotCount(runs: set<RunId>, attempts: nat)
    ensures |Slots(runs, attempts)| == |runs| * attempts
    decreases |runs|
  {
    if runs == {} {
      assert Slots(runs, attempts) == {};
    } else {
      var r :| r in runs;
      var rest := runs - {r};
      SlotCount(rest, attempts);
      ColumnCount(r, attempts);
      SlotsSplit(runs, r, attempts);
      OneMoreColumn(|rest|, attempts);
    }
  }

  lemma OneMoreColumn(runs: nat, attempts: nat)
    ensures (runs + 1) * attempts == runs * attempts + attempts
  {
  }

  lemma SlotsSplit(runs: set<RunId>, r: RunId, attempts: nat)
    requires r in runs
    ensures Slots(runs, attempts) == Slots(runs - {r}, attempts) + Column(r, attempts)
    ensures Slots(runs - {r}, attempts) !! Column(r, attempts)
  {
    forall slot
      ensures slot in Slots(runs, attempts) <==> slot in Slots(runs - {r}, attempts) || slot in Column(r, attempts)
    {
      assert slot in Slots(runs, attempts) <==> slot.0 in runs && 1 <= slot.1 <= attempts;
      assert slot in Slots(runs - {r}, attempts) <==> slot.0 in runs - {r} && 1 <= slot.1 <= attempts;
    }
  }

  function Column(r: RunId, attempts: nat): set<(RunId, nat)> {
    set k | 1 <= k <= attempts :: (r, k)
  }

  lemma {:induction false} ColumnCount(r: RunId, attempts: nat)
    ensures |Column(r, attempts)| == attempts
  {
    if attempts == 0 {
      assert Column(r, attempts) == {};
    } else {
      ColumnCount(r, attempts - 1);
      assert Column(r, attempts) == Column(r, attempts - 1) + {(r, attempts)};
    }
  }

  lemma {:induction false} ClaimsAreSlots(log: seq<Event>)
    requires Ordered(log)
    ensures |Claims(log)| == |IssuedSlots(log)|
  {
    if log == [] {
      assert IssuedSlots(log) == {};
    } else {
      var init, e := log[..|log| - 1], log[|log| - 1];
      assert forall i, j :: 0 <= i < j < |init| ==> InOrder(log[i], log[j]);
      ClaimsAreSlots(init);
      assert log == init + [e];
      LastSlot(init, e);
    }
  }

  /** A claim takes a slot that no earlier claim took; a write takes none. */
  lemma LastSlot(init: seq<Event>, e: Event)
    requires Ordered(init + [e])
    ensures |IssuedSlots(init + [e])| == |IssuedSlots(init)| + (if e.Claimed? then 1 else 0)
  {
    var log, slot := init + [e], (e.claim.run, e.claim.attempt);
    if e.Claimed? {
      forall i | 0 <= i < |init| && init[i].Claimed?
        ensures (init[i].claim.run, init[i].claim.attempt) != slot
      {
        assert InOrder(log[i], log[|init|]);
      }
      assert slot !in IssuedSlots(init);
    }
    SlotsGrow(init, e);
  }

  lemma SlotsGrow(init: seq<Event>, e: Event)
    ensures IssuedSlots(init + [e]) == IssuedSlots(init) + if e.Claimed? then {(e.claim.run, e.claim.attempt)} else {}
  {
    var log := init + [e];
    forall s | s in IssuedSlots(init)
      ensures s in IssuedSlots(log)
    {
      var i :| 0 <= i < |init| && init[i].Claimed? && s == (init[i].claim.run, init[i].claim.attempt);
      assert log[i] == init[i];
    }
    assert log[|init|] == e;
  }

  /** No history contains more claims than `max_job_attempts` for each admitted run. */
  lemma ClaimsBounded(cfg: Config, clock: int, actions: seq<Action>)
    requires cfg.Valid()
    ensures var db := Run(cfg, Empty(clock), actions);
            && |Claims(db.log)| <= |db.rows| * cfg.maxAttempts
            && (forall r :: r in db.rows ==> db.rows[r].attempts <= cfg.maxAttempts)
  {
    InvAlways(cfg, clock, actions);
    var db := Run(cfg, Empty(clock), actions);
    forall r | r in db.rows
      ensures db.rows[r].attempts <= cfg.maxAttempts
    {
      assert RowOk(cfg, db.approvals, r, db.rows[r]);
    }
    ClaimsAreSlots(db.log);
    forall s | s in IssuedSlots(db.log)
      ensures s in Slots(db.rows.Keys, cfg.maxAttempts)
    {
      var i :| 0 <= i < |db.log| && db.log[i].Claimed? && s == (db.log[i].claim.run, db.log[i].claim.attempt);
      assert Bounded(db.rows, db.log[i].claim);
    }
    SubsetSize(IssuedSlots(db.log), Slots(db.rows.Keys, cfg.maxAttempts));
    SlotCount(db.rows.Keys, cfg.maxAttempts);
  }

  // --------------------------------------------------------- stranded runs

  /** Some later moment lets a worker claim the row or the poller expire it. */
  ghost predicate Rescuable(cfg: Config, row: Row, now: int) {
    exists t :: t >= now && (Eligible(row, t, cfg.maxAttempts) || Expirable(row, t, cfg.maxAttempts))
  }

  predicate Stranded(cfg: Config, row: Row) {
    row.status == Pending && row.attempts >= cfg.maxAttempts
  }

  /**
    Which live runs can be left behind: exactly the PENDING rows with no attempt
    left, and those were all re-queued by an APPROVE.
  */
  lemma StrandedExactly(cfg: Config, clock: int, actions: seq<Action>, r: RunId)
    requires cfg.Valid()
    requires r in Run(cfg, Empty(clock), actions).rows
    requires Run(cfg, Empty(clock), actions).rows[r].status in {Pending, Running}
    ensures var db := Run(cfg, Empty(clock), actions);
            && (db.rows[r].status == Running ==> db.rows[r].lease.Some?)
            && (Rescuable(cfg, db.rows[r], db.clock) <==> !Stranded(cfg, db.rows[r]))
            && (Stranded(cfg, db.rows[r]) ==> r in db.approvals && db.approvals[r].decision == Approve)
  {
    InvAlways(cfg, clock, actions);
    var db := Run(cfg, Empty(clock), actions);
    var row := db.rows[r];
    assert RowOk(cfg, db.approvals, r, row);
    if !Stranded(cfg, row) {
      var due := if row.status == Running then row.lease.value
                 else if row.nextAttempt.Some? then row.nextAttempt.value else db.clock;
      var t := if due >= db.clock then due else db.clock;
      assert Eligible(row, t, cfg.maxAttempts) || Expirable(row, t, cfg.maxAttempts);
    }
  }

  lemma StrandedOnce(cfg: Config, db: Db, a: Action, r: RunId)
    requires r in db.rows && Stranded(cfg, db.rows[r]) && db.rows[r].worker.None?
    ensures r in Next(cfg, db, a).rows && Next(cfg, db, a).rows[r] == db.rows[r]
  {
  }

  /** A stranded row is never touched again by anyone. */
  lemma {:induction false} StrandedForever(cfg: Config, db: Db, actions: seq<Action>, r: RunId)
    requires r in db.rows && Stranded(cfg, db.rows[r]) && db.rows[r].worker.None?
    ensures r in Run(cfg, db, actions).rows && Run(cfg, db, actions).rows[r] == db.rows[r]
  {
    if actions != [] {
      StrandedForever(cfg, db, actions[..|actions| - 1], r);
      StrandedOnce(cfg, Run(cfg, db, actions[..|actions| - 1]), actions[|actions| - 1], r);
    }
  }

  /** Histories that use up every attempt of one run: each claim lets its lease run out. */
  lemma {:induction false} UseAttempts(cfg: Config, r: RunId, w: WorkerId, k: nat) returns (actions: seq<Action>)
    requires cfg.Valid() && 1 <= k <= cfg.maxAttempts
    ensures var db := Run(cfg, Empty(0), actions);
            && r in db.rows && db.approvals == map[] && Fenced(db.rows, Claim(r, w, k), db.clock)
  {
    if k == 1 {
      assert PendingRuns(map[]) == {};
      actions := Extend(cfg, Empty(0), [], Admit(r, 0));
    } else {
      actions := UseAttempts(cfg, r, w, k - 1);
      actions := Extend(cfg, Empty(0), actions, Tick(cfg.leaseSeconds + SpareTime(cfg, actions, r)));
    }
    actions := Extend(cfg, Empty(0), actions, ClaimNext(w, r));
  }

  function SpareTime(cfg: Config, actions: seq<Action>, r: RunId): nat {
    var db := Run(cfg, Empty(0), actions);
    if r in db.rows && db.rows[r].lease.Some? && db.rows[r].lease.value > db.clock
    then db.rows[r].lease.value - db.clock else 0
  }

  lemma Extend(cfg: Config, db: Db, actions: seq<Action>, a: Action) returns (longer: seq<Action>)
    ensures longer == actions + [a]
    ensures Run(cfg, db, longer) == Next(cfg, Run(cfg, db, actions), a)
  {
    longer := actions + [a];
    assert longer[..|longer| - 1] == actions;
  }

  /**
    `decide` does not reset `attempt_count`: under every configuration an APPROVE after
    the last attempt leaves a run PENDING for good.
  */
  lemma ApproveOnLastAttemptStrands(cfg: Config, r: RunId, w: WorkerId, artifact: Artifact)
    returns (actions: seq<Action>)
    requires cfg.Valid()
    ensures var db := Run(cfg, Empty(0), actions);
            && r in db.rows && Stranded(cfg, db.rows[r])
            && (forall more :: var db' := Run(cfg, db, more); r in db'.rows && db'.rows[r] == db.rows[r])
  {
    actions := UseAttempts(cfg, r, w, cfg.maxAttempts);
    actions := Extend(cfg, Empty(0), actions,
                      MarkStatus(Claim(r, w, cfg.maxAttempts), Running, WaitingApproval, false));
    actions := Extend(cfg, Empty(0), actions, Decide(r, Approve, Some(artifact), 0));
    var db := Run(cfg, Empty(0), actions);
    forall more
      ensures var db' := Run(cfg, db, more); r in db'.rows && db'.rows[r] == db.rows[r]
    {
      StrandedForever(cfg, db, more, r);
    }
  }

  // --------------------------------------------------------------- admission

  /** Admission control bounds the runs nobody has claimed yet, over every interleaving. */
  lemma AdmissionBound(cfg: Config, clock: int, actions: seq<Action>)
    requires cfg.Valid()
    ensures |NeverClaimed(Run(cfg, Empty(clock), actions).rows)| <= cfg.maxQueued
  {
    InvAlways(cfg, clock, actions);
  }
}
