/** What every step from approval to pull request keeps. */
module LedgerSafety {
  import opened Options
  import opened RunStatus
  import opened Artifacts
  import opened Lease
  import LeaseSafety
  import opened Ledger

  // ---------------------------------------------------------------- invariants

  /** The one artifact the recorded approval of a run is bound to. */
  ghost predicate ApprovedArtifact(w: World, run: RunId, a: Artifact) {
    && run in w.db.approvals
    && w.db.approvals[run] == Approval(Approve, BindingOf(a))
    && a.id in w.tables.artifacts && w.tables.artifacts[a.id] == a
    && Validates(w.tables, run, a.id)
  }

  ghost predicate ApprovalOk(w: World, run: RunId) {
    run in w.db.approvals ==>
      var payload := w.db.approvals[run].payload;
      && Validates(w.tables, run, payload.artifact)
      && BindingOf(w.tables.artifacts[payload.artifact]) == payload
  }

  ghost predicate EffectOk(w: World, run: RunId) {
    run in w.effects ==>
      && run in w.db.approvals
      && w.db.approvals[run].decision == Approve
      && w.effects[run].hash == w.db.approvals[run].payload.hash
      && (w.effects[run].status == Completed ==> w.effects[run].pull.Some?)
  }

  ghost predicate StatusOk(w: World, run: RunId) {
    run in w.db.rows ==>
      && (w.db.rows[run].status == WaitingApproval ==> run !in w.db.approvals)
      && (w.db.rows[run].status == Resolved ==>
            && run in w.effects && w.effects[run].status == Completed
            && run in w.results && w.results[run].pull == w.effects[run].pull)
  }

  ghost predicate EffectOpen(w: World, run: RunId) {
    run in w.effects && w.effects[run].status == InProgress
  }

  ghost predicate EffectDone(w: World, run: RunId) {
    run in w.effects && w.effects[run].status == Completed
  }

  ghost predicate StageOk(w: World, c: Claim, stage: Stage) {
    match stage
    case Begin => true
    case Began => true
    case Bound(a) => ApprovedArtifact(w, c.run, a)
    case Marked(a) => ApprovedArtifact(w, c.run, a)
    case Selected(a, seen) =>
      && ApprovedArtifact(w, c.run, a)
      && (Owner(w.db.rows, c) ==> seen == Lookup(w, a, c.run))
      && (seen.Some? && seen.value.status == Completed ==> seen == Lookup(w, a, c.run))
    case Started(a) => ApprovedArtifact(w, c.run, a) && (Owner(w.db.rows, c) ==> EffectOpen(w, c.run))
    case Calling(a) => ApprovedArtifact(w, c.run, a) && (Owner(w.db.rows, c) ==> EffectOpen(w, c.run))
    case Replied(a, _) => ApprovedArtifact(w, c.run, a) && (Owner(w.db.rows, c) ==> EffectOpen(w, c.run))
    case Recorded(a, pull) =>
      && ApprovedArtifact(w, c.run, a) && EffectDone(w, c.run) && w.effects[c.run].pull == Some(pull)
    case Refused(a, _) => ApprovedArtifact(w, c.run, a)
    case Stopped => true
  }

  ghost predicate ProcOk(w: World, c: Claim, p: Proc) {
    && Claimed(c) in w.db.log
    && match p
       case Executing => Owner(w.db.rows, c) ==> c.run !in w.db.approvals
       case Resuming(stage) =>
         c.run in w.db.approvals && w.db.approvals[c.run].decision == Approve && StageOk(w, c, stage)
  }

  ghost predicate MarkOk(w: World, m: Mark) {
    && Claimed(m.claim) in w.db.log
    && match m
       case Authorised(c, a) => ApprovedArtifact(w, c.run, a)
       case Finalised(c, pull) => EffectDone(w, c.run) && w.effects[c.run].pull == Some(pull)
  }

  /** After a run's effect is finalised nothing more is authorised or finalised for it. */
  ghost predicate NothingAfter(earlier: Mark, later: Mark) {
    earlier.Finalised? ==> earlier.claim.run != later.claim.run
  }

  ghost predicate TrailOk(w: World) {
    && (forall i :: 0 <= i < |w.trail| ==> MarkOk(w, w.trail[i]))
    && (forall i, j :: 0 <= i < j < |w.trail| ==> NothingAfter(w.trail[i], w.trail[j]))
  }

  ghost predicate TablesOk(t: Tables) {
    forall id :: id in t.artifacts ==> t.artifacts[id].id == id
  }

  ghost predicate Inv(cfg: Config, w: World) {
    && LeaseSafety.Inv(cfg, w.db)
    && TablesOk(w.tables)
    && (forall run :: ApprovalOk(w, run))
    && (forall run :: EffectOk(w, run))
    && (forall run :: StatusOk(w, run))
    && (forall c :: c in w.procs ==> ProcOk(w, c, w.procs[c]))
    && TrailOk(w)
  }

  // ------------------------------------------------------- steps on the job queue

  function ResolveAction(w: World, c: Claim, stage: Stage, snapshot: Status): Option<Action> {
    match stage
    case Begin => if Holds(w, c) then Some(MarkRunning(c)) else None
    case Bound(_) => if CanSet(w, c, snapshot, Running) then Some(MarkStatus(c, snapshot, Running, false)) else None
    case Selected(_, seen) =>
      if seen.Some? && seen.value.status == Completed then
        if CanSet(w, c, snapshot, Resolved) then Some(MarkStatus(c, snapshot, Resolved, true)) else None
      else if Holds(w, c) && (seen.None? <==> c.run !in w.effects) then Some(Write(c)) else None
    case Started(_) => if Holds(w, c) then Some(Write(c)) else None
    case Replied(_, _) => if Holds(w, c) && c.run in w.effects then Some(Write(c)) else None
    case Recorded(_, _) =>
      if CanSet(w, c, snapshot, Resolved) then Some(MarkStatus(c, snapshot, Resolved, true)) else None
    case Refused(_, retryable) =>
      if !retryable && CanSet(w, c, snapshot, Failed) then Some(MarkStatus(c, snapshot, Failed, true)) else None
    case _ => None
  }

  /** The one transaction of the job queue that a step commits, if any. */
  function QueuePart(w: World, s: Step): Option<Action> {
    match s
    case Job(a) => if QueueAction(a) then Some(a) else None
    case Dispatch(_) => None
    case SaveTest(c, id, record) =>
      if ExecutingClaim(w, c) && id !in w.tables.tests && record.run == c.run then Some(Write(c)) else None
    case SaveArtifact(c, a) =>
      if ExecutingClaim(w, c) && a.id !in w.tables.artifacts && a.run == c.run then Some(Write(c)) else None
    case FinishRun(c, snapshot, target, _) =>
      if ExecutingClaim(w, c) && target in GRAPH_ENDS && CanSet(w, c, snapshot, target)
      then Some(MarkStatus(c, snapshot, target, target in TERMINAL)) else None
    case Halt(c, snapshot, target) =>
      if target in {NeedsHuman, Failed} && CanSet(w, c, snapshot, target)
      then Some(MarkStatus(c, snapshot, target, true)) else None
    case Judge(run, decision, requested, hash, local) =>
      var found := ValidatedArtifact(w.tables, run, requested, NamedArtifact(w, run));
      Some(Decide(run, decision,
                  if found.Some? && hash.Some? && hash.value != found.value.hash then None else found, local))
    case Advance(c, snapshot, _) =>
      if c in w.procs && w.procs[c].Resuming? then ResolveAction(w, c, w.procs[c].stage, snapshot) else None
    case AuthorisePost(c) =>
      if c in w.procs && w.procs[c].Resuming? && w.procs[c].stage.Calling? && Holds(w, c) then Some(Write(c)) else None
  }

  function Committed(cfg: Config, db: Db, part: Option<Action>): Db {
    if part.Some? then Next(cfg, db, part.value) else db
  }

  lemma StepOnQueue(cfg: Config, w: World, s: Step)
    ensures Advanced(cfg, w, s).db == Committed(cfg, w.db, QueuePart(w, s))
  {
  }

  /** Ownership is only ever gained by the claim that is issued in the step. */
  lemma OwnerBefore(cfg: Config, db: Db, a: Action, c: Claim)
    requires cfg.Valid() && LeaseSafety.Inv(cfg, db) && Claimed(c) in db.log
    requires Owner(Next(cfg, db, a).rows, c)
    ensures Owner(db.rows, c)
    ensures c.run in Next(cfg, db, a).approvals <==> c.run in db.approvals
  {
    assert LeaseSafety.Bounded(db.rows, c);
    OwnerRow(cfg, db, a, c);
    OwnedIsUndecided(cfg, db, a, c);
  }

  lemma OwnerRow(cfg: Config, db: Db, a: Action, c: Claim)
    requires LeaseSafety.Bounded(db.rows, c) && Owner(Next(cfg, db, a).rows, c)
    requires LeaseSafety.RowOk(cfg, db.approvals, c.run, db.rows[c.run])
    ensures Owner(db.rows, c)
  {
  }

  lemma OwnedIsUndecided(cfg: Config, db: Db, a: Action, c: Claim)
    requires Owner(db.rows, c)
    ensures c.run in Next(cfg, db, a).approvals <==> c.run in db.approvals
  {
  }

  // ------------------------------------------------------------------- stability

  ghost predicate Grows<K, V>(m: map<K, V>, m': map<K, V>) {
    forall k :: k in m ==> k in m' && m'[k] == m[k]
  }

  /** What one step may do to everything that is not the stepping claim's own. */
  ghost predicate Stable(w: World, w': World) {
    && Grows(w.tables.artifacts, w'.tables.artifacts)
    && Grows(w.tables.tests, w'.tables.tests)
    && Grows(w.db.approvals, w'.db.approvals)
    && w.db.log <= w'.db.log
    && (forall r :: EffectDone(w, r) ==> r in w'.effects && w'.effects[r] == w.effects[r])
  }

  /** The effect row of a run is written only by the claim that owns the run. */
  ghost predicate WrittenByOwner(w: World, w': World, run: RunId) {
    exists c: Claim :: c.run == run && Owner(w.db.rows, c) && c in w.procs && c in w'.procs && w'.procs[c] != w.procs[c]
  }

  ghost predicate SameEffect(w: World, w': World, run: RunId) {
    (run in w.effects <==> run in w'.effects) && (run in w.effects ==> w'.effects[run] == w.effects[run])
  }

  /** Only the two transactions on the effect row write it, under the fence, and never once it is COMPLETED. */
  ghost predicate EffectWrite(w: World, w': World, c: Claim) {
    && Owner(w.db.rows, c) && !EffectDone(w, c.run)
    && c in w.procs && c in w'.procs && w'.procs[c] != w.procs[c]
    && c.run in w'.effects && w'.effects == w.effects[c.run := w'.effects[c.run]]
  }

  lemma OpenEffectWrites(cfg: Config, w: World, c: Claim, a: Artifact, seen: Option<Effect>, snapshot: Status)
    requires c in w.procs && w.procs[c] == Resuming(Selected(a, seen)) && ProcOk(w, c, w.procs[c])
    ensures var w' := OpenEffect(cfg, w, c, a, seen, snapshot);
            w'.effects == w.effects || EffectWrite(w, w', c)
  {
    if seen.Some? && seen.value.status == Completed {
      CompletedWritesNothing(cfg, w, c, a, seen, snapshot);
    } else {
      OpeningWrites(cfg, w, c, a, seen, snapshot);
    }
  }

  lemma CompletedWritesNothing(cfg: Config, w: World, c: Claim, a: Artifact, seen: Option<Effect>, snapshot: Status)
    requires seen.Some? && seen.value.status == Completed
    ensures OpenEffect(cfg, w, c, a, seen, snapshot).effects == w.effects
  {
  }

  lemma OpeningWrites(cfg: Config, w: World, c: Claim, a: Artifact, seen: Option<Effect>, snapshot: Status)
    requires c in w.procs && w.procs[c] == Resuming(Selected(a, seen)) && ProcOk(w, c, w.procs[c])
    requires !(seen.Some? && seen.value.status == Completed)
    ensures var w' := OpenEffect(cfg, w, c, a, seen, snapshot);
            w'.effects == w.effects || EffectWrite(w, w', c)
  {
  }

  lemma RecordReplyWrites(cfg: Config, w: World, c: Claim, a: Artifact, reply: Reply)
    requires c in w.procs && w.procs[c] == Resuming(Replied(a, reply)) && ProcOk(w, c, w.procs[c])
    ensures var w' := RecordReply(cfg, w, c, a, reply);
            w'.effects == w.effects || EffectWrite(w, w', c)
  {
  }

  lemma EffectsOnlyByOwner(cfg: Config, w: World, s: Step)
    requires forall c :: c in w.procs ==> ProcOk(w, c, w.procs[c])
    ensures var w' := Advanced(cfg, w, s);
            w'.effects == w.effects || (s.Advance? && EffectWrite(w, w', s.claim))
  {
    if s.Advance? && s.claim in w.procs && w.procs[s.claim].Resuming? {
      var c, stage := s.claim, w.procs[s.claim].stage;
      assert ProcOk(w, c, w.procs[c]);
      if stage.Selected? {
        OpenEffectWrites(cfg, w, c, stage.artifact, stage.seen, s.snapshot);
      } else if stage.Replied? {
        RecordReplyWrites(cfg, w, c, stage.artifact, stage.reply);
      }
    }
  }

  lemma OpeningTables(cfg: Config, w: World, c: Claim, a: Artifact, seen: Option<Effect>, snapshot: Status)
    ensures OpenEffect(cfg, w, c, a, seen, snapshot).tables == w.tables
  {
  }

  lemma StageTables(cfg: Config, w: World, c: Claim, stage: Stage, snapshot: Status, reply: Reply)
    ensures AdvanceStep(cfg, w, c, stage, snapshot, reply).tables == w.tables
  {
    if stage.Selected? {
      OpeningTables(cfg, w, c, stage.artifact, stage.seen, snapshot);
    }
  }

  /** Only the two saving steps write tests or artifacts. */
  lemma OtherTables(cfg: Config, w: World, s: Step)
    requires !s.SaveTest? && !s.SaveArtifact?
    ensures Advanced(cfg, w, s).tables == w.tables
  {
    if s.Advance? && s.claim in w.procs && w.procs[s.claim].Resuming? {
      StageTables(cfg, w, s.claim, w.procs[s.claim].stage, s.snapshot, s.reply);
    }
  }

  lemma SavingTables(cfg: Config, w: World, s: Step)
    requires s.SaveTest? || s.SaveArtifact?
    ensures Grows(w.tables.artifacts, Advanced(cfg, w, s).tables.artifacts)
    ensures Grows(w.tables.tests, Advanced(cfg, w, s).tables.tests)
  {
  }

  lemma TablesGrow(cfg: Config, w: World, s: Step)
    ensures Grows(w.tables.artifacts, Advanced(cfg, w, s).tables.artifacts)
    ensures Grows(w.tables.tests, Advanced(cfg, w, s).tables.tests)
  {
    if s.SaveTest? || s.SaveArtifact? {
      SavingTables(cfg, w, s);
    } else {
      OtherTables(cfg, w, s);
    }
  }

  lemma QueueGrows(cfg: Config, db: Db, a: Action)
    ensures Grows(db.approvals, Next(cfg, db, a).approvals)
    ensures db.log <= Next(cfg, db, a).log
  {
  }

  lemma StepIsStable(cfg: Config, w: World, s: Step)
    requires Inv(cfg, w)
    ensures Stable(w, Advanced(cfg, w, s))
  {
    var w' := Advanced(cfg, w, s);
    StepOnQueue(cfg, w, s);
    if QueuePart(w, s).Some? {
      QueueGrows(cfg, w.db, QueuePart(w, s).value);
    }
    TablesGrow(cfg, w, s);
    EffectsOnlyByOwner(cfg, w, s);
  }

  lemma EffectsWrittenByOwner(cfg: Config, w: World, s: Step, run: RunId)
    requires Inv(cfg, w)
    ensures SameEffect(w, Advanced(cfg, w, s), run) || WrittenByOwner(w, Advanced(cfg, w, s), run)
  {
    EffectsOnlyByOwner(cfg, w, s);
  }

  /** A claim that owns its run after a step owned it before, still undecided if it was. */
  lemma OwnedBefore(cfg: Config, w: World, s: Step, c: Claim)
    requires cfg.Valid() && LeaseSafety.Inv(cfg, w.db) && Claimed(c) in w.db.log
    requires Owner(Advanced(cfg, w, s).db.rows, c)
    ensures Owner(w.db.rows, c)
    ensures c.run in Advanced(cfg, w, s).db.approvals <==> c.run in w.db.approvals
  {
    StepOnQueue(cfg, w, s);
    if QueuePart(w, s).Some? {
      OwnerBefore(cfg, w.db, QueuePart(w, s).value, c);
    }
  }

  /** Two claims cannot own one run. */
  lemma OneOwner(rows: Rows, c: Claim, d: Claim)
    requires Owner(rows, c) && Owner(rows, d) && c.run == d.run
    ensures c == d
  {
  }

  /** A process that does not move keeps its obligations. */
  lemma ProcKept(cfg: Config, w: World, s: Step, c: Claim)
    requires cfg.Valid() && Inv(cfg, w)
    requires c in w.procs && c in Advanced(cfg, w, s).procs && Advanced(cfg, w, s).procs[c] == w.procs[c]
    ensures ProcOk(Advanced(cfg, w, s), c, w.procs[c])
  {
    var w' := Advanced(cfg, w, s);
    StepIsStable(cfg, w, s);
    if Owner(w'.db.rows, c) {
      OwnedBefore(cfg, w, s, c);
      EffectsWrittenByOwner(cfg, w, s, c.run);
      if WrittenByOwner(w, w', c.run) {
        var d: Claim :| d.run == c.run && Owner(w.db.rows, d) && d in w.procs && d in w'.procs
                        && w'.procs[d] != w.procs[d];
        OneOwner(w.db.rows, c, d);
        assert false;
      }
    }
    ProcTransfers(w, w', c, w.procs[c]);
  }

  lemma ProcTransfers(w: World, w': World, c: Claim, p: Proc)
    requires ProcOk(w, c, p) && Stable(w, w')
    requires Owner(w'.db.rows, c) ==> Owner(w.db.rows, c) && (c.run in w'.db.approvals <==> c.run in w.db.approvals)
    requires Owner(w'.db.rows, c) ==> SameEffect(w, w', c.run)
    ensures ProcOk(w', c, p)
  {
  }

  // -------------------------------------------------------- preservation by part

  lemma ApprovalsOnlyByDecide(cfg: Config, db: Db, a: Action, run: RunId)
    requires run in Next(cfg, db, a).approvals && run !in db.approvals
    ensures a.Decide? && a.run == run && a.artifact.Some?
    ensures Next(cfg, db, a).approvals[run] == Approval(a.decision, BindingOf(a.artifact.value))
  {
  }

  lemma ApprovalOkPreserved(cfg: Config, w: World, w': World, s: Step, run: RunId)
    requires ApprovalOk(w, run) && TablesOk(w.tables) && Stable(w, w')
    requires w'.db == Committed(cfg, w.db, QueuePart(w, s))
    ensures ApprovalOk(w', run)
  {
    if run in w'.db.approvals && run !in w.db.approvals {
      ApprovalsOnlyByDecide(cfg, w.db, QueuePart(w, s).value, run);
      assert s.Judge?;
    }
  }

  lemma EffectOkPreserved(w: World, w': World, s: Step, run: RunId)
    requires EffectOk(w, run) && Stable(w, w')
    requires w'.effects == w.effects || (s.Advance? && EffectWrite(w, w', s.claim) && EffectOk(w', s.claim.run))
    ensures EffectOk(w', run)
  {
  }

  /** The new effect row carries the approved hash, and a pull request once COMPLETED. */
  lemma OpenEffectOk(cfg: Config, w: World, c: Claim, a: Artifact, seen: Option<Effect>, snapshot: Status)
    requires EffectOk(w, c.run) && ApprovedArtifact(w, c.run, a)
    requires c in w.procs && w.procs[c] == Resuming(Selected(a, seen)) && ProcOk(w, c, w.procs[c])
    ensures var w' := OpenEffect(cfg, w, c, a, seen, snapshot);
            || w'.effects == w.effects
            || (c.run in w'.effects && w'.effects[c.run].hash == a.hash && w'.effects[c.run].status == InProgress)
  {
    if seen.Some? && seen.value.status == Completed {
      CompletedWritesNothing(cfg, w, c, a, seen, snapshot);
    } else {
      OpenedInProgress(cfg, w, c, a, seen, snapshot);
    }
  }

  lemma OpenedInProgress(cfg: Config, w: World, c: Claim, a: Artifact, seen: Option<Effect>, snapshot: Status)
    requires c.run in w.effects ==> w.effects[c.run].hash == a.hash
    requires !(seen.Some? && seen.value.status == Completed)
    ensures var w' := OpenEffect(cfg, w, c, a, seen, snapshot);
            || w'.effects == w.effects
            || (c.run in w'.effects && w'.effects[c.run].hash == a.hash && w'.effects[c.run].status == InProgress)
  {
  }

  /** WAITING_APPROVAL and RESOLVED are entered only through `mark_status`. */
  lemma EnteredByMark(cfg: Config, db: Db, a: Action, run: RunId)
    requires run in Next(cfg, db, a).rows && Next(cfg, db, a).rows[run].status in {WaitingApproval, Resolved}
    requires run in db.rows ==> db.rows[run].status != Next(cfg, db, a).rows[run].status
    ensures a.MarkStatus? && a.claim.run == run && a.target == Next(cfg, db, a).rows[run].status
    ensures Fenced(db.rows, a.claim, db.clock) && Next(cfg, db, a).approvals == db.approvals
  {
  }

  lemma MarksWaiting(w: World, s: Step)
    requires QueuePart(w, s).Some? && QueuePart(w, s).value.MarkStatus?
             && QueuePart(w, s).value.target == WaitingApproval
    ensures s.FinishRun? && s.claim == QueuePart(w, s).value.claim && ExecutingClaim(w, s.claim)
  {
  }

  lemma MarksResolved(w: World, s: Step)
    requires QueuePart(w, s).Some? && QueuePart(w, s).value.MarkStatus? && QueuePart(w, s).value.target == Resolved
    ensures s.Advance? && s.claim == QueuePart(w, s).value.claim && s.claim in w.procs && w.procs[s.claim].Resuming?
    ensures var stage := w.procs[s.claim].stage;
            stage.Recorded? || (stage.Selected? && stage.seen.Some? && stage.seen.value.status == Completed)
  {
  }

  /** A status change made in `w` also holds the value the decision was based on. */
  lemma WaitingKept(cfg: Config, w: World, w': World, s: Step, run: RunId)
    requires StatusOk(w, run) && forall c :: c in w.procs ==> ProcOk(w, c, w.procs[c])
    requires w'.db == Committed(cfg, w.db, QueuePart(w, s))
    requires run in w'.db.rows && w'.db.rows[run].status == WaitingApproval
    ensures run !in w'.db.approvals
  {
    if run in w.db.rows && w.db.rows[run].status == WaitingApproval {
      if run in w'.db.approvals {
        ApprovalsOnlyByDecide(cfg, w.db, QueuePart(w, s).value, run);
        assert false;
      }
    } else {
      EnteredByMark(cfg, w.db, QueuePart(w, s).value, run);
      MarksWaiting(w, s);
      assert ProcOk(w, s.claim, w.procs[s.claim]);
    }
  }

  /** The result that goes with a RESOLVED status is the pull request of the effect row. */
  lemma ResolvedCarriesPull(cfg: Config, w: World, s: Step)
    requires s.Advance? && s.claim in w.procs && ProcOk(w, s.claim, w.procs[s.claim])
    requires QueuePart(w, s).Some? && QueuePart(w, s).value.MarkStatus? && QueuePart(w, s).value.target == Resolved
    ensures var w' := Advanced(cfg, w, s);
            && EffectDone(w, s.claim.run)
            && s.claim.run in w'.results && w'.results[s.claim.run].pull == w.effects[s.claim.run].pull
  {
  }

  lemma StageResults(cfg: Config, w: World, c: Claim, stage: Stage, snapshot: Status, reply: Reply, run: RunId)
    requires run in w.db.rows && w.db.rows[run].status != Running && run in w.results
    ensures var w' := AdvanceStep(cfg, w, c, stage, snapshot, reply);
            run in w'.results && w'.results[run] == w.results[run]
  {
    if stage.Selected? {
      OpeningResults(cfg, w, c, stage.artifact, stage.seen, snapshot, run);
    }
  }

  lemma OpeningResults(cfg: Config, w: World, c: Claim, a: Artifact, seen: Option<Effect>, snapshot: Status, run: RunId)
    requires run in w.db.rows && w.db.rows[run].status != Running && run in w.results
    ensures var w' := OpenEffect(cfg, w, c, a, seen, snapshot); run in w'.results && w'.results[run] == w.results[run]
  {
  }

  /** The result of a run is written only under the fence, so only while it is RUNNING. */
  lemma ResultsWritten(cfg: Config, w: World, s: Step, run: RunId)
    requires run in w.db.rows && w.db.rows[run].status != Running && run in w.results
    ensures run in Advanced(cfg, w, s).results && Advanced(cfg, w, s).results[run] == w.results[run]
  {
    if s.Advance? && s.claim in w.procs && w.procs[s.claim].Resuming? {
      StageResults(cfg, w, s.claim, w.procs[s.claim].stage, s.snapshot, s.reply, run);
    }
  }

  lemma StatusOkPreserved(cfg: Config, w: World, s: Step, run: RunId)
    requires Inv(cfg, w)
    ensures StatusOk(Advanced(cfg, w, s), run)
  {
    var w' := Advanced(cfg, w, s);
    StepIsStable(cfg, w, s);
    StepOnQueue(cfg, w, s);
    assert StatusOk(w, run);
    if run in w'.db.rows && w'.db.rows[run].status == WaitingApproval {
      WaitingKept(cfg, w, w', s, run);
    }
    if run in w'.db.rows && w'.db.rows[run].status == Resolved {
      if run in w.db.rows && w.db.rows[run].status == Resolved {
        ResultsWritten(cfg, w, s, run);
      } else {
        EnteredByMark(cfg, w.db, QueuePart(w, s).value, run);
        MarksResolved(w, s);
        ResolvedCarriesPull(cfg, w, s);
      }
    }
  }

  // ------------------------------------------------------------ the moving process

  lemma DispatchOk(cfg: Config, w: World, c: Claim)
    requires LeaseSafety.RowsOk(cfg, w.db) && c !in w.procs && c in DispatchStep(w, c).procs
    ensures ProcOk(DispatchStep(w, c), c, DispatchStep(w, c).procs[c])
  {
    if Owner(w.db.rows, c) {
      assert LeaseSafety.RowOk(cfg, w.db.approvals, c.run, w.db.rows[c.run]);
    }
  }

  lemma BindApprovalOk(w: World, c: Claim)
    requires ApprovalOk(w, c.run) && TablesOk(w.tables)
    requires c in w.procs && w.procs[c] == Resuming(Began) && ProcOk(w, c, w.procs[c])
    ensures ProcOk(BindApproval(w, c), c, BindApproval(w, c).procs[c])
  {
  }

  lemma SetStatusFrame(cfg: Config, w: World, c: Claim, snapshot: Status, target: Status, finished: bool)
    ensures var w' := SetStatus(cfg, w, c, snapshot, target, finished);
            w' == w.(db := w'.db) && w'.db.approvals == w.db.approvals && w.db.log <= w'.db.log
  {
  }

  lemma CommitFrame(cfg: Config, w: World, c: Claim)
    ensures var w' := Commit(cfg, w, c);
            w' == w.(db := w'.db) && w'.db.approvals == w.db.approvals && w.db.log <= w'.db.log
  {
  }

  lemma OpenEffectResult(cfg: Config, w: World, c: Claim, a: Artifact, seen: Option<Effect>, snapshot: Status)
    ensures var w' := OpenEffect(cfg, w, c, a, seen, snapshot);
            && w'.tables == w.tables && w'.db.approvals == w.db.approvals && w.db.log <= w'.db.log
            && (w'.procs[c] == Resuming(Stopped) || (w'.procs[c] == Resuming(Started(a)) && EffectOpen(w', c.run)))
  {
    SetStatusFrame(cfg, w, c, snapshot, Resolved, true);
    CommitFrame(cfg, w, c);
  }

  lemma RecordReplyResult(cfg: Config, w: World, c: Claim, a: Artifact, reply: Reply)
    ensures var w' := RecordReply(cfg, w, c, a, reply);
            && w'.tables == w.tables && w'.db.approvals == w.db.approvals && w.db.log <= w'.db.log
            && (|| w'.procs[c] == Resuming(Stopped)
                || (w'.procs[c] == Resuming(Refused(a, false)))
                || (w'.procs[c] == Resuming(Refused(a, true)))
                || (reply.Opened? && w'.procs[c] == Resuming(Recorded(a, reply.pull))
                    && EffectDone(w', c.run) && w'.effects[c.run].pull == Some(reply.pull)))
  {
  }

  lemma StageReached(w: World, w': World, c: Claim, a: Artifact, stage: Stage)
    requires ProcOk(w, c, Resuming(stage)) && ApprovedArtifact(w, c.run, a)
    requires w'.tables == w.tables && w'.db.approvals == w.db.approvals && w.db.log <= w'.db.log && c in w'.procs
    requires || w'.procs[c] == Resuming(Stopped)
             || w'.procs[c] == Resuming(Marked(a))
             || (w'.procs[c] == Resuming(Selected(a, Lookup(w', a, c.run))))
             || (w'.procs[c] in {Resuming(Started(a)), Resuming(Calling(a))} && EffectOpen(w', c.run))
             || (w'.procs[c].Resuming? && w'.procs[c].stage.Refused? && w'.procs[c].stage.artifact == a)
             || (w'.procs[c].Resuming? && w'.procs[c].stage.Recorded? && w'.procs[c].stage.artifact == a
                 && EffectDone(w', c.run) && w'.effects[c.run].pull == Some(w'.procs[c].stage.pull))
    ensures ProcOk(w', c, w'.procs[c])
  {
  }

  /** The stages around the call that touch neither the effect row nor the reply. */
  lemma CallStageOk(cfg: Config, w: World, c: Claim, stage: Stage, snapshot: Status, reply: Reply)
    requires c in w.procs && w.procs[c] == Resuming(stage) && ProcOk(w, c, w.procs[c])
    requires stage.Marked? || stage.Started? || stage.Calling?
    ensures var w' := AdvanceStep(cfg, w, c, stage, snapshot, reply); ProcOk(w', c, w'.procs[c])
  {
    var w' := AdvanceStep(cfg, w, c, stage, snapshot, reply);
    if stage.Started? {
      CommitFrame(cfg, w, c);
    }
    if !stage.Calling? {
      StageReached(w, w', c, stage.artifact, stage);
    }
  }

  /** The stages that first mark the run. */
  lemma EarlyStageOk(cfg: Config, w: World, c: Claim, stage: Stage, snapshot: Status, reply: Reply)
    requires c in w.procs && w.procs[c] == Resuming(stage) && ProcOk(w, c, w.procs[c])
    requires stage.Begin? || stage.Bound?
    ensures var w' := AdvanceStep(cfg, w, c, stage, snapshot, reply); ProcOk(w', c, w'.procs[c])
  {
    if stage.Bound? {
      SetStatusFrame(cfg, w, c, snapshot, Running, false);
      StageReached(w, AdvanceStep(cfg, w, c, stage, snapshot, reply), c, stage.artifact, stage);
    }
  }

  lemma LateStageOk(cfg: Config, w: World, c: Claim, stage: Stage, snapshot: Status, reply: Reply)
    requires c in w.procs && w.procs[c] == Resuming(stage) && ProcOk(w, c, w.procs[c])
    requires stage.Recorded? || stage.Refused? || stage.Stopped?
    ensures var w' := AdvanceStep(cfg, w, c, stage, snapshot, reply); ProcOk(w', c, w'.procs[c])
  {
    var w' := AdvanceStep(cfg, w, c, stage, snapshot, reply);
    match stage
    case Recorded(a, pull) =>
      SetStatusFrame(cfg, w, c, snapshot, Resolved, true);
      StageReached(w, w', c, a, stage);
    case Refused(a, _) =>
      SetStatusFrame(cfg, w, c, snapshot, Failed, true);
      StageReached(w, w', c, a, stage);
    case Stopped =>
  }

  lemma SelectedStageOk(cfg: Config, w: World, c: Claim, stage: Stage, snapshot: Status, reply: Reply)
    requires c in w.procs && w.procs[c] == Resuming(stage) && ProcOk(w, c, w.procs[c]) && stage.Selected?
    ensures var w' := AdvanceStep(cfg, w, c, stage, snapshot, reply); ProcOk(w', c, w'.procs[c])
  {
    OpenEffectResult(cfg, w, c, stage.artifact, stage.seen, snapshot);
    StageReached(w, OpenEffect(cfg, w, c, stage.artifact, stage.seen, snapshot), c, stage.artifact, stage);
  }

  lemma RepliedStageOk(cfg: Config, w: World, c: Claim, stage: Stage, snapshot: Status, reply: Reply)
    requires c in w.procs && w.procs[c] == Resuming(stage) && ProcOk(w, c, w.procs[c]) && stage.Replied?
    ensures var w' := AdvanceStep(cfg, w, c, stage, snapshot, reply); ProcOk(w', c, w'.procs[c])
  {
    RecordReplyResult(cfg, w, c, stage.artifact, stage.reply);
    StageReached(w, RecordReply(cfg, w, c, stage.artifact, stage.reply), c, stage.artifact, stage);
  }

  lemma AdvanceOk(cfg: Config, w: World, c: Claim, stage: Stage, snapshot: Status, reply: Reply)
    requires c in w.procs && w.procs[c] == Resuming(stage) && ProcOk(w, c, w.procs[c])
    requires ApprovalOk(w, c.run) && TablesOk(w.tables)
    ensures var w' := AdvanceStep(cfg, w, c, stage, snapshot, reply); ProcOk(w', c, w'.procs[c])
  {
    if stage.Began? {
      BindApprovalOk(w, c);
    } else if stage.Selected? {
      SelectedStageOk(cfg, w, c, stage, snapshot, reply);
    } else if stage.Replied? {
      RepliedStageOk(cfg, w, c, stage, snapshot, reply);
    } else if stage.Recorded? || stage.Refused? || stage.Stopped? {
      LateStageOk(cfg, w, c, stage, snapshot, reply);
    } else if stage.Begin? || stage.Bound? {
      EarlyStageOk(cfg, w, c, stage, snapshot, reply);
    } else {
      CallStageOk(cfg, w, c, stage, snapshot, reply);
    }
  }

  /** A stage moves its own process and no other. */
  lemma AdvanceMovesOne(cfg: Config, w: World, c: Claim, stage: Stage, snapshot: Status, reply: Reply)
    requires c in w.procs
    ensures var w' := AdvanceStep(cfg, w, c, stage, snapshot, reply);
            c in w'.procs && w'.procs == w.procs[c := w'.procs[c]]
  {
    match stage
    case Selected(a, seen) => OpenEffectMovesOne(cfg, w, c, a, seen, snapshot);
    case Replied(a, answer) => RecordReplyMovesOne(cfg, w, c, a, answer);
    case _ =>
  }

  lemma OpenEffectMovesOne(cfg: Config, w: World, c: Claim, a: Artifact, seen: Option<Effect>, snapshot: Status)
    ensures var w' := OpenEffect(cfg, w, c, a, seen, snapshot);
            c in w'.procs && w'.procs == w.procs[c := w'.procs[c]]
  {
    SetStatusFrame(cfg, w, c, snapshot, Resolved, true);
    CommitFrame(cfg, w, c);
  }

  lemma RecordReplyMovesOne(cfg: Config, w: World, c: Claim, a: Artifact, reply: Reply)
    ensures var w' := RecordReply(cfg, w, c, a, reply);
            c in w'.procs && w'.procs == w.procs[c := w'.procs[c]]
  {
    CommitFrame(cfg, w, c);
  }

  lemma OnlyStepperMoves(cfg: Config, w: World, s: Step, c: Claim)
    requires c in Advanced(cfg, w, s).procs
    requires c !in w.procs || Advanced(cfg, w, s).procs[c] != w.procs[c]
    ensures (s.Dispatch? && s.claim == c && c !in w.procs)
            || (s.Advance? && s.claim == c && c in w.procs && w.procs[c].Resuming?)
  {
    if s.Advance? && s.claim in w.procs && w.procs[s.claim].Resuming? {
      AdvanceMovesOne(cfg, w, s.claim, w.procs[s.claim].stage, s.snapshot, s.reply);
    }
  }

  lemma ProcsPreserved(cfg: Config, w: World, s: Step, c: Claim)
    requires cfg.Valid() && Inv(cfg, w)
    requires c in Advanced(cfg, w, s).procs
    ensures ProcOk(Advanced(cfg, w, s), c, Advanced(cfg, w, s).procs[c])
  {
    if c in w.procs && Advanced(cfg, w, s).procs[c] == w.procs[c] {
      ProcKept(cfg, w, s, c);
    } else {
      OnlyStepperMoves(cfg, w, s, c);
      if s.Advance? {
        assert ProcOk(w, c, w.procs[c]) && ApprovalOk(w, c.run);
        AdvanceOk(cfg, w, c, w.procs[c].stage, s.snapshot, s.reply);
      } else {
        DispatchOk(cfg, w, c);
      }
    }
  }

  // ------------------------------------------------------------------------ trail

  ghost predicate TrailStep(w: World, w': World) {
    || w'.trail == w.trail
    || (exists m: Mark :: && w'.trail == w.trail + [m] && MarkOk(w', m) && !EffectDone(w, m.claim.run))
  }

  lemma RecordReplyTrail(cfg: Config, w: World, c: Claim, a: Artifact, reply: Reply)
    requires ProcOk(w, c, Resuming(Replied(a, reply)))
    ensures TrailStep(w, RecordReply(cfg, w, c, a, reply))
  {
    var w' := RecordReply(cfg, w, c, a, reply);
    if w'.trail != w.trail {
      assert w'.trail == w.trail + [Finalised(c, reply.pull)];
    }
  }

  lemma AuthoriseTrail(cfg: Config, w: World, c: Claim, a: Artifact, stage: Stage)
    requires Holds(w, c) && EffectOpen(w, c.run) && ApprovedArtifact(w, c.run, a) && Claimed(c) in w.db.log
    ensures TrailStep(w, Authorise(cfg, w, c, a, stage))
  {
    var w' := Authorise(cfg, w, c, a, stage);
    assert w'.trail == w.trail + [Authorised(c, a)];
  }

  lemma TrailExtends(cfg: Config, w: World, s: Step)
    requires forall c :: c in w.procs ==> ProcOk(w, c, w.procs[c])
    ensures TrailStep(w, Advanced(cfg, w, s))
  {
    if (s.Advance? || s.AuthorisePost?) && s.claim in w.procs && w.procs[s.claim].Resuming? {
      var c, stage := s.claim, w.procs[s.claim].stage;
      assert ProcOk(w, c, w.procs[c]);
      if s.Advance? && stage.Replied? {
        RecordReplyTrail(cfg, w, c, stage.artifact, stage.reply);
      } else if Holds(w, c) && ((s.Advance? && stage.Started?) || (s.AuthorisePost? && stage.Calling?)) {
        AuthoriseTrail(cfg, w, c, stage.artifact, if s.Advance? then Calling(stage.artifact) else stage);
      }
    }
  }

  lemma TrailOkPreserved(w: World, w': World)
    requires TrailOk(w) && TrailStep(w, w') && Stable(w, w')
    ensures TrailOk(w')
  {
    forall i | 0 <= i < |w'.trail|
      ensures MarkOk(w', w'.trail[i])
    {
      if i < |w.trail| {
        assert MarkOk(w, w.trail[i]);
      }
    }
    forall i, j | 0 <= i < j < |w'.trail|
      ensures NothingAfter(w'.trail[i], w'.trail[j])
    {
      assert MarkOk(w, w.trail[i]);
      if j < |w.trail| {
        assert NothingAfter(w.trail[i], w.trail[j]);
      }
    }
  }

  // -------------------------------------------------------------------- all parts

  lemma EffectsPreserved(cfg: Config, w: World, s: Step, run: RunId)
    requires Inv(cfg, w)
    ensures EffectOk(Advanced(cfg, w, s), run)
  {
    StepIsStable(cfg, w, s);
    EffectsOnlyByOwner(cfg, w, s);
    if Advanced(cfg, w, s).effects != w.effects {
      WrittenEffectOk(cfg, w, s);
    }
    EffectOkPreserved(w, Advanced(cfg, w, s), s, run);
  }

  lemma EarlyKeepsEffects(cfg: Config, w: World, c: Claim, stage: Stage, snapshot: Status, reply: Reply)
    requires stage.Begin? || stage.Began? || stage.Bound? || stage.Marked?
    ensures AdvanceStep(cfg, w, c, stage, snapshot, reply).effects == w.effects
  {
  }

  lemma LateKeepsEffects(cfg: Config, w: World, c: Claim, stage: Stage, snapshot: Status, reply: Reply)
    requires stage.Started? || stage.Calling? || stage.Recorded? || stage.Refused? || stage.Stopped?
    ensures AdvanceStep(cfg, w, c, stage, snapshot, reply).effects == w.effects
  {
  }

  /** Only the two transactions on the effect row write it. */
  lemma OtherStagesKeepEffects(cfg: Config, w: World, c: Claim, stage: Stage, snapshot: Status, reply: Reply)
    requires !stage.Selected? && !stage.Replied?
    ensures AdvanceStep(cfg, w, c, stage, snapshot, reply).effects == w.effects
  {
    if stage.Begin? || stage.Began? || stage.Bound? || stage.Marked? {
      EarlyKeepsEffects(cfg, w, c, stage, snapshot, reply);
    } else {
      LateKeepsEffects(cfg, w, c, stage, snapshot, reply);
    }
  }

  lemma WrittenEffectOk(cfg: Config, w: World, s: Step)
    requires s.Advance? && s.claim in w.procs && w.procs[s.claim].Resuming? && ProcOk(w, s.claim, w.procs[s.claim])
    requires EffectOk(w, s.claim.run) && Advanced(cfg, w, s).effects != w.effects
    ensures EffectOk(Advanced(cfg, w, s), s.claim.run)
  {
    var c, stage := s.claim, w.procs[s.claim].stage;
    if stage.Selected? {
      OpenEffectResult(cfg, w, c, stage.artifact, stage.seen, s.snapshot);
      OpenEffectOk(cfg, w, c, stage.artifact, stage.seen, s.snapshot);
    } else if stage.Replied? {
      RecordReplyOk(cfg, w, c, stage.artifact, stage.reply);
    } else {
      OtherStagesKeepEffects(cfg, w, c, stage, s.snapshot, s.reply);
    }
  }

  lemma RecordReplyOk(cfg: Config, w: World, c: Claim, a: Artifact, reply: Reply)
    requires EffectOk(w, c.run)
    ensures EffectOk(RecordReply(cfg, w, c, a, reply), c.run)
  {
  }

  lemma AllEffects(cfg: Config, w: World, s: Step)
    requires Inv(cfg, w)
    ensures forall run :: EffectOk(Advanced(cfg, w, s), run)
  {
    forall run ensures EffectOk(Advanced(cfg, w, s), run) {
      EffectsPreserved(cfg, w, s, run);
    }
  }

  lemma AllApprovals(cfg: Config, w: World, s: Step)
    requires Inv(cfg, w)
    ensures forall run :: ApprovalOk(Advanced(cfg, w, s), run)
  {
    StepIsStable(cfg, w, s);
    StepOnQueue(cfg, w, s);
    forall run ensures ApprovalOk(Advanced(cfg, w, s), run) {
      ApprovalOkPreserved(cfg, w, Advanced(cfg, w, s), s, run);
    }
  }

  lemma AllStatuses(cfg: Config, w: World, s: Step)
    requires Inv(cfg, w)
    ensures forall run :: StatusOk(Advanced(cfg, w, s), run)
  {
    forall run ensures StatusOk(Advanced(cfg, w, s), run) {
      StatusOkPreserved(cfg, w, s, run);
    }
  }

  lemma AllProcs(cfg: Config, w: World, s: Step)
    requires cfg.Valid() && Inv(cfg, w)
    ensures var w' := Advanced(cfg, w, s); forall c :: c in w'.procs ==> ProcOk(w', c, w'.procs[c])
  {
    forall c | c in Advanced(cfg, w, s).procs
      ensures ProcOk(Advanced(cfg, w, s), c, Advanced(cfg, w, s).procs[c])
    {
      ProcsPreserved(cfg, w, s, c);
    }
  }

  lemma SavedTablesOk(cfg: Config, w: World, s: Step)
    requires TablesOk(w.tables) && (s.SaveTest? || s.SaveArtifact?)
    ensures TablesOk(Advanced(cfg, w, s).tables)
  {
  }

  lemma TablesOkPreserved(cfg: Config, w: World, s: Step)
    requires TablesOk(w.tables)
    ensures TablesOk(Advanced(cfg, w, s).tables)
  {
    if s.SaveTest? || s.SaveArtifact? {
      SavedTablesOk(cfg, w, s);
    } else {
      OtherTables(cfg, w, s);
    }
  }

  lemma QueueOkPreserved(cfg: Config, w: World, s: Step)
    requires cfg.Valid() && LeaseSafety.Inv(cfg, w.db)
    ensures LeaseSafety.Inv(cfg, Advanced(cfg, w, s).db)
  {
    StepOnQueue(cfg, w, s);
    if QueuePart(w, s).Some? {
      LeaseSafety.InvPreserved(cfg, w.db, QueuePart(w, s).value);
    }
  }

  lemma InvPreserved(cfg: Config, w: World, s: Step)
    requires cfg.Valid() && Inv(cfg, w)
    ensures Inv(cfg, Advanced(cfg, w, s))
  {
    QueueOkPreserved(cfg, w, s);
    TablesOkPreserved(cfg, w, s);
    AllApprovals(cfg, w, s);
    AllEffects(cfg, w, s);
    AllStatuses(cfg, w, s);
    AllProcs(cfg, w, s);
    StepIsStable(cfg, w, s);
    TrailExtends(cfg, w, s);
    TrailOkPreserved(w, Advanced(cfg, w, s));
  }

  lemma {:induction false} InvAlways(cfg: Config, clock: int, steps: seq<Step>)
    requires cfg.Valid()
    ensures Inv(cfg, History(cfg, Initial(clock), steps))
  {
    if steps == [] {
      LeaseSafety.InvAlways(cfg, clock, []);
    } else {
      InvAlways(cfg, clock, steps[..|steps| - 1]);
      InvPreserved(cfg, History(cfg, Initial(clock), steps[..|steps| - 1]), steps[|steps| - 1]);
    }
  }
}
