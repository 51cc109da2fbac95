/** The guarantees from approval to pull request, over every history of the control plane. */
module LedgerTheorems {
  import opened Options
  import opened RunStatus
  import opened Artifacts
  import opened Lease
  import LeaseSafety
  import opened Ledger
  import opened LedgerSafety

  /**
    Approval safety. Whenever a GitHub request has been authorised for a run, the run's
    single approval row is an APPROVE whose payload is the binding of exactly the patch
    that was sent, and a passed, exit-code-0 test of that patch on that base is on record.
  */
  lemma AuthorisedOnlyWhenApproved(cfg: Config, clock: int, steps: seq<Step>, i: nat)
    requires cfg.Valid()
    requires i < |History(cfg, Initial(clock), steps).trail| && History(cfg, Initial(clock), steps).trail[i].Authorised?
    ensures var w := History(cfg, Initial(clock), steps);
            var c, a := w.trail[i].claim, w.trail[i].artifact;
            && c.run in w.db.approvals && w.db.approvals[c.run] == Approval(Approve, BindingOf(a))
            && a.run == c.run && a.immutable && a.hash == HashPatch(a.diff)
            && TestSupports(w.tables, c.run, a)
            && Claimed(c) in w.db.log
  {
    InvAlways(cfg, clock, steps);
    var w := History(cfg, Initial(clock), steps);
    assert MarkOk(w, w.trail[i]);
  }

  /** Two authorised requests of one run always carry the same artifact. */
  lemma OneArtifactPerRun(cfg: Config, clock: int, steps: seq<Step>, i: nat, j: nat)
    requires cfg.Valid()
    requires i < |History(cfg, Initial(clock), steps).trail| && History(cfg, Initial(clock), steps).trail[i].Authorised?
    requires j < |History(cfg, Initial(clock), steps).trail| && History(cfg, Initial(clock), steps).trail[j].Authorised?
    requires var t := History(cfg, Initial(clock), steps).trail; t[i].claim.run == t[j].claim.run
    ensures var t := History(cfg, Initial(clock), steps).trail; t[i].artifact == t[j].artifact
  {
    InvAlways(cfg, clock, steps);
    var w := History(cfg, Initial(clock), steps);
    assert MarkOk(w, w.trail[i]) && MarkOk(w, w.trail[j]);
  }

  /**
    The side-effect ledger. At most one attempt ever completes the effect of a run; once
    it has, no attempt is authorised for another request; and a RESOLVED run has a
    COMPLETED effect whose pull request is the one in the run result.
  */
  lemma LedgerSafe(cfg: Config, clock: int, steps: seq<Step>)
    requires cfg.Valid()
    ensures var w := History(cfg, Initial(clock), steps);
            && (forall i, j :: 0 <= i < j < |w.trail| && w.trail[i].Finalised? ==>
                  w.trail[j].claim.run != w.trail[i].claim.run)
            && (forall i :: 0 <= i < |w.trail| && w.trail[i].Finalised? ==>
                  EffectDone(w, w.trail[i].claim.run) && w.effects[w.trail[i].claim.run].pull == Some(w.trail[i].pull))
            && (forall r :: r in w.db.rows && w.db.rows[r].status == Resolved ==>
                  && EffectDone(w, r) && r in w.results && w.results[r].pull.Some?
                  && w.results[r].pull == w.effects[r].pull)
  {
    InvAlways(cfg, clock, steps);
    var w := History(cfg, Initial(clock), steps);
    forall i, j | 0 <= i < j < |w.trail| && w.trail[i].Finalised?
      ensures w.trail[j].claim.run != w.trail[i].claim.run
    {
      assert NothingAfter(w.trail[i], w.trail[j]);
    }
    forall i | 0 <= i < |w.trail| && w.trail[i].Finalised?
      ensures EffectDone(w, w.trail[i].claim.run) && w.effects[w.trail[i].claim.run].pull == Some(w.trail[i].pull)
    {
      assert MarkOk(w, w.trail[i]);
    }
    forall r | r in w.db.rows && w.db.rows[r].status == Resolved
      ensures EffectDone(w, r) && r in w.results && w.results[r].pull.Some? && w.results[r].pull == w.effects[r].pull
    {
      assert StatusOk(w, r) && EffectOk(w, r);
    }
  }

  /** Decisions and finished effects are permanent, whatever happens afterwards. */
  lemma {:induction false} DecisionsArePermanent(cfg: Config, w: World, steps: seq<Step>)
    requires cfg.Valid() && Inv(cfg, w)
    ensures Inv(cfg, History(cfg, w, steps))
    ensures Grows(w.db.approvals, History(cfg, w, steps).db.approvals)
    ensures Grows(w.tables.artifacts, History(cfg, w, steps).tables.artifacts)
    ensures forall r :: EffectDone(w, r) ==>
              r in History(cfg, w, steps).effects && History(cfg, w, steps).effects[r] == w.effects[r]
  {
    if steps != [] {
      var mid, s := History(cfg, w, steps[..|steps| - 1]), steps[|steps| - 1];
      DecisionsArePermanent(cfg, w, steps[..|steps| - 1]);
      InvPreserved(cfg, mid, s);
      StepIsStable(cfg, mid, s);
    }
  }

  /** An approved run never waits for approval again. */
  lemma ApprovedNeverWaits(cfg: Config, w: World, steps: seq<Step>, r: RunId)
    requires cfg.Valid() && Inv(cfg, w)
    requires r in w.db.approvals
    ensures var w' := History(cfg, w, steps);
            r in w'.db.approvals && w'.db.approvals[r] == w.db.approvals[r]
            && (r in w'.db.rows ==> w'.db.rows[r].status != WaitingApproval)
  {
    DecisionsArePermanent(cfg, w, steps);
    assert StatusOk(History(cfg, w, steps), r);
  }

  /** A rejected run stays with a human: no side-effect row and no authorised request, ever. */
  lemma RejectedHasNoEffect(cfg: Config, w: World, steps: seq<Step>, r: RunId)
    requires cfg.Valid() && Inv(cfg, w)
    requires r in w.db.approvals && w.db.approvals[r].decision == Reject
    ensures var w' := History(cfg, w, steps);
            && r !in w'.effects
            && r in w'.db.rows && w'.db.rows[r].status == NeedsHuman
            && (forall i :: 0 <= i < |w'.trail| ==> w'.trail[i].claim.run != r)
  {
    DecisionsArePermanent(cfg, w, steps);
    var w' := History(cfg, w, steps);
    assert EffectOk(w', r);
    assert LeaseSafety.RowOk(cfg, w'.db.approvals, r, w'.db.rows[r]);
    forall i | 0 <= i < |w'.trail|
      ensures w'.trail[i].claim.run != r
    {
      assert MarkOk(w', w'.trail[i]);
    }
  }
}
