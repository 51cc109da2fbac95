/**
  One claim in the hands of a worker: `_execute_claim` around `execute` and `_halt`. The
  release at its end is allowed by the protocol, because an execution that returns has
  always left RUNNING, or its attempt has been superseded.
*/
module Worker {
  import opened Options
  import opened RunStatus
  import opened Artifacts
  import opened Lease
  import LeaseSafety
  import LeaseTheorems
  import JobStore

  datatype Failure = ValueOrType | OtherFailure

  datatype Outcome = Returned | Raised(failure: Failure)

  /**
    How the workflow behind `execute` or `resume` comes to an end: with a final status that
    it is about to write, with an exception, or cut short by the run timeout or by model
    output that cannot be read, which `_halt` turns into a status.
  */
  datatype WorkflowEnd = Ends(target: Status) | Raises(failure: Failure) | CutShort

  /** `seen` is the status a SELECT returned in `past`; other transactions may have run since. */
  ghost predicate Saw(cfg: Config, past: Db, between: seq<Action>, now: Db, c: Claim, seen: Status) {
    && now == Run(cfg, past, between)
    && LeaseSafety.Bounded(past.rows, c) && past.rows[c.run].status == seen
  }

  /** A status that NEEDS_HUMAN cannot follow is not RUNNING, then or at any later time of the attempt. */
  lemma RefusedMeansOver(cfg: Config, past: Db, between: seq<Action>, now: Db, c: Claim, seen: Status, target: Status)
    requires Saw(cfg, past, between, now, c, seen) && target in TERMINAL && target !in Transitions(seen)
    ensures Over(now.rows, c)
  {
    LeaseSafety.OverForever(cfg, past, between, c);
  }

  class DurableWorker {
    const store: JobStore.JobStore

    constructor (store: JobStore.JobStore)
      ensures this.store == store
    {
      this.store := store;
    }

    /** `mark_status` as callers see it: it commits or it raises. */
    method Mark(c: Claim, seen: Status, target: Status) returns (outcome: Outcome, ghost action: Action)
      requires target in TERMINAL || target == WaitingApproval
      modifies store
      ensures action == MarkStatus(c, seen, target, target in TERMINAL)
      ensures store.State() == Next(store.cfg, old(store.State()), action)
      ensures outcome == Returned || outcome == Raised(OtherFailure)
      ensures outcome.Returned? ==> MarkAllowed(old(store.rows), c, old(store.clock), seen, target)
    {
      action := MarkStatus(c, seen, target, target in TERMINAL);
      var marked := store.MarkStatus(c, seen, target, target in TERMINAL);
      outcome := if marked.Committed? then Returned else Raised(OtherFailure);
    }

    /** `_halt`: a target that the status seen does not admit is left alone. */
    method Halt(c: Claim, target: Status, seen: Status, ghost past: Db, ghost between: seq<Action>)
      returns (outcome: Outcome, ghost actions: seq<Action>)
      requires target in TERMINAL && c.attempt >= 1
      requires Saw(store.cfg, past, between, store.State(), c, seen)
      modifies store
      ensures store.State() == Run(store.cfg, old(store.State()), actions)
      ensures outcome == Returned || outcome == Raised(OtherFailure)
      ensures outcome.Returned? ==> Over(store.rows, c)
    {
      actions := [];
      if target !in Transitions(seen) {
        RefusedMeansOver(store.cfg, past, between, store.State(), c, seen, target);
        return Returned, [];
      }
      ghost var before := store.State();
      ghost var action;
      outcome, action := Mark(c, seen, target);
      actions := LeaseTheorems.Extend(store.cfg, before, [], action);
      if outcome.Returned? {
        MarkedIsOver(store.cfg, before, c, seen, target);
      }
    }

    /** `execute`, and `resume` after its first commit: the workflow's end becomes a return or an exception. */
    method Execute(c: Claim, end: WorkflowEnd, seen: Status, ghost past: Db, ghost between: seq<Action>)
      returns (outcome: Outcome, ghost actions: seq<Action>)
      requires end.Ends? ==> end.target in TERMINAL || end.target == WaitingApproval
      requires c.attempt >= 1 && Saw(store.cfg, past, between, store.State(), c, seen)
      modifies store
      ensures store.State() == Run(store.cfg, old(store.State()), actions)
      ensures outcome.Returned? ==> Over(store.rows, c)
    {
      match end {
        case Ends(target) =>
          ghost var before := store.State();
          ghost var action;
          outcome, action := Mark(c, Running, target);
          actions := LeaseTheorems.Extend(store.cfg, before, [], action);
          if outcome.Returned? {
            MarkedIsOver(store.cfg, before, c, Running, target);
          }
        case Raises(failure) =>
          return Raised(failure), [];
        case CutShort =>
          outcome, actions := Halt(c, NeedsHuman, seen, past, between);
      }
    }

    /**
      `_execute_claim`: release after a return, a human after a ValueError or TypeError, and
      otherwise a retry. `lost` says that the heartbeat ended first. Every transaction it
      makes is a step of the protocol, the release included.
    */
    method ExecuteClaim(c: Claim, end: WorkflowEnd, lost: bool, seen: Status, ghost past: Db,
                        ghost between: seq<Action>,
                        local: int, delay: nat)
      returns (released: bool, ghost actions: seq<Action>)
      requires end.Ends? ==> end.target in TERMINAL || end.target == WaitingApproval
      requires c.attempt >= 1 && Saw(store.cfg, past, between, store.State(), c, seen)
      modifies store
      ensures store.State() == Run(store.cfg, old(store.State()), actions)
      ensures released ==> Over(store.rows, c)
    {
      released := false;
      var outcome := Raised(OtherFailure);
      actions := [];
      ghost var start := store.State();
      if !lost {
        outcome, actions := Execute(c, end, seen, past, between);
      }
      match outcome {
        case Returned =>
          store.NoteReturn(c);
          ghost var done := store.State();
          actions := LeaseTheorems.Extend(store.cfg, start, actions, Return(c));
          released := store.ReleaseClaim(c);
          actions := LeaseTheorems.Extend(store.cfg, start, actions, Release(c));
          LeaseSafety.StaysOver(store.cfg, done, Release(c), c);
        case Raised(ValueOrType) =>
          if c.run in store.rows {
            ghost var action;
            outcome, action := Mark(c, store.rows[c.run].status, NeedsHuman);
            actions := LeaseTheorems.Extend(store.cfg, start, actions, action);
          }
        case Raised(OtherFailure) =>
          var retried := store.RetryClaim(c, local, delay);
          actions := LeaseTheorems.Extend(store.cfg, start, actions, Retry(c, local, delay));
      }
    }
  }

  /** A committed final status: the attempt is over. */
  lemma MarkedIsOver(cfg: Config, db: Db, c: Claim, seen: Status, target: Status)
    requires c.attempt >= 1 && (target in TERMINAL || target == WaitingApproval)
    requires MarkAllowed(db.rows, c, db.clock, seen, target)
    ensures Over(Next(cfg, db, MarkStatus(c, seen, target, target in TERMINAL)).rows, c)
  {
  }
}
