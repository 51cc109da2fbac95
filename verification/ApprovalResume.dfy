/**
  `resume_after_approval` as the code runs it, commit by commit, when no other step falls
  in between. It is proved to be the run of the stages of `Ledger`, whose theorems hold
  with any other step between any two of them.
*/
module ApprovalResume {
  import opened Options
  import opened RunStatus
  import opened Artifacts
  import opened Lease
  import opened Ledger
  import JobStore

  /** The stages of one claim one after the other, its ORM object carrying RUNNING throughout. */
  function Runs(cfg: Config, w: World, c: Claim, reply: Reply, n: nat): World
    decreases n
  {
    if n == 0 || c !in w.procs || w.procs[c] == Executing || w.procs[c] == Resuming(Stopped) then w
    else Runs(cfg, AdvanceStep(cfg, w, c, w.procs[c].stage, Running, reply), c, reply, n - 1)
  }

  predicate At(w: World, c: Claim, stage: Stage) {
    c in w.procs && w.procs[c] == Resuming(stage)
  }

  lemma RunsOne(cfg: Config, w: World, c: Claim, reply: Reply, n: nat, stage: Stage, w': World)
    requires n > 0 && At(w, c, stage) && stage != Stopped && w' == AdvanceStep(cfg, w, c, stage, Running, reply)
    ensures Runs(cfg, w, c, reply, n) == Runs(cfg, w', c, reply, n - 1)
  {
  }

  lemma RunsStopped(cfg: Config, w: World, c: Claim, reply: Reply, n: nat)
    requires At(w, c, Stopped)
    ensures Runs(cfg, w, c, reply, n) == w
  {
  }

  /** It is a history of `Ledger`: the steps in between are just none. */
  lemma {:induction false} RunsAreHistory(cfg: Config, w: World, c: Claim, reply: Reply, n: nat)
    returns (steps: seq<Step>)
    ensures History(cfg, w, steps) == Runs(cfg, w, c, reply, n)
    decreases n
  {
    if n == 0 || c !in w.procs || w.procs[c] == Executing || w.procs[c] == Resuming(Stopped) {
      steps := [];
    } else {
      var rest := RunsAreHistory(cfg, AdvanceStep(cfg, w, c, w.procs[c].stage, Running, reply), c, reply, n - 1);
      steps := StageThenRest(cfg, w, c, reply, n, rest);
    }
  }

  lemma StageThenRest(cfg: Config, w: World, c: Claim, reply: Reply, n: nat, rest: seq<Step>) returns (steps: seq<Step>)
    requires n > 0 && c in w.procs && w.procs[c].Resuming? && w.procs[c].stage != Stopped
    requires var w' := AdvanceStep(cfg, w, c, w.procs[c].stage, Running, reply);
             History(cfg, w', rest) == Runs(cfg, w', c, reply, n - 1)
    ensures History(cfg, w, steps) == Runs(cfg, w, c, reply, n)
  {
    var w' := AdvanceIsStage(cfg, w, c, reply);
    HistoryFrom(cfg, w, Advance(c, Running, reply), rest);
    steps := [Advance(c, Running, reply)] + rest;
    RunsOne(cfg, w, c, reply, n, w.procs[c].stage, w');
  }

  lemma AdvanceIsStage(cfg: Config, w: World, c: Claim, reply: Reply) returns (w': World)
    requires c in w.procs && w.procs[c].Resuming?
    ensures w' == Advanced(cfg, w, Advance(c, Running, reply))
            == AdvanceStep(cfg, w, c, w.procs[c].stage, Running, reply)
  {
    w' := AdvanceStep(cfg, w, c, w.procs[c].stage, Running, reply);
  }

  lemma {:induction false} HistoryFrom(cfg: Config, w: World, s: Step, rest: seq<Step>)
    ensures History(cfg, w, [s] + rest) == History(cfg, Advanced(cfg, w, s), rest)
    decreases |rest|
  {
    var all := [s] + rest;
    if rest == [] {
      assert all == [s] && all[..0] == [];
      assert History(cfg, w, all[..0]) == w;
    } else {
      assert all[..|all| - 1] == [s] + rest[..|rest| - 1];
      HistoryFrom(cfg, w, s, rest[..|rest| - 1]);
    }
  }

  /** `mark_status` in the ledger's terms. */
  lemma SetsStatus(cfg: Config, w: World, c: Claim, target: Status, finished: bool)
    requires CallerMark(target, finished)
    ensures SetStatus(cfg, w, c, Running, target, finished)
            == w.(db := JobStore.MarkResult(w.db, c, Running, target, finished))
  {
    JobStore.MarkStep(cfg, w.db, c, Running, target, finished);
  }

  lemma ReuseStage(cfg: Config, w: World, c: Claim, a: Artifact, e: Effect)
    requires e.status == Completed
    ensures OpenEffect(cfg, w, c, a, Some(e), Running)
            == if CanSet(w, c, Running, Resolved)
               then WithPull(Enter(w.(db := JobStore.MarkResult(w.db, c, Running, Resolved, true)), c, Stopped),
                             c.run, e.pull)
               else Enter(w, c, Stopped)
  {
    SetsStatus(cfg, w, c, Resolved, true);
  }

  class ApprovalResume {
    const store: JobStore.JobStore
    const tables: Tables
    var effects: map<RunId, Effect>
    var results: map<RunId, RunResult>
    ghost var procs: map<Claim, Proc>
    ghost var trail: seq<Mark>

    constructor (store: JobStore.JobStore, tables: Tables)
      ensures this.store == store && this.tables == tables && fresh(this)
      ensures effects == map[] && results == map[] && procs == map[] && trail == []
    {
      this.store, this.tables, effects, results := store, tables, map[], map[];
      procs, trail := map[], [];
    }

    ghost function View(): World
      reads this, store
    {
      World(store.State(), tables, effects, results, procs, trail)
    }

    /** The persisted approval, when it is an APPROVE that still binds the validated artifact. */
    method Bind(c: Claim, ghost reply: Reply, ghost n: nat) returns (artifact: Option<Artifact>)
      requires n > 0 && At(View(), c, Began)
      modifies this`procs
      ensures artifact.None? ==> At(View(), c, Stopped)
      ensures artifact.Some? ==> At(View(), c, Bound(artifact.value))
      ensures Runs(store.cfg, old(View()), c, reply, n) == Runs(store.cfg, View(), c, reply, n - 1)
    {
      artifact := None;
      if c.run in store.approvals && store.approvals[c.run].decision == Approve {
        var payload := store.approvals[c.run].payload;
        var named := if c.run in results then results[c.run].artifact else None;
        artifact := ValidatedArtifact(tables, c.run, Some(payload.artifact), named);
        if artifact.Some? && BindingOf(artifact.value) != payload {
          artifact := None;
        }
      }
      ghost var w := View();
      procs := procs[c := Resuming(if artifact.Some? then Bound(artifact.value) else Stopped)];
      assert View() == BindApproval(w, c);
      RunsOne(store.cfg, w, c, reply, n, Began, View());
    }

    /** A completed effect of an earlier attempt: nothing is called, the run just ends with its pull request. */
    method Reuse(c: Claim, a: Artifact, effect: Effect, ghost reply: Reply, ghost n: nat)
      requires n > 0 && At(View(), c, Selected(a, Some(effect))) && effect.status == Completed
      modifies this, store
      ensures At(View(), c, Stopped) && effects == old(effects)
      ensures Runs(store.cfg, old(View()), c, reply, n) == Runs(store.cfg, View(), c, reply, n - 1)
    {
      ghost var w := View();
      var outcome := store.MarkStatus(c, Running, Resolved, true);
      if outcome.Committed? {
        var named := if c.run in results then results[c.run].artifact else None;
        results := results[c.run := RunResult(named, effect.pull)];
      }
      procs := procs[c := Resuming(Stopped)];
      ReuseStage(store.cfg, w, c, a, effect);
      assert View() == OpenEffect(store.cfg, w, c, a, Some(effect), Running);
      RunsOne(store.cfg, w, c, reply, n, Selected(a, Some(effect)), View());
    }

    /** The effect row is opened, or reopened with one more attempt, before anything is called. */
    method Open(c: Claim, a: Artifact, effect: Option<Effect>, ghost reply: Reply, ghost n: nat) returns (started: bool)
      requires n > 0 && At(View(), c, Selected(a, effect)) && effect == Lookup(View(), a, c.run)
      requires effect.Some? ==> effect.value.status != Completed
      modifies this, store
      ensures At(View(), c, if started then Started(a) else Stopped)
      ensures started ==> c.run in effects
      ensures Runs(store.cfg, old(View()), c, reply, n) == Runs(store.cfg, View(), c, reply, n - 1)
    {
      ghost var w := View();
      started := false;
      if effect.Some? || c.run !in effects {
        // Otherwise the insert violates the unique index, and the transaction rolls back.
        started := store.FencedCommit(c);
      }
      if started {
        effects := effects[c.run := if effect.None? then Effect(a.hash, InProgress, 1, None)
                                    else effect.value.(status := InProgress, attempts := effect.value.attempts + 1)];
        procs := procs[c := Resuming(Started(a))];
      } else {
        procs := procs[c := Resuming(Stopped)];
      }
      assert View() == OpenEffect(store.cfg, w, c, a, effect, Running);
      RunsOne(store.cfg, w, c, reply, n, Selected(a, effect), View());
    }

    /** The reply is written to the effect row before the run itself ends. */
    method Record(c: Claim, a: Artifact, reply: Reply, ghost n: nat) returns (held: bool)
      requires n > 0 && At(View(), c, Replied(a, reply)) && c.run in effects
      modifies this, store
      ensures At(View(), c,
                 if !held then Stopped
                 else if reply.Opened? then Recorded(a, reply.pull) else Refused(a, reply.retryable))
      ensures Runs(store.cfg, old(View()), c, reply, n) == Runs(store.cfg, View(), c, reply, n - 1)
    {
      ghost var w := View();
      held := store.FencedCommit(c);
      if held {
        if reply.Opened? {
          effects := effects[c.run := effects[c.run].(status := Completed, pull := Some(reply.pull))];
          trail := trail + [Finalised(c, reply.pull)];
          procs := procs[c := Resuming(Recorded(a, reply.pull))];
        } else {
          effects := effects[c.run := effects[c.run].(status := EffectFailed)];
          procs := procs[c := Resuming(Refused(a, reply.retryable))];
        }
      } else {
        procs := procs[c := Resuming(Stopped)];
      }
      assert View() == RecordReply(store.cfg, w, c, a, reply);
      RunsOne(store.cfg, w, c, reply, n, Replied(a, reply), View());
    }

    /** The run ends RESOLVED with the pull request, or FAILED; a retryable error leaves it to the worker. */
    method Finish(c: Claim, a: Artifact, reply: Reply, ghost n: nat)
      requires n > 0 && At(View(), c, if reply.Opened? then Recorded(a, reply.pull) else Refused(a, reply.retryable))
      modifies this, store
      ensures At(View(), c, Stopped)
      ensures Runs(store.cfg, old(View()), c, reply, n) == View()
    {
      ghost var w := View();
      match reply {
        case Opened(pull) =>
          var outcome := store.MarkStatus(c, Running, Resolved, true);
          if outcome.Committed? {
            var named := if c.run in results then results[c.run].artifact else None;
            results := results[c.run := RunResult(named, Some(pull))];
          }
        case Error(retryable) =>
          if !retryable {
            var outcome := store.MarkStatus(c, Running, Failed, true);
          }
      }
      procs := procs[c := Resuming(Stopped)];
      ghost var stage := if reply.Opened? then Recorded(a, reply.pull) else Refused(a, reply.retryable);
      assert View() == AdvanceStep(store.cfg, w, c, stage, Running, reply);
      RunsOne(store.cfg, w, c, reply, n, stage, View());
      RunsStopped(store.cfg, View(), c, reply, n - 1);
    }

    /** The run is RUNNING under this claim, or the resume raises. */
    method MarkRunning(c: Claim, ghost reply: Reply, ghost n: nat) returns (held: bool)
      requires n > 0 && At(View(), c, Begin)
      modifies this`procs, store
      ensures At(View(), c, if held then Began else Stopped)
      ensures Runs(store.cfg, old(View()), c, reply, n) == Runs(store.cfg, View(), c, reply, n - 1)
    {
      ghost var w := View();
      held := store.MarkRunning(c);
      procs := procs[c := Resuming(if held then Began else Stopped)];
      assert View() == AdvanceStep(store.cfg, w, c, Begin, Running, reply);
      RunsOne(store.cfg, w, c, reply, n, Begin, View());
    }

    /** CREATE_PULL_REQUEST is announced under the fence; then the effect row is looked up. */
    method Announce(c: Claim, a: Artifact, ghost reply: Reply, ghost n: nat)
      returns (announced: bool, effect: Option<Effect>)
      requires n > 1 && At(View(), c, Bound(a))
      modifies this`procs, store
      ensures At(View(), c, if announced then Selected(a, effect) else Stopped)
      ensures announced ==> effect == Lookup(View(), a, c.run)
      ensures Runs(store.cfg, old(View()), c, reply, n)
              == Runs(store.cfg, View(), c, reply, if announced then n - 2 else n - 1)
    {
      ghost var w := View();
      effect := None;
      var outcome := store.MarkStatus(c, Running, Running, false);
      announced := outcome.Committed?;
      procs := procs[c := Resuming(if announced then Marked(a) else Stopped)];
      assert View() == AdvanceStep(store.cfg, w, c, Bound(a), Running, reply);
      RunsOne(store.cfg, w, c, reply, n, Bound(a), View());
      if announced {
        ghost var w1 := View();
        effect := if c.run in effects && effects[c.run].hash == a.hash then Some(effects[c.run]) else None;
        procs := procs[c := Resuming(Selected(a, effect))];
        assert View() == AdvanceStep(store.cfg, w1, c, Marked(a), Running, reply);
        RunsOne(store.cfg, w1, c, reply, n - 1, Marked(a), View());
      }
    }

    /** One more fence and commit before the call. */
    method Authorise(c: Claim, a: Artifact, ghost reply: Reply, ghost n: nat) returns (held: bool)
      requires n > 0 && At(View(), c, Started(a))
      modifies this`procs, this`trail, store
      ensures At(View(), c, if held then Calling(a) else Stopped)
      ensures Runs(store.cfg, old(View()), c, reply, n) == Runs(store.cfg, View(), c, reply, n - 1)
    {
      ghost var w := View();
      held := store.FencedCommit(c);
      if held {
        trail := trail + [Authorised(c, a)];
      }
      procs := procs[c := Resuming(if held then Calling(a) else Stopped)];
      assert View() == AdvanceStep(store.cfg, w, c, Started(a), Running, reply);
      RunsOne(store.cfg, w, c, reply, n, Started(a), View());
    }

    /** GitHub is called; `reply` is what it answers. */
    method Call(c: Claim, a: Artifact, reply: Reply, ghost n: nat) returns (called: bool)
      requires n > 1 && At(View(), c, Started(a))
      modifies this`procs, this`trail, store
      ensures At(View(), c, if called then Replied(a, reply) else Stopped)
      ensures Runs(store.cfg, old(View()), c, reply, n)
              == Runs(store.cfg, View(), c, reply, if called then n - 2 else n - 1)
    {
      called := Authorise(c, a, reply, n);
      if called {
        ghost var w := View();
        procs := procs[c := Resuming(Replied(a, reply))];
        assert View() == AdvanceStep(store.cfg, w, c, Calling(a), Running, reply);
        RunsOne(store.cfg, w, c, reply, n - 1, Calling(a), View());
      }
    }

    /** From the claim to its last commit; ten stages are always enough. */
    method Resume(c: Claim, reply: Reply, ghost n: nat)
      requires n >= 10 && At(View(), c, Begin)
      modifies this, store
      ensures At(View(), c, Stopped)
      ensures Runs(store.cfg, old(View()), c, reply, n) == View()
    {
      var held := MarkRunning(c, reply, n);
      if !held {
        RunsStopped(store.cfg, View(), c, reply, n - 1);
        return;
      }
      var artifact := Bind(c, reply, n - 1);
      if artifact.None? {
        RunsStopped(store.cfg, View(), c, reply, n - 2);
        return;
      }
      var a := artifact.value;
      var announced, effect := Announce(c, a, reply, n - 2);
      if !announced {
        RunsStopped(store.cfg, View(), c, reply, n - 3);
        return;
      }
      if effect.Some? && effect.value.status == Completed {
        Reuse(c, a, effect.value, reply, n - 4);
        RunsStopped(store.cfg, View(), c, reply, n - 5);
        return;
      }
      var started := Open(c, a, effect, reply, n - 4);
      if !started {
        RunsStopped(store.cfg, View(), c, reply, n - 5);
        return;
      }
      var called := Call(c, a, reply, n - 5);
      if !called {
        RunsStopped(store.cfg, View(), c, reply, n - 6);
        return;
      }
      var recorded := Record(c, a, reply, n - 7);
      if !recorded {
        RunsStopped(store.cfg, View(), c, reply, n - 8);
        return;
      }
      Finish(c, a, reply, n - 8);
    }
  }
}
