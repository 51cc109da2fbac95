/** What one undisturbed resume of an approved run achieves, whatever earlier attempts left behind. */
module ApprovalOutcome {
  import opened Options
  import opened RunStatus
  import opened Artifacts
  import opened Lease
  import opened Ledger
  import opened LedgerSafety
  import opened ApprovalResume

  /** `c` still holds the run and stands at `stage`; approvals, tables and results are as before. */
  ghost predicate Stands(w: World, w': World, c: Claim, stage: Stage) {
    && w'.tables == w.tables && w'.results == w.results && w'.db.approvals == w.db.approvals
    && Holds(w', c) && At(w', c, stage)
  }

  ghost predicate Quiet(w: World, w': World) {
    w'.effects == w.effects && w'.trail == w.trail
  }

  lemma FromBegin(cfg: Config, w: World, c: Claim, reply: Reply)
    requires Holds(w, c) && At(w, c, Begin)
    ensures var w' := AdvanceStep(cfg, w, c, Begin, Running, reply); Stands(w, w', c, Began) && Quiet(w, w')
  {
  }

  lemma FromBegan(cfg: Config, w: World, c: Claim, a: Artifact, reply: Reply)
    requires Holds(w, c) && At(w, c, Began) && ApprovedArtifact(w, c.run, a)
    ensures var w' := AdvanceStep(cfg, w, c, Began, Running, reply); Stands(w, w', c, Bound(a)) && Quiet(w, w')
  {
    assert ValidatedArtifact(w.tables, c.run, Some(a.id), NamedArtifact(w, c.run)) == Some(a);
  }

  lemma FromBound(cfg: Config, w: World, c: Claim, a: Artifact, reply: Reply)
    requires Holds(w, c) && At(w, c, Bound(a))
    ensures var w' := AdvanceStep(cfg, w, c, Bound(a), Running, reply); Stands(w, w', c, Marked(a)) && Quiet(w, w')
  {
  }

  lemma FromMarked(cfg: Config, w: World, c: Claim, a: Artifact, reply: Reply)
    requires Holds(w, c) && At(w, c, Marked(a))
    ensures var w' := AdvanceStep(cfg, w, c, Marked(a), Running, reply);
            Stands(w, w', c, Selected(a, Lookup(w, a, c.run))) && Quiet(w, w')
  {
  }

  ghost predicate Ended(w: World, c: Claim, status: Status) {
    At(w, c, Stopped) && c.run in w.db.rows && w.db.rows[c.run].status == status
  }

  lemma FromSelectedDone(cfg: Config, w: World, c: Claim, a: Artifact, e: Effect, reply: Reply)
    requires Holds(w, c) && At(w, c, Selected(a, Some(e))) && e.status == Completed
    ensures var w' := AdvanceStep(cfg, w, c, Selected(a, Some(e)), Running, reply);
            Ended(w', c, Resolved) && Quiet(w, w') && c.run in w'.results && w'.results[c.run].pull == e.pull
  {
  }

  /** The effect row while this attempt works on it. */
  function Opening(w: World, a: Artifact, run: RunId): Effect {
    if run in w.effects then w.effects[run].(status := InProgress, attempts := w.effects[run].attempts + 1)
    else Effect(a.hash, InProgress, 1, None)
  }

  lemma FromSelectedOpen(cfg: Config, w: World, c: Claim, a: Artifact, reply: Reply)
    requires Holds(w, c) && At(w, c, Selected(a, Lookup(w, a, c.run))) && !EffectDone(w, c.run)
    requires c.run in w.effects ==> w.effects[c.run].hash == a.hash
    ensures var w' := AdvanceStep(cfg, w, c, Selected(a, Lookup(w, a, c.run)), Running, reply);
            Stands(w, w', c, Started(a)) && w'.effects == w.effects[c.run := Opening(w, a, c.run)]
              && w'.trail == w.trail
  {
  }

  lemma FromStarted(cfg: Config, w: World, c: Claim, a: Artifact, reply: Reply)
    requires Holds(w, c) && At(w, c, Started(a))
    ensures var w' := AdvanceStep(cfg, w, c, Started(a), Running, reply);
            Stands(w, w', c, Calling(a)) && w'.effects == w.effects && w'.trail == w.trail + [Authorised(c, a)]
  {
  }

  lemma FromCalling(cfg: Config, w: World, c: Claim, a: Artifact, reply: Reply)
    requires Holds(w, c) && At(w, c, Calling(a))
    ensures var w' := AdvanceStep(cfg, w, c, Calling(a), Running, reply);
            Stands(w, w', c, Replied(a, reply)) && Quiet(w, w')
  {
  }

  /** The effect row once the reply is in. */
  function Answered(e: Effect, reply: Reply): Effect {
    match reply
    case Opened(pull) => e.(status := Completed, pull := Some(pull))
    case Error(_) => e.(status := EffectFailed)
  }

  function Recording(a: Artifact, reply: Reply): Stage {
    match reply
    case Opened(pull) => Recorded(a, pull)
    case Error(retryable) => Refused(a, retryable)
  }

  lemma FromReplied(cfg: Config, w: World, c: Claim, a: Artifact, reply: Reply)
    requires Holds(w, c) && At(w, c, Replied(a, reply)) && c.run in w.effects
    ensures var w' := AdvanceStep(cfg, w, c, Replied(a, reply), Running, reply);
            && Stands(w, w', c, Recording(a, reply))
               && w'.effects == w.effects[c.run := Answered(w.effects[c.run], reply)]
            && w'.trail == w.trail + if reply.Opened? then [Finalised(c, reply.pull)] else []
  {
  }

  /** RESOLVED, FAILED, or left RUNNING for the worker's retry. */
  function FinalStatus(reply: Reply): Status {
    match reply
    case Opened(_) => Resolved
    case Error(retryable) => if retryable then Running else Failed
  }

  lemma FromRecorded(cfg: Config, w: World, c: Claim, a: Artifact, pull: Pull)
    requires Holds(w, c) && At(w, c, Recorded(a, pull))
    ensures var w' := AdvanceStep(cfg, w, c, Recorded(a, pull), Running, Opened(pull));
            Ended(w', c, Resolved) && Quiet(w, w') && c.run in w'.results && w'.results[c.run].pull == Some(pull)
  {
  }

  lemma FromRefused(cfg: Config, w: World, c: Claim, a: Artifact, retryable: bool)
    requires Holds(w, c) && At(w, c, Refused(a, retryable))
    ensures var w' := AdvanceStep(cfg, w, c, Refused(a, retryable), Running, Error(retryable));
            Ended(w', c, if retryable then Running else Failed) && Quiet(w, w')
  {
  }

  lemma FromRecording(cfg: Config, w: World, c: Claim, a: Artifact, reply: Reply)
    requires Holds(w, c) && At(w, c, Recording(a, reply))
    ensures var w' := AdvanceStep(cfg, w, c, Recording(a, reply), Running, reply);
            && Ended(w', c, FinalStatus(reply)) && Quiet(w, w')
            && (reply.Opened? ==> c.run in w'.results && w'.results[c.run].pull == Some(reply.pull))
  {
    match reply
    case Opened(pull) => FromRecorded(cfg, w, c, a, pull);
    case Error(retryable) => FromRefused(cfg, w, c, a, retryable);
  }

  // --------------------------------------------------------------- the whole run

  /** The first four stages read and announce; they bind the approved artifact and see the effect row. */
  lemma UpToSelection(cfg: Config, w: World, c: Claim, a: Artifact, reply: Reply, n: nat) returns (w': World)
    requires Holds(w, c) && At(w, c, Begin) && ApprovedArtifact(w, c.run, a) && n >= 4
    ensures Stands(w, w', c, Selected(a, Lookup(w', a, c.run))) && Quiet(w, w')
    ensures Runs(cfg, w, c, reply, n) == Runs(cfg, w', c, reply, n - 4)
  {
    FromBegin(cfg, w, c, reply);
    var w1 := AdvanceStep(cfg, w, c, Begin, Running, reply);
    RunsOne(cfg, w, c, reply, n, Begin, w1);
    FromBegan(cfg, w1, c, a, reply);
    var w2 := AdvanceStep(cfg, w1, c, Began, Running, reply);
    RunsOne(cfg, w1, c, reply, n - 1, Began, w2);
    FromBound(cfg, w2, c, a, reply);
    var w3 := AdvanceStep(cfg, w2, c, Bound(a), Running, reply);
    RunsOne(cfg, w2, c, reply, n - 2, Bound(a), w3);
    FromMarked(cfg, w3, c, a, reply);
    w' := AdvanceStep(cfg, w3, c, Marked(a), Running, reply);
    RunsOne(cfg, w3, c, reply, n - 3, Marked(a), w');
  }

  /** The stages around the call, once the effect row is open. */
  lemma ThroughTheCall(cfg: Config, w: World, c: Claim, a: Artifact, reply: Reply, n: nat) returns (w': World)
    requires Holds(w, c) && At(w, c, Started(a)) && c.run in w.effects && n >= 4
    ensures Ended(w', c, FinalStatus(reply)) && w'.effects == w.effects[c.run := Answered(w.effects[c.run], reply)]
    ensures w'.trail == w.trail + [Authorised(c, a)] + if reply.Opened? then [Finalised(c, reply.pull)] else []
    ensures reply.Opened? ==> c.run in w'.results && w'.results[c.run].pull == Some(reply.pull)
    ensures Runs(cfg, w, c, reply, n) == w'
  {
    FromStarted(cfg, w, c, a, reply);
    var w1 := AdvanceStep(cfg, w, c, Started(a), Running, reply);
    RunsOne(cfg, w, c, reply, n, Started(a), w1);
    FromCalling(cfg, w1, c, a, reply);
    var w2 := AdvanceStep(cfg, w1, c, Calling(a), Running, reply);
    RunsOne(cfg, w1, c, reply, n - 1, Calling(a), w2);
    FromReplied(cfg, w2, c, a, reply);
    var w3 := AdvanceStep(cfg, w2, c, Replied(a, reply), Running, reply);
    RunsOne(cfg, w2, c, reply, n - 2, Replied(a, reply), w3);
    FromRecording(cfg, w3, c, a, reply);
    w' := AdvanceStep(cfg, w3, c, Recording(a, reply), Running, reply);
    RunsOne(cfg, w3, c, reply, n - 3, Recording(a, reply), w');
    RunsStopped(cfg, w', c, reply, n - 4);
  }

  /** The run of a claim whose effect is already COMPLETED: resolved with the recorded pull request, nothing sent. */
  ghost predicate TookOver(w: World, w': World, c: Claim) {
    && EffectDone(w, c.run) && Ended(w', c, Resolved) && Quiet(w, w')
    && c.run in w'.results && w'.results[c.run].pull == w.effects[c.run].pull
  }

  /** The run of a claim that calls GitHub once and writes down the answer. */
  ghost predicate CalledOnce(w: World, w': World, c: Claim, a: Artifact, reply: Reply) {
    && Ended(w', c, FinalStatus(reply))
    && w'.effects == w.effects[c.run := Answered(Opening(w, a, c.run), reply)]
    && w'.trail == w.trail + [Authorised(c, a)] + (if reply.Opened? then [Finalised(c, reply.pull)] else [])
    && (reply.Opened? ==> c.run in w'.results && w'.results[c.run].pull == Some(reply.pull))
  }

  lemma Takeover(cfg: Config, w: World, c: Claim, a: Artifact, reply: Reply, n: nat)
    requires Holds(w, c) && At(w, c, Begin) && ApprovedArtifact(w, c.run, a) && n >= 10
    requires EffectDone(w, c.run) && w.effects[c.run].hash == a.hash
    ensures TookOver(w, Runs(cfg, w, c, reply, n), c)
  {
    var w4 := UpToSelection(cfg, w, c, a, reply, n);
    var stage := Selected(a, Some(w.effects[c.run]));
    FromSelectedDone(cfg, w4, c, a, w.effects[c.run], reply);
    var w5 := AdvanceStep(cfg, w4, c, stage, Running, reply);
    RunsOne(cfg, w4, c, reply, n - 4, stage, w5);
    RunsStopped(cfg, w5, c, reply, n - 5);
  }

  lemma OpenStage(cfg: Config, w: World, c: Claim, a: Artifact, reply: Reply, n: nat) returns (w': World)
    requires Holds(w, c) && At(w, c, Selected(a, Lookup(w, a, c.run))) && !EffectDone(w, c.run) && n > 0
    requires c.run in w.effects ==> w.effects[c.run].hash == a.hash
    ensures Stands(w, w', c, Started(a)) && w'.effects == w.effects[c.run := Opening(w, a, c.run)]
            && w'.trail == w.trail
    ensures Runs(cfg, w, c, reply, n) == Runs(cfg, w', c, reply, n - 1)
  {
    var stage := Selected(a, Lookup(w, a, c.run));
    FromSelectedOpen(cfg, w, c, a, reply);
    w' := AdvanceStep(cfg, w, c, stage, Running, reply);
    RunsOne(cfg, w, c, reply, n, stage, w');
  }

  /** Selection, opening and call put together. */
  lemma Composed(w: World, w4: World, w5: World, w': World, c: Claim, a: Artifact, reply: Reply)
    requires Quiet(w, w4)
    requires w5.effects == w4.effects[c.run := Opening(w4, a, c.run)] && w5.trail == w4.trail
    requires Ended(w', c, FinalStatus(reply)) && w'.effects == w5.effects[c.run := Answered(w5.effects[c.run], reply)]
    requires w'.trail == w5.trail + [Authorised(c, a)] + if reply.Opened? then [Finalised(c, reply.pull)] else []
    requires reply.Opened? ==> c.run in w'.results && w'.results[c.run].pull == Some(reply.pull)
    ensures CalledOnce(w, w', c, a, reply)
  {
  }

  lemma CallPath(cfg: Config, w: World, c: Claim, a: Artifact, reply: Reply, n: nat) returns (w': World)
    requires Holds(w, c) && At(w, c, Begin) && ApprovedArtifact(w, c.run, a) && n >= 10
    requires !EffectDone(w, c.run) && (c.run in w.effects ==> w.effects[c.run].hash == a.hash)
    ensures w' == Runs(cfg, w, c, reply, n) && CalledOnce(w, w', c, a, reply)
  {
    var w4 := UpToSelection(cfg, w, c, a, reply, n);
    var w5 := OpenStage(cfg, w4, c, a, reply, n - 4);
    w' := ThroughTheCall(cfg, w5, c, a, reply, n - 5);
    Composed(w, w4, w5, w', c, a, reply);
  }

  lemma ApprovedAtBegin(cfg: Config, w: World, c: Claim) returns (a: Artifact)
    requires Inv(cfg, w) && At(w, c, Begin)
    ensures ApprovedArtifact(w, c.run, a) && (c.run in w.effects ==> w.effects[c.run].hash == a.hash)
  {
    assert ApprovalOk(w, c.run) && EffectOk(w, c.run) && ProcOk(w, c, w.procs[c]);
    a := w.tables.artifacts[w.db.approvals[c.run].payload.artifact];
  }

  /**
    Takeover and progress. After any history, a claim that holds an approved run and is
    not disturbed while it resumes ends it within ten stages: with the recorded pull
    request and no call when an earlier attempt completed the effect, otherwise with
    exactly one authorised call whose answer decides effect row, run status and result.
  */
  lemma ResumeOutcome(cfg: Config, w: World, c: Claim, reply: Reply, n: nat) returns (a: Artifact)
    requires Inv(cfg, w) && At(w, c, Begin) && Holds(w, c) && n >= 10
    ensures ApprovedArtifact(w, c.run, a)
    ensures var w' := Runs(cfg, w, c, reply, n);
            if EffectDone(w, c.run) then TookOver(w, w', c) else CalledOnce(w, w', c, a, reply)
  {
    a := ApprovedAtBegin(cfg, w, c);
    if EffectDone(w, c.run) {
      Takeover(cfg, w, c, a, reply, n);
    } else {
      var w' := CallPath(cfg, w, c, a, reply, n);
    }
  }
}
