/**
  From approval to pull request: the approval row, the side-effect row, and the
  worker that resumes an approved run, on top of the job queue of `Lease`.

  `resume_after_approval` is a coroutine cut at every commit and every read whose
  value it uses later; `Stage` says where it stands and which snapshot it carries.
  Between two of its stages any other step may happen, including a newer claim of
  the same run doing the same work.
*/
module Ledger {
  import opened Options
  import opened RunStatus
  import opened Artifacts
  import opened Lease

  datatype Pull = Pull(number: nat, url: string)

  datatype EffectStatus = InProgress | Completed | EffectFailed

  /** A row of `external_side_effects`; a run has at most one of this effect type. */
  datatype Effect = Effect(hash: Digest, status: EffectStatus, attempts: nat, pull: Option<Pull>)

  datatype RunResult = RunResult(artifact: Option<ArtifactId>, pull: Option<Pull>)

  datatype Reply = Opened(pull: Pull) | Error(retryable: bool)

  datatype Stage =
    | Begin
    | Began
    | Bound(artifact: Artifact)
    | Marked(artifact: Artifact)
    | Selected(artifact: Artifact, seen: Option<Effect>)
    | Started(artifact: Artifact)
    | Calling(artifact: Artifact)
    | Replied(artifact: Artifact, reply: Reply)
    | Recorded(artifact: Artifact, pull: Pull)
    | Refused(artifact: Artifact, retryable: bool)
    | Stopped

  /** What a claim is doing: running the graph, or resuming after an approval. */
  datatype Proc = Executing | Resuming(stage: Stage)

  /** Moments that matter for the outside world, in order. */
  datatype Mark = Authorised(claim: Claim, artifact: Artifact) | Finalised(claim: Claim, pull: Pull)

  datatype World = World(
    db: Db,
    tables: Tables,
    effects: map<RunId, Effect>,
    results: map<RunId, RunResult>,
    procs: map<Claim, Proc>,
    trail: seq<Mark>)

  datatype Step =
    | Job(action: Action)
    | Dispatch(claim: Claim)
    | SaveTest(claim: Claim, test: TestId, record: TestRow)
    | SaveArtifact(claim: Claim, artifact: Artifact)
    | FinishRun(claim: Claim, snapshot: Status, target: Status, named: Option<ArtifactId>)
    | Halt(claim: Claim, snapshot: Status, target: Status)
    | Judge(run: RunId, decision: Decision, requested: Option<ArtifactId>, hash: Option<Digest>, local: int)
    | Advance(claim: Claim, snapshot: Status, reply: Reply)
    | AuthorisePost(claim: Claim)

  // ------------------------------------------------------------------- helpers

  function NamedArtifact(w: World, run: RunId): Option<ArtifactId> {
    if run in w.results then w.results[run].artifact else None
  }

  /** SELECT by idempotency key, which joins the run id and the patch hash. */
  function Lookup(w: World, a: Artifact, run: RunId): Option<Effect> {
    if run in w.effects && w.effects[run].hash == a.hash then Some(w.effects[run]) else None
  }

  function Enter(w: World, c: Claim, stage: Stage): World {
    w.(procs := w.procs[c := Resuming(stage)])
  }

  predicate Holds(w: World, c: Claim) {
    Fenced(w.db.rows, c, w.db.clock)
  }

  /** A commit made under the fence, with no change of the run row itself. */
  function Commit(cfg: Config, w: World, c: Claim): World {
    w.(db := Next(cfg, w.db, Write(c)))
  }

  predicate CanSet(w: World, c: Claim, snapshot: Status, target: Status) {
    MarkAllowed(w.db.rows, c, w.db.clock, snapshot, target)
  }

  function SetStatus(cfg: Config, w: World, c: Claim, snapshot: Status, target: Status, finished: bool): World {
    w.(db := Next(cfg, w.db, MarkStatus(c, snapshot, target, finished)))
  }

  function WithPull(w: World, run: RunId, pull: Option<Pull>): World {
    w.(results := w.results[run := RunResult(NamedArtifact(w, run), pull)])
  }

  // ----------------------------------------------------- graph-executing claims

  /** `_resume_or_execute`: an APPROVE on record selects the resume path. */
  function DispatchStep(w: World, c: Claim): World {
    if Claimed(c) in w.db.log && c !in w.procs then
      if c.run in w.db.approvals && w.db.approvals[c.run].decision == Approve
      then Enter(w, c, Begin)
      else w.(procs := w.procs[c := Executing])
    else w
  }

  predicate ExecutingClaim(w: World, c: Claim) {
    c in w.procs && w.procs[c] == Executing && Holds(w, c)
  }

  /** Statuses the graph can end in without passing the approval interrupt. */
  const GRAPH_ENDS: set<Status> :=
    {WaitingApproval, InvestigationComplete, InsufficientEvidence, NeedsHuman, Failed}

  function FinishStep(cfg: Config, w: World, c: Claim, snapshot: Status, target: Status,
                      named: Option<ArtifactId>): World {
    if ExecutingClaim(w, c) && target in GRAPH_ENDS && CanSet(w, c, snapshot, target) then
      var w1 := SetStatus(cfg, w, c, snapshot, target, target in TERMINAL);
      w1.(results := w.results[c.run := RunResult(named, None)])
    else w
  }

  // ------------------------------------------------------------------- approval

  function JudgeStep(cfg: Config, w: World, run: RunId, decision: Decision,
                     requested: Option<ArtifactId>, hash: Option<Digest>, local: int): World
  {
    var found := ValidatedArtifact(w.tables, run, requested, NamedArtifact(w, run));
    var artifact := if found.Some? && hash.Some? && hash.value != found.value.hash then None else found;
    w.(db := Next(cfg, w.db, Decide(run, decision, artifact, local)))
  }

  // ----------------------------------------------------- resume_after_approval

  function BindApproval(w: World, c: Claim): World {
    if c.run !in w.db.approvals || w.db.approvals[c.run].decision != Approve then Enter(w, c, Stopped)
    else
      var payload := w.db.approvals[c.run].payload;
      match ValidatedArtifact(w.tables, c.run, Some(payload.artifact), NamedArtifact(w, c.run))
      case None => Enter(w, c, Stopped)
      case Some(a) => if BindingOf(a) == payload then Enter(w, c, Bound(a)) else Enter(w, c, Stopped)
  }

  /** The transaction after the SELECT of the effect row, decided on what that SELECT saw. */
  function OpenEffect(cfg: Config, w: World, c: Claim, a: Artifact, seen: Option<Effect>, snapshot: Status): World {
    if seen.Some? && seen.value.status == Completed then
      if CanSet(w, c, snapshot, Resolved)
      then WithPull(Enter(SetStatus(cfg, w, c, snapshot, Resolved, true), c, Stopped), c.run, seen.value.pull)
      else Enter(w, c, Stopped)
    else if !Holds(w, c) then Enter(w, c, Stopped)
    else if seen.None? then
      if c.run in w.effects then Enter(w, c, Stopped)  // unique index on (run_pk, effect_type)
      else Enter(Commit(cfg, w, c), c, Started(a)).(effects := w.effects[c.run := Effect(a.hash, InProgress, 1, None)])
    else if c.run !in w.effects then Enter(w, c, Stopped)
    else
      var effect := w.effects[c.run].(status := InProgress, attempts := seen.value.attempts + 1);
      Enter(Commit(cfg, w, c), c, Started(a)).(effects := w.effects[c.run := effect])
  }

  function RecordReply(cfg: Config, w: World, c: Claim, a: Artifact, reply: Reply): World {
    if !Holds(w, c) || c.run !in w.effects then Enter(w, c, Stopped)
    else
      match reply
      case Opened(pull) =>
        var effect := w.effects[c.run].(status := Completed, pull := Some(pull));
        Enter(Commit(cfg, w, c), c, Recorded(a, pull)).(
          effects := w.effects[c.run := effect], trail := w.trail + [Finalised(c, pull)])
      case Error(retryable) =>
        var effect := w.effects[c.run].(status := EffectFailed);
        Enter(Commit(cfg, w, c), c, Refused(a, retryable)).(effects := w.effects[c.run := effect])
  }

  function Authorise(cfg: Config, w: World, c: Claim, a: Artifact, stage: Stage): World {
    Enter(Commit(cfg, w, c), c, stage).(trail := w.trail + [Authorised(c, a)])
  }

  function AdvanceStep(cfg: Config, w: World, c: Claim, stage: Stage, snapshot: Status, reply: Reply): World {
    match stage
    case Begin =>
      if Holds(w, c) then Enter(w.(db := Next(cfg, w.db, MarkRunning(c))), c, Began) else Enter(w, c, Stopped)
    case Began => BindApproval(w, c)
    case Bound(a) =>
      if CanSet(w, c, snapshot, Running) then Enter(SetStatus(cfg, w, c, snapshot, Running, false), c, Marked(a))
      else Enter(w, c, Stopped)
    case Marked(a) => Enter(w, c, Selected(a, Lookup(w, a, c.run)))
    case Selected(a, seen) => OpenEffect(cfg, w, c, a, seen, snapshot)
    case Started(a) => if Holds(w, c) then Authorise(cfg, w, c, a, Calling(a)) else Enter(w, c, Stopped)
    case Calling(a) => Enter(w, c, Replied(a, reply))
    case Replied(a, answer) => RecordReply(cfg, w, c, a, answer)
    case Recorded(a, pull) =>
      if CanSet(w, c, snapshot, Resolved)
      then WithPull(Enter(SetStatus(cfg, w, c, snapshot, Resolved, true), c, Stopped), c.run, Some(pull))
      else Enter(w, c, Stopped)
    case Refused(a, retryable) =>
      if !retryable && CanSet(w, c, snapshot, Failed)
      then Enter(SetStatus(cfg, w, c, snapshot, Failed, true), c, Stopped)
      else Enter(w, c, Stopped)
    case Stopped => w
  }

  // ------------------------------------------------------------------ the world

  /** Queue actions that other steps do not already contain. */
  predicate QueueAction(a: Action) {
    a.Tick? || a.Admit? || a.ClaimNext? || a.Renew? || a.Release? || a.Retry? || a.Expire? || a.Return?
  }

  function Advanced(cfg: Config, w: World, s: Step): World {
    match s
    case Job(a) => if QueueAction(a) then w.(db := Next(cfg, w.db, a)) else w
    case Dispatch(c) => DispatchStep(w, c)
    case SaveTest(c, id, record) =>
      if ExecutingClaim(w, c) && id !in w.tables.tests && record.run == c.run
      then Commit(cfg, w, c).(tables := w.tables.(tests := w.tables.tests[id := record])) else w
    case SaveArtifact(c, a) =>
      if ExecutingClaim(w, c) && a.id !in w.tables.artifacts && a.run == c.run
      then Commit(cfg, w, c).(tables := w.tables.(artifacts := w.tables.artifacts[a.id := a])) else w
    case FinishRun(c, snapshot, target, named) => FinishStep(cfg, w, c, snapshot, target, named)
    case Halt(c, snapshot, target) =>
      if target in {NeedsHuman, Failed} && CanSet(w, c, snapshot, target)
      then SetStatus(cfg, w, c, snapshot, target, true) else w
    case Judge(run, decision, requested, hash, local) => JudgeStep(cfg, w, run, decision, requested, hash, local)
    case Advance(c, snapshot, reply) =>
      if c in w.procs && w.procs[c].Resuming? then AdvanceStep(cfg, w, c, w.procs[c].stage, snapshot, reply) else w
    case AuthorisePost(c) =>
      if c in w.procs && w.procs[c].Resuming? && w.procs[c].stage.Calling? && Holds(w, c)
      then Authorise(cfg, w, c, w.procs[c].stage.artifact, w.procs[c].stage) else w
  }

  function Initial(clock: int): World {
    World(Empty(clock), Tables(map[], map[]), map[], map[], map[], [])
  }

  function History(cfg: Config, w: World, steps: seq<Step>): World {
    if steps == [] then w
    else Advanced(cfg, History(cfg, w, steps[..|steps| - 1]), steps[|steps| - 1])
  }
}
