/**
  The durable job queue: rows of `agent_runs`, and one function per SQL
  transaction that workers and the API issue against them.

  `Next` is the transition function of the whole protocol. Any number of workers
  appear only as the claims they hold; a crash is a claim that is never used
  again, and a late or stale write is an action whose claim has been superseded.
*/
module Lease {
  import opened Options
  import opened RunStatus
  import opened Artifacts

  type WorkerId = string

  datatype Config = Config(leaseSeconds: nat, maxAttempts: nat, maxQueued: nat) {
    predicate Valid() {
      leaseSeconds >= 1 && maxAttempts >= 1 && maxQueued >= 1
    }
  }

  datatype Row = Row(
    status: Status,
    worker: Option<WorkerId>,
    lease: Option<int>,
    heartbeat: Option<int>,
    attempts: nat,
    nextAttempt: Option<int>,
    started: int)

  /** What `claim_next_run` hands to a worker. */
  datatype Claim = Claim(run: RunId, worker: WorkerId, attempt: nat)

  // ---------------------------------------------------------------- one row

  function NewRow(started: int): Row {
    Row(Pending, None, None, None, 0, None, started)
  }

  predicate Eligible(row: Row, now: int, maxAttempts: nat) {
    && row.attempts < maxAttempts
    && (|| (row.status == Pending && (row.nextAttempt.None? || row.nextAttempt.value <= now))
        || (row.status == Running && row.lease.Some? && row.lease.value <= now))
  }

  function ClaimRow(row: Row, worker: WorkerId, now: int, leaseSeconds: nat): Row {
    row.(status := Running, worker := Some(worker), attempts := row.attempts + 1,
         heartbeat := Some(now), lease := Some(now + leaseSeconds), nextAttempt := None)
  }

  /** The row still names this worker, and this attempt when one is given. */
  predicate Names(row: Row, worker: WorkerId, attempt: Option<nat>) {
    row.worker == Some(worker) && (attempt.Some? ==> row.attempts == attempt.value)
  }

  /** The lease is unexpired on the given clock. */
  predicate Leased(row: Row, now: int) {
    row.status == Running && row.lease.Some? && row.lease.value > now
  }

  function RenewRow(row: Row, now: int, leaseSeconds: nat): Row {
    row.(heartbeat := Some(now), lease := Some(now + leaseSeconds))
  }

  function ReleaseRow(row: Row): Row {
    row.(worker := None, lease := None, heartbeat := None)
  }

  /** A failed attempt: back to the queue, or to a human once attempts are used up. */
  function RetryRow(row: Row, maxAttempts: nat, local: int, delay: nat): Row {
    var idle := ReleaseRow(row);
    if row.attempts >= maxAttempts then idle.(status := NeedsHuman)
    else idle.(status := Pending, nextAttempt := Some(local + delay))
  }

  predicate Expirable(row: Row, now: int, maxAttempts: nat) {
    row.status == Running && row.lease.Some? && row.lease.value <= now && row.attempts >= maxAttempts
  }

  function ExpireRow(row: Row): Row {
    ReleaseRow(row).(status := NeedsHuman)
  }

  function MarkRow(row: Row, target: Status, finished: bool): Row {
    var marked := row.(status := target);
    if finished then ReleaseRow(marked) else marked
  }

  function DecideRow(row: Row, decision: Decision, local: int): Row {
    ReleaseRow(row).(status := if decision == Reject then NeedsHuman else Pending,
                     nextAttempt := if decision == Reject then None else Some(local))
  }

  // -------------------------------------------------------------- the table

  type Rows = map<RunId, Row>

  /** The conditional UPDATE of `fence`: it matches only for the claim the row names. */
  predicate Fenced(rows: Rows, c: Claim, now: int) {
    c.run in rows && Names(rows[c.run], c.worker, Some(c.attempt)) && Leased(rows[c.run], now)
  }

  /** Ownership without the clock: what a fence proves about the row. */
  predicate Owner(rows: Rows, c: Claim) {
    c.run in rows && Names(rows[c.run], c.worker, Some(c.attempt)) && rows[c.run].status == Running
  }

  function PendingRuns(rows: Rows): set<RunId> {
    set r | r in rows && rows[r].status == Pending
  }

  function NeverClaimed(rows: Rows): set<RunId> {
    set r | r in rows && rows[r].status == Pending && rows[r].attempts == 0
  }

  function ExpireRows(rows: Rows, now: int, maxAttempts: nat): Rows {
    map r | r in rows :: if Expirable(rows[r], now, maxAttempts) then ExpireRow(rows[r]) else rows[r]
  }

  // ----------------------------------------------------------- the protocol

  /** Every committed write of a worker, in commit order. */
  datatype Event = Claimed(claim: Claim) | Wrote(claim: Claim)

  /** `done` holds the claims whose execution has returned; it and `log` are history. */
  datatype Db = Db(clock: int, rows: Rows, approvals: map<RunId, Approval>, done: set<Claim>, log: seq<Event>)

  datatype Action =
    | Tick(elapsed: nat)
    | Admit(run: RunId, started: int)
    | ClaimNext(worker: WorkerId, run: RunId)
    | Renew(claim: Claim)
    | Release(claim: Claim)
    | Retry(claim: Claim, local: int, delay: nat)
    | Expire
    | MarkRunning(claim: Claim)
    | MarkStatus(claim: Claim, snapshot: Status, target: Status, finished: bool)
    | Write(claim: Claim)
    | Return(claim: Claim)
    | Decide(run: RunId, decision: Decision, artifact: Option<Artifact>, local: int)

  function Logged(db: Db, e: Event, row: Row): Db {
    db.(rows := db.rows[e.claim.run := row], log := db.log + [e])
  }

  predicate MarkAllowed(rows: Rows, c: Claim, now: int, snapshot: Status, target: Status) {
    Fenced(rows, c, now) && target in Transitions(snapshot) && rows[c.run].status == snapshot
  }

  /** Callers of `mark_status`: never PENDING, and `finished` only with a terminal status. */
  predicate CallerMark(target: Status, finished: bool) {
    target != Pending && (finished ==> target in TERMINAL)
  }

  predicate RetryAllowed(rows: Rows, c: Claim, local: int) {
    c.run in rows && Names(rows[c.run], c.worker, Some(c.attempt)) && Leased(rows[c.run], local)
  }

  predicate RenewAllowed(rows: Rows, c: Claim, now: int) {
    c.run in rows && Names(rows[c.run], c.worker, Some(c.attempt)) && Leased(rows[c.run], now)
  }

  /** The graph's last write: with any other status than RUNNING the execution is over. */
  function MarkedDb(db: Db, c: Claim, target: Status, finished: bool): Db
    requires c.run in db.rows
  {
    var marked := Logged(db, Wrote(c), MarkRow(db.rows[c.run], target, finished));
    if target == Running then marked else marked.(done := db.done + {c})
  }

  /** An issued claim whose attempt is not running any more, if it is still the latest. */
  predicate Over(rows: Rows, c: Claim) {
    && c.run in rows && 1 <= c.attempt <= rows[c.run].attempts
    && (rows[c.run].attempts == c.attempt ==> rows[c.run].status != Running)
  }

  /** The worker releases only after its execution returned. */
  predicate ReleaseAllowed(db: Db, c: Claim) {
    c in db.done && c.run in db.rows && Names(db.rows[c.run], c.worker, Some(c.attempt))
  }

  predicate DecideAllowed(db: Db, run: RunId, artifact: Option<Artifact>) {
    && artifact.Some? && run in db.rows && db.rows[run].status == WaitingApproval
    && run !in db.approvals  // the unique index on approvals.run_pk
  }

  /** A committed transaction, or the unchanged database when the transaction rolls back. */
  function Next(cfg: Config, db: Db, a: Action): Db {
    match a
    case Tick(elapsed) => db.(clock := db.clock + elapsed)
    case Admit(run, started) =>
      if run in db.rows || |PendingRuns(db.rows)| >= cfg.maxQueued then db
      else db.(rows := db.rows[run := NewRow(started)])
    case ClaimNext(worker, run) =>
      if run in db.rows && Eligible(db.rows[run], db.clock, cfg.maxAttempts) then
        var row := ClaimRow(db.rows[run], worker, db.clock, cfg.leaseSeconds);
        Logged(db, Claimed(Claim(run, worker, row.attempts)), row)
      else db
    case Renew(c) =>
      if RenewAllowed(db.rows, c, db.clock)
      then Logged(db, Wrote(c), RenewRow(db.rows[c.run], db.clock, cfg.leaseSeconds)) else db
    case Release(c) =>
      if ReleaseAllowed(db, c) then Logged(db, Wrote(c), ReleaseRow(db.rows[c.run])) else db
    case Retry(c, local, delay) =>
      if RetryAllowed(db.rows, c, local)
      then Logged(db, Wrote(c), RetryRow(db.rows[c.run], cfg.maxAttempts, local, delay)) else db
    case Expire => db.(rows := ExpireRows(db.rows, db.clock, cfg.maxAttempts))
    case MarkRunning(c) =>
      if Fenced(db.rows, c, db.clock) then Logged(db, Wrote(c), db.rows[c.run].(status := Running)) else db
    case MarkStatus(c, snapshot, target, finished) =>
      if CallerMark(target, finished) && MarkAllowed(db.rows, c, db.clock, snapshot, target)
      then MarkedDb(db, c, target, finished) else db
    case Write(c) =>
      if Fenced(db.rows, c, db.clock) then Logged(db, Wrote(c), db.rows[c.run]) else db
    case Return(c) =>
      // `Worker` proves that every execution which returns finds this guard true.
      if Over(db.rows, c) then db.(done := db.done + {c}) else db
    case Decide(run, decision, artifact, local) =>
      if DecideAllowed(db, run, artifact) then
        db.(rows := db.rows[run := DecideRow(db.rows[run], decision, local)],
            approvals := db.approvals[run := Approval(decision, BindingOf(artifact.value))])
      else db
  }

  function Empty(clock: int): Db {
    Db(clock, map[], map[], {}, [])
  }

  function Run(cfg: Config, db: Db, actions: seq<Action>): Db {
    if actions == [] then db
    else Next(cfg, Run(cfg, db, actions[..|actions| - 1]), actions[|actions| - 1])
  }
}
