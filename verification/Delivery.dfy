/**
  What an undisturbed resume achieves on GitHub: after any history of `PullRequests`, the
  recovered run ends RESOLVED exactly when it can.
*/
module Delivery {
  import opened Options
  import opened RunStatus
  import opened Artifacts
  import Lease
  import LeaseSafety
  import Ledger
  import LedgerSafety
  import opened ApprovalOutcome
  import Remote
  import RemoteSafety
  import RemoteTheorems
  import opened PullRequests

  // ------------------------------------------------------- calls are never reused

  /** The claim has entered its call, and may have left it. */
  predicate Called(p: Ledger.Proc) {
    p.Resuming?
    && (p.stage.Calling? || p.stage.Replied? || p.stage.Recorded? || p.stage.Refused? || p.stage.Stopped?)
  }

  ghost predicate CalledBy(procs: map<Lease.Claim, Ledger.Proc>, run: RunId, call: nat) {
    exists c :: c in procs && c.run == run && c.attempt == call && Called(procs[c])
  }

  /** Every call on a site was entered by a claim of that run and attempt. */
  ghost predicate CallsOk(w: World) {
    forall r, call :: r in w.sites && call in w.sites[r].world.calls ==> CalledBy(w.ledger.procs, r, call)
  }

  /** Claims that have entered their call stay so. */
  ghost predicate CalledStay(procs: map<Lease.Claim, Ledger.Proc>, procs': map<Lease.Claim, Ledger.Proc>) {
    forall c :: c in procs && Called(procs[c]) ==> c in procs' && Called(procs'[c])
  }

  lemma StageStaysCalled(cfg: Lease.Config, w: Ledger.World, c: Lease.Claim, stage: Ledger.Stage, snapshot: Status,
                         reply: Ledger.Reply)
    requires c in w.procs && w.procs[c] == Ledger.Resuming(stage) && Called(w.procs[c])
    ensures var w' := Ledger.AdvanceStep(cfg, w, c, stage, snapshot, reply); c in w'.procs && Called(w'.procs[c])
  {
    LedgerSafety.AdvanceMovesOne(cfg, w, c, stage, snapshot, reply);
    if stage.Replied? {
      LedgerSafety.RecordReplyResult(cfg, w, c, stage.artifact, stage.reply);
    }
  }

  lemma ProcsStay(cfg: Lease.Config, w: Ledger.World, s: Ledger.Step)
    ensures w.procs.Keys <= Ledger.Advanced(cfg, w, s).procs.Keys
  {
    if s.Advance? && s.claim in w.procs && w.procs[s.claim].Resuming? {
      LedgerSafety.AdvanceMovesOne(cfg, w, s.claim, w.procs[s.claim].stage, s.snapshot, s.reply);
    }
  }

  lemma StepStaysCalled(cfg: Lease.Config, w: Ledger.World, s: Ledger.Step)
    ensures CalledStay(w.procs, Ledger.Advanced(cfg, w, s).procs)
  {
    var w' := Ledger.Advanced(cfg, w, s);
    ProcsStay(cfg, w, s);
    forall c | c in w.procs && Called(w.procs[c])
      ensures c in w'.procs && Called(w'.procs[c])
    {
      if w'.procs[c] != w.procs[c] {
        LedgerSafety.OnlyStepperMoves(cfg, w, s, c);
        StageStaysCalled(cfg, w, c, w.procs[c].stage, s.snapshot, s.reply);
      }
    }
  }

  /** The claims go on, and no site gains a call. */
  lemma CallsStayOk(w: World, w': World)
    requires CallsOk(w) && CalledStay(w.ledger.procs, w'.ledger.procs)
    requires forall r, call :: r in w'.sites && call in w'.sites[r].world.calls ==>
               CalledBy(w'.ledger.procs, r, call) || (r in w.sites && call in w.sites[r].world.calls)
    ensures CallsOk(w')
  {
    forall r, call | r in w'.sites && call in w'.sites[r].world.calls
      ensures CalledBy(w'.ledger.procs, r, call)
    {
      if r in w.sites && call in w.sites[r].world.calls {
        var c :| c in w.ledger.procs && c.run == r && c.attempt == call && Called(w.ledger.procs[c]);
        assert c in w'.ledger.procs && Called(w'.ledger.procs[c]);
      }
    }
  }

  lemma EnteredCalled(cfg: Lease.Config, w: Ledger.World, c: Lease.Claim, a: Artifact)
    ensures var w' := Entered(cfg, w, c, a); c in w'.procs && Called(w'.procs[c])
  {
  }

  lemma EnterKeepsCalls(cfg: Lease.Config, ids: CommitIds, w: World, c: Lease.Claim, repo: Remote.Repository)
    requires CallsOk(w)
    ensures CallsOk(Advanced(cfg, ids, w, EnterCall(c, repo)))
  {
    var w' := Advanced(cfg, ids, w, EnterCall(c, repo));
    EnterIs(cfg, ids, w, c, repo);
    if w' != w {
      var a := w.ledger.procs[c].stage.artifact;
      EnteredIsStep(cfg, w.ledger, c, a);
      StepStaysCalled(cfg, w.ledger, Ledger.Advance(c, Running, Ledger.Error(false)));
      EnteredCalled(cfg, w.ledger, c, a);
      assert CalledBy(w'.ledger.procs, c.run, c.attempt);
      CallsStayOk(w, w');
    }
  }

  /** Nobody else's step starts a call. */
  lemma NoNewCall(ids: CommitIds, site: Site, s: Remote.Step)
    requires !s.StartCall?
    ensures OnSite(ids, site, s).world.calls.Keys == site.world.calls.Keys
  {
  }

  lemma GitHubKeepsCalls(cfg: Lease.Config, ids: CommitIds, w: World, run: RunId, event: Remote.Step)
    requires CallsOk(w)
    ensures CallsOk(Advanced(cfg, ids, w, OnGitHub(run, event)))
  {
    GitHubStepIs(cfg, ids, w, run, event);
    var w' := Advanced(cfg, ids, w, OnGitHub(run, event));
    if w' != w {
      NoNewCall(ids, w.sites[run], event);
      CallsStayOk(w, w');
    }
  }

  lemma LedgerKeepsCalls(cfg: Lease.Config, w: World, s: Ledger.Step)
    requires CallsOk(w)
    ensures CallsOk(w.(ledger := Ledger.Advanced(cfg, w.ledger, s)))
  {
    StepStaysCalled(cfg, w.ledger, s);
    CallsStayOk(w, w.(ledger := Ledger.Advanced(cfg, w.ledger, s)));
  }

  lemma CallsPreserved(cfg: Lease.Config, ids: CommitIds, w: World, s: Step)
    requires CallsOk(w)
    ensures CallsOk(Advanced(cfg, ids, w, s))
  {
    match s
    case Control(step) =>
      if !AroundCall(w, step) {
        LedgerKeepsCalls(cfg, w, step);
      }
    case EnterCall(c, repo) => EnterKeepsCalls(cfg, ids, w, c, repo);
    case OnGitHub(run, event) => GitHubKeepsCalls(cfg, ids, w, run, event);
    case Receive(c) =>
      ReceiveIs(cfg, ids, w, c);
      if Advanced(cfg, ids, w, s) != w {
        LedgerKeepsCalls(cfg, w, Ledger.Advance(c, Running, ReplyOf(c.run, w.sites[c.run].world.calls[c.attempt])));
      }
  }

  lemma {:induction false} CallsAlways(cfg: Lease.Config, ids: CommitIds, clock: int, steps: seq<Step>)
    ensures CallsOk(History(cfg, ids, Initial(clock), steps))
  {
    if steps != [] {
      CallsAlways(cfg, ids, clock, steps[..|steps| - 1]);
      CallsPreserved(cfg, ids, History(cfg, ids, Initial(clock), steps[..|steps| - 1]), steps[|steps| - 1]);
    }
  }

  /** An attempt of a run is issued once. */
  lemma OneClaimPerAttempt(db: Lease.Db, c: Lease.Claim, d: Lease.Claim)
    requires LeaseSafety.Ordered(db.log) && Lease.Claimed(c) in db.log && Lease.Claimed(d) in db.log
    requires c.run == d.run && c.attempt == d.attempt
    ensures c == d
  {
    var i :| 0 <= i < |db.log| && db.log[i] == Lease.Claimed(c);
    var j :| 0 <= j < |db.log| && db.log[j] == Lease.Claimed(d);
    assert i < j ==> LeaseSafety.InOrder(db.log[i], db.log[j]);
    assert j < i ==> LeaseSafety.InOrder(db.log[j], db.log[i]);
  }

  /** So a claim that has not entered its call finds its call number unused. */
  lemma CallIsNew(cfg: Lease.Config, w: World, c: Lease.Claim)
    requires LedgerSafety.Inv(cfg, w.ledger) && CallsOk(w) && c in w.ledger.procs && !Called(w.ledger.procs[c])
    requires c.run in w.sites
    ensures c.attempt !in w.sites[c.run].world.calls
  {
    if c.attempt in w.sites[c.run].world.calls {
      assert CalledBy(w.ledger.procs, c.run, c.attempt);
      var d :| d in w.ledger.procs && d.run == c.run && d.attempt == c.attempt && Called(w.ledger.procs[d]);
      assert LedgerSafety.ProcOk(w.ledger, c, w.ledger.procs[c]);
      assert LedgerSafety.ProcOk(w.ledger, d, w.ledger.procs[d]);
      OneClaimPerAttempt(w.ledger.db, c, d);
    }
  }

  // ------------------------------------------------------------- undisturbed steps

  /** One commit of the resume. */
  function Stage(c: Lease.Claim): Step {
    Control(Ledger.Advance(c, Running, Ledger.Error(false)))
  }

  function Send(c: Lease.Claim): Step {
    OnGitHub(c.run, Remote.Request(c.attempt, Remote.Delivered, false))
  }

  function Repeat(s: Step, n: nat): seq<Step> {
    if n == 0 then [] else Repeat(s, n - 1) + [s]
  }

  lemma OnceMore(cfg: Lease.Config, ids: CommitIds, w: World, s: Step, n: nat)
    ensures History(cfg, ids, w, Repeat(s, n + 1)) == Advanced(cfg, ids, History(cfg, ids, w, Repeat(s, n)), s)
  {
    assert Repeat(s, n + 1)[..|Repeat(s, n + 1)| - 1] == Repeat(s, n);
  }

  lemma {:induction false} Joined(cfg: Lease.Config, ids: CommitIds, w: World, first: seq<Step>, second: seq<Step>)
    ensures History(cfg, ids, w, first + second) == History(cfg, ids, History(cfg, ids, w, first), second)
    decreases |second|
  {
    if second == [] {
      assert first + second == first;
    } else {
      assert (first + second)[..|first + second| - 1] == first + second[..|second| - 1];
      Joined(cfg, ids, w, first, second[..|second| - 1]);
    }
  }

  lemma OneStep(cfg: Lease.Config, ids: CommitIds, w: World, s: Step)
    ensures History(cfg, ids, w, [s]) == Advanced(cfg, ids, w, s)
  {
    assert [s][..0] == [] && History(cfg, ids, w, []) == w;
  }

  /**
    The resume of one claim from its first commit to its last, nobody else acting and every
    request delivered; steps that the run does not need any more change nothing.
  */
  function Undisturbed(c: Lease.Claim, repo: Remote.Repository): seq<Step> {
    Repeat(Stage(c), 5) + ([EnterCall(c, repo)] + (Repeat(Send(c), 12) + ([Receive(c)] + Repeat(Stage(c), 2))))
  }

  /** The worlds along the way. */
  lemma Phases(cfg: Lease.Config, ids: CommitIds, w: World, c: Lease.Claim, repo: Remote.Repository)
    returns (ready: World, entered: World, answered: World, received: World)
    ensures ready == History(cfg, ids, w, Repeat(Stage(c), 5))
    ensures entered == Advanced(cfg, ids, ready, EnterCall(c, repo))
    ensures answered == History(cfg, ids, entered, Repeat(Send(c), 12))
    ensures received == Advanced(cfg, ids, answered, Receive(c))
    ensures History(cfg, ids, w, Undisturbed(c, repo)) == History(cfg, ids, received, Repeat(Stage(c), 2))
  {
    var last := Repeat(Stage(c), 2);
    var third := Repeat(Send(c), 12) + ([Receive(c)] + last);
    ready := History(cfg, ids, w, Repeat(Stage(c), 5));
    Joined(cfg, ids, w, Repeat(Stage(c), 5), [EnterCall(c, repo)] + third);
    Joined(cfg, ids, ready, [EnterCall(c, repo)], third);
    OneStep(cfg, ids, ready, EnterCall(c, repo));
    entered := Advanced(cfg, ids, ready, EnterCall(c, repo));
    Joined(cfg, ids, entered, Repeat(Send(c), 12), [Receive(c)] + last);
    answered := History(cfg, ids, entered, Repeat(Send(c), 12));
    Joined(cfg, ids, answered, [Receive(c)], last);
    OneStep(cfg, ids, answered, Receive(c));
    received := Advanced(cfg, ids, answered, Receive(c));
  }

  // --------------------------------------------------------------- up to the call

  predicate At(w: World, c: Lease.Claim, stage: Ledger.Stage) {
    c in w.ledger.procs && w.ledger.procs[c] == Ledger.Resuming(stage)
  }

  const NO_REPLY := Ledger.Error(false)

  lemma StageIs(cfg: Lease.Config, ids: CommitIds, w: World, c: Lease.Claim, stage: Ledger.Stage)
    requires At(w, c, stage) && !stage.Started? && !stage.Calling?
    ensures Advanced(cfg, ids, w, Stage(c))
            == w.(ledger := Ledger.AdvanceStep(cfg, w.ledger, c, stage, Running, NO_REPLY))
  {
  }

  /** After `n` such steps, one more. */
  lemma StageOn(cfg: Lease.Config, ids: CommitIds, w0: World, n: nat, w: World, c: Lease.Claim, stage: Ledger.Stage)
    returns (w': World)
    requires w == History(cfg, ids, w0, Repeat(Stage(c), n))
    requires At(w, c, stage) && !stage.Started? && !stage.Calling?
    ensures w' == History(cfg, ids, w0, Repeat(Stage(c), n + 1)) && w'.sites == w.sites
    ensures w'.ledger == Ledger.AdvanceStep(cfg, w.ledger, c, stage, Running, NO_REPLY)
  {
    OnceMore(cfg, ids, w0, Stage(c), n);
    StageIs(cfg, ids, w, c, stage);
    w' := Advanced(cfg, ids, w, Stage(c));
  }

  lemma NoneYet(cfg: Lease.Config, ids: CommitIds, w: World, s: Step)
    ensures History(cfg, ids, w, Repeat(s, 0)) == w
  {
  }

  /** The claim's own marks are on record, and the approved artifact is bound. */
  lemma UpToBound(cfg: Lease.Config, ids: CommitIds, w: World, c: Lease.Claim, a: Artifact) returns (w': World)
    requires Ledger.Holds(w.ledger, c) && At(w, c, Ledger.Begin) && LedgerSafety.ApprovedArtifact(w.ledger, c.run, a)
    ensures w' == History(cfg, ids, w, Repeat(Stage(c), 2)) && w'.sites == w.sites
    ensures Stands(w.ledger, w'.ledger, c, Ledger.Bound(a)) && Quiet(w.ledger, w'.ledger)
  {
    NoneYet(cfg, ids, w, Stage(c));
    FromBegin(cfg, w.ledger, c, NO_REPLY);
    var w1 := StageOn(cfg, ids, w, 0, w, c, Ledger.Begin);
    FromBegan(cfg, w1.ledger, c, a, NO_REPLY);
    w' := StageOn(cfg, ids, w, 1, w1, c, Ledger.Began);
  }

  /** The run is announced as RUNNING, and the effect row looked up. */
  lemma UpToSelected(cfg: Lease.Config, ids: CommitIds, w: World, c: Lease.Claim, a: Artifact) returns (w': World)
    requires Ledger.Holds(w.ledger, c) && At(w, c, Ledger.Begin) && LedgerSafety.ApprovedArtifact(w.ledger, c.run, a)
    ensures w' == History(cfg, ids, w, Repeat(Stage(c), 4)) && w'.sites == w.sites
    ensures Stands(w.ledger, w'.ledger, c, Ledger.Selected(a, Ledger.Lookup(w'.ledger, a, c.run)))
    ensures Quiet(w.ledger, w'.ledger)
  {
    var w2 := UpToBound(cfg, ids, w, c, a);
    FromBound(cfg, w2.ledger, c, a, NO_REPLY);
    var w3 := StageOn(cfg, ids, w, 2, w2, c, Ledger.Bound(a));
    FromMarked(cfg, w3.ledger, c, a, NO_REPLY);
    w' := StageOn(cfg, ids, w, 3, w3, c, Ledger.Marked(a));
  }

  /** The effect was completed by an earlier attempt: the fifth stage ends the run. */
  lemma TakesOver(cfg: Lease.Config, ids: CommitIds, w: World, c: Lease.Claim, a: Artifact) returns (w': World)
    requires Ledger.Holds(w.ledger, c) && At(w, c, Ledger.Begin) && LedgerSafety.ApprovedArtifact(w.ledger, c.run, a)
    requires LedgerSafety.EffectDone(w.ledger, c.run) && w.ledger.effects[c.run].hash == a.hash
    ensures w' == History(cfg, ids, w, Repeat(Stage(c), 5)) && Ended(w'.ledger, c, Resolved)
  {
    var w4 := UpToSelected(cfg, ids, w, c, a);
    var e := w.ledger.effects[c.run];
    FromSelectedDone(cfg, w4.ledger, c, a, e, NO_REPLY);
    w' := StageOn(cfg, ids, w, 4, w4, c, Ledger.Selected(a, Some(e)));
  }

  /** Otherwise it opens the effect row, and the claim stands before its call. */
  lemma Opens(cfg: Lease.Config, ids: CommitIds, w: World, c: Lease.Claim, a: Artifact) returns (w': World)
    requires Ledger.Holds(w.ledger, c) && At(w, c, Ledger.Begin) && LedgerSafety.ApprovedArtifact(w.ledger, c.run, a)
    requires !LedgerSafety.EffectDone(w.ledger, c.run)
    requires c.run in w.ledger.effects ==> w.ledger.effects[c.run].hash == a.hash
    ensures w' == History(cfg, ids, w, Repeat(Stage(c), 5)) && w'.sites == w.sites
    ensures Ledger.Holds(w'.ledger, c) && At(w', c, Ledger.Started(a)) && c.run in w'.ledger.effects
  {
    var w4 := UpToSelected(cfg, ids, w, c, a);
    FromSelectedOpen(cfg, w4.ledger, c, a, NO_REPLY);
    w' := StageOn(cfg, ids, w, 4, w4, c, Ledger.Selected(a, Ledger.Lookup(w4.ledger, a, c.run)));
  }

  // --------------------------------------------------------------------- the call

  /** The call is entered with its own number, which the site has not seen. */
  lemma Enters(cfg: Lease.Config, ids: CommitIds, w: World, c: Lease.Claim, a: Artifact, repo: Remote.Repository)
    returns (w': World)
    requires Ledger.Holds(w.ledger, c) && At(w, c, Ledger.Started(a)) && SiteFor(ids, w, c.run, a, repo).Some?
    requires c.run in w.sites ==> c.attempt !in w.sites[c.run].world.calls
    ensures w' == Advanced(cfg, ids, w, EnterCall(c, repo))
    ensures Ledger.Holds(w'.ledger, c) && At(w', c, Ledger.Calling(a)) && w'.ledger.effects == w.ledger.effects
    ensures var site := SiteFor(ids, w, c.run, a, repo).value;
            && c.run in w'.sites
            && w'.sites[c.run] == site.(world := site.world.(calls := site.world.calls[c.attempt := Remote.Fresh]))
  {
    EnteredIsStep(cfg, w.ledger, c, a);
    FromStarted(cfg, w.ledger, c, a, NO_REPLY);
    w' := Advanced(cfg, ids, w, EnterCall(c, repo));
  }

  /** GitHub seen from the run's branch is now `x`. */
  function WithRemote(w: World, run: RunId, x: Remote.World): World
    requires run in w.sites
  {
    w.(sites := w.sites[run := w.sites[run].(world := x)])
  }

  /** One request of a claim in its call. */
  lemma SendIs(cfg: Lease.Config, ids: CommitIds, w: World, c: Lease.Claim, x: Remote.World)
    requires InCall(w, c) && c.run in w.sites
    ensures var job := JobOf(ids, w.sites[c.run].artifact);
            Advanced(cfg, ids, WithRemote(w, c.run, x), Send(c))
            == WithRemote(w, c.run, Remote.Advanced(job, x, Remote.Request(c.attempt, Remote.Delivered, false)))
  {
    var v := WithRemote(w, c.run, x);
    assert InCall(v, c);
    assert Allowed(v, c.run, Remote.Request(c.attempt, Remote.Delivered, false));
  }

  lemma {:induction false} DriveOneMore(job: Remote.Job, w: Remote.World, call: nat, n: nat)
    ensures Remote.Advanced(job, RemoteTheorems.Drive(job, w, call, n), Remote.Request(call, Remote.Delivered, false))
            == RemoteTheorems.Drive(job, w, call, n + 1)
    decreases n
  {
    if n > 0 {
      DriveOneMore(job, Remote.Advanced(job, w, Remote.Request(call, Remote.Delivered, false)), call, n - 1);
    }
  }

  lemma SendOnceMore(cfg: Lease.Config, ids: CommitIds, w: World, c: Lease.Claim, n: nat, x: Remote.World)
    requires InCall(w, c) && c.run in w.sites && History(cfg, ids, w, Repeat(Send(c), n)) == WithRemote(w, c.run, x)
    ensures var job := JobOf(ids, w.sites[c.run].artifact);
            History(cfg, ids, w, Repeat(Send(c), n + 1))
            == WithRemote(w, c.run, Remote.Advanced(job, x, Remote.Request(c.attempt, Remote.Delivered, false)))
  {
    OnceMore(cfg, ids, w, Send(c), n);
    SendIs(cfg, ids, w, c, x);
  }

  /** `n` requests were sent, and drove the call of the run's own site. */
  ghost predicate Sent(cfg: Lease.Config, ids: CommitIds, w: World, c: Lease.Claim, n: nat, x: Remote.World) {
    && c.run in w.sites
    && x == RemoteTheorems.Drive(JobOf(ids, w.sites[c.run].artifact), w.sites[c.run].world, c.attempt, n)
    && History(cfg, ids, w, Repeat(Send(c), n)) == WithRemote(w, c.run, x)
  }

  lemma NothingSent(cfg: Lease.Config, ids: CommitIds, w: World, c: Lease.Claim)
    requires c.run in w.sites
    ensures Sent(cfg, ids, w, c, 0, w.sites[c.run].world)
  {
    NoneYet(cfg, ids, w, Send(c));
    assert w.sites[c.run := w.sites[c.run]] == w.sites;
  }

  lemma SentOneMore(cfg: Lease.Config, ids: CommitIds, w: World, c: Lease.Claim, n: nat, x: Remote.World)
    returns (x': Remote.World)
    requires InCall(w, c) && Sent(cfg, ids, w, c, n, x)
    ensures Sent(cfg, ids, w, c, n + 1, x')
  {
    SendOnceMore(cfg, ids, w, c, n, x);
    DriveOneMore(JobOf(ids, w.sites[c.run].artifact), w.sites[c.run].world, c.attempt, n);
    x' := Remote.Advanced(JobOf(ids, w.sites[c.run].artifact), x,
                          Remote.Request(c.attempt, Remote.Delivered, false));
  }

  lemma {:induction false} SendsDrive(cfg: Lease.Config, ids: CommitIds, w: World, c: Lease.Claim, n: nat)
    returns (x: Remote.World)
    requires InCall(w, c) && c.run in w.sites
    ensures Sent(cfg, ids, w, c, n, x)
    decreases n
  {
    if n == 0 {
      NothingSent(cfg, ids, w, c);
      x := w.sites[c.run].world;
    } else {
      var y := SendsDrive(cfg, ids, w, c, n - 1);
      x := SentOneMore(cfg, ids, w, c, n - 1, y);
    }
  }

  /** A new undisturbed call, from any state that a site can be in. */
  lemma NewCallEnds(job: Remote.Job, before: Remote.World, call: nat)
    requires RemoteSafety.Inv(job, before) && call !in before.calls
    ensures var w := before.(calls := before.calls[call := Remote.Fresh]);
            var end := RemoteTheorems.Drive(job, w, call, 12);
            && call in end.calls && Remote.Stopped(end.calls[call])
            && (if RemoteTheorems.Current(job, before.repo) then end.calls[call].Succeeded?
                else end.calls[call] == Remote.CallFailed(false))
  {
    var w := before.(calls := before.calls[call := Remote.Fresh]);
    RemoteSafety.InvPreserved(job, before, Remote.StartCall(call));
    assert w == Remote.Advanced(job, before, Remote.StartCall(call));
    if RemoteTheorems.Current(job, before.repo) {
      RemoteTheorems.UndisturbedCallSucceeds(job, w, call, 12);
    } else {
      RemoteTheorems.StaleCallFails(job, w, call);
    }
  }

  lemma Receives(cfg: Lease.Config, ids: CommitIds, w: World, c: Lease.Claim, a: Artifact) returns (w': World)
    requires Ledger.Holds(w.ledger, c) && At(w, c, Ledger.Calling(a)) && CallStopped(w, c)
    ensures w' == Advanced(cfg, ids, w, Receive(c)) && Ledger.Holds(w'.ledger, c)
    ensures At(w', c, Ledger.Replied(a, ReplyOf(c.run, w.sites[c.run].world.calls[c.attempt])))
    ensures w'.ledger.effects == w.ledger.effects
  {
    w' := Advanced(cfg, ids, w, Receive(c));
  }

  /** The reply is recorded and the run ended. */
  lemma Ends(cfg: Lease.Config, ids: CommitIds, w: World, c: Lease.Claim, a: Artifact, reply: Ledger.Reply)
    requires Ledger.Holds(w.ledger, c) && At(w, c, Ledger.Replied(a, reply)) && c.run in w.ledger.effects
    ensures Ended(History(cfg, ids, w, Repeat(Stage(c), 2)).ledger, c, FinalStatus(reply))
  {
    NoneYet(cfg, ids, w, Stage(c));
    RepliedIgnores(cfg, w.ledger, c, a, reply);
    FromReplied(cfg, w.ledger, c, a, reply);
    var w1 := StageOn(cfg, ids, w, 0, w, c, Ledger.Replied(a, reply));
    RecordingIgnores(cfg, w1.ledger, c, a, reply);
    FromRecording(cfg, w1.ledger, c, a, reply);
    var w2 := StageOn(cfg, ids, w, 1, w1, c, Recording(a, reply));
  }

  /** Only the stage of the call itself looks at the answer of a step. */
  lemma RepliedIgnores(cfg: Lease.Config, w: Ledger.World, c: Lease.Claim, a: Artifact, reply: Ledger.Reply)
    ensures Ledger.AdvanceStep(cfg, w, c, Ledger.Replied(a, reply), Running, NO_REPLY)
            == Ledger.AdvanceStep(cfg, w, c, Ledger.Replied(a, reply), Running, reply)
  {
  }

  lemma RecordingIgnores(cfg: Lease.Config, w: Ledger.World, c: Lease.Claim, a: Artifact, reply: Ledger.Reply)
    ensures Ledger.AdvanceStep(cfg, w, c, Recording(a, reply), Running, NO_REPLY)
            == Ledger.AdvanceStep(cfg, w, c, Recording(a, reply), Running, reply)
  {
  }

  // ---------------------------------------------------------------------- theorem

  /** GitHub as the call will find it. */
  function RepoFor(w: World, run: RunId, repo: Remote.Repository): Remote.Repository {
    if run in w.sites then w.sites[run].world.repo else repo
  }

  /** A run that has no branch on GitHub yet finds the repository untouched. */
  ghost predicate Untouched(ids: CommitIds, w: World, run: RunId, repo: Remote.Repository) {
    run !in w.sites ==>
      forall a :: LedgerSafety.ApprovedArtifact(w.ledger, run, a) ==> Remote.Pristine(JobOf(ids, a), FreshSite(repo))
  }

  lemma OneApproved(w: Ledger.World, run: RunId, a: Artifact, b: Artifact)
    requires LedgerSafety.ApprovedArtifact(w, run, a) && LedgerSafety.ApprovedArtifact(w, run, b)
    ensures a == b
  {
  }

  /** The site that the call will enter belongs to the approved artifact and is in order. */
  lemma SiteInOrder(cfg: Lease.Config, ids: CommitIds, w: World, run: RunId, a: Artifact, repo: Remote.Repository)
    requires Inv(cfg, ids, w) && LedgerSafety.ApprovedArtifact(w.ledger, run, a) && Untouched(ids, w, run, repo)
    ensures SiteFor(ids, w, run, a, repo).Some?
    ensures var site := SiteFor(ids, w, run, a, repo).value;
            && site.artifact == a && RemoteSafety.Inv(JobOf(ids, a), site.world)
            && site.world.repo == RepoFor(w, run, repo)
  {
    FoundSiteOk(ids, w, run, a, repo);
    OneApproved(w.ledger, run, a, SiteFor(ids, w, run, a, repo).value.artifact);
  }

  /** Once the run has ended, the rest of the steps leave the ledger alone. */
  lemma StoppedStep(cfg: Lease.Config, ids: CommitIds, w: World, c: Lease.Claim, s: Step)
    requires At(w, c, Ledger.Stopped) && (s == Stage(c) || s == Send(c))
    ensures Advanced(cfg, ids, w, s).ledger == w.ledger
  {
    if s == Stage(c) {
      StageIs(cfg, ids, w, c, Ledger.Stopped);
    } else {
      GitHubStepIs(cfg, ids, w, c.run, s.event);
    }
  }

  lemma {:induction false} StoppedIsQuiet(cfg: Lease.Config, ids: CommitIds, w: World, c: Lease.Claim, s: Step, n: nat)
    requires At(w, c, Ledger.Stopped) && (s == Stage(c) || s == Send(c))
    ensures History(cfg, ids, w, Repeat(s, n)).ledger == w.ledger
    decreases n
  {
    if n > 0 {
      StoppedIsQuiet(cfg, ids, w, c, s, n - 1);
      OnceMore(cfg, ids, w, s, n - 1);
      StoppedStep(cfg, ids, History(cfg, ids, w, Repeat(s, n - 1)), c, s);
    } else {
      NoneYet(cfg, ids, w, s);
    }
  }

  lemma TakeoverOutcome(cfg: Lease.Config, ids: CommitIds, w: World, c: Lease.Claim, a: Artifact,
                        repo: Remote.Repository)
    requires Ledger.Holds(w.ledger, c) && At(w, c, Ledger.Begin) && LedgerSafety.ApprovedArtifact(w.ledger, c.run, a)
    requires LedgerSafety.EffectDone(w.ledger, c.run) && w.ledger.effects[c.run].hash == a.hash
    ensures Ended(History(cfg, ids, w, Undisturbed(c, repo)).ledger, c, Resolved)
  {
    var ready, entered, answered, received := Phases(cfg, ids, w, c, repo);
    var w5 := TakesOver(cfg, ids, w, c, a);
    EnterIs(cfg, ids, ready, c, repo);
    StoppedIsQuiet(cfg, ids, entered, c, Send(c), 12);
    ReceiveIs(cfg, ids, answered, c);
    StoppedIsQuiet(cfg, ids, received, c, Stage(c), 2);
  }

  /** The call is in, and its answer known. */
  lemma CallAnswered(cfg: Lease.Config, ids: CommitIds, w: World, c: Lease.Claim, a: Artifact, repo: Remote.Repository)
    returns (w': World)
    requires Ledger.Holds(w.ledger, c) && At(w, c, Ledger.Started(a)) && SiteFor(ids, w, c.run, a, repo).Some?
    requires var site := SiteFor(ids, w, c.run, a, repo).value;
             site.artifact == a && RemoteSafety.Inv(JobOf(ids, a), site.world)
             && c.attempt !in site.world.calls
    ensures w' == History(cfg, ids, Advanced(cfg, ids, w, EnterCall(c, repo)), Repeat(Send(c), 12))
    ensures Ledger.Holds(w'.ledger, c) && At(w', c, Ledger.Calling(a)) && w'.ledger.effects == w.ledger.effects
    ensures var before := SiteFor(ids, w, c.run, a, repo).value.world.repo;
            && CallStopped(w', c)
            && (if RemoteTheorems.Current(JobOf(ids, a), before)
                then w'.sites[c.run].world.calls[c.attempt].Succeeded?
                else w'.sites[c.run].world.calls[c.attempt] == Remote.CallFailed(false))
  {
    var site := SiteFor(ids, w, c.run, a, repo).value;
    var entered := Enters(cfg, ids, w, c, a, repo);
    NewCallEnds(JobOf(ids, a), site.world, c.attempt);
    var x := SendsDrive(cfg, ids, entered, c, 12);
    w' := WithRemote(entered, c.run, x);
  }

  /** The site that the call will enter, found when the effect row is opened. */
  lemma SiteWaits(cfg: Lease.Config, ids: CommitIds, w: World, c: Lease.Claim, a: Artifact, repo: Remote.Repository)
    requires Inv(cfg, ids, w) && CallsOk(w) && At(w, c, Ledger.Begin)
    requires LedgerSafety.ApprovedArtifact(w.ledger, c.run, a) && Untouched(ids, w, c.run, repo)
    ensures SiteFor(ids, w, c.run, a, repo).Some?
    ensures var site := SiteFor(ids, w, c.run, a, repo).value;
            && site.artifact == a && RemoteSafety.Inv(JobOf(ids, a), site.world)
            && site.world.repo == RepoFor(w, c.run, repo) && c.attempt !in site.world.calls
  {
    if c.run in w.sites {
      CallIsNew(cfg, w, c);
    }
    SiteInOrder(cfg, ids, w, c.run, a, repo);
  }

  /** The claim hears the answer and writes it down. */
  lemma AnswerEnds(cfg: Lease.Config, ids: CommitIds, w: World, c: Lease.Claim, a: Artifact)
    requires Ledger.Holds(w.ledger, c) && At(w, c, Ledger.Calling(a)) && c.run in w.ledger.effects
    requires CallStopped(w, c)
    ensures var reply := ReplyOf(c.run, w.sites[c.run].world.calls[c.attempt]);
            Ended(History(cfg, ids, Advanced(cfg, ids, w, Receive(c)), Repeat(Stage(c), 2)).ledger, c,
                  FinalStatus(reply))
  {
    var received := Receives(cfg, ids, w, c, a);
    Ends(cfg, ids, received, c, a, ReplyOf(c.run, w.sites[c.run].world.calls[c.attempt]));
  }

  /** From the open effect row to the end. */
  lemma ReadyEnds(cfg: Lease.Config, ids: CommitIds, w: World, c: Lease.Claim, a: Artifact, repo: Remote.Repository)
    requires Ledger.Holds(w.ledger, c) && At(w, c, Ledger.Started(a)) && c.run in w.ledger.effects
    requires SiteFor(ids, w, c.run, a, repo).Some?
    requires var site := SiteFor(ids, w, c.run, a, repo).value;
             site.artifact == a && RemoteSafety.Inv(JobOf(ids, a), site.world)
             && c.attempt !in site.world.calls
    ensures var answered := History(cfg, ids, Advanced(cfg, ids, w, EnterCall(c, repo)), Repeat(Send(c), 12));
            var before := SiteFor(ids, w, c.run, a, repo).value.world.repo;
            Ended(History(cfg, ids, Advanced(cfg, ids, answered, Receive(c)), Repeat(Stage(c), 2)).ledger, c,
                  if RemoteTheorems.Current(JobOf(ids, a), before) then Resolved else Failed)
  {
    var answered := CallAnswered(cfg, ids, w, c, a, repo);
    AnswerEnds(cfg, ids, answered, c, a);
  }

  lemma CallOutcome(cfg: Lease.Config, ids: CommitIds, w: World, c: Lease.Claim, a: Artifact, repo: Remote.Repository)
    requires Ledger.Holds(w.ledger, c) && At(w, c, Ledger.Begin) && LedgerSafety.ApprovedArtifact(w.ledger, c.run, a)
    requires !LedgerSafety.EffectDone(w.ledger, c.run)
    requires c.run in w.ledger.effects ==> w.ledger.effects[c.run].hash == a.hash
    requires SiteFor(ids, w, c.run, a, repo).Some?
    requires var site := SiteFor(ids, w, c.run, a, repo).value;
             site.artifact == a && RemoteSafety.Inv(JobOf(ids, a), site.world)
             && c.attempt !in site.world.calls
    ensures var before := SiteFor(ids, w, c.run, a, repo).value.world.repo;
            Ended(History(cfg, ids, w, Undisturbed(c, repo)).ledger, c,
                  if RemoteTheorems.Current(JobOf(ids, a), before) then Resolved else Failed)
  {
    var ready, entered, answered, received := Phases(cfg, ids, w, c, repo);
    var w5 := Opens(cfg, ids, w, c, a);
    assert SiteFor(ids, ready, c.run, a, repo) == SiteFor(ids, w, c.run, a, repo);
    ReadyEnds(cfg, ids, ready, c, a, repo);
  }

  /**
    Recovery of an approved run, exactly. After any history of workers, approvals,
    interrupted calls and other people, a claim that holds the run and is then left alone
    ends it RESOLVED if and only if an earlier attempt completed the effect, or the base
    branch is still at the approved base and the patch applies to it; otherwise FAILED. And
    RESOLVED means that the pull request is there.
  */
  lemma UndisturbedResume(cfg: Lease.Config, ids: CommitIds, clock: int, steps: seq<Step>, c: Lease.Claim,
                          repo: Remote.Repository)
    returns (a: Artifact)
    requires cfg.Valid()
    requires var w := History(cfg, ids, Initial(clock), steps);
             At(w, c, Ledger.Begin) && Ledger.Holds(w.ledger, c) && Untouched(ids, w, c.run, repo)
    ensures var w := History(cfg, ids, Initial(clock), steps);
            var w' := History(cfg, ids, Initial(clock), steps + Undisturbed(c, repo));
            var done := LedgerSafety.EffectDone(w.ledger, c.run)
                        || RemoteTheorems.Current(JobOf(ids, a), RepoFor(w, c.run, repo));
            && LedgerSafety.ApprovedArtifact(w.ledger, c.run, a)
            && Ended(w'.ledger, c, if done then Resolved else Failed)
            && (done ==>
                  && c.run in w'.sites && c.run in w'.ledger.results && w'.ledger.results[c.run].pull.Some?
                  && Delivered(ids, w', c.run, w'.sites[c.run].artifact, w'.ledger.results[c.run].pull.value))
  {
    var w := History(cfg, ids, Initial(clock), steps);
    InvAlways(cfg, ids, clock, steps);
    CallsAlways(cfg, ids, clock, steps);
    Joined(cfg, ids, Initial(clock), steps, Undisturbed(c, repo));
    a := ApprovedAtBegin(cfg, w.ledger, c);
    if LedgerSafety.EffectDone(w.ledger, c.run) {
      TakeoverOutcome(cfg, ids, w, c, a, repo);
    } else {
      SiteWaits(cfg, ids, w, c, a, repo);
      CallOutcome(cfg, ids, w, c, a, repo);
    }
    var w' := History(cfg, ids, Initial(clock), steps + Undisturbed(c, repo));
    if w'.ledger.db.rows[c.run].status == Resolved {
      ResolvedMeansPullRequest(cfg, ids, clock, steps + Undisturbed(c, repo), c.run);
    }
  }
}
