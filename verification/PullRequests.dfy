/**
  Control plane and GitHub together: the call that `resume_after_approval` makes is a call
  of `Remote`, and the reply it goes on with is that call's own result.

  `Site` is GitHub as seen from the branch of one run. A claim enters the call from the
  stage before it, sends its requests in any interleaving with everybody else's, and
  receives a reply only once its call has stopped.
*/
module PullRequests {
  import opened Options
  import opened RunStatus
  import opened Patches
  import opened Artifacts
  import Lease
  import Ledger
  import LedgerSafety
  import Remote
  import RemoteSafety

  datatype Site = Site(artifact: Artifact, world: Remote.World)

  datatype World = World(ledger: Ledger.World, sites: map<RunId, Site>)

  datatype Step =
    | Control(step: Ledger.Step)
    | EnterCall(claim: Lease.Claim, repo: Remote.Repository)
    | OnGitHub(run: RunId, event: Remote.Step)
    | Receive(claim: Lease.Claim)

  /** `ids` numbers the commits that have a name in the repository. */
  type CommitIds = map<string, Remote.Sha>

  function JobOf(ids: CommitIds, a: Artifact): Remote.Job {
    Remote.Job(if a.base.Commit? && a.base.sha in ids then Some(ids[a.base.sha]) else None, a.diff)
  }

  /** The run names the branch, and with the number the address of the pull request. */
  function Address(run: RunId, number: nat): Ledger.Pull {
    Ledger.Pull(number, run)
  }

  function ReplyOf(run: RunId, s: Remote.Stage): Ledger.Reply
    requires Remote.Stopped(s)
  {
    match s
    case Succeeded(pull, _, _, _) => Ledger.Opened(Address(run, pull.number))
    case CallFailed(retryable) => Ledger.Error(retryable)
  }

  predicate StandsAt(w: World, c: Lease.Claim) {
    c in w.ledger.procs && w.ledger.procs[c].Resuming?
  }

  predicate InCall(w: World, c: Lease.Claim) {
    StandsAt(w, c) && w.ledger.procs[c].stage.Calling?
  }

  function FreshSite(repo: Remote.Repository): Remote.World {
    Remote.World(repo, map[], 0, 0)
  }

  /** The site of the run, or a new one whose branch does not exist yet. */
  function SiteFor(ids: CommitIds, w: World, run: RunId, a: Artifact, repo: Remote.Repository): Option<Site> {
    if run in w.sites then Some(w.sites[run])
    else if Remote.Pristine(JobOf(ids, a), FreshSite(repo)) then Some(Site(a, FreshSite(repo)))
    else None
  }

  function OnSite(ids: CommitIds, site: Site, s: Remote.Step): Site {
    site.(world := Remote.Advanced(JobOf(ids, site.artifact), site.world, s))
  }

  /** The ledger's step from `Started`: one more fence, and the call begins. */
  function Entered(cfg: Lease.Config, w: Ledger.World, c: Lease.Claim, a: Artifact): Ledger.World {
    if Ledger.Holds(w, c) then Ledger.Authorise(cfg, w, c, a, Ledger.Calling(a)) else Ledger.Enter(w, c, Ledger.Stopped)
  }

  /** The ledger's step from `Calling`: the reply is in. */
  function Received(w: Ledger.World, c: Lease.Claim, a: Artifact, reply: Ledger.Reply): Ledger.World {
    Ledger.Enter(w, c, Ledger.Replied(a, reply))
  }

  function Enter(cfg: Lease.Config, ids: CommitIds, w: World, c: Lease.Claim, repo: Remote.Repository): World {
    if !(StandsAt(w, c) && w.ledger.procs[c].stage.Started?) then w
    else
      var a := w.ledger.procs[c].stage.artifact;
      match SiteFor(ids, w, c.run, a, repo)
      case None => w
      case Some(site) =>
        World(Entered(cfg, w.ledger, c, a), w.sites[c.run := OnSite(ids, site, Remote.StartCall(c.attempt))])
  }

  predicate CallStopped(w: World, c: Lease.Claim) {
    && c.run in w.sites && c.attempt in w.sites[c.run].world.calls
    && Remote.Stopped(w.sites[c.run].world.calls[c.attempt])
  }

  /** Requests are sent by claims that are in their call; other people do what they like. */
  predicate Allowed(w: World, run: RunId, event: Remote.Step) {
    match event
    case StartCall(_) => false
    case Request(call, _, _) => exists c :: c in w.ledger.procs && c.run == run && c.attempt == call && InCall(w, c)
    case _ => true
  }

  /** The step around the call is taken here, so that its reply cannot be made up. */
  predicate AroundCall(w: World, s: Ledger.Step) {
    && s.Advance? && StandsAt(w, s.claim)
    && (w.ledger.procs[s.claim].stage.Started? || w.ledger.procs[s.claim].stage.Calling?)
  }

  function Advanced(cfg: Lease.Config, ids: CommitIds, w: World, s: Step): World {
    match s
    case Control(step) =>
      if AroundCall(w, step) then w else w.(ledger := Ledger.Advanced(cfg, w.ledger, step))
    case EnterCall(c, repo) => Enter(cfg, ids, w, c, repo)
    case OnGitHub(run, event) =>
      if run in w.sites && Allowed(w, run, event)
      then w.(sites := w.sites[run := OnSite(ids, w.sites[run], event)]) else w
    case Receive(c) =>
      if InCall(w, c) && CallStopped(w, c) then
        var reply := ReplyOf(c.run, w.sites[c.run].world.calls[c.attempt]);
        w.(ledger := Received(w.ledger, c, w.ledger.procs[c].stage.artifact, reply))
      else w
  }

  function Initial(clock: int): World {
    World(Ledger.Initial(clock), map[])
  }

  function History(cfg: Lease.Config, ids: CommitIds, w: World, steps: seq<Step>): World {
    if steps == [] then w
    else Advanced(cfg, ids, History(cfg, ids, w, steps[..|steps| - 1]), steps[|steps| - 1])
  }

  // ------------------------------------------------ where pull requests come from

  /** The pull request a process carries. */
  function PullOf(p: Ledger.Proc): Option<Ledger.Pull> {
    match p
    case Executing => None
    case Resuming(stage) =>
      match stage
      case Replied(_, reply) => if reply.Opened? then Some(reply.pull) else None
      case Recorded(_, pull) => Some(pull)
      case _ => None
  }

  lemma StagePull(cfg: Lease.Config, w: Ledger.World, c: Lease.Claim, stage: Ledger.Stage, snapshot: Status,
                  reply: Ledger.Reply)
    requires c in w.procs && w.procs[c] == Ledger.Resuming(stage)
    ensures var w' := Ledger.AdvanceStep(cfg, w, c, stage, snapshot, reply);
            c in w'.procs && (PullOf(w'.procs[c]).Some? ==>
              PullOf(w'.procs[c]) == PullOf(w.procs[c])
              || (stage.Calling? && reply == Ledger.Opened(PullOf(w'.procs[c]).value)))
  {
    LedgerSafety.AdvanceMovesOne(cfg, w, c, stage, snapshot, reply);
    if stage.Selected? {
      LedgerSafety.OpenEffectResult(cfg, w, c, stage.artifact, stage.seen, snapshot);
    } else if stage.Replied? {
      LedgerSafety.RecordReplyResult(cfg, w, c, stage.artifact, stage.reply);
    }
  }

  /** A process carries a pull request only from the reply of its own call on. */
  lemma PullOrigin(cfg: Lease.Config, w: Ledger.World, s: Ledger.Step, c: Lease.Claim)
    requires c in Ledger.Advanced(cfg, w, s).procs && PullOf(Ledger.Advanced(cfg, w, s).procs[c]).Some?
    ensures var pull := PullOf(Ledger.Advanced(cfg, w, s).procs[c]);
            || (c in w.procs && PullOf(w.procs[c]) == pull)
            || (s.Advance? && s.claim == c && c in w.procs && w.procs[c].Resuming? && w.procs[c].stage.Calling?
                && s.reply == Ledger.Opened(pull.value))
  {
    var w' := Ledger.Advanced(cfg, w, s);
    if c !in w.procs || w'.procs[c] != w.procs[c] {
      LedgerSafety.OnlyStepperMoves(cfg, w, s, c);
      if s.Advance? {
        StagePull(cfg, w, c, w.procs[c].stage, s.snapshot, s.reply);
      }
    }
  }

  lemma OpeningCompletesNothing(
    cfg: Lease.Config, w: Ledger.World, c: Lease.Claim, a: Artifact, seen: Option<Ledger.Effect>, snapshot: Status)
    requires LedgerSafety.EffectDone(Ledger.OpenEffect(cfg, w, c, a, seen, snapshot), c.run)
    ensures LedgerSafety.EffectDone(w, c.run) && Ledger.OpenEffect(cfg, w, c, a, seen, snapshot).effects == w.effects
  {
  }

  lemma RecordingCompletes(cfg: Lease.Config, w: Ledger.World, c: Lease.Claim, a: Artifact, reply: Ledger.Reply)
    requires LedgerSafety.EffectDone(Ledger.RecordReply(cfg, w, c, a, reply), c.run)
             && !LedgerSafety.EffectDone(w, c.run)
    ensures reply.Opened? && Ledger.RecordReply(cfg, w, c, a, reply).effects[c.run].pull == Some(reply.pull)
  {
  }

  /** An effect is completed only with the pull request its process carried. */
  lemma EffectOrigin(cfg: Lease.Config, w: Ledger.World, s: Ledger.Step, r: RunId)
    requires LedgerSafety.Inv(cfg, w)
    requires LedgerSafety.EffectDone(Ledger.Advanced(cfg, w, s), r) && !LedgerSafety.EffectDone(w, r)
    ensures s.Advance? && s.claim.run == r && s.claim in w.procs && PullOf(w.procs[s.claim]).Some?
    ensures Ledger.Advanced(cfg, w, s).effects[r].pull == PullOf(w.procs[s.claim])
  {
    LedgerSafety.EffectsOnlyByOwner(cfg, w, s);
    var c := s.claim;
    var stage := w.procs[c].stage;
    if stage.Selected? {
      OpeningCompletesNothing(cfg, w, c, stage.artifact, stage.seen, s.snapshot);
    } else if stage.Replied? {
      RecordingCompletes(cfg, w, c, stage.artifact, stage.reply);
    } else {
      LedgerSafety.OtherStagesKeepEffects(cfg, w, c, stage, s.snapshot, s.reply);
    }
  }

  // ------------------------------------------------------------------- invariants

  /** The pull request is there, on the branch head. */
  ghost predicate OnHead(site: Site, pull: Ledger.Pull) {
    var repo := site.world.repo;
    repo.ref.Some? && pull.number < |repo.pulls| && repo.pulls[pull.number].head == repo.ref.value
  }

  ghost predicate Known(w: World, run: RunId, pull: Ledger.Pull) {
    run in w.sites && OnHead(w.sites[run], pull)
  }

  ghost predicate SiteOk(ids: CommitIds, ledger: Ledger.World, run: RunId, site: Site) {
    && RemoteSafety.Inv(JobOf(ids, site.artifact), site.world)
    && LedgerSafety.ApprovedArtifact(ledger, run, site.artifact)
  }

  ghost predicate SitesOk(ids: CommitIds, ledger: Ledger.World, sites: map<RunId, Site>) {
    forall r :: r in sites ==> SiteOk(ids, ledger, r, sites[r])
  }

  /** Whatever a process carries or a completed effect records is there. */
  ghost predicate PullsKnown(w: World) {
    && (forall c :: c in w.ledger.procs && PullOf(w.ledger.procs[c]).Some? ==>
          Known(w, c.run, PullOf(w.ledger.procs[c]).value))
    && (forall r :: LedgerSafety.EffectDone(w.ledger, r) ==>
          w.ledger.effects[r].pull.Some? && Known(w, r, w.ledger.effects[r].pull.value))
  }

  ghost predicate Inv(cfg: Lease.Config, ids: CommitIds, w: World) {
    LedgerSafety.Inv(cfg, w.ledger) && SitesOk(ids, w.ledger, w.sites) && PullsKnown(w)
  }

  /** Sites stay, keep their artifact, and only evolve. */
  ghost predicate SitesEvolve(w: World, w': World) {
    forall r :: r in w.sites ==>
      && r in w'.sites && w'.sites[r].artifact == w.sites[r].artifact
      && RemoteSafety.Evolves(w.sites[r].world.repo, w'.sites[r].world.repo)
  }

  lemma KnownStays(w: World, w': World, run: RunId, pull: Ledger.Pull)
    requires Known(w, run, pull) && SitesEvolve(w, w')
    ensures Known(w', run, pull)
  {
  }

  lemma ApprovedStays(w: Ledger.World, w': Ledger.World, run: RunId, a: Artifact)
    requires LedgerSafety.ApprovedArtifact(w, run, a) && LedgerSafety.Stable(w, w')
    ensures LedgerSafety.ApprovedArtifact(w', run, a)
  {
  }

  lemma SitesStayApproved(ids: CommitIds, w: Ledger.World, w': Ledger.World, sites: map<RunId, Site>)
    requires SitesOk(ids, w, sites) && LedgerSafety.Stable(w, w')
    ensures SitesOk(ids, w', sites)
  {
    forall r | r in sites
      ensures SiteOk(ids, w', r, sites[r])
    {
      assert SiteOk(ids, w, r, sites[r]);
      ApprovedStays(w, w', r, sites[r].artifact);
    }
  }

  lemma EffectKnown(cfg: Lease.Config, w: World, w': World, s: Ledger.Step, r: RunId)
    requires LedgerSafety.Inv(cfg, w.ledger) && PullsKnown(w) && SitesEvolve(w, w')
    requires w'.ledger == Ledger.Advanced(cfg, w.ledger, s) && LedgerSafety.Stable(w.ledger, w'.ledger)
    requires LedgerSafety.EffectDone(w'.ledger, r)
    ensures w'.ledger.effects[r].pull.Some? && Known(w', r, w'.ledger.effects[r].pull.value)
  {
    if !LedgerSafety.EffectDone(w.ledger, r) {
      EffectOrigin(cfg, w.ledger, s, r);
    }
    KnownStays(w, w', r, w'.ledger.effects[r].pull.value);
  }

  lemma ProcKnown(cfg: Lease.Config, w: World, w': World, s: Ledger.Step, c: Lease.Claim)
    requires PullsKnown(w) && SitesEvolve(w, w') && w'.ledger == Ledger.Advanced(cfg, w.ledger, s)
    requires s.Advance? && InCall(w, s.claim) && s.reply.Opened? ==> Known(w, s.claim.run, s.reply.pull)
    requires c in w'.ledger.procs && PullOf(w'.ledger.procs[c]).Some?
    ensures Known(w', c.run, PullOf(w'.ledger.procs[c]).value)
  {
    PullOrigin(cfg, w.ledger, s, c);
    KnownStays(w, w', c.run, PullOf(w'.ledger.procs[c]).value);
  }

  /** Any step of the ledger, with the sites evolving beside it, as long as a reply names a known pull request. */
  lemma LedgerStepOk(cfg: Lease.Config, ids: CommitIds, w: World, w': World, s: Ledger.Step)
    requires cfg.Valid() && Inv(cfg, ids, w) && SitesEvolve(w, w') && SitesOk(ids, w.ledger, w'.sites)
    requires w'.ledger == Ledger.Advanced(cfg, w.ledger, s)
    requires s.Advance? && InCall(w, s.claim) && s.reply.Opened? ==> Known(w, s.claim.run, s.reply.pull)
    ensures Inv(cfg, ids, w')
  {
    LedgerSafety.InvPreserved(cfg, w.ledger, s);
    LedgerSafety.StepIsStable(cfg, w.ledger, s);
    SitesStayApproved(ids, w.ledger, w'.ledger, w'.sites);
    forall c | c in w'.ledger.procs && PullOf(w'.ledger.procs[c]).Some?
      ensures Known(w', c.run, PullOf(w'.ledger.procs[c]).value)
    {
      ProcKnown(cfg, w, w', s, c);
    }
    forall r | LedgerSafety.EffectDone(w'.ledger, r)
      ensures w'.ledger.effects[r].pull.Some? && Known(w', r, w'.ledger.effects[r].pull.value)
    {
      EffectKnown(cfg, w, w', s, r);
    }
  }

  /** A step on one site keeps it. */
  lemma OnSiteOk(ids: CommitIds, ledger: Ledger.World, run: RunId, site: Site, s: Remote.Step)
    requires SiteOk(ids, ledger, run, site)
    ensures SiteOk(ids, ledger, run, OnSite(ids, site, s))
    ensures OnSite(ids, site, s).artifact == site.artifact
    ensures RemoteSafety.Evolves(site.world.repo, OnSite(ids, site, s).world.repo)
  {
    RemoteSafety.InvPreserved(JobOf(ids, site.artifact), site.world, s);
    RemoteSafety.StepEvolves(JobOf(ids, site.artifact), site.world, s);
  }

  /** One site is replaced by what it became, or a new one is added. */
  lemma OneSiteMoves(ids: CommitIds, w: World, w': World, run: RunId, site: Site)
    requires SitesOk(ids, w.ledger, w.sites) && w'.sites == w.sites[run := site] && SiteOk(ids, w.ledger, run, site)
    requires run in w.sites ==>
               w.sites[run].artifact == site.artifact && RemoteSafety.Evolves(w.sites[run].world.repo, site.world.repo)
    ensures SitesEvolve(w, w') && SitesOk(ids, w.ledger, w'.sites)
  {
    forall r | r in w'.sites
      ensures SiteOk(ids, w.ledger, r, w'.sites[r])
    {
      if r != run {
        assert SiteOk(ids, w.ledger, r, w.sites[r]);
      }
    }
  }

  lemma PullsStayKnown(w: World, w': World)
    requires PullsKnown(w) && w'.ledger == w.ledger && SitesEvolve(w, w')
    ensures PullsKnown(w')
  {
    forall c | c in w.ledger.procs && PullOf(w.ledger.procs[c]).Some?
      ensures Known(w', c.run, PullOf(w.ledger.procs[c]).value)
    {
      KnownStays(w, w', c.run, PullOf(w.ledger.procs[c]).value);
    }
    forall r | LedgerSafety.EffectDone(w.ledger, r)
      ensures w.ledger.effects[r].pull.Some? && Known(w', r, w.ledger.effects[r].pull.value)
    {
      KnownStays(w, w', r, w.ledger.effects[r].pull.value);
    }
  }

  /** A step on one site, the ledger standing still. */
  lemma SiteStepOk(cfg: Lease.Config, ids: CommitIds, w: World, run: RunId, s: Remote.Step)
    requires Inv(cfg, ids, w) && run in w.sites
    ensures Inv(cfg, ids, w.(sites := w.sites[run := OnSite(ids, w.sites[run], s)]))
  {
    var w' := w.(sites := w.sites[run := OnSite(ids, w.sites[run], s)]);
    OnSiteOk(ids, w.ledger, run, w.sites[run], s);
    OneSiteMoves(ids, w, w', run, OnSite(ids, w.sites[run], s));
    PullsStayKnown(w, w');
  }

  lemma FreshSiteOk(job: Remote.Job, repo: Remote.Repository)
    requires Remote.Pristine(job, FreshSite(repo))
    ensures RemoteSafety.Inv(job, FreshSite(repo))
  {
    RemoteSafety.InvAlways(job, FreshSite(repo), []);
  }

  /** The site found or made for an approved artifact. */
  lemma FoundSiteOk(ids: CommitIds, w: World, run: RunId, a: Artifact, repo: Remote.Repository)
    requires SitesOk(ids, w.ledger, w.sites) && LedgerSafety.ApprovedArtifact(w.ledger, run, a)
    requires SiteFor(ids, w, run, a, repo).Some?
    ensures SiteOk(ids, w.ledger, run, SiteFor(ids, w, run, a, repo).value)
  {
    if run in w.sites {
      assert SiteOk(ids, w.ledger, run, w.sites[run]);
    } else {
      FreshSiteOk(JobOf(ids, a), repo);
    }
  }

  /** Entering the call: the site is that of the approved artifact. */
  lemma EnteringSite(ids: CommitIds, w: World, c: Lease.Claim, a: Artifact, repo: Remote.Repository)
    returns (site: Site)
    requires SitesOk(ids, w.ledger, w.sites) && LedgerSafety.ApprovedArtifact(w.ledger, c.run, a)
    requires SiteFor(ids, w, c.run, a, repo).Some?
    ensures site == OnSite(ids, SiteFor(ids, w, c.run, a, repo).value, Remote.StartCall(c.attempt))
    ensures SiteOk(ids, w.ledger, c.run, site)
    ensures c.run in w.sites ==>
              w.sites[c.run].artifact == site.artifact
                && RemoteSafety.Evolves(w.sites[c.run].world.repo, site.world.repo)
  {
    FoundSiteOk(ids, w, c.run, a, repo);
    OnSiteOk(ids, w.ledger, c.run, SiteFor(ids, w, c.run, a, repo).value, Remote.StartCall(c.attempt));
    site := OnSite(ids, SiteFor(ids, w, c.run, a, repo).value, Remote.StartCall(c.attempt));
  }

  lemma EnteredIsStep(cfg: Lease.Config, w: Ledger.World, c: Lease.Claim, a: Artifact)
    requires c in w.procs && w.procs[c] == Ledger.Resuming(Ledger.Started(a))
    ensures Ledger.Advanced(cfg, w, Ledger.Advance(c, Running, Ledger.Error(false))) == Entered(cfg, w, c, a)
  {
  }

  lemma ReceivedIsStep(cfg: Lease.Config, w: Ledger.World, c: Lease.Claim, a: Artifact, reply: Ledger.Reply)
    requires c in w.procs && w.procs[c] == Ledger.Resuming(Ledger.Calling(a))
    ensures Ledger.Advanced(cfg, w, Ledger.Advance(c, Running, reply)) == Received(w, c, a, reply)
  {
  }

  lemma StartedIsApproved(cfg: Lease.Config, w: Ledger.World, c: Lease.Claim)
    requires LedgerSafety.Inv(cfg, w) && c in w.procs && w.procs[c].Resuming? && w.procs[c].stage.Started?
    ensures LedgerSafety.ApprovedArtifact(w, c.run, w.procs[c].stage.artifact)
  {
    assert LedgerSafety.ProcOk(w, c, w.procs[c]);
  }

  lemma EnterIs(cfg: Lease.Config, ids: CommitIds, w: World, c: Lease.Claim, repo: Remote.Repository)
    ensures var w' := Advanced(cfg, ids, w, EnterCall(c, repo));
            || w' == w
            || (StandsAt(w, c) && w.ledger.procs[c].stage.Started?
                && var a := w.ledger.procs[c].stage.artifact;
                   SiteFor(ids, w, c.run, a, repo).Some?
                   && w' == World(Entered(cfg, w.ledger, c, a),
                                  w.sites[c.run := OnSite(ids, SiteFor(ids, w, c.run, a, repo).value,
                                                          Remote.StartCall(c.attempt))]))
  {
  }

  lemma EnterOk(cfg: Lease.Config, ids: CommitIds, w: World, c: Lease.Claim, repo: Remote.Repository)
    requires cfg.Valid() && Inv(cfg, ids, w)
    ensures Inv(cfg, ids, Advanced(cfg, ids, w, EnterCall(c, repo)))
  {
    EnterIs(cfg, ids, w, c, repo);
    if Advanced(cfg, ids, w, EnterCall(c, repo)) != w {
      StartedIsApproved(cfg, w.ledger, c);
      var site := EnteringSite(ids, w, c, w.ledger.procs[c].stage.artifact, repo);
      EnteredOk(cfg, ids, w, c, w.ledger.procs[c].stage.artifact, site);
    }
  }

  lemma EnteredOk(cfg: Lease.Config, ids: CommitIds, w: World, c: Lease.Claim, a: Artifact, site: Site)
    requires cfg.Valid() && Inv(cfg, ids, w) && SiteOk(ids, w.ledger, c.run, site)
    requires StandsAt(w, c) && w.ledger.procs[c].stage == Ledger.Started(a)
    requires c.run in w.sites ==>
               w.sites[c.run].artifact == site.artifact
                 && RemoteSafety.Evolves(w.sites[c.run].world.repo, site.world.repo)
    ensures Inv(cfg, ids, World(Entered(cfg, w.ledger, c, a), w.sites[c.run := site]))
  {
    var w' := World(Entered(cfg, w.ledger, c, a), w.sites[c.run := site]);
    OneSiteMoves(ids, w, w', c.run, site);
    EnteredIsStep(cfg, w.ledger, c, a);
    LedgerStepOk(cfg, ids, w, w', Ledger.Advance(c, Running, Ledger.Error(false)));
  }

  /** What a call that has stopped reports is there. */
  lemma ReplyIsKnown(ids: CommitIds, w: World, c: Lease.Claim)
    requires SitesOk(ids, w.ledger, w.sites) && CallStopped(w, c)
    requires ReplyOf(c.run, w.sites[c.run].world.calls[c.attempt]).Opened?
    ensures Known(w, c.run, ReplyOf(c.run, w.sites[c.run].world.calls[c.attempt]).pull)
  {
    var site := w.sites[c.run];
    var stage := site.world.calls[c.attempt];
    assert SiteOk(ids, w.ledger, c.run, site);
    assert RemoteSafety.StageOk(JobOf(ids, site.artifact), site.world.repo, stage);
    assert RemoteSafety.Listing(site.world.repo, [stage.pull]) && [stage.pull][0] == stage.pull;
  }

  /** A step that leaves the sites alone. */
  lemma ControlOk(cfg: Lease.Config, ids: CommitIds, w: World, s: Ledger.Step)
    requires cfg.Valid() && Inv(cfg, ids, w)
    requires s.Advance? && InCall(w, s.claim) && s.reply.Opened? ==> Known(w, s.claim.run, s.reply.pull)
    ensures Inv(cfg, ids, w.(ledger := Ledger.Advanced(cfg, w.ledger, s)))
  {
    LedgerStepOk(cfg, ids, w, w.(ledger := Ledger.Advanced(cfg, w.ledger, s)), s);
  }

  lemma ReceiveIs(cfg: Lease.Config, ids: CommitIds, w: World, c: Lease.Claim)
    ensures var w' := Advanced(cfg, ids, w, Receive(c));
            || w' == w
            || (InCall(w, c) && CallStopped(w, c)
                && var reply := ReplyOf(c.run, w.sites[c.run].world.calls[c.attempt]);
                   w' == w.(ledger := Ledger.Advanced(cfg, w.ledger, Ledger.Advance(c, Running, reply))))
  {
    if InCall(w, c) && CallStopped(w, c) {
      var reply := ReplyOf(c.run, w.sites[c.run].world.calls[c.attempt]);
      ReceivedIsStep(cfg, w.ledger, c, w.ledger.procs[c].stage.artifact, reply);
    }
  }

  lemma ReceiveOk(cfg: Lease.Config, ids: CommitIds, w: World, c: Lease.Claim)
    requires cfg.Valid() && Inv(cfg, ids, w)
    ensures Inv(cfg, ids, Advanced(cfg, ids, w, Receive(c)))
  {
    ReceiveIs(cfg, ids, w, c);
    if Advanced(cfg, ids, w, Receive(c)) != w {
      var reply := ReplyOf(c.run, w.sites[c.run].world.calls[c.attempt]);
      if reply.Opened? {
        ReplyIsKnown(ids, w, c);
      }
      ControlOk(cfg, ids, w, Ledger.Advance(c, Running, reply));
    }
  }

  lemma ControlIs(cfg: Lease.Config, ids: CommitIds, w: World, step: Ledger.Step)
    ensures Advanced(cfg, ids, w, Control(step))
            == if AroundCall(w, step) then w else w.(ledger := Ledger.Advanced(cfg, w.ledger, step))
    ensures !AroundCall(w, step) ==> !(step.Advance? && InCall(w, step.claim))
  {
  }

  lemma ControlStepOk(cfg: Lease.Config, ids: CommitIds, w: World, step: Ledger.Step)
    requires cfg.Valid() && Inv(cfg, ids, w)
    ensures Inv(cfg, ids, Advanced(cfg, ids, w, Control(step)))
  {
    ControlIs(cfg, ids, w, step);
    if !AroundCall(w, step) {
      ControlOk(cfg, ids, w, step);
    }
  }

  lemma GitHubStepIs(cfg: Lease.Config, ids: CommitIds, w: World, run: RunId, event: Remote.Step)
    ensures var w' := Advanced(cfg, ids, w, OnGitHub(run, event));
            w' == w || (run in w.sites && w' == w.(sites := w.sites[run := OnSite(ids, w.sites[run], event)]))
  {
  }

  lemma GitHubStepOk(cfg: Lease.Config, ids: CommitIds, w: World, run: RunId, event: Remote.Step)
    requires Inv(cfg, ids, w)
    ensures Inv(cfg, ids, Advanced(cfg, ids, w, OnGitHub(run, event)))
  {
    GitHubStepIs(cfg, ids, w, run, event);
    if Advanced(cfg, ids, w, OnGitHub(run, event)) != w {
      SiteStepOk(cfg, ids, w, run, event);
    }
  }

  lemma InvPreserved(cfg: Lease.Config, ids: CommitIds, w: World, s: Step)
    requires cfg.Valid() && Inv(cfg, ids, w)
    ensures Inv(cfg, ids, Advanced(cfg, ids, w, s))
  {
    match s
    case Control(step) => ControlStepOk(cfg, ids, w, step);
    case EnterCall(c, repo) => EnterOk(cfg, ids, w, c, repo);
    case Receive(c) => ReceiveOk(cfg, ids, w, c);
    case OnGitHub(run, event) => GitHubStepOk(cfg, ids, w, run, event);
  }

  lemma {:induction false} InvAlways(cfg: Lease.Config, ids: CommitIds, clock: int, steps: seq<Step>)
    requires cfg.Valid()
    ensures Inv(cfg, ids, History(cfg, ids, Initial(clock), steps))
  {
    if steps == [] {
      LedgerSafety.InvAlways(cfg, clock, []);
    } else {
      InvAlways(cfg, ids, clock, steps[..|steps| - 1]);
      InvPreserved(cfg, ids, History(cfg, ids, Initial(clock), steps[..|steps| - 1]), steps[|steps| - 1]);
    }
  }

  // --------------------------------------------------------------------- theorem

  /**
    What RESOLVED means on GitHub. Over every interleaving of workers, approvals, overlapping
    and interrupted calls, and other people: a RESOLVED run records a pull request that
    exists, on a branch whose head carries exactly the base tree plus the patch that was
    approved and tested, with the approved base as its only parent; and no more pull
    requests exist there than one and those closed by hand.
  */
  lemma ResolvedMeansPullRequest(cfg: Lease.Config, ids: CommitIds, clock: int, steps: seq<Step>, r: RunId)
    requires cfg.Valid()
    requires var w := History(cfg, ids, Initial(clock), steps);
             r in w.ledger.db.rows && w.ledger.db.rows[r].status == Resolved
    ensures var w := History(cfg, ids, Initial(clock), steps);
            && r in w.sites && r in w.ledger.results && w.ledger.results[r].pull.Some?
            && Delivered(ids, w, r, w.sites[r].artifact, w.ledger.results[r].pull.value)
  {
    InvAlways(cfg, ids, clock, steps);
    var w := History(cfg, ids, Initial(clock), steps);
    assert LedgerSafety.StatusOk(w.ledger, r) && LedgerSafety.EffectDone(w.ledger, r);
    assert SiteOk(ids, w.ledger, r, w.sites[r]);
  }

  /** The approved, tested artifact, and its pull request on GitHub. */
  ghost predicate Delivered(ids: CommitIds, w: World, r: RunId, a: Artifact, pull: Ledger.Pull)
    requires r in w.sites
  {
    var repo := w.sites[r].world.repo;
    && r in w.ledger.db.approvals && w.ledger.db.approvals[r] == Approval(Approve, BindingOf(a))
    && TestSupports(w.ledger.tables, r, a)
    && repo.ref.Some? && pull.number < |repo.pulls| && repo.pulls[pull.number].head == repo.ref.value
    && RemoteSafety.IsApprovedCommit(JobOf(ids, a), repo, repo.ref.value)
    && |repo.pulls| <= 1 + w.sites[r].world.closed
  }
}
