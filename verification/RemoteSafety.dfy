/** One branch, one pull request, the approved tree: whatever interleaving and failures occur. */
module RemoteSafety {
  import opened Options
  import opened Patches
  import opened Remote

  // ---------------------------------------------------------------- invariants

  /** The tree every call has to build: the base commit's tree plus the approved patch. */
  ghost predicate IsTarget(job: Job, r: Repository, tree: Tree) {
    && job.base.Some? && job.base.value < |r.commits|
    && ApprovedTree(r.commits[job.base.value].tree, job.patch) == Some(tree)
  }

  /** A commit with exactly the approved tree and the approved base as its sole parent. */
  ghost predicate IsApprovedCommit(job: Job, r: Repository, sha: Sha) {
    && job.base.Some? && sha < |r.commits|
    && IsTarget(job, r, r.commits[sha].tree)
    && r.commits[sha].parents == [job.base.value]
  }

  /** A listing, however old: rows of pull requests that exist, with the heads they have. */
  ghost predicate Listing(r: Repository, rows: seq<PullRow>) {
    forall i :: 0 <= i < |rows| ==>
      rows[i].number < |r.pulls| && rows[i].head == r.pulls[rows[i].number].head
  }

  ghost predicate StageOk(job: Job, r: Repository, s: Stage) {
    match s
    case Fresh => true
    case Listed(existing) => Listing(r, existing)
    case BaseChecked(existing) => Listing(r, existing)
    case TreeKnown(existing, base) =>
      Listing(r, existing) && job.base.Some? && job.base.value < |r.commits| && base == r.commits[job.base.value].tree
    case TreePosted(existing, tree) => Listing(r, existing) && IsTarget(job, r, tree)
    case RefMissing(existing, tree) => Listing(r, existing) && IsTarget(job, r, tree)
    case CommitPosted(existing, tree, commit) =>
      Listing(r, existing) && IsTarget(job, r, tree) && IsApprovedCommit(job, r, commit)
    case RefPosted(existing, tree) => Listing(r, existing) && IsTarget(job, r, tree) && r.ref.Some?
    case RefKnown(existing, tree, ref) => Listing(r, existing) && IsTarget(job, r, tree) && r.ref == Some(ref)
    case HeadChecked(existing, tree, ref) => IsTarget(job, r, tree) && r.ref == Some(ref)
    case Requeried(existing, tree, ref) => Listing(r, existing) && IsTarget(job, r, tree) && r.ref == Some(ref)
    case PullRefused(tree, ref) => IsTarget(job, r, tree) && r.ref == Some(ref) && r.pulls != []
    case Succeeded(pull, tree, ref, _) =>
      Listing(r, [pull]) && IsTarget(job, r, tree) && r.ref == Some(ref) && pull.head == ref
    case CallFailed(_) => true
  }

  ghost predicate RefOk(job: Job, r: Repository) {
    r.ref.Some? ==> IsApprovedCommit(job, r, r.ref.value)
  }

  /** Numbered in order, all on the branch head, and only the newest may be open. */
  ghost predicate PullsOk(r: Repository) {
    forall i :: 0 <= i < |r.pulls| ==>
      && r.pulls[i].number == i
      && r.ref == Some(r.pulls[i].head)
      && (r.pulls[i].open ==> i == |r.pulls| - 1)
  }

  function OpenPulls(r: Repository): nat {
    if r.pulls != [] && Newest(r.pulls).open then 1 else 0
  }

  ghost predicate Inv(job: Job, w: World) {
    && (job.base.Some? ==> job.base.value < |w.repo.commits|)
    && RefOk(job, w.repo)
    && PullsOk(w.repo)
    && w.refsCreated == (if w.repo.ref.Some? then 1 else 0)
    && w.closed + OpenPulls(w.repo) == |w.repo.pulls|
    && (forall c :: c in w.calls ==> StageOk(job, w.repo, w.calls[c]))
  }

  // ------------------------------------------------------------------ evolution

  /** What any step may do to the repository. */
  ghost predicate Evolves(r: Repository, r': Repository) {
    && r.commits <= r'.commits
    && (r.ref.Some? ==> r'.ref == r.ref)
    && |r.pulls| <= |r'.pulls|
    && (forall i :: 0 <= i < |r.pulls| ==> r'.pulls[i].head == r.pulls[i].head)
  }

  lemma StageKept(job: Job, r: Repository, r': Repository, s: Stage)
    requires StageOk(job, r, s) && Evolves(r, r')
    ensures StageOk(job, r', s)
  {
  }

  lemma StepEvolves(job: Job, w: World, s: Step)
    ensures Evolves(w.repo, Advanced(job, w, s).repo)
  {
  }

  lemma EffectOk(job: Job, w: World, stage: Stage)
    requires Inv(job, w) && StageOk(job, w.repo, stage)
    ensures var r' := Effect(job, w.repo, stage);
            && RefOk(job, r') && PullsOk(r')
            && w.closed + OpenPulls(r') == |r'.pulls|
  {
    var r' := Effect(job, w.repo, stage);
    if stage.RefMissing? && job.base.Some? {
      assert forall k :: 0 <= k < |w.repo.commits| ==> r'.commits[k] == w.repo.commits[k];
    }
    if stage.Requeried? && stage.existing == [] && PullAccepted(w.repo) && w.repo.pulls != [] {
      assert !w.repo.pulls[|w.repo.pulls| - 1].open;
    }
  }

  lemma BuildingOk(job: Job, w: World, stage: Stage, truncated: bool)
    requires Inv(job, w) && StageOk(job, w.repo, stage)
    requires stage.Fresh? || stage.Listed? || stage.BaseChecked? || stage.TreeKnown? || stage.TreePosted?
    ensures StageOk(job, Effect(job, w.repo, stage), Next(job, w.repo, stage, truncated))
  {
  }

  lemma BranchingOk(job: Job, w: World, stage: Stage, truncated: bool)
    requires Inv(job, w) && StageOk(job, w.repo, stage)
    requires stage.RefMissing? || stage.CommitPosted? || stage.RefPosted? || stage.RefKnown?
    ensures StageOk(job, Effect(job, w.repo, stage), Next(job, w.repo, stage, truncated))
  {
    if stage.RefMissing? {
      var r, r' := w.repo, Effect(job, w.repo, stage);
      assert r'.commits[|r.commits|] == Snapshot(stage.tree, [job.base.value]);
      assert r'.commits[job.base.value] == r.commits[job.base.value];
    }
  }

  lemma ProposingOk(job: Job, w: World, stage: Stage, truncated: bool)
    requires Inv(job, w) && StageOk(job, w.repo, stage)
    requires stage.HeadChecked? || stage.Requeried? || stage.PullRefused? || Stopped(stage)
    ensures StageOk(job, Effect(job, w.repo, stage), Next(job, w.repo, stage, truncated))
  {
    if stage.Requeried? && stage.existing == [] && !PullAccepted(w.repo) {
      assert HasOpenPull(w.repo);
    }
  }

  lemma NextOk(job: Job, w: World, stage: Stage, truncated: bool)
    requires Inv(job, w) && StageOk(job, w.repo, stage)
    ensures StageOk(job, Effect(job, w.repo, stage), Next(job, w.repo, stage, truncated))
  {
    if stage.HeadChecked? || stage.Requeried? || stage.PullRefused? || Stopped(stage) {
      ProposingOk(job, w, stage, truncated);
    } else if stage.RefMissing? || stage.CommitPosted? || stage.RefPosted? || stage.RefKnown? {
      BranchingOk(job, w, stage, truncated);
    } else {
      BuildingOk(job, w, stage, truncated);
    }
  }

  lemma RequestOk(job: Job, w: World, call: nat, net: Net, truncated: bool)
    requires Inv(job, w) && call in w.calls && !Stopped(w.calls[call])
    ensures Inv(job, RequestStep(job, w, call, net, truncated))
  {
    var w', stage := RequestStep(job, w, call, net, truncated), w.calls[call];
    assert w' == Advanced(job, w, Request(call, net, truncated));
    StepEvolves(job, w, Request(call, net, truncated));
    EffectOk(job, w, stage);
    NextOk(job, w, stage, truncated);
    forall c | c in w'.calls
      ensures StageOk(job, w'.repo, w'.calls[c])
    {
      if c != call {
        StageKept(job, w.repo, w'.repo, w.calls[c]);
      }
    }
  }

  /** Pushing commits and moving the base branch leave the branch and its pull requests alone. */
  lemma OutsideRepoOk(job: Job, w: World, s: Step)
    requires Inv(job, w) && (s.PushCommit? || s.MoveMain?)
    ensures var w' := Advanced(job, w, s);
            && RefOk(job, w'.repo) && PullsOk(w'.repo) && (job.base.Some? ==> job.base.value < |w'.repo.commits|)
            && w'.repo.ref == w.repo.ref && w'.repo.pulls == w.repo.pulls
  {
  }

  lemma CloseRepoOk(job: Job, w: World, number: nat)
    requires Inv(job, w)
    ensures var w' := Advanced(job, w, ClosePull(number));
            && RefOk(job, w'.repo) && PullsOk(w'.repo) && (job.base.Some? ==> job.base.value < |w'.repo.commits|)
            && w'.repo.ref == w.repo.ref && w'.closed + OpenPulls(w'.repo) == |w'.repo.pulls|
  {
  }

  /** What other people do keeps every call's stage true. */
  lemma OutsideOk(job: Job, w: World, s: Step)
    requires Inv(job, w) && (s.PushCommit? || s.MoveMain? || s.ClosePull?)
    ensures Inv(job, Advanced(job, w, s))
  {
    var w' := Advanced(job, w, s);
    StepEvolves(job, w, s);
    if s.ClosePull? {
      CloseRepoOk(job, w, s.number);
    } else {
      OutsideRepoOk(job, w, s);
    }
    forall c | c in w.calls
      ensures StageOk(job, w'.repo, w.calls[c])
    {
      StageKept(job, w.repo, w'.repo, w.calls[c]);
    }
  }

  lemma InvPreserved(job: Job, w: World, s: Step)
    requires Inv(job, w)
    ensures Inv(job, Advanced(job, w, s))
  {
    match s
    case StartCall(_) =>
    case Request(call, net, truncated) =>
      if call in w.calls && !Stopped(w.calls[call]) {
        RequestOk(job, w, call, net, truncated);
      }
    case _ => OutsideOk(job, w, s);
  }

  lemma {:induction false} InvAlways(job: Job, w: World, steps: seq<Step>)
    requires Inv(job, w)
    ensures Inv(job, History(job, w, steps))
    ensures Evolves(w.repo, History(job, w, steps).repo)
  {
    if steps != [] {
      var mid := History(job, w, steps[..|steps| - 1]);
      InvAlways(job, w, steps[..|steps| - 1]);
      InvPreserved(job, mid, steps[|steps| - 1]);
      StepEvolves(job, mid, steps[|steps| - 1]);
    }
  }

  // ------------------------------------------------------------------- theorems

  /** Every declared path gets the patch's content, or disappears; every other entry is kept. */
  lemma ApprovedTreeIsBasePlusPatch(base: Tree, patch: Patch, p: Path)
    requires ApprovedTree(base, patch).Some?
    ensures var tree := ApprovedTree(base, patch).value;
            if p in DeclaredPaths(patch)
            then
              if patch.changes[p].after.Some?
              then p in tree && tree[p] == File(patch.changes[p].after.value) else p !in tree
            else (p in tree <==> p in base) && (p in base ==> tree[p] == base[p])
  {
  }

  lemma OnlyNewestOpen(r: Repository)
    requires PullsOk(r)
    ensures OpenPulls(r) == if HasOpenPull(r) then 1 else 0
  {
    if HasOpenPull(r) {
      var i :| 0 <= i < |r.pulls| && r.pulls[i].open;
      assert i == |r.pulls| - 1;
    }
  }

  /**
    Remote exactly-once. For any number of overlapping calls, each able to break off before
    or after any request takes effect: the branch is created at most once and never moved,
    it points at a commit with the approved tree whose sole parent is the approved base,
    the pull requests are exactly those closed by hand and the one that is open, if one is, and
    every call that reports success names a pull request on exactly that commit.
  */
  lemma ExactlyOnce(job: Job, w0: World, steps: seq<Step>)
    requires Pristine(job, w0)
    ensures var w := History(job, w0, steps);
            && w.refsCreated == (if w.repo.ref.Some? then 1 else 0)
            && (w.repo.ref.Some? ==> IsApprovedCommit(job, w.repo, w.repo.ref.value))
            && |w.repo.pulls| == w.closed + (if HasOpenPull(w.repo) then 1 else 0)
            && (forall c :: c in w.calls && w.calls[c].Succeeded? ==>
                  && w.repo.ref == Some(w.calls[c].ref)
                  && w.calls[c].pull.number < |w.repo.pulls|
                  && w.repo.pulls[w.calls[c].pull.number].head == w.calls[c].ref
                  && w.repo.commits[w.calls[c].ref].tree == w.calls[c].tree)
  {
    InvAlways(job, w0, steps);
    var w := History(job, w0, steps);
    OnlyNewestOpen(w.repo);
    forall c | c in w.calls && w.calls[c].Succeeded?
      ensures w.repo.ref == Some(w.calls[c].ref)
      ensures w.calls[c].pull.number < |w.repo.pulls|
      ensures w.repo.pulls[w.calls[c].pull.number].head == w.calls[c].ref
      ensures w.repo.commits[w.calls[c].ref].tree == w.calls[c].tree
    {
      assert StageOk(job, w.repo, w.calls[c]);
      assert Listing(w.repo, [w.calls[c].pull]) && [w.calls[c].pull][0] == w.calls[c].pull;
    }
  }

  /** While nobody closes a pull request by hand, all successful calls name the same one. */
  lemma OnePullRequest(job: Job, w0: World, steps: seq<Step>, c: nat, d: nat)
    requires Pristine(job, w0)
    requires History(job, w0, steps).closed == 0
    requires c in History(job, w0, steps).calls && History(job, w0, steps).calls[c].Succeeded?
    requires d in History(job, w0, steps).calls && History(job, w0, steps).calls[d].Succeeded?
    ensures var w := History(job, w0, steps);
            |w.repo.pulls| == 1 && w.calls[c].pull.number == 0 == w.calls[d].pull.number
  {
    ExactlyOnce(job, w0, steps);
  }

  /** Once the branch exists no later step moves it. */
  lemma BranchNeverMoves(job: Job, w: World, steps: seq<Step>)
    requires Inv(job, w) && w.repo.ref.Some?
    ensures History(job, w, steps).repo.ref == w.repo.ref
    ensures w.repo.ref.value < |History(job, w, steps).repo.commits|
    ensures History(job, w, steps).repo.commits[w.repo.ref.value] == w.repo.commits[w.repo.ref.value]
  {
    InvAlways(job, w, steps);
  }
}
