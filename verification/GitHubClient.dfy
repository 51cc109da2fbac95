/**
  `acreate_pull_request` as the code runs it, request by request against a GitHub that
  nobody else touches meanwhile. It is proved to be the run of the stages of `Remote`,
  so what holds there for every interleaving and every failure is about this code.
*/
module GitHubClient {
  import opened Options
  import opened Patches
  import opened Remote
  import opened RemoteTheorems

  // ------------------------------------------------------------- the posted tree

  datatype TreeChange = TreeChange(path: Path, content: Option<string>)

  /** What POST /git/trees makes of a base tree and a list of changes, taken in order. */
  function Posted(base: Tree, changes: seq<TreeChange>): Tree {
    if changes == [] then base
    else
      var earlier, c := Posted(base, changes[..|changes| - 1]), changes[|changes| - 1];
      match c.content
      case Some(text) => earlier[c.path := File(text)]
      case None => earlier - {c.path}
  }

  function Listed(changes: seq<TreeChange>): set<Path> {
    set i | 0 <= i < |changes| :: changes[i].path
  }

  predicate TakenFrom(changes: seq<TreeChange>, after: Files) {
    forall i :: 0 <= i < |changes| ==> changes[i].content == Content(after, changes[i].path)
  }

  /** Posting the changed paths one by one lays the patched files over the base tree. */
  lemma {:induction false} PostedIsOverlay(base: Tree, changes: seq<TreeChange>, after: Files, p: Path)
    requires TakenFrom(changes, after)
    ensures p in Listed(changes) ==> (p in Posted(base, changes) <==> p in after)
    ensures p in Listed(changes) && p in after ==> Posted(base, changes)[p] == File(after[p])
    ensures p !in Listed(changes) ==> (p in Posted(base, changes) <==> p in base)
    ensures p !in Listed(changes) && p in base ==> Posted(base, changes)[p] == base[p]
  {
    if changes != [] {
      var last := |changes| - 1;
      PostedIsOverlay(base, changes[..last], after, p);
      assert changes == changes[..last] + [changes[last]];
      assert p in Listed(changes) <==> p in Listed(changes[..last]) || p == changes[last].path by {
        if p in Listed(changes[..last]) {
          var i :| 0 <= i < last && changes[..last][i].path == p;
          assert changes[i].path == p;
        }
        if p in Listed(changes) && p != changes[last].path {
          var i :| 0 <= i < |changes| && changes[i].path == p;
          assert changes[..last][i].path == p;
        }
      }
    }
  }

  ghost predicate Enumerates(order: seq<Path>, paths: set<Path>) {
    forall p :: p in order <==> p in paths
  }

  /** The temporary checkout: every declared path that the base tree has, if all are regular files. */
  method Download(base: Tree, patch: Patch, order: seq<Path>) returns (files: Option<Files>)
    requires patch.UnifiedDiff? && Enumerates(order, DeclaredPaths(patch))
    ensures files == if Supported(base, patch) then Some(Downloaded(base, patch)) else None
  {
    var local: Files := map[];
    var i := 0;
    while i < |order|
      invariant 0 <= i <= |order|
      invariant forall p :: p in local <==> p in order[..i] && p in base
      invariant forall p :: p in order[..i] && p in base ==> base[p].File? && local[p] == base[p].content
    {
      var relative := order[i];
      assert order[..i + 1] == order[..i] + [relative];
      if relative in base {
        if !base[relative].File? {
          assert relative in order;
          return None;
        }
        local := local[relative := base[relative].content];
      }
      i := i + 1;
    }
    assert order[..i] == order;
    assert local == Downloaded(base, patch);
    files := Some(local);
  }

  /** From the base tree to the tree of the approved patch, or None where the code raises. */
  method BuildTree(base: Tree, patch: Patch, order: seq<Path>) returns (tree: Option<Tree>)
    requires Enumerates(order, DeclaredPaths(patch))
    ensures tree == ApprovedTree(base, patch)
  {
    if !patch.UnifiedDiff? {
      return None;
    }
    var before := Download(base, patch, order);
    if before.None? || !WellFormed(patch) {
      return None;
    }
    var after := ApplyRaw(before.value, patch);
    if after.None? || ChangedPaths(before.value, after.value) != DeclaredPaths(patch) {
      return None;
    }
    var changes: seq<TreeChange> := [];
    var i := 0;
    while i < |order|
      invariant 0 <= i <= |order| && |changes| == i
      invariant forall k :: 0 <= k < i ==> changes[k] == TreeChange(order[k], Content(after.value, order[k]))
    {
      changes := changes + [TreeChange(order[i], Content(after.value, order[i]))];
      i := i + 1;
    }
    OverlayPosted(base, changes, order, patch, after.value);
    tree := Some(Posted(base, changes));
  }

  lemma OverlayPosted(base: Tree, changes: seq<TreeChange>, order: seq<Path>, patch: Patch, after: Files)
    requires patch.UnifiedDiff? && Enumerates(order, DeclaredPaths(patch)) && |changes| == |order|
    requires forall k :: 0 <= k < |order| ==> changes[k] == TreeChange(order[k], Content(after, order[k]))
    ensures Posted(base, changes) == Overlay(base, DeclaredPaths(patch), after)
  {
    forall p
      ensures p in Listed(changes) <==> p in DeclaredPaths(patch)
      ensures p in Posted(base, changes) <==> p in Overlay(base, DeclaredPaths(patch), after)
      ensures p in Posted(base, changes) ==> Posted(base, changes)[p] == Overlay(base, DeclaredPaths(patch), after)[p]
    {
      if p in order {
        var k :| 0 <= k < |order| && order[k] == p;
        assert changes[k].path == p;
      }
      PostedIsOverlay(base, changes, after, p);
    }
  }

  // ------------------------------------------------------ the run of the stages

  /** Requests of one call, all delivered, until it stops or `n` are sent. */
  function Settle(job: Job, r: Repository, s: Stage, n: nat): (Repository, Stage)
    decreases n
  {
    if n == 0 || Stopped(s) then (r, s) else Settle(job, Effect(job, r, s), Next(job, r, s, false), n - 1)
  }

  /** It is what driving the call does in the world of overlapping calls. */
  lemma {:induction false} SettleIsDrive(job: Job, w: World, call: nat, n: nat)
    requires call in w.calls
    ensures call in Drive(job, w, call, n).calls
    ensures Settle(job, w.repo, w.calls[call], n) == (Drive(job, w, call, n).repo, Drive(job, w, call, n).calls[call])
    decreases n
  {
    if n > 0 {
      var w' := Advanced(job, w, Request(call, Delivered, false));
      SettleIsDrive(job, w', call, n - 1);
      if Stopped(w.calls[call]) {
        assert w' == w;
        StoppedSettles(job, w.repo, w.calls[call], n - 1);
      }
    }
  }

  lemma StoppedSettles(job: Job, r: Repository, s: Stage, n: nat)
    requires Stopped(s)
    ensures Settle(job, r, s, n) == (r, s)
  {
  }

  lemma SettleOne(job: Job, r: Repository, s: Stage, n: nat, r': Repository, s': Stage)
    requires n > 0 && !Stopped(s) && r' == Effect(job, r, s) && s' == Next(job, r, s, false)
    ensures Settle(job, r, s, n) == Settle(job, r', s', n - 1)
  {
  }

  /** Listing, base check and tree: reads and content-addressed posts only. */
  lemma SettleBuilding(job: Job, r: Repository, n: nat)
    requires n >= 12
    ensures Settle(job, r, Fresh, n)
            == if BaseTree(job, r).None? || ApprovedTree(BaseTree(job, r).value, job.patch).None?
              then (r, CallFailed(false))
               else Settle(job, r, TreePosted(r.pulls, ApprovedTree(BaseTree(job, r).value, job.patch).value), n - 4)
  {
    SettleOne(job, r, Fresh, n, r, Next(job, r, Fresh, false));
    if job.base.Some? {
      var listed := Stage.Listed(r.pulls);
      SettleOne(job, r, listed, n - 1, r, Next(job, r, listed, false));
      if Some(r.main) == job.base {
        var checked := BaseChecked(r.pulls);
        SettleOne(job, r, checked, n - 2, r, Next(job, r, checked, false));
        if job.base.value < |r.commits| {
          var known := TreeKnown(r.pulls, r.commits[job.base.value].tree);
          SettleOne(job, r, known, n - 3, r, Next(job, r, known, false));
          StoppedSettles(job, r, CallFailed(false), n - 4);
        } else {
          StoppedSettles(job, r, CallFailed(false), n - 3);
        }
      } else {
        StoppedSettles(job, r, CallFailed(false), n - 2);
      }
    } else {
      StoppedSettles(job, r, CallFailed(false), n - 1);
    }
  }

  /** The tree of the approved base, when that is still the head of the base branch. */
  function BaseTree(job: Job, r: Repository): Option<Tree> {
    if job.base.None? || Some(r.main) != job.base || job.base.value >= |r.commits| then None
    else Some(r.commits[job.base.value].tree)
  }

  /** The repository once the branch exists, made from a new commit if it did not. */
  function Branched(job: Job, r: Repository, tree: Tree): (b: Repository)
    requires job.base.Some?
    ensures b.ref.Some? && b.pulls == r.pulls
  {
    if r.ref.Some? then r else PostRef(PostCommit(r, tree, [job.base.value]), |r.commits|)
  }

  lemma SettleBranching(job: Job, r: Repository, existing: seq<PullRow>, tree: Tree, n: nat) returns (m: nat)
    requires n >= 8 && job.base.Some?
    ensures n - 4 <= m < n
    ensures Settle(job, r, TreePosted(existing, tree), n)
            == Settle(job, Branched(job, r, tree), RefKnown(existing, tree, Branched(job, r, tree).ref.value), m)
  {
    var posted := TreePosted(existing, tree);
    SettleOne(job, r, posted, n, r, Next(job, r, posted, false));
    if r.ref.None? {
      var r1 := PostCommit(r, tree, [job.base.value]);
      var r2 := PostRef(r1, |r.commits|);
      SettleOne(job, r, RefMissing(existing, tree), n - 1, r1, CommitPosted(existing, tree, |r.commits|));
      SettleOne(job, r1, CommitPosted(existing, tree, |r.commits|), n - 2, r2, RefPosted(existing, tree));
      SettleOne(job, r2, RefPosted(existing, tree), n - 3, r2, RefKnown(existing, tree, |r.commits|));
      m := n - 4;
    } else {
      m := n - 1;
    }
  }

  predicate HeadApproved(job: Job, r: Repository, tree: Tree, ref: Sha) {
    ref < |r.commits| && job.base.Some? && r.commits[ref] == Snapshot(tree, [job.base.value])
  }

  /** From the known head to the second look at the pull requests. */
  lemma SettleHead(job: Job, r: Repository, existing: seq<PullRow>, tree: Tree, ref: Sha, n: nat) returns (m: nat)
    requires n >= 4
    ensures n - 2 <= m < n
    ensures Settle(job, r, RefKnown(existing, tree, ref), n)
            == if HeadApproved(job, r, tree, ref)
               then Settle(job, r, Requeried(if existing == [] then r.pulls else existing, tree, ref), m)
               else (r, CallFailed(false))
  {
    var known := RefKnown(existing, tree, ref);
    SettleOne(job, r, known, n, r, Next(job, r, known, false));
    m := n - 1;
    if !HeadApproved(job, r, tree, ref) {
      StoppedSettles(job, r, CallFailed(false), n - 1);
    } else if existing == [] {
      SettleOne(job, r, HeadChecked(existing, tree, ref), n - 1, r, Requeried(r.pulls, tree, ref));
      m := n - 2;
    }
  }

  lemma SettlePull(job: Job, r: Repository, existing: seq<PullRow>, tree: Tree, ref: Sha, n: nat)
    requires n >= 2 && r.ref.Some?
    ensures Settle(job, r, Requeried(existing, tree, ref), n)
            == if existing == [] && !PullAccepted(r) then (r, Next(job, r, PullRefused(tree, ref), false))
               else (if existing == [] then PostPull(r) else r, Next(job, r, Requeried(existing, tree, ref), false))
  {
    var asked := Requeried(existing, tree, ref);
    var r' := if existing == [] then PostPull(r) else r;
    var s' := Next(job, r, asked, false);
    SettleOne(job, r, asked, n, r', s');
    if existing == [] && !PullAccepted(r) {
      SettleOne(job, r, PullRefused(tree, ref), n - 1, r, Next(job, r, PullRefused(tree, ref), false));
      StoppedSettles(job, r, Next(job, r, PullRefused(tree, ref), false), n - 2);
    } else {
      StoppedSettles(job, r', s', n - 1);
    }
  }

  /** What a call does with the branch in place and the listing up to date. */
  function Proposed(job: Job, b: Repository, tree: Tree): (Repository, Stage)
    requires b.ref.Some?
  {
    if !HeadApproved(job, b, tree, b.ref.value) then (b, CallFailed(false))
    else if b.pulls == [] then (PostPull(b), Succeeded(PullRow(0, b.ref.value, true), tree, b.ref.value, false))
    else if Newest(b.pulls).head == b.ref.value then (b, Succeeded(Newest(b.pulls), tree, b.ref.value, true))
    else (b, CallFailed(false))
  }

  lemma SettlesToProposed(job: Job, b: Repository, tree: Tree, n: nat)
    requires b.ref.Some? && n >= 4
    ensures Settle(job, b, RefKnown(b.pulls, tree, b.ref.value), n) == Proposed(job, b, tree)
  {
    var k := SettleHead(job, b, b.pulls, tree, b.ref.value, n);
    SettlePull(job, b, b.pulls, tree, b.ref.value, k);
  }

  /** Everything an undisturbed call does, in one expression. */
  function Outcome(job: Job, r: Repository): (Repository, Stage) {
    if BaseTree(job, r).None? then (r, CallFailed(false))
    else
      match ApprovedTree(BaseTree(job, r).value, job.patch)
      case None => (r, CallFailed(false))
      case Some(tree) => Proposed(job, Branched(job, r, tree), tree)
  }

  lemma SettlesToOutcome(job: Job, r: Repository, n: nat)
    requires n >= 12
    ensures Settle(job, r, Fresh, n) == Outcome(job, r)
  {
    SettleBuilding(job, r, n);
    if BaseTree(job, r).Some? {
      var tree := ApprovedTree(BaseTree(job, r).value, job.patch);
      if tree.Some? {
        var m := SettleBranching(job, r, r.pulls, tree.value, n - 4);
        SettlesToProposed(job, Branched(job, r, tree.value), tree.value, m);
      }
    }
  }

  /**
    At-least-once execution is safe to repeat: a second call after a successful one changes
    nothing on GitHub and names the same pull request, tree and head.
  */
  lemma SecondCallFindsTheFirst(job: Job, r: Repository, n: nat)
    requires n >= 12 && Settle(job, r, Fresh, n).1.Succeeded?
    ensures var first := Settle(job, r, Fresh, n);
            Settle(job, first.0, Fresh, n) == (first.0, first.1.(deduplicated := true))
  {
    SettlesToOutcome(job, r, n);
    SettlesToOutcome(job, Outcome(job, r).0, n);
    var tree := ApprovedTree(BaseTree(job, r).value, job.patch).value;
    BranchKeepsBase(job, r, tree);
  }

  lemma BranchKeepsBase(job: Job, r: Repository, tree: Tree)
    requires BaseTree(job, r).Some?
    ensures BaseTree(job, Branched(job, r, tree)) == BaseTree(job, r)
    ensures BaseTree(job, PostPull(Branched(job, r, tree))) == BaseTree(job, r)
  {
  }

  // ------------------------------------------------------------------- the objects

  class GitHub {
    var repo: Repository

    constructor (repo: Repository)
      ensures this.repo == repo
    {
      this.repo := repo;
    }

    method CreateCommit(tree: Tree, parents: seq<Sha>) returns (sha: Sha)
      modifies this
      ensures repo == PostCommit(old(repo), tree, parents) && sha == |old(repo).commits|
    {
      sha := |repo.commits|;
      repo := repo.(commits := repo.commits + [Snapshot(tree, parents)]);
    }

    method CreateRef(commit: Sha) returns (created: bool)
      modifies this
      ensures repo == PostRef(old(repo), commit) && (created <==> old(repo).ref.None?)
    {
      created := repo.ref.None?;
      if created {
        repo := repo.(ref := Some(commit));
      }
    }

    method CreatePull() returns (pull: Option<PullRow>)
      modifies this
      ensures repo == PostPull(old(repo)) && (pull.Some? <==> PullAccepted(old(repo)))
      ensures pull.Some? ==> pull.value == PullRow(|old(repo).pulls|, old(repo).ref.value, true)
    {
      if repo.ref.None? || exists i :: 0 <= i < |repo.pulls| && repo.pulls[i].open {
        return None;
      }
      pull := Some(PullRow(|repo.pulls|, repo.ref.value, true));
      repo := repo.(pulls := repo.pulls + [pull.value]);
    }
  }

  class GitHubIntegration {
    const github: GitHub
    var created: seq<PullRow>
    var creationCallCount: nat

    constructor (github: GitHub)
      ensures this.github == github && created == [] && creationCallCount == 0
    {
      this.github, created, creationCallCount := github, [], 0;
    }

    /** The branch is made only when it is missing, and never overwritten. */
    method EnsureBranch(job: Job, tree: Tree) returns (ref: Sha)
      requires job.base.Some?
      modifies github
      ensures github.repo == Branched(job, old(github.repo), tree) && github.repo.ref == Some(ref)
    {
      if github.repo.ref.None? {
        var commit := github.CreateCommit(tree, [job.base.value]);
        var isNew := github.CreateRef(commit);
      }
      ref := github.repo.ref.value;
    }

    /** The pull request on a branch whose head is approved: one that was listed, or a new one. */
    method EnsurePull(job: Job, existing: seq<PullRow>, tree: Tree, ref: Sha, ghost n: nat) returns (outcome: Stage)
      requires n >= 2 && github.repo.ref.Some?
      modifies github
      ensures (github.repo, outcome) == Settle(job, old(github.repo), Requeried(existing, tree, ref), n)
    {
      SettlePull(job, github.repo, existing, tree, ref, n);
      if existing != [] {
        var data := Newest(existing);
        return if data.head == ref then Succeeded(data, tree, ref, true) else CallFailed(false);
      }
      var posted := github.CreatePull();
      if posted.Some? {
        return Succeeded(posted.value, tree, ref, false);
      }
      var matches := github.repo.pulls;
      if matches == [] || Newest(matches).head != ref {
        return CallFailed(false);
      }
      outcome := Succeeded(Newest(matches), tree, ref, false);
    }

    /** `n` is any number of requests from twelve on: the call never needs more. */
    method CreatePullRequest(job: Job, order: seq<Path>, ghost n: nat) returns (outcome: Stage)
      requires Enumerates(order, DeclaredPaths(job.patch)) && n >= 12
      modifies this, github
      ensures (github.repo, outcome) == Settle(job, old(github.repo), Fresh, n)
      ensures created == old(created) + if outcome.Succeeded? then [outcome.pull] else []
      ensures creationCallCount == old(creationCallCount) + if outcome.Succeeded? && !outcome.deduplicated then 1 else 0
    {
      ghost var before := github.repo;
      SettleBuilding(job, before, n);
      if job.base.None? {
        return CallFailed(false);
      }
      var existing := github.repo.pulls;
      if Some(github.repo.main) != job.base || job.base.value >= |github.repo.commits| {
        return CallFailed(false);
      }
      var built := BuildTree(github.repo.commits[job.base.value].tree, job.patch, order);
      if built.None? {
        return CallFailed(false);
      }
      var tree := built.value;
      ghost var m := SettleBranching(job, before, existing, tree, n - 4);
      var ref := EnsureBranch(job, tree);
      ghost var k := SettleHead(job, github.repo, existing, tree, ref, m);
      var head := github.repo.commits;
      if ref >= |head| || head[ref] != Snapshot(tree, [job.base.value]) {
        return CallFailed(false);
      }
      if existing == [] {
        existing := github.repo.pulls;
      }
      outcome := EnsurePull(job, existing, tree, ref, k);
      if outcome.Succeeded? {
        created := created + [outcome.pull];
        if !outcome.deduplicated {
          creationCallCount := creationCallCount + 1;
        }
      }
    }
  }
}
