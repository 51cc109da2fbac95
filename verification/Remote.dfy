/**
  `acreate_pull_request` against GitHub: one request per step, any number of
  overlapping calls for one approved artifact, each of which may break off before or
  after any request took effect.

  `Repository` is GitHub as seen from the artifact's branch: commits are only ever
  added and get fresh ids, the branch ref and the open pull request on it are unique,
  and trees are their content. Other people may push commits, move the base branch and
  close pull requests, but the branch itself belongs to these calls.
*/
module Remote {
  import opened Options
  import opened Patches

  type Sha = nat

  /** A regular file (mode 100644), or a tree entry of any other type or mode. */
  datatype Entry = File(content: string) | Special

  type Tree = map<Path, Entry>

  datatype Snapshot = Snapshot(tree: Tree, parents: seq<Sha>)

  datatype PullRow = PullRow(number: nat, head: Sha, open: bool)

  datatype Repository = Repository(main: Sha, commits: seq<Snapshot>, ref: Option<Sha>, pulls: seq<PullRow>)

  /** The approved artifact; its base is absent when it is not an immutable commit id. */
  datatype Job = Job(base: Option<Sha>, patch: Patch)

  // ------------------------------------------------------------ the approved tree

  /** The files a call downloads: the declared paths that exist in the base tree. */
  function Downloaded(base: Tree, patch: Patch): Files {
    map p | p in DeclaredPaths(patch) && p in base && base[p].File? :: base[p].content
  }

  predicate Supported(base: Tree, patch: Patch) {
    && patch.UnifiedDiff?
    && forall p :: p in DeclaredPaths(patch) && p in base ==> base[p].File?
  }

  /** POST /git/trees with `base_tree` and one change, or deletion, per declared path. */
  function Overlay(base: Tree, paths: set<Path>, after: Files): Tree {
    map p | p in base.Keys + after.Keys && (p in paths ==> p in after) && (p !in paths ==> p in base) ::
      if p in paths then File(after[p]) else base[p]
  }

  function ApprovedTree(base: Tree, patch: Patch): Option<Tree> {
    if !Supported(base, patch) then None
    else
      match Apply(Downloaded(base, patch), patch)
      case None => None
      case Some(after) => Some(Overlay(base, DeclaredPaths(patch), after))
  }

  // ---------------------------------------------------------------- one request

  /** Where a call stands; `existing` is its first listing of the branch's pull requests. */
  datatype Stage =
    | Fresh
    | Listed(existing: seq<PullRow>)
    | BaseChecked(existing: seq<PullRow>)
    | TreeKnown(existing: seq<PullRow>, base: Tree)
    | TreePosted(existing: seq<PullRow>, tree: Tree)
    | RefMissing(existing: seq<PullRow>, tree: Tree)
    | CommitPosted(existing: seq<PullRow>, tree: Tree, commit: Sha)
    | RefPosted(existing: seq<PullRow>, tree: Tree)
    | RefKnown(existing: seq<PullRow>, tree: Tree, ref: Sha)
    | HeadChecked(existing: seq<PullRow>, tree: Tree, ref: Sha)
    | Requeried(existing: seq<PullRow>, tree: Tree, ref: Sha)
    | PullRefused(tree: Tree, ref: Sha)
    | Succeeded(pull: PullRow, tree: Tree, ref: Sha, deduplicated: bool)
    | CallFailed(retryable: bool)

  /** How the network treats a request: delivered, or broken off before or after its effect. */
  datatype Net = Delivered | Broken(applied: bool, retryable: bool)

  /** GitHub lists the newest pull request first. */
  function Newest(pulls: seq<PullRow>): PullRow
    requires pulls != []
  {
    pulls[|pulls| - 1]
  }

  function PostCommit(r: Repository, tree: Tree, parents: seq<Sha>): Repository {
    r.(commits := r.commits + [Snapshot(tree, parents)])
  }

  /** POST /git/refs: 422 when the ref exists, and then nothing changes. */
  function PostRef(r: Repository, commit: Sha): Repository {
    if r.ref.None? then r.(ref := Some(commit)) else r
  }

  predicate HasOpenPull(r: Repository) {
    exists i :: 0 <= i < |r.pulls| && r.pulls[i].open
  }

  predicate PullAccepted(r: Repository) {
    r.ref.Some? && !HasOpenPull(r)
  }

  /** POST /pulls: 422 when the head has an open pull request already. */
  function PostPull(r: Repository): Repository {
    if PullAccepted(r) then r.(pulls := r.pulls + [PullRow(|r.pulls|, r.ref.value, true)]) else r
  }

  function AfterHead(existing: seq<PullRow>, tree: Tree, ref: Sha): Stage {
    if existing == [] then HeadChecked(existing, tree, ref) else Requeried(existing, tree, ref)
  }

  /** The effect of the request that the stage is about to send. */
  function Effect(job: Job, r: Repository, s: Stage): Repository {
    match s
    case RefMissing(_, tree) => if job.base.Some? then PostCommit(r, tree, [job.base.value]) else r
    case CommitPosted(_, _, commit) => PostRef(r, commit)
    case Requeried(existing, _, _) => if existing == [] then PostPull(r) else r
    case _ => r
  }

  /** The stage after the reply of a delivered request. */
  function Next(job: Job, r: Repository, s: Stage, truncated: bool): Stage {
    match s
    case Fresh => if job.base.None? then CallFailed(false) else Listed(r.pulls)
    case Listed(existing) => if Some(r.main) == job.base then BaseChecked(existing) else CallFailed(false)
    case BaseChecked(existing) =>
      if job.base.None? || job.base.value >= |r.commits| || truncated then CallFailed(false)
      else TreeKnown(existing, r.commits[job.base.value].tree)
    case TreeKnown(existing, base) =>
      (match ApprovedTree(base, job.patch)
       case None => CallFailed(false)
       case Some(tree) => TreePosted(existing, tree))
    case TreePosted(existing, tree) =>
      if r.ref.None? then RefMissing(existing, tree) else RefKnown(existing, tree, r.ref.value)
    case RefMissing(existing, tree) => CommitPosted(existing, tree, |r.commits|)
    case CommitPosted(existing, tree, _) => RefPosted(existing, tree)
    case RefPosted(existing, tree) => if r.ref.None? then CallFailed(false) else RefKnown(existing, tree, r.ref.value)
    case RefKnown(existing, tree, ref) =>
      if ref < |r.commits| && job.base.Some? && r.commits[ref] == Snapshot(tree, [job.base.value])
      then AfterHead(existing, tree, ref) else CallFailed(false)
    case HeadChecked(_, tree, ref) => Requeried(r.pulls, tree, ref)
    case Requeried(existing, tree, ref) =>
      if existing != [] then
        if Newest(existing).head == ref then Succeeded(Newest(existing), tree, ref, true) else CallFailed(false)
      else if PullAccepted(r) then Succeeded(PullRow(|r.pulls|, r.ref.value, true), tree, ref, false)
      else PullRefused(tree, ref)
    case PullRefused(tree, ref) =>
      if r.pulls != [] && Newest(r.pulls).head == ref
      then Succeeded(Newest(r.pulls), tree, ref, false) else CallFailed(false)
    case Succeeded(_, _, _, _) => s
    case CallFailed(_) => s
  }

  predicate Stopped(s: Stage) {
    s.Succeeded? || s.CallFailed?
  }

  // ------------------------------------------------------------------ the world

  datatype World = World(repo: Repository, calls: map<nat, Stage>, refsCreated: nat, closed: nat)

  datatype Step =
    | StartCall(call: nat)
    | Request(call: nat, net: Net, truncated: bool)
    | PushCommit(snapshot: Snapshot)
    | MoveMain(main: Sha)
    | ClosePull(number: nat)

  function RequestStep(job: Job, w: World, call: nat, net: Net, truncated: bool): World
    requires call in w.calls && !Stopped(w.calls[call])
  {
    var stage := w.calls[call];
    var changed := if net.Delivered? || net.applied then Effect(job, w.repo, stage) else w.repo;
    var next := if net.Delivered? then Next(job, w.repo, stage, truncated) else CallFailed(net.retryable);
    w.(repo := changed, calls := w.calls[call := next],
       refsCreated := w.refsCreated + (if changed.ref == w.repo.ref then 0 else 1))
  }

  function Advanced(job: Job, w: World, s: Step): World {
    match s
    case StartCall(call) => if call in w.calls then w else w.(calls := w.calls[call := Fresh])
    case Request(call, net, truncated) =>
      if call in w.calls && !Stopped(w.calls[call]) then RequestStep(job, w, call, net, truncated) else w
    case PushCommit(snapshot) => w.(repo := w.repo.(commits := w.repo.commits + [snapshot]))
    case MoveMain(main) => w.(repo := w.repo.(main := main))
    case ClosePull(number) =>
      if number < |w.repo.pulls| && w.repo.pulls[number].open
      then w.(repo := w.repo.(pulls := w.repo.pulls[number := w.repo.pulls[number].(open := false)]),
              closed := w.closed + 1)
      else w
  }

  /** The repository as the approval found it: the branch does not exist yet. */
  predicate Pristine(job: Job, w: World) {
    && w.repo.ref.None? && w.repo.pulls == [] && w.calls == map[] && w.refsCreated == 0 && w.closed == 0
    && (job.base.Some? ==> job.base.value < |w.repo.commits|)
  }

  function History(job: Job, w: World, steps: seq<Step>): World {
    if steps == [] then w
    else Advanced(job, History(job, w, steps[..|steps| - 1]), steps[|steps| - 1])
  }
}
