/** Recovery of the pull-request call, and what the tested workspace says about its tree. */
module RemoteTheorems {
  import opened Options
  import opened Patches
  import opened Remote
  import opened RemoteSafety

  // ------------------------------------------------------------- reconciliation

  /** Requests left on the longest way from a stage to a result. */
  function Remaining(s: Stage): nat {
    match s
    case Fresh => 12
    case Listed(_) => 11
    case BaseChecked(_) => 10
    case TreeKnown(_, _) => 9
    case TreePosted(_, _) => 8
    case RefMissing(_, _) => 7
    case CommitPosted(_, _, _) => 6
    case RefPosted(_, _) => 5
    case RefKnown(_, _, _) => 4
    case HeadChecked(_, _, _) => 3
    case Requeried(_, _, _) => 2
    case PullRefused(_, _) => 1
    case _ => 0
  }

  /** `n` requests of one call, all delivered, with nobody else acting. */
  function Drive(job: Job, w: World, call: nat, n: nat): World
    decreases n
  {
    if n == 0 then w else Drive(job, Advanced(job, w, Request(call, Delivered, false)), call, n - 1)
  }

  /** The approved base is still the head of the base branch, and the patch applies to it. */
  ghost predicate Current(job: Job, r: Repository) {
    && Some(r.main) == job.base
    && exists tree :: IsTarget(job, r, tree)
  }

  lemma DriveOne(job: Job, w: World, call: nat)
    requires Inv(job, w) && Current(job, w.repo)
    requires call in w.calls && !Stopped(w.calls[call])
    ensures var w' := Advanced(job, w, Request(call, Delivered, false));
            && Inv(job, w') && Current(job, w'.repo) && call in w'.calls
            && !w'.calls[call].CallFailed?
            && Remaining(w'.calls[call]) < Remaining(w.calls[call])
  {
    var w' := Advanced(job, w, Request(call, Delivered, false));
    InvPreserved(job, w, Request(call, Delivered, false));
    StepEvolves(job, w, Request(call, Delivered, false));
    var tree :| IsTarget(job, w.repo, tree);
    assert IsTarget(job, w'.repo, tree);
    assert StageOk(job, w.repo, w.calls[call]);
    NeverFails(job, w.repo, w.calls[call], tree);
  }

  /** The branch head is the commit any call would have made itself. */
  lemma HeadMatches(job: Job, r: Repository, tree: Tree, ref: Sha)
    requires IsTarget(job, r, tree) && IsApprovedCommit(job, r, ref)
    ensures r.commits[ref] == Snapshot(tree, [job.base.value])
  {
  }

  lemma AnyPullIsOnHead(r: Repository, rows: seq<PullRow>, ref: Sha)
    requires PullsOk(r) && r.ref == Some(ref) && Listing(r, rows) && rows != []
    ensures Newest(rows).head == ref
  {
    assert rows[|rows| - 1].head == r.pulls[rows[|rows| - 1].number].head;
  }

  /** The stages up to the posted tree: the base is current and the patch applies to it. */
  lemma BuildingNeverFails(job: Job, r: Repository, s: Stage, tree: Tree)
    requires StageOk(job, r, s) && Some(r.main) == job.base && IsTarget(job, r, tree)
    requires s.Fresh? || s.Listed? || s.BaseChecked? || s.TreeKnown?
    ensures !Next(job, r, s, false).CallFailed?
    ensures Remaining(Next(job, r, s, false)) < Remaining(s)
  {
  }

  /** The stages from the posted tree to the known branch head. */
  lemma BranchingNeverFails(job: Job, r: Repository, s: Stage, tree: Tree)
    requires RefOk(job, r) && StageOk(job, r, s)
    requires IsTarget(job, r, tree)
    requires s.TreePosted? || s.RefMissing? || s.CommitPosted? || s.RefPosted?
    ensures !Next(job, r, s, false).CallFailed?
    ensures Remaining(Next(job, r, s, false)) < Remaining(s)
  {
  }

  lemma KnownHeadNeverFails(job: Job, r: Repository, s: Stage, tree: Tree)
    requires RefOk(job, r) && StageOk(job, r, s)
    requires IsTarget(job, r, tree) && s.RefKnown?
    ensures !Next(job, r, s, false).CallFailed?
    ensures Remaining(Next(job, r, s, false)) < Remaining(s)
  {
    HeadMatches(job, r, s.tree, s.ref);
  }

  /** A known pull request is on the branch head, and an unknown one can be opened or is refused by one that is. */
  lemma QueryNeverFails(job: Job, r: Repository, s: Stage)
    requires PullsOk(r) && StageOk(job, r, s) && s.Requeried?
    ensures !Next(job, r, s, false).CallFailed?
    ensures Remaining(Next(job, r, s, false)) < Remaining(s)
  {
    if s.existing != [] {
      AnyPullIsOnHead(r, s.existing, s.ref);
    }
  }

  lemma RefusalNeverFails(job: Job, r: Repository, s: Stage)
    requires PullsOk(r) && StageOk(job, r, s) && s.PullRefused?
    ensures !Next(job, r, s, false).CallFailed?
    ensures Remaining(Next(job, r, s, false)) < Remaining(s)
  {
    AnyPullIsOnHead(r, r.pulls, s.ref);
  }

  /** The stages that find or open the pull request. */
  lemma ProposingNeverFails(job: Job, r: Repository, s: Stage)
    requires PullsOk(r) && StageOk(job, r, s)
    requires s.HeadChecked? || s.Requeried? || s.PullRefused?
    ensures !Next(job, r, s, false).CallFailed?
    ensures Remaining(Next(job, r, s, false)) < Remaining(s)
  {
    if s.Requeried? {
      QueryNeverFails(job, r, s);
    } else if s.PullRefused? {
      RefusalNeverFails(job, r, s);
    }
  }

  /** With a current base, no stage that an interrupted history can leave behind is a dead end. */
  lemma NeverFails(job: Job, r: Repository, s: Stage, tree: Tree)
    requires RefOk(job, r) && PullsOk(r) && StageOk(job, r, s) && !Stopped(s)
    requires Some(r.main) == job.base && IsTarget(job, r, tree)
    ensures !Next(job, r, s, false).CallFailed?
    ensures Remaining(Next(job, r, s, false)) < Remaining(s)
  {
    if s.Fresh? || s.Listed? || s.BaseChecked? || s.TreeKnown? {
      BuildingNeverFails(job, r, s, tree);
    } else if s.HeadChecked? || s.Requeried? || s.PullRefused? {
      ProposingNeverFails(job, r, s);
    } else if s.RefKnown? {
      KnownHeadNeverFails(job, r, s, tree);
    } else {
      BranchingNeverFails(job, r, s, tree);
    }
  }

  /**
    Reconciliation. Whatever earlier calls, crashes and lost replies left on GitHub, a call
    that is no longer disturbed ends in success from any stage it may be in, within twelve
    requests, as long as the base branch has not moved on.
  */
  lemma {:induction false} UndisturbedCallSucceeds(job: Job, w: World, call: nat, n: nat)
    requires Inv(job, w) && Current(job, w.repo)
    requires call in w.calls && !w.calls[call].CallFailed?
    requires Remaining(w.calls[call]) <= n
    ensures call in Drive(job, w, call, n).calls && Drive(job, w, call, n).calls[call].Succeeded?
    decreases n
  {
    if n > 0 {
      var w' := Advanced(job, w, Request(call, Delivered, false));
      if Stopped(w.calls[call]) {
        assert w' == w;
      } else {
        DriveOne(job, w, call);
      }
      UndisturbedCallSucceeds(job, w', call, n - 1);
    }
  }

  lemma {:induction false} FailedStaysFailed(job: Job, w: World, call: nat, n: nat)
    requires call in w.calls && w.calls[call].CallFailed?
    ensures Drive(job, w, call, n) == w
    decreases n
  {
    if n > 0 {
      FailedStaysFailed(job, w, call, n - 1);
    }
  }

  /** The requests before the first write only move the call itself. */
  lemma ReadOnlyRequest(job: Job, w: World, call: nat, n: nat)
    requires call in w.calls && n > 0
    requires var s := w.calls[call]; s.Fresh? || s.Listed? || s.BaseChecked? || s.TreeKnown?
    ensures Drive(job, w, call, n)
            == Drive(job, w.(calls := w.calls[call := Next(job, w.repo, w.calls[call], false)]), call, n - 1)
  {
    assert Advanced(job, w, Request(call, Delivered, false))
           == w.(calls := w.calls[call := Next(job, w.repo, w.calls[call], false)]);
  }

  lemma UnbuildableFails(job: Job, w: World, call: nat, existing: seq<PullRow>, n: nat)
    requires job.base.Some? && job.base.value < |w.repo.commits|
    requires ApprovedTree(w.repo.commits[job.base.value].tree, job.patch).None?
    requires call in w.calls && w.calls[call] == BaseChecked(existing) && n >= 2
    ensures call in Drive(job, w, call, n).calls && Drive(job, w, call, n).calls[call] == CallFailed(false)
  {
    ReadOnlyRequest(job, w, call, n);
    var w1 := w.(calls := w.calls[call := TreeKnown(existing, w.repo.commits[job.base.value].tree)]);
    ReadOnlyRequest(job, w1, call, n - 1);
    FailedStaysFailed(job, w1.(calls := w1.calls[call := CallFailed(false)]), call, n - 2);
  }

  /** A stale base, a patch that does not apply, or a base that is no commit ends every new call. */
  lemma StaleCallFails(job: Job, w: World, call: nat)
    requires Inv(job, w) && !Current(job, w.repo)
    requires call in w.calls && w.calls[call] == Fresh
    ensures call in Drive(job, w, call, 12).calls && Drive(job, w, call, 12).calls[call] == CallFailed(false)
  {
    ReadOnlyRequest(job, w, call, 12);
    var w1 := w.(calls := w.calls[call := Next(job, w.repo, Fresh, false)]);
    if job.base.None? {
      FailedStaysFailed(job, w1, call, 11);
    } else {
      ReadOnlyRequest(job, w1, call, 11);
      var w2 := w1.(calls := w1.calls[call := Next(job, w.repo, Listed(w.repo.pulls), false)]);
      if Some(w.repo.main) != job.base {
        FailedStaysFailed(job, w2, call, 10);
      } else {
        var tree := ApprovedTree(w.repo.commits[job.base.value].tree, job.patch);
        assert tree.Some? ==> IsTarget(job, w.repo, tree.value);
        UnbuildableFails(job, w2, call, w.repo.pulls, 10);
      }
    }
  }

  /**
    Recovery, exactly: after any history whatsoever, a new call that is left undisturbed
    succeeds if and only if the approved base is still current.
  */
  lemma RecoveryReconcilesExactly(job: Job, w0: World, steps: seq<Step>, call: nat)
    requires Pristine(job, w0)
    requires call !in History(job, w0, steps).calls
    ensures var w := Advanced(job, History(job, w0, steps), StartCall(call));
            call in Drive(job, w, call, 12).calls
            && (Drive(job, w, call, 12).calls[call].Succeeded? <==> Current(job, History(job, w0, steps).repo))
  {
    InvAlways(job, w0, steps);
    var before := History(job, w0, steps);
    InvPreserved(job, before, StartCall(call));
    var w := Advanced(job, before, StartCall(call));
    DriveKeepsCall(job, w, call, 12);
    if Current(job, before.repo) {
      UndisturbedCallSucceeds(job, w, call, 12);
    } else {
      StaleCallFails(job, w, call);
    }
  }

  lemma {:induction false} DriveKeepsCall(job: Job, w: World, call: nat, n: nat)
    requires call in w.calls
    ensures call in Drive(job, w, call, n).calls
    decreases n
  {
    if n > 0 {
      DriveKeepsCall(job, Advanced(job, w, Request(call, Delivered, false)), call, n - 1);
    }
  }

  // ------------------------------------------- a second pull request needs a close

  /** A call on its way to the pull request that has listed none so far. */
  predicate ListedNone(s: Stage) {
    match s
    case Fresh => true
    case Listed(existing) => existing == []
    case BaseChecked(existing) => existing == []
    case TreeKnown(existing, _) => existing == []
    case TreePosted(existing, _) => existing == []
    case RefMissing(existing, _) => existing == []
    case CommitPosted(existing, _, _) => existing == []
    case RefPosted(existing, _) => existing == []
    case RefKnown(existing, _, _) => existing == []
    case HeadChecked(existing, _, _) => existing == []
    case Requeried(existing, _, _) => existing == []
    case _ => false
  }

  /** Nobody has opened or closed a pull request, and `call` has listed none. */
  ghost predicate BeforePull(job: Job, w: World, call: nat) {
    && Inv(job, w) && Current(job, w.repo) && w.repo.pulls == [] && w.closed == 0
    && call in w.calls && ListedNone(w.calls[call])
  }

  lemma NextListsNone(job: Job, r: Repository, s: Stage)
    requires r.pulls == [] && ListedNone(s) && !s.Requeried? && !Next(job, r, s, false).CallFailed?
    ensures ListedNone(Next(job, r, s, false)) && Effect(job, r, s).pulls == []
  {
  }

  lemma OneRequestOn(job: Job, w: World, call: nat) returns (w': World)
    requires BeforePull(job, w, call) && !w.calls[call].Requeried?
    ensures w' == Advanced(job, w, Request(call, Delivered, false))
    ensures BeforePull(job, w', call) && w'.calls == w.calls[call := w'.calls[call]]
    ensures Remaining(w'.calls[call]) < Remaining(w.calls[call])
  {
    DriveOne(job, w, call);
    w' := RequestStep(job, w, call, Delivered, false);
    NextListsNone(job, w.repo, w.calls[call]);
  }

  lemma {:induction false} HistoryFrom(job: Job, w: World, s: Step, rest: seq<Step>)
    ensures History(job, w, [s] + rest) == History(job, Advanced(job, w, s), rest)
    decreases |rest|
  {
    var all := [s] + rest;
    if rest == [] {
      assert all == [s] && all[..0] == [];
      assert History(job, w, all[..0]) == w;
    } else {
      assert all[..|all| - 1] == [s] + rest[..|rest| - 1];
      HistoryFrom(job, w, s, rest[..|rest| - 1]);
    }
  }

  lemma {:induction false} HistoryJoin(job: Job, w: World, first: seq<Step>, second: seq<Step>)
    ensures History(job, w, first + second) == History(job, History(job, w, first), second)
    decreases |second|
  {
    if second == [] {
      assert first + second == first;
    } else {
      assert (first + second)[..|first + second| - 1] == first + second[..|second| - 1];
      HistoryJoin(job, w, first, second[..|second| - 1]);
    }
  }

  /** From `w` only the call itself has moved, up to the point where it opens the pull request. */
  ghost predicate AtQuery(job: Job, w: World, w': World, call: nat) {
    && call in w.calls && BeforePull(job, w', call)
    && w'.calls == w.calls[call := w'.calls[call]] && w'.calls[call].Requeried?
  }

  lemma AtQueryFrom(job: Job, w: World, w1: World, w2: World, call: nat)
    requires call in w.calls && call in w1.calls && w1.calls == w.calls[call := w1.calls[call]]
    requires AtQuery(job, w1, w2, call)
    ensures AtQuery(job, w, w2, call)
  {
  }

  /** Its requests bring such a call to the point where it opens the pull request. */
  lemma {:induction false} ReachQuery(job: Job, w: World, call: nat) returns (steps: seq<Step>)
    requires BeforePull(job, w, call)
    ensures AtQuery(job, w, History(job, w, steps), call)
    decreases Remaining(w.calls[call])
  {
    if w.calls[call].Requeried? {
      steps := [];
    } else {
      var w' := OneRequestOn(job, w, call);
      var rest := ReachQuery(job, w', call);
      HistoryFrom(job, w, Request(call, Delivered, false), rest);
      AtQueryFrom(job, w, w', History(job, w', rest), call);
      steps := [Request(call, Delivered, false)] + rest;
    }
  }

  lemma OpensOne(job: Job, w: World, call: nat) returns (w': World)
    requires call in w.calls && w.calls[call].Requeried? && w.calls[call].existing == []
    requires w.repo.ref.Some? && !HasOpenPull(w.repo)
    ensures w' == Advanced(job, w, Request(call, Delivered, false))
    ensures w'.repo == w.repo.(pulls := w.repo.pulls + [PullRow(|w.repo.pulls|, w.repo.ref.value, true)])
    ensures w'.closed == w.closed && w'.calls == w.calls[call := w'.calls[call]]
    ensures w'.calls[call].Succeeded? && w'.calls[call].pull.number == |w.repo.pulls|
  {
    w' := RequestStep(job, w, call, Delivered, false);
    assert PullAccepted(w.repo);
  }

  lemma ThreeSteps(job: Job, w: World, a: Step, b: Step, c: Step)
    ensures History(job, w, [a, b, c]) == Advanced(job, Advanced(job, Advanced(job, w, a), b), c)
  {
    HistoryFrom(job, w, a, [b, c]);
    HistoryFrom(job, Advanced(job, w, a), b, [c]);
    HistoryFrom(job, Advanced(job, Advanced(job, w, a), b), c, []);
    assert [a] + [b, c] == [a, b, c] && [b] + [c] == [b, c] && [c] + [] == [c];
  }

  /** Both calls stand before opening: one opens, its pull request is closed by hand, the other opens a second. */
  lemma TwoOpen(job: Job, w: World)
    requires BeforePull(job, w, 0) && BeforePull(job, w, 1) && w.calls[0].Requeried? && w.calls[1].Requeried?
    ensures var w' := History(job, w, [Request(0, Delivered, false), ClosePull(0), Request(1, Delivered, false)]);
            && |w'.repo.pulls| == 2 && w'.closed == 1 && 0 in w'.calls && 1 in w'.calls
            && w'.calls[0].Succeeded? && w'.calls[0].pull.number == 0
            && w'.calls[1].Succeeded? && w'.calls[1].pull.number == 1
  {
    assert StageOk(job, w.repo, w.calls[0]) && w.repo.ref.Some?;
    var w1 := OpensOne(job, w, 0);
    var w2 := Advanced(job, w1, ClosePull(0));
    assert w2.repo == w1.repo.(pulls := [PullRow(0, w.repo.ref.value, false)]) && w2.closed == 1
           && w2.calls == w1.calls;
    var w3 := OpensOne(job, w2, 1);
    ThreeSteps(job, w, Request(0, Delivered, false), ClosePull(0), Request(1, Delivered, false));
  }

  lemma BothStart(job: Job, w0: World)
    requires Remote.Pristine(job, w0) && Current(job, w0.repo)
    ensures var w := History(job, w0, [StartCall(0), StartCall(1)]);
            BeforePull(job, w, 0) && BeforePull(job, w, 1)
  {
    var both := [StartCall(0), StartCall(1)];
    assert both[..1][..0] == [];
    assert History(job, w0, both[..1]) == Advanced(job, w0, StartCall(0));
    InvAlways(job, w0, both);
  }

  /**
    The bound of one more than the pull requests closed by hand is reached: wherever the base
    is current, two overlapping calls and one close by hand end with two pull requests, each
    call successful with its own.
  */
  lemma CloseAdmitsSecondPull(job: Job, w0: World) returns (steps: seq<Step>)
    requires Remote.Pristine(job, w0) && Current(job, w0.repo)
    ensures var w := History(job, w0, steps);
            && |w.repo.pulls| == 2 && w.closed == 1 && 0 in w.calls && 1 in w.calls
            && w.calls[0].Succeeded? && w.calls[0].pull.number == 0
            && w.calls[1].Succeeded? && w.calls[1].pull.number == 1
  {
    var both := [StartCall(0), StartCall(1)];
    BothStart(job, w0);
    var w1 := History(job, w0, both);
    var early := ReachQuery(job, w1, 0);
    var w2 := History(job, w1, early);
    assert w2.calls[1] == w1.calls[1];
    var late := ReachQuery(job, w2, 1);
    var w3 := History(job, w2, late);
    assert w3.calls[0] == w2.calls[0];
    TwoOpen(job, w3);
    var last := [Request(0, Delivered, false), ClosePull(0), Request(1, Delivered, false)];
    HistoryJoin(job, w2, late, last);
    HistoryJoin(job, w1, early, late + last);
    HistoryJoin(job, w0, both, early + (late + last));
    steps := both + (early + (late + last));
  }

  // ------------------------------------------------- tested content and pull request

  /** The workspace holds the base tree's content at every path the patch declares. */
  ghost predicate AgreesOnDeclared(base: Tree, files: Files, patch: Patch) {
    forall p :: p in DeclaredPaths(patch) ==>
      (p in base <==> p in files) && (p in base ==> base[p] == File(files[p]))
  }

  /**
    What was tested is what is proposed: applied to a workspace that agrees with the base
    tree on the declared paths, the patch is accepted iff the pull request can be built,
    and then tree and workspace agree on every declared path and on every other file they
    had in common.
  */
  lemma PullRequestIsTestedContent(base: Tree, files: Files, patch: Patch)
    requires patch.UnifiedDiff? && AgreesOnDeclared(base, files, patch)
    ensures Apply(files, patch).Some? <==> ApprovedTree(base, patch).Some?
    ensures Apply(files, patch).Some? ==>
              var tested, tree := Apply(files, patch).value, ApprovedTree(base, patch).value;
              && (forall p :: p in DeclaredPaths(patch) ==>
                    (p in tree <==> p in tested) && (p in tested ==> tree[p] == File(tested[p])))
              && (forall p :: p !in DeclaredPaths(patch) && p in base && p in files && base[p] == File(files[p]) ==>
                    p in tree && p in tested && tree[p] == File(tested[p]))
  {
    BothApply(base, files, patch);
    if Apply(files, patch).Some? {
      UnifiedChanges(Downloaded(base, patch), patch);
      UnifiedChanges(files, patch);
    }
  }

  /** The downloaded files and the workspace hold the same content at every declared path. */
  lemma BothApply(base: Tree, files: Files, patch: Patch)
    requires patch.UnifiedDiff? && AgreesOnDeclared(base, files, patch)
    ensures Apply(files, patch).Some? <==> ApprovedTree(base, patch).Some?
  {
    var local := Downloaded(base, patch);
    forall p | p in DeclaredPaths(patch)
      ensures Content(local, p) == Content(files, p)
    {
    }
    assert ApplyRaw(local, patch).Some? <==> ApplyRaw(files, patch).Some?;
    if ApplyRaw(files, patch).Some? {
      UnifiedChanges(local, patch);
      UnifiedChanges(files, patch);
    }
  }

  /** A unified diff changes exactly the declared paths whose before and after differ. */
  lemma UnifiedChanges(files: Files, patch: Patch)
    requires patch.UnifiedDiff? && ApplyRaw(files, patch).Some?
    ensures ChangedPaths(files, ApplyRaw(files, patch).value)
            == set p | p in patch.changes && patch.changes[p].before != patch.changes[p].after
    ensures forall p :: p in patch.changes ==> Content(ApplyRaw(files, patch).value, p) == patch.changes[p].after
  {
    var after := ApplyRaw(files, patch).value;
    forall p
      ensures Content(after, p) == if p in patch.changes then patch.changes[p].after else Content(files, p)
    {
    }
  }
}
