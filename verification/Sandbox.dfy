/** Ephemeral workspaces: copied from a source, patched, tested, destroyed. */
module Sandbox {
  import opened Options
  import opened Patches

  /** What commits hold, and the paths that the copy leaves out by their names. */
  datatype Repository = Repository(commits: map<string, Files>, excluded: set<Path>)

  /** The reference source as the copy finds it; a checkout also holds files Git does not track. */
  datatype Source =
    | Missing
    | NoGit(files: Files)
    | Git(sha: string, tracked: Files, untracked: Files, ignored: Files)

  /** `origin` is the content copied from `source`; `files` is the workspace now. */
  datatype Workspace = Workspace(source: Source, origin: Files, base: Base, files: Files)

  function TreeAt(repo: Repository, sha: string): Files {
    if sha in repo.commits then repo.commits[sha] else map[]
  }

  /** `git status --porcelain` prints nothing: it reports neither unchanged nor ignored files. */
  predicate Clean(repo: Repository, source: Source) {
    source.Git? && source.tracked == TreeAt(repo, source.sha) && source.untracked == map[]
  }

  function Everything(source: Source): Files {
    match source
    case Missing => map[]
    case NoGit(files) => files
    case Git(_, tracked, untracked, ignored) => ignored + untracked + tracked
  }

  function Kept(repo: Repository, files: Files): Files {
    map p | p in files && p !in repo.excluded :: files[p]
  }

  function BaseOf(repo: Repository, source: Source): Base {
    if Clean(repo, source) then Commit(source.sha) else Unversioned
  }

  function Copied(repo: Repository, source: Source): Workspace {
    var origin := Kept(repo, Everything(source));
    Workspace(source, origin, BaseOf(repo, source), origin)
  }

  /** A protected environment refuses a checkout that is not clean. */
  function Created(repo: Repository, source: Source, isProtected: bool): Option<Workspace> {
    if source.Missing? || (isProtected && source.Git? && !Clean(repo, source)) then None
    else Some(Copied(repo, source))
  }

  /** The workspace was copied from its source, whatever happened to its files since. */
  ghost predicate Faithful(repo: Repository, w: Workspace) {
    w.origin == Copied(repo, w.source).origin && w.base == BaseOf(repo, w.source)
  }

  /** Untouched since it was copied. */
  predicate Pristine(w: Workspace) {
    w.files == w.origin
  }

  /** The copied content with exactly this one patch applied. */
  predicate Patched(w: Workspace, p: Patch) {
    Apply(w.origin, p) == Some(w.files)
  }

  // ------------------------------------------------------ what a recorded commit means

  /** Some file that Git ignores is not in the commit, and the copy takes it. */
  predicate CopiesIgnored(repo: Repository, source: Source)
    requires source.Git?
  {
    exists p :: p in source.ignored && p !in repo.excluded && p !in source.tracked
  }

  /**
    Where a commit is recorded, every file of the commit that the copy keeps has that
    commit's content, every other file in the copy is an ignored one, and the copy is the
    commit's tree if and only if no ignored file was taken along.
  */
  lemma RecordedCommitMeans(repo: Repository, source: Source)
    requires BaseOf(repo, source).Commit?
    ensures var tree, copy := Kept(repo, TreeAt(repo, source.sha)), Copied(repo, source).origin;
            && BaseOf(repo, source).sha == source.sha
            && (forall p :: p in tree ==> p in copy && copy[p] == tree[p])
            && (forall p :: p in copy && p !in tree ==> p in source.ignored)
            && (copy == tree <==> !CopiesIgnored(repo, source))
  {
    var tree, copy := Kept(repo, TreeAt(repo, source.sha)), Copied(repo, source).origin;
    assert forall p :: p in copy <==> p in tree || (p in source.ignored && p !in repo.excluded);
    if CopiesIgnored(repo, source) {
      var p :| p in source.ignored && p !in repo.excluded && p !in source.tracked;
      assert p in copy && p !in tree;
    } else {
      assert copy.Keys == tree.Keys;
    }
  }

  /** So one recorded commit can stand for different copies: here with and without coverage data. */
  lemma OneCommitTwoCopies() returns (repo: Repository, plain: Source, littered: Source)
    ensures BaseOf(repo, plain) == BaseOf(repo, littered) == Commit("c0")
    ensures Copied(repo, plain).origin != Copied(repo, littered).origin
  {
    var tree: Files := map["app.py" := "x"];
    repo := Repository(map["c0" := tree], {});
    plain, littered := Git("c0", tree, map[], map[]), Git("c0", tree, map[], map[".coverage" := "y"]);
    assert ".coverage" in Copied(repo, littered).origin;
    assert ".coverage" !in Copied(repo, plain).origin;
  }

  datatype TestResult = TestResult(ok: bool, exitCode: int)

  /** Edits are applied one after the other: stopping after a prefix and going on is the whole list. */
  lemma {:induction false} ApplyEditsSplit(files: Files, edits: seq<Edit>, k: nat)
    requires k <= |edits|
    ensures ApplyEdits(files, edits)
            == match ApplyEdits(files, edits[..k])
               case None => None
               case Some(mid) => ApplyEdits(mid, edits[k..])
    decreases k
  {
    if k > 0 {
      assert edits[..k][0] == edits[0];
      assert edits[..k][1..] == edits[1..][..k - 1];
      assert edits[1..][k - 1..] == edits[k..];
      match ApplyEdit(files, edits[0])
      case None =>
      case Some(next) => ApplyEditsSplit(next, edits[1..], k - 1);
    } else {
      assert edits[..0] == [] && edits[0..] == edits;
    }
  }

  lemma ApplyOne(files: Files, e: Edit)
    ensures ApplyEdits(files, [e]) == ApplyEdit(files, e)
  {
    assert [e][0] == e && [e][1..] == [];
  }

  /** The text of an edited file, once the first occurrence is known. */
  lemma EditAt(files: Files, e: Edit, at: Option<nat>)
    requires e.path in files && at == FirstAt(files[e.path], e.find, 0)
    ensures at.None? ==> ApplyEdit(files, e).None?
    ensures at.Some? ==>
              ApplyEdit(files, e)
              == Some(files[e.path := files[e.path][..at.value] + e.replace + files[e.path][at.value + |e.find|..]])
  {
  }

  /** One more edit: the prefix grows by it, and a failing edit fails the whole list. */
  lemma EditStep(files: Files, edits: seq<Edit>, i: nat, mid: Files)
    requires i < |edits| && ApplyEdits(files, edits[..i]) == Some(mid)
    ensures ApplyEdits(files, edits[..i + 1]) == ApplyEdit(mid, edits[i])
    ensures ApplyEdit(mid, edits[i]).None? ==> ApplyEdits(files, edits).None?
  {
    assert edits[..i + 1][..i] == edits[..i] && edits[..i + 1][i..] == [edits[i]];
    ApplyEditsSplit(files, edits[..i + 1], i);
    ApplyEditsSplit(files, edits, i + 1);
    ApplyOne(mid, edits[i]);
  }

  /** Files a list of edits does not name keep their content. */
  lemma {:induction false} EditsKeepOthers(files: Files, edits: seq<Edit>, path: Path)
    requires ApplyEdits(files, edits).Some?
    requires forall i :: 0 <= i < |edits| ==> edits[i].path != path
    ensures Content(ApplyEdits(files, edits).value, path) == Content(files, path)
    decreases |edits|
  {
    if edits != [] {
      var next := ApplyEdit(files, edits[0]).value;
      assert Content(next, path) == Content(files, path);
      EditsKeepOthers(next, edits[1..], path);
    }
  }

  class SandboxManager {
    const repo: Repository
    const isProtected: bool
    var workspaces: map<string, Workspace>

    constructor (repo: Repository, isProtected: bool)
      ensures this.repo == repo && this.isProtected == isProtected && workspaces == map[]
    {
      this.repo, this.isProtected, workspaces := repo, isProtected, map[];
    }

    method DestroyWorkspace(run: string)
      modifies this
      ensures workspaces == old(workspaces) - {run}
    {
      workspaces := workspaces - {run};
    }

    /** Any earlier workspace of the run is destroyed first. */
    method CreateWorkspace(run: string, source: Source) returns (created: bool)
      modifies this
      ensures created <==> Created(repo, source, isProtected).Some?
      ensures created ==>
                && run in workspaces && workspaces[run] == Created(repo, source, isProtected).value
                && Pristine(workspaces[run]) && Faithful(repo, workspaces[run])
      ensures workspaces - {run} == old(workspaces) - {run}
    {
      if source.Missing? {
        return false;
      }
      DestroyWorkspace(run);
      var copy := Kept(repo, Everything(source));
      var base := Unversioned;
      var dirty := false;
      if source.Git? {
        base := Commit(source.sha);
        if source.tracked != TreeAt(repo, source.sha) || source.untracked != map[] {
          base, dirty := Unversioned, true;
        }
      }
      workspaces := workspaces[run := Workspace(source, copy, base, copy)];
      created := !(dirty && isProtected);
    }

    /** The replacements, written one after the other; a failing one leaves the earlier ones behind. */
    method WriteEdits(run: string, edits: seq<Edit>) returns (written: bool)
      requires run in workspaces
      modifies this
      ensures run in workspaces
              && workspaces == old(workspaces)[run := old(workspaces)[run].(files := workspaces[run].files)]
      ensures written <==> ApplyEdits(old(workspaces)[run].files, edits).Some?
      ensures written ==> workspaces[run].files == ApplyEdits(old(workspaces)[run].files, edits).value
      ensures exists k ::
                0 <= k <= |edits| && ApplyEdits(old(workspaces)[run].files, edits[..k]) == Some(workspaces[run].files)
    {
      ghost var before := workspaces[run].files;
      var files := workspaces[run].files;
      var i := 0;
      while i < |edits|
        invariant 0 <= i <= |edits|
        invariant workspaces == old(workspaces)[run := old(workspaces)[run].(files := files)]
        invariant ApplyEdits(before, edits[..i]) == Some(files)
      {
        var item := edits[i];
        EditStep(before, edits, i, files);
        if item.path !in files {
          return false;
        }
        var text := files[item.path];
        var found := FirstAt(text, item.find, 0);
        EditAt(files, item, found);
        if found.None? {
          return false;
        }
        files := files[item.path := text[..found.value] + item.replace + text[found.value + |item.find|..]];
        workspaces := workspaces[run := workspaces[run].(files := files)];
        i := i + 1;
      }
      assert edits[..|edits|] == edits;
      written := true;
    }

    /**
      Applies a patch in place. A rejected patch may leave earlier edits behind, but never
      touches a file that the patch does not declare.
    */
    method ApplyPatch(run: string, p: Patch) returns (applied: bool)
      requires run in workspaces
      modifies this
      ensures run in workspaces
              && workspaces == old(workspaces)[run := old(workspaces)[run].(files := workspaces[run].files)]
      ensures applied <==> Apply(old(workspaces)[run].files, p).Some?
      ensures applied ==> workspaces[run].files == Apply(old(workspaces)[run].files, p).value
      ensures forall path :: path !in DeclaredPaths(p) ==>
                Content(workspaces[run].files, path) == Content(old(workspaces)[run].files, path)
    {
      if !WellFormed(p) {
        return false;
      }
      var before := workspaces[run].files;
      match p {
        case SimpleReplace(edits) =>
          var written := WriteEdits(run, edits);
          ghost var k :| 0 <= k <= |edits| && ApplyEdits(before, edits[..k]) == Some(workspaces[run].files);
          forall path | path !in DeclaredPaths(p)
            ensures Content(workspaces[run].files, path) == Content(before, path)
          {
            EditsKeepOthers(before, edits[..k], path);
          }
          if !written {
            return false;
          }
        case UnifiedDiff(changes) =>
          if exists path :: path in changes && Content(before, path) != changes[path].before {
            return false;
          }
          workspaces := workspaces[run := workspaces[run].(files := Written(before, changes))];
      }
      var after := workspaces[run].files;
      applied := ChangedPaths(before, after) == DeclaredPaths(p);
    }

    /** `exit` is the test process, `touched` the tree it leaves; a changed tree is an error. */
    method RunTests(run: string, exit: int, touched: Files) returns (result: Option<TestResult>)
      ensures result.Some? <==> run in workspaces && touched == workspaces[run].files
      ensures result.Some? ==> result.value.exitCode == exit && (result.value.ok <==> exit == 0)
    {
      if run !in workspaces || touched != workspaces[run].files {
        return None;
      }
      result := Some(TestResult(exit == 0, exit));
    }

    /** From a fresh copy to an applied patch: the tree is the base with this one patch. */
    method FreshCandidate(run: string, source: Source, p: Patch) returns (ready: bool)
      modifies this
      ensures ready <==> Created(repo, source, isProtected).Some? && Apply(Copied(repo, source).origin, p).Some?
      ensures ready ==> run in workspaces && Patched(workspaces[run], p) && Faithful(repo, workspaces[run])
    {
      ready := CreateWorkspace(run, source);
      if ready {
        ready := ApplyPatch(run, p);
      }
    }
  }
}
