/**
  Source trees and patches. A patch is either a list of first-occurrence
  replacements, applied in order, or a unified diff, whose effect on each file it
  names is the before and after content that `git apply` checks and writes.
*/
module Patches {
  import opened Options

  type Path = string
  type Files = map<Path, string>

  datatype Edit = Edit(path: Path, find: string, replace: string)
  datatype Change = Change(before: Option<string>, after: Option<string>)
  datatype Patch = SimpleReplace(edits: seq<Edit>) | UnifiedDiff(changes: map<Path, Change>)

  /** What is recorded of a workspace's source: the commit of a clean checkout, or UNVERSIONED. */
  datatype Base = Unversioned | Commit(sha: string)

  function Content(files: Files, path: Path): Option<string> {
    if path in files then Some(files[path]) else None
  }

  // -------------------------------------------------- replace(find, with, 1)

  predicate OccursAt(text: string, find: string, at: nat) {
    at + |find| <= |text| && text[at..at + |find|] == find
  }

  /** The first position, from `from` on, at which `find` occurs. */
  function FirstAt(text: string, find: string, from: nat): (at: Option<nat>)
    requires from <= |text|
    ensures at.Some? ==> from <= at.value && OccursAt(text, find, at.value)
    ensures at.Some? ==> forall k :: from <= k < at.value ==> !OccursAt(text, find, k)
    ensures at.None? ==> forall k :: from <= k <= |text| ==> !OccursAt(text, find, k)
    decreases |text| - from
  {
    if OccursAt(text, find, from) then Some(from)
    else if from == |text| then None
    else FirstAt(text, find, from + 1)
  }

  function ReplaceFirst(text: string, find: string, replace: string): Option<string> {
    match FirstAt(text, find, 0)
    case None => None
    case Some(at) => Some(text[..at] + replace + text[at + |find|..])
  }

  // ---------------------------------------------------------- applying patches

  function ApplyEdit(files: Files, e: Edit): Option<Files> {
    if e.path !in files then None
    else
      match ReplaceFirst(files[e.path], e.find, e.replace)
      case None => None
      case Some(text) => Some(files[e.path := text])
  }

  function ApplyEdits(files: Files, edits: seq<Edit>): Option<Files> {
    if edits == [] then Some(files)
    else
      match ApplyEdit(files, edits[0])
      case None => None
      case Some(next) => ApplyEdits(next, edits[1..])
  }

  function DeclaredPaths(p: Patch): set<Path> {
    match p
    case SimpleReplace(edits) => set i | 0 <= i < |edits| :: edits[i].path
    case UnifiedDiff(changes) => changes.Keys
  }

  function ChangedPaths(before: Files, after: Files): set<Path> {
    set p | p in before.Keys + after.Keys && Content(before, p) != Content(after, p)
  }

  /** What `patch_paths` accepts: at least one edit, and no empty search string. */
  predicate WellFormed(p: Patch) {
    match p
    case SimpleReplace(edits) => edits != [] && forall i :: 0 <= i < |edits| ==> edits[i].find != ""
    case UnifiedDiff(changes) => changes != map[]
  }

  function Written(files: Files, changes: map<Path, Change>): Files {
    map p | p in files.Keys + changes.Keys
            && (p in changes ==> changes[p].after.Some?) ::
      if p in changes then changes[p].after.value else files[p]
  }

  function ApplyRaw(files: Files, p: Patch): Option<Files> {
    match p
    case SimpleReplace(edits) => ApplyEdits(files, edits)
    case UnifiedDiff(changes) =>
      if forall path :: path in changes ==> Content(files, path) == changes[path].before
      then Some(Written(files, changes)) else None
  }

  /** `apply_patch`: the edits apply, and exactly the declared paths change. */
  function Apply(files: Files, p: Patch): Option<Files> {
    if !WellFormed(p) then None
    else
      match ApplyRaw(files, p)
      case None => None
      case Some(after) => if ChangedPaths(files, after) == DeclaredPaths(p) then Some(after) else None
  }

  /** Outside the declared paths nothing changes, and every declared path does. */
  lemma ApplyTouchesExactlyDeclared(files: Files, p: Patch, path: Path)
    requires Apply(files, p).Some?
    ensures path in DeclaredPaths(p) <==> Content(files, path) != Content(Apply(files, p).value, path)
  {
    var after := Apply(files, p).value;
    assert path in ChangedPaths(files, after) <==> Content(files, path) != Content(after, path);
  }
}
