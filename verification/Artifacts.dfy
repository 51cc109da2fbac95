/** Immutable patch artifacts, their test records, and what an approval binds to. */
module Artifacts {
  import opened Options
  import opened RunStatus
  import opened Patches

  type RunId = string
  /** Generated ids (`PA-…`, `TR-…`) are opaque tokens. */
  type ArtifactId = nat
  type TestId = nat

  /** SHA-256 of a patch text; the preimage stands for the digest, so hashing is injective. */
  datatype Digest = Sha256(preimage: Patch)

  function HashPatch(diff: Patch): Digest {
    Sha256(diff)
  }

  datatype Artifact = Artifact(
    id: ArtifactId, run: RunId, base: Base, diff: Patch, hash: Digest, test: TestId, immutable: bool)

  datatype TestRow = TestRow(run: RunId, passed: bool, exitCode: int, hash: Digest, base: Base)

  datatype Tables = Tables(artifacts: map<ArtifactId, Artifact>, tests: map<TestId, TestRow>)

  datatype Binding = Binding(artifact: ArtifactId, hash: Digest, base: Base, test: TestId)

  function BindingOf(a: Artifact): Binding {
    Binding(a.id, a.hash, a.base, a.test)
  }

  datatype Approval = Approval(decision: Decision, payload: Binding)

  /** The test record an artifact names passed, with exit code 0, on the same patch and base. */
  predicate TestSupports(t: Tables, run: RunId, a: Artifact) {
    && a.test in t.tests
    && t.tests[a.test].run == run
    && t.tests[a.test].passed
    && t.tests[a.test].exitCode == 0
    && t.tests[a.test].hash == a.hash
    && t.tests[a.test].base == a.base
  }

  predicate Validates(t: Tables, run: RunId, id: ArtifactId) {
    && id in t.artifacts
    && t.artifacts[id].run == run
    && t.artifacts[id].immutable
    && HashPatch(t.artifacts[id].diff) == t.artifacts[id].hash
    && TestSupports(t, run, t.artifacts[id])
  }

  /** `validated_artifact`: the requested id, or the one the run result names. */
  function ValidatedArtifact(t: Tables, run: RunId, requested: Option<ArtifactId>,
                             named: Option<ArtifactId>): Option<Artifact> {
    var id := if requested.Some? then requested else named;
    if id.Some? && Validates(t, run, id.value) then Some(t.artifacts[id.value]) else None
  }
}
