# IncidentPilot: verified model

IncidentPilot investigates incidents with an agent, tests a patch in a sandbox, waits for a
human, and opens a pull request. This project models the parts whose correctness spans
processes, crashes and retries, and proves what every history of them keeps.

- **Leases and fencing** (`Lease`, `LeaseSafety`, `LeaseTheorems`, `LeaseQueue`, `JobStore`,
  `Worker`). Rows of `agent_runs` as a map, one step per SQL transaction. A fence and the
  write it guards are one step, because the conditional UPDATE holds the row lock until the
  commit. Any number of workers appear as the claims they hold; a crashed worker is a claim
  never used again, a stalled one a claim used late. `JobStore` is the object the services
  call; each method is proved to be its step. `Worker` is one claim in a worker's hands,
  from execution to release or retry.
- **Approval to pull request** (`Ledger`, `LedgerSafety`, `LedgerTheorems`,
  `ApprovalResume`, `ApprovalOutcome`). The resume is cut at every commit and at every read
  it uses later; any other step may fall in between. `ApprovalResume` is the code in its
  own order, proved to be the run of those stages; `ApprovalOutcome` says what it achieves.
- **GitHub** (`Remote`, `RemoteSafety`, `RemoteTheorems`, `GitHubClient`). Unique refs, one
  open pull request per head, trees known by content, fresh commit ids. Calls overlap and
  break off before or after any request took effect. `GitHubClient` is the sequential code.
  `PullRequests` joins both sides: the resume's call is one of these calls, and the reply
  it goes on with is that call's own result. `Delivery` says when a resume that is left
  alone delivers.
- **The investigation graph** (`Workflow`, `WorkflowShape`, `WorkflowEvidence`,
  `WorkflowPatches`, `WorkflowSources`, `WorkflowSteps`, with `Evidence`, `Gateway`,
  `Sandbox`, `Patches`, `Artifacts`). All nodes and edges, the checkpoint after each node,
  recovery that loses the workspace and the counters. Model answers, tool outcomes, sources
  and test results are arbitrary. `WorkflowRuns` builds concrete histories,
  `WorkflowOverspend` and `WorkflowReplay` use them to reach what recovery lets through.
- **Heartbeat** (`Heartbeat`), **envelope** (`Envelope`), **paging** (`Paging`). Three
  loops with real arithmetic, each proved against its specification.

SHA-256 is taken as injective and generated ids as fresh. `RunStatus` holds the statuses
and their transition table, `Options` the nullable column.

Where code and documentation or settings part ways, the model follows the code:

- `decide` does not reset `attempt_count`, so an APPROVE on the last attempt leaves a run
  that no claim accepts (`LeaseTheorems.ApproveOnLastAttemptStrands`).
- Nothing requires the heartbeat to be shorter than the lease
  (`Heartbeat.SafeExactlyWhenBeatIsShorter`).
- Admission bounds only runs that were never claimed; retries and approvals overfill the
  queue exactly when they find it full (`LeaseQueue.QueueBoundExactly`).
- The step budget is lost when a crash follows a rejected hypothesis; under the default
  settings, 20 steps and 40 calls, a history takes 40 steps. `WorkflowSteps.Most` is the
  exact maximum for every configuration (`WorkflowSteps.StepBudget`,
  `WorkflowOverspend.MostIsReached`), and `WorkflowOverspend.OverspendsExactly` says which
  settings let recovery overspend. The tool budget is not lost.
- The edge from export to the approval interrupt is unconditional, so reaching that node
  does not mean WAITING_APPROVAL; theorems speak of the status.
- A recorded commit does not determine the copy, since `git status` is silent about ignored
  files that the copy takes (`Sandbox.RecordedCommitMeans`, `Sandbox.OneCommitTwoCopies`).
- An unversioned base is recorded as one constant, so a replay after recovery goes ahead on
  any other unversioned source (`WorkflowSources.ReplayNotices`,
  `WorkflowReplay.ReplayMissesAChange`).
- `omitted_items` miscounts when the input has a list of that name
  (`Envelope.CountedExactlyWhen`, `Envelope.MiscountedInput`).

`dafny verify dfyconfig.toml` checks everything.

## Model

| member | source | states |
|---|---|---|
| `LeaseTheorems.FencingSafety` | src/incidentpilot/persistence/ownership.py:19-40 | In every history of any workers, with crashes, late writes and reused worker ids: a (run, attempt) is issued at most once, claims and committed writes of a run come in non-decreasing attempt order, and every write is made under a claim that was really issued and is the latest of its run at that moment |
| `LeaseTheorems.LatestAtWrite` | src/incidentpilot/persistence/ownership.py:31-40 | At the moment of a committed write its claim is the latest one issued for the run |
| `LeaseTheorems.LostForever` | src/incidentpilot/persistence/ownership.py:28-40 | A claim that has once lost its fence never passes it again, whatever happens later; the clock `retry_claim` reads is arbitrary |
| `LeaseTheorems.StepRefinesTransitions` | src/incidentpilot/models/enums.py:105-114 | Every status change of every transaction lies in the transition table although only `mark_status` consults it, and the attempt count moves by at most one, upwards |
| `LeaseTheorems.TerminalAbsorbing` | src/incidentpilot/models/enums.py:97-114 | A terminal run keeps its status and attempt count in every continuation |
| `LeaseTheorems.ClaimsBounded` | src/incidentpilot/persistence/jobs.py:97-128 | No history holds more claims than `max_job_attempts` for each admitted run |
| `LeaseTheorems.StrandedExactly` | src/incidentpilot/persistence/jobs.py:97-108 | A PENDING or RUNNING row can still be claimed or expired at some later time if and only if it is not a PENDING row whose attempts are used up, and those were all re-queued by an APPROVE; a RUNNING row always carries a lease |
| `LeaseTheorems.StrandedForever` | src/incidentpilot/persistence/jobs.py:97-111 | A row stranded that way is never touched again by any continuation |
| `LeaseTheorems.ApproveOnLastAttemptStrands` | src/incidentpilot/services/incidents.py:165-179 | For every configuration a history in which the APPROVE follows the last attempt strands the run: `decide` leaves `attempt_count` as it is |
| `LeaseTheorems.AdmissionBound` | src/incidentpilot/persistence/jobs.py:51-58 | Over all interleavings the never-claimed PENDING rows stay within `max_queued_runs` |
| `LeaseQueue.StepOverfillsExactly` | src/incidentpilot/persistence/jobs.py:221-224 | One step takes the queue over `max_queued_runs` if and only if it re-queues a run, by a retry or an approval, while the queue is full |
| `LeaseQueue.QueueBoundExactly` | src/incidentpilot/persistence/jobs.py:51-58 | Over any history the whole queue stays within the limit at every moment if and only if no retry and no approval re-queues a run at a moment when it is full |
| `LeaseQueue.QueueIsUnbounded` | src/incidentpilot/services/incidents.py:155-179 | Under every configuration and for every n some history has n runs PENDING at once: approvals re-queue without an admission check |
| `JobStore.JobStore.CreateIncidentAndRun` | src/incidentpilot/persistence/jobs.py:42-83 | Admission succeeds exactly below the limit and is the admission step of the protocol |
| `JobStore.JobStore.ClaimNextRun` | src/incidentpilot/persistence/jobs.py:86-136 | Returns nothing exactly when no unlocked row is eligible; otherwise a first one in the queue order, with the next attempt number, as the claim step |
| `JobStore.SomeRunIsFirst` | src/incidentpilot/persistence/jobs.py:112-118 | A non-empty set of candidates always has a first row in the order by next attempt (nulls first) and start time |
| `JobStore.JobStore.RenewLease` | src/incidentpilot/persistence/jobs.py:139-164 | Extends an unexpired lease of the same worker and attempt, and nothing else |
| `JobStore.JobStore.ReleaseClaim` | src/incidentpilot/persistence/jobs.py:167-181 | Clears worker and lease of the row that names this worker and attempt |
| `JobStore.JobStore.RetryClaim` | src/incidentpilot/persistence/jobs.py:184-226 | Re-queues, or hands to a human once attempts are used up, exactly when worker, attempt, status and lease (on the worker's clock) still match |
| `JobStore.JobStore.ExpireExhaustedRuns` | src/incidentpilot/persistence/jobs.py:229-255 | Ends exactly the rows that are RUNNING, expired and out of attempts, and counts them |
| `JobStore.JobStore.Fence` | src/incidentpilot/persistence/ownership.py:19-40 | Holds exactly for the claim, run, attempt, status and unexpired lease on the row |
| `JobStore.JobStore.FencedCommit` | src/incidentpilot/persistence/ownership.py:28-40 | A commit of other tables in the fenced transaction is one write of the claim and leaves the row as it is |
| `JobStore.JobStore.MarkRunning` | src/incidentpilot/services/incidents.py:66-85 | Sets RUNNING under the fence and does nothing without it |
| `JobStore.JobStore.MarkStatus` | src/incidentpilot/services/incidents.py:87-126 | For any target and flag: commits exactly when the fence holds, the table allows the change and the row still has the status the caller saw; the three refusals are told apart |
| `JobStore.JobStore.Decide` | src/incidentpilot/services/incidents.py:133-200 | Records a decision exactly when the artifact is valid, the run waits for approval and has no approval row yet, and binds the artifact |
| `Worker.RefusedMeansOver` | src/incidentpilot/agent/executor.py:119-124 | When `_halt` leaves a run alone because of the status it saw, however long ago, the attempt is over |
| `Worker.DurableWorker.Halt` | src/incidentpilot/agent/executor.py:115-136 | Returns only when the attempt is over, by its own write or by what it saw |
| `Worker.DurableWorker.Execute` | src/incidentpilot/agent/executor.py:138-198 | However the workflow ends, a return means that the attempt has left RUNNING or was superseded |
| `Worker.DurableWorker.ExecuteClaim` | src/incidentpilot/worker.py:114-176 | Release after a return, a human after a ValueError or TypeError, a retry otherwise: each transaction is a step of the protocol, and a release never touches a running attempt |
| `LeaseSafety.OverForever` | src/incidentpilot/worker.py:141-145 | An attempt that is over stays so in every continuation, so the release may come at any later time |
| `LedgerTheorems.AuthorisedOnlyWhenApproved` | src/incidentpilot/agent/approval_resume.py:40-62 | A GitHub request is authorised only for a run whose one approval row is an APPROVE with the binding of exactly the patch sent, backed by a PASSED, exit-code-0 test of that patch on that base |
| `LedgerTheorems.OneArtifactPerRun` | src/incidentpilot/services/artifacts.py:9-32 | All requests ever authorised for one run are for one and the same artifact |
| `LedgerTheorems.LedgerSafe` | src/incidentpilot/agent/approval_resume.py:64-159 | After an effect is COMPLETED no attempt authorises a call and none completes it again; a RESOLVED run has a COMPLETED effect with the same pull request in its result; across takeovers between every two commits |
| `LedgerTheorems.DecisionsArePermanent` | src/incidentpilot/services/incidents.py:165-197 | Approval rows, artifacts and completed effects are the same in every continuation |
| `LedgerTheorems.ApprovedNeverWaits` | src/incidentpilot/services/incidents.py:155-182 | A run with a decision never enters WAITING_APPROVAL again |
| `LedgerTheorems.RejectedHasNoEffect` | src/incidentpilot/worker.py:178-187 | A rejected run stays with a human: no side-effect row and no authorised request, ever |
| `ApprovalResume.ApprovalResume.MarkRunning` | src/incidentpilot/agent/executor.py:173-185 | The first commit of a resume is the stage `Begin` of the protocol |
| `ApprovalResume.ApprovalResume.Bind` | src/incidentpilot/agent/approval_resume.py:40-46 | Passes on exactly the artifact the persisted APPROVE still binds |
| `ApprovalResume.ApprovalResume.Announce` | src/incidentpilot/agent/approval_resume.py:58-71 | Announces the pull request under the fence, then reads the effect row by its key |
| `ApprovalResume.ApprovalResume.Reuse` | src/incidentpilot/agent/approval_resume.py:75-87 | A completed effect ends the run with its own pull request and leaves the effect row alone |
| `ApprovalResume.ApprovalResume.Open` | src/incidentpilot/agent/approval_resume.py:88-100 | Opens or reopens the effect row before anything is called, or stops |
| `ApprovalResume.ApprovalResume.Authorise` | src/incidentpilot/agent/approval_resume.py:102-105 | One more fence and commit stand between the opened effect and the call |
| `ApprovalResume.ApprovalResume.Call` | src/incidentpilot/agent/approval_resume.py:102-123 | One more fence, then the call |
| `ApprovalResume.ApprovalResume.Record` | src/incidentpilot/agent/approval_resume.py:124-147 | The answer goes to the effect row under the fence |
| `ApprovalResume.ApprovalResume.Finish` | src/incidentpilot/agent/approval_resume.py:128-159 | The run ends RESOLVED or FAILED, or is left to the worker's retry |
| `ApprovalResume.ApprovalResume.Resume` | src/incidentpilot/agent/approval_resume.py:20-159 | The whole resume, run without interference, is the run of the protocol's stages |
| `ApprovalResume.RunsAreHistory` | src/incidentpilot/agent/approval_resume.py:20-159 | Such a run is one of the histories the ledger theorems quantify over |
| `ApprovalOutcome.ResumeOutcome` | src/incidentpilot/agent/approval_resume.py:64-159 | After any history, an undisturbed resume of an approved run ends within ten stages: resolved with the recorded pull request and no call if an earlier attempt completed the effect, otherwise after exactly one authorised call whose answer decides effect row, run status and result |
| `PullRequests.ResolvedMeansPullRequest` | src/incidentpilot/agent/approval_resume.py:107-159 | With control plane and GitHub in one world, over every interleaving: a RESOLVED run records a pull request that exists, on a branch head with the base tree plus the approved and tested patch and the approved base as sole parent, one of at most one more than were closed by hand |
| `Delivery.UndisturbedResume` | src/incidentpilot/agent/approval_resume.py:20-159 | After any history of both sides, a claim that holds an approved run and is left alone ends it RESOLVED, with its pull request in place, if and only if an earlier attempt completed the effect, or the base branch is still at the approved base and the patch applies; otherwise FAILED |
| `Delivery.CallIsNew` | src/incidentpilot/agent/approval_resume.py:107-114 | A claim that has not called yet finds no call of its attempt on GitHub: attempts are issued once |
| `RemoteSafety.ApprovedTreeIsBasePlusPatch` | src/incidentpilot/github/integration.py:126-162 | The posted tree is the base tree with the approved patch: declared paths as the patch leaves them, every other entry as in the base |
| `RemoteSafety.ExactlyOnce` | src/incidentpilot/github/integration.py:112-201 | For any overlapping calls, each able to stop before or after any request took effect: the branch is created at most once, its head has the base tree plus the approved patch and the approved base as sole parent, the pull requests are exactly those closed by hand and the open one, if one is, and every successful call names one of them on that head |
| `RemoteSafety.OnePullRequest` | src/incidentpilot/github/integration.py:180-197 | While nobody closes a pull request by hand there is one, and every successful call names it |
| `RemoteSafety.BranchNeverMoves` | src/incidentpilot/github/integration.py:164-179 | Once the branch exists its head is the same in every continuation |
| `RemoteTheorems.UndisturbedCallSucceeds` | src/incidentpilot/github/integration.py:164-201 | From any stage of any history a call that is no longer disturbed succeeds within twelve requests while the base is current |
| `RemoteTheorems.RecoveryReconcilesExactly` | src/incidentpilot/github/integration.py:112-201 | After any history a new undisturbed call succeeds if and only if the approved base is still the branch head and the patch applies to it |
| `RemoteTheorems.CloseAdmitsSecondPull` | src/incidentpilot/github/integration.py:180-190 | Wherever the base is current, a history from the untouched repository with two overlapping calls and one close by hand ends with two pull requests, both calls successful |
| `RemoteTheorems.PullRequestIsTestedContent` | src/incidentpilot/github/integration.py:133-162 | The pull request can be built exactly when the patch applies to the tested workspace, and both then agree on every declared path |
| `GitHubClient.BuildTree` | src/incidentpilot/github/integration.py:127-162 | The loops over downloaded files and posted changes yield the approved tree, or fail where it does not exist |
| `GitHubClient.PostedIsOverlay` | src/incidentpilot/github/integration.py:153-162 | Posting the changed paths one by one lays the patched files over the base tree |
| `GitHubClient.GitHubIntegration.EnsureBranch` | src/incidentpilot/github/integration.py:164-176 | Creates commit and branch only when the branch is missing, never overwrites it |
| `GitHubClient.GitHubIntegration.EnsurePull` | src/incidentpilot/github/integration.py:180-197 | Takes the listed pull request, opens one, or reconciles a refusal, as the protocol's stages do, with a listing of any age |
| `GitHubClient.GitHubIntegration.CreatePullRequest` | src/incidentpilot/github/integration.py:86-207 | The sequential code is the undisturbed run of the stages and records what it created |
| `GitHubClient.SettleIsDrive` | src/incidentpilot/github/integration.py:112-201 | That run is what the world of overlapping calls does when nobody else acts |
| `GitHubClient.SecondCallFindsTheFirst` | src/incidentpilot/github/integration.py:180-201 | Repeating a successful call changes nothing on GitHub and names the same pull request, tree and head |
| `Evidence.Filter` | src/incidentpilot/agent/evidence.py:11-26 | The loop returns exactly the first valid items of each content, in order |
| `Evidence.KeptExactly` | src/incidentpilot/agent/evidence.py:14-25 | A position survives if and only if its item is valid and no earlier valid item has its content |
| `Evidence.SurvivorsAreDistinct` | src/incidentpilot/agent/evidence.py:22-25 | Survivors are all valid and pairwise distinct in content |
| `Evidence.FixedPoints` | src/incidentpilot/agent/evidence.py:11-26 | A list passes unchanged if and only if it is already valid and distinct |
| `Evidence.Idempotent` | src/incidentpilot/agent/evidence.py:11-26 | Filtering twice is filtering once |
| `Evidence.FreshCallKeepsEvidence` | src/incidentpilot/agent/evidence.py:12-20 | A call with a fresh id changes no judgement about existing evidence |
| `Evidence.ExtendValid` | src/incidentpilot/agent/evidence.py:15-25 | An appended item is appended to the result or ignored; nothing earlier is dropped |
| `Gateway.TransientIsRetryable` | src/incidentpilot/tools/gateway.py:349-366 | The retry flag of the classification agrees with the category set the loop retries |
| `Gateway.AttemptsExplained` | src/incidentpilot/tools/gateway.py:232-316 | Every attempt but the last failed transiently; the last succeeded, failed for good, was the last allowed, or found the budget spent |
| `Gateway.ToolGateway.CallTool` | src/incidentpilot/tools/gateway.py:106-346 | Spends from the budget exactly as many calls as the result records and as handler invocations were made |
| `Gateway.ToolGateway.RunAttempts` | src/incidentpilot/tools/gateway.py:228-346 | The retry loop: at most `max_retries + 1` attempts, each paid for before it runs |
| `Sandbox.SandboxManager.CreateWorkspace` | src/incidentpilot/sandbox/manager.py:211-266 | A fresh copy replaces an earlier workspace of the run and touches no other; dirty sources are refused in protected environments |
| `Sandbox.SandboxManager.WriteEdits` | src/incidentpilot/sandbox/manager.py:286-292 | The edit loop succeeds exactly when all first-occurrence replacements apply in order; a failure leaves a prefix of them |
| `Sandbox.SandboxManager.ApplyPatch` | src/incidentpilot/sandbox/manager.py:277-303 | Accepts exactly the patches whose changes are the declared paths, and never touches an undeclared file even when it fails |
| `Sandbox.SandboxManager.RunTests` | src/incidentpilot/sandbox/manager.py:350-359 | Reports a verdict only when the tests left the tree as it was |
| `Sandbox.SandboxManager.FreshCandidate` | src/incidentpilot/sandbox/manager.py:211-303 | Copy then patch gives the base with exactly this patch |
| `Sandbox.RecordedCommitMeans` | src/incidentpilot/sandbox/manager.py:219-246 | Where a commit is recorded, the copy has its content at all kept paths, every other copied file is an ignored one, and the copy is the commit's tree if and only if no ignored file was taken along |
| `Sandbox.OneCommitTwoCopies` | src/incidentpilot/sandbox/manager.py:219-244 | Two clean sources at one commit, one with coverage data, give different copies with the same recorded base |
| `Patches.FirstAt` | src/incidentpilot/sandbox/manager.py:290-292 | The first occurrence of the search string, or none at all |
| `Patches.ApplyTouchesExactlyDeclared` | src/incidentpilot/sandbox/manager.py:299-302 | A path is declared if and only if its content changes |
| `Workflow.CollectEvidence` | src/incidentpilot/agent/graph.py:405-488 | The collection loop equals its recursive specification for every sequence of model actions and tool outcomes |
| `Workflow.CollectPass` | src/incidentpilot/agent/graph.py:411-487 | One pass of the loop body, branch by branch, is one pass of the specification |
| `WorkflowShape.GraphTerminates` | src/incidentpilot/agent/graph.py:927-969 | Whatever model, tools and tests do and however often the process dies: at most 3P + 12 nodes complete since the last start (13 when P is 0), so the recursion limit of 50 is never reached for P up to 12, and every end state has left RUNNING |
| `WorkflowShape.UninterruptedRunEnds` | src/incidentpilot/agent/graph.py:927-969 | A run of nodes without recovery reaches the end within its rank |
| `WorkflowShape.VerifyOutcome` | src/incidentpilot/agent/graph.py:597-634 | Verification stops, verifies, or goes back with exactly one more rejected hypothesis, of which there are never three |
| `WorkflowEvidence.InvokeConserves` | src/incidentpilot/agent/graph.py:341-353 | Each call adds to the counter exactly the attempts it records |
| `WorkflowEvidence.CollectConserves` | src/incidentpilot/agent/graph.py:410-488 | The whole loop does, and stays within the tool and step budgets |
| `WorkflowEvidence.ToolBudgetConserved` | src/incidentpilot/agent/graph.py:895 | Across any number of recoveries the attempts in the state stay within `max_tool_calls`, and the next node starts from a counter that covers them |
| `WorkflowEvidence.RootCauseIsGrounded` | src/incidentpilot/agent/graph.py:537-634 | A verified root cause cites a non-empty part of all-valid evidence, from two sources, including the verification observation, whose content is new; no patch is generated, tested or exported without one |
| `WorkflowSteps.StepBudget` | src/incidentpilot/agent/graph.py:896 | In every history the steps of the collections completed since the last start stay within the step budget unless the process died between a rejection's checkpoint and the next completed collection, and never exceed `Most`; steps of a collection in which the process dies are not counted |
| `WorkflowSteps.MostInPlainTerms` | src/incidentpilot/agent/graph.py:410-488 | That bound in terms of the step budget and the tool-call limit: three budgets less two, the limit itself, or at most two beyond it |
| `WorkflowOverspend.MostIsReached` | src/incidentpilot/agent/graph.py:598 | Under every configuration a history with a crash after each rejection reaches that bound exactly: the rejection's result replaces the dict that held the count |
| `WorkflowOverspend.OverspendsExactly` | src/incidentpilot/config.py:46-47 | Some history takes more steps than `max_investigation_steps` if and only if the run is not direct, both budgets are four or more, and the tool budget is no more than one short of the step budget |
| `WorkflowSources.CandidateTestedFromBase` | src/incidentpilot/agent/graph.py:697-764 | In every history each test ran on the copied source with exactly its own patch, and exactly the declared paths differ; with a recorded commit the copy has that commit's content at all its kept paths, and is its tree if and only if no ignored file was copied |
| `WorkflowSources.ReplayAccepts` | src/incidentpilot/agent/graph.py:704-710 | A recovered patch is replayed if and only if the source is clean at the recorded commit, or not clean where none was recorded, and the patch applies to the new copy |
| `WorkflowSources.ReplayNotices` | src/incidentpilot/agent/graph.py:707-709 | After a versioned base an accepted copy can differ from the recorded one at ignored files only; after an unversioned one every unversioned source is accepted |
| `WorkflowReplay.ReplayGoesAhead` | src/incidentpilot/agent/graph.py:697-764 | For any two sources with one recorded base and any patch that applies to both, a history from the start drafts the patch on a copy of one, dies, and passes its test on a copy of the other, on the way to export |
| `WorkflowReplay.ReplayMissesAChange` | src/incidentpilot/agent/graph.py:707-709 | Such a history with two different copies: a source without Git gains a file between attempt and recovery |
| `WorkflowPatches.TestedWithOnePatch` | src/incidentpilot/sandbox/manager.py:350-354 | Every execution in every history ran on its workspace's copy with exactly its own patch applied |
| `WorkflowPatches.AttemptsShareOneBase` | src/incidentpilot/agent/graph.py:718-726 | All attempts of a run record one base, and each its own test truthfully |
| `WorkflowPatches.ProducerMeetsConsumer` | src/incidentpilot/agent/graph.py:255-282 | Whenever a run is saved as WAITING_APPROVAL, `validated_artifact` accepts the artifact its result names, and that is the last attempt's patch, base and passed test, replays and recoveries included |
| `WorkflowPatches.SavedNeverRunning` | src/incidentpilot/agent/graph.py:254-299 | The graph never saves a run as RUNNING, which `release_claim` relies on |
| `Heartbeat.Run` | src/incidentpilot/worker.py:189-233 | The loop, for every sequence of renewal outcomes and latencies, is the specified watch |
| `Heartbeat.StopsNearTheDeadline` | src/incidentpilot/worker.py:197-230 | With the beat shorter than the lease, the worker stops less than a lease and the last latency after its last confirmation, hence before the row's lease has been over for that confirmation's lag plus that latency; and it gives up only after the tolerance |
| `Heartbeat.SafeExactlyWhenBeatIsShorter` | src/incidentpilot/config.py:62-63 | With instantaneous attempts no other claim is enabled while the worker still works, for all outcomes, if and only if the heartbeat interval is shorter than the lease |
| `Heartbeat.NeverLostByWaiting` | src/incidentpilot/worker.py:199-233 | With instantaneous attempts and the beat shorter than the lease, an answered renewal of a run that is not over is always confirmed |
| `Heartbeat.AllAnsweredNeverStops` | src/incidentpilot/worker.py:199-233 | With instantaneous attempts, the beat shorter than the lease and no errors, it never stops |
| `Heartbeat.AnsweredKeepsExactlyInTime` | src/incidentpilot/worker.py:199-233 | With any latencies and settings, a run that is not over and whose renewals are all answered keeps its heartbeat if and only if every renewal reaches the database before the lease of the one before runs out |
| `Envelope.UntrustedContext` | src/incidentpilot/tools/data.py:26-59 | For every JSON value the envelope is at most limit + 83 characters, made with the one number of drops that is the least to fit or to leave no list |
| `Envelope.Trim` | src/incidentpilot/tools/data.py:42-55 | The trimming loop ends at the first count of drops at which the text fits or nothing is left to drop |
| `Envelope.EscapingPrintable` | src/incidentpilot/tools/data.py:56-58 | Escaping an excerpt of JSON text at most doubles it |
| `Envelope.PayloadBound` | src/incidentpilot/tools/data.py:56-58 | The fallback excerpt keeps the payload within limit + 39 |
| `Envelope.BoundedChangesExactlyExcess` | src/incidentpilot/tools/data.py:28-37 | Bounding is a projection that changes a value if and only if some level of it is out of bounds: a string over 4,000 characters, a list over 20, an object over 40, or anything but the marker below depth 10 |
| `Envelope.NewestEntriesStay` | src/incidentpilot/tools/data.py:35-36 | Of a list the newest twenty entries stay, in order, each bounded one level deeper |
| `Envelope.FirstFieldsStay` | src/incidentpilot/tools/data.py:33-34 | Of an object the first forty fields stay, with their keys |
| `Envelope.EnvelopeKeepsTheNewest` | src/incidentpilot/tools/data.py:42-55 | Without that key in the input: every list keeps a suffix, everything else stays, `omitted_items` is the number of entries dropped, and no list ends more than one entry below another |
| `Envelope.CountedExactlyWhen` | src/incidentpilot/tools/data.py:51-54 | With any input the count equals the entries lost if and only if the first count does not overwrite a non-empty list called `omitted_items` |
| `Envelope.MiscountedInput` | src/incidentpilot/tools/data.py:51-54 | An object whose only list is called `omitted_items` and has two or more entries is miscounted: one drop loses them all |
| `Paging.ReadSource` | ops_mcp/ops_readonly/server.py:258-296 | The window loop returns the page of its start line, the empty page past the end, and the error below line 1 |
| `Paging.LinesAreWhole` | ops_mcp/ops_readonly/server.py:265 | A line is everything up to its break and nothing more |
| `Paging.GrowIsWindow` | ops_mcp/ops_readonly/server.py:276-287 | A window holds as many whole lines as fit in 3,200 characters, and always at least one |
| `Paging.PagingRoundTrip` | ops_mcp/ops_readonly/server.py:288-296 | Following the pages covers every line exactly once, in order, and concatenates to the file |
| `Paging.NeighboursExceed` | ops_mcp/ops_readonly/server.py:279-286 | Two consecutive windows together exceed one window |
| `Paging.ReadsBounded` | ops_mcp/ops_readonly/server.py:258-296 | A file of up to 50,000 characters takes at most 31 reads |
| `Paging.PagesArriveWhole` | src/incidentpilot/tools/data.py:31-32 | Every page passes the envelope's string cap uncut if and only if no line is longer than 4,000 characters |

## Left out

- Embedded executor mode and the branch of `fence` without a claim: development and test only, no lease, check then act.
- `workflow_lock`: the graph's modules have one process per run write checkpoints, which is what this lock provides, since checkpoint writes are not fenced; the lease and ledger theorems do without it.
- SQLAlchemy, PostgreSQL and asyncio: transactions are atomic steps, the database clock is monotone, the scheduler is arbitrary.
- LangGraph's serializer: a checkpoint is the state value after a node.
- Rejection branch of `resume_after_approval`: a worker resumes only an APPROVE.
- Ledger and Remote stages as objects: interleavings need stages as values; `ApprovalResume` and `GitHubClient` give the code's own imperative form for runs without interference, and theorems about interference are about the stages.
- ApprovalResume.ApprovalResume.Resume: the reply of GitHub is a parameter, tied to the call's own result in `PullRequests`; the run timeout that can cut the resume short is the step `Halt` of `Ledger` and the end `CutShort` of `Worker`.
- Worker.DurableWorker.Execute: the workflow's own commits between claim and end are not repeated here, they are the steps of `Ledger` and `Workflow`; how it ends is a parameter.
- Worker.DurableWorker.ExecuteClaim: the same.
- Sandbox.SandboxManager.CreateWorkspace: the files are copied first and Git is asked for commit and status afterwards; the model takes both at one moment, so a source that changes in between is not covered.
- WorkflowSteps.StepBudget: steps of a collection in which the process dies leave no checkpoint; they are not counted, and no theorem bounds them.
- HTTP, the MCP session, Docker and `git apply`: a request is an atomic effect with a reply, a test run an exit code, a unified diff the before and after content of each path it names.
- Blob uploads of a pull request: part of posting the tree, since blobs are known by content.
- Mock mode of the GitHub integration: a local dictionary of results.
- Name rules for excluded and sensitive files, symbolic links, and path checks: `Repository.excluded` is the set of paths that the copy leaves out.
- The fault oracle file and test profiles: they select the test command, whose result is arbitrary.
- Step counters of `BudgetTracker`: they live in `Workflow`.
- Model provider, prompts, the fixed and direct evaluation answers, scoring: every decision is an arbitrary value.
- `read_metrics`, `read_logs`, `query_database_readonly` and `tools/sql_guard.py`: tool outputs are arbitrary.
- Redaction and the size limit of `safe_tool`: `Envelope` and `Paging` start from redacted values and decoded text.
- Envelope.UntrustedContext: keys arrive as strings and `default=str` values as their text; lone surrogates are not characters of the model.
- Paging.ReadSource: `start_line` that is no integer is refused before the model begins; the byte limit is applied as a limit on characters.
- Heartbeat.Run: times are whole units of one clock shared by worker and database.
- Audit rows, hypotheses and tool calls written by the final persistence: only tests, status, result and artifact matter to the approval.
- FastAPI routes, authentication, metrics, tracing, Alembic, benchmarks and the reference service.
