/** Termination of the graph: three nested loops, one rank, across any number of recoveries. */
module WorkflowShape {
  import opened Options
  import opened RunStatus
  import opened Workflow

  /** The longest run of the graph: plan, three rounds of investigation, all patch attempts, the exit. */
  function NodeBound(patches: nat): nat {
    if patches == 0 then 13 else 3 * patches + 12
  }

  function PatchRank(patches: nat, attempts: nat): nat {
    if attempts < patches then 3 * (patches - attempts) + 1 else 2
  }

  /** An upper bound on the nodes that are still to run, from the checkpoint alone. */
  function Rank(cfg: Config, node: Node, s: State): int {
    var rounds := 3 * (3 - RejectedCount(s.hypotheses));
    var patching := PatchRank(cfg.maxPatches, 0);
    match node
    case Plan => patching + 11
    case Collect => rounds + patching + 1
    case Form => rounds + patching
    case Verify => rounds + patching - 1
    case CreateSandbox => patching + 1
    case Generate => PatchRank(cfg.maxPatches, |s.attempts|)
    case RunTests => 3 * (cfg.maxPatches - |s.attempts|) + 3
    case Reflect => 3 * (cfg.maxPatches - |s.attempts|) + 2
    case Export => 2
    case Wait => 1
    case Human => 1
    case Stop => 0
  }

  predicate Investigating(node: Node) {
    node in {Plan, Collect, Form, Verify}
  }

  ghost predicate Shape(cfg: Config, node: Node, s: State) {
    && (node !in {Wait, Human, Stop} ==> s.status == Running)
    && (node == Wait ==> s.status in {WaitingApproval, Failed})
    && (node == Stop ==> s.status != Running)
    && (Investigating(node) ==> s.attempts == [] && s.root.None? && RejectedCount(s.hypotheses) <= 2)
    && (node == Plan ==> s.hypotheses == [])
    && (node == Verify ==> s.hypotheses != [] && Last(s.hypotheses) == Open)
    && (node == CreateSandbox ==> s.attempts == [])
    && (node == Generate ==> s.attempts == [] || |s.attempts| < cfg.maxPatches)
    && (node == RunTests ==> 1 <= |s.attempts| <= cfg.maxPatches && Last(s.attempts).diff.Some?)
    && (node == Reflect ==> 1 <= |s.attempts| < cfg.maxPatches)
    && (node == Export ==> 1 <= |s.attempts| <= cfg.maxPatches && Last(s.attempts).diff.Some?)
    && (node in {CreateSandbox, Generate, RunTests, Reflect, Export} ==> s.root.Some?)
  }

  ghost predicate Inv(cfg: Config, m: Machine) {
    && Shape(cfg, m.node, m.state)
    && m.executed + Rank(cfg, m.node, m.state) <= NodeBound(cfg.maxPatches)
  }

  // -------------------------------------------------------- what the nodes touch

  lemma {:induction false} CollectKeepsStatusOrStops(cfg: Config, k: Collecting, actions: seq<Action>)
    requires k.status == Running
    ensures CollectLoop(cfg, k, actions).status in {Running, NeedsHuman, InsufficientEvidence}
    decreases |actions|
  {
    if k.stepCount < cfg.maxSteps && actions != [] {
      var (next, more) := CollectOne(cfg, k, actions[0]);
      if more {
        CollectKeepsStatusOrStops(cfg, next, actions[1..]);
      }
    }
  }

  /** The patch side of a node's outcome: attempts grow by at most one and the rest stays. */
  ghost predicate PatchStep(s: State, s': State) {
    && s'.root == s.root && s'.hypotheses == s.hypotheses
    && s'.calls == s.calls && s'.evidence == s.evidence
  }

  lemma EnsureKeeps(cfg: Config, m: Machine, input: Input, replay: bool)
    requires m.state.root.Some?
    ensures var o := EnsureWorkspace(cfg, m, input, replay);
            && PatchStep(m.state, o.machine.state) && o.machine.state.attempts == m.state.attempts
            && o.machine.state.test == m.state.test && o.machine.nextId == m.nextId
            && o.machine.executions == m.executions && o.machine.tables == m.tables
            && (o.machine.state == m.state || o.machine.state == m.state.(status := Failed))
  {
  }

  /** Verification ends the run, rejects the hypothesis, or verifies it. */
  predicate VerifyStep(cfg: Config, m: Machine, m': Machine)
    requires m.state.hypotheses != []
  {
    && m'.state.attempts == m.state.attempts && m'.stepCount == m.stepCount
    && (m'.state.status == Running ==>
          || (m'.state.root.Some? && m'.state.hypotheses == Judged(m.state.hypotheses, Verified))
          || (m'.state.root.None? && m'.state.hypotheses == Judged(m.state.hypotheses, Rejected)
              && RejectedCount(m'.state.hypotheses) < 3 && m'.stepCount < cfg.maxSteps))
  }

  lemma VerifySteps(cfg: Config, m: Machine, input: Input)
    requires m.state.status == Running && m.state.root.None? && m.state.hypotheses != []
    ensures VerifyStep(cfg, m, VerifyNode(cfg, m, input))
  {
  }

  /** Verification either stops, or moves on with one more rejected or one verified hypothesis. */
  lemma VerifyOutcome(cfg: Config, m: Machine, m': Machine)
    requires m.state.hypotheses != [] && Last(m.state.hypotheses) == Open && VerifyStep(cfg, m, m')
    ensures m'.state.status == Running ==>
              || (m'.state.root.Some? && RouteVerify(cfg, m') == CreateSandbox)
              || (m'.state.root.None? && RejectedCount(m'.state.hypotheses) == RejectedCount(m.state.hypotheses) + 1
                  && RejectedCount(m'.state.hypotheses) < 3 && RouteVerify(cfg, m') == Collect)
  {
    if m'.state.status == Running && m'.state.root.None? {
      JudgedCount(m.state.hypotheses, Rejected);
    }
  }

  lemma JudgedCount(h: seq<Hypothesis>, verdict: Hypothesis)
    requires h != [] && Last(h) == Open
    ensures RejectedCount(Judged(h, verdict)) == RejectedCount(h) + (if verdict == Rejected then 1 else 0)
  {
    var j := Judged(h, verdict);
    assert j[..|j| - 1] == h[..|h| - 1];
  }

  lemma AppendOpen(h: seq<Hypothesis>)
    ensures RejectedCount(h + [Open]) == RejectedCount(h)
  {
    assert (h + [Open])[..|h|] == h;
  }

  // --------------------------------------------------------------- preservation

  /** A completed node leaves the next one's shape and a smaller rank. */
  ghost predicate Moves(cfg: Config, node: Node, s: State, m': Machine) {
    && Shape(cfg, Route(cfg, node, m'), m'.state)
    && Rank(cfg, Route(cfg, node, m'), m'.state) < Rank(cfg, node, s)
  }

  lemma CollectStep(cfg: Config, m: Machine, input: Input)
    requires Shape(cfg, Collect, m.state)
    ensures Moves(cfg, Collect, m.state, CollectNode(cfg, m, input))
  {
    var s := m.state;
    CollectKeepsStatusOrStops(cfg, Collecting(s.calls, s.evidence, s.status, m.toolCalls, m.stepCount, m.nextId),
                              input.actions);
  }

  lemma FormStep(cfg: Config, m: Machine, input: Input)
    requires Shape(cfg, Form, m.state)
    ensures Moves(cfg, Form, m.state, FormNode(cfg, m, input))
  {
    AppendOpen(m.state.hypotheses);
  }

  lemma VerifyMoves(cfg: Config, m: Machine, m': Machine)
    requires Shape(cfg, Verify, m.state) && VerifyStep(cfg, m, m')
    ensures Moves(cfg, Verify, m.state, m')
  {
    VerifyOutcome(cfg, m, m');
  }

  lemma InvestigationStep(cfg: Config, m: Machine, input: Input)
    requires Shape(cfg, m.node, m.state) && Investigating(m.node) && !input.raises
    ensures RunNode(cfg, m, input).Done? && Moves(cfg, m.node, m.state, RunNode(cfg, m, input).machine)
  {
    var r := Restored(m);
    match m.node
    case Plan =>
    case Collect => CollectStep(cfg, r, input);
    case Form => FormStep(cfg, r, input);
    case Verify =>
      VerifySteps(cfg, r, input);
      VerifyMoves(cfg, r, VerifyNode(cfg, r, input));
  }

  lemma DraftStep(cfg: Config, m: Machine, input: Input)
    requires m.state.root.Some? && (m.state.attempts == [] || |m.state.attempts| < cfg.maxPatches)
    ensures var o := DraftPatch(cfg, m, input);
            o.Done? ==> Moves(cfg, Generate, m.state, o.machine)
  {
  }

  lemma GenerateStep(cfg: Config, m: Machine, input: Input)
    requires Shape(cfg, Generate, m.state)
    ensures var o := GenerateNode(cfg, m, input);
            o.Done? ==> Moves(cfg, Generate, m.state, o.machine)
  {
    var m0 := if m.state.attempts != [] then m.(runtime := NO_RUNTIME) else m;
    EnsureKeeps(cfg, m0, input, false);
    var ensured := EnsureWorkspace(cfg, m0, input, false);
    if ensured.Done? {
      DraftStep(cfg, ensured.machine, input);
    }
  }

  lemma TestsOutcome(cfg: Config, m: Machine, input: Input)
    requires m.state.root.Some? && m.state.status == Running
    requires m.state.attempts != [] && Last(m.state.attempts).diff.Some?
    ensures var o := RunTestsNode(cfg, m, input);
            o.Done? ==>
              && PatchStep(m.state, o.machine.state)
              && |o.machine.state.attempts| == |m.state.attempts|
                 && Last(o.machine.state.attempts).diff == Last(m.state.attempts).diff
              && (o.machine.state.status == Running ==> o.machine.runtime.workspace.Some? && o.machine.state.test.Some?)
  {
    EnsureKeeps(cfg, m, input, true);
  }

  lemma ExportOutcome(cfg: Config, m: Machine, input: Input)
    requires m.state.root.Some? && m.state.status == Running
    requires m.state.attempts != [] && Last(m.state.attempts).diff.Some?
    ensures var o := ExportNode(cfg, m, input);
            o.Done? ==> o.machine.state.status in {WaitingApproval, Failed} && PatchStep(m.state, o.machine.state)
  {
    TestsOutcome(cfg, m, input);
  }

  lemma CreateStep(cfg: Config, m: Machine, input: Input)
    requires Shape(cfg, CreateSandbox, m.state)
    ensures Moves(cfg, CreateSandbox, m.state, CreateSandboxNode(cfg, m, input))
  {
  }

  lemma TestsStep(cfg: Config, m: Machine, input: Input)
    requires Shape(cfg, RunTests, m.state)
    ensures var o := RunTestsNode(cfg, m, input); o.Done? ==> Moves(cfg, RunTests, m.state, o.machine)
  {
    TestsOutcome(cfg, m, input);
  }

  lemma ExportStep(cfg: Config, m: Machine, input: Input)
    requires Shape(cfg, Export, m.state)
    ensures var o := ExportNode(cfg, m, input); o.Done? ==> Moves(cfg, Export, m.state, o.machine)
  {
    ExportOutcome(cfg, m, input);
  }

  lemma PatchingStep(cfg: Config, m: Machine, input: Input)
    requires Shape(cfg, m.node, m.state) && !Investigating(m.node) && m.node != Stop
    ensures var o := RunNode(cfg, m, input);
            o.Done? ==> Moves(cfg, m.node, m.state, o.machine)
  {
    var r := Restored(m);
    match m.node
    case CreateSandbox => CreateStep(cfg, r, input);
    case Generate => GenerateStep(cfg, r, input);
    case RunTests => TestsStep(cfg, r, input);
    case Export => ExportStep(cfg, r, input);
    case _ =>
  }

  /** One completed node: the shape is kept and the rank drops. */
  lemma RankDrops(cfg: Config, m: Machine, input: Input)
    requires Shape(cfg, m.node, m.state) && m.node != Stop
    ensures var m' := RunStep(cfg, m, input);
            && Shape(cfg, m'.node, m'.state) && Rank(cfg, m'.node, m'.state) < Rank(cfg, m.node, m.state)
  {
    if input.raises && m.state.status == Running {
      assert RunNode(cfg, m, input).Raised?;
      RankPositive(cfg, m);
    } else if Investigating(m.node) {
      InvestigationStep(cfg, m, input);
    } else {
      PatchingStep(cfg, m, input);
      RankPositive(cfg, m);
    }
  }

  lemma RankPositive(cfg: Config, m: Machine)
    requires Shape(cfg, m.node, m.state)
    ensures if m.node == Stop then Rank(cfg, m.node, m.state) == 0 else Rank(cfg, m.node, m.state) > 0
  {
  }

  /** One node of a run that is not over yet. */
  lemma RunKeeps(cfg: Config, m: Machine, input: Input)
    requires Inv(cfg, m) && m.node != Stop
    ensures Inv(cfg, RunStep(cfg, m, input)) && RunStep(cfg, m, input).saved == m.saved
    ensures Rank(cfg, RunStep(cfg, m, input).node, RunStep(cfg, m, input).state) < Rank(cfg, m.node, m.state)
  {
    RankDrops(cfg, m, input);
    NodeFrame(cfg, m, input);
  }

  predicate SameRun(m: Machine, m': Machine) {
    m'.saved == m.saved && m'.executed == m.executed
  }

  lemma EnsureFrame(cfg: Config, m: Machine, input: Input, replay: bool)
    ensures SameRun(m, EnsureWorkspace(cfg, m, input, replay).machine)
  {
  }

  lemma GenerateFrame(cfg: Config, m: Machine, input: Input)
    ensures SameRun(m, GenerateNode(cfg, m, input).machine)
  {
    EnsureFrame(cfg, if m.state.attempts != [] then m.(runtime := NO_RUNTIME) else m, input, false);
  }

  lemma TestsFrame(cfg: Config, m: Machine, input: Input)
    ensures SameRun(m, RunTestsNode(cfg, m, input).machine)
  {
    EnsureFrame(cfg, m, input, true);
  }

  lemma ExportFrame(cfg: Config, m: Machine, input: Input)
    ensures SameRun(m, ExportNode(cfg, m, input).machine)
  {
    TestsFrame(cfg, m, input);
  }

  lemma VerifyFrame(cfg: Config, m: Machine, input: Input)
    ensures SameRun(m, VerifyNode(cfg, m, input))
  {
  }

  /** Nodes neither save the run nor count themselves. */
  lemma NodeFrame(cfg: Config, m: Machine, input: Input)
    ensures SameRun(m, RunNode(cfg, m, input).machine)
  {
    var r := Restored(m);
    if m.state.status == Running && !input.raises {
      match m.node
      case Verify => VerifyFrame(cfg, r, input);
      case Generate => GenerateFrame(cfg, r, input);
      case RunTests => TestsFrame(cfg, r, input);
      case Export => ExportFrame(cfg, r, input);
      case _ =>
    }
  }

  lemma InvPreserved(cfg: Config, m: Machine, s: Step)
    requires Inv(cfg, m)
    ensures Inv(cfg, Advanced(cfg, m, s))
  {
    if m.saved.None? {
      match s
      case Run(input) =>
        if m.node != Stop {
          RunKeeps(cfg, m, input);
        }
      case Die(input) => NodeFrame(cfg, m, input);
      case _ =>
    }
  }

  lemma {:induction false} InvAlways(cfg: Config, steps: seq<Step>)
    ensures Inv(cfg, History(cfg, Start(), steps))
  {
    if steps != [] {
      InvAlways(cfg, steps[..|steps| - 1]);
      InvPreserved(cfg, History(cfg, Start(), steps[..|steps| - 1]), steps[|steps| - 1]);
    }
  }

  // ------------------------------------------------------------------- theorems

  const RECURSION_LIMIT := 50

  /**
    Termination with a bound. Whatever the model, the tools and the tests do, and however
    often the process dies and recovers, at most 3P + 12 nodes complete since the last
    start from the beginning (13 when no patch attempt is allowed), and every end state,
    the approval interrupt included, has left RUNNING.
  */
  lemma GraphTerminates(cfg: Config, steps: seq<Step>)
    ensures var m := History(cfg, Start(), steps);
            && m.executed <= NodeBound(cfg.maxPatches)
            && (cfg.maxPatches <= 12 ==> m.executed < RECURSION_LIMIT)
            && (m.node in {Wait, Stop} ==> m.state.status != Running)
  {
    InvAlways(cfg, steps);
    RankPositive(cfg, History(cfg, Start(), steps));
  }

  ghost function RunAll(cfg: Config, m: Machine, inputs: seq<Input>): Machine
    decreases |inputs|
  {
    if inputs == [] then m else RunAll(cfg, Advanced(cfg, m, Run(inputs[0])), inputs[1..])
  }

  lemma OneNode(cfg: Config, m: Machine, input: Input) returns (m': Machine)
    requires Inv(cfg, m) && m.saved.None? && m.node != Stop
    ensures m' == Advanced(cfg, m, Run(input)) && Inv(cfg, m') && m'.saved.None?
    ensures Rank(cfg, m'.node, m'.state) < Rank(cfg, m.node, m.state)
  {
    m' := RunStep(cfg, m, input);
    RunKeeps(cfg, m, input);
  }

  /** A run of nodes without recovery reaches its end after at most that many. */
  lemma {:induction false} UninterruptedRunEnds(cfg: Config, m: Machine, inputs: seq<Input>)
    requires Inv(cfg, m) && m.saved.None?
    requires |inputs| >= Rank(cfg, m.node, m.state)
    ensures RunAll(cfg, m, inputs).node == Stop
    decreases |inputs|
  {
    RankPositive(cfg, m);
    if m.node == Stop {
      StaysStopped(cfg, m, inputs);
    } else {
      var m' := OneNode(cfg, m, inputs[0]);
      UninterruptedRunEnds(cfg, m', inputs[1..]);
    }
  }

  lemma {:induction false} StaysStopped(cfg: Config, m: Machine, inputs: seq<Input>)
    requires m.node == Stop
    ensures RunAll(cfg, m, inputs) == m
    decreases |inputs|
  {
    if inputs != [] {
      StaysStopped(cfg, m, inputs[1..]);
    }
  }
}
