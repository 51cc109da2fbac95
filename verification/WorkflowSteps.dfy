/**
  The step budget: what it bounds within a process, what a crash can add to it, and the
  most steps that the settings let any history take.
*/
module WorkflowSteps {
  import opened Options
  import opened RunStatus
  import Evidence
  import Gateway
  import opened Workflow
  import WorkflowShape
  import WorkflowEvidence

  function Min(a: int, b: int): int {
    if a <= b then a else b
  }

  function Max(a: int, b: int): int {
    if a <= b then b else a
  }

  // ------------------------------------------------------------------ the bounds

  /**
    The most steps after one more collection that starts with `taken` of them behind it,
    takes at most `round` itself, and reaches the tool-call limit no later than one step
    after its first.
  */
  function OneMore(cfg: Config, taken: int, round: int): int {
    Min(taken + round, Max(taken + 1, cfg.maxToolCalls))
  }

  /** The most steps behind a collection that starts after `rejections`: each round left a step unspent. */
  function Entry(cfg: Config, rejections: nat): nat {
    if rejections == 0 || cfg.maxSteps == 0 then 0
    else OneMore(cfg, Entry(cfg, rejections - 1), cfg.maxSteps - 1)
  }

  /** How often a hypothesis can be rejected: each one needs three steps, and an attempt beyond the two observations. */
  function MostRejections(cfg: Config): nat {
    if cfg.direct || cfg.maxSteps < 4 || cfg.maxToolCalls < 3 then 0
    else if cfg.maxToolCalls == 3 then 1 else 2
  }

  /** The most steps that completed collections can take, the last round using up its budget. */
  function Most(cfg: Config): int {
    if cfg.maxSteps == 0 then 0 else OneMore(cfg, Entry(cfg, MostRejections(cfg)), cfg.maxSteps)
  }

  lemma EntryGrows(cfg: Config, r: nat, r': nat)
    requires r <= r' <= 2
    ensures Entry(cfg, r) <= Entry(cfg, r')
  {
    assert Entry(cfg, 0) == 0;
    assert Entry(cfg, 1) == if cfg.maxSteps == 0 then 0 else OneMore(cfg, 0, cfg.maxSteps - 1);
    assert Entry(cfg, 2) == if cfg.maxSteps == 0 then 0 else OneMore(cfg, Entry(cfg, 1), cfg.maxSteps - 1);
  }

  /** A round that follows no more rejections than are possible stays within the most. */
  lemma LastRound(cfg: Config, r: nat, taken: int)
    requires r <= MostRejections(cfg) && taken <= Entry(cfg, r) && cfg.maxSteps > 0
    ensures OneMore(cfg, taken, cfg.maxSteps) <= Most(cfg)
  {
    EntryGrows(cfg, r, MostRejections(cfg));
  }

  // ------------------------------------------------------------------ invariants

  ghost predicate StepsOk(cfg: Config, m: Machine) {
    && m.stepCount <= cfg.maxSteps && m.state.steps <= cfg.maxSteps
    && 0 <= m.taken <= Most(cfg)
    && (m.node == Plan ==> m.taken == 0)
    && (!m.forgot ==>
          && m.taken <= cfg.maxSteps
          && (m.node == Collect ==> m.taken <= m.stepCount)
          && (m.node in {Form, Verify} ==> m.taken <= m.state.steps))
  }

  /** What a rejection has cost: the settings allow it, and its observations are recorded attempts. */
  ghost predicate Paid(cfg: Config, s: State, rejections: nat) {
    && !cfg.direct && cfg.maxSteps >= 4
    && AttemptSum(s.calls) >= rejections + 2
  }

  /** Every step but a round's last one is a recorded call, and so is every verification. */
  ghost predicate Covered(cfg: Config, m: Machine) {
    var s, r := m.state, RejectedCount(m.state.hypotheses);
    && (m.node == Plan ==> s.calls == [] && s.evidence == [])
    && (m.node == Collect ==> m.taken <= |s.calls| && m.taken <= Entry(cfg, r))
    && (m.node in {Form, Verify} ==> m.taken <= |s.calls| + 1 && m.taken <= Entry(cfg, r + 1))
    && (m.node in {Collect, Form} && r > 0 ==> Paid(cfg, s, r))
    && (m.node == Collect && r == 0 ==> s.evidence == [] && m.taken == 0)
    && (m.node == Form && r == 0 ==> |s.evidence| < m.taken && |s.evidence| <= AttemptSum(s.calls))
    && (m.node == Verify ==> Paid(cfg, s, r))
  }

  ghost predicate Inv(cfg: Config, m: Machine) {
    WorkflowShape.Shape(cfg, m.node, m.state) && StepsOk(cfg, m) && Covered(cfg, m)
  }

  /** Collections start after no more rejections than are possible. */
  lemma FewRejections(cfg: Config, m: Machine)
    requires Inv(cfg, m) && m.node == Collect && AttemptSum(m.state.calls) <= cfg.maxToolCalls
    ensures RejectedCount(m.state.hypotheses) <= MostRejections(cfg)
  {
  }

  // ------------------------------------------------------------------ collection

  /** What a pass of the loop, or the whole loop, adds: steps, calls, observations and attempts. */
  ghost predicate Adds(cfg: Config, k: Collecting, k': Collecting) {
    var steps, calls := k'.stepCount - k.stepCount, |k'.calls| - |k.calls|;
    && 0 <= calls <= steps
    && 0 <= |k'.evidence| - |k.evidence| <= calls
    && |k'.evidence| - |k.evidence| <= AttemptSum(k'.calls) - AttemptSum(k.calls)
  }

  lemma InvokeAdds(cfg: Config, k: Collecting, t: Gateway.Tool)
    ensures var k' := Invoke(cfg, k, t);
            && |k'.calls| == |k.calls| + 1 && k'.stepCount == k.stepCount && k'.status == k.status
            && |k.evidence| <= |k'.evidence| <= |k.evidence| + 1
            && |k'.evidence| - |k.evidence| <= AttemptSum(k'.calls) - AttemptSum(k.calls)
  {
    var r := Gateway.CallResult(cfg.maxToolCalls, k.toolCalls, t);
    WorkflowEvidence.AppendCall(k.calls, RecordOf(t, r, k.nextId));
  }

  lemma PassAdds(cfg: Config, k: Collecting, a: Action)
    ensures var (k', more) := CollectOne(cfg, k, a);
            && Adds(cfg, k, k') && k'.stepCount == k.stepCount + 1
            && (more ==> |k'.calls| == |k.calls| + 1 < cfg.maxToolCalls && k'.status == k.status)
            && (!more ==> k'.status == Running ==> |k'.calls| == |k.calls|)
  {
    if a.Foreign? || a.Use? {
      InvokeAdds(cfg, k.(stepCount := k.stepCount + 1), a.tool);
    }
  }

  /** A loop that leaves the run RUNNING with steps to spare ended with a step that called nothing. */
  lemma {:induction false} LoopAdds(cfg: Config, k: Collecting, actions: seq<Action>)
    requires k.stepCount <= cfg.maxSteps
    ensures var k' := CollectLoop(cfg, k, actions);
            && Adds(cfg, k, k') && k'.stepCount <= cfg.maxSteps
            && k'.stepCount - k.stepCount <= Max(1, cfg.maxToolCalls - |k.calls|)
            && (k'.status == Running && k'.stepCount < cfg.maxSteps ==>
                  |k'.calls| - |k.calls| == k'.stepCount - k.stepCount - 1)
    decreases |actions|
  {
    if k.stepCount < cfg.maxSteps {
      var a := if actions == [] then Proceed else actions[0];
      PassAdds(cfg, k, a);
      var (next, more) := CollectOne(cfg, k, a);
      if more {
        LoopAdds(cfg, next, actions[1..]);
      }
    }
  }

  /** What a collection does to the counters; RUNNING afterwards means budget left and one step without a call. */
  ghost predicate Collects(cfg: Config, m: Machine, m': Machine) {
    var steps, calls := m'.stepCount - m.stepCount, |m'.state.calls| - |m.state.calls|;
    && 0 <= calls <= steps && steps <= Max(1, cfg.maxToolCalls - |m.state.calls|)
    && m'.stepCount <= cfg.maxSteps
    && m'.taken == m.taken + steps
    && m'.state.steps <= m'.stepCount && m'.state.hypotheses == m.state.hypotheses
    && m'.forgot == m.forgot
    && |m'.state.evidence| - |m.state.evidence| <= calls
    && 0 <= |m'.state.evidence| - |m.state.evidence| <= AttemptSum(m'.state.calls) - AttemptSum(m.state.calls)
    && (m'.state.status == Running ==>
          m'.stepCount < cfg.maxSteps && m'.state.steps == m'.stepCount && calls == steps - 1)
  }

  lemma CollectCounts(cfg: Config, m: Machine, input: Input)
    requires m.stepCount <= cfg.maxSteps
    ensures Collects(cfg, m, CollectNode(cfg, m, input))
  {
    var s := m.state;
    LoopAdds(cfg, Collecting(s.calls, s.evidence, s.status, m.toolCalls, m.stepCount, m.nextId), input.actions);
  }

  /** Every other node leaves the counters alone, and can only drop the checkpoint's count. */
  ghost predicate KeepsSteps(m: Machine, m': Machine) {
    && m'.stepCount == m.stepCount && m'.taken == m.taken && m'.forgot == m.forgot
    && (m'.state.steps == m.state.steps || m'.state.steps == 0)
  }

  lemma EnsureKeepsSteps(cfg: Config, m: Machine, input: Input, replay: bool)
    ensures KeepsSteps(m, EnsureWorkspace(cfg, m, input, replay).machine)
  {
  }

  lemma GenerateKeepsSteps(cfg: Config, m: Machine, input: Input)
    ensures KeepsSteps(m, GenerateNode(cfg, m, input).machine)
  {
    EnsureKeepsSteps(cfg, if m.state.attempts != [] then m.(runtime := NO_RUNTIME) else m, input, false);
  }

  lemma TestsKeepSteps(cfg: Config, m: Machine, input: Input)
    ensures KeepsSteps(m, RunTestsNode(cfg, m, input).machine)
  {
    EnsureKeepsSteps(cfg, m, input, true);
  }

  lemma ExportKeepsSteps(cfg: Config, m: Machine, input: Input)
    ensures KeepsSteps(m, ExportNode(cfg, m, input).machine)
  {
    TestsKeepSteps(cfg, m, input);
  }

  lemma VerifyKeepsSteps(cfg: Config, m: Machine, input: Input)
    ensures KeepsSteps(m, VerifyNode(cfg, m, input))
  {
  }

  lemma BodyKeepsSteps(cfg: Config, m: Machine, input: Input)
    requires m.node != Collect
    ensures KeepsSteps(m, NodeBody(cfg, m, input).machine)
  {
    if m.node == Verify {
      VerifyKeepsSteps(cfg, m, input);
    } else if m.node == Generate {
      GenerateKeepsSteps(cfg, m, input);
    } else if m.node == RunTests {
      TestsKeepSteps(cfg, m, input);
    } else if m.node == Export {
      ExportKeepsSteps(cfg, m, input);
    }
  }

  // ------------------------------------------------- from one checkpoint to the next

  /** The collection's own steps, and those behind it, which are covered by calls. */
  lemma CollectBounds(cfg: Config, m: Machine, m': Machine, round: int)
    requires Collects(cfg, m, m') && m.taken <= |m.state.calls| && m'.taken <= m.taken + round
    ensures m'.taken <= OneMore(cfg, m.taken, round)
  {
  }

  lemma EntryOfNext(cfg: Config, r: nat, taken: int)
    requires taken <= Entry(cfg, r) && cfg.maxSteps > 0
    ensures OneMore(cfg, taken, cfg.maxSteps - 1) <= Entry(cfg, r + 1)
  {
    assert Entry(cfg, r + 1) == OneMore(cfg, Entry(cfg, r), cfg.maxSteps - 1);
  }

  lemma AfterCollect(cfg: Config, m: Machine, m': Machine)
    requires Inv(cfg, m) && m.node == Collect && AttemptSum(m.state.calls) <= cfg.maxToolCalls
    requires Collects(cfg, m, m') && m'.node == Route(cfg, Collect, m')
    ensures StepsOk(cfg, m') && Covered(cfg, m')
  {
    FewRejections(cfg, m);
    if cfg.maxSteps > 0 {
      CollectBounds(cfg, m, m', cfg.maxSteps);
      LastRound(cfg, RejectedCount(m.state.hypotheses), m.taken);
      if m'.state.status == Running {
        CollectBounds(cfg, m, m', cfg.maxSteps - 1);
        EntryOfNext(cfg, RejectedCount(m.state.hypotheses), m.taken);
      }
    }
  }

  /** A completed node, seen from its checkpoint: the counters, and where the run goes. */
  lemma AfterOther(cfg: Config, m: Machine, m': Machine)
    requires Inv(cfg, m) && m.node !in {Collect, Form, Verify} && KeepsSteps(m, m')
    requires m'.node !in {Plan, Form, Verify}
    requires m'.node == Collect ==> m.node == Plan && m'.state == m.state
    ensures StepsOk(cfg, m') && Covered(cfg, m')
  {
  }

  /** What forming a hypothesis leaves of the state. */
  ghost predicate FormsOn(cfg: Config, m: Machine, m': Machine) {
    && KeepsSteps(m, m')
    && (m'.state.status == Running ==>
          && !cfg.direct && 2 <= |m'.state.evidence| <= |m.state.evidence|
          && m'.state.steps == m.state.steps && m'.state.calls == m.state.calls
          && RejectedCount(m'.state.hypotheses) == RejectedCount(m.state.hypotheses))
  }

  lemma {:induction false} FewerKept(evidence: seq<Evidence.Item>, calls: seq<Evidence.Call>, run: string)
    ensures |Evidence.Kept(evidence, calls, run)| <= |evidence|
  {
    if evidence != [] {
      FewerKept(evidence[..|evidence| - 1], calls, run);
    }
  }

  lemma FormCounts(cfg: Config, m: Machine, input: Input)
    ensures FormsOn(cfg, m, FormNode(cfg, m, input))
  {
    WorkflowShape.AppendOpen(m.state.hypotheses);
    FewerKept(m.state.evidence, m.state.calls, cfg.run);
  }

  lemma AfterForm(cfg: Config, m: Machine, m': Machine)
    requires Inv(cfg, m) && m.node == Form && FormsOn(cfg, m, m')
    requires m'.node == Route(cfg, Form, m')
    ensures StepsOk(cfg, m') && Covered(cfg, m')
  {
    var r := RejectedCount(m.state.hypotheses);
    assert r == 0 && cfg.maxSteps > 0 ==> Entry(cfg, 1) == OneMore(cfg, Entry(cfg, 0), cfg.maxSteps - 1);
  }

  /** What a rejection leaves: a call more, and with it at least one attempt. */
  ghost predicate RejectsOn(cfg: Config, m: Machine, m': Machine) {
    && KeepsSteps(m, m') && RouteVerify(cfg, m') in {Collect, CreateSandbox, Stop}
    && (RouteVerify(cfg, m') == Collect ==>
          && RejectedCount(m'.state.hypotheses) == RejectedCount(m.state.hypotheses) + 1
          && |m'.state.calls| == |m.state.calls| + 1
          && AttemptSum(m'.state.calls) > AttemptSum(m.state.calls))
  }

  lemma VerifyCalls(cfg: Config, m: Machine, input: Input)
    requires m.state.hypotheses != []
    ensures var m' := VerifyNode(cfg, m, input);
            m'.state.status == Running ==>
              |m'.state.calls| == |m.state.calls| + 1 && AttemptSum(m'.state.calls) > AttemptSum(m.state.calls)
  {
    var r := Gateway.CallResult(cfg.maxToolCalls, m.toolCalls, input.tool);
    WorkflowEvidence.AppendCall(m.state.calls, RecordOf(input.tool, r, m.nextId));
  }

  lemma VerifyCounts(cfg: Config, m: Machine, input: Input)
    requires WorkflowShape.Shape(cfg, Verify, m.state)
    ensures RejectsOn(cfg, m, VerifyNode(cfg, m, input))
  {
    VerifyKeepsSteps(cfg, m, input);
    VerifyCalls(cfg, m, input);
    WorkflowShape.VerifySteps(cfg, m, input);
    WorkflowShape.VerifyOutcome(cfg, m, VerifyNode(cfg, m, input));
  }

  /** After a rejection only the process remembers the steps. */
  lemma AfterVerify(cfg: Config, m: Machine, m': Machine)
    requires Inv(cfg, m) && m.node == Verify && RejectsOn(cfg, m, m') && m.stepCount >= m.state.steps
    requires m'.node == RouteVerify(cfg, m')
    ensures StepsOk(cfg, m') && Covered(cfg, m')
  {
  }

  lemma RestoredOk(cfg: Config, m: Machine)
    requires Inv(cfg, m)
    ensures Inv(cfg, Restored(m)) && Restored(m).stepCount >= m.state.steps
    ensures Restored(m).state == m.state && Restored(m).node == m.node
  {
  }

  /** Where the nodes of the patch phase and the plan can lead. */
  lemma OtherRoutes(cfg: Config, m: Machine, m': Machine)
    requires m.node !in {Collect, Form, Verify, Plan}
    ensures !WorkflowShape.Investigating(Route(cfg, m.node, m'))
  {
  }

  lemma CollectStep(cfg: Config, m: Machine, input: Input)
    requires Inv(cfg, m) && m.node == Collect && AttemptSum(m.state.calls) <= cfg.maxToolCalls
    ensures NextOk(cfg, Collect, CollectNode(cfg, m, input))
  {
    var o := CollectNode(cfg, m, input);
    CollectCounts(cfg, m, input);
    AfterCollect(cfg, m, o.(node := Route(cfg, Collect, o)));
  }

  lemma FormStep(cfg: Config, m: Machine, input: Input)
    requires Inv(cfg, m) && m.node == Form
    ensures NextOk(cfg, Form, FormNode(cfg, m, input))
  {
    var o := FormNode(cfg, m, input);
    FormCounts(cfg, m, input);
    AfterForm(cfg, m, o.(node := Route(cfg, Form, o)));
  }

  lemma VerifyStep(cfg: Config, m: Machine, input: Input)
    requires Inv(cfg, m) && m.node == Verify && m.stepCount >= m.state.steps
    ensures NextOk(cfg, Verify, VerifyNode(cfg, m, input))
  {
    var o := VerifyNode(cfg, m, input);
    VerifyCounts(cfg, m, input);
    AfterVerify(cfg, m, o.(node := RouteVerify(cfg, o)));
  }

  lemma OtherStep(cfg: Config, m: Machine, input: Input)
    requires Inv(cfg, m) && m.node !in {Plan, Collect, Form, Verify}
    ensures NextOk(cfg, m.node, NodeBody(cfg, m, input).machine)
  {
    var o := NodeBody(cfg, m, input).machine;
    BodyKeepsSteps(cfg, m, input);
    OtherRoutes(cfg, m, o);
    AfterOther(cfg, m, o.(node := Route(cfg, m.node, o)));
  }

  /** The counters at the node that an outcome leads to. */
  ghost predicate NextOk(cfg: Config, node: Node, o: Machine) {
    var m' := o.(node := Route(cfg, node, o));
    StepsOk(cfg, m') && Covered(cfg, m')
  }

  /** One completed node of a running process, from the restored counters on. */
  lemma BodySteps(cfg: Config, m: Machine, input: Input)
    requires Inv(cfg, m) && AttemptSum(m.state.calls) <= cfg.maxToolCalls
    requires m.stepCount >= m.state.steps && !input.raises
    ensures NextOk(cfg, m.node, NodeBody(cfg, m, input).machine)
  {
    if m.node == Collect {
      CollectStep(cfg, m, input);
    } else if m.node == Form {
      FormStep(cfg, m, input);
    } else if m.node == Verify {
      VerifyStep(cfg, m, input);
    } else if m.node == Plan {
      AfterOther(cfg, m, m.(node := Collect));
    } else {
      OtherStep(cfg, m, input);
    }
  }

  lemma DoneSteps(cfg: Config, m: Machine, input: Input)
    requires Inv(cfg, m) && AttemptSum(m.state.calls) <= cfg.maxToolCalls
    requires m.state.status == Running && !input.raises
    ensures NextOk(cfg, m.node, RunNode(cfg, m, input).machine)
  {
    RestoredOk(cfg, m);
    BodySteps(cfg, Restored(m), input);
  }

  /** The number of nodes completed so far does not matter here. */
  lemma CountedAlike(cfg: Config, m: Machine, m': Machine)
    requires StepsOk(cfg, m) && Covered(cfg, m) && m' == m.(executed := m'.executed)
    ensures StepsOk(cfg, m') && Covered(cfg, m')
  {
  }

  lemma RaisedSteps(cfg: Config, m: Machine, input: Input)
    requires Inv(cfg, m) && m.node != Stop && RunNode(cfg, m, input).Raised?
    ensures StepsOk(cfg, RunStep(cfg, m, input)) && Covered(cfg, RunStep(cfg, m, input))
  {
    RestoredOk(cfg, m);
    if !input.raises && m.node != Collect {
      BodyKeepsSteps(cfg, Restored(m), input);
    }
  }

  lemma RunKeeps(cfg: Config, m: Machine, input: Input)
    requires Inv(cfg, m) && m.node != Stop && AttemptSum(m.state.calls) <= cfg.maxToolCalls
    ensures Inv(cfg, RunStep(cfg, m, input))
  {
    WorkflowShape.RankDrops(cfg, m, input);
    if RunNode(cfg, m, input).Raised? {
      RaisedSteps(cfg, m, input);
    } else if m.state.status == Running {
      DoneSteps(cfg, m, input);
      var o := RunNode(cfg, m, input).machine;
      CountedAlike(cfg, o.(node := Route(cfg, m.node, o)), RunStep(cfg, m, input));
    }
  }

  /** A crash keeps the checkpoint, with whatever count it carries. */
  lemma DieKeeps(cfg: Config, m: Machine, input: Input)
    requires Inv(cfg, m) && m.saved.None?
    ensures Inv(cfg, Advanced(cfg, m, Die(input)))
  {
  }

  lemma InvPreserved(cfg: Config, m: Machine, s: Step)
    requires Inv(cfg, m) && AttemptSum(m.state.calls) <= cfg.maxToolCalls
    ensures Inv(cfg, Advanced(cfg, m, s))
  {
    if m.saved.None? {
      match s
      case Run(input) =>
        if m.node != Stop {
          RunKeeps(cfg, m, input);
        }
      case Die(input) => DieKeeps(cfg, m, input);
      case _ =>
    }
  }

  lemma {:induction false} InvAlways(cfg: Config, steps: seq<Step>)
    ensures Inv(cfg, History(cfg, Start(), steps))
  {
    if steps != [] {
      InvAlways(cfg, steps[..|steps| - 1]);
      WorkflowEvidence.ToolBudgetConserved(cfg, steps[..|steps| - 1]);
      InvPreserved(cfg, History(cfg, Start(), steps[..|steps| - 1]), steps[|steps| - 1]);
    }
  }

  // ------------------------------------------------------------------- theorems

  /**
    The step budget. In every history the steps of the collections completed since the
    last start stay within `max_investigation_steps`, however often the process dies,
    unless it died between a rejection's checkpoint and the next completed collection; and
    in no history at all do they exceed `Most`. Steps of a collection in which the process
    dies leave no trace and are not counted.
  */
  lemma StepBudget(cfg: Config, steps: seq<Step>)
    ensures var m := History(cfg, Start(), steps);
            && (!m.forgot ==> m.taken <= cfg.maxSteps)
            && 0 <= m.taken <= Most(cfg)
  {
    InvAlways(cfg, steps);
  }

  /** In plain terms: at most three budgets less two, and at most two beyond the tool-call limit. */
  lemma MostInPlainTerms(cfg: Config)
    ensures var s, n := cfg.maxSteps, cfg.maxToolCalls;
            Most(cfg) == if cfg.direct || s < 4 || n < 3 then Min(s, Max(1, n))
                         else if n == 3 then 4
                         else if n < s then n + 2
                         else if n <= 2 * s - 2 then n + 1
                         else Min(n, 3 * s - 2)
  {
    if cfg.maxSteps > 0 {
      assert Entry(cfg, 0) == 0;
      assert Entry(cfg, 1) == OneMore(cfg, 0, cfg.maxSteps - 1);
      assert Entry(cfg, 2) == OneMore(cfg, Entry(cfg, 1), cfg.maxSteps - 1);
    }
  }
}
