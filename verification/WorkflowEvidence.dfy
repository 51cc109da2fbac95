/** The tool budget across recoveries, and why a verified root cause is grounded. */
module WorkflowEvidence {
  import opened Options
  import opened RunStatus
  import Evidence
  import Gateway
  import opened Workflow
  import WorkflowShape

  // ---------------------------------------------------------------- invariants

  /**
    A grounded root cause: all evidence is valid and distinct in content; the citations are
    a non-empty part of it; they include the verification observation, which is the last
    tool call's output and differs from everything seen before; and they span two sources.
  */
  ghost predicate Grounded(cfg: Config, s: State) {
    && s.root.Some? && s.root.value.verified
    && Evidence.AllValidDistinct(s.evidence, s.calls, cfg.run)
    && Cites(s.root.value.cited, s.evidence)
    && s.evidence != [] && s.calls != []
    && Last(s.evidence).id in s.root.value.cited
    && Last(s.evidence).call == Last(s.calls).id
    && (forall i :: 0 <= i < |s.evidence| - 1 ==> s.evidence[i].hash != Last(s.evidence).hash)
    && |CitedSources(s.root.value.cited, s.evidence)| >= 2
  }

  /** Ids already handed out are below the supply. */
  ghost predicate IdsBelow(calls: seq<Evidence.Call>, evidence: seq<Evidence.Item>, nextId: nat) {
    && (forall i :: 0 <= i < |calls| ==> calls[i].id < nextId)
    && (forall i :: 0 <= i < |evidence| ==> evidence[i].call < nextId && evidence[i].id < nextId)
  }

  ghost predicate StateOk(cfg: Config, node: Node, s: State, nextId: nat) {
    && AttemptSum(s.calls) <= cfg.maxToolCalls
    && IdsBelow(s.calls, s.evidence, nextId)
    && (node == Verify ==> Evidence.AllValidDistinct(s.evidence, s.calls, cfg.run))
    && (s.root.Some? && s.root.value.verified ==> Grounded(cfg, s))
    && (node in {CreateSandbox, Generate, RunTests, Reflect, Export} ==> Grounded(cfg, s))
  }

  ghost predicate Inv(cfg: Config, m: Machine) {
    && WorkflowShape.Shape(cfg, m.node, m.state)
    && StateOk(cfg, m.node, m.state, m.nextId)
    && m.toolCalls <= cfg.maxToolCalls
  }

  // ---------------------------------------------------------------------- tools

  lemma AppendCall(calls: seq<Evidence.Call>, c: Evidence.Call)
    ensures AttemptSum(calls + [c]) == AttemptSum(calls) + c.attempts
  {
    assert (calls + [c])[..|calls|] == calls;
  }

  ghost predicate CollectingOk(cfg: Config, k: Collecting) {
    && AttemptSum(k.calls) <= k.toolCalls <= cfg.maxToolCalls
    && IdsBelow(k.calls, k.evidence, k.nextId)
  }

  /** Each call adds to the counter exactly the attempts it records. */
  lemma InvokeConserves(cfg: Config, k: Collecting, t: Gateway.Tool)
    requires CollectingOk(cfg, k)
    ensures var k' := Invoke(cfg, k, t);
            && CollectingOk(cfg, k') && k'.nextId >= k.nextId
            && k'.toolCalls - k.toolCalls == AttemptSum(k'.calls) - AttemptSum(k.calls) == Last(k'.calls).attempts
  {
    var r := Gateway.CallResult(cfg.maxToolCalls, k.toolCalls, t);
    AppendCall(k.calls, RecordOf(t, r, k.nextId));
  }

  /** What a pass of the loop, or the whole loop, keeps and conserves. */
  ghost predicate Conserves(cfg: Config, k: Collecting, k': Collecting) {
    && CollectingOk(cfg, k') && k'.nextId >= k.nextId && k'.stepCount >= k.stepCount
    && k'.toolCalls - k.toolCalls == AttemptSum(k'.calls) - AttemptSum(k.calls)
    && (k.stepCount <= cfg.maxSteps ==> k'.stepCount <= cfg.maxSteps)
  }

  lemma PassConserves(cfg: Config, k: Collecting, a: Action)
    requires CollectingOk(cfg, k) && k.stepCount < cfg.maxSteps
    ensures Conserves(cfg, k, CollectOne(cfg, k, a).0)
  {
    if a.Foreign? || a.Use? {
      var k1 := k.(stepCount := k.stepCount + 1);
      InvokeConserves(cfg, k1, a.tool);
      CallPassConserves(cfg, k, k1, Invoke(cfg, k1, a.tool), CollectOne(cfg, k, a).0);
    }
  }

  lemma CallPassConserves(cfg: Config, k: Collecting, k1: Collecting, k2: Collecting, k': Collecting)
    requires k1 == k.(stepCount := k.stepCount + 1) && k.stepCount < cfg.maxSteps
    requires CollectingOk(cfg, k1) && CollectingOk(cfg, k2) && k2.nextId >= k1.nextId && k2.stepCount == k1.stepCount
    requires k2.toolCalls - k1.toolCalls == AttemptSum(k2.calls) - AttemptSum(k1.calls)
    requires k' == k2.(status := k'.status, evidence := k'.evidence) && k'.evidence in {k1.evidence, k2.evidence}
    ensures Conserves(cfg, k, k')
  {
  }

  lemma {:induction false} CollectConserves(cfg: Config, k: Collecting, actions: seq<Action>)
    requires CollectingOk(cfg, k)
    ensures Conserves(cfg, k, CollectLoop(cfg, k, actions))
    decreases |actions|
  {
    if k.stepCount < cfg.maxSteps {
      if actions == [] {
        PassConserves(cfg, k, Proceed);
      } else {
        PassConserves(cfg, k, actions[0]);
        var (next, more) := CollectOne(cfg, k, actions[0]);
        if more {
          CollectConserves(cfg, next, actions[1..]);
        }
      }
    }
  }

  // --------------------------------------------------------------------- verify

  /** The observation of a fresh successful call with new content joins the valid evidence as its last item. */
  lemma FreshObservationJoins(cfg: Config, calls: seq<Evidence.Call>, evidence: seq<Evidence.Item>, c: Evidence.Call,
                              id: nat)
    requires Evidence.AllValidDistinct(evidence, calls, cfg.run)
    requires forall i :: 0 <= i < |evidence| ==> evidence[i].call != c.id
    requires c.status == Evidence.Succeeded && c.output.Complete()
    requires forall i :: 0 <= i < |evidence| ==> evidence[i].hash != Evidence.HashOf(c.output)
    ensures var item := Observation(cfg, c, id);
            && Evidence.ValidEvidence(evidence + [item], calls + [c], cfg.run) == evidence + [item]
            && Evidence.AllValidDistinct(evidence + [item], calls + [c], cfg.run)
  {
    var item, all := Observation(cfg, c, id), evidence + [Observation(cfg, c, id)];
    assert (calls + [c])[..|calls|] == calls;
    assert Evidence.Valid(item, calls + [c], cfg.run);
    forall k | 0 <= k < |all|
      ensures Evidence.Valid(all[k], calls + [c], cfg.run)
    {
      if k < |evidence| {
        assert Evidence.Valid(evidence[k], calls, cfg.run);
      }
    }
    Evidence.PassesUnchanged(all, calls + [c], cfg.run);
  }

  lemma ConclusionGrounds(cfg: Config, s: State, evidence: seq<Evidence.Item>, item: Evidence.Item)
    requires s.root.Some? && s.root.value.verified && s.calls != []
    requires s.evidence == evidence + [item] && Evidence.AllValidDistinct(s.evidence, s.calls, cfg.run)
    requires item.call == Last(s.calls).id
    requires Concluded(s.root.value.cited, s.evidence, true)
    ensures Grounded(cfg, s)
  {
    assert Last(s.evidence) == item;
  }

  lemma VerifyGrounds(cfg: Config, m: Machine, input: Input)
    requires StateOk(cfg, Verify, m.state, m.nextId) && WorkflowShape.Shape(cfg, Verify, m.state)
    requires AttemptSum(m.state.calls) <= m.toolCalls <= cfg.maxToolCalls
    ensures var m' := VerifyNode(cfg, m, input);
            && StateOk(cfg, RouteVerify(cfg, m'), m'.state, m'.nextId)
            && m'.toolCalls <= cfg.maxToolCalls && m'.nextId >= m.nextId
  {
    var s := m.state;
    var r := Gateway.CallResult(cfg.maxToolCalls, m.toolCalls, input.tool);
    var c := RecordOf(input.tool, r, m.nextId);
    AppendCall(s.calls, c);
    if !NothingNew(s, r) {
      InformedVerify(cfg, m, input, r, c);
    }
  }

  /** What an informative verification leaves: one call and one observation more, and at most a concluded root cause. */
  predicate Informed(cfg: Config, m: Machine, m': Machine, c: Evidence.Call, item: Evidence.Item) {
    && m'.state.calls == m.state.calls + [c] && m'.nextId == m.nextId + 2
    && m'.state.evidence == Evidence.ValidEvidence(m.state.evidence + [item], m'.state.calls, cfg.run)
    && (m'.state.root.Some? ==>
          m'.state.root.value.verified && Concluded(m'.state.root.value.cited, m'.state.evidence, true))
  }

  lemma InformedFacts(cfg: Config, m: Machine, input: Input, r: Gateway.Result, c: Evidence.Call)
    requires m.state.hypotheses != [] && m.state.root.None?
    requires r == Gateway.CallResult(cfg.maxToolCalls, m.toolCalls, input.tool) && !NothingNew(m.state, r)
    requires c == RecordOf(input.tool, r, m.nextId)
    ensures Informed(cfg, m, VerifyNode(cfg, m, input), c, Observation(cfg, c, m.nextId + 1))
  {
  }

  lemma InformedVerify(cfg: Config, m: Machine, input: Input, r: Gateway.Result, c: Evidence.Call)
    requires StateOk(cfg, Verify, m.state, m.nextId) && WorkflowShape.Shape(cfg, Verify, m.state)
    requires r == Gateway.CallResult(cfg.maxToolCalls, m.toolCalls, input.tool) && !NothingNew(m.state, r)
    requires c == RecordOf(input.tool, r, m.nextId)
    requires AttemptSum(m.state.calls + [c]) <= cfg.maxToolCalls
    ensures var m' := VerifyNode(cfg, m, input); StateOk(cfg, RouteVerify(cfg, m'), m'.state, m'.nextId)
  {
    InformedFacts(cfg, m, input, r, c);
    WorkflowShape.VerifySteps(cfg, m, input);
    FreshObservationJoins(cfg, m.state.calls, m.state.evidence, c, m.nextId + 1);
    InformedKeeps(cfg, m, VerifyNode(cfg, m, input), c, Observation(cfg, c, m.nextId + 1));
  }

  lemma InformedKeeps(cfg: Config, m: Machine, m': Machine, c: Evidence.Call, item: Evidence.Item)
    requires StateOk(cfg, Verify, m.state, m.nextId) && WorkflowShape.Shape(cfg, Verify, m.state)
    requires Informed(cfg, m, m', c, item) && WorkflowShape.VerifyStep(cfg, m, m')
    requires AttemptSum(m'.state.calls) <= cfg.maxToolCalls
    requires c.id == m.nextId && item.call == c.id && item.id == m.nextId + 1
    requires m'.state.evidence == m.state.evidence + [item]
             && Evidence.AllValidDistinct(m'.state.evidence, m'.state.calls, cfg.run)
    ensures StateOk(cfg, RouteVerify(cfg, m'), m'.state, m'.nextId)
  {
    WorkflowShape.VerifyOutcome(cfg, m, m');
    if m'.state.root.Some? {
      ConclusionGrounds(cfg, m'.state, m.state.evidence, item);
    }
  }

  // --------------------------------------------------------------- preservation

  lemma SurvivorsIdsBelow(calls: seq<Evidence.Call>, evidence: seq<Evidence.Item>, run: string, nextId: nat)
    requires IdsBelow(calls, evidence, nextId)
    ensures IdsBelow(calls, Evidence.ValidEvidence(evidence, calls, run), nextId)
  {
  }

  /** Forming a hypothesis filters the evidence; a root cause it may name is not verified. */
  predicate Forms(cfg: Config, m: Machine, m': Machine) {
    && m'.state.calls == m.state.calls && m'.toolCalls == m.toolCalls && m'.nextId == m.nextId
    && m'.state.evidence == Evidence.ValidEvidence(m.state.evidence, m.state.calls, cfg.run)
    && (m'.state.root.Some? ==> !m'.state.root.value.verified)
  }

  lemma FormFacts(cfg: Config, m: Machine, input: Input)
    requires m.state.root.None?
    ensures Forms(cfg, m, FormNode(cfg, m, input))
  {
  }

  lemma FormedOk(cfg: Config, m: Machine, m': Machine)
    requires StateOk(cfg, Form, m.state, m.nextId) && Forms(cfg, m, m')
    ensures StateOk(cfg, Route(cfg, Form, m'), m'.state, m'.nextId)
  {
    Evidence.SurvivorsAreDistinct(m.state.evidence, m.state.calls, cfg.run);
    SurvivorsIdsBelow(m.state.calls, m.state.evidence, cfg.run, m.nextId);
  }

  lemma FormKeeps(cfg: Config, m: Machine, input: Input)
    requires StateOk(cfg, Form, m.state, m.nextId) && m.state.root.None?
    ensures var m' := FormNode(cfg, m, input);
            StateOk(cfg, Route(cfg, Form, m'), m'.state, m'.nextId) && m'.toolCalls == m.toolCalls
              && m'.nextId == m.nextId
  {
    FormFacts(cfg, m, input);
    FormedOk(cfg, m, FormNode(cfg, m, input));
  }

  lemma CollectKeeps(cfg: Config, m: Machine, input: Input)
    requires StateOk(cfg, Collect, m.state, m.nextId) && m.state.root.None?
    requires AttemptSum(m.state.calls) <= m.toolCalls <= cfg.maxToolCalls
    ensures var m' := CollectNode(cfg, m, input);
            StateOk(cfg, Route(cfg, Collect, m'), m'.state, m'.nextId) && m'.toolCalls <= cfg.maxToolCalls
              && m'.nextId >= m.nextId
  {
    var s := m.state;
    CollectConserves(cfg, Collecting(s.calls, s.evidence, s.status, m.toolCalls, m.stepCount, m.nextId), input.actions);
  }

  predicate Settled(m: Machine, m': Machine) {
    && m'.state.calls == m.state.calls && m'.state.evidence == m.state.evidence && m'.state.root == m.state.root
    && m'.nextId >= m.nextId && m'.toolCalls == m.toolCalls
  }

  lemma EnsureSettled(cfg: Config, m: Machine, input: Input, replay: bool)
    ensures Settled(m, EnsureWorkspace(cfg, m, input, replay).machine)
  {
  }

  lemma DraftSettled(cfg: Config, m: Machine, input: Input)
    ensures Settled(m, DraftPatch(cfg, m, input).machine)
  {
  }

  lemma GenerateSettled(cfg: Config, m: Machine, input: Input)
    ensures Settled(m, GenerateNode(cfg, m, input).machine)
  {
    var m0 := if m.state.attempts != [] then m.(runtime := NO_RUNTIME) else m;
    EnsureSettled(cfg, m0, input, false);
    DraftSettled(cfg, EnsureWorkspace(cfg, m0, input, false).machine, input);
  }

  lemma TestsSettled(cfg: Config, m: Machine, input: Input)
    ensures Settled(m, RunTestsNode(cfg, m, input).machine)
  {
    EnsureSettled(cfg, m, input, true);
  }

  lemma ExportSettled(cfg: Config, m: Machine, input: Input)
    ensures Settled(m, ExportNode(cfg, m, input).machine)
  {
    TestsSettled(cfg, m, input);
  }

  /** The nodes of the patch phase leave calls, evidence and root cause alone. */
  lemma PatchPhaseKeeps(cfg: Config, m: Machine, input: Input)
    requires WorkflowShape.Shape(cfg, m.node, m.state) && !WorkflowShape.Investigating(m.node)
    ensures var m' := RunNode(cfg, m, input).machine;
            Settled(m, m'.(toolCalls := m.toolCalls)) && m'.toolCalls <= Restored(m).toolCalls
  {
    var r := Restored(m);
    if m.state.status == Running && !input.raises {
      match m.node
      case Generate => GenerateSettled(cfg, r, input);
      case RunTests => TestsSettled(cfg, r, input);
      case Export => ExportSettled(cfg, r, input);
      case _ =>
    }
  }

  /** One node keeps the evidence and budget invariants of the next checkpoint. */
  lemma NodeKeeps(cfg: Config, m: Machine, input: Input)
    requires Inv(cfg, m) && m.node != Stop && RunNode(cfg, m, input).Done?
    ensures var m' := RunNode(cfg, m, input).machine;
            && StateOk(cfg, Route(cfg, m.node, m'), m'.state, m'.nextId)
            && m'.toolCalls <= cfg.maxToolCalls && m'.nextId >= m.nextId
  {
    var r := Restored(m);
    match m.node
    case Plan =>
    case Collect => CollectKeeps(cfg, r, input);
    case Form => FormKeeps(cfg, r, input);
    case Verify => VerifyGrounds(cfg, r, input);
    case _ =>
      PatchPhaseKeeps(cfg, m, input);
      PatchPhaseStaysGrounded(cfg, m, RunNode(cfg, m, input).machine);
  }

  /** After the verification no edge leads back to it, and grounding looks at nothing that changes. */
  lemma PatchPhaseStaysGrounded(cfg: Config, m: Machine, m': Machine)
    requires StateOk(cfg, m.node, m.state, m.nextId) && !WorkflowShape.Investigating(m.node) && m.node != Stop
    requires m'.state.calls == m.state.calls && m'.state.evidence == m.state.evidence && m'.state.root == m.state.root
    requires m'.nextId >= m.nextId
    ensures StateOk(cfg, Route(cfg, m.node, m'), m'.state, m'.nextId)
  {
    assert Grounded(cfg, m.state) ==> Grounded(cfg, m'.state);
  }

  lemma RaisedNodeIds(cfg: Config, m: Machine, input: Input)
    requires Inv(cfg, m)
    ensures RunNode(cfg, m, input).machine.nextId >= m.nextId
    ensures RunNode(cfg, m, input).Raised? ==> RunNode(cfg, m, input).machine.toolCalls <= cfg.maxToolCalls
  {
    if WorkflowShape.Investigating(m.node) {
      if RunNode(cfg, m, input).Done? {
        NodeKeeps(cfg, m, input);
      }
    } else {
      PatchPhaseKeeps(cfg, m, input);
    }
  }

  lemma InvPreserved(cfg: Config, m: Machine, s: Step)
    requires Inv(cfg, m) && WorkflowShape.Inv(cfg, m)
    ensures Inv(cfg, Advanced(cfg, m, s))
  {
    WorkflowShape.InvPreserved(cfg, m, s);
    if m.saved.None? && (s.Run? || s.Die?) {
      RaisedNodeIds(cfg, m, s.input);
      if s.Run? && m.node != Stop && RunNode(cfg, m, s.input).Done? {
        NodeKeeps(cfg, m, s.input);
      }
    }
  }

  lemma {:induction false} InvAlways(cfg: Config, steps: seq<Step>)
    ensures Inv(cfg, History(cfg, Start(), steps))
  {
    if steps != [] {
      var before := History(cfg, Start(), steps[..|steps| - 1]);
      InvAlways(cfg, steps[..|steps| - 1]);
      WorkflowShape.InvAlways(cfg, steps[..|steps| - 1]);
      InvPreserved(cfg, before, steps[|steps| - 1]);
    }
  }

  // ------------------------------------------------------------------- theorems

  /**
    Tool budget conservation. At every checkpoint of every history, however often the
    process died and its counters were lost, the attempts recorded in the state add up to
    at most `max_tool_calls`; and a node that runs next starts from a counter that covers them.
  */
  lemma ToolBudgetConserved(cfg: Config, steps: seq<Step>)
    ensures var m := History(cfg, Start(), steps);
            && AttemptSum(m.state.calls) <= cfg.maxToolCalls
            && AttemptSum(m.state.calls) <= Restored(m).toolCalls <= cfg.maxToolCalls
  {
    InvAlways(cfg, steps);
  }

  /**
    A verified root cause is grounded, and nothing is generated, tested or exported
    without one.
  */
  lemma RootCauseIsGrounded(cfg: Config, steps: seq<Step>)
    ensures var m := History(cfg, Start(), steps);
            && (m.state.root.Some? && m.state.root.value.verified ==>
                  && Grounded(cfg, m.state)
                  && Evidence.ValidEvidence(m.state.evidence, m.state.calls, cfg.run) == m.state.evidence)
            && (m.node in {CreateSandbox, Generate, RunTests, Reflect, Export} ==> Grounded(cfg, m.state))
  {
    InvAlways(cfg, steps);
    var m := History(cfg, Start(), steps);
    if m.state.root.Some? && m.state.root.value.verified {
      Evidence.PassesUnchanged(m.state.evidence, m.state.calls, cfg.run);
    }
  }
}
