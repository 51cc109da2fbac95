/** Building blocks of concrete investigations: tools that answer, tools that refuse, and nodes that go on. */
module WorkflowRuns {
  import opened Options
  import opened RunStatus
  import opened Patches
  import Evidence
  import Gateway
  import opened Sandbox
  import opened Workflow
  import WorkflowShape
  import WorkflowEvidence

  // ------------------------------------------------------------- tools and inputs

  /** Outputs told apart by their length. */
  function Out(i: nat): Evidence.Output {
    Evidence.Output(seq(i, _ => 'a'), true, false, false, false)
  }

  function Good(name: string, i: nat): Gateway.Tool {
    Gateway.Tool(name, true, true, 0, [Gateway.Returned(Out(i), true)])
  }

  /** Its arguments are refused: a step is spent, and no attempt is made. */
  const BAD: Gateway.Tool := Gateway.Tool("read_metrics", true, false, 0, [])

  const LOGS := "read_logs"

  function Say(actions: seq<Action>, cited: seq<nat>, tool: Gateway.Tool): Input {
    Input(false, actions, cited, tool, false, [], true, Missing, SimpleReplace([]), None)
  }

  lemma NewOutput(i: nat, j: nat)
    requires i != j
    ensures Evidence.HashOf(Out(i)) != Evidence.HashOf(Out(j))
  {
    assert |Out(i).text| == i && |Out(j).text| == j;
  }

  // ------------------------------------------------------------ collected so far

  /** The call that brings output `i`, and its observation. */
  function GoodCall(name: string, i: nat, nextId: nat): Evidence.Call {
    Evidence.Call(nextId, name, Evidence.Succeeded, Out(i), 1)
  }

  function GoodItem(cfg: Config, name: string, i: nat, nextId: nat): Evidence.Item {
    Observation(cfg, GoodCall(name, i, nextId), nextId + 1)
  }

  /** `n` observations from the logs, with the first `n` outputs, all of them valid. */
  ghost predicate Observed(cfg: Config, calls: seq<Evidence.Call>, evidence: seq<Evidence.Item>, n: nat) {
    && |evidence| == n
    && (forall j :: 0 <= j < n ==> evidence[j].hash == Evidence.HashOf(Out(j)) && evidence[j].source == LOGS)
    && Evidence.AllValidDistinct(evidence, calls, cfg.run)
  }

  ghost predicate Gathered(cfg: Config, calls: seq<Evidence.Call>, evidence: seq<Evidence.Item>, nextId: nat, n: nat) {
    && Observed(cfg, calls, evidence, n) && AttemptSum(calls) == n
    && WorkflowEvidence.IdsBelow(calls, evidence, nextId)
  }

  lemma NothingLike(cfg: Config, calls: seq<Evidence.Call>, evidence: seq<Evidence.Item>, n: nat)
    requires Observed(cfg, calls, evidence, n)
    ensures forall j :: 0 <= j < n ==> evidence[j].hash != Evidence.HashOf(Out(n))
  {
    forall j | 0 <= j < n
      ensures evidence[j].hash != Evidence.HashOf(Out(n))
    {
      NewOutput(j, n);
    }
  }

  /** One more successful call, from any tool: its observation is valid and new. */
  lemma ObserveOne(cfg: Config, calls: seq<Evidence.Call>, evidence: seq<Evidence.Item>, name: string, nextId: nat,
                   n: nat)
    requires Gathered(cfg, calls, evidence, nextId, n)
    ensures var c, item := GoodCall(name, n, nextId), GoodItem(cfg, name, n, nextId);
            && Evidence.AllValidDistinct(evidence + [item], calls + [c], cfg.run)
            && Evidence.ValidEvidence(evidence + [item], calls + [c], cfg.run) == evidence + [item]
  {
    NothingLike(cfg, calls, evidence, n);
    assert forall i :: 0 <= i < |evidence| ==> evidence[i].call != nextId;
    WorkflowEvidence.FreshObservationJoins(cfg, calls, evidence, GoodCall(name, n, nextId), nextId + 1);
  }

  lemma IdsStayBelow(calls: seq<Evidence.Call>, evidence: seq<Evidence.Item>, c: Evidence.Call, item: Evidence.Item,
                     nextId: nat)
    requires WorkflowEvidence.IdsBelow(calls, evidence, nextId)
    requires c.id == nextId && item.call == nextId && item.id == nextId + 1
    ensures WorkflowEvidence.IdsBelow(calls + [c], evidence, nextId + 2)
    ensures WorkflowEvidence.IdsBelow(calls + [c], evidence + [item], nextId + 2)
  {
  }

  /** The list with one more observation. */
  lemma ObservedAll(cfg: Config, calls: seq<Evidence.Call>, evidence: seq<Evidence.Item>, item: Evidence.Item,
                    calls': seq<Evidence.Call>, n: nat)
    requires Observed(cfg, calls, evidence, n) && item.hash == Evidence.HashOf(Out(n)) && item.source == LOGS
    requires Evidence.AllValidDistinct(evidence + [item], calls', cfg.run)
    ensures Observed(cfg, calls', evidence + [item], n + 1)
  {
    var all := evidence + [item];
    forall j | 0 <= j < n + 1
      ensures all[j].hash == Evidence.HashOf(Out(j)) && all[j].source == LOGS
    {
      assert all[j] == if j < n then evidence[j] else item;
    }
  }

  lemma GatherOne(cfg: Config, calls: seq<Evidence.Call>, evidence: seq<Evidence.Item>, nextId: nat, n: nat)
    requires Gathered(cfg, calls, evidence, nextId, n)
    ensures var c, item := GoodCall(LOGS, n, nextId), GoodItem(cfg, LOGS, n, nextId);
            Gathered(cfg, calls + [c], evidence + [item], nextId + 2, n + 1)
  {
    var c, item := GoodCall(LOGS, n, nextId), GoodItem(cfg, LOGS, n, nextId);
    assert Observed(cfg, calls + [c], evidence + [item], n + 1) by {
      ObserveOne(cfg, calls, evidence, LOGS, nextId, n);
      ObservedAll(cfg, calls, evidence, item, calls + [c], n);
    }
    assert WorkflowEvidence.IdsBelow(calls + [c], evidence + [item], nextId + 2) by {
      IdsStayBelow(calls, evidence, c, item, nextId);
    }
    WorkflowEvidence.AppendCall(calls, c);
  }

  /** One more refused call. */
  lemma GatherNone(cfg: Config, calls: seq<Evidence.Call>, evidence: seq<Evidence.Item>, nextId: nat, n: nat,
                   c: Evidence.Call)
    requires Gathered(cfg, calls, evidence, nextId, n) && c.id == nextId && c.attempts == 0
    ensures Gathered(cfg, calls + [c], evidence, nextId + 2, n)
  {
    StillValid(cfg, calls, evidence, c);
    IdsStayBelow(calls, evidence, c, GoodItem(cfg, LOGS, n, nextId), nextId);
    WorkflowEvidence.AppendCall(calls, c);
  }

  lemma StillValid(cfg: Config, calls: seq<Evidence.Call>, evidence: seq<Evidence.Item>, c: Evidence.Call)
    requires Evidence.AllValidDistinct(evidence, calls, cfg.run)
    requires forall i :: 0 <= i < |evidence| ==> evidence[i].call != c.id
    ensures Evidence.AllValidDistinct(evidence, calls + [c], cfg.run)
  {
    Evidence.FixedPoints(evidence, calls, cfg.run);
    Evidence.FreshCallKeepsEvidence(evidence, calls, cfg.run, c);
    Evidence.FixedPoints(evidence, calls + [c], cfg.run);
  }

  // ------------------------------------------------------------------ collecting

  ghost predicate Busy(cfg: Config, k: Collecting, n: nat, calls: nat, steps: nat) {
    && Gathered(cfg, k.calls, k.evidence, k.nextId, n) && k.toolCalls == n && k.status == Running
    && |k.calls| == calls && k.stepCount == steps
  }

  lemma GoodResult(max: nat, used: nat, name: string, i: nat)
    requires used < max
    ensures Gateway.CallResult(max, used, Good(name, i)) == Gateway.Result(Evidence.Succeeded, Out(i), 1, None)
  {
  }

  lemma BadResult(max: nat, used: nat)
    ensures var r := Gateway.CallResult(max, used, BAD); r.attempts == 0 && r.status != Evidence.Succeeded
  {
  }

  lemma GoodUse(cfg: Config, k: Collecting, n: nat, calls: nat, steps: nat)
    requires Busy(cfg, k, n, calls, steps) && n < cfg.maxToolCalls && calls + 1 < cfg.maxToolCalls
    ensures var (k', more) := CollectOne(cfg, k, Use(Good(LOGS, n)));
            more && Busy(cfg, k', n + 1, calls + 1, steps + 1)
  {
    GoodResult(cfg.maxToolCalls, n, LOGS, n);
    GatherOne(cfg, k.calls, k.evidence, k.nextId, n);
    UseIs(cfg, k, Good(LOGS, n));
  }

  /** What the pass does to the loop's variables. */
  lemma UseIs(cfg: Config, k: Collecting, t: Gateway.Tool)
    requires |k.calls| + 1 < cfg.maxToolCalls
    ensures CollectOne(cfg, k, Use(t)) == (Invoke(cfg, k.(stepCount := k.stepCount + 1), t), true)
  {
  }

  lemma BadUse(cfg: Config, k: Collecting, n: nat, calls: nat, steps: nat)
    requires Busy(cfg, k, n, calls, steps) && calls + 1 < cfg.maxToolCalls
    ensures var (k', more) := CollectOne(cfg, k, Use(BAD)); more && Busy(cfg, k', n, calls + 1, steps + 1)
  {
    BadResult(cfg.maxToolCalls, k.toolCalls);
    var r := Gateway.CallResult(cfg.maxToolCalls, k.toolCalls, BAD);
    GatherNone(cfg, k.calls, k.evidence, k.nextId, n, RecordOf(BAD, r, k.nextId));
    UseIs(cfg, k, BAD);
  }

  lemma LoopOn(cfg: Config, k: Collecting, a: Action, rest: seq<Action>)
    requires k.stepCount < cfg.maxSteps && CollectOne(cfg, k, a).1
    ensures CollectLoop(cfg, k, [a] + rest) == CollectLoop(cfg, CollectOne(cfg, k, a).0, rest)
  {
    assert ([a] + rest)[0] == a && ([a] + rest)[1..] == rest;
  }

  /** What the loop makes of some actions. */
  ghost predicate Ends(cfg: Config, k: Collecting, actions: seq<Action>, n: nat, calls: nat, steps: nat) {
    Busy(cfg, CollectLoop(cfg, k, actions), n, calls, steps)
  }

  lemma EndsOn(cfg: Config, k: Collecting, a: Action, rest: seq<Action>, n: nat, calls: nat, steps: nat)
    requires k.stepCount < cfg.maxSteps && CollectOne(cfg, k, a).1
    requires Ends(cfg, CollectOne(cfg, k, a).0, rest, n, calls, steps)
    ensures Ends(cfg, k, [a] + rest, n, calls, steps)
  {
    LoopOn(cfg, k, a, rest);
  }

  /** After `b` refused calls the model proceeds, if a step is left to say so. */
  lemma {:induction false} BadUses(cfg: Config, k: Collecting, n: nat, calls: nat, steps: nat, b: nat)
    returns (actions: seq<Action>)
    requires Busy(cfg, k, n, calls, steps) && (b == 0 || calls + b < cfg.maxToolCalls) && steps + b <= cfg.maxSteps
    ensures Ends(cfg, k, actions, n, calls + b, if steps + b < cfg.maxSteps then steps + b + 1 else cfg.maxSteps)
    decreases b
  {
    if b > 0 {
      BadUse(cfg, k, n, calls, steps);
      var next := CollectOne(cfg, k, Use(BAD)).0;
      var rest := BadUses(cfg, next, n, calls + 1, steps + 1, b - 1);
      EndsOn(cfg, k, Use(BAD), rest, n, calls + b, if steps + b < cfg.maxSteps then steps + b + 1 else cfg.maxSteps);
      actions := [Use(BAD)] + rest;
    } else {
      EndsBusy(cfg, k, n, calls, steps);
      actions := [];
    }
  }

  lemma EndsBusy(cfg: Config, k: Collecting, n: nat, calls: nat, steps: nat)
    requires Busy(cfg, k, n, calls, steps) && steps <= cfg.maxSteps
    ensures Ends(cfg, k, [], n, calls, if steps < cfg.maxSteps then steps + 1 else cfg.maxSteps)
  {
  }

  lemma GoodThen(cfg: Config, k: Collecting, n: nat, calls: nat, steps: nat, rest: seq<Action>, n': nat, calls': nat,
                 steps': nat)
    returns (actions: seq<Action>)
    requires Busy(cfg, k, n, calls, steps) && n < cfg.maxToolCalls && calls + 1 < cfg.maxToolCalls
    requires steps < cfg.maxSteps && Ends(cfg, CollectOne(cfg, k, Use(Good(LOGS, n))).0, rest, n', calls', steps')
    ensures Ends(cfg, k, actions, n', calls', steps')
  {
    GoodUse(cfg, k, n, calls, steps);
    EndsOn(cfg, k, Use(Good(LOGS, n)), rest, n', calls', steps');
    actions := [Use(Good(LOGS, n))] + rest;
  }

  /** Two observations first. */
  lemma TwoGoodUses(cfg: Config, k: Collecting, b: nat) returns (actions: seq<Action>)
    requires Busy(cfg, k, 0, 0, 0) && 2 + b < cfg.maxToolCalls && 2 + b < cfg.maxSteps
    ensures Ends(cfg, k, actions, 2, 2 + b, 3 + b)
  {
    GoodUse(cfg, k, 0, 0, 0);
    var k1 := CollectOne(cfg, k, Use(Good(LOGS, 0))).0;
    GoodUse(cfg, k1, 1, 1, 1);
    var k2 := CollectOne(cfg, k1, Use(Good(LOGS, 1))).0;
    actions := BadUses(cfg, k2, 2, 2, 2, b);
    actions := GoodThen(cfg, k1, 1, 1, 1, actions, 2, 2 + b, 3 + b);
    actions := GoodThen(cfg, k, 0, 0, 0, actions, 2, 2 + b, 3 + b);
  }

  // ---------------------------------------------------------------- the machine

  /** A running investigation: `n` observations, `rc` rejections, and the step counts. */
  ghost predicate Stands(cfg: Config, m: Machine, node: Node, n: nat, rc: nat, calls: nat, kept: nat, alive: nat,
                         taken: int) {
    && m.saved.None? && m.node == node && m.state.status == Running && m.state.root.None?
    && m.state.attempts == []
    && Gathered(cfg, m.state.calls, m.state.evidence, m.nextId, n) && |m.state.calls| == calls && m.toolCalls <= n
    && RejectedCount(m.state.hypotheses) == rc && m.state.steps == kept && m.stepCount == alive && m.taken == taken
  }

  function Entering(m: Machine): Collecting {
    var r := Restored(m);
    Collecting(r.state.calls, r.state.evidence, r.state.status, r.toolCalls, r.stepCount, r.nextId)
  }

  lemma EnteringBusy(cfg: Config, m: Machine, n: nat, rc: nat, calls: nat, taken: int)
    requires Stands(cfg, m, Collect, n, rc, calls, 0, 0, taken)
    ensures Busy(cfg, Entering(m), n, calls, 0)
  {
  }

  /** The collecting node at work. */
  lemma CollectRuns(cfg: Config, m: Machine, actions: seq<Action>)
    requires m.saved.None? && m.node == Collect && m.state.status == Running
    ensures var o := CollectNode(cfg, Restored(m), Say(actions, [], BAD));
            Advanced(cfg, m, Run(Say(actions, [], BAD)))
            == o.(node := Route(cfg, Collect, o), executed := o.executed + 1)
  {
    assert RunNode(cfg, m, Say(actions, [], BAD)) == Done(CollectNode(cfg, Restored(m), Say(actions, [], BAD)));
  }

  /** A collection that leaves a step of its budget unspent goes on to a hypothesis. */
  lemma CollectGoesOn(cfg: Config, m: Machine, actions: seq<Action>, n: nat, rc: nat, calls: nat, taken: int, n': nat,
                      calls': nat, used: nat)
    returns (m': Machine)
    requires Stands(cfg, m, Collect, n, rc, calls, 0, 0, taken)
    requires Ends(cfg, Entering(m), actions, n', calls', used) && used < cfg.maxSteps && n' > 0
    ensures m' == Advanced(cfg, m, Run(Say(actions, [], BAD)))
    ensures Stands(cfg, m', Form, n', rc, calls', used, used, taken + used)
  {
    CollectRuns(cfg, m, actions);
    m' := Advanced(cfg, m, Run(Say(actions, [], BAD)));
  }

  /** A first collection of `round` steps, two of them observations and the last one without a call. */
  lemma ObservingRound(cfg: Config, m: Machine, round: nat) returns (s: Step)
    requires Stands(cfg, m, Collect, 0, 0, 0, 0, 0, 0) && 3 <= round < cfg.maxSteps && round <= cfg.maxToolCalls
    ensures Stands(cfg, Advanced(cfg, m, s), Form, 2, 0, round - 1, round, round, round)
  {
    EnteringBusy(cfg, m, 0, 0, 0, 0);
    var actions := TwoGoodUses(cfg, Entering(m), round - 3);
    var m' := CollectGoesOn(cfg, m, actions, 0, 0, 0, 0, 2, round - 1, round);
    s := Run(Say(actions, [], BAD));
  }

  lemma FormRuns(cfg: Config, m: Machine, input: Input)
    requires m.saved.None? && m.node == Form && m.state.status == Running && !input.raises
    ensures var o := FormNode(cfg, Restored(m), input);
            Advanced(cfg, m, Run(input)) == o.(node := Route(cfg, Form, o), executed := o.executed + 1)
  {
    assert RunNode(cfg, m, input) == Done(FormNode(cfg, Restored(m), input));
  }

  /** The first observation is cited, and the evidence is all valid: a hypothesis is formed. */
  lemma FormsOpen(cfg: Config, m: Machine, input: Input)
    requires !cfg.direct && |m.state.evidence| >= 2 && input.cited == [m.state.evidence[0].id]
    requires Evidence.AllValidDistinct(m.state.evidence, m.state.calls, cfg.run)
    ensures FormNode(cfg, m, input) == m.(state := m.state.(hypotheses := m.state.hypotheses + [Open]))
  {
    Evidence.PassesUnchanged(m.state.evidence, m.state.calls, cfg.run);
    assert input.cited[0] in Ids(m.state.evidence);
    assert Cites(input.cited, m.state.evidence);
  }

  lemma FormGoesOn(cfg: Config, m: Machine, n: nat, rc: nat, calls: nat, used: nat, taken: int)
    returns (s: Step, m': Machine)
    requires !cfg.direct && n >= 2 && Stands(cfg, m, Form, n, rc, calls, used, used, taken)
    ensures m' == Advanced(cfg, m, s) && Stands(cfg, m', Verify, n, rc, calls, used, used, taken)
    ensures m'.state.hypotheses != [] && Last(m'.state.hypotheses) == Open
  {
    var input := Say([], [m.state.evidence[0].id], BAD);
    s := Run(input);
    FormRuns(cfg, m, input);
    FormsOpen(cfg, Restored(m), input);
    WorkflowShape.AppendOpen(m.state.hypotheses);
    m' := Advanced(cfg, m, s);
  }

  lemma VerifyRuns(cfg: Config, m: Machine, input: Input)
    requires m.saved.None? && m.node == Verify && m.state.status == Running && !input.raises
    ensures var v := VerifyNode(cfg, Restored(m), input);
            Advanced(cfg, m, Run(input)) == v.(node := RouteVerify(cfg, v), executed := v.executed + 1)
  {
    assert RunNode(cfg, m, input) == Done(VerifyNode(cfg, Restored(m), input));
  }

  /** A verification call that succeeds and tells something new. */
  lemma TellsNew(cfg: Config, m: Machine, name: string, n: nat)
    requires Gathered(cfg, m.state.calls, m.state.evidence, m.nextId, n) && m.toolCalls == n < cfg.maxToolCalls
    ensures var r := Gateway.CallResult(cfg.maxToolCalls, m.toolCalls, Good(name, n));
            RecordOf(Good(name, n), r, m.nextId) == GoodCall(name, n, m.nextId)
              && !NothingNew(m.state, r)
  {
    GoodResult(cfg.maxToolCalls, n, name, n);
    NothingLike(cfg, m.state.calls, m.state.evidence, n);
  }

  lemma Extend(cfg: Config, steps: seq<Step>, s: Step) returns (longer: seq<Step>)
    ensures longer == steps + [s]
    ensures History(cfg, Start(), longer) == Advanced(cfg, History(cfg, Start(), steps), s)
  {
    longer := steps + [s];
    assert longer[..|longer| - 1] == steps;
  }

  /** The plan is made, and the investigation stands before its first collection. */
  lemma Planned(cfg: Config) returns (steps: seq<Step>)
    ensures Stands(cfg, History(cfg, Start(), steps), Collect, 0, 0, 0, 0, 0, 0)
  {
    steps := Extend(cfg, [], Run(Say([], [], BAD)));
    assert History(cfg, Start(), []) == Start();
  }
}
