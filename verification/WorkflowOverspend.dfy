/** The histories that take the most steps, and the settings under which that is too many. */
module WorkflowOverspend {
  import opened Options
  import opened RunStatus
  import Evidence
  import Gateway
  import opened Workflow
  import WorkflowShape
  import opened WorkflowRuns
  import opened WorkflowSteps

  // ------------------------------------------------------------------- rejections

  /** The state that a rejection on the observation of `c` leaves. */
  function AfterRejecting(cfg: Config, m: Machine, c: Evidence.Call): Machine
    requires m.state.hypotheses != []
  {
    m.(toolCalls := m.toolCalls + c.attempts, nextId := m.nextId + 2,
       state := m.state.(calls := m.state.calls + [c],
                         evidence := m.state.evidence + [Observation(cfg, c, m.nextId + 1)],
                         hypotheses := Judged(m.state.hypotheses, Rejected),
                         steps := 0, test := None, artifact := None))
  }

  /** An informative call, an unsupported hypothesis, and steps and rounds left. */
  lemma VerifyUnfolds(cfg: Config, m: Machine, input: Input, c: Evidence.Call)
    requires m.state.hypotheses != [] && !input.supported
    requires var r := Gateway.CallResult(cfg.maxToolCalls, m.toolCalls, input.tool);
             c == RecordOf(input.tool, r, m.nextId) && !NothingNew(m.state, r)
    requires var item := Observation(cfg, c, m.nextId + 1);
             Evidence.ValidEvidence(m.state.evidence + [item], m.state.calls + [c], cfg.run)
               == m.state.evidence + [item]
    requires RejectedCount(Judged(m.state.hypotheses, Rejected)) < 3 && m.stepCount < cfg.maxSteps
    ensures VerifyNode(cfg, m, input) == AfterRejecting(cfg, m, c)
  {
  }

  /** What the rejecting node does to the state. */
  lemma Rejection(cfg: Config, m: Machine, n: nat)
    requires Gathered(cfg, m.state.calls, m.state.evidence, m.nextId, n) && m.toolCalls == n < cfg.maxToolCalls
    requires m.state.hypotheses != [] && Last(m.state.hypotheses) == Open
    requires RejectedCount(m.state.hypotheses) <= 1 && m.stepCount < cfg.maxSteps
    ensures VerifyNode(cfg, m, Say([], [], Good(LOGS, n))) == AfterRejecting(cfg, m, GoodCall(LOGS, n, m.nextId))
  {
    TellsNew(cfg, m, LOGS, n);
    ObserveOne(cfg, m.state.calls, m.state.evidence, LOGS, m.nextId, n);
    WorkflowShape.JudgedCount(m.state.hypotheses, Rejected);
    VerifyUnfolds(cfg, m, Say([], [], Good(LOGS, n)), GoodCall(LOGS, n, m.nextId));
  }

  lemma RejectedStands(cfg: Config, m: Machine, v: Machine, n: nat, rc: nat, calls: nat, used: nat, taken: int)
    requires Stands(cfg, m, Verify, n, rc, calls, used, used, taken) && rc <= 1 && used < cfg.maxSteps
    requires m.state.hypotheses != [] && Last(m.state.hypotheses) == Open
    requires m.toolCalls == n && v == AfterRejecting(cfg, m, GoodCall(LOGS, n, m.nextId))
    ensures RouteVerify(cfg, v) == Collect
    ensures Stands(cfg, v.(node := Collect, executed := v.executed + 1), Collect, n + 1, rc + 1, calls + 1, 0, used,
                   taken)
  {
    GatherOne(cfg, m.state.calls, m.state.evidence, m.nextId, n);
    WorkflowShape.JudgedCount(m.state.hypotheses, Rejected);
  }

  /** The hypothesis is rejected on a new observation, with steps and a round left. */
  lemma VerifyRejects(cfg: Config, m: Machine, n: nat, rc: nat, calls: nat, used: nat, taken: int)
    returns (s: Step, m': Machine)
    requires Stands(cfg, m, Verify, n, rc, calls, used, used, taken) && n < cfg.maxToolCalls
    requires m.state.hypotheses != [] && Last(m.state.hypotheses) == Open && rc <= 1 && used < cfg.maxSteps
    ensures m' == Advanced(cfg, m, s) && Stands(cfg, m', Collect, n + 1, rc + 1, calls + 1, 0, used, taken)
  {
    var input := Say([], [], Good(LOGS, n));
    s := Run(input);
    VerifyRuns(cfg, m, input);
    var r := Restored(m);
    Rejection(cfg, r, n);
    var v := AfterRejecting(cfg, r, GoodCall(LOGS, n, m.nextId));
    RejectedStands(cfg, r, v, n, rc, calls, used, taken);
    m' := v.(node := Collect, executed := v.executed + 1);
  }

  lemma Crash(cfg: Config, m: Machine, n: nat, rc: nat, calls: nat, used: nat, taken: int)
    returns (s: Step, m': Machine)
    requires Stands(cfg, m, Collect, n, rc, calls, 0, used, taken)
    ensures m' == Advanced(cfg, m, s) && Stands(cfg, m', Collect, n, rc, calls, 0, 0, taken)
  {
    var input := Say([], [], BAD).(raises := true);
    s := Die(input);
    m' := Advanced(cfg, m, s);
    assert RunNode(cfg, m, input) == Raised(Restored(m));
  }

  /** From a completed collection to the next round, whose step count the crash has set back to zero. */
  lemma RejectedAndCrashed(cfg: Config, steps: seq<Step>, n: nat, rc: nat, calls: nat, used: nat, taken: int)
    returns (longer: seq<Step>)
    requires !cfg.direct && 2 <= n < cfg.maxToolCalls && rc <= 1 && used < cfg.maxSteps
    requires Stands(cfg, History(cfg, Start(), steps), Form, n, rc, calls, used, used, taken)
    ensures Stands(cfg, History(cfg, Start(), longer), Collect, n + 1, rc + 1, calls + 1, 0, 0, taken)
  {
    var m := History(cfg, Start(), steps);
    var s1, m1 := FormGoesOn(cfg, m, n, rc, calls, used, taken);
    var s2, m2 := VerifyRejects(cfg, m1, n, rc, calls, used, taken);
    var s3, m3 := Crash(cfg, m2, n + 1, rc + 1, calls + 1, used, taken);
    longer := Extend(cfg, steps, s1);
    longer := Extend(cfg, longer, s2);
    longer := Extend(cfg, longer, s3);
  }

  // ----------------------------------------------------------------------- rounds

  /** Before a collection that follows `rc` rejections and crashes, every step taken being a recorded call. */
  ghost predicate Before(cfg: Config, steps: seq<Step>, rc: nat, taken: nat) {
    Stands(cfg, History(cfg, Start(), steps), Collect, if rc == 0 then 0 else rc + 2, rc, taken, 0, 0, taken)
  }

  /** The first round takes `round` steps and ends with a rejection. */
  lemma FirstRound(cfg: Config, steps: seq<Step>, round: nat) returns (longer: seq<Step>)
    requires !cfg.direct && Before(cfg, steps, 0, 0) && 3 <= round < cfg.maxSteps && round <= cfg.maxToolCalls
    ensures Before(cfg, longer, 1, round)
  {
    var s := ObservingRound(cfg, History(cfg, Start(), steps), round);
    longer := Extend(cfg, steps, s);
    longer := RejectedAndCrashed(cfg, longer, 2, 0, round - 1, round, round);
  }

  /** Later rounds take refused calls only, and a last step without a call. */
  lemma RefusedRound(cfg: Config, m: Machine, n: nat, rc: nat, taken: nat, round: nat) returns (s: Step)
    requires Stands(cfg, m, Collect, n, rc, taken, 0, 0, taken) && n > 0 && 1 <= round < cfg.maxSteps
    requires round == 1 || taken + round <= cfg.maxToolCalls
    ensures Stands(cfg, Advanced(cfg, m, s), Form, n, rc, taken + round - 1, round, round, taken + round)
  {
    EnteringBusy(cfg, m, n, rc, taken, taken);
    var actions := BadUses(cfg, Entering(m), n, taken, 0, round - 1);
    var m' := CollectGoesOn(cfg, m, actions, n, rc, taken, taken, n, taken + round - 1, round);
    s := Run(Say(actions, [], BAD));
  }

  lemma SecondRound(cfg: Config, steps: seq<Step>, taken: nat, round: nat) returns (longer: seq<Step>)
    requires !cfg.direct && Before(cfg, steps, 1, taken) && 1 <= round < cfg.maxSteps && cfg.maxToolCalls > 3
    requires round == 1 || taken + round <= cfg.maxToolCalls
    ensures Before(cfg, longer, 2, taken + round)
  {
    var s := RefusedRound(cfg, History(cfg, Start(), steps), 3, 1, taken, round);
    longer := Extend(cfg, steps, s);
    longer := RejectedAndCrashed(cfg, longer, 3, 1, taken + round - 1, round, taken + round);
  }

  /** The last collection may use up the budget. */
  lemma LastCollection(cfg: Config, m: Machine, n: nat, rc: nat, taken: nat, round: nat) returns (s: Step)
    requires Stands(cfg, m, Collect, n, rc, taken, 0, 0, taken) && 1 <= round <= cfg.maxSteps
    requires round == 1 || taken + round <= cfg.maxToolCalls
    ensures Advanced(cfg, m, s).taken == taken + round
  {
    EnteringBusy(cfg, m, n, rc, taken, taken);
    var actions := BadUses(cfg, Entering(m), n, taken, 0, round - 1);
    CollectRuns(cfg, m, actions);
    s := Run(Say(actions, [], BAD));
  }

  lemma FinalRound(cfg: Config, steps: seq<Step>, rc: nat, taken: nat, round: nat) returns (longer: seq<Step>)
    requires Before(cfg, steps, rc, taken) && 1 <= round <= cfg.maxSteps
    requires round == 1 || taken + round <= cfg.maxToolCalls
    ensures History(cfg, Start(), longer).taken == taken + round
  {
    var s := LastCollection(cfg, History(cfg, Start(), steps), if rc == 0 then 0 else rc + 2, rc, taken, round);
    longer := Extend(cfg, steps, s);
  }

  // --------------------------------------------------------------------- theorems

  /** All the rejections that are possible, each followed by a crash. */
  lemma AllRejections(cfg: Config) returns (steps: seq<Step>)
    ensures Before(cfg, steps, MostRejections(cfg), Entry(cfg, MostRejections(cfg)))
  {
    steps := Planned(cfg);
    assert Entry(cfg, 0) == 0;
    if MostRejections(cfg) > 0 {
      assert Entry(cfg, 1) == OneMore(cfg, 0, cfg.maxSteps - 1);
      steps := FirstRound(cfg, steps, Entry(cfg, 1));
    }
    if MostRejections(cfg) > 1 {
      EntryGrows(cfg, 1, 2);
      assert Entry(cfg, 2) == OneMore(cfg, Entry(cfg, 1), cfg.maxSteps - 1);
      steps := SecondRound(cfg, steps, Entry(cfg, 1), Entry(cfg, 2) - Entry(cfg, 1));
    }
  }

  /**
    The bound is exact: under every configuration some history from the start takes `Most`
    steps, crashing after each rejection.
  */
  lemma MostIsReached(cfg: Config) returns (steps: seq<Step>)
    ensures History(cfg, Start(), steps).taken == Most(cfg)
  {
    steps := AllRejections(cfg);
    if cfg.maxSteps > 0 {
      var taken := Entry(cfg, MostRejections(cfg));
      steps := FinalRound(cfg, steps, MostRejections(cfg), taken, Most(cfg) - taken);
    }
  }

  /**
    When recovery can break the step budget: some history takes more steps than
    `max_investigation_steps` if and only if the run is not direct, the step budget is four
    or more, and the tool budget is four or more and at most one less than the step budget.
  */
  lemma OverspendsExactly(cfg: Config)
    ensures (exists steps :: History(cfg, Start(), steps).taken > cfg.maxSteps)
            <==> !cfg.direct && cfg.maxSteps >= 4 && cfg.maxToolCalls >= 4 && cfg.maxToolCalls + 1 >= cfg.maxSteps
  {
    MostInPlainTerms(cfg);
    var reached := MostIsReached(cfg);
    forall steps
      ensures History(cfg, Start(), steps).taken <= Most(cfg)
    {
      StepBudget(cfg, steps);
    }
  }
}
