/** The tool gateway: one shared call budget, and retries of transient failures only. */
module Gateway {
  import opened Options
  import opened Evidence

  // ------------------------------------------------------------ classification

  datatype ToolError =
    | TimeoutError
    | HttpTimeout
    | ConnectionError
    | NetworkError
    | HttpStatus(code: int)
    | PermissionError
    | TypeOrValueError
    | OtherError

  datatype Category =
    | TimeoutCategory | Connection | RateLimit | Server
    | HttpPermanent | Permission | Validation | Permanent | Budget

  function Classify(e: ToolError): (Category, bool) {
    match e
    case TimeoutError => (TimeoutCategory, true)
    case HttpTimeout => (TimeoutCategory, true)
    case ConnectionError => (Connection, true)
    case NetworkError => (Connection, true)
    case HttpStatus(code) =>
      if code == 429 then (RateLimit, true)
      else if code in {500, 502, 503, 504} then (Server, true)
      else (HttpPermanent, false)
    case PermissionError => (Permission, false)
    case TypeOrValueError => (Validation, false)
    case OtherError => (Permanent, false)
  }

  predicate Transient(c: Category) {
    c in {TimeoutCategory, Connection, RateLimit, Server}
  }

  /** The loop's own category test agrees with the classification's retry flag. */
  lemma TransientIsRetryable(e: ToolError)
    ensures Transient(Classify(e).0) <==> Classify(e).1
  {
  }

  // ---------------------------------------------------------------- one attempt

  /** What a handler invocation does: returns a JSON value, within the size limit or not, or raises. */
  datatype Outcome = Returned(output: Output, fits: bool) | Raised(error: ToolError)

  /** The outcomes of successive invocations; a script that runs dry raises. */
  function At(script: seq<Outcome>, attempt: nat): Outcome {
    if attempt < |script| then script[attempt] else Raised(OtherError)
  }

  predicate Accepted(o: Outcome) {
    o.Returned? && o.output.Complete() && o.fits
  }

  /** An incomplete or oversized result is a ValueError, hence never retried. */
  function CategoryOf(o: Outcome): Category {
    match o
    case Returned(_, _) => Validation
    case Raised(e) => Classify(e).0
  }

  function StatusOf(o: Outcome): ToolStatus {
    if Accepted(o) then Succeeded else if o == Raised(TimeoutError) then TimedOut else Failed
  }

  const NO_OUTPUT: Output := Output("", false, false, false, false)

  datatype Result = Result(status: ToolStatus, output: Output, attempts: nat, category: Option<Category>)

  function Rejected(status: ToolStatus, category: Category): Result {
    Result(status, NO_OUTPUT, 0, Some(category))
  }

  /** The attempts from number `attempt` on, that one being paid for, with `left` calls in the budget. */
  function Try(retries: nat, left: nat, script: seq<Outcome>, attempt: nat): (r: Result)
    requires attempt <= retries
    ensures attempt + 1 <= r.attempts <= retries + 1
    ensures r.attempts - attempt - 1 <= left
    ensures r.status == Succeeded <==> Accepted(At(script, r.attempts - 1))
    ensures r.status == Succeeded ==> r.output.Complete()
    decreases retries - attempt
  {
    var o := At(script, attempt);
    if Accepted(o) then Result(Succeeded, o.output, attempt + 1, None)
    else if !Transient(CategoryOf(o)) || attempt == retries
    then Result(StatusOf(o), NO_OUTPUT, attempt + 1, Some(CategoryOf(o)))
    else if left == 0 then Result(Denied, NO_OUTPUT, attempt + 1, Some(Budget))
    else Try(retries, left - 1, script, attempt + 1)
  }

  /** A tool as the registry and the payload check see it. */
  datatype Tool = Tool(name: string, registered: bool, accepted: bool, retries: nat, script: seq<Outcome>)

  /** One gateway call, with `used` of `max` tool calls already spent. */
  function CallResult(max: nat, used: nat, t: Tool): (r: Result)
    ensures used <= max ==> used + r.attempts <= max
    ensures r.status == Succeeded ==> r.output.Complete() && r.attempts >= 1
  {
    if !t.registered then Rejected(Denied, Permission)
    else if used >= max then Rejected(Denied, Budget)
    else if !t.accepted then Rejected(Failed, Validation)
    else Try(t.retries, max - used - 1, t.script, 0)
  }

  // ------------------------------------------------------------------ properties

  /**
    Why a call made as many attempts as it did: every attempt but the last failed
    transiently, and the last one succeeded, failed for good, was the last one allowed,
    or left no budget for another.
  */
  lemma {:induction false} AttemptsExplained(retries: nat, left: nat, script: seq<Outcome>, attempt: nat)
    requires attempt <= retries
    ensures var r := Try(retries, left, script, attempt);
            var last := At(script, r.attempts - 1);
            && (forall k :: attempt <= k < r.attempts - 1 ==>
                  !Accepted(At(script, k)) && Transient(CategoryOf(At(script, k))))
            && (r.status == Succeeded <==> Accepted(last))
            && (Accepted(last) || !Transient(CategoryOf(last)) || r.attempts == retries + 1
                || r.attempts - attempt - 1 == left)
            && (r.status == Denied <==>
                  !Accepted(last) && Transient(CategoryOf(last)) && r.attempts < retries + 1
                    && r.attempts - attempt - 1 == left)
    decreases retries - attempt
  {
    var o := At(script, attempt);
    if !Accepted(o) && Transient(CategoryOf(o)) && attempt < retries && left > 0 {
      AttemptsExplained(retries, left - 1, script, attempt + 1);
    }
  }

  // ------------------------------------------------------------------- the object

  class BudgetTracker {
    const maxToolCalls: nat
    var toolCallCount: nat

    constructor (maxToolCalls: nat)
      ensures this.maxToolCalls == maxToolCalls && toolCallCount == 0
    {
      this.maxToolCalls, toolCallCount := maxToolCalls, 0;
    }

    predicate CanCallTool()
      reads this
    {
      toolCallCount < maxToolCalls
    }

    method RecordToolCall()
      modifies this`toolCallCount
      ensures toolCallCount == old(toolCallCount) + 1
    {
      toolCallCount := toolCallCount + 1;
    }
  }

  datatype AuditEvent =
    | ToolDenied
    | BudgetExhausted
    | ToolSucceeded(attempt: nat)
    | AttemptFailed(attempt: nat, category: Category)
    | ToolFailed(category: Category)

  const AUDIT_LIMIT := 1000

  class ToolGateway {
    const budget: BudgetTracker
    var auditLog: seq<AuditEvent>
    ghost var invocations: nat

    constructor (budget: BudgetTracker)
      ensures this.budget == budget && auditLog == [] && invocations == 0
    {
      this.budget, auditLog, invocations := budget, [], 0;
    }

    method Audit(e: AuditEvent)
      requires |auditLog| <= AUDIT_LIMIT
      modifies this`auditLog
      ensures |auditLog| <= AUDIT_LIMIT
      ensures auditLog == if |old(auditLog)| == AUDIT_LIMIT then old(auditLog)[1..] + [e] else old(auditLog) + [e]
    {
      auditLog := auditLog + [e];
      if |auditLog| > AUDIT_LIMIT {
        auditLog := auditLog[|auditLog| - AUDIT_LIMIT..];
      }
    }

    /** `invocations` counts the handler invocations the call really makes. */
    method CallTool(t: Tool) returns (r: Result)
      requires |auditLog| <= AUDIT_LIMIT
      modifies this`auditLog, this`invocations, budget`toolCallCount
      ensures r == CallResult(budget.maxToolCalls, old(budget.toolCallCount), t)
      ensures budget.toolCallCount == old(budget.toolCallCount) + r.attempts
      ensures invocations == old(invocations) + r.attempts
      ensures |auditLog| <= AUDIT_LIMIT
    {
      if !t.registered {
        Audit(ToolDenied);
        return Rejected(Denied, Permission);
      }
      if !budget.CanCallTool() {
        Audit(BudgetExhausted);
        return Rejected(Denied, Budget);
      }
      if !t.accepted {
        return Rejected(Failed, Validation);
      }
      r := RunAttempts(t);
    }

    /** The retry loop: every attempt, the first included, is paid for before the handler runs. */
    method RunAttempts(t: Tool) returns (r: Result)
      requires |auditLog| <= AUDIT_LIMIT && budget.toolCallCount < budget.maxToolCalls
      modifies this`auditLog, this`invocations, budget`toolCallCount
      ensures r == Try(t.retries, budget.maxToolCalls - old(budget.toolCallCount) - 1, t.script, 0)
      ensures budget.toolCallCount == old(budget.toolCallCount) + r.attempts
      ensures invocations == old(invocations) + r.attempts
      ensures |auditLog| <= AUDIT_LIMIT
    {
      budget.RecordToolCall();
      var status, category := Failed, Permanent;
      var executed := 0;
      var attempt := 0;
      ghost var start := budget.toolCallCount;
      ghost var whole := Try(t.retries, budget.maxToolCalls - start, t.script, 0);
      while true
        invariant 0 <= attempt <= t.retries && executed == attempt
        invariant start + attempt <= budget.maxToolCalls && budget.toolCallCount == start + attempt
        invariant invocations == old(invocations) + attempt
        invariant |auditLog| <= AUDIT_LIMIT
        invariant Try(t.retries, budget.maxToolCalls - start - attempt, t.script, attempt) == whole
        decreases t.retries - attempt
      {
        executed := executed + 1;
        var outcome := At(t.script, attempt);
        invocations := invocations + 1;
        if Accepted(outcome) {
          Audit(ToolSucceeded(attempt));
          return Result(Succeeded, outcome.output, executed, None);
        }
        status, category := StatusOf(outcome), CategoryOf(outcome);
        Audit(AttemptFailed(attempt + 1, category));
        if !Transient(category) || attempt + 1 >= t.retries + 1 {
          break;
        }
        if !budget.CanCallTool() {
          status, category := Denied, Budget;
          break;
        }
        budget.RecordToolCall();
        attempt := attempt + 1;
      }
      Audit(ToolFailed(category));
      r := Result(status, NO_OUTPUT, executed, Some(category));
    }
  }
}
