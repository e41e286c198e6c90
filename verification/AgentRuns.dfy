/** The bounded retry loop around one provider turn, and what a successful run has been checked for. */
module AgentRuns {
  import opened Results
  import opened Texts

  datatype Usage = Usage(input: nat, output: nat, total: nat, cost: nat)
  datatype ProposedAction = ProposedAction(named: bool, executes: bool, argumentsAreObject: bool)
  datatype Output = Output(
    text: string, tools: seq<string>, usage: Usage, actions: seq<ProposedAction>, evidence: seq<string>,
    holdsSecret: bool)

  datatype Request = Request(
    input: string, allowedTools: seq<string>, maxRetries: nat, maxInput: nat, maxOutput: nat, maxTotal: nat,
    maxCost: nat, maxToolCalls: nat)

  datatype Status = Succeeded | Failed | TimedOut | Cancelled | Stopped | Rejected

  /** What a control check finds, and how one call of the provider ends. */
  datatype Control = Continue | CancelRequested | StopRequested
  datatype Invocation =
    | NoAnswer | TransientError | CancelledMeanwhile | StoppedMeanwhile | PolicyError | AdapterError | Unavailable
    | Crashed | ReturnedUnreadable | Returned(output: Output)
  datatype Attempt = Attempt(before: Control, invocation: Invocation, after: Control)

  datatype Run = Run(status: Status, attempts: nat, output: Option<Output>)

  /** The checks before the first attempt: sandbox, scope, secrets in the input, controls, provider. */
  datatype Preflight = Ready | Refused(status: Status)

  // ----- Usage

  /** A usage without a total gets one when it is built. */
  function Normalized(u: Usage): Usage {
    if u.total == 0 then u.(total := u.input + u.output) else u
  }

  function EstimatedTokens(text: string): nat {
    if text == "" then 0 else if (|text| + 3) / 4 < 1 then 1 else (|text| + 3) / 4
  }

  /** What the limits are compared with: reported figures, or estimates where none was reported. */
  function EffectiveUsage(q: Request, o: Output): Usage {
    var u := Normalized(o.usage);
    var input := if u.input != 0 then u.input else EstimatedTokens(q.input);
    var output := if u.output != 0 then u.output else EstimatedTokens(o.text);
    Normalized(Usage(input, output, if u.total != 0 then u.total else input + output, u.cost))
  }

  /**
   * For a provider that reports no total, the total compared with the limit covers input and output exactly when both
   * were reported, neither was, or the missing one is estimated at nothing: a partial report hides the estimate.
   */
  lemma TotalCoversExactly(q: Request, o: Output)
    requires o.usage.total == 0
    ensures var e := EffectiveUsage(q, o);
      e.total == e.input + e.output <==>
        || (o.usage.input == 0 <==> o.usage.output == 0)
        || (o.usage.input == 0 && q.input == "")
        || (o.usage.output == 0 && o.text == "")
  {
  }

  // ----- Validation

  predicate WithinLimits(q: Request, e: Usage) {
    e.input <= q.maxInput && e.output <= q.maxOutput && e.total <= q.maxTotal && e.cost <= q.maxCost
  }

  predicate OutputValid(q: Request, o: Output) {
    && !o.holdsSecret
    && |o.tools| <= q.maxToolCalls
    && (forall t :: t in o.tools ==> t in q.allowedTools)
    && WithinLimits(q, EffectiveUsage(q, o))
    && (forall i :: 0 <= i < |o.actions| ==>
        o.actions[i].named && !o.actions[i].executes && o.actions[i].argumentsAreObject)
    && (forall i :: 0 <= i < |o.evidence| ==> !Blank(o.evidence[i]))
  }

  // ----- The loop

  datatype Verdict = Retryable(status: Status) | Final(status: Status)

  function ControlStatus(c: Control): Status
    requires !c.Continue?
  {
    if c.CancelRequested? then Cancelled else Stopped
  }

  function Judge(q: Request, a: Attempt): Verdict {
    if !a.before.Continue? then Final(ControlStatus(a.before))
    else
      match a.invocation
      case NoAnswer => Retryable(TimedOut)
      case TransientError => Retryable(Failed)
      case CancelledMeanwhile => Final(Cancelled)
      case StoppedMeanwhile => Final(Stopped)
      case PolicyError => Final(Rejected)
      case AdapterError => Final(Failed)
      case Unavailable => Final(Failed)
      case Crashed => Final(Failed)
      case ReturnedUnreadable => Final(if a.after.Continue? then Failed else ControlStatus(a.after))
      case Returned(o) =>
        if !a.after.Continue? then Final(ControlStatus(a.after))
        else Final(if OutputValid(q, o) then Succeeded else Rejected)
  }

  function ResultOf(status: Status, n: nat, a: Attempt): Run {
    Run(status, n, if status.Succeeded? && a.invocation.Returned? then Some(a.invocation.output) else None)
  }

  /** The run from its `n`-th attempt on; attempt `n` meets the world `attempts(n)`. */
  function RunFromAttempt(q: Request, attempts: nat -> Attempt, n: nat): Run
    decreases q.maxRetries + 1 - n
  {
    match Judge(q, attempts(n))
    case Final(status) => ResultOf(status, n, attempts(n))
    case Retryable(status) =>
      if n <= q.maxRetries then RunFromAttempt(q, attempts, n + 1) else ResultOf(status, n, attempts(n))
  }

  method RunProvider(q: Request, preflight: Preflight, attempts: nat -> Attempt) returns (r: Run)
    ensures preflight.Refused? ==> r == Run(preflight.status, 0, None)
    ensures preflight.Ready? ==> r == RunFromAttempt(q, attempts, 1)
  {
    if preflight.Refused? {
      return Run(preflight.status, 0, None);
    }
    var n := 0;
    while true
      invariant 0 <= n <= q.maxRetries && RunFromAttempt(q, attempts, n + 1) == RunFromAttempt(q, attempts, 1)
      decreases q.maxRetries + 1 - n
    {
      n := n + 1;
      var verdict := Judge(q, attempts(n));
      if verdict.Final? || n > q.maxRetries {
        return ResultOf(verdict.status, n, attempts(n));
      }
    }
  }

  /** The attempt got past the control checks with an output to validate. */
  predicate Delivers(a: Attempt) {
    a.before.Continue? && a.after.Continue? && a.invocation.Returned?
  }

  /**
   * The provider is called again only after a timeout or a transient error, at most `maxRetries` times; the result is
   * that of the last attempt. It is SUCCEEDED exactly when that attempt returned an output that passed every check, and
   * REJECTED exactly when it returned one that did not or the provider turn itself raised a policy error.
   */
  lemma {:induction false} RunExactly(q: Request, attempts: nat -> Attempt, n: nat)
    requires 1 <= n <= q.maxRetries + 1
    ensures var r := RunFromAttempt(q, attempts, n);
      var last := attempts(r.attempts);
      && n <= r.attempts <= q.maxRetries + 1
      && (forall k: nat :: n <= k < r.attempts ==> Judge(q, attempts(k)).Retryable?)
      && r.status == Judge(q, last).status
      && (Judge(q, last).Retryable? ==> r.attempts == q.maxRetries + 1)
      && (r.status.Succeeded? <==> Delivers(last) && OutputValid(q, last.invocation.output))
      && (r.status.Succeeded? ==> r.output == Some(last.invocation.output))
      && (r.status.Rejected? <==>
            || (last.before.Continue? && last.invocation.PolicyError?)
            || (Delivers(last) && !OutputValid(q, last.invocation.output)))
    decreases q.maxRetries + 1 - n
  {
    if Judge(q, attempts(n)).Retryable? && n <= q.maxRetries {
      RunExactly(q, attempts, n + 1);
    }
  }
}
