/** What a run of the agent runtime has been checked for, and how each way of ending shows. */
module AgentOutputs {
  import opened Results
  import opened Texts
  import opened AgentRuns

  /** The smallest number of groups of four characters that cover the text. */
  predicate Covers(n: nat, text: string) {
    |text| <= 4 * n && (n > 0 ==> 4 * (n - 1) < |text|)
  }

  /** What is compared with the limits: the reported figure, an estimate where none was reported, and their total. */
  lemma UsageExactly(q: Request, o: Output)
    ensures var e := EffectiveUsage(q, o);
      && (if o.usage.input > 0 then e.input == o.usage.input else Covers(e.input, q.input))
      && (if o.usage.output > 0 then e.output == o.usage.output else Covers(e.output, o.text))
      && e.cost == o.usage.cost
      && e.total ==
         if o.usage.total > 0 then o.usage.total
         else if o.usage.input + o.usage.output > 0 then o.usage.input + o.usage.output
         else e.input + e.output
  {
  }

  /** An action that only proposes: it has a name, does not execute itself and its arguments are an object. */
  predicate Proposes(a: ProposedAction) {
    a.named && !a.executes && a.argumentsAreObject
  }

  /** The text has a character that is no white space. */
  predicate Named(text: string) {
    exists i :: 0 <= i < |text| && !Space(text[i])
  }

  /** An output passes exactly when it is free of secrets and keeps to tools, limits, proposals and named evidence. */
  lemma ValidExactly(q: Request, o: Output)
    ensures var e := EffectiveUsage(q, o);
      OutputValid(q, o) <==>
        && !o.holdsSecret && |o.tools| <= q.maxToolCalls && (forall t :: t in o.tools ==> t in q.allowedTools)
        && e.input <= q.maxInput && e.output <= q.maxOutput && e.total <= q.maxTotal && e.cost <= q.maxCost
        && (forall i :: 0 <= i < |o.actions| ==> Proposes(o.actions[i]))
        && (forall i :: 0 <= i < |o.evidence| ==> Named(o.evidence[i]))
  {
    assert forall i :: 0 <= i < |o.evidence| ==> (Named(o.evidence[i]) <==> !Blank(o.evidence[i]));
    assert forall i :: 0 <= i < |o.actions| ==>
      (Proposes(o.actions[i]) <==> o.actions[i].named && !o.actions[i].executes && o.actions[i].argumentsAreObject);
  }

  /** The provider came back with something before the control check after it. */
  predicate CameBack(a: Attempt) {
    a.before.Continue? && (a.invocation.Returned? || a.invocation.ReturnedUnreadable?)
  }

  /** The status of a run, from its last attempt: the control checks come before and after the provider's own ending. */
  lemma EndsExactly(q: Request, attempts: nat -> Attempt)
    ensures var r := RunFromAttempt(q, attempts, 1);
      var a := attempts(r.attempts);
      && (r.status.TimedOut? <==> a.before.Continue? && a.invocation.NoAnswer?)
      && (r.status.Cancelled? <==>
            || a.before.CancelRequested? || (a.before.Continue? && a.invocation.CancelledMeanwhile?)
            || (CameBack(a) && a.after.CancelRequested?))
      && (r.status.Stopped? <==>
            || a.before.StopRequested? || (a.before.Continue? && a.invocation.StoppedMeanwhile?)
            || (CameBack(a) && a.after.StopRequested?))
      && (r.status.Failed? <==>
            || (a.before.Continue? && a.invocation in {TransientError, AdapterError, Unavailable, Crashed})
            || (CameBack(a) && a.after.Continue? && a.invocation.ReturnedUnreadable?))
      && (r.output.Some? <==> r.status.Succeeded?)
  {
    RunExactly(q, attempts, 1);
    ResultKeeps(q, attempts, 1);
  }

  /** Only a success has an output. */
  lemma {:induction false} ResultKeeps(q: Request, attempts: nat -> Attempt, n: nat)
    requires 1 <= n <= q.maxRetries + 1
    ensures var r := RunFromAttempt(q, attempts, n);
      r.output.Some? ==> r.status.Succeeded?
    decreases q.maxRetries + 1 - n
  {
    if Judge(q, attempts(n)).Retryable? && n <= q.maxRetries {
      ResultKeeps(q, attempts, n + 1);
    }
  }
}
