/** A run of the Owner-directed store that ends with a ledger entry for a cancelled reward. */
module OwnerRejection {
  import opened Results
  import opened OwnerStore
  import opened OwnerSafety

  function Owner(): Actor {
    Actor("owner", OwnerRole, true,
          {CreateTaskAction, TransitionAction, EvaluateAction, ApproveRewardAction, DecideAction})
  }

  function Executive(): Actor {
    Actor("executive", ExecutiveRole, true, {StartAction})
  }

  function Checker(): Actor {
    Actor("reviewer", ReviewerRole, true, {ReviewAction})
  }

  function Auditor(): Actor {
    Actor("auditor", AuditorRole, true, {AuditAction})
  }

  /** From the draft to the Executive's first step. */
  function Drafting(budget: nat): seq<Call> {
    [CreateCall(Owner(), budget, "executive")] + [TransitionCall(Owner(), 0, ApprovedTask)]
    + [TransitionCall(Executive(), 0, Planning)]
  }

  /** From there to the Task's audit. */
  function Working(): seq<Call> {
    [TransitionCall(Executive(), 0, InProgress)] + [TransitionCall(Executive(), 0, Review)]
      + [ReviewCall(Checker(), 0, false)]
  }

  function Work(budget: nat): seq<Call> {
    Drafting(budget) + Working()
  }

  /** The audit opens the approvals; the Owner evaluates and approves the reward directly. */
  function Reward(amount: nat, quality: nat): seq<Call> {
    [AuditCall(Auditor(), 0, true)] + [EvaluateCall(Owner(), 0, quality)] + [ApproveRewardCall(Owner(), 0, amount, "")]
  }

  function Rejection(comment: string): Call {
    DecideCall(Owner(), OfReward(0), Reject, comment)
  }

  lemma {:induction false} RunAppend(s: Store, a: seq<Call>, b: seq<Call>)
    ensures RunFrom(s, a + b) == RunFrom(RunFrom(s, a), b)
    decreases |b|
  {
    if b == [] {
      assert a + b == a;
    } else {
      assert (a + b)[..|a + b| - 1] == a + b[..|b| - 1];
      RunAppend(s, a, b[..|b| - 1]);
    }
  }

  lemma RunThree(s: Store, a: Call, b: Call, c: Call)
    ensures RunFrom(s, [a] + [b] + [c]) == Step(Step(Step(s, a).0, b).0, c).0
  {
    RunAppend(s, [a] + [b], [c]);
    RunAppend(s, [a], [b]);
    assert [a][..0] == [b][..0] == [c][..0] == [];
  }

  /** What the steps of the sample leave in the one Task and its reward. */
  predicate Stands(s: Store, status: TaskStatus, budget: nat) {
    && s.tasks == map[0 := Task(status, budget, "executive")]
    && s.rewards.Keys == {0} && s.rewards[0].taskId == 0 && s.rewards[0].budget == budget
    && s.rewards[0].status.Pending?
    && s.approvals == map[] && s.evaluations == map[]
  }

  lemma Advances(s: Store, a: Actor, from: TaskStatus, to: TaskStatus, budget: nat)
    requires Stands(s, from, budget) && to in Targets(from) && MayMove(a, s.tasks[0], to) && !to.Completed?
    ensures Stands(Step(s, TransitionCall(a, 0, to)).0, to, budget)
  {
  }

  lemma DraftingDone(budget: nat)
    ensures Stands(RunFrom(EMPTY, Drafting(budget)), Planning, budget)
  {
    var s1 := Step(EMPTY, CreateCall(Owner(), budget, "executive")).0;
    var s2 := Step(s1, TransitionCall(Owner(), 0, ApprovedTask)).0;
    Advances(s1, Owner(), Draft, ApprovedTask, budget);
    Advances(s2, Executive(), ApprovedTask, Planning, budget);
    RunThree(EMPTY, CreateCall(Owner(), budget, "executive"), TransitionCall(Owner(), 0, ApprovedTask),
             TransitionCall(Executive(), 0, Planning));
  }

  lemma WorkingDone(s: Store, budget: nat)
    requires Stands(s, Planning, budget)
    ensures Stands(RunFrom(s, Working()), Audit, budget)
  {
    assert "executive"[0] != "reviewer"[0];
    var s1 := Step(s, TransitionCall(Executive(), 0, InProgress)).0;
    Advances(s, Executive(), Planning, InProgress, budget);
    Advances(s1, Executive(), InProgress, Review, budget);
    RunThree(s, TransitionCall(Executive(), 0, InProgress), TransitionCall(Executive(), 0, Review),
             ReviewCall(Checker(), 0, false));
  }

  lemma WorkDone(budget: nat)
    ensures Stands(RunFrom(EMPTY, Work(budget)), Audit, budget)
  {
    DraftingDone(budget);
    WorkingDone(RunFrom(EMPTY, Drafting(budget)), budget);
    RunAppend(EMPTY, Drafting(budget), Working());
  }

  lemma RewardGranted(s: Store, budget: nat, amount: nat, quality: nat)
    requires Stands(s, Audit, budget) && amount <= budget && quality <= 100
    ensures var t := RunFrom(s, Reward(amount, quality));
      && 0 in t.rewards && t.rewards[0].status.ApprovedReward? && 0 in t.ledgers && t.ledgers[0] == amount
      && OfReward(0) in t.approvals && t.approvals[OfReward(0)].None?
  {
    assert "executive"[0] != "auditor"[0];
    assert OfReward(0) in RewardKeys(s, 0);
    var s1 := Step(s, AuditCall(Auditor(), 0, true)).0;
    assert s1.tasks[0].status.OwnerReview? && s1.rewards == s.rewards;
    assert OfReward(0) in s1.approvals && s1.approvals[OfReward(0)].None?;
    var s2 := Step(s1, EvaluateCall(Owner(), 0, quality)).0;
    assert s2.rewards[0].status.Proposed? && s2.rewards[0].budget == budget && 0 in s2.evaluations;
    RunThree(s, AuditCall(Auditor(), 0, true), EvaluateCall(Owner(), 0, quality),
             ApproveRewardCall(Owner(), 0, amount, ""));
  }

  /**
   * Created, worked on, reviewed, audited, evaluated, approved directly and then rejected in the approval center: the
   * entry stays.
   */
  lemma ApprovedThenRejected(budget: nat, amount: nat, quality: nat, comment: string)
    requires amount <= budget && quality <= 100
    ensures var s := RunFrom(EMPTY, Work(budget) + Reward(amount, quality));
      var t := Step(s, Rejection(comment)).0;
      && RejectsApproved(s, Rejection(comment))
      && 0 in t.rewards && t.rewards[0].status.CancelledReward? && 0 in t.ledgers && t.ledgers[0] == amount
  {
    RunAppend(EMPTY, Work(budget), Reward(amount, quality));
    WorkDone(budget);
    RewardGranted(RunFrom(EMPTY, Work(budget)), budget, amount, quality);
  }
}
