/** The Owner-directed store updated in place, call by call. */
module OwnerDirectedStore {
  import opened Results
  import opened Texts
  import opened OwnerStore
  import Spec = OwnerStore

  /** The approval belongs to a reward of the task that was visited once only those in `left` remain. */
  predicate Opened(rewards: map<nat, Reward>, left: set<nat>, id: nat, key: ApprovalKey) {
    key.OfReward? && key.rewardId in rewards && key.rewardId !in left && rewards[key.rewardId].taskId == id
  }

  lemma AllOpened(s: Store, id: nat, approvals: map<ApprovalKey, Option<Decision>>)
    requires forall k :: k in approvals <==> k in s.approvals || k == OfTask(id) || Opened(s.rewards, {}, id, k)
    requires forall k :: k in approvals ==> approvals[k] == if k in s.approvals then s.approvals[k] else None
    ensures approvals == OpenApprovals(s, id)
  {
    assert forall k :: Opened(s.rewards, {}, id, k) <==> k in RewardKeys(s, id);
  }

  lemma Grows(history: seq<Call>, c: Call)
    ensures RunFrom(EMPTY, history + [c]) == Step(RunFrom(EMPTY, history), c).0
  {
    assert (history + [c])[..|history + [c]| - 1] == history;
  }

  class OwnerDirectedStore {
    var tasks: map<nat, Task>
    var evaluations: map<nat, int>
    var rewards: map<nat, Reward>
    var rewardLedgers: map<nat, int>
    var approvals: map<ApprovalKey, Option<Decision>>
    var moves: seq<Move>
    var nextId: nat
    ghost var history: seq<Call>

    function Contents(): Store
      reads this
    {
      Store(tasks, evaluations, rewards, rewardLedgers, approvals, moves, nextId)
    }

    /** The store is in the state its calls so far lead to, none of which carried a quality above 100. */
    ghost predicate Reached()
      reads this
    {
      (forall n :: 0 <= n < |history| ==> Valid(history[n])) && Contents() == RunFrom(EMPTY, history)
    }

    constructor ()
      ensures Reached() && history == []
    {
      history := [];
      tasks, evaluations, rewards, rewardLedgers, approvals, moves, nextId := map[], map[], map[], map[], map[], [], 0;
    }

    /** task.status = to, noting entries to AUDIT and OWNER_REVIEW. */
    method SetStatus(a: Actor, id: nat, to: TaskStatus)
      requires id in tasks
      modifies this`tasks, this`moves
      ensures Contents() == Spec.SetStatus(old(Contents()), a, id, to)
    {
      if to.Audit? || to.OwnerReview? {
        moves := moves + [Move(id, to, a, tasks[id].executive)];
      }
      tasks := tasks[id := tasks[id].(status := to)];
    }

    /** The guarded move, on its own and as part of a decision. */
    method MoveTask(a: Actor, id: nat, to: TaskStatus) returns (reply: Outcome)
      modifies this`tasks, this`moves
      ensures (Contents(), reply) == Spec.TransitionTask(old(Contents()), a, id, to)
    {
      if id !in tasks {
        return Failure(NotRegistered);
      }
      if to !in Targets(tasks[id].status) {
        return Failure(InvalidTransition);
      }
      if !MayMove(a, tasks[id], to) {
        return Failure(Denied);
      }
      if to.Completed? && id !in evaluations {
        return Failure(EvaluationRequired);
      }
      SetStatus(a, id, to);
      return Success(());
    }

    method TransitionTask(a: Actor, id: nat, to: TaskStatus) returns (reply: Outcome)
      requires Reached()
      modifies this`tasks, this`moves, this`history
      ensures Reached() && history == old(history) + [TransitionCall(a, id, to)]
      ensures (Contents(), reply) == Spec.TransitionTask(old(Contents()), a, id, to)
    {
      Grows(history, TransitionCall(a, id, to));
      history := history + [TransitionCall(a, id, to)];
      reply := MoveTask(a, id, to);
    }

    method SubmitReview(a: Actor, id: nat, changes: bool) returns (reply: Outcome)
      requires Reached()
      modifies this`tasks, this`moves, this`history
      ensures Reached() && history == old(history) + [ReviewCall(a, id, changes)]
      ensures (Contents(), reply) == Spec.SubmitReview(old(Contents()), a, id, changes)
    {
      Grows(history, ReviewCall(a, id, changes));
      history := history + [ReviewCall(a, id, changes)];
      if id !in tasks {
        return Failure(NotRegistered);
      }
      if !ReviewerMay(a, tasks[id]) {
        return Failure(Denied);
      }
      if !tasks[id].status.Review? {
        return Failure(WrongStatus);
      }
      SetStatus(a, id, if changes then Rework else Audit);
      return Success(());
    }

    /** approvals.setdefault */
    method OpenApproval(key: ApprovalKey)
      modifies this`approvals
      ensures approvals == map[key := None] + old(approvals)
    {
      if key !in approvals {
        approvals := approvals[key := None];
      }
    }

    /** Opens the approval of the task and of each of its rewards. */
    method OpenTaskApprovals(id: nat)
      modifies this`approvals
      ensures approvals == OpenApprovals(old(Contents()), id)
    {
      OpenApproval(OfTask(id));
      var left := rewards.Keys;
      while left != {}
        invariant left <= rewards.Keys
        invariant forall k :: k in approvals <==> k in old(approvals) || k == OfTask(id) || Opened(rewards, left, id, k)
        invariant forall k :: k in approvals ==> approvals[k] == if k in old(approvals) then old(approvals)[k] else None
        decreases left
      {
        var r :| r in left;
        left := left - {r};
        if rewards[r].taskId == id {
          OpenApproval(OfReward(r));
        }
      }
      AllOpened(old(Contents()), id, approvals);
    }

    method RecordAudit(a: Actor, id: nat, passed: bool) returns (reply: Outcome)
      requires Reached()
      modifies this`tasks, this`moves, this`approvals, this`history
      ensures Reached() && history == old(history) + [AuditCall(a, id, passed)]
      ensures (Contents(), reply) == Spec.RecordAudit(old(Contents()), a, id, passed)
    {
      Grows(history, AuditCall(a, id, passed));
      history := history + [AuditCall(a, id, passed)];
      if id !in tasks {
        return Failure(NotRegistered);
      }
      if !AuditorMay(a, tasks[id]) {
        return Failure(Denied);
      }
      if !tasks[id].status.Audit? {
        return Failure(WrongStatus);
      }
      if passed {
        SetStatus(a, id, OwnerReview);
        OpenTaskApprovals(id);
      }
      return Success(());
    }

    /** Every pending reward of the task gets the floor of budget times quality. */
    method ProposeRewards(id: nat, quality: nat)
      requires id in tasks
      modifies this`rewards
      ensures rewards == Evaluated(old(Contents()), id, quality).rewards
    {
      var left := rewards.Keys;
      while left != {}
        invariant left <= rewards.Keys == old(rewards).Keys
        invariant forall r :: r in rewards && r in left ==> rewards[r] == old(rewards)[r]
        invariant forall r :: r in rewards && r !in left ==>
          rewards[r] == Reproposed(tasks[id], id, old(rewards)[r], quality)
        decreases left
      {
        var r :| r in left;
        left := left - {r};
        if rewards[r].taskId == id && rewards[r].status.Pending? {
          var proposed := tasks[id].budget * quality / 100;
          rewards := rewards[r := rewards[r].(proposed := proposed, status := Proposed)];
        }
      }
      assert rewards == Evaluated(old(Contents()), id, quality).rewards;
    }

    method EvaluateTask(a: Actor, id: nat, quality: nat) returns (reply: Outcome)
      requires Reached() && quality <= 100
      modifies this`evaluations, this`rewards, this`history
      ensures Reached() && history == old(history) + [EvaluateCall(a, id, quality)]
      ensures (Contents(), reply) == Spec.Evaluate(old(Contents()), a, id, quality)
    {
      Grows(history, EvaluateCall(a, id, quality));
      history := history + [EvaluateCall(a, id, quality)];
      if id !in tasks {
        return Failure(NotRegistered);
      }
      if !OwnerMay(a, EvaluateAction) {
        return Failure(Denied);
      }
      if !tasks[id].status.OwnerReview? {
        return Failure(WrongStatus);
      }
      evaluations := evaluations[id := quality];
      ProposeRewards(id, quality);
      return Success(());
    }

    /** The guarded approval, on its own and as part of a decision. */
    method GrantReward(a: Actor, rid: nat, amount: int, reason: string) returns (reply: Outcome)
      modifies this`rewards, this`rewardLedgers
      ensures (Contents(), reply) == ApproveRewardOf(old(Contents()), a, rid, amount, reason)
    {
      if rid !in rewards {
        return Failure(NotRegistered);
      }
      if !OwnerMay(a, ApproveRewardAction) {
        return Failure(Denied);
      }
      var reward := rewards[rid];
      if reward.taskId !in tasks {
        return Failure(NotRegistered);
      }
      if reward.taskId !in evaluations {
        return Failure(EvaluationRequired);
      }
      if !tasks[reward.taskId].status.OwnerReview? && !tasks[reward.taskId].status.Completed? {
        return Failure(WrongStatus);
      }
      if !reward.status.Pending? && !reward.status.Proposed? {
        return Failure(RewardNotPending);
      }
      if amount > reward.budget && Blank(reason) {
        return Failure(ReasonRequired);
      }
      rewards := rewards[rid := reward.(approved := Some(amount), comment := reason, status := ApprovedReward)];
      rewardLedgers := rewardLedgers[rid := amount];
      return Success(());
    }

    method ApproveReward(a: Actor, rid: nat, amount: int, reason: string) returns (reply: Outcome)
      requires Reached()
      modifies this`rewards, this`rewardLedgers, this`history
      ensures Reached() && history == old(history) + [ApproveRewardCall(a, rid, amount, reason)]
      ensures (Contents(), reply) == ApproveRewardOf(old(Contents()), a, rid, amount, reason)
    {
      Grows(history, ApproveRewardCall(a, rid, amount, reason));
      history := history + [ApproveRewardCall(a, rid, amount, reason)];
      reply := GrantReward(a, rid, amount, reason);
    }

    method EnactDecision(a: Actor, key: ApprovalKey, d: Decision, comment: string) returns (reply: Outcome)
      modifies this`tasks, this`moves, this`rewards, this`rewardLedgers
      ensures (Contents(), reply) == Enact(old(Contents()), a, key, d, comment)
    {
      reply := Success(());
      match key {
        case OfTask(id) =>
          match d {
            case Approve =>
              if id !in evaluations {
                return Failure(EvaluationRequired);
              }
              reply := MoveTask(a, id, Completed);
            case RequestChanges => reply := MoveTask(a, id, Rework);
            case Reject => reply := MoveTask(a, id, RejectedTask);
            case Hold =>
          }
        case OfReward(rid) =>
          if rid !in rewards {
            return Failure(NotRegistered);
          }
          var reward := rewards[rid];
          match d {
            case Approve => reply := GrantReward(a, rid, reward.proposed, comment);
            case Reject => rewards := rewards[rid := reward.(status := CancelledReward, cancelled := reward.proposed)];
            case _ =>
          }
      }
    }

    method DecideApproval(a: Actor, key: ApprovalKey, d: Decision, comment: string) returns (reply: Outcome)
      requires Reached()
      modifies this
      ensures Reached() && history == old(history) + [DecideCall(a, key, d, comment)]
      ensures (Contents(), reply) == Decide(old(Contents()), a, key, d, comment)
    {
      Grows(history, DecideCall(a, key, d, comment));
      history := history + [DecideCall(a, key, d, comment)];
      if key !in approvals {
        return Failure(NotRegistered);
      }
      if !OwnerMay(a, DecideAction) {
        return Failure(Denied);
      }
      if approvals[key].Some? {
        return Failure(AlreadyDecided);
      }
      reply := EnactDecision(a, key, d, comment);
      if reply.Success? {
        approvals := approvals[key := Some(d)];
      }
    }

    method CreateTask(a: Actor, budget: nat, executive: string) returns (reply: Outcome)
      requires Reached()
      modifies this
      ensures Reached() && history == old(history) + [CreateCall(a, budget, executive)]
      ensures (Contents(), reply) == Spec.CreateTask(old(Contents()), a, budget, executive)
    {
      Grows(history, CreateCall(a, budget, executive));
      history := history + [CreateCall(a, budget, executive)];
      if !OwnerMay(a, CreateTaskAction) {
        return Failure(Denied);
      }
      var id := nextId;
      nextId := nextId + 1;
      tasks := tasks[id := Task(Draft, budget, executive)];
      rewards := rewards[id := Reward(id, budget, 0, None, 0, Pending, "")];
      return Success(());
    }

    method AssignExecutive(a: Actor, id: nat, executive: string) returns (reply: Outcome)
      requires Reached()
      modifies this`tasks, this`history
      ensures Reached() && history == old(history) + [AssignCall(a, id, executive)]
      ensures (Contents(), reply) == Spec.AssignExecutive(old(Contents()), a, id, executive)
    {
      Grows(history, AssignCall(a, id, executive));
      history := history + [AssignCall(a, id, executive)];
      if id !in tasks {
        return Failure(NotRegistered);
      }
      if !OwnerMay(a, AssignExecutiveAction) {
        return Failure(Denied);
      }
      tasks := tasks[id := tasks[id].(executive := executive)];
      return Success(());
    }
  }
}
