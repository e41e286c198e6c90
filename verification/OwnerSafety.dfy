/** What every run of the Owner-directed store keeps. */
module OwnerSafety {
  import opened Results
  import opened Texts
  import opened OwnerStore

  // ----- Rewards and evaluations

  /** A completed Task was evaluated by the Owner. */
  ghost predicate CompletedEvaluated(s: Store) {
    forall id :: id in s.tasks && s.tasks[id].status.Completed? ==> id in s.evaluations
  }

  /** A reward's amounts, its approval and its ledger entry agree. */
  predicate RewardOk(s: Store, rid: nat)
    requires rid in s.rewards
  {
    var r := s.rewards[rid];
    && r.taskId in s.tasks && r.budget == s.tasks[r.taskId].budget
    && 0 <= r.proposed <= r.budget
    && (r.status.Proposed? || r.approved.Some? ==> r.taskId in s.evaluations)
    && (r.status.Pending? || r.status.Proposed? ==> r.approved.None?)
    && (r.status.ApprovedReward? ==> r.approved.Some?)
    && (r.approved.Some? ==>
          rid in s.ledgers && s.ledgers[rid] == r.approved.value && (r.approved.value > r.budget ==> !Blank(r.comment)))
    && (rid in s.ledgers ==> r.approved.Some?)
  }

  ghost predicate RewardsOk(s: Store) {
    && (forall rid :: rid in s.rewards ==> RewardOk(s, rid))
    && s.ledgers.Keys <= s.rewards.Keys
    && (forall id :: id in s.tasks ==> id < s.nextId && s.tasks[id].budget >= 0)
    && (forall rid :: rid in s.rewards ==> rid < s.nextId)
  }

  /** Nothing but the named reward looks different to a reward. */
  ghost predicate SameFor(s: Store, t: Store, rid: nat) {
    && rid in s.rewards && rid in t.rewards && t.rewards[rid] == s.rewards[rid]
    && (rid in t.ledgers <==> rid in s.ledgers) && (rid in s.ledgers ==> t.ledgers[rid] == s.ledgers[rid])
  }

  ghost predicate Later(s: Store, t: Store) {
    && (forall id :: id in s.tasks ==> id in t.tasks && t.tasks[id].budget == s.tasks[id].budget)
    && s.evaluations.Keys <= t.evaluations.Keys
  }

  lemma RewardFrame(s: Store, t: Store, rid: nat)
    requires SameFor(s, t, rid) && Later(s, t) && RewardOk(s, rid)
    ensures RewardOk(t, rid)
  {
  }

  lemma ProposedWithin(budget: int, quality: int)
    requires budget >= 0 && 0 <= quality <= 100
    ensures 0 <= budget * quality / 100 <= budget
  {
    assert 0 <= budget * quality <= budget * 100;
  }

  lemma SetStatusRewards(s: Store, a: Actor, id: nat, to: TaskStatus, approvals: map<ApprovalKey, Option<Decision>>)
    requires RewardsOk(s) && id in s.tasks
    ensures RewardsOk(SetStatus(s, a, id, to).(approvals := approvals))
  {
    var t := SetStatus(s, a, id, to).(approvals := approvals);
    forall rid | rid in t.rewards
      ensures RewardOk(t, rid)
    {
      RewardFrame(s, t, rid);
    }
  }

  lemma EvaluateRewards(s: Store, a: Actor, id: nat, quality: int)
    requires RewardsOk(s) && 0 <= quality <= 100
    ensures RewardsOk(Evaluate(s, a, id, quality).0)
  {
    var (t, o) := Evaluate(s, a, id, quality);
    if o.Success? {
      ProposedWithin(s.tasks[id].budget, quality);
      forall rid | rid in t.rewards
        ensures RewardOk(t, rid)
      {
        assert RewardOk(s, rid);
        if !(s.rewards[rid].taskId == id && s.rewards[rid].status.Pending?) {
          RewardFrame(s, t, rid);
        }
      }
    }
  }

  lemma ApproveRewards(s: Store, a: Actor, rid: nat, amount: int, reason: string)
    requires RewardsOk(s)
    ensures RewardsOk(ApproveRewardOf(s, a, rid, amount, reason).0)
  {
    var (t, o) := ApproveRewardOf(s, a, rid, amount, reason);
    if o.Success? {
      forall other | other in t.rewards
        ensures RewardOk(t, other)
      {
        assert RewardOk(s, other);
        if other != rid {
          RewardFrame(s, t, other);
        }
      }
    }
  }

  lemma CancelRewards(s: Store, rid: nat, approvals: map<ApprovalKey, Option<Decision>>)
    requires RewardsOk(s) && rid in s.rewards
    ensures var r := s.rewards[rid];
      RewardsOk(s.(rewards := s.rewards[rid := r.(status := CancelledReward, cancelled := r.proposed)],
                   approvals := approvals))
  {
    var r := s.rewards[rid];
    var t := s.(rewards := s.rewards[rid := r.(status := CancelledReward, cancelled := r.proposed)],
                approvals := approvals);
    forall other | other in t.rewards
      ensures RewardOk(t, other)
    {
      assert RewardOk(s, other);
      if other != rid {
        RewardFrame(s, t, other);
      }
    }
  }

  lemma TransitionRewards(s: Store, a: Actor, id: nat, to: TaskStatus)
    requires RewardsOk(s)
    ensures RewardsOk(TransitionTask(s, a, id, to).0)
  {
    if TransitionTask(s, a, id, to).1.Success? {
      SetStatusRewards(s, a, id, to, s.approvals);
      assert SetStatus(s, a, id, to).(approvals := s.approvals) == SetStatus(s, a, id, to);
    }
  }

  lemma EnactRewards(s: Store, a: Actor, key: ApprovalKey, d: Decision, comment: string)
    requires RewardsOk(s)
    ensures RewardsOk(Enact(s, a, key, d, comment).0)
  {
    match key
    case OfTask(id) =>
      TransitionRewards(s, a, id, Completed);
      TransitionRewards(s, a, id, Rework);
      TransitionRewards(s, a, id, RejectedTask);
    case OfReward(rid) =>
      if rid in s.rewards {
        ApproveRewards(s, a, rid, s.rewards[rid].proposed, comment);
        CancelRewards(s, rid, s.approvals);
      }
  }

  lemma ApprovalsAside(s: Store, approvals: map<ApprovalKey, Option<Decision>>)
    requires RewardsOk(s)
    ensures RewardsOk(s.(approvals := approvals))
  {
    var t := s.(approvals := approvals);
    forall rid | rid in t.rewards
      ensures RewardOk(t, rid)
    {
      RewardFrame(s, t, rid);
    }
  }

  lemma CreateRewards(s: Store, a: Actor, budget: nat, executive: string)
    requires RewardsOk(s)
    ensures RewardsOk(CreateTask(s, a, budget, executive).0)
  {
    var (t, o) := CreateTask(s, a, budget, executive);
    if o.Success? {
      forall rid | rid in t.rewards
        ensures RewardOk(t, rid)
      {
        if rid != s.nextId {
          RewardFrame(s, t, rid);
        }
      }
    }
  }

  lemma AssignRewards(s: Store, a: Actor, id: nat, executive: string)
    requires RewardsOk(s)
    ensures RewardsOk(AssignExecutive(s, a, id, executive).0)
  {
    var t := AssignExecutive(s, a, id, executive).0;
    forall rid | rid in t.rewards
      ensures RewardOk(t, rid)
    {
      RewardFrame(s, t, rid);
    }
  }

  lemma StepRewards(s: Store, c: Call)
    requires RewardsOk(s) && OwnerStore.Valid(c)
    ensures RewardsOk(Step(s, c).0)
  {
    match c
    case CreateCall(a, budget, executive) => CreateRewards(s, a, budget, executive);
    case AssignCall(a, id, executive) => AssignRewards(s, a, id, executive);
    case TransitionCall(a, id, to) => TransitionRewards(s, a, id, to);
    case ReviewCall(a, id, changes) =>
      if id in s.tasks {
        var to := if changes then Rework else Audit;
        SetStatusRewards(s, a, id, to, s.approvals);
        assert SetStatus(s, a, id, to).(approvals := s.approvals) == SetStatus(s, a, id, to);
      }
    case AuditCall(a, id, passed) => if id in s.tasks { SetStatusRewards(s, a, id, OwnerReview, OpenApprovals(s, id)); }
    case EvaluateCall(a, id, quality) => EvaluateRewards(s, a, id, quality);
    case ApproveRewardCall(a, rid, amount, reason) => ApproveRewards(s, a, rid, amount, reason);
    case DecideCall(a, key, d, comment) =>
      EnactRewards(s, a, key, d, comment);
      var t := Enact(s, a, key, d, comment).0;
      ApprovalsAside(t, t.approvals[key := Some(d)]);
  }

  lemma TransitionEvaluated(s: Store, a: Actor, id: nat, to: TaskStatus)
    requires CompletedEvaluated(s)
    ensures CompletedEvaluated(TransitionTask(s, a, id, to).0)
  {
  }

  lemma EnactEvaluated(s: Store, a: Actor, key: ApprovalKey, d: Decision, comment: string)
    requires CompletedEvaluated(s)
    ensures CompletedEvaluated(Enact(s, a, key, d, comment).0)
  {
    if key.OfTask? {
      TransitionEvaluated(s, a, key.taskId, Completed);
      TransitionEvaluated(s, a, key.taskId, Rework);
      TransitionEvaluated(s, a, key.taskId, RejectedTask);
    }
  }

  lemma StepEvaluated(s: Store, c: Call)
    requires CompletedEvaluated(s)
    ensures CompletedEvaluated(Step(s, c).0)
  {
    match c
    case TransitionCall(a, id, to) => TransitionEvaluated(s, a, id, to);
    case DecideCall(a, key, d, comment) => EnactEvaluated(s, a, key, d, comment);
    case _ =>
  }

  /**
   * After any run: a completed Task and an approved reward were evaluated; proposals stay within the budget; an
   * approved amount above the budget carries a comment; and the ledger holds exactly the approved amounts.
   */
  lemma {:induction false} EveryRunAccounts(calls: seq<Call>)
    requires forall n :: 0 <= n < |calls| ==> OwnerStore.Valid(calls[n])
    ensures RewardsOk(RunFrom(EMPTY, calls)) && CompletedEvaluated(RunFrom(EMPTY, calls))
    decreases |calls|
  {
    if calls != [] {
      EveryRunAccounts(calls[..|calls| - 1]);
      StepRewards(RunFrom(EMPTY, calls[..|calls| - 1]), calls[|calls| - 1]);
      StepEvaluated(RunFrom(EMPTY, calls[..|calls| - 1]), calls[|calls| - 1]);
    }
  }

  // ----- Independence

  predicate Independent(m: Move) {
    && m.actor.trusted && m.actor.id != m.executive
    && (m.to.Audit? ==> m.actor.role.ReviewerRole?)
    && (m.to.OwnerReview? ==> m.actor.role.AuditorRole?)
  }

  predicate Moved(moves: seq<Move>, i: nat, id: nat, to: TaskStatus) {
    i < |moves| && moves[i].taskId == id && moves[i].to == to
  }

  ghost predicate Reviewed(moves: seq<Move>, id: nat) {
    exists i :: Moved(moves, i, id, Audit)
  }

  ghost predicate ReviewedThenAudited(moves: seq<Move>, id: nat) {
    exists i, j :: i < j && Moved(moves, i, id, Audit) && Moved(moves, j, id, OwnerReview)
  }

  ghost predicate PathOk(s: Store, id: nat)
    requires id in s.tasks
  {
    && (s.tasks[id].status.Audit? ==> Reviewed(s.moves, id))
    && (s.tasks[id].status in {OwnerReview, Completed, RejectedTask} ==> ReviewedThenAudited(s.moves, id))
  }

  ghost predicate PathsOk(s: Store) {
    && (forall id :: id in s.tasks ==> PathOk(s, id))
    && (forall i :: 0 <= i < |s.moves| ==> Independent(s.moves[i]))
  }

  lemma MovesKept(moves: seq<Move>, m: Move, id: nat)
    ensures Reviewed(moves, id) ==> Reviewed(moves + [m], id)
    ensures ReviewedThenAudited(moves, id) ==> ReviewedThenAudited(moves + [m], id)
    ensures m.taskId == id && m.to.Audit? ==> Reviewed(moves + [m], id)
    ensures m.taskId == id && m.to.OwnerReview? && Reviewed(moves, id) ==> ReviewedThenAudited(moves + [m], id)
  {
    var more := moves + [m];
    forall i, to | Moved(moves, i, id, to)
      ensures Moved(more, i, id, to)
    {
    }
    assert m.taskId == id ==> Moved(more, |moves|, id, m.to);
  }

  /** A task changes status only from where the status may be reached, and by whom. */
  predicate Reachable(s: Store, a: Actor, id: nat, to: TaskStatus)
    requires id in s.tasks
  {
    && to in Targets(s.tasks[id].status)
    && (to.Audit? ==> ReviewerMay(a, s.tasks[id]))
    && (to.OwnerReview? ==> AuditorMay(a, s.tasks[id]))
  }

  lemma SetStatusPaths(s: Store, a: Actor, id: nat, to: TaskStatus)
    requires PathsOk(s) && id in s.tasks && Reachable(s, a, id, to)
    ensures PathsOk(SetStatus(s, a, id, to))
  {
    var t := SetStatus(s, a, id, to);
    var m := Move(id, to, a, s.tasks[id].executive);
    forall other | other in t.tasks
      ensures PathOk(t, other)
    {
      assert PathOk(s, other);
      MovesKept(s.moves, m, other);
    }
  }

  lemma TransitionPaths(s: Store, a: Actor, id: nat, to: TaskStatus)
    requires PathsOk(s)
    ensures PathsOk(TransitionTask(s, a, id, to).0)
  {
    if TransitionTask(s, a, id, to).1.Success? {
      SetStatusPaths(s, a, id, to);
    }
  }

  lemma ReviewPaths(s: Store, a: Actor, id: nat, changes: bool)
    requires PathsOk(s)
    ensures PathsOk(SubmitReview(s, a, id, changes).0)
  {
    if SubmitReview(s, a, id, changes).1.Success? {
      SetStatusPaths(s, a, id, if changes then Rework else Audit);
    }
  }

  lemma AuditPaths(s: Store, a: Actor, id: nat, passed: bool)
    requires PathsOk(s)
    ensures PathsOk(RecordAudit(s, a, id, passed).0)
  {
    if passed && RecordAudit(s, a, id, passed).1.Success? {
      SetStatusPaths(s, a, id, OwnerReview);
      PathsFrame(SetStatus(s, a, id, OwnerReview), RecordAudit(s, a, id, passed).0);
    }
  }

  /** Only four of the calls change a status or the moves, and always along `Reachable`. */
  lemma StepPaths(s: Store, c: Call)
    requires PathsOk(s)
    ensures PathsOk(Step(s, c).0)
  {
    match c
    case TransitionCall(a, id, to) => TransitionPaths(s, a, id, to);
    case ReviewCall(a, id, changes) => ReviewPaths(s, a, id, changes);
    case AuditCall(a, id, passed) => AuditPaths(s, a, id, passed);
    case DecideCall(a, key, d, comment) => DecidePaths(s, a, key, d, comment);
    case _ => PathsFrame(s, Step(s, c).0);
  }

  lemma DecidePaths(s: Store, a: Actor, key: ApprovalKey, d: Decision, comment: string)
    requires PathsOk(s)
    ensures PathsOk(Decide(s, a, key, d, comment).0)
  {
    EnactPaths(s, a, key, d, comment);
    var t := Enact(s, a, key, d, comment).0;
    PathsFrame(t, t.(approvals := t.approvals[key := Some(d)]));
  }

  lemma PathsFrame(s: Store, t: Store)
    requires PathsOk(s) && t.moves == s.moves
    requires forall id :: id in t.tasks ==>
      if id in s.tasks then t.tasks[id].status == s.tasks[id].status || t.tasks[id].status.Draft?
        else t.tasks[id].status.Draft?
    ensures PathsOk(t)
  {
    forall id | id in t.tasks
      ensures PathOk(t, id)
    {
      if id in s.tasks {
        assert PathOk(s, id);
      }
    }
  }

  lemma EnactPaths(s: Store, a: Actor, key: ApprovalKey, d: Decision, comment: string)
    requires PathsOk(s)
    ensures PathsOk(Enact(s, a, key, d, comment).0)
  {
    var (t, o) := Enact(s, a, key, d, comment);
    match key
    case OfTask(id) =>
      if o.Success? && !d.Hold? {
        SetStatusPaths(s, a, id, if d.Approve? then Completed else if d.RequestChanges? then Rework else RejectedTask);
      }
    case OfReward(rid) => PathsFrame(s, t);
  }

  /**
   * After any run no Task is completed or rejected, or even before the Owner, without a move to AUDIT by a trusted
   * Reviewer and a later one to OWNER_REVIEW by a trusted Auditor, neither of them its Executive at that time.
   */
  lemma {:induction false} EveryRunIndependent(calls: seq<Call>)
    ensures PathsOk(RunFrom(EMPTY, calls))
    decreases |calls|
  {
    if calls != [] {
      EveryRunIndependent(calls[..|calls| - 1]);
      StepPaths(RunFrom(EMPTY, calls[..|calls| - 1]), calls[|calls| - 1]);
    }
  }

  // ----- What stays

  predicate Terminal(status: TaskStatus) {
    status in {Completed, RejectedTask, CancelledTask}
  }

  ghost predicate TasksKept(s: Store, t: Store) {
    forall id :: id in s.tasks ==>
      id in t.tasks && (Terminal(s.tasks[id].status) ==> t.tasks[id].status == s.tasks[id].status)
  }

  ghost predicate ApprovalsKept(s: Store, t: Store) {
    forall key :: key in s.approvals ==>
      key in t.approvals && (s.approvals[key].Some? ==> t.approvals[key] == s.approvals[key])
  }

  ghost predicate LedgersKept(s: Store, t: Store) {
    forall rid :: rid in s.ledgers ==> rid in t.ledgers && t.ledgers[rid] == s.ledgers[rid]
  }

  ghost predicate Kept(s: Store, t: Store) {
    TasksKept(s, t) && ApprovalsKept(s, t) && LedgersKept(s, t)
  }

  lemma TerminalHasNoTargets(status: TaskStatus)
    ensures Terminal(status) ==> Targets(status) == {}
  {
  }

  lemma SetStatusTasks(s: Store, a: Actor, id: nat, to: TaskStatus)
    requires id in s.tasks && !Terminal(s.tasks[id].status)
    ensures TasksKept(s, SetStatus(s, a, id, to))
  {
  }

  lemma TransitionTasks(s: Store, a: Actor, id: nat, to: TaskStatus)
    ensures TasksKept(s, TransitionTask(s, a, id, to).0)
    ensures TransitionTask(s, a, id, to).0.approvals == s.approvals
      && TransitionTask(s, a, id, to).0.ledgers == s.ledgers
  {
    if TransitionTask(s, a, id, to).1.Success? {
      TerminalHasNoTargets(s.tasks[id].status);
      SetStatusTasks(s, a, id, to);
    }
  }

  lemma EnactTasks(s: Store, a: Actor, key: ApprovalKey, d: Decision, comment: string)
    ensures TasksKept(s, Enact(s, a, key, d, comment).0)
    ensures Enact(s, a, key, d, comment).0.approvals == s.approvals
  {
    if key.OfTask? {
      TransitionTasks(s, a, key.taskId, Completed);
      TransitionTasks(s, a, key.taskId, Rework);
      TransitionTasks(s, a, key.taskId, RejectedTask);
    }
  }

  lemma StepTasks(s: Store, c: Call)
    requires RewardsOk(s)
    ensures TasksKept(s, Step(s, c).0)
  {
    match c
    case TransitionCall(a, id, to) => TransitionTasks(s, a, id, to);
    case DecideCall(a, key, d, comment) => EnactTasks(s, a, key, d, comment);
    case _ =>
  }

  lemma StepApprovals(s: Store, c: Call)
    ensures ApprovalsKept(s, Step(s, c).0)
  {
    match c
    case TransitionCall(a, id, to) => TransitionTasks(s, a, id, to);
    case DecideCall(a, key, d, comment) => EnactTasks(s, a, key, d, comment);
    case _ =>
  }

  lemma ApproveLedgers(s: Store, a: Actor, rid: nat, amount: int, reason: string)
    requires RewardsOk(s)
    ensures LedgersKept(s, ApproveRewardOf(s, a, rid, amount, reason).0)
  {
    if rid in s.rewards {
      assert RewardOk(s, rid);
    }
  }

  lemma EnactLedgers(s: Store, a: Actor, key: ApprovalKey, d: Decision, comment: string)
    requires RewardsOk(s)
    ensures LedgersKept(s, Enact(s, a, key, d, comment).0)
  {
    match key
    case OfTask(id) =>
      TransitionTasks(s, a, id, Completed);
      TransitionTasks(s, a, id, Rework);
      TransitionTasks(s, a, id, RejectedTask);
    case OfReward(rid) =>
      if rid in s.rewards { ApproveLedgers(s, a, rid, s.rewards[rid].proposed, comment); }
  }

  lemma OtherLedgers(s: Store, c: Call)
    requires !c.TransitionCall? && !c.ApproveRewardCall? && !c.DecideCall?
    ensures LedgersKept(s, Step(s, c).0)
  {
  }

  lemma StepLedgers(s: Store, c: Call)
    requires RewardsOk(s)
    ensures LedgersKept(s, Step(s, c).0)
  {
    match c
    case TransitionCall(a, id, to) => TransitionTasks(s, a, id, to);
    case ApproveRewardCall(a, rid, amount, reason) => ApproveLedgers(s, a, rid, amount, reason);
    case DecideCall(a, key, d, comment) => EnactLedgers(s, a, key, d, comment);
    case _ => OtherLedgers(s, c);
  }

  lemma StepKept(s: Store, c: Call)
    requires RewardsOk(s)
    ensures Kept(s, Step(s, c).0)
  {
    StepTasks(s, c);
    StepApprovals(s, c);
    StepLedgers(s, c);
  }

  lemma KeptTransitive(s: Store, t: Store, u: Store)
    requires Kept(s, t) && Kept(t, u)
    ensures Kept(s, u)
  {
  }

  /**
   * Terminal Tasks keep their status, decided approvals their decision and ledger entries their amount, over any run.
   */
  lemma {:induction false} RunKept(s: Store, calls: seq<Call>)
    requires RewardsOk(s) && forall n :: 0 <= n < |calls| ==> OwnerStore.Valid(calls[n])
    ensures RewardsOk(RunFrom(s, calls)) && Kept(s, RunFrom(s, calls))
    decreases |calls|
  {
    if calls != [] {
      var t := RunFrom(s, calls[..|calls| - 1]);
      RunKept(s, calls[..|calls| - 1]);
      StepRewards(t, calls[|calls| - 1]);
      StepKept(t, calls[|calls| - 1]);
      KeptTransitive(s, t, RunFrom(s, calls));
    }
  }

  // ----- Where the ledger and the rewards part

  /** Every ledger entry belongs to a reward that is approved. */
  ghost predicate LedgerBacked(s: Store) {
    forall rid :: rid in s.ledgers ==> rid in s.rewards && s.rewards[rid].status.ApprovedReward?
  }

  /** A rejection, through the approval center, of a reward that was approved directly. */
  predicate RejectsApproved(s: Store, c: Call) {
    && c.DecideCall? && c.key.OfReward? && c.decision.Reject?
    && OwnerMay(c.actor, DecideAction)
    && c.key in s.approvals && s.approvals[c.key].None?
    && c.key.rewardId in s.rewards && s.rewards[c.key.rewardId].status.ApprovedReward?
  }

  lemma TransitionBacked(s: Store, a: Actor, id: nat, to: TaskStatus)
    ensures TransitionTask(s, a, id, to).0.ledgers == s.ledgers && TransitionTask(s, a, id, to).0.rewards == s.rewards
  {
    if TransitionTask(s, a, id, to).1.Success? {
      assert TransitionTask(s, a, id, to).0 == SetStatus(s, a, id, to);
    }
  }

  /** Enacting a decision unbacks the ledger exactly when it rejects an approved reward. */
  lemma EnactBacked(s: Store, a: Actor, key: ApprovalKey, d: Decision, comment: string)
    requires RewardsOk(s) && LedgerBacked(s)
    ensures LedgerBacked(Enact(s, a, key, d, comment).0)
      <==> !(key.OfReward? && d.Reject? && key.rewardId in s.rewards && s.rewards[key.rewardId].status.ApprovedReward?)
  {
    match key
    case OfTask(id) =>
      TransitionBacked(s, a, id, Completed);
      TransitionBacked(s, a, id, Rework);
      TransitionBacked(s, a, id, RejectedTask);
    case OfReward(rid) =>
      if rid in s.rewards {
        assert RewardOk(s, rid);
        if d.Reject? {
          assert Enact(s, a, key, d, comment).0.rewards[rid].status.CancelledReward?;
        }
      }
  }

  /**
   * The rejection has no guard on the reward's status: it, and nothing else, leaves an entry for a cancelled reward.
   */
  lemma LedgerBackedExactly(s: Store, c: Call)
    requires RewardsOk(s) && LedgerBacked(s)
    ensures LedgerBacked(Step(s, c).0) <==> !RejectsApproved(s, c)
  {
    match c
    case TransitionCall(a, id, to) => TransitionBacked(s, a, id, to);
    case DecideCall(a, key, d, comment) => EnactBacked(s, a, key, d, comment);
    case CreateCall(a, budget, executive) => assert s.nextId !in s.rewards;
    case _ =>
  }

  /** A completion approval that was once decided stays so: after rework and a second audit it cannot be used again. */
  lemma DecidedIsFinal(s: Store, key: ApprovalKey, calls: seq<Call>, a: Actor, d: Decision, comment: string)
    requires RewardsOk(s) && key in s.approvals && s.approvals[key].Some?
    requires forall n :: 0 <= n < |calls| ==> OwnerStore.Valid(calls[n])
    ensures Decide(RunFrom(s, calls), a, key, d, comment).0 == RunFrom(s, calls)
    ensures Decide(RunFrom(s, calls), a, key, d, comment).1.Failure?
  {
    RunKept(s, calls);
  }
}
