/** What each command of the Owner-directed store needs and what it leaves, status by status. */
module OwnerDecisions {
  import opened Results
  import opened Texts
  import opened OwnerStore

  // ----- Who may do what

  /** The Owner in person, with the permission. */
  predicate IsOwner(a: Actor, action: Action) {
    a.role == OwnerRole && a.trusted && action in a.permits
  }

  /** A registered Agent in this role, with the permission. */
  predicate IsAgent(a: Actor, role: Role, action: Action) {
    role != OwnerRole && a.role == role && a.trusted && action in a.permits
  }

  /** The authority a move into each status needs. */
  predicate MayEnter(a: Actor, t: Task, to: TaskStatus) {
    && (to in {Planning, InProgress, Review} ==> a.id == t.executive && IsAgent(a, ExecutiveRole, StartAction))
    && (to == Audit ==> a.id != t.executive && IsAgent(a, ReviewerRole, ReviewAction))
    && (to == OwnerReview ==> a.id != t.executive && IsAgent(a, AuditorRole, AuditAction))
    && (to in {Draft, ApprovedTask, Completed, Rework, RejectedTask, CancelledTask} ==> IsOwner(a, TransitionAction))
    && (to == Blocked && a.id == t.executive ==> IsAgent(a, ExecutiveRole, StartAction))
    && (to == Blocked && a.id != t.executive ==>
          IsAgent(a, AuditorRole, AuditAction) || IsOwner(a, TransitionAction))
  }

  /** The statuses each status is entered from. */
  function Sources(to: TaskStatus): set<TaskStatus> {
    match to
    case Draft => {}
    case ApprovedTask => {Draft}
    case Planning => {ApprovedTask}
    case InProgress => {Planning, Rework, Blocked}
    case Review => {InProgress}
    case Audit => {Review}
    case OwnerReview => {Audit}
    case Rework => {Review, Audit, OwnerReview}
    case Blocked => {Planning, InProgress, Review, Audit, OwnerReview, Rework}
    case Completed => {OwnerReview}
    case RejectedTask => {OwnerReview}
    case CancelledTask => {Draft, ApprovedTask, Planning, InProgress, Rework, Blocked}
  }

  lemma TargetsOfSources(from: TaskStatus, to: TaskStatus)
    ensures to in Targets(from) <==> from in Sources(to)
  {
  }

  lemma EntersExactly(a: Actor, t: Task, to: TaskStatus)
    ensures MayMove(a, t, to) <==> MayEnter(a, t, to)
  {
  }

  /** One task has the status, and nothing else of any task changed. */
  predicate Enters(s: Store, t: Store, id: nat, to: TaskStatus) {
    id in s.tasks && t.tasks == s.tasks[id := Task(to, s.tasks[id].budget, s.tasks[id].executive)]
  }

  /** Evaluations, rewards, ledger and approvals are as they were. */
  predicate OnlyTasksMove(s: Store, t: Store) {
    t.evaluations == s.evaluations && t.rewards == s.rewards && t.ledgers == s.ledgers && t.approvals == s.approvals
      && t.nextId == s.nextId
  }

  predicate CanEnter(s: Store, a: Actor, id: nat, to: TaskStatus) {
    && id in s.tasks && s.tasks[id].status in Sources(to) && MayEnter(a, s.tasks[id], to)
    && (to == Completed ==> id in s.evaluations)
  }

  /** A move succeeds exactly from a status it leaves, with its authority and, into COMPLETED, after an evaluation. */
  lemma TransitionsExactly(s: Store, a: Actor, id: nat, to: TaskStatus)
    ensures var (t, o) := TransitionTask(s, a, id, to);
      && (o.Success? <==> CanEnter(s, a, id, to))
      && (o.Success? ==> Enters(s, t, id, to) && OnlyTasksMove(s, t))
      && (o.Failure? ==> t == s)
  {
    if id in s.tasks {
      TargetsOfSources(s.tasks[id].status, to);
      EntersExactly(a, s.tasks[id], to);
    }
  }

  // ----- Review, audit, evaluation

  /** A Reviewer other than the Executive sends a Task under REVIEW to REWORK or on to AUDIT. */
  lemma ReviewsExactly(s: Store, a: Actor, id: nat, changes: bool)
    ensures var (t, o) := SubmitReview(s, a, id, changes);
      && (o.Success? <==>
            && id in s.tasks && s.tasks[id].status == Review
            && a.id != s.tasks[id].executive && IsAgent(a, ReviewerRole, ReviewAction))
      && (o.Success? ==> Enters(s, t, id, if changes then Rework else Audit) && OnlyTasksMove(s, t))
      && (o.Failure? ==> t == s)
  {
  }

  /**
   * An Auditor other than the Executive passes a Task under AUDIT on to OWNER_REVIEW and opens the approvals of it and
   * of all its rewards that had none; a failed audit changes nothing.
   */
  lemma AuditsExactly(s: Store, a: Actor, id: nat, passed: bool)
    ensures var (t, o) := RecordAudit(s, a, id, passed);
      && (o.Success? <==>
            && id in s.tasks && s.tasks[id].status == Audit
            && a.id != s.tasks[id].executive && IsAgent(a, AuditorRole, AuditAction))
      && (o.Success? && passed ==>
            && Enters(s, t, id, OwnerReview)
            && t.evaluations == s.evaluations && t.rewards == s.rewards && t.ledgers == s.ledgers
            && (forall key :: key in t.approvals <==>
                  || key in s.approvals || key == OfTask(id)
                  || (key.OfReward? && key.rewardId in s.rewards && s.rewards[key.rewardId].taskId == id))
            && (forall key :: key in t.approvals ==>
                  t.approvals[key] == if key in s.approvals then s.approvals[key] else None))
      && (o.Failure? || !passed ==> t == s)
  {
    var t := RecordAudit(s, a, id, passed).0;
    if id in s.tasks && passed && RecordAudit(s, a, id, passed).1.Success? {
      forall key
        ensures key in t.approvals <==>
          || key in s.approvals || key == OfTask(id)
          || (key.OfReward? && key.rewardId in s.rewards && s.rewards[key.rewardId].taskId == id)
      {
        assert key in RewardKeys(s, id) <==>
          key.OfReward? && key.rewardId in s.rewards && s.rewards[key.rewardId].taskId == id;
      }
    }
  }

  /**
   * The Owner evaluates a Task under OWNER_REVIEW: its pending rewards get the floor of budget times quality percent.
   */
  lemma EvaluatesExactly(s: Store, a: Actor, id: nat, quality: nat)
    ensures var (t, o) := Evaluate(s, a, id, quality);
      && (o.Success? <==> id in s.tasks && s.tasks[id].status == OwnerReview && IsOwner(a, EvaluateAction))
      && (o.Success? ==>
            && t.evaluations == s.evaluations[id := quality] && t.rewards.Keys == s.rewards.Keys
            && t.tasks == s.tasks && t.ledgers == s.ledgers && t.approvals == s.approvals
            && forall r :: r in s.rewards ==> Proposes(s.rewards[r], t.rewards[r], id, s.tasks[id].budget, quality))
      && (o.Failure? ==> t == s)
  {
  }

  /** A pending reward of the task is proposed the floor, any other one stays. */
  predicate Proposes(r: Reward, r': Reward, id: nat, budget: int, quality: nat) {
    if r.taskId == id && r.status == Pending then
      && r'.status == RewardStatus.Proposed && 100 * r'.proposed <= budget * quality < 100 * (r'.proposed + 1)
      && r'.taskId == id && r'.budget == r.budget && r'.approved == r.approved && r'.cancelled == r.cancelled
      && r'.comment == r.comment
    else r' == r
  }

  // ----- Rewards and decisions

  predicate CanApprove(s: Store, a: Actor, rid: nat, amount: int, reason: string) {
    && rid in s.rewards && s.rewards[rid].taskId in s.tasks && IsOwner(a, ApproveRewardAction)
    && s.rewards[rid].taskId in s.evaluations
    && s.tasks[s.rewards[rid].taskId].status in {OwnerReview, Completed}
    && s.rewards[rid].status in {Pending, RewardStatus.Proposed}
    && (amount > s.rewards[rid].budget ==> !Blank(reason))
  }

  /** The reward and its ledger entry have the amount, and nothing else changed. */
  predicate Grants(s: Store, t: Store, rid: nat, amount: int, reason: string) {
    && rid in s.rewards && rid in t.rewards && t.rewards == s.rewards[rid := t.rewards[rid]]
    && t.rewards[rid].status == ApprovedReward && t.rewards[rid].approved == Some(amount)
    && t.rewards[rid].comment == reason && t.rewards[rid].budget == s.rewards[rid].budget
    && t.rewards[rid].taskId == s.rewards[rid].taskId && t.rewards[rid].proposed == s.rewards[rid].proposed
    && t.ledgers == s.ledgers[rid := amount] && t.tasks == s.tasks && t.evaluations == s.evaluations
  }

  lemma ApprovesExactly(s: Store, a: Actor, rid: nat, amount: int, reason: string)
    ensures var (t, o) := ApproveRewardOf(s, a, rid, amount, reason);
      && (o.Success? <==> CanApprove(s, a, rid, amount, reason))
      && (o.Success? ==> Grants(s, t, rid, amount, reason) && t.approvals == s.approvals)
      && (o.Failure? ==> t == s)
  {
  }

  predicate CanDecide(s: Store, a: Actor, key: ApprovalKey) {
    key in s.approvals && s.approvals[key].None? && IsOwner(a, DecideAction)
  }

  /** The status a decision on a completion moves its Task to. */
  function Outcomes(d: Decision): Option<TaskStatus> {
    match d
    case Approve => Some(Completed)
    case RequestChanges => Some(Rework)
    case Reject => Some(RejectedTask)
    case Hold => None
  }

  /**
   * An open completion is decided exactly when the Task may enter the status the answer stands for: APPROVE leaves it
   * COMPLETED, REJECT REJECTED, REQUEST_CHANGES in REWORK and HOLD as it is; the decision is recorded with it.
   */
  lemma DecidesTaskExactly(s: Store, a: Actor, id: nat, d: Decision, comment: string)
    requires CanDecide(s, a, OfTask(id))
    ensures var (t, o) := Decide(s, a, OfTask(id), d, comment);
      && (o.Success? <==> Outcomes(d).Some? ==> CanEnter(s, a, id, Outcomes(d).value))
      && (o.Success? ==>
            && (if Outcomes(d).Some? then Enters(s, t, id, Outcomes(d).value) else t.tasks == s.tasks)
            && t.evaluations == s.evaluations && t.rewards == s.rewards && t.ledgers == s.ledgers
            && t.approvals == s.approvals[OfTask(id) := Some(d)])
      && (o.Failure? ==> t == s)
  {
    if Outcomes(d).Some? {
      TransitionsExactly(s, a, id, Outcomes(d).value);
    }
  }

  /**
   * An open reward approval: APPROVE grants the proposed amount under the conditions of a direct approval, REJECT
   * cancels the reward whatever its status, and the other two answers leave it as it is.
   */
  lemma DecidesRewardExactly(s: Store, a: Actor, rid: nat, d: Decision, comment: string)
    requires CanDecide(s, a, OfReward(rid))
    ensures var (t, o) := Decide(s, a, OfReward(rid), d, comment);
      && (o.Success? <==>
            && rid in s.rewards
            && (d == Approve ==> CanApprove(s, a, rid, s.rewards[rid].proposed, comment)))
      && (o.Success? ==>
            && t.approvals == s.approvals[OfReward(rid) := Some(d)] && t.tasks == s.tasks
            && t.evaluations == s.evaluations
            && (d == Approve ==> Grants(s, t, rid, s.rewards[rid].proposed, comment))
            && (d == Reject ==> Cancels(s, t, rid))
            && (d in {RequestChanges, Hold} ==> t.rewards == s.rewards && t.ledgers == s.ledgers))
      && (o.Failure? ==> t == s)
  {
    if rid in s.rewards {
      ApprovesExactly(s, a, rid, s.rewards[rid].proposed, comment);
    }
  }

  predicate Cancels(s: Store, t: Store, rid: nat) {
    && rid in s.rewards && rid in t.rewards && t.rewards == s.rewards[rid := t.rewards[rid]]
    && t.rewards[rid].status == CancelledReward && t.rewards[rid].cancelled == s.rewards[rid].proposed
    && t.rewards[rid].approved == s.rewards[rid].approved && t.ledgers == s.ledgers
  }

  /** Without an open approval or the Owner's own hand nothing is decided. */
  lemma OthersDoNotDecide(s: Store, a: Actor, key: ApprovalKey, d: Decision, comment: string)
    requires !CanDecide(s, a, key)
    ensures Decide(s, a, key, d, comment).0 == s && Decide(s, a, key, d, comment).1.Failure?
  {
  }

  // ----- New tasks

  predicate IsNewReward(r: Reward, id: nat, budget: int) {
    && r.taskId == id && r.budget == budget && r.status == Pending && r.proposed == r.cancelled == 0
    && r.approved == None
  }

  /** A new Task is a DRAFT under a fresh identifier with one pending reward of its whole budget. */
  lemma CreatesExactly(s: Store, a: Actor, budget: nat, executive: string)
    ensures var (t, o) := CreateTask(s, a, budget, executive);
      && (o.Success? <==> IsOwner(a, CreateTaskAction))
      && (o.Success? ==>
            && t.tasks == s.tasks[s.nextId := Task(Draft, budget, executive)] && t.nextId > s.nextId
            && s.nextId in t.rewards && t.rewards == s.rewards[s.nextId := t.rewards[s.nextId]]
            && IsNewReward(t.rewards[s.nextId], s.nextId, budget)
            && t.ledgers == s.ledgers && t.approvals == s.approvals && t.evaluations == s.evaluations)
      && (o.Failure? ==> t == s)
  {
  }

  /** The Owner may name another Executive at any time, and that changes nothing else. */
  lemma AssignsExactly(s: Store, a: Actor, id: nat, executive: string)
    ensures var (t, o) := AssignExecutive(s, a, id, executive);
      && (o.Success? <==> id in s.tasks && IsOwner(a, AssignExecutiveAction))
      && t == if o.Success? then s.(tasks := s.tasks[id := Task(s.tasks[id].status, s.tasks[id].budget, executive)])
         else s
  {
  }
}
