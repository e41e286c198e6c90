/** The Owner-directed store: tasks, evaluations, rewards, approvals and the reward ledger, one public call per step. */
module OwnerStore {
  import opened Results
  import opened Texts

  datatype TaskStatus =
    | Draft | ApprovedTask | Planning | InProgress | Review | Audit | OwnerReview | Rework | Blocked
    | Completed | RejectedTask | CancelledTask

  datatype RewardStatus = Pending | Proposed | ApprovedReward | Paid | ReservedReward | CancelledReward

  datatype Role = OwnerRole | ExecutiveRole | ReviewerRole | AuditorRole | OtherRole
  datatype Action =
    | CreateTaskAction | AssignExecutiveAction | TransitionAction | StartAction | ReviewAction | AuditAction
    | EvaluateAction
    | ApproveRewardAction | DecideAction

  /** `trusted`: the Owner's own identity, or a registered active Agent in its registered role. */
  datatype Actor = Actor(id: string, role: Role, trusted: bool, permits: set<Action>)

  datatype Task = Task(status: TaskStatus, budget: int, executive: string)
  datatype Reward = Reward(
    taskId: nat, budget: int, proposed: int, approved: Option<int>, cancelled: int, status: RewardStatus,
    comment: string)

  datatype Decision = Approve | Reject | RequestChanges | Hold
  datatype ApprovalKey = OfTask(taskId: nat) | OfReward(rewardId: nat)

  /** A task entering AUDIT or OWNER_REVIEW, by whom, and who its Executive was then. */
  datatype Move = Move(taskId: nat, to: TaskStatus, actor: Actor, executive: string)

  datatype Store = Store(
    tasks: map<nat, Task>, evaluations: map<nat, int>, rewards: map<nat, Reward>, ledgers: map<nat, int>,
    approvals: map<ApprovalKey, Option<Decision>>, moves: seq<Move>, nextId: nat)

  datatype StoreError =
    | NotRegistered | Denied | InvalidTransition | EvaluationRequired | WrongStatus | RewardNotPending | ReasonRequired
    | AlreadyDecided

  const EMPTY := Store(map[], map[], map[], map[], map[], [], 0)

  type Outcome = Result<(), StoreError>

  predicate OwnerMay(a: Actor, action: Action) {
    a.role.OwnerRole? && a.trusted && action in a.permits
  }

  predicate AgentMay(a: Actor, action: Action) {
    !a.role.OwnerRole? && a.trusted && action in a.permits
  }

  predicate ExecutiveMay(a: Actor, t: Task) {
    a.id == t.executive && a.role.ExecutiveRole? && AgentMay(a, StartAction)
  }

  predicate ReviewerMay(a: Actor, t: Task) {
    AgentMay(a, ReviewAction) && a.role.ReviewerRole? && a.id != t.executive
  }

  predicate AuditorMay(a: Actor, t: Task) {
    AgentMay(a, AuditAction) && a.role.AuditorRole? && a.id != t.executive
  }

  function Targets(from: TaskStatus): set<TaskStatus> {
    match from
    case Draft => {ApprovedTask, CancelledTask}
    case ApprovedTask => {Planning, CancelledTask}
    case Planning => {InProgress, Blocked, CancelledTask}
    case InProgress => {Review, Blocked, CancelledTask}
    case Review => {Audit, Rework, Blocked}
    case Audit => {OwnerReview, Rework, Blocked}
    case OwnerReview => {Completed, Rework, RejectedTask, Blocked}
    case Rework => {InProgress, CancelledTask, Blocked}
    case Blocked => {InProgress, CancelledTask}
    case Completed => {}
    case RejectedTask => {}
    case CancelledTask => {}
  }

  predicate MayMove(a: Actor, t: Task, to: TaskStatus) {
    match to
    case Planning => ExecutiveMay(a, t)
    case InProgress => ExecutiveMay(a, t)
    case Review => ExecutiveMay(a, t)
    case Audit => ReviewerMay(a, t)
    case OwnerReview => AuditorMay(a, t)
    case Blocked =>
      if a.id == t.executive then ExecutiveMay(a, t)
      else if a.role.AuditorRole? then AgentMay(a, AuditAction)
      else OwnerMay(a, TransitionAction)
    case _ => OwnerMay(a, TransitionAction)
  }

  /** Stores the status and notes the moves that matter for independence. */
  function SetStatus(s: Store, a: Actor, id: nat, to: TaskStatus): Store
    requires id in s.tasks
  {
    var t := s.tasks[id];
    s.(tasks := s.tasks[id := t.(status := to)],
       moves := if to.Audit? || to.OwnerReview? then s.moves + [Move(id, to, a, t.executive)] else s.moves)
  }

  function TransitionTask(s: Store, a: Actor, id: nat, to: TaskStatus): (Store, Outcome) {
    if id !in s.tasks then (s, Failure(NotRegistered))
    else if to !in Targets(s.tasks[id].status) then (s, Failure(InvalidTransition))
    else if !MayMove(a, s.tasks[id], to) then (s, Failure(Denied))
    else if to.Completed? && id !in s.evaluations then (s, Failure(EvaluationRequired))
    else (SetStatus(s, a, id, to), Success(()))
  }

  function SubmitReview(s: Store, a: Actor, id: nat, changes: bool): (Store, Outcome) {
    if id !in s.tasks then (s, Failure(NotRegistered))
    else if !ReviewerMay(a, s.tasks[id]) then (s, Failure(Denied))
    else if !s.tasks[id].status.Review? then (s, Failure(WrongStatus))
    else (SetStatus(s, a, id, if changes then Rework else Audit), Success(()))
  }

  function RewardKeys(s: Store, id: nat): set<ApprovalKey> {
    set r | r in s.rewards && s.rewards[r].taskId == id :: OfReward(r)
  }

  /** Opens the approvals of a task; one that exists already stays as it is. */
  function OpenApprovals(s: Store, id: nat): map<ApprovalKey, Option<Decision>> {
    (map k | k in RewardKeys(s, id) + {OfTask(id)} :: None) + s.approvals
  }

  function RecordAudit(s: Store, a: Actor, id: nat, passed: bool): (Store, Outcome) {
    if id !in s.tasks then (s, Failure(NotRegistered))
    else if !AuditorMay(a, s.tasks[id]) then (s, Failure(Denied))
    else if !s.tasks[id].status.Audit? then (s, Failure(WrongStatus))
    else if !passed then (s, Success(()))
    else (SetStatus(s, a, id, OwnerReview).(approvals := OpenApprovals(s, id)), Success(()))
  }

  function Propose(t: Task, r: Reward, quality: int): Reward {
    r.(proposed := t.budget * quality / 100, status := Proposed)
  }

  function Reproposed(t: Task, id: nat, r: Reward, quality: int): Reward {
    if r.taskId == id && r.status.Pending? then Propose(t, r, quality) else r
  }

  function Evaluated(s: Store, id: nat, quality: int): Store
    requires id in s.tasks
  {
    s.(evaluations := s.evaluations[id := quality],
       rewards := map r | r in s.rewards :: Reproposed(s.tasks[id], id, s.rewards[r], quality))
  }

  function Evaluate(s: Store, a: Actor, id: nat, quality: int): (Store, Outcome) {
    if id !in s.tasks then (s, Failure(NotRegistered))
    else if !OwnerMay(a, EvaluateAction) then (s, Failure(Denied))
    else if !s.tasks[id].status.OwnerReview? then (s, Failure(WrongStatus))
    else (Evaluated(s, id, quality), Success(()))
  }

  function ApproveRewardOf(s: Store, a: Actor, rid: nat, amount: int, reason: string): (Store, Outcome) {
    if rid !in s.rewards then (s, Failure(NotRegistered))
    else if !OwnerMay(a, ApproveRewardAction) then (s, Failure(Denied))
    else
      var r := s.rewards[rid];
      if r.taskId !in s.tasks then (s, Failure(NotRegistered))
      else if r.taskId !in s.evaluations then (s, Failure(EvaluationRequired))
      else if !s.tasks[r.taskId].status.OwnerReview? && !s.tasks[r.taskId].status.Completed? then
        (s, Failure(WrongStatus))
      else if !r.status.Pending? && !r.status.Proposed? then (s, Failure(RewardNotPending))
      else if amount > r.budget && Blank(reason) then (s, Failure(ReasonRequired))
      else
        (s.(rewards := s.rewards[rid := r.(approved := Some(amount), comment := reason, status := ApprovedReward)],
            ledgers := s.ledgers[rid := amount]),
         Success(()))
  }

  /** What a decision does to the thing it decides. */
  function Enact(s: Store, a: Actor, key: ApprovalKey, d: Decision, comment: string): (Store, Outcome) {
    match key
    case OfTask(id) => (
      match d
      case Approve =>
        if id !in s.evaluations then (s, Failure(EvaluationRequired)) else TransitionTask(s, a, id, Completed)
      case RequestChanges => TransitionTask(s, a, id, Rework)
      case Reject => TransitionTask(s, a, id, RejectedTask)
      case Hold => (s, Success(())))
    case OfReward(rid) =>
      if rid !in s.rewards then (s, Failure(NotRegistered))
      else
        match d
        case Approve => ApproveRewardOf(s, a, rid, s.rewards[rid].proposed, comment)
        case Reject =>
          var r := s.rewards[rid];
          (s.(rewards := s.rewards[rid := r.(status := CancelledReward, cancelled := r.proposed)]), Success(()))
        case _ => (s, Success(()))
  }

  function Decide(s: Store, a: Actor, key: ApprovalKey, d: Decision, comment: string): (Store, Outcome) {
    if key !in s.approvals then (s, Failure(NotRegistered))
    else if !OwnerMay(a, DecideAction) then (s, Failure(Denied))
    else if s.approvals[key].Some? then (s, Failure(AlreadyDecided))
    else
      var (t, o) := Enact(s, a, key, d, comment);
      if o.Failure? then (s, o) else (t.(approvals := t.approvals[key := Some(d)]), o)
  }

  function CreateTask(s: Store, a: Actor, budget: int, executive: string): (Store, Outcome) {
    if !OwnerMay(a, CreateTaskAction) then (s, Failure(Denied))
    else
      var id := s.nextId;
      (s.(tasks := s.tasks[id := Task(Draft, budget, executive)],
          rewards := s.rewards[id := Reward(id, budget, 0, None, 0, Pending, "")],
          nextId := id + 1),
       Success(()))
  }

  function AssignExecutive(s: Store, a: Actor, id: nat, executive: string): (Store, Outcome) {
    if id !in s.tasks then (s, Failure(NotRegistered))
    else if !OwnerMay(a, AssignExecutiveAction) then (s, Failure(Denied))
    else (s.(tasks := s.tasks[id := s.tasks[id].(executive := executive)]), Success(()))
  }

  datatype Call =
    | CreateCall(actor: Actor, budget: nat, executive: string)
    | AssignCall(actor: Actor, id: nat, executive: string)
    | TransitionCall(actor: Actor, id: nat, to: TaskStatus)
    | ReviewCall(actor: Actor, id: nat, changes: bool)
    | AuditCall(actor: Actor, id: nat, passed: bool)
    | EvaluateCall(actor: Actor, id: nat, quality: nat)
    | ApproveRewardCall(actor: Actor, rewardId: nat, amount: int, reason: string)
    | DecideCall(actor: Actor, key: ApprovalKey, decision: Decision, comment: string)

  /** A quality above 100 is refused before the store sees it. */
  predicate Valid(c: Call) {
    c.EvaluateCall? ==> c.quality <= 100
  }

  function Step(s: Store, c: Call): (Store, Outcome) {
    match c
    case CreateCall(a, budget, executive) => CreateTask(s, a, budget, executive)
    case AssignCall(a, id, executive) => AssignExecutive(s, a, id, executive)
    case TransitionCall(a, id, to) => TransitionTask(s, a, id, to)
    case ReviewCall(a, id, changes) => SubmitReview(s, a, id, changes)
    case AuditCall(a, id, passed) => RecordAudit(s, a, id, passed)
    case EvaluateCall(a, id, quality) => Evaluate(s, a, id, quality)
    case ApproveRewardCall(a, rid, amount, reason) => ApproveRewardOf(s, a, rid, amount, reason)
    case DecideCall(a, key, d, comment) => Decide(s, a, key, d, comment)
  }

  function RunFrom(s: Store, calls: seq<Call>): Store {
    if calls == [] then s else Step(RunFrom(s, calls[..|calls| - 1]), calls[|calls| - 1]).0
  }
}
