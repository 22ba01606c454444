/** The strict guided-strike task set. */
module StrictTasks {
  // Tasks hold exclusive seats and targets, each side may keep a bounded number of tasks open, closed tasks are
  // evicted when the set is full, and every task walks a fixed chain of stages with one loop for a strike that did
  // not destroy its target.
  import opened Listings
  import opened Options

  const ACTIVE_LIMIT_PER_SIDE: nat := 16
  const HISTORY_LIMIT: nat := 100
  const EVENT_HISTORY_LIMIT: nat := 64

  datatype Stage =
    | AwaitingTargetReport | TargetReported | DispatchPending | EnRoute
    | GroundGuidancePending | RendezvousReady | IdentityHandshakePending
    | GuidancePackagePending | RouteAcceptancePending | AttackLanePending
    | AttackAuthorizationPending | Engaging | DamageReportPending
    | DamageAssessmentPending | ReconConfirmationPending | TargetDestroyed
    | WithdrawPending | Returning | Completed

  datatype Action =
    | ReportTarget | Dispatch | AcceptDispatch | OrderGroundGuidance | MarkRendezvousReady
    | IdentityHello | IdentityConfirm | SendGuidancePackage | AcceptGuidance
    | ReportAttackReady | AuthorizeAttack | Engage | ReportBattleDamage
    | ConfirmDamageAssessment | ConfirmTargetDestroyed | Withdraw | MarkReturning
    | Unknown(name: string)

  datatype Health = Active | Blocked | Closed | Cancelled

  datatype Entry = Entry(what: string, actor: string, stage: Stage, health: Health, code: string, time: real)

  datatype Binding = Binding(
    side: string, commander: string, recon: string, attack: string, ground: string,
    target: string, correlation: string, route: seq<(real, real)>)

  datatype Task = Task(
    taskId: string, binding: Binding, revision: nat, stage: Stage, health: Health,
    blockCode: string, history: seq<Entry>, createdAt: real, updatedAt: real)

  datatype TaskSet = TaskSet(tasks: map<string, Task>, order: seq<string>)

  datatype Outcome = Rejected(code: string, at: nat) | Accepted(revision: nat)
                   | Waiting(code: string, revision: nat)
  {
    predicate Ok() { !Rejected? }
  }

  /** A command: the task, the revision it was written for, and the action. */
  datatype Command = Command(taskId: string, expected: int, action: Action, destroyed: Option<bool>)

  /* ------------------------------------------------------------------ pure rules */

  predicate Blank(text: string) {
    forall i :: 0 <= i < |text| ==> text[i] in {' ', '\t', '\n', '\r'}
  }

  predicate ValidId(id: string) { !Blank(id) && |id| <= 64 }

  predicate ValidSide(side: string) { side == "red" || side == "blue" }

  predicate ValidBinding(b: Binding) {
    && ValidSide(b.side) && ValidId(b.commander) && ValidId(b.recon) && ValidId(b.attack)
    && ValidId(b.ground) && ValidId(b.target) && ValidId(b.correlation) && |b.route| <= 32
  }

  predicate IsOpen(task: Task) { task.health == Active || task.health == Blocked }

  /** The two bindings compete for a seat or a target. */
  predicate Shares(a: Binding, b: Binding) {
    a.recon == b.recon || a.attack == b.attack || a.ground == b.ground || a.target == b.target
  }

  predicate ValidStageAction(stage: Stage, action: Action) {
    match stage
    case AwaitingTargetReport => action == ReportTarget
    case TargetReported => action == Dispatch
    case DispatchPending => action == AcceptDispatch
    case EnRoute => action == OrderGroundGuidance
    case GroundGuidancePending => action == MarkRendezvousReady
    case RendezvousReady => action == IdentityHello
    case IdentityHandshakePending => action == IdentityConfirm
    case GuidancePackagePending => action == SendGuidancePackage
    case RouteAcceptancePending => action == AcceptGuidance
    case AttackLanePending => action == ReportAttackReady
    case AttackAuthorizationPending => action == AuthorizeAttack
    case Engaging => action == Engage
    case DamageReportPending => action == ReportBattleDamage
    case DamageAssessmentPending => action == ConfirmDamageAssessment
    case ReconConfirmationPending => action == ConfirmTargetDestroyed
    case TargetDestroyed => action == Withdraw
    case WithdrawPending => action == MarkReturning
    case Returning => false
    case Completed => false
  }

  function NextStage(action: Action): Option<Stage> {
    match action
    case ReportTarget => Some(TargetReported)
    case Dispatch => Some(DispatchPending)
    case AcceptDispatch => Some(EnRoute)
    case OrderGroundGuidance => Some(GroundGuidancePending)
    case MarkRendezvousReady => Some(RendezvousReady)
    case IdentityHello => Some(IdentityHandshakePending)
    case IdentityConfirm => Some(GuidancePackagePending)
    case SendGuidancePackage => Some(RouteAcceptancePending)
    case AcceptGuidance => Some(AttackLanePending)
    case ReportAttackReady => Some(AttackAuthorizationPending)
    case AuthorizeAttack => Some(Engaging)
    case Engage => Some(DamageReportPending)
    case ReportBattleDamage => Some(DamageAssessmentPending)
    case ConfirmDamageAssessment => Some(ReconConfirmationPending)
    case ConfirmTargetDestroyed => Some(TargetDestroyed)
    case Withdraw => Some(WithdrawPending)
    case MarkReturning => Some(Returning)
    case Unknown(_) => None
  }

  /** The seat that must issue an action. */
  function SeatFor(b: Binding, action: Action): Option<string> {
    match action
    case ReportTarget => Some(b.recon)
    case ConfirmTargetDestroyed => Some(b.recon)
    case Dispatch => Some(b.commander)
    case OrderGroundGuidance => Some(b.commander)
    case Withdraw => Some(b.commander)
    case AcceptDispatch => Some(b.attack)
    case IdentityHello => Some(b.attack)
    case AcceptGuidance => Some(b.attack)
    case ReportAttackReady => Some(b.attack)
    case Engage => Some(b.attack)
    case ReportBattleDamage => Some(b.attack)
    case MarkReturning => Some(b.attack)
    case MarkRendezvousReady => Some(b.ground)
    case IdentityConfirm => Some(b.ground)
    case SendGuidancePackage => Some(b.ground)
    case AuthorizeAttack => Some(b.ground)
    case ConfirmDamageAssessment => Some(b.ground)
    case Unknown(_) => None
  }

  predicate RoleMatches(b: Binding, action: Action, actor: string) {
    SeatFor(b, action) == Some(actor)
  }

  /** The assessment that sends a task back to engaging. */
  predicate Negative(command: Command) {
    command.action == ConfirmDamageAssessment && command.destroyed == Some(false)
  }

  function LastEntries(history: seq<Entry>): seq<Entry> {
    if |history| <= EVENT_HISTORY_LIMIT then history else history[|history| - EVENT_HISTORY_LIMIT..]
  }

  /** The task after a change: one revision on, with the change in its bounded history. */
  function Recorded(task: Task, what: string, actor: string, now: real, code: string): Task {
    task.(revision := task.revision + 1,
          history := LastEntries(task.history + [Entry(what, actor, task.stage, task.health, code, now)]))
  }

  function Name(action: Action): string {
    match action
    case ReportTarget => "reportTarget"
    case Dispatch => "dispatch"
    case AcceptDispatch => "acceptDispatch"
    case OrderGroundGuidance => "orderGroundGuidance"
    case MarkRendezvousReady => "markRendezvousReady"
    case IdentityHello => "identityHello"
    case IdentityConfirm => "identityConfirm"
    case SendGuidancePackage => "sendGuidancePackage"
    case AcceptGuidance => "acceptGuidance"
    case ReportAttackReady => "reportAttackReady"
    case AuthorizeAttack => "authorizeAttack"
    case Engage => "engage"
    case ReportBattleDamage => "reportBattleDamage"
    case ConfirmDamageAssessment => "confirmDamageAssessment"
    case ConfirmTargetDestroyed => "confirmTargetDestroyed"
    case Withdraw => "withdraw"
    case MarkReturning => "markReturning"
    case Unknown(name) => name
  }

  /* ------------------------------------------------------------------ the operations, as functions of the set */

  function OpenKeys(s: TaskSet, side: string): set<string> {
    set id | id in s.tasks && s.tasks[id].binding.side == side && IsOpen(s.tasks[id])
  }

  predicate Busy(s: TaskSet, b: Binding) {
    exists id :: id in s.tasks && IsOpen(s.tasks[id]) && Shares(s.tasks[id].binding, b)
  }

  predicate Removable(s: TaskSet, id: string) {
    id in s.tasks ==> !IsOpen(s.tasks[id])
  }

  /** The position of the oldest remembered id that names no open task, or the end. */
  function FirstRemovable(s: TaskSet, from: nat): (i: nat)
    requires from <= |s.order|
    ensures from <= i <= |s.order|
    ensures forall j :: from <= j < i ==> !Removable(s, s.order[j])
    ensures i < |s.order| ==> Removable(s, s.order[i])
    decreases |s.order| - from
  {
    if from == |s.order| || Removable(s, s.order[from]) then from else FirstRemovable(s, from + 1)
  }

  function Without(s: TaskSet, i: nat): TaskSet
    requires i < |s.order|
  {
    TaskSet(s.tasks - {s.order[i]}, s.order[..i] + s.order[i + 1..])
  }

  /** Drops the oldest closed tasks until the set fits, or until only open tasks are left. */
  function Evicted(s: TaskSet): TaskSet
    decreases |s.order|
  {
    if |s.tasks| <= HISTORY_LIMIT || FirstRemovable(s, 0) == |s.order| then s
    else Evicted(Without(s, FirstRemovable(s, 0)))
  }

  function NewTask(taskId: string, b: Binding, waiting: bool, now: real): Task {
    Task(taskId, b, 1, AwaitingTargetReport, if waiting then Blocked else Active,
         if waiting then "WAITING_FOR_HUMAN" else "", [], now, now)
  }

  function Updated(s: TaskSet, task: Task): TaskSet {
    s.(tasks := s.tasks[task.taskId := task])
  }

  function Create(s: TaskSet, taskId: string, b: Binding, waiting: bool, now: real): (TaskSet, Outcome) {
    if !ValidId(taskId) || !ValidBinding(b) then (s, Rejected("INVALID_TASK", 0))
    else if taskId in s.tasks then (s, Rejected("DUPLICATE_TASK", 0))
    else if Busy(s, b) then (s, Rejected("RESOURCE_BUSY", 0))
    else if |OpenKeys(s, b.side)| >= ACTIVE_LIMIT_PER_SIDE then (s, Rejected("TASK_LIMIT", 0))
    else
      var task := NewTask(taskId, b, waiting, now);
      var recorded := Recorded(task, "createTask", b.commander, now, task.blockCode);
      var kept := Evicted(TaskSet(s.tasks[taskId := task], s.order + [taskId]));
      (Updated(kept, recorded),
       if waiting then Waiting("OK", recorded.revision) else Accepted(recorded.revision))
  }

  function Apply(s: TaskSet, command: Command, actor: string, placeholders: set<string>, now: real)
    : (TaskSet, Outcome)
  {
    if command.taskId !in s.tasks then (s, Rejected("TASK_NOT_FOUND", 0))
    else
      var task := s.tasks[command.taskId];
      if command.expected != task.revision then (s, Rejected("TASK_REVISION_MISMATCH", task.revision))
      else if !IsOpen(task) then (s, Rejected("TASK_CLOSED", task.revision))
      else if !ValidStageAction(task.stage, command.action)
              || !RoleMatches(task.binding, command.action, actor) then
        (s, Rejected("VMF_SEQUENCE_INVALID", task.revision))
      else if actor in placeholders then
        var held := task.(health := Blocked, blockCode := "WAITING_FOR_HUMAN", updatedAt := now);
        var recorded := Recorded(held, Name(command.action), actor, now, held.blockCode);
        (s.(tasks := s.tasks[command.taskId := recorded]), Waiting(held.blockCode, recorded.revision))
      else
        var stage := if Negative(command) then Engaging else NextStage(command.action).GetOr(task.stage);
        var moved := task.(health := Active, blockCode := "", stage := stage, updatedAt := now);
        var recorded := Recorded(moved, Name(command.action), actor, now, "");
        (s.(tasks := s.tasks[command.taskId := recorded]), Accepted(recorded.revision))
  }

  /** setBlocked and clearBlocked, which do not ask whether the task is still open. */
  function Reopen(s: TaskSet, taskId: string, code: Option<string>, now: real): (TaskSet, Outcome) {
    if taskId !in s.tasks then (s, Rejected("TASK_NOT_FOUND", 0))
    else
      var task := s.tasks[taskId].(health := if code.Some? then Blocked else Active,
                                   blockCode := code.GetOr(""), updatedAt := now);
      var recorded := Recorded(task, if code.Some? then "blocked" else "unblocked", "", now, code.GetOr(""));
      (s.(tasks := s.tasks[taskId := recorded]),
       if code.Some? then Waiting(code.value, recorded.revision) else Accepted(recorded.revision))
  }

  function CompleteReturn(s: TaskSet, taskId: string, now: real): (TaskSet, Outcome) {
    if taskId !in s.tasks || s.tasks[taskId].stage != Returning then (s, Rejected("VMF_SEQUENCE_INVALID", 0))
    else
      var task := s.tasks[taskId].(stage := Completed, health := Closed, updatedAt := now);
      var recorded := Recorded(task, "completeReturn", "", now, "");
      (s.(tasks := s.tasks[taskId := recorded]), Accepted(recorded.revision))
  }

  lemma CountOne<T>(all: set<T>, left: set<T>, one: T)
    requires one in left
    ensures |all - (left - {one})| == |all - left| + if one in all then 1 else 0
  {
    assert all - (left - {one}) == (all - left) + if one in all then {one} else {};
  }

  /* ------------------------------------------------------------------ the class */

  class StrictVmfTaskSet {
    var tasks: map<string, Task>
    var historyOrder: seq<string>

    function State(): TaskSet
      reads this
    {
      TaskSet(tasks, historyOrder)
    }

    constructor ()
      ensures State() == TaskSet(map[], [])
    {
      tasks, historyOrder := map[], [];
    }

    /** Whether an open task holds a resource of the binding, and the open tasks of its side. */
    method Survey(b: Binding) returns (busy: bool, active: nat)
      ensures busy == Busy(State(), b)
      ensures !busy ==> active == |OpenKeys(State(), b.side)|
    {
      busy, active := false, 0;
      var left := tasks.Keys;
      while left != {}
        invariant left <= tasks.Keys && active == |OpenKeys(State(), b.side) - left|
        invariant forall id :: id in tasks && id !in left && IsOpen(tasks[id]) ==>
                    !Shares(tasks[id].binding, b)
        decreases left
      {
        var id :| id in left;
        CountOne(OpenKeys(State(), b.side), left, id);
        left := left - {id};
        if tasks[id].binding.side == b.side && IsOpen(tasks[id]) { active := active + 1; }
        if IsOpen(tasks[id]) && Shares(tasks[id].binding, b) { return true, active; }
      }
    }

    method FindRemovable() returns (removable: nat)
      ensures removable == FirstRemovable(State(), 0)
    {
      removable := 0;
      while removable < |historyOrder|
           && historyOrder[removable] in tasks && IsOpen(tasks[historyOrder[removable]])
        invariant 0 <= removable <= |historyOrder|
        invariant FirstRemovable(State(), removable) == FirstRemovable(State(), 0)
      {
        removable := removable + 1;
      }
    }

    method Evict()
      modifies this
      ensures State() == Evicted(old(State()))
    {
      while |tasks| > HISTORY_LIMIT
        invariant Evicted(State()) == Evicted(old(State()))
        decreases |historyOrder|
      {
        var removable := FindRemovable();
        if removable == |historyOrder| { break; }
        tasks := tasks - {historyOrder[removable]};
        historyOrder := historyOrder[..removable] + historyOrder[removable + 1..];
      }
    }

    method CreateTask(taskId: string, b: Binding, waitingForHuman: bool, now: real) returns (r: Outcome)
      modifies this
      ensures (State(), r) == Create(old(State()), taskId, b, waitingForHuman, now)
    {
      if !ValidId(taskId) || !ValidBinding(b) { return Rejected("INVALID_TASK", 0); }
      if taskId in tasks { return Rejected("DUPLICATE_TASK", 0); }
      var busy, active := Survey(b);
      if busy { return Rejected("RESOURCE_BUSY", 0); }
      if active >= ACTIVE_LIMIT_PER_SIDE { return Rejected("TASK_LIMIT", 0); }
      var task := NewTask(taskId, b, waitingForHuman, now);
      tasks := tasks[taskId := task];
      historyOrder := historyOrder + [taskId];
      Evict();
      task := Recorded(task, "createTask", b.commander, now, task.blockCode);
      tasks := tasks[taskId := task];
      r := if waitingForHuman then Waiting("OK", task.revision) else Accepted(task.revision);
    }

    method ApplyAction(command: Command, actor: string, placeholders: set<string>, now: real)
      returns (r: Outcome)
      modifies this
      ensures (State(), r) == Apply(old(State()), command, actor, placeholders, now)
    {
      if command.taskId !in tasks { return Rejected("TASK_NOT_FOUND", 0); }
      var task := tasks[command.taskId];
      if command.expected != task.revision { return Rejected("TASK_REVISION_MISMATCH", task.revision); }
      if task.health == Closed || task.health == Cancelled { return Rejected("TASK_CLOSED", task.revision); }
      if !ValidStageAction(task.stage, command.action) || !RoleMatches(task.binding, command.action, actor) {
        return Rejected("VMF_SEQUENCE_INVALID", task.revision);
      }
      task := task.(updatedAt := now);
      if actor in placeholders {
        task := task.(health := Blocked, blockCode := "WAITING_FOR_HUMAN");
        task := Recorded(task, Name(command.action), actor, now, task.blockCode);
        r := Waiting(task.blockCode, task.revision);
      } else {
        task := task.(health := Active, blockCode := "");
        if Negative(command) {
          task := task.(stage := Engaging);
        } else {
          task := task.(stage := NextStage(command.action).GetOr(task.stage));
        }
        task := Recorded(task, Name(command.action), actor, now, "");
        r := Accepted(task.revision);
      }
      tasks := tasks[command.taskId := task];
    }

    method SetBlocked(taskId: string, code: string, now: real) returns (r: Outcome)
      modifies this
      ensures (State(), r) == Reopen(old(State()), taskId, Some(code), now)
    {
      if taskId !in tasks { return Rejected("TASK_NOT_FOUND", 0); }
      var task := tasks[taskId].(health := Blocked, blockCode := code, updatedAt := now);
      task := Recorded(task, "blocked", "", now, code);
      tasks := tasks[taskId := task];
      r := Waiting(code, task.revision);
    }

    method ClearBlocked(taskId: string, now: real) returns (r: Outcome)
      modifies this
      ensures (State(), r) == Reopen(old(State()), taskId, None, now)
    {
      if taskId !in tasks { return Rejected("TASK_NOT_FOUND", 0); }
      var task := tasks[taskId].(health := Active, blockCode := "", updatedAt := now);
      task := Recorded(task, "unblocked", "", now, "");
      tasks := tasks[taskId := task];
      r := Accepted(task.revision);
    }

    method CompleteReturnLeg(taskId: string, now: real) returns (r: Outcome)
      modifies this
      ensures (State(), r) == CompleteReturn(old(State()), taskId, now)
    {
      if taskId !in tasks || tasks[taskId].stage != Returning { return Rejected("VMF_SEQUENCE_INVALID", 0); }
      var task := tasks[taskId].(stage := Completed, health := Closed, updatedAt := now);
      task := Recorded(task, "completeReturn", "", now, "");
      tasks := tasks[taskId := task];
      r := Accepted(task.revision);
    }
  }

  /* ------------------------------------------------------------------ safety of the set */

  /** The order list names each of these keys once and nothing else. */
  ghost predicate Ordered(order: seq<string>, keys: set<string>) {
    Lists(order, keys)
  }

  ghost predicate KeyedTask(id: string, task: Task) {
    task.taskId == id && ValidSide(task.binding.side)
  }

  ghost predicate Keyed(tasks: map<string, Task>) {
    forall id :: id in tasks ==> KeyedTask(id, tasks[id])
  }

  predicate Clash(a: Task, b: Task) {
    IsOpen(a) && IsOpen(b) && Shares(a.binding, b.binding)
  }

  /** No two open tasks share a recon, attack or ground seat, or a target. */
  ghost predicate Exclusive(tasks: map<string, Task>) {
    forall a, b :: a in tasks && b in tasks && a != b ==> !Clash(tasks[a], tasks[b])
  }

  ghost predicate WithinLimits(s: TaskSet) {
    && |OpenKeys(s, "red")| <= ACTIVE_LIMIT_PER_SIDE
    && |OpenKeys(s, "blue")| <= ACTIVE_LIMIT_PER_SIDE
  }

  ghost predicate Sound(s: TaskSet) {
    Ordered(s.order, s.tasks.Keys) && Keyed(s.tasks) && Exclusive(s.tasks) && WithinLimits(s)
  }

  ghost predicate Safe(s: TaskSet) {
    Sound(s) && |s.tasks| <= HISTORY_LIMIT
  }

  lemma SubsetCard<T>(a: set<T>, b: set<T>)
    requires a <= b
    ensures |a| <= |b|
  {
    assert b == a + (b - a);
  }

  lemma FewerOpen(s: TaskSet, t: TaskSet)
    requires WithinLimits(s)
    requires forall id :: id in t.tasks && IsOpen(t.tasks[id]) ==>
      id in s.tasks && IsOpen(s.tasks[id]) && t.tasks[id].binding == s.tasks[id].binding
    ensures WithinLimits(t)
  {
    SubsetCard(OpenKeys(t, "red"), OpenKeys(s, "red"));
    SubsetCard(OpenKeys(t, "blue"), OpenKeys(s, "blue"));
  }

  /** By pigeonhole a set over the limit holds a closed task, so eviction always finds one. */
  lemma SomethingIsRemovable(s: TaskSet)
    requires Sound(s) && |s.tasks| > 2 * ACTIVE_LIMIT_PER_SIDE
    ensures FirstRemovable(s, 0) < |s.order|
  {
    var open := OpenKeys(s, "red") + OpenKeys(s, "blue");
    if s.tasks.Keys <= open {
      SubsetCard(s.tasks.Keys, open);
    } else {
      var id :| id in s.tasks && id !in open;
      assert KeyedTask(id, s.tasks[id]) && id in Elements(s.order);
      var j :| 0 <= j < |s.order| && s.order[j] == id;
      assert Removable(s, s.order[j]);
    }
  }

  lemma RemoveAt(order: seq<string>, i: nat)
    requires NoRepeats(order) && i < |order|
    ensures Ordered(order[..i] + order[i + 1..], Elements(order) - {order[i]})
  {
    var rest := order[..i] + order[i + 1..];
    forall id ensures id in rest <==> id in order && id != order[i] {
      if id in order && id != order[i] {
        var j :| 0 <= j < |order| && order[j] == id;
        assert rest[if j < i then j else j - 1] == id;
      }
    }
  }

  lemma WithoutOne(s: TaskSet, i: nat)
    requires Sound(s) && i < |s.order| && Removable(s, s.order[i])
    ensures KeepsOpen(s, Without(s, i))
    ensures Sound(Without(s, i)) && |Without(s, i).tasks| == |s.tasks| - 1
  {
    var t := Without(s, i);
    RemoveAt(s.order, i);
    assert s.order[i] in Elements(s.order);
    assert t.tasks.Keys == s.tasks.Keys - {s.order[i]};
    FewerOpen(s, t);
  }

  /** Task set t holds tasks of s only, unchanged, and all of those that are open. */
  ghost predicate KeepsOpen(s: TaskSet, t: TaskSet) {
    && (forall id :: id in t.tasks ==> id in s.tasks && t.tasks[id] == s.tasks[id])
    && (forall id :: id in s.tasks && IsOpen(s.tasks[id]) ==> id in t.tasks)
  }

  lemma KeepsOpenTwice(s: TaskSet, t: TaskSet, u: TaskSet)
    requires KeepsOpen(s, t) && KeepsOpen(t, u)
    ensures KeepsOpen(s, u)
  {
  }

  /** Eviction ends with a safe set and never removes an open task. */
  lemma {:induction false} EvictionIsSafe(s: TaskSet)
    requires Sound(s)
    ensures Safe(Evicted(s)) && KeepsOpen(s, Evicted(s))
    decreases |s.order|
  {
    if |s.tasks| > HISTORY_LIMIT {
      SomethingIsRemovable(s);
      var i := FirstRemovable(s, 0);
      var t := Without(s, i);
      WithoutOne(s, i);
      EvictionIsSafe(t);
      KeepsOpenTwice(s, t, Evicted(t));
      assert Evicted(s) == Evicted(t);
    }
  }

  lemma KeyedUpdate(tasks: map<string, Task>, id: string, task: Task)
    requires Keyed(tasks) && KeyedTask(id, task)
    ensures Keyed(tasks[id := task])
  {
  }

  /** A later version of a task may replace it if it keeps the binding and opens nothing. */
  lemma ReplaceIsSafe(s: TaskSet, id: string, task: Task, t: TaskSet)
    requires Safe(s) && id in s.tasks && task.taskId == id && task.binding == s.tasks[id].binding
    requires IsOpen(task) ==> IsOpen(s.tasks[id])
    requires t == s.(tasks := s.tasks[id := task])
    ensures Safe(t)
  {
    assert t.tasks.Keys == s.tasks.Keys;
    FewerOpen(s, t);
    assert KeyedTask(id, s.tasks[id]);
    KeyedUpdate(s.tasks, id, task);
    forall a, b | a in t.tasks && b in t.tasks && a != b ensures !Clash(t.tasks[a], t.tasks[b]) {
      assert !Clash(s.tasks[a], s.tasks[b]);
    }
  }

  lemma AppendOne(order: seq<string>, id: string)
    requires NoRepeats(order) && id !in Elements(order)
    ensures Ordered(order + [id], Elements(order) + {id})
  {
    forall x ensures x in order + [id] <==> x in order || x == id {
      if x == id { assert (order + [id])[|order|] == x; }
    }
  }

  /** Adding an open task whose resources are free and whose side has room. */
  lemma AddIsSound(s: TaskSet, task: Task)
    requires Sound(s) && task.taskId !in s.tasks && ValidSide(task.binding.side)
    requires !Busy(s, task.binding) && |OpenKeys(s, task.binding.side)| < ACTIVE_LIMIT_PER_SIDE
    ensures Sound(TaskSet(s.tasks[task.taskId := task], s.order + [task.taskId]))
  {
    var t := TaskSet(s.tasks[task.taskId := task], s.order + [task.taskId]);
    AppendOne(s.order, task.taskId);
    assert t.tasks.Keys == s.tasks.Keys + {task.taskId};
    OpenAfterAdding(s, t, task, "red");
    OpenAfterAdding(s, t, task, "blue");
    KeyedUpdate(s.tasks, task.taskId, task);
  }

  lemma OpenAfterAdding(s: TaskSet, t: TaskSet, task: Task, side: string)
    requires t.tasks == s.tasks[task.taskId := task]
    ensures |OpenKeys(t, side)|
            <= |OpenKeys(s, side)| + if side == task.binding.side then 1 else 0
  {
    SubsetCard(OpenKeys(t, side),
               OpenKeys(s, side) + if side == task.binding.side then {task.taskId} else {});
  }

  /** The set a successful creation leaves: some tasks kept, and the new one. */
  lemma CreateIsEviction(s: TaskSet, taskId: string, b: Binding, waiting: bool, now: real) returns (kept: TaskSet)
    requires Safe(s) && Create(s, taskId, b, waiting, now).1.Ok()
    ensures Safe(kept) && taskId in kept.tasks
    ensures KeepsOpen(TaskSet(s.tasks[taskId := NewTask(taskId, b, waiting, now)], s.order + [taskId]), kept)
    ensures var task := NewTask(taskId, b, waiting, now);
      Create(s, taskId, b, waiting, now).0
      == kept.(tasks := kept.tasks[taskId := Recorded(task, "createTask", b.commander, now, task.blockCode)])
  {
    var task := NewTask(taskId, b, waiting, now);
    var grown := TaskSet(s.tasks[taskId := task], s.order + [taskId]);
    AddIsSound(s, task);
    EvictionIsSafe(grown);
    kept := Evicted(grown);
    assert grown.tasks[taskId] == task;
  }

  /** Creating a task keeps the set safe; if it succeeds, the task is open and no open task has gone. */
  lemma CreateIsSafe(s: TaskSet, taskId: string, b: Binding, waiting: bool, now: real)
    requires Safe(s)
    ensures Safe(Create(s, taskId, b, waiting, now).0)
    ensures Create(s, taskId, b, waiting, now).1.Ok() ==>
      var t := Create(s, taskId, b, waiting, now).0;
      && taskId !in s.tasks && taskId in t.tasks
      && IsOpen(t.tasks[taskId]) && t.tasks[taskId].binding == b
      && KeepsOpen(s, t.(tasks := t.tasks - {taskId}))
  {
    if Create(s, taskId, b, waiting, now).1.Ok() {
      var kept := CreateIsEviction(s, taskId, b, waiting, now);
      var task := NewTask(taskId, b, waiting, now);
      var later := Recorded(task, "createTask", b.commander, now, task.blockCode);
      ReplaceIsSafe(kept, taskId, later, Create(s, taskId, b, waiting, now).0);
      KeepsOthers(s, taskId, task, kept, later);
    }
  }

  lemma KeepsOthers(s: TaskSet, id: string, added: Task, kept: TaskSet, later: Task)
    requires id !in s.tasks && KeepsOpen(TaskSet(s.tasks[id := added], s.order + [id]), kept)
    ensures KeepsOpen(s, kept.(tasks := kept.tasks[id := later] - {id}))
  {
  }

  /** What setBlocked and clearBlocked leave unasked: whether a closed task may be open again. */
  predicate MayBeOpen(s: TaskSet, taskId: string)
    requires taskId in s.tasks
  {
    var b := s.tasks[taskId].binding;
    || IsOpen(s.tasks[taskId])
    || (!Busy(s, b) && |OpenKeys(s, b.side)| < ACTIVE_LIMIT_PER_SIDE)
  }

  /** Blocking or unblocking keeps the set safe exactly when the task is open or could be created. */
  lemma ReopenIsSafeIff(s: TaskSet, taskId: string, code: Option<string>, now: real)
    requires Safe(s) && taskId in s.tasks
    ensures Safe(Reopen(s, taskId, code, now).0) <==> MayBeOpen(s, taskId)
  {
    var t, b := Reopen(s, taskId, code, now).0, s.tasks[taskId].binding;
    assert KeyedTask(taskId, s.tasks[taskId]);
    if IsOpen(s.tasks[taskId]) {
      ReplaceIsSafe(s, taskId, t.tasks[taskId], t);
    } else {
      ReopenClosed(s, taskId, t.tasks[taskId], t);
    }
  }

  lemma ReopenClosed(s: TaskSet, id: string, task: Task, t: TaskSet)
    requires Safe(s) && id in s.tasks && !IsOpen(s.tasks[id])
    requires task.taskId == id && task.binding == s.tasks[id].binding && IsOpen(task)
    requires t == s.(tasks := s.tasks[id := task])
    ensures Safe(t) <==>
      !Busy(s, task.binding) && |OpenKeys(s, task.binding.side)| < ACTIVE_LIMIT_PER_SIDE
  {
    assert t.tasks.Keys == s.tasks.Keys;
    assert KeyedTask(id, s.tasks[id]);
    KeyedUpdate(s.tasks, id, task);
    ReopenExclusive(s, id, task);
    OpenAfterReopening(s, t, task, "red");
    OpenAfterReopening(s, t, task, "blue");
    assert Safe(t) <==> Exclusive(t.tasks) && WithinLimits(t);
  }

  lemma OpenAfterReopening(s: TaskSet, t: TaskSet, task: Task, side: string)
    requires task.taskId in s.tasks && !IsOpen(s.tasks[task.taskId]) && IsOpen(task)
    requires t.tasks == s.tasks[task.taskId := task]
    ensures |OpenKeys(t, side)| == |OpenKeys(s, side)| + if side == task.binding.side then 1 else 0
  {
    assert OpenKeys(t, side)
        == OpenKeys(s, side) + if side == task.binding.side then {task.taskId} else {};
  }

  lemma ReopenExclusive(s: TaskSet, id: string, task: Task)
    requires Exclusive(s.tasks) && id in s.tasks && !IsOpen(s.tasks[id]) && IsOpen(task)
    ensures Exclusive(s.tasks[id := task]) <==> !Busy(s, task.binding)
  {
    var t := s.tasks[id := task];
    if Busy(s, task.binding) {
      var other :| other in s.tasks && IsOpen(s.tasks[other]) && Shares(s.tasks[other].binding, task.binding);
      assert other != id && Clash(t[other], t[id]);
    } else {
      forall x, y | x in t && y in t && x != y ensures !Clash(t[x], t[y]) {
        assert !Clash(s.tasks[x], s.tasks[y]);
      }
    }
  }

  /* ------------------------------------------------------------------ whole runs */

  /** One accepted stage change of a task. */
  datatype Advance = Advance(action: Action, actor: string, negative: bool)

  datatype Call =
    | DoCreate(taskId: string, b: Binding, waiting: bool, now: real)
    | DoApply(command: Command, actor: string, placeholders: set<string>, now: real)
    | DoReopen(taskId: string, code: Option<string>, now: real)
    | DoComplete(taskId: string, now: real)

  function Target(call: Call): string {
    match call
    case DoCreate(id, _, _, _) => id
    case DoApply(command, _, _, _) => command.taskId
    case DoReopen(id, _, _) => id
    case DoComplete(id, _) => id
  }

  function Do(s: TaskSet, call: Call): (TaskSet, Outcome) {
    match call
    case DoCreate(id, b, waiting, now) => Create(s, id, b, waiting, now)
    case DoApply(command, actor, placeholders, now) => Apply(s, command, actor, placeholders, now)
    case DoReopen(id, code, now) => Reopen(s, id, code, now)
    case DoComplete(id, now) => CompleteReturn(s, id, now)
  }

  /** The task set and, for each task, the stage changes since it was created. */
  datatype Tracked = Tracked(s: TaskSet, log: map<string, seq<Advance>>)

  function LogOf(t: Tracked, id: string): seq<Advance> { if id in t.log then t.log[id] else [] }

  function Logged(t: Tracked, call: Call, outcome: Outcome): map<string, seq<Advance>> {
    if call.DoCreate? && outcome.Ok() then t.log[call.taskId := []]
    else if call.DoApply? && outcome.Accepted? then
      t.log[call.command.taskId := LogOf(t, call.command.taskId)
            + [Advance(call.command.action, call.actor, Negative(call.command))]]
    else t.log
  }

  /** Blocking and unblocking only where the task may be open. */
  ghost predicate Allowed(s: TaskSet, call: Call) {
    call.DoReopen? && call.taskId in s.tasks ==> MayBeOpen(s, call.taskId)
  }

  ghost predicate Follows(t: Tracked, call: Call, outcome: Outcome, t': Tracked) {
    Allowed(t.s, call) && (t'.s, outcome) == Do(t.s, call) && t'.log == Logged(t, call, outcome)
  }

  ghost predicate Run(states: seq<Tracked>, calls: seq<Call>, outcomes: seq<Outcome>) {
    && |states| == |calls| + 1 == |outcomes| + 1
    && states[0] == Tracked(TaskSet(map[], []), map[])
    && forall k :: 0 <= k < |calls| ==> StepAt(states, calls, outcomes, k)
  }

  ghost predicate StepAt(states: seq<Tracked>, calls: seq<Call>, outcomes: seq<Outcome>, k: nat)
    requires k < |calls| && |states| == |calls| + 1 == |outcomes| + 1
  {
    Follows(states[k], calls[k], outcomes[k], states[k + 1])
  }

  const PRELUDE: seq<Action> :=
    [ReportTarget, Dispatch, AcceptDispatch, OrderGroundGuidance, MarkRendezvousReady, IdentityHello,
     IdentityConfirm, SendGuidancePackage, AcceptGuidance, ReportAttackReady, AuthorizeAttack]

  const ROUND: seq<Action> := [Engage, ReportBattleDamage, ConfirmDamageAssessment]

  const CLOSING: seq<Action> := [ConfirmTargetDestroyed, Withdraw, MarkReturning]

  function Rounds(n: nat): seq<Action> {
    if n == 0 then [] else Rounds(n - 1) + ROUND
  }

  /** The chain of a task whose target survived n assessments: n + 1 strikes in all. */
  function Chain(n: nat): seq<Action> { PRELUDE + Rounds(n + 1) + CLOSING }

  /** How much of the prelude lies before a stage. */
  function Rank(stage: Stage): nat {
    match stage
    case AwaitingTargetReport => 0
    case TargetReported => 1
    case DispatchPending => 2
    case EnRoute => 3
    case GroundGuidancePending => 4
    case RendezvousReady => 5
    case IdentityHandshakePending => 6
    case GuidancePackagePending => 7
    case RouteAcceptancePending => 8
    case AttackLanePending => 9
    case AttackAuthorizationPending => 10
    case _ => 11
  }

  predicate BeforeStrike(stage: Stage) { Rank(stage) < |PRELUDE| }

  /** The actions of a strike and its aftermath that lead to a stage, after n negative assessments. */
  function StrikeTo(stage: Stage, n: nat): seq<Action> {
    match stage
    case Engaging => Rounds(n)
    case DamageReportPending => Rounds(n) + ROUND[..1]
    case DamageAssessmentPending => Rounds(n) + ROUND[..2]
    case ReconConfirmationPending => Rounds(n + 1)
    case TargetDestroyed => Rounds(n + 1) + CLOSING[..1]
    case WithdrawPending => Rounds(n + 1) + CLOSING[..2]
    case Returning => Rounds(n + 1) + CLOSING
    case Completed => Rounds(n + 1) + CLOSING
    case _ => []
  }

  /** The actions that lead to a stage after n negative assessments. */
  function ChainTo(stage: Stage, n: nat): seq<Action> {
    if BeforeStrike(stage) then PRELUDE[..Rank(stage)] else PRELUDE + StrikeTo(stage, n)
  }

  function Actions(log: seq<Advance>): (actions: seq<Action>)
    ensures |actions| == |log|
  {
    if log == [] then [] else Actions(log[..|log| - 1]) + [log[|log| - 1].action]
  }

  function Negatives(log: seq<Advance>): nat {
    if log == [] then 0
    else Negatives(log[..|log| - 1]) + if log[|log| - 1].negative then 1 else 0
  }

  ghost predicate BySeats(b: Binding, log: seq<Advance>) {
    forall k :: 0 <= k < |log| ==> SeatFor(b, log[k].action) == Some(log[k].actor)
  }

  /** The log of a task is the chain to its stage, walked by the seats bound to it. */
  ghost predicate OnChain(task: Task, log: seq<Advance>) {
    && Actions(log) == ChainTo(task.stage, Negatives(log))
    && (BeforeStrike(task.stage) ==> Negatives(log) == 0)
    && BySeats(task.binding, log)
  }

  lemma AdvanceOnChain(task: Task, log: seq<Advance>, command: Command, actor: string, stage: Stage)
    requires OnChain(task, log)
    requires ValidStageAction(task.stage, command.action) && RoleMatches(task.binding, command.action, actor)
    requires stage == if Negative(command) then Engaging else NextStage(command.action).GetOr(task.stage)
    ensures OnChain(task.(stage := stage), log + [Advance(command.action, actor, Negative(command))])
  {
    var log' := log + [Advance(command.action, actor, Negative(command))];
    assert log'[..|log'| - 1] == log;
    assert Actions(log') == ChainTo(task.stage, Negatives(log)) + [command.action];
    ChainStep(task.stage, Negatives(log), command, stage);
  }

  lemma ChainStep(from: Stage, n: nat, command: Command, to: Stage)
    requires ValidStageAction(from, command.action)
    requires to == if Negative(command) then Engaging else NextStage(command.action).GetOr(from)
    requires BeforeStrike(from) ==> n == 0
    ensures ChainTo(from, n) + [command.action] == ChainTo(to, n + if Negative(command) then 1 else 0)
  {
    if BeforeStrike(from) {
      PreludeStep(from, command.action, to);
    } else {
      StrikeStep(from, n, command, to);
    }
  }

  lemma PreludeStep(from: Stage, action: Action, to: Stage)
    requires ValidStageAction(from, action) && BeforeStrike(from) && NextStage(action) == Some(to)
    ensures PRELUDE[Rank(from)] == action && Rank(to) == Rank(from) + 1
    ensures ChainTo(from, 0) + [action] == ChainTo(to, 0)
  {
    assert PRELUDE[..Rank(from)] + [PRELUDE[Rank(from)]] == PRELUDE[..Rank(from) + 1];
    assert Rank(to) == |PRELUDE| ==> to == Engaging && PRELUDE[..|PRELUDE|] == PRELUDE + [];
  }

  lemma StrikeStep(from: Stage, n: nat, command: Command, to: Stage)
    requires ValidStageAction(from, command.action) && !BeforeStrike(from)
    requires to == if Negative(command) then Engaging else NextStage(command.action).GetOr(from)
    ensures !BeforeStrike(to)
    ensures StrikeTo(from, n) + [command.action] == StrikeTo(to, n + if Negative(command) then 1 else 0)
  {
    assert Rounds(n + 1) == Rounds(n) + ROUND;
    assert ROUND[..1] == [Engage] && ROUND[..2] == [Engage] + [ReportBattleDamage];
    assert ROUND == ROUND[..2] + [ConfirmDamageAssessment];
    assert CLOSING[..2] == CLOSING[..1] + [Withdraw] && CLOSING == CLOSING[..2] + [MarkReturning];
  }

  ghost predicate Tracks(t: Tracked, id: string)
    requires id in t.s.tasks
  {
    id in t.log && OnChain(t.s.tasks[id], t.log[id])
  }

  ghost predicate Consistent(t: Tracked) {
    Safe(t.s) && forall id :: id in t.s.tasks ==> Tracks(t, id)
  }

  /** How a successful call other than a creation changes its task. */
  ghost predicate Moves(call: Call, outcome: Outcome, old_: Task, task: Task) {
    && task.taskId == old_.taskId && task.binding == old_.binding
    && task.revision == old_.revision + 1
    && match call
       case DoCreate(_, _, _, _) => false
       case DoApply(command, actor, _, _) =>
         && command.expected == old_.revision && IsOpen(old_)
         && ValidStageAction(old_.stage, command.action) && RoleMatches(old_.binding, command.action, actor)
         && task.stage == if outcome.Waiting? then old_.stage
                          else if Negative(command) then Engaging
                          else NextStage(command.action).GetOr(old_.stage)
       case DoReopen(_, _, _) => task.stage == old_.stage
       case DoComplete(_, _) => old_.stage == Returning && task.stage == Completed && !IsOpen(task)
  }

  /** How a call changes the set. */
  ghost predicate Changed(s: TaskSet, call: Call, outcome: Outcome, s': TaskSet) {
    var id := Target(call);
    if !outcome.Ok() then s' == s
    else if call.DoCreate? then
      && id !in s.tasks && id in s'.tasks && s'.tasks[id].stage == AwaitingTargetReport
      && KeepsOpen(s, s'.(tasks := s'.tasks - {id}))
    else
      && id in s.tasks && id in s'.tasks && Moves(call, outcome, s.tasks[id], s'.tasks[id])
      && s' == s.(tasks := s.tasks[id := s'.tasks[id]])
  }

  lemma CallIsChange(s: TaskSet, call: Call)
    requires Safe(s)
    ensures Changed(s, call, Do(s, call).1, Do(s, call).0)
  {
    if call.DoCreate? {
      CreateIsChange(s, call.taskId, call.b, call.waiting, call.now);
    } else if Target(call) in s.tasks {
      assert KeyedTask(Target(call), s.tasks[Target(call)]);
      OtherIsChange(s, call, Do(s, call).1, Do(s, call).0);
    }
  }

  lemma OtherIsChange(s: TaskSet, call: Call, outcome: Outcome, s': TaskSet)
    requires !call.DoCreate? && Target(call) in s.tasks
    requires s.tasks[Target(call)].taskId == Target(call)
    requires (s', outcome) == Do(s, call)
    ensures Changed(s, call, outcome, s')
  {
    var id := Target(call);
    if outcome.Ok() {
      var task := s'.tasks[id];
      assert s' == s.(tasks := s.tasks[id := task]);
      assert Moves(call, outcome, s.tasks[id], task);
    }
  }

  lemma CreateIsChange(s: TaskSet, id: string, b: Binding, waiting: bool, now: real)
    requires Safe(s)
    ensures Changed(s, DoCreate(id, b, waiting, now), Create(s, id, b, waiting, now).1,
                    Create(s, id, b, waiting, now).0)
  {
    CreateIsSafe(s, id, b, waiting, now);
    if Create(s, id, b, waiting, now).1.Ok() {
      var kept := CreateIsEviction(s, id, b, waiting, now);
    }
  }

  lemma CallIsSafe(s: TaskSet, call: Call)
    requires Safe(s) && Allowed(s, call)
    ensures Safe(Do(s, call).0)
  {
    var id := Target(call);
    var t := Do(s, call).0;
    if call.DoCreate? {
      CreateIsSafe(s, id, call.b, call.waiting, call.now);
    } else if call.DoReopen? {
      if id in s.tasks { ReopenIsSafeIff(s, id, call.code, call.now); }
    } else if t != s {
      assert KeyedTask(id, s.tasks[id]);
      ReplaceIsSafe(s, id, t.tasks[id], t);
    }
  }

  lemma ChangeTracks(t: Tracked, call: Call, outcome: Outcome, t': Tracked, id: string)
    requires Changed(t.s, call, outcome, t'.s) && t'.log == Logged(t, call, outcome)
    requires forall x :: x in t.s.tasks ==> Tracks(t, x)
    requires id in t'.s.tasks
    ensures Tracks(t', id)
  {
    if id != Target(call) || !outcome.Ok() {
      assert id in t.s.tasks by {
        if call.DoCreate? && outcome.Ok() { assert id in (t'.s.tasks - {Target(call)}); }
      }
      assert Tracks(t, id);
    } else if !call.DoCreate? {
      assert Tracks(t, id);
      MoveTracks(t.s.tasks[id], call, outcome, t'.s.tasks[id], t.log[id]);
    }
  }

  lemma MoveTracks(before: Task, call: Call, outcome: Outcome, after: Task, log: seq<Advance>)
    requires Moves(call, outcome, before, after) && outcome.Ok() && OnChain(before, log)
    ensures OnChain(after, if call.DoApply? && outcome.Accepted? then
                             log + [Advance(call.command.action, call.actor, Negative(call.command))]
                           else log)
  {
    if call.DoApply? && outcome.Accepted? {
      AdvanceOnChain(before, log, call.command, call.actor, after.stage);
    }
  }

  lemma FollowsIsConsistent(t: Tracked, call: Call, outcome: Outcome, t': Tracked)
    requires Consistent(t) && Follows(t, call, outcome, t')
    ensures Consistent(t') && Changed(t.s, call, outcome, t'.s)
  {
    CallIsSafe(t.s, call);
    CallIsChange(t.s, call);
    forall id | id in t'.s.tasks ensures Tracks(t', id) {
      ChangeTracks(t, call, outcome, t', id);
    }
  }

  ghost predicate ConsistentUpTo(states: seq<Tracked>, n: nat)
    requires n < |states|
  {
    forall k :: 0 <= k <= n ==> Consistent(states[k])
  }

  lemma EmptyIsConsistent(t: Tracked)
    requires t == Tracked(TaskSet(map[], []), map[])
    ensures Consistent(t)
  {
    assert OpenKeys(t.s, "red") == {} && OpenKeys(t.s, "blue") == {};
  }

  lemma StepIsConsistent(states: seq<Tracked>, calls: seq<Call>, outcomes: seq<Outcome>, n: nat)
    requires Run(states, calls, outcomes) && n < |calls| && ConsistentUpTo(states, n)
    ensures ConsistentUpTo(states, n + 1)
    ensures Changed(states[n].s, calls[n], outcomes[n], states[n + 1].s)
    ensures states[n + 1].log == Logged(states[n], calls[n], outcomes[n])
  {
    assert StepAt(states, calls, outcomes, n);
    FollowsIsConsistent(states[n], calls[n], outcomes[n], states[n + 1]);
  }

  /** Over every run the set is safe and every task's log is the chain to its stage. */
  lemma {:induction false} RunIsConsistent(states: seq<Tracked>, calls: seq<Call>, outcomes: seq<Outcome>, n: nat)
    requires Run(states, calls, outcomes) && n <= |calls|
    ensures ConsistentUpTo(states, n)
  {
    if n == 0 {
      EmptyIsConsistent(states[0]);
    } else {
      RunIsConsistent(states, calls, outcomes, n - 1);
      StepIsConsistent(states, calls, outcomes, n - 1);
    }
  }

  function Count(actions: seq<Action>, a: Action): nat {
    if actions == [] then 0
    else Count(actions[..|actions| - 1], a) + if actions[|actions| - 1] == a then 1 else 0
  }

  lemma {:induction false} CountConcat(x: seq<Action>, y: seq<Action>, a: Action)
    ensures Count(x + y, a) == Count(x, a) + Count(y, a)
  {
    if y == [] {
      assert x + y == x;
    } else {
      assert (x + y)[..|x + y| - 1] == x + y[..|y| - 1];
      CountConcat(x, y[..|y| - 1], a);
    }
  }

  lemma {:induction false} CountAbsent(actions: seq<Action>, a: Action)
    requires a !in actions
    ensures Count(actions, a) == 0
  {
    if actions != [] { CountAbsent(actions[..|actions| - 1], a); }
  }

  lemma {:induction false} EngagementsOf(n: nat)
    ensures Count(Rounds(n), Engage) == n
  {
    if n > 0 {
      EngagementsOf(n - 1);
      CountConcat(Rounds(n - 1), ROUND, Engage);
      OneEngagement();
    }
  }

  lemma OneEngagement()
    ensures Count(ROUND, Engage) == 1
  {
    assert ROUND[..2] == [Engage, ReportBattleDamage] && ROUND[..2][..1] == [Engage];
    assert Count([Engage], Engage) == 1;
  }

  lemma NoOtherEngagement()
    ensures Count(PRELUDE, Engage) == 0 && Count(CLOSING, Engage) == 0
  {
    CountAbsent(PRELUDE, Engage);
    CountAbsent(CLOSING, Engage);
  }

  lemma ChainEngagements(n: nat)
    ensures Count(Chain(n), Engage) == n + 1
  {
    var rounds := Rounds(n + 1);
    EngagementsOf(n + 1);
    CountConcat(PRELUDE + rounds, CLOSING, Engage);
    CountConcat(PRELUDE, rounds, Engage);
    NoOtherEngagement();
  }

  /**
   A completed task has walked the whole chain, each action by the seat bound to it, with one
   more engagement than negative assessments.
   */
  lemma CompletedTaskWalkedTheChain(states: seq<Tracked>, calls: seq<Call>, outcomes: seq<Outcome>,
                                    k: nat, id: string)
    requires Run(states, calls, outcomes) && k <= |calls|
    requires id in states[k].s.tasks && states[k].s.tasks[id].stage == Completed
    ensures var log := LogOf(states[k], id);
      && Actions(log) == Chain(Negatives(log))
      && BySeats(states[k].s.tasks[id].binding, log)
      && Count(Actions(log), Engage) == Negatives(log) + 1
  {
    RunIsConsistent(states, calls, outcomes, k);
    assert Tracks(states[k], id);
    var n := Negatives(LogOf(states[k], id));
    assert PRELUDE + (Rounds(n + 1) + CLOSING) == Chain(n);
    ChainEngagements(n);
  }

  lemma ChangeRevises(s: TaskSet, call: Call, outcome: Outcome, s': TaskSet, id: string)
    requires Changed(s, call, outcome, s') && id in s.tasks && id in s'.tasks
    ensures s'.tasks[id].revision >= s.tasks[id].revision
    ensures call.DoApply? && Target(call) == id && outcome.Ok() ==>
      call.command.expected == s.tasks[id].revision == s'.tasks[id].revision - 1
  {
    if call.DoCreate? && outcome.Ok() && id != Target(call) {
      assert id in s'.tasks - {Target(call)};
    }
  }

  lemma StepFacts(states: seq<Tracked>, calls: seq<Call>, outcomes: seq<Outcome>, k: nat, id: string)
    requires Run(states, calls, outcomes) && k < |calls|
    requires id in states[k].s.tasks && id in states[k + 1].s.tasks
    ensures states[k].s.tasks[id].revision <= states[k + 1].s.tasks[id].revision
    ensures calls[k].DoApply? && Target(calls[k]) == id && outcomes[k].Ok() ==>
      calls[k].command.expected == states[k].s.tasks[id].revision == states[k + 1].s.tasks[id].revision - 1
    ensures !outcomes[k].Ok() ==> states[k + 1] == states[k]
  {
    RunIsConsistent(states, calls, outcomes, k);
    StepIsConsistent(states, calls, outcomes, k);
    ChangeRevises(states[k].s, calls[k], outcomes[k], states[k + 1].s, id);
  }

  /** The k-th call is a command to the task, and takes effect. */
  predicate Effective(calls: seq<Call>, outcomes: seq<Outcome>, k: nat, id: string)
    requires k < |calls| == |outcomes|
  {
    calls[k].DoApply? && Target(calls[k]) == id && outcomes[k].Ok()
  }

  function EffectiveBetween(calls: seq<Call>, outcomes: seq<Outcome>, i: nat, j: nat, id: string): nat
    requires i <= j <= |calls| == |outcomes|
  {
    if i == j then 0
    else EffectiveBetween(calls, outcomes, i, j - 1, id) + if Effective(calls, outcomes, j - 1, id) then 1 else 0
  }

  /** While a task stays in the set its revision never goes down, and rises with every command that takes effect. */
  lemma {:induction false} RevisionsGrow(states: seq<Tracked>, calls: seq<Call>, outcomes: seq<Outcome>,
                                         i: nat, j: nat, id: string)
    requires Run(states, calls, outcomes) && i <= j <= |calls|
    requires forall k :: i <= k <= j ==> id in states[k].s.tasks
    ensures states[i].s.tasks[id].revision + EffectiveBetween(calls, outcomes, i, j, id)
         <= states[j].s.tasks[id].revision
  {
    if i < j {
      RevisionsGrow(states, calls, outcomes, i, j - 1, id);
      StepFacts(states, calls, outcomes, j - 1, id);
    }
  }

  /** At most one command succeeds per expected revision of a task: a later one changes nothing. */
  lemma AtMostOncePerRevision(states: seq<Tracked>, calls: seq<Call>, outcomes: seq<Outcome>,
                              i: nat, j: nat, id: string)
    requires Run(states, calls, outcomes) && i < j < |calls|
    requires forall k :: i <= k <= j + 1 ==> id in states[k].s.tasks
    requires calls[i].DoApply? && calls[j].DoApply? && Target(calls[i]) == Target(calls[j]) == id
    requires calls[i].command.expected == calls[j].command.expected
    requires outcomes[i].Ok()
    ensures !outcomes[j].Ok() && states[j + 1] == states[j]
  {
    StepFacts(states, calls, outcomes, i, id);
    StepFacts(states, calls, outcomes, j, id);
    RevisionsGrow(states, calls, outcomes, i + 1, j, id);
  }

  /* ------------------------------------------------------------------ blocking a finished task */

  const SHARED := Binding("red", "commander", "recon", "attack", "ground", "target", "correlation", [])

  /** A task that is never assessed negatively, from its first action to its last. */
  const WHOLE_CHAIN: seq<Action> :=
    [ReportTarget, Dispatch, AcceptDispatch, OrderGroundGuidance, MarkRendezvousReady, IdentityHello,
     IdentityConfirm, SendGuidancePackage, AcceptGuidance, ReportAttackReady, AuthorizeAttack,
     Engage, ReportBattleDamage, ConfirmDamageAssessment, ConfirmTargetDestroyed, Withdraw, MarkReturning]

  /** A run in which one task is created, walks the whole chain and is completed, and another one then takes over its
      seats and its target. */
  function Played(k: nat): Call {
    if k == 0 then DoCreate("first", SHARED, false, 0.0)
    else if k <= |WHOLE_CHAIN| then
      var action := WHOLE_CHAIN[k - 1];
      DoApply(Command("first", k + 1, action, Some(true)), SeatFor(SHARED, action).GetOr(""), {}, 0.0)
    else if k == |WHOLE_CHAIN| + 1 then DoComplete("first", 0.0)
    else DoCreate("second", SHARED, false, 0.0)
  }

  function PlayedTo(n: nat): Tracked {
    if n == 0 then Tracked(TaskSet(map[], []), map[])
    else
      var t := PlayedTo(n - 1);
      var step := Do(t.s, Played(n - 1));
      Tracked(step.0, Logged(t, Played(n - 1), step.1))
  }

  function PlayedStates(n: nat): seq<Tracked> { seq(n + 1, k requires 0 <= k <= n => PlayedTo(k)) }

  function PlayedCalls(n: nat): seq<Call> { seq(n, k requires 0 <= k < n => Played(k)) }

  function PlayedOutcomes(n: nat): seq<Outcome> {
    seq(n, k requires 0 <= k < n => Do(PlayedTo(k).s, Played(k)).1)
  }

  lemma PlayingIsARun(n: nat)
    ensures Run(PlayedStates(n), PlayedCalls(n), PlayedOutcomes(n))
  {
    forall k | 0 <= k < n ensures StepAt(PlayedStates(n), PlayedCalls(n), PlayedOutcomes(n), k) {
      assert PlayedTo(k + 1).s == Do(PlayedTo(k).s, Played(k)).0;
    }
  }

  /** Where the task stands before the k-th action of its chain. */
  function StageBefore(k: nat): Stage
    requires k <= |WHOLE_CHAIN|
  {
    if k == 0 then AwaitingTargetReport else NextStage(WHOLE_CHAIN[k - 1]).GetOr(Completed)
  }

  lemma ChainFits(k: nat)
    requires k < |WHOLE_CHAIN|
    ensures ValidStageAction(StageBefore(k), WHOLE_CHAIN[k]) && NextStage(WHOLE_CHAIN[k]) == Some(StageBefore(k + 1))
    ensures SeatFor(SHARED, WHOLE_CHAIN[k]).Some?
  {
    match k
    case 0 => case 1 => case 2 => case 3 => case 4 => case 5 => case 6 => case 7 => case 8 => case 9 => case 10 =>
    case 11 => case 12 => case 13 => case 14 => case 15 => case 16 => case _ => assert false;
  }

  lemma SharedIsValid()
    ensures ValidBinding(SHARED) && ValidId("first") && ValidId("second") && "first" != "second"
  {
    assert "first"[0] != "second"[0];
    assert !Blank("commander") by { assert "commander"[0] == 'c'; }
    assert !Blank("recon") by { assert "recon"[0] == 'r'; }
    assert !Blank("attack") by { assert "attack"[0] == 'a'; }
    assert !Blank("ground") by { assert "ground"[0] == 'g'; }
    assert !Blank("target") by { assert "target"[0] == 't'; }
    assert !Blank("correlation") by { assert "correlation"[0] == 'c'; }
    assert !Blank("first") by { assert "first"[0] == 'f'; }
    assert !Blank("second") by { assert "second"[0] == 's'; }
  }

  /** The set holds one task of the shared binding, at a stage and a revision. */
  predicate Alone(s: TaskSet, stage: Stage, revision: nat, health: Health) {
    && s.tasks.Keys == {"first"} && s.order == ["first"]
    && s.tasks["first"].taskId == "first" && s.tasks["first"].binding == SHARED && s.tasks["first"].stage == stage
    && s.tasks["first"].revision == revision && s.tasks["first"].health == health
  }

  lemma FirstIsCreated()
    ensures Alone(PlayedTo(1).s, AwaitingTargetReport, 2, Active)
  {
    SharedIsValid();
    var empty := TaskSet(map[], []);
    assert PlayedTo(0).s == empty && OpenKeys(empty, "red") == {};
    var task := NewTask("first", SHARED, false, 0.0);
    assert empty.tasks["first" := task].Keys == {"first"};
    assert PlayedTo(1).s == Create(empty, "first", SHARED, false, 0.0).0;
  }

  lemma OneStep(s: TaskSet, k: nat, t: TaskSet)
    requires 1 <= k <= |WHOLE_CHAIN| && Alone(s, StageBefore(k - 1), k + 1, Active) && t == Do(s, Played(k)).0
    ensures Alone(t, StageBefore(k), k + 2, Active)
  {
    ChainFits(k - 1);
  }

  lemma {:induction false} ChainIsWalked(k: nat)
    requires 1 <= k <= |WHOLE_CHAIN| + 1
    ensures Alone(PlayedTo(k).s, StageBefore(k - 1), k + 1, Active)
  {
    if k == 1 {
      FirstIsCreated();
    } else {
      ChainIsWalked(k - 1);
      OneStep(PlayedTo(k - 1).s, k - 1, PlayedTo(k).s);
    }
  }

  const FINISHED: nat := |WHOLE_CHAIN| + 2

  lemma FirstIsFinished()
    ensures Alone(PlayedTo(FINISHED).s, Completed, FINISHED + 1, Closed)
  {
    ChainIsWalked(FINISHED - 1);
    assert StageBefore(|WHOLE_CHAIN|) == Returning;
  }

  /** The first task is finished, and an open one has its seats and its target. */
  predicate Overtaken(s: TaskSet) {
    && "first" in s.tasks && s.tasks["first"].stage == Completed && !IsOpen(s.tasks["first"])
    && s.tasks["first"].binding == SHARED
    && "second" in s.tasks && IsOpen(s.tasks["second"]) && s.tasks["second"].binding == SHARED
  }

  /** Once the first task is finished, a second one may have the same seats and the same target. */
  lemma SecondTakesOver(s: TaskSet, t: TaskSet)
    requires Alone(s, Completed, FINISHED + 1, Closed) && t == Create(s, "second", SHARED, false, 0.0).0
    ensures Overtaken(t)
  {
    SharedIsValid();
    assert OpenKeys(s, "red") == {} && !Busy(s, SHARED);
    var grown := s.tasks["second" := NewTask("second", SHARED, false, 0.0)];
    assert grown.Keys == {"first", "second"};
  }

  lemma FirstIsOvertaken()
    ensures Overtaken(PlayedTo(FINISHED + 1).s)
  {
    FirstIsFinished();
    SecondTakesOver(PlayedTo(FINISHED).s, PlayedTo(FINISHED + 1).s);
  }

  lemma PlayedIsSafe(n: nat)
    ensures Safe(PlayedTo(n).s)
  {
    PlayingIsARun(n);
    RunIsConsistent(PlayedStates(n), PlayedCalls(n), PlayedOutcomes(n), n);
    assert Consistent(PlayedStates(n)[n]);
  }

  lemma OvertakenMayNotBeBlocked(s: TaskSet, code: string, now: real)
    requires Safe(s) && Overtaken(s)
    ensures !Safe(Reopen(s, "first", Some(code), now).0)
  {
    assert Busy(s, SHARED) by { assert Shares(s.tasks["second"].binding, SHARED); }
    ReopenIsSafeIff(s, "first", Some(code), now);
  }

  /** Blocking a finished task opens it again. At the end of this run, in which nothing was ever blocked, two open tasks
      then share their seats and their target. */
  lemma BlockingAFinishedTaskBreaksExclusivity(code: string, now: real)
    ensures Run(PlayedStates(FINISHED + 1), PlayedCalls(FINISHED + 1), PlayedOutcomes(FINISHED + 1))
    ensures Safe(PlayedTo(FINISHED + 1).s) && Overtaken(PlayedTo(FINISHED + 1).s)
    ensures !Safe(Reopen(PlayedTo(FINISHED + 1).s, "first", Some(code), now).0)
  {
    PlayingIsARun(FINISHED + 1);
    PlayedIsSafe(FINISHED + 1);
    FirstIsOvertaken();
    OvertakenMayNotBeBlocked(PlayedTo(FINISHED + 1).s, code, now);
  }
}
