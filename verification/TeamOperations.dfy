/** The application's operations on a team manifest object: reconciliation in place, and every
    step of TeamRuns carried out by the class's own methods. */
module TeamOperations {
  import opened Wrappers
  import opened TeamModel
  import opened TeamManifests
  import opened TeamRuns

  /** What reconciliation leaves in memory. A finished session's results are recorded even when
      nothing counts as changed; then they are not saved. */
  function InMemory(m: Manifest, f: StoreFacts): Manifest {
    if m.status == Archived then m
    else if ReconcileChanges(m, f) then RefreshStatus(Reconciled(m, f))
    else Reconciled(m, f)
  }

  /** `reconcile_team_manifest_state` with the store answering `f`. */
  method ReconcileState(g: TeamManifest, f: StoreFacts) returns (changed: bool, r: Outcome)
    modifies g
    ensures changed <==> old(g.View()).status != Archived && ReconcileChanges(old(g.View()), f)
    ensures g.View() == InMemory(old(g.View()), f)
    ensures r.Success? <==> !changed || WellFormed(g.View())
  {
    if g.status == Archived { return false, Success(()); }
    changed := ReconcileTaskCards(g, f);
    var bound := BoundSlots(g.tasks);
    if MemberStale(g.lead, bound, f) {
      g.lead := Unbound(g.lead);
      changed := true;
    }
    var moved := ReconcileMembers(g, bound, f);
    changed := changed || moved;
    if LeadSessionStale(g.View(), f) {
      g.ClearCurrentLeadSession();
      changed := true;
    }
    r := Success(());
    assert g.View() == Reconciled(old(g.View()), f);
    if changed {
      g.RefreshStatus();
      r := g.Validate();
    }
  }

  method ReconcileTaskCards(g: TeamManifest, f: StoreFacts) returns (changed: bool)
    modifies g`tasks
    ensures g.tasks == ReconcileTasks(old(g.tasks), f)
    ensures changed <==> exists i :: 0 <= i < |old(g.tasks)| && ReconcileTask(old(g.tasks)[i], f).1
  {
    changed := false;
    for i := 0 to |g.tasks|
      invariant |g.tasks| == |old(g.tasks)|
      invariant forall k :: 0 <= k < i ==> g.tasks[k] == ReconcileTask(old(g.tasks)[k], f).0
      invariant forall k :: i <= k < |g.tasks| ==> g.tasks[k] == old(g.tasks)[k]
      invariant changed <==> exists k :: 0 <= k < i && ReconcileTask(old(g.tasks)[k], f).1
    {
      var (task, moved) := ReconcileTask(g.tasks[i], f);
      g.tasks := g.tasks[i := task];
      changed := changed || moved;
    }
  }

  method ReconcileMembers(g: TeamManifest, bound: set<string>, f: StoreFacts) returns (changed: bool)
    modifies g`members
    ensures |g.members| == |old(g.members)|
    ensures forall i :: 0 <= i < |g.members| ==> g.members[i] == ReconcileMember(old(g.members)[i], bound, f)
    ensures changed <==> exists i :: 0 <= i < |old(g.members)| && MemberStale(old(g.members)[i], bound, f)
  {
    changed := false;
    for i := 0 to |g.members|
      invariant |g.members| == |old(g.members)|
      invariant forall k :: 0 <= k < i ==> g.members[k] == ReconcileMember(old(g.members)[k], bound, f)
      invariant forall k :: i <= k < |g.members| ==> g.members[k] == old(g.members)[k]
      invariant changed <==> exists k :: 0 <= k < i && MemberStale(old(g.members)[k], bound, f)
    {
      if MemberStale(g.members[i], bound, f) {
        g.members := g.members[i := Unbound(g.members[i])];
        changed := true;
      }
    }
  }

  /** The delegation block of task execution: the owner is written without validating. */
  method Redelegate(g: TeamManifest, taskId: string, target: string) returns (r: Outcome)
    modifies g
    ensures Attempt(g.View(), r.Success?) == DelegateOwner(old(g.View()), taskId, target)
  {
    if !KnownMember(g.View(), target) { return Failure(Guarded); }
    var i := FindTask(g.tasks, taskId);
    if i.None? { return Failure(Guarded); }
    if g.tasks[i.value].state != Todo { return Failure(Guarded); }
    g.tasks := g.tasks[i.value := g.tasks[i.value].(ownerId := target)];
    r := Success(());
  }

  /** Operations on members, plans and the team as a whole. */
  predicate OnTeam(op: TeamOp) {
    || op.AddMember? || op.UpdatePolicy? || op.RemoveMember? || op.PromoteLead? || op.AssignSlot? || op.BindLeadSession?
    || op.AddPlan? || op.ApprovePlan? || op.GenerateTask? || op.Archive? || op.Reset?
  }

  method PerformOnTeam(g: TeamManifest, op: TeamOp) returns (r: Outcome)
    requires OnTeam(op)
    modifies g
    ensures Attempt(g.View(), r.Success?) == Perform(old(g.View()), op)
  {
    match op {
      case AddMember(x) => r := g.AddMember(x);
      case UpdatePolicy(id, change) => r := g.UpdateMemberPolicy(id, change);
      case RemoveMember(id) => r := g.RemoveMember(id);
      case PromoteLead(id) => r := g.PromoteCurrentLead(id);
      case AssignSlot(id, s, b) => r := g.AssignMemberSlot(id, s, b);
      case BindLeadSession(id, s) => r := g.BindCurrentLeadSession(id, s);
      case AddPlan(p) => r := g.AddPlanItem(p);
      case ApprovePlan(id) => r := g.ApprovePlanItem(id);
      case GenerateTask(id, t) => r := g.GenerateTaskFromPlanItem(id, t);
      case Archive => r := g.Archive();
      case Reset => g.Reset(); r := Success(());
    }
  }

  method PerformOnTask(g: TeamManifest, op: TeamOp) returns (r: Outcome)
    requires !OnTeam(op) && !op.Reconcile?
    modifies g
    ensures Attempt(g.View(), r.Success?) == Perform(old(g.View()), op)
  {
    match op {
      case AddTask(t) =>
        r := g.AddTask(t);
        g.RefreshStatus();
      case AddTaskOnly(t) => r := g.AddTask(t);
      case SetState(id, s) => r := g.SetTaskState(id, s);
      case Accept(id) => r := g.AcceptTask(id);
      case Rework(id) => r := g.RequestTaskRework(id);
      case Cancel(id) => r := g.CancelTask(id);
      case Supersede(id, other) => r := g.SupersedeTask(id, other);
      case BindSlot(id, s, b) => r := g.BindTaskSlot(id, s, b);
      case ClearResult(id) => r := g.ClearTaskResult(id);
      case Delegate(id, target) => r := Redelegate(g, id, target);
    }
  }

  /** The operation on the loaded manifest; `changed` says whether it needs saving. */
  method PerformAny(g: TeamManifest, op: TeamOp) returns (r: Outcome, changed: bool)
    modifies g
    ensures changed ==> Attempt(g.View(), r.Success?) == Perform(old(g.View()), op)
    ensures !changed ==> Perform(old(g.View()), op) == Attempt(old(g.View()), true)
  {
    changed := true;
    if op.Reconcile? {
      changed, r := ReconcileState(g, op.facts);
    } else if OnTeam(op) {
      r := PerformOnTeam(g, op);
    } else {
      r := PerformOnTask(g, op);
    }
  }

  /** One locked load, mutation and save; `io` says whether reading and writing succeed. */
  method Transact(file: Manifest, op: TeamOp, io: bool) returns (file': Manifest, ok: bool)
    requires WellFormed(file)
    ensures ok <==> io && Perform(file, op).ok
    ensures file' == if io then Step(file, op) else file
  {
    if !io { return file, false; }
    SaveAcceptsWhatOperationsAccept(file, op);
    var g := new TeamManifest(file);
    var r, changed := PerformAny(g, op);
    if !changed { return file, true; }
    if r.Failure? { return file, false; }
    r := g.Validate();
    return if r.Success? then g.View() else file, r.Success?;
  }
}
