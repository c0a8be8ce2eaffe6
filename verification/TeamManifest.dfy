/** The mutable team manifest of `team.rs`: the multi-pass validator and every mutator,
    each proved against the value it must leave behind (TeamModel). */
module TeamManifests {
  import opened Wrappers
  import opened TeamModel

  /** Why a call returned an error; the validator's cases name the offending ids. */
  datatype TeamError =
    | BadHeader
    | BlankMemberId
    | DuplicateMember(id: string)
    | UnknownLead(id: string)
    | BlankTaskId
    | DuplicateTask(id: string)
    | UnknownOwner(task: string, owner: string)
    | BlankPlanId
    | DuplicatePlan(id: string)
    | UnknownPlanOwner(plan: string, owner: string)
    | UnknownGenerated(plan: string, task: string)
    | MissingGenerated(plan: string)
    | UnexpectedGenerated(plan: string)
    | UnknownDependency(task: string, dependency: string)
    | SelfSuperseded(task: string)
    | UnknownReplacement(task: string, replacement: string)
    | MissingReplacement(task: string)
    | UnexpectedReplacement(task: string)
    | Guarded

  type Outcome = Result<(), TeamError>

  ghost predicate ExplainsMembers(m: Manifest, e: TeamError) {
    match e
    case BlankMemberId => exists i :: 0 <= i < |m.members| && Blank(m.members[i].memberId)
    case DuplicateMember(id) =>
      || (exists j :: 0 <= j < |m.members| && m.members[j].memberId == id == m.lead.memberId)
      || (exists i, j :: 0 <= i < j < |m.members| && m.members[i].memberId == id == m.members[j].memberId)
    case _ => false
  }

  ghost predicate ExplainsTasks(tasks: seq<Task>, owners: set<string>, e: TeamError) {
    match e
    case BlankTaskId => exists i :: 0 <= i < |tasks| && Blank(tasks[i].taskId)
    case DuplicateTask(id) => exists i, j :: 0 <= i < j < |tasks| && tasks[i].taskId == id == tasks[j].taskId
    case UnknownOwner(task, owner) =>
      owner !in owners && exists i :: 0 <= i < |tasks| && tasks[i].taskId == task && tasks[i].ownerId == owner
    case _ => false
  }

  ghost predicate ExplainsPlans(plans: seq<Plan>, owners: set<string>, taskIds: set<string>, e: TeamError) {
    match e
    case BlankPlanId => exists i :: 0 <= i < |plans| && Blank(plans[i].planId)
    case DuplicatePlan(id) => exists i, j :: 0 <= i < j < |plans| && plans[i].planId == id == plans[j].planId
    case UnknownPlanOwner(plan, owner) =>
      owner !in owners && exists i :: 0 <= i < |plans| && plans[i].planId == plan && plans[i].ownerId == Some(owner)
    case _ => exists i :: 0 <= i < |plans| && ExplainsGenerated(plans[i], taskIds, e)
  }

  /** The defect of one plan item's generated task. */
  ghost predicate ExplainsGenerated(p: Plan, taskIds: set<string>, e: TeamError) {
    match e
    case UnknownGenerated(plan, task) => plan == p.planId && task !in taskIds && p.generatedTaskId == Some(task)
    case MissingGenerated(plan) => plan == p.planId && p.state == Generated && p.generatedTaskId == None
    case UnexpectedGenerated(plan) => plan == p.planId && p.state != Generated && p.generatedTaskId.Some?
    case _ => false
  }

  /** The defect of one card's dependencies or replacement. */
  ghost predicate ExplainsLink(t: Task, taskIds: set<string>, e: TeamError) {
    match e
    case UnknownDependency(task, dependency) => task == t.taskId && dependency !in taskIds && dependency in t.dependsOn
    case SelfSuperseded(task) => task == t.taskId && t.supersededBy == Some(task)
    case UnknownReplacement(task, replacement) =>
      task == t.taskId && replacement !in taskIds && t.supersededBy == Some(replacement)
    case MissingReplacement(task) => task == t.taskId && t.state == Superseded && t.supersededBy == None
    case UnexpectedReplacement(task) => task == t.taskId && t.state != Superseded && t.supersededBy.Some?
    case _ => false
  }

  /** The manifest really has the defect that the error names. */
  ghost predicate Explains(m: Manifest, e: TeamError) {
    || (e.BadHeader? && !HeaderOk(m))
    || ExplainsMembers(m, e)
    || (e.UnknownLead? && m.currentLeadId == Some(e.id) && e.id !in MemberIds(m))
    || ExplainsTasks(m.tasks, MemberIds(m), e)
    || ExplainsPlans(m.plans, MemberIds(m), TaskIds(m.tasks), e)
    || (exists i :: 0 <= i < |m.tasks| && ExplainsLink(m.tasks[i], TaskIds(m.tasks), e))
  }

  /** The errors are sound reasons: none of them describes a well-formed manifest. */
  lemma WellFormedUnexplained(m: Manifest, e: TeamError)
    requires WellFormed(m)
    ensures !Explains(m, e)
  {
    TasksUnexplained(m.tasks, MemberIds(m), e);
    LinksUnexplained(m.tasks, TaskIds(m.tasks), e);
    PlansUnexplained(m.plans, MemberIds(m), TaskIds(m.tasks), e);
  }

  lemma TasksUnexplained(tasks: seq<Task>, owners: set<string>, e: TeamError)
    requires DistinctTasks(tasks) && forall i :: 0 <= i < |tasks| ==> TaskOk(tasks[i], owners)
    ensures !ExplainsTasks(tasks, owners, e)
  {
    assert forall i :: 0 <= i < |tasks| ==> TaskOk(tasks[i], owners);
  }

  lemma LinksUnexplained(tasks: seq<Task>, taskIds: set<string>, e: TeamError)
    requires forall i :: 0 <= i < |tasks| ==> LinksOk(tasks[i], taskIds)
    ensures forall i :: 0 <= i < |tasks| ==> !ExplainsLink(tasks[i], taskIds, e)
  {
    forall i | 0 <= i < |tasks| ensures !ExplainsLink(tasks[i], taskIds, e) { assert LinksOk(tasks[i], taskIds); }
  }

  lemma PlansUnexplained(plans: seq<Plan>, owners: set<string>, taskIds: set<string>, e: TeamError)
    requires DistinctPlans(plans) && forall i :: 0 <= i < |plans| ==> PlanOk(plans[i], owners, taskIds)
    ensures !ExplainsPlans(plans, owners, taskIds, e)
  {
    assert forall i :: 0 <= i < |plans| ==> PlanOk(plans[i], owners, taskIds);
  }

  class TeamManifest {
    var version: nat
    var teamId: string
    var repoId: string
    var objective: string
    var status: TeamStatus
    var routing: Option<Routing>
    var lead: Member
    var currentLeadId: Option<string>
    var leadSessionId: Option<string>
    var plans: seq<Plan>
    var members: seq<Member>
    var tasks: seq<Task>

    function View(): Manifest
      reads this
    {
      Manifest(version, teamId, repoId, objective, status, routing, lead, currentLeadId, leadSessionId,
               plans, members, tasks)
    }

    /** A manifest read from its file. */
    constructor (m: Manifest)
      ensures View() == m
    {
      version, teamId, repoId, objective := m.version, m.teamId, m.repoId, m.objective;
      status, routing, lead, currentLeadId := m.status, m.routing, m.lead, m.currentLeadId;
      leadSessionId, plans, members, tasks := m.leadSessionId, m.plans, m.members, m.tasks;
    }

    // -------------------------------------------------------------------------
    // The validator: one pass per collection, id sets growing as it goes
    // -------------------------------------------------------------------------

    method Validate() returns (r: Outcome)
      ensures r.Success? <==> WellFormed(View())
      ensures r.Failure? ==> Explains(View(), r.error)
    {
      if version == 0 || Blank(teamId) || Blank(repoId) || Blank(objective) {
        return Failure(BadHeader);
      }
      var memberIds;
      r, memberIds := ValidateMembers();
      if r.Failure? { return; }
      if currentLeadId.Some? && currentLeadId.value !in memberIds {
        return Failure(UnknownLead(currentLeadId.value));
      }
      var taskIds;
      r, taskIds := ValidateTasks(memberIds);
      if r.Failure? { return; }
      r := ValidatePlans(memberIds, taskIds);
      if r.Failure? { return; }
      r := ValidateLinks(taskIds);
    }

    method ValidateMembers() returns (r: Outcome, memberIds: set<string>)
      ensures r.Success? <==> MembersOk(View())
      ensures r.Success? ==> memberIds == MemberIds(View())
      ensures r.Failure? ==> ExplainsMembers(View(), r.error)
    {
      memberIds := {lead.memberId};
      var i := 0;
      while i < |members|
        invariant 0 <= i <= |members|
        invariant memberIds == {lead.memberId} + (set x | x in members[..i] :: x.memberId)
        invariant forall k :: 0 <= k < i ==> !Blank(members[k].memberId) && members[k].memberId != lead.memberId
        invariant forall k, l :: 0 <= k < l < i ==> members[k].memberId != members[l].memberId
      {
        var x := members[i];
        if Blank(x.memberId) {
          return Failure(BlankMemberId), memberIds;
        }
        if x.memberId in memberIds {
          if x.memberId != lead.memberId {
            var y :| y in members[..i] && y.memberId == x.memberId;
            var k :| 0 <= k < i && members[k] == y;
            assert View().members[k].memberId == x.memberId;
          }
          return Failure(DuplicateMember(x.memberId)), memberIds;
        }
        assert members[..i + 1] == members[..i] + [x];
        forall k | 0 <= k < i ensures members[k].memberId != x.memberId { assert members[k] in members[..i]; }
        memberIds := memberIds + {x.memberId};
        i := i + 1;
      }
      assert members[..i] == members;
      return Success(()), memberIds;
    }

    method ValidateTasks(memberIds: set<string>) returns (r: Outcome, taskIds: set<string>)
      ensures r.Success? <==> DistinctTasks(tasks) && forall i :: 0 <= i < |tasks| ==> TaskOk(tasks[i], memberIds)
      ensures r.Success? ==> taskIds == TaskIds(tasks)
      ensures r.Failure? ==> ExplainsTasks(tasks, memberIds, r.error)
    {
      taskIds := {};
      var i := 0;
      while i < |tasks|
        invariant 0 <= i <= |tasks|
        invariant taskIds == TaskIds(tasks[..i])
        invariant forall k, l :: 0 <= k < l < i ==> tasks[k].taskId != tasks[l].taskId
        invariant forall k :: 0 <= k < i ==> TaskOk(tasks[k], memberIds)
      {
        var t := tasks[i];
        assert TaskOk(tasks[i], memberIds) <==> !Blank(t.taskId) && t.ownerId in memberIds;
        if Blank(t.taskId) {
          return Failure(BlankTaskId), taskIds;
        }
        if t.taskId in taskIds {
          var y :| y in tasks[..i] && y.taskId == t.taskId;
          var k :| 0 <= k < i && tasks[k] == y;
          return Failure(DuplicateTask(t.taskId)), taskIds;
        }
        if t.ownerId !in memberIds {
          return Failure(UnknownOwner(t.taskId, t.ownerId)), taskIds;
        }
        assert tasks[..i + 1] == tasks[..i] + [t];
        forall k | 0 <= k < i ensures tasks[k].taskId != t.taskId { assert tasks[k] in tasks[..i]; }
        AddedTaskIds(tasks[..i], t);
        taskIds := taskIds + {t.taskId};
        i := i + 1;
      }
      assert tasks[..i] == tasks;
      return Success(()), taskIds;
    }

    method ValidatePlans(memberIds: set<string>, taskIds: set<string>) returns (r: Outcome)
      ensures r.Success? <==>
              (DistinctPlans(plans) && forall i :: 0 <= i < |plans| ==> PlanOk(plans[i], memberIds, taskIds))
      ensures r.Failure? ==> ExplainsPlans(plans, memberIds, taskIds, r.error)
    {
      var planIds: set<string> := {};
      var i := 0;
      while i < |plans|
        invariant 0 <= i <= |plans|
        invariant planIds == set p | p in plans[..i] :: p.planId
        invariant forall k, l :: 0 <= k < l < i ==> plans[k].planId != plans[l].planId
        invariant forall k :: 0 <= k < i ==> PlanOk(plans[k], memberIds, taskIds)
      {
        var p := plans[i];
        assert PlanOk(plans[i], memberIds, taskIds) <==>
          !Blank(p.planId) && (p.ownerId.Some? ==> p.ownerId.value in memberIds) && GeneratedOk(p, taskIds);
        if Blank(p.planId) {
          return Failure(BlankPlanId);
        }
        if p.planId in planIds {
          var y :| y in plans[..i] && y.planId == p.planId;
          var k :| 0 <= k < i && plans[k] == y;
          return Failure(DuplicatePlan(p.planId));
        }
        if p.ownerId.Some? && p.ownerId.value !in memberIds {
          return Failure(UnknownPlanOwner(p.planId, p.ownerId.value));
        }
        r := ValidateGenerated(p, taskIds);
        if r.Failure? { return; }
        assert plans[..i + 1] == plans[..i] + [p];
        forall k | 0 <= k < i ensures plans[k].planId != p.planId { assert plans[k] in plans[..i]; }
        planIds := planIds + {p.planId};
        i := i + 1;
      }
      return Success(());
    }

    static method ValidateGenerated(p: Plan, taskIds: set<string>) returns (r: Outcome)
      ensures r.Success? <==> GeneratedOk(p, taskIds)
      ensures r.Failure? ==> ExplainsGenerated(p, taskIds, r.error)
    {
      match (p.state, p.generatedTaskId) {
        case (Generated, Some(taskId)) =>
          if taskId !in taskIds { return Failure(UnknownGenerated(p.planId, taskId)); }
        case (Generated, None) => return Failure(MissingGenerated(p.planId));
        case (_, Some(_)) => return Failure(UnexpectedGenerated(p.planId));
        case (_, None) =>
      }
      return Success(());
    }

    method ValidateLinks(taskIds: set<string>) returns (r: Outcome)
      ensures r.Success? <==> forall i :: 0 <= i < |tasks| ==> LinksOk(tasks[i], taskIds)
      ensures r.Failure? ==> exists i :: 0 <= i < |tasks| && ExplainsLink(tasks[i], taskIds, r.error)
    {
      var i := 0;
      while i < |tasks|
        invariant 0 <= i <= |tasks|
        invariant forall k :: 0 <= k < i ==> LinksOk(tasks[k], taskIds)
      {
        r := ValidateLink(tasks[i], taskIds);
        if r.Failure? { return; }
        i := i + 1;
      }
      return Success(());
    }

    static method ValidateLink(t: Task, taskIds: set<string>) returns (r: Outcome)
      ensures r.Success? <==> LinksOk(t, taskIds)
      ensures r.Failure? ==> ExplainsLink(t, taskIds, r.error)
    {
      var j := 0;
      while j < |t.dependsOn|
        invariant 0 <= j <= |t.dependsOn|
        invariant forall k :: 0 <= k < j ==> t.dependsOn[k] in taskIds
      {
        if t.dependsOn[j] !in taskIds {
          return Failure(UnknownDependency(t.taskId, t.dependsOn[j]));
        }
        j := j + 1;
      }
      match (t.state, t.supersededBy) {
        case (Superseded, Some(replacement)) =>
          if replacement == t.taskId { return Failure(SelfSuperseded(t.taskId)); }
          if replacement !in taskIds { return Failure(UnknownReplacement(t.taskId, replacement)); }
        case (Superseded, None) => return Failure(MissingReplacement(t.taskId));
        case (_, Some(_)) => return Failure(UnexpectedReplacement(t.taskId));
        case (_, None) =>
      }
      return Success(());
    }

    // -------------------------------------------------------------------------
    // Mutators
    // -------------------------------------------------------------------------

    method PromoteCurrentLead(memberId: string) returns (r: Outcome)
      modifies this
      ensures Attempt(View(), r.Success?) == PromoteLead(old(View()), memberId)
    {
      if !KnownMember(View(), memberId) { return Failure(Guarded); }
      currentLeadId, leadSessionId := Some(memberId), None;
      r := Validate();
    }

    method BindCurrentLeadSession(memberId: string, session: Option<string>) returns (r: Outcome)
      modifies this
      ensures Attempt(View(), r.Success?) == BindLeadSession(old(View()), memberId, session)
    {
      if CurrentLeadId(View()) != memberId { return Failure(Guarded); }
      leadSessionId := session;
      r := Validate();
    }

    method ClearCurrentLeadSession()
      modifies this
      ensures View() == old(View()).(leadSessionId := None)
    {
      leadSessionId := None;
    }

    method UpdateMemberPolicy(memberId: string, change: PolicyChange) returns (r: Outcome)
      modifies this
      ensures Attempt(View(), r.Success?) == UpdatePolicy(old(View()), memberId, change)
    {
      if lead.memberId == memberId {
        lead := WithPolicy(lead, change);
      } else {
        var i := FindMember(members, memberId);
        if i.None? { return Failure(Guarded); }
        members := members[i.value := WithPolicy(members[i.value], change)];
      }
      r := Validate();
    }

    method AddMember(member: Member) returns (r: Outcome)
      modifies this
      ensures Attempt(View(), r.Success?) == TeamModel.AddMember(old(View()), member)
    {
      if KnownMember(View(), member.memberId) { return Failure(Guarded); }
      members := members + [member];
      r := Validate();
    }

    method RemoveMember(memberId: string) returns (r: Outcome)
      modifies this
      ensures Attempt(View(), r.Success?) == TeamModel.RemoveMember(old(View()), memberId)
    {
      if CurrentLeadId(View()) == memberId { return Failure(Guarded); }
      if OwnsTask(View(), memberId) { return Failure(Guarded); }
      var originalLen := |members|;
      members := Without(members, memberId);
      if |members| == originalLen { return Failure(Guarded); }
      r := Validate();
    }

    method AddTask(task: Task) returns (r: Outcome)
      modifies this
      ensures Attempt(View(), r.Success?) == TeamModel.AddTask(old(View()), task)
    {
      if FindTask(tasks, task.taskId).Some? { return Failure(Guarded); }
      tasks := tasks + [task];
      r := Validate();
    }

    method AddPlanItem(plan: Plan) returns (r: Outcome)
      modifies this
      ensures Attempt(View(), r.Success?) == AddPlan(old(View()), plan)
    {
      if FindPlan(plans, plan.planId).Some? { return Failure(Guarded); }
      plans := plans + [plan];
      r := Validate();
    }

    method ApprovePlanItem(planId: string) returns (r: Outcome)
      modifies this
      ensures Attempt(View(), r.Success?) == ApprovePlan(old(View()), planId)
    {
      var i := FindPlan(plans, planId);
      if i.None? { return Failure(Guarded); }
      if plans[i.value].state != Draft { return Failure(Guarded); }
      plans := plans[i.value := plans[i.value].(state := Approved)];
      r := Validate();
    }

    method GenerateTaskFromPlanItem(planId: string, task: Task) returns (r: Outcome)
      modifies this
      ensures Attempt(View(), r.Success?) == GenerateTask(old(View()), planId, task)
    {
      var i := FindPlan(plans, planId);
      if i.None? { return Failure(Guarded); }
      if plans[i.value].state != Approved { return Failure(Guarded); }
      r := AddTask(task);
      if r.Failure? { return; }
      i := FindPlan(plans, planId);
      if i.None? { return Failure(Guarded); }
      plans := plans[i.value := plans[i.value].(state := Generated, generatedTaskId := Some(task.taskId))];
      r := Validate();
    }

    method SetTaskState(taskId: string, state: TaskState) returns (r: Outcome)
      modifies this
      ensures Attempt(View(), r.Success?) == TeamModel.SetTaskState(old(View()), taskId, state)
    {
      var i := FindTask(tasks, taskId);
      if i.None? { return Failure(Guarded); }
      tasks := tasks[i.value := tasks[i.value].(state := state)];
      if state != Superseded {
        tasks := tasks[i.value := tasks[i.value].(supersededBy := None)];
      }
      assert tasks == old(tasks)[i.value := WithState(old(tasks)[i.value], state)];
      assert View() == PutTask(old(View()), i.value, WithState(old(tasks)[i.value], state));
      RefreshStatus();
      r := Validate();
    }

    method AcceptTask(taskId: string) returns (r: Outcome)
      modifies this
      ensures Attempt(View(), r.Success?) == TeamModel.AcceptTask(old(View()), taskId)
    {
      var i := FindTask(tasks, taskId);
      if i.None? { return Failure(Guarded); }
      if tasks[i.value].state != Review && tasks[i.value].state != Done { return Failure(Guarded); }
      r := SetTaskState(taskId, Done);
    }

    method RequestTaskRework(taskId: string) returns (r: Outcome)
      modifies this
      ensures Attempt(View(), r.Success?) == RequestRework(old(View()), taskId)
    {
      var i := FindTask(tasks, taskId);
      if i.None? { return Failure(Guarded); }
      if tasks[i.value].state != Review && tasks[i.value].state != Done { return Failure(Guarded); }
      r := ClearTaskResult(taskId);
      if r.Failure? { return; }
      r := SetTaskState(taskId, Todo);
    }

    method CancelTask(taskId: string) returns (r: Outcome)
      modifies this
      ensures Attempt(View(), r.Success?) == TeamModel.CancelTask(old(View()), taskId)
    {
      var i := FindTask(tasks, taskId);
      if i.None? { return Failure(Guarded); }
      if tasks[i.value].state.Closed() { return Failure(Guarded); }
      r := SetTaskState(taskId, Cancelled);
    }

    method SupersedeTask(taskId: string, replacementTaskId: string) returns (r: Outcome)
      modifies this
      ensures Attempt(View(), r.Success?) == TeamModel.SupersedeTask(old(View()), taskId, replacementTaskId)
    {
      if taskId == replacementTaskId { return Failure(Guarded); }
      var replacement := FindTask(tasks, replacementTaskId);
      if replacement.None? { return Failure(Guarded); }
      if Retired(tasks[replacement.value].state) { return Failure(Guarded); }
      var i := FindTask(tasks, taskId);
      if i.None? { return Failure(Guarded); }
      if Retired(tasks[i.value].state) { return Failure(Guarded); }
      tasks := tasks[i.value := tasks[i.value].(state := Superseded, supersededBy := Some(replacementTaskId))];
      RefreshStatus();
      r := Validate();
    }

    method AssignMemberSlot(memberId: string, slotId: string, branchName: string) returns (r: Outcome)
      modifies this
      ensures Attempt(View(), r.Success?) == TeamModel.AssignMemberSlot(old(View()), memberId, slotId, branchName)
    {
      if lead.memberId == memberId {
        lead := lead.(slotId := Some(slotId), branchName := Some(branchName));
      } else {
        var i := FindMember(members, memberId);
        if i.None? { return Failure(Guarded); }
        members := members[i.value := members[i.value].(slotId := Some(slotId), branchName := Some(branchName))];
      }
      r := Validate();
    }

    method BindTaskSlot(taskId: string, slotId: string, branchName: string) returns (r: Outcome)
      modifies this
      ensures Attempt(View(), r.Success?) == TeamModel.BindTaskSlot(old(View()), taskId, slotId, branchName)
    {
      var i := FindTask(tasks, taskId);
      if i.None? { return Failure(Guarded); }
      tasks := tasks[i.value := tasks[i.value].(slotId := Some(slotId), branchName := Some(branchName))];
      r := Validate();
    }

    method ClearTaskResult(taskId: string) returns (r: Outcome)
      modifies this
      ensures Attempt(View(), r.Success?) == TeamModel.ClearTaskResult(old(View()), taskId)
    {
      var i := FindTask(tasks, taskId);
      if i.None? { return Failure(Guarded); }
      tasks := tasks[i.value := WithoutResult(tasks[i.value])];
      r := Validate();
    }

    method RefreshStatus()
      modifies this
      ensures View() == TeamModel.RefreshStatus(old(View()))
    {
      if status == Archived { return; }
      status :=
        if |tasks| == 0 then Planning
        else if AllClosed(tasks) then Complete
        else if SomeBlocked(tasks) then TeamStatus.Blocked
        else if SomeStarted(tasks) then Running
        else Planning;
    }

    method Archive() returns (r: Outcome)
      modifies this
      ensures Attempt(View(), r.Success?) == TeamModel.Archive(old(View()))
    {
      var blocked := status == Archived;
      for i := 0 to |tasks|
        invariant blocked <==> status == Archived || exists k :: 0 <= k < i && !tasks[k].state.ArchiveTerminal()
        invariant View() == old(View())
      {
        if !tasks[i].state.ArchiveTerminal() { blocked := true; }
      }
      if blocked { return Failure(Guarded); }
      status := Archived;
      return Success(());
    }

    method Reset()
      modifies this
      ensures View() == TeamModel.Reset(old(View()))
    {
      ResetTasks();
      ResetPlans();
      lead := Unbound(lead);
      ResetMembers();
      leadSessionId := None;
      status := Planning;
    }

    method ResetTasks()
      modifies `tasks
      ensures tasks == TeamModel.ResetTasks(old(tasks))
    {
      for i := 0 to |tasks|
        invariant |tasks| == |old(tasks)|
        invariant forall k :: 0 <= k < i ==> tasks[k] == ResetTask(old(tasks)[k])
        invariant forall k :: i <= k < |tasks| ==> tasks[k] == old(tasks)[k]
      {
        tasks := tasks[i := ResetTask(tasks[i])];
      }
    }

    method ResetPlans()
      modifies `plans
      ensures plans == TeamModel.ResetPlans(old(plans))
    {
      for i := 0 to |plans|
        invariant |plans| == |old(plans)|
        invariant forall k :: 0 <= k < i ==> plans[k] == ResetPlan(old(plans)[k])
        invariant forall k :: i <= k < |plans| ==> plans[k] == old(plans)[k]
      {
        plans := plans[i := ResetPlan(plans[i])];
      }
    }

    method ResetMembers()
      modifies `members
      ensures members == UnboundAll(old(members))
    {
      for i := 0 to |members|
        invariant |members| == |old(members)|
        invariant forall k :: 0 <= k < i ==> members[k] == Unbound(old(members)[k])
        invariant forall k :: i <= k < |members| ==> members[k] == old(members)[k]
      {
        members := members[i := Unbound(members[i])];
      }
    }
  }
}
