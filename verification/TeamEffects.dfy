/** What the team operations leave behind, field by field and in terms of the states' own names. */
module TeamEffects {
  import opened Wrappers
  import opened TeamModel
  import opened TeamRuns
  import opened TeamOperations

  // ---------------------------------------------------------------------------
  // The team status
  // ---------------------------------------------------------------------------

  /** What the derived status says about the cards. */
  lemma StatusMeaning(tasks: seq<Task>)
    ensures DeriveStatus(tasks) == Planning <==> forall t :: t in tasks ==> t.state == Todo
    ensures DeriveStatus(tasks) == Complete <==>
            tasks != [] && forall t :: t in tasks ==> t.state == Done || t.state == Cancelled || t.state == Superseded
    ensures DeriveStatus(tasks) == TeamStatus.Blocked <==> exists t :: t in tasks && t.state == TaskState.Blocked
    ensures DeriveStatus(tasks) != Archived
  {
    if tasks != [] { assert tasks[0] in tasks; }
  }

  /** Archiving succeeds exactly on an unarchived team whose cards are done, blocked, cancelled or
      superseded, and changes nothing but the status. */
  lemma ArchiveMeaning(m: Manifest)
    ensures Perform(m, TeamOp.Archive).ok <==>
            m.status != Archived && forall t :: t in m.tasks ==>
              t.state == Done || t.state == TaskState.Blocked || t.state == Cancelled || t.state == Superseded
    ensures Perform(m, TeamOp.Archive).after == if Perform(m, TeamOp.Archive).ok then m.(status := Archived) else m
  {
  }

  // ---------------------------------------------------------------------------
  // Cards
  // ---------------------------------------------------------------------------

  /** `n` is `m` with card `i` replaced by `t`, and perhaps another status. */
  ghost predicate OnlyCard(m: Manifest, n: Manifest, i: nat, t: Task) {
    && i < |m.tasks| == |n.tasks| && n.tasks[i] == t
    && (forall j :: 0 <= j < |m.tasks| && j != i ==> n.tasks[j] == m.tasks[j])
    && n == m.(tasks := n.tasks, status := n.status)
  }

  /** The status is archived as before or says what the cards say. */
  ghost predicate Refreshed(m: Manifest, n: Manifest) {
    n.status == if m.status == Archived then Archived else DeriveStatus(n.tasks)
  }

  lemma CardAt(m: Manifest, i: nat)
    requires DistinctTasks(m.tasks) && i < |m.tasks|
    ensures FindTask(m.tasks, m.tasks[i].taskId) == Some(i)
  {
  }

  lemma SetStateOf(m: Manifest, i: nat, s: TaskState)
    requires DistinctTasks(m.tasks) && i < |m.tasks|
    ensures var n, t := SetTaskState(m, m.tasks[i].taskId, s).after, m.tasks[i];
            && OnlyCard(m, n, i, t.(state := s, supersededBy := if s == Superseded then t.supersededBy else None))
            && Refreshed(m, n)
  {
    CardAt(m, i);
  }

  /** Setting a state drops the replacement unless the state is Superseded. */
  lemma SetStateEffect(m: Manifest, i: nat, s: TaskState)
    requires DistinctTasks(m.tasks) && i < |m.tasks|
    ensures var n, t := Perform(m, TeamOp.SetState(m.tasks[i].taskId, s)).after, m.tasks[i];
            && OnlyCard(m, n, i, t.(state := s, supersededBy := if s == Superseded then t.supersededBy else None))
            && Refreshed(m, n)
  {
    SetStateOf(m, i, s);
  }

  lemma AcceptOf(m: Manifest, i: nat)
    requires WellFormed(m) && i < |m.tasks|
    ensures var a, t := AcceptTask(m, m.tasks[i].taskId), m.tasks[i];
            && (a.ok <==> t.state == Review || t.state == Done)
            && (a.ok ==> OnlyCard(m, a.after, i, t.(state := Done, supersededBy := None)) && Refreshed(m, a.after))
  {
    CardAt(m, i);
    SetTaskStateSucceedsIff(m, m.tasks[i].taskId, Done);
    SetStateOf(m, i, Done);
  }

  /** Accepting puts a card that is in review or done into Done, and refuses any other. */
  lemma AcceptEffect(m: Manifest, i: nat)
    requires WellFormed(m) && i < |m.tasks|
    ensures var a, t := Perform(m, TeamOp.Accept(m.tasks[i].taskId)), m.tasks[i];
            && (a.ok <==> t.state == Review || t.state == Done)
            && (a.ok ==> OnlyCard(m, a.after, i, t.(state := Done, supersededBy := None)) && Refreshed(m, a.after))
  {
    AcceptOf(m, i);
  }

  lemma ClearResultOf(m: Manifest, i: nat)
    requires WellFormed(m) && i < |m.tasks|
    ensures var a, t := ClearTaskResult(m, m.tasks[i].taskId), m.tasks[i];
            && a.ok && WellFormed(a.after) && a.after.status == m.status
            && OnlyCard(m, a.after, i, t.(result := TaskResult(None, None, None, None)))
  {
    CardAt(m, i);
    assert LinksOk(m.tasks[i], TaskIds(m.tasks)) && TaskOk(m.tasks[i], MemberIds(m));
    PutTaskKeepsWellFormed(m, i, WithoutResult(m.tasks[i]));
  }

  /** Clearing a result leaves the card in its state. */
  lemma ClearResultEffect(m: Manifest, i: nat)
    requires WellFormed(m) && i < |m.tasks|
    ensures var a, t := Perform(m, TeamOp.ClearResult(m.tasks[i].taskId)), m.tasks[i];
            && a.ok && WellFormed(a.after) && a.after.status == m.status
            && OnlyCard(m, a.after, i, t.(result := TaskResult(None, None, None, None)))
  {
    ClearResultOf(m, i);
  }

  lemma ReworkOf(m: Manifest, i: nat)
    requires WellFormed(m) && i < |m.tasks|
    ensures var a, t := RequestRework(m, m.tasks[i].taskId), m.tasks[i];
            && (a.ok <==> t.state == Review || t.state == Done)
            && (a.ok ==> Refreshed(m, a.after) && OnlyCard(m, a.after, i,
                  t.(state := Todo, supersededBy := None, result := TaskResult(None, None, None, None))))
  {
    CardAt(m, i);
    ClearResultOf(m, i);
    var cleared := ClearTaskResult(m, m.tasks[i].taskId).after;
    CardAt(cleared, i);
    SetTaskStateSucceedsIff(cleared, m.tasks[i].taskId, Todo);
    SetStateOf(cleared, i, Todo);
  }

  /** Rework sends a card that is in review or done back to do, without its result. */
  lemma ReworkEffect(m: Manifest, i: nat)
    requires WellFormed(m) && i < |m.tasks|
    ensures var a, t := Perform(m, TeamOp.Rework(m.tasks[i].taskId)), m.tasks[i];
            && (a.ok <==> t.state == Review || t.state == Done)
            && (a.ok ==> Refreshed(m, a.after) && OnlyCard(m, a.after, i,
                  t.(state := Todo, supersededBy := None, result := TaskResult(None, None, None, None))))
  {
    ReworkOf(m, i);
  }

  lemma CancelOf(m: Manifest, i: nat)
    requires WellFormed(m) && i < |m.tasks|
    ensures var a, t := CancelTask(m, m.tasks[i].taskId), m.tasks[i];
            && (a.ok <==> t.state != Done && t.state != Cancelled && t.state != Superseded)
            && (a.ok ==> OnlyCard(m, a.after, i, t.(state := Cancelled, supersededBy := None)) && Refreshed(m, a.after))
  {
    CardAt(m, i);
    SetTaskStateSucceedsIff(m, m.tasks[i].taskId, Cancelled);
    SetStateOf(m, i, Cancelled);
  }

  /** Cancelling refuses cards that are done, cancelled or superseded. */
  lemma CancelEffect(m: Manifest, i: nat)
    requires WellFormed(m) && i < |m.tasks|
    ensures var a, t := Perform(m, TeamOp.Cancel(m.tasks[i].taskId)), m.tasks[i];
            && (a.ok <==> t.state != Done && t.state != Cancelled && t.state != Superseded)
            && (a.ok ==> OnlyCard(m, a.after, i, t.(state := Cancelled, supersededBy := None)) && Refreshed(m, a.after))
  {
    CancelOf(m, i);
  }

  /** Superseding records the replacement with the card. */
  lemma SupersedeEffect(m: Manifest, i: nat, replacement: string)
    requires WellFormed(m) && i < |m.tasks|
    ensures var a, t := Perform(m, TeamOp.Supersede(m.tasks[i].taskId, replacement)), m.tasks[i];
            a.ok ==> && OnlyCard(m, a.after, i, t.(state := Superseded, supersededBy := Some(replacement)))
                     && Refreshed(m, a.after)
  {
    CardAt(m, i);
  }

  lemma BindSlotEffect(m: Manifest, i: nat, slotId: string, branch: string)
    requires DistinctTasks(m.tasks) && i < |m.tasks|
    ensures var n, t := Perform(m, TeamOp.BindSlot(m.tasks[i].taskId, slotId, branch)).after, m.tasks[i];
            OnlyCard(m, n, i, t.(slotId := Some(slotId), branchName := Some(branch))) && n.status == m.status
  {
    CardAt(m, i);
  }

  /** Delegation writes the owner of a card that is to do, if the target is a member. */
  lemma DelegateEffect(m: Manifest, i: nat, target: string)
    requires WellFormed(m) && i < |m.tasks|
    ensures var a, t := Perform(m, TeamOp.Delegate(m.tasks[i].taskId, target)), m.tasks[i];
            && (a.ok <==> t.state == Todo && target in MemberIds(m))
            && (a.ok ==> OnlyCard(m, a.after, i, t.(ownerId := target)) && a.after.status == m.status)
  {
    CardAt(m, i);
    KnownIff(m, target);
  }

  /** Adding appends the card as it is; only the application's add refreshes. */
  lemma AppendEffect(m: Manifest, t: Task)
    ensures var a := Perform(m, TeamOp.AddTask(t));
            a.ok ==> a.after == m.(tasks := m.tasks + [t], status := a.after.status) && Refreshed(m, a.after)
    ensures var a := Perform(m, TeamOp.AddTaskOnly(t)); a.ok ==> a.after == m.(tasks := m.tasks + [t])
  {
  }

  lemma GenerateOf(m: Manifest, t: Task, planId: string)
    ensures var a := TeamModel.GenerateTask(m, planId, t);
            a.ok ==>
              && a.after == m.(tasks := m.tasks + [t], plans := a.after.plans) && |a.after.plans| == |m.plans|
              && exists k :: 0 <= k < |m.plans| && m.plans[k].planId == planId && m.plans[k].state == Approved
                   && a.after.plans == m.plans[k := m.plans[k].(state := Generated, generatedTaskId := Some(t.taskId))]
  {
    var a := TeamModel.GenerateTask(m, planId, t);
    if a.ok {
      var k := FindPlan(m.plans, planId).value;
      assert a.after.plans == m.plans[k := m.plans[k].(state := Generated, generatedTaskId := Some(t.taskId))];
    }
  }

  /** Generating appends the card as it is and marks the one approved plan item with the id. */
  lemma GenerateEffect(m: Manifest, t: Task, planId: string)
    ensures var a := Perform(m, TeamOp.GenerateTask(planId, t));
            a.ok ==>
              && a.after == m.(tasks := m.tasks + [t], plans := a.after.plans) && |a.after.plans| == |m.plans|
              && exists k :: 0 <= k < |m.plans| && m.plans[k].planId == planId && m.plans[k].state == Approved
                   && a.after.plans == m.plans[k := m.plans[k].(state := Generated, generatedTaskId := Some(t.taskId))]
  {
    GenerateOf(m, t, planId);
  }

  // ---------------------------------------------------------------------------
  // Members, leads and plan items
  // ---------------------------------------------------------------------------

  lemma MemberAt(m: Manifest, k: nat)
    requires MembersOk(m) && k < |m.members|
    ensures m.members[k].memberId != m.lead.memberId && FindMember(m.members, m.members[k].memberId) == Some(k)
  {
  }

  /** Assigning a slot writes the slot and branch of the founding lead or of the one member with
      the id, and fails only for an unknown id. */
  lemma AssignSlotEffect(m: Manifest, id: string, k: nat, slotId: string, branch: string)
    requires WellFormed(m) && k < |m.members|
    ensures Perform(m, TeamOp.AssignSlot(id, slotId, branch)).ok <==> id in MemberIds(m)
    ensures Perform(m, TeamOp.AssignSlot(m.lead.memberId, slotId, branch)).after
            == m.(lead := m.lead.(slotId := Some(slotId), branchName := Some(branch)))
    ensures Perform(m, TeamOp.AssignSlot(m.members[k].memberId, slotId, branch)).after
            == m.(members := m.members[k := m.members[k].(slotId := Some(slotId), branchName := Some(branch))])
  {
    KnownIff(m, id);
    AssignSlotSucceedsIff(m, id, slotId, branch);
    MemberAt(m, k);
  }

  /** `after` is `before` under the change `c`: untouched without one, else what the change says. */
  ghost predicate Overridden<T>(before: T, c: Option<T>, after: T) {
    if c == None then after == before else c == Some(after)
  }

  ghost predicate PolicyChanged(x: Policy, c: PolicyChange, y: Policy) {
    && Overridden(x.runtime, c.runtime, y.runtime) && Overridden(x.model, c.model, y.model)
    && Overridden(x.fallbackRuntime, c.fallbackRuntime, y.fallbackRuntime)
    && Overridden(x.fallbackModel, c.fallbackModel, y.fallbackModel) && Overridden(x.routing, c.routing, y.routing)
  }

  /** A policy change overwrites exactly the settings that it names, each with its own value. */
  lemma PolicyEffect(m: Manifest, id: string, k: nat, c: PolicyChange)
    requires WellFormed(m) && k < |m.members|
    ensures Perform(m, TeamOp.UpdatePolicy(id, c)).ok <==> id in MemberIds(m)
    ensures var n := Perform(m, TeamOp.UpdatePolicy(m.lead.memberId, c)).after;
            n == m.(lead := m.lead.(policy := n.lead.policy)) && PolicyChanged(m.lead.policy, c, n.lead.policy)
    ensures var n := Perform(m, TeamOp.UpdatePolicy(m.members[k].memberId, c)).after;
            && |n.members| == |m.members| && PolicyChanged(m.members[k].policy, c, n.members[k].policy)
            && n == m.(members := m.members[k := m.members[k].(policy := n.members[k].policy)])
  {
    MemberAt(m, k);
    PolicySucceedsIff(m, id, c);
  }

  lemma PolicySucceedsIff(m: Manifest, id: string, c: PolicyChange)
    requires WellFormed(m)
    ensures TeamModel.UpdatePolicy(m, id, c).ok <==> id in MemberIds(m)
  {
    KnownIff(m, id);
    if KnownMember(m, id) { SameMemberIdSets(m, TeamModel.UpdatePolicy(m, id, c).after); }
  }

  /** Adding appends a member with a new, nonblank id. */
  lemma AddMemberEffect(m: Manifest, x: Member)
    requires WellFormed(m)
    ensures var a := Perform(m, TeamOp.AddMember(x));
            && (a.ok <==> x.memberId !in MemberIds(m) && !Blank(x.memberId))
            && (a.ok ==> a.after == m.(members := m.members + [x]))
  {
    KnownIff(m, x.memberId);
    var n := m.(members := m.members + [x]);
    assert forall id :: id in MemberIds(m) ==> id in MemberIds(n) by {
      assert forall y :: y in m.members ==> y in n.members;
    }
    assert x in n.members && n.members[|m.members|] == x;
    if !KnownMember(m, x.memberId) {
      forall i | 0 <= i < |m.members| ensures n.members[i] == m.members[i] && n.members[i].memberId in MemberIds(m) {
        assert m.members[i] in m.members;
      }
      KeepsRest(m, n);
    }
  }

  /** Adding a member invalidates nothing but, perhaps, the member list itself. */
  lemma KeepsRest(m: Manifest, n: Manifest)
    requires WellFormed(m) && n == m.(members := n.members) && MemberIds(m) <= MemberIds(n)
    ensures WellFormed(n) <==> MembersOk(n)
  {
    forall i | 0 <= i < |m.tasks| ensures TaskOk(n.tasks[i], MemberIds(n)) && LinksOk(n.tasks[i], TaskIds(n.tasks)) {
      assert TaskOk(m.tasks[i], MemberIds(m)) && LinksOk(m.tasks[i], TaskIds(m.tasks));
    }
    forall i | 0 <= i < |m.plans| ensures PlanOk(n.plans[i], MemberIds(n), TaskIds(n.tasks)) {
      assert PlanOk(m.plans[i], MemberIds(m), TaskIds(m.tasks));
    }
  }

  /** Removing keeps every other member, in order. */
  lemma RemoveMemberEffect(m: Manifest, k: nat)
    requires MembersOk(m) && k < |m.members|
    ensures var a := Perform(m, TeamOp.RemoveMember(m.members[k].memberId));
            a.ok ==> a.after == m.(members := m.members[..k] + m.members[k + 1..])
  {
    WithoutOne(m.members, k);
  }

  lemma {:induction false} WithoutOne(members: seq<Member>, k: nat)
    requires k < |members| && forall i :: 0 <= i < |members| && i != k ==> members[i].memberId != members[k].memberId
    ensures Without(members, members[k].memberId) == members[..k] + members[k + 1..]
  {
    var init, last, id := members[..|members| - 1], members[|members| - 1], members[k].memberId;
    assert members == init + [last];
    if k < |init| {
      assert forall i :: 0 <= i < |init| ==> init[i] == members[i];
      WithoutOne(init, k);
      assert last.memberId != id && Without(members, id) == Without(init, id) + [last];
      Regroup(init, k, last);
    } else {
      forall x | x in init ensures x.memberId != id {
        var i :| 0 <= i < |init| && init[i] == x;
        assert members[i] == x;
      }
      assert Without(init, id) == init && members[..k] + members[k + 1..] == init;
    }
  }

  lemma Regroup(init: seq<Member>, k: nat, last: Member)
    requires k < |init|
    ensures (init + [last])[..k] + (init + [last])[k + 1..] == init[..k] + init[k + 1..] + [last]
  {
  }

  /** The current lead, and the session bound to it. */
  lemma LeadEffect(m: Manifest, id: string, session: Option<string>)
    requires WellFormed(m)
    ensures var a := Perform(m, TeamOp.PromoteLead(id));
            && (a.ok <==> id in MemberIds(m))
            && (a.ok ==> a.after == m.(currentLeadId := Some(id), leadSessionId := None))
    ensures var a := Perform(m, TeamOp.BindLeadSession(id, session));
            && (a.ok <==> id == (if m.currentLeadId.Some? then m.currentLeadId.value else m.lead.memberId))
            && (a.ok ==> a.after == m.(leadSessionId := session))
  {
    KnownIff(m, id);
    SameMemberIdSets(m, m.(currentLeadId := Some(id), leadSessionId := None));
    SameMemberIdSets(m, m.(leadSessionId := session));
  }

  /** Adding a plan item appends it as it is, and refuses a known id. */
  lemma AddPlanEffect(m: Manifest, p: Plan)
    ensures var a := Perform(m, TeamOp.AddPlan(p));
            && (a.ok ==> a.after == m.(plans := m.plans + [p]) && forall q :: q in m.plans ==> q.planId != p.planId)
            && ((exists q :: q in m.plans && q.planId == p.planId) ==> !a.ok)
  {
  }

  /** Approving moves a draft to approved, and refuses any other plan item. */
  lemma ApproveEffect(m: Manifest, k: nat)
    requires WellFormed(m) && k < |m.plans|
    ensures var a := Perform(m, TeamOp.ApprovePlan(m.plans[k].planId));
            && (a.ok <==> m.plans[k].state == Draft)
            && (a.ok ==> a.after == m.(plans := m.plans[k := m.plans[k].(state := Approved)]))
  {
    assert FindPlan(m.plans, m.plans[k].planId) == Some(k);
    var n := m.(plans := m.plans[k := m.plans[k].(state := Approved)]);
    SameMemberIdSets(m, n);
    forall i | 0 <= i < |m.plans|
      ensures PlanOk(n.plans[i], MemberIds(n), TaskIds(n.tasks)) <==> i != k || m.plans[k].generatedTaskId.None?
    {
      assert PlanOk(m.plans[i], MemberIds(m), TaskIds(m.tasks));
    }
  }

  // ---------------------------------------------------------------------------
  // Reset
  // ---------------------------------------------------------------------------

  /** A card after a reset. */
  ghost predicate ResetCard(t: Task, u: Task) {
    && u.state == Todo && u.slotId == None && u.branchName == None && u.supersededBy == None
    && u.result.summary == None && u.result.sessionId == None && u.result.note == None && u.result.log == None
    && u.taskId == t.taskId && u.ownerId == t.ownerId && u.dependsOn == t.dependsOn
    && u.runtime == t.runtime && u.model == t.model && u.readOnly == t.readOnly
  }

  /** A member after a reset. */
  ghost predicate ResetMember(x: Member, y: Member) {
    && y.slotId == None && y.branchName == None
    && y.memberId == x.memberId && y.executionMode == x.executionMode
    && y.readOnly == x.readOnly && y.policy == x.policy
  }

  /** A reset empties what the team's work has left, and keeps who and what the team is. */
  lemma ResetEffect(m: Manifest)
    ensures var n := Perform(m, TeamOp.Reset).after;
            && |n.tasks| == |m.tasks| && (forall i :: 0 <= i < |m.tasks| ==> ResetCard(m.tasks[i], n.tasks[i]))
            && |n.members| == |m.members|
            && (forall i :: 0 <= i < |m.members| ==> ResetMember(m.members[i], n.members[i]))
            && ResetMember(m.lead, n.lead)
            && |n.plans| == |m.plans|
            && (forall i :: 0 <= i < |m.plans| ==>
                  n.plans[i].state == Draft && n.plans[i].generatedTaskId == None
                  && n.plans[i].planId == m.plans[i].planId && n.plans[i].ownerId == m.plans[i].ownerId)
            && n.leadSessionId == None && n.status == Planning && n.currentLeadId == m.currentLeadId
            && n.version == m.version && n.teamId == m.teamId && n.repoId == m.repoId
            && n.objective == m.objective && n.routing == m.routing
  {
  }

  /** A new team's manifest. */
  lemma StarterEffect(teamId: string, repoId: string, objective: string, mode: ExecutionMode,
                      runtime: Option<string>, model: Option<string>, fr: Option<string>, fm: Option<string>)
    ensures var m := Starter(teamId, repoId, objective, mode, runtime, model, fr, fm);
            && m.version == 1 && m.teamId == teamId && m.repoId == repoId && m.objective == objective
            && m.lead.memberId == "lead" && m.currentLeadId == Some("lead") && m.leadSessionId == None
            && m.lead.executionMode == mode && m.lead.readOnly && m.lead.slotId == None && m.lead.branchName == None
            && m.lead.policy.runtime == runtime && m.lead.policy.model == model
            && m.lead.policy.fallbackRuntime == fr && m.lead.policy.fallbackModel == fm && m.lead.policy.routing == None
  {
  }

  // ---------------------------------------------------------------------------
  // Reconciliation
  // ---------------------------------------------------------------------------

  /** The state of a card after reconciliation, from what the store says about its slot. */
  ghost predicate ReconciledState(t: Task, f: StoreFacts, after: TaskState) {
    if t.slotId == None || t.state == Cancelled || t.state == Superseded then after == t.state
    else
      var s := t.slotId.value;
      if s in f.running then after == InProgress
      else if s in f.endings then
        if !f.endings[s].completed || (t.taskId in f.verdicts && !f.verdicts[t.taskId].passed)
        then after == TaskState.Blocked
        else if t.state == Done then after == Done
        else after == Review
      else if t.state == InProgress && s in f.gone then after == TaskState.Blocked
      else after == t.state
  }

  /** A finished session is looked at: nothing is running and the card is not retired. */
  predicate Ended(t: Task, f: StoreFacts) {
    && t.slotId.Some? && t.state != Cancelled && t.state != Superseded
    && t.slotId.value !in f.running && t.slotId.value in f.endings
  }

  /** The result of a card after reconciliation: that of the newest finished session, if one is
      looked at, under the verification command's summary if it ran. */
  ghost predicate ReconciledResult(t: Task, f: StoreFacts, after: TaskResult) {
    if !Ended(t, f) then after == t.result
    else
      var e := f.endings[t.slotId.value];
      && after.sessionId == Some(e.sessionId) && after.log == e.log && after.note == e.note
      && after.summary
         == Some(if e.completed && t.taskId in f.verdicts then f.verdicts[t.taskId].summary else e.summary)
  }

  /** The binding of a card after reconciliation: slot and branch are dropped if the slot is gone
      and has no live session, and the branch if there is no slot. */
  ghost predicate ReconciledBinding(t: Task, f: StoreFacts, slotId: Option<string>, branch: Option<string>) {
    if t.slotId == None then slotId == None && branch == None
    else
      var s := t.slotId.value;
      if s in f.gone && s !in f.live && (s !in f.running || t.state == Cancelled || t.state == Superseded)
      then slotId == None && branch == None
      else slotId == t.slotId && branch == t.branchName
  }

  /** One card, with everything else about it unchanged. */
  ghost predicate ReconciledCard(t: Task, f: StoreFacts, u: Task) {
    && ReconciledState(t, f, u.state) && ReconciledResult(t, f, u.result)
    && ReconciledBinding(t, f, u.slotId, u.branchName)
    && u == t.(state := u.state, result := u.result, slotId := u.slotId, branchName := u.branchName)
  }

  lemma ReconcileCard(t: Task, f: StoreFacts)
    ensures ReconciledCard(t, f, ReconcileTask(t, f).0)
  {
  }

  /** What reconciliation leaves in memory of an unarchived team: every card by the facts, members
      that keep a binding exactly with a bound and not abandoned slot, the lead session exactly if it
      is live, and a derived status if anything counts as changed. An archived team is left alone. */
  lemma ReconcileEffect(m: Manifest, f: StoreFacts)
    ensures var n := InMemory(m, f);
            if m.status == Archived then n == m
            else
              && |n.tasks| == |m.tasks|
              && (forall i :: 0 <= i < |m.tasks| ==> ReconciledCard(m.tasks[i], f, n.tasks[i]))
              && |n.members| == |m.members|
              && (forall i :: 0 <= i < |m.members| ==> ReconciledMember(m.members[i], n.tasks, f, n.members[i]))
              && ReconciledMember(m.lead, n.tasks, f, n.lead)
              && (if m.leadSessionId.Some? && m.leadSessionId.value in f.liveSessions
                  then n.leadSessionId == m.leadSessionId else n.leadSessionId == None)
              && n.status == (if ReconcileChanges(m, f) then DeriveStatus(n.tasks) else m.status)
              && n == m.(tasks := n.tasks, members := n.members, lead := n.lead,
                         leadSessionId := n.leadSessionId, status := n.status)
  {
    forall i | 0 <= i < |m.tasks| ensures ReconciledCard(m.tasks[i], f, ReconcileTasks(m.tasks, f)[i]) {
      ReconcileCard(m.tasks[i], f);
    }
    ReconciledMembers(m, f);
  }

  ghost predicate ReconciledMember(x: Member, tasks: seq<Task>, f: StoreFacts, y: Member) {
    if x.slotId.Some? && (exists t :: t in tasks && t.slotId == x.slotId)
       && !(x.slotId.value in f.gone && x.slotId.value !in f.live)
    then y == x
    else y == x.(slotId := None, branchName := None)
  }

  lemma ReconciledMembers(m: Manifest, f: StoreFacts)
    ensures var n := Reconciled(m, f);
            && (forall i :: 0 <= i < |m.members| ==> ReconciledMember(m.members[i], n.tasks, f, n.members[i]))
            && ReconciledMember(m.lead, n.tasks, f, n.lead)
  {
    var n := Reconciled(m, f);
    forall x: Member ensures ReconciledMember(x, n.tasks, f, ReconcileMember(x, BoundSlots(n.tasks), f)) {
    }
  }

  /** A change is reported exactly when a card's state or binding, a member's binding or the lead
      session differs afterwards, or a verification failed. */
  lemma ReconcileChangesIff(m: Manifest, f: StoreFacts)
    ensures var n := Reconciled(m, f);
            ReconcileChanges(m, f) <==>
            || (exists i :: 0 <= i < |m.tasks| && CardMoved(m.tasks[i], f, n.tasks[i]))
            || n.lead != m.lead || n.members != m.members || n.leadSessionId != m.leadSessionId
  {
    var n := Reconciled(m, f);
    var bound := BoundSlots(n.tasks);
    forall i | 0 <= i < |m.tasks| ensures ReconcileTask(m.tasks[i], f).1 <==> CardMoved(m.tasks[i], f, n.tasks[i]) {
      CardMovedIff(m.tasks[i], f);
    }
    forall i | 0 <= i < |m.members| ensures MemberStale(m.members[i], bound, f) <==> n.members[i] != m.members[i] {
    }
    if n.members != m.members {
      assert exists i :: 0 <= i < |m.members| && n.members[i] != m.members[i];
    }
  }

  ghost predicate CardMoved(t: Task, f: StoreFacts, u: Task) {
    || u.state != t.state || u.slotId != t.slotId || u.branchName != t.branchName
    || (Ended(t, f) && f.endings[t.slotId.value].completed && t.taskId in f.verdicts && !f.verdicts[t.taskId].passed)
  }

  lemma CardMovedIff(t: Task, f: StoreFacts)
    ensures ReconcileTask(t, f).1 <==> CardMoved(t, f, ReconcileTask(t, f).0)
  {
  }
}
