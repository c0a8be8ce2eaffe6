/** Every way the application changes a persisted team manifest, as one step function; when each
    mutator succeeds on a well-formed manifest; and which changes keep it well-formed without
    validating. */
module TeamRuns {
  import opened Wrappers
  import opened TeamModel

  // ---------------------------------------------------------------------------
  // Reconciliation with the slot and session tables
  // ---------------------------------------------------------------------------

  /** How the newest finished session on a slot ended, and what reconciliation records of it. */
  datatype Ending = Ending(completed: bool, sessionId: string, log: Option<string>,
                           note: Option<string>, summary: string)

  /** What running a task's verification command said. */
  datatype Verdict = Verdict(passed: bool, summary: string)

  /** The store's answers, by slot id: no slot record or a released one; a running session;
      a non-terminal session; the newest terminal session. `verdicts` are by task id, for the
      tasks that have a verification command and a slot record; `liveSessions` are the ids of
      recorded non-terminal sessions. */
  datatype StoreFacts = StoreFacts(gone: set<string>, running: set<string>, live: set<string>,
                                   endings: map<string, Ending>, verdicts: map<string, Verdict>,
                                   liveSessions: set<string>)

  function UnboundTask(t: Task): Task {
    t.(slotId := None, branchName := None)
  }

  /** The verification command runs only after a session that completed. */
  function VerdictOn(t: Task, e: Ending, f: StoreFacts): Option<Verdict> {
    if e.completed && t.taskId in f.verdicts then Some(f.verdicts[t.taskId]) else None
  }

  function Recorded(t: Task, e: Ending, v: Option<Verdict>): Task {
    t.(result := TaskResult(Some(if v.Some? then v.value.summary else e.summary), Some(e.sessionId), e.note, e.log))
  }

  /** The state a finished session moves its task to, and whether that counts as a change. */
  function EndedState(s: TaskState, e: Ending, v: Option<Verdict>): (TaskState, bool) {
    if !e.completed then (TaskState.Blocked, s != TaskState.Blocked)
    else if v.Some? && !v.value.passed then (TaskState.Blocked, true)
    else if s == Done || s == Review then (s, false)
    else (Review, true)
  }

  /** One iteration of the task loop: the task it leaves and whether it set `changed`. */
  function ReconcileTask(t: Task, f: StoreFacts): (Task, bool) {
    match t.slotId
    case None => (t.(branchName := None), t.branchName.Some?)
    case Some(s) =>
      var free := s in f.gone && s !in f.live;
      if Retired(t.state) then (if free then (UnboundTask(t), true) else (t, false))
      else if s in f.running then (t.(state := InProgress), t.state != InProgress)
      else
        var (settled, moved) :=
          if s in f.endings then
            var e := f.endings[s];
            var (state, moved) := EndedState(t.state, e, VerdictOn(t, e, f));
            (Recorded(t.(state := state), e, VerdictOn(t, e, f)), moved)
          else if t.state == InProgress && s in f.gone then (t.(state := TaskState.Blocked), true)
          else (t, false);
        if free then (UnboundTask(settled), true) else (settled, moved)
  }

  function ReconcileTasks(tasks: seq<Task>, f: StoreFacts): seq<Task> {
    seq(|tasks|, i requires 0 <= i < |tasks| => ReconcileTask(tasks[i], f).0)
  }

  function BoundSlots(tasks: seq<Task>): set<string> {
    set t | t in tasks && t.slotId.Some? :: t.slotId.value
  }

  predicate MemberStale(x: Member, bound: set<string>, f: StoreFacts) {
    match x.slotId
    case None => x.branchName.Some?
    case Some(s) => s !in bound || (s !in f.live && s in f.gone)
  }

  function ReconcileMember(x: Member, bound: set<string>, f: StoreFacts): Member {
    if MemberStale(x, bound, f) then Unbound(x) else x
  }

  predicate LeadSessionStale(m: Manifest, f: StoreFacts) {
    m.leadSessionId.Some? && m.leadSessionId.value !in f.liveSessions
  }

  predicate ReconcileChanges(m: Manifest, f: StoreFacts) {
    var bound := BoundSlots(ReconcileTasks(m.tasks, f));
    || (exists i :: 0 <= i < |m.tasks| && ReconcileTask(m.tasks[i], f).1)
    || MemberStale(m.lead, bound, f)
    || (exists i :: 0 <= i < |m.members| && MemberStale(m.members[i], bound, f))
    || LeadSessionStale(m, f)
  }

  function Reconciled(m: Manifest, f: StoreFacts): Manifest {
    var tasks := ReconcileTasks(m.tasks, f);
    var bound := BoundSlots(tasks);
    m.(tasks := tasks,
       lead := ReconcileMember(m.lead, bound, f),
       members := seq(|m.members|, i requires 0 <= i < |m.members| => ReconcileMember(m.members[i], bound, f)),
       leadSessionId := if LeadSessionStale(m, f) then None else m.leadSessionId)
  }

  /** An archived team is left alone; otherwise the manifest is saved only when something changed. */
  ghost function ReconcileManifest(m: Manifest, f: StoreFacts): Attempt {
    if m.status == Archived || !ReconcileChanges(m, f) then Attempt(m, true)
    else Checked(RefreshStatus(Reconciled(m, f)))
  }

  /** Delegation writes the owner of a task that is still to do; the save validates it. */
  ghost function DelegateOwner(m: Manifest, id: string, target: string): Attempt {
    if !KnownMember(m, target) then Refused(m)
    else
      match FindTask(m.tasks, id)
      case None => Refused(m)
      case Some(i) =>
        if m.tasks[i].state != Todo then Refused(m)
        else Attempt(PutTask(m, i, m.tasks[i].(ownerId := target)), true)
  }

  // ---------------------------------------------------------------------------
  // Steps and runs
  // ---------------------------------------------------------------------------

  /** `AddTask` is the application's operation, which refreshes the status after adding;
      `AddTaskOnly` is the command runner's, which does not. */
  datatype TeamOp =
    | AddMember(member: Member)
    | UpdatePolicy(id: string, change: PolicyChange)
    | RemoveMember(id: string)
    | PromoteLead(id: string)
    | AssignSlot(id: string, slotId: string, branch: string)
    | BindLeadSession(id: string, session: Option<string>)
    | AddPlan(plan: Plan)
    | ApprovePlan(id: string)
    | GenerateTask(id: string, task: Task)
    | AddTask(task: Task)
    | AddTaskOnly(task: Task)
    | SetState(id: string, state: TaskState)
    | Accept(id: string)
    | Rework(id: string)
    | Cancel(id: string)
    | Supersede(id: string, replacement: string)
    | BindSlot(id: string, slotId: string, branch: string)
    | ClearResult(id: string)
    | Delegate(id: string, target: string)
    | Archive
    | Reset
    | Reconcile(facts: StoreFacts)

  ghost function Perform(m: Manifest, op: TeamOp): Attempt {
    match op
    case AddMember(x) => TeamModel.AddMember(m, x)
    case UpdatePolicy(id, c) => TeamModel.UpdatePolicy(m, id, c)
    case RemoveMember(id) => TeamModel.RemoveMember(m, id)
    case PromoteLead(id) => TeamModel.PromoteLead(m, id)
    case AssignSlot(id, s, b) => AssignMemberSlot(m, id, s, b)
    case BindLeadSession(id, s) => TeamModel.BindLeadSession(m, id, s)
    case AddPlan(p) => TeamModel.AddPlan(m, p)
    case ApprovePlan(id) => TeamModel.ApprovePlan(m, id)
    case GenerateTask(id, t) => TeamModel.GenerateTask(m, id, t)
    case AddTask(t) => var a := TeamModel.AddTask(m, t); Attempt(RefreshStatus(a.after), a.ok)
    case AddTaskOnly(t) => TeamModel.AddTask(m, t)
    case SetState(id, s) => SetTaskState(m, id, s)
    case Accept(id) => AcceptTask(m, id)
    case Rework(id) => RequestRework(m, id)
    case Cancel(id) => CancelTask(m, id)
    case Supersede(id, r) => SupersedeTask(m, id, r)
    case BindSlot(id, s, b) => BindTaskSlot(m, id, s, b)
    case ClearResult(id) => ClearTaskResult(m, id)
    case Delegate(id, target) => DelegateOwner(m, id, target)
    case Archive => TeamModel.Archive(m)
    case Reset => Attempt(TeamModel.Reset(m), true)
    case Reconcile(f) => ReconcileManifest(m, f)
  }

  /** Load, mutate, save: the file changes only if the call succeeds and the save's own
      validation accepts the result. */
  ghost function Step(m: Manifest, op: TeamOp): Manifest {
    var a := Perform(m, op);
    Commit(m, Attempt(a.after, a.ok && WellFormed(a.after)))
  }

  ghost function Run(m: Manifest, ops: seq<TeamOp>): Manifest
    decreases |ops|
  {
    if ops == [] then m else Step(Run(m, ops[..|ops| - 1]), ops[|ops| - 1])
  }

  ghost predicate IsFresh(m: Manifest) {
    WellFormed(m) && m.status == Planning && m.tasks == [] && m.plans == [] && m.members == []
  }

  /** A team can be initialised exactly under nonblank team, repository and objective. */
  lemma StarterIsFreshIff(teamId: string, repoId: string, objective: string, mode: ExecutionMode,
                          runtime: Option<string>, model: Option<string>, fr: Option<string>, fm: Option<string>,
                          routing: Option<Routing>)
    ensures IsFresh(Starter(teamId, repoId, objective, mode, runtime, model, fr, fm).(routing := routing))
            <==> !Blank(teamId) && !Blank(repoId) && !Blank(objective)
  {
    var m := Starter(teamId, repoId, objective, mode, runtime, model, fr, fm);
    assert m.lead.memberId in MemberIds(m);
  }

  // ---------------------------------------------------------------------------
  // Well-formedness: what the non-validating mutators keep, and when calls succeed
  // ---------------------------------------------------------------------------

  lemma RefreshKeepsWellFormed(m: Manifest)
    requires WellFormed(m)
    ensures WellFormed(RefreshStatus(m))
  {
    assert MemberIds(RefreshStatus(m)) == MemberIds(m);
  }

  /** Lists with the same ids in the same places. */
  ghost predicate SameTaskIds(a: seq<Task>, b: seq<Task>) {
    |a| == |b| && forall i :: 0 <= i < |a| ==> a[i].taskId == b[i].taskId
  }

  lemma SameTaskIdSets(a: seq<Task>, b: seq<Task>)
    requires SameTaskIds(a, b)
    ensures TaskIds(a) == TaskIds(b)
  {
    forall id ensures id in TaskIds(a) <==> id in TaskIds(b) {
      if id in TaskIds(a) { var i :| 0 <= i < |a| && a[i].taskId == id; assert b[i] in b; }
      if id in TaskIds(b) { var i :| 0 <= i < |b| && b[i].taskId == id; assert a[i] in a; }
    }
  }

  lemma SameMemberIdSets(m: Manifest, n: Manifest)
    requires m.lead.memberId == n.lead.memberId && |m.members| == |n.members|
    requires forall i :: 0 <= i < |m.members| ==> m.members[i].memberId == n.members[i].memberId
    ensures MemberIds(m) == MemberIds(n)
  {
    forall id ensures id in MemberIds(m) <==> id in MemberIds(n) {
      if id in MemberIds(m) && id != m.lead.memberId {
        var i :| 0 <= i < |m.members| && m.members[i].memberId == id; assert n.members[i] in n.members;
      }
      if id in MemberIds(n) && id != m.lead.memberId {
        var i :| 0 <= i < |n.members| && n.members[i].memberId == id; assert m.members[i] in m.members;
      }
    }
  }

  lemma ResetKeepsWellFormed(m: Manifest)
    requires WellFormed(m)
    ensures WellFormed(TeamModel.Reset(m))
  {
    var n := TeamModel.Reset(m);
    SameTaskIdSets(m.tasks, n.tasks);
    SameMemberIdSets(m, n);
    forall i | 0 <= i < |n.tasks| ensures LinksOk(n.tasks[i], TaskIds(n.tasks)) && TaskOk(n.tasks[i], MemberIds(n)) {
      assert LinksOk(m.tasks[i], TaskIds(m.tasks)) && TaskOk(m.tasks[i], MemberIds(m));
    }
    forall i | 0 <= i < |n.plans| ensures PlanOk(n.plans[i], MemberIds(n), TaskIds(n.tasks)) {
      assert PlanOk(m.plans[i], MemberIds(m), TaskIds(m.tasks));
    }
  }

  /** Archiving and resetting, which never validate, and refreshing keep a manifest well-formed. */
  lemma UnvalidatedMutatorsKeepWellFormed(m: Manifest)
    requires WellFormed(m)
    ensures WellFormed(TeamModel.Archive(m).after)
    ensures WellFormed(TeamModel.Reset(m))
    ensures WellFormed(RefreshStatus(m))
    ensures WellFormed(m.(leadSessionId := None))
  {
    ResetKeepsWellFormed(m);
    RefreshKeepsWellFormed(m);
    assert MemberIds(TeamModel.Archive(m).after) == MemberIds(m) == MemberIds(m.(leadSessionId := None));
  }

  /** Rewriting one task so that its id, owner and dependencies stay and its link matches its state. */
  lemma PutTaskKeepsWellFormed(m: Manifest, i: nat, t: Task)
    requires WellFormed(m) && i < |m.tasks|
    requires t.taskId == m.tasks[i].taskId && t.dependsOn == m.tasks[i].dependsOn
    requires t.ownerId in MemberIds(m)
    ensures WellFormed(PutTask(m, i, t)) <==> LinksOk(t, TaskIds(m.tasks))
  {
    var n := PutTask(m, i, t);
    SameTaskIdSets(m.tasks, n.tasks);
    assert MemberIds(n) == MemberIds(m);
    assert TaskOk(m.tasks[i], MemberIds(m));
    assert LinksOk(n.tasks[i], TaskIds(n.tasks)) == LinksOk(t, TaskIds(m.tasks));
  }

  lemma RefreshWellFormedIff(m: Manifest)
    ensures WellFormed(RefreshStatus(m)) <==> WellFormed(m)
  {
    assert MemberIds(RefreshStatus(m)) == MemberIds(m);
  }

  /** On a well-formed manifest, setting a task's state fails only for an unknown task, or for
      target Superseded on a task that is not superseded already. */
  lemma SetTaskStateSucceedsIff(m: Manifest, id: string, s: TaskState)
    requires WellFormed(m)
    ensures SetTaskState(m, id, s).ok <==>
            FindTask(m.tasks, id).Some? &&
            (s == Superseded ==> m.tasks[FindTask(m.tasks, id).value].state == Superseded)
  {
    match FindTask(m.tasks, id) {
      case None =>
      case Some(i) =>
        assert LinksOk(m.tasks[i], TaskIds(m.tasks)) && TaskOk(m.tasks[i], MemberIds(m));
        PutTaskKeepsWellFormed(m, i, WithState(m.tasks[i], s));
        RefreshWellFormedIff(PutTask(m, i, WithState(m.tasks[i], s)));
    }
  }

  lemma KnownIff(m: Manifest, id: string)
    ensures KnownMember(m, id) <==> id in MemberIds(m)
  {
    if FindMember(m.members, id).Some? { assert m.members[FindMember(m.members, id).value] in m.members; }
  }

  lemma FoundIff(tasks: seq<Task>, id: string)
    ensures FindTask(tasks, id).Some? <==> id in TaskIds(tasks)
  {
    if FindTask(tasks, id).Some? { assert tasks[FindTask(tasks, id).value] in tasks; }
  }

  /** Assigning a slot to a member fails only for an unknown member. */
  lemma AssignSlotSucceedsIff(m: Manifest, owner: string, s: string, b: string)
    requires WellFormed(m)
    ensures var a := AssignMemberSlot(m, owner, s, b);
            (a.ok <==> KnownMember(m, owner)) && (a.ok ==> WellFormed(a.after)) && a.after.tasks == m.tasks
  {
    if KnownMember(m, owner) { SameMemberIdSets(m, AssignMemberSlot(m, owner, s, b).after); }
  }

  /** Binding a slot to a task fails only for an unknown task. */
  lemma BindSlotSucceedsIff(m: Manifest, taskId: string, s: string, b: string)
    requires WellFormed(m)
    ensures var a := BindTaskSlot(m, taskId, s, b);
            (a.ok <==> taskId in TaskIds(m.tasks)) && (a.ok ==> WellFormed(a.after))
  {
    FoundIff(m.tasks, taskId);
    if FindTask(m.tasks, taskId).Some? {
      var i := FindTask(m.tasks, taskId).value;
      assert LinksOk(m.tasks[i], TaskIds(m.tasks)) && TaskOk(m.tasks[i], MemberIds(m));
      PutTaskKeepsWellFormed(m, i, m.tasks[i].(slotId := Some(s), branchName := Some(b)));
    }
  }

  /** A task can be superseded exactly when it and a different, known replacement are both
      neither cancelled nor superseded. */
  lemma SupersedeSucceedsIff(m: Manifest, id: string, replacement: string)
    requires WellFormed(m)
    ensures SupersedeTask(m, id, replacement).ok <==>
            && id != replacement
            && (exists t :: t in m.tasks && t.taskId == id && t.state != Cancelled && t.state != Superseded)
            && (exists t ::
                  t in m.tasks && t.taskId == replacement && t.state != Cancelled && t.state != Superseded)
  {
    var a, b := FindTask(m.tasks, id), FindTask(m.tasks, replacement);
    if id != replacement && a.Some? && b.Some? {
      var i, r := a.value, b.value;
      assert m.tasks[i] in m.tasks && m.tasks[r] in m.tasks;
      assert forall k :: 0 <= k < |m.tasks| && m.tasks[k].taskId == id ==> k == i;
      assert forall k :: 0 <= k < |m.tasks| && m.tasks[k].taskId == replacement ==> k == r;
      assert LinksOk(m.tasks[i], TaskIds(m.tasks)) && TaskOk(m.tasks[i], MemberIds(m));
      var t := m.tasks[i].(state := Superseded, supersededBy := Some(replacement));
      PutTaskKeepsWellFormed(m, i, t);
      RefreshWellFormedIff(PutTask(m, i, t));
    }
  }

  /** A card is accepted exactly when its id is new and nonblank, its owner is a member, it
      depends only on earlier tasks or on itself, and it names an earlier task as its
      replacement exactly when it arrives superseded. */
  lemma AddTaskSucceedsIff(m: Manifest, t: Task)
    requires WellFormed(m)
    ensures TeamModel.AddTask(m, t).ok <==>
            && t.taskId !in TaskIds(m.tasks) && !Blank(t.taskId) && t.ownerId in MemberIds(m)
            && (forall d :: d in t.dependsOn ==> d == t.taskId || d in TaskIds(m.tasks))
            && (t.state == Superseded <==> t.supersededBy.Some?)
            && (t.supersededBy.Some? ==> t.supersededBy.value in TaskIds(m.tasks))
  {
    AddedTaskIds(m.tasks, t);
    var n := m.(tasks := m.tasks + [t]);
    assert MemberIds(n) == MemberIds(m);
    if FindTask(m.tasks, t.taskId).Some? {
      assert m.tasks[FindTask(m.tasks, t.taskId).value] in m.tasks;
    } else {
      assert t.taskId !in TaskIds(m.tasks);
      assert n.tasks[|m.tasks|] == t;
      assert WellFormed(n) ==>
               TaskOk(n.tasks[|m.tasks|], MemberIds(n)) && LinksOk(n.tasks[|m.tasks|], TaskIds(n.tasks));
      forall i | 0 <= i < |m.tasks|
        ensures n.tasks[i] == m.tasks[i] && LinksOk(n.tasks[i], TaskIds(n.tasks)) && TaskOk(n.tasks[i], MemberIds(n)) {
        assert LinksOk(m.tasks[i], TaskIds(m.tasks)) && TaskOk(m.tasks[i], MemberIds(m));
      }
      forall i | 0 <= i < |m.plans| ensures PlanOk(n.plans[i], MemberIds(n), TaskIds(n.tasks)) {
        assert PlanOk(m.plans[i], MemberIds(m), TaskIds(m.tasks));
      }
    }
  }

  /** The validation after a plan item is marked generated never fails: generation succeeds
      exactly when the item is approved and the card itself is acceptable. */
  lemma GenerateTaskSucceedsIff(m: Manifest, planId: string, t: Task)
    requires WellFormed(m)
    ensures TeamModel.GenerateTask(m, planId, t).ok <==>
            && FindPlan(m.plans, planId).Some?
            && m.plans[FindPlan(m.plans, planId).value].state == Approved
            && TeamModel.AddTask(m, t).ok
  {
    if FindPlan(m.plans, planId).Some? && TeamModel.AddTask(m, t).ok {
      var i := FindPlan(m.plans, planId).value;
      var added := TeamModel.AddTask(m, t).after;
      var n := MarkGenerated(added, planId, t.taskId).after;
      assert n.plans == added.plans[i := added.plans[i].(state := Generated, generatedTaskId := Some(t.taskId))];
      AddedTaskIds(m.tasks, t);
      assert MemberIds(n) == MemberIds(added) && n.tasks == added.tasks;
      assert PlanOk(added.plans[i], MemberIds(added), TaskIds(added.tasks));
      assert WellFormed(n);
    }
  }

  lemma WithoutMemberIds(m: Manifest, id: string)
    requires MembersOk(m) && id != m.lead.memberId
    ensures MemberIds(m.(members := Without(m.members, id))) == MemberIds(m) - {id}
  {
    var rest := Without(m.members, id);
    forall x ensures x in MemberIds(m.(members := rest)) <==> x in MemberIds(m) && x != id {
      if x in MemberIds(m) && x != id && x != m.lead.memberId {
        var y :| y in m.members && y.memberId == x;
        assert y in rest;
      }
    }
  }

  /** Dropping a member that is not a lead and owns no card leaves everything well-formed but
      the plan items that member owns. */
  lemma WithoutWellFormedIff(m: Manifest, id: string)
    requires WellFormed(m) && id != m.lead.memberId && id != CurrentLeadId(m) && !OwnsTask(m, id)
    ensures WellFormed(m.(members := Without(m.members, id))) <==> forall p :: p in m.plans ==> p.ownerId != Some(id)
  {
    var n := m.(members := Without(m.members, id));
    WithoutMemberIds(m, id);
    WithoutKeepsDistinct(m.members, id);
    assert forall i :: 0 <= i < |n.members| ==> n.members[i] in m.members;
    assert MembersOk(n);
    forall i | 0 <= i < |m.tasks| ensures TaskOk(n.tasks[i], MemberIds(n)) {
      assert TaskOk(m.tasks[i], MemberIds(m)) && m.tasks[i] in m.tasks;
    }
    forall i | 0 <= i < |m.plans|
      ensures PlanOk(n.plans[i], MemberIds(n), TaskIds(n.tasks)) <==> m.plans[i].ownerId != Some(id) {
      assert PlanOk(m.plans[i], MemberIds(m), TaskIds(m.tasks));
    }
  }

  /** A member can be removed exactly when it is not the current or founding lead and owns
      neither a task card nor a plan item. The mutator itself checks only the cards; the plan
      items are caught by the validation that follows. */
  lemma RemoveMemberSucceedsIff(m: Manifest, id: string)
    requires WellFormed(m)
    ensures TeamModel.RemoveMember(m, id).ok <==>
            && id != CurrentLeadId(m) && id != m.lead.memberId && id in MemberIds(m)
            && (forall t :: t in m.tasks ==> t.ownerId != id)
            && (forall p :: p in m.plans ==> p.ownerId != Some(id))
  {
    assert MembersOk(m);
    if id != m.lead.memberId && id != CurrentLeadId(m) && !OwnsTask(m, id) {
      WithoutWellFormedIff(m, id);
    }
  }

  lemma {:induction false} WithoutKeepsDistinct(members: seq<Member>, id: string)
    requires forall i, j :: 0 <= i < j < |members| ==> members[i].memberId != members[j].memberId
    ensures forall i, j :: 0 <= i < j < |Without(members, id)| ==>
              Without(members, id)[i].memberId != Without(members, id)[j].memberId
  {
    if |members| > 0 {
      var init := members[..|members| - 1];
      WithoutKeepsDistinct(init, id);
      forall i | 0 <= i < |Without(init, id)| ensures Without(init, id)[i].memberId != members[|members| - 1].memberId {
        assert Without(init, id)[i] in init;
      }
    }
  }

  /** Reconciliation touches a card's state, bindings and results only, and never moves a card
      into or out of Superseded. */
  lemma ReconcileTaskFrame(t: Task, f: StoreFacts)
    ensures ReconcileTask(t, f).0 ==
            t.(state := ReconcileTask(t, f).0.state,
               slotId := ReconcileTask(t, f).0.slotId,
               branchName := ReconcileTask(t, f).0.branchName,
               result := ReconcileTask(t, f).0.result)
    ensures Retired(t.state) ==> ReconcileTask(t, f).0.state == t.state
    ensures !Retired(t.state) ==> !Retired(ReconcileTask(t, f).0.state)
  {
  }

  /** Reconciliation never invalidates a well-formed manifest, whatever the store answers. */
  lemma ReconcileSucceeds(m: Manifest, f: StoreFacts)
    requires WellFormed(m)
    ensures ReconcileManifest(m, f).ok && WellFormed(ReconcileManifest(m, f).after)
  {
    var n := Reconciled(m, f);
    forall i | 0 <= i < |m.tasks| ensures n.tasks[i].taskId == m.tasks[i].taskId { ReconcileTaskFrame(m.tasks[i], f); }
    SameTaskIdSets(m.tasks, n.tasks);
    SameMemberIdSets(m, n);
    forall i | 0 <= i < |n.tasks| ensures LinksOk(n.tasks[i], TaskIds(n.tasks)) && TaskOk(n.tasks[i], MemberIds(n)) {
      assert LinksOk(m.tasks[i], TaskIds(m.tasks)) && TaskOk(m.tasks[i], MemberIds(m));
      ReconcileTaskFrame(m.tasks[i], f);
    }
    forall i | 0 <= i < |n.plans| ensures PlanOk(n.plans[i], MemberIds(n), TaskIds(n.tasks)) {
      assert PlanOk(m.plans[i], MemberIds(m), TaskIds(m.tasks));
    }
    assert WellFormed(n);
    RefreshKeepsWellFormed(n);
  }

  lemma ReconcileStep(m: Manifest, f: StoreFacts)
    requires ReconcileManifest(m, f).ok && WellFormed(ReconcileManifest(m, f).after)
    ensures Step(m, TeamOp.Reconcile(f)) == ReconcileManifest(m, f).after
  {
  }

  /** Operations whose last act is to validate: success already means well-formed. */
  predicate SelfValidating(op: TeamOp) {
    !(op.AddTask? || op.Delegate? || op.Archive? || op.Reset? || op.Reconcile?)
  }

  lemma SelfValidatingAccepts(m: Manifest, op: TeamOp)
    requires SelfValidating(op)
    ensures Perform(m, op).ok ==> WellFormed(Perform(m, op).after)
  {
  }

  lemma DelegateAccepts(m: Manifest, id: string, target: string)
    requires WellFormed(m)
    ensures DelegateOwner(m, id, target).ok ==> WellFormed(DelegateOwner(m, id, target).after)
  {
    if DelegateOwner(m, id, target).ok {
      var i := FindTask(m.tasks, id).value;
      assert LinksOk(m.tasks[i], TaskIds(m.tasks));
      assert target in MemberIds(m) by {
        if m.lead.memberId != target { assert m.members[FindMember(m.members, target).value] in m.members; }
      }
      PutTaskKeepsWellFormed(m, i, m.tasks[i].(ownerId := target));
    }
  }

  /** On a well-formed manifest the validation inside `save` never rejects what the operation accepted. */
  lemma SaveAcceptsWhatOperationsAccept(m: Manifest, op: TeamOp)
    requires WellFormed(m)
    ensures Perform(m, op).ok ==> WellFormed(Perform(m, op).after)
  {
    if SelfValidating(op) { SelfValidatingAccepts(m, op); }
    else if op.AddTask? { RefreshWellFormedIff(TeamModel.AddTask(m, op.task).after); }
    else if op.Reconcile? { ReconcileSucceeds(m, op.facts); }
    else if op.Delegate? { DelegateAccepts(m, op.id, op.target); }
    else { UnvalidatedMutatorsKeepWellFormed(m); }
  }
}
