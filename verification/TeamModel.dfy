/** Team manifests as values: the data model of `team.rs`, what a well-formed manifest is,
    and for each mutator the manifest it leaves behind. The class in TeamManifest.dfy is
    proved against these functions. */
module TeamModel {
  import opened Wrappers

  datatype ExecutionMode = ExternalSlots | InlineSubagents | MultiSessionTeam

  datatype TeamStatus = Planning | Running | Blocked | Complete | Archived

  datatype TaskState = Todo | InProgress | Review | Blocked | Done | Cancelled | Superseded {

    predicate ArchiveTerminal() {
      Done? || Blocked? || Cancelled? || Superseded?
    }

    predicate Closed() {
      Done? || Cancelled? || Superseded?
    }
  }

  datatype PlanState = Draft | Approved | Generated

  datatype Routing = Routing(allowFallback: bool, preferLocal: bool, avoidMetered: bool, maxCostTier: Option<nat>)

  /** A member's runtime and model, their fallbacks, and its routing preferences. */
  datatype Policy = Policy(runtime: Option<string>, model: Option<string>, fallbackRuntime: Option<string>,
                           fallbackModel: Option<string>, routing: Option<Routing>)

  datatype Member = Member(
    memberId: string,
    executionMode: ExecutionMode,
    readOnly: bool,
    policy: Policy,
    slotId: Option<string>,
    branchName: Option<string>)

  /** The `result_summary`, `result_session_id`, `handoff_note` and `output_log_path` of a card. */
  datatype TaskResult = TaskResult(summary: Option<string>, sessionId: Option<string>, note: Option<string>,
                                   log: Option<string>)

  datatype Task = Task(
    taskId: string,
    ownerId: string,
    runtime: Option<string>,
    model: Option<string>,
    readOnly: bool,
    dependsOn: seq<string>,
    state: TaskState,
    slotId: Option<string>,
    branchName: Option<string>,
    result: TaskResult,
    supersededBy: Option<string>)

  datatype Plan = Plan(planId: string, ownerId: Option<string>, state: PlanState, generatedTaskId: Option<string>)

  datatype Manifest = Manifest(
    version: nat,
    teamId: string,
    repoId: string,
    objective: string,
    status: TeamStatus,
    routing: Option<Routing>,
    lead: Member,
    currentLeadId: Option<string>,
    leadSessionId: Option<string>,
    plans: seq<Plan>,
    members: seq<Member>,
    tasks: seq<Task>)

  // ---------------------------------------------------------------------------
  // Well-formedness
  // ---------------------------------------------------------------------------

  /** Unicode White_Space, the class that Rust's `str::trim` removes. */
  predicate WhiteSpace(c: char) {
    || '\U{0009}' <= c <= '\U{000D}' || c == ' ' || c == '\U{0085}' || c == '\U{00A0}' || c == '\U{1680}'
    || '\U{2000}' <= c <= '\U{200A}' || c == '\U{2028}' || c == '\U{2029}' || c == '\U{202F}'
    || c == '\U{205F}' || c == '\U{3000}'
  }

  /** `s.trim().is_empty()` */
  predicate Blank(s: string) {
    forall c :: c in s ==> WhiteSpace(c)
  }

  ghost predicate HeaderOk(m: Manifest) {
    m.version > 0 && !Blank(m.teamId) && !Blank(m.repoId) && !Blank(m.objective)
  }

  function MemberIds(m: Manifest): set<string> {
    {m.lead.memberId} + (set x | x in m.members :: x.memberId)
  }

  function TaskIds(tasks: seq<Task>): set<string> {
    set t | t in tasks :: t.taskId
  }

  /** Member ids are nonblank and unique; the lead's own id may be blank but not repeated. */
  ghost predicate MembersOk(m: Manifest) {
    && (forall i :: 0 <= i < |m.members| ==> !Blank(m.members[i].memberId))
    && (forall i :: 0 <= i < |m.members| ==> m.members[i].memberId != m.lead.memberId)
    && (forall i, j :: 0 <= i < j < |m.members| ==> m.members[i].memberId != m.members[j].memberId)
  }

  ghost predicate LeadOk(m: Manifest) {
    m.currentLeadId.Some? ==> m.currentLeadId.value in MemberIds(m)
  }

  ghost predicate TaskOk(t: Task, owners: set<string>) {
    !Blank(t.taskId) && t.ownerId in owners
  }

  ghost predicate DistinctTasks(tasks: seq<Task>) {
    forall i, j :: 0 <= i < j < |tasks| ==> tasks[i].taskId != tasks[j].taskId
  }

  /** A plan item names a known task exactly when it has been generated. */
  ghost predicate GeneratedOk(p: Plan, taskIds: set<string>) {
    && (p.state.Generated? <==> p.generatedTaskId.Some?)
    && (p.generatedTaskId.Some? ==> p.generatedTaskId.value in taskIds)
  }

  ghost predicate PlanOk(p: Plan, owners: set<string>, taskIds: set<string>) {
    && !Blank(p.planId)
    && (p.ownerId.Some? ==> p.ownerId.value in owners)
    && GeneratedOk(p, taskIds)
  }

  ghost predicate DistinctPlans(plans: seq<Plan>) {
    forall i, j :: 0 <= i < j < |plans| ==> plans[i].planId != plans[j].planId
  }

  /** Dependencies name known tasks; a replacement is named exactly by a superseded task,
      and is another known task. */
  ghost predicate LinksOk(t: Task, taskIds: set<string>) {
    && (forall d :: d in t.dependsOn ==> d in taskIds)
    && (t.state.Superseded? <==> t.supersededBy.Some?)
    && (t.supersededBy.Some? ==> t.supersededBy.value != t.taskId && t.supersededBy.value in taskIds)
  }

  ghost predicate WellFormed(m: Manifest) {
    && HeaderOk(m)
    && MembersOk(m)
    && LeadOk(m)
    && DistinctTasks(m.tasks)
    && (forall i :: 0 <= i < |m.tasks| ==> TaskOk(m.tasks[i], MemberIds(m)))
    && DistinctPlans(m.plans)
    && (forall i :: 0 <= i < |m.plans| ==> PlanOk(m.plans[i], MemberIds(m), TaskIds(m.tasks)))
    && (forall i :: 0 <= i < |m.tasks| ==> LinksOk(m.tasks[i], TaskIds(m.tasks)))
  }

  // ---------------------------------------------------------------------------
  // Lookups
  // ---------------------------------------------------------------------------

  /** Index of the first task card with the given id, as `iter().find` returns it. */
  function FindTask(tasks: seq<Task>, id: string): (r: Option<nat>)
    ensures r.Some? ==> r.value < |tasks| && tasks[r.value].taskId == id
    ensures r.Some? ==> forall j :: 0 <= j < r.value ==> tasks[j].taskId != id
    ensures r.None? ==> forall j :: 0 <= j < |tasks| ==> tasks[j].taskId != id
  {
    if |tasks| == 0 then None
    else
      match FindTask(tasks[..|tasks| - 1], id)
      case Some(i) => Some(i)
      case None => if tasks[|tasks| - 1].taskId == id then Some(|tasks| - 1) else None
  }

  function FindMember(members: seq<Member>, id: string): (r: Option<nat>)
    ensures r.Some? ==> r.value < |members| && members[r.value].memberId == id
    ensures r.Some? ==> forall j :: 0 <= j < r.value ==> members[j].memberId != id
    ensures r.None? ==> forall j :: 0 <= j < |members| ==> members[j].memberId != id
  {
    if |members| == 0 then None
    else
      match FindMember(members[..|members| - 1], id)
      case Some(i) => Some(i)
      case None => if members[|members| - 1].memberId == id then Some(|members| - 1) else None
  }

  function FindPlan(plans: seq<Plan>, id: string): (r: Option<nat>)
    ensures r.Some? ==> r.value < |plans| && plans[r.value].planId == id
    ensures r.Some? ==> forall j :: 0 <= j < r.value ==> plans[j].planId != id
    ensures r.None? ==> forall j :: 0 <= j < |plans| ==> plans[j].planId != id
  {
    if |plans| == 0 then None
    else
      match FindPlan(plans[..|plans| - 1], id)
      case Some(i) => Some(i)
      case None => if plans[|plans| - 1].planId == id then Some(|plans| - 1) else None
  }

  lemma AddedTaskIds(tasks: seq<Task>, t: Task)
    ensures TaskIds(tasks + [t]) == TaskIds(tasks) + {t.taskId}
  {
    forall id | id in TaskIds(tasks) + {t.taskId} ensures id in TaskIds(tasks + [t]) {
      if id == t.taskId { assert t in tasks + [t]; }
      else { var x :| x in tasks && x.taskId == id; assert x in tasks + [t]; }
    }
  }

  predicate KnownMember(m: Manifest, id: string) {
    m.lead.memberId == id || FindMember(m.members, id).Some?
  }

  /** The current lead falls back to the founding lead. */
  function CurrentLeadId(m: Manifest): string {
    match m.currentLeadId
    case Some(id) => id
    case None => m.lead.memberId
  }

  // ---------------------------------------------------------------------------
  // Mutators
  // ---------------------------------------------------------------------------

  /** What one mutator call leaves in memory, and whether it returned Ok. A failing call may
      leave a changed manifest in memory; callers then drop it (see `Commit`). */
  datatype Attempt = Attempt(after: Manifest, ok: bool)

  function Commit(before: Manifest, a: Attempt): Manifest {
    if a.ok then a.after else before
  }

  function Refused(m: Manifest): Attempt {
    Attempt(m, false)
  }

  /** The trailing `self.validate()` of most mutators. */
  ghost function Checked(m: Manifest): Attempt {
    Attempt(m, WellFormed(m))
  }

  predicate AllClosed(tasks: seq<Task>) {
    forall t :: t in tasks ==> t.state.Closed()
  }

  predicate SomeBlocked(tasks: seq<Task>) {
    exists t :: t in tasks && t.state == TaskState.Blocked
  }

  predicate SomeStarted(tasks: seq<Task>) {
    exists t :: t in tasks && t.state != Todo
  }

  function DeriveStatus(tasks: seq<Task>): TeamStatus {
    if |tasks| == 0 then Planning
    else if AllClosed(tasks) then Complete
    else if SomeBlocked(tasks) then TeamStatus.Blocked
    else if SomeStarted(tasks) then Running
    else Planning
  }

  function RefreshStatus(m: Manifest): Manifest {
    if m.status == Archived then m else m.(status := DeriveStatus(m.tasks))
  }

  function PutTask(m: Manifest, i: nat, t: Task): Manifest
    requires i < |m.tasks|
  {
    m.(tasks := m.tasks[i := t])
  }

  /** Writes through `member_mut`: the founding lead first, then the first member with the id. */
  function PutMember(m: Manifest, id: string, f: Member -> Member): Manifest
    requires KnownMember(m, id)
  {
    if m.lead.memberId == id then m.(lead := f(m.lead))
    else
      var i := FindMember(m.members, id).value;
      m.(members := m.members[i := f(m.members[i])])
  }

  ghost function PromoteLead(m: Manifest, id: string): Attempt {
    if !KnownMember(m, id) then Refused(m)
    else Checked(m.(currentLeadId := Some(id), leadSessionId := None))
  }

  ghost function BindLeadSession(m: Manifest, id: string, session: Option<string>): Attempt {
    if CurrentLeadId(m) != id then Refused(m) else Checked(m.(leadSessionId := session))
  }

  function Override<T>(current: T, change: Option<T>): T {
    match change
    case Some(value) => value
    case None => current
  }

  /** `None` in a field leaves the member's setting alone; `Some(v)` overwrites it, also with nothing. */
  datatype PolicyChange = PolicyChange(
    runtime: Option<Option<string>>,
    model: Option<Option<string>>,
    fallbackRuntime: Option<Option<string>>,
    fallbackModel: Option<Option<string>>,
    routing: Option<Option<Routing>>)

  function WithPolicy(x: Member, c: PolicyChange): Member {
    x.(policy := Policy(
      Override(x.policy.runtime, c.runtime),
      Override(x.policy.model, c.model),
      Override(x.policy.fallbackRuntime, c.fallbackRuntime),
      Override(x.policy.fallbackModel, c.fallbackModel),
      Override(x.policy.routing, c.routing)))
  }

  ghost function UpdatePolicy(m: Manifest, id: string, c: PolicyChange): Attempt {
    if !KnownMember(m, id) then Refused(m) else Checked(PutMember(m, id, x => WithPolicy(x, c)))
  }

  ghost function AddMember(m: Manifest, x: Member): Attempt {
    if KnownMember(m, x.memberId) then Refused(m) else Checked(m.(members := m.members + [x]))
  }

  predicate OwnsTask(m: Manifest, id: string) {
    exists t :: t in m.tasks && t.ownerId == id
  }

  /** `retain`: the members whose id differs, in order. */
  function Without(members: seq<Member>, id: string): (r: seq<Member>)
    ensures forall x :: x in r <==> x in members && x.memberId != id
    ensures |r| <= |members|
    ensures |r| == |members| <==> forall x :: x in members ==> x.memberId != id
    ensures |r| == |members| ==> r == members
  {
    if |members| == 0 then []
    else
      var rest := Without(members[..|members| - 1], id);
      assert members == members[..|members| - 1] + [members[|members| - 1]];
      if members[|members| - 1].memberId != id then rest + [members[|members| - 1]] else rest
  }

  ghost function RemoveMember(m: Manifest, id: string): Attempt {
    if CurrentLeadId(m) == id || OwnsTask(m, id) then Refused(m)
    else
      var rest := Without(m.members, id);
      if |rest| == |m.members| then Refused(m) else Checked(m.(members := rest))
  }

  ghost function AddTask(m: Manifest, t: Task): Attempt {
    if FindTask(m.tasks, t.taskId).Some? then Refused(m) else Checked(m.(tasks := m.tasks + [t]))
  }

  ghost function AddPlan(m: Manifest, p: Plan): Attempt {
    if FindPlan(m.plans, p.planId).Some? then Refused(m) else Checked(m.(plans := m.plans + [p]))
  }

  ghost function ApprovePlan(m: Manifest, id: string): Attempt {
    match FindPlan(m.plans, id)
    case None => Refused(m)
    case Some(i) =>
      if m.plans[i].state != Draft then Refused(m)
      else Checked(m.(plans := m.plans[i := m.plans[i].(state := Approved)]))
  }

  ghost function MarkGenerated(m: Manifest, planId: string, taskId: string): Attempt {
    match FindPlan(m.plans, planId)
    case None => Refused(m)
    case Some(i) =>
      Checked(m.(plans := m.plans[i := m.plans[i].(state := Generated, generatedTaskId := Some(taskId))]))
  }

  ghost function GenerateTask(m: Manifest, planId: string, t: Task): Attempt {
    match FindPlan(m.plans, planId)
    case None => Refused(m)
    case Some(i) =>
      if m.plans[i].state != Approved then Refused(m)
      else
        var added := AddTask(m, t);
        if added.ok then MarkGenerated(added.after, planId, t.taskId) else added
  }

  function WithState(t: Task, s: TaskState): Task {
    if s == Superseded then t.(state := s) else t.(state := s, supersededBy := None)
  }

  ghost function SetTaskState(m: Manifest, id: string, s: TaskState): Attempt {
    match FindTask(m.tasks, id)
    case None => Refused(m)
    case Some(i) => Checked(RefreshStatus(PutTask(m, i, WithState(m.tasks[i], s))))
  }

  ghost function AcceptTask(m: Manifest, id: string): Attempt {
    match FindTask(m.tasks, id)
    case None => Refused(m)
    case Some(i) =>
      if m.tasks[i].state != Review && m.tasks[i].state != Done then Refused(m)
      else SetTaskState(m, id, Done)
  }

  function WithoutResult(t: Task): Task {
    t.(result := TaskResult(None, None, None, None))
  }

  ghost function ClearTaskResult(m: Manifest, id: string): Attempt {
    match FindTask(m.tasks, id)
    case None => Refused(m)
    case Some(i) => Checked(PutTask(m, i, WithoutResult(m.tasks[i])))
  }

  ghost function RequestRework(m: Manifest, id: string): Attempt {
    match FindTask(m.tasks, id)
    case None => Refused(m)
    case Some(i) =>
      if m.tasks[i].state != Review && m.tasks[i].state != Done then Refused(m)
      else
        var cleared := ClearTaskResult(m, id);
        if cleared.ok then SetTaskState(cleared.after, id, Todo) else cleared
  }

  ghost function CancelTask(m: Manifest, id: string): Attempt {
    match FindTask(m.tasks, id)
    case None => Refused(m)
    case Some(i) => if m.tasks[i].state.Closed() then Refused(m) else SetTaskState(m, id, Cancelled)
  }

  predicate Retired(s: TaskState) {
    s == Cancelled || s == Superseded
  }

  ghost function SupersedeTask(m: Manifest, id: string, replacement: string): Attempt {
    if id == replacement then Refused(m)
    else
      match (FindTask(m.tasks, replacement), FindTask(m.tasks, id))
      case (Some(r), Some(i)) =>
        if Retired(m.tasks[r].state) || Retired(m.tasks[i].state) then Refused(m)
        else Checked(RefreshStatus(PutTask(m, i, m.tasks[i].(state := Superseded, supersededBy := Some(replacement)))))
      case _ => Refused(m)
  }

  ghost function AssignMemberSlot(m: Manifest, id: string, slotId: string, branch: string): Attempt {
    if !KnownMember(m, id) then Refused(m)
    else Checked(PutMember(m, id, (x: Member) => x.(slotId := Some(slotId), branchName := Some(branch))))
  }

  ghost function BindTaskSlot(m: Manifest, id: string, slotId: string, branch: string): Attempt {
    match FindTask(m.tasks, id)
    case None => Refused(m)
    case Some(i) => Checked(PutTask(m, i, m.tasks[i].(slotId := Some(slotId), branchName := Some(branch))))
  }

  predicate CanArchive(m: Manifest) {
    m.status != Archived && forall t :: t in m.tasks ==> t.state.ArchiveTerminal()
  }

  function Archive(m: Manifest): Attempt {
    if CanArchive(m) then Attempt(m.(status := Archived), true) else Refused(m)
  }

  function ResetTask(t: Task): Task {
    WithoutResult(t.(state := Todo, slotId := None, branchName := None, supersededBy := None))
  }

  function ResetPlan(p: Plan): Plan {
    p.(state := Draft, generatedTaskId := None)
  }

  function Unbound(x: Member): Member {
    x.(slotId := None, branchName := None)
  }

  function ResetTasks(tasks: seq<Task>): seq<Task> {
    seq(|tasks|, i requires 0 <= i < |tasks| => ResetTask(tasks[i]))
  }

  function ResetPlans(plans: seq<Plan>): seq<Plan> {
    seq(|plans|, i requires 0 <= i < |plans| => ResetPlan(plans[i]))
  }

  function UnboundAll(members: seq<Member>): seq<Member> {
    seq(|members|, i requires 0 <= i < |members| => Unbound(members[i]))
  }

  function Reset(m: Manifest): Manifest {
    m.(tasks := ResetTasks(m.tasks),
       plans := ResetPlans(m.plans),
       lead := Unbound(m.lead),
       members := UnboundAll(m.members),
       leadSessionId := None,
       status := Planning)
  }

  /** The manifest a new team starts from. */
  function Starter(teamId: string, repoId: string, objective: string, mode: ExecutionMode,
                   runtime: Option<string>, model: Option<string>,
                   fallbackRuntime: Option<string>, fallbackModel: Option<string>): Manifest
  {
    Manifest(1, teamId, repoId, objective, Planning, None,
             Member("lead", mode, true, Policy(runtime, model, fallbackRuntime, fallbackModel, None), None, None),
             Some("lead"), None, [], [], [])
  }
}
