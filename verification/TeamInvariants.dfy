/** Facts about all runs of team operations that no single operation checks: supersession never
    loops, dependencies point backwards, and the stored status agrees with the task states. */
module TeamInvariants {
  import opened Wrappers
  import opened TeamModel
  import opened TeamRuns

  // ---------------------------------------------------------------------------
  // How one step may change the task list
  // ---------------------------------------------------------------------------

  /** `b` is `a` with cards rewritten in place, keeping ids and dependencies, and at most one
      card appended. */
  ghost predicate Grows(a: seq<Task>, b: seq<Task>) {
    && |a| <= |b| <= |a| + 1
    && forall i :: 0 <= i < |a| ==> b[i].taskId == a[i].taskId && b[i].dependsOn == a[i].dependsOn
  }

  /** No card of `a` gained or changed a replacement. */
  ghost predicate KeepsLinks(a: seq<Task>, b: seq<Task>)
    requires |a| <= |b|
  {
    forall i :: 0 <= i < |a| ==> b[i].supersededBy == None || b[i].supersededBy == a[i].supersededBy
  }

  /** Card `i` was given replacement `r`, whose own card is not superseded; nothing else changed. */
  ghost predicate Supersedes(a: seq<Task>, b: seq<Task>, i: nat, r: nat) {
    && |b| == |a| && i < |a| && r < |a| && i != r
    && a[r].supersededBy == None
    && b[i].supersededBy == Some(a[r].taskId)
    && (forall k :: 0 <= k < |a| && k != i ==> b[k].supersededBy == a[k].supersededBy)
  }

  ghost predicate AllLinksOk(tasks: seq<Task>) {
    forall i :: 0 <= i < |tasks| ==> LinksOk(tasks[i], TaskIds(tasks))
  }

  /** Operations that leave the task list alone. */
  predicate LeavesTasks(op: TeamOp) {
    || op.AddMember? || op.UpdatePolicy? || op.RemoveMember? || op.PromoteLead? || op.AssignSlot?
    || op.BindLeadSession? || op.AddPlan? || op.ApprovePlan? || op.Archive?
  }

  /** Operations that append a card. */
  predicate Appends(op: TeamOp) {
    op.GenerateTask? || op.AddTask? || op.AddTaskOnly?
  }

  lemma LeavesTasksShape(m: Manifest, op: TeamOp)
    requires LeavesTasks(op)
    ensures Perform(m, op).after.tasks == m.tasks
  {
  }

  lemma AppendShape(m: Manifest, op: TeamOp)
    requires Appends(op)
    ensures Perform(m, op).after.tasks == m.tasks || Perform(m, op).after.tasks == m.tasks + [op.task]
    ensures Perform(m, op).ok ==> Perform(m, op).after.tasks == m.tasks + [op.task]
  {
  }

  /** Operations that rewrite the fields of one card in place without giving it a replacement. */
  predicate Rewrites(op: TeamOp) {
    op.SetState? || op.Accept? || op.Rework? || op.Cancel? || op.BindSlot? || op.ClearResult? || op.Delegate?
  }

  lemma SetStateShape(m: Manifest, id: string, state: TaskState)
    ensures Grows(m.tasks, SetTaskState(m, id, state).after.tasks)
            && KeepsLinks(m.tasks, SetTaskState(m, id, state).after.tasks)
    ensures |SetTaskState(m, id, state).after.tasks| == |m.tasks|
  {
  }

  lemma ClearResultShape(m: Manifest, id: string)
    ensures Grows(m.tasks, ClearTaskResult(m, id).after.tasks)
            && KeepsLinks(m.tasks, ClearTaskResult(m, id).after.tasks)
    ensures |ClearTaskResult(m, id).after.tasks| == |m.tasks|
  {
  }

  lemma ReworkShape(m: Manifest, id: string)
    ensures Grows(m.tasks, RequestRework(m, id).after.tasks) && KeepsLinks(m.tasks, RequestRework(m, id).after.tasks)
  {
    var cleared := ClearTaskResult(m, id).after;
    ClearResultShape(m, id);
    SetStateShape(cleared, id, Todo);
    var b := SetTaskState(cleared, id, Todo).after.tasks;
    assert Grows(m.tasks, b) && KeepsLinks(m.tasks, b);
  }

  lemma AcceptShape(m: Manifest, id: string)
    ensures Grows(m.tasks, AcceptTask(m, id).after.tasks) && KeepsLinks(m.tasks, AcceptTask(m, id).after.tasks)
  {
    SetStateShape(m, id, Done);
  }

  lemma CancelShape(m: Manifest, id: string)
    ensures Grows(m.tasks, CancelTask(m, id).after.tasks) && KeepsLinks(m.tasks, CancelTask(m, id).after.tasks)
  {
    SetStateShape(m, id, Cancelled);
  }

  lemma BindSlotShape(m: Manifest, id: string, slotId: string, branch: string)
    ensures Grows(m.tasks, BindTaskSlot(m, id, slotId, branch).after.tasks)
    ensures KeepsLinks(m.tasks, BindTaskSlot(m, id, slotId, branch).after.tasks)
  {
  }

  lemma DelegateShape(m: Manifest, id: string, target: string)
    ensures Grows(m.tasks, DelegateOwner(m, id, target).after.tasks)
            && KeepsLinks(m.tasks, DelegateOwner(m, id, target).after.tasks)
  {
  }

  lemma MoveShape(m: Manifest, op: TeamOp)
    requires op.SetState? || op.Accept? || op.Rework? || op.Cancel?
    ensures Grows(m.tasks, Perform(m, op).after.tasks) && KeepsLinks(m.tasks, Perform(m, op).after.tasks)
  {
    match op {
      case SetState(id, s) => SetStateShape(m, id, s);
      case Accept(id) => AcceptShape(m, id);
      case Rework(id) => ReworkShape(m, id);
      case Cancel(id) => CancelShape(m, id);
    }
  }

  lemma RewriteShape(m: Manifest, op: TeamOp)
    requires Rewrites(op)
    ensures Grows(m.tasks, Perform(m, op).after.tasks) && KeepsLinks(m.tasks, Perform(m, op).after.tasks)
  {
    match op {
      case SetState(_, _) => MoveShape(m, op);
      case Accept(_) => MoveShape(m, op);
      case Rework(_) => MoveShape(m, op);
      case Cancel(_) => MoveShape(m, op);
      case ClearResult(id) => ClearResultShape(m, id);
      case BindSlot(id, s, b) => BindSlotShape(m, id, s, b);
      case Delegate(id, target) => DelegateShape(m, id, target);
    }
  }

  lemma ResetShape(m: Manifest, op: TeamOp)
    requires op.Reset?
    ensures Grows(m.tasks, Perform(m, op).after.tasks) && KeepsLinks(m.tasks, Perform(m, op).after.tasks)
  {
  }

  lemma ReconcileShape(m: Manifest, op: TeamOp)
    requires op.Reconcile?
    ensures Grows(m.tasks, Perform(m, op).after.tasks) && KeepsLinks(m.tasks, Perform(m, op).after.tasks)
    ensures |Perform(m, op).after.tasks| == |m.tasks|
  {
    forall i | 0 <= i < |m.tasks|
      ensures var t := ReconcileTask(m.tasks[i], op.facts).0;
              t.taskId == m.tasks[i].taskId && t.dependsOn == m.tasks[i].dependsOn
              && t.supersededBy == m.tasks[i].supersededBy
    {
      ReconcileTaskFrame(m.tasks[i], op.facts);
    }
  }

  lemma SupersedeShape(m: Manifest, op: TeamOp)
    requires AllLinksOk(m.tasks) && op.Supersede?
    ensures Grows(m.tasks, Perform(m, op).after.tasks)
    ensures KeepsLinks(m.tasks, Perform(m, op).after.tasks)
            || exists i, r :: Supersedes(m.tasks, Perform(m, op).after.tasks, i, r)
  {
    var b := Perform(m, op).after.tasks;
    var fi, fr := FindTask(m.tasks, op.id), FindTask(m.tasks, op.replacement);
    if fi.Some? && fr.Some? && op.id != op.replacement {
      var i, r := fi.value, fr.value;
      assert LinksOk(m.tasks[r], TaskIds(m.tasks));
      assert b == m.tasks || Supersedes(m.tasks, b, i, r);
    }
  }

  /** What a step may do to the task list: grow it, and link only to a live card. */
  ghost predicate Allowed(a: seq<Task>, b: seq<Task>) {
    && Grows(a, b)
    && (KeepsLinks(a, b) || exists i, r :: Supersedes(a, b, i, r))
  }

  lemma PerformShape(m: Manifest, op: TeamOp)
    requires WellFormed(m)
    ensures Allowed(m.tasks, Perform(m, op).after.tasks)
  {
    if LeavesTasks(op) { LeavesTasksShape(m, op); }
    else if Appends(op) { AppendShape(m, op); }
    else if op.Supersede? { SupersedeShape(m, op); }
    else if op.Reconcile? { ReconcileShape(m, op); }
    else if op.Reset? { ResetShape(m, op); }
    else { RewriteShape(m, op); }
  }

  lemma StepShape(m: Manifest, op: TeamOp)
    requires WellFormed(m)
    ensures Allowed(m.tasks, Step(m, op).tasks)
  {
    PerformShape(m, op);
  }

  // ---------------------------------------------------------------------------
  // Supersession terminates
  // ---------------------------------------------------------------------------

  /** A ranking of the tasks, by index, below |tasks| and without ties, that every replacement
      link descends. */
  ghost predicate Ranks(tasks: seq<Task>, rank: seq<nat>) {
    && |rank| == |tasks|
    && (forall i :: 0 <= i < |rank| ==> rank[i] < |tasks|)
    && (forall i, j :: 0 <= i < j < |rank| ==> rank[i] != rank[j])
    && (forall i, j :: 0 <= i < |tasks| && 0 <= j < |tasks| && tasks[i].supersededBy == Some(tasks[j].taskId) ==>
          rank[j] < rank[i])
  }

  lemma OldLink(a: seq<Task>, b: seq<Task>, i: nat, j: nat)
    requires Grows(a, b) && KeepsLinks(a, b) && DistinctTasks(b) && AllLinksOk(a)
    requires i < |a| && j < |b| && b[i].supersededBy == Some(b[j].taskId)
    ensures j < |a| && a[i].supersededBy == Some(a[j].taskId)
  {
    var k := ReplacementIndex(a, i);
    assert b[k].taskId == b[j].taskId;
  }

  /** Rewritten cards keep their rank; an appended card, to which nothing can yet link, goes on top. */
  lemma RankAppended(a: seq<Task>, b: seq<Task>, rank: seq<nat>) returns (rank': seq<nat>)
    requires Grows(a, b) && KeepsLinks(a, b) && Ranks(a, rank)
    requires DistinctTasks(b) && AllLinksOk(a) && AllLinksOk(b)
    ensures Ranks(b, rank')
  {
    rank' := if |b| == |a| then rank else rank + [|a|];
    forall i, j | 0 <= i < |b| && 0 <= j < |b| && b[i].supersededBy == Some(b[j].taskId) ensures rank'[j] < rank'[i] {
      if i < |a| { OldLink(a, b, i, j); } else { assert LinksOk(b[i], TaskIds(b)); }
    }
  }

  /** The replacement, from which no link leaves, moves to the bottom; the ranks that were
      below it move up by one. */
  function Sunk(rank: seq<nat>, r: nat): seq<nat>
    requires r < |rank|
  {
    seq(|rank|, k requires 0 <= k < |rank| =>
      if k == r then 0 else if rank[k] < rank[r] then rank[k] + 1 else rank[k])
  }

  lemma RankSuperseded(a: seq<Task>, b: seq<Task>, i: nat, r: nat, rank: seq<nat>)
    requires Grows(a, b) && Supersedes(a, b, i, r) && Ranks(a, rank) && DistinctTasks(a)
    ensures Ranks(b, Sunk(rank, r))
  {
    var rank' := Sunk(rank, r);
    forall k, j | 0 <= k < |b| && 0 <= j < |b| && b[k].supersededBy == Some(b[j].taskId) ensures rank'[j] < rank'[k] {
      assert a[j].taskId == b[j].taskId;
      if k == i {
        assert j == r;
      } else {
        assert a[k].supersededBy == Some(a[j].taskId) && k != r;
        assert rank[j] < rank[k] && rank[k] != rank[r];
      }
    }
  }

  /** What every reachable manifest satisfies. */
  ghost predicate TeamInv(m: Manifest) {
    && WellFormed(m)
    && DependenciesPointBack(m.tasks)
    && exists rank :: Ranks(m.tasks, rank)
  }

  lemma StepKeepsRanks(m: Manifest, op: TeamOp)
    requires WellFormed(m) && exists rank :: Ranks(m.tasks, rank)
    ensures exists rank :: Ranks(Step(m, op).tasks, rank)
  {
    var n := Step(m, op);
    var rank :| Ranks(m.tasks, rank);
    StepShape(m, op);
    if KeepsLinks(m.tasks, n.tasks) {
      var rank' := RankAppended(m.tasks, n.tasks, rank);
    } else {
      var i, r :| Supersedes(m.tasks, n.tasks, i, r);
      RankSuperseded(m.tasks, n.tasks, i, r, rank);
    }
  }

  /** Following `superseded_by_task_id` from `id` meets a task that is not superseded after at
      most `n` links. */
  ghost predicate ResolvesWithin(tasks: seq<Task>, id: string, n: nat)
    decreases n
  {
    match FindTask(tasks, id)
    case None => false
    case Some(i) =>
      || tasks[i].state != Superseded
      || (n > 0 && tasks[i].supersededBy.Some? && ResolvesWithin(tasks, tasks[i].supersededBy.value, n - 1))
  }

  lemma {:induction false} RankBoundsChain(tasks: seq<Task>, rank: seq<nat>, i: nat)
    requires DistinctTasks(tasks) && AllLinksOk(tasks) && Ranks(tasks, rank) && i < |tasks|
    ensures ResolvesWithin(tasks, tasks[i].taskId, rank[i])
    decreases rank[i]
  {
    assert FindTask(tasks, tasks[i].taskId) == Some(i);
    if tasks[i].state == Superseded {
      assert LinksOk(tasks[i], TaskIds(tasks));
      var j := ReplacementIndex(tasks, i);
      RankBoundsChain(tasks, rank, j);
      ResolvesMonotone(tasks, tasks[j].taskId, rank[j], rank[i] - 1);
    }
  }

  lemma ReplacementIndex(tasks: seq<Task>, i: nat) returns (j: nat)
    requires AllLinksOk(tasks) && i < |tasks| && tasks[i].supersededBy.Some?
    ensures j < |tasks| && tasks[i].supersededBy == Some(tasks[j].taskId)
  {
    assert LinksOk(tasks[i], TaskIds(tasks));
    var t :| t in tasks && t.taskId == tasks[i].supersededBy.value;
    j :| 0 <= j < |tasks| && tasks[j] == t;
  }

  lemma {:induction false} ResolvesMonotone(tasks: seq<Task>, id: string, n: nat, k: nat)
    requires ResolvesWithin(tasks, id, n) && n <= k
    ensures ResolvesWithin(tasks, id, k)
    decreases n
  {
    var i := FindTask(tasks, id).value;
    if tasks[i].state != Superseded {
    } else {
      ResolvesMonotone(tasks, tasks[i].supersededBy.value, n - 1, k - 1);
    }
  }

  // ---------------------------------------------------------------------------
  // Dependencies point backwards
  // ---------------------------------------------------------------------------

  /** Each dependency of the task at index i names a task at an index at most i. */
  ghost predicate DependenciesPointBack(tasks: seq<Task>) {
    forall i, d :: 0 <= i < |tasks| && d in tasks[i].dependsOn ==> exists j :: 0 <= j <= i && tasks[j].taskId == d
  }

  lemma GrowthKeepsOrder(a: seq<Task>, b: seq<Task>)
    requires Grows(a, b) && DependenciesPointBack(a)
    requires forall i :: 0 <= i < |b| ==> LinksOk(b[i], TaskIds(b))
    ensures DependenciesPointBack(b)
  {
    forall i, d | 0 <= i < |b| && d in b[i].dependsOn ensures exists j :: 0 <= j <= i && b[j].taskId == d {
      if i < |a| {
        var j :| 0 <= j <= i && a[j].taskId == d;
        assert b[j].taskId == d;
      } else {
        assert LinksOk(b[i], TaskIds(b));
        var t :| t in b && t.taskId == d;
        var j :| 0 <= j < |b| && b[j] == t;
      }
    }
  }

  /** A path of dependencies: each index's task depends on the next index's task. */
  ghost predicate DependencyPath(tasks: seq<Task>, path: seq<nat>) {
    && (forall k :: 0 <= k < |path| ==> path[k] < |tasks|)
    && (forall k :: 0 <= k < |path| - 1 ==> tasks[path[k + 1]].taskId in tasks[path[k]].dependsOn)
  }

  lemma {:induction false} PathsDescend(tasks: seq<Task>, path: seq<nat>, k: nat)
    requires DistinctTasks(tasks) && DependenciesPointBack(tasks) && DependencyPath(tasks, path) && k < |path|
    ensures path[k] <= path[0]
  {
    if k > 0 {
      PathsDescend(tasks, path, k - 1);
      assert tasks[path[k - 1 + 1]].taskId in tasks[path[k - 1]].dependsOn;
      var j :| 0 <= j <= path[k - 1] && tasks[j].taskId == tasks[path[k]].taskId;
      assert j == path[k];
    }
  }

  /** The only possible dependency cycle is a task that depends on itself. */
  lemma DependencyCyclesAreSelfLoops(m: Manifest, path: seq<nat>)
    requires TeamInv(m) && DependencyPath(m.tasks, path) && |path| > 0 && path[|path| - 1] == path[0]
    ensures forall k :: 0 <= k < |path| ==> path[k] == path[0]
  {
    forall k | 0 <= k < |path| ensures path[k] == path[0] {
      PathsDescend(m.tasks, path, k);
      var rest := path[k..];
      forall l | 0 <= l < |rest| - 1 ensures m.tasks[rest[l + 1]].taskId in m.tasks[rest[l]].dependsOn {
        assert m.tasks[path[k + l + 1]].taskId in m.tasks[path[k + l]].dependsOn;
      }
      PathsDescend(m.tasks, rest, |rest| - 1);
    }
  }

  // ---------------------------------------------------------------------------
  // All runs
  // ---------------------------------------------------------------------------

  lemma StepKeepsInv(m: Manifest, op: TeamOp)
    requires TeamInv(m)
    ensures TeamInv(Step(m, op))
  {
    StepShape(m, op);
    GrowthKeepsOrder(m.tasks, Step(m, op).tasks);
    StepKeepsRanks(m, op);
  }

  lemma FreshInv(m: Manifest)
    requires IsFresh(m)
    ensures TeamInv(m)
  {
    assert Ranks(m.tasks, []);
  }

  lemma {:induction false} RunKeepsInv(m: Manifest, ops: seq<TeamOp>)
    requires TeamInv(m)
    ensures TeamInv(Run(m, ops))
    decreases |ops|
  {
    if ops != [] {
      RunKeepsInv(m, ops[..|ops| - 1]);
      StepKeepsInv(Run(m, ops[..|ops| - 1]), ops[|ops| - 1]);
    }
  }

  /** In every reachable manifest, supersession from any card ends at a card that is not
      superseded, in fewer links than there are tasks. */
  lemma {:induction false} SupersessionTerminates(m: Manifest, ops: seq<TeamOp>, id: string)
    requires IsFresh(m) && id in TaskIds(Run(m, ops).tasks)
    ensures |Run(m, ops).tasks| > 0 && ResolvesWithin(Run(m, ops).tasks, id, |Run(m, ops).tasks| - 1)
  {
    var n := Run(m, ops);
    FreshInv(m);
    RunKeepsInv(m, ops);
    ChainShort(n, id);
  }

  lemma ChainShort(n: Manifest, id: string)
    requires WellFormed(n) && (exists rank :: Ranks(n.tasks, rank)) && id in TaskIds(n.tasks)
    ensures |n.tasks| > 0 && ResolvesWithin(n.tasks, id, |n.tasks| - 1)
  {
    var rank :| Ranks(n.tasks, rank);
    var t :| t in n.tasks && t.taskId == id;
    var i :| 0 <= i < |n.tasks| && n.tasks[i] == t;
    RankBoundsChain(n.tasks, rank, i);
    ResolvesMonotone(n.tasks, id, rank[i], |n.tasks| - 1);
  }

  /** In every reachable manifest the task list is a topological order of the dependencies. */
  lemma {:induction false} DependenciesStayOrdered(m: Manifest, ops: seq<TeamOp>)
    requires IsFresh(m)
    ensures WellFormed(Run(m, ops)) && DependenciesPointBack(Run(m, ops).tasks)
  {
    FreshInv(m);
    RunKeepsInv(m, ops);
  }

  // ---------------------------------------------------------------------------
  // Status coherence
  // ---------------------------------------------------------------------------

  ghost predicate Coherent(m: Manifest) {
    m.status == Archived || m.status == DeriveStatus(m.tasks)
  }

  function States(tasks: seq<Task>): seq<TaskState> {
    seq(|tasks|, i requires 0 <= i < |tasks| => tasks[i].state)
  }

  /** The derived status depends on the task states only as a multiset. */
  lemma DerivedFromStateMultiset(a: seq<Task>, b: seq<Task>)
    requires multiset(States(a)) == multiset(States(b))
    ensures DeriveStatus(a) == DeriveStatus(b)
  {
    assert |States(a)| == |multiset(States(a))| == |multiset(States(b))| == |States(b)|;
    StatesCarryOver(a, b);
    StatesCarryOver(b, a);
  }

  lemma StatesCarryOver(a: seq<Task>, b: seq<Task>)
    requires multiset(States(a)) == multiset(States(b))
    ensures AllClosed(b) ==> AllClosed(a)
    ensures SomeBlocked(a) ==> SomeBlocked(b)
    ensures SomeStarted(a) ==> SomeStarted(b)
  {
    forall t | t in a ensures exists u :: u in b && u.state == t.state {
      var i :| 0 <= i < |a| && a[i] == t;
      assert States(a)[i] in multiset(States(a));
      assert States(a)[i] in multiset(States(b));
      var j :| 0 <= j < |b| && States(b)[j] == t.state;
      assert b[j] in b;
    }
  }

  lemma SameStatesDerive(a: seq<Task>, b: seq<Task>)
    requires |a| == |b| && forall i :: 0 <= i < |a| ==> a[i].state == b[i].state
    ensures DeriveStatus(a) == DeriveStatus(b)
  {
    assert States(a) == States(b);
    DerivedFromStateMultiset(a, b);
  }

  /** The operations that append a card without refreshing the status. */
  predicate Unrefreshed(op: TeamOp) {
    op.GenerateTask? || op.AddTaskOnly?
  }

  /** Operations that recompute the status after changing a task's state. */
  predicate Refreshes(op: TeamOp) {
    op.AddTask? || op.SetState? || op.Accept? || op.Rework? || op.Cancel? || op.Supersede? || op.Reconcile?
  }

  lemma RefreshingStep(m: Manifest, op: TeamOp)
    requires Refreshes(op)
    ensures Perform(m, op).ok ==>
              Perform(m, op).after == m || Perform(m, op).after == RefreshStatus(Perform(m, op).after)
  {
  }

  /** Operations that neither change a task's state nor the status. */
  predicate Stateless(op: TeamOp) {
    (LeavesTasks(op) && !op.Archive?) || op.BindSlot? || op.ClearResult? || op.Delegate?
  }

  lemma StatelessStates(m: Manifest, op: TeamOp)
    requires Stateless(op)
    ensures var b := Perform(m, op).after.tasks;
            |b| == |m.tasks| && forall i :: 0 <= i < |b| ==> b[i].state == m.tasks[i].state
  {
    if LeavesTasks(op) { LeavesTasksShape(m, op); }
  }

  lemma StatelessStatus(m: Manifest, op: TeamOp)
    requires Stateless(op)
    ensures Perform(m, op).after.status == m.status
  {
  }

  lemma StatelessStep(m: Manifest, op: TeamOp)
    requires Stateless(op)
    ensures Perform(m, op).after.status == m.status
    ensures DeriveStatus(Perform(m, op).after.tasks) == DeriveStatus(m.tasks)
  {
    StatelessStates(m, op);
    StatelessStatus(m, op);
    SameStatesDerive(m.tasks, Perform(m, op).after.tasks);
  }

  lemma ResetDerivesPlanning(m: Manifest)
    ensures DeriveStatus(TeamModel.Reset(m).tasks) == Planning
  {
    var tasks := TeamModel.Reset(m).tasks;
    assert !SomeStarted(tasks) && !SomeBlocked(tasks);
    assert tasks == [] || tasks[0] in tasks;
  }

  lemma StepKeepsCoherence(m: Manifest, op: TeamOp)
    requires Coherent(m) && !Unrefreshed(op)
    ensures Coherent(Step(m, op))
  {
    if op.Reset? {
      ResetDerivesPlanning(m);
    } else if op.Archive? {
    } else if Stateless(op) {
      StatelessStep(m, op);
    } else {
      RefreshingStep(m, op);
    }
  }

  /** Runs of refreshing operations keep the stored status equal to the derived one, or Archived. */
  lemma {:induction false} StatusStaysCoherent(m: Manifest, ops: seq<TeamOp>)
    requires IsFresh(m) && forall op :: op in ops ==> !Unrefreshed(op)
    ensures Coherent(Run(m, ops))
    decreases |ops|
  {
    if ops != [] {
      var init := ops[..|ops| - 1];
      StatusStaysCoherent(m, init);
      FreshInv(m);
      RunKeepsInv(m, init);
      StepKeepsCoherence(Run(m, init), ops[|ops| - 1]);
    }
  }

  /** Whether appending a card in state `s` leaves a coherent status coherent, read off the
      stored status alone. */
  predicate AppendHarmless(status: TeamStatus, s: TaskState) {
    match status
    case Planning => s == Todo
    case Running => s != TaskState.Blocked
    case Blocked => true
    case Complete => s.Closed()
    case Archived => true
  }

  lemma DeriveAppended(tasks: seq<Task>, t: Task)
    ensures DeriveStatus(tasks + [t]) == DeriveStatus(tasks) <==> AppendHarmless(DeriveStatus(tasks), t.state)
  {
    var all := tasks + [t];
    assert t in all;
    assert forall x :: x in tasks ==> x in all;
    assert forall x :: x in all ==> x in tasks || x == t;
    assert |tasks| > 0 ==> tasks[0] in tasks;
  }

  /** The unrefreshed appends, plan generation and the command runner's task add, break
      coherence exactly when the new card's state would move the derived status. */
  lemma UnrefreshedCoherentIff(m: Manifest, op: TeamOp)
    requires WellFormed(m) && Coherent(m) && Unrefreshed(op) && Perform(m, op).ok
    ensures Coherent(Step(m, op)) <==> AppendHarmless(m.status, op.task.state)
  {
    SaveAcceptsWhatOperationsAccept(m, op);
    assert Step(m, op).tasks == m.tasks + [op.task] && Step(m, op).status == m.status;
    DeriveAppended(m.tasks, op.task);
  }

  /** One task that is done and one approved plan item: a coherent, complete team. */
  ghost predicate CompleteWithPlan(m: Manifest, done: Task, plan: Plan) {
    && WellFormed(m) && m.status == Complete && m.tasks == [done] && m.plans == [plan]
    && done.state == Done && plan.planId == "p" && plan.state == Approved
  }

  /** On such a team, generating a card that is to do succeeds and leaves the stored status stale. */
  lemma GenerationCanLeaveStaleStatus(m: Manifest, done: Task, plan: Plan)
    requires CompleteWithPlan(m, done, plan) && done.taskId == "a"
    ensures var op := TeamOp.GenerateTask("p",
                      done.(taskId := "b", state := Todo, dependsOn := [], supersededBy := None));
            Coherent(m) && Perform(m, op).ok && !Coherent(Step(m, op))
  {
    var card := done.(taskId := "b", state := Todo, dependsOn := [], supersededBy := None);
    assert "b"[0] in "b";
    assert TaskOk(m.tasks[0], MemberIds(m));
    assert FindPlan(m.plans, "p") == Some(0);
    AddTaskSucceedsIff(m, card);
    GenerateTaskSucceedsIff(m, "p", card);
    UnrefreshedCoherentIff(m, TeamOp.GenerateTask("p", card));
  }

  lemma OnlyArchiveAndResetMoveArchived(m: Manifest, op: TeamOp)
    requires !op.Archive? && !op.Reset?
    ensures Perform(m, op).after.status == Archived <==> m.status == Archived
  {
    if Stateless(op) { StatelessStatus(m, op); }
    else if Refreshes(op) { RefreshingKeepsArchived(m, op); }
  }

  lemma RefreshingKeepsArchived(m: Manifest, op: TeamOp)
    requires Refreshes(op)
    ensures Perform(m, op).after.status == Archived <==> m.status == Archived
  {
    if Rewrites(op) { MovingKeepsArchived(m, op); }
    else if op.Supersede? { SupersedeKeepsArchived(m, op.id, op.replacement); }
    else if op.Reconcile? { ReconcileKeepsArchived(m, op.facts); }
    else { assert op.AddTask?; }
  }

  lemma MovingKeepsArchived(m: Manifest, op: TeamOp)
    requires Refreshes(op) && Rewrites(op)
    ensures Perform(m, op).after.status == Archived <==> m.status == Archived
  {
    match op {
      case SetState(id, s) => SetStateKeepsArchived(m, id, s);
      case Accept(id) => SetStateKeepsArchived(m, id, Done);
      case Rework(id) => ReworkKeepsArchived(m, id);
      case Cancel(id) => SetStateKeepsArchived(m, id, Cancelled);
    }
  }

  lemma ReworkKeepsArchived(m: Manifest, id: string)
    ensures RequestRework(m, id).after.status == Archived <==> m.status == Archived
  {
    SetStateKeepsArchived(ClearTaskResult(m, id).after, id, Todo);
  }

  lemma SupersedeKeepsArchived(m: Manifest, id: string, replacement: string)
    ensures SupersedeTask(m, id, replacement).after.status == Archived <==> m.status == Archived
  {
  }

  lemma ReconcileKeepsArchived(m: Manifest, f: StoreFacts)
    ensures ReconcileManifest(m, f).after.status == Archived <==> m.status == Archived
  {
  }

  lemma SetStateKeepsArchived(m: Manifest, id: string, s: TaskState)
    ensures SetTaskState(m, id, s).after.status == Archived <==> m.status == Archived
  {
  }

  /** A team becomes archived only by archiving, with every task archive-terminal, and stops
      being archived only by a reset. */
  lemma ArchivedEntryAndExit(m: Manifest, op: TeamOp)
    ensures m.status != Archived && Step(m, op).status == Archived ==>
              op.Archive? && forall t :: t in Step(m, op).tasks ==> t.state.ArchiveTerminal()
    ensures m.status == Archived && Step(m, op).status != Archived ==> op.Reset?
  {
    if !op.Archive? && !op.Reset? { OnlyArchiveAndResetMoveArchived(m, op); }
  }
}
