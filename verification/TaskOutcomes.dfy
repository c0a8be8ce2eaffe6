/** What a task execution leaves in the manifest file, from its events straight to the fields. */
module TaskOutcomes {
  import opened Wrappers
  import opened TeamModel
  import opened TeamRuns
  import opened TeamInvariants
  import opened TaskProtocol
  import opened TaskRaces
  import TeamEffects
  import Session

  // ---------------------------------------------------------------------------
  // From the launch's report to the task's state
  // ---------------------------------------------------------------------------

  /** What the launch of the call reported, if it succeeded. */
  function ReportIn(t: seq<Event>): Option<Report> {
    if t == [] then None
    else
      match t[|t| - 1]
      case Launch(_, _, _, Success(report)) => Some(report)
      case _ => ReportIn(t[..|t| - 1])
  }

  /** The outcome of the launch has been saved. */
  predicate Finishes(e: Event) {
    e.Section? && e.phase.Finish? && e.ok
  }

  /** The task's state that a reported session status calls for. */
  ghost predicate Decides(status: Session.Status, dryRun: bool, state: Option<TaskState>) {
    && (status.Completed? ==> state == Some(Review))
    && (status.Failed? ==> state == Some(TaskState.Blocked))
    && (status.Running? ==> state == Some(InProgress))
    && (status.Prepared? || status.Cancelled? ==> !dryRun && state == Some(InProgress))
  }

  /** The target so far of a call that has neither saved an outcome nor recovered. */
  function Started(o: Options): Option<TaskState> {
    if o.dryRun then None else Some(InProgress)
  }

  predicate Silent(report: Option<Report>, finished: bool) {
    report == None && !finished
  }

  /** Report, saved outcome and last target, stage by stage. */
  ghost predicate OutcomeFits(o: Options, s: Stage, last: Option<TaskState>, report: Option<Report>, finished: bool) {
    match s
    case Start => last == None && Silent(report, finished)
    case Checked(_) => last == None && Silent(report, finished) && (AutoStart(o) ==> !o.dryRun)
    case Launched(run) => last == Started(o) && report == Some(run.report) && !finished
    case Saved(run) => report == Some(run.report) && finished && Decides(run.report.status, o.dryRun, last)
    case Recovering(_) => Silent(report, finished)
    case Releasing(_) => Silent(report, finished)
    case Ended(_) =>
      if finished then report.Some? && Decides(report.value.status, o.dryRun, last)
      else report.Some? ==> last == Started(o)
    case _ => last == Started(o) && Silent(report, finished)
  }

  function NextReport(report: Option<Report>, e: Event): Option<Report> {
    match e
    case Launch(_, _, _, Success(r)) => Some(r)
    case _ => report
  }

  lemma OutcomeKeepsFitting(o: Options, s: Stage, e: Event, last: Option<TaskState>, report: Option<Report>,
                            finished: bool)
    requires OutcomeFits(o, s, last, report, finished) && Advance(o, s, e).Some?
    ensures OutcomeFits(o, Advance(o, s, e).value, if MovedTo(e).Some? then MovedTo(e) else last,
                        NextReport(report, e), finished || Finishes(e))
  {
  }

  lemma {:induction false} TraceOutcome(o: Options, t: seq<Event>)
    requires Trace(o, t).Some?
    ensures OutcomeFits(o, Trace(o, t).value, LastTarget(t), ReportIn(t), Any(t, Finishes))
  {
    if t != [] {
      var init, e := t[..|t| - 1], t[|t| - 1];
      assert t == init + [e];
      TraceOutcome(o, init);
      AnySnoc(init, e, Finishes);
      OutcomeKeepsFitting(o, Trace(o, init).value, e, LastTarget(init), ReportIn(init), Any(init, Finishes));
    }
  }

  lemma ReportedOnce(o: Options, s: Stage, e: Event, last: Option<TaskState>, report: Option<Report>, finished: bool)
    requires OutcomeFits(o, s, last, report, finished) && Advance(o, s, e).Some? && report.Some?
    ensures !(e.Launch? && e.report.Success?)
  {
  }

  /** A call launches successfully at most once. */
  lemma {:induction false} ReportAt(o: Options, t: seq<Event>, e: Event)
    requires Trace(o, t).Some? && e in t && e.Launch? && e.report.Success?
    ensures ReportIn(t) == Some(e.report.value)
  {
    var init, last := t[..|t| - 1], t[|t| - 1];
    assert t == init + [last];
    if e in init {
      ReportAt(o, init, e);
      TraceOutcome(o, init);
      ReportedOnce(o, Trace(o, init).value, last, LastTarget(init), ReportIn(init), Any(init, Finishes));
    }
  }

  /** A finished call, with nobody interfering, whose launch reported a session status, and whose
      outcome was saved: the session's end decides the task's state. */
  lemma LaunchDecidesState(o: Options, known: set<string>, m: Manifest, t: seq<Event>, r: Option<Execution>,
                           launch: Event)
    requires Quiet(o, known, m, t) && Completes(o, t, r) && Any(t, Finishes)
    requires launch in t && launch.Launch? && launch.report.Success?
    ensures var state, status := StateOf(Replay(o, m, t).tasks, o.taskId), launch.report.value.status;
            && (status == Session.Status.Completed ==> state == Some(Review))
            && (status == Session.Status.Failed ==> state == Some(TaskState.Blocked))
            && (status == Session.Status.Running ==> state == Some(InProgress))
            && (status == Session.Status.Prepared || status == Session.Status.Cancelled ==>
                  !o.dryRun && state == Some(InProgress))
  {
    ReportAt(o, t, launch);
    TraceOutcome(o, t);
    StateFollows(o, known, m, t);
  }

  /** Without a saved outcome a launched task stays in progress, or, in a dry run, as it was. */
  lemma UnsavedLaunchKeepsState(o: Options, known: set<string>, m: Manifest, t: seq<Event>, r: Option<Execution>,
                                launch: Event)
    requires Quiet(o, known, m, t) && Completes(o, t, r) && !Any(t, Finishes)
    requires launch in t && launch.Launch? && launch.report.Success?
    ensures StateOf(Replay(o, m, t).tasks, o.taskId)
            == if o.dryRun then StateOf(m.tasks, o.taskId) else Some(InProgress)
  {
    ReportAt(o, t, launch);
    TraceOutcome(o, t);
    if o.dryRun { StateKept(o, known, m, t); } else { StateFollows(o, known, m, t); }
  }

  /** The dry run of a session that neither runs nor ends goes on to reload the manifest; until
      then the task is as it was. */
  lemma DryRunKeepsState(o: Options, known: set<string>, m: Manifest, t: seq<Event>, f: StoreFacts, io: bool, ok: bool,
                         launch: Event)
    requires Quiet(o, known, m, t) && Trace(o, t + [Section(Reload(f), io, ok)]).Some?
    requires launch in t && launch.Launch? && launch.report.Success?
    ensures o.dryRun && (launch.report.value.status.Prepared? || launch.report.value.status.Cancelled?)
    ensures StateOf(Replay(o, m, t).tasks, o.taskId) == StateOf(m.tasks, o.taskId)
  {
    ReportAt(o, t, launch);
    TraceOutcome(o, t);
    TraceSnoc(o, t, Section(Reload(f), io, ok));
    ReloadsQuietly(o, Trace(o, t).value, f, io, ok, LastTarget(t), ReportIn(t), Any(t, Finishes));
    StateKept(o, known, m, t);
  }

  lemma ReloadsQuietly(o: Options, s: Stage, f: StoreFacts, io: bool, ok: bool, last: Option<TaskState>,
                       report: Option<Report>, finished: bool)
    requires OutcomeFits(o, s, last, report, finished) && report.Some?
    requires Advance(o, s, Section(Reload(f), io, ok)).Some?
    ensures o.dryRun && last == None && (report.value.status.Prepared? || report.value.status.Cancelled?)
  {
  }

  // ---------------------------------------------------------------------------
  // The task keeps its state until an update names one
  // ---------------------------------------------------------------------------

  ghost predicate KeptSoFar(o: Options, m: Manifest, t: seq<Event>) {
    LastTarget(t) == None ==> StateOf(Replay(o, m, t).tasks, o.taskId) == StateOf(m.tasks, o.taskId)
  }

  lemma DelegationKeepsState(m: Manifest, taskId: string, target: string)
    ensures StateOf(DelegateOwner(m, taskId, target).after.tasks, taskId) == StateOf(m.tasks, taskId)
  {
    var i := FindTask(m.tasks, taskId);
    if i.Some? { StatePut(m.tasks, i.value, m.tasks[i.value].(ownerId := target)); }
  }

  lemma CheckKeepsState(o: Options, known: set<string>, m: Manifest, t: seq<Event>, e: Event)
    requires TeamInv(m) && AllTruthful(o, known, m, t + [e]) && Trace(o, t + [e]).Some? && Contexts(t) == []
    requires Undisturbed(e)
    ensures StateOf(Replay(o, m, t + [e]).tasks, o.taskId) == StateOf(Replay(o, m, t).tasks, o.taskId)
  {
    var before := Replay(o, m, t);
    assert (t + [e])[..|t|] == t;
    UncheckedEvent(o, t, e);
    ReplayKeepsInv(o, m, t);
    AttemptedIsRun(before, Delegating(o));
    DelegationIs(before, o);
    if o.delegation.Some? { DelegationKeepsState(before, o.taskId, o.delegation.value.target); }
  }

  lemma UncheckedEvent(o: Options, t: seq<Event>, e: Event)
    requires Trace(o, t + [e]).Some? && Contexts(t) == []
    ensures e.Theirs? || e.Check?
  {
    TraceSnoc(o, t, e);
    TraceKeepsLedgers(o, t);
  }

  lemma KeptStep(o: Options, known: set<string>, m: Manifest, t: seq<Event>, init: seq<Event>, e: Event)
    requires Quiet(o, known, m, t) && t == init + [e] && KeptSoFar(o, m, init)
    ensures KeptSoFar(o, m, t)
  {
    assert t[..|init|] == init && e in t;
    if LastTarget(t) == None {
      TracePrefix(o, t, |init|);
      if Contexts(init) == [] { CheckKeepsState(o, known, m, init, e); } else { QuietStep(o, known, m, init, e); }
    }
  }

  lemma {:induction false} StateKept(o: Options, known: set<string>, m: Manifest, t: seq<Event>)
    requires Quiet(o, known, m, t)
    ensures KeptSoFar(o, m, t)
    decreases |t|
  {
    if |t| > 0 {
      var init, e := t[..|t| - 1], t[|t| - 1];
      QuietInit(o, known, m, t, init, e);
      StateKept(o, known, m, init);
      KeptStep(o, known, m, t, init, e);
    }
  }

  // ---------------------------------------------------------------------------
  // What the first phase finds
  // ---------------------------------------------------------------------------

  /** The lead or member with the id. */
  ghost predicate IsMember(m: Manifest, x: Member, id: string) {
    (x == m.lead || x in m.members) && x.memberId == id
  }

  lemma TheMember(m: Manifest, x: Member, id: string)
    requires MembersOk(m) && IsMember(m, x, id)
    ensures KnownMember(m, id) && MemberWith(m, id) == x
  {
    if x != m.lead {
      var k :| 0 <= k < |m.members| && m.members[k] == x;
      TeamEffects.MemberAt(m, k);
    }
  }

  /** A card can be started exactly if it is not in progress and its owner works in external slots
      and has a known runtime, the card's own first, and no unknown fallback. What the first phase
      then finds is the team's repository, the owner, and the card's slot or else the owner's. */
  lemma StartableMeaning(m: Manifest, i: nat, x: Member, known: set<string>)
    requires WellFormed(m) && i < |m.tasks| && IsMember(m, x, m.tasks[i].ownerId)
    ensures var t := m.tasks[i];
            var runtime := if t.runtime.Some? then t.runtime else x.policy.runtime;
            Startable(m, t.taskId, known) <==>
            && t.state != InProgress && x.executionMode == ExternalSlots
            && runtime.Some? && runtime.value in known
            && (x.policy.fallbackRuntime == None || x.policy.fallbackRuntime.value in known)
    ensures var t := m.tasks[i];
            Startable(m, t.taskId, known) ==>
              var ctx := ContextOf(m, t.taskId, known);
              && ctx.repoId == m.repoId && ctx.ownerId == t.ownerId
              && (t.slotId.Some? ==> ctx.bound == t.slotId) && (t.slotId == None ==> ctx.bound == x.slotId)
  {
    TeamEffects.CardAt(m, i);
    TheMember(m, x, m.tasks[i].ownerId);
  }

  // ---------------------------------------------------------------------------
  // Binding and finishing
  // ---------------------------------------------------------------------------

  lemma BindIs(o: Options, m: Manifest, owner: string, slotId: string, branch: string)
    requires WellFormed(m) && o.taskId in TaskIds(m.tasks) && KnownMember(m, owner)
    ensures Run(m, Calls(o, Bind(owner, slotId, branch), m))
            == BindTaskSlot(TeamModel.AssignMemberSlot(m, owner, slotId, branch).after, o.taskId, slotId, branch).after
  {
    AcceptedIff(o, m, Bind(owner, slotId, branch));
    AttemptedIsRun(m, Calls(o, Bind(owner, slotId, branch), m));
    BindCallsAre(m, o.taskId, owner, slotId, branch);
  }

  /** Binding writes the slot and its branch to the card and to its owner, and to nothing else. */
  lemma BindEffect(o: Options, m: Manifest, i: nat, k: nat, owner: string, slotId: string, branch: string)
    requires WellFormed(m) && i < |m.tasks| && m.tasks[i].taskId == o.taskId && k < |m.members|
    ensures var tasks := m.tasks[i := m.tasks[i].(slotId := Some(slotId), branchName := Some(branch))];
            && Run(m, Calls(o, Bind(m.lead.memberId, slotId, branch), m))
               == m.(tasks := tasks, lead := m.lead.(slotId := Some(slotId), branchName := Some(branch)))
            && Run(m, Calls(o, Bind(m.members[k].memberId, slotId, branch), m))
               == m.(tasks := tasks,
                     members := m.members[k := m.members[k].(slotId := Some(slotId), branchName := Some(branch))])
  {
    assert m.tasks[i] in m.tasks;
    TeamEffects.AssignSlotEffect(m, owner, k, slotId, branch);
    TeamEffects.MemberAt(m, k);
    TeamEffects.CardAt(m, i);
    BindIs(o, m, m.lead.memberId, slotId, branch);
    BindIs(o, m, m.members[k].memberId, slotId, branch);
  }

  lemma FinishIs(o: Options, m: Manifest, owner: string, session: Option<string>, next: TaskState)
    requires WellFormed(m) && o.taskId in TaskIds(m.tasks) && next != Superseded
    ensures var moved := SetTaskState(ClearTaskResult(m, o.taskId).after, o.taskId, next).after;
            Run(m, Calls(o, Finish(owner, session, next), m))
            == if !o.dryRun && CurrentLeadId(m) == owner then moved.(leadSessionId := session) else moved
  {
    AcceptedIff(o, m, Finish(owner, session, next));
    AttemptedIsRun(m, Calls(o, Finish(owner, session, next), m));
    FinishCallsAre(o, m, owner, session, next);
    ClearThenSet(m, o.taskId, next);
    ClearThenSetIs(m, o.taskId, next);
    ResultCleared(m, o.taskId);
    LeadSessionBound(SetTaskState(ClearTaskResult(m, o.taskId).after, o.taskId, next).after, session);
  }

  /** A card moved on, without replacement or result. */
  function Moved(t: Task, next: TaskState): Task {
    t.(state := next, supersededBy := None, result := TaskResult(None, None, None, None))
  }

  lemma ClearSetEffect(m: Manifest, i: nat, next: TaskState)
    requires WellFormed(m) && i < |m.tasks| && next != Superseded
    ensures var id := m.tasks[i].taskId;
            var n := SetTaskState(ClearTaskResult(m, id).after, id, next).after;
            n == m.(tasks := m.tasks[i := Moved(m.tasks[i], next)], status := n.status)
  {
    var id := m.tasks[i].taskId;
    TeamEffects.CardAt(m, i);
    TeamEffects.ClearResultOf(m, i);
    var cleared := ClearTaskResult(m, id).after;
    TeamEffects.SetStateOf(cleared, i, next);
    assert SetTaskState(cleared, id, next).after.tasks == m.tasks[i := Moved(m.tasks[i], next)];
  }

  /** Finishing clears the card's result and moves it, and binds the session to the current lead
      exactly if that is the owner and it is no dry run. */
  lemma FinishEffect(o: Options, m: Manifest, i: nat, owner: string, session: Option<string>, next: TaskState)
    requires WellFormed(m) && i < |m.tasks| && m.tasks[i].taskId == o.taskId && next != Superseded
    ensures var n, t := Run(m, Calls(o, Finish(owner, session, next), m)), m.tasks[i];
            var lead := if m.currentLeadId.Some? then m.currentLeadId.value else m.lead.memberId;
            && n.tasks == m.tasks[i := Moved(t, next)]
            && n.leadSessionId == (if !o.dryRun && owner == lead then session else m.leadSessionId)
            && n == m.(tasks := n.tasks, leadSessionId := n.leadSessionId, status := n.status)
  {
    assert m.tasks[i] in m.tasks;
    FinishIs(o, m, owner, session, next);
    ClearSetEffect(m, i, next);
  }

  /** The slot was looked up and its record has the branch. */
  predicate LooksUp(e: Event, slotId: string, branch: string) {
    && e.Lookup? && e.slotId == slotId
    && e.record.Success? && e.record.value.Some? && e.record.value.value.branch == branch
  }

  ghost predicate LookedUp(t: seq<Event>, slotId: string, branch: string) {
    exists e :: e in t && LooksUp(e, slotId, branch)
  }

  lemma PlacedFrom(o: Options, s: Stage, e: Event)
    requires Advance(o, s, e).Some? && Advance(o, s, e).value.Placed?
    ensures var placed := Advance(o, s, e).value;
            s == placed || LooksUp(e, placed.slotId, placed.branch)
  {
  }

  lemma {:induction false} PlacedLookedUp(o: Options, t: seq<Event>)
    requires Trace(o, t).Some? && Trace(o, t).value.Placed?
    ensures LookedUp(t, Trace(o, t).value.slotId, Trace(o, t).value.branch)
  {
    if t != [] {
      var init, e := t[..|t| - 1], t[|t| - 1];
      PlacedFrom(o, Trace(o, init).value, e);
      if Trace(o, init) == Trace(o, t) { PlacedLookedUp(o, init); }
    }
  }

  /** A launched call is the work of the owner found and carries what the launch reported. */
  predicate NamesFit(s: Stage, found: seq<Context>, report: Option<Report>) {
    s.Launched? ==> |found| == 1 && s.run.ownerId == found[0].ownerId && report == Some(s.run.report)
  }

  lemma NamesKeepFitting(o: Options, s: Stage, e: Event, found: seq<Context>, report: Option<Report>)
    requires NamesFit(s, found, report) && Advance(o, s, e).Some?
    requires ContextAt(s).Some? ==> found == [ContextAt(s).value]
    ensures NamesFit(Advance(o, s, e).value, found + FoundBy(e), NextReport(report, e))
  {
    assert found + [] == found;
  }

  lemma {:induction false} TraceNames(o: Options, t: seq<Event>)
    requires Trace(o, t).Some?
    ensures NamesFit(Trace(o, t).value, Contexts(t), ReportIn(t))
  {
    if t != [] {
      var init, e := t[..|t| - 1], t[|t| - 1];
      assert t == init + [e];
      TraceNames(o, init);
      TraceKeepsLedgers(o, init);
      LedgerSnoc(init, e);
      NamesKeepFitting(o, Trace(o, init).value, e, Contexts(init), ReportIn(init));
    }
  }

  /** Binding names the owner that the first phase found and the slot and branch that were looked up. */
  lemma BindNames(o: Options, t: seq<Event>, e: Event)
    requires Trace(o, t + [e]).Some? && e.Section? && e.phase.Bind?
    ensures Contexts(t) != [] && e.phase.ownerId == Contexts(t)[0].ownerId
    ensures LookedUp(t, e.phase.slotId, e.phase.branch)
  {
    TraceSnoc(o, t, e);
    TraceKeepsLedgers(o, t);
    PlacedLookedUp(o, t);
  }

  /** Finishing names the owner that the first phase found and the session that was reported. */
  lemma FinishNames(o: Options, t: seq<Event>, e: Event, launch: Event)
    requires Trace(o, t + [e]).Some? && e.Section? && e.phase.Finish?
    requires launch in t && launch.Launch? && launch.report.Success?
    ensures Contexts(t) != [] && e.phase.ownerId == Contexts(t)[0].ownerId
    ensures e.phase.session == launch.report.value.sessionId
  {
    TraceSnoc(o, t, e);
    TraceNames(o, t);
    ReportAt(o, t, launch);
  }

  // ---------------------------------------------------------------------------
  // When a call succeeds, and what its commands name
  // ---------------------------------------------------------------------------

  /** A step of the call that did not go through. */
  predicate Broken(e: Event) {
    match e
    case Check(_, found) => found.None?
    case Section(_, _, ok) => !ok
    case Lookup(_, record) => record.Failure? || record.value.None?
    case Acquire(_, _, _, given) => given.Failure? || given.value.None?
    case Launch(_, _, _, report) => report.Failure?
    case Audit(done) => !done
    case _ => false
  }

  predicate Failing(s: Stage) {
    s.Recovering? || s.Releasing? || s == Ended(None)
  }

  lemma FailingStep(o: Options, s: Stage, e: Event, found: seq<Context>)
    requires Advance(o, s, e).Some? && (s.Acquired? ==> s.ctx.bound.None?)
    requires ContextAt(s).Some? ==> found == [ContextAt(s).value]
    ensures Failing(Advance(o, s, e).value) <==> Failing(s) || Broken(e) || (ContextAt(s).Some? && StraysIn(found, e))
  {
  }

  lemma StrayStage(o: Options, s: Stage, e: Event, found: seq<Context>)
    requires Advance(o, s, e).Some? && StraysIn(found, e)
    ensures ContextAt(s).Some?
  {
  }

  lemma OnlyStartChecks(o: Options, s: Stage, e: Event)
    requires Advance(o, s, e).Some? && e.Check?
    ensures s.Start?
  {
  }

  lemma FailingNext(o: Options, t: seq<Event>, init: seq<Event>, e: Event)
    requires t == init + [e] && Trace(o, t).Some? && Trace(o, init).Some?
    requires Failing(Trace(o, init).value) <==> Any(init, Broken) || WrongRepo(init)
    ensures Failing(Trace(o, t).value) <==> Any(t, Broken) || WrongRepo(t)
  {
    var s, found := Trace(o, init).value, Contexts(init);
    TraceSnoc(o, init, e);
    TraceKeepsLedgers(o, init);
    AnySnoc(init, e, Broken);
    if e.Check? { OnlyStartChecks(o, s, e); }
    WrongRepoSnoc(init, s, e);
    FailingStep(o, s, e, found);
    if StraysIn(found, e) { StrayStage(o, s, e, found); }
  }

  lemma {:induction false} TraceFailing(o: Options, t: seq<Event>)
    requires Trace(o, t).Some?
    ensures Failing(Trace(o, t).value) <==> Any(t, Broken) || WrongRepo(t)
  {
    if t == [] {
      assert !Any(t, Broken) && !WrongRepo(t);
    } else {
      var init := t[..|t| - 1];
      TraceFailing(o, init);
      FailingNext(o, t, init, t[|t| - 1]);
    }
  }

  /** A finished call succeeds exactly if every step of its own went through and a slot that the
      task or its owner was bound to is in the team's repository. */
  lemma SucceedsIff(o: Options, t: seq<Event>, r: Option<Execution>)
    requires Completes(o, t, r)
    ensures r.Some? <==> !Any(t, Broken) && !WrongRepo(t)
  {
    TraceFailing(o, t);
  }

  /** A call acquires a slot only for an unbound task, in the team's repository and under the
      task's id; it looks up and launches on the bound or else the acquired slot, dry exactly in a
      dry run, and releases only what it has acquired. */
  ghost predicate NamesRightly(o: Options, found: seq<Context>, acquired: seq<string>, e: Event) {
    match e
    case Acquire(repoId, taskName, _, _) =>
      |found| == 1 && found[0].bound == None && repoId == found[0].repoId && taskName == o.taskId
    case Lookup(id, _) =>
      |found| == 1 && if found[0].bound.Some? then found[0].bound == Some(id) else acquired == [id]
    case Launch(id, dryRun, _, _) =>
      |found| == 1 && dryRun == o.dryRun && (found[0].bound == Some(id) || acquired == [id])
    case Release(id, _) => acquired == [id]
    case _ => true
  }

  lemma NamesRightlyAt(o: Options, s: Stage, e: Event, found: seq<Context>, acquired: seq<string>,
                       released: seq<string>, launched: seq<string>, failed: bool, onlyTheirs: bool)
    requires Advance(o, s, e).Some? && ContextsFit(s, found, acquired, onlyTheirs)
    requires SlotsFit(s, acquired, released, failed) && ResultFits(s, found, acquired, launched)
    ensures NamesRightly(o, found, acquired, e)
  {
  }

  lemma CommandsNameRightly(o: Options, t: seq<Event>, e: Event)
    requires Trace(o, t + [e]).Some?
    ensures NamesRightly(o, Contexts(t), AcquiredSlots(t), e)
  {
    TraceSnoc(o, t, e);
    TraceKeepsLedgers(o, t);
    SuccessTellsTruth(o, t);
    NamesRightlyAt(o, Trace(o, t).value, e, Contexts(t), AcquiredSlots(t), ReleasedSlots(t), LaunchedSlots(t),
                   Any(t, LaunchFailure), !Any(t, OwnEvent));
  }
}
