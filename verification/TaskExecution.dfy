/** Starting or delegating a team task (`execute_team_task`): a sequence of separately locked
    manifest updates and external commands with compensation on failure. The protocol is a
    state machine over the events of a call; its guarantees hold of every run of that machine,
    and the method that performs a call is proved to run it. */
module TaskProtocol {
  import opened Wrappers
  import opened TeamModel
  import opened TeamRuns
  import opened TeamInvariants
  import Session

  datatype Delegation = Delegation(target: string, autoStart: bool)

  /** `parses` says whether the launch mode and the slot strategy are known names. */
  datatype Options = Options(taskId: string, parses: bool, dryRun: bool, delegation: Option<Delegation>)

  datatype Slot = Slot(repoId: string, branch: string)

  /** What the first phase reads from the manifest: `bound` is the task's slot or else its owner's. */
  datatype Context = Context(repoId: string, ownerId: string, bound: Option<string>)

  /** The SessionStarted event of a launch, `Prepared` without id when there is none. */
  datatype Report = Report(sessionId: Option<string>, status: Session.Status)

  datatype Execution = Execution(ownerId: string, slotId: Option<string>, acquired: bool, report: Report)

  /** The locked manifest updates after the first one. */
  datatype Phase =
    | Reload(facts: StoreFacts)
    | Mark
    | Bind(ownerId: string, slotId: string, branch: string)
    | Finish(ownerId: string, session: Option<string>, next: TaskState)
    | Recover

  /** `io` says whether the manifest file could be read and written, `ok` whether the update was
      saved. `Theirs` is an operation that another process completed in between. The commands take
      effect before they record it, so one that reports an error may still have `created` an active
      slot or `started` a session. */
  datatype Event =
    | Theirs(op: TeamOp)
    | Check(io: bool, found: Option<Context>)
    | Section(phase: Phase, io: bool, ok: bool)
    | Lookup(slotId: string, record: Result<Option<Slot>, ()>)
    | Acquire(repoId: string, taskName: string, created: Option<string>, given: Result<Option<string>, ()>)
    | Launch(slotId: string, dryRun: bool, started: bool, report: Result<Report, ()>)
    | Release(slotId: string, done: bool)
    | Audit(done: bool)

  // ---------------------------------------------------------------------------
  // What the events do to the manifest file
  // ---------------------------------------------------------------------------

  function Delegating(o: Options): seq<TeamOp> {
    match o.delegation
    case Some(d) => [TeamOp.Delegate(o.taskId, d.target)]
    case None => []
  }

  /** The mutators that a phase calls between one load and one save. */
  function Calls(o: Options, p: Phase, m: Manifest): seq<TeamOp> {
    match p
    case Reload(facts) => [TeamOp.Reconcile(facts)]
    case Mark => [TeamOp.SetState(o.taskId, InProgress)]
    case Bind(owner, s, b) => [TeamOp.AssignSlot(owner, s, b), TeamOp.BindSlot(o.taskId, s, b)]
    case Finish(owner, session, next) =>
      [TeamOp.ClearResult(o.taskId), TeamOp.SetState(o.taskId, next)]
      + if !o.dryRun && CurrentLeadId(m) == owner then [TeamOp.BindLeadSession(owner, session)] else []
    case Recover => [TeamOp.SetState(o.taskId, TaskState.Blocked)]
  }

  /** Mutators in sequence, stopping at the first that fails. */
  ghost function Attempted(m: Manifest, ops: seq<TeamOp>): Attempt
    decreases |ops|
  {
    if ops == [] then Attempt(m, true)
    else
      var a := Attempted(m, ops[..|ops| - 1]);
      if a.ok then Perform(a.after, ops[|ops| - 1]) else a
  }

  ghost predicate Accepts(m: Manifest, ops: seq<TeamOp>) {
    Attempted(m, ops).ok && WellFormed(Attempted(m, ops).after)
  }

  function MemberWith(m: Manifest, id: string): Member
    requires KnownMember(m, id)
  {
    if m.lead.memberId == id then m.lead else m.members[FindMember(m.members, id).value]
  }

  /** A runtime can be chosen: the task or its owner names one, and it and the owner's fallback
      are among the `known` names. */
  predicate Routable(t: Task, owner: Member, known: set<string>) {
    var primary := if t.runtime.Some? then t.runtime else owner.policy.runtime;
    && primary.Some? && primary.value in known
    && (owner.policy.fallbackRuntime.Some? ==> owner.policy.fallbackRuntime.value in known)
  }

  /** The checks before the first save, on the manifest after a delegation. */
  predicate Startable(m: Manifest, taskId: string, known: set<string>) {
    match FindTask(m.tasks, taskId)
    case None => false
    case Some(i) =>
      && KnownMember(m, m.tasks[i].ownerId)
      && MemberWith(m, m.tasks[i].ownerId).executionMode == ExternalSlots
      && m.tasks[i].state != InProgress
      && Routable(m.tasks[i], MemberWith(m, m.tasks[i].ownerId), known)
  }

  function ContextOf(m: Manifest, taskId: string, known: set<string>): Context
    requires Startable(m, taskId, known)
  {
    var t := m.tasks[FindTask(m.tasks, taskId).value];
    Context(m.repoId, t.ownerId, if t.slotId.Some? then t.slotId else MemberWith(m, t.ownerId).slotId)
  }

  ghost predicate CheckPasses(o: Options, known: set<string>, m: Manifest) {
    Accepts(m, Delegating(o)) && Startable(Attempted(m, Delegating(o)).after, o.taskId, known)
  }

  /** The event reports what really happened on manifest `m`. */
  ghost predicate Truthful(o: Options, known: set<string>, m: Manifest, e: Event) {
    match e
    case Check(io, found) =>
      found == if io && CheckPasses(o, known, m)
               then Some(ContextOf(Attempted(m, Delegating(o)).after, o.taskId, known))
               else None
    case Section(p, io, ok) => ok <==> io && Accepts(m, Calls(o, p, m))
    case _ => true
  }

  /** The operations on the manifest file that an event stands for. */
  ghost function Writes(o: Options, m: Manifest, e: Event): seq<TeamOp> {
    match e
    case Theirs(op) => [op]
    case Check(_, Some(_)) => Delegating(o)
    case Section(p, _, true) => Calls(o, p, m)
    case _ => []
  }

  ghost function Replay(o: Options, m: Manifest, t: seq<Event>): Manifest
    decreases |t|
  {
    if t == [] then m
    else
      var before := Replay(o, m, t[..|t| - 1]);
      Run(before, Writes(o, before, t[|t| - 1]))
  }

  ghost predicate AllTruthful(o: Options, known: set<string>, m: Manifest, t: seq<Event>)
    decreases |t|
  {
    t == [] || (AllTruthful(o, known, m, t[..|t| - 1]) && Truthful(o, known, Replay(o, m, t[..|t| - 1]), t[|t| - 1]))
  }

  // ---------------------------------------------------------------------------
  // The protocol
  // ---------------------------------------------------------------------------

  datatype Stage =
    | Start
    | Checked(ctx: Context)
    | Marked(ctx: Context)
    | Acquired(ctx: Context, slotId: string)
    | Placed(ctx: Context, slotId: string, branch: string, acquired: bool)
    | Bound(ctx: Context, slotId: string, acquired: bool)
    | Launched(run: Execution)
    | Saved(run: Execution)
    | Recovering(release: Option<string>)
    | Releasing(slotId: string)
    | Ended(result: Option<Execution>)

  predicate AutoStart(o: Options) {
    o.delegation.Some? ==> o.delegation.value.autoStart
  }

  function NextState(o: Options, status: Session.Status): TaskState {
    match status
    case Completed => Review
    case Failed => TaskState.Blocked
    case Running => InProgress
    case _ => if o.dryRun then Todo else InProgress
  }

  predicate NeedsFinish(o: Options, status: Session.Status) {
    !o.dryRun || NextState(o, status) != Todo
  }

  function Rollback(slotId: string, acquired: bool): Stage {
    Recovering(if acquired then Some(slotId) else None)
  }

  function End(ok: bool, run: Execution): Stage {
    Ended(if ok then Some(run) else None)
  }

  function AfterCheck(o: Options, found: Option<Context>): Stage {
    match found
    case None => Ended(None)
    case Some(ctx) => if AutoStart(o) && o.dryRun then Marked(ctx) else Checked(ctx)
  }

  function AfterLookup(ctx: Context, id: string, record: Result<Option<Slot>, ()>, acquired: bool): Stage {
    match record
    case Failure(_) => Ended(None)
    case Success(None) => Recovering(None)
    case Success(Some(slot)) =>
      if !acquired && slot.repoId != ctx.repoId then Recovering(None)
      else Placed(ctx, id, slot.branch, acquired)
  }

  /** A command that reports success has had its effect. */
  predicate Effective(e: Event) {
    match e
    case Acquire(_, _, created, Success(Some(id))) => created == Some(id)
    case Launch(_, _, started, Success(_)) => started
    case _ => true
  }

  /** The stage after an event of this call; None when the protocol does not allow it. */
  function Advance(o: Options, s: Stage, e: Event): Option<Stage> {
    match (s, e)
    case (_, Theirs(_)) => Some(s)
    case (Start, Check(_, found)) =>
      Some(AfterCheck(o, found))
    case (Checked(ctx), Section(Reload(_), _, ok)) =>
      if AutoStart(o) then None else Some(End(ok, Execution(ctx.ownerId, None, false, Report(None, Session.Prepared))))
    case (Checked(ctx), Section(Mark, _, ok)) =>
      if !AutoStart(o) then None else Some(if ok then Marked(ctx) else Ended(None))
    case (Marked(ctx), Lookup(id, record)) =>
      if ctx.bound != Some(id) then None
      else Some(AfterLookup(ctx, id, record, false))
    case (Marked(ctx), Acquire(repoId, taskName, created, given)) =>
      if ctx.bound.Some? || repoId != ctx.repoId || taskName != o.taskId || !Effective(e) then None
      else Some(
        match given
        case Success(Some(id)) => Acquired(ctx, id)
        case _ => Recovering(None))
    case (Acquired(ctx, id), Lookup(looked, record)) =>
      if looked != id then None
      else Some(AfterLookup(ctx, id, record, true))
    case (Placed(ctx, id, branch, acquired), Section(Bind(owner, s, b), _, ok)) =>
      if (owner, s, b) != (ctx.ownerId, id, branch) then None
      else Some(if ok then Bound(ctx, id, acquired) else Rollback(id, acquired))
    case (Bound(ctx, id, acquired), Launch(s, dryRun, started, report)) =>
      if s != id || dryRun != o.dryRun || !Effective(e) then None
      else Some(if report.Failure? then Rollback(id, acquired)
                else Launched(Execution(ctx.ownerId, Some(id), acquired, report.value)))
    case (Launched(run), Section(Finish(owner, session, next), _, ok)) =>
      if !NeedsFinish(o, run.report.status)
        || (owner, session, next) != (run.ownerId, run.report.sessionId, NextState(o, run.report.status)) then None
      else Some(if ok then Saved(run) else Ended(None))
    case (Launched(run), Section(Reload(_), _, ok)) =>
      if NeedsFinish(o, run.report.status) then None else Some(End(ok, run))
    case (Saved(run), Audit(done)) => Some(End(done, run))
    case (Recovering(release), Section(Recover, _, _)) =>
      Some(if release.Some? then Releasing(release.value) else Ended(None))
    case (Releasing(id), Release(s, _)) => if s == id then Some(Ended(None)) else None
    case _ => None
  }

  function Trace(o: Options, t: seq<Event>): Option<Stage>
    decreases |t|
  {
    if t == [] then Some(Start)
    else
      match Trace(o, t[..|t| - 1])
      case None => None
      case Some(s) => Advance(o, s, t[|t| - 1])
  }

  /** The file and the stage after the events; None if an event is untrue or not allowed. */
  ghost function Story(o: Options, known: set<string>, m: Manifest, t: seq<Event>): Option<(Manifest, Stage)>
    decreases |t|
  {
    if t == [] then Some((m, Start))
    else
      match Story(o, known, m, t[..|t| - 1])
      case None => None
      case Some((before, s)) =>
        var e := t[|t| - 1];
        if !Truthful(o, known, before, e) || Advance(o, s, e).None? then None
        else Some((Run(before, Writes(o, before, e)), Advance(o, s, e).value))
  }

  /** A story is a true account of the manifest file that follows the protocol. */
  lemma {:induction false} StoryIff(o: Options, known: set<string>, m: Manifest, t: seq<Event>)
    ensures Story(o, known, m, t).Some? <==> AllTruthful(o, known, m, t) && Trace(o, t).Some?
    ensures Story(o, known, m, t).Some? ==> Story(o, known, m, t).value == (Replay(o, m, t), Trace(o, t).value)
    decreases |t|
  {
    if t != [] { StoryIff(o, known, m, t[..|t| - 1]); }
  }

  lemma StoryNext(o: Options, known: set<string>, m: Manifest, t: seq<Event>, file: Manifest, s: Stage, e: Event)
    requires Story(o, known, m, t) == Some((file, s)) && Advance(o, s, e).Some? && Truthful(o, known, file, e)
    ensures Story(o, known, m, t + [e]) == Some((Run(file, Writes(o, file, e)), Advance(o, s, e).value))
  {
    assert (t + [e])[..|t|] == t;
  }

  lemma OneStep(m: Manifest, op: TeamOp)
    ensures Run(m, [op]) == Step(m, op)
  {
    assert [op][..0] == [];
  }

  lemma ReleaseAdvances(o: Options, slotId: string, done: bool)
    ensures Advance(o, Releasing(slotId), Release(slotId, done)) == Some(Ended(None))
  {
  }

  lemma TheirsFits(o: Options, known: set<string>, file: Manifest, s: Stage, op: TeamOp)
    ensures Advance(o, s, Theirs(op)) == Some(s) && Truthful(o, known, file, Theirs(op))
            && Run(file, Writes(o, file, Theirs(op))) == Step(file, op)
  {
    OneStep(file, op);
  }

  lemma TheirsNext(o: Options, known: set<string>, m: Manifest, t: seq<Event>, file: Manifest, s: Stage, op: TeamOp)
    requires Story(o, known, m, t) == Some((file, s))
    ensures Story(o, known, m, t + [Theirs(op)]) == Some((Step(file, op), s))
    ensures Advance(o, s, Theirs(op)) == Some(s) && Truthful(o, known, file, Theirs(op))
            && Run(file, Writes(o, file, Theirs(op))) == Step(file, op)
  {
    TheirsFits(o, known, file, s, op);
    StoryNext(o, known, m, t, file, s, Theirs(op));
  }

  lemma {:induction false} StoryKeepsInv(o: Options, known: set<string>, m: Manifest, t: seq<Event>)
    requires TeamInv(m) && Story(o, known, m, t).Some?
    ensures TeamInv(Story(o, known, m, t).value.0)
  {
    StoryIff(o, known, m, t);
    ReplayKeepsInv(o, m, t);
  }

  /** A finished call with result `r`. */
  predicate Completes(o: Options, t: seq<Event>, r: Option<Execution>) {
    Trace(o, t) == Some(Ended(r))
  }

  lemma TraceSnoc(o: Options, t: seq<Event>, e: Event)
    ensures Trace(o, t + [e]) == if Trace(o, t).Some? then Advance(o, Trace(o, t).value, e) else None
  {
    assert (t + [e])[..|t|] == t;
  }

  // ---------------------------------------------------------------------------
  // Compensation
  // ---------------------------------------------------------------------------

  ghost predicate Any(t: seq<Event>, p: Event -> bool) {
    exists e :: e in t && p(e)
  }

  lemma AnySnoc(t: seq<Event>, e: Event, p: Event -> bool)
    ensures Any(t + [e], p) <==> Any(t, p) || p(e)
  {
    assert forall x :: x in t + [e] <==> x in t || x == e;
  }

  /** Binding the slot failed, or launching the session did. */
  predicate LaunchFailure(e: Event) {
    match e
    case Section(Bind(_, _, _), _, false) => true
    case Launch(_, _, _, Failure(_)) => true
    case _ => false
  }

  /** The start reported an error but has started a session. */
  predicate LateLaunchFailure(e: Event) {
    e.Launch? && e.started && e.report.Failure?
  }

  /** Acquiring failed or gave no id. */
  predicate AcquireFailure(e: Event) {
    e.Acquire? && (e.given.Failure? || e.given.value.None?)
  }

  predicate UnknownSlot(e: Event) {
    e.Lookup? && e.record == Success(None)
  }

  /** The record of a slot could not be read or was not there. */
  predicate RecordMissing(e: Event) {
    e.Lookup? && (e.record.Failure? || e.record.value.None?)
  }

  function AcquiredBy(e: Event): seq<string> {
    match e
    case Acquire(_, _, Some(id), _) => [id]
    case _ => []
  }

  function ReleasedBy(e: Event): seq<string> {
    match e
    case Release(id, _) => [id]
    case _ => []
  }

  function FoundBy(e: Event): seq<Context> {
    match e
    case Check(_, Some(ctx)) => [ctx]
    case _ => []
  }

  function LaunchedBy(e: Event): seq<string> {
    match e
    case Launch(id, _, started, _) => if started then [id] else []
    case _ => []
  }

  predicate Recovers(e: Event) {
    e.Section? && e.phase.Recover?
  }

  /** The slots that the call's acquisition has made active, whatever it reported. */
  function AcquiredSlots(t: seq<Event>): seq<string> {
    if t == [] then [] else AcquiredSlots(t[..|t| - 1]) + AcquiredBy(t[|t| - 1])
  }

  /** The slots whose release the call issued, successfully or not. */
  function ReleasedSlots(t: seq<Event>): seq<string> {
    if t == [] then [] else ReleasedSlots(t[..|t| - 1]) + ReleasedBy(t[|t| - 1])
  }

  /** The slots on which the call has started a session, whatever the start reported. */
  function LaunchedSlots(t: seq<Event>): seq<string> {
    if t == [] then [] else LaunchedSlots(t[..|t| - 1]) + LaunchedBy(t[|t| - 1])
  }

  /** What the first phase found, if it passed. */
  function Contexts(t: seq<Event>): seq<Context> {
    if t == [] then [] else Contexts(t[..|t| - 1]) + FoundBy(t[|t| - 1])
  }

  /** How often the call asked for the task to become Blocked. */
  function Recoveries(t: seq<Event>): nat {
    if t == [] then 0 else Recoveries(t[..|t| - 1]) + if Recovers(t[|t| - 1]) then 1 else 0
  }

  /** `e`, in the context found, is a lookup of a bound slot that is in another repository. */
  predicate StraysIn(found: seq<Context>, e: Event) {
    && e.Lookup? && e.record.Success? && e.record.value.Some?
    && |found| == 1 && found[0].bound == Some(e.slotId) && e.record.value.value.repoId != found[0].repoId
  }

  ghost predicate Strays(t: seq<Event>, found: seq<Context>) {
    exists e :: e in t && StraysIn(found, e)
  }

  /** The slot the task or owner is bound to is in another repository. */
  ghost predicate WrongRepo(t: seq<Event>) {
    Strays(t, Contexts(t))
  }

  /** The failures after which the task must not stay in progress. */
  ghost predicate StartFailed(t: seq<Event>) {
    Any(t, LaunchFailure) || Any(t, AcquireFailure) || Any(t, UnknownSlot) || WrongRepo(t)
  }

  function ContextAt(s: Stage): Option<Context> {
    match s
    case Checked(ctx) => Some(ctx)
    case Marked(ctx) => Some(ctx)
    case Acquired(ctx, _) => Some(ctx)
    case Placed(ctx, _, _, _) => Some(ctx)
    case Bound(ctx, _, _) => Some(ctx)
    case _ => None
  }

  /** The slot that the call has acquired by stage `s`, for the stages that know. */
  function Holding(s: Stage): seq<string> {
    match s
    case Acquired(_, id) => [id]
    case Placed(_, id, _, acquired) => if acquired then [id] else []
    case Bound(_, id, acquired) => if acquired then [id] else []
    case Launched(run) => if run.acquired && run.slotId.Some? then [run.slotId.value] else []
    case Saved(run) => if run.acquired && run.slotId.Some? then [run.slotId.value] else []
    case Recovering(Some(id)) => [id]
    case Releasing(id) => [id]
    case _ => []
  }

  /** Acquired and released slots, stage by stage. */
  predicate SlotsFit(s: Stage, acquired: seq<string>, released: seq<string>, failed: bool) {
    match s
    case Ended(_) => released == (if failed then acquired else []) && |acquired| <= 1
    case Recovering(None) => released == [] && |acquired| <= 1 && (failed ==> acquired == [])
    case Recovering(Some(_)) => released == [] && failed && acquired == Holding(s)
    case Releasing(_) => released == [] && failed && acquired == Holding(s)
    case _ => released == [] && !failed && acquired == Holding(s)
  }

  ghost predicate SlotLedger(t: seq<Event>, s: Stage) {
    SlotsFit(s, AcquiredSlots(t), ReleasedSlots(t), Any(t, LaunchFailure))
  }

  /** The context is found once, and slots are acquired only when it has none bound. */
  predicate ContextsFit(s: Stage, found: seq<Context>, acquired: seq<string>, onlyTheirs: bool) {
    && (s.Start? ==> onlyTheirs && found == [] && acquired == [])
    && (ContextAt(s).Some? ==> found == [ContextAt(s).value])
    && |found| <= 1
    && (!s.Start? && !s.Ended? ==> |found| == 1)
    && (acquired != [] ==> |found| == 1 && found[0].bound.None?)
    && (s.Acquired? ==> s.ctx.bound.None?)
  }

  predicate OwnEvent(e: Event) {
    !e.Theirs?
  }

  ghost predicate ContextLedger(t: seq<Event>, s: Stage) {
    ContextsFit(s, Contexts(t), AcquiredSlots(t), !Any(t, OwnEvent))
  }

  /** Requests to block the task, stage by stage. */
  predicate RecoveriesFit(s: Stage, recoveries: nat, failed: bool) {
    match s
    case Ended(_) => recoveries == if failed then 1 else 0
    case Recovering(_) => recoveries == 0 && failed
    case Releasing(_) => recoveries == 1 && failed
    case _ => recoveries == 0 && !failed
  }

  ghost predicate RecoveryLedger(t: seq<Event>, s: Stage) {
    RecoveriesFit(s, Recoveries(t), StartFailed(t))
  }

  lemma LedgerSnoc(t: seq<Event>, e: Event)
    ensures AcquiredSlots(t + [e]) == AcquiredSlots(t) + AcquiredBy(e)
    ensures ReleasedSlots(t + [e]) == ReleasedSlots(t) + ReleasedBy(e)
    ensures LaunchedSlots(t + [e]) == LaunchedSlots(t) + LaunchedBy(e)
    ensures Contexts(t + [e]) == Contexts(t) + FoundBy(e)
    ensures Recoveries(t + [e]) == Recoveries(t) + if Recovers(e) then 1 else 0
  {
    assert (t + [e])[..|t|] == t;
  }

  lemma SlotsKeepFitting(o: Options, s: Stage, e: Event, acquired: seq<string>, released: seq<string>, failed: bool)
    requires SlotsFit(s, acquired, released, failed) && Advance(o, s, e).Some?
    ensures SlotsFit(Advance(o, s, e).value, acquired + AcquiredBy(e), released + ReleasedBy(e),
                     failed || LaunchFailure(e))
  {
    assert acquired + [] == acquired && released + [] == released;
  }

  lemma AdvanceKeepsSlots(o: Options, t: seq<Event>, s: Stage, e: Event)
    requires SlotLedger(t, s) && Advance(o, s, e).Some?
    ensures SlotLedger(t + [e], Advance(o, s, e).value)
  {
    LedgerSnoc(t, e);
    AnySnoc(t, e, LaunchFailure);
    SlotsKeepFitting(o, s, e, AcquiredSlots(t), ReleasedSlots(t), Any(t, LaunchFailure));
  }

  lemma AdvanceKeepsContext(o: Options, t: seq<Event>, s: Stage, e: Event)
    requires ContextLedger(t, s) && Advance(o, s, e).Some?
    ensures ContextLedger(t + [e], Advance(o, s, e).value)
  {
    LedgerSnoc(t, e);
    AnySnoc(t, e, OwnEvent);
    ContextsKeepFitting(o, s, e, Contexts(t), AcquiredSlots(t), !Any(t, OwnEvent));
  }

  lemma ContextsKeepFitting(o: Options, s: Stage, e: Event, found: seq<Context>, acquired: seq<string>,
                            onlyTheirs: bool)
    requires ContextsFit(s, found, acquired, onlyTheirs) && Advance(o, s, e).Some?
    ensures ContextsFit(Advance(o, s, e).value, found + FoundBy(e), acquired + AcquiredBy(e),
                        onlyTheirs && !OwnEvent(e))
  {
    assert found + [] == found && acquired + [] == acquired;
  }

  lemma WrongRepoSnoc(t: seq<Event>, s: Stage, e: Event)
    requires ContextLedger(t, s) && (e.Check? ==> s.Start?)
    ensures WrongRepo(t + [e]) <==> WrongRepo(t) || StraysIn(Contexts(t), e)
  {
    LedgerSnoc(t, e);
    StraysSnoc(t, e, Contexts(t));
    StraysSnoc(t, e, Contexts(t + [e]));
    if e.Check? { TheirsNeverStray(t, Contexts(t + [e])); } else { assert Contexts(t + [e]) == Contexts(t); }
  }

  lemma StraysSnoc(t: seq<Event>, e: Event, found: seq<Context>)
    ensures Strays(t + [e], found) <==> Strays(t, found) || StraysIn(found, e)
  {
    assert forall x :: x in t + [e] <==> x in t || x == e;
  }

  lemma TheirsNeverStray(t: seq<Event>, found: seq<Context>)
    requires !Any(t, OwnEvent)
    ensures !Strays(t, found)
  {
    assert forall e :: e in t ==> !OwnEvent(e);
  }

  lemma AdvanceKeepsRecoveries(o: Options, t: seq<Event>, s: Stage, e: Event)
    requires ContextLedger(t, s) && RecoveryLedger(t, s) && Advance(o, s, e).Some?
    ensures RecoveryLedger(t + [e], Advance(o, s, e).value)
  {
    LedgerSnoc(t, e);
    AnySnoc(t, e, LaunchFailure);
    AnySnoc(t, e, AcquireFailure);
    AnySnoc(t, e, UnknownSlot);
    WrongRepoSnoc(t, s, e);
    RecoveriesKeepFitting(o, s, e, Contexts(t), Recoveries(t), StartFailed(t));
  }

  lemma RecoveriesKeepFitting(o: Options, s: Stage, e: Event, found: seq<Context>, recoveries: nat, failed: bool)
    requires RecoveriesFit(s, recoveries, failed) && Advance(o, s, e).Some?
    requires ContextAt(s).Some? ==> found == [ContextAt(s).value]
    requires s.Acquired? ==> s.ctx.bound.None?
    ensures RecoveriesFit(Advance(o, s, e).value, recoveries + if Recovers(e) then 1 else 0,
                          failed || LaunchFailure(e) || AcquireFailure(e) || UnknownSlot(e) || StraysIn(found, e))
  {
  }

  lemma {:induction false} TraceKeepsLedgers(o: Options, t: seq<Event>)
    requires Trace(o, t).Some?
    ensures SlotLedger(t, Trace(o, t).value) && ContextLedger(t, Trace(o, t).value)
            && RecoveryLedger(t, Trace(o, t).value)
  {
    if t != [] {
      var init := t[..|t| - 1];
      TraceKeepsLedgers(o, init);
      assert t == init + [t[|t| - 1]];
      AdvanceKeepsSlots(o, init, Trace(o, init).value, t[|t| - 1]);
      AdvanceKeepsContext(o, init, Trace(o, init).value, t[|t| - 1]);
      AdvanceKeepsRecoveries(o, init, Trace(o, init).value, t[|t| - 1]);
    }
  }

  /** A finished call acquired at most one slot, and issued exactly one release, for that slot, if
      binding or launching failed, and none otherwise. */
  lemma ReleasesExactlyOnFailure(o: Options, t: seq<Event>, r: Option<Execution>)
    requires Completes(o, t, r)
    ensures |AcquiredSlots(t)| <= 1
    ensures ReleasedSlots(t) == if Any(t, LaunchFailure) then AcquiredSlots(t) else []
  {
    TraceKeepsLedgers(o, t);
  }

  /** When the task or its owner is bound to a slot, the call neither acquires nor releases any,
      on no path and at no time. */
  lemma BoundSlotNeverReleased(o: Options, t: seq<Event>, ctx: Context)
    requires Trace(o, t).Some? && Contexts(t) == [ctx] && ctx.bound.Some?
    ensures AcquiredSlots(t) == [] && ReleasedSlots(t) == []
  {
    TraceKeepsLedgers(o, t);
  }

  /** A finished call asked exactly once for the task to be Blocked if starting failed in one of
      those ways, and never otherwise; whether it was a dry run makes no difference. */
  lemma BlocksExactlyOnFailure(o: Options, t: seq<Event>, r: Option<Execution>)
    requires Completes(o, t, r)
    ensures Recoveries(t) == if StartFailed(t) then 1 else 0
  {
    TraceKeepsLedgers(o, t);
  }

  /** The failures that decide what becomes of an acquired slot: a missing record, an acquisition
      that failed, a failure to bind or launch, and one that came after the session was started. */
  datatype Mishaps = Mishaps(missing: bool, lost: bool, failed: bool, late: bool)

  const NO_MISHAPS := Mishaps(false, false, false, false)

  ghost function MishapsIn(t: seq<Event>): Mishaps {
    Mishaps(Any(t, RecordMissing), Any(t, AcquireFailure), Any(t, LaunchFailure), Any(t, LateLaunchFailure))
  }

  function After(x: Mishaps, e: Event): Mishaps {
    Mishaps(x.missing || RecordMissing(e), x.lost || AcquireFailure(e), x.failed || LaunchFailure(e),
            x.late || LateLaunchFailure(e))
  }

  /** A missing record or a failed acquisition leaves nothing to launch on; among the failures to
      bind or launch, only the late ones have started a session. */
  predicate FateSettled(launched: seq<string>, x: Mishaps) {
    && (x.missing || x.lost ==> launched == [] && !x.failed)
    && (x.late ==> x.failed && launched != [])
    && (x.failed && !x.late ==> launched == [])
  }

  /** What became of the slots, stage by stage. */
  predicate FateFits(s: Stage, acquired: seq<string>, launched: seq<string>, x: Mishaps) {
    match s
    case Ended(_) =>
      && FateSettled(launched, x)
      && (acquired != [] && launched != [] ==> launched == acquired)
      && (acquired != [] ==> x.missing || x.lost || x.failed || launched != [])
    case Launched(run) => run.slotId.Some? && launched == [run.slotId.value] && x == NO_MISHAPS
    case Saved(run) => run.slotId.Some? && launched == [run.slotId.value] && x == NO_MISHAPS
    case Recovering(None) => FateSettled(launched, x) && (acquired != [] ==> x.missing || x.lost)
    case Recovering(Some(id)) => !x.missing && !x.lost && x.failed && launched == if x.late then [id] else []
    case Releasing(id) => !x.missing && !x.lost && x.failed && launched == if x.late then [id] else []
    case _ => launched == [] && x == NO_MISHAPS
  }

  ghost predicate FateLedger(t: seq<Event>, s: Stage) {
    FateFits(s, AcquiredSlots(t), LaunchedSlots(t), MishapsIn(t))
  }

  lemma FateKeepsFitting(o: Options, s: Stage, e: Event, acquired: seq<string>, released: seq<string>,
                         launched: seq<string>, x: Mishaps)
    requires SlotsFit(s, acquired, released, x.failed) && FateFits(s, acquired, launched, x) && Advance(o, s, e).Some?
    ensures FateFits(Advance(o, s, e).value, acquired + AcquiredBy(e), launched + LaunchedBy(e), After(x, e))
  {
    assert acquired + [] == acquired && launched + [] == launched;
  }

  lemma MishapsSnoc(t: seq<Event>, e: Event)
    ensures MishapsIn(t + [e]) == After(MishapsIn(t), e)
  {
    AnySnoc(t, e, RecordMissing);
    AnySnoc(t, e, AcquireFailure);
    AnySnoc(t, e, LaunchFailure);
    AnySnoc(t, e, LateLaunchFailure);
  }

  lemma AdvanceKeepsFate(o: Options, t: seq<Event>, s: Stage, e: Event)
    requires SlotLedger(t, s) && FateLedger(t, s) && Advance(o, s, e).Some?
    ensures FateLedger(t + [e], Advance(o, s, e).value)
  {
    LedgerSnoc(t, e);
    MishapsSnoc(t, e);
    FateKeepsFitting(o, s, e, AcquiredSlots(t), ReleasedSlots(t), LaunchedSlots(t), MishapsIn(t));
  }

  lemma {:induction false} TraceKeepsFate(o: Options, t: seq<Event>)
    requires Trace(o, t).Some?
    ensures FateLedger(t, Trace(o, t).value)
  {
    if t != [] {
      var init := t[..|t| - 1];
      TraceKeepsFate(o, init);
      TraceKeepsLedgers(o, init);
      assert t == init + [t[|t| - 1]];
      AdvanceKeepsFate(o, init, Trace(o, init).value, t[|t| - 1]);
    }
  }

  /** The slot that a finished call has acquired is leaked, neither launched on nor released,
      exactly when its record could not be read back or the acquisition failed after making it
      active. It is both launched on and released exactly when the start failed after starting
      the session. Otherwise it is one of the two. */
  lemma {:induction false} AcquiredSlotFate(o: Options, t: seq<Event>, r: Option<Execution>)
    requires Completes(o, t, r) && AcquiredSlots(t) != []
    ensures LaunchedSlots(t) == [] && ReleasedSlots(t) == [] <==> Any(t, RecordMissing) || Any(t, AcquireFailure)
    ensures LaunchedSlots(t) != [] && ReleasedSlots(t) != [] <==> Any(t, LateLaunchFailure)
    ensures LaunchedSlots(t) == [] || LaunchedSlots(t) == AcquiredSlots(t)
    ensures ReleasedSlots(t) == [] || ReleasedSlots(t) == AcquiredSlots(t)
  {
    TraceKeepsLedgers(o, t);
    TraceKeepsFate(o, t);
  }

  /** An execution record agrees with what the call did. */
  predicate Describes(run: Execution, found: seq<Context>, acquired: seq<string>, launched: seq<string>) {
    && |found| == 1 && run.ownerId == found[0].ownerId
    && match run.slotId
       case None => !run.acquired && acquired == [] && launched == []
       case Some(id) =>
         && launched == [id]
         && acquired == (if run.acquired then [id] else [])
         && (!run.acquired ==> found[0].bound == Some(id))
  }

  predicate ResultFits(s: Stage, found: seq<Context>, acquired: seq<string>, launched: seq<string>) {
    match s
    case Start => acquired == [] && launched == []
    case Checked(_) => acquired == [] && launched == []
    case Marked(_) => acquired == [] && launched == []
    case Acquired(_, id) => acquired == [id] && launched == []
    case Placed(ctx, id, _, own) =>
      acquired == (if own then [id] else []) && launched == [] && (own || ctx.bound == Some(id))
    case Bound(ctx, id, own) =>
      acquired == (if own then [id] else []) && launched == [] && (own || ctx.bound == Some(id))
    case Launched(run) => Describes(run, found, acquired, launched)
    case Saved(run) => Describes(run, found, acquired, launched)
    case Ended(Some(run)) => Describes(run, found, acquired, launched)
    case _ => true
  }

  lemma ResultKeepsFitting(o: Options, s: Stage, e: Event, found: seq<Context>, acquired: seq<string>,
                           launched: seq<string>)
    requires ResultFits(s, found, acquired, launched) && Advance(o, s, e).Some? && (s.Start? ==> found == [])
    requires ContextAt(s).Some? ==> found == [ContextAt(s).value]
    ensures ResultFits(Advance(o, s, e).value, found + FoundBy(e), acquired + AcquiredBy(e), launched + LaunchedBy(e))
  {
    assert found + [] == found && acquired + [] == acquired && launched + [] == launched;
  }

  /** A successful call's execution record names the owner and the slot it launched on, and says
      truly whether it acquired that slot; nothing was released and no blocking requested. */
  lemma {:induction false} SuccessTellsTruth(o: Options, t: seq<Event>)
    requires Trace(o, t).Some?
    ensures ResultFits(Trace(o, t).value, Contexts(t), AcquiredSlots(t), LaunchedSlots(t))
  {
    if t != [] {
      var init, e := t[..|t| - 1], t[|t| - 1];
      SuccessTellsTruth(o, init);
      ResultFrom(o, t, init, e);
    }
  }

  lemma ResultFrom(o: Options, t: seq<Event>, init: seq<Event>, e: Event)
    requires t == init + [e] && Trace(o, t).Some? && Trace(o, init).Some?
    requires ResultFits(Trace(o, init).value, Contexts(init), AcquiredSlots(init), LaunchedSlots(init))
    ensures ResultFits(Trace(o, t).value, Contexts(t), AcquiredSlots(t), LaunchedSlots(t))
  {
    TraceSnoc(o, init, e);
    TraceKeepsLedgers(o, init);
    AdvanceKeepsResult(o, init, Trace(o, init).value, e);
  }

  lemma AdvanceKeepsResult(o: Options, t: seq<Event>, s: Stage, e: Event)
    requires ContextLedger(t, s) && ResultFits(s, Contexts(t), AcquiredSlots(t), LaunchedSlots(t))
             && Advance(o, s, e).Some?
    ensures ResultFits(Advance(o, s, e).value, Contexts(t + [e]), AcquiredSlots(t + [e]), LaunchedSlots(t + [e]))
  {
    LedgerSnoc(t, e);
    ResultKeepsFitting(o, s, e, Contexts(t), AcquiredSlots(t), LaunchedSlots(t));
  }

  // ---------------------------------------------------------------------------
  // The manifest file during a call
  // ---------------------------------------------------------------------------

  /** Mutators that succeed in sequence, under one save, are a run of steps. */
  lemma {:induction false} AttemptedIsRun(m: Manifest, ops: seq<TeamOp>)
    requires WellFormed(m)
    ensures Attempted(m, ops).ok ==> WellFormed(Attempted(m, ops).after) && Attempted(m, ops).after == Run(m, ops)
    decreases |ops|
  {
    if ops != [] {
      var init := ops[..|ops| - 1];
      AttemptedIsRun(m, init);
      if Attempted(m, ops).ok { SaveAcceptsWhatOperationsAccept(Attempted(m, init).after, ops[|ops| - 1]); }
    }
  }

  /** Whatever other processes do in between, the manifest file keeps the invariant of all runs. */
  lemma {:induction false} ReplayKeepsInv(o: Options, m: Manifest, t: seq<Event>)
    requires TeamInv(m)
    ensures TeamInv(Replay(o, m, t))
    decreases |t|
  {
    if t != [] {
      var before := Replay(o, m, t[..|t| - 1]);
      ReplayKeepsInv(o, m, t[..|t| - 1]);
      RunKeepsInv(before, Writes(o, before, t[|t| - 1]));
    }
  }

  function TheirOp(e: Event): seq<TeamOp> {
    match e
    case Theirs(op) => [op]
    case _ => []
  }

  function TheirOps(t: seq<Event>): seq<TeamOp> {
    if t == [] then [] else TheirOps(t[..|t| - 1]) + TheirOp(t[|t| - 1])
  }

  lemma RunSnoc(m: Manifest, ops: seq<TeamOp>, more: seq<TeamOp>)
    requires |more| <= 1
    ensures Run(m, ops + more) == Run(Run(m, ops), more)
  {
    if more == [] {
      assert ops + more == ops;
    } else {
      assert (ops + more)[..|ops|] == ops && more[..0] == [];
      assert Run(Run(m, ops), []) == Run(m, ops);
    }
  }

  /** No event of the call but a first phase that failed. */
  ghost predicate Untouched(t: seq<Event>) {
    forall e :: e in t && OwnEvent(e) ==> e.Check? && e.found.None?
  }

  lemma {:induction false} FailedCheckIsAll(o: Options, t: seq<Event>)
    requires Trace(o, t).Some? && Contexts(t) == []
    ensures Untouched(t)
  {
    if t != [] {
      var init, e := t[..|t| - 1], t[|t| - 1];
      assert t == init + [e];
      LedgerSnoc(init, e);
      assert Contexts(init) == [] && FoundBy(e) == [];
      TraceKeepsLedgers(o, init);
      FailedCheckIsAll(o, init);
      assert e.Theirs? || e.Check?;
    }
  }

  lemma {:induction false} UntouchedIsTheirs(o: Options, m: Manifest, t: seq<Event>)
    requires Untouched(t)
    ensures Replay(o, m, t) == Run(m, TheirOps(t))
    decreases |t|
  {
    if t != [] {
      var init, e := t[..|t| - 1], t[|t| - 1];
      assert t == init + [e] && e in t;
      UntouchedIsTheirs(o, m, init);
      RunSnoc(m, TheirOps(init), TheirOp(e));
      assert Writes(o, Replay(o, m, init), e) == TheirOp(e);
    }
  }

  /** A call whose first phase fails has issued nothing and has left the manifest file, owner of
      the task included, to the other processes. */
  lemma {:induction false} FailedCheckTouchesNothing(o: Options, m: Manifest, t: seq<Event>)
    requires Trace(o, t).Some? && Contexts(t) == []
    ensures Untouched(t) && Replay(o, m, t) == Run(m, TheirOps(t))
  {
    FailedCheckIsAll(o, t);
    UntouchedIsTheirs(o, m, t);
  }

  lemma {:induction false} RunKeepsTasks(m: Manifest, ops: seq<TeamOp>)
    requires TeamInv(m)
    ensures TaskIds(m.tasks) <= TaskIds(Run(m, ops).tasks)
    decreases |ops|
  {
    if ops != [] {
      var init := ops[..|ops| - 1];
      var a := Run(m, init);
      RunKeepsTasks(m, init);
      RunKeepsInv(m, init);
      StepShape(a, ops[|ops| - 1]);
      var b := Run(m, ops);
      forall id | id in TaskIds(a.tasks) ensures id in TaskIds(b.tasks) {
        var i :| 0 <= i < |a.tasks| && a.tasks[i].taskId == id;
        assert b.tasks[i] in b.tasks;
      }
    }
  }

  lemma {:induction false} TruthfulPrefix(o: Options, known: set<string>, m: Manifest, t: seq<Event>, k: nat)
    requires AllTruthful(o, known, m, t) && k <= |t|
    ensures AllTruthful(o, known, m, t[..k])
    decreases |t|
  {
    if k < |t| {
      var init := t[..|t| - 1];
      assert t[..k] == init[..k];
      TruthfulPrefix(o, known, m, init, k);
    } else {
      assert t[..k] == t;
    }
  }

  /** Once the first phase has passed, the task stays in the manifest, whatever others do. */
  lemma {:induction false} TaskStaysKnown(o: Options, known: set<string>, m: Manifest, t: seq<Event>)
    requires TeamInv(m) && AllTruthful(o, known, m, t) && Contexts(t) != []
    ensures o.taskId in TaskIds(Replay(o, m, t).tasks)
    decreases |t|
  {
    var init, e := t[..|t| - 1], t[|t| - 1];
    var before := Replay(o, m, init);
    ReplayKeepsInv(o, m, init);
    if Contexts(init) != [] {
      TruthfulPrefix(o, known, m, t, |t| - 1);
      TaskStaysKnown(o, known, m, init);
      RunKeepsTasks(before, Writes(o, before, e));
    } else {
      assert Truthful(o, known, before, e);
      AttemptedIsRun(before, Delegating(o));
      var after := Replay(o, m, t);
      assert after.tasks[FindTask(after.tasks, o.taskId).value] in after.tasks;
    }
  }

  lemma OneCall(m: Manifest, op: TeamOp)
    ensures Attempted(m, [op]) == Perform(m, op)
  {
    assert [op][..0] == [];
    assert Attempted(m, []) == Attempt(m, true);
  }

  lemma DelegationIs(m: Manifest, o: Options)
    ensures Attempted(m, Delegating(o)) ==
            if o.delegation.Some? then DelegateOwner(m, o.taskId, o.delegation.value.target) else Attempt(m, true)
  {
    if o.delegation.Some? { OneCall(m, TeamOp.Delegate(o.taskId, o.delegation.value.target)); }
  }

  lemma NextCall(m: Manifest, ops: seq<TeamOp>, op: TeamOp)
    ensures Attempted(m, ops + [op]) ==
            if Attempted(m, ops).ok then Perform(Attempted(m, ops).after, op) else Attempted(m, ops)
  {
    assert (ops + [op])[..|ops|] == ops;
  }

  function StateOf(tasks: seq<Task>, taskId: string): Option<TaskState> {
    match FindTask(tasks, taskId)
    case Some(i) => Some(tasks[i].state)
    case None => None
  }

  /** `a` saves, and leaves the task in state `s`. */
  ghost predicate Lands(a: Attempt, id: string, s: TaskState) {
    a.ok && WellFormed(a.after) && StateOf(a.after.tasks, id) == Some(s)
  }

  lemma StatePut(tasks: seq<Task>, i: nat, t: Task)
    requires i < |tasks| && FindTask(tasks, t.taskId) == Some(i)
    ensures StateOf(tasks[i := t], t.taskId) == Some(t.state)
  {
    var j := FindTask(tasks[i := t], t.taskId);
    assert tasks[i := t][i].taskId == t.taskId;
  }

  /** Setting any state but Superseded, from any state, succeeds on a known task. */
  lemma SetStateLands(m: Manifest, id: string, s: TaskState)
    requires WellFormed(m) && id in TaskIds(m.tasks) && s != Superseded
    ensures Lands(SetTaskState(m, id, s), id, s) && CurrentLeadId(SetTaskState(m, id, s).after) == CurrentLeadId(m)
  {
    FoundIff(m.tasks, id);
    SetTaskStateSucceedsIff(m, id, s);
    var i := FindTask(m.tasks, id).value;
    StatePut(m.tasks, i, WithState(m.tasks[i], s));
  }

  lemma SetStateCall(m: Manifest, id: string, s: TaskState)
    requires WellFormed(m) && id in TaskIds(m.tasks) && s != Superseded
    ensures Lands(Attempted(m, [TeamOp.SetState(id, s)]), id, s)
  {
    SetStateCallIs(m, id, s);
    SetStateLands(m, id, s);
  }

  lemma SetStateCallIs(m: Manifest, id: string, s: TaskState)
    ensures Attempted(m, [TeamOp.SetState(id, s)]) == SetTaskState(m, id, s)
  {
    OneCall(m, TeamOp.SetState(id, s));
  }

  lemma ReloadAccepted(m: Manifest, f: StoreFacts)
    requires WellFormed(m)
    ensures Accepts(m, [TeamOp.Reconcile(f)])
  {
    ReloadIs(m, f);
    ReconcileSucceeds(m, f);
  }

  lemma ReloadIs(m: Manifest, f: StoreFacts)
    ensures Attempted(m, [TeamOp.Reconcile(f)]) == ReconcileManifest(m, f)
  {
    OneCall(m, TeamOp.Reconcile(f));
  }

  lemma BindAcceptedIff(m: Manifest, taskId: string, owner: string, s: string, b: string)
    requires WellFormed(m) && taskId in TaskIds(m.tasks)
    ensures Accepts(m, [TeamOp.AssignSlot(owner, s, b), TeamOp.BindSlot(taskId, s, b)]) <==> KnownMember(m, owner)
  {
    BindCallsAre(m, taskId, owner, s, b);
    AssignSlotSucceedsIff(m, owner, s, b);
    if KnownMember(m, owner) {
      FoundIff(m.tasks, taskId);
      BindSlotSucceedsIff(TeamModel.AssignMemberSlot(m, owner, s, b).after, taskId, s, b);
    }
  }

  lemma BindCallsAre(m: Manifest, taskId: string, owner: string, s: string, b: string)
    ensures var given := TeamModel.AssignMemberSlot(m, owner, s, b);
            Attempted(m, [TeamOp.AssignSlot(owner, s, b), TeamOp.BindSlot(taskId, s, b)])
            == if given.ok then BindTaskSlot(given.after, taskId, s, b) else given
  {
    var assign, bind := TeamOp.AssignSlot(owner, s, b), TeamOp.BindSlot(taskId, s, b);
    OneCall(m, assign);
    NextCall(m, [assign], bind);
    assert [assign, bind] == [assign] + [bind];
  }

  lemma ResultCleared(m: Manifest, taskId: string)
    requires WellFormed(m) && taskId in TaskIds(m.tasks)
    ensures var a := ClearTaskResult(m, taskId);
            a.ok && WellFormed(a.after) && taskId in TaskIds(a.after.tasks)
            && CurrentLeadId(a.after) == CurrentLeadId(m)
  {
    FoundIff(m.tasks, taskId);
    var i := FindTask(m.tasks, taskId).value;
    assert LinksOk(m.tasks[i], TaskIds(m.tasks)) && TaskOk(m.tasks[i], MemberIds(m));
    PutTaskKeepsWellFormed(m, i, WithoutResult(m.tasks[i]));
    SameTaskIdSets(m.tasks, ClearTaskResult(m, taskId).after.tasks);
  }

  lemma ClearThenSetIs(m: Manifest, taskId: string, next: TaskState)
    ensures var cleared := ClearTaskResult(m, taskId);
            Attempted(m, [TeamOp.ClearResult(taskId), TeamOp.SetState(taskId, next)])
            == if cleared.ok then SetTaskState(cleared.after, taskId, next) else cleared
  {
    ClearCallIs(m, taskId);
    NextCall(m, [TeamOp.ClearResult(taskId)], TeamOp.SetState(taskId, next));
    SetStatePerforms(ClearTaskResult(m, taskId).after, taskId, next);
    assert [TeamOp.ClearResult(taskId), TeamOp.SetState(taskId, next)] ==
           [TeamOp.ClearResult(taskId)] + [TeamOp.SetState(taskId, next)];
  }

  lemma ClearCallIs(m: Manifest, taskId: string)
    ensures Attempted(m, [TeamOp.ClearResult(taskId)]) == ClearTaskResult(m, taskId)
  {
    OneCall(m, TeamOp.ClearResult(taskId));
  }

  lemma SetStatePerforms(m: Manifest, taskId: string, s: TaskState)
    ensures Perform(m, TeamOp.SetState(taskId, s)) == SetTaskState(m, taskId, s)
  {
  }

  lemma ClearThenSet(m: Manifest, taskId: string, next: TaskState)
    requires WellFormed(m) && taskId in TaskIds(m.tasks) && next != Superseded
    ensures var a := Attempted(m, [TeamOp.ClearResult(taskId), TeamOp.SetState(taskId, next)]);
            Lands(a, taskId, next) && CurrentLeadId(a.after) == CurrentLeadId(m)
  {
    ClearThenSetIs(m, taskId, next);
    ResultCleared(m, taskId);
    SetStateLands(ClearTaskResult(m, taskId).after, taskId, next);
  }

  lemma LeadSessionBound(m: Manifest, session: Option<string>)
    requires WellFormed(m)
    ensures TeamModel.BindLeadSession(m, CurrentLeadId(m), session) == Attempt(m.(leadSessionId := session), true)
    ensures WellFormed(m.(leadSessionId := session))
  {
    SameMemberIdSets(m, m.(leadSessionId := session));
  }

  lemma FinishLands(o: Options, m: Manifest, owner: string, session: Option<string>, next: TaskState)
    requires WellFormed(m) && o.taskId in TaskIds(m.tasks) && next != Superseded
    ensures Lands(Attempted(m, Calls(o, Finish(owner, session, next), m)), o.taskId, next)
  {
    var a := Attempted(m, [TeamOp.ClearResult(o.taskId), TeamOp.SetState(o.taskId, next)]);
    ClearThenSet(m, o.taskId, next);
    FinishCallsAre(o, m, owner, session, next);
    if !o.dryRun && CurrentLeadId(m) == owner { LeadSessionBound(a.after, session); }
  }

  lemma FinishCallsAre(o: Options, m: Manifest, owner: string, session: Option<string>, next: TaskState)
    ensures var a := Attempted(m, [TeamOp.ClearResult(o.taskId), TeamOp.SetState(o.taskId, next)]);
            Attempted(m, Calls(o, Finish(owner, session, next), m))
            == if a.ok && !o.dryRun && CurrentLeadId(m) == owner
               then TeamModel.BindLeadSession(a.after, owner, session)
               else a
  {
    var calls := [TeamOp.ClearResult(o.taskId), TeamOp.SetState(o.taskId, next)];
    NextCall(m, calls, TeamOp.BindLeadSession(owner, session));
    assert calls + [] == calls;
  }

  /** The state that a phase puts the task in. */
  function Target(p: Phase): Option<TaskState> {
    match p
    case Mark => Some(InProgress)
    case Finish(_, _, next) => Some(next)
    case Recover => Some(TaskState.Blocked)
    case _ => None
  }

  /** Which phases the manifest can refuse: only binding, and only when the owner has been
      removed meanwhile. Marking succeeds whatever state others have put the task in. */
  lemma AcceptedIff(o: Options, m: Manifest, p: Phase)
    requires WellFormed(m) && o.taskId in TaskIds(m.tasks) && Target(p) != Some(Superseded)
    ensures Accepts(m, Calls(o, p, m)) <==> (p.Bind? ==> KnownMember(m, p.ownerId))
    ensures Target(p).Some? ==> StateOf(Attempted(m, Calls(o, p, m)).after.tasks, o.taskId) == Target(p)
  {
    match p {
      case Reload(facts) => ReloadAccepted(m, facts);
      case Mark => SetStateCall(m, o.taskId, InProgress);
      case Recover => SetStateCall(m, o.taskId, TaskState.Blocked);
      case Bind(owner, s, b) => BindAcceptedIff(m, o.taskId, owner, s, b);
      case Finish(owner, session, next) => FinishLands(o, m, owner, session, next);
    }
  }

  lemma {:induction false} TracePrefix(o: Options, t: seq<Event>, k: nat)
    requires Trace(o, t).Some? && k <= |t|
    ensures Trace(o, t[..k]).Some?
    decreases |t|
  {
    if k < |t| {
      var init := t[..|t| - 1];
      assert t[..k] == init[..k];
      TracePrefix(o, init, k);
    } else {
      assert t[..k] == t;
    }
  }

  lemma SectionInContext(o: Options, t: seq<Event>, k: nat)
    requires Trace(o, t).Some? && k < |t| && t[k].Section?
    ensures Contexts(t[..k]) != [] && Target(t[k].phase) != Some(Superseded)
  {
    TracePrefix(o, t, k);
    TracePrefix(o, t, k + 1);
    assert t[..k + 1] == t[..k] + [t[k]];
    TraceSnoc(o, t[..k], t[k]);
    TraceKeepsLedgers(o, t[..k]);
    SectionAllowed(o, Trace(o, t[..k]).value, t[k]);
  }

  lemma SectionAllowed(o: Options, s: Stage, e: Event)
    requires e.Section? && Advance(o, s, e).Some?
    ensures !s.Start? && !s.Ended? && Target(e.phase) != Some(Superseded)
  {
  }

  /** In every call, amid any operations of other processes, a manifest update after the first
      fails for reasons of reading and writing only, or because the owner to bind has been
      removed; and it leaves the task in the state that it names. */
  lemma {:induction false} OnlyIoFailsUpdates(o: Options, known: set<string>, m: Manifest, t: seq<Event>, k: nat)
    requires TeamInv(m) && AllTruthful(o, known, m, t) && Trace(o, t).Some? && k < |t| && t[k].Section?
    ensures t[k].ok <==> t[k].io && (t[k].phase.Bind? ==> KnownMember(Replay(o, m, t[..k]), t[k].phase.ownerId))
    ensures t[k].ok && Target(t[k].phase).Some? ==>
              StateOf(Replay(o, m, t[..k + 1]).tasks, o.taskId) == Target(t[k].phase)
  {
    var before, p := Replay(o, m, t[..k]), t[k].phase;
    SectionInContext(o, t, k);
    TruthfulPrefix(o, known, m, t, k);
    TaskStaysKnown(o, known, m, t[..k]);
    ReplayKeepsInv(o, m, t[..k]);
    SectionReplay(o, known, m, t, k);
    AcceptedIff(o, before, p);
    AttemptedIsRun(before, Calls(o, p, before));
  }

  lemma SectionReplay(o: Options, known: set<string>, m: Manifest, t: seq<Event>, k: nat)
    requires AllTruthful(o, known, m, t) && k < |t| && t[k].Section?
    ensures var before := Replay(o, m, t[..k]);
            && (t[k].ok <==> t[k].io && Accepts(before, Calls(o, t[k].phase, before)))
            && (t[k].ok ==> Replay(o, m, t[..k + 1]) == Run(before, Calls(o, t[k].phase, before)))
  {
    TruthfulPrefix(o, known, m, t, k + 1);
    assert t[..k + 1][..k] == t[..k];
  }
}

module TaskExecution {
  import opened Wrappers
  import opened TeamModel
  import opened TeamManifests
  import opened TeamRuns
  import opened TeamInvariants
  import opened TeamOperations
  import opened TaskProtocol
  import Session

  /** One process's view of a team: the manifest file, and what has happened since a call began. */
  class AppCore {
    /** The names that parse as a runtime. */
    const runtimes: set<string>

    var file: Manifest

    ghost var first: Manifest
    ghost var journal: seq<Event>

    constructor (m: Manifest, runtimes: set<string>)
      ensures file == m && this.runtimes == runtimes
    {
      file, this.runtimes := m, runtimes;
    }

    // The environment: what the disk, the store and the commands answer is arbitrary. Each
    // command that is dispatched, and each record read or written, goes into the journal.

    method Io() returns (works: bool) { works := *; }

    method GetStoreFacts() returns (facts: StoreFacts) { facts := *; }

    method OtherProcesses() returns (ops: seq<TeamOp>) { ops := *; }

    method GetSlot(slotId: string) returns (record: Result<Option<Slot>, ()>)
      modifies this`journal
      ensures journal == old(journal) + [Lookup(slotId, record)]
    {
      record := *;
      journal := journal + [Lookup(slotId, record)];
    }

    method Created() returns (created: Option<string>) { created := *; }

    /** The slot is made active before the acquisition is recorded, which may fail. */
    method DispatchAcquire(repoId: string, taskName: string)
      returns (given: Result<Option<string>, ()>, ghost created: Option<string>)
      modifies this`journal
      ensures journal == old(journal) + [Acquire(repoId, taskName, created, given)]
      ensures Effective(Acquire(repoId, taskName, created, given))
    {
      var made := Created();
      var recorded := Io();
      given, created := if recorded then Success(made) else Failure(()), made;
      journal := journal + [Acquire(repoId, taskName, made, given)];
    }

    method Started() returns (report: Option<Report>) { report := *; }

    /** The session is started before the start is recorded, which may fail. */
    method DispatchStart(slotId: string, dryRun: bool) returns (report: Result<Report, ()>, ghost started: bool)
      modifies this`journal
      ensures journal == old(journal) + [Launch(slotId, dryRun, started, report)]
      ensures Effective(Launch(slotId, dryRun, started, report))
    {
      var made := Started();
      var recorded := Io();
      report, started := if made.Some? && recorded then Success(made.value) else Failure(()), made.Some?;
      journal := journal + [Launch(slotId, dryRun, started, report)];
    }

    method DispatchRelease(slotId: string) returns (done: bool)
      modifies this`journal
      ensures journal == old(journal) + [Release(slotId, done)]
    {
      done := *;
      journal := journal + [Release(slotId, done)];
    }

    method InsertAction() returns (done: bool)
      modifies this`journal
      ensures journal == old(journal) + [Audit(done)]
    {
      done := *;
      journal := journal + [Audit(done)];
    }

    /** The call with options `o` is at stage `s`; the file is what the journal makes of it. */
    ghost predicate At(o: Options, s: Stage)
      reads this
    {
      TeamInv(first) && Story(o, runtimes, first, journal) == Some((file, s))
    }

    /** Other processes complete any operations on the file. */
    method Others(ghost o: Options, ghost s: Stage)
      requires At(o, s)
      modifies this
      ensures At(o, s) && first == old(first)
    {
      var ops := OtherProcesses();
      for i := 0 to |ops|
        invariant At(o, s) && first == old(first)
      {
        var op := ops[i];
        StoryKeepsInv(o, runtimes, first, journal);
        TheirsNext(o, runtimes, first, journal, file, s, op);
        var next, ok := Transact(file, op, true);
        Record(next, o, s, Theirs(op), s);
      }
    }

    /** An event has happened, after which the file is `next`. */
    method Record(next: Manifest, ghost o: Options, ghost s: Stage, ghost e: Event, ghost s': Stage)
      requires At(o, s) && Advance(o, s, e) == Some(s') && Truthful(o, runtimes, file, e)
      requires next == Run(file, Writes(o, file, e))
      modifies this
      ensures At(o, s') && first == old(first)
    {
      StoryNext(o, runtimes, first, journal, file, s, e);
      file := next;
      journal := journal + [e];
    }

    /** A phase has tried to update the file: to `next` if it was saved. */
    method Save(g: TeamManifest, ghost o: Options, ghost s: Stage, ghost p: Phase, tried: bool, io: bool,
                ghost saved: Stage, ghost refused: Stage) returns (ok: bool)
      requires At(o, s) && g.View() == Attempted(file, Calls(o, p, file)).after
      requires tried == Attempted(file, Calls(o, p, file)).ok
      requires Advance(o, s, Section(p, io, true)) == Some(saved)
               && Advance(o, s, Section(p, io, false)) == Some(refused)
      modifies this
      ensures first == old(first)
      ensures At(o, if ok then saved else refused)
    {
      ok := false;
      if tried {
        var r := g.Validate();
        ok := r.Success? && io;
      }
      StoryKeepsInv(o, runtimes, first, journal);
      AttemptedIsRun(file, Calls(o, p, file));
      Record(if ok then g.View() else file, o, s, Section(p, io, ok), if ok then saved else refused);
    }

    /** The first phase: the delegation, the checks and the first save. */
    method CheckTask(o: Options) returns (found: Option<Context>)
      requires At(o, Start)
      modifies this
      ensures first == old(first)
      ensures At(o, AfterCheck(o, found))
    {
      Others(o, Start);
      var io := Io();
      var g := new TeamManifest(file);
      found := Prepare(g, o);
      if !io { found := None; }
      StoryKeepsInv(o, runtimes, first, journal);
      AttemptedIsRun(file, Delegating(o));
      Record(if found.Some? then g.View() else file, o, Start, Check(io, found), AfterCheck(o, found));
    }

    /** The delegation, the checks and the validation before saving. */
    method Prepare(g: TeamManifest, o: Options) returns (found: Option<Context>)
      modifies g
      ensures g.View() == Attempted(old(g.View()), Delegating(o)).after
      ensures found == if CheckPasses(o, runtimes, old(g.View()))
                       then Some(ContextOf(g.View(), o.taskId, runtimes))
                       else None
    {
      DelegationIs(g.View(), o);
      if o.delegation.Some? {
        var r := Redelegate(g, o.taskId, o.delegation.value.target);
        if r.Failure? { return None; }
      }
      if !Startable(g.View(), o.taskId, runtimes) { return None; }
      var valid := g.Validate();
      found := if valid.Success? then Some(ContextOf(g.View(), o.taskId, runtimes)) else None;
    }

    /** `set_task_state(InProgress)` and save. */
    method MarkInProgress(o: Options, ghost ctx: Context) returns (ok: bool)
      requires At(o, Checked(ctx)) && AutoStart(o)
      modifies this
      ensures first == old(first)
      ensures At(o, if ok then Marked(ctx) else Ended(None))
    {
      Others(o, Checked(ctx));
      var io := Io();
      var g := new TeamManifest(file);
      var tried := SetState(g, o, Mark);
      ok := Save(g, o, Checked(ctx), Mark, tried, io, Marked(ctx), Ended(None));
    }

    /** `load_team_manifest`: reconciles the file with the store and returns it. */
    method LoadTeamManifest(o: Options, ghost s: Stage, run: Execution) returns (ok: bool)
      requires At(o, s) && EndsByLoading(o, s, run)
      modifies this
      ensures first == old(first) && At(o, End(ok, run))
    {
      Others(o, s);
      var io := Io();
      var facts := GetStoreFacts();
      StoryKeepsInv(o, runtimes, first, journal);
      ReloadAccepted(file, facts);
      OneCall(file, TeamOp.Reconcile(facts));
      OneStep(file, TeamOp.Reconcile(facts));
      var next;
      next, ok := Transact(file, TeamOp.Reconcile(facts), io);
      Record(next, o, s, Section(Reload(facts), io, ok), End(ok, run));
    }

    /** The recovery closure: the task is set to Blocked, and the slot, if one is given, released;
        failures of either are only logged. */
    method RecoverFailedStart(o: Options, slotId: Option<string>)
      requires At(o, Recovering(slotId))
      modifies this
      ensures first == old(first) && At(o, Ended(None))
    {
      MarkBlocked(o, slotId);
      if slotId.Some? { ReleaseSlot(o, slotId.value); }
    }

    method MarkBlocked(o: Options, ghost slotId: Option<string>)
      requires At(o, Recovering(slotId))
      modifies this
      ensures first == old(first) && At(o, if slotId.Some? then Releasing(slotId.value) else Ended(None))
    {
      Others(o, Recovering(slotId));
      var io := Io();
      var g := new TeamManifest(file);
      var tried := SetState(g, o, Recover);
      RecoverAdvances(o, slotId, io);
      ghost var s' := if slotId.Some? then Releasing(slotId.value) else Ended(None);
      var ok := Save(g, o, Recovering(slotId), Recover, tried, io, s', s');
    }

    /** Dispatches the release of the slot. */
    method ReleaseSlot(o: Options, slotId: string)
      requires At(o, Releasing(slotId))
      modifies this
      ensures first == old(first) && At(o, Ended(None))
    {
      ghost var t := journal;
      var released := DispatchRelease(slotId);
      ReleaseAdvances(o, slotId, released);
      StoryNext(o, runtimes, first, t, file, Releasing(slotId), Release(slotId, released));
    }

    /** Dispatches the acquisition of a slot. */
    method AcquireSlot(o: Options, ctx: Context) returns (slotId: Option<string>)
      requires At(o, Marked(ctx)) && ctx.bound.None?
      modifies this
      ensures first == old(first)
      ensures At(o, if slotId.Some? then Acquired(ctx, slotId.value) else Recovering(None))
    {
      ghost var t := journal;
      var given, created := DispatchAcquire(ctx.repoId, o.taskId);
      slotId := match given case Success(id) => id case Failure(_) => None;
      StoryNext(o, runtimes, first, t, file, Marked(ctx), Acquire(ctx.repoId, o.taskId, created, given));
    }

    /** Reads the record of the bound slot. */
    method LookUpBound(o: Options, ghost ctx: Context, slotId: string) returns (record: Result<Option<Slot>, ()>)
      requires At(o, Marked(ctx)) && ctx.bound == Some(slotId)
      modifies this
      ensures first == old(first)
      ensures At(o, AfterLookup(ctx, slotId, record, false))
    {
      ghost var t := journal;
      record := GetSlot(slotId);
      StoryNext(o, runtimes, first, t, file, Marked(ctx), Lookup(slotId, record));
    }

    /** Reads the record of the slot just acquired. */
    method LookUpAcquired(o: Options, ghost ctx: Context, slotId: string) returns (record: Result<Option<Slot>, ()>)
      requires At(o, Acquired(ctx, slotId))
      modifies this
      ensures first == old(first)
      ensures At(o, AfterLookup(ctx, slotId, record, true))
    {
      ghost var t := journal;
      record := GetSlot(slotId);
      StoryNext(o, runtimes, first, t, file, Acquired(ctx, slotId), Lookup(slotId, record));
    }

    method PlaceBound(o: Options, ctx: Context, slotId: string) returns (branch: Option<string>)
      requires At(o, Marked(ctx)) && ctx.bound == Some(slotId)
      modifies this
      ensures first == old(first)
      ensures At(o, if branch.Some? then Placed(ctx, slotId, branch.value, false) else Ended(None))
    {
      var record := LookUpBound(o, ctx, slotId);
      if record.Failure? { return None; }
      if record.value.None? || record.value.value.repoId != ctx.repoId {
        RecoverFailedStart(o, None);
        return None;
      }
      branch := Some(record.value.value.branch);
    }

    method PlaceAcquired(o: Options, ghost ctx: Context, slotId: string) returns (branch: Option<string>)
      requires At(o, Acquired(ctx, slotId))
      modifies this
      ensures first == old(first)
      ensures At(o, if branch.Some? then Placed(ctx, slotId, branch.value, true) else Ended(None))
    {
      var record := LookUpAcquired(o, ctx, slotId);
      if record.Failure? { return None; }
      if record.value.None? {
        RecoverFailedStart(o, None);
        return None;
      }
      branch := Some(record.value.value.branch);
    }

    /** The slot to work in: the bound one, or a newly acquired one. None after an error, with
        recovery done where the error calls for it. */
    method PlaceTask(o: Options, ctx: Context) returns (placed: Option<(string, string, bool)>)
      requires At(o, Marked(ctx))
      modifies this
      ensures first == old(first)
      ensures At(o, match placed
                    case Some((id, branch, acquired)) => Placed(ctx, id, branch, acquired)
                    case None => Ended(None))
    {
      var branch;
      if ctx.bound.Some? {
        branch := PlaceBound(o, ctx, ctx.bound.value);
        return if branch.Some? then Some((ctx.bound.value, branch.value, false)) else None;
      }
      var slotId := AcquireSlot(o, ctx);
      if slotId.None? {
        RecoverFailedStart(o, None);
        return None;
      }
      branch := PlaceAcquired(o, ctx, slotId.value);
      placed := if branch.Some? then Some((slotId.value, branch.value, true)) else None;
    }

    /** Assigns the slot to the owner and binds it to the task, under one save. */
    method BindTask(o: Options, ctx: Context, slotId: string, branch: string, ghost acquired: bool) returns (ok: bool)
      requires At(o, Placed(ctx, slotId, branch, acquired))
      modifies this
      ensures first == old(first)
      ensures At(o, if ok then Bound(ctx, slotId, acquired) else Rollback(slotId, acquired))
    {
      ghost var s := Placed(ctx, slotId, branch, acquired);
      Others(o, s);
      var io := Io();
      var g := new TeamManifest(file);
      var tried := AssignAndBind(g, o, ctx.ownerId, slotId, branch);
      BindAdvances(o, ctx, slotId, branch, acquired, io);
      ok := Save(g, o, s, Bind(ctx.ownerId, slotId, branch), tried, io,
                 Bound(ctx, slotId, acquired), Rollback(slotId, acquired));
    }

    /** Dispatches the session start. */
    method LaunchSession(o: Options, ghost ctx: Context, slotId: string, ghost acquired: bool)
      returns (report: Result<Report, ()>)
      requires At(o, Bound(ctx, slotId, acquired))
      modifies this
      ensures first == old(first)
      ensures At(o, if report.Failure? then Rollback(slotId, acquired)
              else Launched(Execution(ctx.ownerId, Some(slotId), acquired, report.value)))
    {
      ghost var t := journal;
      ghost var started;
      report, started := DispatchStart(slotId, o.dryRun);
      LaunchAdvances(o, ctx, slotId, acquired, started, report);
      StoryNext(o, runtimes, first, t, file, Bound(ctx, slotId, acquired), Launch(slotId, o.dryRun, started, report));
    }

    /** Records how the launch went: result cleared, next state set, lead session bound. */
    method FinishTask(o: Options, run: Execution) returns (ok: bool)
      requires At(o, Launched(run)) && NeedsFinish(o, run.report.status)
      modifies this
      ensures first == old(first) && At(o, End(ok, run))
    {
      ok := SaveOutcome(o, run);
      if ok { ok := RecordAction(o, run); }
    }

    method SaveOutcome(o: Options, run: Execution) returns (ok: bool)
      requires At(o, Launched(run)) && NeedsFinish(o, run.report.status)
      modifies this
      ensures first == old(first) && At(o, if ok then Saved(run) else Ended(None))
    {
      Others(o, Launched(run));
      var io := Io();
      var next := NextState(o, run.report.status);
      var g := new TeamManifest(file);
      var tried := Conclude(g, o, run.ownerId, run.report.sessionId, next);
      FinishAdvances(o, run, io);
      ok := Save(g, o, Launched(run), Finish(run.ownerId, run.report.sessionId, next),
                 tried, io, Saved(run), Ended(None));
    }

    static method SetState(g: TeamManifest, o: Options, p: Phase) returns (ok: bool)
      requires p.Mark? || p.Recover?
      modifies g
      ensures Attempt(g.View(), ok) == Attempted(old(g.View()), Calls(o, p, old(g.View())))
    {
      var state := if p.Mark? then InProgress else TaskState.Blocked;
      SetStateCallIs(g.View(), o.taskId, state);
      var r := g.SetTaskState(o.taskId, state);
      ok := r.Success?;
    }

    static method AssignAndBind(g: TeamManifest, o: Options, ownerId: string, slotId: string, branch: string)
      returns (ok: bool)
      modifies g
      ensures Attempt(g.View(), ok) == Attempted(old(g.View()), Calls(o, Bind(ownerId, slotId, branch), old(g.View())))
    {
      BindCallsAre(g.View(), o.taskId, ownerId, slotId, branch);
      var r := g.AssignMemberSlot(ownerId, slotId, branch);
      if r.Success? { r := g.BindTaskSlot(o.taskId, slotId, branch); }
      ok := r.Success?;
    }

    /** The mutators of the last phase. */
    static method Conclude(g: TeamManifest, o: Options, ownerId: string, session: Option<string>, next: TaskState)
      returns (ok: bool)
      modifies g
      ensures Attempt(g.View(), ok) == Attempted(old(g.View()), Calls(o, Finish(ownerId, session, next), old(g.View())))
    {
      FinishCallsAre(o, g.View(), ownerId, session, next);
      ClearThenSetIs(g.View(), o.taskId, next);
      LeadKept(g.View(), o.taskId, next);
      var r := g.ClearTaskResult(o.taskId);
      if r.Success? { r := g.SetTaskState(o.taskId, next); }
      if r.Success? && !o.dryRun && CurrentLeadId(g.View()) == ownerId {
        r := g.BindCurrentLeadSession(ownerId, session);
      }
      ok := r.Success?;
    }

    /** `insert_action` */
    method RecordAction(o: Options, ghost run: Execution) returns (ok: bool)
      requires At(o, Saved(run))
      modifies this
      ensures first == old(first) && At(o, End(ok, run))
    {
      ghost var t := journal;
      ok := InsertAction();
      AuditAdvances(o, run, ok);
      StoryNext(o, runtimes, first, t, file, Saved(run), Audit(ok));
    }

    ghost method Begin(o: Options)
      requires TeamInv(file)
      modifies this`first, this`journal
      ensures first == file && journal == [] && At(o, Start)
    {
      first, journal := file, [];
    }

    /** `execute_team_task`: the call runs the protocol to its end and returns its result. */
    method ExecuteTeamTask(o: Options) returns (r: Option<Execution>)
      requires TeamInv(file)
      modifies this
      ensures first == old(file)
      ensures if o.parses then At(o, Ended(r)) else r == None && journal == [] && file == first
    {
      Begin(o);
      if !o.parses { return None; }
      var found := CheckTask(o);
      if found.None? { return None; }
      r := StartTask(o, found.value);
    }

    /** The phases after the first save. */
    method StartTask(o: Options, ctx: Context) returns (r: Option<Execution>)
      requires At(o, if AutoStart(o) && o.dryRun then Marked(ctx) else Checked(ctx))
      modifies this
      ensures first == old(first) && At(o, Ended(r))
    {
      if !AutoStart(o) {
        var run := Execution(ctx.ownerId, None, false, Report(None, Session.Prepared));
        var loaded := LoadTeamManifest(o, Checked(ctx), run);
        return if loaded then Some(run) else None;
      }
      if !o.dryRun {
        var marked := MarkInProgress(o, ctx);
        if !marked { return None; }
      }
      var placed := PlaceTask(o, ctx);
      if placed.None? { return None; }
      var (slotId, branch, acquired) := placed.value;
      r := RunTask(o, ctx, slotId, branch, acquired);
    }

    /** The phases after a slot has been found. */
    method RunTask(o: Options, ctx: Context, slotId: string, branch: string, acquired: bool)
      returns (r: Option<Execution>)
      requires At(o, Placed(ctx, slotId, branch, acquired))
      modifies this
      ensures first == old(first) && At(o, Ended(r))
    {
      var bound := BindTask(o, ctx, slotId, branch, acquired);
      if !bound {
        RecoverFailedStart(o, if acquired then Some(slotId) else None);
        return None;
      }
      var report := LaunchSession(o, ctx, slotId, acquired);
      if report.Failure? {
        RecoverFailedStart(o, if acquired then Some(slotId) else None);
        return None;
      }
      var run := Execution(ctx.ownerId, Some(slotId), acquired, report.value);
      var ok;
      if NeedsFinish(o, report.value.status) {
        ok := FinishTask(o, run);
      } else {
        ok := LoadTeamManifest(o, Launched(run), run);
      }
      r := if ok then Some(run) else None;
    }
  }

  /** The stages that end by reloading the manifest. */
  predicate EndsByLoading(o: Options, s: Stage, run: Execution) {
    || (s.Checked? && !AutoStart(o) && run == Execution(s.ctx.ownerId, None, false, Report(None, Session.Prepared)))
    || (s == Launched(run) && !NeedsFinish(o, run.report.status))
  }

  lemma LeadKept(m: Manifest, taskId: string, next: TaskState)
    ensures CurrentLeadId(Attempted(m, [TeamOp.ClearResult(taskId), TeamOp.SetState(taskId, next)]).after) ==
            CurrentLeadId(m)
  {
    ClearThenSetIs(m, taskId, next);
  }

  lemma RecoverAdvances(o: Options, slotId: Option<string>, io: bool)
    ensures var s := if slotId.Some? then Releasing(slotId.value) else Ended(None);
            forall ok :: Advance(o, Recovering(slotId), Section(Recover, io, ok)) == Some(s)
  {
  }

  lemma BindAdvances(o: Options, ctx: Context, slotId: string, branch: string, acquired: bool, io: bool)
    ensures var s, p := Placed(ctx, slotId, branch, acquired), Bind(ctx.ownerId, slotId, branch);
            && Advance(o, s, Section(p, io, true)) == Some(Bound(ctx, slotId, acquired))
            && Advance(o, s, Section(p, io, false)) == Some(Rollback(slotId, acquired))
  {
  }

  lemma LaunchAdvances(o: Options, ctx: Context, slotId: string, acquired: bool, started: bool,
                       report: Result<Report, ()>)
    requires Effective(Launch(slotId, o.dryRun, started, report))
    ensures Advance(o, Bound(ctx, slotId, acquired), Launch(slotId, o.dryRun, started, report))
            == Some(if report.Failure? then Rollback(slotId, acquired)
                else Launched(Execution(ctx.ownerId, Some(slotId), acquired, report.value)))
  {
  }

  lemma AuditAdvances(o: Options, run: Execution, ok: bool)
    ensures Advance(o, Saved(run), Audit(ok)) == Some(End(ok, run))
  {
  }

  lemma FinishAdvances(o: Options, run: Execution, io: bool)
    requires NeedsFinish(o, run.report.status)
    ensures var p := Finish(run.ownerId, run.report.sessionId, NextState(o, run.report.status));
            && Advance(o, Launched(run), Section(p, io, true)) == Some(Saved(run))
            && Advance(o, Launched(run), Section(p, io, false)) == Some(Ended(None))
  {
  }
}
