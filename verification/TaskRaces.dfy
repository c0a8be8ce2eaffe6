/** What can go wrong between the phases of task execution: a task left in progress, a leaked slot,
    a dry run that blocks, and two calls that start the same task. */
module TaskRaces {
  import opened Wrappers
  import opened TeamModel
  import opened TeamRuns
  import opened TeamInvariants
  import opened TaskProtocol
  import Session

  // ---------------------------------------------------------------------------
  // The task's state after a call that nobody interferes with
  // ---------------------------------------------------------------------------

  /** The state that a saved update puts the task in. */
  function MovedTo(e: Event): Option<TaskState> {
    match e
    case Section(p, _, true) => Target(p)
    case _ => None
  }

  function LastTarget(t: seq<Event>): Option<TaskState> {
    if t == [] then None
    else if MovedTo(t[|t| - 1]).Some? then MovedTo(t[|t| - 1])
    else LastTarget(t[..|t| - 1])
  }

  /** Neither other processes nor reconciliation touch the file. */
  predicate Undisturbed(e: Event) {
    !e.Theirs? && !(e.Section? && e.phase.Reload?)
  }

  ghost predicate Alone(t: seq<Event>) {
    forall e :: e in t ==> Undisturbed(e)
  }

  lemma {:induction false} NoTargetUnchecked(t: seq<Event>)
    requires Untouched(t)
    ensures LastTarget(t) == None
  {
    if t != [] {
      var init, e := t[..|t| - 1], t[|t| - 1];
      assert t == init + [e] && e in t;
      NoTargetUnchecked(init);
    }
  }

  lemma BindKeepsState(m: Manifest, taskId: string, owner: string, s: string, b: string)
    ensures StateOf(Attempted(m, [TeamOp.AssignSlot(owner, s, b), TeamOp.BindSlot(taskId, s, b)]).after.tasks, taskId)
            == StateOf(m.tasks, taskId)
  {
    BindCallsAre(m, taskId, owner, s, b);
    var i := FindTask(m.tasks, taskId);
    if i.Some? {
      StatePut(m.tasks, i.value, m.tasks[i.value].(slotId := Some(s), branchName := Some(b)));
    }
  }

  /** A true account of an undisturbed call so far. */
  ghost predicate Quiet(o: Options, known: set<string>, m: Manifest, t: seq<Event>) {
    TeamInv(m) && AllTruthful(o, known, m, t) && Trace(o, t).Some? && Alone(t)
  }

  lemma QuietPrefix(o: Options, known: set<string>, m: Manifest, t: seq<Event>, k: nat)
    requires Quiet(o, known, m, t) && k <= |t|
    ensures Quiet(o, known, m, t[..k])
  {
    TruthfulPrefix(o, known, m, t, k);
    TracePrefix(o, t, k);
  }

  ghost predicate Follows(o: Options, m: Manifest, t: seq<Event>) {
    LastTarget(t).Some? ==> StateOf(Replay(o, m, t).tasks, o.taskId) == LastTarget(t)
  }

  lemma FollowsUpdate(o: Options, known: set<string>, m: Manifest, t: seq<Event>, k: nat)
    requires Quiet(o, known, m, t) && |t| == k + 1 && MovedTo(t[k]).Some?
    ensures Follows(o, m, t)
  {
    assert t[..k + 1] == t;
    OnlyIoFailsUpdates(o, known, m, t, k);
  }

  lemma FollowsQuietly(o: Options, known: set<string>, m: Manifest, t: seq<Event>, e: Event)
    requires Quiet(o, known, m, t + [e]) && Trace(o, t).Some? && Follows(o, m, t) && MovedTo(e).None?
    ensures Follows(o, m, t + [e])
  {
    assert (t + [e])[..|t|] == t && e in t + [e];
    if LastTarget(t).Some? {
      TargetsAfterCheck(o, t);
      QuietStep(o, known, m, t, e);
    }
  }

  lemma QuietInit(o: Options, known: set<string>, m: Manifest, t: seq<Event>, init: seq<Event>, e: Event)
    requires Quiet(o, known, m, t) && t == init + [e]
    ensures Quiet(o, known, m, init)
  {
    assert t[..|init|] == init;
    QuietPrefix(o, known, m, t, |init|);
  }

  lemma FollowsFrom(o: Options, known: set<string>, m: Manifest, t: seq<Event>, init: seq<Event>, e: Event)
    requires Quiet(o, known, m, t) && Quiet(o, known, m, init) && t == init + [e] && Follows(o, m, init)
    ensures Follows(o, m, t)
  {
    if MovedTo(e).Some? {
      FollowsUpdate(o, known, m, t, |init|);
    } else {
      FollowsQuietly(o, known, m, init, e);
    }
  }

  lemma FollowsNothing(o: Options, m: Manifest, t: seq<Event>)
    requires t == []
    ensures Follows(o, m, t)
  {
  }

  /** Without interference, the task is in the state of the last saved update that names one. */
  lemma {:induction false} StateFollows(o: Options, known: set<string>, m: Manifest, t: seq<Event>)
    requires Quiet(o, known, m, t)
    ensures Follows(o, m, t)
    decreases |t|
  {
    if |t| == 0 {
      FollowsNothing(o, m, t);
    } else {
      var init, e := t[..|t| - 1], t[|t| - 1];
      QuietInit(o, known, m, t, init, e);
      StateFollows(o, known, m, init);
      FollowsFrom(o, known, m, t, init, e);
    }
  }

  /** An event that names no state leaves the task's state alone. */
  lemma QuietStep(o: Options, known: set<string>, m: Manifest, t: seq<Event>, e: Event)
    requires TeamInv(m) && AllTruthful(o, known, m, t + [e]) && Trace(o, t + [e]).Some?
    requires Undisturbed(e) && MovedTo(e).None? && Contexts(t) != []
    ensures StateOf(Replay(o, m, t + [e]).tasks, o.taskId) == StateOf(Replay(o, m, t).tasks, o.taskId)
  {
    var before := Replay(o, m, t);
    assert (t + [e])[..|t|] == t;
    assert !e.Check? by { CheckedOnce(o, t, e); }
    if e.Section? && e.ok {
      ReplayKeepsInv(o, m, t);
      AttemptedIsRun(before, Calls(o, e.phase, before));
      BindKeepsState(before, o.taskId, e.phase.ownerId, e.phase.slotId, e.phase.branch);
    }
  }

  lemma CheckedOnce(o: Options, t: seq<Event>, e: Event)
    requires Trace(o, t + [e]).Some? && Contexts(t) != []
    ensures !e.Check?
  {
    TraceSnoc(o, t, e);
    TraceKeepsLedgers(o, t);
  }

  lemma TargetsAfterCheck(o: Options, t: seq<Event>)
    requires Trace(o, t).Some? && LastTarget(t).Some?
    ensures Contexts(t) != []
  {
    if Contexts(t) == [] {
      FailedCheckIsAll(o, t);
      NoTargetUnchecked(t);
    }
  }

  /** The task has been marked. */
  predicate Marks(e: Event) {
    e.Section? && e.phase.Mark? && e.ok
  }

  /** What keeps a marked task in progress: the store fails on a lookup, the recovery or the last
      update is not saved, or the session is running. */
  predicate KeepsInProgress(e: Event) {
    match e
    case Lookup(_, Failure(_)) => true
    case Section(Recover, _, ok) => !ok
    case Section(Finish(_, _, next), _, ok) => !ok || next == InProgress
    case _ => false
  }

  /** Targets and reasons, stage by stage. */
  predicate ProgressFits(o: Options, s: Stage, last: Option<TaskState>, kept: bool) {
    match s
    case Start => last == None && !kept
    case Checked(_) => last == None && !kept && (AutoStart(o) ==> !o.dryRun)
    case Saved(_) => last.Some? && (last.value == InProgress <==> kept)
    case Releasing(_) => last.Some? ==> (last.value == InProgress <==> kept)
    case Ended(_) => last.Some? ==> (last.value == InProgress <==> kept)
    case _ => !kept && (last.Some? ==> last.value == InProgress && !o.dryRun)
  }

  lemma ProgressKeepsFitting(o: Options, s: Stage, e: Event, last: Option<TaskState>, kept: bool)
    requires ProgressFits(o, s, last, kept) && Advance(o, s, e).Some?
    ensures ProgressFits(o, Advance(o, s, e).value, if MovedTo(e).Some? then MovedTo(e) else last,
                         kept || KeepsInProgress(e))
  {
  }

  lemma {:induction false} TraceProgress(o: Options, t: seq<Event>)
    requires Trace(o, t).Some?
    ensures ProgressFits(o, Trace(o, t).value, LastTarget(t), Any(t, KeepsInProgress))
    ensures Any(t, Marks) ==> LastTarget(t).Some?
  {
    if t != [] {
      var init, e := t[..|t| - 1], t[|t| - 1];
      assert t == init + [e];
      TraceProgress(o, init);
      AnySnoc(init, e, KeepsInProgress);
      AnySnoc(init, e, Marks);
      ProgressKeepsFitting(o, Trace(o, init).value, e, LastTarget(init), Any(init, KeepsInProgress));
    }
  }

  /** The same reasons in terms of reading and writing the manifest file. */
  predicate Breaks(e: Event) {
    match e
    case Lookup(_, Failure(_)) => true
    case Section(Recover, io, _) => !io
    case Section(Finish(_, _, next), io, _) => !io || next == InProgress
    case _ => false
  }

  lemma BreaksIff(o: Options, known: set<string>, m: Manifest, t: seq<Event>)
    requires Quiet(o, known, m, t)
    ensures Any(t, Breaks) <==> Any(t, KeepsInProgress)
  {
    forall e | e in t ensures Breaks(e) <==> KeepsInProgress(e) {
      var k :| 0 <= k < |t| && t[k] == e;
      if e.Section? { OnlyIoFailsUpdates(o, known, m, t, k); }
    }
  }

  /** A call that has marked the task, with nobody interfering, leaves it in progress exactly when
      the store failed on a lookup, the manifest file could not be read or written for the
      recovery or the last update, or the session is running. */
  lemma LeftInProgressIff(o: Options, known: set<string>, m: Manifest, t: seq<Event>, r: Option<Execution>)
    requires Quiet(o, known, m, t) && Completes(o, t, r) && Any(t, Marks)
    ensures StateOf(Replay(o, m, t).tasks, o.taskId) == Some(InProgress) <==> Any(t, Breaks)
  {
    StateFollows(o, known, m, t);
    TraceProgress(o, t);
    BreaksIff(o, known, m, t);
  }

  // ---------------------------------------------------------------------------
  // Concrete calls
  // ---------------------------------------------------------------------------

  /** The call is past its first phase and at stage `s`. */
  ghost predicate Reached(o: Options, known: set<string>, m: Manifest, t: seq<Event>, file: Manifest, s: Stage) {
    && TeamInv(m) && TeamInv(file) && o.taskId in TaskIds(file.tasks)
    && Story(o, known, m, t) == Some((file, s))
  }

  lemma RunReached(o: Options, known: set<string>, m: Manifest, t: seq<Event>, file: Manifest, s: Stage, e: Event)
    requires Reached(o, known, m, t, file, s) && Advance(o, s, e).Some? && Truthful(o, known, file, e)
    ensures Reached(o, known, m, t + [e], Run(file, Writes(o, file, e)), Advance(o, s, e).value)
  {
    StoryNext(o, known, m, t, file, s, e);
    RunKeepsInv(file, Writes(o, file, e));
    RunKeepsTasks(file, Writes(o, file, e));
  }

  /** An update that is read and written without error is saved. */
  lemma UpdateReached(o: Options, known: set<string>, m: Manifest, t: seq<Event>, file: Manifest, s: Stage, p: Phase)
    requires Reached(o, known, m, t, file, s) && Advance(o, s, Section(p, true, true)).Some?
    requires Target(p) != Some(Superseded) && (p.Bind? ==> KnownMember(file, p.ownerId))
    ensures Reached(o, known, m, t + [Section(p, true, true)], Run(file, Calls(o, p, file)),
            Advance(o, s, Section(p, true, true)).value)
  {
    AcceptedIff(o, file, p);
    RunReached(o, known, m, t, file, s, Section(p, true, true));
  }

  /** A call that does not delegate passes its first phase exactly on a startable task. */
  lemma CheckReached(o: Options, known: set<string>, m: Manifest)
    requires TeamInv(m) && o.delegation.None? && Startable(m, o.taskId, known)
    ensures CheckPasses(o, known, m)
    ensures var ctx := ContextOf(m, o.taskId, known);
            Reached(o, known, m, [Check(true, Some(ctx))], m, AfterCheck(o, Some(ctx)))
  {
    var ctx := ContextOf(m, o.taskId, known);
    FoundIff(m.tasks, o.taskId);
    CheckIsTrue(o, known, m);
    assert Story(o, known, m, []) == Some((m, Start));
    StoryNext(o, known, m, [], m, Start, Check(true, Some(ctx)));
    assert [] + [Check(true, Some(ctx))] == [Check(true, Some(ctx))];
  }

  lemma CheckIsTrue(o: Options, known: set<string>, m: Manifest)
    requires WellFormed(m) && o.delegation.None? && Startable(m, o.taskId, known)
    ensures var e := Check(true, Some(ContextOf(m, o.taskId, known)));
            CheckPasses(o, known, m) && Truthful(o, known, m, e) && Run(m, Writes(o, m, e)) == m
  {
    assert Attempted(m, []) == Attempt(m, true) && Run(m, []) == m;
  }

  lemma MarkLeaves(o: Options, m: Manifest)
    requires WellFormed(m) && o.taskId in TaskIds(m.tasks)
    ensures StateOf(Run(m, Calls(o, Mark, m)).tasks, o.taskId) == Some(InProgress)
    ensures StateOf(Run(m, Calls(o, Recover, m)).tasks, o.taskId) == Some(TaskState.Blocked)
  {
    AcceptedIff(o, m, Mark);
    AcceptedIff(o, m, Recover);
    AttemptedIsRun(m, Calls(o, Mark, m));
    AttemptedIsRun(m, Calls(o, Recover, m));
  }

  lemma MarkReached(o: Options, known: set<string>, m: Manifest)
    requires TeamInv(m) && o.delegation.None? && !o.dryRun && Startable(m, o.taskId, known)
    ensures var ctx := ContextOf(m, o.taskId, known);
            Reached(o, known, m, [Check(true, Some(ctx))] + [Section(Mark, true, true)],
                    Run(m, Calls(o, Mark, m)), Marked(ctx))
  {
    var ctx := ContextOf(m, o.taskId, known);
    CheckReached(o, known, m);
    assert Advance(o, Checked(ctx), Section(Mark, true, true)) == Some(Marked(ctx));
    UpdateReached(o, known, m, [Check(true, Some(ctx))], m, Checked(ctx), Mark);
  }

  /** An event that does not touch the file. */
  predicate Plain(e: Event) {
    !e.Theirs? && !e.Check? && !e.Section?
  }

  lemma PlainNext(o: Options, known: set<string>, m: Manifest, t: seq<Event>, file: Manifest, s: Stage, e: Event,
                  s': Stage)
    requires Story(o, known, m, t) == Some((file, s)) && Plain(e) && Advance(o, s, e) == Some(s')
    ensures Story(o, known, m, t + [e]) == Some((file, s'))
  {
    StoryNext(o, known, m, t, file, s, e);
  }

  /** A call that acquires slot `id` and cannot read its record back. */
  function Leak(o: Options, ctx: Context, id: string): seq<Event> {
    [Check(true, Some(ctx))] + [Section(Mark, true, true)]
    + [Acquire(ctx.repoId, o.taskId, Some(id), Success(Some(id)))] + [Lookup(id, Failure(()))]
  }

  lemma AcquireSucceeds(o: Options, known: set<string>, m: Manifest, t: seq<Event>, file: Manifest, ctx: Context,
                        id: string)
    requires Story(o, known, m, t) == Some((file, Marked(ctx))) && ctx.bound.None?
    ensures Story(o, known, m, t + [Acquire(ctx.repoId, o.taskId, Some(id), Success(Some(id)))]) ==
            Some((file, Acquired(ctx, id)))
  {
    PlainNext(o, known, m, t, file, Marked(ctx), Acquire(ctx.repoId, o.taskId, Some(id), Success(Some(id))),
              Acquired(ctx, id));
  }

  lemma LeakTail(o: Options, known: set<string>, m: Manifest, t: seq<Event>, file: Manifest, ctx: Context, id: string)
    requires Story(o, known, m, t) == Some((file, Marked(ctx))) && ctx.bound.None?
    ensures Story(o, known, m, t + [Acquire(ctx.repoId, o.taskId, Some(id), Success(Some(id)))]
                                   + [Lookup(id, Failure(()))])
            == Some((file, Ended(None)))
  {
    AcquireSucceeds(o, known, m, t, file, ctx, id);
    PlainNext(o, known, m, t + [Acquire(ctx.repoId, o.taskId, Some(id), Success(Some(id)))], file, Acquired(ctx, id),
              Lookup(id, Failure(())), Ended(None));
  }

  lemma LeakStory(o: Options, known: set<string>, m: Manifest, id: string)
    requires TeamInv(m) && o.delegation.None? && !o.dryRun && Startable(m, o.taskId, known)
    requires ContextOf(m, o.taskId, known).bound.None?
    ensures Story(o, known, m, Leak(o, ContextOf(m, o.taskId, known), id))
            == Some((Run(m, Calls(o, Mark, m)), Ended(None)))
  {
    var ctx, file := ContextOf(m, o.taskId, known), Run(m, Calls(o, Mark, m));
    MarkReached(o, known, m);
    LeakTail(o, known, m, [Check(true, Some(ctx))] + [Section(Mark, true, true)], file, ctx, id);
  }

  lemma {:induction false} AcquiredAt(t: seq<Event>, e: Event, id: string)
    requires e in t && AcquiredBy(e) == [id]
    ensures id in AcquiredSlots(t)
  {
    var init, last := t[..|t| - 1], t[|t| - 1];
    assert t == init + [last];
    if last != e { AcquiredAt(init, e, id); }
  }

  /** In a finished call that has created slot `id`, that is the slot acquired. */
  lemma OnlyAcquired(o: Options, t: seq<Event>, r: Option<Execution>, e: Event, id: string)
    requires Completes(o, t, r) && e in t && AcquiredBy(e) == [id]
    ensures AcquiredSlots(t) == [id]
  {
    AcquiredAt(t, e, id);
    ReleasesExactlyOnFailure(o, t, r);
  }

  /** The leak happens: the call fails with the slot neither launched on nor released, and leaves
      the task in progress. */
  lemma LeakHappens(o: Options, known: set<string>, m: Manifest, id: string)
    requires TeamInv(m) && o.delegation.None? && !o.dryRun && Startable(m, o.taskId, known)
    requires ContextOf(m, o.taskId, known).bound.None?
    ensures var t, file := Leak(o, ContextOf(m, o.taskId, known), id), Run(m, Calls(o, Mark, m));
            && Story(o, known, m, t) == Some((file, Ended(None)))
            && AcquiredSlots(t) == [id] && LaunchedSlots(t) == [] && ReleasedSlots(t) == []
            && StateOf(file.tasks, o.taskId) == Some(InProgress)
  {
    FoundIff(m.tasks, o.taskId);
    var ctx := ContextOf(m, o.taskId, known);
    var t, acquire, lookup := Leak(o, ctx, id), Acquire(ctx.repoId, o.taskId, Some(id), Success(Some(id))),
          Lookup(id, Failure(()));
    LeakStory(o, known, m, id);
    StoryIff(o, known, m, t);
    assert acquire in t && lookup in t;
    OnlyAcquired(o, t, None, acquire, id);
    assert RecordMissing(lookup);
    AcquiredSlotFate(o, t, None);
    MarkLeaves(o, m);
  }

  lemma PlainReached(o: Options, known: set<string>, m: Manifest, t: seq<Event>, file: Manifest, s: Stage, e: Event,
                     s': Stage)
    requires Reached(o, known, m, t, file, s) && Plain(e) && Advance(o, s, e) == Some(s')
    ensures Reached(o, known, m, t + [e], file, s')
  {
    PlainNext(o, known, m, t, file, s, e, s');
  }

  /** A call whose acquisition makes slot `id` active and then fails. */
  function LateAcquire(o: Options, ctx: Context, id: string): seq<Event> {
    [Check(true, Some(ctx))] + [Section(Mark, true, true)]
    + [Acquire(ctx.repoId, o.taskId, Some(id), Failure(()))] + [Section(Recover, true, true)]
  }

  lemma LateAcquireStory(o: Options, known: set<string>, m: Manifest, id: string) returns (file: Manifest)
    requires TeamInv(m) && o.delegation.None? && !o.dryRun && Startable(m, o.taskId, known)
    requires ContextOf(m, o.taskId, known).bound.None?
    ensures Story(o, known, m, LateAcquire(o, ContextOf(m, o.taskId, known), id)) == Some((file, Ended(None)))
  {
    var ctx, marked := ContextOf(m, o.taskId, known), Run(m, Calls(o, Mark, m));
    var t := [Check(true, Some(ctx))] + [Section(Mark, true, true)];
    MarkReached(o, known, m);
    AcquireFails(o, known, m, t, marked, ctx, Some(id));
    RecoverEnds(o, known, m, t + [Acquire(ctx.repoId, o.taskId, Some(id), Failure(()))], marked);
    file := Run(marked, Calls(o, Recover, marked));
  }

  /** The other leak happens: the acquisition fails after the slot has been made active. Nothing
      is launched on it or released. */
  lemma LateAcquireLeaks(o: Options, known: set<string>, m: Manifest, id: string)
    requires TeamInv(m) && o.delegation.None? && !o.dryRun && Startable(m, o.taskId, known)
    requires ContextOf(m, o.taskId, known).bound.None?
    ensures var t := LateAcquire(o, ContextOf(m, o.taskId, known), id);
            && Story(o, known, m, t).Some? && Completes(o, t, None)
            && AcquiredSlots(t) == [id] && LaunchedSlots(t) == [] && ReleasedSlots(t) == []
  {
    var ctx := ContextOf(m, o.taskId, known);
    var t, acquire := LateAcquire(o, ctx, id), Acquire(ctx.repoId, o.taskId, Some(id), Failure(()));
    var file := LateAcquireStory(o, known, m, id);
    StoryIff(o, known, m, t);
    assert acquire in t && AcquireFailure(acquire);
    OnlyAcquired(o, t, None, acquire, id);
    AcquiredSlotFate(o, t, None);
  }

  /** A call whose start starts the session on slot `id` and then fails. */
  function LateStart(o: Options, ctx: Context, id: string, branch: string): seq<Event> {
    BoundEvents(o, ctx, id, branch) + [Launch(id, o.dryRun, true, Failure(()))]
    + [Section(Recover, true, true)] + [Release(id, false)]
  }

  function BoundEvents(o: Options, ctx: Context, id: string, branch: string): seq<Event> {
    [Check(true, Some(ctx))] + [Section(Mark, true, true)]
    + [Acquire(ctx.repoId, o.taskId, Some(id), Success(Some(id)))]
    + [Lookup(id, Success(Some(Slot(ctx.repoId, branch))))]
    + [Section(Bind(ctx.ownerId, id, branch), true, true)]
  }

  lemma PlacedReached(o: Options, known: set<string>, m: Manifest, t: seq<Event>, file: Manifest, ctx: Context,
                      id: string, branch: string)
    requires Reached(o, known, m, t, file, Marked(ctx)) && ctx.bound.None?
    ensures Reached(o, known, m, t + [Acquire(ctx.repoId, o.taskId, Some(id), Success(Some(id)))]
                                   + [Lookup(id, Success(Some(Slot(ctx.repoId, branch))))],
                     file, Placed(ctx, id, branch, true))
  {
    var acquire := Acquire(ctx.repoId, o.taskId, Some(id), Success(Some(id)));
    PlainReached(o, known, m, t, file, Marked(ctx), acquire, Acquired(ctx, id));
    PlainReached(o, known, m, t + [acquire], file, Acquired(ctx, id),
                 Lookup(id, Success(Some(Slot(ctx.repoId, branch)))), Placed(ctx, id, branch, true));
  }

  lemma BoundReached(o: Options, known: set<string>, m: Manifest, id: string, branch: string) returns (file: Manifest)
    requires TeamInv(m) && o.delegation.None? && !o.dryRun && Startable(m, o.taskId, known)
    requires ContextOf(m, o.taskId, known).bound.None?
    ensures var ctx := ContextOf(m, o.taskId, known);
            Reached(o, known, m, BoundEvents(o, ctx, id, branch), file, Bound(ctx, id, true))
  {
    var ctx, marked := ContextOf(m, o.taskId, known), Run(m, Calls(o, Mark, m));
    var t := [Check(true, Some(ctx))] + [Section(Mark, true, true)];
    MarkReached(o, known, m);
    FoundIff(m.tasks, o.taskId);
    UpdateKeepsMembers(o, m, Mark, ctx.ownerId);
    PlacedReached(o, known, m, t, marked, ctx, id, branch);
    BindEnds(o, known, m, t + [Acquire(ctx.repoId, o.taskId, Some(id), Success(Some(id)))]
                            + [Lookup(id, Success(Some(Slot(ctx.repoId, branch))))], marked, ctx, id, branch);
    file := Run(marked, Calls(o, Bind(ctx.ownerId, id, branch), marked));
  }

  lemma BindEnds(o: Options, known: set<string>, m: Manifest, t: seq<Event>, file: Manifest, ctx: Context, id: string,
                 branch: string)
    requires Reached(o, known, m, t, file, Placed(ctx, id, branch, true)) && KnownMember(file, ctx.ownerId)
    ensures var p := Bind(ctx.ownerId, id, branch);
            Reached(o, known, m, t + [Section(p, true, true)], Run(file, Calls(o, p, file)), Bound(ctx, id, true))
  {
    UpdateReached(o, known, m, t, file, Placed(ctx, id, branch, true), Bind(ctx.ownerId, id, branch));
  }

  lemma StartFails(o: Options, known: set<string>, m: Manifest, t: seq<Event>, file: Manifest, ctx: Context, id: string)
    requires Reached(o, known, m, t, file, Bound(ctx, id, true))
    ensures Reached(o, known, m, t + [Launch(id, o.dryRun, true, Failure(()))], file, Recovering(Some(id)))
  {
    PlainReached(o, known, m, t, file, Bound(ctx, id, true), Launch(id, o.dryRun, true, Failure(())),
                 Recovering(Some(id)));
  }

  lemma ReleaseEnds(o: Options, known: set<string>, m: Manifest, t: seq<Event>, file: Manifest, id: string)
    requires Story(o, known, m, t) == Some((file, Releasing(id)))
    ensures Story(o, known, m, t + [Release(id, false)]) == Some((file, Ended(None)))
  {
    ReleaseAdvances(o, id, false);
    StoryNext(o, known, m, t, file, Releasing(id), Release(id, false));
  }

  lemma LateStartEnds(o: Options, known: set<string>, m: Manifest, t: seq<Event>, file: Manifest, ctx: Context,
                      id: string)
    returns (last: Manifest)
    requires Reached(o, known, m, t, file, Bound(ctx, id, true))
    ensures Story(o, known, m, t + [Launch(id, o.dryRun, true, Failure(()))]
                                   + [Section(Recover, true, true)] + [Release(id, false)])
            == Some((last, Ended(None)))
  {
    StartFails(o, known, m, t, file, ctx, id);
    var a := t + [Launch(id, o.dryRun, true, Failure(()))];
    BlockReached(o, known, m, a, file, id);
    last := Run(file, Calls(o, Recover, file));
    ReleaseEnds(o, known, m, a + [Section(Recover, true, true)], last, id);
  }

  lemma BlockReached(o: Options, known: set<string>, m: Manifest, t: seq<Event>, file: Manifest, id: string)
    requires Reached(o, known, m, t, file, Recovering(Some(id)))
    ensures Reached(o, known, m, t + [Section(Recover, true, true)], Run(file, Calls(o, Recover, file)), Releasing(id))
  {
    UpdateReached(o, known, m, t, file, Recovering(Some(id)), Recover);
  }

  /** A start that fails late: the session has been started, and yet the task is blocked and the
      release of the slot it runs on is issued. */
  lemma LateStartReleases(o: Options, known: set<string>, m: Manifest, id: string, branch: string)
    requires TeamInv(m) && o.delegation.None? && !o.dryRun && Startable(m, o.taskId, known)
    requires ContextOf(m, o.taskId, known).bound.None?
    ensures var t := LateStart(o, ContextOf(m, o.taskId, known), id, branch);
            && Story(o, known, m, t).Some? && Completes(o, t, None)
            && LaunchedSlots(t) == [id] && ReleasedSlots(t) == [id] && Recoveries(t) == 1
  {
    var ctx := ContextOf(m, o.taskId, known);
    var t, launch := LateStart(o, ctx, id, branch), Launch(id, o.dryRun, true, Failure(()));
    var acquire := Acquire(ctx.repoId, o.taskId, Some(id), Success(Some(id)));
    var file := BoundReached(o, known, m, id, branch);
    var last := LateStartEnds(o, known, m, BoundEvents(o, ctx, id, branch), file, ctx, id);
    StoryIff(o, known, m, t);
    assert acquire in t && launch in t && LateLaunchFailure(launch) && LaunchFailure(launch);
    OnlyAcquired(o, t, None, acquire, id);
    AcquiredSlotFate(o, t, None);
    BlocksExactlyOnFailure(o, t, None);
  }

  /** A dry run that cannot acquire a slot. */
  function FailedDryRun(o: Options, ctx: Context): seq<Event> {
    [Check(true, Some(ctx))] + [Acquire(ctx.repoId, o.taskId, None, Failure(()))] + [Section(Recover, true, true)]
  }

  lemma AcquireFails(o: Options, known: set<string>, m: Manifest, t: seq<Event>, file: Manifest, ctx: Context,
                     created: Option<string>)
    requires Reached(o, known, m, t, file, Marked(ctx)) && ctx.bound.None?
    ensures Reached(o, known, m, t + [Acquire(ctx.repoId, o.taskId, created, Failure(()))], file, Recovering(None))
  {
    PlainNext(o, known, m, t, file, Marked(ctx), Acquire(ctx.repoId, o.taskId, created, Failure(())), Recovering(None));
  }

  lemma RecoverEnds(o: Options, known: set<string>, m: Manifest, t: seq<Event>, file: Manifest)
    requires Reached(o, known, m, t, file, Recovering(None))
    ensures Story(o, known, m, t + [Section(Recover, true, true)]) ==
            Some((Run(file, Calls(o, Recover, file)), Ended(None)))
  {
    UpdateReached(o, known, m, t, file, Recovering(None), Recover);
  }

  lemma DryRunStory(o: Options, known: set<string>, m: Manifest)
    requires TeamInv(m) && o.delegation.None? && o.dryRun && Startable(m, o.taskId, known)
    requires ContextOf(m, o.taskId, known).bound.None?
    ensures Story(o, known, m, FailedDryRun(o, ContextOf(m, o.taskId, known)))
            == Some((Run(m, Calls(o, Recover, m)), Ended(None)))
  {
    var ctx := ContextOf(m, o.taskId, known);
    CheckReached(o, known, m);
    AcquireFails(o, known, m, [Check(true, Some(ctx))], m, ctx, None);
    RecoverEnds(o, known, m, [Check(true, Some(ctx))] + [Acquire(ctx.repoId, o.taskId, None, Failure(()))], m);
  }

  /** A failing dry run blocks the task, which it has never marked. */
  lemma DryRunBlocks(o: Options, known: set<string>, m: Manifest)
    requires TeamInv(m) && o.delegation.None? && o.dryRun && Startable(m, o.taskId, known)
    requires ContextOf(m, o.taskId, known).bound.None?
    ensures var t, file := FailedDryRun(o, ContextOf(m, o.taskId, known)), Run(m, Calls(o, Recover, m));
            && Story(o, known, m, t) == Some((file, Ended(None)))
            && (forall e :: e in t ==> !(e.Section? && e.phase.Mark?))
            && StateOf(file.tasks, o.taskId) == Some(TaskState.Blocked)
  {
    FoundIff(m.tasks, o.taskId);
    DryRunStory(o, known, m);
    MarkLeaves(o, m);
  }

  // ---------------------------------------------------------------------------
  // Two calls at once
  // ---------------------------------------------------------------------------

  /** An event of the first or of the second call. */
  datatype Turn = Turn(first: bool, e: Event)

  datatype Calls2 = Calls2(file: Manifest, s1: Stage, s2: Stage)

  /** Two calls taking turns on one manifest file; None if an event is untrue or not allowed. */
  ghost function Joint(o1: Options, o2: Options, known: set<string>, m: Manifest, turns: seq<Turn>): Option<Calls2>
    decreases |turns|
  {
    if turns == [] then Some(Calls2(m, Start, Start))
    else
      match Joint(o1, o2, known, m, turns[..|turns| - 1])
      case None => None
      case Some(c) => JointNext(o1, o2, known, c, turns[|turns| - 1])
  }

  ghost function JointNext(o1: Options, o2: Options, known: set<string>, c: Calls2, turn: Turn): Option<Calls2> {
    var (o, s, e) := (if turn.first then o1 else o2, if turn.first then c.s1 else c.s2, turn.e);
    if e.Theirs? || !Truthful(o, known, c.file, e) || Advance(o, s, e).None? then None
    else
      var file, s' := Run(c.file, Writes(o, c.file, e)), Advance(o, s, e).value;
      Some(if turn.first then Calls2(file, s', c.s2) else Calls2(file, c.s1, s'))
  }

  function AsTheirs(ops: seq<TeamOp>): seq<Event> {
    if ops == [] then [] else AsTheirs(ops[..|ops| - 1]) + [Theirs(ops[|ops| - 1])]
  }

  /** What the first call sees of the turns: its own events, and the other's operations on the file. */
  ghost function Seen(o1: Options, o2: Options, known: set<string>, m: Manifest, turns: seq<Turn>,
                      first: bool): seq<Event>
    decreases |turns|
  {
    if turns == [] then []
    else
      var init, turn := turns[..|turns| - 1], turns[|turns| - 1];
      var before := Joint(o1, o2, known, m, init);
      Seen(o1, o2, known, m, init, first) +
      if turn.first == first then [turn.e]
      else if before.None? then []
      else AsTheirs(Writes(if turn.first then o1 else o2, before.value.file, turn.e))
  }

  lemma AsTheirsSnoc(t: seq<Event>, init: seq<TeamOp>, op: TeamOp)
    ensures t + AsTheirs(init + [op]) == t + AsTheirs(init) + [Theirs(op)]
  {
  }

  lemma RunSnoc(m: Manifest, init: seq<TeamOp>, op: TeamOp)
    ensures Run(m, init + [op]) == Step(Run(m, init), op)
  {
    assert (init + [op])[..|init|] == init;
  }

  /** The story goes on through another process's operations. */
  ghost predicate GoesOn(o: Options, known: set<string>, m: Manifest, t: seq<Event>, file: Manifest, s: Stage,
                         ops: seq<TeamOp>) {
    Story(o, known, m, t + AsTheirs(ops)) == Some((Run(file, ops), s))
  }

  lemma GoesOnFrom(o: Options, known: set<string>, m: Manifest, t: seq<Event>, file: Manifest, s: Stage)
    requires Story(o, known, m, t) == Some((file, s))
    ensures GoesOn(o, known, m, t, file, s, [])
  {
    assert t + AsTheirs([]) == t;
  }

  lemma GoesOnNext(o: Options, known: set<string>, m: Manifest, t: seq<Event>, file: Manifest, s: Stage,
                   ops: seq<TeamOp>, init: seq<TeamOp>, op: TeamOp)
    requires ops == init + [op] && GoesOn(o, known, m, t, file, s, init)
    ensures GoesOn(o, known, m, t, file, s, ops)
  {
    TheirsNext(o, known, m, t + AsTheirs(init), Run(file, init), s, op);
    AsTheirsSnoc(t, init, op);
    RunSnoc(file, init, op);
  }

  /** What holds of the empty sequence, and with one more element each time, holds of all. */
  lemma {:induction false} BySnoc<T>(ops: seq<T>, p: seq<T> -> bool)
    requires p([]) && forall init, op :: p(init) ==> p(init + [op])
    ensures p(ops)
  {
    if ops == [] {
      assert ops == [];
    } else {
      var init := ops[..|ops| - 1];
      BySnoc(init, p);
      assert ops == init + [ops[|ops| - 1]];
    }
  }

  lemma TheirsStory(o: Options, known: set<string>, m: Manifest, t: seq<Event>, file: Manifest, s: Stage,
                    ops: seq<TeamOp>)
    requires Story(o, known, m, t) == Some((file, s))
    ensures GoesOn(o, known, m, t, file, s, ops)
  {
    GoesOnFrom(o, known, m, t, file, s);
    forall init, op | GoesOn(o, known, m, t, file, s, init) ensures GoesOn(o, known, m, t, file, s, init + [op]) {
      GoesOnNext(o, known, m, t, file, s, init + [op], init, op);
    }
    BySnoc(ops, x => GoesOn(o, known, m, t, file, s, x));
  }

  function StageOf(c: Calls2, first: bool): Stage { if first then c.s1 else c.s2 }

  lemma SeenSnoc(o1: Options, o2: Options, known: set<string>, m: Manifest, turns: seq<Turn>, turn: Turn, first: bool,
                 c: Calls2)
    requires Joint(o1, o2, known, m, turns) == Some(c)
    ensures Seen(o1, o2, known, m, turns + [turn], first) ==
            Seen(o1, o2, known, m, turns, first) +
            if turn.first == first then [turn.e] else AsTheirs(Writes(if turn.first then o1 else o2, c.file, turn.e))
  {
    assert (turns + [turn])[..|turns|] == turns;
  }

  /** One turn extends the story of either call. */
  lemma TurnStory(o1: Options, o2: Options, known: set<string>, m: Manifest, t: seq<Event>, c: Calls2, turn: Turn,
                  first: bool)
    requires var o := if first then o1 else o2;
             Story(o, known, m, t) == Some((c.file, StageOf(c, first))) && JointNext(o1, o2, known, c, turn).Some?
    ensures var o, c' := if first then o1 else o2, JointNext(o1, o2, known, c, turn).value;
            var news := if turn.first == first then [turn.e]
                        else AsTheirs(Writes(if turn.first then o1 else o2, c.file, turn.e));
            Story(o, known, m, t + news) == Some((c'.file, StageOf(c', first)))
  {
    var o := if first then o1 else o2;
    if turn.first == first {
      StoryNext(o, known, m, t, c.file, StageOf(c, first), turn.e);
    } else {
      TheirsStory(o, known, m, t, c.file, StageOf(c, first), Writes(if turn.first then o1 else o2, c.file, turn.e));
    }
  }

  /** The turns, as this call sees them, are a story that ends where the turns end. */
  ghost predicate LivesStory(o1: Options, o2: Options, known: set<string>, m: Manifest, turns: seq<Turn>, first: bool,
                             c: Calls2) {
    Story(if first then o1 else o2, known, m, Seen(o1, o2, known, m, turns, first)) == Some((c.file, StageOf(c, first)))
  }

  lemma LivesOn(o1: Options, o2: Options, known: set<string>, m: Manifest, turns: seq<Turn>, turn: Turn, first: bool,
                c: Calls2, c': Calls2)
    requires Joint(o1, o2, known, m, turns) == Some(c) && LivesStory(o1, o2, known, m, turns, first, c)
    requires JointNext(o1, o2, known, c, turn) == Some(c')
    ensures LivesStory(o1, o2, known, m, turns + [turn], first, c')
  {
    SeenSnoc(o1, o2, known, m, turns, turn, first, c);
    TurnStory(o1, o2, known, m, Seen(o1, o2, known, m, turns, first), c, turn, first);
  }

  lemma JointInit(o1: Options, o2: Options, known: set<string>, m: Manifest, turns: seq<Turn>, turn: Turn)
    returns (c: Calls2)
    requires Joint(o1, o2, known, m, turns + [turn]).Some?
    ensures Joint(o1, o2, known, m, turns) == Some(c)
    ensures JointNext(o1, o2, known, c, turn) == Joint(o1, o2, known, m, turns + [turn])
  {
    assert (turns + [turn])[..|turns|] == turns;
    c := Joint(o1, o2, known, m, turns).value;
  }

  ghost predicate Livable(o1: Options, o2: Options, known: set<string>, m: Manifest, turns: seq<Turn>, first: bool) {
    Joint(o1, o2, known, m, turns).Some? ==>
      LivesStory(o1, o2, known, m, turns, first, Joint(o1, o2, known, m, turns).value)
  }

  lemma NoTurnsLivable(o1: Options, o2: Options, known: set<string>, m: Manifest, first: bool)
    ensures Livable(o1, o2, known, m, [], first)
  {
  }

  lemma LivableNext(o1: Options, o2: Options, known: set<string>, m: Manifest, init: seq<Turn>, turn: Turn, first: bool)
    requires Livable(o1, o2, known, m, init, first)
    ensures Livable(o1, o2, known, m, init + [turn], first)
  {
    if Joint(o1, o2, known, m, init + [turn]).Some? {
      var before := JointInit(o1, o2, known, m, init, turn);
      LivesOn(o1, o2, known, m, init, turn, first, before, Joint(o1, o2, known, m, init + [turn]).value);
    }
  }

  /** Each of two calls taking turns lives a story in which the other is just another process. */
  lemma JointIsStories(o1: Options, o2: Options, known: set<string>, m: Manifest, turns: seq<Turn>, first: bool,
                       c: Calls2)
    requires Joint(o1, o2, known, m, turns) == Some(c)
    ensures LivesStory(o1, o2, known, m, turns, first, c)
  {
    NoTurnsLivable(o1, o2, known, m, first);
    forall init, turn | Livable(o1, o2, known, m, init, first)
      ensures Livable(o1, o2, known, m, init + [turn], first)
    {
      LivableNext(o1, o2, known, m, init, turn, first);
    }
    BySnoc(turns, x => Livable(o1, o2, known, m, x, first));
  }

  // ---------------------------------------------------------------------------
  // The double start
  // ---------------------------------------------------------------------------

  /** Both calls can go on: the file is sound and has the task and the owner. */
  ghost predicate Going(o1: Options, o2: Options, known: set<string>, m: Manifest, turns: seq<Turn>, c: Calls2,
                        taskId: string, ownerId: string) {
    && Joint(o1, o2, known, m, turns) == Some(c)
    && TeamInv(c.file) && taskId in TaskIds(c.file.tasks) && KnownMember(c.file, ownerId)
  }

  function WithStage(c: Calls2, first: bool, s: Stage): Calls2 {
    if first then c.(s1 := s) else c.(s2 := s)
  }

  lemma JointSnoc(o1: Options, o2: Options, known: set<string>, m: Manifest, turns: seq<Turn>, turn: Turn)
    ensures Joint(o1, o2, known, m, turns + [turn]) ==
            match Joint(o1, o2, known, m, turns) case None => None case Some(c) => JointNext(o1, o2, known, c, turn)
  {
    assert (turns + [turn])[..|turns|] == turns;
  }

  lemma JointPlain(o1: Options, o2: Options, known: set<string>, m: Manifest, turns: seq<Turn>, c: Calls2,
                   taskId: string, ownerId: string,
                   first: bool, e: Event, s': Stage)
    requires Going(o1, o2, known, m, turns, c, taskId, ownerId) && Plain(e)
    requires Advance(if first then o1 else o2, StageOf(c, first), e) == Some(s')
    ensures Going(o1, o2, known, m, turns + [Turn(first, e)], WithStage(c, first, s'), taskId, ownerId)
  {
    JointSnoc(o1, o2, known, m, turns, Turn(first, e));
  }

  lemma SameIdsSameKnown(m: Manifest, n: Manifest, id: string)
    requires m.lead.memberId == n.lead.memberId && |m.members| == |n.members|
    requires forall i :: 0 <= i < |m.members| ==> m.members[i].memberId == n.members[i].memberId
    ensures KnownMember(n, id) <==> KnownMember(m, id)
  {
    SameMemberIdSets(m, n);
    KnownIff(m, id);
    KnownIff(n, id);
  }

  lemma MarkKeepsMembers(m: Manifest, taskId: string, id: string)
    ensures KnownMember(Attempted(m, [TeamOp.SetState(taskId, InProgress)]).after, id) <==> KnownMember(m, id)
  {
    SetStateCallIs(m, taskId, InProgress);
  }

  lemma BindKeepsMembers(m: Manifest, taskId: string, owner: string, s: string, b: string, id: string)
    ensures KnownMember(Attempted(m, [TeamOp.AssignSlot(owner, s, b), TeamOp.BindSlot(taskId, s, b)]).after, id) <==>
            KnownMember(m, id)
  {
    BindCallsAre(m, taskId, owner, s, b);
    SameIdsSameKnown(m, Attempted(m, [TeamOp.AssignSlot(owner, s, b), TeamOp.BindSlot(taskId, s, b)]).after, id);
  }

  /** Marking and binding leave the members in place. */
  lemma UpdateKeepsMembers(o: Options, m: Manifest, p: Phase, id: string)
    requires WellFormed(m) && o.taskId in TaskIds(m.tasks) && (p.Mark? || (p.Bind? && KnownMember(m, p.ownerId)))
    ensures KnownMember(Run(m, Calls(o, p, m)), id) <==> KnownMember(m, id)
  {
    AcceptedIff(o, m, p);
    AttemptedIsRun(m, Calls(o, p, m));
    if p.Mark? {
      MarkKeepsMembers(m, o.taskId, id);
    } else {
      BindKeepsMembers(m, o.taskId, p.ownerId, p.slotId, p.branch, id);
    }
  }

  lemma JointUpdate(o1: Options, o2: Options, known: set<string>, m: Manifest, turns: seq<Turn>, c: Calls2,
                    taskId: string, ownerId: string,
                    first: bool, p: Phase, s': Stage) returns (c': Calls2)
    requires Going(o1, o2, known, m, turns, c, taskId, ownerId) && (if first then o1 else o2).taskId == taskId
    requires p.Mark? || (p.Bind? && p.ownerId == ownerId)
    requires Advance(if first then o1 else o2, StageOf(c, first), Section(p, true, true)) == Some(s')
    ensures Going(o1, o2, known, m, turns + [Turn(first, Section(p, true, true))], c', taskId, ownerId)
    ensures c' == WithStage(c, first, s').(file := c'.file)
  {
    var o := if first then o1 else o2;
    c' := WithStage(c, first, s').(file := Run(c.file, Calls(o, p, c.file)));
    AcceptedIff(o, c.file, p);
    JointSnoc(o1, o2, known, m, turns, Turn(first, Section(p, true, true)));
    RunKeepsInv(c.file, Calls(o, p, c.file));
    RunKeepsTasks(c.file, Calls(o, p, c.file));
    UpdateKeepsMembers(o, c.file, p, ownerId);
  }

  /** What a checked call does next when all goes well and no slot is bound yet. */
  function PlaceTurns(first: bool, o: Options, ctx: Context, id: string, branch: string): seq<Turn> {
    [Turn(first, Section(Mark, true, true)), Turn(first, Acquire(ctx.repoId, o.taskId, Some(id), Success(Some(id)))),
     Turn(first, Lookup(id, Success(Some(Slot(ctx.repoId, branch)))))]
  }

  function StartTurns(first: bool, o: Options, ctx: Context, id: string, branch: string, report: Report): seq<Turn> {
    PlaceTurns(first, o, ctx, id, branch)
    + [Turn(first, Section(Bind(ctx.ownerId, id, branch), true, true)),
       Turn(first, Launch(id, o.dryRun, true, Success(report)))]
  }

  lemma StartAdvances(o: Options, ctx: Context, id: string, branch: string, report: Report)
    requires AutoStart(o) && ctx.bound.None?
    ensures Advance(o, Checked(ctx), Section(Mark, true, true)) == Some(Marked(ctx))
    ensures Advance(o, Marked(ctx), Acquire(ctx.repoId, o.taskId, Some(id), Success(Some(id)))) ==
            Some(Acquired(ctx, id))
    ensures Advance(o, Acquired(ctx, id), Lookup(id, Success(Some(Slot(ctx.repoId, branch))))) ==
            Some(Placed(ctx, id, branch, true))
    ensures Advance(o, Placed(ctx, id, branch, true), Section(Bind(ctx.ownerId, id, branch), true, true)) ==
            Some(Bound(ctx, id, true))
    ensures Advance(o, Bound(ctx, id, true), Launch(id, o.dryRun, true, Success(report))) ==
            Some(Launched(Execution(ctx.ownerId, Some(id), true, report)))
  {
  }

  lemma CheckedCallPlaced(o1: Options, o2: Options, known: set<string>, m: Manifest, turns: seq<Turn>, c: Calls2,
                          first: bool,
                          ctx: Context, id: string, branch: string) returns (c': Calls2)
    requires var o := if first then o1 else o2;
             Going(o1, o2, known, m, turns, c, o.taskId, ctx.ownerId) && AutoStart(o)
    requires StageOf(c, first) == Checked(ctx) && ctx.bound.None?
    ensures var o := if first then o1 else o2;
            Going(o1, o2, known, m, turns + PlaceTurns(first, o, ctx, id, branch), c', o.taskId, ctx.ownerId)
    ensures c' == WithStage(c, first, Placed(ctx, id, branch, true)).(file := c'.file)
  {
    var o := if first then o1 else o2;
    StartAdvances(o, ctx, id, branch, Report(None, Session.Prepared));
    var mark, acquire := Section(Mark, true, true), Acquire(ctx.repoId, o.taskId, Some(id), Success(Some(id)));
    var lookup := Lookup(id, Success(Some(Slot(ctx.repoId, branch))));
    var x := JointUpdate(o1, o2, known, m, turns, c, o.taskId, ctx.ownerId, first, Mark, Marked(ctx));
    var a := turns + [Turn(first, mark)];
    c' := TwoPlain(o1, o2, known, m, a, x, o.taskId, ctx.ownerId, first, acquire, Acquired(ctx, id), lookup,
                   Placed(ctx, id, branch, true));
    PlaceTurnsAre(turns, first, o, ctx, id, branch);
  }

  lemma PlaceTurnsAre(turns: seq<Turn>, first: bool, o: Options, ctx: Context, id: string, branch: string)
    ensures turns + PlaceTurns(first, o, ctx, id, branch) ==
            turns + [Turn(first, Section(Mark, true, true))]
            + [Turn(first, Acquire(ctx.repoId, o.taskId, Some(id), Success(Some(id))))]
            + [Turn(first, Lookup(id, Success(Some(Slot(ctx.repoId, branch)))))]
  {
  }

  lemma TwoPlain(o1: Options, o2: Options, known: set<string>, m: Manifest, turns: seq<Turn>, c: Calls2,
                 taskId: string, ownerId: string, first: bool, e: Event, s: Stage, e': Event, s': Stage)
    returns (c': Calls2)
    requires Going(o1, o2, known, m, turns, c, taskId, ownerId) && Plain(e) && Plain(e')
    requires Advance(if first then o1 else o2, StageOf(c, first), e) == Some(s)
    requires Advance(if first then o1 else o2, s, e') == Some(s')
    ensures Going(o1, o2, known, m, turns + [Turn(first, e)] + [Turn(first, e')], c', taskId, ownerId)
    ensures c' == WithStage(c, first, s')
  {
    JointPlain(o1, o2, known, m, turns, c, taskId, ownerId, first, e, s);
    JointPlain(o1, o2, known, m, turns + [Turn(first, e)], WithStage(c, first, s), taskId, ownerId, first, e', s');
    c' := WithStage(c, first, s');
  }

  /** A checked call marks, binds and launches, whatever the other call has done meanwhile. */
  lemma CheckedCallLaunches(o1: Options, o2: Options, known: set<string>, m: Manifest, turns: seq<Turn>, c: Calls2,
                            first: bool,
                            ctx: Context, id: string, branch: string, report: Report) returns (c': Calls2)
    requires var o := if first then o1 else o2;
             Going(o1, o2, known, m, turns, c, o.taskId, ctx.ownerId) && AutoStart(o)
    requires StageOf(c, first) == Checked(ctx) && ctx.bound.None?
    ensures var o := if first then o1 else o2;
            Going(o1, o2, known, m, turns + StartTurns(first, o, ctx, id, branch, report), c', o.taskId, ctx.ownerId)
    ensures c' == WithStage(c, first, Launched(Execution(ctx.ownerId, Some(id), true, report))).(file := c'.file)
  {
    var o := if first then o1 else o2;
    StartAdvances(o, ctx, id, branch, report);
    var x := CheckedCallPlaced(o1, o2, known, m, turns, c, first, ctx, id, branch);
    var a := turns + PlaceTurns(first, o, ctx, id, branch);
    var bind, launch := Section(Bind(ctx.ownerId, id, branch), true, true), Launch(id, o.dryRun, true, Success(report));
    x := JointUpdate(o1, o2, known, m, a, x, o.taskId, ctx.ownerId, first, bind.phase, Bound(ctx, id, true));
    var last := Launched(Execution(ctx.ownerId, Some(id), true, report));
    JointPlain(o1, o2, known, m, a + [Turn(first, bind)], x, o.taskId, ctx.ownerId, first, launch, last);
    c' := WithStage(x, first, last);
    Regroup(turns, PlaceTurns(first, o, ctx, id, branch), Turn(first, bind), Turn(first, launch));
  }

  lemma Regroup(a: seq<Turn>, b: seq<Turn>, x: Turn, y: Turn)
    ensures a + b + [x] + [y] == a + (b + [x, y])
  {
  }

  /** Two calls may start the same task: if both pass their checks before either marks the task,
      the second goes on to launch on a slot of its own although the first has launched already. */
  lemma DoubleStart(o1: Options, o2: Options, known: set<string>, m: Manifest,
                    id1: string, branch1: string, report1: Report, id2: string, branch2: string, report2: Report)
    requires TeamInv(m) && o1.taskId == o2.taskId && Startable(m, o1.taskId, known)
    requires o1.delegation.None? && o2.delegation.None? && !o1.dryRun && !o2.dryRun
    requires ContextOf(m, o1.taskId, known).bound.None?
    ensures var ctx := ContextOf(m, o1.taskId, known);
            var checks := [Turn(true, Check(true, Some(ctx)))] + [Turn(false, Check(true, Some(ctx)))];
            var end := Joint(o1, o2, known, m,
                checks + StartTurns(true, o1, ctx, id1, branch1, report1)
                + StartTurns(false, o2, ctx, id2, branch2, report2));
            && end.Some?
            && end.value.s1 == Launched(Execution(ctx.ownerId, Some(id1), true, report1))
            && end.value.s2 == Launched(Execution(ctx.ownerId, Some(id2), true, report2))
  {
    var ctx := ContextOf(m, o1.taskId, known);
    var c := BothChecked(o1, o2, known, m);
    var checks := [Turn(true, Check(true, Some(ctx)))] + [Turn(false, Check(true, Some(ctx)))];
    c := CheckedCallLaunches(o1, o2, known, m, checks, c, true, ctx, id1, branch1, report1);
    c := CheckedCallLaunches(o1, o2, known, m, checks + StartTurns(true, o1, ctx, id1, branch1, report1),
        c, false, ctx, id2, branch2, report2);
  }

  lemma JointCheck(o1: Options, o2: Options, known: set<string>, m: Manifest, turns: seq<Turn>, c: Calls2, first: bool)
    requires var o := if first then o1 else o2;
             TeamInv(m) && o.delegation.None? && Startable(m, o.taskId, known)
    requires Joint(o1, o2, known, m, turns) == Some(c) && c.file == m && StageOf(c, first) == Start
    ensures var o := if first then o1 else o2;
            var found := Some(ContextOf(m, o.taskId, known));
            Joint(o1, o2, known, m, turns + [Turn(first, Check(true, found))]) ==
              Some(WithStage(c, first, AfterCheck(o, found)))
  {
    var o := if first then o1 else o2;
    CheckIsTrue(o, known, m);
    JointSnoc(o1, o2, known, m, turns, Turn(first, Check(true, Some(ContextOf(m, o.taskId, known)))));
  }

  lemma BothChecked(o1: Options, o2: Options, known: set<string>, m: Manifest) returns (c: Calls2)
    requires TeamInv(m) && o1.taskId == o2.taskId && Startable(m, o1.taskId, known)
    requires o1.delegation.None? && o2.delegation.None? && !o1.dryRun && !o2.dryRun
    ensures var ctx := ContextOf(m, o1.taskId, known);
            && c == Calls2(m, Checked(ctx), Checked(ctx))
            && Going(o1, o2, known, m, [Turn(true, Check(true, Some(ctx)))] + [Turn(false, Check(true, Some(ctx)))],
               c, o1.taskId, ctx.ownerId)
  {
    var ctx := ContextOf(m, o1.taskId, known);
    FoundIff(m.tasks, o1.taskId);
    c := Calls2(m, Start, Start);
    JointCheck(o1, o2, known, m, [], c, true);
    assert [] + [Turn(true, Check(true, Some(ctx)))] == [Turn(true, Check(true, Some(ctx)))];
    c := WithStage(c, true, Checked(ctx));
    JointCheck(o1, o2, known, m, [Turn(true, Check(true, Some(ctx)))], c, false);
    c := WithStage(c, false, Checked(ctx));
  }

  // ---------------------------------------------------------------------------
  // When a second call gets past its checks
  // ---------------------------------------------------------------------------

  /** `Startable`, the task's state aside. */
  predicate Eligible(m: Manifest, taskId: string, known: set<string>) {
    match FindTask(m.tasks, taskId)
    case None => false
    case Some(i) =>
      && KnownMember(m, m.tasks[i].ownerId)
      && MemberWith(m, m.tasks[i].ownerId).executionMode == ExternalSlots
      && Routable(m.tasks[i], MemberWith(m, m.tasks[i].ownerId), known)
  }

  lemma StartableIff(m: Manifest, taskId: string, known: set<string>)
    ensures Startable(m, taskId, known) <==> Eligible(m, taskId, known) && StateOf(m.tasks, taskId) != Some(InProgress)
  {
  }

  /** The mutators that a call uses after its checks. */
  predicate CallOp(op: TeamOp) {
    op.SetState? || op.ClearResult? || op.BindLeadSession? || op.AssignSlot? || op.BindSlot?
  }

  /** The same members with the same execution modes and policies, and the same task list up to
      states, bindings and results. */
  ghost predicate SameWork(a: Manifest, b: Manifest) {
    && |a.tasks| == |b.tasks| && |a.members| == |b.members|
    && (forall i :: 0 <= i < |a.tasks| ==> SameTask(a.tasks[i], b.tasks[i]))
    && SameMember(a.lead, b.lead)
    && (forall i :: 0 <= i < |a.members| ==> SameMember(a.members[i], b.members[i]))
  }

  predicate SameTask(x: Task, y: Task) {
    x.taskId == y.taskId && x.ownerId == y.ownerId && x.runtime == y.runtime
  }

  predicate SameMember(x: Member, y: Member) {
    x.memberId == y.memberId && x.executionMode == y.executionMode && x.policy == y.policy
  }

  lemma SameFinds(a: Manifest, b: Manifest, id: string)
    requires SameWork(a, b)
    ensures FindTask(a.tasks, id) == FindTask(b.tasks, id) && FindMember(a.members, id) == FindMember(b.members, id)
  {
    var i, j := FindTask(a.tasks, id), FindTask(b.tasks, id);
    assert i.Some? ==> SameTask(a.tasks[i.value], b.tasks[i.value]);
    assert j.Some? ==> SameTask(a.tasks[j.value], b.tasks[j.value]);
    var k, l := FindMember(a.members, id), FindMember(b.members, id);
    assert k.Some? ==> SameMember(a.members[k.value], b.members[k.value]);
    assert l.Some? ==> SameMember(a.members[l.value], b.members[l.value]);
  }

  lemma SameEligible(a: Manifest, b: Manifest, taskId: string, known: set<string>)
    requires SameWork(a, b)
    ensures Eligible(a, taskId, known) <==> Eligible(b, taskId, known)
  {
    SameFinds(a, b, taskId);
    if FindTask(a.tasks, taskId).Some? {
      SameFinds(a, b, a.tasks[FindTask(a.tasks, taskId).value].ownerId);
    }
  }

  lemma PutSameWork(m: Manifest, i: nat, t: Task)
    requires i < |m.tasks| && SameTask(m.tasks[i], t)
    ensures SameWork(m, PutTask(m, i, t)) && SameWork(m, RefreshStatus(PutTask(m, i, t)))
  {
  }

  lemma SetStateSameWork(m: Manifest, id: string, s: TaskState)
    ensures SameWork(m, SetTaskState(m, id, s).after)
  {
    var i := FindTask(m.tasks, id);
    if i.Some? { PutSameWork(m, i.value, WithState(m.tasks[i.value], s)); }
  }

  lemma PerformSameWork(m: Manifest, op: TeamOp)
    requires CallOp(op)
    ensures SameWork(m, Perform(m, op).after)
  {
    match op {
      case SetState(id, s) => SetStateSameWork(m, id, s);
      case _ =>
    }
  }

  lemma {:induction false} AttemptedSameWork(m: Manifest, ops: seq<TeamOp>)
    requires forall op :: op in ops ==> CallOp(op)
    ensures SameWork(m, Attempted(m, ops).after)
    decreases |ops|
  {
    if ops != [] {
      var init := ops[..|ops| - 1];
      AttemptedSameWork(m, init);
      if Attempted(m, init).ok { PerformSameWork(Attempted(m, init).after, ops[|ops| - 1]); }
    }
  }

  /** A step of a call after its checks leaves the task as eligible as it was. */
  lemma CallStepEligible(o: Options, known: set<string>, m: Manifest, t: seq<Event>, e: Event)
    requires TeamInv(m) && AllTruthful(o, known, m, t + [e]) && Trace(o, t + [e]).Some?
    requires Undisturbed(e) && Contexts(t) != []
    ensures Eligible(Replay(o, m, t + [e]), o.taskId, known) <==> Eligible(Replay(o, m, t), o.taskId, known)
  {
    var before := Replay(o, m, t);
    assert (t + [e])[..|t|] == t;
    CheckedOnce(o, t, e);
    if e.Section? && e.ok {
      ReplayKeepsInv(o, m, t);
      SectionEligible(o, known, before, e.phase);
    }
  }

  lemma SectionEligible(o: Options, known: set<string>, m: Manifest, p: Phase)
    requires WellFormed(m) && Accepts(m, Calls(o, p, m)) && !p.Reload?
    ensures Eligible(Run(m, Calls(o, p, m)), o.taskId, known) <==> Eligible(m, o.taskId, known)
  {
    AttemptedIsRun(m, Calls(o, p, m));
    AttemptedSameWork(m, Calls(o, p, m));
    SameEligible(m, Attempted(m, Calls(o, p, m)).after, o.taskId, known);
  }

  lemma EligibleStep(o: Options, known: set<string>, m: Manifest, t: seq<Event>, e: Event)
    requires TeamInv(m) && AllTruthful(o, known, m, t + [e]) && Trace(o, t + [e]).Some?
    requires Undisturbed(e) && Contexts(t) != [] && Eligible(Replay(o, m, t), o.taskId, known)
    requires LastTarget(t) == None ==> StateOf(Replay(o, m, t).tasks, o.taskId) != Some(InProgress)
    ensures Eligible(Replay(o, m, t + [e]), o.taskId, known)
    ensures LastTarget(t + [e]) == None ==> StateOf(Replay(o, m, t + [e]).tasks, o.taskId) != Some(InProgress)
  {
    CallStepEligible(o, known, m, t, e);
    assert (t + [e])[..|t|] == t;
    if MovedTo(e).None? { QuietStep(o, known, m, t, e); }
  }

  /** Once checked, the task is eligible, and while no saved update names a state it is not in
      progress. */
  ghost predicate EligibleSoFar(o: Options, known: set<string>, m: Manifest, t: seq<Event>) {
    Contexts(t) != [] ==>
      && Eligible(Replay(o, m, t), o.taskId, known)
      && (LastTarget(t) == None ==> StateOf(Replay(o, m, t).tasks, o.taskId) != Some(InProgress))
  }

  lemma EligibleSoFarStep(o: Options, known: set<string>, m: Manifest, t: seq<Event>, e: Event)
    requires Quiet(o, known, m, t + [e]) && EligibleSoFar(o, known, m, t)
    ensures EligibleSoFar(o, known, m, t + [e])
  {
    assert e in t + [e];
    if Contexts(t) != [] {
      EligibleStep(o, known, m, t, e);
    } else if Contexts(t + [e]) != [] {
      JustChecked(o, known, m, t, e);
    }
  }

  lemma EligibleFrom(o: Options, known: set<string>, m: Manifest, t: seq<Event>, init: seq<Event>, e: Event)
    requires Quiet(o, known, m, t) && t == init + [e] && EligibleSoFar(o, known, m, init)
    ensures EligibleSoFar(o, known, m, t)
  {
    EligibleSoFarStep(o, known, m, init, e);
  }

  lemma EligibleAtFirst(o: Options, known: set<string>, m: Manifest, t: seq<Event>)
    requires t == []
    ensures EligibleSoFar(o, known, m, t)
  {
  }

  lemma {:induction false} StaysEligible(o: Options, known: set<string>, m: Manifest, t: seq<Event>)
    requires Quiet(o, known, m, t)
    ensures EligibleSoFar(o, known, m, t)
    decreases |t|
  {
    if |t| == 0 {
      EligibleAtFirst(o, known, m, t);
    } else {
      var init, e := t[..|t| - 1], t[|t| - 1];
      QuietInit(o, known, m, t, init, e);
      StaysEligible(o, known, m, init);
      EligibleFrom(o, known, m, t, init, e);
    }
  }

  lemma JustChecked(o: Options, known: set<string>, m: Manifest, t: seq<Event>, e: Event)
    requires TeamInv(m) && AllTruthful(o, known, m, t + [e])
    requires Contexts(t) == [] && Contexts(t + [e]) != []
    ensures Startable(Replay(o, m, t + [e]), o.taskId, known)
    ensures Eligible(Replay(o, m, t + [e]), o.taskId, known)
            && StateOf(Replay(o, m, t + [e]).tasks, o.taskId) != Some(InProgress)
  {
    var before := Replay(o, m, t);
    assert (t + [e])[..|t|] == t;
    LedgerSnoc(t, e);
    ReplayKeepsInv(o, m, t);
    AttemptedIsRun(before, Delegating(o));
    StartableIff(Replay(o, m, t + [e]), o.taskId, known);
  }

  /** While a call is alone with the file, a second call on the same task that does not delegate
      it gets past its checks exactly when the first has not marked the task yet or has moved it
      on again. */
  lemma SecondCheckPassesIff(o: Options, second: Options, known: set<string>, m: Manifest, t: seq<Event>)
    requires Quiet(o, known, m, t) && Contexts(t) != []
    requires second.taskId == o.taskId && second.delegation.None?
    ensures CheckPasses(second, known, Replay(o, m, t)) <==> LastTarget(t) != Some(InProgress)
  {
    var file := Replay(o, m, t);
    ReplayKeepsInv(o, m, t);
    StaysEligible(o, known, m, t);
    UndelegatedCheckIff(second, known, file);
    StartableIff(file, o.taskId, known);
    StateFollows(o, known, m, t);
  }

  /** The target of a delegation can work on the task. */
  predicate CanTake(m: Manifest, taskId: string, target: string, known: set<string>) {
    && KnownMember(m, target) && FindTask(m.tasks, taskId).Some?
    && MemberWith(m, target).executionMode == ExternalSlots
    && Routable(m.tasks[FindTask(m.tasks, taskId).value], MemberWith(m, target), known)
  }

  /** The first phase of a delegating call passes exactly on a task that is still to do, with a
      target that can work on it. */
  lemma DelegatedCheckIff(o: Options, known: set<string>, m: Manifest)
    requires WellFormed(m) && o.delegation.Some?
    ensures CheckPasses(o, known, m) <==>
            StateOf(m.tasks, o.taskId) == Some(Todo) && CanTake(m, o.taskId, o.delegation.value.target, known)
  {
    var target := o.delegation.value.target;
    DelegationIs(m, o);
    DelegateAccepts(m, o.taskId, target);
    DelegatesIff(m, o.taskId, target);
    if DelegateOwner(m, o.taskId, target).ok { DelegatedStartable(m, o.taskId, target, known); }
  }

  lemma DelegatesIff(m: Manifest, taskId: string, target: string)
    ensures DelegateOwner(m, taskId, target).ok <==> KnownMember(m, target) && StateOf(m.tasks, taskId) == Some(Todo)
  {
  }

  lemma DelegatedStartable(m: Manifest, taskId: string, target: string, known: set<string>)
    requires DelegateOwner(m, taskId, target).ok
    ensures Startable(DelegateOwner(m, taskId, target).after, taskId, known) <==> CanTake(m, taskId, target, known)
  {
    var n, i := DelegateOwner(m, taskId, target).after, FindTask(m.tasks, taskId).value;
    FindPut(m.tasks, i, m.tasks[i].(ownerId := target), taskId);
    assert n.members == m.members && n.lead == m.lead;
  }

  lemma FindPut(tasks: seq<Task>, i: nat, t: Task, id: string)
    requires i < |tasks| && t.taskId == tasks[i].taskId
    ensures FindTask(tasks[i := t], id) == FindTask(tasks, id)
  {
    var j, k := FindTask(tasks[i := t], id), FindTask(tasks, id);
    if j.Some? { assert tasks[j.value].taskId == id; }
    if k.Some? { assert tasks[i := t][k.value].taskId == id; }
  }

  /** A second call that delegates the task gets past its checks only while the first has saved no
      update that names a state: then exactly when the task is to do and the target can take it. */
  lemma SecondDelegationPassesIff(o: Options, second: Options, known: set<string>, m: Manifest, t: seq<Event>)
    requires Quiet(o, known, m, t) && Contexts(t) != []
    requires second.taskId == o.taskId && second.delegation.Some?
    ensures var file := Replay(o, m, t);
            CheckPasses(second, known, file) <==>
            && LastTarget(t) == None && StateOf(file.tasks, o.taskId) == Some(Todo)
            && CanTake(file, o.taskId, second.delegation.value.target, known)
  {
    ReplayKeepsInv(o, m, t);
    DelegatedCheckIff(second, known, Replay(o, m, t));
    StateFollows(o, known, m, t);
    NeverBackToTodo(o, t);
  }

  lemma AdvanceNeverTodo(o: Options, s: Stage, e: Event)
    requires Advance(o, s, e).Some?
    ensures MovedTo(e) != Some(Todo)
  {
  }

  /** No update of a call puts the task back to do: the only phase that could is skipped then. */
  lemma {:induction false} NeverBackToTodo(o: Options, t: seq<Event>)
    requires Trace(o, t).Some?
    ensures LastTarget(t) != Some(Todo)
  {
    if t != [] {
      NeverBackToTodo(o, t[..|t| - 1]);
      AdvanceNeverTodo(o, Trace(o, t[..|t| - 1]).value, t[|t| - 1]);
    }
  }

  lemma UndelegatedCheckIff(o: Options, known: set<string>, m: Manifest)
    requires WellFormed(m) && o.delegation.None?
    ensures CheckPasses(o, known, m) <==> Startable(m, o.taskId, known)
  {
    assert Attempted(m, []) == Attempt(m, true);
  }
}
