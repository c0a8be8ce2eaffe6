/** The session lifecycle of runtime.rs under deadlines, cancellation and an arbitrary process
    environment, and the sweep of commands.rs that syncs the stored sessions. */
module Session {
  import opened Wrappers

  datatype Status = Prepared | Running | Completed | Failed | Cancelled {
    predicate Terminal() { Completed? || Failed? || Cancelled? }
  }

  datatype EndReason = Completed | RuntimeFailure | Timeout | OperatorCancelled | TokenExhausted | ProviderLimited

  /** `started_at`, in milliseconds when it parses as a timestamp. */
  datatype Stamp = At(ms: int) | Unparsable

  datatype Row = Row(
    id: string,
    repoId: string,
    slotId: string,
    supervisor: Option<string>,
    status: Status,
    dryRun: bool,
    stdoutPath: Option<string>,
    stderrPath: Option<string>,
    exitCode: Option<int>,
    endReason: Option<EndReason>,
    timeoutSecs: Option<int>,
    startedAt: Option<Stamp>)

  /** An I/O call's outcome; the error itself is not modelled. */
  type Io<T> = Result<T, ()>

  /** Everything a sync or cancel asks of the outside world, answered arbitrarily. `limitText`
      and `tokenText` say what the logs look like. */
  datatype Probe = Probe(now: int, supervisorExit: Io<Option<int>>, pid: Io<Option<nat>>, pidAlive: bool,
                         pidSidecar: bool, exitFile: Io<Option<int>>, limitText: bool, tokenText: bool, clearPid: bool)

  function FailureReason(limitText: bool, tokenText: bool): EndReason {
    if limitText then ProviderLimited else if tokenText then TokenExhausted else RuntimeFailure
  }

  predicate EndsWith(s: string, suffix: string) {
    |s| >= |suffix| && s[|s| - |suffix|..] == suffix
  }

  /** `SessionSupervisor::from_session`: by recorded name, else by the shape of the log paths. */
  predicate HasSupervisor(row: Row) {
    || row.supervisor == Some("tmux")
    || (row.stderrPath.None? && row.stdoutPath.Some? && EndsWith(row.stdoutPath.value, ".pty.log"))
  }

  predicate Supervised(row: Row) {
    row.status == Running && HasSupervisor(row)
  }

  /** Whole seconds of a duration, truncated toward zero. */
  function NumSeconds(ms: int): int {
    if ms >= 0 then ms / 1000 else -((-ms) / 1000)
  }

  predicate Overdue(row: Row, now: int) {
    && row.timeoutSecs.Some? && row.startedAt.Some? && row.startedAt.value.At?
    && NumSeconds(now - row.startedAt.value.ms) >= row.timeoutSecs.value
  }

  /** A row after a call, and what the call returned. */
  datatype Outcome = Outcome(row: Row, result: Io<bool>)

  function Exited(row: Row, code: int, p: Probe): Row {
    if code == 0 then row.(exitCode := Some(0), status := Status.Completed, endReason := Some(EndReason.Completed))
    else row.(exitCode := Some(code), status := Failed, endReason := Some(FailureReason(p.limitText, p.tokenText)))
  }

  predicate StopFails(row: Row, p: Probe) {
    if Supervised(row) then row.exitCode.None? && p.exitFile.Failure?
    else p.pid.Failure? || !p.clearPid
  }

  /** `cancel_session_with_reason` */
  function CancelOutcome(row: Row, p: Probe, reason: EndReason): Outcome {
    if row.status.Terminal() then Outcome(row, Success(false))
    else if StopFails(row, p) then Outcome(row, Failure(()))
    else
      var exit := if Supervised(row) && row.exitCode.None? then p.exitFile.value else row.exitCode;
      Outcome(row.(status := Cancelled, endReason := Some(reason), exitCode := exit), Success(true))
  }

  /** `sync_oneshot_session`: wait while the process or its pending marker is there, then read
      the exit sidecar. */
  function OneshotOutcome(row: Row, p: Probe): Outcome {
    if p.pid.Failure? then Outcome(row, Failure(()))
    else if p.pid.value.Some? && p.pidAlive then Outcome(row, Success(false))
    else if p.pid.value.None? && p.pidSidecar then Outcome(row, Success(false))
    else if p.exitFile.Failure? then Outcome(row, Failure(()))
    else
      var ended :=
        match p.exitFile.value
        case Some(code) => Exited(row, code, p)
        case None => row.(status := Failed, endReason := Some(FailureReason(p.limitText, p.tokenText)));
      Outcome(ended, if p.clearPid then Success(true) else Failure(()))
  }

  /** `sync_session` */
  function SyncOutcome(row: Row, p: Probe): Outcome {
    if row.status.Terminal() then Outcome(row, Success(false))
    else if Overdue(row, p.now) then
      var stopped := CancelOutcome(row, p, Timeout);
      if stopped.result.Failure? then stopped
      else Outcome(stopped.row.(status := Failed, endReason := Some(Timeout)), Success(true))
    else if row.status != Running then Outcome(row, Success(false))
    else if !Supervised(row) then OneshotOutcome(row, p)
    else
      match p.supervisorExit
      case Failure(_) => Outcome(row, Failure(()))
      case Success(None) => Outcome(row, Success(false))
      case Success(Some(code)) => Outcome(Exited(row, code, p), Success(true))
  }

  class SessionRecord {
    const id: string
    const repoId: string
    const slotId: string
    const supervisor: Option<string>
    const dryRun: bool
    const stdoutPath: Option<string>
    const stderrPath: Option<string>
    const timeoutSecs: Option<int>
    var status: Status
    var exitCode: Option<int>
    var endReason: Option<EndReason>
    var startedAt: Option<Stamp>

    function View(): Row
      reads this
    {
      Row(id, repoId, slotId, supervisor, status, dryRun, stdoutPath, stderrPath, exitCode, endReason, timeoutSecs,
          startedAt)
    }

    constructor (row: Row)
      ensures View() == row
    {
      id, repoId, slotId, supervisor, dryRun := row.id, row.repoId, row.slotId, row.supervisor, row.dryRun;
      stdoutPath, stderrPath, timeoutSecs := row.stdoutPath, row.stderrPath, row.timeoutSecs;
      status, exitCode, endReason, startedAt := row.status, row.exitCode, row.endReason, row.startedAt;
    }

    method RecordExit(code: int, p: Probe)
      modifies this
      ensures View() == Exited(old(View()), code, p)
    {
      exitCode := Some(code);
      if code == 0 {
        status, endReason := Status.Completed, Some(EndReason.Completed);
      } else {
        status, endReason := Failed, Some(FailureReason(p.limitText, p.tokenText));
      }
    }

    method CancelWithReason(p: Probe, reason: EndReason) returns (r: Io<bool>)
      modifies this
      ensures Outcome(View(), r) == CancelOutcome(old(View()), p, reason)
    {
      if status.Terminal() { return Success(false); }
      if Supervised(View()) {
        if exitCode.None? {
          if p.exitFile.Failure? { return Failure(()); }
          exitCode := p.exitFile.value;
        }
      } else {
        if p.pid.Failure? { return Failure(()); }
        if !p.clearPid { return Failure(()); }
      }
      status, endReason := Cancelled, Some(reason);
      return Success(true);
    }

    /** Runs a prepared session. */
    method Execute(e: Launched) returns (ok: bool)
      modifies this
      ensures Execution(View(), ok) == ExecuteOutcome(old(View()), e)
    {
      if dryRun { return true; }
      startedAt := Some(At(e.now));
      if !e.setup { return false; }
      if supervisor.Some? { return true; }
      if !e.logs { return false; }
      var success := e.exit == ExitedWith(0);
      status := if success then Status.Completed else Failed;
      exitCode := match e.exit case ExitedWith(code) => Some(code) case Signalled => None;
      endReason := Some(if success then EndReason.Completed else FailureReason(e.limitText, e.tokenText));
      return e.sidecars;
    }

    method SyncOneshot(p: Probe) returns (r: Io<bool>)
      modifies this
      ensures Outcome(View(), r) == OneshotOutcome(old(View()), p)
    {
      if p.pid.Failure? { return Failure(()); }
      match p.pid.value {
        case Some(_) => if p.pidAlive { return Success(false); }
        case None => if p.pidSidecar { return Success(false); }
      }
      if p.exitFile.Failure? { return Failure(()); }
      match p.exitFile.value {
        case Some(code) => RecordExit(code, p);
        case None => status, endReason := Failed, Some(FailureReason(p.limitText, p.tokenText));
      }
      if !p.clearPid { return Failure(()); }
      return Success(true);
    }

    method Sync(p: Probe) returns (r: Io<bool>)
      modifies this
      ensures Outcome(View(), r) == SyncOutcome(old(View()), p)
    {
      if status.Terminal() { return Success(false); }
      if Overdue(View(), p.now) {
        r := CancelWithReason(p, Timeout);
        if r.Failure? { return; }
        status, endReason := Failed, Some(Timeout);
        return Success(true);
      }
      if status != Running { return Success(false); }
      if !Supervised(View()) {
        r := SyncOneshot(p);
        return;
      }
      if p.supervisorExit.Failure? { return Failure(()); }
      match p.supervisorExit.value {
        case Some(code) =>
          RecordExit(code, p);
          return Success(true);
        case None => return Success(false);
      }
    }
  }

  // ---------------------------------------------------------------------------
  // Starting
  // ---------------------------------------------------------------------------

  datatype Launch = Pty | Oneshot

  /** `prepare_session` for a launch mode; the paths are the supervisor's or the one-shot layout. */
  function PreparedRow(id: string, repoId: string, slotId: string, launch: Launch, dryRun: bool,
                       timeoutSecs: Option<int>): Row {
    Row(id, repoId, slotId, if launch.Pty? then Some("tmux") else None,
        if dryRun then Prepared else Running, dryRun,
        Some(id + if launch.Pty? then ".pty.log" else ".out.log"),
        if launch.Pty? then None else Some(id + ".err.log"),
        None, None, timeoutSecs, None)
  }

  /** How a process ended: by `exit(code)` or by a signal. Only code 0 counts as success. */
  datatype ExitStatus = ExitedWith(code: int) | Signalled

  /** The outside world of one execution: launching the supervisor, or clearing sidecars, writing
      the script and pid file and spawning; waiting and writing the logs; writing the exit
      sidecar and clearing the pid file. */
  datatype Launched = Launched(now: int, setup: bool, logs: bool, exit: ExitStatus,
                               limitText: bool, tokenText: bool, sidecars: bool)

  datatype Execution = Execution(row: Row, ok: bool)

  function Ended(row: Row, e: Launched): Row {
    match e.exit
    case ExitedWith(code) =>
      row.(exitCode := Some(code),
           status := if code == 0 then Status.Completed else Failed,
           endReason := Some(if code == 0 then EndReason.Completed else FailureReason(e.limitText, e.tokenText)))
    case Signalled =>
      row.(exitCode := None, status := Failed, endReason := Some(FailureReason(e.limitText, e.tokenText)))
  }

  /** `execute_prepared_session`: a supervised session is only launched, a one-shot runs to its end. */
  function ExecuteOutcome(row: Row, e: Launched): Execution {
    var started := row.(startedAt := Some(At(e.now)));
    if row.dryRun then Execution(row, true)
    else if !e.setup then Execution(started, false)
    else if row.supervisor.Some? then Execution(started, true)
    else if !e.logs then Execution(started, false)
    else Execution(Ended(started, e), e.sidecars)
  }

  // ---------------------------------------------------------------------------
  // One stored session under any number of processes
  // ---------------------------------------------------------------------------

  /** The starting command: executing; about to mark as failed the row that it has `seen`; or done. */
  datatype Starter = Executing | Failing(seen: Row) | Done

  /** The stored row, if it is there, and the copies that processes have read and not yet acted on. */
  datatype World = World(stored: Option<Row>, held: map<nat, Row>, starter: Starter)

  /** A sync, cancel or delete reads the row, in a listing or alone, and works on its copy later.
      A delete removes the row if the copy was terminal. `Execute`
      is the end of the starting command's execution, which stores the row it returns, or, on an
      error, reads the stored row to mark it as failed. The last argument of each says whether the
      table can be read and written. */
  datatype Act =
    | Read(a: nat)
    | StoreSync(a: nat, p: Probe, works: bool)
    | StoreCancel(a: nat, p: Probe, works: bool)
    | Delete(a: nat, works: bool)
    | Execute(e: Launched, works: bool)
    | MarkFailed(works: bool)

  function Marked(row: Row): Row {
    row.(status := Failed, endReason := Some(RuntimeFailure))
  }

  /** The cancel command refuses terminal sessions and running one-shots. */
  predicate Cancellable(row: Row) {
    !row.status.Terminal() && (row.status == Running ==> Supervised(row))
  }

  /** The row that an act stores, if it stores one. The store is unconditional: it does not look
      at what is stored by then. */
  function Written(prepared: Row, w: World, act: Act): Option<Row> {
    match act
    case Read(_) => None
    case Delete(_, _) => None
    case StoreSync(a, p, works) =>
      if a in w.held && works && SyncOutcome(w.held[a], p).result == Success(true) then
        Some(SyncOutcome(w.held[a], p).row)
      else None
    case StoreCancel(a, p, works) =>
      if a in w.held && works && Cancellable(w.held[a])
         && CancelOutcome(w.held[a], p, OperatorCancelled).result == Success(true) then
        Some(CancelOutcome(w.held[a], p, OperatorCancelled).row)
      else None
    case Execute(e, works) =>
      if w.starter.Executing? && works && ExecuteOutcome(prepared, e).ok then Some(ExecuteOutcome(prepared, e).row)
      else None
    case MarkFailed(works) => if w.starter.Failing? && works then Some(Marked(w.starter.seen)) else None
  }

  /** The delete, too, does not look at what is stored by then. */
  predicate Deletes(w: World, act: Act) {
    act.Delete? && act.works && act.a in w.held && w.held[act.a].status.Terminal()
  }

  function HeldAfter(w: World, act: Act): map<nat, Row> {
    match act
    case Read(a) => if w.stored.Some? then w.held[a := w.stored.value] else w.held
    case Delete(a, _) => w.held - {a}
    case StoreSync(a, _, _) => w.held - {a}
    case StoreCancel(a, _, _) => w.held - {a}
    case _ => w.held
  }

  function StarterAfter(prepared: Row, w: World, act: Act): Starter {
    match (w.starter, act)
    case (Executing, Execute(e, works)) =>
      if works && !ExecuteOutcome(prepared, e).ok && w.stored.Some? then Failing(w.stored.value) else Done
    case (Failing(_), MarkFailed(_)) => Done
    case _ => w.starter
  }

  function Next(prepared: Row, w: World, act: Act): World {
    World(if Written(prepared, w, act).Some? then Written(prepared, w, act)
             else if Deletes(w, act) then None else w.stored,
          HeldAfter(w, act), StarterAfter(prepared, w, act))
  }

  function Run(prepared: Row, w: World, acts: seq<Act>): World
    decreases |acts|
  {
    if acts == [] then w
    else Next(prepared, Run(prepared, w, acts[..|acts| - 1]), acts[|acts| - 1])
  }

  /** The starting command has just stored its prepared row. */
  function Begun(prepared: Row): World {
    World(Some(prepared), map[], Executing)
  }

  predicate IsPrepared(row: Row) {
    row == PreparedRow(row.id, row.repoId, row.slotId, if row.supervisor.Some? then Pty else Oneshot,
                       row.dryRun, row.timeoutSecs)
  }

  ghost predicate Lifecycle(row: Row) {
    && (row.endReason.Some? <==> row.status.Terminal())
    && (row.status == Status.Completed <==> row.endReason == Some(EndReason.Completed))
    && (row.status == Status.Completed ==> row.exitCode == Some(0))
    && (row.status == Cancelled <==> row.endReason == Some(OperatorCancelled))
    && (row.endReason == Some(Timeout) ==> row.status == Failed)
    && (row.exitCode.Some? ==> row.status.Terminal())
    && (row.startedAt.Some? && !row.status.Terminal() ==> Supervised(row))
  }

  /** What every copy of a row satisfies: the lifecycle facts, the identity of the prepared row,
      and, in a dry run, that only a cancel ever changes it. */
  ghost predicate Sound(prepared: Row, row: Row) {
    && Lifecycle(row)
    && row == prepared.(status := row.status, exitCode := row.exitCode,
                        endReason := row.endReason, startedAt := row.startedAt)
    && (if prepared.dryRun then row == prepared
               || row == prepared.(status := Cancelled, endReason := Some(OperatorCancelled))
        else row.status != Prepared)
  }

  ghost predicate SoundWorld(prepared: Row, w: World) {
    && (w.stored.Some? ==> Sound(prepared, w.stored.value))
    && (forall a :: a in w.held ==> Sound(prepared, w.held[a]))
    && (w.starter.Failing? ==> Sound(prepared, w.starter.seen) && !prepared.dryRun)
  }

  lemma SyncSound(prepared: Row, row: Row, p: Probe)
    requires Sound(prepared, row) && IsPrepared(prepared) && SyncOutcome(row, p).result == Success(true)
    ensures Sound(prepared, SyncOutcome(row, p).row)
  {
  }

  lemma CancelSound(prepared: Row, row: Row, p: Probe)
    requires Sound(prepared, row) && IsPrepared(prepared)
             && CancelOutcome(row, p, OperatorCancelled).result == Success(true)
    ensures Sound(prepared, CancelOutcome(row, p, OperatorCancelled).row)
  {
  }

  lemma ExecuteSound(prepared: Row, e: Launched)
    requires IsPrepared(prepared) && ExecuteOutcome(prepared, e).ok
    ensures Sound(prepared, ExecuteOutcome(prepared, e).row)
  {
  }

  lemma WrittenSound(prepared: Row, w: World, act: Act)
    requires IsPrepared(prepared) && SoundWorld(prepared, w) && Written(prepared, w, act).Some?
    ensures Sound(prepared, Written(prepared, w, act).value)
  {
    match act {
      case StoreSync(a, p, _) => SyncSound(prepared, w.held[a], p);
      case StoreCancel(a, p, _) => CancelSound(prepared, w.held[a], p);
      case Execute(e, _) => ExecuteSound(prepared, e);
      case MarkFailed(_) =>
    }
  }

  lemma NextSound(prepared: Row, w: World, act: Act)
    requires IsPrepared(prepared) && SoundWorld(prepared, w)
    ensures SoundWorld(prepared, Next(prepared, w, act))
  {
    if Written(prepared, w, act).Some? { WrittenSound(prepared, w, act); }
  }

  /** The lifecycle facts hold of the stored row, and of every copy, in every interleaving of the
      starting command with any number of syncs and cancels that work on old copies: a reason is
      recorded exactly in a terminal state, Completed goes with reason Completed and exit code 0,
      Cancelled with the operator, a timeout with Failed, and only supervised sessions are ever
      live with a start time. */
  lemma {:induction false} RunKeepsLifecycle(prepared: Row, acts: seq<Act>)
    requires IsPrepared(prepared)
    ensures SoundWorld(prepared, Run(prepared, Begun(prepared), acts))
    decreases |acts|
  {
    if acts != [] {
      RunKeepsLifecycle(prepared, acts[..|acts| - 1]);
      NextSound(prepared, Run(prepared, Begun(prepared), acts[..|acts| - 1]), acts[|acts| - 1]);
    }
  }

  // ---------------------------------------------------------------------------
  // When a terminal state is final
  // ---------------------------------------------------------------------------

  /** A terminal row is stored. */
  predicate HasEnded(w: World) {
    w.stored.Some? && w.stored.value.status.Terminal()
  }

  /** A terminal row becomes live again exactly when the starting command stores the result of a
      dry run or of a supervised launch. Syncs and cancels never do that, however old their copy. */
  lemma RevivesIff(prepared: Row, w: World, act: Act)
    requires IsPrepared(prepared) && SoundWorld(prepared, w) && HasEnded(w)
    ensures var after := Next(prepared, w, act).stored;
            after.Some? && !after.value.status.Terminal() <==>
            && act.Execute? && act.works && w.starter.Executing?
            && (prepared.dryRun || (act.e.setup && prepared.supervisor.Some?))
  {
  }

  /** Nobody can store anything but the terminal row `row` any more: the starting command is done,
      or about to store that very row, and no process holds a live copy. (In a dry run a live copy
      does no harm: only a cancel can end it, with that same row.) */
  ghost predicate Final(prepared: Row, w: World, row: Row) {
    && (w.starter.Done? || (w.starter.Failing? && Marked(w.starter.seen) == row))
    && (prepared.dryRun || forall a :: a in w.held ==> w.held[a].status.Terminal())
  }

  /** The terminal row is stored, or has been deleted. */
  ghost predicate Kept(prepared: Row, w: World, row: Row) {
    && SoundWorld(prepared, w) && Sound(prepared, row) && row.status.Terminal()
    && (w.stored == Some(row) || w.stored == None) && Final(prepared, w, row)
  }

  lemma KeptStays(prepared: Row, w: World, act: Act, row: Row)
    requires IsPrepared(prepared) && Kept(prepared, w, row)
    ensures Kept(prepared, Next(prepared, w, act), row)
  {
    NextSound(prepared, w, act);
  }

  lemma {:induction false} KeptForever(prepared: Row, w: World, acts: seq<Act>, row: Row)
    requires IsPrepared(prepared) && Kept(prepared, w, row)
    ensures Kept(prepared, Run(prepared, w, acts), row)
    decreases |acts|
  {
    if acts != [] {
      KeptForever(prepared, w, acts[..|acts| - 1], row);
      KeptStays(prepared, Run(prepared, w, acts[..|acts| - 1]), acts[|acts| - 1], row);
    }
  }

  /** A probe under which nothing fails: the process is gone and has left exit code `code`. */
  function Gone(code: int): Probe {
    Probe(0, Success(Some(code)), Success(None), false, false, Success(Some(code)), false, false, true)
  }

  /** An execution in which nothing fails: the process exits with `code`. */
  function Exits(code: int): Launched {
    Launched(0, true, true, ExitedWith(code), false, false, true)
  }

  /** A process with a live copy, not of a dry run, can end it in two different ways. */
  lemma LiveCopyOverwrites(prepared: Row, w: World, a: nat, row: Row) returns (act: Act)
    requires IsPrepared(prepared) && SoundWorld(prepared, w)
    requires !prepared.dryRun && a in w.held && !w.held[a].status.Terminal()
    ensures Next(prepared, w, act).stored.Some? && Next(prepared, w, act).stored.value != row
  {
    if Supervised(w.held[a]) {
      act := if row.status == Cancelled then StoreSync(a, Gone(0), true) else StoreCancel(a, Gone(0), true);
    } else {
      act := StoreSync(a, Gone(if row.status == Status.Completed then 1 else 0), true);
    }
  }

  lemma ExecutingOverwrites(prepared: Row, w: World, row: Row) returns (act: Act)
    requires IsPrepared(prepared) && SoundWorld(prepared, w) && w.starter.Executing? && row.status.Terminal()
    ensures Next(prepared, w, act).stored.Some? && Next(prepared, w, act).stored.value != row
  {
    act := Execute(Exits(if row.status == Status.Completed then 1 else 0), true);
  }

  lemma OneAct(prepared: Row, w: World, act: Act)
    ensures Run(prepared, w, [act]) == Next(prepared, w, act)
  {
    assert [act][..0] == [];
  }

  /** A terminal row stays as it is in every continuation, until it is deleted, exactly when it is
      final; a delete then leaves nothing but this row to come back. */
  lemma TerminalIsFinalIff(prepared: Row, w: World)
    requires IsPrepared(prepared) && SoundWorld(prepared, w) && HasEnded(w)
    ensures (forall acts :: Run(prepared, w, acts).stored == w.stored || Run(prepared, w, acts).stored == None)
            <==> Final(prepared, w, w.stored.value)
  {
    var row := w.stored.value;
    if Final(prepared, w, row) {
      forall acts ensures Run(prepared, w, acts).stored == w.stored || Run(prepared, w, acts).stored == None {
        KeptForever(prepared, w, acts, row);
      }
    } else {
      var act;
      if w.starter.Executing? {
        act := ExecutingOverwrites(prepared, w, row);
      } else if w.starter.Failing? && Marked(w.starter.seen) != row {
        act := MarkFailed(true);
      } else {
        var a :| a in w.held && !w.held[a].status.Terminal();
        act := LiveCopyOverwrites(prepared, w, a, row);
      }
      OneAct(prepared, w, act);
    }
  }

  /** Nobody can bring a deleted row back. */
  ghost predicate Vanished(w: World) {
    w.stored == None && w.starter.Done? && forall a :: a in w.held ==> w.held[a].status.Terminal()
  }

  lemma {:induction false} VanishedForever(prepared: Row, w: World, acts: seq<Act>)
    requires Vanished(w)
    ensures Vanished(Run(prepared, w, acts))
    decreases |acts|
  {
    if acts != [] { VanishedForever(prepared, w, acts[..|acts| - 1]); }
  }

  /** A live copy can always be stored: by a cancel, or, of a running one-shot, by a sync. */
  lemma LiveCopyInserts(prepared: Row, w: World, a: nat) returns (act: Act)
    requires IsPrepared(prepared) && SoundWorld(prepared, w) && a in w.held && !w.held[a].status.Terminal()
    ensures Next(prepared, w, act).stored.Some?
  {
    act := if Cancellable(w.held[a]) then StoreCancel(a, Gone(0), true) else StoreSync(a, Gone(0), true);
  }

  /** A deleted session stays deleted in every continuation exactly when the starting command is
      done and no process holds a live copy. */
  lemma DeletedIsFinalIff(prepared: Row, w: World)
    requires IsPrepared(prepared) && SoundWorld(prepared, w) && w.stored == None
    ensures (forall acts :: Run(prepared, w, acts).stored == None) <==> Vanished(w)
  {
    if Vanished(w) {
      forall acts ensures Run(prepared, w, acts).stored == None { VanishedForever(prepared, w, acts); }
    } else {
      var act;
      if w.starter.Executing? {
        act := Execute(Exits(0), true);
      } else if w.starter.Failing? {
        act := MarkFailed(true);
      } else {
        var a :| a in w.held && !w.held[a].status.Terminal();
        act := LiveCopyInserts(prepared, w, a);
      }
      OneAct(prepared, w, act);
    }
  }

  function StatusAfter(w: World): Option<Status> {
    if w.stored.Some? then Some(w.stored.value.status) else None
  }

  lemma ThreeActs(prepared: Row, w: World, a: Act, b: Act, c: Act)
    ensures Run(prepared, w, [a, b]) == Next(prepared, Next(prepared, w, a), b)
    ensures Run(prepared, w, [a, b, c]) == Next(prepared, Next(prepared, Next(prepared, w, a), b), c)
  {
    OneAct(prepared, w, a);
    assert [a, b][..1] == [a] && [a, b, c][..2] == [a, b];
  }

  /** Another process reads the prepared row and stores what its sync made of it. */
  lemma FirstSync(prepared: Row, p: Probe)
    requires SyncOutcome(prepared, p).result == Success(true)
    ensures Next(prepared, Next(prepared, Begun(prepared), Read(0)), StoreSync(0, p, true))
            == World(Some(SyncOutcome(prepared, p).row), map[], Executing)
  {
  }

  /** A one-shot process that has exited, but whose exit sidecar is not written yet, is synced to
      Failed by another process and then stored as Completed. */
  lemma FinishCanReviveFailed(prepared: Row, p: Probe, e: Launched)
    requires IsPrepared(prepared) && !prepared.dryRun && prepared.supervisor.None?
    requires p.pid.Success? && p.pid.value.Some? && !p.pidAlive && p.exitFile == Success(None) && p.clearPid
    requires e.setup && e.logs && e.sidecars && e.exit == ExitedWith(0)
    ensures var w, sync := Begun(prepared), StoreSync(0, p, true);
            && StatusAfter(Run(prepared, w, [Read(0), sync])) == Some(Failed)
            && StatusAfter(Run(prepared, w, [Read(0), sync, Execute(e, true)])) == Some(Status.Completed)
  {
    FirstSync(prepared, p);
    ThreeActs(prepared, Begun(prepared), Read(0), StoreSync(0, p, true), Execute(e, true));
  }

  /** Likewise for a supervised session: synced before its supervisor exists, it is recorded as
      Failed with exit code -1, and then stored as Running. */
  lemma FinishCanReviveToRunning(prepared: Row, p: Probe, e: Launched)
    requires IsPrepared(prepared) && !prepared.dryRun && prepared.supervisor.Some?
    requires p.supervisorExit == Success(Some(-1)) && e.setup
    ensures var w, sync := Begun(prepared), StoreSync(0, p, true);
            && StatusAfter(Run(prepared, w, [Read(0), sync])) == Some(Failed)
            && StatusAfter(Run(prepared, w, [Read(0), sync, Execute(e, true)])) == Some(Running)
  {
    FirstSync(prepared, p);
    ThreeActs(prepared, Begun(prepared), Read(0), StoreSync(0, p, true), Execute(e, true));
  }

  lemma CancelStores(prepared: Row, w: World, c: nat, q: Probe)
    requires c in w.held && Supervised(w.held[c]) && q.exitFile.Success?
    ensures var n := Next(prepared, w, StoreCancel(c, q, true));
            StatusAfter(n) == Some(Cancelled) && n.held == w.held - {c}
  {
  }

  lemma SyncStores(prepared: Row, w: World, s: nat, p: Probe, code: int)
    requires s in w.held && Supervised(w.held[s]) && !Overdue(w.held[s], p.now)
    requires p.supervisorExit == Success(Some(code)) && code != 0
    ensures var n := Next(prepared, w, StoreSync(s, p, true));
            StatusAfter(n) == Some(Failed) && n.held == w.held - {s}
  {
  }

  /** Two processes that both read a live supervised session, one to sync and one to cancel it:
      whichever stores last decides how the session is recorded to have ended. */
  lemma LastStoreWins(prepared: Row, w: World, s: nat, c: nat, p: Probe, q: Probe, code: int)
    requires IsPrepared(prepared) && SoundWorld(prepared, w) && s != c && s in w.held && c in w.held
    requires Supervised(w.held[s]) && Supervised(w.held[c]) && !Overdue(w.held[s], p.now)
    requires p.supervisorExit == Success(Some(code)) && code != 0 && q.exitFile.Success?
    ensures var sync, cancel := StoreSync(s, p, true), StoreCancel(c, q, true);
            && StatusAfter(Run(prepared, w, [sync, cancel])) == Some(Cancelled)
            && StatusAfter(Run(prepared, w, [cancel, sync])) == Some(Failed)
  {
    var sync, cancel := StoreSync(s, p, true), StoreCancel(c, q, true);
    ThreeActs(prepared, w, sync, cancel, sync);
    ThreeActs(prepared, w, cancel, sync, sync);
    SyncStores(prepared, w, s, p, code);
    CancelStores(prepared, Next(prepared, w, sync), c, q);
    CancelStores(prepared, w, c, q);
    SyncStores(prepared, Next(prepared, w, cancel), s, p, code);
  }

  // ---------------------------------------------------------------------------
  // Completed and exit code zero
  // ---------------------------------------------------------------------------

  /** Exit code zero and Completed say the same of a row. */
  ghost predicate ExitAgrees(row: Row) {
    row.status == Status.Completed <==> row.exitCode == Some(0)
  }

  /** A store that records exit code 0 without Completed: the stop, by cancel or timeout, of a
      supervised session whose process had left exit code 0, or a failing starting command that
      has seen a row with exit code 0. */
  predicate LeavesZero(w: World, act: Act) {
    match act
    case StoreSync(a, p, _) =>
      a in w.held && Supervised(w.held[a]) && Overdue(w.held[a], p.now) && p.exitFile == Success(Some(0))
    case StoreCancel(a, p, _) => a in w.held && Supervised(w.held[a]) && p.exitFile == Success(Some(0))
    case MarkFailed(_) => w.starter.Failing? && w.starter.seen.exitCode == Some(0)
    case _ => false
  }

  lemma WrittenAgreesIff(prepared: Row, w: World, act: Act)
    requires IsPrepared(prepared) && SoundWorld(prepared, w) && Written(prepared, w, act).Some?
    ensures ExitAgrees(Written(prepared, w, act).value) <==> !LeavesZero(w, act)
  {
  }

  /** The last store of the run was one that leaves exit code 0 without Completed. */
  predicate ZeroLeft(prepared: Row, acts: seq<Act>)
    decreases |acts|
  {
    acts != [] &&
    var init, act := acts[..|acts| - 1], acts[|acts| - 1];
    var w := Run(prepared, Begun(prepared), init);
    if Written(prepared, w, act).Some? then LeavesZero(w, act) else ZeroLeft(prepared, init)
  }

  /** After any run, Completed coincides with exit code 0 in the row, if it is there, unless,
      exactly, the last store was a stop of a supervised session that had already exited with 0, or
      the mark of a failing starting command that had seen exit code 0. */
  lemma {:induction false} ExitAgreesIff(prepared: Row, acts: seq<Act>)
    requires IsPrepared(prepared)
    ensures var row := Run(prepared, Begun(prepared), acts).stored;
            row.Some? ==> (ExitAgrees(row.value) <==> !ZeroLeft(prepared, acts))
    decreases |acts|
  {
    if acts != [] {
      var init, act := acts[..|acts| - 1], acts[|acts| - 1];
      var w := Run(prepared, Begun(prepared), init);
      ExitAgreesIff(prepared, init);
      RunKeepsLifecycle(prepared, init);
      if Written(prepared, w, act).Some? { WrittenAgreesIff(prepared, w, act); }
    }
  }

  /** A supervised session that has exited with 0 and is cancelled: Cancelled with exit code 0. */
  lemma CancelCanLeaveZero(prepared: Row, p: Probe, e: Launched)
    requires IsPrepared(prepared) && !prepared.dryRun && prepared.supervisor.Some?
    requires e.setup && p.exitFile == Success(Some(0))
    ensures var row := Run(prepared, Begun(prepared), [Execute(e, true), Read(0), StoreCancel(0, p, true)]).stored;
            row.Some? && row.value.status == Cancelled && row.value.exitCode == Some(0)
  {
    ThreeActs(prepared, Begun(prepared), Execute(e, true), Read(0), StoreCancel(0, p, true));
  }

  /** A one-shot that exits with 0, is synced to Completed by another process, and whose starting
      command then cannot clear its sidecars: Failed with exit code 0. */
  lemma MarkCanLeaveZero(prepared: Row, p: Probe, e: Launched)
    requires IsPrepared(prepared) && !prepared.dryRun && prepared.supervisor.None?
    requires p.pid.Success? && p.pid.value.Some? && !p.pidAlive && p.exitFile == Success(Some(0)) && p.clearPid
    requires e.setup && e.logs && e.exit == ExitedWith(0) && !e.sidecars
    ensures var acts := [Read(0), StoreSync(0, p, true), Execute(e, true)];
            && StatusAfter(Run(prepared, Begun(prepared), acts)) == Some(Status.Completed)
            && var row := Run(prepared, Begun(prepared), acts + [MarkFailed(true)]).stored;
               row.Some? && row.value.status == Failed && row.value.exitCode == Some(0)
  {
    var acts := [Read(0), StoreSync(0, p, true), Execute(e, true)];
    FirstSync(prepared, p);
    ThreeActs(prepared, Begun(prepared), acts[0], acts[1], acts[2]);
    assert (acts + [MarkFailed(true)])[..3] == acts;
  }

  // ---------------------------------------------------------------------------
  // Single steps
  // ---------------------------------------------------------------------------

  /** A sync reports a change exactly when it moves a live row to a terminal state without error. */
  lemma SyncTrueIff(row: Row, p: Probe)
    ensures var o := SyncOutcome(row, p);
            o.result == Success(true) <==> !row.status.Terminal() && o.row.status.Terminal() && o.result.Success?
    ensures SyncOutcome(row, p).result == Success(false) ==> SyncOutcome(row, p).row == row
  {
  }

  /** A positive timeout has run out once that many whole seconds have passed; zero and negative
      ones, which truncation favours, up to a second earlier. */
  lemma OverdueIff(row: Row, now: int)
    ensures Overdue(row, now) <==>
            && row.timeoutSecs.Some? && row.startedAt.Some? && row.startedAt.value.At?
            && var secs, elapsed := row.timeoutSecs.value, now - row.startedAt.value.ms;
               if secs > 0 then elapsed >= 1000 * secs else elapsed > 1000 * (secs - 1)
  {
  }

  lemma HasSupervisorIff(row: Row)
    ensures HasSupervisor(row) <==>
            || row.supervisor == Some("tmux")
            || (row.stderrPath == None && exists base :: row.stdoutPath == Some(base + ".pty.log"))
  {
    if row.stdoutPath.Some? && EndsWith(row.stdoutPath.value, ".pty.log") {
      var path := row.stdoutPath.value;
      assert path == path[..|path| - 8] + ".pty.log";
    }
  }

  /** What the logs of a failed session say about why. */
  ghost predicate Blames(limitText: bool, tokenText: bool, reason: Option<EndReason>) {
    && (limitText ==> reason == Some(ProviderLimited))
    && (!limitText && tokenText ==> reason == Some(TokenExhausted))
    && (!limitText && !tokenText ==> reason == Some(RuntimeFailure))
  }

  /** A row that has ended with an exit code, or without one, and is otherwise as before. */
  ghost predicate EndedWith(row: Row, code: Option<int>, limitText: bool, tokenText: bool, after: Row) {
    && after == row.(status := after.status, exitCode := after.exitCode, endReason := after.endReason)
    && after.exitCode == (if code.Some? then code else row.exitCode)
    && (code == Some(0) ==> after.status == Status.Completed && after.endReason == Some(EndReason.Completed))
    && (code != Some(0) ==> after.status == Failed && Blames(limitText, tokenText, after.endReason))
  }

  /** A running one-shot before its deadline whose process is alive, or about to be recorded, is
      left alone. */
  lemma LiveProcessIsLeftAlone(row: Row, p: Probe)
    requires row.status == Running && !HasSupervisor(row) && !Overdue(row, p.now)
    requires p.pid.Success? && if p.pid.value.Some? then p.pidAlive else p.pidSidecar
    ensures SyncOutcome(row, p) == Outcome(row, Success(false))
  {
  }

  /** Before its deadline a running one-shot ends exactly if its pid could be read, its process is
      not alive, or, with no pid, none is about to be recorded, and the exit file could be read. It
      ends as that says, Failed if there is none, and the sync then errs exactly if the pid file
      stays. Otherwise nothing changes and it errs exactly if it could not read. */
  lemma OneshotEndsIff(row: Row, p: Probe)
    requires row.status == Running && !HasSupervisor(row) && !Overdue(row, p.now)
    ensures var o := SyncOutcome(row, p);
            var over := p.pid.Success? && if p.pid.value.Some? then !p.pidAlive else !p.pidSidecar;
            && (o.row.status.Terminal() <==> over && p.exitFile.Success?)
            && (o.row.status.Terminal() ==>
                  && EndedWith(row, p.exitFile.value, p.limitText, p.tokenText, o.row)
                  && o.result == if p.clearPid then Success(true) else Failure(()))
            && (!o.row.status.Terminal() ==>
                  o.row == row && o.result == if p.pid.Failure? || over then Failure(()) else Success(false))
  {
  }

  /** Before its deadline a running supervised session ends exactly if its supervisor reports an
      exit, as that says; otherwise nothing changes and the sync errs exactly if it was not told. */
  lemma SupervisedEndsIff(row: Row, p: Probe)
    requires row.status == Running && HasSupervisor(row) && !Overdue(row, p.now)
    ensures var o, exit := SyncOutcome(row, p), p.supervisorExit;
            && (o.row.status.Terminal() <==> exit.Success? && exit.value.Some?)
            && (o.row.status.Terminal() ==>
                  EndedWith(row, exit.value, p.limitText, p.tokenText, o.row) && o.result == Success(true))
            && (!o.row.status.Terminal() ==>
                  o.row == row && o.result == if exit.Failure? then Failure(()) else Success(false))
  {
  }

  /** A session that has ended, or is only prepared and before its deadline, is left alone. */
  lemma OthersAreLeftAlone(row: Row, p: Probe)
    requires row.status != Running && (row.status == Prepared ==> !Overdue(row, p.now))
    ensures SyncOutcome(row, p) == Outcome(row, Success(false))
  {
  }

  /** A live session that is stopped takes its reason, and its exit code only from the exit file of
      a supervised session that has none. A supervised one cannot be stopped exactly if that file
      cannot be read, any other exactly if its pid file cannot be read or removed. */
  ghost predicate StoppedBy(row: Row, p: Probe, status: Status, reason: EndReason, o: Outcome) {
    var supervised := row.status == Running && HasSupervisor(row);
    && (o.result.Failure? <==>
        if supervised then row.exitCode == None && p.exitFile.Failure? else p.pid.Failure? || !p.clearPid)
    && (o.result.Failure? ==> o.row == row)
    && (o.result.Success? ==>
          && o.result.value
          && o.row == row.(status := status, endReason := Some(reason), exitCode := o.row.exitCode)
          && (if supervised && row.exitCode == None then p.exitFile == Success(o.row.exitCode)
              else o.row.exitCode == row.exitCode))
  }

  lemma CancelEffect(row: Row, p: Probe, reason: EndReason)
    ensures row.status.Terminal() ==> CancelOutcome(row, p, reason) == Outcome(row, Success(false))
    ensures !row.status.Terminal() ==> StoppedBy(row, p, Cancelled, reason, CancelOutcome(row, p, reason))
  {
  }

  /** At or past its deadline a live session that can be stopped ends Failed with Timeout, even
      if its process had already finished well. */
  lemma OverdueEndsInTimeout(row: Row, p: Probe)
    requires !row.status.Terminal() && Overdue(row, p.now)
    ensures StoppedBy(row, p, Failed, Timeout, SyncOutcome(row, p))
  {
  }

  /** Executing stamps the start unless it is a dry run. Only a one-shot that was spawned, and whose
      logs could be written, ends here: Completed exactly on exit code 0. */
  lemma ExecuteEffect(row: Row, e: Launched)
    ensures var o := ExecuteOutcome(row, e);
            && (o.ok <==> row.dryRun || (e.setup && (row.supervisor.Some? || (e.logs && e.sidecars))))
            && (row.dryRun ==> o.row == row)
            && (!row.dryRun ==>
                  && o.row.startedAt == Some(At(e.now))
                  && o.row == row.(startedAt := o.row.startedAt, status := o.row.status, exitCode := o.row.exitCode,
                                   endReason := o.row.endReason)
                  && (if e.setup && row.supervisor == None && e.logs then
                        match e.exit
                        case ExitedWith(code) =>
                          EndedWith(row.(startedAt := Some(At(e.now))), Some(code), e.limitText, e.tokenText, o.row)
                        case Signalled =>
                          o.row.status == Failed && o.row.exitCode == None
                          && Blames(e.limitText, e.tokenText, o.row.endReason)
                      else
                        (o.row.status, o.row.exitCode, o.row.endReason) == (row.status, row.exitCode, row.endReason)))
  {
  }

  /** A prepared session is Prepared in a dry run and Running otherwise, has a supervisor exactly
      in pty mode, and no exit, reason or start. */
  lemma PreparedEffect(id: string, repoId: string, slotId: string, launch: Launch, dryRun: bool, timeout: Option<int>)
    ensures var row := PreparedRow(id, repoId, slotId, launch, dryRun, timeout);
            && row.id == id && row.repoId == repoId && row.slotId == slotId && row.timeoutSecs == timeout
            && row.dryRun == dryRun && (dryRun ==> row.status == Prepared) && (!dryRun ==> row.status == Running)
            && row.exitCode == None && row.endReason == None && row.startedAt == None
            && (HasSupervisor(row) <==> launch == Pty) && (launch == Pty ==> row.stderrPath == None)
  {
  }

  /** The cancel command stores a Cancelled row of a prepared or a supervised running copy that can
      be stopped, and nothing else; marking a failure keeps all but status and reason. */
  lemma CommandsStore(prepared: Row, w: World, a: nat, p: Probe, works: bool)
    requires a in w.held
    ensures var row, stored := w.held[a], Written(prepared, w, StoreCancel(a, p, works));
            && (stored.Some? <==>
                works && (row.status == Prepared || (row.status == Running && HasSupervisor(row)))
                && CancelOutcome(row, p, OperatorCancelled).result.Success?)
            && (stored.Some? ==> StoppedBy(row, p, Cancelled, OperatorCancelled, Outcome(stored.value, Success(true))))
    ensures var marked := Written(prepared, w, MarkFailed(works));
            && (marked.Some? <==> works && w.starter.Failing?)
            && (marked.Some? ==>
                  marked.value == w.starter.seen.(status := Failed, endReason := Some(RuntimeFailure)))
    ensures Deletes(w, Delete(a, works)) <==>
            works && (w.held[a].status.Completed? || w.held[a].status.Failed? || w.held[a].status.Cancelled?)
  {
    CancelEffect(w.held[a], p, OperatorCancelled);
  }

  // ---------------------------------------------------------------------------
  // The sweep over the store
  // ---------------------------------------------------------------------------

  predicate Selected(row: Row, repoId: Option<string>) {
    repoId.None? || row.repoId == repoId.value
  }

  ghost predicate Keyed(rows: map<string, Row>) {
    forall id :: id in rows ==> rows[id].id == id
  }

  /** What `list_sessions` answers: each selected row once. */
  ghost predicate Lists(listing: seq<Row>, rows: map<string, Row>, repoId: Option<string>) {
    && (forall i, j :: 0 <= i < j < |listing| ==> listing[i].id != listing[j].id)
    && (forall row :: row in listing <==>
          row.id in rows && rows[row.id] == row && (repoId == None || repoId == Some(row.repoId)))
  }

  /** What a sweep over the listed copies stores, in order, and whether it ends without error: the
      first error ends it. */
  function Sweep(listing: seq<Row>, probes: string -> Probe, writable: string -> bool): (seq<Row>, bool) {
    if listing == [] then ([], true)
    else
      var (stored, ok) := Sweep(listing[..|listing| - 1], probes, writable);
      var row := listing[|listing| - 1];
      var o := SyncOutcome(row, probes(row.id));
      if !ok || o.result.Failure? then (stored, false)
      else if !o.result.value then (stored, true)
      else if writable(row.id) then (stored + [o.row], true)
      else (stored, false)
  }

  lemma SyncKeepsId(row: Row, p: Probe)
    ensures SyncOutcome(row, p).row.id == row.id
  {
  }

  /** The sweep stores ended sessions only, that were live in the listing, each once. */
  lemma {:induction false} SweepStoresEnded(listing: seq<Row>, probes: string -> Probe, writable: string -> bool)
    requires forall i, j :: 0 <= i < j < |listing| ==> listing[i].id != listing[j].id
    ensures var stored := Sweep(listing, probes, writable).0;
            && (forall i, j :: 0 <= i < j < |stored| ==> stored[i].id != stored[j].id)
            && forall row :: row in stored ==>
                 row.status.Terminal() &&
                 exists x :: x in listing && x.id == row.id && !x.status.Terminal()
                     && SyncOutcome(x, probes(x.id)) == Outcome(row, Success(true))
  {
    if listing != [] {
      var init, x := listing[..|listing| - 1], listing[|listing| - 1];
      assert listing == init + [x];
      SweepStoresEnded(init, probes, writable);
      SyncTrueIff(x, probes(x.id));
      SyncKeepsId(x, probes(x.id));
      forall y | y in init ensures y.id != x.id {
        var i :| 0 <= i < |init| && init[i] == y;
        assert listing[i].id != listing[|init|].id;
      }
    }
  }

  /** Without an error it stores every row that a sync ended. */
  lemma {:induction false} SweepStoresAll(listing: seq<Row>, probes: string -> Probe, writable: string -> bool, x: Row)
    requires Sweep(listing, probes, writable).1 && x in listing && SyncOutcome(x, probes(x.id)).result == Success(true)
    ensures SyncOutcome(x, probes(x.id)).row in Sweep(listing, probes, writable).0
  {
    var init, last := listing[..|listing| - 1], listing[|listing| - 1];
    assert listing == init + [last];
    if x in init { SweepStoresAll(init, probes, writable, x); }
  }

  /** A change of the table: a store of this sweep, or a store or deletion by another process. */
  datatype Change = Ours(row: Row) | Theirs(row: Row) | Dropped(id: string)

  function Changed(rows: map<string, Row>, c: Change): map<string, Row> {
    match c
    case Ours(row) => rows[row.id := row]
    case Theirs(row) => rows[row.id := row]
    case Dropped(id) => rows - {id}
  }

  ghost function Replay(rows: map<string, Row>, log: seq<Change>): map<string, Row> {
    if log == [] then rows else Changed(Replay(rows, log[..|log| - 1]), log[|log| - 1])
  }

  ghost function OursIn(log: seq<Change>): seq<Row> {
    if log == [] then []
    else OursIn(log[..|log| - 1]) + match log[|log| - 1] case Ours(row) => [row] case _ => []
  }

  ghost function WithoutOurs(log: seq<Change>): seq<Change> {
    if log == [] then []
    else WithoutOurs(log[..|log| - 1]) + if log[|log| - 1].Ours? then [] else [log[|log| - 1]]
  }

  function LiveIds(rows: map<string, Row>): set<string> {
    set id | id in rows && !rows[id].status.Terminal()
  }

  lemma LogSnoc(rows: map<string, Row>, log: seq<Change>, c: Change)
    ensures Replay(rows, log + [c]) == Changed(Replay(rows, log), c)
    ensures OursIn(log + [c]) == OursIn(log) + if c.Ours? then [c.row] else []
    ensures WithoutOurs(log + [c]) == WithoutOurs(log) + if c.Ours? then [] else [c]
  {
    assert (log + [c])[..|log|] == log;
  }

  /** A sweep never brings a session to life: whatever others do meanwhile, the sessions live at
      the end would be live without its stores too. */
  lemma {:induction false} SweepNeverRevives(rows: map<string, Row>, log: seq<Change>)
    requires forall row :: row in OursIn(log) ==> row.status.Terminal()
    ensures LiveIds(Replay(rows, log)) <= LiveIds(Replay(rows, WithoutOurs(log)))
  {
    if log != [] {
      var init, c := log[..|log| - 1], log[|log| - 1];
      assert log == init + [c];
      LogSnoc(rows, init, c);
      SweepNeverRevives(rows, init);
      if c.Ours? {
        assert c.row in OursIn(log);
        assert WithoutOurs(log) == WithoutOurs(init);
      } else {
        LogSnoc(rows, WithoutOurs(init), c);
        assert OursIn(log) == OursIn(init);
        ChangeKeepsLive(Replay(rows, init), Replay(rows, WithoutOurs(init)), c);
      }
    }
  }

  lemma ChangeKeepsLive(a: map<string, Row>, b: map<string, Row>, c: Change)
    requires LiveIds(a) <= LiveIds(b) && !c.Ours?
    ensures LiveIds(Changed(a, c)) <= LiveIds(Changed(b, c))
  {
    forall id | id in LiveIds(Changed(a, c)) ensures id in LiveIds(Changed(b, c)) {
      assert (c.Theirs? && id == c.row.id) || id in LiveIds(a);
    }
  }

  lemma {:induction false} ReplayOurs(rows: map<string, Row>, log: seq<Change>, id: string)
    requires forall c :: c in log ==> c.Ours?
    requires forall i, j :: 0 <= i < j < |OursIn(log)| ==> OursIn(log)[i].id != OursIn(log)[j].id
    ensures var after := Replay(rows, log);
            && (forall row :: row in OursIn(log) && row.id == id ==> id in after && after[id] == row)
            && ((forall row :: row in OursIn(log) ==> row.id != id) ==>
               (id in after <==> id in rows) && (id in rows ==> after[id] == rows[id]))
  {
    if log != [] {
      var init, c := log[..|log| - 1], log[|log| - 1];
      assert log == init + [c] && c in log;
      LogSnoc(rows, init, c);
      var earlier, all := OursIn(init), OursIn(log);
      assert all == earlier + [c.row];
      forall i, j | 0 <= i < j < |earlier| ensures earlier[i].id != earlier[j].id {
        assert all[i] == earlier[i] && all[j] == earlier[j]; }
      ReplayOurs(rows, init, id);
      forall row | row in earlier ensures row.id != c.row.id {
        var i :| 0 <= i < |earlier| && earlier[i] == row;
        assert all[i].id != all[|earlier|].id;
      }
    }
  }

  /** What a sweep alone makes of one stored row. */
  function Swept(row: Row, repoId: Option<string>, p: Probe): Row {
    var o := SyncOutcome(row, p);
    if (repoId == None || repoId == Some(row.repoId)) && o.result == Success(true) then o.row else row
  }

  /** With nobody else at work, a sweep without error leaves each selected row synced and the
      others alone. */
  lemma SweepAlone(rows: map<string, Row>, log: seq<Change>, repoId: Option<string>, listing: seq<Row>,
                   probes: string -> Probe, writable: string -> bool, id: string)
    requires Keyed(rows) && Lists(listing, rows, repoId) && id in rows
    requires (forall c :: c in log ==> c.Ours?) && (OursIn(log), true) == Sweep(listing, probes, writable)
    ensures id in Replay(rows, log) && Replay(rows, log)[id] == Swept(rows[id], repoId, probes(id))
  {
    var row := rows[id];
    SweepStoresEnded(listing, probes, writable);
    ReplayOurs(rows, log, id);
    SyncKeepsId(row, probes(id));
    if row in listing && SyncOutcome(row, probes(id)).result == Success(true) {
      SweepStoresAll(listing, probes, writable, row);
    }
  }

  class SessionStore {
    var rows: map<string, Row>
    /** Every change of the table. */
    ghost var log: seq<Change>

    /** Other processes change the table. */
    method Others()
      modifies this
      ensures |log| >= |old(log)| && log[..|old(log)|] == old(log)
      ensures OursIn(log) == OursIn(old(log))
      ensures forall start :: Replay(start, old(log)) == old(rows) ==> Replay(start, log) == rows
    {
      var changes := Arbitrary();
      for i := 0 to |changes|
        invariant |log| >= |old(log)| && log[..|old(log)|] == old(log)
        invariant OursIn(log) == OursIn(old(log))
        invariant forall start :: Replay(start, old(log)) == old(rows) ==> Replay(start, log) == rows
      {
        var c := match changes[i] case Ours(row) => Theirs(row) case other => other;
        forall start ensures Replay(start, log + [c]) == Changed(Replay(start, log), c) { LogSnoc(start, log, c); }
        LogSnoc(rows, log, c);
        rows, log := Changed(rows, c), log + [c];
      }
    }

    method Arbitrary() returns (changes: seq<Change>) { changes := *; }

    method UpsertSession(row: Row)
      modifies this
      ensures rows == old(rows)[row.id := row] && log == old(log) + [Ours(row)]
    {
      rows, log := rows[row.id := row], log + [Ours(row)];
    }

    method ListSessions(repoId: Option<string>) returns (listing: seq<Row>)
      requires Keyed(rows)
      ensures Lists(listing, rows, repoId)
    {
      listing := [];
      var left := rows.Keys;
      while left != {}
        invariant left <= rows.Keys
        invariant forall i, j :: 0 <= i < j < |listing| ==> listing[i].id != listing[j].id
        invariant forall row :: row in listing <==>
                    row.id in rows && row.id !in left && rows[row.id] == row && Selected(row, repoId)
        decreases left
      {
        var id :| id in left;
        left := left - {id};
        if Selected(rows[id], repoId) { listing := listing + [rows[id]]; }
      }
    }

    /** `sync_runtime_state`: all selected rows are read first, then each copy is synced and, if
        that ended it, stored, with other processes changing the table at any time. */
    method SyncRuntimeState(repoId: Option<string>, probes: string -> Probe, writable: string -> bool)
      returns (ok: bool, ghost listing: seq<Row>)
      requires Keyed(rows) && log == []
      modifies this
      ensures Lists(listing, old(rows), repoId)
      ensures (OursIn(log), ok) == Sweep(listing, probes, writable)
      ensures rows == Replay(old(rows), log)
    {
      var sessions := ListSessions(repoId);
      listing := sessions;
      for i := 0 to |sessions|
        invariant (OursIn(log), true) == Sweep(sessions[..i], probes, writable)
        invariant rows == Replay(old(rows), log)
      {
        assert sessions[..i + 1][..i] == sessions[..i];
        SweepStopped(sessions, i + 1, probes, writable);
        Others();
        var row := sessions[i];
        var session := new SessionRecord(row);
        var changed := session.Sync(probes(row.id));
        if changed.Failure? { return false, sessions; }
        if changed.value {
          if !writable(row.id) { return false, sessions; }
          var synced := session.View();
          LogSnoc(old(rows), log, Ours(synced));
          UpsertSession(synced);
        }
      }
      assert sessions[..|sessions|] == sessions;
      ok := true;
    }
  }

  /** Once stopped, a sweep stores nothing more. */
  lemma {:induction false} SweepStopped(listing: seq<Row>, k: nat, probes: string -> Probe, writable: string -> bool)
    requires k <= |listing|
    ensures !Sweep(listing[..k], probes, writable).1 ==>
              Sweep(listing, probes, writable) == Sweep(listing[..k], probes, writable)
    decreases |listing|
  {
    if k < |listing| {
      var init := listing[..|listing| - 1];
      assert listing[..k] == init[..k];
      SweepStopped(init, k, probes, writable);
    } else {
      assert listing[..k] == listing;
    }
  }
}
