/** `EventBus::publish` and `EventBus::wait` as concurrent threads over one mutex and one
    condition variable, one atomic step at a time, in every interleaving. */
module WakeupProtocol {
  import opened Wrappers
  import opened EventBus

  /** The arguments of one `wait` call. */
  datatype Call = Call(since: nat, limit: nat, timeout: nat)

  datatype Reason = NewEvents | TimedOut | ZeroTimeout

  datatype PubPc<T> =
    | Idle
    | Locked(events: seq<T>)   // holds the mutex
    | Appended                 // holds the mutex, batch appended
    | Owes                     // mutex released, notify_all still to come

  /** `began` is when the condition-variable loop was entered. */
  datatype WaitPc<T> =
    | Resting
    | Entered(call: Call)                  // holds the mutex, before the first check
    | Looping(call: Call, began: nat)      // holds the mutex, inside wait_timeout_while
    | Asleep(call: Call, began: nat)       // mutex released, on the condition variable
    | Woken(call: Call, began: nat)        // notified, timed out or woken spuriously; wants the mutex
    | Returned(call: Call, began: nat, reason: Reason, result: PollResult<T>, at: nat)

  datatype Thread = Publisher(id: nat) | Waiter(id: nat)

  datatype State<T> = State(
    capacity: nat,
    log: seq<Entry<T>>,
    now: nat,
    holder: Option<Thread>,
    pubs: map<nat, PubPc<T>>,
    waiters: map<nat, WaitPc<T>>)

  datatype Action<T> =
    | Tick
    | PubLock(p: nat, events: seq<T>)
    | PubAppend(p: nat)
    | PubUnlock(p: nat)
    | PubNotify(p: nat)
    | WaitLock(w: nat, call: Call)
    | WaitEnterLoop(w: nat)
    | WaitSleep(w: nat)
    | WaitWake(w: nat)
    | WaitRelock(w: nat)
    | WaitReturn(w: nat)

  predicate HoldsPub<T>(pc: PubPc<T>) { pc.Locked? || pc.Appended? }

  predicate HoldsWait<T>(pc: WaitPc<T>) { pc.Entered? || pc.Looping? }

  /** The batch is in the log and its notification is still outstanding. */
  predicate Owing<T>(pc: PubPc<T>) { pc.Appended? || pc.Owes? }

  /** Why a thread that holds the mutex may return now, if it may. */
  function MayReturn<T>(s: State<T>, pc: WaitPc<T>): Option<Reason>
    requires HoldsWait(pc)
  {
    if |s.log| > pc.call.since then Some(NewEvents)
    else if pc.Entered? then (if pc.call.timeout == 0 then Some(ZeroTimeout) else None)
    else if s.now - pc.began >= pc.call.timeout then Some(TimedOut)
    else None
  }

  predicate Enabled<T>(s: State<T>, a: Action<T>) {
    match a
    case Tick => true
    case PubLock(p, events) => p in s.pubs && s.pubs[p].Idle? && |events| > 0 && s.holder.None?
    case PubAppend(p) => p in s.pubs && s.pubs[p].Locked?
    case PubUnlock(p) => p in s.pubs && s.pubs[p].Appended?
    case PubNotify(p) => p in s.pubs && s.pubs[p].Owes?
    case WaitLock(w, call) => w in s.waiters && (s.waiters[w].Resting? || s.waiters[w].Returned?) && s.holder.None?
    case WaitEnterLoop(w) => w in s.waiters && s.waiters[w].Entered? && MayReturn(s, s.waiters[w]).None?
    case WaitSleep(w) => w in s.waiters && s.waiters[w].Looping? && MayReturn(s, s.waiters[w]).None?
    case WaitWake(w) => w in s.waiters && s.waiters[w].Asleep?
    case WaitRelock(w) => w in s.waiters && s.waiters[w].Woken? && s.holder.None?
    case WaitReturn(w) => w in s.waiters && HoldsWait(s.waiters[w]) && MayReturn(s, s.waiters[w]).Some?
  }

  function Roused<T>(pc: WaitPc<T>): WaitPc<T> {
    if pc.Asleep? then Woken(pc.call, pc.began) else pc
  }

  function Apply<T>(s: State<T>, a: Action<T>): State<T>
    requires Enabled(s, a)
  {
    match a
    case Tick => s.(now := s.now + 1)
    case PubLock(p, events) => s.(holder := Some(Publisher(p)), pubs := s.pubs[p := Locked(events)])
    case PubAppend(p) => s.(log := s.log + Stamp(s.pubs[p].events, |s.log|, s.now), pubs := s.pubs[p := Appended])
    case PubUnlock(p) => s.(holder := None, pubs := s.pubs[p := Owes])
    case PubNotify(p) => s.(pubs := s.pubs[p := Idle], waiters := map w | w in s.waiters :: Roused(s.waiters[w]))
    case WaitLock(w, call) => s.(holder := Some(Waiter(w)), waiters := s.waiters[w := Entered(call)])
    case WaitEnterLoop(w) => s.(waiters := s.waiters[w := Looping(s.waiters[w].call, s.now)])
    case WaitSleep(w) => s.(holder := None, waiters := s.waiters[w := Asleep(s.waiters[w].call, s.waiters[w].began)])
    case WaitWake(w) => s.(waiters := s.waiters[w := Roused(s.waiters[w])])
    case WaitRelock(w) =>
      s.(holder := Some(Waiter(w)), waiters := s.waiters[w := Looping(s.waiters[w].call, s.waiters[w].began)])
    case WaitReturn(w) =>
      var pc := s.waiters[w];
      var began := if pc.Entered? then s.now else pc.began;
      var result := PollLog(s.log, s.capacity, pc.call.since, pc.call.limit);
      s.(holder := None, waiters := s.waiters[w := Returned(pc.call, began, MayReturn(s, pc).value, result, s.now)])
  }

  /** A scheduler may pick any action; one that is not enabled does nothing. */
  function Exec<T>(s: State<T>, a: Action<T>): State<T> {
    if Enabled(s, a) then Apply(s, a) else s
  }

  function Run<T>(s: State<T>, schedule: seq<Action<T>>): State<T>
    decreases |schedule|
  {
    if schedule == [] then s else Exec(Run(s, schedule[..|schedule| - 1]), schedule[|schedule| - 1])
  }

  ghost predicate Initial<T>(s: State<T>) {
    && s.log == [] && s.holder == None
    && (forall p :: p in s.pubs ==> s.pubs[p] == Idle)
    && (forall w :: w in s.waiters ==> s.waiters[w] == Resting)
  }

  // ---------------------------------------------------------------------------
  // Invariants
  // ---------------------------------------------------------------------------

  /** The recorded holder, and nobody else, is at a program point that holds the mutex. */
  ghost predicate Exclusive<T>(s: State<T>) {
    && (forall p :: p in s.pubs ==> (HoldsPub(s.pubs[p]) <==> s.holder == Some(Publisher(p))))
    && (forall w :: w in s.waiters ==> (HoldsWait(s.waiters[w]) <==> s.holder == Some(Waiter(w))))
    && (forall p :: p in s.pubs && s.pubs[p].Locked? ==> |s.pubs[p].events| > 0)
  }

  ghost predicate SomeoneOwes<T>(s: State<T>) {
    exists p :: p in s.pubs && Owing(s.pubs[p])
  }

  /** A waiter asleep although newer events exist: some publisher still owes its notification. */
  ghost predicate NoLostWakeup<T>(s: State<T>) {
    forall w :: w in s.waiters && s.waiters[w].Asleep? && s.waiters[w].call.since < |s.log| ==> SomeoneOwes(s)
  }

  /** A finished wait answered as a poll of the log as it stood at its return, for its stated reason. */
  ghost predicate Honest<T>(log: seq<Entry<T>>, capacity: nat, pc: WaitPc<T>)
    requires pc.Returned?
  {
    && pc.result.headSeq <= |log|
    && pc.result == PollLog(log[..pc.result.headSeq], capacity, pc.call.since, pc.call.limit)
    && (pc.reason == NewEvents <==> pc.result.headSeq > pc.call.since)
    && (pc.reason == TimedOut ==> pc.at - pc.began >= pc.call.timeout)
    && (pc.reason == ZeroTimeout ==> pc.call.timeout == 0)
  }

  ghost predicate HonestReturns<T>(s: State<T>) {
    forall w :: w in s.waiters && s.waiters[w].Returned? ==> Honest(s.log, s.capacity, s.waiters[w])
  }

  ghost predicate Inv<T>(s: State<T>) {
    Numbered(s.log) && Exclusive(s) && NoLostWakeup(s) && HonestReturns(s)
  }

  lemma ExecKeepsExclusive<T>(s: State<T>, a: Action<T>)
    requires Exclusive(s)
    ensures Exclusive(Exec(s, a))
  {
  }

  lemma ExecKeepsWakeups<T>(s: State<T>, a: Action<T>)
    requires NoLostWakeup(s)
    ensures NoLostWakeup(Exec(s, a))
  {
    var t := Exec(s, a);
    if SomeoneOwes(s) && !a.PubNotify? {
      var p :| p in s.pubs && Owing(s.pubs[p]);
      assert p in t.pubs && Owing(t.pubs[p]);
    }
    if a.PubAppend? && Enabled(s, a) {
      assert a.p in t.pubs && Owing(t.pubs[a.p]);
    }
  }

  lemma ExecKeepsNumbered<T>(s: State<T>, a: Action<T>)
    requires Numbered(s.log)
    ensures Numbered(Exec(s, a).log) && |s.log| <= |Exec(s, a).log| && Exec(s, a).log[..|s.log|] == s.log
  {
  }

  lemma HonestLater<T>(log: seq<Entry<T>>, later: seq<Entry<T>>, capacity: nat, pc: WaitPc<T>)
    requires pc.Returned? && Honest(log, capacity, pc)
    requires |log| <= |later| && later[..|log|] == log
    ensures Honest(later, capacity, pc)
  {
    assert later[..pc.result.headSeq] == log[..pc.result.headSeq];
  }

  lemma ExecKeepsHonest<T>(s: State<T>, a: Action<T>)
    requires Numbered(s.log) && HonestReturns(s)
    ensures HonestReturns(Exec(s, a))
  {
    var t := Exec(s, a);
    ExecKeepsNumbered(s, a);
    forall w | w in t.waiters && t.waiters[w].Returned? ensures Honest(t.log, t.capacity, t.waiters[w]) {
      if w in s.waiters && t.waiters[w] == s.waiters[w] {
        HonestLater(s.log, t.log, s.capacity, s.waiters[w]);
      } else {
        assert s.log[..|s.log|] == s.log;
      }
    }
  }

  lemma {:induction false} RunKeepsInv<T>(s: State<T>, schedule: seq<Action<T>>)
    requires Initial(s)
    ensures Inv(Run(s, schedule))
    decreases |schedule|
  {
    if schedule != [] {
      var before, a := Run(s, schedule[..|schedule| - 1]), schedule[|schedule| - 1];
      RunKeepsInv(s, schedule[..|schedule| - 1]);
      ExecKeepsExclusive(before, a);
      ExecKeepsWakeups(before, a);
      ExecKeepsNumbered(before, a);
      ExecKeepsHonest(before, a);
    }
  }

  // ---------------------------------------------------------------------------
  // What every schedule guarantees
  // ---------------------------------------------------------------------------

  /** At most one thread is inside the mutex. */
  lemma MutualExclusion<T>(s: State<T>, schedule: seq<Action<T>>, p: nat, q: nat, w: nat, v: nat)
    requires Initial(s)
    ensures var t := Run(s, schedule);
            && (p in t.pubs && q in t.pubs && HoldsPub(t.pubs[p]) && HoldsPub(t.pubs[q]) ==> p == q)
            && (p in t.pubs && w in t.waiters && HoldsPub(t.pubs[p]) ==> !HoldsWait(t.waiters[w]))
            && (w in t.waiters && v in t.waiters && HoldsWait(t.waiters[w]) && HoldsWait(t.waiters[v]) ==> w == v)
  {
    RunKeepsInv(s, schedule);
  }

  /** No wakeup is lost: a waiter that sleeps on although newer events exist will be woken by a
      publisher that needs at most to release the mutex and notify, and needs nobody's leave. */
  lemma StaleSleeperIsWoken<T>(s: State<T>, schedule: seq<Action<T>>, w: nat) returns (p: nat)
    requires Initial(s)
    requires w in Run(s, schedule).waiters && Run(s, schedule).waiters[w].Asleep?
    requires Run(s, schedule).waiters[w].call.since < |Run(s, schedule).log|
    ensures var t := Exec(Exec(Run(s, schedule), PubUnlock(p)), PubNotify(p));
            w in t.waiters && t.waiters[w].Woken?
  {
    RunKeepsInv(s, schedule);
    var t := Run(s, schedule);
    p :| p in t.pubs && Owing(t.pubs[p]);
  }

  /** Once every publisher is idle again, nobody sleeps through an event. */
  lemma QuietMeansNoStaleSleeper<T>(s: State<T>, schedule: seq<Action<T>>, w: nat)
    requires Initial(s)
    requires forall p :: p in Run(s, schedule).pubs ==> Run(s, schedule).pubs[p].Idle?
    requires w in Run(s, schedule).waiters && Run(s, schedule).waiters[w].Asleep?
    ensures Run(s, schedule).waiters[w].call.since >= |Run(s, schedule).log|
  {
    RunKeepsInv(s, schedule);
  }

  /** When a waiter that holds the mutex may return, and as what: with news, at once under a zero
      timeout when it has just come in, and at its deadline once it has slept. Otherwise it goes on
      into the loop or to sleep. */
  lemma ReturnsIff<T>(s: State<T>, w: nat)
    requires w in s.waiters
    ensures var pc := s.waiters[w];
            && (Enabled(s, WaitReturn(w)) <==>
                match pc
                case Entered(call) => |s.log| > call.since || call.timeout == 0
                case Looping(call, began) => |s.log| > call.since || s.now >= began + call.timeout
                case _ => false)
            && (Enabled(s, WaitEnterLoop(w)) <==> pc.Entered? && |s.log| <= pc.call.since && pc.call.timeout > 0)
            && (Enabled(s, WaitSleep(w)) <==>
                pc.Looping? && |s.log| <= pc.call.since && s.now < pc.began + pc.call.timeout)
  {
  }

  /** A waiter awake at its deadline, or with news, that gets the mutex comes back with its next
      step, with all there is to poll. */
  lemma WokenReturns<T>(s: State<T>, schedule: seq<Action<T>>, w: nat)
    requires w in Run(s, schedule).waiters && Run(s, schedule).waiters[w].Woken?
    requires var t, pc := Run(s, schedule), Run(s, schedule).waiters[w];
             t.holder == None && (t.now >= pc.began + pc.call.timeout || |t.log| > pc.call.since)
    ensures var t, pc := Run(s, schedule), Run(s, schedule).waiters[w];
            var next := Exec(Exec(t, WaitRelock(w)), WaitReturn(w));
            && next.holder == None
            && next.waiters[w] == Returned(pc.call, pc.began, if |t.log| > pc.call.since then NewEvents else TimedOut,
                                           PollLog(t.log, t.capacity, pc.call.since, pc.call.limit), t.now)
  {
  }

  /** A wait comes back only with something newer than its cursor, at its deadline, or at once
      under a zero timeout; what it brings is a poll of a prefix of the published log, and is
      empty exactly when nothing newer was there or the limit was zero. */
  lemma WaitReturnsHonestly<T>(s: State<T>, schedule: seq<Action<T>>, w: nat)
    requires Initial(s)
    requires w in Run(s, schedule).waiters && Run(s, schedule).waiters[w].Returned?
    ensures var t := Run(s, schedule);
            var pc := t.waiters[w];
            && pc.result.headSeq <= |t.log|
            && pc.result == PollLog(t.log[..pc.result.headSeq], t.capacity, pc.call.since, pc.call.limit)
            && (pc.result.headSeq > pc.call.since || pc.at - pc.began >= pc.call.timeout || pc.call.timeout == 0)
            && (pc.reason == NewEvents <==> pc.result.headSeq > pc.call.since)
            && (pc.result.entries != [] <==> pc.reason == NewEvents && pc.call.limit > 0)
  {
    RunKeepsInv(s, schedule);
    var t := Run(s, schedule);
    var pc := t.waiters[w];
    assert Honest(t.log, t.capacity, pc);
    PollNonemptyIff(t.log[..pc.result.headSeq], t.capacity, pc.call.since, pc.call.limit);
  }
}
