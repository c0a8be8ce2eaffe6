/** The review summary of snapshot.rs: loops and a hash map against declarative counts, and how
    the per-repository reviews add up to the global one. */
module Review {
  import opened Wrappers
  import Session

  datatype SlotStatus = Active | Released | Missing

  datatype Fingerprint = Unknown | Ready | Stale | Absent

  datatype Slot = Slot(id: string, repoId: string, status: SlotStatus, dirty: bool, warm: bool,
                         fingerprint: Fingerprint)

  /** What the summary sees of a session. */
  datatype SessionView = SessionView(id: string, repoId: string, slotId: string, status: Session.Status)

  datatype Warning =
    | Overlap(text: string)
    | FailedSession(slotId: string, sessionId: string)
    | DirtySlot(slotId: string)
    | StaleActiveSlot(slotId: string)
    | StaleWarmSlot(slotId: string)
    | MissingSlot(slotId: string)
    | SlotBusy(slotId: string, pending: nat)
    | SlotMultiSession(slotId: string)

  datatype Counts = Counts(dirty: nat, stale: nat, active: nat, releasable: nat, pending: nat, completed: nat,
                           failed: nat)

  datatype Summary = Summary(counts: Counts, warnings: seq<Warning>)

  // ---------------------------------------------------------------------------
  // Declarative counts
  // ---------------------------------------------------------------------------

  datatype SlotKind = DirtyKind | StaleKind | ActiveKind

  predicate SlotIs(s: Slot, k: SlotKind) {
    match k
    case DirtyKind => s.dirty
    case StaleKind => s.fingerprint == Stale
    case ActiveKind => s.status == Active
  }

  datatype SessionKind = PendingKind | CompletedKind | FailedKind

  predicate SessionIs(s: SessionView, k: SessionKind) {
    match k
    case PendingKind => !s.status.Terminal()
    case CompletedKind => s.status.Completed?
    case FailedKind => s.status.Failed?
  }

  function CountSlots(slots: seq<Slot>, k: SlotKind): nat {
    if slots == [] then 0
    else CountSlots(slots[..|slots| - 1], k) + if SlotIs(slots[|slots| - 1], k) then 1 else 0
  }

  function CountSessions(sessions: seq<SessionView>, k: SessionKind): nat {
    if sessions == [] then 0
    else CountSessions(sessions[..|sessions| - 1], k) + if SessionIs(sessions[|sessions| - 1], k) then 1 else 0
  }

  /** Pending sessions on a slot. */
  function PendingOn(sessions: seq<SessionView>, slotId: string): nat {
    if sessions == [] then 0
    else
      var x := sessions[|sessions| - 1];
      PendingOn(sessions[..|sessions| - 1], slotId) + if x.slotId == slotId && !x.status.Terminal() then 1 else 0
  }

  /** Active, clean and with a current fingerprint. */
  predicate Settled(s: Slot) {
    s.status == Active && !s.dirty && s.fingerprint == Ready
  }

  function Releasable(slots: seq<Slot>, sessions: seq<SessionView>): nat {
    if slots == [] then 0
    else
      var s := slots[|slots| - 1];
      Releasable(slots[..|slots| - 1], sessions) + if Settled(s) && PendingOn(sessions, s.id) == 0 then 1 else 0
  }

  function CountsOf(slots: seq<Slot>, sessions: seq<SessionView>): Counts {
    Counts(CountSlots(slots, DirtyKind), CountSlots(slots, StaleKind), CountSlots(slots, ActiveKind),
           Releasable(slots, sessions),
           CountSessions(sessions, PendingKind), CountSessions(sessions, CompletedKind),
           CountSessions(sessions, FailedKind))
  }

  function PushIf(ws: seq<Warning>, condition: bool, w: Warning): seq<Warning> {
    if condition then ws + [w] else ws
  }

  /** `base` followed by a warning for each failed session. */
  function SessionWarnings(base: seq<Warning>, sessions: seq<SessionView>): seq<Warning> {
    if sessions == [] then base
    else
      var x := sessions[|sessions| - 1];
      PushIf(SessionWarnings(base, sessions[..|sessions| - 1]), x.status.Failed?, FailedSession(x.slotId, x.id))
  }

  /** `base` followed by one slot's warnings, in the order the source checks for them. */
  function SlotWarning(base: seq<Warning>, s: Slot, pending: nat): seq<Warning> {
    var a := PushIf(base, s.status == Active && s.dirty, DirtySlot(s.id));
    var b := PushIf(a, s.status == Active && s.fingerprint == Stale, StaleActiveSlot(s.id));
    var c := PushIf(b, s.warm && s.status == Released && s.fingerprint == Stale, StaleWarmSlot(s.id));
    var d := PushIf(c, s.status == Missing, MissingSlot(s.id));
    var e := PushIf(d, pending > 0, SlotBusy(s.id, pending));
    PushIf(e, pending > 1, SlotMultiSession(s.id))
  }

  function SlotWarnings(base: seq<Warning>, slots: seq<Slot>, sessions: seq<SessionView>): seq<Warning> {
    if slots == [] then base
    else
      var s := slots[|slots| - 1];
      SlotWarning(SlotWarnings(base, slots[..|slots| - 1], sessions), s, PendingOn(sessions, s.id))
  }

  // ---------------------------------------------------------------------------
  // The loops
  // ---------------------------------------------------------------------------

  /** The map holds exactly the slots with pending sessions, and how many. */
  ghost predicate Tallies(pending: map<string, nat>, sessions: seq<SessionView>) {
    forall id :: (id in pending <==> PendingOn(sessions, id) > 0)
                 && (id in pending ==> pending[id] == PendingOn(sessions, id))
  }

  method SessionLoop(sessions: seq<SessionView>, overlaps: seq<Warning>)
    returns (completed: nat, failed: nat, pendingCount: nat, warnings: seq<Warning>, pending: map<string, nat>)
    ensures completed == CountSessions(sessions, CompletedKind)
    ensures failed == CountSessions(sessions, FailedKind)
    ensures pendingCount == CountSessions(sessions, PendingKind)
    ensures warnings == SessionWarnings(overlaps, sessions)
    ensures Tallies(pending, sessions)
  {
    completed, failed, pendingCount, warnings, pending := 0, 0, 0, overlaps, map[];
    for i := 0 to |sessions|
      invariant completed == CountSessions(sessions[..i], CompletedKind)
      invariant failed == CountSessions(sessions[..i], FailedKind)
      invariant pendingCount == CountSessions(sessions[..i], PendingKind)
      invariant warnings == SessionWarnings(overlaps, sessions[..i])
      invariant Tallies(pending, sessions[..i])
    {
      var x := sessions[i];
      assert sessions[..i + 1][..i] == sessions[..i];
      if x.status.Completed? {
        completed := completed + 1;
      } else if x.status.Failed? {
        failed := failed + 1;
        warnings := warnings + [FailedSession(x.slotId, x.id)];
      }
      if !x.status.Terminal() {
        pendingCount := pendingCount + 1;
        pending := pending[x.slotId := (if x.slotId in pending then pending[x.slotId] else 0) + 1];
      }
    }
    assert sessions[..|sessions|] == sessions;
  }

  method WarnAbout(ws: seq<Warning>, s: Slot, pending: nat) returns (r: seq<Warning>)
    ensures r == SlotWarning(ws, s, pending)
  {
    r := ws;
    if s.status == Active && s.dirty { r := r + [DirtySlot(s.id)]; }
    if s.status == Active && s.fingerprint == Stale { r := r + [StaleActiveSlot(s.id)]; }
    if s.warm && s.status == Released && s.fingerprint == Stale { r := r + [StaleWarmSlot(s.id)]; }
    if s.status == Missing { r := r + [MissingSlot(s.id)]; }
    if pending > 0 { r := r + [SlotBusy(s.id, pending)]; }
    if pending > 1 { r := r + [SlotMultiSession(s.id)]; }
  }

  /** `overlaps` is what overlap detection reported for these slots. */
  method BuildReviewSummary(slots: seq<Slot>, sessions: seq<SessionView>, overlaps: seq<Warning>) returns (r: Summary)
    ensures r.counts == CountsOf(slots, sessions)
    ensures r.warnings == SlotWarnings(SessionWarnings(overlaps, sessions), slots, sessions)
  {
    var completed, failed, pendingCount, warnings, pending := SessionLoop(sessions, overlaps);
    var head := warnings;
    var active, dirty, stale, releasable := 0, 0, 0, 0;
    for i := 0 to |slots|
      invariant active == CountSlots(slots[..i], ActiveKind)
      invariant dirty == CountSlots(slots[..i], DirtyKind)
      invariant stale == CountSlots(slots[..i], StaleKind)
      invariant releasable == Releasable(slots[..i], sessions)
      invariant warnings == SlotWarnings(head, slots[..i], sessions)
    {
      var s := slots[i];
      assert slots[..i + 1][..i] == slots[..i];
      if s.status == Active { active := active + 1; }
      if s.dirty { dirty := dirty + 1; }
      if s.fingerprint == Stale { stale := stale + 1; }
      var n := if s.id in pending then pending[s.id] else 0;
      assert n == PendingOn(sessions, s.id);
      if s.status == Active && !s.dirty && s.fingerprint == Ready && n == 0 {
        releasable := releasable + 1;
      }
      warnings := WarnAbout(warnings, s, n);
    }
    assert slots[..|slots|] == slots;
    r := Summary(Counts(dirty, stale, active, releasable, pendingCount, completed, failed), warnings);
  }

  // ---------------------------------------------------------------------------
  // Per-repository reviews
  // ---------------------------------------------------------------------------

  function SlotsIn(slots: seq<Slot>, repos: set<string>): seq<Slot> {
    if slots == [] then []
    else
      var rest := SlotsIn(slots[..|slots| - 1], repos);
      if slots[|slots| - 1].repoId in repos then rest + [slots[|slots| - 1]] else rest
  }

  function SessionsIn(sessions: seq<SessionView>, repos: set<string>): seq<SessionView> {
    if sessions == [] then []
    else
      var rest := SessionsIn(sessions[..|sessions| - 1], repos);
      if sessions[|sessions| - 1].repoId in repos then rest + [sessions[|sessions| - 1]] else rest
  }

  method ReviewForRepo(slots: seq<Slot>, sessions: seq<SessionView>, global: Summary, repoId: Option<string>,
                       overlaps: seq<Warning>) returns (r: Summary)
    ensures repoId.None? ==> r == global
    ensures repoId.Some? ==> r.counts == CountsOf(SlotsIn(slots, {repoId.value}), SessionsIn(sessions, {repoId.value}))
  {
    match repoId {
      case None => r := global;
      case Some(id) => r := BuildReviewSummary(SlotsIn(slots, {id}), SessionsIn(sessions, {id}), overlaps);
    }
  }

  function Plus(a: Counts, b: Counts): Counts {
    Counts(a.dirty + b.dirty, a.stale + b.stale, a.active + b.active, a.releasable + b.releasable,
           a.pending + b.pending, a.completed + b.completed, a.failed + b.failed)
  }

  /** The per-repository reviews of the listed repositories, added up. */
  function AddUp(slots: seq<Slot>, sessions: seq<SessionView>, repos: seq<string>): Counts {
    if repos == [] then Counts(0, 0, 0, 0, 0, 0, 0)
    else
      var r := repos[|repos| - 1];
      Plus(AddUp(slots, sessions, repos[..|repos| - 1]), CountsOf(SlotsIn(slots, {r}), SessionsIn(sessions, {r})))
  }

  /** Pending sessions on a slot that also carry the slot's repository. */
  function OwnPending(sessions: seq<SessionView>, s: Slot): nat {
    PendingOn(SessionsIn(sessions, {s.repoId}), s.id)
  }

  /** A settled slot kept busy only by sessions recorded under other repositories. */
  predicate HiddenBusy(s: Slot, sessions: seq<SessionView>) {
    Settled(s) && PendingOn(sessions, s.id) > 0 && OwnPending(sessions, s) == 0
  }

  function CountHidden(slots: seq<Slot>, sessions: seq<SessionView>): nat {
    if slots == [] then 0
    else CountHidden(slots[..|slots| - 1], sessions) + if HiddenBusy(slots[|slots| - 1], sessions) then 1 else 0
  }

  // Counts restricted to a set of repositories, without building the filtered lists.

  function SlotsOf(slots: seq<Slot>, repos: set<string>, k: SlotKind): nat {
    if slots == [] then 0
    else
      var s := slots[|slots| - 1];
      SlotsOf(slots[..|slots| - 1], repos, k) + if s.repoId in repos && SlotIs(s, k) then 1 else 0
  }

  function SessionsOf(sessions: seq<SessionView>, repos: set<string>, k: SessionKind): nat {
    if sessions == [] then 0
    else
      var x := sessions[|sessions| - 1];
      SessionsOf(sessions[..|sessions| - 1], repos, k) + if x.repoId in repos && SessionIs(x, k) then 1 else 0
  }

  function LocalOf(slots: seq<Slot>, repos: set<string>, sessions: seq<SessionView>): nat {
    if slots == [] then 0
    else
      var s := slots[|slots| - 1];
      LocalOf(slots[..|slots| - 1], repos, sessions)
      + if s.repoId in repos && Settled(s) && OwnPending(sessions, s) == 0 then 1 else 0
  }

  function UnionCounts(slots: seq<Slot>, sessions: seq<SessionView>, repos: set<string>): Counts {
    Counts(SlotsOf(slots, repos, DirtyKind), SlotsOf(slots, repos, StaleKind), SlotsOf(slots, repos, ActiveKind),
           LocalOf(slots, repos, sessions),
           SessionsOf(sessions, repos, PendingKind), SessionsOf(sessions, repos, CompletedKind),
               SessionsOf(sessions, repos, FailedKind))
  }

  lemma {:induction false} CountFiltered(slots: seq<Slot>, repos: set<string>, k: SlotKind)
    ensures CountSlots(SlotsIn(slots, repos), k) == SlotsOf(slots, repos, k)
  {
    if slots != [] {
      var init, s := slots[..|slots| - 1], slots[|slots| - 1];
      CountFiltered(init, repos, k);
      assert (SlotsIn(init, repos) + [s])[..|SlotsIn(init, repos)|] == SlotsIn(init, repos);
    }
  }

  lemma {:induction false} CountFilteredSessions(sessions: seq<SessionView>, repos: set<string>, k: SessionKind)
    ensures CountSessions(SessionsIn(sessions, repos), k) == SessionsOf(sessions, repos, k)
  {
    if sessions != [] {
      var init, x := sessions[..|sessions| - 1], sessions[|sessions| - 1];
      CountFilteredSessions(init, repos, k);
      assert (SessionsIn(init, repos) + [x])[..|SessionsIn(init, repos)|] == SessionsIn(init, repos);
    }
  }

  lemma ReleasableNext(slots: seq<Slot>, s: Slot, sessions: seq<SessionView>)
    ensures Releasable(slots + [s], sessions)
            == Releasable(slots, sessions) + if Settled(s) && PendingOn(sessions, s.id) == 0 then 1 else 0
  {
    assert (slots + [s])[..|slots|] == slots;
  }

  /** In one repository's review, releasable means locally releasable. */
  lemma {:induction false} ReleasableFiltered(slots: seq<Slot>, r: string, sessions: seq<SessionView>)
    ensures Releasable(SlotsIn(slots, {r}), SessionsIn(sessions, {r})) == LocalOf(slots, {r}, sessions)
  {
    if slots != [] {
      var init, s := slots[..|slots| - 1], slots[|slots| - 1];
      ReleasableFiltered(init, r, sessions);
      ReleasableNext(SlotsIn(init, {r}), s, SessionsIn(sessions, {r}));
    }
  }

  lemma OneRepoCounts(slots: seq<Slot>, sessions: seq<SessionView>, r: string)
    ensures CountsOf(SlotsIn(slots, {r}), SessionsIn(sessions, {r})) == UnionCounts(slots, sessions, {r})
  {
    CountFiltered(slots, {r}, DirtyKind);
    CountFiltered(slots, {r}, StaleKind);
    CountFiltered(slots, {r}, ActiveKind);
    ReleasableFiltered(slots, r, sessions);
    CountFilteredSessions(sessions, {r}, PendingKind);
    CountFilteredSessions(sessions, {r}, CompletedKind);
    CountFilteredSessions(sessions, {r}, FailedKind);
  }

  /** Disjoint sets of repositories `a` and `b` contribute separately to their union `c`. */
  ghost predicate Splits(a: set<string>, b: set<string>, c: set<string>) {
    forall r :: (r in c <==> r in a || r in b) && !(r in a && r in b)
  }

  lemma {:induction false} SlotsSplit(slots: seq<Slot>, a: set<string>, b: set<string>, c: set<string>, k: SlotKind,
                                      sessions: seq<SessionView>)
    requires Splits(a, b, c)
    ensures SlotsOf(slots, c, k) == SlotsOf(slots, a, k) + SlotsOf(slots, b, k)
    ensures LocalOf(slots, c, sessions) == LocalOf(slots, a, sessions) + LocalOf(slots, b, sessions)
  {
    if slots != [] { SlotsSplit(slots[..|slots| - 1], a, b, c, k, sessions); }
  }

  lemma {:induction false} SessionsSplit(sessions: seq<SessionView>, a: set<string>, b: set<string>, c: set<string>,
                                         k: SessionKind)
    requires Splits(a, b, c)
    ensures SessionsOf(sessions, c, k) == SessionsOf(sessions, a, k) + SessionsOf(sessions, b, k)
  {
    if sessions != [] { SessionsSplit(sessions[..|sessions| - 1], a, b, c, k); }
  }

  lemma AllSlotKindsSplit(slots: seq<Slot>, a: set<string>, b: set<string>, c: set<string>, sessions: seq<SessionView>)
    requires Splits(a, b, c)
    ensures forall k :: SlotsOf(slots, c, k) == SlotsOf(slots, a, k) + SlotsOf(slots, b, k)
  {
    forall k ensures SlotsOf(slots, c, k) == SlotsOf(slots, a, k) + SlotsOf(slots, b, k) {
      SlotsSplit(slots, a, b, c, k, sessions);
    }
  }

  lemma AllSessionKindsSplit(sessions: seq<SessionView>, a: set<string>, b: set<string>, c: set<string>)
    requires Splits(a, b, c)
    ensures forall k :: SessionsOf(sessions, c, k) == SessionsOf(sessions, a, k) + SessionsOf(sessions, b, k)
  {
    forall k ensures SessionsOf(sessions, c, k) == SessionsOf(sessions, a, k) + SessionsOf(sessions, b, k) {
      SessionsSplit(sessions, a, b, c, k);
    }
  }

  lemma PlusUnion(slots: seq<Slot>, sessions: seq<SessionView>, a: set<string>, b: set<string>, c: set<string>)
    requires forall k :: SlotsOf(slots, c, k) == SlotsOf(slots, a, k) + SlotsOf(slots, b, k)
    requires forall k :: SessionsOf(sessions, c, k) == SessionsOf(sessions, a, k) + SessionsOf(sessions, b, k)
    requires LocalOf(slots, c, sessions) == LocalOf(slots, a, sessions) + LocalOf(slots, b, sessions)
    ensures UnionCounts(slots, sessions, c) == Plus(UnionCounts(slots, sessions, a), UnionCounts(slots, sessions, b))
  {
  }

  lemma UnionSplit(slots: seq<Slot>, sessions: seq<SessionView>, a: set<string>, b: set<string>, c: set<string>)
    requires Splits(a, b, c)
    ensures UnionCounts(slots, sessions, c) == Plus(UnionCounts(slots, sessions, a), UnionCounts(slots, sessions, b))
  {
    AllSlotKindsSplit(slots, a, b, c, sessions);
    AllSessionKindsSplit(sessions, a, b, c);
    SlotsSplit(slots, a, b, c, DirtyKind, sessions);
    PlusUnion(slots, sessions, a, b, c);
  }

  function RepoSet(repos: seq<string>): set<string> { set r | r in repos }

  ghost predicate Distinct(repos: seq<string>) {
    forall i, j :: 0 <= i < j < |repos| ==> repos[i] != repos[j]
  }

  lemma RepoSetSnoc(repos: seq<string>, r: string)
    requires Distinct(repos + [r])
    ensures Splits(RepoSet(repos), {r}, RepoSet(repos + [r]))
  {
    var all := repos + [r];
    assert all[|repos|] == r;
    forall i | 0 <= i < |repos| ensures repos[i] != r { assert all[i] == repos[i] && all[i] != all[|repos|]; }
  }

  /** What the listed repositories' reviews add up to. */
  lemma {:induction false} AddUpIsUnion(slots: seq<Slot>, sessions: seq<SessionView>, repos: seq<string>)
    requires Distinct(repos)
    ensures AddUp(slots, sessions, repos) == UnionCounts(slots, sessions, RepoSet(repos))
  {
    if repos == [] {
      CountNone(slots, sessions, RepoSet(repos));
    } else {
      var init, r := repos[..|repos| - 1], repos[|repos| - 1];
      assert repos == init + [r];
      AddUpIsUnion(slots, sessions, init);
      RepoSetSnoc(init, r);
      UnionSplit(slots, sessions, RepoSet(init), {r}, RepoSet(repos));
      OneRepoCounts(slots, sessions, r);
    }
  }

  lemma {:induction false} CountNone(slots: seq<Slot>, sessions: seq<SessionView>, repos: set<string>)
    requires repos == {}
    ensures UnionCounts(slots, sessions, repos) == Counts(0, 0, 0, 0, 0, 0, 0)
    decreases |slots| + |sessions|
  {
    if slots != [] { CountNone(slots[..|slots| - 1], sessions, repos); }
    else if sessions != [] { CountNone(slots, sessions[..|sessions| - 1], repos); }
  }

  lemma {:induction false} CountAll(slots: seq<Slot>, repos: set<string>, k: SlotKind, sessions: seq<SessionView>)
    requires forall s :: s in slots ==> s.repoId in repos
    ensures SlotsOf(slots, repos, k) == CountSlots(slots, k)
    ensures LocalOf(slots, repos, sessions) == Releasable(slots, sessions) + CountHidden(slots, sessions)
  {
    if slots != [] {
      var s := slots[|slots| - 1];
      assert s in slots;
      CountAll(slots[..|slots| - 1], repos, k, sessions);
      PendingSubset(sessions, {s.repoId}, s.id);
    }
  }

  lemma {:induction false} CountAllSessions(sessions: seq<SessionView>, repos: set<string>, k: SessionKind)
    requires forall x :: x in sessions ==> x.repoId in repos
    ensures SessionsOf(sessions, repos, k) == CountSessions(sessions, k)
  {
    if sessions != [] {
      assert sessions[|sessions| - 1] in sessions;
      CountAllSessions(sessions[..|sessions| - 1], repos, k);
    }
  }

  lemma SnocPending(sessions: seq<SessionView>, x: SessionView, slotId: string)
    ensures PendingOn(sessions + [x], slotId) ==
            PendingOn(sessions, slotId) + if x.slotId == slotId && !x.status.Terminal() then 1 else 0
  {
    assert (sessions + [x])[..|sessions|] == sessions;
  }

  lemma {:induction false} PendingSubset(sessions: seq<SessionView>, repos: set<string>, slotId: string)
    ensures PendingOn(SessionsIn(sessions, repos), slotId) <= PendingOn(sessions, slotId)
  {
    if sessions != [] {
      var init, x := sessions[..|sessions| - 1], sessions[|sessions| - 1];
      PendingSubset(init, repos, slotId);
      SnocPending(SessionsIn(init, repos), x, slotId);
    }
  }

  /** The repository reviews partition the global one: over any distinct list of repositories
      that covers all slots and sessions, every count adds up to the global count, except that
      releasable exceeds it by the slots kept busy only by sessions of other repositories. */
  lemma ReviewsPartition(slots: seq<Slot>, sessions: seq<SessionView>, repos: seq<string>)
    requires Distinct(repos)
    requires (forall s :: s in slots ==> s.repoId in repos) && (forall x :: x in sessions ==> x.repoId in repos)
    ensures AddUp(slots, sessions, repos) ==
            CountsOf(slots, sessions).(releasable := Releasable(slots, sessions) + CountHidden(slots, sessions))
  {
    AddUpIsUnion(slots, sessions, repos);
    var all := RepoSet(repos);
    CountAll(slots, all, DirtyKind, sessions);
    CountAll(slots, all, StaleKind, sessions);
    CountAll(slots, all, ActiveKind, sessions);
    CountAllSessions(sessions, all, PendingKind);
    CountAllSessions(sessions, all, CompletedKind);
    CountAllSessions(sessions, all, FailedKind);
  }

  lemma {:induction false} NoneHiddenIff(slots: seq<Slot>, sessions: seq<SessionView>)
    ensures CountHidden(slots, sessions) == 0 <==> forall s :: s in slots ==> !HiddenBusy(s, sessions)
  {
    if slots != [] {
      var init, s := slots[..|slots| - 1], slots[|slots| - 1];
      assert slots == init + [s];
      NoneHiddenIff(init, sessions);
    }
  }

  /** The reviews add up in full exactly when no settled slot is kept busy only by sessions of
      other repositories. */
  lemma ReviewsPartitionFullyIff(slots: seq<Slot>, sessions: seq<SessionView>, repos: seq<string>)
    requires Distinct(repos)
    requires (forall s :: s in slots ==> s.repoId in repos) && (forall x :: x in sessions ==> x.repoId in repos)
    ensures AddUp(slots, sessions, repos) == CountsOf(slots, sessions) <==>
            forall s :: s in slots ==> !HiddenBusy(s, sessions)
  {
    ReviewsPartition(slots, sessions, repos);
    NoneHiddenIff(slots, sessions);
  }

  lemma {:induction false} OwnedPending(sessions: seq<SessionView>, s: Slot)
    requires forall x :: x in sessions && x.slotId == s.id ==> x.repoId == s.repoId
    ensures OwnPending(sessions, s) == PendingOn(sessions, s.id)
  {
    if sessions != [] {
      var init, x := sessions[..|sessions| - 1], sessions[|sessions| - 1];
      assert x in sessions;
      OwnedPending(init, s);
      SnocPending(SessionsIn(init, {s.repoId}), x, s.id);
    }
  }

  /** In particular they add up when each session carries the repository of its slot. */
  lemma ConsistentReviewsPartition(slots: seq<Slot>, sessions: seq<SessionView>, repos: seq<string>)
    requires Distinct(repos)
    requires (forall s :: s in slots ==> s.repoId in repos) && (forall x :: x in sessions ==> x.repoId in repos)
    requires forall s, x :: s in slots && x in sessions && x.slotId == s.id ==> x.repoId == s.repoId
    ensures AddUp(slots, sessions, repos) == CountsOf(slots, sessions)
  {
    forall s | s in slots ensures !HiddenBusy(s, sessions) { OwnedPending(sessions, s); }
    ReviewsPartitionFullyIff(slots, sessions, repos);
  }
}

/** What the counts and warnings of a summary mean. */
module ReviewMeaning {
  import opened Review

  /** A session that has not ended, on the slot. */
  predicate PendingAt(x: SessionView, slotId: string) {
    x.slotId == slotId && (x.status.Prepared? || x.status.Running?)
  }

  /** The indices below `n` at which `p` holds. */
  ghost function Where(n: nat, p: int -> bool): set<int> {
    set i | 0 <= i < n && p(i)
  }

  lemma WhereNext(n: nat, p: int -> bool, q: int -> bool)
    requires forall i :: 0 <= i < n ==> q(i) == p(i)
    ensures |Where(n + 1, q)| == |Where(n, p)| + if q(n) then 1 else 0
  {
    assert Where(n + 1, q) == Where(n, p) + if q(n) then {n} else {};
  }

  ghost function PendingIn(sessions: seq<SessionView>, slotId: string): int -> bool {
    i => 0 <= i < |sessions| && PendingAt(sessions[i], slotId)
  }

  lemma {:induction false} PendingOnIs(sessions: seq<SessionView>, slotId: string)
    ensures PendingOn(sessions, slotId) == |Where(|sessions|, PendingIn(sessions, slotId))|
  {
    if sessions != [] {
      var init := sessions[..|sessions| - 1];
      PendingOnIs(init, slotId);
      WhereNext(|init|, PendingIn(init, slotId), PendingIn(sessions, slotId));
    }
  }

  lemma NonePendingIff(sessions: seq<SessionView>, slotId: string)
    ensures PendingOn(sessions, slotId) == 0 <==> forall x :: x in sessions ==> !PendingAt(x, slotId)
  {
    PendingOnIs(sessions, slotId);
    var at := Where(|sessions|, PendingIn(sessions, slotId));
    forall x | x in sessions && PendingAt(x, slotId) ensures at != {} {
      var i :| 0 <= i < |sessions| && sessions[i] == x;
      assert i in at;
    }
    if at != {} {
      var i :| i in at;
      assert sessions[i] in sessions;
    }
  }

  ghost function SlotsAre(slots: seq<Slot>, k: SlotKind): int -> bool {
    i => 0 <= i < |slots| && SlotIs(slots[i], k)
  }

  lemma {:induction false} CountSlotsIs(slots: seq<Slot>, k: SlotKind)
    ensures CountSlots(slots, k) == |Where(|slots|, SlotsAre(slots, k))|
  {
    if slots != [] {
      var init := slots[..|slots| - 1];
      CountSlotsIs(init, k);
      WhereNext(|init|, SlotsAre(init, k), SlotsAre(slots, k));
    }
  }

  ghost function SessionsAre(sessions: seq<SessionView>, k: SessionKind): int -> bool {
    i => 0 <= i < |sessions| && SessionIs(sessions[i], k)
  }

  lemma {:induction false} CountSessionsIs(sessions: seq<SessionView>, k: SessionKind)
    ensures CountSessions(sessions, k) == |Where(|sessions|, SessionsAre(sessions, k))|
  {
    if sessions != [] {
      var init := sessions[..|sessions| - 1];
      CountSessionsIs(init, k);
      WhereNext(|init|, SessionsAre(init, k), SessionsAre(sessions, k));
    }
  }

  /** Active, clean, current, and with no session going on. */
  ghost predicate CanBeReleased(s: Slot, sessions: seq<SessionView>) {
    && s.status == Active && !s.dirty && s.fingerprint == Ready
    && forall x :: x in sessions ==> !PendingAt(x, s.id)
  }

  ghost function ReleasableAre(slots: seq<Slot>, sessions: seq<SessionView>): int -> bool {
    i => 0 <= i < |slots| && CanBeReleased(slots[i], sessions)
  }

  lemma {:induction false} ReleasableIs(slots: seq<Slot>, sessions: seq<SessionView>)
    ensures Releasable(slots, sessions) == |Where(|slots|, ReleasableAre(slots, sessions))|
  {
    if slots != [] {
      var init := slots[..|slots| - 1];
      ReleasableIs(init, sessions);
      NonePendingIff(sessions, slots[|init|].id);
      WhereNext(|init|, ReleasableAre(init, sessions), ReleasableAre(slots, sessions));
    }
  }

  /** Each count is the number of slots or sessions that it is named after. */
  lemma CountsMeaning(slots: seq<Slot>, sessions: seq<SessionView>)
    ensures var c := CountsOf(slots, sessions);
            && c.dirty == |set i | 0 <= i < |slots| && slots[i].dirty|
            && c.stale == |set i | 0 <= i < |slots| && slots[i].fingerprint == Stale|
            && c.active == |set i | 0 <= i < |slots| && slots[i].status == Active|
            && c.releasable == |set i | 0 <= i < |slots| && CanBeReleased(slots[i], sessions)|
            && c.pending == |set i | 0 <= i < |sessions| && PendingAt(sessions[i], sessions[i].slotId)|
            && c.completed == |set i | 0 <= i < |sessions| && sessions[i].status.Completed?|
            && c.failed == |set i | 0 <= i < |sessions| && sessions[i].status.Failed?|
  {
    CountSlotsIs(slots, DirtyKind);
    CountSlotsIs(slots, StaleKind);
    CountSlotsIs(slots, ActiveKind);
    ReleasableIs(slots, sessions);
    CountSessionsIs(sessions, PendingKind);
    CountSessionsIs(sessions, CompletedKind);
    CountSessionsIs(sessions, FailedKind);
    assert Where(|slots|, SlotsAre(slots, DirtyKind)) == set i | 0 <= i < |slots| && slots[i].dirty;
    assert Where(|slots|, SlotsAre(slots, StaleKind)) == set i | 0 <= i < |slots| && slots[i].fingerprint == Stale;
    assert Where(|slots|, SlotsAre(slots, ActiveKind)) == set i | 0 <= i < |slots| && slots[i].status == Active;
    assert Where(|slots|, ReleasableAre(slots, sessions))
           == set i | 0 <= i < |slots| && CanBeReleased(slots[i], sessions);
    assert Where(|sessions|, SessionsAre(sessions, PendingKind))
           == set i | 0 <= i < |sessions| && PendingAt(sessions[i], sessions[i].slotId);
    assert Where(|sessions|, SessionsAre(sessions, CompletedKind))
           == set i | 0 <= i < |sessions| && sessions[i].status.Completed?;
    assert Where(|sessions|, SessionsAre(sessions, FailedKind))
           == set i | 0 <= i < |sessions| && sessions[i].status.Failed?;
  }

  /** The slot warrants the warning, with that many sessions going on. */
  predicate Warrants(s: Slot, pending: nat, w: Warning) {
    match w
    case DirtySlot(id) => s.id == id && s.status == Active && s.dirty
    case StaleActiveSlot(id) => s.id == id && s.status == Active && s.fingerprint == Stale
    case StaleWarmSlot(id) => s.id == id && s.warm && s.status == Released && s.fingerprint == Stale
    case MissingSlot(id) => s.id == id && s.status == Missing
    case SlotBusy(id, n) => s.id == id && pending == n && n > 0
    case SlotMultiSession(id) => s.id == id && pending > 1
    case _ => false
  }

  lemma PushIfMember(ws: seq<Warning>, condition: bool, x: Warning, w: Warning)
    ensures w in PushIf(ws, condition, x) <==> w in ws || (condition && w == x)
  {
  }

  lemma SlotWarningIff(base: seq<Warning>, s: Slot, pending: nat, w: Warning)
    ensures w in SlotWarning(base, s, pending) <==> w in base || Warrants(s, pending, w)
  {
    var a := PushIf(base, s.status == Active && s.dirty, DirtySlot(s.id));
    var b := PushIf(a, s.status == Active && s.fingerprint == Stale, StaleActiveSlot(s.id));
    var c := PushIf(b, s.warm && s.status == Released && s.fingerprint == Stale, StaleWarmSlot(s.id));
    var d := PushIf(c, s.status == Missing, MissingSlot(s.id));
    var e := PushIf(d, pending > 0, SlotBusy(s.id, pending));
    PushIfMember(base, s.status == Active && s.dirty, DirtySlot(s.id), w);
    PushIfMember(a, s.status == Active && s.fingerprint == Stale, StaleActiveSlot(s.id), w);
    PushIfMember(b, s.warm && s.status == Released && s.fingerprint == Stale, StaleWarmSlot(s.id), w);
    PushIfMember(c, s.status == Missing, MissingSlot(s.id), w);
    PushIfMember(d, pending > 0, SlotBusy(s.id, pending), w);
    PushIfMember(e, pending > 1, SlotMultiSession(s.id), w);
  }

  ghost predicate SomeWarrants(slots: seq<Slot>, sessions: seq<SessionView>, w: Warning) {
    exists s :: s in slots && Warrants(s, PendingOn(sessions, s.id), w)
  }

  lemma SomeWarrantsSnoc(init: seq<Slot>, s: Slot, sessions: seq<SessionView>, w: Warning)
    ensures SomeWarrants(init + [s], sessions, w) <==>
            SomeWarrants(init, sessions, w) || Warrants(s, PendingOn(sessions, s.id), w)
  {
    assert forall x :: x in init + [s] <==> x in init || x == s;
  }

  lemma {:induction false} SlotWarnedIff(base: seq<Warning>, slots: seq<Slot>, sessions: seq<SessionView>, w: Warning)
    ensures w in SlotWarnings(base, slots, sessions) <==> w in base || SomeWarrants(slots, sessions, w)
  {
    if slots != [] {
      var init, s := slots[..|slots| - 1], slots[|slots| - 1];
      SlotWarnedIff(base, init, sessions, w);
      SlotWarningIff(SlotWarnings(base, init, sessions), s, PendingOn(sessions, s.id), w);
      SomeWarrantsSnoc(init, s, sessions, w);
      assert slots == init + [s];
    }
  }

  lemma {:induction false} SessionWarnedIff(base: seq<Warning>, sessions: seq<SessionView>, w: Warning)
    ensures w in SessionWarnings(base, sessions) <==>
            w in base || exists x :: x in sessions && x.status.Failed? && w == FailedSession(x.slotId, x.id)
  {
    if sessions != [] {
      var init, x := sessions[..|sessions| - 1], sessions[|sessions| - 1];
      SessionWarnedIff(base, init, w);
      assert sessions == init + [x];
    }
  }

  /** A summary warns of exactly the overlaps, the failed sessions and what the slots warrant. */
  lemma WarnedIff(slots: seq<Slot>, sessions: seq<SessionView>, overlaps: seq<Warning>, w: Warning)
    ensures w in SlotWarnings(SessionWarnings(overlaps, sessions), slots, sessions) <==>
            || w in overlaps
            || (exists x :: x in sessions && x.status.Failed? && w == FailedSession(x.slotId, x.id))
            || (exists s :: s in slots
                    && Warrants(s, |set i | 0 <= i < |sessions| && PendingAt(sessions[i], s.id)|, w))
  {
    SlotWarnedIff(SessionWarnings(overlaps, sessions), slots, sessions, w);
    SessionWarnedIff(overlaps, sessions, w);
    forall s | s in slots
      ensures PendingOn(sessions, s.id) == |set i | 0 <= i < |sessions| && PendingAt(sessions[i], s.id)|
    {
      PendingOnIs(sessions, s.id);
      assert Where(|sessions|, PendingIn(sessions, s.id))
             == set i | 0 <= i < |sessions| && PendingAt(sessions[i], s.id);
    }
  }
}
