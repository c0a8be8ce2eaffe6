/** Ending a team's work (app/team_ops.rs): archiving, tearing down and deleting, which decide by
    the slot bindings that survive reconciliation with the slot and session tables. */
module TeamLifecycle {
  import opened Wrappers
  import opened TeamModel
  import opened TeamManifests
  import opened TeamRuns
  import opened TeamOperations
  import TeamEffects
  import Session

  datatype SlotRow = SlotRow(repoId: string, branch: string, released: bool, dirty: bool)

  datatype SessionRow = SessionRow(slotId: string, status: Session.Status, supervised: bool)

  /** The slot and session tables. */
  datatype Db = Db(slots: map<string, SlotRow>, sessions: map<string, SessionRow>)

  /** No record of the slot, or a released one. */
  predicate Gone(db: Db, s: string) {
    s in db.slots ==> db.slots[s].released
  }

  predicate HasLive(db: Db, s: string) {
    exists id :: id in db.sessions && db.sessions[id].slotId == s && !db.sessions[id].status.Terminal()
  }

  predicate HasRunning(db: Db, s: string) {
    exists id :: id in db.sessions && db.sessions[id].slotId == s && db.sessions[id].status == Session.Status.Running
  }

  /** `collect_bound_slot_ids` */
  function BoundSlotIds(m: Manifest): set<string> {
    BoundSlots(m.tasks) + MemberSlots([m.lead]) + MemberSlots(m.members)
  }

  function MemberSlots(members: seq<Member>): set<string> {
    set x | x in members && x.slotId.Some? :: x.slotId.value
  }

  /** A slot is bound if the lead, a member or a task is bound to it. */
  lemma BoundMeaning(m: Manifest, s: string)
    ensures s in BoundSlotIds(m) <==>
            || m.lead.slotId == Some(s)
            || (exists k :: 0 <= k < |m.members| && m.members[k].slotId == Some(s))
            || (exists i :: 0 <= i < |m.tasks| && m.tasks[i].slotId == Some(s))
  {
    assert s in MemberSlots([m.lead]) <==> m.lead.slotId == Some(s);
  }

  /** A reset lets go of every slot. */
  lemma ResetUnbinds(m: Manifest)
    ensures BoundSlotIds(TeamModel.Reset(m)) == {}
  {
    var n := TeamModel.Reset(m);
    TeamEffects.ResetEffect(m);
    forall s ensures s !in BoundSlotIds(n) {
      BoundMeaning(n, s);
      assert forall k :: 0 <= k < |n.members| ==> TeamEffects.ResetMember(m.members[k], n.members[k]);
      assert forall i :: 0 <= i < |n.tasks| ==> TeamEffects.ResetCard(m.tasks[i], n.tasks[i]);
    }
  }

  /** What reconciliation reads about a manifest's slots; `endings` are the newest finished
      sessions, `verdicts` what the verification commands said. */
  function FactsAbout(m: Manifest, db: Db, endings: map<string, Ending>, verdicts: map<string, Verdict>): StoreFacts {
    StoreFacts(
      (set s | s in BoundSlotIds(m) && Gone(db, s)),
      (set s | s in BoundSlotIds(m) && HasRunning(db, s)),
      (set s | s in BoundSlotIds(m) && HasLive(db, s)),
      endings,
      verdicts,
      (set id | id in db.sessions && !db.sessions[id].status.Terminal()))
  }

  /** What reconciliation reads about a bound slot. */
  lemma FactsMeaning(m: Manifest, db: Db, endings: map<string, Ending>, verdicts: map<string, Verdict>, s: string)
    requires s in BoundSlotIds(m)
    ensures var f := FactsAbout(m, db, endings, verdicts);
            && (s in f.gone <==> s !in db.slots || db.slots[s].released)
            && (s in f.running <==>
                exists id :: id in db.sessions && db.sessions[id].slotId == s && db.sessions[id].status.Running?)
            && (s in f.live <==>
                exists id :: id in db.sessions && db.sessions[id].slotId == s
                    && (db.sessions[id].status.Running? || db.sessions[id].status.Prepared?))
  {
  }

  /** A slot that reconciliation takes away from its tasks: gone, with no session going on. */
  predicate Free(db: Db, s: string) {
    Gone(db, s) && !HasLive(db, s)
  }

  // ---------------------------------------------------------------------------
  // Which bindings survive reconciliation
  // ---------------------------------------------------------------------------

  /** The slots whose bindings survive: of an archived team all, else those of some task that are
      not free. A member keeps a slot only along with a task. */
  function Surviving(m: Manifest, db: Db): set<string> {
    if m.status == Archived then BoundSlotIds(m)
    else set s | s in BoundSlots(m.tasks) && !Free(db, s)
  }

  lemma TaskBindingSurvivesIff(t: Task, m: Manifest, db: Db, endings: map<string, Ending>,
                               verdicts: map<string, Verdict>)
    requires t in m.tasks
    ensures ReconcileTask(t, FactsAbout(m, db, endings, verdicts)).0.slotId ==
            if t.slotId.Some? && Free(db, t.slotId.value) then None else t.slotId
  {
    if t.slotId.Some? { assert t.slotId.value in BoundSlotIds(m); }
  }

  lemma TaskSlotsAfter(m: Manifest, db: Db, endings: map<string, Ending>, verdicts: map<string, Verdict>)
    ensures BoundSlots(ReconcileTasks(m.tasks, FactsAbout(m, db, endings, verdicts))) ==
            set s | s in BoundSlots(m.tasks) && !Free(db, s)
  {
    var f := FactsAbout(m, db, endings, verdicts);
    var after := ReconcileTasks(m.tasks, f);
    forall s ensures s in BoundSlots(after) <==> s in BoundSlots(m.tasks) && !Free(db, s) {
      if s in BoundSlots(after) {
        var t :| t in after && t.slotId == Some(s);
        var i :| 0 <= i < |after| && after[i] == t;
        TaskBindingSurvivesIff(m.tasks[i], m, db, endings, verdicts);
      }
      if s in BoundSlots(m.tasks) && !Free(db, s) {
        var t :| t in m.tasks && t.slotId == Some(s);
        var i :| 0 <= i < |m.tasks| && m.tasks[i] == t;
        TaskBindingSurvivesIff(m.tasks[i], m, db, endings, verdicts);
        assert after[i] in after;
      }
    }
  }

  /** After reconciliation the team is bound to exactly the surviving slots. */
  lemma BoundAfterReconcile(m: Manifest, db: Db, endings: map<string, Ending>, verdicts: map<string, Verdict>)
    ensures var n := InMemory(m, FactsAbout(m, db, endings, verdicts));
            BoundSlotIds(n) == Surviving(m, db) && (m.status != Archived ==> BoundSlots(n.tasks) == Surviving(m, db))
  {
    if m.status != Archived {
      var f := FactsAbout(m, db, endings, verdicts);
      var n := Reconciled(m, f);
      TaskSlotsAfter(m, db, endings, verdicts);
      assert InMemory(m, f).tasks == n.tasks && InMemory(m, f).lead == n.lead && InMemory(m, f).members == n.members;
      forall s | s in MemberSlots([n.lead]) + MemberSlots(n.members) ensures s in BoundSlots(n.tasks) {
        if s in MemberSlots([n.lead]) {
          assert n.lead == ReconcileMember(m.lead, BoundSlots(n.tasks), f);
        } else {
          var x :| x in n.members && x.slotId == Some(s);
          var i :| 0 <= i < |n.members| && n.members[i] == x;
          assert n.members[i] == ReconcileMember(m.members[i], BoundSlots(n.tasks), f);
        }
      }
    }
  }

  /** A binding given to a member alone is dropped by the next reconciliation, even of a slot in use. */
  lemma MemberOnlyBindingDropped(m: Manifest, db: Db, endings: map<string, Ending>, verdicts: map<string, Verdict>,
                                 s: string)
    requires m.status != Archived && s !in BoundSlots(m.tasks)
    ensures s !in BoundSlotIds(InMemory(m, FactsAbout(m, db, endings, verdicts)))
  {
    BoundAfterReconcile(m, db, endings, verdicts);
  }

  lemma UnchangedTask(t: Task, f: StoreFacts)
    requires !ReconcileTask(t, f).1
    ensures ReconcileTask(t, f).0.slotId == t.slotId && ReconcileTask(t, f).0.state == t.state
  {
  }

  /** The saved manifest has the same bindings as the one in memory. */
  lemma SavedBindings(m: Manifest, f: StoreFacts)
    requires WellFormed(m)
    ensures var n := Step(m, TeamOp.Reconcile(f));
            && BoundSlots(n.tasks) == BoundSlots(InMemory(m, f).tasks)
            && (n.status == Archived <==> m.status == Archived)
  {
    SavedOrUnchanged(m, f);
    if m.status != Archived && !ReconcileChanges(m, f) {
      var after := ReconcileTasks(m.tasks, f);
      forall i | 0 <= i < |m.tasks| ensures after[i].slotId == m.tasks[i].slotId { UnchangedTask(m.tasks[i], f); }
      SameSlots(m.tasks, after);
    }
  }

  lemma SavedOrUnchanged(m: Manifest, f: StoreFacts)
    requires WellFormed(m)
    ensures WellFormed(Step(m, TeamOp.Reconcile(f)))
    ensures Step(m, TeamOp.Reconcile(f)) == if m.status != Archived && ReconcileChanges(m, f) then InMemory(m, f) else m
  {
    ReconcileSucceeds(m, f);
    ReconcileStep(m, f);
  }

  lemma SameSlots(a: seq<Task>, b: seq<Task>)
    requires |a| == |b| && forall i :: 0 <= i < |a| ==> a[i].slotId == b[i].slotId
    ensures BoundSlots(a) == BoundSlots(b)
  {
    forall s ensures s in BoundSlots(a) <==> s in BoundSlots(b) {
      if s in BoundSlots(a) { var i :| 0 <= i < |a| && a[i].slotId == Some(s); assert b[i] in b; }
      if s in BoundSlots(b) { var i :| 0 <= i < |b| && b[i].slotId == Some(s); assert a[i] in a; }
    }
  }

  // ---------------------------------------------------------------------------
  // The teardown plan
  // ---------------------------------------------------------------------------

  datatype TeardownPlan = TeardownPlan(bound: set<string>, active: set<string>, dirty: set<string>,
      cancellable: set<string>, blocking: set<string>)

  /** A running session without a supervisor cannot be interrupted. */
  predicate Blocking(row: SessionRow) {
    row.status == Session.Status.Running && !row.supervised
  }

  /** The sessions on the slots that have not ended, and that block a teardown or do not. */
  function LiveSessionsOn(db: Db, slots: set<string>, blocking: bool): set<string> {
    set id | id in db.sessions && db.sessions[id].slotId in slots && !db.sessions[id].status.Terminal()
        && Blocking(db.sessions[id]) == blocking
  }

  ghost function PlanFor(m: Manifest, db: Db): TeardownPlan {
    var bound := BoundSlotIds(m);
    TeardownPlan(bound,
      (set s | s in bound && !Gone(db, s)),
      (set s | s in bound && s in db.slots && db.slots[s].dirty),
      LiveSessionsOn(db, bound, false),
      LiveSessionsOn(db, bound, true))
  }

  method BuildTeardownPlan(m: Manifest, db: Db) returns (plan: TeardownPlan)
    ensures plan == PlanFor(m, db)
  {
    var bound := BoundSlotIds(m);
    plan := TeardownPlan(bound, {}, {}, {}, {});
    var left := bound;
    while left != {}
      invariant left <= bound && plan.bound == bound
      invariant plan.active == set s | s in bound - left && !Gone(db, s)
      invariant plan.dirty == set s | s in bound - left && s in db.slots && db.slots[s].dirty
      invariant plan.cancellable == LiveSessionsOn(db, bound - left, false)
      invariant plan.blocking == LiveSessionsOn(db, bound - left, true)
      decreases left
    {
      var s :| s in left;
      left := left - {s};
      if s in db.slots {
        if !db.slots[s].released { plan := plan.(active := plan.active + {s}); }
        if db.slots[s].dirty { plan := plan.(dirty := plan.dirty + {s}); }
      }
      plan := plan.(cancellable := plan.cancellable + LiveSessionsOn(db, {s}, false),
          blocking := plan.blocking + LiveSessionsOn(db, {s}, true));
    }
    assert bound - left == bound;
  }

  /** What the plan says of each slot and each session. */
  lemma PlanMeaning(m: Manifest, db: Db, s: string, id: string)
    requires s in db.slots && id in db.sessions
    ensures var plan, row := PlanFor(m, db), db.sessions[id];
            var going := row.slotId in plan.bound && (row.status.Prepared? || row.status.Running?);
            && (s in plan.active <==> s in plan.bound && !db.slots[s].released)
            && (s in plan.dirty <==> s in plan.bound && db.slots[s].dirty)
            && (id in plan.blocking <==> going && row.status.Running? && !row.supervised)
            && (id in plan.cancellable <==> going && (row.status.Prepared? || row.supervised))
  {
  }

  /** Without bound slots the plan is empty: the session checks of `delete_team` never decide. */
  lemma NothingBoundNothingPlanned(m: Manifest, db: Db)
    requires BoundSlotIds(m) == {}
    ensures PlanFor(m, db) == TeardownPlan({}, {}, {}, {}, {})
  {
  }

  // ---------------------------------------------------------------------------
  // The operations
  // ---------------------------------------------------------------------------

  /** How the tables may change when sessions are synced, cancelled and slots released: live
      sessions may end, and slots in `freed` may be released. */
  ghost predicate Evolves(a: Db, b: Db, freed: set<string>) {
    && a.slots.Keys == b.slots.Keys && a.sessions.Keys == b.sessions.Keys
    && (forall s :: s in a.slots && s !in freed ==> b.slots[s] == a.slots[s])
    && (forall s :: s in a.slots && a.slots[s].released ==> b.slots[s].released)
    && (forall id :: id in a.sessions ==>
       b.sessions[id] == a.sessions[id] || (!a.sessions[id].status.Terminal() && b.sessions[id].status.Terminal()))
  }

  lemma EvolvesTransitive(a: Db, b: Db, c: Db, freed: set<string>)
    requires Evolves(a, b, freed) && Evolves(b, c, freed)
    ensures Evolves(a, c, freed)
  {
  }

  lemma EvolvesWidens(a: Db, b: Db, freed: set<string>, more: set<string>)
    requires Evolves(a, b, freed) && freed <= more
    ensures Evolves(a, b, more)
  {
  }

  lemma ReleasedAfterCancelled(a: Db, b: Db, c: Db, freed: set<string>, all: set<string>)
    requires Evolves(a, b, {}) && Evolves(b, c, freed) && freed <= all
    ensures Evolves(a, c, all)
    ensures forall s :: Gone(b, s) ==> Gone(c, s)
    ensures forall s :: !HasLive(b, s) ==> !HasLive(c, s)
  {
    EvolvesWidens(b, c, freed, all);
    EvolvesWidens(a, b, {}, all);
    EvolvesTransitive(a, b, c, all);
    FreeStays(b, c, freed);
  }

  lemma FreeStays(a: Db, b: Db, freed: set<string>)
    requires Evolves(a, b, freed)
    ensures forall s :: Gone(a, s) ==> Gone(b, s)
    ensures forall s :: !HasLive(a, s) ==> !HasLive(b, s)
  {
  }

  /** With no blocking session and all others ended, no session is live on the slots. */
  lemma NoneLive(a: Db, b: Db, slots: set<string>)
    requires Evolves(a, b, {}) && LiveSessionsOn(a, slots, true) == {}
    requires forall id :: id in LiveSessionsOn(a, slots, false) ==> b.sessions[id].status.Terminal()
    ensures forall s :: s in slots ==> !HasLive(b, s)
  {
    forall id | id in a.sessions && a.sessions[id].slotId in slots && !a.sessions[id].status.Terminal()
      ensures b.sessions[id].status.Terminal() {
      assert id in LiveSessionsOn(a, slots, true) || id in LiveSessionsOn(a, slots, false);
    }
  }

  /** What an operation asks of the slot and session commands, and what it sees of the slots. */
  datatype Act =
    | Looked(slotId: string, gone: bool)
    | CancelSent(sessionId: string, ok: bool)
    | ReleaseSent(slotId: string, ok: bool)

  /** The slot was seen gone or has been released. */
  predicate Vacated(acts: seq<Act>, s: string) {
    Looked(s, true) in acts || ReleaseSent(s, true) in acts
  }

  /** The acts look at and release slots of the set only. */
  predicate Releasing(acts: seq<Act>, slots: set<string>) {
    forall a :: a in acts ==> !a.CancelSent? && a.slotId in slots
  }

  /** The acts cancel sessions of the set only. */
  predicate Cancelling(acts: seq<Act>, sessions: set<string>) {
    forall a :: a in acts ==> a.CancelSent? && a.sessionId in sessions
  }

  class TeamDesk {
    /** The manifest file's content, and whether the file is there. */
    var file: Manifest
    var present: bool
    var db: Db

    /** Whether other processes have changed the file or the tables, beyond sessions ending. */
    ghost var disturbed: bool
    ghost var journal: seq<Act>

    // The environment: sessions end, commands, reads and writes fail, others interfere, at any time.

    method Ends() returns (statuses: map<string, Session.Status>) { statuses := *; }

    method Works() returns (works: bool) { works := *; }

    method Endings()
      returns (endings: map<string, Ending>, verdicts: map<string, Verdict>) { endings, verdicts := *, *; }

    method AnyOps() returns (ops: seq<TeamOp>) { ops := *; }

    method AnyDb() returns (tables: Db) { tables := *; }

    /** Other processes change the slot and session tables. */
    method OthersChangeTables()
      modifies this`db, this`disturbed
      ensures old(disturbed) ==> disturbed
      ensures !disturbed ==> db == old(db)
    {
      var active := Works();
      if active {
        disturbed := true;
        db := AnyDb();
      }
    }

    /** Other processes edit the manifest, by any operations, and change the tables. */
    method Others()
      requires WellFormed(file)
      modifies this`file, this`db, this`disturbed
      ensures WellFormed(file) && (old(disturbed) ==> disturbed)
      ensures !disturbed ==> file == old(file) && db == old(db)
    {
      OthersChangeTables();
      var active := Works();
      if active {
        disturbed := true;
        var ops := AnyOps();
        for i := 0 to |ops|
          invariant WellFormed(file) && disturbed
        {
          SaveAcceptsWhatOperationsAccept(file, ops[i]);
          var next, ok := Transact(file, ops[i], true);
          file := next;
        }
      }
    }

    /** `sync_runtime_state`: any live sessions end. */
    method SyncRuntimeState()
      modifies this`db
      ensures Evolves(old(db), db, {})
    {
      var ends := Ends();
      db := db.(sessions := map id | id in db.sessions ::
        if !db.sessions[id].status.Terminal() && id in ends && ends[id].Terminal()
          then db.sessions[id].(status := ends[id])
          else db.sessions[id]);
    }

    /** A cancel that fails may still have cancelled the session. */
    method DispatchCancel(id: string) returns (ok: bool)
      modifies this`db, this`journal
      ensures Evolves(old(db), db, {}) && journal == old(journal) + [CancelSent(id, ok)]
      ensures ok ==> id in db.sessions && db.sessions[id].status.Terminal()
    {
      ok := false;
      if id in db.sessions && !db.sessions[id].status.Terminal() && !Blocking(db.sessions[id]) {
        var cancelled := Works();
        if cancelled {
          db := db.(sessions := db.sessions[id := db.sessions[id].(status := Session.Status.Cancelled)]);
          ok := Works();
        }
      }
      journal := journal + [CancelSent(id, ok)];
    }

    /** A release that fails may still have released the slot. */
    method DispatchRelease(s: string) returns (ok: bool)
      modifies this`db, this`journal
      ensures Evolves(old(db), db, {s}) && journal == old(journal) + [ReleaseSent(s, ok)]
      ensures ok ==> Gone(db, s)
    {
      ok := false;
      if s in db.slots {
        SyncRuntimeState();
        var released := Works();
        if released && !HasLive(db, s) {
          db := db.(slots := db.slots[s := db.slots[s].(released := true, dirty := false)]);
          ok := Works();
        }
      }
      journal := journal + [ReleaseSent(s, ok)];
    }

    /** Whether the slot has a record and is not released. */
    method IsActive(s: string) returns (active: bool)
      modifies this`journal
      ensures active == !Gone(db, s) && journal == old(journal) + [Looked(s, !active)]
    {
      active := s in db.slots && !db.slots[s].released;
      journal := journal + [Looked(s, !active)];
    }

    /** `reconcile_team_manifest`: the reconciled manifest, saved if anything changed; None after an
        error, which leaves the file as it is. */
    method ReconcileTeam() returns (r: Option<Manifest>, ghost ops: seq<TeamOp>)
      requires WellFormed(file)
      modifies this`file
      ensures WellFormed(file) && file == Run(old(file), ops) && AllReconcile(ops)
      ensures r.None? ==> file == old(file)
      ensures r.Some? ==> BoundSlotIds(r.value) == Surviving(old(file), db)
      ensures file.status == Archived <==> old(file).status == Archived
      ensures r.Some? ==> r.value.status == file.status && CanArchive(r.value) == CanArchive(file)
      ensures r.Some? && file.status != Archived ==> BoundSlots(file.tasks) == Surviving(old(file), db)
      ensures r.Some? && file.status == Archived ==> file == old(file)
    {
      var works := Works();
      if !works { return None, []; }
      var endings, verdicts := Endings();
      var f := FactsAbout(file, db, endings, verdicts);
      ops := [TeamOp.Reconcile(f)];
      OneStep(file, TeamOp.Reconcile(f));
      BoundAfterReconcile(file, db, endings, verdicts);
      SavedBindings(file, f);
      SavedOrUnchanged(file, f);
      StatesAfter(file, f);
      var g := new TeamManifest(file);
      var changed, outcome := ReconcileState(g, f);
      var m := g.View();
      if changed { file := m; }
      r := Some(m);
    }

    /** `archive_team`. The manifest is locked throughout, the tables are not. Undisturbed, and
        unless an error stops it before the save, the team is archived exactly if its tasks allow
        it and no binding survives reconciliation, and refused otherwise. */
    method ArchiveTeam() returns (ok: bool, ghost archived: bool, ghost refused: bool, ghost ops: seq<TeamOp>)
      requires WellFormed(file) && !disturbed
      modifies this`file, this`db, this`disturbed
      ensures AllReconcile(ops) && (ok ==> archived) && !(archived && refused)
      ensures var n := Run(old(file), ops);
              file == (if archived then n.(status := Archived) else n) && (archived ==> CanArchive(n))
      ensures !disturbed ==> Evolves(old(db), db, {})
      ensures !disturbed && archived ==> Surviving(old(file), db) == {}
      ensures !disturbed && refused ==> !(CanArchive(Run(old(file), ops)) && Surviving(old(file), db) == {})
    {
      archived, refused := false, false;
      SyncRuntimeState();
      OthersChangeTables();
      var r;
      r, ops := ReconcileTeam();
      if r.None? { return false, archived, refused, ops; }
      OthersChangeTables();
      var blocked := AnyBlocks(BoundSlotIds(r.value));
      if blocked || !CanArchive(r.value) { return false, archived, true, ops; }
      var g := new TeamManifest(file);
      var outcome := g.Archive();
      var saved := Works();
      if outcome.Failure? || !saved { return false, archived, refused, ops; }
      file := g.View();
      archived := true;
      ok := Works();
    }

    /** Whether a slot is active or has a session that has not ended. */
    method AnyBlocks(slots: set<string>) returns (blocked: bool)
      ensures blocked <==> exists s :: s in slots && !Free(db, s)
    {
      blocked := false;
      var left := slots;
      while left != {}
        invariant left <= slots
        invariant blocked <==> exists s :: s in slots - left && !Free(db, s)
        decreases left
      {
        var s :| s in left;
        left := left - {s};
        assert s in slots - left && forall x :: x in slots - left <==> x == s || x in slots - left - {s};
        if (s in db.slots && !db.slots[s].released) || HasLive(db, s) { blocked := true; }
      }
      assert slots - left == slots;
    }

    /** `reset_team` */
    method ResetTeam() returns (ok: bool, saved: bool)
      requires WellFormed(file)
      modifies this`file
      ensures file == (if saved then TeamModel.Reset(old(file)) else old(file)) && WellFormed(file)
      ensures (ok ==> saved) && (saved ==> BoundSlotIds(file) == {})
    {
      UnvalidatedMutatorsKeepWellFormed(file);
      ResetUnbinds(file);
      var g := new TeamManifest(file);
      g.Reset();
      saved := Works();
      ok := false;
      if saved {
        file := g.View();
        ok := Works();
      }
    }

    /** Cancels the sessions, stopping at the first error. */
    method CancelAll(sessions: set<string>) returns (ok: bool, ghost acts: seq<Act>)
      modifies this`db, this`disturbed, this`journal
      ensures journal == old(journal) + acts && Cancelling(acts, sessions) && (old(disturbed) ==> disturbed)
      ensures ok ==> forall id :: id in sessions ==> CancelSent(id, true) in acts
      ensures !disturbed ==> Evolves(old(db), db, {})
      ensures !disturbed && ok ==>
                forall id :: id in sessions ==> id in db.sessions && db.sessions[id].status.Terminal()
    {
      var left := sessions;
      acts := [];
      while left != {}
        invariant left <= sessions && journal == old(journal) + acts && Cancelling(acts, sessions)
        invariant forall id :: id in sessions - left ==> CancelSent(id, true) in acts
        invariant old(disturbed) ==> disturbed
        invariant !disturbed ==> Evolves(old(db), db, {})
        invariant !disturbed ==>
                    forall id :: id in sessions - left ==> id in db.sessions && db.sessions[id].status.Terminal()
        decreases left
      {
        var id :| id in left;
        left := left - {id};
        OthersChangeTables();
        ok := DispatchCancel(id);
        acts := acts + [CancelSent(id, ok)];
        if !ok { return; }
      }
      ok := true;
    }

    /** Releases the slots that have a record and are not released, stopping at the first error. */
    method ReleaseAll(slots: set<string>) returns (ok: bool, ghost acts: seq<Act>)
      modifies this`db, this`disturbed, this`journal
      ensures journal == old(journal) + acts && Releasing(acts, slots) && (old(disturbed) ==> disturbed)
      ensures ok ==> forall s :: s in slots ==> Vacated(acts, s)
      ensures !disturbed ==> Evolves(old(db), db, slots)
      ensures !disturbed && ok ==> forall s :: s in slots ==> Gone(db, s)
    {
      var left := slots;
      acts := [];
      while left != {}
        invariant left <= slots && journal == old(journal) + acts && Releasing(acts, slots)
        invariant forall s :: s in slots - left ==> Vacated(acts, s)
        invariant old(disturbed) ==> disturbed
        invariant !disturbed ==> Evolves(old(db), db, slots)
        invariant !disturbed ==> forall s :: s in slots - left ==> Gone(db, s)
        decreases left
      {
        var s :| s in left;
        left := left - {s};
        OthersChangeTables();
        ghost var before, more := db, [];
        ok, more := ReleaseIfActive(s);
        EvolvesWidens(before, db, {s}, slots);
        FreeStays(before, db, slots);
        VacatedMore(acts, more);
        acts := acts + more;
        if !ok { return; }
      }
      ok := true;
    }

    method ReleaseIfActive(s: string) returns (ok: bool, ghost acts: seq<Act>)
      modifies this`db, this`journal
      ensures journal == old(journal) + acts && Releasing(acts, {s}) && (ok ==> Vacated(acts, s))
      ensures Evolves(old(db), db, {s}) && (ok ==> Gone(db, s))
    {
      var active := IsActive(s);
      acts := [Looked(s, !active)];
      ok := true;
      if active {
        ok := DispatchRelease(s);
        acts := acts + [ReleaseSent(s, ok)];
      }
    }

    /** `teardown_team`. Whatever other processes do, the team is reset only after every slot that it
        was bound to when releasing began was seen gone or released, and no other slot is released.
        (Slots that others bind after that are dropped without a release.) Undisturbed, that makes
        every slot that the team held released or absent, with no session live on it, and leaves all
        others as they were. An error leaves the team merely reconciled, with whatever was cancelled
        and released by then, unless only recording the action failed. */
    method TeardownTeam()
      returns (ok: bool, ghost wasReset: bool, ghost prior: Manifest, ghost bound: set<string>, ghost ops: seq<TeamOp>)
      requires WellFormed(file) && !disturbed && journal == []
      modifies this`file, this`db, this`disturbed, this`journal
      ensures WellFormed(file) && AllReconcile(ops) && (ok ==> wasReset)
      ensures file == if wasReset then TeamModel.Reset(prior) else prior
      ensures wasReset ==> BoundSlotIds(file) == {}
      ensures forall a :: a in journal && !a.CancelSent? ==> a.slotId in bound
      ensures wasReset ==> forall s :: s in bound ==> Vacated(journal, s)
      ensures !disturbed ==> prior == Run(old(file), ops) && bound <= Held(old(file))
                             && Evolves(old(db), db, Held(old(file)))
      ensures !disturbed && wasReset ==> forall s :: s in Held(old(file)) ==> Free(db, s)
    {
      wasReset, bound := false, {};
      ghost var start := db;
      ghost var acts;
      ok, acts, ops := CancelSessions();
      prior := file;
      if !ok { return; }
      Others();
      ghost var db1, file1, ops2 := db, file, [];
      ok, bound, acts, ops2 := ReleaseSlots();
      RunConcat(old(file), ops, ops2);
      ops := ops + ops2;
      prior := file;
      if !disturbed { ReleasedAfterCancelled(start, db1, db, Held(file1), Held(old(file))); }
      if !ok { return; }
      ok, wasReset, prior := FinishTeardown();
    }

    /** Resets the team and records the teardown. */
    method FinishTeardown() returns (ok: bool, ghost wasReset: bool, ghost prior: Manifest)
      requires WellFormed(file)
      modifies this`file, this`db, this`disturbed
      ensures WellFormed(file) && (ok ==> wasReset) && (old(disturbed) ==> disturbed)
      ensures file == if wasReset then TeamModel.Reset(prior) else prior
      ensures wasReset ==> BoundSlotIds(file) == {}
      ensures !disturbed ==> prior == old(file) && db == old(db)
    {
      Others();
      prior := file;
      var saved;
      ok, saved := ResetTeam();
      wasReset := saved;
      if ok { ok := Works(); }
    }

    /** The first half of a teardown: unless a slot is dirty or a session cannot be interrupted,
        the sessions on the bound slots are cancelled. */
    method CancelSessions() returns (ok: bool, ghost acts: seq<Act>, ghost ops: seq<TeamOp>)
      requires WellFormed(file) && !disturbed
      modifies this`file, this`db, this`disturbed, this`journal
      ensures WellFormed(file) && AllReconcile(ops) && journal == old(journal) + acts
      ensures forall a :: a in acts ==> a.CancelSent?
      ensures !disturbed ==> Evolves(old(db), db, {}) && file == Run(old(file), ops) && Held(file) <= Held(old(file))
      ensures !disturbed && ok ==>
                forall s :: s in Held(old(file)) ==> !HasLive(db, s) && (s in Held(file) || Gone(db, s))
    {
      acts := [];
      SyncRuntimeState();
      ghost var start := old(db);
      Others();
      var r;
      r, ops := ReconcileTeam();
      if r.None? { return false, acts, ops; }
      OthersChangeTables();
      ghost var db1 := db;
      var plan := BuildTeardownPlan(r.value, db);
      if plan.dirty != {} || plan.blocking != {} { return false, acts, ops; }
      ok, acts := CancelAll(plan.cancellable);
      if !ok {
        if !disturbed { EvolvesTransitive(start, db1, db, {}); }
        return;
      }
      ghost var db2 := db;
      SyncRuntimeState();
      if !disturbed {
        NoneLive(db1, db2, BoundSlotIds(r.value));
        EvolvesTransitive(start, db1, db2, {});
        EvolvesTransitive(start, db2, db, {});
        EvolvesTransitive(db1, db2, db, {});
        FreeStays(db2, db, {});
        FreeStays(db1, db, {});
      }
      Others();
    }

    /** The second half: the slots still bound are released. */
    method ReleaseSlots() returns (ok: bool, ghost bound: set<string>, ghost acts: seq<Act>, ghost ops: seq<TeamOp>)
      requires WellFormed(file)
      modifies this`file, this`db, this`disturbed, this`journal
      ensures WellFormed(file) && AllReconcile(ops) && file == Run(old(file), ops)
      ensures journal == old(journal) + acts && Releasing(acts, bound) && (old(disturbed) ==> disturbed)
      ensures ok ==> forall s :: s in bound ==> Vacated(acts, s)
      ensures !disturbed ==> Evolves(old(db), db, Held(old(file))) && bound <= Held(old(file))
      ensures !disturbed && ok ==> forall s :: s in Held(old(file)) ==> Gone(db, s)
    {
      ghost var start := db;
      var r;
      r, ops := ReconcileTeam();
      if r.None? { return false, {}, [], ops; }
      bound := BoundSlotIds(r.value);
      ok, acts := ReleaseAll(BoundSlotIds(r.value));
      if !disturbed {
        EvolvesWidens(start, db, bound, Held(old(file)));
        FreeStays(start, db, bound);
      }
    }

    /** `delete_team`: it goes on to remove the file exactly when no binding survives reconciliation,
        unless an error stops it before. */
    method DeleteTeam() returns (ok: bool, ghost refused: bool, ghost failed: bool)
      requires WellFormed(file) && present && !disturbed
      modifies this`file, this`db, this`disturbed, this`present
      ensures present <==> refused || failed
      ensures !(refused && failed) && (ok ==> !present)
      ensures !disturbed && refused ==> Surviving(old(file), db) != {}
      ensures !disturbed && !present ==> Surviving(old(file), db) == {}
    {
      refused, failed, ok := false, true, false;
      SyncRuntimeState();
      Others();
      var r;
      ghost var ops;
      r, ops := ReconcileTeam();
      if r.None? { return; }
      OthersChangeTables();
      var plan := BuildTeardownPlan(r.value, db);
      if plan.bound != {} { return false, true, false; }
      NothingBoundNothingPlanned(r.value, db);
      if plan.blocking != {} || plan.cancellable != {} { return false, true, false; }
      Others();
      var removed := Works();
      if !removed { return; }
      present, failed := false, false;
      ok := Works();
    }

    /** `assign_team_member_slot`: unknown slots and slots of other repositories are refused. */
    method AssignTeamMemberSlot(memberId: string, slotId: string) returns (ok: bool)
      requires WellFormed(file)
      modifies this`file
      ensures var accepts := slotId in db.slots && db.slots[slotId].repoId == old(file).repoId
                         && KnownMember(old(file), memberId);
              && (ok ==> accepts)
              && file == if accepts
                         then AssignMemberSlot(old(file), memberId, slotId, db.slots[slotId].branch).after
                         else old(file)
    {
      if slotId !in db.slots || db.slots[slotId].repoId != file.repoId { return false; }
      AssignSlotSucceedsIff(file, memberId, slotId, db.slots[slotId].branch);
      var g := new TeamManifest(file);
      var r := g.AssignMemberSlot(memberId, slotId, db.slots[slotId].branch);
      if r.Failure? { return false; }
      file := g.View();
      ok := Works();
    }

    /** `bind_team_task_slot`, likewise. */
    method BindTeamTaskSlot(taskId: string, slotId: string) returns (ok: bool)
      requires WellFormed(file)
      modifies this`file
      ensures var accepts := slotId in db.slots && db.slots[slotId].repoId == old(file).repoId
                         && taskId in TaskIds(old(file).tasks);
              && (ok ==> accepts)
              && file == if accepts
                         then BindTaskSlot(old(file), taskId, slotId, db.slots[slotId].branch).after
                         else old(file)
    {
      if slotId !in db.slots || db.slots[slotId].repoId != file.repoId { return false; }
      BindSlotSucceedsIff(file, taskId, slotId, db.slots[slotId].branch);
      var g := new TeamManifest(file);
      var r := g.BindTaskSlot(taskId, slotId, db.slots[slotId].branch);
      if r.Failure? { return false; }
      file := g.View();
      ok := Works();
    }
  }

  /** The slots that a teardown answers for: those of the team's tasks, and of an archived team
      its members' too. */
  function Held(m: Manifest): set<string> {
    if m.status == Archived then BoundSlotIds(m) else BoundSlots(m.tasks)
  }

  predicate AllReconcile(ops: seq<TeamOp>) {
    forall op :: op in ops ==> op.Reconcile?
  }

  lemma OneStep(m: Manifest, op: TeamOp)
    ensures Run(m, [op]) == Step(m, op)
  {
    assert [op][..0] == [];
  }

  lemma {:induction false} RunConcat(m: Manifest, a: seq<TeamOp>, b: seq<TeamOp>)
    ensures Run(m, a + b) == Run(Run(m, a), b)
    decreases |b|
  {
    if b == [] {
      assert a + b == a;
    } else {
      RunConcat(m, a, b[..|b| - 1]);
      assert (a + b)[..|a + b| - 1] == a + b[..|b| - 1];
    }
  }

  lemma VacatedMore(acts: seq<Act>, more: seq<Act>)
    ensures forall s :: Vacated(acts, s) || Vacated(more, s) ==> Vacated(acts + more, s)
  {
  }

  lemma StatesAfter(m: Manifest, f: StoreFacts)
    requires WellFormed(m)
    ensures var n, k := InMemory(m, f), Step(m, TeamOp.Reconcile(f));
            k.status == n.status && CanArchive(n) == CanArchive(k)
  {
    SavedOrUnchanged(m, f);
    if m.status != Archived && !ReconcileChanges(m, f) {
      var after := ReconcileTasks(m.tasks, f);
      forall i | 0 <= i < |m.tasks| ensures after[i].state == m.tasks[i].state { UnchangedTask(m.tasks[i], f); }
      SameStatesArchive(m.tasks, after);
      SameStatesArchive(after, m.tasks);
    }
  }

  lemma SameStatesArchive(a: seq<Task>, b: seq<Task>)
    requires |a| == |b| && forall i :: 0 <= i < |a| ==> a[i].state == b[i].state
    ensures (forall t :: t in a ==> t.state.ArchiveTerminal()) ==> forall t :: t in b ==> t.state.ArchiveTerminal()
  {
    forall t | t in b && forall u :: u in a ==> u.state.ArchiveTerminal() ensures t.state.ArchiveTerminal() {
      var i :| 0 <= i < |b| && b[i] == t;
      assert a[i] in a;
    }
  }
}
