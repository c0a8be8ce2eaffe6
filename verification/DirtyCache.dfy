/** The TTL cache in front of `git::dirty_files` (snapshot.rs) and its invalidation by the
    application's two dispatch entry points (app.rs). */
module DirtyCache {
  import opened Wrappers

  /** Five seconds, in milliseconds. */
  const DIRTY_CACHE_TTL := 5000

  type Files = seq<string>

  /** Git's answer for a worktree path at an instant; a failing git reads as no files. */
  type Git = (string, int) -> Result<Files, ()>

  function DirtyFiles(git: Git, path: string, at: int): Files {
    match git(path, at)
    case Success(files) => files
    case Failure(_) => []
  }

  datatype CacheEntry = CacheEntry(files: Files, cachedAt: int)

  predicate Fresh(entries: map<string, CacheEntry>, slotId: string, now: int) {
    slotId in entries && now - entries[slotId].cachedAt < DIRTY_CACHE_TTL
  }

  /** A read: the cache it leaves and its answer. */
  function ReadCache(git: Git, entries: map<string, CacheEntry>, slotId: string, path: string, now: int,
                     askedAt: int): (map<string, CacheEntry>, Files) {
    if Fresh(entries, slotId, now) then (entries, entries[slotId].files)
    else
      var files := DirtyFiles(git, path, askedAt);
      (entries[slotId := CacheEntry(files, now)], files)
  }

  function Restrict<T>(m: map<string, T>, keep: set<string>): map<string, T> {
    map id | id in m && id in keep :: m[id]
  }

  class DirtyFileCache {
    var entries: map<string, CacheEntry>

    constructor ()
      ensures entries == map[]
    {
      entries := map[];
    }

    /** `now` is read first; a refresh then runs git at `askedAt`. */
    method GetOrRefresh(git: Git, slotId: string, path: string, now: int, askedAt: int) returns (files: Files)
      modifies this
      ensures (entries, files) == ReadCache(git, old(entries), slotId, path, now, askedAt)
    {
      if slotId in entries {
        var entry := entries[slotId];
        if now - entry.cachedAt < DIRTY_CACHE_TTL {
          return entry.files;
        }
      }
      match git(path, askedAt) {
        case Success(answer) => files := answer;
        case Failure(_) => files := [];
      }
      entries := entries[slotId := CacheEntry(files, now)];
    }

    method RetainSlots(activeSlotIds: seq<string>)
      modifies this
      ensures entries == Restrict(old(entries), set id | id in activeSlotIds)
    {
      entries := map id | id in entries && id in activeSlotIds :: entries[id];
    }

    method Invalidate(slotId: string)
      modifies this
      ensures entries == old(entries) - {slotId}
    {
      entries := entries - {slotId};
    }
  }

  // ---------------------------------------------------------------------------
  // Commands
  // ---------------------------------------------------------------------------

  datatype Command =
    | SlotRelease(slotId: string)
    | SlotDelete(slotId: string)
    | SlotRefresh(slotId: string)
    | SlotPrune
    | Other

  /** `AppCore::dispatch` invalidates before it forwards; the `Dispatcher` trait's own `dispatch`,
      which the MCP server calls, only forwards. */
  datatype Entry = Inherent | ViaTrait

  predicate Invalidates(command: Command) {
    command.SlotRelease? || command.SlotDelete? || command.SlotRefresh?
  }

  datatype CacheOp =
    | Read(slotId: string, path: string, now: int, askedAt: int)
    | Dispatch(entry: Entry, command: Command)
    | Snapshot(slotIds: seq<string>)   // the pruning at the end of a snapshot

  /** One git query: which slot, at which path, the clock before it and the instant it ran. */
  datatype Query = Query(slotId: string, path: string, startedAt: int, askedAt: int)

  /** The cache, the queries made so far, and the last read's answer with the query it stems from. */
  datatype World = World(entries: map<string, CacheEntry>, queries: seq<Query>, sources: map<string, nat>,
                         answer: Option<(string, Files, nat)>)

  function Exec(git: Git, w: World, op: CacheOp): World {
    match op
    case Read(s, path, now, askedAt) =>
      var (entries, files) := ReadCache(git, w.entries, s, path, now, askedAt);
      if Fresh(w.entries, s, now) then
        w.(answer := if s in w.sources then Some((s, files, w.sources[s])) else None)
      else
        World(entries, w.queries + [Query(s, path, now, askedAt)], w.sources[s := |w.queries|],
            Some((s, files, |w.queries|)))
    case Dispatch(entry, command) =>
      if entry.Inherent? && Invalidates(command) then
        w.(entries := w.entries - {command.slotId}, sources := w.sources - {command.slotId})
      else w
    case Snapshot(slotIds) =>
      var keep := set id | id in slotIds;
      w.(entries := Restrict(w.entries, keep), sources := Restrict(w.sources, keep))
  }

  const EMPTY_WORLD := World(map[], [], map[], None)

  function Run(git: Git, ops: seq<CacheOp>): World
    decreases |ops|
  {
    if ops == [] then EMPTY_WORLD else Exec(git, Run(git, ops[..|ops| - 1]), ops[|ops| - 1])
  }

  /** Each entry holds the answer of the query recorded as its source. */
  ghost predicate Sourced(git: Git, w: World) {
    && w.sources.Keys == w.entries.Keys
    && (forall id :: id in w.sources ==>
          && w.sources[id] < |w.queries|
          && var q := w.queries[w.sources[id]];
             q.slotId == id && q.startedAt == w.entries[id].cachedAt
             && w.entries[id].files == DirtyFiles(git, q.path, q.askedAt))
  }

  lemma ExecKeepsSourced(git: Git, w: World, op: CacheOp)
    requires Sourced(git, w)
    ensures Sourced(git, Exec(git, w, op))
  {
  }

  lemma {:induction false} RunSourced(git: Git, ops: seq<CacheOp>)
    ensures Sourced(git, Run(git, ops))
    decreases |ops|
  {
    if ops != [] {
      RunSourced(git, ops[..|ops| - 1]);
      ExecKeepsSourced(git, Run(git, ops[..|ops| - 1]), ops[|ops| - 1]);
    }
  }

  /** Bounded staleness: after any run, a read is answered with what git said about that slot,
      at the path it was then asked about, in a query begun less than the TTL before the read;
      an answer not served from the cache is git's answer to this very read. */
  lemma {:induction false} BoundedStaleness(git: Git, ops: seq<CacheOp>, s: string, path: string, now: int,
                                            askedAt: int)
    ensures var before := Run(git, ops);
            var after := Exec(git, before, Read(s, path, now, askedAt));
            && after.answer.Some? && after.answer.value.0 == s
            && after.answer.value.2 < |after.queries|
            && var q := after.queries[after.answer.value.2];
               && q.slotId == s
               && (git(q.path, q.askedAt) == Success(after.answer.value.1)
                   || (git(q.path, q.askedAt).Failure? && after.answer.value.1 == []))
               && now - q.startedAt < DIRTY_CACHE_TTL
               && (|after.queries| > |before.queries| ==> q == Query(s, path, now, askedAt))
  {
    RunSourced(git, ops);
  }

  /** The clock never runs backwards: every read looks at it before running git, and after every
      earlier read has run git. */
  ghost predicate ReadsInOrder(ops: seq<CacheOp>) {
    && (forall i :: 0 <= i < |ops| && ops[i].Read? ==> ops[i].now <= ops[i].askedAt)
    && (forall i, j :: 0 <= i < j < |ops| && ops[i].Read? && ops[j].Read? ==> ops[i].askedAt <= ops[j].now)
  }

  lemma {:induction false} QueriesInOrder(git: Git, ops: seq<CacheOp>, now: int)
    requires ReadsInOrder(ops) && forall i :: 0 <= i < |ops| && ops[i].Read? ==> ops[i].askedAt <= now
    ensures forall q :: q in Run(git, ops).queries ==> q.startedAt <= q.askedAt <= now
    decreases |ops|
  {
    if ops != [] {
      var init := ops[..|ops| - 1];
      assert forall i :: 0 <= i < |init| ==> init[i] == ops[i];
      QueriesInOrder(git, init, now);
    }
  }

  /** Under a clock that never runs backwards, every read is answered with what git said about the
      slot at an instant that is not after the read and less than the TTL before it. */
  lemma {:induction false} ServedWithinTtl(git: Git, ops: seq<CacheOp>, s: string, path: string, now: int, askedAt: int)
    requires ReadsInOrder(ops + [Read(s, path, now, askedAt)])
    ensures var after := Exec(git, Run(git, ops), Read(s, path, now, askedAt));
            && after.answer.Some? && after.answer.value.2 < |after.queries|
            && var q := after.queries[after.answer.value.2];
               && q.slotId == s
               && (git(q.path, q.askedAt) == Success(after.answer.value.1)
                   || (git(q.path, q.askedAt).Failure? && after.answer.value.1 == []))
               && now - q.askedAt < DIRTY_CACHE_TTL && q.askedAt <= askedAt
               && (|after.queries| == |Run(git, ops).queries| ==> q.askedAt <= now)
  {
    var all := ops + [Read(s, path, now, askedAt)];
    assert all[|ops|] == Read(s, path, now, askedAt);
    forall i | 0 <= i < |ops| && ops[i].Read?
      ensures ops[i].now <= ops[i].askedAt <= now
      ensures forall j :: i < j < |ops| && ops[j].Read? ==> ops[i].askedAt <= ops[j].now
    {
      assert all[i] == ops[i];
      assert forall j :: 0 <= j < |ops| ==> all[j] == ops[j];
    }
    BoundedStaleness(git, ops, s, path, now, askedAt);
    QueriesInOrder(git, ops, now);
  }

  /** Anything but a read of slot `s`. */
  predicate Quiet(op: CacheOp, s: string) {
    !(op.Read? && op.slotId == s)
  }

  /** A snapshot keeps the entries of the slots that it shows, as they are, and drops the others. */
  lemma SnapshotKeeps(git: Git, w: World, slotIds: seq<string>, s: string)
    ensures var after := Exec(git, w, Snapshot(slotIds));
            && (s in after.entries <==> s in w.entries && s in slotIds)
            && (s in after.entries ==> after.entries[s] == w.entries[s])
            && after.queries == w.queries
  {
  }

  /** Once a slot has no entry, none appears before it is read. */
  lemma {:induction false} StaysUncached(git: Git, ops: seq<CacheOp>, more: seq<CacheOp>, s: string)
    requires s !in Run(git, ops).entries
    requires forall op :: op in more ==> Quiet(op, s)
    ensures s !in Run(git, ops + more).entries
    decreases |more|
  {
    var all := ops + more;
    if more == [] {
      assert all == ops;
    } else {
      var init := more[..|more| - 1];
      StaysUncached(git, ops, init, s);
      assert more[|more| - 1] in more;
      assert all[..|all| - 1] == ops + init && all[|all| - 1] == more[|more| - 1];
    }
  }

  /** After the application dispatches a release, delete or refresh of a slot, the next read of
      that slot asks git again, whatever else happens in between. */
  lemma DispatchForcesRequery(git: Git, ops: seq<CacheOp>, command: Command, more: seq<CacheOp>, s: string,
                              path: string, now: int, askedAt: int)
    requires command == SlotRelease(s) || command == SlotDelete(s) || command == SlotRefresh(s)
    requires forall op :: op in more ==> Quiet(op, s)
    ensures var before := Run(git, ops + [Dispatch(Inherent, command)] + more);
            var after := Exec(git, before, Read(s, path, now, askedAt));
            after.queries == before.queries + [Query(s, path, now, askedAt)]
  {
    var first := ops + [Dispatch(Inherent, command)];
    assert first[..|first| - 1] == ops;
    StaysUncached(git, first, more, s);
  }

  /** Right after a dispatch a read of a slot asks git exactly if the command is a release, delete
      or refresh of that slot taken through the inherent entry point, or the slot has no entry, or
      one that is five seconds old. The same command through the trait leaves the old answer. */
  lemma RequeryIff(git: Git, ops: seq<CacheOp>, entry: Entry, command: Command, s: string, path: string, now: int,
                   askedAt: int)
    ensures var w := Run(git, ops);
            var before := Exec(git, w, Dispatch(entry, command));
            var after := Exec(git, before, Read(s, path, now, askedAt));
            |after.queries| > |before.queries| <==>
            || (entry == Inherent && command in {SlotRelease(s), SlotDelete(s), SlotRefresh(s)})
            || s !in w.entries || now - w.entries[s].cachedAt >= 5000
  {
  }
}
