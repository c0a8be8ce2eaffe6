/** Linking and syncing a repository's shared skills into a runtime's skill directory
    (skills.rs, skills/install.rs), with the directory as a map from names to entries. */
module SkillSync {
  import opened Wrappers

  /** A canonical path, component by component. */
  type Path = seq<string>

  /** A directory entry: a symlink with the canonical path it resolves to, if it does; a directory
      with its content fingerprint; or something else. */
  datatype Entry =
    | Symlink(resolved: Option<Path>)
    | Directory(hasSkillMd: bool, fingerprint: string)
    | OtherFile

  /** A catalog skill: `copied` is the fingerprint a copy of it gets. It differs from its own when
      the source contains symlinks, which copying follows and fingerprinting does not. */
  datatype Skill = Skill(name: string, source: Path, fingerprint: string, copied: string)

  datatype Mode = LinkMode | CopyMode

  datatype Intent = Link | Sync

  datatype InstallState = Missing | Linked | Copied | Drifted | Conflict

  datatype Bucket = AsLinked | AsUpdated | AsSkipped

  function Lookup(dir: map<string, Entry>, name: string): Option<Entry> {
    if name in dir then Some(dir[name]) else None
  }

  /** `determine_install_state`: a symlink that does not resolve is an error. */
  function StateOf(skill: Skill, e: Option<Entry>): Result<InstallState, ()> {
    match e
    case None => Success(Missing)
    case Some(Symlink(None)) => Failure(())
    case Some(Symlink(Some(path))) => Success(if path == skill.source then Linked else Conflict)
    case Some(Directory(hasSkillMd, fingerprint)) =>
      Success(if !hasSkillMd then Conflict else if fingerprint == skill.fingerprint then Copied else Drifted)
    case Some(OtherFile) => Success(Conflict)
  }

  predicate MatchesMode(mode: Mode, s: InstallState) {
    (mode.CopyMode? && s.Copied?) || (mode.LinkMode? && s.Linked?)
  }

  /** What installing puts at the target. */
  function Installed(skill: Skill, mode: Mode): Entry {
    match mode
    case LinkMode => Symlink(Some(skill.source))
    case CopyMode => Directory(true, skill.copied)
  }

  predicate Dangling(e: Option<Entry>) {
    e.Some? && e.value == Symlink(None)
  }

  /** Where a skill ends up in the report, given what was at its target. */
  function BucketOf(skill: Skill, e: Option<Entry>, mode: Mode, intent: Intent): Bucket
    requires !Dangling(e)
  {
    var s := StateOf(skill, e).value;
    if s.Missing? then AsLinked
    else if intent.Sync? && (s.Drifted? || ((s.Linked? || s.Copied?) && !MatchesMode(mode, s))) then AsUpdated
    else AsSkipped
  }

  /** The entry at a skill's target after its turn. */
  function Settled(skill: Skill, e: Option<Entry>, mode: Mode, intent: Intent): Option<Entry>
    requires !Dangling(e)
  {
    if BucketOf(skill, e, mode, intent).AsSkipped? then e else Some(Installed(skill, mode))
  }

  ghost predicate DistinctNames(skills: seq<Skill>) {
    forall i, j :: 0 <= i < j < |skills| ==> skills[i].name != skills[j].name
  }

  ghost predicate NoneDangling(skills: seq<Skill>, dir: map<string, Entry>) {
    forall i :: 0 <= i < |skills| ==> !Dangling(Lookup(dir, skills[i].name))
  }

  function CatalogNames(skills: seq<Skill>): set<string> {
    set s | s in skills :: s.name
  }

  /** The names of a bucket, in catalog order. */
  ghost function NamesIn(skills: seq<Skill>, dir: map<string, Entry>, mode: Mode, intent: Intent,
                         b: Bucket): seq<string>
    requires NoneDangling(skills, dir)
  {
    if skills == [] then []
    else
      var init, s := skills[..|skills| - 1], skills[|skills| - 1];
      var rest := NamesIn(init, dir, mode, intent, b);
      if BucketOf(s, Lookup(dir, s.name), mode, intent) == b then rest + [s.name] else rest
  }

  /** `after` is `before` with each skill's target settled and nothing else touched. */
  ghost predicate AllSettled(skills: seq<Skill>, before: map<string, Entry>, after: map<string, Entry>, mode: Mode,
                             intent: Intent)
    requires NoneDangling(skills, before)
  {
    && (forall i :: 0 <= i < |skills| ==>
          Lookup(after, skills[i].name) == Settled(skills[i], Lookup(before, skills[i].name), mode, intent))
    && (forall n :: n !in CatalogNames(skills) ==> Lookup(after, n) == Lookup(before, n))
  }

  /** The catalog loop stopped at the dangling target of skill `k`. */
  ghost predicate StoppedAt(skills: seq<Skill>, before: map<string, Entry>, after: map<string, Entry>,
                            mode: Mode, intent: Intent, k: nat) {
    && k < |skills| && Dangling(Lookup(before, skills[k].name))
    && NoneDangling(skills[..k], before) && AllSettled(skills[..k], before, after, mode, intent)
  }

  /** The catalog loop's result: every target settled, every name reported in its bucket. */
  ghost predicate Placed(skills: seq<Skill>, before: map<string, Entry>, after: map<string, Entry>, mode: Mode,
                         intent: Intent,
                         linked: seq<string>, updated: seq<string>, skipped: seq<string>)
    requires NoneDangling(skills, before)
  {
    && AllSettled(skills, before, after, mode, intent)
    && linked == NamesIn(skills, before, mode, intent, AsLinked)
    && updated == NamesIn(skills, before, mode, intent, AsUpdated)
    && skipped == NamesIn(skills, before, mode, intent, AsSkipped)
  }

  /** `root` is the configured directory name below the canonical repository root, not resolved any
      further, while `path` is a fully resolved path. */
  predicate Under(root: Path, path: Path) {
    |root| <= |path| && path[..|root|] == root
  }

  /** What a sync removes: entries outside the catalog that are symlinks into the shared root. */
  predicate Prunable(e: Entry, root: Path) {
    e.Symlink? && e.resolved.Some? && Under(root, e.resolved.value)
  }

  ghost predicate Pruned(skills: seq<Skill>, root: Option<Path>, before: map<string, Entry>, after: map<string, Entry>,
                         names: seq<string>) {
    && (forall i, j :: 0 <= i < j < |names| ==> names[i] != names[j])
    && (forall n :: n in names <==>
          root.Some? && n in before && n !in CatalogNames(skills) && Prunable(before[n], root.value))
    && after == before - (set n | n in names)
  }

  datatype Report = Report(linked: seq<string>, updated: seq<string>, pruned: seq<string>, skipped: seq<string>)

  class TargetDir {
    var entries: map<string, Entry>

    /** One turn of the catalog loop. */
    method PlaceSkill(skill: Skill, mode: Mode, intent: Intent) returns (r: Result<Bucket, ()>)
      modifies this
      ensures r.Failure? <==> Dangling(Lookup(old(entries), skill.name))
      ensures r.Failure? ==> entries == old(entries)
      ensures r.Success? ==>
                && r.value == BucketOf(skill, Lookup(old(entries), skill.name), mode, intent)
                && Lookup(entries, skill.name) == Settled(skill, Lookup(old(entries), skill.name), mode, intent)
                && forall n :: n != skill.name ==> Lookup(entries, n) == Lookup(old(entries), n)
    {
      var state := StateOf(skill, Lookup(entries, skill.name));
      if state.Failure? { return Failure(()); }
      match state.value {
        case Missing =>
          Install(skill, mode);
          return Success(AsLinked);
        case Linked | Copied =>
          if MatchesMode(mode, state.value) { return Success(AsSkipped); }
          if intent == Link { return Success(AsSkipped); }
          RemoveTarget(skill.name);
          Install(skill, mode);
          return Success(AsUpdated);
        case Drifted =>
          if intent == Link { return Success(AsSkipped); }
          RemoveTarget(skill.name);
          Install(skill, mode);
          return Success(AsUpdated);
        case Conflict => return Success(AsSkipped);
      }
    }

    method Install(skill: Skill, mode: Mode)
      requires skill.name !in entries
      modifies this
      ensures entries == old(entries)[skill.name := Installed(skill, mode)]
    {
      entries := entries[skill.name := Installed(skill, mode)];
    }

    method RemoveTarget(name: string)
      modifies this
      ensures entries == old(entries) - {name}
    {
      entries := entries - {name};
    }

    /** The report list that a turn's name is pushed to. */
    static method FileUnder(b: Bucket, name: string, linked: seq<string>, updated: seq<string>, skipped: seq<string>)
      returns (linked': seq<string>, updated': seq<string>, skipped': seq<string>)
      ensures linked' == PushIf(linked, b.AsLinked?, name)
      ensures updated' == PushIf(updated, b.AsUpdated?, name)
      ensures skipped' == PushIf(skipped, b.AsSkipped?, name)
    {
      linked', updated', skipped' := linked, updated, skipped;
      match b {
        case AsLinked => linked' := linked + [name];
        case AsUpdated => updated' := updated + [name];
        case AsSkipped => skipped' := skipped + [name];
      }
    }

    method PlaceAll(skills: seq<Skill>, mode: Mode, intent: Intent)
      returns (ok: bool, linked: seq<string>, updated: seq<string>, skipped: seq<string>)
      requires DistinctNames(skills)
      modifies this
      ensures ok <==> NoneDangling(skills, old(entries))
      ensures ok ==> Placed(skills, old(entries), entries, mode, intent, linked, updated, skipped)
      ensures !ok ==> exists k :: StoppedAt(skills, old(entries), entries, mode, intent, k)
    {
      ghost var before := entries;
      linked, updated, skipped := [], [], [];
      for i := 0 to |skills|
        invariant NoneDangling(skills[..i], before)
        invariant Placed(skills[..i], before, entries, mode, intent, linked, updated, skipped)
      {
        var skill := skills[i];
        FreshName(skills, i);
        assert Lookup(entries, skill.name) == Lookup(before, skill.name);
        ghost var mid := entries;
        var r := PlaceSkill(skill, mode, intent);
        if r.Failure? {
          assert Dangling(Lookup(before, skills[i].name));
          assert StoppedAt(skills, before, entries, mode, intent, i);
          return false, linked, updated, skipped;
        }
        assert skills[..i + 1] == skills[..i] + [skill];
        PlaceOneMore(skills[..i], skill, before, mid, entries, mode, intent, linked, updated, skipped);
        linked, updated, skipped := FileUnder(r.value, skill.name, linked, updated, skipped);
      }
      assert skills[..|skills|] == skills;
      ok := true;
    }

    /** The prune loop. `listing` is what reading the directory yields, in any order. */
    method Prune(skills: seq<Skill>, root: Path, listing: seq<string>) returns (pruned: seq<string>)
      requires (forall i, j :: 0 <= i < j < |listing| ==> listing[i] != listing[j])
               && forall n :: n in listing <==> n in entries
      modifies this
      ensures Pruned(skills, Some(root), old(entries), entries, pruned)
    {
      ghost var before := entries;
      pruned := [];
      var known := CatalogNames(skills);
      for i := 0 to |listing|
        invariant forall n :: n in pruned <==>
                    n in listing[..i] && n in before && n !in known && Prunable(before[n], root)
        invariant forall j, k :: 0 <= j < k < |pruned| ==> pruned[j] != pruned[k]
        invariant entries == before - (set n | n in pruned)
      {
        var name := listing[i];
        assert name in listing && name !in listing[..i];
        assert listing[..i + 1] == listing[..i] + [name];
        if name !in known && Prunable(entries[name], root) {
          assert name !in pruned;
          RemoveTarget(name);
          pruned := pruned + [name];
        }
      }
      assert listing[..|listing|] == listing;
    }

    /** `reconcile_repo_skills`. It stops with an error at the first catalog skill whose target is
        a symlink that does not resolve; the skills before it are settled. `placed` is the
        directory between placing and pruning. */
    method Reconcile(skills: seq<Skill>, root: Option<Path>, mode: Mode, intent: Intent)
      returns (r: Result<Report, ()>, ghost placed: map<string, Entry>)
      requires DistinctNames(skills)
      modifies this
      ensures r.Success? <==> NoneDangling(skills, old(entries))
      ensures r.Success? ==>
                && Placed(skills, old(entries), placed, mode, intent, r.value.linked, r.value.updated, r.value.skipped)
                && Pruned(skills, if intent.Sync? then root else None, placed, entries, r.value.pruned)
      ensures r.Failure? ==> exists k :: StoppedAt(skills, old(entries), entries, mode, intent, k)
    {
      var ok, linked, updated, skipped := PlaceAll(skills, mode, intent);
      placed := entries;
      if !ok { return Failure(()), placed; }
      var pruned := [];
      if intent == Sync && root.Some? {
        var listing := ReadDir();
        pruned := Prune(skills, root.value, listing);
      } else {
        assert entries == entries - (set n | n in pruned);
      }
      r := Success(Report(linked, updated, pruned, skipped));
    }

    /** Reads the directory: every name once, in no particular order. */
    method ReadDir() returns (listing: seq<string>)
      ensures (forall i, j :: 0 <= i < j < |listing| ==> listing[i] != listing[j])
              && forall n :: n in listing <==> n in entries
    {
      listing := [];
      var left := entries.Keys;
      while left != {}
        invariant left <= entries.Keys
        invariant forall n :: n in listing <==> n in entries && n !in left
        invariant forall i, j :: 0 <= i < j < |listing| ==> listing[i] != listing[j]
        decreases left
      {
        var n :| n in left;
        left := left - {n};
        listing := listing + [n];
      }
    }
  }

  lemma SettleOneMore(done: seq<Skill>, skill: Skill, before: map<string, Entry>, mid: map<string, Entry>,
                      after: map<string, Entry>, mode: Mode, intent: Intent)
    requires NoneDangling(done, before) && AllSettled(done, before, mid, mode, intent)
    requires skill.name !in CatalogNames(done) && !Dangling(Lookup(before, skill.name))
    requires Lookup(after, skill.name) == Settled(skill, Lookup(before, skill.name), mode, intent)
    requires forall n :: n != skill.name ==> Lookup(after, n) == Lookup(mid, n)
    ensures NoneDangling(done + [skill], before) && AllSettled(done + [skill], before, after, mode, intent)
  {
    var all := done + [skill];
    forall i | 0 <= i < |all|
      ensures !Dangling(Lookup(before, all[i].name))
      ensures Lookup(after, all[i].name) == Settled(all[i], Lookup(before, all[i].name), mode, intent)
    {
      if i < |done| { assert all[i] == done[i] && done[i] in done; }
    }
    forall n | n !in CatalogNames(all) ensures Lookup(after, n) == Lookup(before, n) {
      assert skill in all;
      assert forall s :: s in done ==> s in all;
    }
  }

  lemma FreshName(skills: seq<Skill>, i: nat)
    requires DistinctNames(skills) && i < |skills|
    ensures skills[i].name !in CatalogNames(skills[..i])
  {
    forall s | s in skills[..i] ensures s.name != skills[i].name { var k :| 0 <= k < i && skills[k] == s; }
  }

  function PushIf(names: seq<string>, condition: bool, name: string): seq<string> {
    if condition then names + [name] else names
  }

  lemma PlaceOneMore(done: seq<Skill>, skill: Skill, before: map<string, Entry>, mid: map<string, Entry>,
                     after: map<string, Entry>, mode: Mode, intent: Intent,
                     linked: seq<string>, updated: seq<string>, skipped: seq<string>)
    requires NoneDangling(done, before) && Placed(done, before, mid, mode, intent, linked, updated, skipped)
    requires skill.name !in CatalogNames(done) && !Dangling(Lookup(before, skill.name))
    requires Lookup(after, skill.name) == Settled(skill, Lookup(before, skill.name), mode, intent)
    requires forall n :: n != skill.name ==> Lookup(after, n) == Lookup(mid, n)
    ensures NoneDangling(done + [skill], before)
    ensures var b := BucketOf(skill, Lookup(before, skill.name), mode, intent);
            Placed(done + [skill], before, after, mode, intent,
                   PushIf(linked, b.AsLinked?, skill.name), PushIf(updated, b.AsUpdated?, skill.name),
                       PushIf(skipped, b.AsSkipped?, skill.name))
  {
    SettleOneMore(done, skill, before, mid, after, mode, intent);
    SnocNames(done, skill, before, mode, intent);
  }

  lemma NamesSnoc(done: seq<Skill>, skill: Skill, dir: map<string, Entry>, mode: Mode, intent: Intent, b: Bucket)
    requires NoneDangling(done + [skill], dir) && NoneDangling(done, dir) && !Dangling(Lookup(dir, skill.name))
    ensures NamesIn(done + [skill], dir, mode, intent, b) ==
              if BucketOf(skill, Lookup(dir, skill.name), mode, intent) == b
                then NamesIn(done, dir, mode, intent, b) + [skill.name]
              else NamesIn(done, dir, mode, intent, b)
  {
    var all := done + [skill];
    assert all[..|all| - 1] == done && all[|all| - 1] == skill;
  }

  lemma SnocNames(done: seq<Skill>, skill: Skill, dir: map<string, Entry>, mode: Mode, intent: Intent)
    requires NoneDangling(done + [skill], dir) && NoneDangling(done, dir) && !Dangling(Lookup(dir, skill.name))
    ensures var b := BucketOf(skill, Lookup(dir, skill.name), mode, intent);
            && NamesIn(done + [skill], dir, mode, intent, AsLinked) ==
               PushIf(NamesIn(done, dir, mode, intent, AsLinked), b.AsLinked?, skill.name)
            && NamesIn(done + [skill], dir, mode, intent, AsUpdated) ==
               PushIf(NamesIn(done, dir, mode, intent, AsUpdated), b.AsUpdated?, skill.name)
            && NamesIn(done + [skill], dir, mode, intent, AsSkipped) ==
               PushIf(NamesIn(done, dir, mode, intent, AsSkipped), b.AsSkipped?, skill.name)
  {
    NamesSnoc(done, skill, dir, mode, intent, AsLinked);
    NamesSnoc(done, skill, dir, mode, intent, AsUpdated);
    NamesSnoc(done, skill, dir, mode, intent, AsSkipped);
  }

  lemma EmptyOrMember(names: seq<string>)
    ensures names == [] || exists n :: n in names
  {
    if names != [] { assert names[0] in names; }
  }

  // ---------------------------------------------------------------------------
  // What a pass guarantees
  // ---------------------------------------------------------------------------

  function NamesOf(skills: seq<Skill>): seq<string> {
    if skills == [] then [] else NamesOf(skills[..|skills| - 1]) + [skills[|skills| - 1].name]
  }

  ghost predicate Partition(l: seq<string>, u: seq<string>, k: seq<string>, all: seq<string>) {
    multiset(l) + multiset(u) + multiset(k) == multiset(all)
  }

  lemma PartitionMore(l: seq<string>, u: seq<string>, k: seq<string>, all: seq<string>, b: Bucket, n: string)
    requires Partition(l, u, k, all)
    ensures Partition(PushIf(l, b.AsLinked?, n), PushIf(u, b.AsUpdated?, n), PushIf(k, b.AsSkipped?, n), all + [n])
  {
  }

  /** Linked, updated and skipped partition the catalog. */
  lemma {:induction false} BucketsPartition(skills: seq<Skill>, before: map<string, Entry>, after: map<string, Entry>,
                                            mode: Mode, intent: Intent,
                                            linked: seq<string>, updated: seq<string>, skipped: seq<string>)
    requires NoneDangling(skills, before) && Placed(skills, before, after, mode, intent, linked, updated, skipped)
    ensures Partition(linked, updated, skipped, NamesOf(skills))
  {
    NamesPartition(skills, before, mode, intent);
  }

  lemma {:induction false} NamesPartition(skills: seq<Skill>, dir: map<string, Entry>, mode: Mode, intent: Intent)
    requires NoneDangling(skills, dir)
    ensures Partition(NamesIn(skills, dir, mode, intent, AsLinked), NamesIn(skills, dir, mode, intent, AsUpdated),
                      NamesIn(skills, dir, mode, intent, AsSkipped), NamesOf(skills))
  {
    if skills != [] {
      var init, s := skills[..|skills| - 1], skills[|skills| - 1];
      NamesPartition(init, dir, mode, intent);
      assert skills == init + [s];
      var b := BucketOf(s, Lookup(dir, s.name), mode, intent);
      SnocNames(init, s, dir, mode, intent);
      PartitionMore(NamesIn(init, dir, mode, intent, AsLinked), NamesIn(init, dir, mode, intent, AsUpdated),
          NamesIn(init, dir, mode, intent, AsSkipped),
                    NamesOf(init), b, s.name);
    }
  }

  lemma {:induction false} InBucketIff(skills: seq<Skill>, dir: map<string, Entry>, mode: Mode, intent: Intent,
                                       b: Bucket, n: string)
    requires NoneDangling(skills, dir)
    ensures n in NamesIn(skills, dir, mode, intent, b) <==>
            exists i :: 0 <= i < |skills| && skills[i].name == n
                && BucketOf(skills[i], Lookup(dir, skills[i].name), mode, intent) == b
  {
    if skills != [] {
      var init := skills[..|skills| - 1];
      InBucketIff(init, dir, mode, intent, b, n);
      assert forall i :: 0 <= i < |init| ==> init[i] == skills[i];
    }
  }

  /** What a pass replaces: only syncing does, and only a link to the skill itself, by a copy, and a
      directory with a SKILL.md, by a link, or by a copy if its content differs. */
  predicate Replaces(skill: Skill, was: Option<Entry>, mode: Mode, intent: Intent) {
    intent == Sync &&
    match was
    case Some(Symlink(path)) => path == Some(skill.source) && mode == CopyMode
    case Some(Directory(hasSkillMd, fingerprint)) =>
      hasSkillMd && (mode == LinkMode || fingerprint != skill.fingerprint)
    case _ => false
  }

  /** What is at a skill's target afterwards. */
  lemma TargetEffect(skills: seq<Skill>, before: map<string, Entry>, placed: map<string, Entry>, mode: Mode,
                     intent: Intent, i: nat)
    requires i < |skills| && NoneDangling(skills, before) && AllSettled(skills, before, placed, mode, intent)
    ensures var skill, was := skills[i], Lookup(before, skills[i].name);
            Lookup(placed, skill.name) ==
            if was != None && !Replaces(skill, was, mode, intent) then was
            else if mode == LinkMode then Some(Symlink(Some(skill.source)))
            else Some(Directory(true, skill.copied))
  {
    assert Lookup(placed, skills[i].name) == Settled(skills[i], Lookup(before, skills[i].name), mode, intent);
  }

  /** Where a skill is reported. */
  lemma ReportEffect(skills: seq<Skill>, before: map<string, Entry>, placed: map<string, Entry>, mode: Mode,
                     intent: Intent, linked: seq<string>, updated: seq<string>, skipped: seq<string>, i: nat)
    requires i < |skills| && DistinctNames(skills) && NoneDangling(skills, before)
    requires Placed(skills, before, placed, mode, intent, linked, updated, skipped)
    ensures var skill, was := skills[i], Lookup(before, skills[i].name);
            && (skill.name in linked <==> was == None)
            && (skill.name in updated <==> Replaces(skill, was, mode, intent))
            && (skill.name in skipped <==> was != None && !Replaces(skill, was, mode, intent))
  {
    InBucketIff(skills, before, mode, intent, AsLinked, skills[i].name);
    InBucketIff(skills, before, mode, intent, AsUpdated, skills[i].name);
    InBucketIff(skills, before, mode, intent, AsSkipped, skills[i].name);
    assert forall k :: 0 <= k < |skills| && skills[k].name == skills[i].name ==> k == i;
  }

  /** A pass stops with an error exactly at a link that does not resolve. */
  lemma NoneDanglingIff(skills: seq<Skill>, dir: map<string, Entry>)
    ensures NoneDangling(skills, dir) <==>
            forall i :: 0 <= i < |skills| ==> Lookup(dir, skills[i].name) != Some(Symlink(None))
  {
  }

  /** What a completed pass, link or sync, changes or removes at a catalog name was a link to that
      skill or a directory with a SKILL.md. A link elsewhere, a directory without a SKILL.md or a
      plain file is afterwards as before, and is reported skipped. */
  lemma StrangersStay(skills: seq<Skill>, root: Option<Path>, before: map<string, Entry>, placed: map<string, Entry>,
                      after: map<string, Entry>, mode: Mode, intent: Intent,
                      linked: seq<string>, updated: seq<string>, skipped: seq<string>, pruned: seq<string>, i: nat)
    requires i < |skills| && skills[i].name in before && DistinctNames(skills) && NoneDangling(skills, before)
    requires Placed(skills, before, placed, mode, intent, linked, updated, skipped)
    requires Pruned(skills, root, placed, after, pruned)
    ensures var n, e := skills[i].name, before[skills[i].name];
            && (Lookup(after, n) != Some(e) ==>
                  intent == Sync && (e == Symlink(Some(skills[i].source)) || (e.Directory? && e.hasSkillMd)))
            && (!(e == Symlink(Some(skills[i].source)) || (e.Directory? && e.hasSkillMd)) ==>
                  Lookup(after, n) == Some(e) && n in skipped && n !in updated && n !in pruned)
  {
    TargetEffect(skills, before, placed, mode, intent, i);
    ReportEffect(skills, before, placed, mode, intent, linked, updated, skipped, i);
    assert skills[i] in skills;
  }

  /** A prunable entry is a link to the shared root or to something below it. */
  lemma PrunableIff(e: Entry, root: Path)
    ensures Prunable(e, root) <==> exists rest :: e == Symlink(Some(root + rest))
  {
    if Prunable(e, root) {
      var path := e.resolved.value;
      assert path == root + path[|root|..];
    }
  }

  /** Linking never replaces or removes an existing target. */
  lemma LinkKeepsTargets(skills: seq<Skill>, before: map<string, Entry>, placed: map<string, Entry>,
                         after: map<string, Entry>, mode: Mode, pruned: seq<string>)
    requires NoneDangling(skills, before) && AllSettled(skills, before, placed, mode, Link)
             && Pruned(skills, None, placed, after, pruned)
    ensures pruned == [] && forall n :: n in before ==> n in after && after[n] == before[n]
  {
    EmptyOrMember(pruned);
    forall n | n in before ensures Lookup(after, n) == Some(before[n]) {
      if n in CatalogNames(skills) {
        var s :| s in skills && s.name == n;
        var i :| 0 <= i < |skills| && skills[i] == s;
        assert Lookup(placed, skills[i].name) == Settled(skills[i], Lookup(before, skills[i].name), mode, Link);
      } else {
        assert Lookup(placed, n) == Lookup(before, n);
      }
    }
  }

  /** Syncing removes nothing but non-catalog symlinks that resolve under the shared root. */
  lemma SyncRemovesOnlyPrunable(skills: seq<Skill>, root: Option<Path>, before: map<string, Entry>,
                                placed: map<string, Entry>,
                                after: map<string, Entry>, mode: Mode, pruned: seq<string>, n: string)
    requires NoneDangling(skills, before) && AllSettled(skills, before, placed, mode, Sync)
             && Pruned(skills, root, placed, after, pruned)
    requires n in before && n !in after
    ensures n !in CatalogNames(skills) && root.Some? && Prunable(before[n], root.value)
  {
    forall s | s in skills && s.name in before ensures s.name in placed && s.name !in pruned {
      var i :| 0 <= i < |skills| && skills[i] == s;
      assert Lookup(placed, skills[i].name) == Settled(skills[i], Lookup(before, skills[i].name), mode, Sync);
    }
    assert n !in CatalogNames(skills) ==> Lookup(placed, n) == Lookup(before, n);
  }

  lemma PrunesNothingIff(skills: seq<Skill>, root: Path, before: map<string, Entry>, after: map<string, Entry>,
                         pruned: seq<string>)
    requires Pruned(skills, Some(root), before, after, pruned)
    ensures pruned == [] <==> forall n :: n in before && n !in CatalogNames(skills) ==> !Prunable(before[n], root)
  {
    EmptyOrMember(pruned);
  }

  /** No symlink is met on the way down the path; `links` are the paths of all symlinks. */
  ghost predicate Canonical(links: set<Path>, path: Path) {
    forall k :: 0 <= k <= |path| ==> path[..k] !in links
  }

  /** Symlinks in the directory have been resolved all the way. */
  ghost predicate Resolved(links: set<Path>, dir: map<string, Entry>) {
    forall n :: n in dir && dir[n].Symlink? && dir[n].resolved.Some? ==> Canonical(links, dir[n].resolved.value)
  }

  lemma UnderCanonical(links: set<Path>, root: Path, path: Path)
    requires Canonical(links, path) && Under(root, path)
    ensures Canonical(links, root)
  {
    forall k | 0 <= k <= |root| ensures root[..k] !in links { assert path[..k] == root[..k]; }
  }

  lemma LongerName(names: set<string>) returns (n: string)
    ensures forall x :: x in names ==> |x| < |n|
  {
    if names == {} {
      n := "";
    } else {
      var x :| x in names;
      n := LongerName(names - {x});
      n := n + x + "+";
    }
  }

  /** What one prune may have removed, from a directory whose symlinks are resolved all the way. */
  ghost predicate CanPrune(skills: seq<Skill>, root: Path, links: set<Path>) {
    exists before, after, pruned ::
      Resolved(links, before) && Pruned(skills, Some(root), before, after, pruned) && pruned != []
  }

  lemma CanonicalRootPrunes(skills: seq<Skill>, root: Path, links: set<Path>)
    requires Canonical(links, root)
    ensures CanPrune(skills, root, links)
  {
    var n := LongerName(CatalogNames(skills));
    var before: map<string, Entry> := map[n := Symlink(Some(root))];
    var after := before - (set x | x in [n]);
    assert n in [n] && Pruned(skills, Some(root), before, after, [n]);
    assert [n] != [];
  }

  lemma LinkedRootPrunesNothing(skills: seq<Skill>, root: Path, links: set<Path>, before: map<string, Entry>,
                                after: map<string, Entry>, pruned: seq<string>)
    requires Resolved(links, before) && Pruned(skills, Some(root), before, after, pruned) && !Canonical(links, root)
    ensures pruned == []
  {
    forall n | n in before ensures !Prunable(before[n], root) {
      if Prunable(before[n], root) { UnderCanonical(links, root, before[n].resolved.value); }
    }
    PrunesNothingIff(skills, root, before, after, pruned);
  }

  /** Syncing can prune anything from any directory exactly when no symlink is met on the way to the
      shared root: the root is not resolved, while the links are. */
  lemma CanPruneIff(skills: seq<Skill>, root: Path, links: set<Path>)
    ensures CanPrune(skills, root, links) <==> Canonical(links, root)
  {
    if Canonical(links, root) {
      CanonicalRootPrunes(skills, root, links);
    } else {
      forall before: map<string, Entry>, after: map<string, Entry>, pruned: seq<string>
        | Resolved(links, before) && Pruned(skills, Some(root), before, after, pruned)
        ensures pruned == []
      {
        LinkedRootPrunesNothing(skills, root, links, before, after, pruned);
      }
    }
  }

  /** One completed sync, from `before` to `after`. */
  ghost predicate SyncedTo(skills: seq<Skill>, root: Option<Path>, mode: Mode, before: map<string, Entry>,
                           after: map<string, Entry>) {
    && NoneDangling(skills, before)
    && exists placed, pruned ::
          AllSettled(skills, before, placed, mode, Sync) && Pruned(skills, root, placed, after, pruned)
  }

  /** A link outside the catalog whose target is gone, such as one to a skill that has been deleted
      from the repository, survives every sync. */
  lemma DeadLinkStays(skills: seq<Skill>, root: Option<Path>, mode: Mode, before: map<string, Entry>,
                      after: map<string, Entry>, n: string)
    requires SyncedTo(skills, root, mode, before, after)
    requires n !in CatalogNames(skills) && Lookup(before, n) == Some(Symlink(None))
    ensures Lookup(after, n) == Some(Symlink(None))
  {
    var placed, pruned :| AllSettled(skills, before, placed, mode, Sync) && Pruned(skills, root, placed, after, pruned);
    assert Lookup(placed, n) == Lookup(before, n);
  }

  lemma SyncedEntry(skills: seq<Skill>, root: Option<Path>, mode: Mode, before: map<string, Entry>,
                    after: map<string, Entry>, i: nat)
    requires SyncedTo(skills, root, mode, before, after) && i < |skills|
    ensures Lookup(after, skills[i].name) == Settled(skills[i], Lookup(before, skills[i].name), mode, Sync)
  {
    var placed, pruned :| AllSettled(skills, before, placed, mode, Sync) && Pruned(skills, root, placed, after, pruned);
    assert skills[i] in skills;
    assert Lookup(placed, skills[i].name) == Settled(skills[i], Lookup(before, skills[i].name), mode, Sync);
  }

  /** A copy of the skill is recognised as one. */
  predicate CopiesFaithfully(skill: Skill) {
    skill.copied == skill.fingerprint
  }

  /** After a sync every catalog skill is in the requested mode, in conflict, or, under copying
      only, drifted because its copy is not recognised. */
  lemma SyncReachesMode(skills: seq<Skill>, root: Option<Path>, mode: Mode, before: map<string, Entry>,
                        after: map<string, Entry>, i: nat)
    requires SyncedTo(skills, root, mode, before, after) && i < |skills|
    ensures var s := StateOf(skills[i], Lookup(after, skills[i].name));
            s.Success? && (MatchesMode(mode, s.value) || s.value.Conflict?
                || (mode.CopyMode? && s.value.Drifted? && !CopiesFaithfully(skills[i])))
  {
    SyncedEntry(skills, root, mode, before, after, i);
  }

  /** One sync is enough for this skill: it is linked, or its target is a stranger's or already
      a copy, or a copy of it is recognised. */
  predicate Settles(skill: Skill, before: map<string, Entry>, mode: Mode) {
    var s := StateOf(skill, Lookup(before, skill.name));
    mode.LinkMode? || s == Success(Conflict) || s == Success(Copied) || CopiesFaithfully(skill)
  }

  lemma {:induction false} EmptyBucketIff(skills: seq<Skill>, dir: map<string, Entry>, mode: Mode, intent: Intent,
                                          b: Bucket)
    requires NoneDangling(skills, dir)
    ensures NamesIn(skills, dir, mode, intent, b) == [] <==>
            forall i :: 0 <= i < |skills| ==> BucketOf(skills[i], Lookup(dir, skills[i].name), mode, intent) != b
  {
    if skills != [] {
      var init := skills[..|skills| - 1];
      EmptyBucketIff(init, dir, mode, intent, b);
      assert forall i :: 0 <= i < |init| ==> init[i] == skills[i];
    }
  }

  /** A second sync right after a completed one completes too, links and prunes nothing, and
      updates nothing exactly when one sync was enough for every skill. (Otherwise it replaces
      the same copies every time.) */
  lemma SecondSyncQuietIff(skills: seq<Skill>, root: Option<Path>, mode: Mode, before: map<string, Entry>,
                           after: map<string, Entry>,
                           placed: map<string, Entry>, last: map<string, Entry>, pruned: seq<string>)
    requires SyncedTo(skills, root, mode, before, after)
    requires NoneDangling(skills, after) ==> AllSettled(skills, after, placed, mode, Sync)
    requires NoneDangling(skills, after) ==> Pruned(skills, root, placed, last, pruned)
    ensures NoneDangling(skills, after)
    ensures NamesIn(skills, after, mode, Sync, AsLinked) == [] && pruned == []
    ensures NamesIn(skills, after, mode, Sync, AsUpdated) == [] <==>
            forall i :: 0 <= i < |skills| ==> Settles(skills[i], before, mode)
  {
    forall i | 0 <= i < |skills|
      ensures !Dangling(Lookup(after, skills[i].name)) && Lookup(after, skills[i].name).Some?
      ensures BucketOf(skills[i], Lookup(after, skills[i].name), mode, Sync) ==
              if Settles(skills[i], before, mode) then AsSkipped else AsUpdated
    {
      SyncedEntry(skills, root, mode, before, after, i);
    }
    EmptyBucketIff(skills, after, mode, Sync, AsLinked);
    EmptyBucketIff(skills, after, mode, Sync, AsUpdated);
    NothingLeftToPrune(skills, root, mode, before, after, placed, last, pruned);
  }

  lemma NothingLeftToPrune(skills: seq<Skill>, root: Option<Path>, mode: Mode, before: map<string, Entry>,
                           after: map<string, Entry>,
                           placed: map<string, Entry>, last: map<string, Entry>, pruned: seq<string>)
    requires SyncedTo(skills, root, mode, before, after) && NoneDangling(skills, after)
    requires AllSettled(skills, after, placed, mode, Sync) && Pruned(skills, root, placed, last, pruned)
    ensures pruned == []
  {
    var placed0, pruned0 :|
        AllSettled(skills, before, placed0, mode, Sync) && Pruned(skills, root, placed0, after, pruned0);
    forall n | n in after && n !in CatalogNames(skills) && root.Some?
      ensures n in placed && placed[n] == after[n] && !Prunable(after[n], root.value)
    {
      assert Lookup(placed, n) == Lookup(after, n);
      assert n in placed0 && n !in pruned0;
    }
    forall n | n in placed && n !in CatalogNames(skills) ensures n in after {
      assert Lookup(placed, n) == Lookup(after, n);
    }
    EmptyOrMember(pruned);
  }
}
