/** What every step keeps about the data: the snapshots of an upgrade and the volumes of a rollback. */
module DataInvariants {
  import opened Wrappers
  import opened Protocol
  import opened Invariants

  // ----- snapshots -----

  predicate OnRecord(facts: set<SnapFact>, refs: seq<SnapRef>) {
    forall r | r in refs :: SnapFact(r, true) in facts
  }

  predicate Covers(cfg: Config, pvcs: seq<string>) {
    if cfg.explicitPvcs != [] then pvcs == cfg.explicitPvcs else Distinct(pvcs)
  }

  predicate Snaps(cfg: Config, s: State) {
    var h, p := s.hist.up, s.upPass;
    && OnRecord(h.snaps, s.up.snapshots)
    && OnRecord(h.snaps, p.work.created)
    && p.seen.ready <= h.ready
    && (p.seen.pvcs.Some? ==> Covers(cfg, p.seen.pvcs.value))
    && (s.up.snapshots != [] ==> Covers(cfg, PvcsOf(s.up.snapshots)) && s.up.stopped)
    && (s.up.snapReady ==> forall r | r in s.up.snapshots :: r.snap in h.ready)
    && (s.up.snapReady && !cfg.dryRun && cfg.Snapshots() && cfg.explicitPvcs != [] ==> s.up.snapshots != [])
  }

  lemma SnapsUpWrite(cfg: Config, s: State, up: UpStatus)
    requires Snaps(cfg, s) && Order(cfg, s) && UpgradeWrite(cfg, s.up, up, s.upPass)
    ensures Snaps(cfg, s.(up := up))
  {
    hide RollbackOrder, Distinct;
    if !cfg.dryRun { SnapsLiveWrite(cfg, s, up); }
  }

  lemma SnapsLiveWrite(cfg: Config, s: State, up: UpStatus)
    requires !cfg.dryRun && Snaps(cfg, s) && UpgradeOrder(cfg, s.up) && UpgradeWrite(cfg, s.up, up, s.upPass)
    ensures Snaps(cfg, s.(up := up))
  {
    hide Distinct;
  }

  lemma SnapsRbWrite(cfg: Config, s: State, rb: RbStatus)
    requires Snaps(cfg, s)
    ensures Snaps(cfg, s.(rb := rb))
  {
    hide OnRecord, Covers;
  }

  lemma SnapsDid(cfg: Config, s: State, call: Call)
    requires Snaps(cfg, s)
    requires call.CreateSnapshot? ==> s.up.stopped
    ensures Snaps(cfg, Apply(cfg, s, Did(Upgrader, call)))
  {
    hide Covers, WorldAfter, RbHistoryAfter, FluxAfterCall, SnapshotName;
  }

  lemma SnapsSaw(cfg: Config, s: State, sight: Sight)
    requires Snaps(cfg, s)
    requires sight.SawPvcs? ==> Covers(cfg, sight.pvcs)
    ensures Snaps(cfg, Apply(cfg, s, Saw(Upgrader, sight)))
  {
    hide Covers, OnRecord, WorldAfter, RbHistoryAfter, FluxAfterSight, Hoped;
  }

  lemma SnapsElsewhere(cfg: Config, s: State, e: Event)
    requires Snaps(cfg, s) && !e.WriteUpgrade? && !e.WriteRollback?
    requires !(e.Saw? && e.who == Upgrader) && !(e.Did? && e.who == Upgrader)
    ensures Snaps(cfg, Apply(cfg, s, e))
  {
    hide Covers, WorldAfter, RbHistoryAfter, FluxAfterCall, WorkAfterCall, NoteSight, Hoped;
  }

  lemma SnapsKept(cfg: Config, s: State, e: Event)
    requires Snaps(cfg, s) && Order(cfg, s) && Enabled(cfg, s, e)
    ensures Snaps(cfg, Apply(cfg, s, e))
  {
    hide Apply, Snaps, Order, RollbackWrite, UpgradeWrite, EndOk, Benign, Accepted, RollbackCall;
    match e
    case WriteUpgrade(up) =>
      WriteUpgradeOnly(cfg, s, up);
      SnapsUpWrite(cfg, s, up);
    case WriteRollback(rb) =>
      WriteRollbackOnly(cfg, s, rb);
      SnapsRbWrite(cfg, s, rb);
    case Did(Upgrader, call) => SnapsDid(cfg, s, call);
    case Saw(Upgrader, sight) => SnapsSaw(cfg, s, sight);
    case _ => SnapsElsewhere(cfg, s, e);
  }

  // ----- snapshot names -----

  predicate DistinctSnaps(refs: seq<SnapRef>) {
    forall i, j | 0 <= i < j < |refs| :: refs[i].snap != refs[j].snap && refs[i].pvc != refs[j].pvc
  }

  predicate Named(cfg: Config, refs: seq<SnapRef>, timestamp: Option<string>) {
    refs != [] ==> timestamp.Some? && forall r | r in refs :: r.snap == SnapshotName(cfg, r.pvc, timestamp.value)
  }

  ghost predicate OneTimestamp(cfg: Config, refs: seq<SnapRef>) {
    exists timestamp :: Named(cfg, refs, Some(timestamp))
  }

  /** All snapshots of a request carry one timestamp; and unless somebody else deletes snapshots, no name is
      used twice. */
  ghost predicate Names(cfg: Config, s: State) {
    var w := s.upPass.work;
    && Named(cfg, w.created, w.timestamp)
    && OneTimestamp(cfg, s.up.snapshots)
    && (!s.hist.otherSnaps ==>
          && DistinctSnaps(w.created)
          && DistinctSnaps(s.up.snapshots)
          && (!s.up.healthy ==> forall r | r in w.created :: r.snap in s.world.snaps))
  }

  lemma NamesUpWrite(cfg: Config, s: State, up: UpStatus)
    requires Names(cfg, s) && UpgradeWrite(cfg, s.up, up, s.upPass)
    ensures Names(cfg, s.(up := up))
  {
    hide SnapshotName, DistinctSnaps, Named, FailWrite, StopWrite, SuspendWrite, CommitWrite, ReconcileWrite, HealthyWrite,
         CompleteWrite, DryWrite;
    RecordOnly(cfg, s.up, up, s.upPass);
    if up.snapshots != s.up.snapshots { TimestampOf(cfg, up.snapshots, s.upPass.work.timestamp); }
  }

  lemma TimestampOf(cfg: Config, refs: seq<SnapRef>, timestamp: Option<string>)
    requires refs != [] && Named(cfg, refs, timestamp)
    ensures OneTimestamp(cfg, refs)
  {
    assert Named(cfg, refs, Some(timestamp.value));
  }

  /** A status write leaves the snapshots on record as they are, or records those the pass has created. */
  lemma RecordOnly(cfg: Config, was: UpStatus, next: UpStatus, p: Pass)
    requires UpgradeWrite(cfg, was, next, p)
    ensures next.snapshots == was.snapshots || (next.snapshots == p.work.created && p.work.created != [])
    ensures was.healthy ==> next.healthy
  {
    hide FailWrite, DryWrite, SuspendWrite, StopWrite, SnapshotWrite, CommitWrite, ReconcileWrite, HealthyWrite,
         CompleteWrite, StartsInTime;
    if SnapshotWrite(cfg, was, next, p) {
      RecordTaken(cfg, was, next, p);
    } else {
      RecordLeft(cfg, was, next, p);
    }
  }

  lemma RecordTaken(cfg: Config, was: UpStatus, next: UpStatus, p: Pass)
    requires SnapshotWrite(cfg, was, next, p)
    ensures next.snapshots == was.snapshots || (next.snapshots == p.work.created && p.work.created != [])
    ensures next.healthy == was.healthy
  {
    hide AllReady, StartedTimer, PvcsOf;
  }

  lemma RecordLeft(cfg: Config, was: UpStatus, next: UpStatus, p: Pass)
    requires FailWrite(cfg, was, next, p) || DryWrite(was, next, p) || SuspendWrite(cfg, was, next, p)
             || StopWrite(cfg, was, next, p) || CommitWrite(cfg, was, next, p) || ReconcileWrite(was, next, p)
             || HealthyWrite(was, next, p) || CompleteWrite(was, next, p)
    ensures next.snapshots == was.snapshots && (was.healthy ==> next.healthy)
  {
    hide Stopped, Scaled, CommitVersion, StartedTimer, Stamped, Exercised, Upgraded;
  }

  /** Under one timestamp, snapshots of different PVCs have different names. */
  lemma OneTimestampDistinct(cfg: Config, refs: seq<SnapRef>)
    requires OneTimestamp(cfg, refs) && Distinct(PvcsOf(refs))
    ensures DistinctSnaps(refs)
  {
    if refs != [] {
      var timestamp :| Named(cfg, refs, Some(timestamp));
      forall i, j | 0 <= i < j < |refs| ensures refs[i].snap != refs[j].snap && refs[i].pvc != refs[j].pvc {
        assert PvcsOf(refs)[i] != PvcsOf(refs)[j];
        assert refs[i] in refs && refs[j] in refs;
        SameNameSamePvc(cfg, refs[i].pvc, refs[j].pvc, timestamp);
      }
    }
  }

  lemma SameNameSamePvc(cfg: Config, a: string, b: string, timestamp: string)
    ensures SnapshotName(cfg, a, timestamp) == SnapshotName(cfg, b, timestamp) ==> a == b
  {
    var x, y := SnapshotName(cfg, a, timestamp), SnapshotName(cfg, b, timestamp);
    var n := |cfg.appName| + 1;
    assert x[n..n + |a|] == a && y[n..n + |b|] == b;
  }

  lemma NamesRbWrite(cfg: Config, s: State, rb: RbStatus)
    requires Names(cfg, s)
    ensures Names(cfg, s.(rb := rb))
  {
    hide OneTimestamp, Named, DistinctSnaps;
  }

  lemma NamesCreate(cfg: Config, s: State, pvc: string, timestamp: string)
    requires Names(cfg, s) && UpgradeCall(cfg, s.up, s.upPass, CreateSnapshot(pvc, timestamp))
    requires Order(cfg, s)
    requires SnapshotName(cfg, pvc, timestamp) !in s.world.snaps
    ensures Names(cfg, Apply(cfg, s, Did(Upgrader, CreateSnapshot(pvc, timestamp))))
  {
    hide OneTimestamp, SnapshotName, UpHistoryAfter, RbHistoryAfter;
    var name := SnapshotName(cfg, pvc, timestamp);
    var w := s.upPass.work;
    if !s.hist.otherSnaps {
      forall r | r in w.created ensures r.snap != name && r.pvc != pvc {
        assert r.snap == SnapshotName(cfg, r.pvc, w.timestamp.value);
      }
    }
  }

  lemma NamesSaw(cfg: Config, s: State, who: Actor, sight: Sight)
    requires Names(cfg, s)
    ensures Names(cfg, Apply(cfg, s, Saw(who, sight)))
  {
    hide OneTimestamp, SnapshotName, UpHistoryAfter, RbHistoryAfter, FluxAfterSight, SightsAfter, Hoped, DistinctSnaps;
  }

  lemma NamesDid(cfg: Config, s: State, who: Actor, call: Call)
    requires Names(cfg, s)
    requires !call.CreateSnapshot? && (call.DeleteSnapshot? ==> s.up.healthy)
    ensures Names(cfg, Apply(cfg, s, Did(who, call)))
  {
    hide OneTimestamp, SnapshotName, UpHistoryAfter, RbHistoryAfter, FluxAfterCall, DistinctSnaps;
  }

  lemma NamesElsewhere(cfg: Config, s: State, e: Event)
    requires Names(cfg, s) && !e.WriteUpgrade? && !e.WriteRollback? && !e.Saw? && !e.Did?
    requires e.EnvWorld? ==> forall n | n in s.world.snaps :: n in e.world.snaps
    ensures Names(cfg, Apply(cfg, s, e))
  {
    hide OneTimestamp, SnapshotName, UpHistoryAfter, RbHistoryAfter, NoteCall, NoteSight, Effect, DistinctSnaps, RankOf;
    EmptyDistinct();
  }

  lemma EmptyDistinct()
    ensures DistinctSnaps([])
  {
  }

  lemma NamesOtherDid(cfg: Config, s: State, who: Actor, call: Call)
    requires Names(cfg, s) && MayCall(cfg, s, who, call) && !(who == Upgrader && call.CreateSnapshot?)
    ensures Names(cfg, Apply(cfg, s, Did(who, call)))
  {
    hide Apply, Names, Prepared, RbPrepared, NamesOf, NextToRestore, RevertVersion, CommitVersion;
    NamesDid(cfg, s, who, call);
  }

  lemma NamesKept(cfg: Config, s: State, e: Event)
    requires Names(cfg, s) && Order(cfg, s) && Enabled(cfg, s, e)
    ensures Names(cfg, Apply(cfg, s, e))
  {
    hide Apply, Names, Order, RollbackWrite, UpgradeWrite, EndOk, IsTrueSight, RollbackCall;
    match e
    case WriteUpgrade(up) =>
      WriteUpgradeOnly(cfg, s, up);
      NamesUpWrite(cfg, s, up);
    case WriteRollback(rb) =>
      WriteRollbackOnly(cfg, s, rb);
      NamesRbWrite(cfg, s, rb);
    case Did(Upgrader, CreateSnapshot(pvc, timestamp)) => NamesCreate(cfg, s, pvc, timestamp);
    case Did(who, call) => NamesOtherDid(cfg, s, who, call);
    case Saw(who, sight) => NamesSaw(cfg, s, who, sight);
    case _ => NamesElsewhere(cfg, s, e);
  }

  // ----- restored volumes -----

  /** The PVC is the one recreated from the snapshot, and nobody has deleted it since. */
  predicate Recreated(w: World, ref: SnapRef) {
    ref.pvc in w.pvcs && w.pvcs[ref.pvc].origin == FromSnapshot(ref.snap) && !w.pvcs[ref.pvc].terminating
  }

  /** The record is a prefix of the snapshot list, in order, each PVC with its own snapshot. */
  predicate IsPrefix(restored: seq<RestoredPvc>, refs: seq<SnapRef>) {
    |restored| <= |refs| && forall i | 0 <= i < |restored| :: restored[i].ref == refs[i]
  }

  /** The list without the entries whose PVC stands before. */
  function Firsts(refs: seq<SnapRef>): seq<SnapRef> {
    if refs == [] then []
    else
      var last := refs[|refs| - 1];
      var before := refs[..|refs| - 1];
      if last.pvc in PvcsOf(before) then Firsts(before) else Firsts(before) + [last]
  }

  predicate DistinctPvcs(refs: seq<SnapRef>) {
    forall i, j | 0 <= i < j < |refs| :: refs[i].pvc != refs[j].pvc
  }

  /** The record is a prefix of the snapshot list, each PVC taken once; PVCs nobody else has touched are the
      ones recreated. */
  predicate Volumes(cfg: Config, s: State) {
    var rb, w := s.rb, s.rbPass.work;
    && IsPrefix(rb.restored, Firsts(s.up.snapshots))
    && (rb.volumes && Restorable(s.up, cfg) ==>
          |rb.restored| == |Firsts(s.up.snapshots)| && forall r | r in rb.restored :: r.state == Restored)
    && (forall r | r in rb.restored && r.state == Restored :: r.ref.pvc in s.hist.rb.bound)
    && w.bound <= s.hist.rb.bound
    && (forall r | r in rb.restored && r.ref.pvc !in s.hist.touched :: Recreated(s.world, r.ref))
    && (w.made.Some? && w.made.value.pvc !in s.hist.touched ==> Recreated(s.world, w.made.value))
  }

  lemma {:induction false} FirstsAreDistinct(refs: seq<SnapRef>)
    ensures DistinctPvcs(Firsts(refs))
    ensures forall f | f in Firsts(refs) :: f in refs
    ensures forall r | r in refs :: r.pvc in PvcsOf(Firsts(refs))
  {
    if refs != [] {
      var before := refs[..|refs| - 1];
      var last := refs[|refs| - 1];
      FirstsAreDistinct(before);
      assert refs == before + [last];
      var f := Firsts(before);
      if last.pvc in PvcsOf(before) {
        var j :| 0 <= j < |before| && PvcsOf(before)[j] == last.pvc;
        assert before[j] in before;
      } else {
        forall i | 0 <= i < |f| ensures f[i].pvc != last.pvc {
          assert f[i] in before;
          var j :| 0 <= j < |before| && before[j] == f[i];
          assert PvcsOf(before)[j] == f[i].pvc;
        }
        assert PvcsOf(f + [last]) == PvcsOf(f) + [last.pvc];
      }
    }
  }

  /** What comes first in a part of the list comes first in the list. */
  lemma {:induction false} FirstsOfPart(refs: seq<SnapRef>, n: nat)
    requires n <= |refs|
    ensures Firsts(refs[..n]) <= Firsts(refs)
  {
    if n == |refs| {
      assert refs[..n] == refs;
    } else {
      var before := refs[..|refs| - 1];
      FirstsOfPart(before, n);
      assert before[..n] == refs[..n];
    }
  }

  /** A list that names no PVC twice is its own list of firsts. */
  lemma {:induction false} DistinctAreFirsts(refs: seq<SnapRef>)
    requires Distinct(PvcsOf(refs))
    ensures Firsts(refs) == refs
  {
    if refs != [] {
      var before := refs[..|refs| - 1];
      assert PvcsOf(before) == PvcsOf(refs)[..|refs| - 1];
      DistinctAreFirsts(before);
      forall j | 0 <= j < |before| ensures PvcsOf(before)[j] != refs[|refs| - 1].pvc {
        assert PvcsOf(refs)[j] != PvcsOf(refs)[|refs| - 1];
      }
      assert refs == before + [refs[|refs| - 1]];
    }
  }

  lemma InPrefix(refs: seq<SnapRef>, restored: seq<RestoredPvc>, k: nat)
    requires DistinctPvcs(refs) && IsPrefix(restored, refs) && k < |refs|
    ensures refs[k].pvc in NamesOf(restored) <==> k < |restored|
  {
    if refs[k].pvc in NamesOf(restored) {
      var r :| r in restored && r.ref.pvc == refs[k].pvc;
      var j :| 0 <= j < |restored| && restored[j] == r;
      assert j == k;
    }
    if k < |restored| { assert restored[k] in restored; }
  }

  /** An entry whose PVC has not stood before comes next among the firsts. */
  lemma FirstAfter(refs: seq<SnapRef>, i: nat)
    requires i < |refs| && refs[i].pvc !in PvcsOf(refs[..i])
    ensures Firsts(refs[..i]) + [refs[i]] <= Firsts(refs)
  {
    assert refs[..i + 1][..i] == refs[..i] && refs[..i + 1][i] == refs[i];
    FirstsOfPart(refs, i + 1);
  }

  /** The first listed PVC that is not on record is the one right behind the recorded prefix. */
  lemma NextIsNext(refs: seq<SnapRef>, restored: seq<RestoredPvc>, ref: SnapRef)
    requires IsPrefix(restored, Firsts(refs)) && NextToRestore(refs, restored, ref)
    ensures |restored| < |Firsts(refs)| && Firsts(refs)[|restored|] == ref
  {
    var i :| 0 <= i < |refs| && refs[i] == ref && ref.pvc !in NamesOf(restored)
      && forall j | 0 <= j < i :: refs[j].pvc in NamesOf(restored);
    var f := Firsts(refs[..i]);
    var n := |f|;
    FirstsAreDistinct(refs);
    FirstsAreDistinct(refs[..i]);
    assert ref.pvc !in PvcsOf(refs[..i]) by {
      assert forall j | 0 <= j < i :: PvcsOf(refs[..i])[j] == refs[j].pvc;
    }
    FirstAfter(refs, i);
    hide Firsts, DistinctPvcs, IsPrefix, NamesOf;
    assert (f + [ref])[n] == Firsts(refs)[n];
    InPrefix(Firsts(refs), restored, n);
    if n > 0 {
      assert f[n - 1] in refs[..i];
      assert (f + [ref])[n - 1] == Firsts(refs)[n - 1];
      InPrefix(Firsts(refs), restored, n - 1);
    }
  }

  lemma AllListed(refs: seq<SnapRef>, restored: seq<RestoredPvc>)
    requires IsPrefix(restored, Firsts(refs))
    requires forall r | r in refs :: r.pvc in NamesOf(restored)
    ensures |restored| == |Firsts(refs)|
  {
    var f := Firsts(refs);
    FirstsAreDistinct(refs);
    if f != [] {
      assert f[|f| - 1] in f;
      InPrefix(f, restored, |f| - 1);
    }
  }

  lemma VolumesAppend(cfg: Config, s: State, rb: RbStatus)
    requires Volumes(cfg, s) && Exclusive(cfg, s) && RbVolumeWrite(s.rb, rb, s.rbPass) && !rb.volumes
    ensures Volumes(cfg, s.(rb := rb))
  {
    var made := s.rbPass.work.made.value;
    hide Firsts;
    NextIsNext(s.up.snapshots, s.rb.restored, made);
  }

  lemma VolumesDone(cfg: Config, s: State, rb: RbStatus)
    requires Volumes(cfg, s) && Exclusive(cfg, s) && RbVolumeWrite(s.rb, rb, s.rbPass) && rb.volumes
    ensures Volumes(cfg, s.(rb := rb))
  {
    hide Firsts;
    AllListed(s.up.snapshots, s.rb.restored);
    forall r | r in rb.restored
      ensures r.state == Restored && r.ref.pvc in s.hist.rb.bound
      ensures r.ref.pvc !in s.hist.touched ==> Recreated(s.world, r.ref)
    {
      var i :| 0 <= i < |rb.restored| && rb.restored[i] == r;
      assert s.rb.restored[i] in s.rb.restored;
    }
  }

  /** A write that keeps the record, up to marking PVCs seen bound, and does not claim the volumes restored. */
  lemma VolumesSame(cfg: Config, s: State, rb: RbStatus)
    requires Volumes(cfg, s) && SameRecord(s.rb.restored, rb.restored, s.rbPass)
    requires rb.volumes ==> s.rb.volumes || !Restorable(s.up, cfg)
    ensures Volumes(cfg, s.(rb := rb))
  {
    hide Firsts;
    forall r | r in rb.restored
      ensures r.state == Restored ==> r.ref.pvc in s.hist.rb.bound
      ensures r.ref.pvc !in s.hist.touched ==> Recreated(s.world, r.ref)
      ensures rb.volumes && Restorable(s.up, cfg) ==> r.state == Restored
    {
      var i :| 0 <= i < |rb.restored| && rb.restored[i] == r;
      assert s.rb.restored[i] in s.rb.restored;
    }
  }

  /** The record is the same, up to marking PVCs seen bound. */
  predicate SameRecord(was: seq<RestoredPvc>, next: seq<RestoredPvc>, p: Pass) {
    |next| == |was| && forall i | 0 <= i < |next| ::
      next[i] == was[i] || (next[i] == was[i].(state := Restored) && was[i].ref.pvc in p.work.bound)
  }

  /** No write but that of the volume phase changes the record otherwise, or claims the volumes restored if
      there are any. */
  lemma RbWriteKinds(cfg: Config, was: RbStatus, next: RbStatus, p: Pass)
    requires RollbackWrite(cfg, was, next, p) && !RbVolumeWrite(was, next, p)
    ensures SameRecord(was.restored, next.restored, p)
    ensures next.volumes == was.volumes
            || (p.flux.last == Suspended && p.seen.upgrade.Some? && !Restorable(p.seen.upgrade.value, cfg))
  {
    hide RbVolumeWrite, RbStartsInTime, Stopped, Scaled, StartedTimer, Restorable;
  }

  lemma SawTheSnapshots(cfg: Config, s: State)
    requires Exclusive(cfg, s)
    ensures s.rbPass.flux.last == Suspended ==> s.rbPass.seen.upgrade == Some(s.up)
  {
  }

  lemma VolumesRbWrite(cfg: Config, s: State, rb: RbStatus)
    requires Volumes(cfg, s) && Exclusive(cfg, s) && RollbackWrite(cfg, s.rb, rb, s.rbPass)
    ensures Volumes(cfg, s.(rb := rb))
  {
    hide Volumes, Exclusive, RollbackWrite, RbVolumeWrite, SameRecord, Restorable;
    if RbVolumeWrite(s.rb, rb, s.rbPass) {
      if rb.volumes { VolumesDone(cfg, s, rb); } else { VolumesAppend(cfg, s, rb); }
    } else {
      RbWriteKinds(cfg, s.rb, rb, s.rbPass);
      SawTheSnapshots(cfg, s);
      VolumesSame(cfg, s, rb);
    }
  }

  lemma VolumesUpWrite(cfg: Config, s: State, up: UpStatus)
    requires Volumes(cfg, s) && Order(cfg, s) && Exclusive(cfg, s) && s.up.complete == Absent
    ensures Volumes(cfg, s.(up := up))
  {
    hide Recreated, Firsts;
  }

  lemma VolumesDelete(cfg: Config, s: State, pvc: string)
    requires Volumes(cfg, s) && RollbackCall(cfg, s.rb, s.rbPass, DeletePvc(pvc))
    ensures Volumes(cfg, Apply(cfg, s, Did(Rollbacker, DeletePvc(pvc))))
  {
    hide UpHistoryAfter, Firsts, IsPrefix;
    forall r | r in s.rb.restored ensures r.ref.pvc != pvc { assert r.ref.pvc in NamesOf(s.rb.restored); }
  }

  lemma VolumesCreate(cfg: Config, s: State, ref: SnapRef)
    requires Volumes(cfg, s) && RollbackCall(cfg, s.rb, s.rbPass, CreatePvc(ref)) && ref.pvc !in s.world.pvcs
    ensures Volumes(cfg, Apply(cfg, s, Did(Rollbacker, CreatePvc(ref))))
  {
    hide UpHistoryAfter, Firsts, IsPrefix;
    forall r | r in s.rb.restored ensures r.ref.pvc != ref.pvc { assert r.ref.pvc in NamesOf(s.rb.restored); }
  }

  lemma VolumesSaw(cfg: Config, s: State, who: Actor, sight: Sight)
    requires Volumes(cfg, s)
    ensures Volumes(cfg, Apply(cfg, s, Saw(who, sight)))
  {
    hide UpHistoryAfter, Firsts, IsPrefix, FluxAfterSight, SightsAfter, Hoped, Recreated;
  }

  lemma VolumesDid(cfg: Config, s: State, who: Actor, call: Call)
    requires Volumes(cfg, s) && !call.CreatePvc? && !call.DeletePvc?
    ensures Volumes(cfg, Apply(cfg, s, Did(who, call)))
  {
    hide UpHistoryAfter, Firsts, IsPrefix, FluxAfterCall, SnapshotName;
  }

  lemma VolumesElsewhere(cfg: Config, s: State, e: Event)
    requires Volumes(cfg, s) && !e.WriteUpgrade? && !e.WriteRollback? && !e.Saw? && !e.Did?
    requires e.EnvWorld? ==> Benign(s.world, e.world)
    ensures Volumes(cfg, Apply(cfg, s, e))
  {
    hide UpHistoryAfter, Firsts, IsPrefix, NoteCall, NoteSight, Effect, RankOf;
  }

  lemma OnlyRollbackMakesPvcs(cfg: Config, s: State, who: Actor, call: Call)
    requires MayCall(cfg, s, who, call) && (call.DeletePvc? || call.CreatePvc?)
    ensures who == Rollbacker
  {
    hide Prepared, RollbackCall, CommitVersion;
  }

  lemma VolumesKept(cfg: Config, s: State, e: Event)
    requires Volumes(cfg, s) && Order(cfg, s) && Exclusive(cfg, s) && Enabled(cfg, s, e)
    ensures Volumes(cfg, Apply(cfg, s, e))
  {
    hide Apply, Volumes, Order, Exclusive, RollbackWrite, UpgradeWrite, EndOk, IsTrueSight, RollbackCall;
    match e
    case WriteUpgrade(up) =>
      WriteUpgradeOnly(cfg, s, up);
      OverKept(cfg, s.up, up, s.upPass);
      VolumesUpWrite(cfg, s, up);
    case WriteRollback(rb) =>
      WriteRollbackOnly(cfg, s, rb);
      VolumesRbWrite(cfg, s, rb);
    case Did(Rollbacker, DeletePvc(pvc)) => VolumesDelete(cfg, s, pvc);
    case Did(Rollbacker, CreatePvc(ref)) => VolumesCreate(cfg, s, ref);
    case Did(who, call) =>
      if call.DeletePvc? || call.CreatePvc? { OnlyRollbackMakesPvcs(cfg, s, who, call); }
      VolumesDid(cfg, s, who, call);
    case Saw(who, sight) => VolumesSaw(cfg, s, who, sight);
    case _ => VolumesElsewhere(cfg, s, e);
  }
}
