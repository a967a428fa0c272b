/**
 What every step keeps. Each property is one predicate on states, with a lemma that no enabled step of
 either controller or of the environment breaks it.
 */
module Invariants {
  import opened Wrappers
  import opened YamlTree
  import opened Protocol

  // ----- status writes change nothing else -----

  lemma WriteUpgradeOnly(cfg: Config, s: State, up: UpStatus)
    ensures Apply(cfg, s, WriteUpgrade(up)) == s.(up := up)
  {
  }

  lemma WriteRollbackOnly(cfg: Config, s: State, rb: RbStatus)
    ensures Apply(cfg, s, WriteRollback(rb)) == s.(rb := rb)
  {
  }

  // ----- order of the phases -----

  predicate UpgradeOrder(cfg: Config, up: UpStatus) {
    && (up.complete == IsTrue ==> up.healthy)
    && (up.healthy ==> up.reconciled)
    && (up.reconciled ==> up.committed && up.suspended == IsFalse)
    && (up.committed ==> up.stopped && up.snapReady)
    && (up.stopped || up.snapReady ==> up.suspended != Absent)
    && (up.suspended == IsFalse && !up.committed ==> up.complete != Absent)
    && (up.suspended != Absent && !cfg.Snapshots() ==> up.snapReady)
  }

  predicate RollbackOrder(rb: RbStatus) {
    && (rb.complete == IsTrue ==> rb.healthy)
    && (rb.healthy ==> rb.reconciled)
    && (rb.reconciled ==> rb.reverted && rb.suspended == IsFalse)
    && (rb.reverted ==> rb.volumes && rb.stopped)
    && (rb.stopped || rb.volumes ==> rb.suspended != Absent)
    && (rb.restored != [] ==> rb.stopped)
    && (rb.suspended == IsFalse ==> rb.reverted)
  }

  predicate Order(cfg: Config, s: State) {
    && (!cfg.dryRun ==> UpgradeOrder(cfg, s.up))
    && (cfg.dryRun ==> !s.up.committed && s.up.upgrade == None && s.up.snapshots == []
                       && (s.up.suspended == IsFalse ==> s.up.complete != Absent))
    && (s.up.upgrade.Some? <==> s.up.committed)
    && RollbackOrder(s.rb)
    && (s.rbPass.flux.last == Resumed ==> s.rb.reverted)
  }

  lemma UpgradeOrderKept(cfg: Config, was: UpStatus, next: UpStatus, p: Pass)
    requires UpgradeWrite(cfg, was, next, p)
    requires !cfg.dryRun ==> UpgradeOrder(cfg, was)
    ensures !cfg.dryRun ==> UpgradeOrder(cfg, next)
    ensures cfg.dryRun ==> next.committed == was.committed && next.upgrade == was.upgrade && next.snapshots == was.snapshots
                           && (next.suspended == IsFalse ==> was.suspended == IsFalse || next.complete != Absent)
    ensures was.complete == Absent
    ensures (next.upgrade == was.upgrade && next.committed == was.committed) || (next.upgrade.Some? && next.committed)
  {
  }

  lemma RollbackOrderKept(cfg: Config, was: RbStatus, next: RbStatus, p: Pass)
    requires RollbackOrder(was) && RollbackWrite(cfg, was, next, p)
    requires p.flux.last == Resumed ==> was.reverted
    ensures RollbackOrder(next) && (was.reverted ==> next.reverted)
  {
  }

  lemma OrderElsewhere(cfg: Config, s: State, e: Event)
    requires Order(cfg, s) && !e.WriteUpgrade? && !e.WriteRollback?
    requires e == Did(Rollbacker, ResumeFlux) ==> s.rb.reverted
    ensures Order(cfg, Apply(cfg, s, e))
  {
    hide WorldAfter, UpHistoryAfter, RbHistoryAfter, SightsAfter, WorkAfterSight, WorkAfterCall, Hoped,
         UpgradeOrder, RollbackOrder;
  }

  lemma OrderKept(cfg: Config, s: State, e: Event)
    requires Order(cfg, s) && Enabled(cfg, s, e)
    ensures Order(cfg, Apply(cfg, s, e))
  {
    hide UpgradeOrder, RollbackOrder, PassAfter, WorldAfter, UpHistoryAfter, RbHistoryAfter,
         IsTrueSight, EndOk, Benign, Accepted;
    match e
    case WriteUpgrade(up) =>
      WriteUpgradeOnly(cfg, s, up);
      UpgradeOrderKept(cfg, s.up, up, s.upPass);
    case WriteRollback(rb) =>
      WriteRollbackOnly(cfg, s, rb);
      RollbackOrderKept(cfg, s.rb, rb, s.rbPass);
    case _ =>
      OrderElsewhere(cfg, s, e);
  }

  // ----- one controller at a time -----

  /** The upgrade is over, and can be rolled back. */
  predicate Over(cfg: Config, up: UpStatus) {
    up.complete != Absent && RevertVersion(up).Some? && (cfg.skipSnapshot || up.snapshots != [])
  }

  predicate Exclusive(cfg: Config, s: State) {
    && (s.rb.suspended != Absent || s.rbPass.flux.last == Suspended ==> Over(cfg, s.up))
    && (s.rbPass.seen.upgrade.Some? && s.rbPass.seen.upgrade.value.complete != Absent
        ==> s.rbPass.seen.upgrade == Some(s.up))
    && (s.hist.rb.version.Some? ==> s.up.complete != Absent)
    && (s.rb.suspended != Absent && s.rbPass.seen.upgrade.Some? ==> s.rbPass.seen.upgrade == Some(s.up))
    && (s.rb.suspended != Absent && !s.rb.volumes ==> Restorable(s.up, cfg))
    && (s.rbPass.flux.last == Suspended ==> s.rbPass.seen.upgrade == Some(s.up))
  }

  lemma OverKept(cfg: Config, was: UpStatus, next: UpStatus, p: Pass)
    requires UpgradeWrite(cfg, was, next, p)
    ensures was.complete == Absent
  {
    hide FailWrite, DryWrite, SuspendWrite, StopWrite, SnapshotWrite, CommitWrite, ReconcileWrite,
         HealthyWrite, CompleteWrite;
  }

  lemma ExclusiveSaw(cfg: Config, s: State, who: Actor, sight: Sight)
    requires Exclusive(cfg, s)
    requires who == Rollbacker && sight.SawUpgrade? ==> sight.upgrade == s.up
    ensures Exclusive(cfg, Apply(cfg, s, Saw(who, sight)))
  {
    hide UpHistoryAfter, WorkAfterSight, Hoped, RevertVersion, Over, Restorable;
  }

  lemma ExclusiveDid(cfg: Config, s: State, who: Actor, call: Call)
    requires Exclusive(cfg, s)
    requires who == Rollbacker ==> RollbackCall(cfg, s.rb, s.rbPass, call)
    ensures Exclusive(cfg, Apply(cfg, s, Did(who, call)))
  {
    hide WorldAfter, UpHistoryAfter, WorkAfterCall, RevertVersion, GetVersion, UpdateVersion, NamesOf, NextToRestore;
  }

  lemma ExclusiveElsewhere(cfg: Config, s: State, e: Event)
    requires Exclusive(cfg, s) && !e.WriteUpgrade? && !e.WriteRollback? && !e.Saw? && !e.Did?
    ensures Exclusive(cfg, Apply(cfg, s, e))
  {
    hide WorldAfter, UpHistoryAfter, NoteSight, NoteCall, RevertVersion, Over, Restorable, RankOf;
  }

  lemma ExclusiveRbWrite(cfg: Config, s: State, rb: RbStatus)
    requires Exclusive(cfg, s) && Order(cfg, s) && RollbackWrite(cfg, s.rb, rb, s.rbPass)
    ensures Exclusive(cfg, s.(rb := rb))
  {
    hide RevertVersion;
  }

  lemma ExclusiveKept(cfg: Config, s: State, e: Event)
    requires Exclusive(cfg, s) && Order(cfg, s) && Enabled(cfg, s, e)
    ensures Exclusive(cfg, Apply(cfg, s, e))
  {
    hide Apply, PassAfter, WorldAfter, UpHistoryAfter, RbHistoryAfter, RollbackWrite,
         EndOk, Benign, Accepted, RollbackCall, UpgradeCall, UpgradeWrite, Order;
    match e
    case WriteUpgrade(up) =>
      WriteUpgradeOnly(cfg, s, up);
      OverKept(cfg, s.up, up, s.upPass);
    case WriteRollback(rb) =>
      WriteRollbackOnly(cfg, s, rb);
      ExclusiveRbWrite(cfg, s, rb);
    case Saw(who, sight) => ExclusiveSaw(cfg, s, who, sight);
    case Did(who, call) => ExclusiveDid(cfg, s, who, call);
    case _ =>
      ExclusiveElsewhere(cfg, s, e);
  }

  // ----- the file in Git -----

  /** The file as it was, or with nothing but its version replaced. */
  ghost predicate OwnEdit(cfg: Config, base: Yaml, file: Yaml) {
    file == base || exists v :: Edit(cfg, base, v) == Ok(file)
  }

  /** What the file is when nobody but the two controllers commits. */
  function OwnFile(cfg: Config, h: History): Result<Yaml> {
    if h.rb.version.Some? then Edit(cfg, h.file, h.rb.version.value)
    else if h.up.version.Some? then Edit(cfg, h.file, h.up.version.value)
    else Ok(h.file)
  }

  ghost predicate Files(cfg: Config, s: State) {
    && (!s.hist.otherFile ==>
          && OwnFile(cfg, s.hist) == Ok(s.world.file)
          && (s.upPass.seen.file.Some? ==> OwnEdit(cfg, s.hist.file, s.upPass.seen.file.value))
          && (s.rbPass.seen.file.Some? ==> OwnEdit(cfg, s.hist.file, s.rbPass.seen.file.value)))
    && (s.up.committed ==> s.hist.up.version.Some? && s.up.upgrade.Some?
                           && VersionString(s.up.upgrade.value.next) == s.hist.up.version)
    && (s.upPass.work.committed.Some? ==> s.hist.up.version == s.upPass.work.committed)
    && (s.rb.reverted ==> s.hist.rb.version.Some? && s.hist.rb.version == RevertVersion(s.up))
    && (s.rbPass.work.committed.Some? ==> s.hist.rb.version == s.rbPass.work.committed
                                          && s.hist.rb.version == RevertVersion(s.up))
  }

  lemma EditOfEdit(cfg: Config, base: Yaml, file: Yaml, version: string)
    requires OwnEdit(cfg, base, file)
    ensures Edit(cfg, file, version) == Edit(cfg, base, version)
  {
    if file != base {
      var v :| Edit(cfg, base, v) == Ok(file);
      LastUpdateWins(base, cfg.Path(), v, version);
    }
  }

  lemma FilesUpCommit(cfg: Config, s: State, version: string, tree: Yaml)
    requires Files(cfg, s) && Exclusive(cfg, s)
    requires UpgradeCall(cfg, s.up, s.upPass, Commit(version, tree))
    ensures Files(cfg, Apply(cfg, s, Did(Upgrader, Commit(version, tree))))
  {
    hide RevertVersion, Over, UpdateVersion;
    if !s.hist.otherFile { EditOfEdit(cfg, s.hist.file, s.upPass.seen.file.value, version); }
  }

  lemma FilesRbCommit(cfg: Config, s: State, version: string, tree: Yaml)
    requires Files(cfg, s) && Exclusive(cfg, s)
    requires RollbackCall(cfg, s.rb, s.rbPass, Commit(version, tree))
    ensures Files(cfg, Apply(cfg, s, Did(Rollbacker, Commit(version, tree))))
  {
    hide RevertVersion, UpdateVersion;
    if !s.hist.otherFile { EditOfEdit(cfg, s.hist.file, s.rbPass.seen.file.value, version); }
  }

  /** What a status write may claim about the commit. */
  lemma CommitClaim(cfg: Config, was: UpStatus, next: UpStatus, p: Pass)
    requires UpgradeWrite(cfg, was, next, p)
    requires cfg.dryRun ==> !was.committed
    ensures was.complete == Absent
    ensures || (next.committed == was.committed && next.upgrade == was.upgrade)
            || (next.committed && next.upgrade.Some? && p.work.committed.Some?
                && VersionString(next.upgrade.value.next) == p.work.committed)
  {
    hide FailWrite, DryWrite, SuspendWrite, StopWrite, SnapshotWrite, ReconcileWrite, HealthyWrite, CompleteWrite;
    if !CommitWrite(cfg, was, next, p) { NoCommitClaim(cfg, was, next, p); }
  }

  lemma NoCommitClaim(cfg: Config, was: UpStatus, next: UpStatus, p: Pass)
    requires UpgradeWrite(cfg, was, next, p) && !CommitWrite(cfg, was, next, p)
    ensures next.committed == was.committed && next.upgrade == was.upgrade
  {
    hide FailWrite, DryWrite, SuspendWrite, StopWrite, SnapshotWrite, CommitWrite, ReconcileWrite, HealthyWrite,
         CompleteWrite, StartsInTime;
    if FailWrite(cfg, was, next, p) || CompleteWrite(was, next, p) || (cfg.dryRun && DryWrite(was, next, p)) {
      NoCommitAtEnd(cfg, was, next, p);
    } else {
      NoCommitInPhase(cfg, was, next, p);
    }
  }

  lemma NoCommitAtEnd(cfg: Config, was: UpStatus, next: UpStatus, p: Pass)
    requires FailWrite(cfg, was, next, p) || CompleteWrite(was, next, p) || DryWrite(was, next, p)
    ensures next.committed == was.committed && next.upgrade == was.upgrade
  {
    hide Stopped, Scaled, StartedTimer, Stamped, Upgraded, Exercised;
  }

  lemma NoCommitInPhase(cfg: Config, was: UpStatus, next: UpStatus, p: Pass)
    requires SuspendWrite(cfg, was, next, p) || StopWrite(cfg, was, next, p) || SnapshotWrite(cfg, was, next, p)
             || ReconcileWrite(was, next, p) || HealthyWrite(was, next, p)
    ensures next.committed == was.committed && next.upgrade == was.upgrade
  {
    hide Stopped, AllReady, Scaled, StartedTimer, PvcsOf;
  }

  lemma FilesUpWrite(cfg: Config, s: State, up: UpStatus)
    requires Files(cfg, s) && Exclusive(cfg, s) && Order(cfg, s) && UpgradeWrite(cfg, s.up, up, s.upPass)
    ensures Files(cfg, s.(up := up))
  {
    hide UpdateVersion, OwnFile, OwnEdit, UpgradeOrder, RollbackOrder, UpgradeWrite, VersionString, RevertVersion;
    CommitClaim(cfg, s.up, up, s.upPass);
    NothingReverted(cfg, s);
  }

  /** Before the upgrade is over, the rollback has committed nothing. */
  lemma NothingReverted(cfg: Config, s: State)
    requires Files(cfg, s) && Exclusive(cfg, s) && s.up.complete == Absent
    ensures s.hist.rb.version == None && !s.rb.reverted && s.rbPass.work.committed == None
  {
    hide OwnFile, OwnEdit, RevertVersion;
  }

  lemma FilesRbWrite(cfg: Config, s: State, rb: RbStatus)
    requires Files(cfg, s) && RollbackWrite(cfg, s.rb, rb, s.rbPass)
    ensures Files(cfg, s.(rb := rb))
  {
    hide UpdateVersion, OwnFile, OwnEdit, RevertVersion;
  }

  lemma FilesSaw(cfg: Config, s: State, who: Actor, sight: Sight)
    requires Files(cfg, s)
    requires sight.SawFile? ==> sight.file == s.world.file
    ensures Files(cfg, Apply(cfg, s, Saw(who, sight)))
  {
    hide UpdateVersion, RevertVersion, FluxAfterSight, Hoped, VersionString;
  }

  lemma FilesDid(cfg: Config, s: State, who: Actor, call: Call)
    requires Files(cfg, s) && !call.Commit?
    ensures Files(cfg, Apply(cfg, s, Did(who, call)))
  {
    hide UpdateVersion, RevertVersion, FluxAfterCall, SnapshotName, VersionString, OwnEdit;
  }

  lemma FilesElsewhere(cfg: Config, s: State, e: Event)
    requires Files(cfg, s) && !e.WriteUpgrade? && !e.WriteRollback? && !e.Saw? && !e.Did?
    requires e.EnvWorld? ==> e.world.file == s.world.file
    ensures Files(cfg, Apply(cfg, s, e))
  {
    hide UpdateVersion, RevertVersion, NoteSight, NoteCall, Effect, VersionString, OwnEdit, RankOf;
  }

  lemma FilesKept(cfg: Config, s: State, e: Event)
    requires Files(cfg, s) && Exclusive(cfg, s) && Order(cfg, s) && Enabled(cfg, s, e)
    ensures Files(cfg, Apply(cfg, s, e))
  {
    hide Apply, Files, Exclusive, Order, RollbackWrite, UpgradeWrite, EndOk, Accepted, RollbackCall, UpgradeCall;
    match e
    case WriteUpgrade(up) =>
      WriteUpgradeOnly(cfg, s, up);
      FilesUpWrite(cfg, s, up);
    case WriteRollback(rb) =>
      WriteRollbackOnly(cfg, s, rb);
      FilesRbWrite(cfg, s, rb);
    case Did(Upgrader, Commit(version, tree)) => FilesUpCommit(cfg, s, version, tree);
    case Did(Rollbacker, Commit(version, tree)) => FilesRbCommit(cfg, s, version, tree);
    case Did(who, call) => FilesDid(cfg, s, who, call);
    case Saw(who, sight) => FilesSaw(cfg, s, who, sight);
    case _ => FilesElsewhere(cfg, s, e);
  }

  // ----- how often the upgrade commits -----

  predicate Commits(s: State) {
    var h := s.hist.up;
    && h.commits == h.unrecorded + One(s.up.committed || s.upPass.work.committed.Some?)
    && (h.commits == 0 <==> h.version == None)
    && (Unwritten(s) && !s.upPass.active ==> s.upPass.lost)
    && h.unrecorded + One(Unwritten(s) && s.upPass.lost) <= h.missed
  }

  lemma CommitsUpWrite(cfg: Config, was: UpStatus, next: UpStatus, p: Pass)
    requires UpgradeWrite(cfg, was, next, p)
    ensures was.committed ==> next.committed
    ensures next.committed ==> was.committed || p.work.committed.Some?
    ensures p.active
  {
  }

  lemma CommitsDid(cfg: Config, s: State, who: Actor, call: Call)
    requires Commits(s)
    requires who == Upgrader ==> s.upPass.active
    requires who == Upgrader && call.Commit? ==> !s.up.committed && s.upPass.work.committed == None && !s.upPass.lost
    ensures Commits(Apply(cfg, s, Did(who, call)))
  {
    hide WorldAfter, RbHistoryAfter, FluxAfterCall, SnapshotName;
  }

  lemma CommitsSaw(cfg: Config, s: State, who: Actor, sight: Sight)
    requires Commits(s)
    ensures Commits(Apply(cfg, s, Saw(who, sight)))
  {
    hide WorldAfter, RbHistoryAfter, FluxAfterSight, SightsAfter, Hoped;
  }

  lemma CommitsElsewhere(cfg: Config, s: State, e: Event)
    requires Commits(s) && !e.WriteUpgrade? && !e.WriteRollback? && !e.Did? && !e.Saw?
    requires e.End? && e.who == Upgrader && Unwritten(s) ==> s.upPass.lost
    ensures Commits(Apply(cfg, s, e))
  {
    hide WorldAfter, RbHistoryAfter, NoteCall, NoteSight, RankOf;
  }

  lemma CommitsKept(cfg: Config, s: State, e: Event)
    requires Commits(s) && Enabled(cfg, s, e)
    ensures Commits(Apply(cfg, s, e))
  {
    hide Apply, RollbackWrite, UpgradeWrite, Accepted, RollbackCall, IsTrueSight, Benign, Waiting, RankOf;
    match e
    case WriteUpgrade(up) =>
      WriteUpgradeOnly(cfg, s, up);
      CommitsUpWrite(cfg, s.up, up, s.upPass);
    case WriteRollback(rb) =>
      WriteRollbackOnly(cfg, s, rb);
    case Did(who, call) => CommitsDid(cfg, s, who, call);
    case Saw(who, sight) => CommitsSaw(cfg, s, who, sight);
    case _ => CommitsElsewhere(cfg, s, e);
  }

  // ----- the Suspended condition mirrors the last Flux call -----

  predicate Mirror(s: State) {
    var h, f := s.hist.up, s.upPass.flux.last;
    && (f != NoCall ==> h.flux == f)
    && (s.up.suspended == IsFalse ==> h.flux == Resumed)
    && (!h.lost ==> h.flux == if f != NoCall then f else Recorded(s.up.suspended))
    && (!h.lost && !s.upPass.active ==> h.flux == Recorded(s.up.suspended))
    && (s.upPass.lost ==> h.lost)
  }

  lemma MirrorUpWrite(cfg: Config, s: State, up: UpStatus)
    requires !cfg.dryRun && Mirror(s) && UpgradeOrder(cfg, s.up) && UpgradeWrite(cfg, s.up, up, s.upPass)
    ensures Mirror(s.(up := up))
  {
  }

  lemma MirrorSaw(cfg: Config, s: State, who: Actor, sight: Sight)
    requires Mirror(s)
    ensures Mirror(Apply(cfg, s, Saw(who, sight)))
  {
    hide WorldAfter, RbHistoryAfter, WorkAfterSight, SightsAfter, Hoped;
  }

  lemma MirrorDid(cfg: Config, s: State, who: Actor, call: Call)
    requires Mirror(s)
    requires who == Upgrader ==> s.upPass.active && (call.SuspendFlux? ==> s.up.suspended == Absent)
    ensures Mirror(Apply(cfg, s, Did(who, call)))
  {
    hide WorldAfter, RbHistoryAfter, WorkAfterCall, SnapshotName;
  }

  lemma MirrorElsewhere(cfg: Config, s: State, e: Event)
    requires Mirror(s) && !e.WriteUpgrade? && !e.WriteRollback? && !e.Saw? && !e.Did?
    requires e.End? && e.who == Upgrader ==>
               s.upPass.flux.last == NoCall || s.upPass.lost || s.upPass.flux.last == Recorded(s.up.suspended)
    ensures Mirror(Apply(cfg, s, e))
  {
    hide WorldAfter, RbHistoryAfter, NoteCall, NoteSight, RankOf;
  }

  lemma MirrorKept(cfg: Config, s: State, e: Event)
    requires !cfg.dryRun && Mirror(s) && Order(cfg, s) && Enabled(cfg, s, e)
    ensures Mirror(Apply(cfg, s, e))
  {
    hide Apply, Mirror, RollbackWrite, UpgradeWrite, Accepted, RollbackCall, IsTrueSight, Benign, RollbackOrder, UpgradeOrder,
         Waiting, RankOf;
    match e
    case WriteUpgrade(up) =>
      WriteUpgradeOnly(cfg, s, up);
      MirrorUpWrite(cfg, s, up);
    case WriteRollback(rb) =>
      WriteRollbackOnly(cfg, s, rb);
      MirrorRbWrite(s, rb);
    case Saw(who, sight) => MirrorSaw(cfg, s, who, sight);
    case Did(who, call) => MirrorDid(cfg, s, who, call);
    case _ => MirrorElsewhere(cfg, s, e);
  }

  lemma MirrorRbWrite(s: State, rb: RbStatus)
    requires Mirror(s)
    ensures Mirror(s.(rb := rb))
  {
  }

  // ----- what the upgrade holds suspended -----

  predicate Held(s: State) { s.world.flux == HeldBy(Upgrader) }

  predicate Hold(s: State) {
    var h, p := s.hist.up, s.upPass;
    && (p.trouble || p.lost ==> h.trouble)
    && (p.flux.last == Resumed ==> p.flux.released)
    && (p.flux.released ==> !Held(s))
    && (Held(s) && !h.trouble ==>
          || (s.up.suspended == IsTrue && (s.up.complete == Absent || s.up.committed))
          || (s.up.suspended == Absent && s.up.complete == Absent
              && p.active && p.flux.last == Suspended && !p.flux.released))
  }

  lemma HoldUpWrite(cfg: Config, s: State, up: UpStatus)
    requires Hold(s) && Order(cfg, s) && UpgradeWrite(cfg, s.up, up, s.upPass)
    ensures Hold(s.(up := up))
  {
    hide RollbackOrder;
  }

  lemma HoldSaw(cfg: Config, s: State, who: Actor, sight: Sight)
    requires Hold(s)
    requires who == Upgrader && sight.SawSuspended? ==> sight.yes == (s.world.flux != Running)
    ensures Hold(Apply(cfg, s, Saw(who, sight)))
  {
    hide RbHistoryAfter, WorkAfterSight, SightsAfter, Hoped;
  }

  lemma HoldDid(cfg: Config, s: State, who: Actor, call: Call)
    requires Hold(s)
    requires who == Upgrader && call.SuspendFlux? ==>
               s.upPass.active && s.up.complete == Absent && (s.up.suspended == Absent || s.up.suspended == IsTrue)
    ensures Hold(Apply(cfg, s, Did(who, call)))
  {
    hide RbHistoryAfter, WorkAfterCall, SnapshotName;
  }

  lemma HoldElsewhere(cfg: Config, s: State, e: Event)
    requires Hold(s) && !e.WriteUpgrade? && !e.WriteRollback? && !e.Saw? && !e.Did?
    requires e.EnvWorld? ==> e.world.flux == s.world.flux
    requires e.End? && e.who == Upgrader && !s.upPass.trouble && !s.upPass.lost
             && s.up.complete == Absent && s.up.suspended == Absent
             ==> s.upPass.flux.last != Suspended || s.upPass.flux.released
    ensures Hold(Apply(cfg, s, e))
  {
    hide RbHistoryAfter, NoteCall, NoteSight, Effect, RankOf;
  }

  lemma HoldKept(cfg: Config, s: State, e: Event)
    requires Hold(s) && Order(cfg, s) && Enabled(cfg, s, e)
    ensures Hold(Apply(cfg, s, e))
  {
    hide Apply, Hold, RollbackWrite, UpgradeWrite, Accepted, RollbackCall, RollbackOrder,
         Waiting, RankOf;
    match e
    case WriteUpgrade(up) =>
      WriteUpgradeOnly(cfg, s, up);
      HoldUpWrite(cfg, s, up);
    case WriteRollback(rb) =>
      WriteRollbackOnly(cfg, s, rb);
      HoldRbWrite(s, rb);
    case Saw(who, sight) => HoldSaw(cfg, s, who, sight);
    case Did(who, call) => HoldDid(cfg, s, who, call);
    case _ => HoldElsewhere(cfg, s, e);
  }

  lemma HoldRbWrite(s: State, rb: RbStatus)
    requires Hold(s)
    ensures Hold(s.(rb := rb))
  {
  }
}
