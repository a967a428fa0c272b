/** What every step keeps about progress and deadlines. */
module ProgressInvariants {
  import opened Wrappers
  import opened Protocol
  import opened Invariants

  // ----- progress -----

  predicate AtLeast(rank: nat, ends: nat) { rank == TOP || rank >= ends }

  /** No call has failed, no pass has died and no answer was other than hoped for. */
  predicate Clean(s: State, who: Actor) {
    if who == Upgrader then !s.hist.up.trouble && !s.hist.up.negative
    else !s.hist.rb.trouble && !s.hist.rb.negative
  }

  function Ends(s: State, who: Actor): nat {
    if who == Upgrader then s.hist.up.ends else s.hist.rb.ends
  }

  /** Every pass that ended has raised the rank, as long as nothing stood in the way. */
  predicate Climbing(s: State, who: Actor) {
    var p := PassOf(s, who);
    && (p.trouble || p.negative ==> !Clean(s, who))
    && (Clean(s, who) ==> AtLeast(if p.active then p.rank else RankOf(s, who), Ends(s, who)))
  }

  /** Failure is never without a cause. */
  predicate Caused(s: State) {
    && (s.up.complete == IsFalse ==> !Clean(s, Upgrader))
    && (s.rb.complete == IsFalse ==> !Clean(s, Rollbacker))
  }

  predicate Progress(s: State) {
    Climbing(s, Upgrader) && Climbing(s, Rollbacker) && Caused(s)
  }

  lemma CauseOfUpWrite(cfg: Config, was: UpStatus, next: UpStatus, p: Pass)
    requires UpgradeWrite(cfg, was, next, p)
    ensures next.complete == IsFalse ==> p.trouble || p.negative
  {
    hide DryWrite, SuspendWrite, StopWrite, SnapshotWrite, CommitWrite, ReconcileWrite, HealthyWrite, CompleteWrite,
         StartsInTime, Stamped;
    if !FailWrite(cfg, was, next, p) { OthersDoNotFail(cfg, was, next, p); }
  }

  lemma OthersDoNotFail(cfg: Config, was: UpStatus, next: UpStatus, p: Pass)
    requires DryWrite(was, next, p) || SuspendWrite(cfg, was, next, p) || StopWrite(cfg, was, next, p)
             || SnapshotWrite(cfg, was, next, p) || CommitWrite(cfg, was, next, p) || ReconcileWrite(was, next, p)
             || HealthyWrite(was, next, p) || CompleteWrite(was, next, p)
    requires was.complete == Absent
    ensures next.complete != IsFalse
  {
    hide Stopped, Scaled, AllReady, CommitVersion, StartedTimer, Exercised, Upgraded, PvcsOf;
  }

  lemma CauseOfRbWrite(cfg: Config, was: RbStatus, next: RbStatus, p: Pass)
    requires RollbackWrite(cfg, was, next, p)
    ensures next.complete == IsFalse ==> p.trouble || p.negative
  {
    hide NextToRestore, NamesOf, AllRestored, RbStartsInTime, Stopped, Scaled, StartedTimer, Restorable;
  }

  lemma ProgressUpWrite(cfg: Config, s: State, up: UpStatus)
    requires Progress(s) && UpgradeWrite(cfg, s.up, up, s.upPass)
    ensures Progress(s.(up := up))
  {
    hide FailWrite, DryWrite, SuspendWrite, StopWrite, SnapshotWrite, CommitWrite, ReconcileWrite,
         HealthyWrite, CompleteWrite;
    CauseOfUpWrite(cfg, s.up, up, s.upPass);
  }

  lemma ProgressRbWrite(cfg: Config, s: State, rb: RbStatus)
    requires Progress(s) && RollbackWrite(cfg, s.rb, rb, s.rbPass)
    ensures Progress(s.(rb := rb))
  {
    hide RbFailWrite, RbSuspendWrite, RbStopWrite, RbVolumeWrite, RbRevertWrite, RbReconcileWrite,
         RbHealthyWrite, RbCompleteWrite;
    CauseOfRbWrite(cfg, s.rb, rb, s.rbPass);
  }

  lemma ProgressEnd(cfg: Config, s: State, who: Actor, outcome: Outcome)
    requires Progress(s) && EndOk(cfg, s, who, outcome)
    ensures Progress(Apply(cfg, s, End(who, outcome)))
  {
    hide WorldAfter, UpTimeout, DryTimeout, RbTimeout, Anchored;
  }

  lemma ProgressElsewhere(cfg: Config, s: State, e: Event)
    requires Progress(s) && !e.WriteUpgrade? && !e.WriteRollback? && !e.End?
    requires e.SetFinalizer? ==> PassOf(s, e.who).active
    ensures Progress(Apply(cfg, s, e))
  {
    hide WorldAfter, FluxAfterCall, WorkAfterCall, FluxAfterSight, SightsAfter, WorkAfterSight, Hoped, SnapshotName,
         UpRank, RbRank;
  }

  lemma ProgressKept(cfg: Config, s: State, e: Event)
    requires Progress(s) && Enabled(cfg, s, e)
    ensures Progress(Apply(cfg, s, e))
  {
    hide Apply, Progress, RollbackWrite, UpgradeWrite, EndOk, IsTrueSight, Benign, MayCall, Accepted;
    match e
    case WriteUpgrade(up) =>
      WriteUpgradeOnly(cfg, s, up);
      ProgressUpWrite(cfg, s, up);
    case WriteRollback(rb) =>
      WriteRollbackOnly(cfg, s, rb);
      ProgressRbWrite(cfg, s, rb);
    case End(who, outcome) => ProgressEnd(cfg, s, who, outcome);
    case _ => ProgressElsewhere(cfg, s, e);
  }

  // ----- the automatic rollback -----

  /** An upgrade that failed after its commit has led to a rollback, if it is to and no call failed. */
  predicate RolledOut(cfg: Config, s: State) {
    && (s.upPass.trouble ==> s.hist.up.trouble)
    && (s.upPass.work.rollback ==> s.world.rollbacks > 0)
    && (s.up.complete == IsFalse && s.up.committed && cfg.autoRollback ==> s.hist.up.trouble || s.world.rollbacks > 0)
  }

  lemma RolledOutUpWrite(cfg: Config, s: State, up: UpStatus)
    requires RolledOut(cfg, s) && UpgradeWrite(cfg, s.up, up, s.upPass)
    ensures RolledOut(cfg, s.(up := up))
  {
  }

  lemma RolledOutSaw(cfg: Config, s: State, who: Actor, sight: Sight)
    requires RolledOut(cfg, s)
    ensures RolledOut(cfg, Apply(cfg, s, Saw(who, sight)))
  {
    hide RbHistoryAfter, FluxAfterSight, SightsAfter, Hoped;
  }

  lemma RolledOutDid(cfg: Config, s: State, who: Actor, call: Call)
    requires RolledOut(cfg, s)
    ensures RolledOut(cfg, Apply(cfg, s, Did(who, call)))
  {
    hide RbHistoryAfter, FluxAfterCall, SnapshotName;
  }

  lemma RolledOutElsewhere(cfg: Config, s: State, e: Event)
    requires RolledOut(cfg, s) && !e.WriteUpgrade? && !e.WriteRollback? && !e.Saw? && !e.Did?
    requires e.EnvWorld? ==> e.world.rollbacks == s.world.rollbacks
    ensures RolledOut(cfg, Apply(cfg, s, e))
  {
    hide RbHistoryAfter, NoteSight, NoteCall, Effect, RankOf;
  }

  lemma RolledOutKept(cfg: Config, s: State, e: Event)
    requires RolledOut(cfg, s) && Enabled(cfg, s, e)
    ensures RolledOut(cfg, Apply(cfg, s, e))
  {
    hide Apply, RollbackWrite, UpgradeWrite, EndOk, IsTrueSight, MayCall, Accepted;
    match e
    case WriteUpgrade(up) =>
      WriteUpgradeOnly(cfg, s, up);
      RolledOutUpWrite(cfg, s, up);
    case WriteRollback(rb) =>
      WriteRollbackOnly(cfg, s, rb);
    case Saw(who, sight) => RolledOutSaw(cfg, s, who, sight);
    case Did(who, call) => RolledOutDid(cfg, s, who, call);
    case _ => RolledOutElsewhere(cfg, s, e);
  }

  // ----- nothing is taken back -----

  predicate UpKept(was: UpStatus, next: UpStatus) {
    && (was.complete != Absent ==> next == was)
    && (was.suspended != Absent ==> next.suspended != Absent)
    && (was.suspended == IsFalse ==> next.suspended == IsFalse)
    && (was.stopped ==> next.stopped) && (was.snapReady ==> next.snapReady)
    && (was.committed ==> next.committed && next.upgrade == was.upgrade)
    && (was.reconciled ==> next.reconciled) && (was.healthy ==> next.healthy)
    && (was.snapshots != [] ==> next.snapshots == was.snapshots)
  }

  predicate RbKept(was: RbStatus, next: RbStatus) {
    && (was.complete != Absent ==> next == was)
    && (was.suspended != Absent ==> next.suspended != Absent)
    && (was.suspended == IsFalse ==> next.suspended == IsFalse)
    && (was.stopped ==> next.stopped) && (was.volumes ==> next.volumes)
    && (was.reverted ==> next.reverted)
    && (was.reconciled ==> next.reconciled) && (was.healthy ==> next.healthy)
    && |was.restored| <= |next.restored|
    && (forall i | 0 <= i < |was.restored| :: next.restored[i].ref == was.restored[i].ref)
  }

  lemma UpEndKeeps(cfg: Config, was: UpStatus, next: UpStatus, p: Pass)
    requires was.complete == Absent
    requires FailWrite(cfg, was, next, p) || CompleteWrite(was, next, p)
             || (cfg.dryRun && DryWrite(was, next, p) && was.suspended != IsFalse)
    ensures UpKept(was, next)
  {
  }

  lemma UpPhaseKeeps(cfg: Config, was: UpStatus, next: UpStatus, p: Pass)
    requires was.complete == Absent
    requires SuspendWrite(cfg, was, next, p) || StopWrite(cfg, was, next, p) || SnapshotWrite(cfg, was, next, p)
             || CommitWrite(cfg, was, next, p) || ReconcileWrite(was, next, p) || HealthyWrite(was, next, p)
    ensures UpKept(was, next)
  {
    hide Stopped, AllReady, CommitVersion, Scaled;
  }

  lemma UpWriteKeeps(cfg: Config, was: UpStatus, next: UpStatus, p: Pass)
    requires UpgradeWrite(cfg, was, next, p)
    requires cfg.dryRun ==> (was.suspended == IsFalse ==> was.complete != Absent)
    ensures UpKept(was, next)
  {
    hide FailWrite, DryWrite, SuspendWrite, StopWrite, SnapshotWrite, CommitWrite, ReconcileWrite, HealthyWrite,
         CompleteWrite, UpKept;
    if FailWrite(cfg, was, next, p) || CompleteWrite(was, next, p) || (cfg.dryRun && DryWrite(was, next, p)) {
      UpEndKeeps(cfg, was, next, p);
    } else {
      UpPhaseKeeps(cfg, was, next, p);
    }
  }

  lemma RbEndKeeps(was: RbStatus, next: RbStatus, p: Pass)
    requires was.complete == Absent && (RbFailWrite(was, next, p) || RbCompleteWrite(was, next))
    ensures RbKept(was, next)
  {
  }

  lemma RbEarlyKeeps(cfg: Config, was: RbStatus, next: RbStatus, p: Pass)
    requires was.complete == Absent && (RbSuspendWrite(cfg, was, next, p) || RbStopWrite(cfg, was, next, p))
    ensures RbKept(was, next)
  {
    hide Stopped, Scaled, Restorable;
  }

  lemma RbVolumeKeeps(was: RbStatus, next: RbStatus, p: Pass)
    requires was.complete == Absent && RbVolumeWrite(was, next, p)
    ensures RbKept(was, next)
  {
    hide NextToRestore, NamesOf;
  }

  lemma RbLateKeeps(was: RbStatus, next: RbStatus, p: Pass)
    requires was.complete == Absent
    requires RbRevertWrite(was, next, p) || RbReconcileWrite(was, next, p) || RbHealthyWrite(was, next, p)
    ensures RbKept(was, next)
  {
  }

  lemma RbWriteKeeps(cfg: Config, was: RbStatus, next: RbStatus, p: Pass)
    requires RollbackWrite(cfg, was, next, p)
    ensures RbKept(was, next)
  {
    hide RbFailWrite, RbSuspendWrite, RbStopWrite, RbVolumeWrite, RbRevertWrite, RbReconcileWrite, RbHealthyWrite,
         RbCompleteWrite, RbKept, RbStartsInTime;
    if RbFailWrite(was, next, p) || RbCompleteWrite(was, next) {
      RbEndKeeps(was, next, p);
    } else if RbSuspendWrite(cfg, was, next, p) || RbStopWrite(cfg, was, next, p) {
      RbEarlyKeeps(cfg, was, next, p);
    } else if RbVolumeWrite(was, next, p) {
      RbVolumeKeeps(was, next, p);
    } else {
      RbLateKeeps(was, next, p);
    }
  }

  // ----- deadlines -----

  /** A step that changes a running phase timer completes the phase or ends the request. */
  lemma UpTimerFixed(cfg: Config, was: UpStatus, next: UpStatus, p: Pass)
    requires UpgradeWrite(cfg, was, next, p) && was.phaseStart.Some?
    requires cfg.dryRun ==> !was.committed && (was.suspended == IsFalse ==> was.complete != Absent)
    ensures next.phaseStart == was.phaseStart
            || next.complete != Absent
            || (!was.stopped && next.stopped) || (!was.snapReady && next.snapReady)
            || (!was.reconciled && next.reconciled)
            || (cfg.dryRun && was.suspended != IsTrue && next.suspended == IsTrue)
  {
  }

  lemma RbTimerFixed(cfg: Config, was: RbStatus, next: RbStatus, p: Pass)
    requires RollbackWrite(cfg, was, next, p) && was.phaseStart.Some?
    ensures next.phaseStart == was.phaseStart
            || next.complete != Absent
            || (!was.stopped && next.stopped) || (!was.volumes && next.volumes)
            || (!was.reconciled && next.reconciled)
  {
    hide NextToRestore, NamesOf, AllRestored, Stopped, Scaled, Restorable, RbStartsInTime;
  }

  predicate ClockOk(s: State, who: Actor) {
    var p := PassOf(s, who);
    && p.since <= s.world.now
    && (p.timer.Some? ==> p.since <= p.timer.value.at <= s.world.now)
  }

  /** Once snapshots or restored PVCs are on record, so is the start of their phase. */
  predicate Timers(cfg: Config, s: State) {
    && ClockOk(s, Upgrader) && ClockOk(s, Rollbacker)
    && (!cfg.dryRun && s.up.snapshots != [] && !s.up.snapReady && s.up.complete == Absent ==> s.up.phaseStart.Some?)
    && (s.rb.restored != [] && !s.rb.volumes && s.rb.complete == Absent ==> s.rb.phaseStart.Some?)
  }

  lemma TimersUpWrite(cfg: Config, s: State, up: UpStatus)
    requires Timers(cfg, s) && Order(cfg, s) && UpgradeWrite(cfg, s.up, up, s.upPass)
    requires s.up.snapshots != [] ==> s.up.stopped
    ensures Timers(cfg, s.(up := up))
  {
    hide RollbackOrder, ClockOk;
    assert ClockOk(s.(up := up), Upgrader) && ClockOk(s.(up := up), Rollbacker) by { ClockFrame(s, s.(up := up)); }
  }

  lemma TimersRbWrite(cfg: Config, s: State, rb: RbStatus)
    requires Timers(cfg, s) && Order(cfg, s) && RollbackWrite(cfg, s.rb, rb, s.rbPass)
    ensures Timers(cfg, s.(rb := rb))
  {
    hide UpgradeOrder, ClockOk, NextToRestore, NamesOf;
    assert ClockOk(s.(rb := rb), Upgrader) && ClockOk(s.(rb := rb), Rollbacker) by { ClockFrame(s, s.(rb := rb)); }
  }

  lemma ClockFrame(s: State, t: State)
    requires t.upPass == s.upPass && t.rbPass == s.rbPass && t.world == s.world
    ensures ClockOk(t, Upgrader) == ClockOk(s, Upgrader) && ClockOk(t, Rollbacker) == ClockOk(s, Rollbacker)
  {
  }

  lemma TimersSaw(cfg: Config, s: State, who: Actor, sight: Sight)
    requires Timers(cfg, s)
    requires sight.SawTimer? ==> sight.check.at == s.world.now
    ensures Timers(cfg, Apply(cfg, s, Saw(who, sight)))
  {
    hide UpHistoryAfter, RbHistoryAfter, FluxAfterSight, SightsAfter, WorkAfterSight, Hoped;
  }

  lemma TimersDid(cfg: Config, s: State, who: Actor, call: Call)
    requires Timers(cfg, s)
    ensures Timers(cfg, Apply(cfg, s, Did(who, call)))
  {
    hide UpHistoryAfter, RbHistoryAfter, FluxAfterCall, WorkAfterCall, SnapshotName;
  }

  lemma TimersElsewhere(cfg: Config, s: State, e: Event)
    requires Timers(cfg, s) && !e.WriteUpgrade? && !e.WriteRollback? && !e.Saw? && !e.Did?
    requires e.EnvWorld? ==> s.world.now <= e.world.now
    ensures Timers(cfg, Apply(cfg, s, e))
  {
    hide UpHistoryAfter, RbHistoryAfter, NoteCall, NoteSight, Effect, RankOf;
  }

  lemma TimersKept(cfg: Config, s: State, e: Event)
    requires Timers(cfg, s) && Order(cfg, s) && Enabled(cfg, s, e)
    requires s.up.snapshots != [] ==> s.up.stopped
    ensures Timers(cfg, Apply(cfg, s, e))
  {
    hide Apply, Timers, Order, RollbackWrite, UpgradeWrite, EndOk, MayCall, Accepted;
    match e
    case WriteUpgrade(up) =>
      WriteUpgradeOnly(cfg, s, up);
      TimersUpWrite(cfg, s, up);
    case WriteRollback(rb) =>
      WriteRollbackOnly(cfg, s, rb);
      TimersRbWrite(cfg, s, rb);
    case Saw(who, sight) => TimersSaw(cfg, s, who, sight);
    case Did(who, call) => TimersDid(cfg, s, who, call);
    case _ => TimersElsewhere(cfg, s, e);
  }
}
