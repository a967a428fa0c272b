/**
 The steps of the rollback controller's handlers as facts about values: when a call may be made, when the
 in-memory status may be written, and why a pass may end.
 */
module RollbackSteps {
  import opened Wrappers
  import opened YamlTree
  import opened Protocol
  import opened Invariants
  import opened DataInvariants
  import opened ProgressInvariants
  import opened Runs
  import opened PassSteps

  // ----- where a handler stands -----

  /** A handler at work: the fetched request, at most with its phase timer started in memory. */
  predicate Underway(cfg: Config, s: State, local: RbStatus) {
    var p := s.rbPass;
    && local == s.rb.(phaseStart := local.phaseStart) && Stamped(s.rb.phaseStart, local.phaseStart, p)
    && local.complete == Absent
    && p.active && p.rank <= RankOf(s, Rollbacker) && p.work.committed == None
    && (s.rb.phaseStart == None ==> RbRank(true, s.rb) <= p.rank)
  }

  /** The recorded PVCs, some of them marked restored because this pass saw them bound. */
  predicate Marked(was: seq<RestoredPvc>, next: seq<RestoredPvc>, p: Pass) {
    && |next| == |was|
    && forall i | 0 <= i < |was| ::
         next[i] == was[i] || (next[i] == was[i].(state := Restored) && was[i].ref.pvc in p.work.bound)
  }

  /** How far the in-memory status may have moved away from the persisted one when a handler gives up. */
  predicate Local(rb: RbStatus, local: RbStatus, p: Pass) {
    && p.active && rb.complete == Absent
    && local == rb.(suspended := local.suspended, restored := local.restored, phaseStart := local.phaseStart)
    && (local.suspended == rb.suspended || (local.suspended == IsFalse && p.flux.last == Resumed))
    && Marked(rb.restored, local.restored, p) && p.work.committed == None
  }

  /** From `p` to `q` the pass has gone on, without starting a timer or committing. */
  predicate GoneOn(p: Pass, q: Pass) {
    && q.active == p.active && q.rank == p.rank && q.stamp == p.stamp && q.work.committed == p.work.committed
    && (p.trouble ==> q.trouble) && (p.negative ==> q.negative)
  }

  predicate Started(s: State, local: RbStatus) {
    local.phaseStart.Some? && (s.rb.phaseStart == local.phaseStart || (s.rb.phaseStart == None && s.rbPass.stamp == local.phaseStart))
  }

  predicate Saveable(cfg: Config, s: State, next: RbStatus) {
    && s.rbPass.active && RollbackWrite(cfg, s.rb, next, s.rbPass) && RbRank(s.rbFinalizer, next) > s.rbPass.rank
    && (s.rbPass.work.committed.Some? ==> next.reverted)
  }

  predicate Final(cfg: Config, s: State, next: RbStatus) {
    && s.rbPass.active && RollbackWrite(cfg, s.rb, next, s.rbPass) && next.complete != Absent
    && s.rbPass.work.committed == None
  }

  /** Nothing can be done but wait: the answer was no, and the status, if it is to be written at all, only
      notes when the wait began. */
  predicate Idle(cfg: Config, s: State, local: RbStatus, timeout: nat, persist: bool) {
    && s.rbPass.active && s.rb.complete == Absent && s.rbPass.negative && s.rbPass.work.committed == None
    && (persist ==> RollbackWrite(cfg, s.rb, local, s.rbPass))
    && TimeoutOf(cfg, if persist then s.(rb := local) else s, Rollbacker) == Some(timeout)
    && (persist || s.rb.phaseStart == local.phaseStart || !Anchored(cfg, s, Rollbacker))
    && (var rb := if persist then local else s.rb; rb.stopped && !rb.volumes ==> VolumeWait(rb, s.rbPass))
  }

  lemma UnderwayHas(cfg: Config, s: State, local: RbStatus)
    requires Underway(cfg, s, local)
    ensures s.rbPass.active && s.rb.complete == Absent && local == s.rb.(phaseStart := local.phaseStart)
    ensures s.rbPass.work.committed == None
  {
  }

  lemma UnderwayIsLocal(cfg: Config, s: State, local: RbStatus)
    requires Underway(cfg, s, local)
    ensures Local(s.rb, local, s.rbPass)
  {
  }

  lemma StillUnderway(cfg: Config, s: State, t: State, local: RbStatus)
    requires Underway(cfg, s, local) && OwnKept(Rollbacker, s, t) && GoneOn(s.rbPass, t.rbPass)
    ensures Underway(cfg, t, local) && (Started(s, local) ==> Started(t, local))
    ensures Faulty(s.rbPass) ==> Faulty(t.rbPass)
  {
  }

  lemma StillUnderwayFailed(cfg: Config, s: State, t: State, local: RbStatus)
    requires Underway(cfg, s, local) && OwnKept(Rollbacker, s, t) && t.rbPass == s.rbPass.(trouble := true)
    ensures Underway(cfg, t, local) && Faulty(t.rbPass)
  {
  }

  lemma StillUnderwayTimer(cfg: Config, s: State, t: State, local: RbStatus)
    requires Underway(cfg, s, local) && OwnKept(Rollbacker, s, t) && t.rbPass == s.rbPass.(timer := t.rbPass.timer)
    ensures Underway(cfg, t, local) && (Faulty(s.rbPass) ==> Faulty(t.rbPass))
  {
  }

  /** After a look at anything but the clock, the handler is where it was, and knows the answer. */
  lemma LookedOn(cfg: Config, s: State, t: State, sight: Sight, local: RbStatus)
    requires Underway(cfg, s, local) && OwnKept(Rollbacker, s, t)
    requires t.rbPass == NoteSight(cfg, s.rbPass, Rollbacker, sight) && !sight.SawClock?
    ensures Underway(cfg, t, local) && GoneOn(s.rbPass, t.rbPass)
    ensures Started(s, local) ==> Started(t, local)
    ensures !Hoped(cfg, s.rbPass, Rollbacker, sight) ==> Faulty(t.rbPass) && t.rbPass.negative
  {
    hide Hoped, SightsAfter, RbRank, FluxAfterSight;
  }

  lemma LookedAtUpgrade(cfg: Config, p: Pass, up: UpStatus)
    ensures NoteSight(cfg, p, Rollbacker, SawUpgrade(up)).seen.upgrade == Some(up)
    ensures !CanRollBack(cfg, up) ==> Faulty(NoteSight(cfg, p, Rollbacker, SawUpgrade(up)))
  {
  }

  lemma AppAside(cfg: Config, p: Pass, app: AppStatus)
    ensures var q := NoteSight(cfg, p, Rollbacker, SawApp(app));
            q.seen == p.seen.(app := Some(app)) && q.work == p.work && q.flux == p.flux && GoneOn(p, q)
  {
  }

  lemma FluxAside(cfg: Config, p: Pass, sight: Sight)
    requires !sight.SawSuspended? && !sight.SawReplicas?
    ensures NoteSight(cfg, p, Rollbacker, sight).flux == p.flux
  {
  }

  lemma LookedAtWorkloads(cfg: Config, p: Pass, workloads: seq<string>)
    ensures var q := NoteSight(cfg, p, Rollbacker, SawWorkloads(workloads));
            q.seen.workloads == Some(workloads) && q.seen.upgrade == p.seen.upgrade && q.flux == p.flux
  {
  }

  lemma NegativeIsFaulty(p: Pass, q: Pass)
    requires p.negative && q == p.(timer := q.timer)
    ensures Faulty(q)
  {
  }

  lemma FailReady(cfg: Config, s: State, local: RbStatus)
    requires Local(s.rb, local, s.rbPass) && Faulty(s.rbPass)
    ensures Final(cfg, s, local.(complete := IsFalse))
  {
  }

  lemma TimerAside(cfg: Config, s: State, t: State, next: RbStatus)
    requires RollbackWrite(cfg, s.rb, next, s.rbPass)
    requires t.rb == s.rb && t.rbPass == s.rbPass.(timer := t.rbPass.timer)
    ensures RollbackWrite(cfg, t.rb, next, t.rbPass)
  {
    hide NextToRestore, NamesOf, AllRestored, Restorable;
  }

  lemma WaitEnds(cfg: Config, s: State, t: State, v: State, local: RbStatus, timeout: nat, persist: bool, out: Outcome)
    requires Started(s, local) && Idle(cfg, s, local, timeout, persist)
    requires OwnKept(Rollbacker, s, t)
    requires exists at: nat :: at <= local.phaseStart.value + timeout
                               && t.rbPass == s.rbPass.(timer := Some(TimerCheck(local.phaseStart.value, timeout, at)))
    requires if !persist then v == t && out != Error
             else if out == Error then v.rb == s.rb && v.rbPass == t.rbPass.(trouble := true, lost := true)
             else v.rb == local && v.rbPass == t.rbPass
    requires out == Error || (out.RequeueAfter? && out.seconds > 0)
    ensures EndOk(cfg, v, Rollbacker, out)
  {
    hide RollbackWrite, RbTimeout, RbRank, NextToRestore, NamesOf;
  }

  lemma LocalTimer(s: State, t: State, local: RbStatus)
    requires Local(s.rb, local, s.rbPass) && OwnKept(Rollbacker, s, t) && t.rbPass == s.rbPass.(timer := t.rbPass.timer)
    ensures Local(t.rb, local, t.rbPass) && (Faulty(s.rbPass) ==> Faulty(t.rbPass))
  {
  }

  // ----- which phase is next, and what taking it means -----

  datatype Phase = Suspending | Stopping | Restoration | Reversion | Reconciliation | Checking | Finishing

  /** The phase the persisted conditions of a rollback call for. */
  function PhaseOf(rb: RbStatus): Phase {
    if rb.suspended == Absent then Suspending
    else if !rb.stopped then Stopping
    else if !rb.volumes then Restoration
    else if !rb.reverted then Reversion
    else if !rb.reconciled then Reconciliation
    else if !rb.healthy then Checking
    else Finishing
  }

  /** From `was` to `now` a rollback has taken its next phase, and nothing else; whether there are volumes to
      restore shows when it suspends. */
  predicate Taken(was: RbStatus, now: RbStatus) {
    match PhaseOf(was)
    case Suspending => now == was.(suspended := IsTrue, volumes := now.volumes)
    case Stopping => now == was.(stopped := true, phaseStart := now.phaseStart)
    case Restoration => now == was.(volumes := true, restored := now.restored, phaseStart := now.phaseStart)
    case Reversion => now == was.(reverted := true)
    case Reconciliation => now == was.(reconciled := true, suspended := IsFalse, phaseStart := now.phaseStart)
    case Checking => now == was.(healthy := true, phaseStart := now.phaseStart)
    case Finishing => now == was.(complete := IsTrue)
  }

  /** The phase, or, if it is the stop phase and was skipped, also the one behind it. */
  ghost predicate TakenOn(was: RbStatus, now: RbStatus) {
    || Taken(was, now)
    || (PhaseOf(was) == Stopping && exists start :: Taken(was.(stopped := true, phaseStart := start), now))
  }

  // ----- suspending -----

  lemma PreviousVersionKnown(upgrade: UpStatus)
    ensures upgrade.upgrade == None || upgrade.upgrade.value.prev == None ==> RevertVersion(upgrade) == None
    ensures upgrade.upgrade.Some? && upgrade.upgrade.value.prev.Some?
            ==> RevertVersion(upgrade) == VersionString(upgrade.upgrade.value.prev.value)
  {
  }

  lemma MaySuspend(cfg: Config, s: State)
    requires s.rbPass.active && s.rb.complete == Absent && s.rb.suspended == Absent && RbPrepared(cfg, s.rbPass)
    ensures MayCall(cfg, s, Rollbacker, SuspendFlux)
  {
    hide RbPrepared;
  }

  lemma SuspendSaveable(cfg: Config, s: State, t: State, upgrade: UpStatus, next: RbStatus)
    requires Underway(cfg, s, s.rb) && s.rb.suspended == Absent && s.rbPass.seen.upgrade == Some(upgrade)
    requires OwnKept(Rollbacker, s, t) && t.rbPass == NoteCall(cfg, s.rbPass, SuspendFlux)
    requires next == s.rb.(suspended := IsTrue, volumes := s.rb.volumes || !Restorable(upgrade, cfg))
    ensures Saveable(cfg, t, next)
  {
    hide RbFailWrite, RbStopWrite, RbVolumeWrite, RbRevertWrite, RbReconcileWrite, RbHealthyWrite, RbCompleteWrite;
  }

  // ----- stopping the workloads -----

  predicate StopPhase(cfg: Config, s: State, local: RbStatus) {
    Underway(cfg, s, local) && local.suspended != Absent && !local.stopped
  }

  lemma SkipSaveable(cfg: Config, s: State, local: RbStatus)
    requires StopPhase(cfg, s, local) && Started(s, local)
    requires s.rbPass.seen.upgrade.Some?
    requires !Restorable(s.rbPass.seen.upgrade.value, cfg) || s.rbPass.seen.workloads == Some([])
    ensures Saveable(cfg, s, local.(stopped := true))
  {
    hide RbFailWrite, RbSuspendWrite, RbVolumeWrite, RbRevertWrite, RbReconcileWrite, RbHealthyWrite, RbCompleteWrite,
         Restorable;
  }

  lemma SavedUnderway(cfg: Config, s: State, t: State, local: RbStatus, next: RbStatus)
    requires Underway(cfg, s, local) && Saveable(cfg, s, next) && next.complete == Absent && next.phaseStart.Some?
    requires t.rb == next && t.rbPass == s.rbPass && t.rbFinalizer == s.rbFinalizer
    ensures Underway(cfg, t, next)
  {
    hide RollbackWrite;
  }

  lemma SuspendedKnowing(cfg: Config, p: Pass)
    ensures NoteCall(cfg, p, SuspendFlux).seen.upgrade == p.seen.upgrade
  {
  }

  lemma SawTheUpgrade(cfg: Config, s: State)
    requires Kept(cfg, s) && s.rb.suspended != Absent && s.rbPass.seen.upgrade.Some?
    ensures s.rbPass.seen.upgrade == Some(s.up)
  {
    hide Order, Files, Commits, Mirror, Hold, Snaps, Names, Volumes, Progress, RolledOut, Timers;
  }

  predicate MayScale(cfg: Config, rb: RbStatus, p: Pass, workloads: seq<string>) {
    forall w | w in workloads :: RollbackCall(cfg, rb, p, Scale(w, 0))
  }

  lemma MayScaleOn(cfg: Config, rb: RbStatus, p: Pass, q: Pass, workloads: seq<string>)
    requires MayScale(cfg, rb, p, workloads) && ScalingOn(p, q)
    ensures MayScale(cfg, rb, q, workloads)
  {
    hide NamesOf, NextToRestore, RevertVersion, RbPrepared;
    forall w | w in workloads ensures RollbackCall(cfg, rb, q, Scale(w, 0)) {
      assert RollbackCall(cfg, rb, p, Scale(w, 0));
    }
  }

  lemma MayScaleDown(cfg: Config, s: State, local: RbStatus, workloads: seq<string>)
    requires StopPhase(cfg, s, local) && s.rbPass.seen.workloads == Some(workloads)
    requires s.rbPass.seen.upgrade.Some? && Restorable(s.rbPass.seen.upgrade.value, cfg)
    ensures MayScale(cfg, s.rb, s.rbPass, workloads)
  {
    hide Restorable;
  }

  lemma StopIdle(cfg: Config, s: State, local: RbStatus)
    requires StopPhase(cfg, s, local) && Started(s, local) && s.rbPass.negative
    requires s.rbPass.seen.workloads.Some? && Scaled(s.rbPass, s.rbPass.seen.workloads.value, 0)
    ensures Idle(cfg, s, local, TIMEOUT_SCALE_DOWN, true)
  {
    hide RbFailWrite, RbSuspendWrite, RbVolumeWrite, RbRevertWrite, RbReconcileWrite, RbHealthyWrite, RbCompleteWrite;
  }

  lemma StopSaveable(cfg: Config, s: State, local: RbStatus)
    requires StopPhase(cfg, s, local)
    requires s.rbPass.seen.workloads.Some? && s.rbPass.seen.workloads.value != []
    requires Scaled(s.rbPass, s.rbPass.seen.workloads.value, 0)
    requires forall w | w in s.rbPass.seen.workloads.value :: w in s.rbPass.seen.down
    ensures Saveable(cfg, s, local.(stopped := true, phaseStart := None))
  {
    hide RbFailWrite, RbSuspendWrite, RbVolumeWrite, RbRevertWrite, RbReconcileWrite, RbHealthyWrite, RbCompleteWrite;
  }

  // ----- restoring the volumes -----

  /** The handler works through the snapshot list `refs`, having seen the target suspended; the start of the
      phase is persisted with the first PVC. */
  predicate Restoring(cfg: Config, s: State, local: RbStatus, refs: seq<SnapRef>) {
    && Underway(cfg, s, local) && local.suspended != Absent && local.stopped && !local.volumes && !local.reverted
    && Started(s, local) && s.rbPass.flux.verified
    && s.rbPass.seen.upgrade.Some? && s.rbPass.seen.upgrade.value.snapshots == refs
    && (s.rb.restored != [] ==> s.rb.phaseStart == local.phaseStart)
  }

  lemma RestoringStarts(cfg: Config, s: State, local: RbStatus, refs: seq<SnapRef>)
    requires Underway(cfg, s, local) && local.suspended != Absent && local.stopped && !local.volumes && !local.reverted
    requires Started(s, local) && s.rbPass.flux.verified
    requires s.rbPass.seen.upgrade.Some? && s.rbPass.seen.upgrade.value.snapshots == refs
    requires s.rb.restored != [] ==> s.rb.phaseStart.Some?
    ensures Restoring(cfg, s, local, refs)
  {
  }

  predicate Listed(refs: seq<SnapRef>, restored: seq<RestoredPvc>, n: nat)
    requires n <= |refs|
  {
    forall j | 0 <= j < n :: refs[j].pvc in NamesOf(restored)
  }

  lemma RestoringHas(cfg: Config, s: State, local: RbStatus, refs: seq<SnapRef>)
    requires Restoring(cfg, s, local, refs)
    ensures s.rbPass.active && s.rb.complete == Absent && Underway(cfg, s, local) && Started(s, local)
    ensures s.rbPass.flux.verified
    ensures local == s.rb.(phaseStart := local.phaseStart)
  {
  }

  lemma Sized(cfg: Config, s: State, t: State, local: RbStatus, refs: seq<SnapRef>, snap: string)
    requires Restoring(cfg, s, local, refs) && OwnKept(Rollbacker, s, t)
    requires t.rbPass == NoteSight(cfg, s.rbPass, Rollbacker, SawFit(RestoreSize(snap)))
    ensures Restoring(cfg, t, local, refs) && RestoreSize(snap) in t.rbPass.seen.fit
    ensures t.rbPass.seen.ready == s.rbPass.seen.ready && t.rbPass.work == s.rbPass.work
  {
  }

  lemma LookedAtVolume(cfg: Config, s: State, t: State, sight: Sight, local: RbStatus, refs: seq<SnapRef>)
    requires Restoring(cfg, s, local, refs) && OwnKept(Rollbacker, s, t)
    requires t.rbPass == NoteSight(cfg, s.rbPass, Rollbacker, sight)
    requires sight.SawGone? || sight.SawBound? || sight.SawReady?
    ensures Restoring(cfg, t, local, refs)
    ensures !sight.yes ==> t.rbPass.negative
    ensures s.rbPass.work.gone <= t.rbPass.work.gone && s.rbPass.work.bound <= t.rbPass.work.bound
    ensures sight.SawGone? && sight.yes ==> sight.pvc in t.rbPass.work.gone
    ensures sight.SawBound? && sight.yes ==> sight.pvc in t.rbPass.work.bound
    ensures sight.SawReady? && sight.yes ==> sight.snap in t.rbPass.seen.ready
    ensures s.rbPass.work.asked <= t.rbPass.work.asked
  {
    hide RbRank;
  }

  lemma MayDelete(cfg: Config, s: State, local: RbStatus, refs: seq<SnapRef>, i: nat)
    requires Restoring(cfg, s, local, refs) && i < |refs| && refs[i].pvc !in NamesOf(local.restored)
    ensures MayCall(cfg, s, Rollbacker, DeletePvc(refs[i].pvc))
  {
    assert refs[i] in refs;
  }

  lemma Deleted(cfg: Config, s: State, t: State, local: RbStatus, refs: seq<SnapRef>, pvc: string)
    requires Restoring(cfg, s, local, refs) && OwnKept(Rollbacker, s, t)
    requires || t.rbPass == NoteCall(cfg, s.rbPass, DeletePvc(pvc))
             || t.rbPass == NoteSight(cfg, s.rbPass, Rollbacker, SawGone(pvc, true))
    ensures Restoring(cfg, t, local, refs) && pvc in t.rbPass.work.asked
  {
  }

  lemma MayCreate(cfg: Config, s: State, local: RbStatus, refs: seq<SnapRef>, i: nat)
    requires Restoring(cfg, s, local, refs) && i < |refs| && Listed(refs, local.restored, i)
    requires refs[i].pvc !in NamesOf(local.restored)
    requires refs[i].pvc in s.rbPass.work.gone && refs[i].snap in s.rbPass.seen.ready
    requires RestoreSize(refs[i].snap) in s.rbPass.seen.fit
    ensures MayCall(cfg, s, Rollbacker, CreatePvc(refs[i]))
  {
  }

  lemma AppendWrite(cfg: Config, s: State, t: State, local: RbStatus, refs: seq<SnapRef>, i: nat)
    requires Restoring(cfg, s, local, refs) && i < |refs| && Listed(refs, local.restored, i)
    requires refs[i].pvc !in NamesOf(local.restored)
    requires OwnKept(Rollbacker, s, t) && t.rbPass == NoteCall(cfg, s.rbPass, CreatePvc(refs[i]))
    ensures Restoring(cfg, t, local, refs)
    ensures RollbackWrite(cfg, t.rb, local.(restored := local.restored + [RestoredPvc(refs[i], Pending)]), t.rbPass)
  {
    hide RbFailWrite, RbSuspendWrite, RbStopWrite, RbRevertWrite, RbReconcileWrite, RbHealthyWrite, RbCompleteWrite,
         RbRank;
  }

  lemma AppendEnds(cfg: Config, s: State, t: State, local: RbStatus, refs: seq<SnapRef>, i: nat, ok: bool)
    requires Restoring(cfg, s, local, refs) && i < |refs| && Listed(refs, local.restored, i)
    requires t.rbFinalizer == s.rbFinalizer
    requires if ok then t.rb == local.(restored := local.restored + [RestoredPvc(refs[i], Pending)]) && t.rbPass == s.rbPass
             else t.rb == s.rb && t.rbPass == s.rbPass.(trouble := true, lost := true)
    ensures if ok then Restoring(cfg, t, t.rb, refs) && Listed(refs, t.rb.restored, i + 1)
            else EndOk(cfg, t, Rollbacker, Error)
  {
    if ok {
      var ref := RestoredPvc(refs[i], Pending);
      forall j | 0 <= j < i + 1 ensures refs[j].pvc in NamesOf(t.rb.restored) {
        if j < i {
          assert refs[j].pvc in NamesOf(local.restored);
          var r :| r in local.restored && r.ref.pvc == refs[j].pvc;
          assert r in t.rb.restored;
        } else {
          assert ref in t.rb.restored;
        }
      }
    }
  }

  lemma DeletionIdle(cfg: Config, s: State, local: RbStatus, refs: seq<SnapRef>, i: nat)
    requires Restoring(cfg, s, local, refs) && s.rbPass.negative
    requires i < |refs| && Listed(refs, local.restored, i) && refs[i].pvc !in NamesOf(local.restored)
    requires refs[i].pvc in s.rbPass.work.asked
    ensures Idle(cfg, s, local, TIMEOUT_VOLUME_RESTORE, false)
  {
    hide RollbackWrite;
  }

  /** The second half of the phase: every listed PVC is on record, and `local.restored[..n]` is marked. */
  predicate Binding(cfg: Config, s: State, local: RbStatus, refs: seq<SnapRef>, n: nat) {
    && Restoring(cfg, s, s.rb.(phaseStart := local.phaseStart), refs) && Listed(refs, s.rb.restored, |refs|)
    && local == s.rb.(restored := local.restored, phaseStart := local.phaseStart)
    && Marked(s.rb.restored, local.restored, s.rbPass)
    && n <= |local.restored| && forall k | 0 <= k < n :: local.restored[k].state == Restored
  }

  lemma BindingHas(cfg: Config, s: State, local: RbStatus, refs: seq<SnapRef>, n: nat)
    requires Binding(cfg, s, local, refs, n)
    ensures s.rbPass.active && Started(s, local) && Local(s.rb, local, s.rbPass)
    ensures local == s.rb.(restored := local.restored, phaseStart := local.phaseStart) && PhaseOf(s.rb) == Restoration
  {
  }

  lemma BindingStarts(cfg: Config, s: State, local: RbStatus, refs: seq<SnapRef>)
    requires Restoring(cfg, s, local, refs) && Listed(refs, local.restored, |refs|)
    ensures Binding(cfg, s, local, refs, 0)
  {
  }

  lemma AlreadyBound(cfg: Config, s: State, local: RbStatus, refs: seq<SnapRef>, n: nat)
    requires Binding(cfg, s, local, refs, n) && n < |local.restored| && local.restored[n].state == Restored
    ensures Binding(cfg, s, local, refs, n + 1)
  {
  }

  lemma BoundFailed(cfg: Config, s: State, t: State, local: RbStatus, refs: seq<SnapRef>, n: nat)
    requires Binding(cfg, s, local, refs, n) && OwnKept(Rollbacker, s, t) && t.rbPass == s.rbPass.(trouble := true)
    ensures Local(t.rb, local, t.rbPass) && Faulty(t.rbPass)
  {
  }

  lemma BoundLooked(cfg: Config, s: State, t: State, local: RbStatus, refs: seq<SnapRef>, n: nat, yes: bool)
    requires Binding(cfg, s, local, refs, n) && OwnKept(Rollbacker, s, t) && n < |local.restored|
    requires t.rbPass == NoteSight(cfg, s.rbPass, Rollbacker, SawBound(local.restored[n].ref.pvc, yes))
    ensures if yes then Binding(cfg, t, Mark(local, n), refs, n + 1)
            else Local(t.rb, local, t.rbPass) && Faulty(t.rbPass) && Started(t, local)
                 && Idle(cfg, t, local, TIMEOUT_VOLUME_RESTORE, false)
  {
    hide RbRank, RollbackWrite;
    LookedAtVolume(cfg, s, t, SawBound(local.restored[n].ref.pvc, yes), s.rb.(phaseStart := local.phaseStart), refs);
  }

  function Mark(rb: RbStatus, n: nat): RbStatus
    requires n < |rb.restored|
  {
    rb.(restored := rb.restored[n := rb.restored[n].(state := Restored)])
  }

  lemma VolumesSaveable(cfg: Config, s: State, local: RbStatus, refs: seq<SnapRef>)
    requires Binding(cfg, s, local, refs, |local.restored|)
    ensures Saveable(cfg, s, local.(volumes := true, phaseStart := None))
  {
    hide RbFailWrite, RbSuspendWrite, RbStopWrite, RbRevertWrite, RbReconcileWrite, RbHealthyWrite, RbCompleteWrite;
    assert local.restored == AllRestored(s.rb.restored);
    forall r | r in s.rb.restored ensures r.state == Restored || r.ref.pvc in s.rbPass.work.bound {
      var k :| 0 <= k < |s.rb.restored| && s.rb.restored[k] == r;
      assert local.restored[k].state == Restored;
    }
    forall r | r in refs ensures r.pvc in NamesOf(s.rb.restored) {
      var j :| 0 <= j < |refs| && refs[j] == r;
    }
  }

  // ----- the revert and after -----

  predicate RevertPhase(cfg: Config, s: State, local: RbStatus) {
    && Underway(cfg, s, local) && local == s.rb
    && local.suspended != Absent && local.stopped && local.volumes && !local.reverted
  }

  predicate Rendered(cfg: Config, p: Pass, version: string, tree: Yaml) {
    && p.seen.upgrade.Some? && RevertVersion(p.seen.upgrade.value) == Some(version)
    && p.seen.file.Some? && Edit(cfg, p.seen.file.value, version) == Ok(tree)
  }

  /** The upgrade a live rollback has read is the one that ended, with its previous version on record. */
  lemma SeenUpgradeRecorded(cfg: Config, s: State, upgrade: UpStatus)
    requires Kept(cfg, s) && s.rb.suspended != Absent && s.rbPass.seen.upgrade == Some(upgrade)
    ensures upgrade.upgrade.Some?
  {
    hide Order, Files, Commits, Mirror, Hold, Snaps, Names, Volumes, Progress, Timers;
  }

  lemma RevertKnown(cfg: Config, p: Pass, q: Pass, upgrade: UpStatus)
    requires !CanRollBack(cfg, upgrade) ==> Faulty(p)
    requires Faulty(p) ==> Faulty(q)
    ensures RevertVersion(upgrade) == None ==> Faulty(q)
  {
  }

  lemma MayCommit(cfg: Config, s: State, local: RbStatus, version: string, tree: Yaml)
    requires RevertPhase(cfg, s, local) && s.rbPass.flux.verified && Rendered(cfg, s.rbPass, version, tree)
    ensures MayCall(cfg, s, Rollbacker, Commit(version, tree))
  {
  }

  lemma RevertSaveable(cfg: Config, s: State, t: State, local: RbStatus, version: string, tree: Yaml)
    requires RevertPhase(cfg, s, local)
    requires OwnKept(Rollbacker, s, t) && t.rbPass == NoteCall(cfg, s.rbPass, Commit(version, tree))
    ensures Saveable(cfg, t, local.(reverted := true))
  {
    hide RbFailWrite, RbSuspendWrite, RbStopWrite, RbVolumeWrite, RbReconcileWrite, RbHealthyWrite, RbCompleteWrite;
  }

  predicate ReconcilePhase(cfg: Config, s: State, local: RbStatus) {
    && Underway(cfg, s, local)
    && local.suspended != Absent && local.stopped && local.volumes && local.reverted && !local.reconciled
  }

  lemma MayResume(cfg: Config, s: State, local: RbStatus)
    requires ReconcilePhase(cfg, s, local)
    ensures MayCall(cfg, s, Rollbacker, ResumeFlux)
  {
  }

  lemma ResumedWrite(cfg: Config, s: State, t: State, local: RbStatus)
    requires ReconcilePhase(cfg, s, local) && Started(s, local)
    requires OwnKept(Rollbacker, s, t) && t.rbPass == NoteCall(cfg, s.rbPass, ResumeFlux)
    ensures RollbackWrite(cfg, t.rb, local.(suspended := IsFalse), t.rbPass)
  {
    hide RbFailWrite, RbSuspendWrite, RbStopWrite, RbVolumeWrite, RbRevertWrite, RbHealthyWrite, RbCompleteWrite;
  }

  /** Flux has been resumed in this pass, and that is on record. */
  predicate ResumedOnRecord(cfg: Config, s: State, local: RbStatus) {
    && ReconcilePhase(cfg, s, local) && local == s.rb && local.suspended == IsFalse && Started(s, local)
    && s.rbPass.flux.last == Resumed
  }

  lemma ResumedRecorded(cfg: Config, s: State, t: State, v: State, local: RbStatus, ok: bool)
    requires ReconcilePhase(cfg, s, local) && Started(s, local)
    requires OwnKept(Rollbacker, s, t) && t.rbPass == NoteCall(cfg, s.rbPass, ResumeFlux)
    requires v.rbFinalizer == t.rbFinalizer
    requires if ok then v.rb == local.(suspended := IsFalse) && v.rbPass == t.rbPass
             else v.rb == t.rb && v.rbPass == t.rbPass.(trouble := true, lost := true)
    ensures if ok then ResumedOnRecord(cfg, v, v.rb) else EndOk(cfg, v, Rollbacker, Error)
  {
  }

  lemma LookedReconciled(cfg: Config, s: State, t: State, local: RbStatus, yes: bool)
    requires ResumedOnRecord(cfg, s, local) && OwnKept(Rollbacker, s, t)
    requires t.rbPass == NoteSight(cfg, s.rbPass, Rollbacker, SawReconciled(yes))
    ensures Started(t, local) && Underway(cfg, t, local)
    ensures if yes then Saveable(cfg, t, local.(reconciled := true, phaseStart := None))
            else Faulty(t.rbPass) && Idle(cfg, t, local, TIMEOUT_RECONCILE, false)
  {
    hide RbFailWrite, RbSuspendWrite, RbStopWrite, RbVolumeWrite, RbRevertWrite, RbHealthyWrite, RbCompleteWrite;
  }

  predicate HealthPhase(cfg: Config, s: State, local: RbStatus) {
    && Underway(cfg, s, local)
    && local.suspended != Absent && local.stopped && local.volumes && local.reverted
    && local.reconciled && !local.healthy
  }

  lemma LookedHealthy(cfg: Config, s: State, t: State, local: RbStatus, yes: bool)
    requires HealthPhase(cfg, s, local) && Started(s, local) && OwnKept(Rollbacker, s, t)
    requires t.rbPass == NoteSight(cfg, s.rbPass, Rollbacker, SawHealthy(yes))
    ensures Started(t, local) && Underway(cfg, t, local)
    ensures if yes then Saveable(cfg, t, local.(healthy := true))
            else Faulty(t.rbPass) && Idle(cfg, t, local, cfg.healthTimeout, false)
  {
    hide RbFailWrite, RbSuspendWrite, RbStopWrite, RbVolumeWrite, RbRevertWrite, RbReconcileWrite, RbCompleteWrite;
  }

  lemma CompleteFinal(cfg: Config, s: State, local: RbStatus)
    requires Underway(cfg, s, local) && local.healthy && local == s.rb
    ensures Final(cfg, s, local.(complete := IsTrue))
  {
    hide RbFailWrite, RbSuspendWrite, RbStopWrite, RbVolumeWrite, RbRevertWrite, RbReconcileWrite, RbHealthyWrite;
  }

  // ----- the reconcile loop -----

  lemma FreshPass(cfg: Config, s: State)
    requires s.rb.complete == Absent && s.rbFinalizer
    requires s.rbPass == NO_PASS.(active := true, since := s.rbPass.since, rank := RankOf(s, Rollbacker))
    ensures Underway(cfg, s, s.rb)
  {
  }

  lemma TimerOnRecord(cfg: Config, s: State)
    requires Timers(cfg, s) && s.rb.complete == Absent
    ensures s.rb.restored != [] && !s.rb.volumes ==> s.rb.phaseStart.Some?
  {
  }

  lemma InOrder(cfg: Config, s: State)
    requires Order(cfg, s)
    ensures RollbackOrder(s.rb)
  {
  }

  lemma TroubledEnd(cfg: Config, s: State)
    requires s.rbPass.active && s.rbPass.trouble
    requires s.rbPass.work.committed == None
    ensures EndOk(cfg, s, Rollbacker, Error)
  {
  }

  lemma TerminalEnd(cfg: Config, s: State)
    requires s.rbPass.active && s.rb.complete != Absent
    requires s.rbPass.work.committed == None
    ensures EndOk(cfg, s, Rollbacker, Done)
  {
  }

  lemma FinalizerEnd(cfg: Config, s: State, t: State, ok: bool)
    requires s.rbPass.active && s.rbPass.rank == RankOf(s, Rollbacker) && !s.rbFinalizer
    requires t.rb == s.rb && t.rbFinalizer == ok
    requires t.rbPass == if ok then s.rbPass else s.rbPass.(trouble := true)
    requires s.rbPass.work.committed == None
    ensures EndOk(cfg, t, Rollbacker, if ok then Requeue else Error)
  {
  }
}
