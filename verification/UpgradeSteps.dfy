/**
 The steps of the upgrade controller's handlers as facts about values: when a call may be made, when the
 in-memory status may be written, and why a pass may end.
 */
module UpgradeSteps {
  import opened Wrappers
  import opened YamlTree
  import opened Protocol
  import opened Invariants
  import opened ProgressInvariants
  import opened Runs
  import opened WorldFacts
  import opened PassSteps

  /** A handler at work: the fetched request, at most with its phase timer started in memory; no Flux call
      made and nothing committed. */
  predicate Underway(cfg: Config, s: State, local: UpStatus) {
    var p := s.upPass;
    && local == s.up.(phaseStart := local.phaseStart) && Stamped(s.up.phaseStart, local.phaseStart, p)
    && local.complete == Absent
    && p.active && !p.lost && p.rank <= RankOf(s, Upgrader) && p.flux.last == NoCall
    && (s.up.phaseStart == None ==> UpRank(true, s.up) <= p.rank)
    && (cfg.dryRun ==> !local.committed)
    && p.work.committed == None
  }

  /** How far the in-memory status may have moved away from the persisted one when a handler gives up. */
  predicate Local(cfg: Config, up: UpStatus, local: UpStatus, p: Pass) {
    && p.active && up.complete == Absent
    && local == up.(suspended := local.suspended, phaseStart := local.phaseStart)
    && (local.phaseStart == None || Stamped(up.phaseStart, local.phaseStart, p))
    && (local.suspended == up.suspended
        || (local.suspended == IsFalse && p.flux.last == Resumed && up.suspended != Absent))
    && (!up.committed ==> p.work.committed == None)
    && (!cfg.dryRun ==>
          && p.flux.last != FluxCall.Suspended
          && (up.suspended == Absent ==> p.flux.last == NoCall)
          && (p.flux.last == Resumed ==> local.suspended == IsFalse))
    && (cfg.dryRun ==> !up.committed)
    && (cfg.dryRun && !p.trouble && up.suspended == Absent ==> p.flux.last != FluxCall.Suspended || p.flux.released)
  }

  /** The in-memory status may be written as a failure, and says what was done to Flux. */
  predicate ReadyToFail(cfg: Config, up: UpStatus, local: UpStatus, p: Pass) {
    && p.active && up.complete == Absent
    && FailWrite(cfg, up, local, p) && (p.work.committed.Some? ==> up.committed)
    && (!cfg.dryRun ==> p.flux.last == NoCall || p.flux.last == Recorded(local.suspended))
  }

  predicate Final(cfg: Config, s: State, next: UpStatus) {
    var p := s.upPass;
    && p.active && UpgradeWrite(cfg, s.up, next, p) && next.complete != Absent
    && (p.work.committed.Some? ==> s.up.committed && next.committed)
    && (!cfg.dryRun ==> p.flux.last == NoCall || p.flux.last == Recorded(next.suspended))
  }

  // ----- the reconcile loop -----

  lemma FreshPass(cfg: Config, s: State)
    requires Order(cfg, s) && s.up.complete == Absent && s.upFinalizer
    requires s.upPass == NO_PASS.(active := true, since := s.upPass.since, rank := RankOf(s, Upgrader))
    ensures Underway(cfg, s, s.up)
  {
  }

  lemma DryNotResumed(cfg: Config, s: State)
    requires Order(cfg, s) && cfg.dryRun && s.up.complete == Absent
    ensures s.up.suspended != IsFalse
  {
  }

  lemma TimerOnRecord(cfg: Config, s: State)
    requires Timers(cfg, s) && !cfg.dryRun && s.up.complete == Absent
    ensures s.up.snapshots != [] && !s.up.snapReady ==> s.up.phaseStart.Some?
  {
  }

  lemma InOrder(cfg: Config, s: State)
    requires Order(cfg, s) && !cfg.dryRun
    ensures UpgradeOrder(cfg, s.up)
  {
  }

  lemma OrderOf(cfg: Config, up: UpStatus)
    requires UpgradeOrder(cfg, up) && up.complete == Absent && up.suspended != Absent
    ensures !up.committed ==> up.suspended == IsTrue
    ensures up.committed ==> up.stopped && up.snapReady
    ensures up.healthy ==> up.reconciled && up.committed
    ensures up.reconciled ==> up.committed
  {
  }

  lemma TroubledEnd(cfg: Config, s: State)
    requires s.upPass.active && s.upPass.trouble && s.upPass.flux.last == NoCall
    requires s.upPass.work.committed == None
    ensures EndOk(cfg, s, Upgrader, Error)
  {
  }

  lemma TerminalEnd(cfg: Config, s: State)
    requires s.upPass.active && s.upPass.flux.last == NoCall && s.up.complete != Absent
    requires s.upPass.work.committed == None
    ensures EndOk(cfg, s, Upgrader, Done)
  {
  }

  lemma FinalizerEnd(cfg: Config, s: State, t: State, ok: bool)
    requires s.upPass.active && s.upPass.flux.last == NoCall && s.upPass.rank == RankOf(s, Upgrader) && !s.upFinalizer
    requires t.up == s.up && t.upFinalizer == ok
    requires t.upPass == if ok then s.upPass else s.upPass.(trouble := true)
    requires s.upPass.work.committed == None
    ensures EndOk(cfg, t, Upgrader, if ok then Requeue else Error)
  {
  }

  // ----- which phase is next, and what taking it means -----

  datatype Phase = Suspending | Stopping | Snapshotting | Committing | Reconciling | Checking | Finishing

  /** The phase the persisted conditions of a live upgrade call for. */
  function PhaseOf(up: UpStatus): Phase {
    if up.suspended == Absent then Suspending
    else if !up.stopped then Stopping
    else if !up.snapReady then Snapshotting
    else if !up.committed then Committing
    else if !up.reconciled then Reconciling
    else if !up.healthy then Checking
    else Finishing
  }

  /** From `was` to `now` a live upgrade has taken its next phase, and nothing else. */
  predicate Taken(cfg: Config, was: UpStatus, now: UpStatus) {
    match PhaseOf(was)
    case Suspending =>
      now == was.(suspended := IsTrue, snapReady := was.snapReady || cfg.skipSnapshot || !cfg.snapshotsOn)
    case Stopping => now == was.(stopped := true, phaseStart := now.phaseStart)
    case Snapshotting => now == was.(snapReady := true, snapshots := now.snapshots, phaseStart := now.phaseStart)
    case Committing => now == was.(committed := true, upgrade := now.upgrade) && now.upgrade.Some?
    case Reconciling => now == was.(reconciled := true, suspended := IsFalse, phaseStart := now.phaseStart)
    case Checking => now == was.(healthy := true, phaseStart := now.phaseStart)
    case Finishing => now == was.(complete := IsTrue, suspended := IsFalse)
  }

  /** The phase, or, if it is the stop phase and was skipped, also the one behind it. */
  ghost predicate TakenOn(cfg: Config, was: UpStatus, now: UpStatus) {
    || Taken(cfg, was, now)
    || (PhaseOf(was) == Stopping && exists start :: Taken(cfg, was.(stopped := true, phaseStart := start), now))
  }

  /** A dry run has suspended, scaled down or scaled up, one of them. */
  predicate TakenDry(was: UpStatus, now: UpStatus) {
    || (was.suspended == Absent && now == was.(suspended := IsTrue, phaseStart := None))
    || (was.suspended == IsTrue && !was.stopped && now == was.(stopped := true, phaseStart := None))
    || (was.suspended == IsTrue && was.stopped && !was.snapReady && now == was.(snapReady := true, phaseStart := None))
  }

  predicate InCommit(cfg: Config, up: UpStatus) {
    !cfg.dryRun && up.complete == Absent && PhaseOf(up) == Committing
  }

  // ----- steps of the handlers -----

  /** The status may be written, brings the request forward, and records what was done to Flux. */
  predicate Saveable(cfg: Config, s: State, next: UpStatus) {
    var p := s.upPass;
    && p.active && UpgradeWrite(cfg, s.up, next, p)
    && UpRank(s.upFinalizer, next) > p.rank
    && (p.work.committed.Some? ==> next.committed)
    && (if cfg.dryRun then next.suspended != Absent
        else p.flux.last == NoCall || p.flux.last == Recorded(next.suspended))
  }

  /** The phase's start is in the status, as the timer will want it. */
  predicate Started(s: State, local: UpStatus) {
    local.phaseStart.Some? && (s.up.phaseStart == local.phaseStart || (s.up.phaseStart == None && s.upPass.stamp == local.phaseStart))
  }

  /** Nothing can be done but wait: something failed or the answer was no, and the status, if it is to be
      written at all, only notes when the wait began and what was done to Flux. */
  predicate Idle(cfg: Config, s: State, local: UpStatus, timeout: nat, persist: bool) {
    var p := s.upPass;
    && p.active && s.up.complete == Absent && Faulty(p)
    && (p.work.committed.Some? ==> s.up.committed && local.committed)
    && (persist ==> UpgradeWrite(cfg, s.up, local, p))
    && (var t := if persist then s.(up := local) else s;
        && TimeoutOf(cfg, t, Upgrader) == Some(timeout)
        && (persist || s.up.phaseStart == local.phaseStart || !Anchored(cfg, s, Upgrader))
        && (if cfg.dryRun then t.up.suspended != Absent || p.trouble || p.flux.last != FluxCall.Suspended || p.flux.released
            else p.flux.last == NoCall || p.flux.last == Recorded(t.up.suspended)))
  }

  lemma TimerAsideFailing(cfg: Config, was: UpStatus, next: UpStatus, p: Pass, q: Pass)
    requires q == p.(timer := q.timer)
    ensures FailWrite(cfg, was, next, p) == FailWrite(cfg, was, next, q)
    ensures DryWrite(was, next, p) == DryWrite(was, next, q)
  {
  }

  lemma TimerAsideEarly(cfg: Config, was: UpStatus, next: UpStatus, p: Pass, q: Pass)
    requires q == p.(timer := q.timer)
    ensures SuspendWrite(cfg, was, next, p) == SuspendWrite(cfg, was, next, q)
    ensures StopWrite(cfg, was, next, p) == StopWrite(cfg, was, next, q)
    ensures SnapshotWrite(cfg, was, next, p) == SnapshotWrite(cfg, was, next, q)
  {
  }

  lemma TimerAsideLate(cfg: Config, was: UpStatus, next: UpStatus, p: Pass, q: Pass)
    requires q == p.(timer := q.timer)
    ensures CommitWrite(cfg, was, next, p) == CommitWrite(cfg, was, next, q)
    ensures ReconcileWrite(was, next, p) == ReconcileWrite(was, next, q)
    ensures HealthyWrite(was, next, p) == HealthyWrite(was, next, q)
    ensures CompleteWrite(was, next, p) == CompleteWrite(was, next, q)
  {
  }

  /** A look at the clock changes nothing about what may be written. */
  lemma TimerAside(cfg: Config, s: State, t: State, next: UpStatus)
    requires UpgradeWrite(cfg, s.up, next, s.upPass)
    requires t.up == s.up && t.upPass == s.upPass.(timer := t.upPass.timer)
    ensures UpgradeWrite(cfg, t.up, next, t.upPass)
  {
    hide FailWrite, DryWrite, SuspendWrite, StopWrite, SnapshotWrite, CommitWrite, ReconcileWrite, HealthyWrite,
         CompleteWrite;
    TimerAsideFailing(cfg, s.up, next, s.upPass, t.upPass);
    TimerAsideEarly(cfg, s.up, next, s.upPass, t.upPass);
    TimerAsideLate(cfg, s.up, next, s.upPass, t.upPass);
  }

  lemma WaitEnds(cfg: Config, s: State, t: State, v: State, local: UpStatus, timeout: nat, persist: bool, out: Outcome)
    requires Started(s, local) && Idle(cfg, s, local, timeout, persist)
    requires OwnKept(Upgrader, s, t)
    requires exists at: nat :: at <= local.phaseStart.value + timeout
                          && t.upPass == s.upPass.(timer := Some(TimerCheck(local.phaseStart.value, timeout, at)))
    requires if !persist then v == t && out != Error
             else if out == Error then v.up == s.up && v.upPass == t.upPass.(trouble := true, lost := true)
             else v.up == local && v.upPass == t.upPass
    requires out == Error || (out.RequeueAfter? && out.seconds > 0)
    ensures EndOk(cfg, v, Upgrader, out)
  {
    hide UpgradeWrite, UpTimeout, UpRank;
  }

  lemma Looked(cfg: Config, p: Pass, sight: Sight)
    requires !sight.SawClock? && !sight.SawGone? && !sight.SawBound?
    ensures NoteSight(cfg, p, Upgrader, sight).active == p.active
    ensures ReadOnly(p, NoteSight(cfg, p, Upgrader, sight))
    ensures !Hoped(cfg, p, Upgrader, sight) ==> Faulty(NoteSight(cfg, p, Upgrader, sight))
  {
    hide Hoped, SightsAfter;
  }

  lemma LocalIsActive(cfg: Config, up: UpStatus, local: UpStatus, p: Pass)
    requires Local(cfg, up, local, p)
    ensures p.active
  {
  }

  lemma LocalAfterLook(cfg: Config, up: UpStatus, local: UpStatus, p: Pass, q: Pass)
    requires Local(cfg, up, local, p) && ReadOnly(p, q)
    ensures Local(cfg, up, local, q) && (Faulty(p) ==> Faulty(q))
  {
  }

  /** From `p` to `q` only trouble, sights and the making of a rollback have come. */
  predicate Aside(p: Pass, q: Pass) {
    && q.active == p.active && q.stamp == p.stamp && q.flux == p.flux && q.work == p.work.(rollback := q.work.rollback)
    && (p.trouble ==> q.trouble) && (p.negative ==> q.negative)
  }

  lemma AppAside(cfg: Config, p: Pass, app: AppStatus)
    ensures Aside(p, NoteSight(cfg, p, Upgrader, SawApp(app)))
  {
  }

  lemma RollbackCreated(cfg: Config, p: Pass)
    ensures Aside(p, NoteCall(cfg, p, CreateRollback)) && NoteCall(cfg, p, CreateRollback).work.rollback
  {
  }

  lemma MayCreateRollback(cfg: Config, s: State, local: UpStatus, p: Pass)
    requires Local(cfg, s.up, local, p) && local.committed && Aside(p, s.upPass) && Faulty(p) && cfg.autoRollback
    ensures MayCall(cfg, s, Upgrader, CreateRollback)
  {
  }

  lemma CommittedReady(cfg: Config, up: UpStatus, local: UpStatus, p: Pass, q: Pass)
    requires Local(cfg, up, local, p) && Faulty(p) && local.committed
    requires Aside(p, q)
    requires cfg.autoRollback ==> q.trouble || q.work.rollback
    ensures ReadyToFail(cfg, up, local.(complete := IsFalse), q)
  {
  }

  lemma ReadyIsFinal(cfg: Config, s: State, next: UpStatus)
    requires ReadyToFail(cfg, s.up, next, s.upPass)
    ensures Final(cfg, s, next)
  {
  }

  lemma MayResume(cfg: Config, s: State, local: UpStatus)
    requires Local(cfg, s.up, local, s.upPass) && Faulty(s.upPass) && !local.committed && local.suspended == IsTrue
    ensures MayCall(cfg, s, Upgrader, ResumeFlux)
  {
  }

  lemma ResumedReady(cfg: Config, up: UpStatus, local: UpStatus, p: Pass, q: Pass)
    requires Local(cfg, up, local, p) && Faulty(p) && !local.committed && local.suspended == IsTrue
    requires q == NoteCall(cfg, p, ResumeFlux)
    ensures ReadyToFail(cfg, up, local.(complete := IsFalse, suspended := IsFalse), q) && q.flux.last == Resumed
  {
  }

  lemma UnresumedReady(cfg: Config, up: UpStatus, local: UpStatus, p: Pass, q: Pass)
    requires Local(cfg, up, local, p) && Faulty(p) && !local.committed
    requires if local.suspended == IsTrue then q == p.(trouble := true) else q == p
    ensures ReadyToFail(cfg, up, local.(complete := IsFalse), q)
  {
  }

  /** The preflight leaves alone what was read before it. */
  predicate Preflown(a: Sights, b: Sights) {
    b.file == a.file && b.app == a.app && a.fit <= b.fit
  }

  lemma StillPrepared(cfg: Config, p: Pass, q: Pass)
    requires Prepared(cfg, p) && q.seen == p.seen
    ensures Prepared(cfg, q)
  {
  }

  lemma MaySuspend(cfg: Config, s: State)
    requires s.upPass.active && s.up.complete == Absent && s.up.suspended == Absent
    requires Prepared(cfg, s.upPass)
    ensures MayCall(cfg, s, Upgrader, SuspendFlux)
  {
    hide Prepared;
  }

  lemma SuspendSaveable(cfg: Config, s: State, t: State, next: UpStatus)
    requires !cfg.dryRun && Underway(cfg, s, s.up) && s.up.suspended == Absent
    requires OwnKept(Upgrader, s, t) && t.upPass == NoteCall(cfg, s.upPass, SuspendFlux)
    requires next == s.up.(suspended := IsTrue, snapReady := s.up.snapReady || !cfg.Snapshots())
    ensures Saveable(cfg, t, next)
  {
    hide FailWrite, StopWrite, SnapshotWrite, CommitWrite, ReconcileWrite, HealthyWrite, CompleteWrite;
  }

  lemma StillUnderway(cfg: Config, s: State, t: State, local: UpStatus)
    requires Underway(cfg, s, local) && OwnKept(Upgrader, s, t) && ReadOnly(s.upPass, t.upPass)
    ensures Underway(cfg, t, local) && (Started(s, local) ==> Started(t, local))
  {
  }

  lemma StillUnderwayFailed(cfg: Config, s: State, t: State, local: UpStatus)
    requires Underway(cfg, s, local) && OwnKept(Upgrader, s, t) && t.upPass == s.upPass.(trouble := true)
    ensures Underway(cfg, t, local) && Faulty(t.upPass)
  {
  }

  lemma StillUnderwayTimer(cfg: Config, s: State, t: State, local: UpStatus)
    requires Underway(cfg, s, local) && OwnKept(Upgrader, s, t) && t.upPass == s.upPass.(timer := t.upPass.timer)
    ensures Underway(cfg, t, local) && (Faulty(s.upPass) ==> Faulty(t.upPass))
  {
  }

  /** After a look at anything but the clock, the handler is where it was, and knows the answer. */
  lemma LookedOn(cfg: Config, s: State, t: State, sight: Sight, local: UpStatus)
    requires Underway(cfg, s, local) && OwnKept(Upgrader, s, t) && t.upPass == NoteSight(cfg, s.upPass, Upgrader, sight)
    requires !sight.SawClock? && !sight.SawGone? && !sight.SawBound? && !sight.SawReplicas?
    ensures Underway(cfg, t, local)
    ensures Started(s, local) ==> Started(t, local)
    ensures !Hoped(cfg, s.upPass, Upgrader, sight) ==> Faulty(t.upPass)
    ensures t.upPass.work == s.upPass.work && t.upPass.trouble == s.upPass.trouble
    ensures !sight.SawSuspended? ==> t.upPass.flux == s.upPass.flux
  {
    hide Hoped, SightsAfter, UpRank, UpdateVersion;
  }

  lemma SavedUnderway(cfg: Config, s: State, t: State, local: UpStatus, next: UpStatus)
    requires Underway(cfg, s, local) && Saveable(cfg, s, next) && next.complete == Absent && !cfg.dryRun
    requires next.phaseStart.Some?
    requires t.up == next && t.upPass == s.upPass && t.upFinalizer == s.upFinalizer
    ensures Underway(cfg, t, next)
  {
    hide UpgradeWrite;
  }

  lemma SkipSaveable(cfg: Config, s: State, local: UpStatus)
    requires !cfg.dryRun && Underway(cfg, s, local) && Started(s, local) && local.suspended != Absent && !local.stopped
    requires !cfg.Snapshots() || s.upPass.seen.workloads == Some([])
    ensures Saveable(cfg, s, local.(stopped := true))
  {
    hide FailWrite, SuspendWrite, SnapshotWrite, CommitWrite, ReconcileWrite, HealthyWrite, CompleteWrite;
  }

  predicate MayScale(cfg: Config, up: UpStatus, p: Pass, workloads: seq<string>, count: nat) {
    forall w | w in workloads :: UpgradeCall(cfg, up, p, Scale(w, count))
  }

  lemma MayScaleOn(cfg: Config, up: UpStatus, p: Pass, q: Pass, workloads: seq<string>, count: nat)
    requires MayScale(cfg, up, p, workloads, count) && ScalingOn(p, q)
    ensures MayScale(cfg, up, q, workloads, count)
  {
    forall w | w in workloads ensures UpgradeCall(cfg, up, q, Scale(w, count)) {
      assert UpgradeCall(cfg, up, p, Scale(w, count));
    }
  }

  lemma MayScaleDown(cfg: Config, s: State, local: UpStatus, workloads: seq<string>)
    requires Underway(cfg, s, local) && local.suspended != Absent && !local.stopped && (cfg.dryRun || cfg.Snapshots())
    requires s.upPass.seen.workloads == Some(workloads)
    ensures MayScale(cfg, s.up, s.upPass, workloads, 0)
  {
  }

  lemma ScaleDownIdle(cfg: Config, s: State, local: UpStatus)
    requires !cfg.dryRun && Underway(cfg, s, local) && Started(s, local) && local.suspended != Absent && !local.stopped
    requires s.upPass.negative && s.upPass.seen.workloads.Some? && Scaled(s.upPass, s.upPass.seen.workloads.value, 0)
    ensures Idle(cfg, s, local, TIMEOUT_SCALE_DOWN, true)
  {
    hide FailWrite, SuspendWrite, SnapshotWrite, CommitWrite, ReconcileWrite, HealthyWrite, CompleteWrite;
  }

  lemma StopSaveable(cfg: Config, s: State, local: UpStatus)
    requires !cfg.dryRun && Underway(cfg, s, local) && local.suspended != Absent && !local.stopped
    requires cfg.Snapshots() && s.upPass.seen.workloads.Some? && s.upPass.seen.workloads.value != []
    requires Scaled(s.upPass, s.upPass.seen.workloads.value, 0)
    requires forall w | w in s.upPass.seen.workloads.value :: w in s.upPass.seen.down
    ensures Saveable(cfg, s, local.(stopped := true, phaseStart := None))
  {
    hide FailWrite, SuspendWrite, SnapshotWrite, CommitWrite, ReconcileWrite, HealthyWrite, CompleteWrite;
  }

  lemma UnderwayHas(cfg: Config, s: State, local: UpStatus)
    requires Underway(cfg, s, local)
    ensures s.upPass.active && s.up.complete == Absent && local == s.up.(phaseStart := local.phaseStart)
    ensures s.upPass.flux.last == NoCall && s.upPass.work.committed == None
  {
  }

  lemma UnderwayIsLocal(cfg: Config, s: State, local: UpStatus)
    requires Underway(cfg, s, local)
    ensures Local(cfg, s.up, local, s.upPass)
  {
  }

  // ----- steps of the snapshot phase -----

  predicate SnapshotPhase(cfg: Config, s: State, local: UpStatus) {
    && !cfg.dryRun && Underway(cfg, s, local)
    && local.suspended != Absent && local.stopped && !local.snapReady
  }

  /** On entry nothing has been created, and once snapshots are on record so is the phase's start. */
  predicate SnapshotTime(cfg: Config, s: State, local: UpStatus) {
    && SnapshotPhase(cfg, s, local)
    && s.upPass.work.created == [] && s.upPass.work.timestamp == None
    && (s.up.snapshots != [] ==> s.up.phaseStart.Some?)
  }

  /** From `p` to `q` the pass has only created snapshots. */
  predicate Made(p: Pass, q: Pass) {
    q == p.(trouble := q.trouble, work := p.work.(timestamp := q.work.timestamp, created := q.work.created))
  }

  predicate MaySnapshot(cfg: Config, up: UpStatus, p: Pass, pvcs: seq<string>) {
    && p.active && up.complete == Absent && !cfg.dryRun && up.suspended != Absent && up.stopped && !up.snapReady
    && up.snapshots == [] && p.seen.pvcs == Some(pvcs)
  }

  lemma MayCreate(cfg: Config, s: State, p: Pass, pvcs: seq<string>, i: nat, timestamp: string)
    requires MaySnapshot(cfg, s.up, p, pvcs) && Made(p, s.upPass) && i < |pvcs|
    requires |s.upPass.work.created| == i
    requires s.upPass.work.timestamp == None || s.upPass.work.timestamp == Some(timestamp)
    ensures MayCall(cfg, s, Upgrader, CreateSnapshot(pvcs[i], timestamp))
  {
  }

  lemma MaySnapshotAll(cfg: Config, s: State, local: UpStatus, pvcs: seq<string>)
    requires SnapshotPhase(cfg, s, local) && local.snapshots == [] && s.upPass.seen.pvcs == Some(pvcs)
    ensures MaySnapshot(cfg, s.up, s.upPass, pvcs)
  {
  }

  lemma StillUnderwayMade(cfg: Config, s: State, t: State, local: UpStatus)
    requires Underway(cfg, s, local) && OwnKept(Upgrader, s, t) && Made(s.upPass, t.upPass)
    ensures Underway(cfg, t, local) && (Started(s, local) ==> Started(t, local))
    ensures t.upPass.seen == s.upPass.seen && (t.upPass.trouble ==> Faulty(t.upPass))
  {
  }

  lemma NothingSaveable(cfg: Config, s: State, local: UpStatus)
    requires SnapshotPhase(cfg, s, local) && Started(s, local) && local.snapshots == [] && s.upPass.seen.pvcs == Some([])
    ensures Saveable(cfg, s, local.(snapReady := true))
  {
    hide FailWrite, SuspendWrite, StopWrite, CommitWrite, ReconcileWrite, HealthyWrite, CompleteWrite;
  }

  lemma RecordWrite(cfg: Config, s: State, local: UpStatus, refs: seq<SnapRef>)
    requires SnapshotPhase(cfg, s, local) && Started(s, local) && local.snapshots == []
    requires refs != [] && refs == s.upPass.work.created && s.upPass.seen.pvcs == Some(PvcsOf(refs))
    ensures UpgradeWrite(cfg, s.up, local.(snapshots := refs), s.upPass)
  {
    hide FailWrite, SuspendWrite, StopWrite, CommitWrite, ReconcileWrite, HealthyWrite, CompleteWrite;
  }

  lemma RecordEnds(cfg: Config, s: State, t: State, local: UpStatus, refs: seq<SnapRef>, ok: bool)
    requires SnapshotPhase(cfg, s, local) && t.upFinalizer == s.upFinalizer
    requires if ok then t.up == local.(snapshots := refs) && t.upPass == s.upPass
             else t.up == s.up && t.upPass == s.upPass.(trouble := true, lost := true)
    ensures if ok then Underway(cfg, t, t.up) else EndOk(cfg, t, Upgrader, Error)
  {
    hide Waiting;
  }

  lemma SnapshotsIdle(cfg: Config, s: State, t: State, local: UpStatus)
    requires SnapshotPhase(cfg, s, local) && local == s.up && local.phaseStart.Some?
    requires OwnKept(Upgrader, s, t) && ReadOnly(s.upPass, t.upPass) && t.upPass.negative
    ensures Started(t, local) && Idle(cfg, t, local, TIMEOUT_SNAPSHOT, false)
  {
  }

  lemma ReadySaveable(cfg: Config, s: State, local: UpStatus)
    requires SnapshotPhase(cfg, s, local) && local == s.up && local.snapshots != [] && AllReady(local.snapshots, s.upPass)
    ensures Saveable(cfg, s, local.(snapReady := true, phaseStart := None))
  {
    hide FailWrite, SuspendWrite, StopWrite, CommitWrite, ReconcileWrite, HealthyWrite, CompleteWrite;
  }

  // ----- steps of the commit phase and after -----

  predicate CommitPhase(cfg: Config, s: State, local: UpStatus) {
    && !cfg.dryRun && Underway(cfg, s, local) && local == s.up
    && local.suspended == IsTrue && local.stopped && local.snapReady && !local.committed
  }

  predicate ReconcilePhase(cfg: Config, s: State, local: UpStatus) {
    && !cfg.dryRun && Underway(cfg, s, local)
    && local.suspended != Absent && local.stopped && local.snapReady && local.committed && !local.reconciled
  }

  predicate HealthPhase(cfg: Config, s: State, local: UpStatus) {
    && !cfg.dryRun && Underway(cfg, s, local)
    && local.suspended != Absent && local.stopped && local.snapReady && local.committed
    && local.reconciled && !local.healthy
  }

  predicate CompletePhase(cfg: Config, s: State, local: UpStatus) {
    !cfg.dryRun && Underway(cfg, s, local) && local == s.up && local.healthy
  }

  /** The pass has read the app and seen the target suspended, no call has failed, and there is no target
      version: the request names none, and the app offers none any more. */
  predicate TargetGone(cfg: Config, p: Pass) {
    && !p.trouble && p.flux.last == NoCall && p.flux.verified && p.work.committed == None
    && p.seen.app.Some? && TargetOf(cfg, p.seen.app.value) == None
  }

  predicate Rendered(cfg: Config, p: Pass, version: string, tree: Yaml) {
    && p.seen.app.Some? && Plannable(cfg, p.seen.app.value) && CommitVersion(cfg, p.seen.app.value) == Some(version)
    && p.seen.file.Some? && (cfg.versionPath == "" ==> IsHelmRelease(p.seen.file.value))
    && Edit(cfg, p.seen.file.value, version) == Ok(tree)
  }

  /** The upgrade has on record the version that was current when this pass read the app, and the one it was to
      go to. */
  predicate RecordTrue(cfg: Config, s: State) {
    s.upPass.seen.app.Some? &&
    var app := s.upPass.seen.app.value;
    Wanted(cfg, app).Some? && s.up.upgrade == Some(UpgradeRecord(app.current, Wanted(cfg, app).value))
  }

  lemma CommittedKnowing(cfg: Config, p: Pass, app: AppStatus, target: VersionInfo, version: string, tree: Yaml)
    requires p.seen.app == Some(app) && TargetOf(cfg, app) == Some(target)
    ensures NoteCall(cfg, p, Commit(version, tree)).seen.app == Some(app) && Wanted(cfg, app) == Some(target)
  {
  }

  /** This pass has written to the app that the recorded version is the current one and no update is on offer, or
      a call failed. */
  predicate AppMoved(up: UpStatus, p: Pass) {
    up.upgrade.Some? ==> p.trouble || (p.work.updated.Some? && p.work.updated.value.available == None
                                       && p.work.updated.value.current == Some(up.upgrade.value.next))
  }

  lemma NothingRead(p: Pass)
    ensures ReadOnly(p, p) && (p.negative ==> Faulty(p))
  {
  }

  lemma LookedAtFile(cfg: Config, p: Pass, file: Yaml)
    ensures var q := NoteSight(cfg, p, Upgrader, SawFile(file));
            ReadOnly(p, q) && q.seen == p.seen.(file := Some(file)) && (!Readable(cfg, file) ==> Faulty(q))
  {
  }

  lemma ReadIsWritable(cfg: Config, file: Yaml, version: string)
    requires GetVersion(file, cfg.Path()).Ok?
    ensures Edit(cfg, file, version).Ok?
  {
    ReadableIsWritable(file, cfg.Path(), version);
  }

  lemma LookedAtApp(cfg: Config, p: Pass, app: AppStatus)
    ensures NoteSight(cfg, p, Upgrader, SawApp(app)).seen.app == Some(app)
    ensures !Plannable(cfg, app) ==> Faulty(NoteSight(cfg, p, Upgrader, SawApp(app)))
  {
  }

  lemma MayCommit(cfg: Config, s: State, local: UpStatus, version: string, tree: Yaml)
    requires CommitPhase(cfg, s, local) && s.upPass.flux.verified && Rendered(cfg, s.upPass, version, tree)
    ensures MayCall(cfg, s, Upgrader, Commit(version, tree))
  {
    hide Plannable, CommitVersion, Edit, IsHelmRelease, UpRank;
  }

  lemma CommitSaveable(cfg: Config, s: State, t: State, local: UpStatus, app: AppStatus, target: VersionInfo,
                       version: string, tree: Yaml)
    requires CommitPhase(cfg, s, local) && Rendered(cfg, s.upPass, version, tree)
    requires s.upPass.seen.app == Some(app) && TargetOf(cfg, app) == Some(target)
    requires OwnKept(Upgrader, s, t) && t.upPass == NoteCall(cfg, s.upPass, Commit(version, tree))
    ensures Saveable(cfg, t, local.(upgrade := Some(UpgradeRecord(app.current, target)), committed := true))
    ensures t.upPass.work.committed.Some?
  {
    hide FailWrite, SuspendWrite, StopWrite, SnapshotWrite, ReconcileWrite, HealthyWrite, CompleteWrite, Plannable, Edit,
         IsHelmRelease;
  }

  lemma MayResumeForward(cfg: Config, s: State, local: UpStatus)
    requires ReconcilePhase(cfg, s, local)
    ensures MayCall(cfg, s, Upgrader, ResumeFlux)
  {
  }

  /** Flux has been resumed in this pass, which is on the in-memory record only. */
  predicate ResumedForward(cfg: Config, s: State, local: UpStatus) {
    var p := s.upPass;
    && !cfg.dryRun && p.active && !p.lost && p.rank <= RankOf(s, Upgrader) && p.flux.last == Resumed
    && s.up.complete == Absent && s.up.suspended != Absent && s.up.stopped && s.up.snapReady
    && s.up.committed && !s.up.reconciled
    && local == s.up.(suspended := IsFalse, phaseStart := local.phaseStart)
    && Started(s, local) && Stamped(s.up.phaseStart, local.phaseStart, p)
    && (s.up.phaseStart == None ==> UpRank(true, s.up) <= p.rank)
  }

  lemma ResumedForwardHas(cfg: Config, s: State, local: UpStatus)
    requires ResumedForward(cfg, s, local)
    ensures s.upPass.active && Started(s, local) && local.committed && PhaseOf(s.up) == Reconciling
    ensures local == s.up.(suspended := IsFalse, phaseStart := local.phaseStart)
  {
  }

  lemma JustResumed(cfg: Config, s: State, t: State, local: UpStatus)
    requires ReconcilePhase(cfg, s, local) && Started(s, local)
    requires OwnKept(Upgrader, s, t) && t.upPass == NoteCall(cfg, s.upPass, ResumeFlux)
    ensures ResumedForward(cfg, t, local.(suspended := IsFalse))
  {
  }

  lemma FailResumed(cfg: Config, s: State, t: State, local: UpStatus)
    requires ResumedForward(cfg, s, local) && OwnKept(Upgrader, s, t) && t.upPass == s.upPass.(trouble := true)
    ensures Local(cfg, t.up, local, t.upPass) && Faulty(t.upPass)
  {
  }

  lemma LookedReconciled(cfg: Config, s: State, t: State, local: UpStatus, yes: bool)
    requires ResumedForward(cfg, s, local) && OwnKept(Upgrader, s, t)
    requires t.upPass == NoteSight(cfg, s.upPass, Upgrader, SawReconciled(yes))
    ensures Started(t, local) && Local(cfg, t.up, local, t.upPass)
    ensures if yes then Saveable(cfg, t, local.(reconciled := true, phaseStart := None))
            else Faulty(t.upPass) && Idle(cfg, t, local, TIMEOUT_RECONCILE, true)
  {
    hide FailWrite, SuspendWrite, StopWrite, SnapshotWrite, CommitWrite, HealthyWrite, CompleteWrite;
  }

  lemma FailOverdue(cfg: Config, s: State, t: State, local: UpStatus)
    requires Local(cfg, s.up, local, s.upPass) && Faulty(s.upPass)
    requires OwnKept(Upgrader, s, t) && t.upPass == s.upPass.(timer := t.upPass.timer)
    ensures Local(cfg, t.up, local, t.upPass) && Faulty(t.upPass)
  {
  }

  lemma LookedHealthy(cfg: Config, s: State, t: State, local: UpStatus, yes: bool)
    requires HealthPhase(cfg, s, local) && Started(s, local) && OwnKept(Upgrader, s, t)
    requires t.upPass == NoteSight(cfg, s.upPass, Upgrader, SawHealthy(yes))
    ensures Started(t, local) && Underway(cfg, t, local)
    ensures if yes then Saveable(cfg, t, local.(healthy := true))
            else Faulty(t.upPass) && Idle(cfg, t, local, cfg.healthTimeout, false)
  {
    hide FailWrite, SuspendWrite, StopWrite, SnapshotWrite, CommitWrite, ReconcileWrite, CompleteWrite;
  }

  /** Nothing of the request has changed since `from`, and its pass has at most written the app's status. */
  predicate Completing(cfg: Config, from: State, s: State) {
    && OwnKept(Upgrader, from, s)
    && s.upPass == from.upPass.(trouble := s.upPass.trouble, work := from.upPass.work.(updated := s.upPass.work.updated))
    && !cfg.dryRun && s.up.healthy && s.up.complete == Absent && s.upPass.active && s.upPass.flux.last == NoCall
    && s.upPass.work.committed == None
  }

  /** The app's status, as read in this pass, has been brought up to date, or a call failed. */
  predicate AppUpdated(p: Pass, record: UpgradeRecord) {
    p.trouble || (p.seen.app.Some? && p.work.updated == Some(Upgraded(p.seen.app.value, record)))
  }

  lemma CompletingStarts(cfg: Config, s: State, local: UpStatus)
    requires CompletePhase(cfg, s, local)
    ensures Completing(cfg, s, s) && local == s.up
  {
  }

  // ----- steps of the dry run -----

  predicate DryScale(cfg: Config, s: State, local: UpStatus, workloads: seq<string>) {
    && cfg.dryRun && Underway(cfg, s, local) && local.suspended == IsTrue
    && workloads != [] && s.upPass.seen.workloads == Some(workloads)
  }

  lemma MayResumeDry(cfg: Config, s: State, local: UpStatus)
    requires cfg.dryRun && Local(cfg, s.up, local, s.upPass) && local.suspended == IsTrue
    ensures MayCall(cfg, s, Upgrader, ResumeFlux)
  {
  }

  lemma LocalAfterResume(cfg: Config, s: State, t: State, local: UpStatus, ok: bool)
    requires cfg.dryRun && Local(cfg, s.up, local, s.upPass) && Faulty(s.upPass) && OwnKept(Upgrader, s, t)
    requires t.upPass == if ok then NoteCall(cfg, s.upPass, ResumeFlux) else s.upPass.(trouble := true)
    ensures Local(cfg, t.up, local, t.upPass) && Faulty(t.upPass)
  {
  }

  /** A failed call of a dry run is waited out like a negative answer. */
  lemma DryFailed(cfg: Config, s: State, t: State, local: UpStatus, timeout: nat)
    requires cfg.dryRun && Underway(cfg, s, local) && Started(s, local) && OwnKept(Upgrader, s, t)
    requires t.upPass == s.upPass.(trouble := true) && DryTimeout(s.up, s.upPass) == Some(timeout)
    ensures Local(cfg, t.up, local, t.upPass) && Faulty(t.upPass) && Started(t, local)
    ensures Idle(cfg, t, local, timeout, true)
  {
    hide FailWrite;
  }

  /** What a look at Flux right after the dry run's own Flux call adds. */
  function LookedAtFlux(cfg: Config, p: Pass, r: Result<bool>): Pass {
    match r
    case Ok(yes) => NoteSight(cfg, p, Upgrader, SawSuspended(yes))
    case Err => p.(trouble := true)
  }

  lemma DryWaitWrite(cfg: Config, s: State, local: UpStatus)
    requires cfg.dryRun && s.upPass.active && s.up.complete == Absent && Faulty(s.upPass) && Started(s, local)
    requires local == s.up.(phaseStart := local.phaseStart)
    requires s.up.phaseStart == None ==> UpRank(true, s.up) <= s.upPass.rank
    ensures UpgradeWrite(cfg, s.up, local, s.upPass)
  {
    hide FailWrite;
  }

  lemma DrySuspendWaits(cfg: Config, s: State, t: State, v: State, local: UpStatus, r: Result<bool>)
    requires cfg.dryRun && Underway(cfg, s, local) && Started(s, local) && local.suspended == Absent
    requires OwnKept(Upgrader, s, t) && t.upPass == NoteCall(cfg, s.upPass, SuspendFlux)
    requires OwnKept(Upgrader, t, v) && v.upPass == LookedAtFlux(cfg, t.upPass, r) && r != Ok(true)
    ensures Local(cfg, v.up, local, v.upPass) && Faulty(v.upPass) && Started(v, local)
    ensures Idle(cfg, v, local, TIMEOUT_SUSPEND, true)
  {
    hide UpgradeWrite, UpRank;
    DryWaitWrite(cfg, v, local);
  }

  lemma DrySuspendSaveable(cfg: Config, s: State, t: State, v: State, local: UpStatus)
    requires cfg.dryRun && Underway(cfg, s, local) && Started(s, local) && local.suspended == Absent
    requires OwnKept(Upgrader, s, t) && t.upPass == NoteCall(cfg, s.upPass, SuspendFlux)
    requires OwnKept(Upgrader, t, v) && v.upPass == LookedAtFlux(cfg, t.upPass, Ok(true))
    ensures Saveable(cfg, v, local.(suspended := IsTrue, phaseStart := None))
  {
    hide FailWrite;
  }

  lemma DryResumeWaits(cfg: Config, s: State, t: State, v: State, local: UpStatus, r: Result<bool>)
    requires cfg.dryRun && Underway(cfg, s, local) && Started(s, local) && local.suspended == IsTrue
    requires Exercised(s.up, s.upPass)
    requires OwnKept(Upgrader, s, t) && t.upPass == NoteCall(cfg, s.upPass, ResumeFlux)
    requires OwnKept(Upgrader, t, v) && v.upPass == LookedAtFlux(cfg, t.upPass, r) && r != Ok(false)
    ensures Local(cfg, v.up, local, v.upPass) && Faulty(v.upPass) && Started(v, local)
    ensures Idle(cfg, v, local, TIMEOUT_RESUME, true)
  {
    hide UpgradeWrite, UpRank;
    DryWaitWrite(cfg, v, local);
  }

  lemma DryResumeFinal(cfg: Config, s: State, t: State, v: State, local: UpStatus)
    requires cfg.dryRun && Underway(cfg, s, local) && local.suspended == IsTrue && Exercised(s.up, s.upPass)
    requires OwnKept(Upgrader, s, t) && t.upPass == NoteCall(cfg, s.upPass, ResumeFlux)
    requires OwnKept(Upgrader, t, v) && v.upPass == LookedAtFlux(cfg, t.upPass, Ok(false))
    ensures Final(cfg, v, local.(complete := IsTrue, phaseStart := None))
  {
    hide FailWrite;
  }

  lemma DryIdle(cfg: Config, s: State, local: UpStatus, workloads: seq<string>, timeout: nat)
    requires DryScale(cfg, s, local, workloads) && Started(s, local) && s.upPass.negative
    requires !(local.stopped && local.snapReady)
    requires timeout == if local.stopped then TIMEOUT_SCALE_UP else TIMEOUT_SCALE_DOWN
    ensures Local(cfg, s.up, local, s.upPass) && Faulty(s.upPass)
    ensures Idle(cfg, s, local, timeout, true)
  {
    hide FailWrite;
  }

  lemma DryStopSaveable(cfg: Config, s: State, local: UpStatus, workloads: seq<string>)
    requires DryScale(cfg, s, local, workloads) && !local.stopped && Scaled(s.upPass, workloads, 0)
    requires forall w | w in workloads :: w in s.upPass.seen.down
    ensures Saveable(cfg, s, local.(stopped := true, phaseStart := None))
  {
    hide FailWrite;
  }

  lemma MayScaleUp(cfg: Config, s: State, local: UpStatus, workloads: seq<string>)
    requires DryScale(cfg, s, local, workloads) && s.upPass.flux.verified
    ensures MayScale(cfg, s.up, s.upPass, workloads, 1)
  {
  }

  /** The phase is over; its timer has been cleared in memory. */
  predicate Cleared(cfg: Config, s: State, local: UpStatus) {
    && cfg.dryRun && Underway(cfg, s, s.up) && s.up.suspended == IsTrue && !s.up.snapReady
    && local == s.up.(phaseStart := None)
    && s.upPass.seen.workloads.Some? && Scaled(s.upPass, s.upPass.seen.workloads.value, 1) && s.upPass.seen.up
  }

  lemma Reset(cfg: Config, s: State, local: UpStatus, workloads: seq<string>)
    requires cfg.dryRun && local.suspended == IsTrue && !local.snapReady
    requires s.upPass.seen.workloads == Some(workloads) && Scaled(s.upPass, workloads, 1) && s.upPass.seen.up
    requires exists was :: Underway(cfg, s, was) && local == was.(phaseStart := None)
    ensures Cleared(cfg, s, local) && s.upPass.active && s.upPass.flux.last == NoCall
  {
  }

  lemma ResetStays(cfg: Config, s: State, t: State, local: UpStatus)
    requires Cleared(cfg, s, local) && OwnKept(Upgrader, s, t) && ReadOnly(s.upPass, t.upPass)
    requires t.upPass.seen == s.upPass.seen && t.upPass.work == s.upPass.work
    ensures Local(cfg, t.up, local, t.upPass)
    ensures t.upPass.flux.holding ==> Saveable(cfg, t, local.(snapReady := true))
  {
    hide FailWrite;
  }
}
