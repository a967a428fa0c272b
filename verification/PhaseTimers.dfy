/**
 Which phase a persisted phase start belongs to.

 A phase that waits persists the clock it read as its start, and clears it when it is done; but a phase that
 finds nothing to do is done without clearing it, and hands its start on to the next.
 */
module PhaseTimers {
  import opened Wrappers
  import opened Protocol
  import opened Invariants
  import opened DataInvariants
  import opened ProgressInvariants
  import opened Runs
  import opened Theorems
  import opened ProgressTheorems

  // ----- both requests alike -----

  predicate Writes(e: Event, who: Actor) { if who == Upgrader then e.WriteUpgrade? else e.WriteRollback? }

  function Written(e: Event, who: Actor): Option<nat>
    requires Writes(e, who)
  {
    if who == Upgrader then e.up.phaseStart else e.rb.phaseStart
  }

  predicate Alike(a: State, b: State, who: Actor) {
    if who == Upgrader then SamePhase(a.up, b.up) else RbSamePhase(a.rb, b.rb)
  }

  /** The request has a phase start, and has not yet been found healthy. */
  predicate Started(s: State, who: Actor) {
    && !Terminal(s, who) && PhaseStart(s, who).Some?
    && !(if who == Upgrader then s.up.healthy else s.rb.healthy)
  }

  /** A phase whose waits persist its start. */
  predicate Timed(cfg: Config, s: State, who: Actor) {
    if who == Upgrader then UpTimeout(cfg, s.up).Some? && !s.up.reconciled
    else RbTimeout(cfg, s.rb).Some? && !s.rb.reconciled
  }

  /** The step completes a phase without having had anything to do in it: the stop phase, if no volumes are
      at stake or no workloads were found, or the snapshot phase, if no snapshots are on record. */
  predicate Skips(cfg: Config, s: State, e: Event, who: Actor) {
    Writes(e, who) &&
    if who == Upgrader then
      || (!s.up.stopped && e.up.stopped && (cfg.skipSnapshot || !cfg.snapshotsOn || s.upPass.seen.workloads == Some([])))
      || (s.up.stopped && !s.up.snapReady && e.up.snapReady && e.up.snapshots == [])
    else
      && !s.rb.stopped && e.rb.stopped && s.rbPass.seen.upgrade.Some?
      && (cfg.skipSnapshot || s.rbPass.seen.upgrade.value.snapshots == [] || s.rbPass.seen.workloads == Some([]))
  }

  /** Some phase was skipped, and the timer has not been cleared since. */
  predicate SkippedSince(cfg: Config, init: State, log: seq<Event>, who: Actor, n: nat)
    requires n <= |log| && IsRun(cfg, init, log)
  {
    exists k | 0 <= k < n ::
      Skips(cfg, At(cfg, init, log, k), log[k], who)
      && forall m | k < m <= n :: PhaseStart(At(cfg, init, log, m), who).Some?
  }

  /** The persisted start is a clock reading of the present phase, and a write of this phase has set it. */
  predicate StartedInPhase(cfg: Config, init: State, log: seq<Event>, who: Actor, n: nat)
    requires n <= |log| && IsRun(cfg, init, log)
  {
    var s := At(cfg, init, log, n);
    PhaseStart(s, who).Some? &&
    exists c, w | 0 <= c < w < n ::
      && log[c] == Saw(who, SawClock(PhaseStart(s, who).value)) && Alike(At(cfg, init, log, c), s, who)
      && Writes(log[w], who) && Written(log[w], who) == PhaseStart(s, who)
      && PhaseStart(At(cfg, init, log, w), who) == None
  }

  // ----- one step -----

  /** A write that leaves a timer behind skips a phase, or leaves a running timer alone within its phase, or
      starts one in a timed phase. */
  predicate TimerMove(cfg: Config, s: State, e: Event, t: State, who: Actor) {
    || Skips(cfg, s, e, who)
    || (PhaseStart(t, who) == PhaseStart(s, who) && (Alike(s, t, who) || !Timed(cfg, s, who)))
    || (PhaseStart(s, who) == None && PhaseStart(t, who) == PassOf(s, who).stamp && Alike(s, t, who) && Timed(cfg, t, who)
        && (if who == Upgrader then UpRank(true, s.up) else RbRank(true, s.rb)) <= PassOf(s, who).rank)
  }

  lemma UpTimerMoves(cfg: Config, s: State, up: UpStatus)
    requires !cfg.dryRun && UpgradeOrder(cfg, s.up) && UpgradeWrite(cfg, s.up, up, s.upPass)
    requires Started(s.(up := up), Upgrader)
    ensures TimerMove(cfg, s, WriteUpgrade(up), s.(up := up), Upgrader)
  {
    hide Scaled, Stopped, AllReady, CommitVersion, PvcsOf, UpRank;
  }

  lemma RbTimerMoves(cfg: Config, s: State, rb: RbStatus)
    requires RollbackOrder(s.rb) && RollbackWrite(cfg, s.rb, rb, s.rbPass)
    requires Started(s.(rb := rb), Rollbacker)
    ensures TimerMove(cfg, s, WriteRollback(rb), s.(rb := rb), Rollbacker)
  {
    hide Scaled, Stopped, NextToRestore, NamesOf, AllRestored, RbRank;
  }

  lemma TimerMoves(cfg: Config, s: State, e: Event, who: Actor)
    requires Kept(cfg, s) && Enabled(cfg, s, e) && Writes(e, who) && (who == Upgrader ==> !cfg.dryRun)
    requires Started(Apply(cfg, s, e), who)
    ensures TimerMove(cfg, s, e, Apply(cfg, s, e), who)
  {
    hide Apply, UpgradeWrite, RollbackWrite, UpgradeOrder, RollbackOrder, Exclusive, Files, Commits, Mirror, Hold, Snaps,
         Names, Volumes, Progress, RolledOut, Timers;
    if who == Upgrader {
      WriteUpgradeOnly(cfg, s, e.up);
      UpTimerMoves(cfg, s, e.up);
    } else {
      WriteRollbackOnly(cfg, s, e.rb);
      RbTimerMoves(cfg, s, e.rb);
    }
  }

  lemma OthersKeepTimers(cfg: Config, s: State, e: Event, who: Actor)
    requires !Writes(e, who)
    ensures var t := Apply(cfg, s, e);
            PhaseStart(t, who) == PhaseStart(s, who) && Alike(s, t, who) && (Started(t, who) <==> Started(s, who))
            && (Timed(cfg, s, who) <==> Timed(cfg, t, who))
  {
    hide PassAfter, WorldAfter, UpHistoryAfter, RbHistoryAfter, TouchedAfter;
  }

  lemma StampByStep(cfg: Config, s: State, e: Event, who: Actor)
    ensures var p, q := PassOf(s, who), PassOf(Apply(cfg, s, e), who);
            if e == Begin(who) then q.stamp == None && q.rank == RankOf(s, who)
            else q.rank == p.rank && q.stamp == if e.Saw? && e.who == who && e.sight.SawClock? then Some(e.sight.at) else p.stamp
  {
    hide WorldAfter, UpHistoryAfter, RbHistoryAfter, RankOf, FluxAfterCall, WorkAfterCall, FluxAfterSight, SightsAfter,
         WorkAfterSight, Hoped, TouchedAfter;
  }

  // ----- the clock a timer is set to -----

  /** A pass began at no higher rank than its request has. */
  lemma {:induction false} RankWasLower(cfg: Config, init: State, log: seq<Event>, who: Actor, n: nat)
    requires n <= |log| && IsRun(cfg, init, log)
    ensures PassOf(At(cfg, init, log, n), who).rank <= RankOf(At(cfg, init, log, n), who)
  {
    hide Enabled, Apply, Kept, Play, At, RankOf;
    if n == 0 {
      FirstEmpty(cfg, init, log);
    } else {
      RankWasLower(cfg, init, log, who, n - 1);
      StepAt(cfg, init, log, n - 1);
      StampByStep(cfg, At(cfg, init, log, n - 1), log[n - 1], who);
      RankNeverFalls(cfg, init, log, who, n - 1, n);
    }
  }

  /** The start a pass keeps in memory is a clock reading of that pass. */
  lemma {:induction false} StampWasRead(cfg: Config, init: State, log: seq<Event>, who: Actor, n: nat) returns (c: nat)
    requires n <= |log| && IsRun(cfg, init, log) && PassOf(At(cfg, init, log, n), who).stamp.Some?
    ensures c < n && log[c] == Saw(who, SawClock(PassOf(At(cfg, init, log, n), who).stamp.value))
    ensures PassOf(At(cfg, init, log, c), who).rank == PassOf(At(cfg, init, log, n), who).rank
  {
    hide Enabled, Apply, Play, At, RankOf;
    FirstEmpty(cfg, init, log);
    StepAt(cfg, init, log, n - 1);
    StampByStep(cfg, At(cfg, init, log, n - 1), log[n - 1], who);
    if log[n - 1].Saw? && log[n - 1].who == who && log[n - 1].sight.SawClock? {
      c := n - 1;
    } else {
      c := StampWasRead(cfg, init, log, who, n - 1);
    }
  }

  predicate StatusKept(a: State, b: State, who: Actor) {
    if who == Upgrader then UpKept(a.up, b.up) else RbKept(a.rb, b.rb)
  }

  lemma NeverReverts(cfg: Config, init: State, log: seq<Event>, who: Actor, i: nat, j: nat)
    requires i <= j <= |log| && IsRun(cfg, init, log)
    ensures StatusKept(At(cfg, init, log, i), At(cfg, init, log, j), who)
  {
    hide Play, At, UpKept, RbKept;
    UpgradeNeverReverts(cfg, init, log, i, j);
    RollbackNeverReverts(cfg, init, log, i, j);
  }

  lemma EqualUpRanks(a: UpStatus, finalizer: bool, b: UpStatus)
    requires UpKept(a, b) && b.complete == Absent && UpRank(true, b) <= UpRank(finalizer, a)
    ensures SamePhase(a, b)
  {
  }

  lemma EqualRbRanks(a: RbStatus, finalizer: bool, b: RbStatus)
    requires RbKept(a, b) && b.complete == Absent && RbRank(true, b) <= RbRank(finalizer, a)
    ensures RbSamePhase(a, b)
  {
  }

  lemma EqualRanks(a: State, b: State, who: Actor)
    requires StatusKept(a, b, who) && !Terminal(b, who)
    requires (if who == Upgrader then UpRank(true, b.up) else RbRank(true, b.rb)) <= RankOf(a, who)
    ensures Alike(a, b, who)
  {
    hide UpRank, RbRank, UpKept, RbKept, SamePhase, RbSamePhase;
    if who == Upgrader {
      EqualUpRanks(a.up, a.upFinalizer, b.up);
    } else {
      EqualRbRanks(a.rb, a.rbFinalizer, b.rb);
    }
  }

  /** So if the pass had not yet brought the request forward, the reading is one of the present phase. */
  lemma StampOfThePhase(cfg: Config, init: State, log: seq<Event>, who: Actor, n: nat) returns (c: nat)
    requires n <= |log| && IsRun(cfg, init, log)
    requires var s := At(cfg, init, log, n);
             PassOf(s, who).stamp.Some? && !Terminal(s, who)
             && (if who == Upgrader then UpRank(true, s.up) else RbRank(true, s.rb)) <= PassOf(s, who).rank
    ensures c < n && log[c] == Saw(who, SawClock(PassOf(At(cfg, init, log, n), who).stamp.value))
    ensures Alike(At(cfg, init, log, c), At(cfg, init, log, n), who)
  {
    hide Play, At, UpRank, RbRank, StatusKept, Alike, RankOf;
    c := StampWasRead(cfg, init, log, who, n);
    RankWasLower(cfg, init, log, who, c);
    NeverReverts(cfg, init, log, who, c, n);
    EqualRanks(At(cfg, init, log, c), At(cfg, init, log, n), who);
  }

  // ----- whole runs -----

  lemma SkipStays(cfg: Config, init: State, log: seq<Event>, who: Actor, n: nat)
    requires 0 < n <= |log| && IsRun(cfg, init, log)
    requires SkippedSince(cfg, init, log, who, n - 1) && PhaseStart(At(cfg, init, log, n), who).Some?
    ensures SkippedSince(cfg, init, log, who, n)
  {
    hide Play, At, Skips, PhaseStart;
    var k :| 0 <= k < n - 1 && Skips(cfg, At(cfg, init, log, k), log[k], who)
             && forall m | k < m <= n - 1 :: PhaseStart(At(cfg, init, log, m), who).Some?;
    assert forall m | k < m <= n :: PhaseStart(At(cfg, init, log, m), who).Some?;
  }

  lemma SkippedNow(cfg: Config, init: State, log: seq<Event>, who: Actor, n: nat)
    requires 0 < n <= |log| && IsRun(cfg, init, log) && Skips(cfg, At(cfg, init, log, n - 1), log[n - 1], who)
    requires PhaseStart(At(cfg, init, log, n), who).Some?
    ensures SkippedSince(cfg, init, log, who, n)
  {
    hide Play, At, Skips, PhaseStart;
    assert forall m | n - 1 < m <= n :: PhaseStart(At(cfg, init, log, m), who).Some?;
  }

  lemma AlikeTwice(a: State, b: State, c: State, who: Actor)
    requires Alike(a, b, who) && Alike(b, c, who)
    ensures Alike(a, c, who)
  {
  }

  lemma StartStays(cfg: Config, init: State, log: seq<Event>, who: Actor, n: nat)
    requires 0 < n <= |log| && IsRun(cfg, init, log) && StartedInPhase(cfg, init, log, who, n - 1)
    requires var s, t := At(cfg, init, log, n - 1), At(cfg, init, log, n);
             Alike(s, t, who) && PhaseStart(s, who) == PhaseStart(t, who)
    ensures StartedInPhase(cfg, init, log, who, n)
  {
    hide Play, At, Alike, PhaseStart, Writes, Written;
    var s := At(cfg, init, log, n - 1);
    var c, w :| 0 <= c < w < n - 1
                && log[c] == Saw(who, SawClock(PhaseStart(s, who).value)) && Alike(At(cfg, init, log, c), s, who)
                && Writes(log[w], who) && Written(log[w], who) == PhaseStart(s, who)
                && PhaseStart(At(cfg, init, log, w), who) == None;
    AlikeTwice(At(cfg, init, log, c), s, At(cfg, init, log, n), who);
  }

  lemma StartedNow(cfg: Config, init: State, log: seq<Event>, who: Actor, n: nat)
    requires 0 < n <= |log| && IsRun(cfg, init, log) && Writes(log[n - 1], who)
    requires var s, t := At(cfg, init, log, n - 1), At(cfg, init, log, n);
             && Written(log[n - 1], who) == PhaseStart(t, who) && Started(t, who) && Alike(s, t, who) && !Terminal(s, who)
             && PhaseStart(s, who) == None && PhaseStart(t, who) == PassOf(s, who).stamp
             && (if who == Upgrader then UpRank(true, s.up) else RbRank(true, s.rb)) <= PassOf(s, who).rank
    ensures StartedInPhase(cfg, init, log, who, n)
  {
    hide Play, At, UpRank, RbRank, Alike, PhaseStart, Writes, Written;
    var c := StampOfThePhase(cfg, init, log, who, n - 1);
    AlikeTwice(At(cfg, init, log, c), At(cfg, init, log, n - 1), At(cfg, init, log, n), who);
  }

  lemma WriteShows(cfg: Config, s: State, e: Event, who: Actor)
    requires Enabled(cfg, s, e) && Writes(e, who)
    ensures PhaseStart(Apply(cfg, s, e), who) == Written(e, who) && !Terminal(s, who)
  {
    hide PassAfter, WorldAfter, UpHistoryAfter, RbHistoryAfter, TouchedAfter, FailWrite, DryWrite, SuspendWrite, StopWrite,
         SnapshotWrite, CommitWrite, ReconcileWrite, HealthyWrite, CompleteWrite, RbFailWrite, RbSuspendWrite, RbStopWrite,
         RbVolumeWrite, RbRevertWrite, RbReconcileWrite, RbHealthyWrite, RbCompleteWrite;
  }

  lemma HealthStays(s: State, t: State, who: Actor)
    requires StatusKept(s, t, who) && Started(t, who) && PhaseStart(s, who).Some?
    ensures Started(s, who)
  {
  }

  lemma {:induction false} SkippedOrStarted(cfg: Config, init: State, log: seq<Event>, who: Actor, n: nat)
    requires n <= |log| && IsRun(cfg, init, log) && (who == Upgrader ==> !cfg.dryRun)
    requires Started(At(cfg, init, log, n), who)
    ensures SkippedSince(cfg, init, log, who, n)
            || (StartedInPhase(cfg, init, log, who, n) && Timed(cfg, At(cfg, init, log, n), who))
  {
    hide Play, At, Enabled, Apply, Skips, SkippedSince, StartedInPhase, UpRank, RbRank, Kept, Alike, StatusKept, Writes,
         Written, Timed;
    FirstEmpty(cfg, init, log);
    var s, e, t := At(cfg, init, log, n - 1), log[n - 1], At(cfg, init, log, n);
    StepAt(cfg, init, log, n - 1);
    if PhaseStart(s, who).Some? {
      NeverReverts(cfg, init, log, who, n - 1, n);
      HealthStays(s, t, who);
      SkippedOrStarted(cfg, init, log, who, n - 1);
    }
    if PhaseStart(s, who).Some? && SkippedSince(cfg, init, log, who, n - 1) {
      SkipStays(cfg, init, log, who, n);
    } else if !Writes(e, who) {
      OthersKeepTimers(cfg, s, e, who);
      StartStays(cfg, init, log, who, n);
    } else {
      KeptAt(cfg, init, log, n - 1);
      TimerMoves(cfg, s, e, who);
      WriteShows(cfg, s, e, who);
      if Skips(cfg, s, e, who) {
        SkippedNow(cfg, init, log, who, n);
      } else if PhaseStart(s, who) == None {
        StartedNow(cfg, init, log, who, n);
      } else {
        StartStays(cfg, init, log, who, n);
        TimedAlike(cfg, s, t, who);
      }
    }
  }

  lemma TimedAlike(cfg: Config, s: State, t: State, who: Actor)
    requires Alike(s, t, who) && Timed(cfg, s, who)
    ensures Timed(cfg, t, who)
  {
  }

  lemma SkipWrites(cfg: Config, s: State, e: Event, who: Actor)
    requires Skips(cfg, s, e, who)
    ensures !Alike(s, Apply(cfg, s, e), who)
  {
    hide PassAfter, WorldAfter, UpHistoryAfter, RbHistoryAfter, TouchedAfter;
  }

  lemma AlikeBetween(a: State, b: State, c: State, d: State, who: Actor)
    requires StatusKept(a, b, who) && StatusKept(b, c, who) && StatusKept(c, d, who) && Alike(a, d, who) && !Terminal(d, who)
    ensures Alike(b, c, who)
  {
  }

  lemma StartedNotSkipped(cfg: Config, init: State, log: seq<Event>, who: Actor, n: nat)
    requires n <= |log| && IsRun(cfg, init, log) && Started(At(cfg, init, log, n), who)
    requires StartedInPhase(cfg, init, log, who, n)
    ensures !SkippedSince(cfg, init, log, who, n)
  {
    hide Play, At, Enabled, Apply, Skips, StatusKept, Alike, PhaseStart, Writes, Written, Terminal;
    var t := At(cfg, init, log, n);
    var c, w :| 0 <= c < w < n && Alike(At(cfg, init, log, c), t, who)
                && log[c] == Saw(who, SawClock(PhaseStart(t, who).value))
                && Writes(log[w], who) && PhaseStart(At(cfg, init, log, w), who) == None;
    forall k | 0 <= k < n && Skips(cfg, At(cfg, init, log, k), log[k], who)
      ensures exists m | k < m <= n :: PhaseStart(At(cfg, init, log, m), who) == None
    {
      if w <= k {
        NeverReverts(cfg, init, log, who, c, k);
        NeverReverts(cfg, init, log, who, k, k + 1);
        NeverReverts(cfg, init, log, who, k + 1, n);
        AlikeBetween(At(cfg, init, log, c), At(cfg, init, log, k), At(cfg, init, log, k + 1), t, who);
        StepAt(cfg, init, log, k);
        SkipWrites(cfg, At(cfg, init, log, k), log[k], who);
      }
    }
  }

  /** The persisted start of a phase that may wait is a clock reading of that very phase if and only if no
      phase was skipped since the timer was last cleared. Otherwise its deadline counts from the start of an
      earlier phase. */
  lemma TimerOfItsPhase(cfg: Config, init: State, log: seq<Event>, who: Actor, n: nat)
    requires n <= |log| && IsRun(cfg, init, log) && (who == Upgrader ==> !cfg.dryRun)
    requires Started(At(cfg, init, log, n), who)
    ensures StartedInPhase(cfg, init, log, who, n) <==> !SkippedSince(cfg, init, log, who, n)
  {
    hide Play, At, SkippedSince, StartedInPhase, Started;
    SkippedOrStarted(cfg, init, log, who, n);
    if StartedInPhase(cfg, init, log, who, n) { StartedNotSkipped(cfg, init, log, who, n); }
  }
}
