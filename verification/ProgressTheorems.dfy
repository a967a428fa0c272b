/** Progress and deadlines over whole runs. */
module ProgressTheorems {
  import opened Wrappers
  import opened YamlTree
  import opened Protocol
  import opened Invariants
  import opened DataInvariants
  import opened ProgressInvariants
  import opened Runs
  import opened WorldFacts
  import opened Theorems

  // ----- what stands in the way -----

  /** Step `e` in state `s` is a call of `who` that fails, an answer it did not hope for, or the first sign
      that its last pass died. */
  predicate Hinders(cfg: Config, s: State, who: Actor, e: Event) {
    || e == Fail(who) || e == LoseWrite(who)
    || (e == Begin(who) && PassOf(s, who).active)
    || (e.Saw? && e.who == who && Disappoints(cfg, PassOf(s, who), who, e.sight))
  }

  /** An answer that stands in the way: no version to go to, an upgrade that cannot be undone, a file without a
      version to replace, or a plain no; and for the suspension, whatever does not fit the pass's last Flux
      call. */
  predicate Disappoints(cfg: Config, p: Pass, who: Actor, sight: Sight) {
    match sight
    case SawSuspended(yes) => yes == (p.flux.last == Resumed)
    case SawApp(app) =>
      who == Upgrader
      && (Wanted(cfg, app) == None || !HasText(Wanted(cfg, app).value)
          || (Wanted(cfg, app).value.chart == "" && cfg.versionPath == ""))
    case SawUpgrade(up) =>
      || up.complete == Absent || (!cfg.skipSnapshot && up.snapshots == [])
      || Previous(up) == None || !HasText(Previous(up).value)
    case SawFile(file) =>
      || (cfg.versionPath == "" && Lookup(file, ["kind"]) != Some(Scalar("HelmRelease")))
      || VersionIn(cfg, file) == None || !VersionIn(cfg, file).value.Scalar? || VersionIn(cfg, file).value.text == ""
    case SawDown(_, yes) => !yes
    case SawUp(_, yes) => !yes
    case SawReady(_, yes) => !yes
    case SawReconciled(yes) => !yes
    case SawHealthy(yes) => !yes
    case SawGone(_, yes) => !yes
    case SawBound(_, yes) => !yes
    case _ => false
  }

  lemma DisappointsIsUnhoped(cfg: Config, p: Pass, who: Actor, sight: Sight)
    ensures Disappoints(cfg, p, who, sight) <==> !Hoped(cfg, p, who, sight)
  {
    PathIsPlace(cfg);
    if sight.SawUpgrade? { VersionsAreTexts(cfg, AppStatus(None, None), sight.upgrade); }
  }

  predicate Unhindered(cfg: Config, init: State, log: seq<Event>, who: Actor)
    requires IsRun(cfg, init, log)
  {
    forall i | 0 <= i < |log| :: !Hinders(cfg, At(cfg, init, log, i), who, log[i])
  }

  function EndsIn(log: seq<Event>, who: Actor): nat {
    if log == [] then 0
    else EndsIn(log[..|log| - 1], who) + One(log[|log| - 1].End? && log[|log| - 1].who == who)
  }

  lemma CleanByStep(cfg: Config, s: State, who: Actor, e: Event)
    ensures Clean(Apply(cfg, s, e), who) <==> Clean(s, who) && !Hinders(cfg, s, who, e)
    ensures Ends(Apply(cfg, s, e), who) == Ends(s, who) + One(e.End? && e.who == who)
  {
    hide WorldAfter, PassAfter, Hoped, Disappoints, SnapshotName;
    if e.Saw? { DisappointsIsUnhoped(cfg, PassOf(s, e.who), e.who, e.sight); }
  }

  lemma AtPrefix(cfg: Config, init: State, log: seq<Event>, n: nat, i: nat)
    requires i <= n <= |log| && IsRun(cfg, init, log)
    ensures IsRun(cfg, init, log[..n]) && At(cfg, init, log[..n], i) == At(cfg, init, log, i)
  {
    hide Enabled, Apply, Play;
    PrefixIsRun(cfg, init, log, n);
    assert log[..n][..i] == log[..i];
  }

  /** The flags in a state are the truth about the run. */
  lemma {:induction false} CleanMeansUnhindered(cfg: Config, init: State, log: seq<Event>, who: Actor)
    requires IsRun(cfg, init, log)
    ensures Clean(Play(cfg, init, log).value, who) <==> Unhindered(cfg, init, log, who)
    ensures Ends(Play(cfg, init, log).value, who) == EndsIn(log, who)
  {
    hide Enabled, Apply, Hinders, Play;
    if log == [] {
      FirstEmpty(cfg, init, log);
      assert log[..0] == log;
    } else {
      var n := |log| - 1;
      PrefixIsRun(cfg, init, log, n);
      CleanMeansUnhindered(cfg, init, log[..n], who);
      StepAt(cfg, init, log, n);
      CleanByStep(cfg, At(cfg, init, log, n), who, log[n]);
      assert log[..n + 1] == log;
      forall i | 0 <= i < n ensures log[..n][i] == log[i] && At(cfg, init, log[..n], i) == At(cfg, init, log, i) {
        AtPrefix(cfg, init, log, n, i);
      }
    }
  }

  // ----- progress -----

  /** When no call fails, no pass dies and every answer is the one hoped for, a request is successfully
      complete once eight passes have ended. */
  lemma EightPassesSuffice(cfg: Config, init: State, log: seq<Event>, who: Actor)
    requires IsRun(cfg, init, log) && Unhindered(cfg, init, log, who) && EndsIn(log, who) >= 8
    requires !PassOf(Play(cfg, init, log).value, who).active
    ensures var s := Play(cfg, init, log).value; (if who == Upgrader then s.up.complete else s.rb.complete) == IsTrue
  {
    hide Play, Unhindered, EndsIn, Order, Exclusive, Files, Commits, Mirror, Hold, Snaps, Names, Volumes, RolledOut, Timers;
    var s := Play(cfg, init, log).value;
    CleanMeansUnhindered(cfg, init, log, who);
    RunKeeps(cfg, init, log, s);
  }

  /** And every one of its passes, as long as it is not over, raises its rank. */
  lemma EveryPassAdvances(cfg: Config, init: State, log: seq<Event>, j: nat)
    requires j < |log| && IsRun(cfg, init, log) && log[j].End? && Unhindered(cfg, init, log, log[j].who)
    ensures var s, who := At(cfg, init, log, j), log[j].who;
            Terminal(s, who) || RankOf(s, who) > PassOf(s, who).rank
  {
    hide Play, Apply, Hinders, Order, Exclusive, Files, Commits, Mirror, Hold, Snaps, Names, Volumes, RolledOut, Timers, At,
         RankOf, Clean;
    var s, who := At(cfg, init, log, j), log[j].who;
    PrefixIsRun(cfg, init, log, j);
    forall i | 0 <= i < j ensures !Hinders(cfg, At(cfg, init, log[..j], i), who, log[..j][i]) {
      AtPrefix(cfg, init, log, j, i);
    }
    CleanMeansUnhindered(cfg, init, log[..j], who);
    AtIsPlay(cfg, init, log, j);
    KeptAt(cfg, init, log, j);
    StepAt(cfg, init, log, j);
  }

  lemma AtIsPlay(cfg: Config, init: State, log: seq<Event>, j: nat)
    requires j <= |log| && IsRun(cfg, init, log)
    ensures Play(cfg, init, log[..j]) == Some(At(cfg, init, log, j))
  {
    hide Enabled, Apply;
    PrefixIsRun(cfg, init, log, j);
  }

  lemma RankByStep(cfg: Config, s: State, who: Actor, e: Event)
    requires Kept(cfg, s) && Enabled(cfg, s, e)
    ensures RankOf(s, who) <= RankOf(Apply(cfg, s, e), who)
  {
    hide Exclusive, Files, Commits, Mirror, Hold, Snaps, Names, Volumes, Progress, RolledOut, Timers, Order, UpgradeWrite,
         RollbackWrite, MayCall, Accepted, EndOk, IsTrueSight, Benign, PassAfter, WorldAfter, UpHistoryAfter, RbHistoryAfter;
    UpStepKeeps(cfg, s, e);
    RbStepKeeps(cfg, s, e);
  }

  /** The rank of a request never falls. */
  lemma {:induction false} RankNeverFalls(cfg: Config, init: State, log: seq<Event>, who: Actor, i: nat, j: nat)
    requires i <= j <= |log| && IsRun(cfg, init, log)
    ensures RankOf(At(cfg, init, log, i), who) <= RankOf(At(cfg, init, log, j), who)
    decreases j
  {
    hide Enabled, Apply, Kept, Play, At, RankOf;
    if i < j {
      RankNeverFalls(cfg, init, log, who, i, j - 1);
      StepAt(cfg, init, log, j - 1);
      KeptAt(cfg, init, log, j - 1);
      RankByStep(cfg, At(cfg, init, log, j - 1), who, log[j - 1]);
    }
  }

  /** The first `n` steps of the run that raised the rank. */
  function Raises(cfg: Config, init: State, log: seq<Event>, who: Actor, n: nat): nat
    requires n <= |log| && IsRun(cfg, init, log)
  {
    if n == 0 then 0
    else Raises(cfg, init, log, who, n - 1)
         + One(RankOf(At(cfg, init, log, n - 1), who) < RankOf(At(cfg, init, log, n), who))
  }

  /** In any run, however many calls fail, the steps that bring a request forward number at most eight. */
  lemma {:induction false} ProgressIsBounded(cfg: Config, init: State, log: seq<Event>, who: Actor, n: nat)
    requires n <= |log| && IsRun(cfg, init, log)
    ensures Raises(cfg, init, log, who, n) <= RankOf(At(cfg, init, log, n), who) <= 8
  {
    hide Enabled, Apply, Kept, Play, At, UpRank, RbRank;
    if n > 0 {
      ProgressIsBounded(cfg, init, log, who, n - 1);
      RankNeverFalls(cfg, init, log, who, n - 1, n);
    }
    RankTop(At(cfg, init, log, n), who);
  }

  lemma RankTop(s: State, who: Actor)
    ensures RankOf(s, who) <= 8
  {
  }

  // ----- what a pass is -----

  /** Between its begin at `b` and step `j`, a pass keeps the clock and the rank it began with, and has met
      no trouble if none of its calls failed. */
  lemma {:induction false} PassSince(cfg: Config, init: State, log: seq<Event>, who: Actor, b: nat, j: nat)
    requires b < j <= |log| && IsRun(cfg, init, log) && log[b] == Begin(who)
    requires forall k | b < k < j :: log[k] != Begin(who)
    ensures var p, s := PassOf(At(cfg, init, log, j), who), At(cfg, init, log, b);
            && p.since == s.world.now && p.rank == RankOf(s, who)
            && ((forall k | b < k < j :: log[k] != Fail(who) && log[k] != LoseWrite(who)) ==> !p.trouble)
    decreases j
  {
    hide Enabled, Apply, Play, At, RankOf;
    StepAt(cfg, init, log, j - 1);
    PassByStep(cfg, At(cfg, init, log, j - 1), who, log[j - 1]);
    if b < j - 1 { PassSince(cfg, init, log, who, b, j - 1); }
  }

  lemma PassByStep(cfg: Config, s: State, who: Actor, e: Event)
    ensures var p, q := PassOf(s, who), PassOf(Apply(cfg, s, e), who);
            if e == Begin(who) then q.since == s.world.now && q.rank == RankOf(s, who) && !q.trouble
            else q.since == p.since && q.rank == p.rank
                 && (q.trouble <==> p.trouble || e == Fail(who) || e == LoseWrite(who))
  {
    hide WorldAfter, UpHistoryAfter, RbHistoryAfter, RankOf, FluxAfterCall, WorkAfterCall, FluxAfterSight, SightsAfter,
         WorkAfterSight, Hoped;
  }

  // ----- deadlines -----

  /** A pass that ends other than with an error, without having raised the rank and without the request being
      over, looked at the clock before the deadline, whatever calls of it failed. */
  lemma NoWaitPastTheDeadline(cfg: Config, s: State, who: Actor, outcome: Outcome)
    requires Kept(cfg, s) && EndOk(cfg, s, who, outcome) && Anchored(cfg, s, who)
    requires !Terminal(s, who) && outcome != Error && RankOf(s, who) <= PassOf(s, who).rank
    ensures PhaseStart(s, who).Some? && TimeoutOf(cfg, s, who).Some?
    ensures PassOf(s, who).since <= PhaseStart(s, who).value + TimeoutOf(cfg, s, who).value
  {
    hide Order, Exclusive, Files, Commits, Mirror, Hold, Snaps, Names, Volumes, Progress, RolledOut, UpTimeout, DryTimeout,
         RbTimeout, UpRank, RbRank, VolumeWait;
  }

  /** No condition has been added; what a phase may still change is the record of its own work. */
  predicate SamePhase(a: UpStatus, b: UpStatus) {
    && (a.suspended == Absent <==> b.suspended == Absent)
    && a.stopped == b.stopped && a.snapReady == b.snapReady && a.committed == b.committed
    && a.reconciled == b.reconciled && a.healthy == b.healthy && a.complete == b.complete
  }

  predicate RbSamePhase(a: RbStatus, b: RbStatus) {
    && (a.suspended == Absent <==> b.suspended == Absent)
    && a.stopped == b.stopped && a.volumes == b.volumes && a.reverted == b.reverted
    && a.reconciled == b.reconciled && a.healthy == b.healthy && a.complete == b.complete
  }

  lemma UpTimerByStep(cfg: Config, s: State, e: Event)
    requires Kept(cfg, s) && Enabled(cfg, s, e) && s.up.phaseStart.Some?
    requires SamePhase(s.up, Apply(cfg, s, e).up) && s.up.complete == Absent
    ensures Apply(cfg, s, e).up.phaseStart == s.up.phaseStart
  {
    hide Exclusive, Files, Commits, Mirror, Hold, Snaps, Names, Volumes, Progress, RolledOut, Timers, UpgradeOrder,
         RollbackOrder, UpgradeWrite, RollbackWrite, MayCall, Accepted, EndOk, IsTrueSight, Benign, PassAfter, WorldAfter,
         UpHistoryAfter, RbHistoryAfter;
    if e.WriteUpgrade? { UpTimerFixed(cfg, s.up, e.up, s.upPass); }
  }

  lemma RbTimerByStep(cfg: Config, s: State, e: Event)
    requires Enabled(cfg, s, e) && s.rb.phaseStart.Some?
    requires RbSamePhase(s.rb, Apply(cfg, s, e).rb) && s.rb.complete == Absent
    ensures Apply(cfg, s, e).rb.phaseStart == s.rb.phaseStart
  {
    hide UpgradeWrite, RollbackWrite, MayCall, Accepted, EndOk, IsTrueSight, Benign, PassAfter, WorldAfter,
         UpHistoryAfter, RbHistoryAfter;
    if e.WriteRollback? { RbTimerFixed(cfg, s.rb, e.rb, s.rbPass); }
  }

  lemma BetweenPhases(a: UpStatus, b: UpStatus, c: UpStatus)
    requires UpKept(a, b) && UpKept(b, c) && SamePhase(a, c) && c.complete == Absent
    ensures SamePhase(a, b) && SamePhase(b, c)
  {
  }

  lemma RbBetweenPhases(a: RbStatus, b: RbStatus, c: RbStatus)
    requires RbKept(a, b) && RbKept(b, c) && RbSamePhase(a, c) && c.complete == Absent
    ensures RbSamePhase(a, b) && RbSamePhase(b, c)
  {
  }

  /** Deadlines do not slide: the persisted start of a phase stays as it is until the phase is over. */
  lemma {:induction false} UpgradeTimerStaysFixed(cfg: Config, init: State, log: seq<Event>, i: nat, j: nat)
    requires i <= j <= |log| && IsRun(cfg, init, log)
    requires var a, b := At(cfg, init, log, i).up, At(cfg, init, log, j).up;
             a.phaseStart.Some? && SamePhase(a, b) && b.complete == Absent
    ensures At(cfg, init, log, j).up.phaseStart == At(cfg, init, log, i).up.phaseStart
    decreases j
  {
    hide Enabled, Apply, Kept, Play, At, UpKept;
    if i < j {
      UpgradeNeverReverts(cfg, init, log, i, j - 1);
      UpgradeNeverReverts(cfg, init, log, j - 1, j);
      BetweenPhases(At(cfg, init, log, i).up, At(cfg, init, log, j - 1).up, At(cfg, init, log, j).up);
      UpgradeTimerStaysFixed(cfg, init, log, i, j - 1);
      StepAt(cfg, init, log, j - 1);
      KeptAt(cfg, init, log, j - 1);
      UpTimerByStep(cfg, At(cfg, init, log, j - 1), log[j - 1]);
    }
  }

  lemma {:induction false} RollbackTimerStaysFixed(cfg: Config, init: State, log: seq<Event>, i: nat, j: nat)
    requires i <= j <= |log| && IsRun(cfg, init, log)
    requires var a, b := At(cfg, init, log, i).rb, At(cfg, init, log, j).rb;
             a.phaseStart.Some? && RbSamePhase(a, b) && b.complete == Absent
    ensures At(cfg, init, log, j).rb.phaseStart == At(cfg, init, log, i).rb.phaseStart
    decreases j
  {
    hide Enabled, Apply, Play, At, RbKept;
    if i < j {
      RollbackNeverReverts(cfg, init, log, i, j - 1);
      RollbackNeverReverts(cfg, init, log, j - 1, j);
      RbBetweenPhases(At(cfg, init, log, i).rb, At(cfg, init, log, j - 1).rb, At(cfg, init, log, j).rb);
      RollbackTimerStaysFixed(cfg, init, log, i, j - 1);
      StepAt(cfg, init, log, j - 1);
      RbTimerByStep(cfg, At(cfg, init, log, j - 1), log[j - 1]);
    }
  }

  /** Steps `b` to `j` are one whole pass of `who`, which does not end with an error. */
  predicate WholePass(log: seq<Event>, who: Actor, b: nat, j: nat) {
    && b < j < |log| && log[b] == Begin(who) && log[j].End? && log[j].who == who && log[j].outcome != Error
    && forall k | b < k < j :: log[k] != Begin(who)
  }

  lemma SameRank(a: State, b: State, who: Actor)
    requires if who == Upgrader then a.upFinalizer && SamePhase(a.up, b.up) else a.rbFinalizer && RbSamePhase(a.rb, b.rb)
    ensures RankOf(b, who) <= RankOf(a, who)
  {
  }

  /** The seconds the phase may take in which an upgrade is in `s`. What phase a dry run is in also depends on
      the workloads found by the pass in `t`. */
  function Limit(cfg: Config, s: State, t: State): Option<nat> {
    var up, found := s.up, t.upPass.seen.workloads;
    if cfg.dryRun then
      if up.suspended != IsTrue || found == None || found == Some([]) || (up.stopped && up.snapReady) then Some(120)
      else Some(300)
    else if up.suspended == Absent then None
    else if !up.stopped then Some(300)
    else if !up.snapReady then Some(1800)
    else if !up.committed then None
    else if !up.reconciled then Some(600)
    else Some(cfg.healthTimeout)
  }

  function RbLimit(cfg: Config, s: State): Option<nat> {
    if s.rb.suspended == Absent then None
    else if !s.rb.stopped then Some(300)
    else if !s.rb.volumes then Some(1800)
    else if !s.rb.reverted then None
    else if !s.rb.reconciled then Some(600)
    else Some(cfg.healthTimeout)
  }

  lemma RbLimitHolds(cfg: Config, s: State)
    ensures RbTimeout(cfg, s.rb) == RbLimit(cfg, s)
  {
  }

  lemma LimitHolds(cfg: Config, s: State, t: State)
    requires Kept(cfg, s) && Kept(cfg, t) && SamePhase(s.up, t.up) && t.up.complete == Absent
    ensures TimeoutOf(cfg, t, Upgrader) == Limit(cfg, s, t)
  {
    hide Exclusive, Files, Commits, Mirror, Hold, Snaps, Names, Volumes, Progress, RolledOut, Timers, RollbackOrder;
  }

  /** Deadlines are met: take a phase of an upgrade up to the reconciliation, or any phase of a dry run,
      whose start is persisted. The first pass that begins later than start plus timeout, and does not end
      with an error, finishes the phase or the request, even if its calls to Flux fail; in a phase without a
      deadline any such pass does. */
  lemma UpgradeDeadline(cfg: Config, init: State, log: seq<Event>, i: nat, b: nat, j: nat)
    requires IsRun(cfg, init, log) && i <= b && WholePass(log, Upgrader, b, j)
    requires var s, t := At(cfg, init, log, i), At(cfg, init, log, j);
             && s.up.complete == Absent && s.upFinalizer && s.up.phaseStart.Some? && (cfg.dryRun || !s.up.reconciled)
             && (Limit(cfg, s, t).Some? ==>
                   At(cfg, init, log, b).world.now > s.up.phaseStart.value + Limit(cfg, s, t).value)
    ensures !SamePhase(At(cfg, init, log, i).up, At(cfg, init, log, j).up)
  {
    hide Enabled, Apply, Play, At, Kept, UpRank, RbRank, EndOk, Limit, TimeoutOf;
    var s, t := At(cfg, init, log, i), At(cfg, init, log, j);
    if SamePhase(s.up, t.up) {
      PassSince(cfg, init, log, Upgrader, b, j);
      RankNeverFalls(cfg, init, log, Upgrader, i, b);
      SameRank(s, t, Upgrader);
      UpgradeTimerStaysFixed(cfg, init, log, i, j);
      KeptAt(cfg, init, log, i);
      KeptAt(cfg, init, log, j);
      EndIsJustified(cfg, init, log, j);
      NoWaitPastTheDeadline(cfg, t, Upgrader, log[j].outcome);
      LimitHolds(cfg, s, t);
    }
  }

  lemma EndIsJustified(cfg: Config, init: State, log: seq<Event>, j: nat)
    requires j < |log| && IsRun(cfg, init, log) && log[j].End?
    ensures EndOk(cfg, At(cfg, init, log, j), log[j].who, log[j].outcome)
  {
    hide Apply, Play, At, EndOk;
    StepAt(cfg, init, log, j);
  }

  /** The same for a rollback that waits for its workloads to stop, for its volumes after the first of them
      has been recreated, or for the reconciliation. */
  lemma RollbackDeadline(cfg: Config, init: State, log: seq<Event>, i: nat, b: nat, j: nat)
    requires IsRun(cfg, init, log) && i <= b && WholePass(log, Rollbacker, b, j)
    requires var s := At(cfg, init, log, i);
             && s.rb.complete == Absent && s.rbFinalizer && s.rb.phaseStart.Some? && RbLimit(cfg, s).Some?
             && (!s.rb.stopped || (!s.rb.volumes && s.rb.restored != []) || (s.rb.reverted && !s.rb.reconciled))
             && At(cfg, init, log, b).world.now > s.rb.phaseStart.value + RbLimit(cfg, s).value
    ensures !RbSamePhase(At(cfg, init, log, i).rb, At(cfg, init, log, j).rb)
  {
    hide Enabled, Apply, Play, At, Kept, UpRank, RbRank, EndOk;
    var s, t := At(cfg, init, log, i), At(cfg, init, log, j);
    if RbSamePhase(s.rb, t.rb) {
      RbLimitHolds(cfg, s);
      PassSince(cfg, init, log, Rollbacker, b, j);
      RankNeverFalls(cfg, init, log, Rollbacker, i, b);
      SameRank(s, t, Rollbacker);
      RollbackTimerStaysFixed(cfg, init, log, i, j);
      RollbackNeverReverts(cfg, init, log, i, j);
      KeptAt(cfg, init, log, j);
      EndIsJustified(cfg, init, log, j);
      NoWaitPastTheDeadline(cfg, t, Rollbacker, log[j].outcome);
    }
  }

  lemma LimitNow(cfg: Config, s: State, who: Actor)
    ensures TimeoutOf(cfg, s, who) == if who == Upgrader then Limit(cfg, s, s) else RbLimit(cfg, s)
  {
  }

  /** No pass drops a live request: if it ends with nothing more to do, the request is over; otherwise it
      asks to be called again, at once, after a while, or because of an error. A pass that ends with an error
      has had a call fail. One that waits was told no, or had a call fail, and the phase's deadline was
      still ahead when it looked; any other has brought the request forward. */
  lemma NoRequestIsDropped(cfg: Config, init: State, log: seq<Event>, j: nat)
    requires j < |log| && IsRun(cfg, init, log) && log[j].End?
    ensures var s, who, p := At(cfg, init, log, j), log[j].who, PassOf(At(cfg, init, log, j), log[j].who);
            match log[j].outcome
            case Done => Terminal(s, who)
            case Requeue => Terminal(s, who) || RankOf(s, who) > p.rank
            case Error => p.trouble
            case RequeueAfter(seconds) =>
              && seconds > 0 && (p.trouble || p.negative)
              && p.timer.Some?
              && (if who == Upgrader then Limit(cfg, s, s) else RbLimit(cfg, s)) == Some(p.timer.value.timeout)
              && p.timer.value.at <= p.timer.value.start + p.timer.value.timeout
            case Panic => false
  {
    hide Enabled, Apply, Play, At, RankOf, TimeoutOf, Limit, RbLimit;
    EndIsJustified(cfg, init, log, j);
    LimitNow(cfg, At(cfg, init, log, j), log[j].who);
  }
}
