/**
 What holds over whole runs: every interleaving of single calls of both controllers and of everybody else,
 with any call failing and any pass dying. A run is a list of steps that `Play` accepts; `At` is the state
 before a step.
 */
module Theorems {
  import opened Wrappers
  import opened YamlTree
  import opened Protocol
  import opened Invariants
  import opened DataInvariants
  import opened ProgressInvariants
  import opened Runs
  import opened WorldFacts

  predicate IsRun(cfg: Config, init: State, log: seq<Event>) {
    Play(cfg, init, log).Some?
  }

  lemma {:induction false} PrefixIsRun(cfg: Config, init: State, log: seq<Event>, i: nat)
    requires i <= |log| && IsRun(cfg, init, log)
    ensures IsRun(cfg, init, log[..i])
    decreases |log|
  {
    hide Enabled, Apply;
    if i == |log| {
      assert log[..i] == log;
    } else {
      PrefixIsRun(cfg, init, log[..|log| - 1], i);
      assert log[..|log| - 1][..i] == log[..i];
    }
  }

  /** The state after the first `i` steps. */
  function At(cfg: Config, init: State, log: seq<Event>, i: nat): State
    requires i <= |log| && IsRun(cfg, init, log)
  {
    PrefixIsRun(cfg, init, log, i);
    Play(cfg, init, log[..i]).value
  }

  lemma StepAt(cfg: Config, init: State, log: seq<Event>, i: nat)
    requires i < |log| && IsRun(cfg, init, log)
    ensures Enabled(cfg, At(cfg, init, log, i), log[i])
    ensures At(cfg, init, log, i + 1) == Apply(cfg, At(cfg, init, log, i), log[i])
  {
    hide Enabled, Apply;
    PrefixIsRun(cfg, init, log, i + 1);
    assert log[..i + 1][..i] == log[..i];
  }

  lemma KeptAt(cfg: Config, init: State, log: seq<Event>, i: nat)
    requires i <= |log| && IsRun(cfg, init, log)
    ensures Kept(cfg, At(cfg, init, log, i))
  {
    hide Enabled, Apply, Kept;
    PrefixIsRun(cfg, init, log, i);
    RunKeeps(cfg, init, log[..i], At(cfg, init, log, i));
  }

  // ----- what the history in a state stands for -----

  predicate OthersCommitted(log: seq<Event>) { exists e | e in log :: e.EnvFile? }
  predicate OthersDeletedSnapshots(log: seq<Event>) { exists e | e in log :: e.EnvSnaps? }

  lemma HistoryByStep(cfg: Config, s: State, e: Event)
    ensures var h, g := s.hist, Apply(cfg, s, e).hist;
            && g.file == h.file && g.otherFile == (h.otherFile || e.EnvFile?) && g.otherSnaps == (h.otherSnaps || e.EnvSnaps?)
  {
    hide WorldAfter, PassAfter, UpHistoryAfter, RbHistoryAfter, TouchedAfter;
  }

  /** The history in a state is the truth about the run: which file it began with, and whether anybody else
      committed or deleted snapshots. */
  lemma {:induction false} HistoryIsTrue(cfg: Config, init: State, log: seq<Event>)
    requires IsRun(cfg, init, log)
    ensures var h := Play(cfg, init, log).value.hist;
            && h.file == init.world.file
            && (h.otherFile <==> OthersCommitted(log))
            && (h.otherSnaps <==> OthersDeletedSnapshots(log))
  {
    hide Enabled, Apply;
    if log != [] {
      var n := |log| - 1;
      PrefixIsRun(cfg, init, log, n);
      HistoryIsTrue(cfg, init, log[..n]);
      HistoryByStep(cfg, Play(cfg, init, log[..n]).value, log[n]);
      assert log == log[..n] + [log[n]];
    }
  }

  /** The same, at any point of the run. */
  lemma HistoryAt(cfg: Config, init: State, log: seq<Event>, i: nat)
    requires i <= |log| && IsRun(cfg, init, log)
    ensures var h := At(cfg, init, log, i).hist;
            && h.file == init.world.file
            && (h.otherFile <==> OthersCommitted(log[..i]))
            && (h.otherSnaps <==> OthersDeletedSnapshots(log[..i]))
  {
    hide Play;
    PrefixIsRun(cfg, init, log, i);
    HistoryIsTrue(cfg, init, log[..i]);
  }

  // The next functions read a run backwards, from its last step.

  /** A pass of `who` is under way. */
  predicate Running(log: seq<Event>, who: Actor) {
    log != [] &&
    match log[|log| - 1]
    case Begin(w) => w == who || Running(log[..|log| - 1], who)
    case End(w, _) => w != who && Running(log[..|log| - 1], who)
    case _ => Running(log[..|log| - 1], who)
  }

  /** The upgrade's present or last pass has committed and has not got to write GitCommitted since. */
  predicate Pending(log: seq<Event>) {
    log != [] &&
    match log[|log| - 1]
    case Begin(Upgrader) => false
    case Did(Upgrader, Commit(_, _)) => true
    case WriteUpgrade(up) => !up.committed && Pending(log[..|log| - 1])
    case _ => Pending(log[..|log| - 1])
  }

  /** How often the upgrade has committed. */
  function CommitsIn(log: seq<Event>): nat {
    if log == [] then 0
    else CommitsIn(log[..|log| - 1]) + One(log[|log| - 1].Did? && log[|log| - 1].who == Upgrader && log[|log| - 1].call.Commit?)
  }

  /** The passes that committed and were followed by another without having written GitCommitted. */
  function UnrecordedIn(log: seq<Event>): nat {
    if log == [] then 0
    else UnrecordedIn(log[..|log| - 1]) + One(log[|log| - 1] == Begin(Upgrader) && Pending(log[..|log| - 1]))
  }

  /** The step is a status write of `who` that fails, or the first sign that its last pass died. */
  predicate Misses(log: seq<Event>, e: Event, who: Actor) {
    e == LoseWrite(who) || (e == Begin(who) && Running(log, who))
  }

  /** The misses of the upgrade while a commit was waiting to be recorded. */
  function MissesIn(log: seq<Event>): nat {
    if log == [] then 0
    else MissesIn(log[..|log| - 1])
         + One(Pending(log[..|log| - 1]) && Misses(log[..|log| - 1], log[|log| - 1], Upgrader))
  }

  /** Some status write of `who` has failed or some pass of it has died. */
  predicate Lost(log: seq<Event>, who: Actor) {
    log != [] && (Lost(log[..|log| - 1], who) || Misses(log[..|log| - 1], log[|log| - 1], who))
  }

  /** Some call of `who` has failed or some pass of it has died. */
  predicate Troubled(log: seq<Event>, who: Actor) {
    log != [] && (Troubled(log[..|log| - 1], who) || log[|log| - 1] == Fail(who)
                  || Misses(log[..|log| - 1], log[|log| - 1], who))
  }

  /** The version `who` committed last. */
  function LastCommit(log: seq<Event>, who: Actor): Option<string> {
    if log == [] then None
    else match log[|log| - 1]
      case Did(w, Commit(version, _)) => if w == who then Some(version) else LastCommit(log[..|log| - 1], who)
      case _ => LastCommit(log[..|log| - 1], who)
  }

  /** The last Flux call of the upgrade that went through. */
  function LastFlux(log: seq<Event>): FluxCall {
    if log == [] then NoCall
    else if log[|log| - 1] == Did(Upgrader, SuspendFlux) then Suspended
    else if log[|log| - 1] == Did(Upgrader, ResumeFlux) then Resumed
    else LastFlux(log[..|log| - 1])
  }

  /** What a state keeps of the run that led to it is what the run says. */
  predicate Remembers(s: State, log: seq<Event>) {
    var h := s.hist.up;
    && s.upPass.active == Running(log, Upgrader) && s.rbPass.active == Running(log, Rollbacker)
    && Unwritten(s) == Pending(log)
    && h.commits == CommitsIn(log) && h.unrecorded == UnrecordedIn(log) && h.missed == MissesIn(log)
    && h.lost == Lost(log, Upgrader) && h.trouble == Troubled(log, Upgrader)
    && s.hist.rb.trouble == Troubled(log, Rollbacker)
    && h.version == LastCommit(log, Upgrader) && s.hist.rb.version == LastCommit(log, Rollbacker)
    && h.flux == LastFlux(log)
  }

  lemma UpHistoryByStep(cfg: Config, s: State, e: Event)
    ensures var h, t := s.hist.up, Apply(cfg, s, e);
            var g := t.hist.up;
            var miss := e == LoseWrite(Upgrader) || (e == Begin(Upgrader) && s.upPass.active);
            && g.commits == h.commits + One(e.Did? && e.who == Upgrader && e.call.Commit?)
            && g.unrecorded == h.unrecorded + One(e == Begin(Upgrader) && Unwritten(s))
            && g.missed == h.missed + One(Unwritten(s) && miss)
            && g.lost == (h.lost || miss) && g.trouble == (h.trouble || miss || e == Fail(Upgrader))
            && g.version == (if e.Did? && e.who == Upgrader && e.call.Commit? then Some(e.call.version) else h.version)
            && g.flux == (if e == Did(Upgrader, SuspendFlux) then Suspended
                          else if e == Did(Upgrader, ResumeFlux) then Resumed else h.flux)
  {
    hide WorldAfter, PassAfter, RbHistoryAfter, TouchedAfter, Hoped, SnapshotName;
  }

  lemma RbHistoryByStep(cfg: Config, s: State, e: Event)
    ensures var h, g := s.hist.rb, Apply(cfg, s, e).hist.rb;
            && g.trouble == (h.trouble || e == Fail(Rollbacker) || e == LoseWrite(Rollbacker)
                             || (e == Begin(Rollbacker) && s.rbPass.active))
            && g.version == (if e.Did? && e.who == Rollbacker && e.call.Commit? then Some(e.call.version) else h.version)
  {
    hide WorldAfter, PassAfter, UpHistoryAfter, TouchedAfter, Hoped;
  }

  lemma ActiveByStep(cfg: Config, s: State, who: Actor, e: Event)
    requires Enabled(cfg, s, e)
    ensures PassOf(Apply(cfg, s, e), who).active
            == if e == Begin(who) then true else if e.End? && e.who == who then false else PassOf(s, who).active
  {
    hide WorldAfter, UpHistoryAfter, RbHistoryAfter, TouchedAfter, UpgradeWrite, RollbackWrite, MayCall, Accepted, EndOk,
         IsTrueSight, Benign, Hoped, RankOf, FluxAfterCall, FluxAfterSight, WorkAfterCall, WorkAfterSight, SightsAfter;
  }

  lemma UnwrittenByStep(cfg: Config, s: State, e: Event)
    requires Enabled(cfg, s, e) && (e.WriteUpgrade? ==> (s.up.committed ==> e.up.committed))
    requires e.Did? && e.who == Upgrader && e.call.Commit? ==> !s.up.committed
    ensures Unwritten(Apply(cfg, s, e))
            == match e
               case Begin(Upgrader) => false
               case Did(Upgrader, Commit(_, _)) => true
               case WriteUpgrade(up) => !up.committed && Unwritten(s)
               case _ => Unwritten(s)
  {
    hide WorldAfter, UpHistoryAfter, RbHistoryAfter, TouchedAfter, UpgradeWrite, RollbackWrite, MayCall, Accepted, EndOk,
         IsTrueSight, Benign, Hoped, RankOf, FluxAfterCall, FluxAfterSight, SightsAfter, SnapshotName;
  }

  lemma CommitUnrecorded(cfg: Config, s: State, e: Event)
    requires Enabled(cfg, s, e) && e.Did? && e.who == Upgrader && e.call.Commit?
    ensures !s.up.committed
  {
    hide Accepted, Prepared, CommitVersion;
  }

  // What each reading makes of one more step.

  lemma RunningGrows(log: seq<Event>, e: Event, who: Actor)
    ensures Running(log + [e], who) == if e == Begin(who) then true else if e.End? && e.who == who then false else Running(log, who)
  {
    assert (log + [e])[..|log|] == log;
  }

  lemma PendingGrows(log: seq<Event>, e: Event)
    ensures Pending(log + [e]) == match e
                                  case Begin(Upgrader) => false
                                  case Did(Upgrader, Commit(_, _)) => true
                                  case WriteUpgrade(up) => !up.committed && Pending(log)
                                  case _ => Pending(log)
  {
    assert (log + [e])[..|log|] == log;
  }

  lemma CountsGrow(log: seq<Event>, e: Event)
    ensures CommitsIn(log + [e]) == CommitsIn(log) + One(e.Did? && e.who == Upgrader && e.call.Commit?)
    ensures UnrecordedIn(log + [e]) == UnrecordedIn(log) + One(e == Begin(Upgrader) && Pending(log))
    ensures MissesIn(log + [e]) == MissesIn(log) + One(Pending(log) && Misses(log, e, Upgrader))
  {
    hide Pending, Misses;
    assert (log + [e])[..|log|] == log;
  }

  lemma FlagsGrow(log: seq<Event>, e: Event, who: Actor)
    ensures Lost(log + [e], who) == (Lost(log, who) || Misses(log, e, who))
    ensures Troubled(log + [e], who) == (Troubled(log, who) || e == Fail(who) || Misses(log, e, who))
  {
    hide Misses;
    assert (log + [e])[..|log|] == log;
  }

  lemma LastsGrow(log: seq<Event>, e: Event)
    ensures forall who :: LastCommit(log + [e], who)
                          == if e.Did? && e.who == who && e.call.Commit? then Some(e.call.version) else LastCommit(log, who)
    ensures LastFlux(log + [e]) == if e == Did(Upgrader, SuspendFlux) then Suspended
                                   else if e == Did(Upgrader, ResumeFlux) then Resumed else LastFlux(log)
  {
    assert (log + [e])[..|log|] == log;
  }

  lemma RemembersOn(cfg: Config, s: State, log: seq<Event>, e: Event)
    requires Remembers(s, log) && Kept(cfg, s) && Enabled(cfg, s, e)
    ensures Remembers(Apply(cfg, s, e), log + [e])
  {
    hide Enabled, Apply, Kept, Unwritten, UpKept, Running, Pending, CommitsIn, UnrecordedIn, MissesIn, Lost, Troubled,
         LastCommit, LastFlux;
    RunningGrows(log, e, Upgrader);
    RunningGrows(log, e, Rollbacker);
    PendingGrows(log, e);
    CountsGrow(log, e);
    FlagsGrow(log, e, Upgrader);
    FlagsGrow(log, e, Rollbacker);
    LastsGrow(log, e);
    UpHistoryByStep(cfg, s, e);
    RbHistoryByStep(cfg, s, e);
    ActiveByStep(cfg, s, Upgrader, e);
    ActiveByStep(cfg, s, Rollbacker, e);
    UpStepKeeps(cfg, s, e);
    CommittedStays(cfg, s, e);
    if e.Did? && e.who == Upgrader && e.call.Commit? { CommitUnrecorded(cfg, s, e); }
    UnwrittenByStep(cfg, s, e);
  }

  lemma CommittedStays(cfg: Config, s: State, e: Event)
    requires UpKept(s.up, Apply(cfg, s, e).up)
    ensures e.WriteUpgrade? ==> (s.up.committed ==> e.up.committed)
  {
    hide PassAfter, WorldAfter, UpHistoryAfter, RbHistoryAfter, TouchedAfter;
  }

  /** The counters and flags of the history are those of the run. */
  lemma {:induction false} RunIsRemembered(cfg: Config, init: State, log: seq<Event>)
    requires IsRun(cfg, init, log)
    ensures Remembers(Play(cfg, init, log).value, log)
  {
    hide Enabled, Apply, Kept, Remembers;
    if log == [] {
      FirstRemembers(cfg, init);
    } else {
      var n := |log| - 1;
      PrefixIsRun(cfg, init, log, n);
      RunIsRemembered(cfg, init, log[..n]);
      var s := Play(cfg, init, log[..n]).value;
      RunKeeps(cfg, init, log[..n], s);
      RemembersOn(cfg, s, log[..n], log[n]);
      assert log == log[..n] + [log[n]];
    }
  }

  lemma FirstRemembers(cfg: Config, init: State)
    requires IsRun(cfg, init, [])
    ensures Remembers(Play(cfg, init, []).value, [])
  {
    hide Enabled, Apply;
  }

  lemma RememberedAt(cfg: Config, init: State, log: seq<Event>, i: nat)
    requires i <= |log| && IsRun(cfg, init, log)
    ensures Remembers(At(cfg, init, log, i), log[..i])
  {
    hide Play, Remembers;
    PrefixIsRun(cfg, init, log, i);
    RunIsRemembered(cfg, init, log[..i]);
  }

  /** A snapshot the history knows was created in the run, and `afterStop` tells whether that was after the
      workloads were persisted as stopped. */
  predicate Taken(cfg: Config, init: State, log: seq<Event>, fact: SnapFact, i: nat)
    requires i <= |log| && IsRun(cfg, init, log)
  {
    exists j | 0 <= j < i ::
      && log[j].Did? && log[j].who == Upgrader && log[j].call.CreateSnapshot?
      && fact.ref == SnapRef(log[j].call.pvc, SnapshotName(cfg, log[j].call.pvc, log[j].call.timestamp))
      && fact.afterStop == At(cfg, init, log, j).up.stopped
  }

  lemma SnapsByStep(cfg: Config, s: State, e: Event, fact: SnapFact)
    requires fact in Apply(cfg, s, e).hist.up.snaps
    ensures fact in s.hist.up.snaps
            || (e.Did? && e.who == Upgrader && e.call.CreateSnapshot?
                && fact == SnapFact(SnapRef(e.call.pvc, SnapshotName(cfg, e.call.pvc, e.call.timestamp)), s.up.stopped))
  {
    hide WorldAfter, PassAfter, RbHistoryAfter, Hoped, SnapshotName;
  }

  lemma FirstEmpty(cfg: Config, init: State, log: seq<Event>)
    requires IsRun(cfg, init, log)
    ensures At(cfg, init, log, 0) == init && Initial(init)
  {
    hide Enabled, Apply;
    PrefixIsRun(cfg, init, log, 0);
    assert log[..0] == [];
  }

  lemma {:induction false} SnapshotsWereTaken(cfg: Config, init: State, log: seq<Event>, fact: SnapFact, i: nat)
    requires i <= |log| && IsRun(cfg, init, log) && fact in At(cfg, init, log, i).hist.up.snaps
    ensures Taken(cfg, init, log, fact, i)
  {
    hide Play, Apply, Enabled, At, SnapshotName;
    if i == 0 {
      FirstEmpty(cfg, init, log);
    } else {
      StepAt(cfg, init, log, i - 1);
      SnapsByStep(cfg, At(cfg, init, log, i - 1), log[i - 1], fact);
      if fact in At(cfg, init, log, i - 1).hist.up.snaps { SnapshotsWereTaken(cfg, init, log, fact, i - 1); }
    }
  }

  lemma ReadyByStep(cfg: Config, s: State, e: Event, snap: string)
    requires snap in Apply(cfg, s, e).hist.up.ready
    ensures snap in s.hist.up.ready || e == Saw(Upgrader, SawReady(snap, true))
  {
    hide WorldAfter, PassAfter, RbHistoryAfter, Hoped, SnapshotName;
  }

  lemma {:induction false} ReadyWasSeen(cfg: Config, init: State, log: seq<Event>, snap: string, i: nat)
    requires i <= |log| && IsRun(cfg, init, log) && snap in At(cfg, init, log, i).hist.up.ready
    ensures Saw(Upgrader, SawReady(snap, true)) in log[..i]
  {
    hide Play, Apply, Enabled, At;
    if i == 0 {
      FirstEmpty(cfg, init, log);
    } else {
      StepAt(cfg, init, log, i - 1);
      ReadyByStep(cfg, At(cfg, init, log, i - 1), log[i - 1], snap);
      assert log[..i] == log[..i - 1] + [log[i - 1]];
      if snap in At(cfg, init, log, i - 1).hist.up.ready { ReadyWasSeen(cfg, init, log, snap, i - 1); }
    }
  }

  predicate Replaces(e: Event, pvc: string) {
    e.Did? && e.who == Rollbacker && (e.call == DeletePvc(pvc) || (e.call.CreatePvc? && e.call.ref.pvc == pvc))
  }

  /** The rollback saw the PVC bound, and has neither deleted nor created it since. */
  predicate BoundSince(log: seq<Event>, pvc: string, i: nat)
    requires i <= |log|
  {
    exists b | 0 <= b < i :: log[b] == Saw(Rollbacker, SawBound(pvc, true)) && forall k | b < k < i :: !Replaces(log[k], pvc)
  }

  lemma BoundByStep(cfg: Config, s: State, e: Event, pvc: string)
    requires pvc in Apply(cfg, s, e).hist.rb.bound
    ensures e == Saw(Rollbacker, SawBound(pvc, true)) || (pvc in s.hist.rb.bound && !Replaces(e, pvc))
  {
    hide WorldAfter, PassAfter, UpHistoryAfter, Hoped;
  }

  lemma {:induction false} BoundWasSeen(cfg: Config, init: State, log: seq<Event>, pvc: string, i: nat)
    requires i <= |log| && IsRun(cfg, init, log) && pvc in At(cfg, init, log, i).hist.rb.bound
    ensures BoundSince(log, pvc, i)
  {
    hide Play, Apply, Enabled, At;
    if i == 0 {
      FirstEmpty(cfg, init, log);
    } else {
      StepAt(cfg, init, log, i - 1);
      BoundByStep(cfg, At(cfg, init, log, i - 1), log[i - 1], pvc);
      if log[i - 1] != Saw(Rollbacker, SawBound(pvc, true)) { BoundWasSeen(cfg, init, log, pvc, i - 1); }
    }
  }

  // ----- nothing is taken back -----

  lemma UpStepKeeps(cfg: Config, s: State, e: Event)
    requires Kept(cfg, s) && Enabled(cfg, s, e)
    ensures UpKept(s.up, Apply(cfg, s, e).up)
  {
    hide Exclusive, Files, Commits, Mirror, Hold, Snaps, Names, Volumes, Progress, RolledOut, Timers, UpgradeOrder,
         RollbackOrder, UpgradeWrite, RollbackWrite, MayCall, Accepted, EndOk, IsTrueSight, Benign, PassAfter, WorldAfter,
         UpHistoryAfter, RbHistoryAfter;
    if e.WriteUpgrade? { UpWriteKeeps(cfg, s.up, e.up, s.upPass); }
  }

  lemma RbStepKeeps(cfg: Config, s: State, e: Event)
    requires Enabled(cfg, s, e)
    ensures RbKept(s.rb, Apply(cfg, s, e).rb)
  {
    hide UpgradeWrite, RollbackWrite, MayCall, Accepted, EndOk, IsTrueSight, Benign, PassAfter, WorldAfter,
         UpHistoryAfter, RbHistoryAfter;
    if e.WriteRollback? { RbWriteKeeps(cfg, s.rb, e.rb, s.rbPass); }
  }

  lemma UpKeptTwice(a: UpStatus, b: UpStatus, c: UpStatus)
    requires UpKept(a, b) && UpKept(b, c)
    ensures UpKept(a, c)
  {
  }

  lemma RbKeptTwice(a: RbStatus, b: RbStatus, c: RbStatus)
    requires RbKept(a, b) && RbKept(b, c)
    ensures RbKept(a, c)
  {
    assert forall i | 0 <= i < |a.restored| :: c.restored[i].ref == b.restored[i].ref == a.restored[i].ref;
  }

  /** No step condition of the upgrade ever reverts, except that Suspended goes from true to false; a
      completed request never changes again; what was recorded stays recorded. */
  lemma {:induction false} UpgradeNeverReverts(cfg: Config, init: State, log: seq<Event>, i: nat, j: nat)
    requires i <= j <= |log| && IsRun(cfg, init, log)
    ensures UpKept(At(cfg, init, log, i).up, At(cfg, init, log, j).up)
    decreases j
  {
    hide Enabled, Apply, Kept, Play;
    if i < j {
      var s := At(cfg, init, log, j - 1);
      UpgradeNeverReverts(cfg, init, log, i, j - 1);
      StepAt(cfg, init, log, j - 1);
      KeptAt(cfg, init, log, j - 1);
      UpStepKeeps(cfg, s, log[j - 1]);
      UpKeptTwice(At(cfg, init, log, i).up, s.up, At(cfg, init, log, j).up);
    }
  }

  /** The same for the rollback; the list of restored PVCs only grows at its end. */
  lemma {:induction false} RollbackNeverReverts(cfg: Config, init: State, log: seq<Event>, i: nat, j: nat)
    requires i <= j <= |log| && IsRun(cfg, init, log)
    ensures RbKept(At(cfg, init, log, i).rb, At(cfg, init, log, j).rb)
    decreases j
  {
    hide Enabled, Apply, Kept, Play;
    if i < j {
      var s := At(cfg, init, log, j - 1);
      RollbackNeverReverts(cfg, init, log, i, j - 1);
      StepAt(cfg, init, log, j - 1);
      RbStepKeeps(cfg, s, log[j - 1]);
      RbKeptTwice(At(cfg, init, log, i).rb, s.rb, At(cfg, init, log, j).rb);
    }
  }

  /** Every persisted status of a live upgrade, and of a rollback, has its phases in order. */
  lemma PhaseOrder(cfg: Config, init: State, log: seq<Event>, i: nat)
    requires i <= |log| && IsRun(cfg, init, log)
    ensures var up := At(cfg, init, log, i).up;
            !cfg.dryRun ==>
              && (up.complete == IsTrue ==> up.healthy)
              && (up.healthy ==> up.reconciled)
              && (up.reconciled ==> up.committed && up.suspended == IsFalse)
              && (up.committed ==> up.stopped && up.snapReady && up.upgrade.Some?)
              && (up.stopped ==> up.suspended != Absent)
              && (up.snapReady ==> up.suspended != Absent)
    ensures var rb := At(cfg, init, log, i).rb;
            && (rb.complete == IsTrue ==> rb.healthy)
            && (rb.healthy ==> rb.reconciled)
            && (rb.reconciled ==> rb.reverted && rb.suspended == IsFalse)
            && (rb.reverted ==> rb.volumes && rb.stopped)
            && (rb.stopped ==> rb.suspended != Absent)
            && (rb.volumes ==> rb.suspended != Absent)
  {
    hide Play, At, Exclusive, Files, Commits, Mirror, Hold, Snaps, Names, Volumes, Progress, RolledOut, Timers;
    KeptAt(cfg, init, log, i);
  }

  // ----- one controller at a time -----

  lemma RollbackCallNeedsOver(cfg: Config, s: State, call: Call)
    requires Kept(cfg, s) && RollbackCall(cfg, s.rb, s.rbPass, call)
    ensures s.up.complete != Absent
  {
    hide Order, Files, Commits, Mirror, Hold, Snaps, Names, Volumes, Progress, RolledOut, Timers, NamesOf, NextToRestore,
         RevertVersion, GetVersion, AllReady;
  }

  lemma UpgraderNeedsOpen(cfg: Config, s: State, e: Event)
    requires Enabled(cfg, s, e) && (e.WriteUpgrade? || (e.Did? && e.who == Upgrader))
    ensures s.up.complete == Absent
  {
    hide RollbackWrite, RollbackCall, Accepted, EndOk, IsTrueSight, Benign, FailWrite, DryWrite, SuspendWrite, StopWrite,
         SnapshotWrite, CommitWrite, ReconcileWrite, HealthyWrite, CompleteWrite, Prepared;
  }

  /** Every mutating call of a rollback comes after its upgrade's Complete condition is persisted, and so
      after the upgrade's last mutating call and last status write. */
  lemma MutualExclusion(cfg: Config, init: State, log: seq<Event>, i: nat, j: nat)
    requires i < |log| && j < |log| && IsRun(cfg, init, log)
    requires log[i].Did? && log[i].who == Rollbacker
    requires log[j].WriteUpgrade? || (log[j].Did? && log[j].who == Upgrader)
    ensures At(cfg, init, log, i).up.complete != Absent
    ensures j < i
  {
    hide Play, At, Kept, Apply, RollbackCall, UpgradeCall, Accepted;
    StepAt(cfg, init, log, i);
    KeptAt(cfg, init, log, i);
    RollbackCallNeedsOver(cfg, At(cfg, init, log, i), log[i].call);
    StepAt(cfg, init, log, j);
    UpgraderNeedsOpen(cfg, At(cfg, init, log, j), log[j]);
    if i <= j { UpgradeNeverReverts(cfg, init, log, i, j); }
  }

  /** Complete is absorbing, for both requests. */
  lemma CompleteIsAbsorbing(cfg: Config, init: State, log: seq<Event>, i: nat, j: nat)
    requires i <= j <= |log| && IsRun(cfg, init, log)
    ensures At(cfg, init, log, i).up.complete != Absent ==> At(cfg, init, log, j).up == At(cfg, init, log, i).up
    ensures At(cfg, init, log, i).rb.complete != Absent ==> At(cfg, init, log, j).rb == At(cfg, init, log, i).rb
  {
    hide Play, At;
    UpgradeNeverReverts(cfg, init, log, i, j);
    RollbackNeverReverts(cfg, init, log, i, j);
  }

  // ----- irreversible actions are guarded -----

  /** The pass that takes step `i` has, earlier on, seen the target suspended. */
  predicate SawSuspendedInPass(log: seq<Event>, who: Actor, i: nat)
    requires i <= |log|
  {
    exists b | 0 <= b < i :: log[b] == Saw(who, SawSuspended(true)) && forall k | b < k < i :: log[k] != Begin(who)
  }

  lemma VerifiedByStep(cfg: Config, s: State, who: Actor, e: Event)
    requires PassOf(Apply(cfg, s, e), who).flux.verified
    ensures e == Saw(who, SawSuspended(true)) || (PassOf(s, who).flux.verified && e != Begin(who))
  {
    hide WorldAfter, UpHistoryAfter, RbHistoryAfter, WorkAfterCall, WorkAfterSight, SightsAfter, Hoped, RankOf;
  }

  lemma {:induction false} VerifiedWasSeen(cfg: Config, init: State, log: seq<Event>, who: Actor, i: nat)
    requires i <= |log| && IsRun(cfg, init, log)
    requires PassOf(At(cfg, init, log, i), who).flux.verified
    ensures SawSuspendedInPass(log, who, i)
  {
    hide Play, Apply, Enabled, At;
    if i == 0 {
      FirstEmpty(cfg, init, log);
    } else {
      StepAt(cfg, init, log, i - 1);
      VerifiedByStep(cfg, At(cfg, init, log, i - 1), who, log[i - 1]);
      if log[i - 1] != Saw(who, SawSuspended(true)) { VerifiedWasSeen(cfg, init, log, who, i - 1); }
    }
  }

  /** A commit is made in a pass that has seen the target suspended, with the workloads persisted as
      stopped; an upgrade's commit also with its snapshots persisted as ready, a rollback's with its
      volumes persisted as restored. */
  lemma CommitIsGuarded(cfg: Config, init: State, log: seq<Event>, i: nat)
    requires i < |log| && IsRun(cfg, init, log) && log[i].Did? && log[i].call.Commit?
    ensures SawSuspendedInPass(log, log[i].who, i)
    ensures var s := At(cfg, init, log, i);
            if log[i].who == Upgrader then s.up.stopped && s.up.snapReady && !s.up.committed && !cfg.dryRun
            else s.rb.stopped && s.rb.volumes && !s.rb.reverted
  {
    hide Play, At, Apply, SawSuspendedInPass, Accepted, NextToRestore, NamesOf, RevertVersion, CommitVersion, UpdateVersion;
    StepAt(cfg, init, log, i);
    VerifiedWasSeen(cfg, init, log, log[i].who, i);
  }

  /** A PVC is deleted by the rollback only, in a pass that has seen the target suspended, with the
      workloads persisted as stopped, and only while it is not on record as recreated. */
  lemma DeletionIsGuarded(cfg: Config, init: State, log: seq<Event>, i: nat)
    requires i < |log| && IsRun(cfg, init, log) && log[i].Did? && log[i].call.DeletePvc?
    ensures log[i].who == Rollbacker && SawSuspendedInPass(log, Rollbacker, i)
    ensures var s := At(cfg, init, log, i);
            && s.rb.stopped && !s.rb.volumes && log[i].call.pvc !in NamesOf(s.rb.restored)
            && (exists r | r in s.up.snapshots :: r.pvc == log[i].call.pvc)
  {
    hide Play, At, Apply, SawSuspendedInPass, Accepted, NextToRestore, NamesOf, RevertVersion, CommitVersion, UpdateVersion,
         Order, Files, Commits, Mirror, Hold, Snaps, Names, Volumes, Progress, RolledOut, Timers;
    StepAt(cfg, init, log, i);
    KeptAt(cfg, init, log, i);
    VerifiedWasSeen(cfg, init, log, log[i].who, i);
  }

  // ----- how often an upgrade commits -----

  /** An upgrade commits once for the commit it has recorded or still may, and once for every pass that
      committed and did not get to record it; and each of these lost a status write, or died, after its
      commit. */
  lemma ExtraCommits(cfg: Config, init: State, log: seq<Event>)
    requires IsRun(cfg, init, log)
    ensures CommitsIn(log) == UnrecordedIn(log) + One(Play(cfg, init, log).value.up.committed || Pending(log))
    ensures UnrecordedIn(log) <= MissesIn(log)
  {
    hide Play, Order, Exclusive, Files, Mirror, Hold, Snaps, Names, Volumes, Progress, RolledOut, Timers, CommitsIn,
         UnrecordedIn, MissesIn, Pending, Lost, Troubled, LastCommit, LastFlux, Running;
    RunIsRemembered(cfg, init, log);
    RunKeeps(cfg, init, log, Play(cfg, init, log).value);
  }

  /** However often it commits, the file ends up as after one commit of the version committed last, unless
      somebody else or the rollback has committed. */
  lemma CommitsDoNotPileUp(cfg: Config, init: State, log: seq<Event>)
    requires IsRun(cfg, init, log)
    ensures !OthersCommitted(log) && LastCommit(log, Rollbacker) == None ==>
              Ok(Play(cfg, init, log).value.world.file) == match LastCommit(log, Upgrader)
                                                           case Some(version) => Edit(cfg, init.world.file, version)
                                                           case None => Ok(init.world.file)
    ensures LastCommit(log, Upgrader) == None <==> CommitsIn(log) == 0
  {
    hide Play, Order, Exclusive, Mirror, Hold, Snaps, Names, Volumes, Progress, RolledOut, Timers, Edit, CommitsIn,
         UnrecordedIn, MissesIn, Pending, Lost, Troubled, LastCommit, LastFlux, Running, OthersCommitted;
    RunIsRemembered(cfg, init, log);
    HistoryIsTrue(cfg, init, log);
    RunKeeps(cfg, init, log, Play(cfg, init, log).value);
  }

  // ----- resuming is safe -----

  /** The version a reader of the file finds at the version path. */
  function VersionIn(cfg: Config, file: Yaml): Option<Yaml> { Lookup(file, Place(cfg)) }

  /** A rollback resumes Flux only when the restored volumes and the revert are persisted; unless somebody
      else commits, the file then holds the previous version, and differs from the original nowhere else. */
  lemma RollbackResumeIsSafe(cfg: Config, init: State, log: seq<Event>, i: nat)
    requires i < |log| && IsRun(cfg, init, log) && log[i] == Did(Rollbacker, ResumeFlux)
    ensures var s := At(cfg, init, log, i);
            && s.rb.volumes && s.rb.reverted && Previous(s.up).Some? && HasText(Previous(s.up).value)
            && var text := TextOf(Previous(s.up).value);
               !OthersCommitted(log[..i]) ==>
                 && UpdateVersion(init.world.file, Place(cfg), text) == Ok(s.world.file)
                 && VersionIn(cfg, s.world.file) == Some(Scalar(text))
  {
    hide Play, At, Apply, Accepted, NextToRestore, NamesOf, RevertVersion, UpdateVersion, Lookup, OthersCommitted,
         OthersDeletedSnapshots, Order, Exclusive, Commits, Mirror, Hold, Snaps, Names, Volumes, Progress, RolledOut, Timers;
    StepAt(cfg, init, log, i);
    KeptAt(cfg, init, log, i);
    HistoryAt(cfg, init, log, i);
    var s := At(cfg, init, log, i);
    VersionsAreTexts(cfg, s.world.app, s.up);
    PathIsPlace(cfg);
    if !s.hist.otherFile { UpdateThenLookup(s.hist.file, cfg.Path(), RevertVersion(s.up).value); }
  }

  /** A rollback that fails before its revert is persisted has not resumed Flux, and never will. */
  lemma FailedRollbackNeverResumes(cfg: Config, init: State, log: seq<Event>, i: nat, j: nat)
    requires i <= |log| && j < |log| && IsRun(cfg, init, log)
    requires At(cfg, init, log, i).rb.complete == IsFalse && !At(cfg, init, log, i).rb.reverted
    ensures log[j] != Did(Rollbacker, ResumeFlux)
  {
    hide Play, At, Apply, Accepted, NextToRestore, NamesOf, RevertVersion, UpdateVersion, Kept;
    if log[j] == Did(Rollbacker, ResumeFlux) {
      StepAt(cfg, init, log, j);
      if i <= j { RollbackNeverReverts(cfg, init, log, i, j); } else { RollbackNeverReverts(cfg, init, log, j, i); }
    }
  }

  /** Unless somebody else commits, whenever a live upgrade resumes Flux the file is the original or the
      original with a version of the upgrade's put in: after a recorded commit the target version; before
      one, the version of the last commit that went unrecorded, and the original if none did. */
  lemma UpgradeResumeIsSafe(cfg: Config, init: State, log: seq<Event>, i: nat)
    requires i < |log| && IsRun(cfg, init, log) && log[i] == Did(Upgrader, ResumeFlux) && !cfg.dryRun
    requires !OthersCommitted(log[..i])
    ensures var s := At(cfg, init, log, i);
            if s.up.committed then
              && s.up.upgrade.Some? && HasText(s.up.upgrade.value.next)
              && var target := TextOf(s.up.upgrade.value.next);
                 && UpdateVersion(init.world.file, Place(cfg), target) == Ok(s.world.file)
                 && VersionIn(cfg, s.world.file) == Some(Scalar(target))
            else if UnrecordedIn(log[..i]) == 0 then s.world.file == init.world.file
            else LastCommit(log[..i], Upgrader).Some?
                 && UpdateVersion(init.world.file, Place(cfg), LastCommit(log[..i], Upgrader).value) == Ok(s.world.file)
  {
    hide Play, At, Apply, Accepted, UpdateVersion, Lookup, Prepared, CommitVersion, VersionString, OthersDeletedSnapshots,
         Order, Mirror, Hold, Snaps, Names, Volumes, Progress, RolledOut, Timers, CommitsIn, UnrecordedIn, MissesIn, Pending, Lost, Troubled, LastCommit, LastFlux,
         Running, OthersCommitted;
    StepAt(cfg, init, log, i);
    KeptAt(cfg, init, log, i);
    HistoryAt(cfg, init, log, i);
    RememberedAt(cfg, init, log, i);
    var s := At(cfg, init, log, i);
    VersionsAreTexts(cfg, s.world.app, s.up);
    PathIsPlace(cfg);
    if s.up.committed { UpdateThenLookup(s.hist.file, cfg.Path(), VersionString(s.up.upgrade.value.next).value); }
  }

  // ----- upgrade, then roll back -----

  /** Unless somebody else commits, a rollback that has completed leaves exactly the original file, if and
      only if the version recorded as previous is the text the file held at the version path. */
  lemma RollbackRestoresTheFile(cfg: Config, init: State, log: seq<Event>)
    requires IsRun(cfg, init, log)
    requires Play(cfg, init, log).value.rb.complete == IsTrue && !OthersCommitted(log)
    ensures var s := Play(cfg, init, log).value;
            && Previous(s.up).Some? && HasText(Previous(s.up).value)
            && (s.world.file == init.world.file
                <==> VersionIn(cfg, init.world.file) == Some(Scalar(TextOf(Previous(s.up).value))))
  {
    hide Play, RevertVersion, UpdateVersion, Lookup, Exclusive, Commits, Mirror, Hold, Snaps, Names, Volumes, Progress,
         RolledOut, Timers, OthersCommitted, OthersDeletedSnapshots;
    var s := Play(cfg, init, log).value;
    RunKeeps(cfg, init, log, s);
    HistoryIsTrue(cfg, init, log);
    VersionsAreTexts(cfg, s.world.app, s.up);
    PathIsPlace(cfg);
    UpdateIsIdentity(s.hist.file, cfg.Path(), RevertVersion(s.up).value);
  }

  /** Unless somebody else commits, whatever the two controllers do, nothing but the version changes: any
      path that parts from the version path finds what it always found. */
  lemma NothingElseInTheFile(cfg: Config, init: State, log: seq<Event>, other: YamlTree.Path)
    requires IsRun(cfg, init, log) && !OthersCommitted(log) && DivergeByPlace(Place(cfg), other)
    ensures Lookup(Play(cfg, init, log).value.world.file, other) == Lookup(init.world.file, other)
  {
    hide Play, UpdateVersion, Lookup, Order, Exclusive, Commits, Mirror, Hold, Snaps, Names, Volumes, Progress, RolledOut,
         Timers, DivergeByPlace, OthersCommitted, OthersDeletedSnapshots;
    var s := Play(cfg, init, log).value;
    RunKeeps(cfg, init, log, s);
    HistoryIsTrue(cfg, init, log);
    PathIsPlace(cfg);
    if s.hist.rb.version.Some? {
      UpdateFrame(s.hist.file, cfg.Path(), s.hist.rb.version.value, other);
    } else if s.hist.up.version.Some? {
      UpdateFrame(s.hist.file, cfg.Path(), s.hist.up.version.value, other);
    }
  }

  // ----- restored volumes -----

  /** However often the restore is interrupted, and whoever deletes snapshots or PVCs: the record of restored
      PVCs is a prefix of the upgrade's snapshot list, in order, each PVC once and with the snapshot first
      listed for it. A list that was found, or configured without repetition, has no PVC twice. */
  lemma RestoredIsAPrefix(cfg: Config, init: State, log: seq<Event>, i: nat)
    requires i <= |log| && IsRun(cfg, init, log)
    ensures var s := At(cfg, init, log, i);
            && IsPrefix(s.rb.restored, Firsts(s.up.snapshots)) && DistinctPvcs(Firsts(s.up.snapshots))
            && (cfg.explicitPvcs == [] || Distinct(cfg.explicitPvcs) ==> Firsts(s.up.snapshots) == s.up.snapshots)
  {
    hide Play, At, Order, Exclusive, Files, Commits, Mirror, Hold, Names, Progress, RolledOut, Timers, IsPrefix, Firsts,
         DistinctPvcs;
    KeptAt(cfg, init, log, i);
    var refs := At(cfg, init, log, i).up.snapshots;
    FirstsAreDistinct(refs);
    if refs != [] && (cfg.explicitPvcs == [] || Distinct(cfg.explicitPvcs)) { DistinctAreFirsts(refs); }
    if refs == [] { DistinctAreFirsts(refs); }
  }

  /** A PVC once on record as recreated is never deleted or created by the rollback again. */
  lemma RestoredIsLeftAlone(cfg: Config, init: State, log: seq<Event>, i: nat, j: nat, pvc: string)
    requires i <= j < |log| && IsRun(cfg, init, log)
    requires pvc in NamesOf(At(cfg, init, log, i).rb.restored)
    ensures !Replaces(log[j], pvc)
  {
    hide Play, At, Apply, Accepted, RevertVersion, UpdateVersion, RbPrepared;
    StepAt(cfg, init, log, j);
    RollbackNeverReverts(cfg, init, log, i, j);
    var was, now := At(cfg, init, log, i).rb.restored, At(cfg, init, log, j).rb.restored;
    var r :| r in was && r.ref.pvc == pvc;
    var k :| 0 <= k < |was| && was[k] == r;
    assert now[k] in now && now[k].ref.pvc == pvc;
  }

  /** The rollback created the PVC from this snapshot, and has neither deleted nor created it since. */
  predicate CreatedSince(log: seq<Event>, ref: SnapRef, i: nat)
    requires i <= |log|
  {
    exists c | 0 <= c < i :: log[c] == Did(Rollbacker, CreatePvc(ref)) && forall k | c < k < i :: !Replaces(log[k], ref.pvc)
  }

  lemma MadeByStep(cfg: Config, s: State, e: Event, ref: SnapRef)
    requires Apply(cfg, s, e).rbPass.work.made == Some(ref)
    ensures e == Did(Rollbacker, CreatePvc(ref)) || (s.rbPass.work.made == Some(ref) && !Replaces(e, ref.pvc))
  {
    hide WorldAfter, UpHistoryAfter, RbHistoryAfter, TouchedAfter, FluxAfterCall, FluxAfterSight, SightsAfter, Hoped, RankOf,
         SnapshotName;
  }

  lemma {:induction false} MadeWasCreated(cfg: Config, init: State, log: seq<Event>, ref: SnapRef, i: nat)
    requires i <= |log| && IsRun(cfg, init, log) && At(cfg, init, log, i).rbPass.work.made == Some(ref)
    ensures CreatedSince(log, ref, i)
  {
    hide Play, Apply, Enabled, At;
    if i == 0 {
      FirstEmpty(cfg, init, log);
    } else {
      StepAt(cfg, init, log, i - 1);
      MadeByStep(cfg, At(cfg, init, log, i - 1), log[i - 1], ref);
      if log[i - 1] != Did(Rollbacker, CreatePvc(ref)) { MadeWasCreated(cfg, init, log, ref, i - 1); }
    }
  }

  lemma RecordedByWrite(cfg: Config, was: RbStatus, next: RbStatus, p: Pass, r: RestoredPvc)
    requires RollbackWrite(cfg, was, next, p) && r in next.restored
    ensures (exists q | q in was.restored :: q.ref == r.ref) || p.work.made == Some(r.ref)
  {
    hide RollbackWrite, RbVolumeWrite;
    var k :| 0 <= k < |next.restored| && next.restored[k] == r;
    if RbVolumeWrite(was, next, p) { AppendedByWrite(was, next, p); } else { RbWriteKinds(cfg, was, next, p); }
    if k < |was.restored| { assert was.restored[k] in was.restored && was.restored[k].ref == r.ref; }
  }

  lemma AppendedByWrite(was: RbStatus, next: RbStatus, p: Pass)
    requires RbVolumeWrite(was, next, p)
    ensures |was.restored| <= |next.restored| <= |was.restored| + 1
    ensures forall i | 0 <= i < |was.restored| :: next.restored[i].ref == was.restored[i].ref
    ensures |next.restored| > |was.restored| ==> p.work.made == Some(next.restored[|was.restored|].ref)
  {
    hide NextToRestore, NamesOf, StartedTimer;
  }

  /** A PVC comes on record only as the one the pass has created last. */
  lemma RecordedByStep(cfg: Config, s: State, e: Event, r: RestoredPvc)
    requires Enabled(cfg, s, e) && r in Apply(cfg, s, e).rb.restored
    ensures (exists q | q in s.rb.restored :: q.ref == r.ref) || (e.WriteRollback? && s.rbPass.work.made == Some(r.ref))
  {
    hide PassAfter, WorldAfter, UpHistoryAfter, RbHistoryAfter, TouchedAfter, UpgradeWrite, RollbackWrite, MayCall, Accepted,
         EndOk, IsTrueSight, Benign;
    if e.WriteRollback? { RecordedByWrite(cfg, s.rb, e.rb, s.rbPass, r); }
  }

  /** Every PVC on record was created by the rollback from its own snapshot, and neither deleted nor created
      by it since. */
  lemma {:induction false} RecordedWasCreated(cfg: Config, init: State, log: seq<Event>, r: RestoredPvc, i: nat)
    requires i <= |log| && IsRun(cfg, init, log) && r in At(cfg, init, log, i).rb.restored
    ensures CreatedSince(log, r.ref, i)
    decreases i
  {
    hide Play, Apply, Enabled, At, Replaces;
    if i == 0 {
      FirstEmpty(cfg, init, log);
    } else {
      var s := At(cfg, init, log, i - 1);
      StepAt(cfg, init, log, i - 1);
      RecordedByStep(cfg, s, log[i - 1], r);
      if q :| q in s.rb.restored && q.ref == r.ref {
        RecordedWasCreated(cfg, init, log, q, i - 1);
        assert q.ref.pvc in NamesOf(s.rb.restored);
        RestoredIsLeftAlone(cfg, init, log, i - 1, i - 1, r.ref.pvc);
      } else {
        MadeWasCreated(cfg, init, log, r.ref, i - 1);
        WriteReplacesNothing(log[i - 1], r.ref.pvc);
      }
    }
  }

  lemma WriteReplacesNothing(e: Event, pvc: string)
    requires e.WriteRollback?
    ensures !Replaces(e, pvc)
  {
  }

  /** The rollback created the PVC from this snapshot, then saw it bound, and has not replaced it since. */
  predicate CreatedThenBound(log: seq<Event>, ref: SnapRef, i: nat)
    requires i <= |log|
  {
    exists c, b | 0 <= c < b < i ::
      && log[c] == Did(Rollbacker, CreatePvc(ref)) && log[b] == Saw(Rollbacker, SawBound(ref.pvc, true))
      && forall k | c < k < i :: !Replaces(log[k], ref.pvc)
  }

  lemma CreationBeforeBinding(log: seq<Event>, ref: SnapRef, i: nat)
    requires i <= |log| && CreatedSince(log, ref, i) && BoundSince(log, ref.pvc, i)
    ensures CreatedThenBound(log, ref, i)
  {
    var c :| 0 <= c < i && log[c] == Did(Rollbacker, CreatePvc(ref)) && forall k | c < k < i :: !Replaces(log[k], ref.pvc);
    var b :| 0 <= b < i && log[b] == Saw(Rollbacker, SawBound(ref.pvc, true)) && forall k | b < k < i :: !Replaces(log[k], ref.pvc);
    assert Replaces(log[c], ref.pvc);
    assert c < b;
  }

  /** Somebody else has touched the PVC since the rollback last created it. */
  predicate TouchedSince(cfg: Config, init: State, log: seq<Event>, pvc: string, i: nat)
    requires i <= |log| && IsRun(cfg, init, log)
  {
    exists t | 0 <= t < i ::
      && log[t].EnvPvcs? && pvc in Changed(At(cfg, init, log, t).world.pvcs, log[t].pvcs)
      && forall k | t < k < i :: !(log[k].Did? && log[k].who == Rollbacker && log[k].call.CreatePvc? && log[k].call.ref.pvc == pvc)
  }

  lemma TouchedByStep(cfg: Config, s: State, e: Event, pvc: string)
    requires pvc in Apply(cfg, s, e).hist.touched
    ensures || (e.EnvPvcs? && pvc in Changed(s.world.pvcs, e.pvcs))
            || (pvc in s.hist.touched
                && !(e.Did? && e.who == Rollbacker && e.call.CreatePvc? && e.call.ref.pvc == pvc))
  {
    hide PassAfter, WorldAfter, UpHistoryAfter, RbHistoryAfter;
  }

  lemma {:induction false} TouchedMeans(cfg: Config, init: State, log: seq<Event>, pvc: string, i: nat)
    requires i <= |log| && IsRun(cfg, init, log) && pvc in At(cfg, init, log, i).hist.touched
    ensures TouchedSince(cfg, init, log, pvc, i)
  {
    hide Play, Apply, Enabled, At, Changed;
    if i == 0 {
      FirstEmpty(cfg, init, log);
    } else {
      StepAt(cfg, init, log, i - 1);
      TouchedByStep(cfg, At(cfg, init, log, i - 1), log[i - 1], pvc);
      if pvc in At(cfg, init, log, i - 1).hist.touched { TouchedMeans(cfg, init, log, pvc, i - 1); }
    }
  }

  /** Unless snapshots are skipped, when the volumes are persisted as restored every listed PVC is on record; it was created from its own
      snapshot, then seen bound, and not replaced since; and it is still that PVC, unless somebody else has
      touched it since. */
  lemma AllVolumesRestored(cfg: Config, init: State, log: seq<Event>, i: nat, ref: SnapRef)
    requires i <= |log| && IsRun(cfg, init, log)
    requires var s := At(cfg, init, log, i);
             s.rb.volumes && !cfg.skipSnapshot && ref in Firsts(s.up.snapshots)
    ensures var s := At(cfg, init, log, i);
            && |s.rb.restored| == |Firsts(s.up.snapshots)| && RestoredPvc(ref, Restored) in s.rb.restored
            && CreatedThenBound(log, ref, i)
            && (!TouchedSince(cfg, init, log, ref.pvc, i) ==> Recreated(s.world, ref))
  {
    hide Play, At, Order, Exclusive, Files, Commits, Mirror, Hold, Snaps, Names, Progress, RolledOut, Timers, Firsts,
         Recreated, BoundSince, CreatedSince, CreatedThenBound, TouchedSince;
    KeptAt(cfg, init, log, i);
    var s := At(cfg, init, log, i);
    FirstsAreDistinct(s.up.snapshots);
    var k :| 0 <= k < |Firsts(s.up.snapshots)| && Firsts(s.up.snapshots)[k] == ref;
    var r := s.rb.restored[k];
    assert r in s.rb.restored && r == RestoredPvc(ref, Restored);
    RecordedWasCreated(cfg, init, log, r, i);
    BoundWasSeen(cfg, init, log, ref.pvc, i);
    CreationBeforeBinding(log, ref, i);
    if ref.pvc in s.hist.touched { TouchedMeans(cfg, init, log, ref.pvc, i); }
  }

  /** And every PVC of the snapshot list is among those. */
  lemma NoPvcIsForgotten(refs: seq<SnapRef>, r: SnapRef)
    requires r in refs
    ensures exists f | f in Firsts(refs) :: f.pvc == r.pvc
  {
    FirstsAreDistinct(refs);
    assert r.pvc in PvcsOf(Firsts(refs));
    var k :| 0 <= k < |PvcsOf(Firsts(refs))| && PvcsOf(Firsts(refs))[k] == r.pvc;
    assert Firsts(refs)[k] in Firsts(refs);
  }

  // ----- snapshots cover the volumes -----

  /** With snapshots on and an explicit PVC list, a committed upgrade has on record one snapshot per listed
      PVC, in order, each created after the workloads were persisted as stopped, each seen ready. No two
      share a name, unless the list names a PVC twice and somebody else deletes snapshots. */
  lemma SnapshotsCoverTheList(cfg: Config, init: State, log: seq<Event>, i: nat)
    requires i <= |log| && IsRun(cfg, init, log)
    requires !cfg.skipSnapshot && cfg.snapshotsOn && cfg.explicitPvcs != [] && At(cfg, init, log, i).up.committed
    ensures var s := At(cfg, init, log, i);
            && PvcsOf(s.up.snapshots) == cfg.explicitPvcs
            && (forall r | r in s.up.snapshots ::
                  Taken(cfg, init, log, SnapFact(r, true), i) && Saw(Upgrader, SawReady(r.snap, true)) in log[..i])
            && (Distinct(cfg.explicitPvcs) || !OthersDeletedSnapshots(log[..i]) ==> DistinctSnaps(s.up.snapshots))
  {
    hide Play, At, Exclusive, Files, Commits, Mirror, Hold, Volumes, Progress, RolledOut, Timers, DistinctSnaps,
         RollbackOrder, Taken, OneTimestamp, OthersDeletedSnapshots, OthersCommitted, Distinct;
    KeptAt(cfg, init, log, i);
    HistoryAt(cfg, init, log, i);
    var s := At(cfg, init, log, i);
    if Distinct(cfg.explicitPvcs) { OneTimestampDistinct(cfg, s.up.snapshots); }
    forall r | r in s.up.snapshots
      ensures Taken(cfg, init, log, SnapFact(r, true), i) && Saw(Upgrader, SawReady(r.snap, true)) in log[..i]
    {
      SnapshotsWereTaken(cfg, init, log, SnapFact(r, true), i);
      ReadyWasSeen(cfg, init, log, r.snap, i);
    }
  }

  // ----- suspension -----

  /** No silent suspension: between the passes of a live upgrade of which no status write failed and no pass
      died, the Suspended condition says exactly what its last Flux call was. */
  lemma ConditionMirrorsFlux(cfg: Config, init: State, log: seq<Event>)
    requires IsRun(cfg, init, log) && !cfg.dryRun && !Running(log, Upgrader) && !Lost(log, Upgrader)
    ensures LastFlux(log) == match Play(cfg, init, log).value.up.suspended
                             case Absent => NoCall
                             case IsTrue => Suspended
                             case IsFalse => Resumed
  {
    hide Play, Order, Exclusive, Files, Commits, Hold, Snaps, Names, Volumes, Progress, RolledOut, Timers, CommitsIn,
         UnrecordedIn, MissesIn, Pending, Lost, Troubled, LastCommit, LastFlux, Running;
    RunIsRemembered(cfg, init, log);
    RunKeeps(cfg, init, log, Play(cfg, init, log).value);
  }

  /** Once Suspended=False is persisted, the upgrade's last Flux call was a resume, even if status writes
      were lost, and it never suspends again. */
  lemma ResumedStaysResumed(cfg: Config, init: State, log: seq<Event>, i: nat)
    requires i <= |log| && IsRun(cfg, init, log) && !cfg.dryRun
    requires At(cfg, init, log, i).up.suspended == IsFalse
    ensures LastFlux(log[..i]) == Resumed
    ensures forall j | i <= j < |log| :: log[j] != Did(Upgrader, SuspendFlux)
  {
    hide Play, At, Apply, Order, Exclusive, Files, Commits, Hold, Snaps, Names, Volumes, Progress, RolledOut, Timers, Prepared,
         CommitsIn, UnrecordedIn, MissesIn, Pending, Lost, Troubled, LastCommit, LastFlux, Running;
    RememberedAt(cfg, init, log, i);
    KeptAt(cfg, init, log, i);
    forall j | i <= j < |log| ensures log[j] != Did(Upgrader, SuspendFlux) {
      StepAt(cfg, init, log, j);
      UpgradeNeverReverts(cfg, init, log, i, j);
    }
  }

  /** A request that ended without a commit, of which no call failed and no pass died, does not hold the
      target suspended: this covers every end of a dry run. */
  lemma NothingHeldAfterAbort(cfg: Config, init: State, log: seq<Event>)
    requires IsRun(cfg, init, log) && !Troubled(log, Upgrader)
    requires var up := Play(cfg, init, log).value.up; up.complete != Absent && !up.committed
    ensures Play(cfg, init, log).value.world.flux != HeldBy(Upgrader)
  {
    hide Play, Order, Exclusive, Files, Commits, Mirror, Snaps, Names, Volumes, Progress, RolledOut, Timers, CommitsIn,
         UnrecordedIn, MissesIn, Pending, Lost, Troubled, LastCommit, LastFlux, Running;
    RunIsRemembered(cfg, init, log);
    RunKeeps(cfg, init, log, Play(cfg, init, log).value);
  }

  /** And a dry run never commits at all, nor records an upgrade. */
  lemma DryRunNeverCommits(cfg: Config, init: State, log: seq<Event>)
    requires IsRun(cfg, init, log) && cfg.dryRun
    ensures CommitsIn(log) == 0
    ensures var s := Play(cfg, init, log).value; !s.up.committed && s.up.upgrade == None && s.up.snapshots == []
    ensures forall i | 0 <= i < |log| && log[i].Did? && log[i].who == Upgrader ::
              log[i].call.SuspendFlux? || log[i].call.ResumeFlux? || log[i].call.Scale?
    ensures forall i | 0 <= i < |log| && log[i].Did? :: log[i].who == Upgrader
  {
    hide Play, Apply, Files, Commits, Mirror, Hold, Snaps, Names, Volumes, Progress, RolledOut, Timers, Prepared,
         RollbackCall, CommitsIn, At;
    RunKeeps(cfg, init, log, Play(cfg, init, log).value);
    forall i | 0 <= i < |log| && log[i].Did?
      ensures log[i].who == Upgrader && (log[i].call.SuspendFlux? || log[i].call.ResumeFlux? || log[i].call.Scale?)
    {
      StepAt(cfg, init, log, i);
      if log[i].who == Rollbacker {
        KeptAt(cfg, init, log, i);
        NothingToRollBack(cfg, At(cfg, init, log, i), log[i].call);
      }
    }
    NoCommits(log);
  }

  lemma NothingToRollBack(cfg: Config, s: State, call: Call)
    requires Kept(cfg, s) && cfg.dryRun
    ensures !RollbackCall(cfg, s.rb, s.rbPass, call)
  {
    hide Files, Commits, Mirror, Hold, Snaps, Names, Volumes, Progress, RolledOut, Timers, NamesOf, NextToRestore,
         GetVersion, AllReady, RollbackOrder;
  }

  lemma {:induction false} NoCommits(log: seq<Event>)
    requires forall i | 0 <= i < |log| && log[i].Did? && log[i].who == Upgrader :: !log[i].call.Commit?
    ensures CommitsIn(log) == 0
  {
    if log != [] { NoCommits(log[..|log| - 1]); }
  }

  // ----- automatic rollback -----

  /** A committed upgrade that failed has created a rollback if it was asked to, unless a call failed. */
  lemma FailureLeadsToRollback(cfg: Config, init: State, log: seq<Event>)
    requires IsRun(cfg, init, log) && cfg.autoRollback && !Troubled(log, Upgrader)
    requires var up := Play(cfg, init, log).value.up; up.complete == IsFalse && up.committed
    ensures Play(cfg, init, log).value.world.rollbacks > 0
  {
    hide Play, Order, Exclusive, Files, Commits, Mirror, Hold, Snaps, Names, Volumes, Progress, Timers, CommitsIn,
         UnrecordedIn, MissesIn, Pending, Lost, Troubled, LastCommit, LastFlux, Running;
    RunIsRemembered(cfg, init, log);
    RunKeeps(cfg, init, log, Play(cfg, init, log).value);
  }
}
