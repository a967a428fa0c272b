/** Runs in which something happens that one might not expect. */
module Witnesses {
  import opened Wrappers
  import opened YamlTree
  import opened Protocol
  import opened Invariants
  import opened Runs
  import opened Theorems
  import opened ProgressTheorems
  import opened PhaseTimers
  import opened UpgradeSteps
  import VersionPath

  // ----- a small cluster -----

  /** Snapshots off, and no workloads to stop. */
  const CFG := Config("app", false, true, false, [], None, "v", false, 300)
  const V1 := VersionInfo("1", [])
  const V2 := VersionInfo("2", [])
  const FILE1 := Mapping(map["v" := Scalar("1")])
  const FILE2 := Mapping(map["v" := Scalar("2")])
  const OFFERED := AppStatus(Some(V1), Some(V2))
  const WITHDRAWN := AppStatus(Some(V1), None)
  const WORLD := World(Running, FILE1, map[], map[], map[], map[], OFFERED, 0, false, false, 0)
  const START := State(NEW_UPGRADE, false, NO_PASS, NEW_ROLLBACK, false, NO_PASS, WORLD, NewHistory(FILE1))

  lemma TheFile()
    ensures CFG.Path() == ["v"]
    ensures Readable(CFG, FILE1) && Edit(CFG, FILE1, "2") == Ok(FILE2) && Edit(CFG, FILE2, "2") == Ok(FILE2)
  {
    assert "v"[1..] == "";
    assert "" + ["v"[0]] == "v";
    assert VersionPath.Segments("v", "") == VersionPath.Segments("", "v");
    assert CFG.Path() == ["v"];
    assert !IsDigit("v"[0]);
    assert ["v"][1..] == [];
    assert FILE1.fields["v" := Scalar("2")] == FILE2.fields;
    assert FILE2.fields["v" := Scalar("2")] == FILE2.fields;
  }

  // ----- single steps of the upgrade controller -----

  predicate Reaches(log: seq<Event>, s: State) { Play(CFG, START, log) == Some(s) }

  lemma FirstState()
    ensures Reaches([], START) && CommitsIn([]) == 0
  {
  }

  lemma Take(log: seq<Event>, s: State, e: Event) returns (more: seq<Event>, t: State)
    requires Reaches(log, s) && Enabled(CFG, s, e)
    ensures more == log + [e] && t == Apply(CFG, s, e) && Reaches(more, t)
    ensures CommitsIn(more) == CommitsIn(log) + One(e.Did? && e.who == Upgrader && e.call.Commit?)
  {
    hide Enabled, Apply, CommitsIn;
    more, t := log + [e], Apply(CFG, s, e);
    PlayOne(CFG, START, log, s, e);
    CountsGrow(log, e);
  }

  /** Nothing but the pass has changed. */
  predicate SameButPass(s: State, t: State) { t.up == s.up && t.upFinalizer == s.upFinalizer && t.world == s.world }

  lemma Starts(log: seq<Event>, s: State) returns (more: seq<Event>, t: State)
    requires Reaches(log, s)
    ensures more == log + [Begin(Upgrader)] && CommitsIn(more) == CommitsIn(log) && Reaches(more, t) && SameButPass(s, t)
    ensures t.upPass == NO_PASS.(active := true, since := s.world.now, rank := UpRank(s.upFinalizer, s.up))
  {
    hide Reaches, CommitsIn, UpHistoryAfter, RbHistoryAfter, TouchedAfter;
    more, t := Take(log, s, Begin(Upgrader));
  }

  lemma Sees(log: seq<Event>, s: State, sight: Sight) returns (more: seq<Event>, t: State)
    requires Reaches(log, s) && s.upPass.active && IsTrueSight(CFG, s, Upgrader, sight)
    ensures more == log + [Saw(Upgrader, sight)] && CommitsIn(more) == CommitsIn(log) && Reaches(more, t) && SameButPass(s, t)
    ensures t.upPass == NoteSight(CFG, s.upPass, Upgrader, sight)
  {
    hide Reaches, CommitsIn, UpHistoryAfter, RbHistoryAfter, TouchedAfter, NoteSight, IsTrueSight;
    more, t := Take(log, s, Saw(Upgrader, sight));
  }

  lemma Calls(log: seq<Event>, s: State, call: Call) returns (more: seq<Event>, t: State)
    requires Reaches(log, s) && UpgradeCall(CFG, s.up, s.upPass, call) && Accepted(CFG, s.world, call)
    ensures more == log + [Did(Upgrader, call)] && CommitsIn(more) == CommitsIn(log) + One(call.Commit?)
    ensures Reaches(more, t) && t.up == s.up && t.upFinalizer == s.upFinalizer
    ensures t.world == Effect(CFG, s.world, Upgrader, call) && t.upPass == NoteCall(CFG, s.upPass, call)
  {
    hide Reaches, CommitsIn, UpHistoryAfter, RbHistoryAfter, TouchedAfter, NoteCall, UpgradeCall, RollbackCall, Accepted, Effect;
    more, t := Take(log, s, Did(Upgrader, call));
  }

  lemma Saves(log: seq<Event>, s: State, up: UpStatus) returns (more: seq<Event>, t: State)
    requires Reaches(log, s) && UpgradeWrite(CFG, s.up, up, s.upPass)
    ensures more == log + [WriteUpgrade(up)] && CommitsIn(more) == CommitsIn(log) && Reaches(more, t)
    ensures t.up == up && t.upFinalizer == s.upFinalizer && t.world == s.world && t.upPass == s.upPass
  {
    hide Reaches, CommitsIn, UpHistoryAfter, RbHistoryAfter, TouchedAfter, UpgradeWrite;
    more, t := Take(log, s, WriteUpgrade(up));
  }

  lemma LosesASave(log: seq<Event>, s: State) returns (more: seq<Event>, t: State)
    requires Reaches(log, s) && s.upPass.active
    ensures more == log + [LoseWrite(Upgrader)] && CommitsIn(more) == CommitsIn(log) && Reaches(more, t) && SameButPass(s, t)
    ensures t.upPass == s.upPass.(trouble := true, lost := true)
  {
    hide Reaches, CommitsIn, UpHistoryAfter, RbHistoryAfter, TouchedAfter;
    more, t := Take(log, s, LoseWrite(Upgrader));
  }

  lemma Finalizes(log: seq<Event>, s: State) returns (more: seq<Event>, t: State)
    requires Reaches(log, s) && s.upPass.active
    ensures more == log + [SetFinalizer(Upgrader, true)] && CommitsIn(more) == CommitsIn(log) && Reaches(more, t)
    ensures t.up == s.up && t.upFinalizer && t.world == s.world && t.upPass == s.upPass
  {
    hide Reaches, CommitsIn, UpHistoryAfter, RbHistoryAfter, TouchedAfter;
    more, t := Take(log, s, SetFinalizer(Upgrader, true));
  }

  lemma Stops(log: seq<Event>, s: State, outcome: Outcome) returns (more: seq<Event>, t: State)
    requires Reaches(log, s) && EndOk(CFG, s, Upgrader, outcome)
    ensures more == log + [End(Upgrader, outcome)] && CommitsIn(more) == CommitsIn(log) && Reaches(more, t) && SameButPass(s, t)
    ensures t.upPass == s.upPass.(active := false)
  {
    hide Reaches, CommitsIn, UpHistoryAfter, RbHistoryAfter, TouchedAfter, EndOk;
    more, t := Take(log, s, End(Upgrader, outcome));
  }

  /** The app's status changes, and time passes. */
  lemma Meanwhile(log: seq<Event>, s: State, app: AppStatus, now: nat) returns (more: seq<Event>, t: State)
    requires Reaches(log, s) && s.world.now <= now
    ensures more == log + [EnvWorld(t.world)] && CommitsIn(more) == CommitsIn(log) && Reaches(more, t) && t.world == s.world.(app := app, now := now)
    ensures t.up == s.up && t.upFinalizer == s.upFinalizer && t.upPass == s.upPass
  {
    hide Reaches, CommitsIn, UpHistoryAfter, RbHistoryAfter, TouchedAfter;
    more, t := Take(log, s, EnvWorld(s.world.(app := app, now := now)));
  }

  // ----- the passes up to the commit -----

  const SUSPENDED := NEW_UPGRADE.(suspended := IsTrue, snapReady := true)
  const STOPPED := SUSPENDED.(stopped := true, phaseStart := Some(0))
  const COMMITTED := STOPPED.(committed := true, upgrade := Some(UpgradeRecord(Some(V1), V2)))
  const TIMED_OUT := COMMITTED.(suspended := IsFalse, complete := IsFalse)
  const HELD := WORLD.(flux := HeldBy(Upgrader))

  lemma FinalizerPass() returns (log: seq<Event>, t: State)
    ensures Reaches(log, t) && CommitsIn(log) == 0 && t.up == NEW_UPGRADE && t.upFinalizer && t.world == WORLD
  {
    hide Reaches, CommitsIn;
    FirstState();
    log, t := Starts([], START);
    log, t := Finalizes(log, t);
    log, t := Stops(log, t, Requeue);
  }

  lemma Prepares() returns (log: seq<Event>, t: State)
    ensures Reaches(log, t) && CommitsIn(log) == 0 && t.up == NEW_UPGRADE && t.upFinalizer && t.world == WORLD
    ensures var p := t.upPass;
            && p.active && p.rank == 1 && Prepared(CFG, p) && !p.trouble && p.work == NO_PASS.work
            && p.flux == NO_PASS.flux && p.stamp == None
  {
    hide Reaches, CommitsIn, Readable, Edit;
    TheFile();
    log, t := FinalizerPass();
    log, t := Starts(log, t);
    log, t := Sees(log, t, SawApp(OFFERED));
    log, t := Sees(log, t, SawFile(FILE1));
    log, t := Sees(log, t, SawFit(SuspendTarget));
  }

  lemma SuspendPass() returns (log: seq<Event>, t: State)
    ensures Reaches(log, t) && CommitsIn(log) == 0 && t.up == SUSPENDED && t.upFinalizer && t.world == HELD
  {
    hide Reaches, CommitsIn, Prepared;
    log, t := Prepares();
    log, t := Calls(log, t, SuspendFlux);
    log, t := Saves(log, t, SUSPENDED);
    log, t := Stops(log, t, Requeue);
  }

  /** The next pass skips the stop phase, its timer started, and goes on. */
  lemma StopSkipped() returns (before: seq<Event>, s: State, log: seq<Event>, t: State)
    ensures Reaches(before, s) && s.up == SUSPENDED && log == before + [WriteUpgrade(STOPPED)]
    ensures Reaches(log, t) && CommitsIn(log) == 0 && t.up == STOPPED && t.upFinalizer && t.world == HELD
    ensures t.upPass == NO_PASS.(active := true, rank := 3, stamp := Some(0))
  {
    hide Reaches, CommitsIn;
    before, s := SuspendPass();
    before, s := Starts(before, s);
    before, s := Sees(before, s, SawClock(0));
    log, t := Saves(before, s, STOPPED);
  }

  // ----- the target withdrawn -----

  /** If the update on offer is withdrawn after the upgrade has begun, its commit phase dies for want of a
      target version. */
  lemma TargetCanBeWithdrawn() returns (log: seq<Event>, t: State)
    ensures IsRun(CFG, START, log) && Play(CFG, START, log) == Some(t)
    ensures t.upPass.active && TargetGone(CFG, t.upPass) && InCommit(CFG, t.up)
  {
    hide Play;
    var before, s;
    before, s, log, t := StopSkipped();
    log, t := Meanwhile(log, t, WITHDRAWN, 0);
    log, t := Sees(log, t, SawApp(WITHDRAWN));
    log, t := Sees(log, t, SawSuspended(true));
  }

  // ----- two commits -----

  /** What a pass in the commit phase has to know. */
  predicate Ready(p: Pass, file: Yaml) {
    && p.active && p.rank <= 4 && !p.trouble && !p.lost && p.work.committed == None
    && p.flux.last == NoCall && p.flux.verified && p.seen.app == Some(OFFERED) && p.seen.file == Some(file)
  }

  predicate HasCommitted(p: Pass) {
    && p.active && p.rank <= 4 && !p.trouble && !p.lost && p.work.committed == Some("2")
    && p.flux.last == NoCall && p.seen.app == Some(OFFERED)
  }

  lemma GetsReady(log: seq<Event>, s: State) returns (more: seq<Event>, t: State)
    requires Reaches(log, s) && s.upPass.active && s.upPass.rank <= 4 && !s.upPass.trouble && !s.upPass.lost
    requires s.upPass.work.committed == None && s.upPass.flux == NO_PASS.flux
    requires s.world.app == OFFERED && s.world.flux == HeldBy(Upgrader)
    ensures more == log + [Saw(Upgrader, SawApp(OFFERED)), Saw(Upgrader, SawSuspended(true)), Saw(Upgrader, SawFile(s.world.file))]
    ensures Reaches(more, t) && CommitsIn(more) == CommitsIn(log) && SameButPass(s, t) && Ready(t.upPass, s.world.file)
  {
    hide Reaches, CommitsIn, Readable, Plannable;
    more, t := Sees(log, s, SawApp(OFFERED));
    more, t := Sees(more, t, SawSuspended(true));
    more, t := Sees(more, t, SawFile(s.world.file));
  }

  lemma Commits2(log: seq<Event>, s: State) returns (more: seq<Event>, t: State)
    requires Reaches(log, s) && s.up == STOPPED && (s.world.file == FILE1 || s.world.file == FILE2)
    requires Ready(s.upPass, s.world.file)
    ensures more == log + [Did(Upgrader, Commit("2", FILE2))] && CommitsIn(more) == CommitsIn(log) + 1
    ensures Reaches(more, t) && t.up == s.up && t.upFinalizer == s.upFinalizer && t.world == s.world.(file := FILE2)
    ensures HasCommitted(t.upPass)
  {
    hide Reaches, CommitsIn, Edit, Readable;
    TheFile();
    more, t := Calls(log, s, Commit("2", FILE2));
  }

  /** In the pass that skipped the stop phase the upgrade commits, after some time. */
  lemma FirstCommit(now: nat) returns (before: seq<Event>, s: State, more: seq<Event>, log: seq<Event>, t: State)
    ensures Reaches(before, s) && s.up == SUSPENDED && log == before + [WriteUpgrade(STOPPED)] + more
    ensures forall e | e in more :: !e.WriteUpgrade?
    ensures Reaches(log, t) && CommitsIn(log) == 1 && t.up == STOPPED && t.upFinalizer && HasCommitted(t.upPass)
    ensures t.world == HELD.(file := FILE2, now := now)
  {
    hide Reaches, CommitsIn, Ready, HasCommitted;
    before, s, log, t := StopSkipped();
    ghost var first := log;
    log, t := GetsReady(log, t);
    log, t := Meanwhile(log, t, OFFERED, now);
    var w := t.world;
    log, t := Commits2(log, t);
    more := [Saw(Upgrader, SawApp(OFFERED)), Saw(Upgrader, SawSuspended(true)), Saw(Upgrader, SawFile(FILE1)), EnvWorld(w),
             Did(Upgrader, Commit("2", FILE2))];
    assert log == first + more;
  }

  /** A status write lost after the commit makes the next pass commit again. */
  lemma TwoCommits() returns (log: seq<Event>, t: State)
    ensures IsRun(CFG, START, log) && Play(CFG, START, log) == Some(t)
    ensures CommitsIn(log) == 2 && UnrecordedIn(log) == 1 && t.up.committed
  {
    hide Reaches, CommitsIn, UnrecordedIn, MissesIn, Ready;
    var before, s, more;
    before, s, more, log, t := FirstCommit(0);
    log, t := LosesASave(log, t);
    log, t := Stops(log, t, Error);
    log, t := Starts(log, t);
    log, t := GetsReady(log, t);
    log, t := Commits2(log, t);
    log, t := Saves(log, t, COMMITTED);
    ReachesIsRun(log, t);
    ExtraCommits(CFG, START, log);
  }

  lemma ReachesIsRun(log: seq<Event>, t: State)
    requires Reaches(log, t)
    ensures IsRun(CFG, START, log) && Play(CFG, START, log) == Some(t)
  {
  }

  // ----- a deadline that counts from a skipped phase -----

  /** While no write clears the timer, a skip hands it on. */
  lemma {:induction false} HandedOn(cfg: Config, init: State, log: seq<Event>, k: nat, n: nat)
    requires k < n <= |log| && IsRun(cfg, init, log) && Skips(cfg, At(cfg, init, log, k), log[k], Upgrader)
    requires forall j | k <= j < n && log[j].WriteUpgrade? :: log[j].up.phaseStart.Some?
    ensures SkippedSince(cfg, init, log, Upgrader, n) && At(cfg, init, log, n).up.phaseStart.Some?
    decreases n
  {
    hide Play, At, Apply, Enabled, Skips, SkippedSince, Alike;
    StepAt(cfg, init, log, n - 1);
    SkipIsWrite(cfg, At(cfg, init, log, k), log[k]);
    if log[n - 1].WriteUpgrade? {
      WriteShows(cfg, At(cfg, init, log, n - 1), log[n - 1], Upgrader);
    } else if k < n - 1 {
      OthersKeepTimers(cfg, At(cfg, init, log, n - 1), log[n - 1], Upgrader);
    }
    if k < n - 1 {
      HandedOn(cfg, init, log, k, n - 1);
      SkipStays(cfg, init, log, Upgrader, n);
    } else {
      SkippedNow(cfg, init, log, Upgrader, n);
    }
  }

  /** With its timer at 0 and the clock at 700, the first pass of the reconciliation gives up. */
  lemma GivesUp(log: seq<Event>, s: State) returns (more: seq<Event>, t: State)
    requires Reaches(log, s) && s.up == COMMITTED && s.upFinalizer && s.world.now == 700 && !s.world.reconciled
    ensures log <= more && Reaches(more, t) && t.up == TIMED_OUT && t.world.now == 700
    ensures t.upPass.timer == Some(TimerCheck(0, TIMEOUT_RECONCILE, 700))
  {
    hide Reaches, CommitsIn;
    more, t := Starts(log, s);
    more, t := Calls(more, t, ResumeFlux);
    more, t := Sees(more, t, SawReconciled(false));
    more, t := Sees(more, t, SawTimer(TimerCheck(0, TIMEOUT_RECONCILE, 700)));
    more, t := Saves(more, t, TIMED_OUT);
    more, t := Stops(more, t, Done);
  }

  lemma CommitSaved(log: seq<Event>, s: State) returns (more: seq<Event>, t: State)
    requires Reaches(log, s) && s.up == STOPPED && s.upFinalizer && HasCommitted(s.upPass)
    ensures log + [WriteUpgrade(COMMITTED)] <= more && Reaches(more, t)
    ensures t.up == COMMITTED && t.upFinalizer && t.world == s.world
  {
    hide Reaches, CommitsIn;
    more, t := Saves(log, s, COMMITTED);
    more, t := Stops(more, t, Requeue);
  }

  /** An upgrade can fail by the deadline of its reconciliation without a second having passed since it began
      to reconcile: the deadline counts from a stop phase that was skipped. */
  lemma TimesOutAtOnce() returns (log: seq<Event>, n: nat, t: State)
    ensures IsRun(CFG, START, log) && Play(CFG, START, log) == Some(t) && n < |log|
    ensures var s := At(CFG, START, log, n);
            && !s.up.committed && log[n] == WriteUpgrade(COMMITTED) && SkippedSince(CFG, START, log, Upgrader, n)
            && s.world.now == t.world.now == 700
    ensures t.up.committed && !t.up.reconciled && t.up.complete == IsFalse
    ensures t.upPass.timer == Some(TimerCheck(0, TIMEOUT_RECONCILE, 700))
  {
    hide Reaches, CommitsIn, Skips, At, SkippedSince, Play, HasCommitted;
    var before, s, more, half, u;
    before, s, more, half, u := FirstCommit(700);
    n := |half|;
    log, t := CommitSaved(half, u);
    log, t := GivesUp(log, t);
    ReachesIsRun(log, t);
    AtReached(log, t, half, u);
    AtReached(log, t, before, s);
    SkipsTheStop(s);
    assert forall j | |before| < j < n :: log[j] == more[j - |before| - 1];
    HandedOn(CFG, START, log, |before|, n);
  }

  lemma AtReached(log: seq<Event>, t: State, half: seq<Event>, u: State)
    requires Reaches(log, t) && Reaches(half, u) && half <= log
    ensures IsRun(CFG, START, log) && At(CFG, START, log, |half|) == u
  {
    assert log[..|half|] == half;
    AtIsPlay(CFG, START, log, |half|);
  }

  lemma SkipIsWrite(cfg: Config, s: State, e: Event)
    requires Skips(cfg, s, e, Upgrader)
    ensures e.WriteUpgrade?
  {
  }

  lemma SkipsTheStop(s: State)
    requires s.up == SUSPENDED
    ensures Skips(CFG, s, WriteUpgrade(STOPPED), Upgrader)
  {
  }
}
