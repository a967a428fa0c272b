/**
 What a run does for whoever asked for it: told by the request's own fields, the calls and answers of the run
 and the state of the cluster, not by what a pass remembers.
 */
module Promises {
  import opened Wrappers
  import opened YamlTree
  import opened Protocol
  import opened WorldFacts
  import opened Invariants
  import opened DataInvariants
  import opened ProgressInvariants
  import opened Runs
  import opened Theorems
  import opened ProgressTheorems
  import opened PhaseTimers

  // ----- calls and answers are facts -----

  /** Every call that goes through shows in the cluster, and makes nothing in the place of something else;
      every answer is how things are. */
  lemma StepsAreFacts(cfg: Config, init: State, log: seq<Event>, i: nat)
    requires i < |log| && IsRun(cfg, init, log)
    ensures log[i].Did? ==>
              && Felt(cfg, At(cfg, init, log, i + 1).world, log[i].call)
              && Vacant(cfg, At(cfg, init, log, i).world, log[i].call)
    ensures log[i].Saw? ==> IsSo(At(cfg, init, log, i).world, log[i].sight)
  {
    hide Play, At, Apply, MayCall, Accepted, Effect, IsTrueSight, Felt, Vacant, IsSo;
    var s := At(cfg, init, log, i);
    StepAt(cfg, init, log, i);
    match log[i]
    case Did(who, call) =>
      StepDid(cfg, s, who, call);
      CallIsFelt(cfg, s.world, who, call);
      AcceptedIsVacant(cfg, s.world, call);
    case Saw(who, sight) => SightIsSo(cfg, s, who, sight);
    case _ =>
  }

  // ----- what a pass remembers, it did or saw -----

  /** The step was taken by the pass of `who` that is under way. */
  predicate InPass(log: seq<Event>, who: Actor, e: Event, i: nat)
    requires i <= |log|
  {
    exists b | 0 <= b < i :: log[b] == e && forall k | b < k < i :: log[k] != Begin(who)
  }

  datatype Note =
    | Read(sight: Sight)
    | Fit(check: Check)
    | Made(call: Call)

  function SourceOf(who: Actor, note: Note): Event {
    match note
    case Read(sight) => Saw(who, sight)
    case Fit(check) => Saw(who, SawFit(check))
    case Made(call) => Did(who, call)
  }

  predicate Noted(p: Pass, note: Note) {
    match note
    case Read(SawApp(app)) => p.seen.app == Some(app)
    case Read(SawFile(file)) => p.seen.file == Some(file)
    case Read(SawWorkloads(workloads)) => p.seen.workloads == Some(workloads)
    case Read(SawReady(snap, true)) => snap in p.seen.ready
    case Read(SawReconciled(true)) => p.seen.reconciled
    case Read(SawHealthy(true)) => p.seen.healthy
    case Read(SawSuspended(true)) => p.flux.verified
    case Read(_) => false
    case Fit(check) => check in p.seen.fit
    case Made(UpdateApp(app)) => p.work.updated == Some(app)
    case Made(CreateRollback) => p.work.rollback
    case Made(ResumeFlux) => p.flux.last == Resumed
    case Made(_) => false
  }

  lemma NoteBySight(cfg: Config, p: Pass, who: Actor, sight: Sight, note: Note)
    requires Noted(NoteSight(cfg, p, who, sight), note)
    ensures Saw(who, sight) == SourceOf(who, note) || Noted(p, note)
  {
    hide Hoped;
  }

  lemma NoteByCall(cfg: Config, p: Pass, who: Actor, call: Call, note: Note)
    requires Noted(NoteCall(cfg, p, call), note)
    ensures Did(who, call) == SourceOf(who, note) || Noted(p, note)
  {
    hide SnapshotName;
  }

  lemma NoteByStep(cfg: Config, s: State, who: Actor, e: Event, note: Note)
    requires Noted(PassOf(Apply(cfg, s, e), who), note)
    ensures e == SourceOf(who, note) || (Noted(PassOf(s, who), note) && e != Begin(who))
  {
    hide WorldAfter, UpHistoryAfter, RbHistoryAfter, TouchedAfter, RankOf, NoteSight, NoteCall, SourceOf, Noted;
    if By(e, who) {
      match e
      case Begin(_) => NothingNoted(note);
      case Saw(_, sight) => NoteBySight(cfg, PassOf(s, who), who, sight, note);
      case Did(_, call) => NoteByCall(cfg, PassOf(s, who), who, call, note);
      case _ => NotedAlike(PassOf(s, who), PassOf(Apply(cfg, s, e), who), note);
    }
  }

  lemma NotedAlike(p: Pass, q: Pass, note: Note)
    requires q.flux == p.flux && q.seen == p.seen && q.work == p.work
    ensures Noted(q, note) <==> Noted(p, note)
  {
  }

  lemma {:induction false} NoteWasTaken(cfg: Config, init: State, log: seq<Event>, who: Actor, note: Note, i: nat)
    requires i <= |log| && IsRun(cfg, init, log) && Noted(PassOf(At(cfg, init, log, i), who), note)
    ensures InPass(log, who, SourceOf(who, note), i)
  {
    hide Play, Apply, Enabled, At, SourceOf, Noted;
    if i == 0 {
      FirstEmpty(cfg, init, log);
      NothingNoted(note);
    } else {
      StepAt(cfg, init, log, i - 1);
      NoteByStep(cfg, At(cfg, init, log, i - 1), who, log[i - 1], note);
      if log[i - 1] != SourceOf(who, note) { NoteWasTaken(cfg, init, log, who, note, i - 1); }
    }
  }

  lemma NothingNoted(note: Note)
    ensures forall p: Pass :: p.flux == NO_PASS.flux && p.seen == NO_PASS.seen && p.work == NO_PASS.work ==> !Noted(p, note)
  {
  }

  /** The app as the pass of `who` has read it last. */
  function AppRead(log: seq<Event>, who: Actor): Option<AppStatus> {
    if log == [] then None
    else match log[|log| - 1]
      case Begin(w) => if w == who then None else AppRead(log[..|log| - 1], who)
      case Saw(w, SawApp(app)) => if w == who then Some(app) else AppRead(log[..|log| - 1], who)
      case _ => AppRead(log[..|log| - 1], who)
  }

  lemma AppBySight(cfg: Config, p: Pass, who: Actor, sight: Sight)
    ensures NoteSight(cfg, p, who, sight).seen.app == if sight.SawApp? then Some(sight.app) else p.seen.app
  {
    hide Hoped, FluxAfterSight, WorkAfterSight;
  }

  lemma AppByCall(cfg: Config, p: Pass, call: Call)
    ensures NoteCall(cfg, p, call).seen.app == p.seen.app
  {
    hide FluxAfterCall, WorkAfterCall;
  }

  lemma AppByStep(cfg: Config, s: State, who: Actor, e: Event)
    ensures PassOf(Apply(cfg, s, e), who).seen.app
            == if e == Begin(who) then None
               else if e.Saw? && e.who == who && e.sight.SawApp? then Some(e.sight.app)
               else PassOf(s, who).seen.app
  {
    hide WorldAfter, UpHistoryAfter, RbHistoryAfter, TouchedAfter, RankOf, NoteSight, NoteCall;
    if By(e, who) {
      match e
      case Saw(_, sight) => AppBySight(cfg, PassOf(s, who), who, sight);
      case Did(_, call) => AppByCall(cfg, PassOf(s, who), call);
      case _ =>
    }
  }

  lemma {:induction false} AppWasRead(cfg: Config, init: State, log: seq<Event>, who: Actor, i: nat)
    requires i <= |log| && IsRun(cfg, init, log)
    ensures PassOf(At(cfg, init, log, i), who).seen.app == AppRead(log[..i], who)
  {
    hide Play, Apply, Enabled, At;
    if i == 0 {
      FirstEmpty(cfg, init, log);
    } else {
      AppWasRead(cfg, init, log, who, i - 1);
      StepAt(cfg, init, log, i - 1);
      AppByStep(cfg, At(cfg, init, log, i - 1), who, log[i - 1]);
      assert log[..i][..i - 1] == log[..i - 1];
    }
  }

  // ----- when a condition came about -----

  datatype Mark = StopMark | VolumeMark | CommitMark | ReconcileMark | HealthMark | DoneMark | FailMark

  predicate Has(s: State, who: Actor, mark: Mark) {
    match mark
    case StopMark => if who == Upgrader then s.up.stopped else s.rb.stopped
    case VolumeMark => if who == Upgrader then s.up.snapReady else s.rb.volumes
    case CommitMark => if who == Upgrader then s.up.committed else s.rb.reverted
    case ReconcileMark => if who == Upgrader then s.up.reconciled else s.rb.reconciled
    case HealthMark => if who == Upgrader then s.up.healthy else s.rb.healthy
    case DoneMark => (if who == Upgrader then s.up.complete else s.rb.complete) == IsTrue
    case FailMark => (if who == Upgrader then s.up.complete else s.rb.complete) == IsFalse
  }

  /** Status write `j` sets the condition. */
  predicate Sets(cfg: Config, init: State, log: seq<Event>, who: Actor, mark: Mark, j: nat)
    requires j < |log| && IsRun(cfg, init, log)
  {
    Writes(log[j], who) && !Has(At(cfg, init, log, j), who, mark) && Has(At(cfg, init, log, j + 1), who, mark)
  }

  lemma MarkByStep(cfg: Config, s: State, who: Actor, mark: Mark, e: Event)
    ensures !Writes(e, who) ==> (Has(Apply(cfg, s, e), who, mark) <==> Has(s, who, mark))
    ensures e.WriteUpgrade? ==> Apply(cfg, s, e).up == e.up
    ensures e.WriteRollback? ==> Apply(cfg, s, e).rb == e.rb
  {
    hide WorldAfter, PassAfter, UpHistoryAfter, RbHistoryAfter, TouchedAfter;
  }

  lemma {:induction false} WhenSet(cfg: Config, init: State, log: seq<Event>, who: Actor, mark: Mark, n: nat) returns (j: nat)
    requires n <= |log| && IsRun(cfg, init, log) && Has(At(cfg, init, log, n), who, mark)
    ensures j < n && Sets(cfg, init, log, who, mark, j)
  {
    hide Play, Apply, Enabled, At, Writes;
    FirstEmpty(cfg, init, log);
    StepAt(cfg, init, log, n - 1);
    MarkByStep(cfg, At(cfg, init, log, n - 1), who, mark, log[n - 1]);
    if Has(At(cfg, init, log, n - 1), who, mark) {
      j := WhenSet(cfg, init, log, who, mark, n - 1);
    } else {
      j := n - 1;
    }
  }

  /** The write is one the request and the pass allow. */
  lemma WriteIsAllowed(cfg: Config, init: State, log: seq<Event>, who: Actor, j: nat)
    requires j < |log| && IsRun(cfg, init, log) && Writes(log[j], who)
    ensures var s, t := At(cfg, init, log, j), At(cfg, init, log, j + 1);
            if who == Upgrader then t.up == log[j].up && UpgradeWrite(cfg, s.up, t.up, s.upPass)
            else t.rb == log[j].rb && RollbackWrite(cfg, s.rb, t.rb, s.rbPass)
  {
    hide Play, At, Apply, UpgradeWrite, RollbackWrite;
    StepAt(cfg, init, log, j);
    MarkByStep(cfg, At(cfg, init, log, j), who, DoneMark, log[j]);
  }

  // ----- the stop phases -----

  /** The workload's replicas were zero, and no earlier than that it was without pods. */
  predicate ScaledThenDown(cfg: Config, init: State, log: seq<Event>, w: string, i: nat)
    requires i <= |log| && IsRun(cfg, init, log)
  {
    exists k, m | 0 <= k <= m < i ::
      && w in At(cfg, init, log, k).world.replicas && At(cfg, init, log, k).world.replicas[w] == 0
      && (w in At(cfg, init, log, m).world.pods ==> At(cfg, init, log, m).world.pods[w] == 0)
  }

  predicate WasSet(cfg: Config, init: State, log: seq<Event>, w: string, count: nat, i: nat)
    requires i <= |log| && IsRun(cfg, init, log)
  {
    exists k | 0 <= k <= i :: w in At(cfg, init, log, k).world.replicas && At(cfg, init, log, k).world.replicas[w] == count
  }

  /** From `p` to `q`, by a step with this call or sight, the workload's replicas and pods are as known before, or
      known anew. */
  predicate ScalingKnown(p: Pass, q: Pass, w: string, call: Option<Call>, sight: Option<Sight>) {
    && (w in q.work.scaled ==>
          || call == Some(Call.Scale(w, q.work.scaled[w])) || sight == Some(SawReplicas(w, q.work.scaled[w]))
          || (w in p.work.scaled && p.work.scaled[w] == q.work.scaled[w]
              && (w in q.seen.down ==> w in p.seen.down || sight == Some(SawDown(w, true)))))
    && (call == Some(Call.Scale(w, 0)) || sight == Some(SawReplicas(w, 0)) ==> w !in q.seen.down)
  }

  lemma ScaledBySight(cfg: Config, p: Pass, who: Actor, sight: Sight, w: string)
    ensures ScalingKnown(p, NoteSight(cfg, p, who, sight), w, None, Some(sight))
  {
    hide Hoped, FluxAfterSight;
  }

  lemma ScaledByCall(cfg: Config, p: Pass, call: Call, w: string)
    ensures ScalingKnown(p, NoteCall(cfg, p, call), w, Some(call), None)
  {
    hide SnapshotName, FluxAfterCall;
  }

  lemma ScaledByStep(cfg: Config, s: State, who: Actor, e: Event, w: string)
    ensures var p, q := PassOf(s, who), PassOf(Apply(cfg, s, e), who);
            w in q.work.scaled ==>
              || e == Did(who, Call.Scale(w, q.work.scaled[w])) || e == Saw(who, SawReplicas(w, q.work.scaled[w]))
              || (w in p.work.scaled && p.work.scaled[w] == q.work.scaled[w]
                  && (w in q.seen.down ==> w in p.seen.down || e == Saw(who, SawDown(w, true))))
    ensures var q := PassOf(Apply(cfg, s, e), who);
            e == Did(who, Call.Scale(w, 0)) || e == Saw(who, SawReplicas(w, 0)) ==> w !in q.seen.down
  {
    hide WorldAfter, UpHistoryAfter, RbHistoryAfter, TouchedAfter, RankOf, NoteSight, NoteCall;
    if By(e, who) {
      match e
      case Saw(_, sight) => ScaledBySight(cfg, PassOf(s, who), who, sight, w);
      case Did(_, call) => ScaledByCall(cfg, PassOf(s, who), call, w);
      case _ =>
    }
  }

  lemma {:induction false} ScaledWasSet(cfg: Config, init: State, log: seq<Event>, who: Actor, w: string, i: nat)
    requires i <= |log| && IsRun(cfg, init, log) && w in PassOf(At(cfg, init, log, i), who).work.scaled
    ensures WasSet(cfg, init, log, w, PassOf(At(cfg, init, log, i), who).work.scaled[w], i)
  {
    hide Play, Apply, Enabled, At;
    FirstEmpty(cfg, init, log);
    ScaledByStep(cfg, At(cfg, init, log, i - 1), who, log[i - 1], w);
    StepAt(cfg, init, log, i - 1);
    StepsAreFacts(cfg, init, log, i - 1);
    if w in PassOf(At(cfg, init, log, i - 1), who).work.scaled { ScaledWasSet(cfg, init, log, who, w, i - 1); }
  }

  lemma {:induction false} DownWasDown(cfg: Config, init: State, log: seq<Event>, who: Actor, w: string, i: nat)
    requires i <= |log| && IsRun(cfg, init, log)
    requires var p := PassOf(At(cfg, init, log, i), who); w in p.work.scaled && p.work.scaled[w] == 0 && w in p.seen.down
    ensures ScaledThenDown(cfg, init, log, w, i)
  {
    hide Play, Apply, Enabled, At;
    FirstEmpty(cfg, init, log);
    ScaledByStep(cfg, At(cfg, init, log, i - 1), who, log[i - 1], w);
    StepAt(cfg, init, log, i - 1);
    StepsAreFacts(cfg, init, log, i - 1);
    if log[i - 1] == Saw(who, SawDown(w, true)) {
      ScaledWasSet(cfg, init, log, who, w, i - 1);
    } else {
      DownWasDown(cfg, init, log, who, w, i - 1);
    }
  }

  /** The request wants its workloads stopped: a dry run always, an upgrade for its snapshots, a rollback for
      its volumes. */
  predicate WantsStop(cfg: Config, s: State, who: Actor) {
    if who == Upgrader then cfg.dryRun || (!cfg.skipSnapshot && cfg.snapshotsOn)
    else !cfg.skipSnapshot && s.up.snapshots != []
  }

  lemma StopWriteMeans(cfg: Config, s: State, t: State, who: Actor)
    requires Exclusive(cfg, s) && Order(cfg, s) && WantsStop(cfg, s, who) && !Has(s, who, StopMark) && Has(t, who, StopMark)
    requires if who == Upgrader then UpgradeWrite(cfg, s.up, t.up, s.upPass) else RollbackWrite(cfg, s.rb, t.rb, s.rbPass)
    ensures PassOf(s, who).seen.workloads.Some?
    ensures forall w | w in PassOf(s, who).seen.workloads.value :: w in PassOf(s, who).work.scaled
              && PassOf(s, who).work.scaled[w] == 0 && w in PassOf(s, who).seen.down
  {
    hide NextToRestore, NamesOf, AllRestored, CommitVersion, AllReady, RevertVersion, UpRank, RbRank;
  }

  /** When the workloads of a request that wants them stopped are persisted as stopped, that is a fact: every
      workload the pass had found, if it found any, had its replicas at zero, and then no pods. */
  lemma StoppedIsAFact(cfg: Config, init: State, log: seq<Event>, who: Actor, n: nat) returns (j: nat, workloads: seq<string>)
    requires n <= |log| && IsRun(cfg, init, log) && Has(At(cfg, init, log, n), who, StopMark)
    requires WantsStop(cfg, At(cfg, init, log, n), who)
    ensures j < n && Sets(cfg, init, log, who, StopMark, j) && InPass(log, who, Saw(who, SawWorkloads(workloads)), j)
    ensures forall w | w in workloads :: ScaledThenDown(cfg, init, log, w, j)
  {
    hide Play, At, Kept, InPass, ScaledThenDown, WantsStop, Has, UpKept;
    j := WhenSet(cfg, init, log, who, StopMark, n);
    var s := At(cfg, init, log, j);
    WriteIsAllowed(cfg, init, log, who, j);
    KeptAt(cfg, init, log, j);
    UpgradeNeverReverts(cfg, init, log, j, n);
    if who == Rollbacker { StopNeedsSuspension(cfg, s, At(cfg, init, log, j + 1)); }
    WantedBefore(cfg, s, At(cfg, init, log, n), who);
    StopWriteMeans(cfg, s, At(cfg, init, log, j + 1), who);
    workloads := PassOf(s, who).seen.workloads.value;
    NoteWasTaken(cfg, init, log, who, Read(SawWorkloads(workloads)), j);
    forall w | w in workloads ensures ScaledThenDown(cfg, init, log, w, j) { DownWasDown(cfg, init, log, who, w, j); }
  }

  lemma StopNeedsSuspension(cfg: Config, s: State, t: State)
    requires RollbackWrite(cfg, s.rb, t.rb, s.rbPass) && !Has(s, Rollbacker, StopMark) && Has(t, Rollbacker, StopMark)
    ensures s.rb.suspended != Absent
  {
    hide NextToRestore, NamesOf, AllRestored, Stopped, Restorable, StartedTimer;
  }

  lemma WantedBefore(cfg: Config, s: State, t: State, who: Actor)
    requires Kept(cfg, s) && UpKept(s.up, t.up) && WantsStop(cfg, t, who) && (who == Rollbacker ==> s.rb.suspended != Absent)
    ensures Exclusive(cfg, s) && Order(cfg, s)
    ensures WantsStop(cfg, s, who)
  {
  }

  // ----- what is not asked for is not done -----

  lemma UpgradeCallMeans(cfg: Config, s: State, call: Call)
    requires UpgradeCall(cfg, s.up, s.upPass, call) && Order(cfg, s)
    ensures call.CreateSnapshot? ==> !cfg.dryRun && !cfg.skipSnapshot && cfg.snapshotsOn && s.up.stopped && !s.up.snapReady
    ensures call.Scale? ==> cfg.dryRun || (call.count == 0 && !cfg.skipSnapshot && cfg.snapshotsOn)
    ensures call.DeleteSnapshot? ==> !cfg.dryRun && cfg.snapshotsOn && s.up.healthy
    ensures call.UpdateApp? ==> !cfg.dryRun && s.up.healthy
    ensures call.CreateRollback? ==> !cfg.dryRun && cfg.autoRollback && s.up.committed
    ensures !call.DeletePvc? && !call.CreatePvc?
  {
    hide Prepared, CommitVersion, Plannable, UpdateVersion, RollbackOrder;
  }

  lemma RollbackCallMeans(cfg: Config, s: State, call: Call)
    requires RollbackCall(cfg, s.rb, s.rbPass, call) && Exclusive(cfg, s)
    ensures s.up.complete != Absent && Previous(s.up).Some? && HasText(Previous(s.up).value)
    ensures call.Scale? || call.DeletePvc? || call.CreatePvc? ==> !cfg.skipSnapshot && s.up.snapshots != []
    ensures call.Scale? ==> call.count == 0
    ensures !call.CreateSnapshot? && !call.DeleteSnapshot? && !call.UpdateApp? && !call.CreateRollback?
  {
    hide NextToRestore, NamesOf, UpdateVersion, GetVersion;
    VersionsAreTexts(cfg, s.world.app, s.up);
  }

  /** Snapshots are taken, and a live upgrade scales, only if the request does not skip snapshots and the app has
      them configured; snapshots are deleted, and the app is updated, only once the upgrade is healthy; a
      rollback is created only after a commit, if it is wanted. */
  lemma UpgradeDoesWhatIsAsked(cfg: Config, init: State, log: seq<Event>, i: nat)
    requires i < |log| && IsRun(cfg, init, log) && log[i].Did? && log[i].who == Upgrader
    ensures var s, call := At(cfg, init, log, i), log[i].call;
            && (call.CreateSnapshot? ==> !cfg.dryRun && !cfg.skipSnapshot && cfg.snapshotsOn && s.up.stopped && !s.up.snapReady)
            && (call.Scale? ==> cfg.dryRun || (call.count == 0 && !cfg.skipSnapshot && cfg.snapshotsOn))
            && (call.DeleteSnapshot? ==> !cfg.dryRun && cfg.snapshotsOn && s.up.healthy)
            && (call.UpdateApp? ==> !cfg.dryRun && s.up.healthy)
            && (call.CreateRollback? ==> !cfg.dryRun && cfg.autoRollback && s.up.committed)
            && !call.DeletePvc? && !call.CreatePvc?
  {
    hide Play, At, Apply, UpgradeCall, RollbackCall, Accepted, Order, Exclusive, Files, Commits, Mirror, Hold, Snaps, Names,
         Volumes, Progress, RolledOut, Timers;
    StepAt(cfg, init, log, i);
    KeptAt(cfg, init, log, i);
    UpgradeCallMeans(cfg, At(cfg, init, log, i), log[i].call);
  }

  /** A rollback of an upgrade that skipped or took no snapshots stops no workload and touches no PVC; and no
      rollback does anything without a previous version on record. */
  lemma RollbackDoesWhatIsAsked(cfg: Config, init: State, log: seq<Event>, i: nat)
    requires i < |log| && IsRun(cfg, init, log) && log[i].Did? && log[i].who == Rollbacker
    ensures var up, call := Play(cfg, init, log).value.up, log[i].call;
            && up.complete != Absent && Previous(up).Some? && HasText(Previous(up).value)
            && (call.Scale? || call.DeletePvc? || call.CreatePvc? ==> !cfg.skipSnapshot && up.snapshots != [])
            && (call.Scale? ==> call.count == 0)
            && !call.CreateSnapshot? && !call.DeleteSnapshot? && !call.UpdateApp? && !call.CreateRollback?
  {
    hide Play, At, Apply, UpgradeCall, RollbackCall, Accepted, Order, Exclusive, Files, Commits, Mirror, Hold, Snaps, Names,
         Volumes, Progress, RolledOut, Timers;
    StepAt(cfg, init, log, i);
    KeptAt(cfg, init, log, i);
    RollbackCallMeans(cfg, At(cfg, init, log, i), log[i].call);
    UpgradeNeverReverts(cfg, init, log, i, |log|);
    AtIsPlay(cfg, init, log, |log|);
    assert log[..|log|] == log;
  }

  // ----- preparation -----

  lemma PreparedMeans(cfg: Config, s: State)
    requires UpgradeCall(cfg, s.up, s.upPass, SuspendFlux)
    ensures var r := s.upPass.seen;
            && r.app.Some? && Wanted(cfg, r.app.value).Some? && HasText(Wanted(cfg, r.app.value).value)
            && (Wanted(cfg, r.app.value).value.chart == "" ==> cfg.versionPath != "")
            && r.file.Some? && ReadableAt(cfg, r.file.value)
            && (cfg.versionPath == "" ==> Lookup(r.file.value, ["kind"]) == Some(Scalar("HelmRelease")))
            && SuspendTarget in r.fit
            && (!cfg.skipSnapshot && cfg.snapshotsOn ==> SnapshotClass in r.fit && r.workloads.Some?)
  {
    hide Lookup;
    PathIsPlace(cfg);
  }

  /** There is a version to replace at the version's place. */
  predicate ReadableAt(cfg: Config, file: Yaml) {
    VersionIn(cfg, file).Some? && VersionIn(cfg, file).value.Scalar? && VersionIn(cfg, file).value.text != ""
  }

  /** An upgrade suspends Flux only in a pass that has read a version to go to, has read a file with a version to
      replace, and has found the suspend target fit, and with snapshots on the snapshot class and the
      workloads. */
  lemma SuspensionIsPrepared(cfg: Config, init: State, log: seq<Event>, i: nat) returns (app: AppStatus, file: Yaml)
    requires i < |log| && IsRun(cfg, init, log) && log[i] == Did(Upgrader, SuspendFlux)
    ensures InPass(log, Upgrader, Saw(Upgrader, SawApp(app)), i) && InPass(log, Upgrader, Saw(Upgrader, SawFile(file)), i)
    ensures Wanted(cfg, app).Some? && HasText(Wanted(cfg, app).value)
    ensures Wanted(cfg, app).value.chart == "" ==> cfg.versionPath != ""
    ensures ReadableAt(cfg, file) && (cfg.versionPath == "" ==> Lookup(file, ["kind"]) == Some(Scalar("HelmRelease")))
    ensures InPass(log, Upgrader, Saw(Upgrader, SawFit(SuspendTarget)), i)
    ensures !cfg.skipSnapshot && cfg.snapshotsOn ==> InPass(log, Upgrader, Saw(Upgrader, SawFit(SnapshotClass)), i)
  {
    hide Play, At, Apply, UpgradeCall, RollbackCall, Accepted, InPass, ReadableAt, Lookup;
    StepAt(cfg, init, log, i);
    PreparedMeans(cfg, At(cfg, init, log, i));
    var r := At(cfg, init, log, i).upPass.seen;
    app, file := r.app.value, r.file.value;
    NoteWasTaken(cfg, init, log, Upgrader, Read(SawApp(app)), i);
    NoteWasTaken(cfg, init, log, Upgrader, Read(SawFile(file)), i);
    NoteWasTaken(cfg, init, log, Upgrader, Fit(SuspendTarget), i);
    if !cfg.skipSnapshot && cfg.snapshotsOn { NoteWasTaken(cfg, init, log, Upgrader, Fit(SnapshotClass), i); }
  }

  lemma RbPreparedMeans(cfg: Config, s: State)
    requires RollbackCall(cfg, s.rb, s.rbPass, SuspendFlux) && Exclusive(cfg, s)
    ensures var r := s.rbPass.seen;
            && r.file.Some? && ReadableAt(cfg, r.file.value) && SuspendTarget in r.fit
            && (!cfg.skipSnapshot && s.up.snapshots != [] ==> forall q | q in s.up.snapshots :: q.snap in r.ready)
            && (cfg.skipSnapshot || s.up.snapshots != [])
  {
    hide Lookup, RevertVersion;
    PathIsPlace(cfg);
  }

  /** A rollback suspends Flux only in a pass that has read a file with a version to replace, has found the suspend
      target fit, and has seen every snapshot it is to restore ready, of which there are some unless they are
      skipped. */
  lemma RollbackIsPrepared(cfg: Config, init: State, log: seq<Event>, i: nat) returns (file: Yaml)
    requires i < |log| && IsRun(cfg, init, log) && log[i] == Did(Rollbacker, SuspendFlux)
    ensures InPass(log, Rollbacker, Saw(Rollbacker, SawFile(file)), i) && ReadableAt(cfg, file)
    ensures InPass(log, Rollbacker, Saw(Rollbacker, SawFit(SuspendTarget)), i)
    ensures var refs := At(cfg, init, log, i).up.snapshots;
            || cfg.skipSnapshot
            || (refs != []
                && forall q | q in refs :: InPass(log, Rollbacker, Saw(Rollbacker, SawReady(q.snap, true)), i))
  {
    hide Play, At, Apply, UpgradeCall, RollbackCall, Accepted, InPass, ReadableAt, Lookup, Order, Exclusive, Files, Commits,
         Mirror, Hold, Snaps, Names, Volumes, Progress, RolledOut, Timers;
    StepAt(cfg, init, log, i);
    KeptAt(cfg, init, log, i);
    var s := At(cfg, init, log, i);
    RbPreparedMeans(cfg, s);
    file := s.rbPass.seen.file.value;
    NoteWasTaken(cfg, init, log, Rollbacker, Read(SawFile(file)), i);
    NoteWasTaken(cfg, init, log, Rollbacker, Fit(SuspendTarget), i);
    forall q | q in s.up.snapshots && !cfg.skipSnapshot
      ensures InPass(log, Rollbacker, Saw(Rollbacker, SawReady(q.snap, true)), i)
    {
      NoteWasTaken(cfg, init, log, Rollbacker, Read(SawReady(q.snap, true)), i);
    }
  }

  // ----- the commit -----

  lemma CommitCallMeans(cfg: Config, s: State, version: string, tree: Yaml)
    requires UpgradeCall(cfg, s.up, s.upPass, Commit(version, tree))
    ensures var r := s.upPass.seen;
            && r.app.Some? && Wanted(cfg, r.app.value).Some? && HasText(Wanted(cfg, r.app.value).value)
            && version == TextOf(Wanted(cfg, r.app.value).value)
            && (Wanted(cfg, r.app.value).value.chart == "" ==> cfg.versionPath != "")
            && r.file.Some? && UpdateVersion(r.file.value, Place(cfg), version) == Ok(tree)
            && (cfg.versionPath == "" ==> Lookup(r.file.value, ["kind"]) == Some(Scalar("HelmRelease")))
  {
    hide Lookup, UpdateVersion, RevertVersion;
    PathIsPlace(cfg);
    VersionsAreTexts(cfg, s.upPass.seen.app.value, s.up);
  }

  /** What an upgrade commits is the text of the version it was asked for, or, if it was asked for none, of the
      one on offer when the committing pass last read the app; put in its place in the file that pass has
      read, where it is then found. */
  lemma CommitsTheTarget(cfg: Config, init: State, log: seq<Event>, i: nat) returns (file: Yaml)
    requires i < |log| && IsRun(cfg, init, log) && log[i].Did? && log[i].who == Upgrader && log[i].call.Commit?
    ensures var version := log[i].call.version;
            match cfg.target
            case Some(v) => HasText(v) && version == TextOf(v)
            case None =>
              var app := AppRead(log[..i], Upgrader);
              && app.Some? && app.value.available.Some? && HasText(app.value.available.value)
              && version == TextOf(app.value.available.value)
    ensures InPass(log, Upgrader, Saw(Upgrader, SawFile(file)), i)
    ensures UpdateVersion(file, Place(cfg), log[i].call.version) == Ok(log[i].call.tree)
    ensures VersionIn(cfg, log[i].call.tree) == Some(Scalar(log[i].call.version))
    ensures cfg.versionPath == "" ==> Lookup(file, ["kind"]) == Some(Scalar("HelmRelease"))
  {
    hide Play, At, Apply, UpgradeCall, RollbackCall, Accepted, InPass, Lookup, UpdateVersion;
    StepAt(cfg, init, log, i);
    var s, call := At(cfg, init, log, i), log[i].call;
    CommitCallMeans(cfg, s, call.version, call.tree);
    file := s.upPass.seen.file.value;
    AppWasRead(cfg, init, log, Upgrader, i);
    NoteWasTaken(cfg, init, log, Upgrader, Read(SawFile(file)), i);
    UpdateThenLookup(file, Place(cfg), call.version);
  }

  lemma CommitWriteMeans(cfg: Config, was: UpStatus, next: UpStatus, p: Pass)
    requires UpgradeWrite(cfg, was, next, p) && !was.committed && next.committed
    ensures p.seen.app.Some? && Wanted(cfg, p.seen.app.value).Some?
    ensures next.upgrade == Some(UpgradeRecord(p.seen.app.value.current, Wanted(cfg, p.seen.app.value).value))
  {
    hide Stopped, AllReady, StartedTimer, PvcsOf, Scaled;
  }

  /** What it records is true: the version that was current when the committing pass last read the app, and the
      version it was to go to. */
  lemma RecordIsTrue(cfg: Config, init: State, log: seq<Event>, n: nat) returns (j: nat, app: AppStatus)
    requires n <= |log| && IsRun(cfg, init, log) && At(cfg, init, log, n).up.committed
    ensures j < n && Sets(cfg, init, log, Upgrader, CommitMark, j) && AppRead(log[..j], Upgrader) == Some(app)
    ensures Wanted(cfg, app).Some?
    ensures At(cfg, init, log, n).up.upgrade == Some(UpgradeRecord(app.current, Wanted(cfg, app).value))
  {
    hide Play, At, UpgradeWrite, RollbackWrite;
    j := WhenSet(cfg, init, log, Upgrader, CommitMark, n);
    WriteIsAllowed(cfg, init, log, Upgrader, j);
    var s := At(cfg, init, log, j);
    CommitWriteMeans(cfg, s.up, At(cfg, init, log, j + 1).up, s.upPass);
    AppWasRead(cfg, init, log, Upgrader, j);
    app := s.upPass.seen.app.value;
    UpgradeNeverReverts(cfg, init, log, j + 1, n);
  }

  // ----- reconciled, healthy, complete -----

  lemma ResumedBySight(cfg: Config, p: Pass, who: Actor, sight: Sight)
    requires var q := NoteSight(cfg, p, who, sight); q.flux.last == Resumed && q.seen.reconciled
    ensures p.flux.last == Resumed && (sight == SawReconciled(true) || p.seen.reconciled)
  {
    hide Hoped, WorkAfterSight;
  }

  lemma ResumedByCall(cfg: Config, p: Pass, call: Call)
    requires var q := NoteCall(cfg, p, call); q.flux.last == Resumed && q.seen.reconciled
    ensures p.flux.last == Resumed && p.seen.reconciled
  {
    hide SnapshotName, WorkAfterCall;
  }

  lemma ResumedByStep(cfg: Config, s: State, who: Actor, e: Event)
    requires var q := PassOf(Apply(cfg, s, e), who); q.flux.last == Resumed && q.seen.reconciled
    ensures var p := PassOf(s, who);
            p.flux.last == Resumed && e != Begin(who) && (e == Saw(who, SawReconciled(true)) || p.seen.reconciled)
  {
    hide WorldAfter, UpHistoryAfter, RbHistoryAfter, TouchedAfter, RankOf, NoteSight, NoteCall;
    if By(e, who) {
      match e
      case Saw(_, sight) => ResumedBySight(cfg, PassOf(s, who), who, sight);
      case Did(_, call) => ResumedByCall(cfg, PassOf(s, who), call);
      case _ =>
    }
  }

  /** A pass has resumed Flux and then seen the target reconciled. */
  predicate ResumedThenReconciled(log: seq<Event>, who: Actor, i: nat)
    requires i <= |log|
  {
    exists r, k | 0 <= r < k < i :: log[r] == Did(who, ResumeFlux) && log[k] == Saw(who, SawReconciled(true))
  }

  lemma {:induction false} ReconciledSinceResume(cfg: Config, init: State, log: seq<Event>, who: Actor, i: nat)
    requires i <= |log| && IsRun(cfg, init, log)
    requires var p := PassOf(At(cfg, init, log, i), who); p.flux.last == Resumed && p.seen.reconciled
    ensures ResumedThenReconciled(log, who, i)
  {
    hide Play, Apply, Enabled, At;
    FirstEmpty(cfg, init, log);
    StepAt(cfg, init, log, i - 1);
    ResumedByStep(cfg, At(cfg, init, log, i - 1), who, log[i - 1]);
    if log[i - 1] == Saw(who, SawReconciled(true)) {
      NoteWasTaken(cfg, init, log, who, Made(ResumeFlux), i - 1);
    } else {
      ReconciledSinceResume(cfg, init, log, who, i - 1);
    }
  }

  lemma ReconcileWriteMeans(cfg: Config, s: State, t: State, who: Actor)
    requires !Has(s, who, ReconcileMark) && Has(t, who, ReconcileMark)
    requires if who == Upgrader then UpgradeWrite(cfg, s.up, t.up, s.upPass) else RollbackWrite(cfg, s.rb, t.rb, s.rbPass)
    ensures PassOf(s, who).flux.last == Resumed && PassOf(s, who).seen.reconciled
  {
    hide NextToRestore, NamesOf, AllRestored, Stopped, Restorable, StartedTimer, CommitVersion, AllReady, PvcsOf, UpRank,
         RbRank;
  }

  lemma HealthyWriteMeans(cfg: Config, s: State, t: State, who: Actor)
    requires !Has(s, who, HealthMark) && Has(t, who, HealthMark)
    requires if who == Upgrader then UpgradeWrite(cfg, s.up, t.up, s.upPass) else RollbackWrite(cfg, s.rb, t.rb, s.rbPass)
    ensures PassOf(s, who).seen.healthy && Has(s, who, ReconcileMark)
  {
    hide NextToRestore, NamesOf, AllRestored, Stopped, Restorable, StartedTimer, CommitVersion, AllReady, PvcsOf, UpRank,
         RbRank;
  }

  /** A request persisted as reconciled had Flux resumed, and the target found reconciled after that. */
  lemma ReconciledIsAFact(cfg: Config, init: State, log: seq<Event>, who: Actor, n: nat)
    requires n <= |log| && IsRun(cfg, init, log) && Has(At(cfg, init, log, n), who, ReconcileMark)
    ensures ResumedThenReconciled(log, who, n)
  {
    hide Play, At, UpgradeWrite, RollbackWrite, Has, ResumedThenReconciled;
    var j := WhenSet(cfg, init, log, who, ReconcileMark, n);
    WriteIsAllowed(cfg, init, log, who, j);
    ReconcileWriteMeans(cfg, At(cfg, init, log, j), At(cfg, init, log, j + 1), who);
    ReconciledSinceResume(cfg, init, log, who, j);
    Earlier(log, who, j, n);
  }

  lemma Earlier(log: seq<Event>, who: Actor, j: nat, n: nat)
    requires j <= n <= |log| && ResumedThenReconciled(log, who, j)
    ensures ResumedThenReconciled(log, who, n)
  {
  }

  /** A live upgrade or a rollback that is successfully complete had Flux resumed, found the target reconciled
      after that, and found the app healthy. */
  lemma CompleteIsAFact(cfg: Config, init: State, log: seq<Event>, who: Actor, n: nat)
    requires n <= |log| && IsRun(cfg, init, log) && Has(At(cfg, init, log, n), who, DoneMark)
    requires who == Upgrader ==> !cfg.dryRun
    ensures ResumedThenReconciled(log, who, n) && Saw(who, SawHealthy(true)) in log[..n]
  {
    hide Play, At, UpgradeWrite, RollbackWrite, ResumedThenReconciled;
    PhaseOrder(cfg, init, log, n);
    ReconciledIsAFact(cfg, init, log, who, n);
    var j := WhenSet(cfg, init, log, who, HealthMark, n);
    WriteIsAllowed(cfg, init, log, who, j);
    HealthyWriteMeans(cfg, At(cfg, init, log, j), At(cfg, init, log, j + 1), who);
    NoteWasTaken(cfg, init, log, who, Read(SawHealthy(true)), j);
  }

  lemma {:induction false} TroubleStays(log: seq<Event>, who: Actor, j: nat, n: nat)
    requires j <= n <= |log| && Troubled(log[..j], who)
    ensures Troubled(log[..n], who)
    decreases n
  {
    if j < n {
      TroubleStays(log, who, j, n - 1);
      assert log[..n][..n - 1] == log[..n - 1];
    }
  }

  /** A pass that met trouble shows in the run. */
  lemma TroubleShows(cfg: Config, init: State, log: seq<Event>, j: nat, n: nat)
    requires j <= n <= |log| && IsRun(cfg, init, log) && At(cfg, init, log, j).upPass.trouble
    ensures Troubled(log[..n], Upgrader)
  {
    hide Play, At, Order, Exclusive, Files, Commits, Mirror, Hold, Snaps, Names, Volumes, Progress, Timers, CommitsIn,
         UnrecordedIn, MissesIn, Theorems.Pending, Lost, Troubled, LastCommit, LastFlux, Theorems.Running;
    KeptAt(cfg, init, log, j);
    RememberedAt(cfg, init, log, j);
    TroubleStays(log, Upgrader, j, n);
  }

  lemma CompleteWriteMeans(cfg: Config, was: UpStatus, next: UpStatus, p: Pass)
    requires UpgradeWrite(cfg, was, next, p) && next.complete == IsTrue && !cfg.dryRun
    ensures was.healthy && next.upgrade == was.upgrade
    ensures was.upgrade.Some? && !p.trouble ==>
              p.work.updated.Some? && p.work.updated.value.available == None
              && p.work.updated.value.current == Some(was.upgrade.value.next)
  {
    hide Stopped, AllReady, StartedTimer, PvcsOf, Scaled, CommitVersion;
  }

  /** A live upgrade that is successfully complete, none of whose calls failed, has written to the app that the
      version it last committed is the current one, and that there is no update left to offer. Unless
      somebody else or the rollback has committed, that version is also in the file. */
  lemma CompletionUpdatesTheApp(cfg: Config, init: State, log: seq<Event>, n: nat) returns (app: AppStatus)
    requires n <= |log| && IsRun(cfg, init, log) && !cfg.dryRun
    requires At(cfg, init, log, n).up.complete == IsTrue && !Troubled(log[..n], Upgrader)
    ensures Did(Upgrader, UpdateApp(app)) in log[..n]
    ensures app.available == None && app.current.Some? && HasText(app.current.value)
    ensures LastCommit(log[..n], Upgrader) == Some(TextOf(app.current.value))
    ensures !OthersCommitted(log[..n]) && LastCommit(log[..n], Rollbacker) == None ==>
              VersionIn(cfg, At(cfg, init, log, n).world.file) == Some(Scalar(TextOf(app.current.value)))
  {
    hide Play, At, UpgradeWrite, RollbackWrite, Troubled, OthersCommitted;
    var j := WhenSet(cfg, init, log, Upgrader, DoneMark, n);
    WriteIsAllowed(cfg, init, log, Upgrader, j);
    var s := At(cfg, init, log, j);
    CompleteWriteMeans(cfg, s.up, At(cfg, init, log, j + 1).up, s.upPass);
    if s.upPass.trouble { TroubleShows(cfg, init, log, j, n); }
    PhaseOrder(cfg, init, log, j);
    UpgradeNeverReverts(cfg, init, log, j, n);
    app := s.upPass.work.updated.value;
    NoteWasTaken(cfg, init, log, Upgrader, Made(UpdateApp(app)), j);
    RecordedVersion(cfg, init, log, n);
  }

  /** The version on record is the one committed last, and unless others have committed it is in the file. */
  lemma RecordedVersion(cfg: Config, init: State, log: seq<Event>, n: nat)
    requires n <= |log| && IsRun(cfg, init, log) && At(cfg, init, log, n).up.committed
    ensures var up := At(cfg, init, log, n).up;
            && up.upgrade.Some? && HasText(up.upgrade.value.next)
            && LastCommit(log[..n], Upgrader) == Some(TextOf(up.upgrade.value.next))
            && (!OthersCommitted(log[..n]) && LastCommit(log[..n], Rollbacker) == None ==>
                  VersionIn(cfg, At(cfg, init, log, n).world.file) == Some(Scalar(TextOf(up.upgrade.value.next))))
  {
    hide Play, At, Order, Exclusive, Commits, Mirror, Hold, Snaps, Names, Volumes, Progress, RolledOut, Timers, CommitsIn,
         UnrecordedIn, MissesIn, Theorems.Pending, Lost, Troubled, LastCommit, LastFlux, Theorems.Running, OthersCommitted,
         UpdateVersion, Lookup;
    KeptAt(cfg, init, log, n);
    RememberedAt(cfg, init, log, n);
    HistoryAt(cfg, init, log, n);
    var s := At(cfg, init, log, n);
    VersionsAreTexts(cfg, s.world.app, s.up);
    PathIsPlace(cfg);
    if !s.hist.otherFile && s.hist.rb.version == None { UpdateThenLookup(s.hist.file, cfg.Path(), s.hist.up.version.value); }
  }

  lemma FailWriteMeans(cfg: Config, was: UpStatus, next: UpStatus, p: Pass)
    requires UpgradeWrite(cfg, was, next, p) && next.complete == IsFalse
    ensures next.committed == was.committed
    ensures was.committed && cfg.autoRollback && !p.trouble ==> p.work.rollback
  {
    hide Stopped, AllReady, StartedTimer, PvcsOf, Scaled, CommitVersion, Exercised, Upgraded;
  }

  /** A committed upgrade that failed, none of whose calls failed, has created a rollback if it was to. */
  lemma FailureCreatesRollback(cfg: Config, init: State, log: seq<Event>, n: nat)
    requires n <= |log| && IsRun(cfg, init, log) && cfg.autoRollback && !Troubled(log[..n], Upgrader)
    requires At(cfg, init, log, n).up.complete == IsFalse && At(cfg, init, log, n).up.committed
    ensures Did(Upgrader, CreateRollback) in log[..n]
  {
    hide Play, At, UpgradeWrite, RollbackWrite, Troubled;
    var j := WhenSet(cfg, init, log, Upgrader, FailMark, n);
    WriteIsAllowed(cfg, init, log, Upgrader, j);
    var s := At(cfg, init, log, j);
    FailWriteMeans(cfg, s.up, At(cfg, init, log, j + 1).up, s.upPass);
    if s.upPass.trouble { TroubleShows(cfg, init, log, j, n); }
    CompleteIsAbsorbing(cfg, init, log, j + 1, n);
    NoteWasTaken(cfg, init, log, Upgrader, Made(CreateRollback), j);
  }

  lemma RecordByStep(cfg: Config, s: State, e: Event)
    requires Enabled(cfg, s, e) && (s.up.upgrade.Some? ==> s.up.committed) && UpKept(s.up, Apply(cfg, s, e).up)
    ensures var up := Apply(cfg, s, e).up; up.upgrade.Some? ==> up.committed
  {
    hide UpgradeWrite, RollbackWrite, MayCall, Accepted, EndOk, IsTrueSight, Benign, WorldAfter, PassAfter, UpHistoryAfter,
         RbHistoryAfter, TouchedAfter;
    if e.WriteUpgrade? { OnlyCommitsRecord(cfg, s.up, e.up, s.upPass); }
  }

  lemma OnlyCommitsRecord(cfg: Config, was: UpStatus, next: UpStatus, p: Pass)
    requires UpgradeWrite(cfg, was, next, p)
    ensures next.upgrade == was.upgrade || next.committed
  {
    hide UpgradeWrite, CommitVersion;
    if !CommitWrite(cfg, was, next, p) { NoCommitClaim(cfg, was, next, p); }
  }

  lemma {:induction false} RecordedIsCommitted(cfg: Config, init: State, log: seq<Event>, n: nat)
    requires n <= |log| && IsRun(cfg, init, log)
    ensures var up := At(cfg, init, log, n).up; up.upgrade.Some? ==> up.committed
  {
    hide Play, At, Apply, Enabled, UpKept, Kept;
    if n == 0 {
      FirstEmpty(cfg, init, log);
    } else {
      RecordedIsCommitted(cfg, init, log, n - 1);
      StepAt(cfg, init, log, n - 1);
      UpgradeNeverReverts(cfg, init, log, n - 1, n);
      RecordByStep(cfg, At(cfg, init, log, n - 1), log[n - 1]);
    }
  }

  /** Upgrade, then roll back: unless somebody else commits, a completed rollback leaves the original file if and
      only if what was in the version's place is the text of the version that was current when the
      committing pass last read the app. */
  lemma RoundTrip(cfg: Config, init: State, log: seq<Event>) returns (j: nat, app: AppStatus)
    requires IsRun(cfg, init, log) && Play(cfg, init, log).value.rb.complete == IsTrue && !OthersCommitted(log)
    ensures j < |log| && Sets(cfg, init, log, Upgrader, CommitMark, j) && AppRead(log[..j], Upgrader) == Some(app)
    ensures app.current.Some? && HasText(app.current.value)
    ensures Play(cfg, init, log).value.world.file == init.world.file
            <==> VersionIn(cfg, init.world.file) == Some(Scalar(TextOf(app.current.value)))
  {
    hide Play, At, OthersCommitted;
    AtIsPlay(cfg, init, log, |log|);
    assert log[..|log|] == log;
    RollbackRestoresTheFile(cfg, init, log);
    RecordedIsCommitted(cfg, init, log, |log|);
    j, app := RecordIsTrue(cfg, init, log, |log|);
  }

  // ----- what is irreversible -----

  /** The target was suspended in the cluster, at some moment of the pass that takes step `i`. */
  predicate SuspendedInPass(cfg: Config, init: State, log: seq<Event>, who: Actor, i: nat)
    requires i <= |log| && IsRun(cfg, init, log)
  {
    exists b | 0 <= b < i ::
      At(cfg, init, log, b).world.flux != Running && log[b].Saw? && forall k | b <= k < i :: log[k] != Begin(who)
  }

  lemma NeedsVerification(cfg: Config, s: State, who: Actor, call: Call)
    requires MayCall(cfg, s, who, call) && (call.Commit? || call.DeletePvc? || call.CreatePvc?)
    ensures PassOf(s, who).flux.verified
  {
    hide NextToRestore, NamesOf, UpdateVersion, GetVersion, Prepared, CommitVersion, RevertVersion;
  }

  /** Nothing is committed, and no PVC deleted or created, but by a pass during which the target was suspended. */
  lemma ActsWhileSuspended(cfg: Config, init: State, log: seq<Event>, i: nat)
    requires i < |log| && IsRun(cfg, init, log)
    requires log[i].Did? && (log[i].call.Commit? || log[i].call.DeletePvc? || log[i].call.CreatePvc?)
    ensures SuspendedInPass(cfg, init, log, log[i].who, i)
  {
    hide Play, At, Apply, MayCall, Accepted;
    StepAt(cfg, init, log, i);
    var who := log[i].who;
    NeedsVerification(cfg, At(cfg, init, log, i), who, log[i].call);
    VerifiedWasSeen(cfg, init, log, who, i);
    var b :| 0 <= b < i && log[b] == Saw(who, SawSuspended(true)) && forall k | b < k < i :: log[k] != Begin(who);
    StepsAreFacts(cfg, init, log, b);
  }

  /** In the cluster, the PVC was not there, then was there, made from the snapshot, which had been ready, and
      then was bound. */
  predicate MadeAndBound(cfg: Config, init: State, log: seq<Event>, ref: SnapRef, i: nat)
    requires i <= |log| && IsRun(cfg, init, log)
  {
    exists c, b | 0 <= c < b < i ::
      && log[c] == Did(Rollbacker, CreatePvc(ref)) && InPass(log, Rollbacker, Saw(Rollbacker, SawReady(ref.snap, true)), c)
      && ref.pvc !in At(cfg, init, log, c).world.pvcs
      && ref.pvc in At(cfg, init, log, c + 1).world.pvcs
      && At(cfg, init, log, c + 1).world.pvcs[ref.pvc] == Pvc(FromSnapshot(ref.snap), false, false)
      && log[b].Saw? && ref.pvc in At(cfg, init, log, b).world.pvcs && At(cfg, init, log, b).world.pvcs[ref.pvc].bound
  }

  lemma CreationNeedsReady(cfg: Config, s: State, ref: SnapRef)
    requires RollbackCall(cfg, s.rb, s.rbPass, CreatePvc(ref))
    ensures ref.snap in s.rbPass.seen.ready
  {
    hide NextToRestore, NamesOf;
  }

  lemma CreatedInTheWorld(cfg: Config, init: State, log: seq<Event>, c: nat, ref: SnapRef)
    requires c < |log| && IsRun(cfg, init, log) && log[c] == Did(Rollbacker, CreatePvc(ref))
    ensures InPass(log, Rollbacker, Saw(Rollbacker, SawReady(ref.snap, true)), c)
    ensures ref.pvc !in At(cfg, init, log, c).world.pvcs
    ensures ref.pvc in At(cfg, init, log, c + 1).world.pvcs
    ensures At(cfg, init, log, c + 1).world.pvcs[ref.pvc] == Pvc(FromSnapshot(ref.snap), false, false)
  {
    hide Play, At, Apply, RollbackCall, UpgradeCall, Accepted, InPass;
    StepsAreFacts(cfg, init, log, c);
    StepAt(cfg, init, log, c);
    CreationNeedsReady(cfg, At(cfg, init, log, c), ref);
    NoteWasTaken(cfg, init, log, Rollbacker, Read(SawReady(ref.snap, true)), c);
  }

  /** Unless snapshots are skipped, once the volumes are persisted as restored, that is a fact for every listed
      PVC. */
  lemma RestoredIsAFact(cfg: Config, init: State, log: seq<Event>, i: nat, ref: SnapRef)
    requires i <= |log| && IsRun(cfg, init, log)
    requires var s := At(cfg, init, log, i); s.rb.volumes && !cfg.skipSnapshot && ref in Firsts(s.up.snapshots)
    ensures MadeAndBound(cfg, init, log, ref, i)
  {
    hide Play, At, Firsts, InPass, Recreated, TouchedSince, Replaces, Felt, Vacant;
    AllVolumesRestored(cfg, init, log, i, ref);
    var c, b :| 0 <= c < b < i && log[c] == Did(Rollbacker, CreatePvc(ref))
                && log[b] == Saw(Rollbacker, SawBound(ref.pvc, true))
                && forall k | c < k < i :: !Replaces(log[k], ref.pvc);
    CreatedInTheWorld(cfg, init, log, c, ref);
    StepsAreFacts(cfg, init, log, b);
  }

  /** In the cluster, the snapshot was made new, of its PVC, with the workloads persisted as stopped, and was
      ready at some time. */
  predicate SnappedAndReady(cfg: Config, init: State, log: seq<Event>, ref: SnapRef, i: nat)
    requires i <= |log| && IsRun(cfg, init, log)
  {
    exists c, m | 0 <= c < i && 0 <= m < i ::
      && log[c].Did? && At(cfg, init, log, c).up.stopped && ref.snap !in At(cfg, init, log, c).world.snaps
      && ref.snap in At(cfg, init, log, c + 1).world.snaps
      && At(cfg, init, log, c + 1).world.snaps[ref.snap] == Snapshot(ref.pvc, false)
      && log[m].Saw? && ref.snap in At(cfg, init, log, m).world.snaps && At(cfg, init, log, m).world.snaps[ref.snap].ready
  }

  /** With snapshots on and an explicit PVC list, a committed upgrade has snapshots of the listed PVCs, in order,
      and that is a fact for each of them. */
  lemma SnapshotsAreFacts(cfg: Config, init: State, log: seq<Event>, i: nat, ref: SnapRef)
    requires i <= |log| && IsRun(cfg, init, log)
    requires !cfg.skipSnapshot && cfg.snapshotsOn && cfg.explicitPvcs != [] && At(cfg, init, log, i).up.committed
    requires ref in At(cfg, init, log, i).up.snapshots
    ensures PvcsOf(At(cfg, init, log, i).up.snapshots) == cfg.explicitPvcs
    ensures SnappedAndReady(cfg, init, log, ref, i)
  {
    hide Play, At, Apply, DistinctSnaps, OthersDeletedSnapshots;
    SnapshotsCoverTheList(cfg, init, log, i);
    var fact := SnapFact(ref, true);
    assert Taken(cfg, init, log, fact, i);
    var c :| 0 <= c < i && log[c].Did? && log[c].who == Upgrader && log[c].call.CreateSnapshot?
             && ref == SnapRef(log[c].call.pvc, SnapshotName(cfg, log[c].call.pvc, log[c].call.timestamp))
             && At(cfg, init, log, c).up.stopped;
    assert ref.snap == cfg.appName + "-" + ref.pvc + "-pre-upgrade-" + log[c].call.timestamp;
    var m :| 0 <= m < i && log[..i][m] == Saw(Upgrader, SawReady(ref.snap, true));
    StepsAreFacts(cfg, init, log, c);
    StepsAreFacts(cfg, init, log, m);
  }

  // ----- dry runs -----

  lemma RunningBySight(cfg: Config, p: Pass, sight: Sight)
    requires var q := NoteSight(cfg, p, Upgrader, sight); q.flux.last == Resumed && q.flux.running
    ensures p.flux.last == Resumed && (sight == SawSuspended(false) || p.flux.running)
  {
    hide Hoped, WorkAfterSight, SightsAfter;
  }

  lemma RunningByCall(cfg: Config, p: Pass, call: Call)
    requires var q := NoteCall(cfg, p, call); q.flux.last == Resumed && q.flux.running
    ensures p.flux.last == Resumed && p.flux.running
  {
    hide SnapshotName, WorkAfterCall, SightsAfterCall;
  }

  lemma RunningByStep(cfg: Config, s: State, e: Event)
    requires var q := Apply(cfg, s, e).upPass; q.flux.last == Resumed && q.flux.running
    ensures s.upPass.flux.last == Resumed && e != Begin(Upgrader)
    ensures (e == Saw(Upgrader, SawSuspended(false)) || s.upPass.flux.running)
  {
    hide WorldAfter, UpHistoryAfter, RbHistoryAfter, TouchedAfter, RankOf, NoteSight, NoteCall;
    if By(e, Upgrader) {
      match e
      case Saw(_, sight) => RunningBySight(cfg, s.upPass, sight);
      case Did(_, call) => RunningByCall(cfg, s.upPass, call);
      case _ =>
    }
  }

  /** The upgrade has resumed Flux, after which the target was running. */
  predicate ResumedThenRunning(cfg: Config, init: State, log: seq<Event>, i: nat)
    requires i <= |log| && IsRun(cfg, init, log)
  {
    exists r, k | 0 <= r < k < i ::
      log[r] == Did(Upgrader, ResumeFlux) && log[k].Saw? && At(cfg, init, log, k).world.flux == Running
  }

  lemma {:induction false} RunningSinceResume(cfg: Config, init: State, log: seq<Event>, i: nat)
    requires i <= |log| && IsRun(cfg, init, log)
    requires var p := At(cfg, init, log, i).upPass; p.flux.last == Resumed && p.flux.running
    ensures ResumedThenRunning(cfg, init, log, i)
  {
    hide Play, Apply, Enabled, At;
    FirstEmpty(cfg, init, log);
    StepAt(cfg, init, log, i - 1);
    RunningByStep(cfg, At(cfg, init, log, i - 1), log[i - 1]);
    if log[i - 1] == Saw(Upgrader, SawSuspended(false)) {
      NoteWasTaken(cfg, init, log, Upgrader, Made(ResumeFlux), i - 1);
      StepsAreFacts(cfg, init, log, i - 1);
    } else {
      RunningSinceResume(cfg, init, log, i - 1);
    }
  }

  lemma DryWriteMeans(cfg: Config, was: UpStatus, next: UpStatus, p: Pass)
    requires UpgradeWrite(cfg, was, next, p) && cfg.dryRun
    ensures next.complete == IsTrue ==> p.flux.last == Resumed && p.flux.running
    ensures !was.snapReady && next.snapReady ==>
              p.seen.workloads.Some? && forall w | w in p.seen.workloads.value :: w in p.work.scaled && p.work.scaled[w] == 1
  {
    hide Stopped, StartedTimer, Exercised;
  }

  /** A dry run that is successfully complete has left the target running after its own resume. */
  lemma DryRunLeavesItRunning(cfg: Config, init: State, log: seq<Event>, n: nat)
    requires n <= |log| && IsRun(cfg, init, log) && cfg.dryRun && At(cfg, init, log, n).up.complete == IsTrue
    ensures ResumedThenRunning(cfg, init, log, n)
  {
    hide Play, At, UpgradeWrite, RollbackWrite;
    var j := WhenSet(cfg, init, log, Upgrader, DoneMark, n);
    WriteIsAllowed(cfg, init, log, Upgrader, j);
    var s := At(cfg, init, log, j);
    DryWriteMeans(cfg, s.up, At(cfg, init, log, j + 1).up, s.upPass);
    RunningSinceResume(cfg, init, log, j);
  }

  /** A dry run that has its workloads persisted as scaled up again has had all of them at one replica. */
  lemma ScaledUpIsAFact(cfg: Config, init: State, log: seq<Event>, n: nat) returns (j: nat, workloads: seq<string>)
    requires n <= |log| && IsRun(cfg, init, log) && cfg.dryRun && At(cfg, init, log, n).up.snapReady
    ensures j < n && Sets(cfg, init, log, Upgrader, VolumeMark, j)
    ensures InPass(log, Upgrader, Saw(Upgrader, SawWorkloads(workloads)), j)
    ensures forall w | w in workloads :: WasSet(cfg, init, log, w, 1, j)
  {
    hide Play, At, UpgradeWrite, RollbackWrite, InPass, WasSet;
    j := WhenSet(cfg, init, log, Upgrader, VolumeMark, n);
    WriteIsAllowed(cfg, init, log, Upgrader, j);
    var s := At(cfg, init, log, j);
    DryWriteMeans(cfg, s.up, At(cfg, init, log, j + 1).up, s.upPass);
    workloads := s.upPass.seen.workloads.value;
    NoteWasTaken(cfg, init, log, Upgrader, Read(SawWorkloads(workloads)), j);
    forall w | w in workloads ensures WasSet(cfg, init, log, w, 1, j) { ScaledWasSet(cfg, init, log, Upgrader, w, j); }
  }
}
