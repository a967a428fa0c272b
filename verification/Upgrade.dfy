/**
 The upgrade controller. Every handler works on the fetched request in place, breaks into single API
 calls, and is proved to take only steps the protocol enables, whatever happens between its calls.
 */
module Upgrade {
  import opened Wrappers
  import opened YamlTree
  import opened Protocol
  import opened Invariants
  import opened ProgressInvariants
  import opened Runs
  import opened WorldFacts
  import opened ClusterApi
  import opened PassSteps
  import opened UpgradeSteps

  /** The in-memory copy of the request a pass works on. */
  class UpgradeRequest {
    var status: UpStatus

    constructor (status: UpStatus)
      ensures this.status == status
    {
      this.status := status;
    }
  }

  class UpgradeReconciler {
    const c: Cluster

    constructor (c: Cluster)
      ensures this.c == c
    {
      this.c := c;
    }

    // ----- failing -----

    /** Mark the request failed. Before the commit, resume what was suspended; after it, leave Flux alone
        and, if asked to, create a rollback. */
    method SetFailed(u: UpgradeRequest) returns (out: Outcome)
      requires c.Valid() && Local(c.cfg, c.s.up, u.status, c.s.upPass) && Faulty(c.s.upPass)
      modifies c, u
      ensures c.Valid() && old(c.log) <= c.log
      ensures EndOk(c.cfg, c.s, Upgrader, out)
      ensures old(u.status.suspended) == IsTrue && !old(u.status.committed) ==>
                c.s.upPass.trouble || c.s.upPass.flux.last == Resumed
      ensures out == Done ==> c.s.up.complete == IsFalse
      ensures out == Done || out == Error
    {
      hide Play, Enabled, Apply, Local, Faulty, ReadyToFail, EndOk, Final;
      if u.status.committed {
        FailAfterCommit(u);
      } else {
        FailBeforeCommit(u);
      }
      ReadyIsFinal(c.cfg, c.s, u.status);
      out := Finish(u);
    }

    method FailAfterCommit(u: UpgradeRequest)
      requires c.Valid() && Local(c.cfg, c.s.up, u.status, c.s.upPass) && Faulty(c.s.upPass)
      requires u.status.committed
      modifies c, u
      ensures c.Valid() && old(c.log) <= c.log
      ensures ReadyToFail(c.cfg, c.s.up, u.status, c.s.upPass)
      ensures u.status.complete == IsFalse
    {
      hide Play, Enabled, Apply, UpgradeCall, Local, Faulty, ReadyToFail, NoteCall, NoteSight;
      ghost var local, p := u.status, c.s.upPass;
      LocalIsActive(c.cfg, c.s.up, local, p);
      var app := c.GetApp(Upgrader);
      if app.Ok? {
        AppAside(c.cfg, p, app.value);
        if c.cfg.autoRollback {
          ghost var q := c.s.upPass;
          MayCreateRollback(c.cfg, c.s, local, p);
          var ok := c.Mutate(Upgrader, CreateRollback);
          if ok { RollbackCreated(c.cfg, q); }
        }
      }
      CommittedReady(c.cfg, c.s.up, local, p, c.s.upPass);
      u.status := u.status.(complete := IsFalse);
    }

    method FailBeforeCommit(u: UpgradeRequest)
      requires c.Valid() && Local(c.cfg, c.s.up, u.status, c.s.upPass) && Faulty(c.s.upPass)
      requires !u.status.committed
      modifies c, u
      ensures c.Valid() && old(c.log) <= c.log
      ensures ReadyToFail(c.cfg, c.s.up, u.status, c.s.upPass)
      ensures old(u.status.suspended) == IsTrue ==> c.s.upPass.trouble || c.s.upPass.flux.last == Resumed
      ensures u.status.complete == IsFalse
    {
      hide Play, Enabled, Apply, UpgradeCall, Local, Faulty, ReadyToFail, NoteCall, NoteSight, ReadOnly;
      ghost var local, p := u.status, c.s.upPass;
      LocalIsActive(c.cfg, c.s.up, local, p);
      u.status := u.status.(complete := IsFalse);
      if u.status.suspended != IsTrue {
        UnresumedReady(c.cfg, c.s.up, local, p, p);
        return;
      }
      var app := c.GetApp(Upgrader);
      if app.Err? {
        UnresumedReady(c.cfg, c.s.up, local, p, c.s.upPass);
        return;
      }
      Looked(c.cfg, p, SawApp(app.value));
      ghost var q := c.s.upPass;
      LocalAfterLook(c.cfg, c.s.up, local, p, q);
      MayResume(c.cfg, c.s, local);
      var ok := c.Mutate(Upgrader, ResumeFlux);
      if ok {
        u.status := u.status.(suspended := IsFalse);
        ResumedReady(c.cfg, c.s.up, local, q, c.s.upPass);
      } else {
        UnresumedReady(c.cfg, c.s.up, local, q, c.s.upPass);
      }
    }

    /** Write a final status and let go of the request. */
    method Finish(u: UpgradeRequest) returns (out: Outcome)
      requires c.Valid() && Final(c.cfg, c.s, u.status)
      modifies c
      ensures c.Valid() && old(c.log) <= c.log
      ensures EndOk(c.cfg, c.s, Upgrader, out)
      ensures c.s.upPass.flux == old(c.s.upPass.flux) && (old(c.s.upPass.trouble) ==> c.s.upPass.trouble)
      ensures c.s.upPass.work == old(c.s.upPass.work)
      ensures out == Done ==> c.s.up == u.status
      ensures out == Done || out == Error
    {
      hide Play, Enabled, Apply, UpgradeWrite, Waiting, RankOf;
      var ok := c.WriteUpgrade(u.status);
      if !ok { return Error; }
      out := RemoveFinalizer();
    }

    method RemoveFinalizer() returns (out: Outcome)
      requires c.Valid() && c.s.upPass.active && c.s.up.complete != Absent
      modifies c
      ensures c.Valid() && old(c.log) <= c.log && c.s.up == old(c.s.up)
      ensures out == Done || (out == Error && c.s.upPass.trouble)
      ensures c.s.upPass == old(c.s.upPass) || c.s.upPass == old(c.s.upPass).(trouble := true)
    {
      hide Play, Enabled, Apply;
      if c.s.upFinalizer {
        var ok := c.SetFinalizer(Upgrader, false);
        if !ok { return Error; }
      }
      out := Done;
    }

    // ----- preflight -----

    /** Read the file and check that the version can be read and replaced. */
    method RunGitDiffPreview(app: AppStatus) returns (ok: bool)
      requires c.Valid() && c.s.upPass.active
      requires !Plannable(c.cfg, app) ==> c.s.upPass.negative
      modifies c
      ensures c.Valid() && old(c.log) <= c.log && OwnKept(Upgrader, old(c.s), c.s)
      ensures ReadOnly(old(c.s.upPass), c.s.upPass)
      ensures c.s.upPass.seen == old(c.s.upPass.seen).(file := c.s.upPass.seen.file)
      ensures ok ==> Plannable(c.cfg, app)
      ensures ok ==> c.s.upPass.seen.file.Some? && Readable(c.cfg, c.s.upPass.seen.file.value)
      ensures !ok ==> Faulty(c.s.upPass)
    {
      hide Play, Enabled, Apply, NoteSight, Faulty, ReadOnly, GetVersion, UpdateVersion, IsHelmRelease;
      NothingRead(c.s.upPass);
      ghost var p := c.s.upPass;
      var target := TargetOf(c.cfg, app);
      if target == None { return false; }
      if VersionString(target.value) == None { return false; }
      if target.value.chart == "" && c.cfg.versionPath == "" { return false; }
      var file := c.ReadFile(Upgrader);
      if file.Err? {
        Failed(p, c.s.upPass);
        return false;
      }
      LookedAtFile(c.cfg, p, file.value);
      if c.cfg.versionPath == "" && !IsHelmRelease(file.value) { return false; }
      if GetVersion(file.value, c.cfg.Path()).Err? { return false; }
      ReadIsWritable(c.cfg, file.value, VersionString(target.value).value);
      ok := Edit(c.cfg, file.value, VersionString(target.value).value).Ok?;
    }

    /** The read-only checks before anything is changed; the workloads found are the dry run's to exercise. */
    method RunPreflight() returns (ok: bool, workloads: seq<string>)
      requires c.Valid() && c.s.upPass.active
      modifies c
      ensures c.Valid() && old(c.log) <= c.log && OwnKept(Upgrader, old(c.s), c.s)
      ensures ReadOnly(old(c.s.upPass), c.s.upPass) && Preflown(old(c.s.upPass.seen), c.s.upPass.seen)
      ensures !ok ==> c.s.upPass.trouble
      ensures ok ==> SuspendTarget in c.s.upPass.seen.fit
      ensures ok && c.cfg.Snapshots() ==> c.s.upPass.seen.workloads == Some(workloads) && c.s.upPass.seen.pvcs.Some?
                                          && SnapshotClass in c.s.upPass.seen.fit
      ensures ok && !c.cfg.Snapshots() ==> workloads == [] && c.s.upPass.seen.workloads == old(c.s.upPass.seen.workloads)
    {
      hide Play, Enabled, Apply, Hoped;
      workloads := [];
      ok := c.Probe(Upgrader, SuspendTarget);
      if !ok || !c.cfg.Snapshots() { return; }
      ok, workloads := RunSnapshotPreflight();
    }

    method RunSnapshotPreflight() returns (ok: bool, workloads: seq<string>)
      requires c.Valid() && c.s.upPass.active
      modifies c
      ensures c.Valid() && old(c.log) <= c.log && OwnKept(Upgrader, old(c.s), c.s)
      ensures ReadOnly(old(c.s.upPass), c.s.upPass) && Preflown(old(c.s.upPass.seen), c.s.upPass.seen)
      ensures if ok then c.s.upPass.seen.workloads == Some(workloads) && c.s.upPass.seen.pvcs.Some?
                         && SnapshotClass in c.s.upPass.seen.fit
              else c.s.upPass.trouble
    {
      hide Play, Enabled, Apply, Hoped;
      var pvcs := c.DiscoverPvcs(Upgrader);
      if pvcs.Err? { return false, []; }
      var found := c.DiscoverWorkloads(Upgrader);
      if found.Err? { return false, []; }
      workloads := found.value;
      ok := c.Probe(Upgrader, SnapshotClass);
    }

    /** Everything that is checked before Flux is suspended. */
    method Prepare() returns (ok: bool, workloads: seq<string>)
      requires c.Valid() && c.s.upPass.active
      modifies c
      ensures c.Valid() && old(c.log) <= c.log && OwnKept(Upgrader, old(c.s), c.s)
      ensures ReadOnly(old(c.s.upPass), c.s.upPass)
      ensures if ok then Prepared(c.cfg, c.s.upPass) else Faulty(c.s.upPass)
      ensures ok && c.cfg.Snapshots() ==> c.s.upPass.seen.workloads == Some(workloads)
      ensures ok && !c.cfg.Snapshots() ==> workloads == [] && c.s.upPass.seen.workloads == old(c.s.upPass.seen.workloads)
    {
      hide Play, Enabled, Apply, Plannable, Readable;
      ok, workloads := false, [];
      var app := c.GetApp(Upgrader);
      if app.Err? { return; }
      ok := RunGitDiffPreview(app.value);
      if !ok { return; }
      ok, workloads := RunPreflight();
    }

    // ----- writing the status -----

    /** Write a status that brings the request forward, and come back for the next phase. */
    method Save(u: UpgradeRequest) returns (ok: bool, out: Outcome)
      requires c.Valid() && Saveable(c.cfg, c.s, u.status)
      modifies c
      ensures c.Valid() && old(c.log) <= c.log
      ensures EndOk(c.cfg, c.s, Upgrader, out)
      ensures ok ==> c.s.up == u.status && c.s.upPass == old(c.s.upPass) && c.s.upFinalizer == old(c.s.upFinalizer)
      ensures !ok ==> c.s.upPass.trouble
      ensures out == if ok then Requeue else Error
    {
      hide Play, Enabled, Apply, UpgradeWrite, Waiting;
      ok := c.WriteUpgrade(u.status);
      out := if ok then Requeue else Error;
    }

    // ----- the phases -----

    method HandleSuspend(u: UpgradeRequest) returns (out: Outcome)
      requires c.Valid() && !c.cfg.dryRun && Underway(c.cfg, c.s, u.status) && u.status.suspended == Absent
      requires u.status == c.s.up
      modifies c, u
      ensures c.Valid() && old(c.log) <= c.log
      ensures EndOk(c.cfg, c.s, Upgrader, out)
      ensures Leads(out, Taken(c.cfg, old(c.s.up), c.s.up), c.s.up.complete == IsFalse, {})
    {
      hide Play, Enabled, Apply, EndOk, Local, ReadOnly, Faulty, UpgradeCall, Saveable, Prepared, Underway, NoteCall, Felt,
           IsSo;
      UnderwayHas(c.cfg, c.s, u.status);
      ghost var s0 := c.s;
      var ok, _ := Prepare();
      StillUnderway(c.cfg, s0, c.s, u.status);
      if !ok { out := Abandon(u); return; }
      MaySuspend(c.cfg, c.s);
      ghost var s1 := c.s;
      ok := c.Mutate(Upgrader, SuspendFlux);
      if !ok {
        Failed(s1.upPass, c.s.upPass);
        StillUnderway(c.cfg, s1, c.s, u.status);
        out := Abandon(u);
        return;
      }
      u.status := u.status.(suspended := IsTrue);
      if !c.cfg.Snapshots() { u.status := u.status.(snapReady := true); }
      SuspendSaveable(c.cfg, s1, c.s, u.status);
      ok, out := Save(u);
    }

    /** Start the phase's timer in memory, unless the request already carries its start. */
    method StartPhase(u: UpgradeRequest)
      requires c.Valid() && Underway(c.cfg, c.s, u.status)
      modifies c, u
      ensures c.Valid() && old(c.log) <= c.log
      ensures OwnKept(Upgrader, old(c.s), c.s) && Underway(c.cfg, c.s, u.status)
      ensures Started(c.s, u.status) && u.status == old(u.status).(phaseStart := u.status.phaseStart)
      ensures c.s.upPass.seen == old(c.s.upPass.seen) && c.s.upPass.work == old(c.s.upPass.work)
      ensures c.s.upPass.flux == old(c.s.upPass.flux) && c.s.upPass.trouble == old(c.s.upPass.trouble)
    {
      hide Play, Enabled, Apply, UpRank, Hoped;
      var start := c.StartTimer(Upgrader, u.status.phaseStart);
      u.status := u.status.(phaseStart := Some(start));
    }

    /** Come back later, unless the phase is over its time; `persist` tells whether the status is written first. */
    method Wait(u: UpgradeRequest, timeout: nat, seconds: nat, persist: bool) returns (over: bool, out: Outcome)
      requires c.Valid() && Started(c.s, u.status) && Idle(c.cfg, c.s, u.status, timeout, persist) && seconds > 0
      modifies c
      ensures c.Valid() && old(c.log) <= c.log
      ensures !over ==> EndOk(c.cfg, c.s, Upgrader, out)
      ensures !over ==> out == RequeueAfter(seconds) || out == Error
      ensures over ==> OwnKept(Upgrader, old(c.s), c.s) && c.s.upPass == old(c.s.upPass).(timer := c.s.upPass.timer)
    {
      hide Play, Enabled, Apply, UpgradeWrite, EndOk, UpTimeout, DryTimeout, RbTimeout;
      ghost var s0 := c.s;
      over := c.TimedOut(Upgrader, u.status.phaseStart.value, timeout);
      out := RequeueAfter(seconds);
      if over { return; }
      ghost var s1 := c.s;
      if persist {
        TimerAside(c.cfg, s0, c.s, u.status);
        var ok := c.WriteUpgrade(u.status);
        if !ok { out := Error; }
      }
      WaitEnds(c.cfg, s0, s1, c.s, u.status, timeout, persist, out);
    }

    /** Fail a request whose handler has only looked around. */
    method Abandon(u: UpgradeRequest) returns (out: Outcome)
      requires c.Valid() && Underway(c.cfg, c.s, u.status) && Faulty(c.s.upPass)
      modifies c, u
      ensures c.Valid() && old(c.log) <= c.log
      ensures EndOk(c.cfg, c.s, Upgrader, out)
      ensures old(u.status.suspended) == IsTrue && !old(u.status.committed) ==>
                c.s.upPass.trouble || c.s.upPass.flux.last == Resumed
      ensures out == Done ==> c.s.up.complete == IsFalse
      ensures out == Done || out == Error
    {
      hide Play, Enabled, Apply, EndOk, Local, Underway, Faulty;
      UnderwayIsLocal(c.cfg, c.s, u.status);
      out := SetFailed(u);
    }

    // ----- scaling down -----

    method ScaleAll(workloads: seq<string>, count: nat) returns (ok: bool)
      requires c.Valid() && MayScale(c.cfg, c.s.up, c.s.upPass, workloads, count)
      modifies c
      ensures c.Valid() && old(c.log) <= c.log && OwnKept(Upgrader, old(c.s), c.s)
      ensures ReadOnly(old(c.s.upPass), c.s.upPass)
      ensures c.s.upPass.seen == old(c.s.upPass.seen).(down := c.s.upPass.seen.down)
      ensures if ok then Scaled(c.s.upPass, workloads, count) else Faulty(c.s.upPass)
    {
      hide Play, Enabled, Apply, UpgradeCall;
      ok := true;
      for i := 0 to |workloads|
        invariant c.Valid() && old(c.log) <= c.log && OwnKept(Upgrader, old(c.s), c.s)
        invariant ScalingOn(old(c.s.upPass), c.s.upPass)
        invariant forall k | 0 <= k < i :: workloads[k] in c.s.upPass.work.scaled && c.s.upPass.work.scaled[workloads[k]] == count
      {
        MayScaleOn(c.cfg, c.s.up, old(c.s.upPass), c.s.upPass, workloads, count);
        ok := c.Scale(Upgrader, workloads[i], count);
        if !ok { return; }
      }
      ok := true;
    }

    /** Are all of them without pods? Stops at the first that is not. */
    method AllDown(workloads: seq<string>) returns (r: Result<bool>)
      requires c.Valid() && c.s.upPass.active
      modifies c
      ensures c.Valid() && old(c.log) <= c.log && OwnKept(Upgrader, old(c.s), c.s)
      ensures ReadOnly(old(c.s.upPass), c.s.upPass) && c.s.upPass.work == old(c.s.upPass.work)
      ensures c.s.upPass.seen.workloads == old(c.s.upPass.seen.workloads)
      ensures if r == Ok(true) then forall w | w in workloads :: w in c.s.upPass.seen.down else Faulty(c.s.upPass)
      ensures r == Ok(false) ==> c.s.upPass.negative
    {
      hide Play, Enabled, Apply;
      for i := 0 to |workloads|
        invariant c.Valid() && old(c.log) <= c.log && OwnKept(Upgrader, old(c.s), c.s)
        invariant ReadOnly(old(c.s.upPass), c.s.upPass) && c.s.upPass.work == old(c.s.upPass.work)
        invariant c.s.upPass.seen.workloads == old(c.s.upPass.seen.workloads)
        invariant forall k | 0 <= k < i :: workloads[k] in c.s.upPass.seen.down
      {
        r := c.Ask(Upgrader, IsScaledDown(workloads[i]));
        if r.Err? || !r.value { return; }
      }
      r := Ok(true);
    }

    /** `go` tells whether the pass goes on to the next phase at once. */
    method HandleScaleDown(u: UpgradeRequest) returns (out: Outcome, go: bool)
      requires c.Valid() && !c.cfg.dryRun && Underway(c.cfg, c.s, u.status)
      requires u.status.suspended != Absent && !u.status.stopped
      modifies c, u
      ensures c.Valid() && old(c.log) <= c.log
      ensures !go ==> EndOk(c.cfg, c.s, Upgrader, out)
      ensures !go ==> Leads(out, Taken(c.cfg, old(c.s.up), c.s.up), c.s.up.complete == IsFalse, {5})
      ensures go ==> Underway(c.cfg, c.s, u.status) && u.status == c.s.up && u.status.stopped
      ensures go ==> u.status.suspended != Absent && c.s.upPass.work == old(c.s.upPass.work)
      ensures go ==> Taken(c.cfg, old(c.s.up), c.s.up) && c.s.upPass.flux == old(c.s.upPass.flux)
      ensures go ==> c.s.upPass.trouble == old(c.s.upPass.trouble)
    {
      hide Play, Enabled, Apply, EndOk, Local, ReadOnly, Faulty, UpgradeCall, Saveable, Underway, NoteSight, Started, Idle,
           RankOf;
      go := false;
      StartPhase(u);
      ghost var s0 := c.s;
      UnderwayHas(c.cfg, s0, u.status);
      var app := c.GetApp(Upgrader);
      if app.Err? {
        StillUnderwayFailed(c.cfg, s0, c.s, u.status);
        out := Abandon(u);
        return;
      }
      LookedOn(c.cfg, s0, c.s, SawApp(app.value), u.status);
      if !c.cfg.Snapshots() {
        out, go := SkipScaleDown(u);
        return;
      }
      out, go := ScaleDownFound(u);
    }

    method SkipScaleDown(u: UpgradeRequest) returns (out: Outcome, go: bool)
      requires c.Valid() && !c.cfg.dryRun && Underway(c.cfg, c.s, u.status) && Started(c.s, u.status)
      requires u.status.suspended != Absent && !u.status.stopped
      requires !c.cfg.Snapshots() || c.s.upPass.seen.workloads == Some([])
      modifies c, u
      ensures c.Valid() && old(c.log) <= c.log
      ensures !go ==> EndOk(c.cfg, c.s, Upgrader, out)
      ensures !go ==> Leads(out, Taken(c.cfg, old(c.s.up), c.s.up), c.s.up.complete == IsFalse, {5})
      ensures go ==> Underway(c.cfg, c.s, u.status) && u.status == c.s.up && u.status.stopped
      ensures go ==> u.status.suspended != Absent && c.s.upPass.work == old(c.s.upPass.work)
      ensures go ==> Taken(c.cfg, old(c.s.up), c.s.up) && c.s.upPass.flux == old(c.s.upPass.flux)
      ensures go ==> c.s.upPass.trouble == old(c.s.upPass.trouble)
    {
      hide Play, Enabled, Apply, EndOk, Saveable, Underway, RankOf;
      ghost var s0, local := c.s, u.status;
      UnderwayHas(c.cfg, s0, local);
      SkipSaveable(c.cfg, c.s, u.status);
      u.status := u.status.(stopped := true);
      go, out := Save(u);
      if go { SavedUnderway(c.cfg, s0, c.s, local, u.status); }
    }

    method ScaleDownFound(u: UpgradeRequest) returns (out: Outcome, go: bool)
      requires c.Valid() && !c.cfg.dryRun && Underway(c.cfg, c.s, u.status) && Started(c.s, u.status)
      requires u.status.suspended != Absent && !u.status.stopped && c.cfg.Snapshots()
      modifies c, u
      ensures c.Valid() && old(c.log) <= c.log
      ensures !go ==> EndOk(c.cfg, c.s, Upgrader, out)
      ensures !go ==> Leads(out, Taken(c.cfg, old(c.s.up), c.s.up), c.s.up.complete == IsFalse, {5})
      ensures go ==> Underway(c.cfg, c.s, u.status) && u.status == c.s.up && u.status.stopped
      ensures go ==> u.status.suspended != Absent && c.s.upPass.work == old(c.s.upPass.work)
      ensures go ==> Taken(c.cfg, old(c.s.up), c.s.up) && c.s.upPass.flux == old(c.s.upPass.flux)
      ensures go ==> c.s.upPass.trouble == old(c.s.upPass.trouble)
    {
      hide Play, Enabled, Apply, EndOk, Local, ReadOnly, Faulty, UpgradeCall, Saveable, Underway, Started, Idle,
           RankOf, Hoped, MayScale, Scaled, WorkAfterSight, FluxAfterSight;
      go := false;
      ghost var s0 := c.s;
      UnderwayHas(c.cfg, s0, u.status);
      var found := c.DiscoverWorkloads(Upgrader);
      if found.Err? {
        StillUnderwayFailed(c.cfg, s0, c.s, u.status);
        out := Abandon(u);
        return;
      }
      LookedOn(c.cfg, s0, c.s, SawWorkloads(found.value), u.status);
      if found.value == [] {
        out, go := SkipScaleDown(u);
        return;
      }
      ghost var s1 := c.s;
      MayScaleDown(c.cfg, c.s, u.status, found.value);
      var ok := ScaleAll(found.value, 0);
      StillUnderway(c.cfg, s1, c.s, u.status);
      if !ok { out := Abandon(u); return; }
      out := FinishScaleDown(u, found.value);
    }

    method FinishScaleDown(u: UpgradeRequest, workloads: seq<string>) returns (out: Outcome)
      requires c.Valid() && Underway(c.cfg, c.s, u.status) && Started(c.s, u.status) && !c.cfg.dryRun
      requires u.status.suspended != Absent && !u.status.stopped && c.cfg.Snapshots()
      requires workloads != [] && c.s.upPass.seen.workloads == Some(workloads) && Scaled(c.s.upPass, workloads, 0)
      modifies c, u
      ensures c.Valid() && old(c.log) <= c.log
      ensures EndOk(c.cfg, c.s, Upgrader, out)
      ensures Leads(out, Taken(c.cfg, old(c.s.up), c.s.up), c.s.up.complete == IsFalse, {5})
    {
      hide Play, Enabled, Apply, EndOk, Local, ReadOnly, Faulty, UpgradeCall, Saveable, Underway, Started, Idle, RankOf,
           Scaled;
      ghost var s0 := c.s;
      UnderwayHas(c.cfg, s0, u.status);
      var down := AllDown(workloads);
      StillScaled(s0.upPass, c.s.upPass, workloads, 0);
      StillUnderway(c.cfg, s0, c.s, u.status);
      if down.Err? { out := Abandon(u); return; }
      if !down.value {
        ScaleDownIdle(c.cfg, c.s, u.status);
        ghost var s1 := c.s;
        var over;
        over, out := Wait(u, TIMEOUT_SCALE_DOWN, 5, true);
        if over {
          StillUnderwayTimer(c.cfg, s1, c.s, u.status);
          out := Abandon(u);
        }
        return;
      }
      StopSaveable(c.cfg, c.s, u.status);
      u.status := u.status.(stopped := true, phaseStart := None);
      var _, o := Save(u);
      out := o;
    }

    // ----- snapshots -----

    /** Create one snapshot per PVC, all under one timestamp; the first failure ends it. */
    method CreateSnapshotsForUpgrade(pvcs: seq<string>) returns (ok: bool, refs: seq<SnapRef>)
      requires c.Valid() && MaySnapshot(c.cfg, c.s.up, c.s.upPass, pvcs)
      requires c.s.upPass.work.created == [] && c.s.upPass.work.timestamp == None
      modifies c
      ensures c.Valid() && old(c.log) <= c.log && OwnKept(Upgrader, old(c.s), c.s)
      ensures Made(old(c.s.upPass), c.s.upPass)
      ensures if ok then refs == c.s.upPass.work.created && PvcsOf(refs) == pvcs else c.s.upPass.trouble
    {
      hide Play, Enabled, Apply, UpgradeCall, SnapshotName, MayCall, Felt;
      ok, refs := true, [];
      var timestamp: string := *;
      for i := 0 to |pvcs|
        invariant c.Valid() && old(c.log) <= c.log && OwnKept(Upgrader, old(c.s), c.s)
        invariant Made(old(c.s.upPass), c.s.upPass)
        invariant c.s.upPass.work.timestamp == if i == 0 then None else Some(timestamp)
        invariant refs == c.s.upPass.work.created && PvcsOf(refs) == pvcs[..i]
      {
        MayCreate(c.cfg, c.s, old(c.s.upPass), pvcs, i, timestamp);
        ok := c.Mutate(Upgrader, CreateSnapshot(pvcs[i], timestamp));
        if !ok { return; }
        ghost var before := refs;
        refs := refs + [SnapRef(pvcs[i], SnapshotName(c.cfg, pvcs[i], timestamp))];
        assert PvcsOf(refs) == PvcsOf(before) + [pvcs[i]];
      }
      ok := true;
    }

    method HandleSnapshotting(u: UpgradeRequest) returns (out: Outcome)
      requires c.Valid() && SnapshotTime(c.cfg, c.s, u.status)
      modifies c, u
      ensures c.Valid() && old(c.log) <= c.log
      ensures EndOk(c.cfg, c.s, Upgrader, out)
      ensures Leads(out, Taken(c.cfg, old(c.s.up), c.s.up), c.s.up.complete == IsFalse, {10})
    {
      hide Play, Enabled, Apply, EndOk, Underway, NoteSight, Faulty;
      StartPhase(u);
      ghost var s0 := c.s;
      UnderwayHas(c.cfg, s0, u.status);
      var app := c.GetApp(Upgrader);
      if app.Err? {
        StillUnderwayFailed(c.cfg, s0, c.s, u.status);
        out := Abandon(u);
        return;
      }
      LookedOn(c.cfg, s0, c.s, SawApp(app.value), u.status);
      if u.status.snapshots == [] {
        var go;
        go, out := TakeSnapshots(u);
        if !go { return; }
      }
      out := AwaitSnapshots(u);
    }

    method TakeSnapshots(u: UpgradeRequest) returns (go: bool, out: Outcome)
      requires c.Valid() && SnapshotTime(c.cfg, c.s, u.status) && Started(c.s, u.status) && u.status.snapshots == []
      modifies c, u
      ensures c.Valid() && old(c.log) <= c.log
      ensures !go ==> EndOk(c.cfg, c.s, Upgrader, out)
      ensures !go ==> Leads(out, Taken(c.cfg, old(c.s.up), c.s.up), c.s.up.complete == IsFalse, {10})
      ensures go ==> Underway(c.cfg, c.s, u.status) && u.status == c.s.up && u.status.phaseStart.Some?
      ensures go ==> u.status.snapshots != [] && u.status.suspended != Absent && u.status.stopped && !u.status.snapReady
      ensures go ==> c.s.up == old(c.s.up).(snapshots := c.s.up.snapshots, phaseStart := c.s.up.phaseStart)
    {
      hide Play, Enabled, Apply, EndOk, Underway, Faulty, Saveable, Hoped, Made, MaySnapshot, FluxAfterSight, WorkAfterSight,
           Started;
      go := false;
      ghost var s0 := c.s;
      UnderwayHas(c.cfg, s0, u.status);
      var pvcs := c.DiscoverPvcs(Upgrader);
      if pvcs.Err? {
        StillUnderwayFailed(c.cfg, s0, c.s, u.status);
        out := Abandon(u);
        return;
      }
      LookedOn(c.cfg, s0, c.s, SawPvcs(pvcs.value), u.status);
      if pvcs.value == [] {
        NothingSaveable(c.cfg, c.s, u.status);
        u.status := u.status.(snapReady := true);
        var _, o := Save(u);
        out := o;
        return;
      }
      ghost var s1 := c.s;
      MaySnapshotAll(c.cfg, c.s, u.status, pvcs.value);
      var ok, refs := CreateSnapshotsForUpgrade(pvcs.value);
      StillUnderwayMade(c.cfg, s1, c.s, u.status);
      if !ok { out := Abandon(u); return; }
      go, out := RecordSnapshots(u, refs);
    }

    method RecordSnapshots(u: UpgradeRequest, refs: seq<SnapRef>) returns (go: bool, out: Outcome)
      requires c.Valid() && SnapshotPhase(c.cfg, c.s, u.status) && Started(c.s, u.status) && u.status.snapshots == []
      requires refs != [] && refs == c.s.upPass.work.created && c.s.upPass.seen.pvcs == Some(PvcsOf(refs))
      modifies c, u
      ensures c.Valid() && old(c.log) <= c.log
      ensures !go ==> EndOk(c.cfg, c.s, Upgrader, out)
      ensures !go ==> Leads(out, Taken(c.cfg, old(c.s.up), c.s.up), c.s.up.complete == IsFalse, {10})
      ensures go ==> Underway(c.cfg, c.s, u.status) && u.status == c.s.up && u.status.phaseStart.Some?
      ensures go ==> u.status.snapshots != [] && u.status.suspended != Absent && u.status.stopped && !u.status.snapReady
      ensures go ==> c.s.up == old(c.s.up).(snapshots := c.s.up.snapshots, phaseStart := c.s.up.phaseStart)
    {
      hide Play, Enabled, Apply, EndOk, Underway, UpgradeWrite;
      ghost var s0, local := c.s, u.status;
      UnderwayHas(c.cfg, s0, local);
      RecordWrite(c.cfg, c.s, u.status, refs);
      u.status := u.status.(snapshots := refs);
      go := c.WriteUpgrade(u.status);
      out := Error;
      RecordEnds(c.cfg, s0, c.s, local, refs, go);
    }

    /** Are all recorded snapshots ready? If not, come back; the wait is not written down. */
    method AwaitSnapshots(u: UpgradeRequest) returns (out: Outcome)
      requires c.Valid() && SnapshotPhase(c.cfg, c.s, u.status)
      requires u.status.snapshots != [] && u.status == c.s.up && u.status.phaseStart.Some?
      modifies c, u
      ensures c.Valid() && old(c.log) <= c.log
      ensures EndOk(c.cfg, c.s, Upgrader, out)
      ensures Leads(out, Taken(c.cfg, old(c.s.up), c.s.up), c.s.up.complete == IsFalse, {10})
    {
      hide Play, Enabled, Apply, EndOk, Underway, Faulty, Saveable, ReadOnly, Idle, Started;
      ghost var s0 := c.s;
      UnderwayHas(c.cfg, s0, u.status);
      var ready := AllSnapshotsReady(u.status.snapshots);
      StillUnderway(c.cfg, s0, c.s, u.status);
      if ready.Err? { out := Abandon(u); return; }
      if !ready.value {
        SnapshotsIdle(c.cfg, s0, c.s, u.status);
        ghost var s1 := c.s;
        var over;
        over, out := Wait(u, TIMEOUT_SNAPSHOT, 10, false);
        if over {
          StillUnderwayTimer(c.cfg, s1, c.s, u.status);
          out := Abandon(u);
        }
        return;
      }
      ReadySaveable(c.cfg, c.s, u.status);
      u.status := u.status.(snapReady := true, phaseStart := None);
      var _, o := Save(u);
      out := o;
    }

    method AllSnapshotsReady(refs: seq<SnapRef>) returns (r: Result<bool>)
      requires c.Valid() && c.s.upPass.active
      modifies c
      ensures c.Valid() && old(c.log) <= c.log && OwnKept(Upgrader, old(c.s), c.s)
      ensures ReadOnly(old(c.s.upPass), c.s.upPass)
      ensures if r == Ok(true) then AllReady(refs, c.s.upPass) else Faulty(c.s.upPass)
      ensures r == Ok(false) ==> c.s.upPass.negative
    {
      hide Play, Enabled, Apply;
      for i := 0 to |refs|
        invariant c.Valid() && old(c.log) <= c.log && OwnKept(Upgrader, old(c.s), c.s)
        invariant ReadOnly(old(c.s.upPass), c.s.upPass)
        invariant forall k | 0 <= k < i :: refs[k].snap in c.s.upPass.seen.ready
      {
        r := c.Ask(Upgrader, IsSnapshotReady(refs[i].snap));
        if r.Err? || !r.value { return; }
      }
      r := Ok(true);
    }

    // ----- the commit -----

    /** Look at the target once more: is it still suspended? */
    method VerifyStillSuspended() returns (ok: bool)
      requires c.Valid() && c.s.upPass.active && c.s.upPass.flux.last != Resumed
      modifies c
      ensures c.Valid() && old(c.log) <= c.log && OwnKept(Upgrader, old(c.s), c.s)
      ensures ReadOnly(old(c.s.upPass), c.s.upPass) && c.s.upPass.seen == old(c.s.upPass.seen)
      ensures if ok then c.s.upPass.flux.verified && c.s.upPass.flux.holding else Faulty(c.s.upPass)
      ensures ok ==> c.s.upPass.trouble == old(c.s.upPass.trouble)
      ensures c.s.upPass.work == old(c.s.upPass.work)
    {
      hide Play, Enabled, Apply;
      var r := c.Ask(Upgrader, IsSuspended);
      ok := r == Ok(true);
    }

    /** Read the file and put the target version in. */
    method Render(target: VersionInfo) returns (r: Result<(string, Yaml)>)
      requires c.Valid() && c.s.upPass.active
      requires c.s.upPass.seen.app.Some? && TargetOf(c.cfg, c.s.upPass.seen.app.value) == Some(target)
      requires !Plannable(c.cfg, c.s.upPass.seen.app.value) ==> Faulty(c.s.upPass)
      modifies c
      ensures c.Valid() && old(c.log) <= c.log && OwnKept(Upgrader, old(c.s), c.s)
      ensures ReadOnly(old(c.s.upPass), c.s.upPass)
      ensures c.s.upPass.flux == old(c.s.upPass.flux) && c.s.upPass.seen.app == old(c.s.upPass.seen.app)
      ensures match r
              case Ok((version, tree)) => Rendered(c.cfg, c.s.upPass, version, tree)
              case Err => Faulty(c.s.upPass)
    {
      hide Play, Enabled, Apply;
      var version: string;
      if target.chart != "" {
        version := target.chart;
      } else if target.tags != [] {
        version := target.tags[0];
        if c.cfg.versionPath == "" { return Err; }
      } else {
        return Err;
      }
      var file := c.ReadFile(Upgrader);
      if file.Err? { return Err; }
      if c.cfg.versionPath == "" && !IsHelmRelease(file.value) { return Err; }
      var tree := Edit(c.cfg, file.value, version);
      if tree.Err? {
        UnwritableIsUnreadable(c.cfg, file.value, version);
        return Err;
      }
      r := Ok((version, tree.value));
    }

    /** Commit the target version. With neither a configured nor an available target left, the pass dies. */
    method HandleCommitting(u: UpgradeRequest) returns (out: Outcome)
      requires c.Valid() && CommitPhase(c.cfg, c.s, u.status)
      requires !c.s.upPass.trouble
      modifies c, u
      ensures c.Valid() && old(c.log) <= c.log
      ensures out == Panic <==> TargetGone(c.cfg, c.s.upPass)
      ensures if out == Panic then c.s.upPass.active && OwnKept(Upgrader, old(c.s), c.s) else EndOk(c.cfg, c.s, Upgrader, out)
      ensures out == Panic || Leads(out, Taken(c.cfg, old(c.s.up), c.s.up), c.s.up.complete == IsFalse, {})
      ensures out == Requeue ==> RecordTrue(c.cfg, c.s)
    {
      hide Play, Enabled, Apply, EndOk, Underway, NoteSight, Faulty, ReadOnly, Plannable, Rendered;
      ghost var s0 := c.s;
      UnderwayHas(c.cfg, s0, u.status);
      var app := c.GetApp(Upgrader);
      if app.Err? {
        StillUnderwayFailed(c.cfg, s0, c.s, u.status);
        out := Abandon(u);
        return;
      }
      LookedOn(c.cfg, s0, c.s, SawApp(app.value), u.status);
      LookedAtApp(c.cfg, s0.upPass, app.value);
      ghost var s1 := c.s;
      UnderwayHas(c.cfg, s1, u.status);
      var ok := VerifyStillSuspended();
      StillUnderway(c.cfg, s1, c.s, u.status);
      if !ok { out := Abandon(u); return; }
      StillFaulty(s1.upPass, c.s.upPass);
      var target := TargetOf(c.cfg, app.value);
      if target == None {
        UnderwayHas(c.cfg, c.s, u.status);
        assert c.s.upPass.seen.app == Some(app.value);
        return Panic;
      }
      ghost var s2 := c.s;
      UnderwayHas(c.cfg, s2, u.status);
      var rendered := Render(target.value);
      StillUnderway(c.cfg, s2, c.s, u.status);
      if rendered.Err? { out := Abandon(u); return; }
      out := CommitFile(u, app.value, target.value, rendered.value.0, rendered.value.1);
    }

    method CommitFile(u: UpgradeRequest, app: AppStatus, target: VersionInfo, version: string, tree: Yaml)
      returns (out: Outcome)
      requires c.Valid() && CommitPhase(c.cfg, c.s, u.status) && c.s.upPass.flux.verified
      requires c.s.upPass.seen.app == Some(app) && TargetOf(c.cfg, app) == Some(target)
      requires Rendered(c.cfg, c.s.upPass, version, tree)
      modifies c, u
      ensures c.Valid() && old(c.log) <= c.log
      ensures !TargetGone(c.cfg, c.s.upPass)
      ensures out != Panic && EndOk(c.cfg, c.s, Upgrader, out)
      ensures Leads(out, Taken(c.cfg, old(c.s.up), c.s.up), c.s.up.complete == IsFalse, {})
      ensures out == Requeue ==> RecordTrue(c.cfg, c.s)
    {
      hide Play, Enabled, Apply, EndOk, Underway, UpgradeCall, Faulty, Saveable, NoteCall, Rendered;
      ghost var s0 := c.s;
      UnderwayHas(c.cfg, s0, u.status);
      MayCommit(c.cfg, c.s, u.status, version, tree);
      var ok := c.Mutate(Upgrader, Commit(version, tree));
      if !ok {
        StillUnderwayFailed(c.cfg, s0, c.s, u.status);
        out := Abandon(u);
        return;
      }
      CommitSaveable(c.cfg, s0, c.s, u.status, app, target, version, tree);
      CommittedKnowing(c.cfg, s0.upPass, app, target, version, tree);
      u.status := u.status.(upgrade := Some(UpgradeRecord(app.current, target)), committed := true);
      var _, o := Save(u);
      out := o;
    }

    // ----- after the commit -----

    /** Resume Flux and wait until it has reconciled. */
    method HandleReconciling(u: UpgradeRequest) returns (out: Outcome)
      requires c.Valid() && ReconcilePhase(c.cfg, c.s, u.status)
      modifies c, u
      ensures c.Valid() && old(c.log) <= c.log
      ensures EndOk(c.cfg, c.s, Upgrader, out)
      ensures Leads(out, Taken(c.cfg, old(c.s.up), c.s.up), c.s.up.complete == IsFalse, {10})
    {
      hide Play, Enabled, Apply, EndOk, Underway, NoteSight, Faulty, UpgradeCall, NoteCall;
      StartPhase(u);
      ghost var s0 := c.s;
      UnderwayHas(c.cfg, s0, u.status);
      var app := c.GetApp(Upgrader);
      if app.Err? {
        StillUnderwayFailed(c.cfg, s0, c.s, u.status);
        out := Abandon(u);
        return;
      }
      LookedOn(c.cfg, s0, c.s, SawApp(app.value), u.status);
      ghost var s1 := c.s;
      UnderwayHas(c.cfg, s1, u.status);
      MayResumeForward(c.cfg, c.s, u.status);
      var ok := c.Mutate(Upgrader, ResumeFlux);
      if !ok {
        StillUnderwayFailed(c.cfg, s1, c.s, u.status);
        out := Abandon(u);
        return;
      }
      JustResumed(c.cfg, s1, c.s, u.status);
      u.status := u.status.(suspended := IsFalse);
      out := AwaitReconciled(u);
    }

    method AwaitReconciled(u: UpgradeRequest) returns (out: Outcome)
      requires c.Valid() && ResumedForward(c.cfg, c.s, u.status)
      modifies c, u
      ensures c.Valid() && old(c.log) <= c.log
      ensures EndOk(c.cfg, c.s, Upgrader, out)
      ensures Leads(out, Taken(c.cfg, old(c.s.up), c.s.up), c.s.up.complete == IsFalse, {10})
    {
      hide Play, Enabled, Apply, EndOk, Faulty, Saveable, Idle, Local, UpgradeWrite, ReadOnly, ResumedForward;
      ghost var s0 := c.s;
      ResumedForwardHas(c.cfg, s0, u.status);
      var reconciled := c.Ask(Upgrader, IsReconciled);
      if reconciled.Err? {
        FailResumed(c.cfg, s0, c.s, u.status);
        out := SetFailed(u);
        return;
      }
      LookedReconciled(c.cfg, s0, c.s, u.status, reconciled.value);
      if !reconciled.value {
        ghost var s1 := c.s;
        var over;
        over, out := Wait(u, TIMEOUT_RECONCILE, 10, true);
        if over {
          FailOverdue(c.cfg, s1, c.s, u.status);
          out := SetFailed(u);
        }
        return;
      }
      u.status := u.status.(reconciled := true, phaseStart := None);
      var _, o := Save(u);
      out := o;
    }

    /** The wait for health is not written down. */
    method HandleHealthChecking(u: UpgradeRequest) returns (out: Outcome)
      requires c.Valid() && HealthPhase(c.cfg, c.s, u.status)
      modifies c, u
      ensures c.Valid() && old(c.log) <= c.log
      ensures EndOk(c.cfg, c.s, Upgrader, out)
      ensures Leads(out, Taken(c.cfg, old(c.s.up), c.s.up), c.s.up.complete == IsFalse, {10})
    {
      hide Play, Enabled, Apply, EndOk, Underway, NoteSight, Faulty, Started, Saveable, Idle;
      StartPhase(u);
      ghost var s0 := c.s;
      UnderwayHas(c.cfg, s0, u.status);
      var app := c.GetApp(Upgrader);
      if app.Err? {
        StillUnderwayFailed(c.cfg, s0, c.s, u.status);
        out := Abandon(u);
        return;
      }
      LookedOn(c.cfg, s0, c.s, SawApp(app.value), u.status);
      out := AwaitHealthy(u);
    }

    method AwaitHealthy(u: UpgradeRequest) returns (out: Outcome)
      requires c.Valid() && HealthPhase(c.cfg, c.s, u.status) && Started(c.s, u.status)
      modifies c, u
      ensures c.Valid() && old(c.log) <= c.log
      ensures EndOk(c.cfg, c.s, Upgrader, out)
      ensures Leads(out, Taken(c.cfg, old(c.s.up), c.s.up), c.s.up.complete == IsFalse, {10})
    {
      hide Play, Enabled, Apply, EndOk, Underway, NoteSight, Faulty, Started, Saveable, Idle;
      ghost var s0 := c.s;
      UnderwayHas(c.cfg, s0, u.status);
      var healthy := c.Ask(Upgrader, IsHealthy);
      if healthy.Err? {
        StillUnderwayFailed(c.cfg, s0, c.s, u.status);
        out := Abandon(u);
        return;
      }
      LookedHealthy(c.cfg, s0, c.s, u.status, healthy.value);
      if !healthy.value {
        ghost var s1 := c.s;
        var over;
        over, out := Wait(u, c.cfg.healthTimeout, 10, false);
        if over {
          StillUnderwayTimer(c.cfg, s1, c.s, u.status);
          out := Abandon(u);
        }
        return;
      }
      u.status := u.status.(healthy := true);
      var _, o := Save(u);
      out := o;
    }

    /** Record success: update the app, prune snapshots, write the status, let go of the request. Only the
        status write and the finalizer count; failures before them are ignored. */
    method HandleCompleted(u: UpgradeRequest) returns (out: Outcome)
      requires c.Valid() && CompletePhase(c.cfg, c.s, u.status)
      modifies c, u
      ensures c.Valid() && old(c.log) <= c.log
      ensures EndOk(c.cfg, c.s, Upgrader, out)
      ensures Leads(out, false, c.s.up.complete != Absent, {})
      ensures out == Done && c.s.up.complete == IsTrue ==> AppMoved(c.s.up, c.s.upPass)
    {
      hide Play, Enabled, Apply, EndOk, Underway, NoteSight, Faulty, Completing;
      ghost var s0 := c.s;
      UnderwayHas(c.cfg, s0, u.status);
      var app := c.GetApp(Upgrader);
      if app.Err? {
        StillUnderwayFailed(c.cfg, s0, c.s, u.status);
        out := Abandon(u);
        return;
      }
      LookedOn(c.cfg, s0, c.s, SawApp(app.value), u.status);
      LookedAtApp(c.cfg, s0.upPass, app.value);
      ghost var s1 := c.s;
      CompletingStarts(c.cfg, s1, u.status);
      if u.status.upgrade.Some? {
        UpdateManagedApp(u.status.upgrade.value, app.value, s1);
      }
      if c.cfg.snapshotsOn { ApplySnapshotRetention(s1); }
      out := Complete(u, s1);
    }

    method UpdateManagedApp(record: UpgradeRecord, app: AppStatus, ghost from: State)
      requires c.Valid() && Completing(c.cfg, from, c.s)
      requires c.s.up.upgrade == Some(record) && c.s.upPass.seen.app == Some(app)
      modifies c
      ensures c.Valid() && old(c.log) <= c.log
      ensures Completing(c.cfg, from, c.s) && AppUpdated(c.s.upPass, record)
    {
      hide Play, Enabled, Apply;
      var _ := c.Mutate(Upgrader, UpdateApp(app.(current := Some(record.next), available := None)));
    }

    /** Snapshots the retention policy selects are deleted one by one, going on when a deletion fails; here
        any selection may come. */
    method ApplySnapshotRetention(ghost from: State)
      requires c.Valid() && Completing(c.cfg, from, c.s) && c.cfg.snapshotsOn
      modifies c
      ensures c.Valid() && old(c.log) <= c.log
      ensures Completing(c.cfg, from, c.s)
      ensures c.s.upPass == old(c.s.upPass).(trouble := c.s.upPass.trouble) && (old(c.s.upPass.trouble) ==> c.s.upPass.trouble)
    {
      hide Play, Enabled, Apply;
      var victims: seq<string> := *;
      for i := 0 to |victims|
        invariant c.Valid() && old(c.log) <= c.log && Completing(c.cfg, from, c.s)
        invariant c.s.upPass == old(c.s.upPass).(trouble := c.s.upPass.trouble)
        invariant old(c.s.upPass.trouble) ==> c.s.upPass.trouble
      {
        var _ := c.Mutate(Upgrader, DeleteSnapshot(victims[i]));
      }
    }

    method Complete(u: UpgradeRequest, ghost from: State) returns (out: Outcome)
      requires c.Valid() && Completing(c.cfg, from, c.s) && u.status == from.up
      requires u.status.upgrade.Some? ==> AppUpdated(c.s.upPass, u.status.upgrade.value)
      modifies c, u
      ensures c.Valid() && old(c.log) <= c.log
      ensures EndOk(c.cfg, c.s, Upgrader, out)
      ensures Leads(out, false, c.s.up.complete == IsTrue, {})
      ensures out == Done ==> AppMoved(c.s.up, c.s.upPass)
    {
      hide Play, Enabled, Apply, EndOk, FailWrite, SuspendWrite, StopWrite, SnapshotWrite, CommitWrite, ReconcileWrite,
           HealthyWrite;
      u.status := u.status.(suspended := IsFalse, complete := IsTrue);
      out := Finish(u);
    }

    // ----- the dry run -----

    /** Fail a dry run; if it has suspended Flux, resume it first. */
    method SetDryRunFailed(u: UpgradeRequest) returns (out: Outcome)
      requires c.Valid() && c.cfg.dryRun && Local(c.cfg, c.s.up, u.status, c.s.upPass) && Faulty(c.s.upPass)
      modifies c, u
      ensures c.Valid() && old(c.log) <= c.log
      ensures EndOk(c.cfg, c.s, Upgrader, out)
      ensures Leads(out, false, c.s.up.complete == IsFalse, {})
    {
      hide Play, Enabled, Apply, EndOk, Local, UpgradeCall, NoteCall, Faulty;
      if u.status.suspended == IsTrue {
        ghost var s0 := c.s;
        MayResumeDry(c.cfg, c.s, u.status);
        var ok := c.Mutate(Upgrader, ResumeFlux);
        LocalAfterResume(c.cfg, s0, c.s, u.status, ok);
      }
      out := SetFailed(u);
    }

    method DryWait(u: UpgradeRequest, timeout: nat, seconds: nat) returns (out: Outcome)
      requires c.Valid() && c.cfg.dryRun && Local(c.cfg, c.s.up, u.status, c.s.upPass) && Faulty(c.s.upPass)
      requires Started(c.s, u.status) && Idle(c.cfg, c.s, u.status, timeout, true) && seconds > 0
      modifies c, u
      ensures c.Valid() && old(c.log) <= c.log
      ensures EndOk(c.cfg, c.s, Upgrader, out)
      ensures Leads(out, false, c.s.up.complete == IsFalse, {seconds})
    {
      hide Play, Enabled, Apply, EndOk, Local, Started, Idle, Faulty;
      ghost var s0 := c.s;
      var over;
      over, out := Wait(u, timeout, seconds, true);
      if over {
        FailOverdue(c.cfg, s0, c.s, u.status);
        out := SetDryRunFailed(u);
      }
    }

    /** Validate the upgrade, then exercise suspend, scale down, scale up and resume, one of them a pass. */
    method HandleDryRun(u: UpgradeRequest) returns (out: Outcome)
      requires c.Valid() && c.cfg.dryRun && Underway(c.cfg, c.s, u.status) && u.status == c.s.up
      requires u.status.suspended != IsFalse && c.s.upPass.seen.workloads == None
      modifies c, u
      ensures c.Valid() && old(c.log) <= c.log
      ensures EndOk(c.cfg, c.s, Upgrader, out)
      ensures Leads(out, TakenDry(old(c.s.up), c.s.up), c.s.up.complete != Absent, {2, 5})
    {
      hide Play, Enabled, Apply, EndOk, Underway, ReadOnly, Faulty, Prepared;
      ghost var s0 := c.s;
      UnderwayHas(c.cfg, s0, u.status);
      var ok, workloads := Prepare();
      StillUnderway(c.cfg, s0, c.s, u.status);
      if !ok { out := Abandon(u); return; }
      if u.status.suspended != IsTrue {
        out := DryRunSuspend(u);
      } else if workloads != [] && !u.status.stopped {
        out := DryRunScaleDown(u, workloads);
      } else if workloads != [] && !u.status.snapReady {
        out := DryRunScaleUp(u, workloads);
      } else {
        out := DryRunResumeAndComplete(u);
      }
    }

    method DryRunSuspend(u: UpgradeRequest) returns (out: Outcome)
      requires c.Valid() && c.cfg.dryRun && Underway(c.cfg, c.s, u.status) && u.status.suspended == Absent
      requires Prepared(c.cfg, c.s.upPass)
      modifies c, u
      ensures c.Valid() && old(c.log) <= c.log
      ensures EndOk(c.cfg, c.s, Upgrader, out)
      ensures Leads(out, TakenDry(old(c.s.up), c.s.up), c.s.up.complete == IsFalse, {2, 5})
    {
      hide Play, Enabled, Apply, EndOk, Underway, UpgradeCall, Faulty, Local, Saveable, Started, Idle, NoteCall, NoteSight,
           Prepared;
      StartPhase(u);
      ghost var s0 := c.s;
      UnderwayHas(c.cfg, s0, u.status);
      StillPrepared(c.cfg, old(c.s.upPass), s0.upPass);
      MaySuspend(c.cfg, s0);
      var ok := c.Mutate(Upgrader, SuspendFlux);
      if !ok {
        DryFailed(c.cfg, s0, c.s, u.status, TIMEOUT_SUSPEND);
        out := DryWait(u, TIMEOUT_SUSPEND, 5);
        return;
      }
      out := VerifyDrySuspended(u, s0);
    }

    /** Ask whether the target is suspended. */
    method LookAtFlux() returns (r: Result<bool>)
      requires c.Valid() && c.s.upPass.active
      modifies c
      ensures c.Valid() && OwnKept(Upgrader, old(c.s), c.s) && old(c.log) <= c.log
      ensures c.s.upPass == LookedAtFlux(c.cfg, old(c.s.upPass), r)
    {
      hide Play, Enabled, Apply, NoteSight;
      r := c.Ask(Upgrader, IsSuspended);
    }

    method VerifyDrySuspended(u: UpgradeRequest, ghost s0: State) returns (out: Outcome)
      requires c.Valid() && c.cfg.dryRun && Underway(c.cfg, s0, u.status) && Started(s0, u.status)
      requires u.status.suspended == Absent && s0.upPass.active
      requires OwnKept(Upgrader, s0, c.s) && c.s.upPass == NoteCall(c.cfg, s0.upPass, SuspendFlux)
      modifies c, u
      ensures c.Valid() && old(c.log) <= c.log
      ensures EndOk(c.cfg, c.s, Upgrader, out)
      ensures Leads(out, TakenDry(old(c.s.up), c.s.up), c.s.up.complete == IsFalse, {2, 5})
    {
      hide Play, Enabled, Apply, EndOk, Underway, Faulty, Local, Saveable, Started, Idle, NoteCall, LookedAtFlux;
      UnderwayHas(c.cfg, s0, u.status);
      ghost var s1 := c.s;
      NoteCallKeepsActive(c.cfg, s0.upPass, SuspendFlux);
      var suspended := LookAtFlux();
      if suspended != Ok(true) {
        DrySuspendWaits(c.cfg, s0, s1, c.s, u.status, suspended);
        out := DryWait(u, TIMEOUT_SUSPEND, 2);
        return;
      }
      DrySuspendSaveable(c.cfg, s0, s1, c.s, u.status);
      out := SaveDrySuspended(u);
    }

    method SaveDrySuspended(u: UpgradeRequest) returns (out: Outcome)
      requires c.Valid() && Saveable(c.cfg, c.s, u.status.(suspended := IsTrue, phaseStart := None))
      requires c.s.up.suspended == Absent && u.status == c.s.up.(phaseStart := u.status.phaseStart)
      modifies c, u
      ensures c.Valid() && old(c.log) <= c.log
      ensures EndOk(c.cfg, c.s, Upgrader, out)
      ensures Leads(out, TakenDry(old(c.s.up), c.s.up), c.s.up.complete == IsFalse, {2, 5})
    {
      hide Play, Enabled, Apply, EndOk, Saveable;
      u.status := u.status.(suspended := IsTrue, phaseStart := None);
      var _, o := Save(u);
      out := o;
    }

    method DryRunScaleDown(u: UpgradeRequest, workloads: seq<string>) returns (out: Outcome)
      requires c.Valid() && DryScale(c.cfg, c.s, u.status, workloads) && !u.status.stopped
      modifies c, u
      ensures c.Valid() && old(c.log) <= c.log
      ensures EndOk(c.cfg, c.s, Upgrader, out)
      ensures Leads(out, TakenDry(old(c.s.up), c.s.up), c.s.up.complete == IsFalse, {5})
    {
      hide Play, Enabled, Apply, EndOk, Underway, UpgradeCall, Faulty, Local, Saveable, Started, Idle, ReadOnly, MayScale,
           Scaled;
      StartPhase(u);
      ghost var s0 := c.s;
      UnderwayHas(c.cfg, s0, u.status);
      MayScaleDown(c.cfg, c.s, u.status, workloads);
      var ok := ScaleAll(workloads, 0);
      StillUnderway(c.cfg, s0, c.s, u.status);
      if !ok { out := AbandonDry(u); return; }
      ghost var s1 := c.s;
      UnderwayHas(c.cfg, s1, u.status);
      var down := AllDown(workloads);
      StillScaled(s1.upPass, c.s.upPass, workloads, 0);
      StillUnderway(c.cfg, s1, c.s, u.status);
      if down.Err? { out := AbandonDry(u); return; }
      if !down.value {
        DryIdle(c.cfg, c.s, u.status, workloads, TIMEOUT_SCALE_DOWN);
        out := DryWait(u, TIMEOUT_SCALE_DOWN, 5);
        return;
      }
      DryStopSaveable(c.cfg, c.s, u.status, workloads);
      u.status := u.status.(stopped := true, phaseStart := None);
      var _, o := Save(u);
      out := o;
    }

    method AbandonDry(u: UpgradeRequest) returns (out: Outcome)
      requires c.Valid() && c.cfg.dryRun && Underway(c.cfg, c.s, u.status) && Faulty(c.s.upPass)
      modifies c, u
      ensures c.Valid() && old(c.log) <= c.log
      ensures EndOk(c.cfg, c.s, Upgrader, out)
      ensures Leads(out, false, c.s.up.complete == IsFalse, {})
    {
      hide Play, Enabled, Apply, EndOk, Underway, Faulty, Local;
      UnderwayIsLocal(c.cfg, c.s, u.status);
      out := SetDryRunFailed(u);
    }

    /** Scale up under a suspension verified before and after. */
    method DryRunScaleUp(u: UpgradeRequest, workloads: seq<string>) returns (out: Outcome)
      requires c.Valid() && DryScale(c.cfg, c.s, u.status, workloads) && u.status.stopped && !u.status.snapReady
      modifies c, u
      ensures c.Valid() && old(c.log) <= c.log
      ensures EndOk(c.cfg, c.s, Upgrader, out)
      ensures Leads(out, TakenDry(old(c.s.up), c.s.up), c.s.up.complete == IsFalse, {5})
    {
      hide Play, Enabled, Apply, EndOk, Underway, UpgradeCall, Faulty, Local, Saveable, Started, Idle, ReadOnly, MayScale,
           Scaled;
      ghost var s0 := c.s;
      UnderwayHas(c.cfg, s0, u.status);
      var ok := VerifyStillSuspended();
      StillUnderway(c.cfg, s0, c.s, u.status);
      if !ok { out := AbandonDry(u); return; }
      StartPhase(u);
      ghost var s1 := c.s;
      MayScaleUp(c.cfg, c.s, u.status, workloads);
      ok := ScaleAll(workloads, 1);
      StillUnderway(c.cfg, s1, c.s, u.status);
      if !ok { out := AbandonDry(u); return; }
      out := AwaitScaledUp(u, workloads);
    }

    /** Has any of them pods again? Stops at the first that has. */
    method AnyUp(workloads: seq<string>) returns (r: Result<bool>)
      requires c.Valid() && c.s.upPass.active && workloads != []
      modifies c
      ensures c.Valid() && old(c.log) <= c.log && OwnKept(Upgrader, old(c.s), c.s)
      ensures ReadOnly(old(c.s.upPass), c.s.upPass) && c.s.upPass.seen.workloads == old(c.s.upPass.seen.workloads)
      ensures c.s.upPass.work == old(c.s.upPass.work)
      ensures if r == Ok(true) then c.s.upPass.seen.up else Faulty(c.s.upPass)
      ensures r == Ok(false) ==> c.s.upPass.negative
    {
      hide Play, Enabled, Apply;
      for i := 0 to |workloads|
        invariant c.Valid() && old(c.log) <= c.log && OwnKept(Upgrader, old(c.s), c.s)
        invariant ReadOnly(old(c.s.upPass), c.s.upPass)
        invariant c.s.upPass.seen.workloads == old(c.s.upPass.seen.workloads) && c.s.upPass.work == old(c.s.upPass.work)
        invariant i > 0 ==> c.s.upPass.negative
      {
        r := c.Ask(Upgrader, IsScaledUp(workloads[i]));
        if r.Err? || r.value { return; }
      }
      r := Ok(false);
    }

    method AwaitScaledUp(u: UpgradeRequest, workloads: seq<string>) returns (out: Outcome)
      requires c.Valid() && DryScale(c.cfg, c.s, u.status, workloads) && u.status.stopped && !u.status.snapReady
      requires Started(c.s, u.status) && Scaled(c.s.upPass, workloads, 1)
      modifies c, u
      ensures c.Valid() && old(c.log) <= c.log
      ensures EndOk(c.cfg, c.s, Upgrader, out)
      ensures Leads(out, TakenDry(old(c.s.up), c.s.up), c.s.up.complete == IsFalse, {5})
    {
      hide Play, Enabled, Apply, EndOk, Underway, Faulty, Local, Saveable, Started, Idle, ReadOnly, Scaled;
      ghost var s0 := c.s;
      UnderwayHas(c.cfg, s0, u.status);
      var up := AnyUp(workloads);
      StillScaled(s0.upPass, c.s.upPass, workloads, 1);
      StillUnderway(c.cfg, s0, c.s, u.status);
      if up.Err? { out := AbandonDry(u); return; }
      if !up.value {
        DryIdle(c.cfg, c.s, u.status, workloads, TIMEOUT_SCALE_UP);
        out := DryWait(u, TIMEOUT_SCALE_UP, 5);
        return;
      }
      u.status := u.status.(phaseStart := None);
      ghost var s1 := c.s;
      Reset(c.cfg, c.s, u.status, workloads);
      var ok := VerifyStillSuspended();
      ResetStays(c.cfg, s1, c.s, u.status);
      if !ok { out := SetDryRunFailed(u); return; }
      u.status := u.status.(snapReady := true);
      var _, o := Save(u);
      out := o;
    }

    method DryRunResumeAndComplete(u: UpgradeRequest) returns (out: Outcome)
      requires c.Valid() && c.cfg.dryRun && Underway(c.cfg, c.s, u.status) && u.status.suspended == IsTrue
      requires Exercised(c.s.up, c.s.upPass)
      modifies c, u
      ensures c.Valid() && old(c.log) <= c.log
      ensures EndOk(c.cfg, c.s, Upgrader, out)
      ensures Leads(out, false, c.s.up.complete != Absent, {2, 5})
    {
      hide Play, Enabled, Apply, EndOk, Underway, UpgradeCall, Faulty, Local, Final, Started, Idle, NoteCall, LookedAtFlux;
      StartPhase(u);
      ghost var s0 := c.s;
      UnderwayHas(c.cfg, s0, u.status);
      UnderwayIsLocal(c.cfg, s0, u.status);
      MayResumeDry(c.cfg, s0, u.status);
      var ok := c.Mutate(Upgrader, ResumeFlux);
      if !ok {
        DryFailed(c.cfg, s0, c.s, u.status, TIMEOUT_RESUME);
        out := DryWait(u, TIMEOUT_RESUME, 5);
        return;
      }
      ghost var s1 := c.s;
      NoteCallKeepsActive(c.cfg, s0.upPass, ResumeFlux);
      var suspended := LookAtFlux();
      if suspended != Ok(false) {
        DryResumeWaits(c.cfg, s0, s1, c.s, u.status, suspended);
        out := DryWait(u, TIMEOUT_RESUME, 2);
        return;
      }
      DryResumeFinal(c.cfg, s0, s1, c.s, u.status);
      u.status := u.status.(complete := IsTrue, phaseStart := None);
      out := Finish(u);
    }

    // ----- the reconcile loop -----

    /** Take the phase the persisted conditions call for; after a stop phase that was skipped, also the next. */
    method Advance(u: UpgradeRequest) returns (out: Outcome)
      requires c.Valid() && Underway(c.cfg, c.s, u.status) && u.status == c.s.up && !c.s.upPass.trouble
      requires c.s.upPass.work == NO_PASS.work && c.s.upPass.seen == NO_PASS.seen
      modifies c, u
      ensures c.Valid() && old(c.log) <= c.log
      ensures out == Panic ==> c.s.upPass.active && TargetGone(c.cfg, c.s.upPass) && InCommit(c.cfg, c.s.up)
      ensures out != Panic ==> EndOk(c.cfg, c.s, Upgrader, out)
      ensures out == Requeue ==> if c.cfg.dryRun then TakenDry(old(c.s.up), c.s.up) else TakenOn(c.cfg, old(c.s.up), c.s.up)
      ensures out == Done ==> c.s.up.complete != Absent
    {
      hide Play, Enabled, Apply, EndOk, Waiting, Underway, Order, Timers, TargetGone;
      RunKeeps(c.cfg, c.init, c.log, c.s);
      UnderwayHas(c.cfg, c.s, u.status);
      if c.cfg.dryRun {
        DryNotResumed(c.cfg, c.s);
        out := HandleDryRun(u);
      } else if u.status.suspended == Absent {
        out := HandleSuspend(u);
      } else if u.status.stopped {
        out := AdvanceStopped(u);
      } else {
        var go;
        out, go := HandleScaleDown(u);
        if go { out := AdvanceStopped(u); }
      }
    }

    /** The phases after the stop phase. */
    method AdvanceStopped(u: UpgradeRequest) returns (out: Outcome)
      requires c.Valid() && Underway(c.cfg, c.s, u.status) && u.status == c.s.up && !c.s.upPass.trouble && !c.cfg.dryRun
      requires u.status.suspended != Absent && u.status.stopped && c.s.upPass.work == NO_PASS.work
      modifies c, u
      ensures c.Valid() && old(c.log) <= c.log
      ensures out == Panic ==> c.s.upPass.active && TargetGone(c.cfg, c.s.upPass) && InCommit(c.cfg, c.s.up)
      ensures out != Panic ==> EndOk(c.cfg, c.s, Upgrader, out)
      ensures out == Requeue ==> Taken(c.cfg, old(c.s.up), c.s.up)
      ensures out == Done ==> c.s.up.complete != Absent
    {
      hide Play, Enabled, Apply, EndOk, Underway, Order, Timers, TargetGone, UpgradeOrder;
      RunKeeps(c.cfg, c.init, c.log, c.s);
      UnderwayHas(c.cfg, c.s, u.status);
      TimerOnRecord(c.cfg, c.s);
      InOrder(c.cfg, c.s);
      OrderOf(c.cfg, c.s.up);
      if !u.status.snapReady {
        out := HandleSnapshotting(u);
      } else if !u.status.committed {
        out := HandleCommitting(u);
      } else if !u.status.reconciled {
        out := HandleReconciling(u);
      } else if !u.status.healthy {
        out := HandleHealthChecking(u);
      } else {
        out := HandleCompleted(u);
      }
    }

    /** One pass. Whatever everybody else does meanwhile and whichever calls fail, the steps it takes continue
        the run legally, and it ends; unless, in the commit phase, it dies for want of a target version. */
    method Reconcile() returns (out: Outcome)
      requires c.Valid()
      modifies c
      ensures c.Valid() && old(c.log) <= c.log
      ensures out != Panic ==> !c.s.upPass.active && c.log != [] && c.log[|c.log| - 1] == End(Upgrader, out)
      ensures out == Panic ==> c.s.upPass.active && TargetGone(c.cfg, c.s.upPass) && InCommit(c.cfg, c.s.up)
    {
      hide Play, Enabled, Apply, EndOk, Underway, TargetGone, Taken, InCommit;
      var ok := c.Begin(Upgrader);
      if !ok {
        out := Error;
        TroubledEnd(c.cfg, c.s);
      } else if !c.s.upFinalizer {
        ghost var s0 := c.s;
        ok := c.SetFinalizer(Upgrader, true);
        out := if ok then Requeue else Error;
        FinalizerEnd(c.cfg, s0, c.s, ok);
      } else if c.s.up.complete != Absent {
        out := Done;
        TerminalEnd(c.cfg, c.s);
      } else {
        RunKeeps(c.cfg, c.init, c.log, c.s);
        FreshPass(c.cfg, c.s);
        var u := new UpgradeRequest(c.s.up);
        out := Advance(u);
      }
      if out != Panic { c.End(Upgrader, out); }
    }
  }
}
