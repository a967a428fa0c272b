/**
 The rollback controller, in the same form as the upgrade controller: every handler works on the fetched
 request in place, breaks into single API calls, and takes only steps the protocol enables.
 */
module Rollback {
  import opened Wrappers
  import opened YamlTree
  import opened Protocol
  import opened Invariants
  import opened ProgressInvariants
  import opened Runs
  import opened WorldFacts
  import opened ClusterApi
  import opened PassSteps
  import opened RollbackSteps

  /** The in-memory copy of the request a pass works on. */
  class RollbackRequest {
    var status: RbStatus

    constructor (status: RbStatus)
      ensures this.status == status
    {
      this.status := status;
    }
  }

  class RollbackReconciler {
    const c: Cluster

    constructor (c: Cluster)
      ensures this.c == c
    {
      this.c := c;
    }

    // ----- writing the status -----

    /** Mark the request failed. Flux is left as it is. */
    method SetFailed(r: RollbackRequest) returns (out: Outcome)
      requires c.Valid() && Local(c.s.rb, r.status, c.s.rbPass) && Faulty(c.s.rbPass)
      modifies c, r
      ensures c.Valid() && old(c.log) <= c.log
      ensures EndOk(c.cfg, c.s, Rollbacker, out)
      ensures out == Error || (out == Done && c.s.rb.complete == IsFalse)
    {
      hide Play, Enabled, Apply, EndOk, Local, Faulty, Final;
      FailReady(c.cfg, c.s, r.status);
      r.status := r.status.(complete := IsFalse);
      out := Finish(r);
    }

    /** Write a final status and let go of the request. */
    method Finish(r: RollbackRequest) returns (out: Outcome)
      requires c.Valid() && Final(c.cfg, c.s, r.status)
      modifies c
      ensures c.Valid() && old(c.log) <= c.log
      ensures EndOk(c.cfg, c.s, Rollbacker, out)
      ensures out == Error || (out == Done && c.s.rb == r.status)
    {
      hide Play, Enabled, Apply, RollbackWrite, Waiting, RankOf;
      var ok := c.WriteRollback(r.status);
      if !ok { return Error; }
      if c.s.rbFinalizer {
        ok := c.SetFinalizer(Rollbacker, false);
        if !ok { return Error; }
      }
      out := Done;
    }

    /** Write a status that brings the request forward, and come back for the next phase. */
    method Save(r: RollbackRequest) returns (ok: bool, out: Outcome)
      requires c.Valid() && Saveable(c.cfg, c.s, r.status)
      modifies c
      ensures c.Valid() && old(c.log) <= c.log
      ensures EndOk(c.cfg, c.s, Rollbacker, out)
      ensures ok ==> c.s.rb == r.status && c.s.rbPass == old(c.s.rbPass) && c.s.rbFinalizer == old(c.s.rbFinalizer)
      ensures out == if ok then Requeue else Error
    {
      hide Play, Enabled, Apply, RollbackWrite, Waiting;
      ok := c.WriteRollback(r.status);
      out := if ok then Requeue else Error;
    }

    /** Start the phase's timer in memory, unless the request already carries its start. */
    method StartPhase(r: RollbackRequest)
      requires c.Valid() && Underway(c.cfg, c.s, r.status)
      modifies c, r
      ensures c.Valid() && old(c.log) <= c.log
      ensures OwnKept(Rollbacker, old(c.s), c.s) && Underway(c.cfg, c.s, r.status)
      ensures Started(c.s, r.status) && r.status == old(r.status).(phaseStart := r.status.phaseStart)
      ensures c.s.rbPass.flux == old(c.s.rbPass.flux)
    {
      hide Play, Enabled, Apply, RbRank, Hoped;
      var start := c.StartTimer(Rollbacker, r.status.phaseStart);
      r.status := r.status.(phaseStart := Some(start));
    }

    /** Come back later, unless the phase is over its time; `persist` tells whether the status is written first. */
    method Wait(r: RollbackRequest, timeout: nat, seconds: nat, persist: bool) returns (over: bool, out: Outcome)
      requires c.Valid() && Started(c.s, r.status) && Idle(c.cfg, c.s, r.status, timeout, persist) && seconds > 0
      modifies c
      ensures c.Valid() && old(c.log) <= c.log
      ensures !over ==> EndOk(c.cfg, c.s, Rollbacker, out)
      ensures !over ==> out == RequeueAfter(seconds) || out == Error
      ensures over ==> OwnKept(Rollbacker, old(c.s), c.s) && c.s.rbPass == old(c.s.rbPass).(timer := c.s.rbPass.timer)
    {
      hide Play, Enabled, Apply, RollbackWrite, EndOk, UpTimeout, DryTimeout, RbTimeout;
      ghost var s0 := c.s;
      over := c.TimedOut(Rollbacker, r.status.phaseStart.value, timeout);
      out := RequeueAfter(seconds);
      if over { return; }
      ghost var s1 := c.s;
      if persist {
        TimerAside(c.cfg, s0, c.s, r.status);
        var ok := c.WriteRollback(r.status);
        if !ok { out := Error; }
      }
      WaitEnds(c.cfg, s0, s1, c.s, r.status, timeout, persist, out);
    }

    /** Fail a request whose handler has not moved its status. */
    method Abandon(r: RollbackRequest) returns (out: Outcome)
      requires c.Valid() && Underway(c.cfg, c.s, r.status) && Faulty(c.s.rbPass)
      modifies c, r
      ensures c.Valid() && old(c.log) <= c.log
      ensures EndOk(c.cfg, c.s, Rollbacker, out)
      ensures out == Error || (out == Done && c.s.rb.complete == IsFalse)
    {
      hide Play, Enabled, Apply, EndOk, Local, Underway, Faulty;
      UnderwayIsLocal(c.cfg, c.s, r.status);
      out := SetFailed(r);
    }

    // ----- what every phase reads first -----

    /** The upgrade and its app; `upgrade` is the answer of the first read. */
    method GetUpgradeAndApp(r: RollbackRequest) returns (ok: bool, upgrade: UpStatus)
      requires c.Valid() && Underway(c.cfg, c.s, r.status)
      modifies c
      ensures c.Valid() && old(c.log) <= c.log && OwnKept(Rollbacker, old(c.s), c.s)
      ensures Underway(c.cfg, c.s, r.status)
      ensures ok ==> (old(Started(c.s, r.status)) ==> Started(c.s, r.status))
      ensures !ok ==> Faulty(c.s.rbPass)
      ensures ok ==> c.s.rbPass.seen.upgrade == Some(upgrade)
      ensures ok ==> (!CanRollBack(c.cfg, upgrade) ==> Faulty(c.s.rbPass))
      ensures ok ==> c.s.rbPass.flux == old(c.s.rbPass.flux)
    {
      hide Play, Enabled, Apply, Underway, NoteSight, Faulty, CanRollBack, Started, GoneOn;
      ok, upgrade := false, NEW_UPGRADE;
      ghost var s0 := c.s;
      UnderwayHas(c.cfg, s0, r.status);
      var u := c.GetUpgrade();
      if u.Err? {
        StillUnderwayFailed(c.cfg, s0, c.s, r.status);
        return;
      }
      upgrade := u.value;
      LookedOn(c.cfg, s0, c.s, SawUpgrade(upgrade), r.status);
      LookedAtUpgrade(c.cfg, s0.rbPass, upgrade);
      FluxAside(c.cfg, s0.rbPass, SawUpgrade(upgrade));
      ghost var s1 := c.s;
      UnderwayHas(c.cfg, s1, r.status);
      var app := c.GetApp(Rollbacker);
      if app.Err? {
        StillUnderwayFailed(c.cfg, s1, c.s, r.status);
        return;
      }
      LookedOn(c.cfg, s1, c.s, SawApp(app.value), r.status);
      AppAside(c.cfg, s1.rbPass, app.value);
      StillUnderway(c.cfg, s1, c.s, r.status);
      ok := true;
    }

    /** Look at the target once more: is it still suspended? */
    method VerifyStillSuspended() returns (ok: bool)
      requires c.Valid() && c.s.rbPass.active && c.s.rbPass.flux.last != Resumed
      modifies c
      ensures c.Valid() && old(c.log) <= c.log && OwnKept(Rollbacker, old(c.s), c.s)
      ensures GoneOn(old(c.s.rbPass), c.s.rbPass) && c.s.rbPass.seen == old(c.s.rbPass.seen)
      ensures if ok then c.s.rbPass.flux.verified else Faulty(c.s.rbPass)
    {
      hide Play, Enabled, Apply;
      var r := c.Ask(Rollbacker, IsSuspended);
      ok := r == Ok(true);
    }

    // ----- suspending -----

    /** Read the file and check that the version can be read and put back. */
    method RunRollbackGitDiffPreview(upgrade: UpStatus) returns (ok: bool)
      requires c.Valid() && c.s.rbPass.active && upgrade.upgrade.Some? && upgrade.upgrade.value.prev.Some?
      requires VersionString(upgrade.upgrade.value.prev.value) == None ==> Faulty(c.s.rbPass)
      modifies c
      ensures c.Valid() && old(c.log) <= c.log && OwnKept(Rollbacker, old(c.s), c.s)
      ensures GoneOn(old(c.s.rbPass), c.s.rbPass) && c.s.rbPass.seen.upgrade == old(c.s.rbPass.seen.upgrade)
      ensures if ok then c.s.rbPass.seen.file.Some? && GetVersion(c.s.rbPass.seen.file.value, c.cfg.Path()).Ok?
                         && RevertVersion(upgrade).Some?
              else Faulty(c.s.rbPass)
    {
      hide Play, Enabled, Apply;
      var version := VersionString(upgrade.upgrade.value.prev.value);
      if version == None { return false; }
      var file := c.ReadFile(Rollbacker);
      if file.Err? { return false; }
      if GetVersion(file.value, c.cfg.Path()).Err? { return false; }
      ReadableIsWritable(file.value, c.cfg.Path(), version.value);
      ok := Edit(c.cfg, file.value, version.value).Ok?;
    }

    method AllSnapshotsReady(refs: seq<SnapRef>) returns (ok: bool)
      requires c.Valid() && c.s.rbPass.active
      modifies c
      ensures c.Valid() && old(c.log) <= c.log && OwnKept(Rollbacker, old(c.s), c.s)
      ensures GoneOn(old(c.s.rbPass), c.s.rbPass)
      ensures c.s.rbPass.seen == old(c.s.rbPass.seen).(ready := c.s.rbPass.seen.ready)
      ensures if ok then AllReady(refs, c.s.rbPass) else Faulty(c.s.rbPass)
    {
      hide Play, Enabled, Apply;
      for i := 0 to |refs|
        invariant c.Valid() && old(c.log) <= c.log && OwnKept(Rollbacker, old(c.s), c.s)
        invariant GoneOn(old(c.s.rbPass), c.s.rbPass)
        invariant c.s.rbPass.seen == old(c.s.rbPass.seen).(ready := c.s.rbPass.seen.ready)
        invariant forall k | 0 <= k < i :: refs[k].snap in c.s.rbPass.seen.ready
      {
        var ready := c.Ask(Rollbacker, IsSnapshotReady(refs[i].snap));
        if ready != Ok(true) { return false; }
      }
      ok := true;
    }

    /** The read-only checks: the suspend target, and every snapshot still there and ready. */
    method RunRollbackPreflight(upgrade: UpStatus) returns (ok: bool)
      requires c.Valid() && c.s.rbPass.active
      modifies c
      ensures c.Valid() && old(c.log) <= c.log && OwnKept(Rollbacker, old(c.s), c.s)
      ensures GoneOn(old(c.s.rbPass), c.s.rbPass) && c.s.rbPass.seen.upgrade == old(c.s.rbPass.seen.upgrade)
      ensures c.s.rbPass.seen.file == old(c.s.rbPass.seen.file)
      ensures ok ==> SuspendTarget in c.s.rbPass.seen.fit
      ensures ok && Restorable(upgrade, c.cfg) ==> AllReady(upgrade.snapshots, c.s.rbPass) && c.s.rbPass.seen.workloads.Some?
      ensures !ok ==> Faulty(c.s.rbPass)
    {
      hide Play, Enabled, Apply;
      ok := c.Probe(Rollbacker, SuspendTarget);
      if !ok || !Restorable(upgrade, c.cfg) { return; }
      ok := AllSnapshotsReady(upgrade.snapshots);
      if !ok { return; }
      var found := c.DiscoverWorkloads(Rollbacker);
      ok := found.Ok?;
    }

    method HandleSuspend(r: RollbackRequest) returns (out: Outcome)
      requires c.Valid() && Underway(c.cfg, c.s, r.status) && r.status == c.s.rb && r.status.suspended == Absent
      modifies c, r
      ensures c.Valid() && old(c.log) <= c.log
      ensures EndOk(c.cfg, c.s, Rollbacker, out)
      ensures Leads(out, Taken(old(c.s.rb), c.s.rb), c.s.rb.complete == IsFalse, {})
      ensures out == Requeue ==> (c.s.rb.volumes <==> old(c.s.rb.volumes) || c.cfg.skipSnapshot || c.s.up.snapshots == [])
    {
      hide Play, Enabled, Apply, EndOk, Underway, Faulty, RevertVersion, GetVersion, Started, AllReady;
      var ok, upgrade := GetUpgradeAndApp(r);
      if !ok { out := Abandon(r); return; }
      if upgrade.complete == Absent { out := Abandon(r); return; }
      if !c.cfg.skipSnapshot && upgrade.snapshots == [] { out := Abandon(r); return; }
      PreviousVersionKnown(upgrade);
      if upgrade.upgrade == None || upgrade.upgrade.value.prev == None { out := Abandon(r); return; }
      ghost var s0 := c.s;
      UnderwayHas(c.cfg, s0, r.status);
      ok := RunRollbackGitDiffPreview(upgrade);
      StillUnderway(c.cfg, s0, c.s, r.status);
      if !ok { out := Abandon(r); return; }
      ghost var s1 := c.s;
      UnderwayHas(c.cfg, s1, r.status);
      ok := RunRollbackPreflight(upgrade);
      StillUnderway(c.cfg, s1, c.s, r.status);
      if !ok { out := Abandon(r); return; }
      out := SuspendPrepared(r, upgrade);
    }

    method SuspendPrepared(r: RollbackRequest, upgrade: UpStatus) returns (out: Outcome)
      requires c.Valid() && Underway(c.cfg, c.s, r.status) && r.status == c.s.rb && r.status.suspended == Absent
      requires c.s.rbPass.seen.upgrade == Some(upgrade) && RbPrepared(c.cfg, c.s.rbPass)
      modifies c, r
      ensures c.Valid() && old(c.log) <= c.log
      ensures EndOk(c.cfg, c.s, Rollbacker, out)
      ensures Leads(out, Taken(old(c.s.rb), c.s.rb), c.s.rb.complete == IsFalse, {})
      ensures out == Requeue ==> (c.s.rb.volumes <==> old(c.s.rb.volumes) || c.cfg.skipSnapshot || c.s.up.snapshots == [])
    {
      hide Play, Enabled, Apply, EndOk, Underway, RbPrepared, Taken, Kept;
      out := Suspend(r, upgrade);
      RunKeeps(c.cfg, c.init, c.log, c.s);
      if out == Requeue { SawTheUpgrade(c.cfg, c.s); }
    }

    method Suspend(r: RollbackRequest, upgrade: UpStatus) returns (out: Outcome)
      requires c.Valid() && Underway(c.cfg, c.s, r.status) && r.status == c.s.rb && r.status.suspended == Absent
      requires c.s.rbPass.seen.upgrade == Some(upgrade) && RbPrepared(c.cfg, c.s.rbPass)
      modifies c, r
      ensures c.Valid() && old(c.log) <= c.log
      ensures EndOk(c.cfg, c.s, Rollbacker, out)
      ensures Leads(out, Taken(old(c.s.rb), c.s.rb), c.s.rb.complete == IsFalse, {})
      ensures out == Requeue ==> c.s.rb.suspended == IsTrue && c.s.rbPass.seen.upgrade == Some(upgrade)
      ensures out == Requeue ==> (c.s.rb.volumes <==> old(c.s.rb.volumes) || c.cfg.skipSnapshot || upgrade.snapshots == [])
    {
      hide Play, Enabled, Apply, EndOk, Underway, Faulty, RbPrepared, RollbackCall, NoteCall, Saveable, Felt;
      ghost var s0 := c.s;
      UnderwayHas(c.cfg, s0, r.status);
      MaySuspend(c.cfg, s0);
      var ok := c.Mutate(Rollbacker, SuspendFlux);
      if !ok {
        StillUnderwayFailed(c.cfg, s0, c.s, r.status);
        out := Abandon(r);
        return;
      }
      r.status := r.status.(suspended := IsTrue);
      if !Restorable(upgrade, c.cfg) { r.status := r.status.(volumes := true); }
      SuspendSaveable(c.cfg, s0, c.s, upgrade, r.status);
      SuspendedKnowing(c.cfg, s0.rbPass);
      var _, o := Save(r);
      out := o;
    }

    // ----- stopping the workloads -----

    method ScaleAll(workloads: seq<string>) returns (ok: bool)
      requires c.Valid() && MayScale(c.cfg, c.s.rb, c.s.rbPass, workloads)
      modifies c
      ensures c.Valid() && old(c.log) <= c.log && OwnKept(Rollbacker, old(c.s), c.s)
      ensures GoneOn(old(c.s.rbPass), c.s.rbPass)
      ensures c.s.rbPass.seen == old(c.s.rbPass.seen).(down := c.s.rbPass.seen.down)
      ensures if ok then Scaled(c.s.rbPass, workloads, 0) else Faulty(c.s.rbPass)
    {
      hide Play, Enabled, Apply, RollbackCall;
      ok := true;
      for i := 0 to |workloads|
        invariant c.Valid() && old(c.log) <= c.log && OwnKept(Rollbacker, old(c.s), c.s)
        invariant ScalingOn(old(c.s.rbPass), c.s.rbPass)
        invariant forall k | 0 <= k < i :: workloads[k] in c.s.rbPass.work.scaled && c.s.rbPass.work.scaled[workloads[k]] == 0
      {
        MayScaleOn(c.cfg, c.s.rb, old(c.s.rbPass), c.s.rbPass, workloads);
        ok := c.Scale(Rollbacker, workloads[i], 0);
        if !ok { return; }
      }
      ok := true;
    }

    /** Are all of them without pods? Stops at the first that is not. */
    method AllDown(workloads: seq<string>) returns (r: Result<bool>)
      requires c.Valid() && c.s.rbPass.active
      modifies c
      ensures c.Valid() && old(c.log) <= c.log && OwnKept(Rollbacker, old(c.s), c.s)
      ensures GoneOn(old(c.s.rbPass), c.s.rbPass) && c.s.rbPass.work == old(c.s.rbPass.work)
      ensures c.s.rbPass.seen.workloads == old(c.s.rbPass.seen.workloads)
      ensures if r == Ok(true) then forall w | w in workloads :: w in c.s.rbPass.seen.down else Faulty(c.s.rbPass)
      ensures r == Ok(false) ==> c.s.rbPass.negative
    {
      hide Play, Enabled, Apply;
      for i := 0 to |workloads|
        invariant c.Valid() && old(c.log) <= c.log && OwnKept(Rollbacker, old(c.s), c.s)
        invariant GoneOn(old(c.s.rbPass), c.s.rbPass) && c.s.rbPass.work == old(c.s.rbPass.work)
        invariant c.s.rbPass.seen.workloads == old(c.s.rbPass.seen.workloads)
        invariant forall k | 0 <= k < i :: workloads[k] in c.s.rbPass.seen.down
      {
        r := c.Ask(Rollbacker, IsScaledDown(workloads[i]));
        if r.Err? || !r.value { return; }
      }
      r := Ok(true);
    }

    /** `go` tells whether the pass goes on to the next phase at once. */
    method HandleStopWorkload(r: RollbackRequest) returns (out: Outcome, go: bool)
      requires c.Valid() && StopPhase(c.cfg, c.s, r.status) && c.s.rbPass.flux.last == NoCall
      modifies c, r
      ensures c.Valid() && old(c.log) <= c.log
      ensures !go ==> EndOk(c.cfg, c.s, Rollbacker, out)
      ensures !go ==> Leads(out, Taken(old(c.s.rb), c.s.rb), c.s.rb.complete == IsFalse, {5})
      ensures go ==> Underway(c.cfg, c.s, r.status) && r.status == c.s.rb && r.status.stopped
      ensures go ==> r.status.suspended != Absent && c.s.rbPass.flux.last == NoCall
      ensures go ==> Taken(old(c.s.rb), c.s.rb)
    {
      hide Play, Enabled, Apply, EndOk, Underway, Faulty, CanRollBack, Started, Restorable, NoteSight;
      go := false;
      StartPhase(r);
      var ok, upgrade := GetUpgradeAndApp(r);
      if !ok { out := Abandon(r); return; }
      if !Restorable(upgrade, c.cfg) {
        out, go := SkipStop(r);
        return;
      }
      ghost var s0 := c.s;
      UnderwayHas(c.cfg, s0, r.status);
      var found := c.DiscoverWorkloads(Rollbacker);
      if found.Err? {
        StillUnderwayFailed(c.cfg, s0, c.s, r.status);
        out := Abandon(r);
        return;
      }
      LookedOn(c.cfg, s0, c.s, SawWorkloads(found.value), r.status);
      LookedAtWorkloads(c.cfg, s0.rbPass, found.value);
      if found.value == [] {
        out, go := SkipStop(r);
        return;
      }
      out := StopFound(r, found.value);
    }

    method SkipStop(r: RollbackRequest) returns (out: Outcome, go: bool)
      requires c.Valid() && StopPhase(c.cfg, c.s, r.status) && Started(c.s, r.status) && c.s.rbPass.flux.last == NoCall
      requires c.s.rbPass.seen.upgrade.Some?
      requires !Restorable(c.s.rbPass.seen.upgrade.value, c.cfg) || c.s.rbPass.seen.workloads == Some([])
      modifies c, r
      ensures c.Valid() && old(c.log) <= c.log
      ensures !go ==> EndOk(c.cfg, c.s, Rollbacker, out)
      ensures !go ==> Leads(out, Taken(old(c.s.rb), c.s.rb), c.s.rb.complete == IsFalse, {5})
      ensures go ==> Underway(c.cfg, c.s, r.status) && r.status == c.s.rb && r.status.stopped
      ensures go ==> r.status.suspended != Absent && c.s.rbPass.flux.last == NoCall
      ensures go ==> Taken(old(c.s.rb), c.s.rb)
    {
      hide Play, Enabled, Apply, EndOk, Saveable, Underway, Restorable;
      ghost var s0, local := c.s, r.status;
      UnderwayHas(c.cfg, s0, local);
      SkipSaveable(c.cfg, c.s, r.status);
      r.status := r.status.(stopped := true);
      go, out := Save(r);
      if go { SavedUnderway(c.cfg, s0, c.s, local, r.status); }
    }

    method StopFound(r: RollbackRequest, workloads: seq<string>) returns (out: Outcome)
      requires c.Valid() && StopPhase(c.cfg, c.s, r.status) && Started(c.s, r.status)
      requires workloads != [] && c.s.rbPass.seen.workloads == Some(workloads)
      requires c.s.rbPass.seen.upgrade.Some? && Restorable(c.s.rbPass.seen.upgrade.value, c.cfg)
      modifies c, r
      ensures c.Valid() && old(c.log) <= c.log
      ensures EndOk(c.cfg, c.s, Rollbacker, out)
      ensures Leads(out, Taken(old(c.s.rb), c.s.rb), c.s.rb.complete == IsFalse, {5})
    {
      hide Play, Enabled, Apply, EndOk, Underway, Faulty, Saveable, Started, MayScale, Scaled, Idle, GoneOn,
           Restorable;
      ghost var s0 := c.s;
      MayScaleDown(c.cfg, c.s, r.status, workloads);
      var ok := ScaleAll(workloads);
      StillUnderway(c.cfg, s0, c.s, r.status);
      if !ok { out := Abandon(r); return; }
      ghost var s1 := c.s;
      UnderwayHas(c.cfg, s1, r.status);
      var down := AllDown(workloads);
      StillScaled(s1.rbPass, c.s.rbPass, workloads, 0);
      StillUnderway(c.cfg, s1, c.s, r.status);
      if down.Err? { out := Abandon(r); return; }
      if !down.value {
        StopIdle(c.cfg, c.s, r.status);
        ghost var s2 := c.s;
        var over;
        over, out := Wait(r, TIMEOUT_SCALE_DOWN, 5, true);
        if over {
          StillUnderwayTimer(c.cfg, s2, c.s, r.status);
          NegativeIsFaulty(s2.rbPass, c.s.rbPass);
          out := Abandon(r);
        }
        return;
      }
      StopSaveable(c.cfg, c.s, r.status);
      r.status := r.status.(stopped := true, phaseStart := None);
      var _, o := Save(r);
      out := o;
    }

    // ----- restoring the volumes -----

    /** Replace every listed PVC by one made from its snapshot, one after the other; then wait until all of
        them are bound. Progress is written down after each PVC. */
    method HandleVolumeRestore(r: RollbackRequest) returns (out: Outcome)
      requires c.Valid() && Underway(c.cfg, c.s, r.status) && c.s.rbPass.flux.last == NoCall
      requires r.status.suspended != Absent && r.status.stopped && !r.status.volumes && !r.status.reverted
      requires c.s.rb.restored != [] ==> c.s.rb.phaseStart.Some?
      modifies c, r
      ensures c.Valid() && old(c.log) <= c.log
      ensures EndOk(c.cfg, c.s, Rollbacker, out)
      ensures Leads(out, Taken(old(c.s.rb), c.s.rb), c.s.rb.complete == IsFalse, {10})
    {
      hide Play, Enabled, Apply, EndOk, Underway, Faulty, CanRollBack, Started, Restoring, NoteSight;
      StartPhase(r);
      var ok, upgrade := GetUpgradeAndApp(r);
      if !ok { out := Abandon(r); return; }
      ghost var s0 := c.s;
      UnderwayHas(c.cfg, s0, r.status);
      ok := VerifyStillSuspended();
      StillUnderway(c.cfg, s0, c.s, r.status);
      if !ok { out := Abandon(r); return; }
      RestoringStarts(c.cfg, c.s, r.status, upgrade.snapshots);
      var go;
      go, out := RestoreAll(r, upgrade.snapshots);
      if go { out := AwaitBound(r, upgrade.snapshots); }
    }

    method RestoreAll(r: RollbackRequest, refs: seq<SnapRef>) returns (go: bool, out: Outcome)
      requires c.Valid() && Restoring(c.cfg, c.s, r.status, refs)
      modifies c, r
      ensures c.Valid() && old(c.log) <= c.log
      ensures if go then Restoring(c.cfg, c.s, r.status, refs) && Listed(refs, r.status.restored, |refs|)
              else EndOk(c.cfg, c.s, Rollbacker, out)
      ensures !go ==> Leads(out, false, c.s.rb.complete == IsFalse, {10})
      ensures go ==> c.s.rb == old(c.s.rb).(restored := c.s.rb.restored, phaseStart := c.s.rb.phaseStart)
    {
      hide Play, Enabled, Apply, EndOk, Restoring;
      go, out := true, Requeue;
      for i := 0 to |refs|
        invariant c.Valid() && old(c.log) <= c.log
        invariant c.s.rb == old(c.s.rb).(restored := c.s.rb.restored, phaseStart := c.s.rb.phaseStart)
        invariant Restoring(c.cfg, c.s, r.status, refs) && Listed(refs, r.status.restored, i)
      {
        if refs[i].pvc !in NamesOf(r.status.restored) {
          go, out := RestoreOne(r, refs, i);
          if !go { return; }
        }
      }
      go := true;
    }

    method RestoreOne(r: RollbackRequest, refs: seq<SnapRef>, i: nat) returns (go: bool, out: Outcome)
      requires c.Valid() && Restoring(c.cfg, c.s, r.status, refs)
      requires i < |refs| && Listed(refs, r.status.restored, i) && refs[i].pvc !in NamesOf(r.status.restored)
      modifies c, r
      ensures c.Valid() && old(c.log) <= c.log
      ensures if go then Restoring(c.cfg, c.s, r.status, refs) && Listed(refs, r.status.restored, i + 1)
              else EndOk(c.cfg, c.s, Rollbacker, out)
      ensures !go ==> Leads(out, false, c.s.rb.complete == IsFalse, {10})
      ensures go ==> c.s.rb == old(c.s.rb).(restored := c.s.rb.restored, phaseStart := c.s.rb.phaseStart)
    {
      hide Play, Enabled, Apply, EndOk, Restoring, Underway, Started, Faulty, RollbackCall, NoteCall, NoteSight, NamesOf,
           Listed, Idle;
      go := false;
      ghost var s0 := c.s;
      RestoringHas(c.cfg, s0, r.status, refs);
      MayDelete(c.cfg, s0, r.status, refs, i);
      var ok, found := c.DeletePvc(Rollbacker, refs[i].pvc);
      if !ok {
        StillUnderwayFailed(c.cfg, s0, c.s, r.status);
        out := Abandon(r);
        return;
      }
      Deleted(c.cfg, s0, c.s, r.status, refs, refs[i].pvc);
      ghost var s1 := c.s;
      RestoringHas(c.cfg, s1, r.status, refs);
      var gone := c.Ask(Rollbacker, IsPvcGone(refs[i].pvc));
      if gone.Err? {
        StillUnderwayFailed(c.cfg, s1, c.s, r.status);
        out := Abandon(r);
        return;
      }
      LookedAtVolume(c.cfg, s1, c.s, SawGone(refs[i].pvc, gone.value), r.status, refs);
      if !gone.value {
        ghost var s2 := c.s;
        RestoringHas(c.cfg, s2, r.status, refs);
        DeletionIdle(c.cfg, s2, r.status, refs, i);
        var over;
        over, out := Wait(r, TIMEOUT_VOLUME_RESTORE, 10, false);
        if over {
          StillUnderwayTimer(c.cfg, s2, c.s, r.status);
          NegativeIsFaulty(s2.rbPass, c.s.rbPass);
          out := Abandon(r);
        }
        return;
      }
      go, out := RestorePvcFromSnapshot(r, refs, i);
    }

    /** Check the snapshot, create the PVC from it, and write the progress down. */
    method RestorePvcFromSnapshot(r: RollbackRequest, refs: seq<SnapRef>, i: nat) returns (go: bool, out: Outcome)
      requires c.Valid() && Restoring(c.cfg, c.s, r.status, refs)
      requires i < |refs| && Listed(refs, r.status.restored, i) && refs[i].pvc !in NamesOf(r.status.restored)
      requires refs[i].pvc in c.s.rbPass.work.gone
      modifies c, r
      ensures c.Valid() && old(c.log) <= c.log
      ensures if go then Restoring(c.cfg, c.s, r.status, refs) && Listed(refs, r.status.restored, i + 1)
              else EndOk(c.cfg, c.s, Rollbacker, out)
      ensures !go ==> Leads(out, false, c.s.rb.complete == IsFalse, {10})
      ensures go ==> c.s.rb == old(c.s.rb).(restored := c.s.rb.restored, phaseStart := c.s.rb.phaseStart)
    {
      hide Play, Enabled, Apply, EndOk, Restoring, Underway, Started, Faulty, RollbackCall, NoteCall, NoteSight, NamesOf,
           Listed;
      go := false;
      ghost var s0 := c.s;
      RestoringHas(c.cfg, s0, r.status, refs);
      var ready := c.Ask(Rollbacker, IsSnapshotReady(refs[i].snap));
      if ready.Err? {
        StillUnderwayFailed(c.cfg, s0, c.s, r.status);
        out := Abandon(r);
        return;
      }
      LookedAtVolume(c.cfg, s0, c.s, SawReady(refs[i].snap, ready.value), r.status, refs);
      ghost var s1 := c.s;
      RestoringHas(c.cfg, s1, r.status, refs);
      if !ready.value {
        NegativeIsFaulty(s1.rbPass, s1.rbPass);
        out := Abandon(r);
        return;
      }
      var sized := c.Probe(Rollbacker, RestoreSize(refs[i].snap));
      if !sized {
        StillUnderwayFailed(c.cfg, s1, c.s, r.status);
        out := Abandon(r);
        return;
      }
      Sized(c.cfg, s1, c.s, r.status, refs, refs[i].snap);
      go, out := CreatePvc(r, refs, i);
    }

    method CreatePvc(r: RollbackRequest, refs: seq<SnapRef>, i: nat) returns (go: bool, out: Outcome)
      requires c.Valid() && Restoring(c.cfg, c.s, r.status, refs)
      requires i < |refs| && Listed(refs, r.status.restored, i) && refs[i].pvc !in NamesOf(r.status.restored)
      requires refs[i].pvc in c.s.rbPass.work.gone && refs[i].snap in c.s.rbPass.seen.ready
      requires RestoreSize(refs[i].snap) in c.s.rbPass.seen.fit
      modifies c, r
      ensures c.Valid() && old(c.log) <= c.log
      ensures if go then Restoring(c.cfg, c.s, r.status, refs) && Listed(refs, r.status.restored, i + 1)
              else EndOk(c.cfg, c.s, Rollbacker, out)
      ensures !go ==> Leads(out, false, c.s.rb.complete == IsFalse, {10})
      ensures go ==> c.s.rb == old(c.s.rb).(restored := c.s.rb.restored, phaseStart := c.s.rb.phaseStart)
    {
      hide Play, Enabled, Apply, EndOk, Restoring, Underway, Started, Faulty, RollbackCall, NoteCall, NoteSight, NamesOf,
           Listed, RollbackWrite;
      go := false;
      ghost var s0 := c.s;
      RestoringHas(c.cfg, s0, r.status, refs);
      MayCreate(c.cfg, s0, r.status, refs, i);
      var ok := c.Mutate(Rollbacker, Call.CreatePvc(refs[i]));
      if !ok {
        StillUnderwayFailed(c.cfg, s0, c.s, r.status);
        out := Abandon(r);
        return;
      }
      AppendWrite(c.cfg, s0, c.s, r.status, refs, i);
      go, out := RecordPvc(r, refs, i);
    }

    /** Write down that the PVC has been recreated. */
    method RecordPvc(r: RollbackRequest, refs: seq<SnapRef>, i: nat) returns (go: bool, out: Outcome)
      requires c.Valid() && Restoring(c.cfg, c.s, r.status, refs)
      requires i < |refs| && Listed(refs, r.status.restored, i) && refs[i].pvc !in NamesOf(r.status.restored)
      requires RollbackWrite(c.cfg, c.s.rb,
                             r.status.(restored := r.status.restored + [RestoredPvc(refs[i], Pending)]), c.s.rbPass)
      modifies c, r
      ensures c.Valid() && old(c.log) <= c.log
      ensures if go then Restoring(c.cfg, c.s, r.status, refs) && Listed(refs, r.status.restored, i + 1)
              else EndOk(c.cfg, c.s, Rollbacker, out)
      ensures !go ==> Leads(out, false, c.s.rb.complete == IsFalse, {10})
      ensures go ==> c.s.rb == old(c.s.rb).(restored := c.s.rb.restored, phaseStart := c.s.rb.phaseStart)
    {
      hide Play, Enabled, Apply, EndOk, Restoring, NamesOf, Listed, RollbackWrite;
      RestoringHas(c.cfg, c.s, r.status, refs);
      ghost var s1, local := c.s, r.status;
      r.status := r.status.(restored := r.status.restored + [RestoredPvc(refs[i], Pending)]);
      go := c.WriteRollback(r.status);
      out := Error;
      AppendEnds(c.cfg, s1, c.s, local, refs, i, go);
    }

    /** Mark each recorded PVC seen bound, in memory; once all are, the phase is over. */
    method AwaitBound(r: RollbackRequest, refs: seq<SnapRef>) returns (out: Outcome)
      requires c.Valid() && Restoring(c.cfg, c.s, r.status, refs) && Listed(refs, r.status.restored, |refs|)
      modifies c, r
      ensures c.Valid() && old(c.log) <= c.log
      ensures EndOk(c.cfg, c.s, Rollbacker, out)
      ensures Leads(out, Taken(old(c.s.rb), c.s.rb), c.s.rb.complete == IsFalse, {10})
    {
      hide Play, Enabled, Apply, EndOk, Restoring, Binding, Listed, Saveable, Local, Faulty, Started, Idle, NoteSight, Felt,
           IsSo;
      BindingStarts(c.cfg, c.s, r.status, refs);
      ghost var count := |r.status.restored|;
      for i := 0 to |r.status.restored|
        invariant c.Valid() && old(c.log) <= c.log && c.s.rb == old(c.s.rb)
        invariant Binding(c.cfg, c.s, r.status, refs, i) && |r.status.restored| == count
      {
        ghost var s0 := c.s;
        BindingHas(c.cfg, s0, r.status, refs, i);
        if r.status.restored[i].state == Restored {
          AlreadyBound(c.cfg, s0, r.status, refs, i);
        } else {
          var bound := c.Ask(Rollbacker, IsPvcBound(r.status.restored[i].ref.pvc));
          if bound.Err? {
            BoundFailed(c.cfg, s0, c.s, r.status, refs, i);
            out := SetFailed(r);
            return;
          }
          BoundLooked(c.cfg, s0, c.s, r.status, refs, i, bound.value);
          if !bound.value {
            ghost var s1 := c.s;
            var over;
            over, out := Wait(r, TIMEOUT_VOLUME_RESTORE, 10, false);
            if over {
              LocalTimer(s1, c.s, r.status);
              out := SetFailed(r);
            }
            return;
          }
          r.status := Mark(r.status, i);
        }
      }
      BindingHas(c.cfg, c.s, r.status, refs, |r.status.restored|);
      VolumesSaveable(c.cfg, c.s, r.status, refs);
      r.status := r.status.(volumes := true, phaseStart := None);
      var _, o := Save(r);
      out := o;
    }

    // ----- the revert -----

    /** Read the file and put the previous version back in. */
    method Render(previous: Option<VersionInfo>, ghost upgrade: UpStatus) returns (r: Result<(string, Yaml)>)
      requires c.Valid() && c.s.rbPass.active && c.s.rbPass.seen.upgrade == Some(upgrade)
      requires upgrade.upgrade.Some? && upgrade.upgrade.value.prev == previous
      requires RevertVersion(upgrade) == None ==> Faulty(c.s.rbPass)
      modifies c
      ensures c.Valid() && old(c.log) <= c.log && OwnKept(Rollbacker, old(c.s), c.s)
      ensures GoneOn(old(c.s.rbPass), c.s.rbPass) && c.s.rbPass.flux == old(c.s.rbPass.flux)
      ensures match r
              case Ok((version, tree)) => Rendered(c.cfg, c.s.rbPass, version, tree)
              case Err => Faulty(c.s.rbPass)
    {
      hide Play, Enabled, Apply;
      if previous == None { return Err; }
      var version: string;
      if previous.value.chart != "" {
        version := previous.value.chart;
      } else if previous.value.tags != [] {
        version := previous.value.tags[0];
      } else {
        return Err;
      }
      var file := c.ReadFile(Rollbacker);
      if file.Err? { return Err; }
      var tree := Edit(c.cfg, file.value, version);
      if tree.Err? {
        UnwritableIsUnreadable(c.cfg, file.value, version);
        return Err;
      }
      r := Ok((version, tree.value));
    }

    method HandleGitRevert(r: RollbackRequest) returns (out: Outcome)
      requires c.Valid() && RevertPhase(c.cfg, c.s, r.status) && c.s.rbPass.flux.last == NoCall
      modifies c, r
      ensures c.Valid() && old(c.log) <= c.log
      ensures EndOk(c.cfg, c.s, Rollbacker, out)
      ensures Leads(out, Taken(old(c.s.rb), c.s.rb), c.s.rb.complete == IsFalse, {})
    {
      hide Play, Enabled, Apply, EndOk, Underway, Faulty, CanRollBack, Started, Rendered, RevertVersion, Kept, Exclusive;
      var ok, upgrade := GetUpgradeAndApp(r);
      if !ok { out := Abandon(r); return; }
      ghost var s0 := c.s;
      UnderwayHas(c.cfg, s0, r.status);
      ok := VerifyStillSuspended();
      StillUnderway(c.cfg, s0, c.s, r.status);
      if !ok { out := Abandon(r); return; }
      ghost var s1 := c.s;
      UnderwayHas(c.cfg, s1, r.status);
      RunKeeps(c.cfg, c.init, c.log, c.s);
      SeenUpgradeRecorded(c.cfg, c.s, upgrade);
      RevertKnown(c.cfg, s0.rbPass, c.s.rbPass, upgrade);
      var rendered := Render(upgrade.upgrade.value.prev, upgrade);
      StillUnderway(c.cfg, s1, c.s, r.status);
      if rendered.Err? { out := Abandon(r); return; }
      out := CommitRevert(r, rendered.value.0, rendered.value.1);
    }

    method CommitRevert(r: RollbackRequest, version: string, tree: Yaml) returns (out: Outcome)
      requires c.Valid() && RevertPhase(c.cfg, c.s, r.status) && c.s.rbPass.flux.verified
      requires Rendered(c.cfg, c.s.rbPass, version, tree)
      modifies c, r
      ensures c.Valid() && old(c.log) <= c.log
      ensures EndOk(c.cfg, c.s, Rollbacker, out)
      ensures Leads(out, Taken(old(c.s.rb), c.s.rb), c.s.rb.complete == IsFalse, {})
    {
      hide Play, Enabled, Apply, EndOk, Underway, RollbackCall, Faulty, Saveable, NoteCall, Rendered;
      ghost var s0 := c.s;
      UnderwayHas(c.cfg, s0, r.status);
      MayCommit(c.cfg, c.s, r.status, version, tree);
      var ok := c.Mutate(Rollbacker, Commit(version, tree));
      if !ok {
        StillUnderwayFailed(c.cfg, s0, c.s, r.status);
        out := Abandon(r);
        return;
      }
      RevertSaveable(c.cfg, s0, c.s, r.status, version, tree);
      r.status := r.status.(reverted := true);
      var _, o := Save(r);
      out := o;
    }

    // ----- after the revert -----

    /** Resume Flux, write that down, and wait until it has reconciled. */
    method HandleReconciling(r: RollbackRequest) returns (out: Outcome)
      requires c.Valid() && ReconcilePhase(c.cfg, c.s, r.status)
      modifies c, r
      ensures c.Valid() && old(c.log) <= c.log
      ensures EndOk(c.cfg, c.s, Rollbacker, out)
      ensures Leads(out, Taken(old(c.s.rb), c.s.rb), c.s.rb.complete == IsFalse, {10})
    {
      hide Play, Enabled, Apply, EndOk, Underway, Faulty, CanRollBack, Started, RollbackCall, NoteCall, RollbackWrite,
           ResumedOnRecord;
      StartPhase(r);
      var ok, upgrade := GetUpgradeAndApp(r);
      if !ok { out := Abandon(r); return; }
      ghost var s0, local := c.s, r.status;
      UnderwayHas(c.cfg, s0, r.status);
      MayResume(c.cfg, s0, r.status);
      ok := c.Mutate(Rollbacker, ResumeFlux);
      if !ok {
        StillUnderwayFailed(c.cfg, s0, c.s, r.status);
        out := Abandon(r);
        return;
      }
      ghost var s1 := c.s;
      ResumedWrite(c.cfg, s0, s1, local);
      r.status := r.status.(suspended := IsFalse);
      ok := c.WriteRollback(r.status);
      ResumedRecorded(c.cfg, s0, s1, c.s, local, ok);
      if !ok { return Error; }
      out := AwaitReconciled(r);
    }

    method AwaitReconciled(r: RollbackRequest) returns (out: Outcome)
      requires c.Valid() && ResumedOnRecord(c.cfg, c.s, r.status)
      modifies c, r
      ensures c.Valid() && old(c.log) <= c.log
      ensures EndOk(c.cfg, c.s, Rollbacker, out)
      ensures Leads(out, Taken(old(c.s.rb), c.s.rb), c.s.rb.complete == IsFalse, {10})
    {
      hide Play, Enabled, Apply, EndOk, Underway, Faulty, Started, Saveable, Idle, NoteSight;
      ghost var s0 := c.s;
      UnderwayHas(c.cfg, s0, r.status);
      var reconciled := c.Ask(Rollbacker, IsReconciled);
      if reconciled.Err? {
        StillUnderwayFailed(c.cfg, s0, c.s, r.status);
        out := Abandon(r);
        return;
      }
      LookedReconciled(c.cfg, s0, c.s, r.status, reconciled.value);
      if !reconciled.value {
        ghost var s1 := c.s;
        var over;
        over, out := Wait(r, TIMEOUT_RECONCILE, 10, false);
        if over {
          StillUnderwayTimer(c.cfg, s1, c.s, r.status);
          out := Abandon(r);
        }
        return;
      }
      r.status := r.status.(reconciled := true, phaseStart := None);
      var _, o := Save(r);
      out := o;
    }

    /** The wait for health is not written down. */
    method HandleHealthChecking(r: RollbackRequest) returns (out: Outcome)
      requires c.Valid() && HealthPhase(c.cfg, c.s, r.status)
      modifies c, r
      ensures c.Valid() && old(c.log) <= c.log
      ensures EndOk(c.cfg, c.s, Rollbacker, out)
      ensures Leads(out, Taken(old(c.s.rb), c.s.rb), c.s.rb.complete == IsFalse, {10})
    {
      hide Play, Enabled, Apply, EndOk, Underway, Faulty, CanRollBack, Started, Saveable, Idle, NoteSight;
      StartPhase(r);
      var ok, upgrade := GetUpgradeAndApp(r);
      if !ok { out := Abandon(r); return; }
      ghost var s0 := c.s;
      UnderwayHas(c.cfg, s0, r.status);
      var healthy := c.Ask(Rollbacker, IsHealthy);
      if healthy.Err? {
        StillUnderwayFailed(c.cfg, s0, c.s, r.status);
        out := Abandon(r);
        return;
      }
      LookedHealthy(c.cfg, s0, c.s, r.status, healthy.value);
      if !healthy.value {
        ghost var s1 := c.s;
        var over;
        over, out := Wait(r, c.cfg.healthTimeout, 10, false);
        if over {
          StillUnderwayTimer(c.cfg, s1, c.s, r.status);
          out := Abandon(r);
        }
        return;
      }
      r.status := r.status.(healthy := true);
      var _, o := Save(r);
      out := o;
    }

    method HandleCompleted(r: RollbackRequest) returns (out: Outcome)
      requires c.Valid() && Underway(c.cfg, c.s, r.status) && r.status == c.s.rb && r.status.healthy
      modifies c, r
      ensures c.Valid() && old(c.log) <= c.log
      ensures EndOk(c.cfg, c.s, Rollbacker, out)
      ensures Leads(out, false, c.s.rb.complete == IsTrue, {})
    {
      hide Play, Enabled, Apply, EndOk, Underway, Final;
      CompleteFinal(c.cfg, c.s, r.status);
      r.status := r.status.(complete := IsTrue);
      out := Finish(r);
    }

    // ----- the reconcile loop -----

    /** Take the phase the persisted conditions call for; after a stop phase that was skipped, also the next. */
    method Advance(r: RollbackRequest) returns (out: Outcome)
      requires c.Valid() && Underway(c.cfg, c.s, r.status) && r.status == c.s.rb && c.s.rbPass.flux.last == NoCall
      modifies c, r
      ensures c.Valid() && old(c.log) <= c.log
      ensures EndOk(c.cfg, c.s, Rollbacker, out)
      ensures out == Requeue ==> TakenOn(old(c.s.rb), c.s.rb)
      ensures out == Done ==> c.s.rb.complete != Absent
    {
      hide Play, Enabled, Apply, EndOk, Underway;
      UnderwayHas(c.cfg, c.s, r.status);
      if r.status.suspended == Absent {
        out := HandleSuspend(r);
      } else if r.status.stopped {
        out := AdvanceStopped(r);
      } else {
        var go;
        out, go := HandleStopWorkload(r);
        if go { out := AdvanceStopped(r); }
      }
    }

    /** The phases after the stop phase. */
    method AdvanceStopped(r: RollbackRequest) returns (out: Outcome)
      requires c.Valid() && Underway(c.cfg, c.s, r.status) && r.status == c.s.rb && c.s.rbPass.flux.last == NoCall
      requires r.status.suspended != Absent && r.status.stopped
      modifies c, r
      ensures c.Valid() && old(c.log) <= c.log
      ensures EndOk(c.cfg, c.s, Rollbacker, out)
      ensures out == Requeue ==> Taken(old(c.s.rb), c.s.rb)
      ensures out == Done ==> c.s.rb.complete != Absent
    {
      hide Play, Enabled, Apply, EndOk, Underway, Order, Timers;
      RunKeeps(c.cfg, c.init, c.log, c.s);
      UnderwayHas(c.cfg, c.s, r.status);
      TimerOnRecord(c.cfg, c.s);
      InOrder(c.cfg, c.s);
      if !r.status.volumes {
        out := HandleVolumeRestore(r);
      } else if !r.status.reverted {
        out := HandleGitRevert(r);
      } else if !r.status.reconciled {
        out := HandleReconciling(r);
      } else if !r.status.healthy {
        out := HandleHealthChecking(r);
      } else {
        out := HandleCompleted(r);
      }
    }

    /** One pass. Whatever everybody else does meanwhile and whichever calls fail, the steps it takes
        continue the run legally, and it ends. */
    method Reconcile() returns (out: Outcome)
      requires c.Valid()
      modifies c
      ensures c.Valid() && old(c.log) <= c.log
      ensures !c.s.rbPass.active && c.log != [] && c.log[|c.log| - 1] == End(Rollbacker, out)
    {
      hide Play, Enabled, Apply, EndOk, Underway;
      var ok := c.Begin(Rollbacker);
      if !ok {
        out := Error;
        TroubledEnd(c.cfg, c.s);
      } else if !c.s.rbFinalizer {
        ghost var s0 := c.s;
        ok := c.SetFinalizer(Rollbacker, true);
        out := if ok then Requeue else Error;
        FinalizerEnd(c.cfg, s0, c.s, ok);
      } else if c.s.rb.complete != Absent {
        out := Done;
        TerminalEnd(c.cfg, c.s);
      } else {
        FreshPass(c.cfg, c.s);
        var r := new RollbackRequest(c.s.rb);
        out := Advance(r);
      }
      c.End(Rollbacker, out);
    }
  }
}
