/**
 The API server, Git and the storage system as the controllers meet them. Before each single call takes
 effect, everybody else may have taken any number of steps; then the call goes through or fails.
 */
module ClusterApi {
  import opened Wrappers
  import opened YamlTree
  import opened Protocol
  import opened Runs
  import opened WorldFacts

  class Cluster {
    const cfg: Config
    ghost const init: State
    var s: State
    ghost var log: seq<Event>

    /** What has happened is a legal run, and it led to the present state. */
    ghost predicate Valid()
      reads this
    {
      Play(cfg, init, log) == Some(s)
    }

    constructor (cfg: Config, s: State)
      requires Initial(s)
      ensures Valid() && this.cfg == cfg && this.s == s && this.init == s && log == []
    {
      this.cfg, this.s, init, log := cfg, s, s, [];
    }

    /** One enabled step. */
    method Step(e: Event)
      requires Valid() && Enabled(cfg, s, e)
      modifies this
      ensures Valid() && s == Apply(cfg, old(s), e) && log == old(log) + [e]
    {
      PlayOne(cfg, init, log, s, e);
      s := Apply(cfg, s, e);
      log := log + [e];
    }

    /** Everybody but `who` acts for a while. */
    method Interfere(who: Actor)
      requires Valid()
      modifies this
      ensures Valid() && Untouched(who, old(s), s) && old(log) <= log
    {
      assert OthersRun(cfg, who, s, [], s);
      var es: seq<Event>, t: State :| OthersRun(cfg, who, s, es, t);
      PlayOthers(cfg, who, init, log, s, es, t);
      OthersLeaveAlone(cfg, who, s, es, t);
      s := t;
      log := log + es;
    }

    // ----- passes -----

    /** Start a pass by reading the own request. */
    method Begin(who: Actor) returns (ok: bool)
      requires Valid()
      modifies this
      ensures Valid() && OwnKept(who, old(s), s) && old(log) <= log
      ensures PassOf(s, who).active && PassOf(s, who).rank == RankOf(s, who)
      ensures PassOf(s, who) == NO_PASS.(active := true, since := PassOf(s, who).since,
                                         rank := PassOf(s, who).rank, trouble := !ok)
    {
      Interfere(who);
      Step(Event.Begin(who));
      ok := *;
      if !ok { Step(Fail(who)); }
    }

    method End(who: Actor, outcome: Outcome)
      requires Valid() && EndOk(cfg, s, who, outcome)
      modifies this
      ensures Valid() && OwnKept(who, old(s), s) && log == old(log) + [Event.End(who, outcome)]
      ensures !PassOf(s, who).active
    {
      Step(Event.End(who, outcome));
    }

    // ----- mutating calls -----

    method Mutate(who: Actor, call: Call) returns (ok: bool)
      requires Valid() && MayCall(cfg, s, who, call)
      modifies this
      ensures Valid() && OwnKept(who, old(s), s) && old(log) <= log
      ensures PassOf(s, who) == if ok then NoteCall(cfg, old(PassOf(s, who)), call)
                                else old(PassOf(s, who)).(trouble := true)
      ensures ok ==> Felt(cfg, s.world, call)
    {
      hide Play, Enabled, Apply, MayCall, Accepted, NoteCall, Felt, Effect;
      ghost var before := s;
      Interfere(who);
      MayCallStays(cfg, before, s, who, call);
      ok := *;
      if ok && Accepted(cfg, s.world, call) {
        StepDid(cfg, s, who, call);
        CallIsFelt(cfg, s.world, who, call);
        Step(Did(who, call));
      } else {
        ok := false;
        StepFail(cfg, s, who);
        Step(Fail(who));
      }
    }

    /** Set a workload's replicas, unless a first look finds them already set. */
    method Scale(who: Actor, workload: string, count: nat) returns (ok: bool)
      requires Valid() && MayCall(cfg, s, who, Call.Scale(workload, count))
      modifies this
      ensures Valid() && OwnKept(who, old(s), s) && old(log) <= log
      ensures PassOf(s, who) == if ok then NoteCall(cfg, old(PassOf(s, who)), Call.Scale(workload, count))
                                else old(PassOf(s, who)).(trouble := true)
      ensures ok ==> workload in s.world.replicas && s.world.replicas[workload] == count
    {
      hide Play, Enabled, Apply, MayCall;
      ghost var before := s;
      Interfere(who);
      MayCallStays(cfg, before, s, who, Call.Scale(workload, count));
      ok := *;
      if !ok {
        StepFail(cfg, s, who);
        Step(Fail(who));
      } else if workload in s.world.replicas && s.world.replicas[workload] == count {
        StepSaw(cfg, s, who, SawReplicas(workload, count));
        Step(Saw(who, SawReplicas(workload, count)));
      } else {
        ok := Mutate(who, Call.Scale(workload, count));
      }
    }

    /** Delete a PVC; one that is not there is as good as deleted. */
    method DeletePvc(who: Actor, pvc: string) returns (ok: bool, found: bool)
      requires Valid() && MayCall(cfg, s, who, Call.DeletePvc(pvc))
      modifies this
      ensures Valid() && OwnKept(who, old(s), s) && old(log) <= log
      ensures PassOf(s, who) == if !ok then old(PassOf(s, who)).(trouble := true)
                                else if found then NoteCall(cfg, old(PassOf(s, who)), Call.DeletePvc(pvc))
                                else NoteSight(cfg, old(PassOf(s, who)), who, SawGone(pvc, true))
    {
      hide Play, Enabled, Apply, MayCall, NoteCall, NoteSight;
      ghost var before := s;
      Interfere(who);
      MayCallStays(cfg, before, s, who, Call.DeletePvc(pvc));
      ok := *;
      found := pvc in s.world.pvcs;
      if !ok {
        StepFail(cfg, s, who);
        Step(Fail(who));
      } else if found {
        StepDid(cfg, s, who, Call.DeletePvc(pvc));
        Step(Did(who, Call.DeletePvc(pvc)));
      } else {
        StepSaw(cfg, s, who, SawGone(pvc, true));
        Step(Saw(who, SawGone(pvc, true)));
      }
    }

    method WriteUpgrade(up: UpStatus) returns (ok: bool)
      requires Valid() && UpgradeWrite(cfg, s.up, up, s.upPass)
      modifies this
      ensures Valid() && s.upFinalizer == old(s.upFinalizer) && old(log) <= log
      ensures s.up == if ok then up else old(s.up)
      ensures s.upPass == if ok then old(s.upPass) else old(s.upPass).(trouble := true, lost := true)
    {
      Interfere(Upgrader);
      ok := *;
      Step(if ok then Event.WriteUpgrade(up) else LoseWrite(Upgrader));
    }

    method WriteRollback(rb: RbStatus) returns (ok: bool)
      requires Valid() && RollbackWrite(cfg, s.rb, rb, s.rbPass)
      modifies this
      ensures Valid() && s.rbFinalizer == old(s.rbFinalizer) && old(log) <= log
      ensures s.rb == if ok then rb else old(s.rb)
      ensures s.rbPass == if ok then old(s.rbPass) else old(s.rbPass).(trouble := true, lost := true)
    {
      Interfere(Rollbacker);
      ok := *;
      Step(if ok then Event.WriteRollback(rb) else LoseWrite(Rollbacker));
    }

    method SetFinalizer(who: Actor, present: bool) returns (ok: bool)
      requires Valid() && PassOf(s, who).active && (present || Terminal(s, who))
      modifies this
      ensures Valid() && old(log) <= log
      ensures if who == Upgrader then s.up == old(s.up) else s.rb == old(s.rb)
      ensures (if who == Upgrader then s.upFinalizer else s.rbFinalizer)
              == if ok then present else old(if who == Upgrader then s.upFinalizer else s.rbFinalizer)
      ensures PassOf(s, who) == if ok then old(PassOf(s, who)) else old(PassOf(s, who)).(trouble := true)
    {
      Interfere(who);
      ok := *;
      Step(if ok then Event.SetFinalizer(who, present) else Fail(who));
    }

    // ----- reads -----

    /** A look-up that either comes out well or counts as a failed call. */
    method Probe(who: Actor, fact: Check) returns (ok: bool)
      requires Valid() && PassOf(s, who).active
      modifies this
      ensures Valid() && OwnKept(who, old(s), s) && old(log) <= log
      ensures PassOf(s, who) == if ok then NoteSight(cfg, old(PassOf(s, who)), who, SawFit(fact))
                                else old(PassOf(s, who)).(trouble := true)
    {
      hide Play, Enabled, Apply, NoteSight;
      Interfere(who);
      ok := *;
      if ok {
        StepSaw(cfg, s, who, SawFit(fact));
        Step(Saw(who, SawFit(fact)));
      } else {
        StepFail(cfg, s, who);
        Step(Fail(who));
      }
    }

    method GetApp(who: Actor) returns (r: Result<AppStatus>)
      requires Valid() && PassOf(s, who).active
      modifies this
      ensures Valid() && OwnKept(who, old(s), s) && old(log) <= log
      ensures PassOf(s, who) == match r
                                case Ok(app) => NoteSight(cfg, old(PassOf(s, who)), who, SawApp(app))
                                case Err => old(PassOf(s, who)).(trouble := true)
    {
      hide Play, Enabled, Apply, NoteSight;
      Interfere(who);
      var ok: bool := *;
      if ok {
        r := Ok(s.world.app);
        StepSaw(cfg, s, who, SawApp(s.world.app));
        Step(Saw(who, SawApp(s.world.app)));
      } else {
        r := Err;
        StepFail(cfg, s, who);
        Step(Fail(who));
      }
    }

    method GetUpgrade() returns (r: Result<UpStatus>)
      requires Valid() && s.rbPass.active
      modifies this
      ensures Valid() && OwnKept(Rollbacker, old(s), s) && old(log) <= log
      ensures s.rbPass == match r
                          case Ok(up) => NoteSight(cfg, old(s.rbPass), Rollbacker, SawUpgrade(up))
                          case Err => old(s.rbPass).(trouble := true)
      ensures r.Ok? ==> r.value == s.up
    {
      hide Play, Enabled, Apply, NoteSight;
      Interfere(Rollbacker);
      var ok: bool := *;
      if ok {
        r := Ok(s.up);
        StepSaw(cfg, s, Rollbacker, SawUpgrade(s.up));
        Step(Saw(Rollbacker, SawUpgrade(s.up)));
      } else {
        r := Err;
        StepFail(cfg, s, Rollbacker);
        Step(Fail(Rollbacker));
      }
    }

    method ReadFile(who: Actor) returns (r: Result<Yaml>)
      requires Valid() && PassOf(s, who).active
      modifies this
      ensures Valid() && OwnKept(who, old(s), s) && old(log) <= log
      ensures PassOf(s, who) == match r
                                case Ok(file) => NoteSight(cfg, old(PassOf(s, who)), who, SawFile(file))
                                case Err => old(PassOf(s, who)).(trouble := true)
    {
      hide Play, Enabled, Apply, NoteSight;
      Interfere(who);
      var ok: bool := *;
      if ok {
        r := Ok(s.world.file);
        StepSaw(cfg, s, who, SawFile(s.world.file));
        Step(Saw(who, SawFile(s.world.file)));
      } else {
        r := Err;
        StepFail(cfg, s, who);
        Step(Fail(who));
      }
    }

    /** Ask a yes-or-no question about the cluster. */
    method Ask(who: Actor, question: Question) returns (r: Result<bool>)
      requires Valid() && PassOf(s, who).active
      modifies this
      ensures Valid() && OwnKept(who, old(s), s) && old(log) <= log
      ensures PassOf(s, who) == match r
                                case Ok(yes) => NoteSight(cfg, old(PassOf(s, who)), who, Reply(question, yes))
                                case Err => old(PassOf(s, who)).(trouble := true)
      ensures r.Ok? ==> IsSo(s.world, Reply(question, r.value))
    {
      hide Play, Enabled, Apply, IsTrueSight, NoteSight, Truth, Reply, Askable, IsSo;
      Interfere(who);
      var ok: bool := *;
      if ok && Askable(s.world, question) {
        r := Ok(Truth(s.world, question));
        ReplyIsTrue(cfg, s, who, question);
        SightIsSo(cfg, s, who, Reply(question, r.value));
        StepSaw(cfg, s, who, Reply(question, r.value));
        Step(Saw(who, Reply(question, r.value)));
      } else {
        r := Err;
        StepFail(cfg, s, who);
        Step(Fail(who));
      }
    }

    method DiscoverWorkloads(who: Actor) returns (r: Result<seq<string>>)
      requires Valid() && PassOf(s, who).active
      modifies this
      ensures Valid() && OwnKept(who, old(s), s) && old(log) <= log
      ensures PassOf(s, who) == match r
                                case Ok(workloads) => NoteSight(cfg, old(PassOf(s, who)), who, SawWorkloads(workloads))
                                case Err => old(PassOf(s, who)).(trouble := true)
    {
      hide Play, Enabled, Apply, NoteSight;
      Interfere(who);
      var ok: bool := *;
      if ok {
        var workloads: seq<string> := *;
        r := Ok(workloads);
        StepSaw(cfg, s, who, SawWorkloads(workloads));
        Step(Saw(who, SawWorkloads(workloads)));
      } else {
        r := Err;
        StepFail(cfg, s, who);
        Step(Fail(who));
      }
    }

    method DiscoverPvcs(who: Actor) returns (r: Result<seq<string>>)
      requires Valid() && PassOf(s, who).active
      modifies this
      ensures Valid() && OwnKept(who, old(s), s) && old(log) <= log
      ensures PassOf(s, who) == match r
                                case Ok(pvcs) => NoteSight(cfg, old(PassOf(s, who)), who, SawPvcs(pvcs))
                                case Err => old(PassOf(s, who)).(trouble := true)
    {
      hide Play, Enabled, Apply, NoteSight;
      Interfere(who);
      var ok: bool := *;
      if ok {
        var pvcs: seq<string> := cfg.explicitPvcs;
        if pvcs == [] {
          assert Distinct<string>([]);
          var found: seq<string> :| Distinct(found);
          pvcs := found;
        }
        r := Ok(pvcs);
        StepSaw(cfg, s, who, SawPvcs(pvcs));
        Step(Saw(who, SawPvcs(pvcs)));
      } else {
        r := Err;
        StepFail(cfg, s, who);
        Step(Fail(who));
      }
    }

    // ----- the clock -----

    /** Set the start of the phase in memory, unless it is already set. */
    method StartTimer(who: Actor, start: Option<nat>) returns (started: nat)
      requires Valid() && PassOf(s, who).active
      modifies this
      ensures Valid() && OwnKept(who, old(s), s) && old(log) <= log
      ensures start.Some? ==> started == start.value && PassOf(s, who) == old(PassOf(s, who))
      ensures start == None ==> PassOf(s, who) == NoteSight(cfg, old(PassOf(s, who)), who, SawClock(started))
    {
      hide Play, Enabled, Apply, NoteSight;
      if start.Some? { return start.value; }
      Interfere(who);
      started := s.world.now;
      StepSaw(cfg, s, who, SawClock(started));
      Step(Saw(who, SawClock(started)));
    }

    /** Is the phase that began at `start` over its time? */
    method TimedOut(who: Actor, start: nat, timeout: nat) returns (over: bool)
      requires Valid() && PassOf(s, who).active
      requires if PhaseStart(s, who).Some? then PhaseStart(s, who) == Some(start) else PassOf(s, who).stamp == Some(start)
      modifies this
      ensures Valid() && OwnKept(who, old(s), s) && old(log) <= log
      ensures var check := TimerCheck(start, timeout, s.world.now);
              && PassOf(s, who) == NoteSight(cfg, old(PassOf(s, who)), who, SawTimer(check))
              && over == (check.at > start + timeout)
    {
      hide Play, Enabled, Apply, NoteSight;
      Interfere(who);
      over := s.world.now > start + timeout;
      StepSaw(cfg, s, who, SawTimer(TimerCheck(start, timeout, s.world.now)));
      Step(Saw(who, SawTimer(TimerCheck(start, timeout, s.world.now))));
    }
  }

  datatype Question =
    | IsSuspended
    | IsScaledDown(workload: string)
    | IsScaledUp(workload: string)
    | IsSnapshotReady(snap: string)
    | IsReconciled
    | IsHealthy
    | IsPvcGone(pvc: string)
    | IsPvcBound(pvc: string)

  function Reply(q: Question, yes: bool): Sight {
    match q
    case IsSuspended => SawSuspended(yes)
    case IsScaledDown(workload) => SawDown(workload, yes)
    case IsScaledUp(workload) => SawUp(workload, yes)
    case IsSnapshotReady(snap) => SawReady(snap, yes)
    case IsReconciled => SawReconciled(yes)
    case IsHealthy => SawHealthy(yes)
    case IsPvcGone(pvc) => SawGone(pvc, yes)
    case IsPvcBound(pvc) => SawBound(pvc, yes)
  }

  predicate NoPods(w: World, workload: string) { workload !in w.pods || w.pods[workload] == 0 }

  /** A question about an object that is not there is answered with an error. */
  predicate Askable(w: World, q: Question) {
    match q
    case IsSnapshotReady(snap) => snap in w.snaps
    case IsPvcBound(pvc) => pvc in w.pvcs
    case _ => true
  }

  predicate Truth(w: World, q: Question)
    requires Askable(w, q)
  {
    match q
    case IsSuspended => w.flux != Running
    case IsScaledDown(workload) => NoPods(w, workload)
    case IsScaledUp(workload) => !NoPods(w, workload)
    case IsSnapshotReady(snap) => w.snaps[snap].ready
    case IsReconciled => w.reconciled
    case IsHealthy => w.healthy
    case IsPvcGone(pvc) => pvc !in w.pvcs
    case IsPvcBound(pvc) => w.pvcs[pvc].bound
  }

  lemma ReplyIsTrue(cfg: Config, s: State, who: Actor, q: Question)
    requires Askable(s.world, q)
    ensures IsTrueSight(cfg, s, who, Reply(q, Truth(s.world, q)))
  {
  }
}
