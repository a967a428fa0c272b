/**
 The upgrade and rollback protocol as a transition system over single API calls.

 Each controller remembers nothing between passes except its request's persisted status. During a pass
 it collects evidence: what it read, which calls went through, which failed. `Enabled` says which
 single step may come next. What it asks of a controller's step speaks only of that controller's own
 request and of its own evidence; all claims about the cluster as a whole are proved elsewhere.
 A pass that dies simply stops contributing steps: the next `Begin` starts over from the status.
 */
module Protocol {
  import opened Wrappers
  import opened YamlTree
  import VersionPath

  // ----- configuration (fixed during a run) -----

  datatype VersionInfo = VersionInfo(chart: string, tags: seq<string>)

  datatype Config = Config(
    appName: string,
    dryRun: bool,               // the upgrade request's spec.dryRun
    skipSnapshot: bool,         // the upgrade request's spec.skipSnapshot
    snapshotsOn: bool,          // the app's volume snapshots are configured and enabled
    explicitPvcs: seq<string>,  // the app's explicit PVC list, empty for auto-discovery
    target: Option<VersionInfo>,
    versionPath: string,        // empty when no version path is configured
    autoRollback: bool,
    healthTimeout: nat)
  {
    predicate Snapshots() { !skipSnapshot && snapshotsOn }

    function Path(): YamlTree.Path {
      VersionPath.Parse(if versionPath != "" then versionPath else VersionPath.DEFAULT_HELM_RELEASE_PATH)
    }
  }

  // Phase timeouts, in seconds.
  const TIMEOUT_SUSPEND: nat := 120
  const TIMEOUT_SCALE_DOWN: nat := 300
  const TIMEOUT_SCALE_UP: nat := 300
  const TIMEOUT_SNAPSHOT: nat := 1800
  const TIMEOUT_RECONCILE: nat := 600
  const TIMEOUT_VOLUME_RESTORE: nat := 1800
  const TIMEOUT_RESUME: nat := 120

  /** The string a version is written as: the chart version, or else the first image's tag. */
  function VersionString(v: VersionInfo): Option<string> {
    if v.chart != "" then Some(v.chart)
    else if v.tags != [] then Some(v.tags[0])
    else None
  }

  // ----- API objects -----

  datatype AppStatus = AppStatus(current: Option<VersionInfo>, available: Option<VersionInfo>)

  function TargetOf(cfg: Config, app: AppStatus): Option<VersionInfo> {
    if cfg.target.Some? then cfg.target else app.available
  }

  /** The app names a target version that can be written at the version path. */
  predicate Plannable(cfg: Config, app: AppStatus) {
    match TargetOf(cfg, app)
    case None => false
    case Some(v) => VersionString(v).Some? && (v.chart == "" ==> cfg.versionPath != "")
  }

  /** The file is one the version path can be read in. */
  predicate Readable(cfg: Config, file: Yaml) {
    (cfg.versionPath == "" ==> IsHelmRelease(file)) && GetVersion(file, cfg.Path()).Ok?
  }

  function Edit(cfg: Config, file: Yaml, version: string): Result<Yaml> {
    UpdateVersion(file, cfg.Path(), version)
  }

  datatype Condition = Absent | IsTrue | IsFalse

  datatype SnapRef = SnapRef(pvc: string, snap: string)

  datatype UpgradeRecord = UpgradeRecord(prev: Option<VersionInfo>, next: VersionInfo)

  /** An UpgradeRequest's status. Conditions that are only ever absent or true are booleans. */
  datatype UpStatus = UpStatus(
    suspended: Condition,
    stopped: bool,
    snapReady: bool,
    committed: bool,
    reconciled: bool,
    healthy: bool,
    complete: Condition,
    snapshots: seq<SnapRef>,
    upgrade: Option<UpgradeRecord>,
    phaseStart: Option<nat>)

  const NEW_UPGRADE := UpStatus(Absent, false, false, false, false, false, Absent, [], None, None)

  datatype RestorationState = Pending | Restored

  datatype RestoredPvc = RestoredPvc(ref: SnapRef, state: RestorationState)

  /** A RollbackRequest's status. */
  datatype RbStatus = RbStatus(
    suspended: Condition,
    stopped: bool,
    volumes: bool,
    reverted: bool,
    reconciled: bool,
    healthy: bool,
    complete: Condition,
    restored: seq<RestoredPvc>,
    phaseStart: Option<nat>)

  const NEW_ROLLBACK := RbStatus(Absent, false, false, false, false, false, Absent, [], None)

  // ----- the cluster around the requests -----

  datatype Actor = Upgrader | Rollbacker

  /** Who holds the target Kustomization suspended; `Running` means its suspend flag is off. */
  datatype Suspension = Running | HeldBy(who: Actor) | HeldByOther

  datatype Origin = Live | FromSnapshot(snap: string)

  datatype Pvc = Pvc(origin: Origin, bound: bool, terminating: bool)

  datatype Snapshot = Snapshot(pvc: string, ready: bool)

  datatype World = World(
    flux: Suspension,
    file: Yaml,                   // the manifest in Git
    pvcs: map<string, Pvc>,       // in the app's namespace
    snaps: map<string, Snapshot>,
    replicas: map<string, nat>,   // spec.replicas by workload
    pods: map<string, nat>,       // live pods by workload
    app: AppStatus,
    rollbacks: nat,               // RollbackRequests created by the upgrade controller
    reconciled: bool,
    healthy: bool,
    now: nat)

  // ----- what one pass knows -----

  datatype FluxCall = NoCall | Suspended | Resumed

  datatype TimerCheck = TimerCheck(start: nat, timeout: nat, at: nat)

  /** What a pass knows about the target Kustomization. */
  datatype FluxNote = FluxNote(
    verified: bool,               // it was seen suspended
    running: bool,                // when last looked at, since the last Flux call, it was running
    holding: bool,                // it was seen suspended after replicas were last set
    last: FluxCall,               // the last Flux call of this pass that went through
    released: bool)               // since the last suspend call, resumed or seen running

  /** What a preflight looks up without keeping the answer. */
  datatype Check = SuspendTarget | SnapshotClass | RestoreSize(snap: string)

  /** What a pass has read. */
  datatype Sights = Sights(
    app: Option<AppStatus>,
    upgrade: Option<UpStatus>,    // the upgrade, as the rollback controller read it
    file: Option<Yaml>,
    workloads: Option<seq<string>>,
    down: set<string>,            // workloads seen without pods since their replicas were last set
    up: bool,                     // some workload was seen with pods
    pvcs: Option<seq<string>>,
    ready: set<string>,           // snapshots seen ready
    reconciled: bool,             // when last looked at, since the last resume
    healthy: bool,
    fit: set<Check>)              // checks that came out well

  /** What a pass has made. */
  datatype Work = Work(
    timestamp: Option<string>,    // the name suffix of its snapshots
    created: seq<SnapRef>,        // its snapshots
    committed: Option<string>,    // the version it committed
    scaled: map<string, nat>,     // replicas it set, or found already set
    updated: Option<AppStatus>,   // what it wrote as the app's status
    rollback: bool,               // it created a rollback
    asked: set<string>,           // PVCs it deleted, or found missing when it wanted to
    gone: set<string>,            // PVCs seen to be gone
    made: Option<SnapRef>,        // the PVC it recreated last
    bound: set<string>)           // PVCs seen bound

  datatype Pass = Pass(
    active: bool,
    since: nat,                   // the clock when the pass began
    rank: nat,                    // the request's rank when the pass began
    trouble: bool,                // some call of the pass failed
    lost: bool,                   // a status write failed
    negative: bool,               // some answer was not the one hoped for
    stamp: Option<nat>,           // the clock when the phase timer was started in memory
    timer: Option<TimerCheck>,    // the last deadline check
    flux: FluxNote,
    seen: Sights,
    work: Work)

  const NO_PASS := Pass(false, 0, 0, false, false, false, None, None,
                        FluxNote(false, false, false, NoCall, false),
                        Sights(None, None, None, None, {}, false, None, {}, false, false, {}),
                        Work(None, [], None, map[], None, false, {}, {}, None, {}))

  // ----- steps -----

  /** A mutating call. */
  datatype Call =
    | SuspendFlux
    | ResumeFlux
    | Scale(workload: string, count: nat)
    | CreateSnapshot(pvc: string, timestamp: string)
    | DeleteSnapshot(snap: string)
    | UpdateApp(app: AppStatus)
    | CreateRollback
    | Commit(version: string, tree: Yaml)
    | DeletePvc(pvc: string)
    | CreatePvc(ref: SnapRef)

  /** An answer read. */
  datatype Sight =
    | SawSuspended(yes: bool)
    | SawApp(app: AppStatus)
    | SawUpgrade(upgrade: UpStatus)
    | SawFile(file: Yaml)
    | SawWorkloads(workloads: seq<string>)
    | SawDown(workload: string, yes: bool)  // asked hoping for no pods
    | SawUp(workload: string, yes: bool)    // asked hoping for pods
    | SawPvcs(pvcs: seq<string>)
    | SawReady(snap: string, yes: bool)
    | SawReconciled(yes: bool)
    | SawHealthy(yes: bool)
    | SawGone(pvc: string, yes: bool)
    | SawBound(pvc: string, yes: bool)
    | SawReplicas(workload: string, count: nat)
    | SawFit(fact: Check)
    | SawClock(at: nat)
    | SawTimer(check: TimerCheck)

  /** What a pass tells the work queue. */
  datatype Outcome = Done | Requeue | RequeueAfter(seconds: nat) | Error | Panic

  datatype Event =
    | Begin(who: Actor)
    | Saw(who: Actor, sight: Sight)
    | Fail(who: Actor)                       // a call failed, without effect
    | Did(who: Actor, call: Call)
    | WriteUpgrade(up: UpStatus)
    | WriteRollback(rb: RbStatus)
    | LoseWrite(who: Actor)                  // a status write failed
    | SetFinalizer(who: Actor, present: bool)
    | End(who: Actor, outcome: Outcome)
    | EnvWorld(world: World)                 // the cluster goes about its business
    | EnvSuspend(yes: bool)                  // somebody else sets the suspend flag
    | EnvFile(file: Yaml)                    // somebody else commits
    | EnvPvcs(pvcs: map<string, Pvc>)        // somebody else creates or deletes PVCs
    | EnvSnaps(snaps: map<string, Snapshot>) // somebody else deletes snapshots

  predicate By(e: Event, who: Actor) {
    match e
    case Begin(w) => w == who
    case Saw(w, _) => w == who
    case Fail(w) => w == who
    case Did(w, _) => w == who
    case WriteUpgrade(_) => who == Upgrader
    case WriteRollback(_) => who == Rollbacker
    case LoseWrite(w) => w == who
    case SetFinalizer(w, _) => w == who
    case End(w, _) => w == who
    case _ => false
  }

  // ----- states -----

  datatype SnapFact = SnapFact(ref: SnapRef, afterStop: bool)

  /** What the upgrade controller has done so far. */
  datatype UpHistory = UpHistory(
    version: Option<string>,      // the version it last committed
    commits: nat,
    unrecorded: nat,              // passes that committed and did not get to record it
    missed: nat,                  // status writes that failed, and passes that died, with a commit to record
    flux: FluxCall,               // its last Flux call that went through
    lost: bool,                   // a status write failed or a pass died
    trouble: bool,                // a call failed or a pass died
    negative: bool,
    ends: nat,                    // passes that ended
    snaps: set<SnapFact>,         // every snapshot it ever created
    ready: set<string>)           // every snapshot it saw ready

  /** What the rollback controller has done so far. */
  datatype RbHistory = RbHistory(
    version: Option<string>,
    trouble: bool,
    negative: bool,
    ends: nat,
    bound: set<string>)           // the PVCs it saw bound since it last deleted or created them

  /** What has happened so far; no controller can read it. */
  datatype History = History(
    file: Yaml,                   // the file before the run
    otherFile: bool,              // somebody else has committed
    touched: set<string>,         // PVCs somebody else has touched since the rollback last created them
    otherSnaps: bool,             // somebody else has deleted snapshots
    up: UpHistory,
    rb: RbHistory)

  datatype State = State(
    up: UpStatus, upFinalizer: bool, upPass: Pass,
    rb: RbStatus, rbFinalizer: bool, rbPass: Pass,
    world: World,
    hist: History)

  function PassOf(s: State, who: Actor): Pass {
    if who == Upgrader then s.upPass else s.rbPass
  }

  function NewHistory(file: Yaml): History {
    History(file, false, {}, false,
            UpHistory(None, 0, 0, 0, NoCall, false, false, false, 0, {}, {}),
            RbHistory(None, false, false, 0, {}))
  }

  predicate Initial(s: State) {
    && s.up == NEW_UPGRADE && s.rb == NEW_ROLLBACK
    && s.upPass == NO_PASS && s.rbPass == NO_PASS
    && !s.upFinalizer && !s.rbFinalizer
    && s.world.flux != HeldBy(Upgrader) && s.world.flux != HeldBy(Rollbacker)
    && s.hist == NewHistory(s.world.file)
  }

  // ----- progress -----

  function One(b: bool): nat { if b then 1 else 0 }

  const TOP: nat := 8

  function UpRank(finalizer: bool, up: UpStatus): (r: nat)
    ensures r <= TOP && (r == TOP <==> up.complete != Absent)
  {
    if up.complete != Absent then TOP
    else (One(finalizer) + One(up.suspended != Absent) + One(up.stopped) + One(up.snapReady)
          + One(up.committed) + One(up.reconciled) + One(up.healthy))
  }

  function RbRank(finalizer: bool, rb: RbStatus): (r: nat)
    ensures r <= TOP && (r == TOP <==> rb.complete != Absent)
  {
    if rb.complete != Absent then TOP
    else (One(finalizer) + One(rb.suspended != Absent) + One(rb.stopped) + One(rb.volumes)
          + One(rb.reverted) + One(rb.reconciled) + One(rb.healthy))
  }

  function RankOf(s: State, who: Actor): nat {
    if who == Upgrader then UpRank(s.upFinalizer, s.up) else RbRank(s.rbFinalizer, s.rb)
  }

  predicate Terminal(s: State, who: Actor) {
    (if who == Upgrader then s.up.complete else s.rb.complete) != Absent
  }

  // ----- deadlines -----

  /** The deadline of the phase a live upgrade is in, if its phase waits for something. */
  function UpTimeout(cfg: Config, up: UpStatus): Option<nat> {
    if up.suspended == Absent then None
    else if !up.stopped then Some(TIMEOUT_SCALE_DOWN)
    else if !up.snapReady then Some(TIMEOUT_SNAPSHOT)
    else if !up.committed then None
    else if !up.reconciled then Some(TIMEOUT_RECONCILE)
    else Some(cfg.healthTimeout)
  }

  /** The same for a dry run, whose phases also depend on the workloads discovered in the pass. */
  function DryTimeout(up: UpStatus, p: Pass): Option<nat> {
    if up.suspended != IsTrue then Some(TIMEOUT_SUSPEND)
    else if Exercised(up, p) then Some(TIMEOUT_RESUME)
    else if !up.stopped then Some(TIMEOUT_SCALE_DOWN)
    else Some(TIMEOUT_SCALE_UP)
  }

  function RbTimeout(cfg: Config, rb: RbStatus): Option<nat> {
    if rb.suspended == Absent then None
    else if !rb.stopped then Some(TIMEOUT_SCALE_DOWN)
    else if !rb.volumes then Some(TIMEOUT_VOLUME_RESTORE)
    else if !rb.reverted then None
    else if !rb.reconciled then Some(TIMEOUT_RECONCILE)
    else Some(cfg.healthTimeout)
  }

  function TimeoutOf(cfg: Config, s: State, who: Actor): Option<nat> {
    if who == Rollbacker then RbTimeout(cfg, s.rb)
    else if cfg.dryRun then DryTimeout(s.up, s.upPass)
    else UpTimeout(cfg, s.up)
  }

  function PhaseStart(s: State, who: Actor): Option<nat> {
    if who == Upgrader then s.up.phaseStart else s.rb.phaseStart
  }

  /** The phases whose waits leave the start of the phase in the persisted status. The health-check
      wait and the wait for the first PVC deletion return without a status write. */
  predicate Anchored(cfg: Config, s: State, who: Actor) {
    if who == Rollbacker then
      !s.rb.stopped || (!s.rb.volumes && s.rb.restored != []) || (s.rb.reverted && !s.rb.reconciled)
    else cfg.dryRun || !s.up.reconciled
  }

  /** A justified wait: an answer was negative or a call failed, and the phase's deadline was looked at and
      not over. A wait among the volumes is for the PVC that is next to go, or comes after all have been
      recreated. */
  predicate Waiting(cfg: Config, s: State, who: Actor) {
    var p := PassOf(s, who);
    && (p.trouble || p.negative)
    && (who == Rollbacker && s.rb.stopped && !s.rb.volumes ==> VolumeWait(s.rb, p))
    && p.timer.Some?
    && TimeoutOf(cfg, s, who) == Some(p.timer.value.timeout)
    && p.timer.value.at <= p.timer.value.start + p.timer.value.timeout
    && (PhaseStart(s, who) == Some(p.timer.value.start) || (PhaseStart(s, who) == None && !Anchored(cfg, s, who)))
  }

  /** The Flux call a Suspended condition stands for. */
  function Recorded(suspended: Condition): FluxCall {
    match suspended
    case Absent => NoCall
    case IsTrue => Suspended
    case IsFalse => Resumed
  }

  /** Is a commit of the pass on record? */
  predicate CommitRecorded(s: State, who: Actor) {
    if who == Upgrader then s.up.committed else s.rb.reverted
  }

  /** How a pass may end, unless it dies: it never drops a live request, and unless a call failed it has made
      progress, or waits with its deadline still ahead. It keeps no hold and no commit that is not on
      record, unless a status write failed. */
  predicate EndOk(cfg: Config, s: State, who: Actor, outcome: Outcome) {
    var p := PassOf(s, who);
    && p.active && outcome != Panic
    && (outcome == Done ==> Terminal(s, who))
    && (outcome == Error ==> p.trouble)
    && (outcome == Requeue ==> Terminal(s, who) || RankOf(s, who) > p.rank)
    && (outcome.RequeueAfter? ==> outcome.seconds > 0 && Waiting(cfg, s, who))
    && (Terminal(s, who) || p.trouble || RankOf(s, who) > p.rank || Waiting(cfg, s, who))
    && (p.work.committed.Some? ==> p.lost || CommitRecorded(s, who))
    && (who == Upgrader ==>
          if cfg.dryRun then !p.trouble && !Terminal(s, who) && s.up.suspended == Absent
                             ==> p.flux.last != Suspended || p.flux.released
          else p.flux.last == NoCall || p.lost || p.flux.last == Recorded(s.up.suspended))
  }

  // ----- status writes of the upgrade controller -----

  /** The phase timer is as it was, or was started by this pass. */
  predicate Stamped(was: Option<nat>, next: Option<nat>, p: Pass) {
    next == was || (was == None && next.Some? && next == p.stamp)
  }

  predicate StartedTimer(was: Option<nat>, next: Option<nat>, p: Pass) {
    next.Some? && Stamped(was, next, p)
  }

  predicate SuspendWrite(cfg: Config, was: UpStatus, next: UpStatus, p: Pass) {
    && was.suspended == Absent && p.flux.last == Suspended
    && next == was.(suspended := IsTrue, snapReady := was.snapReady || !cfg.Snapshots())
  }

  predicate Scaled(p: Pass, workloads: seq<string>, count: nat) {
    forall w | w in workloads :: w in p.work.scaled && p.work.scaled[w] == count
  }

  /** All workloads found in the pass were scaled down and then seen without pods. */
  predicate Stopped(p: Pass) {
    && p.seen.workloads.Some? && p.seen.workloads.value != []
    && Scaled(p, p.seen.workloads.value, 0)
    && (forall w | w in p.seen.workloads.value :: w in p.seen.down)
  }

  predicate StopWrite(cfg: Config, was: UpStatus, next: UpStatus, p: Pass) {
    && was.suspended != Absent && !was.stopped
    && ( || (next == was.(stopped := true, phaseStart := next.phaseStart)
             && StartedTimer(was.phaseStart, next.phaseStart, p)
             && (!cfg.Snapshots() || p.seen.workloads == Some([])))
         || (next == was.(phaseStart := next.phaseStart)
             && StartedTimer(was.phaseStart, next.phaseStart, p)
             && p.negative && p.seen.workloads.Some? && Scaled(p, p.seen.workloads.value, 0))
         || (next == was.(stopped := true, phaseStart := None)
             && cfg.Snapshots() && Stopped(p)))
  }

  function PvcsOf(refs: seq<SnapRef>): (r: seq<string>)
    ensures |r| == |refs| && forall i | 0 <= i < |refs| :: r[i] == refs[i].pvc
  {
    seq(|refs|, i requires 0 <= i < |refs| => refs[i].pvc)
  }

  predicate AllReady(refs: seq<SnapRef>, p: Pass) {
    forall r | r in refs :: r.snap in p.seen.ready
  }

  predicate SnapshotWrite(cfg: Config, was: UpStatus, next: UpStatus, p: Pass) {
    && was.suspended != Absent && was.stopped && !was.snapReady
    && ( || (next == was.(snapReady := true, phaseStart := next.phaseStart)
             && StartedTimer(was.phaseStart, next.phaseStart, p)
             && was.snapshots == [] && p.seen.pvcs == Some([]))
         || (next == was.(snapshots := p.work.created, phaseStart := next.phaseStart)
             && StartedTimer(was.phaseStart, next.phaseStart, p)
             && was.snapshots == [] && p.work.created != []
             && p.seen.pvcs == Some(PvcsOf(p.work.created)))
         || (next == was.(snapReady := true, phaseStart := None)
             && was.snapshots != [] && AllReady(was.snapshots, p)))
  }

  predicate CommitWrite(cfg: Config, was: UpStatus, next: UpStatus, p: Pass) {
    && was.suspended != Absent && was.stopped && was.snapReady && !was.committed
    && p.work.committed.Some? && p.seen.app.Some? && TargetOf(cfg, p.seen.app.value).Some?
    && CommitVersion(cfg, p.seen.app.value) == p.work.committed
    && next == was.(committed := true,
                   upgrade := Some(UpgradeRecord(p.seen.app.value.current, TargetOf(cfg, p.seen.app.value).value)))
  }

  predicate ReconcileWrite(was: UpStatus, next: UpStatus, p: Pass) {
    && was.committed && !was.reconciled && p.flux.last == Resumed
    && ( || (next == was.(suspended := IsFalse, phaseStart := next.phaseStart)
             && StartedTimer(was.phaseStart, next.phaseStart, p) && p.negative)
         || (next == was.(suspended := IsFalse, reconciled := true, phaseStart := None) && p.seen.reconciled))
  }

  predicate HealthyWrite(was: UpStatus, next: UpStatus, p: Pass) {
    && was.reconciled && !was.healthy && p.seen.healthy
    && next == was.(healthy := true, phaseStart := next.phaseStart)
    && StartedTimer(was.phaseStart, next.phaseStart, p)
  }

  /** The app's status after an upgrade: the new version current, and no update left to offer. */
  function Upgraded(app: AppStatus, record: UpgradeRecord): AppStatus {
    app.(current := Some(record.next), available := None)
  }

  /** An upgrade completes with its version written to the app, unless a call failed. */
  predicate CompleteWrite(was: UpStatus, next: UpStatus, p: Pass) {
    && was.healthy && next == was.(suspended := IsFalse, complete := IsTrue)
    && (was.upgrade.Some? ==> p.trouble || (p.seen.app.Some? && p.work.updated == Some(Upgraded(p.seen.app.value, was.upgrade.value))))
  }

  /** A pass fails its request only after a failed call or a negative answer. Before the commit it first
      tries to resume what it suspended, and what it records about the suspension is what it did; after the
      commit it creates a rollback if it is to. */
  predicate FailWrite(cfg: Config, was: UpStatus, next: UpStatus, p: Pass) {
    && next == was.(complete := IsFalse, suspended := next.suspended, phaseStart := next.phaseStart)
    && (next.phaseStart == None || Stamped(was.phaseStart, next.phaseStart, p))
    && (p.trouble || p.negative)
    && (next.suspended == was.suspended || (next.suspended == IsFalse && p.flux.last == Resumed && was.suspended != Absent))
    && (!cfg.dryRun ==>
          && (was.suspended == Absent ==> p.flux.last == NoCall)
          && (was.suspended != Absent && p.flux.last == Resumed ==> next.suspended == IsFalse))
    && (!p.trouble && !was.committed ==>
          && (was.suspended == IsTrue ==> p.flux.last == Resumed)
          && (was.suspended == Absent ==> p.flux.last != Suspended || p.flux.released))
    && (!p.trouble && was.committed && cfg.autoRollback ==> p.work.rollback)
  }

  // The dry run reuses SnapshotReady for "scaled up again".

  /** No workload is to be exercised, or all have been scaled down and up again. */
  predicate Exercised(up: UpStatus, p: Pass) {
    p.seen.workloads == None || p.seen.workloads == Some([]) || (up.stopped && up.snapReady)
  }

  predicate DryWrite(was: UpStatus, next: UpStatus, p: Pass) {
    || (next == was.(phaseStart := next.phaseStart) && StartedTimer(was.phaseStart, next.phaseStart, p)
        && (p.trouble || p.negative))
    || (next == was.(suspended := IsTrue, phaseStart := None) && was.suspended != IsTrue
        && p.flux.last == Suspended && p.flux.verified)
    || (next == was.(stopped := true, phaseStart := None) && was.suspended == IsTrue && !was.stopped && Stopped(p))
    || (next == was.(snapReady := true, phaseStart := None) && was.suspended == IsTrue && !was.snapReady
        && p.seen.workloads.Some? && Scaled(p, p.seen.workloads.value, 1) && p.seen.up && p.flux.holding)
    || (next == was.(complete := IsTrue, phaseStart := None) && was.suspended == IsTrue && Exercised(was, p)
        && p.flux.last == Resumed && p.flux.running)
  }

  /** A phase timer is started only by a pass that has not yet brought the request forward: so the clock it
      has read is one of the phase. */
  predicate StartsInTime(was: UpStatus, next: UpStatus, p: Pass) {
    was.phaseStart == None && next.phaseStart.Some? ==> UpRank(true, was) <= p.rank
  }

  predicate UpgradeWrite(cfg: Config, was: UpStatus, next: UpStatus, p: Pass) {
    && p.active
    && was.complete == Absent
    && ( || FailWrite(cfg, was, next, p)
         || (StartsInTime(was, next, p)
             && if cfg.dryRun then DryWrite(was, next, p)
                else || SuspendWrite(cfg, was, next, p) || StopWrite(cfg, was, next, p)
                     || SnapshotWrite(cfg, was, next, p) || CommitWrite(cfg, was, next, p)
                     || ReconcileWrite(was, next, p) || HealthyWrite(was, next, p) || CompleteWrite(was, next, p)))
  }

  // ----- status writes of the rollback controller -----

  predicate Restorable(up: UpStatus, cfg: Config) {
    !cfg.skipSnapshot && up.snapshots != []
  }

  predicate RbSuspendWrite(cfg: Config, was: RbStatus, next: RbStatus, p: Pass) {
    && was.suspended == Absent && p.flux.last == Suspended && p.seen.upgrade.Some?
    && next == was.(suspended := IsTrue, volumes := was.volumes || !Restorable(p.seen.upgrade.value, cfg))
  }

  predicate RbStopWrite(cfg: Config, was: RbStatus, next: RbStatus, p: Pass) {
    && was.suspended != Absent && !was.stopped
    && ( || (next == was.(stopped := true, phaseStart := next.phaseStart)
             && StartedTimer(was.phaseStart, next.phaseStart, p)
             && p.seen.upgrade.Some? && (!Restorable(p.seen.upgrade.value, cfg) || p.seen.workloads == Some([])))
         || (next == was.(phaseStart := next.phaseStart)
             && StartedTimer(was.phaseStart, next.phaseStart, p)
             && p.negative && p.seen.workloads.Some? && Scaled(p, p.seen.workloads.value, 0))
         || (next == was.(stopped := true, phaseStart := None) && Stopped(p)))
  }

  function NamesOf(restored: seq<RestoredPvc>): set<string> {
    set r | r in restored :: r.ref.pvc
  }

  /** The first listed PVC that is not on record as restored. */
  predicate NextToRestore(refs: seq<SnapRef>, restored: seq<RestoredPvc>, ref: SnapRef) {
    exists i | 0 <= i < |refs| :: refs[i] == ref && ref.pvc !in NamesOf(restored)
      && forall j | 0 <= j < i :: refs[j].pvc in NamesOf(restored)
  }

  function AllRestored(restored: seq<RestoredPvc>): seq<RestoredPvc> {
    seq(|restored|, i requires 0 <= i < |restored| => restored[i].(state := Restored))
  }

  /** A wait in the volume phase is for the PVC next to be replaced, once asked to go, or comes after all
      of them are on record. */
  predicate VolumeWait(rb: RbStatus, p: Pass) {
    && p.seen.upgrade.Some?
    && var refs := p.seen.upgrade.value.snapshots;
       || (exists r | r in refs :: NextToRestore(refs, rb.restored, r) && r.pvc in p.work.asked)
       || (forall r | r in refs :: r.pvc in NamesOf(rb.restored))
  }

  predicate RbVolumeWrite(was: RbStatus, next: RbStatus, p: Pass) {
    && was.suspended != Absent && was.stopped && !was.volumes
    && p.seen.upgrade.Some?
    && ( || (p.work.made.Some? && NextToRestore(p.seen.upgrade.value.snapshots, was.restored, p.work.made.value)
             && next == was.(restored := was.restored + [RestoredPvc(p.work.made.value, Pending)],
                            phaseStart := next.phaseStart)
             && StartedTimer(was.phaseStart, next.phaseStart, p))
         || (next == was.(restored := AllRestored(was.restored), volumes := true, phaseStart := None)
             && (forall r | r in p.seen.upgrade.value.snapshots :: r.pvc in NamesOf(was.restored))
             && (forall r | r in was.restored :: r.state == Restored || r.ref.pvc in p.work.bound)))
  }

  predicate RbRevertWrite(was: RbStatus, next: RbStatus, p: Pass) {
    && was.suspended != Absent && was.stopped && was.volumes && !was.reverted && p.work.committed.Some?
    && next == was.(reverted := true)
  }

  predicate RbReconcileWrite(was: RbStatus, next: RbStatus, p: Pass) {
    && was.reverted && !was.reconciled && p.flux.last == Resumed
    && ( || (next == was.(suspended := IsFalse, phaseStart := next.phaseStart)
             && StartedTimer(was.phaseStart, next.phaseStart, p))
         || (next == was.(suspended := IsFalse, reconciled := true, phaseStart := None) && p.seen.reconciled))
  }

  predicate RbHealthyWrite(was: RbStatus, next: RbStatus, p: Pass) {
    && was.reconciled && !was.healthy && p.seen.healthy
    && next == was.(healthy := true, phaseStart := next.phaseStart)
    && StartedTimer(was.phaseStart, next.phaseStart, p)
  }

  predicate RbCompleteWrite(was: RbStatus, next: RbStatus) {
    was.healthy && next == was.(complete := IsTrue)
  }

  /** A failing rollback records nothing but the failure; PVCs seen bound on the way may be marked. */
  predicate RbFailWrite(was: RbStatus, next: RbStatus, p: Pass) {
    && next == was.(complete := IsFalse, suspended := next.suspended, restored := next.restored,
                   phaseStart := next.phaseStart)
    && (p.trouble || p.negative)
    && (next.suspended == was.suspended || (next.suspended == IsFalse && p.flux.last == Resumed))
    && |next.restored| == |was.restored|
    && (forall i | 0 <= i < |was.restored| ::
          next.restored[i] == was.restored[i]
          || (next.restored[i] == was.restored[i].(state := Restored) && was.restored[i].ref.pvc in p.work.bound))
  }

  predicate RbStartsInTime(was: RbStatus, next: RbStatus, p: Pass) {
    was.phaseStart == None && next.phaseStart.Some? ==> RbRank(true, was) <= p.rank
  }

  predicate RollbackWrite(cfg: Config, was: RbStatus, next: RbStatus, p: Pass) {
    && p.active
    && was.complete == Absent
    && ( || RbFailWrite(was, next, p)
         || (RbStartsInTime(was, next, p)
             && ( || RbSuspendWrite(cfg, was, next, p) || RbStopWrite(cfg, was, next, p)
                  || RbVolumeWrite(was, next, p) || RbRevertWrite(was, next, p) || RbReconcileWrite(was, next, p)
                  || RbHealthyWrite(was, next, p) || RbCompleteWrite(was, next))))
  }

  // ----- mutating calls -----

  function SnapshotName(cfg: Config, pvc: string, timestamp: string): string {
    cfg.appName + "-" + pvc + "-pre-upgrade-" + timestamp
  }

  /** The version an upgrade commits, from the app as read. */
  function CommitVersion(cfg: Config, app: AppStatus): Option<string> {
    match TargetOf(cfg, app)
    case Some(v) => VersionString(v)
    case None => None
  }

  /** The version a rollback goes back to, from the upgrade as read. */
  function RevertVersion(up: UpStatus): Option<string> {
    match up.upgrade
    case Some(UpgradeRecord(Some(v), _)) => VersionString(v)
    case _ => None
  }

  /** Everything an upgrade checks before it suspends anything: there is a version to write and a file to
      write it in, the suspend target is fit, and with snapshots on there is what they need. */
  predicate Prepared(cfg: Config, p: Pass) {
    && p.seen.app.Some? && Plannable(cfg, p.seen.app.value)
    && p.seen.file.Some? && Readable(cfg, p.seen.file.value)
    && SuspendTarget in p.seen.fit
    && (cfg.Snapshots() ==> p.seen.pvcs.Some? && p.seen.workloads.Some? && SnapshotClass in p.seen.fit)
  }

  /** The same for a rollback: an upgrade that is over and can be rolled back, a readable file, and every
      snapshot there and ready. */
  predicate RbPrepared(cfg: Config, p: Pass) {
    && p.seen.upgrade.Some? && CanRollBack(cfg, p.seen.upgrade.value)
    && p.seen.file.Some? && GetVersion(p.seen.file.value, cfg.Path()).Ok?
    && SuspendTarget in p.seen.fit
    && (Restorable(p.seen.upgrade.value, cfg) ==> AllReady(p.seen.upgrade.value.snapshots, p) && p.seen.workloads.Some?)
  }

  predicate UpgradeCall(cfg: Config, up: UpStatus, p: Pass, call: Call) {
    && p.active
    && up.complete == Absent
    && match call
       case SuspendFlux =>
         (if cfg.dryRun then up.suspended != IsTrue else up.suspended == Absent) && Prepared(cfg, p)
       case ResumeFlux =>
         || (up.suspended != Absent && up.committed && !up.reconciled)
         || (up.suspended == IsTrue && !up.committed && p.work.committed == None && (cfg.dryRun || p.trouble || p.negative))
       case Scale(w, n) =>
         && up.suspended != Absent && p.seen.workloads.Some? && w in p.seen.workloads.value
         && (if n == 0 then !up.stopped && (cfg.dryRun || cfg.Snapshots()) else cfg.dryRun && n == 1 && p.flux.verified)
       case CreateSnapshot(pvc, timestamp) =>
         && !cfg.dryRun && up.suspended != Absent && up.stopped && !up.snapReady && up.snapshots == []
         && p.seen.pvcs.Some? && |p.work.created| < |p.seen.pvcs.value| && pvc == p.seen.pvcs.value[|p.work.created|]
         && (p.work.timestamp == None || p.work.timestamp == Some(timestamp))
       case DeleteSnapshot(_) => !cfg.dryRun && up.healthy && cfg.snapshotsOn
       case UpdateApp(app) =>
         && !cfg.dryRun && up.healthy && up.upgrade.Some?
         && p.seen.app.Some? && app == Upgraded(p.seen.app.value, up.upgrade.value)
       case CreateRollback => !cfg.dryRun && up.committed && cfg.autoRollback && (p.trouble || p.negative)
       case Commit(version, tree) =>
         && !cfg.dryRun && up.suspended != Absent && up.stopped && up.snapReady && !up.committed
         && p.flux.verified && p.work.committed == None && !p.lost
         && p.seen.app.Some? && Plannable(cfg, p.seen.app.value) && CommitVersion(cfg, p.seen.app.value) == Some(version)
         && p.seen.file.Some? && (cfg.versionPath == "" ==> IsHelmRelease(p.seen.file.value))
         && Edit(cfg, p.seen.file.value, version) == Ok(tree)
       case DeletePvc(_) => false
       case CreatePvc(_) => false
  }

  predicate RollbackCall(cfg: Config, rb: RbStatus, p: Pass, call: Call) {
    && p.active
    && rb.complete == Absent
    && match call
       case SuspendFlux =>
         rb.suspended == Absent && RbPrepared(cfg, p)
       case ResumeFlux => rb.suspended != Absent && rb.volumes && rb.reverted && !rb.reconciled
       case Scale(w, n) =>
         && n == 0 && rb.suspended != Absent && !rb.stopped && p.seen.workloads.Some? && w in p.seen.workloads.value
         && p.seen.upgrade.Some? && Restorable(p.seen.upgrade.value, cfg)
       case DeletePvc(pvc) =>
         && rb.suspended != Absent && rb.stopped && !rb.volumes && p.flux.verified
         && p.seen.upgrade.Some? && pvc !in NamesOf(rb.restored)
         && (exists r | r in p.seen.upgrade.value.snapshots :: r.pvc == pvc)
       case CreatePvc(ref) =>
         && rb.suspended != Absent && rb.stopped && !rb.volumes && p.flux.verified
         && p.seen.upgrade.Some? && NextToRestore(p.seen.upgrade.value.snapshots, rb.restored, ref)
         && ref.pvc in p.work.gone && ref.snap in p.seen.ready && RestoreSize(ref.snap) in p.seen.fit
       case Commit(version, tree) =>
         && rb.suspended != Absent && rb.stopped && rb.volumes && !rb.reverted
         && p.flux.verified && p.work.committed == None
         && p.seen.upgrade.Some? && RevertVersion(p.seen.upgrade.value) == Some(version)
         && p.seen.file.Some? && Edit(cfg, p.seen.file.value, version) == Ok(tree)
       case CreateSnapshot(_, _) => false
       case DeleteSnapshot(_) => false
       case UpdateApp(_) => false
       case CreateRollback => false
  }

  predicate MayCall(cfg: Config, s: State, who: Actor, call: Call) {
    if who == Upgrader then UpgradeCall(cfg, s.up, s.upPass, call) else RollbackCall(cfg, s.rb, s.rbPass, call)
  }

  /** What the API server itself asks of a call. */
  predicate Accepted(cfg: Config, w: World, call: Call) {
    match call
    case CreateSnapshot(pvc, timestamp) => SnapshotName(cfg, pvc, timestamp) !in w.snaps
    case DeleteSnapshot(snap) => snap in w.snaps
    case DeletePvc(pvc) => pvc in w.pvcs
    case CreatePvc(ref) => ref.pvc !in w.pvcs
    case _ => true
  }

  /** What an accepted call changes. */
  function Effect(cfg: Config, w: World, who: Actor, call: Call): World {
    match call
    case SuspendFlux => if w.flux == Running then w.(flux := HeldBy(who)) else w
    case ResumeFlux => w.(flux := Running)
    case Scale(workload, count) => w.(replicas := w.replicas[workload := count])
    case CreateSnapshot(pvc, timestamp) =>
      w.(snaps := w.snaps[SnapshotName(cfg, pvc, timestamp) := Snapshot(pvc, false)])
    case DeleteSnapshot(snap) => w.(snaps := w.snaps - {snap})
    case UpdateApp(app) => w.(app := app)
    case CreateRollback => w.(rollbacks := w.rollbacks + 1)
    case Commit(_, tree) => w.(file := tree)
    case DeletePvc(pvc) =>
      if pvc in w.pvcs then w.(pvcs := w.pvcs[pvc := w.pvcs[pvc].(terminating := true)]) else w
    case CreatePvc(ref) => w.(pvcs := w.pvcs[ref.pvc := Pvc(FromSnapshot(ref.snap), false, false)])
  }

  function FluxAfterCall(f: FluxNote, call: Call): FluxNote {
    match call
    case SuspendFlux => f.(last := Suspended, running := false, released := false)
    case ResumeFlux => f.(last := Resumed, running := false, released := true)
    case Scale(_, _) => f.(holding := false)
    case _ => f
  }

  /** Once replicas are set, an older look at the workload's pods counts no more; once Flux is resumed, an
      older look at what it has reconciled does not. */
  function SightsAfterCall(r: Sights, call: Call): Sights {
    match call
    case Scale(workload, _) => r.(down := r.down - {workload})
    case ResumeFlux => r.(reconciled := false)
    case _ => r
  }

  function WorkAfterCall(cfg: Config, w: Work, call: Call): Work {
    match call
    case CreateSnapshot(pvc, timestamp) =>
      w.(timestamp := Some(timestamp), created := w.created + [SnapRef(pvc, SnapshotName(cfg, pvc, timestamp))])
    case Commit(version, _) => w.(committed := Some(version))
    case Scale(workload, count) => w.(scaled := w.scaled[workload := count])
    case UpdateApp(app) => w.(updated := Some(app))
    case CreateRollback => w.(rollback := true)
    case DeletePvc(pvc) => w.(asked := w.asked + {pvc}, made := None, gone := w.gone - {pvc}, bound := w.bound - {pvc})
    case CreatePvc(ref) => w.(made := Some(ref), gone := w.gone - {ref.pvc}, bound := w.bound - {ref.pvc})
    case _ => w
  }

  /** What a pass knows after a call of its own went through. */
  function NoteCall(cfg: Config, p: Pass, call: Call): Pass {
    p.(flux := FluxAfterCall(p.flux, call), seen := SightsAfterCall(p.seen, call), work := WorkAfterCall(cfg, p.work, call))
  }

  // ----- sights -----

  predicate Distinct<T(==)>(xs: seq<T>) {
    forall i, j | 0 <= i < j < |xs| :: xs[i] != xs[j]
  }

  /** The upgrade, as read by a rollback, can be rolled back. */
  predicate CanRollBack(cfg: Config, up: UpStatus) {
    up.complete != Absent && (cfg.skipSnapshot || up.snapshots != []) && RevertVersion(up).Some?
  }

  /** The answer is the true one. What discovery finds is the environment's choice, except that an
      explicit PVC list is returned as configured and an auto-discovered one has no duplicates. */
  predicate IsTrueSight(cfg: Config, s: State, who: Actor, sight: Sight) {
    var w := s.world;
    match sight
    case SawSuspended(yes) => yes == (w.flux != Running)
    case SawApp(app) => app == w.app
    case SawUpgrade(up) => who == Rollbacker && up == s.up
    case SawFile(file) => file == w.file
    case SawWorkloads(_) => true
    case SawDown(workload, yes) => yes == (workload !in w.pods || w.pods[workload] == 0)
    case SawUp(workload, yes) => yes == !(workload !in w.pods || w.pods[workload] == 0)
    case SawPvcs(pvcs) => if cfg.explicitPvcs != [] then pvcs == cfg.explicitPvcs else Distinct(pvcs)
    case SawReady(snap, yes) => snap in w.snaps && yes == w.snaps[snap].ready
    case SawReconciled(yes) => yes == w.reconciled
    case SawHealthy(yes) => yes == w.healthy
    case SawGone(pvc, yes) => yes == (pvc !in w.pvcs)
    case SawBound(pvc, yes) => pvc in w.pvcs && yes == w.pvcs[pvc].bound
    case SawReplicas(workload, count) => workload in w.replicas && w.replicas[workload] == count
    case SawFit(_) => true
    case SawClock(at) => at == w.now
    case SawTimer(check) =>
      && check.at == w.now
      && (PhaseStart(s, who).Some? ==> PhaseStart(s, who) == Some(check.start))
      && (PhaseStart(s, who) == None ==> PassOf(s, who).stamp == Some(check.start))
  }

  /** The answer is the one the asking pass hoped for. */
  predicate Hoped(cfg: Config, p: Pass, who: Actor, sight: Sight) {
    match sight
    case SawSuspended(yes) => yes == (p.flux.last != Resumed)
    case SawApp(app) => who == Rollbacker || Plannable(cfg, app)
    case SawUpgrade(up) => CanRollBack(cfg, up)
    case SawFile(file) => Readable(cfg, file)
    case SawDown(_, yes) => yes
    case SawUp(_, yes) => yes
    case SawReady(_, yes) => yes
    case SawReconciled(yes) => yes
    case SawHealthy(yes) => yes
    case SawGone(_, yes) => yes
    case SawBound(_, yes) => yes
    case _ => true
  }

  function FluxAfterSight(f: FluxNote, sight: Sight): FluxNote {
    match sight
    case SawSuspended(yes) => f.(verified := f.verified || yes, holding := yes, running := !yes, released := f.released || !yes)
    case SawReplicas(_, _) => f.(holding := false)
    case _ => f
  }

  function SightsAfter(r: Sights, sight: Sight): Sights {
    match sight
    case SawApp(app) => r.(app := Some(app))
    case SawUpgrade(up) => r.(upgrade := Some(up))
    case SawFile(file) => r.(file := Some(file))
    case SawWorkloads(workloads) => r.(workloads := Some(workloads), down := {}, up := false)
    case SawDown(workload, yes) => if yes then r.(down := r.down + {workload}) else r
    case SawUp(_, yes) => r.(up := r.up || yes)
    case SawPvcs(pvcs) => r.(pvcs := Some(pvcs))
    case SawReady(snap, yes) => if yes then r.(ready := r.ready + {snap}) else r
    case SawReplicas(workload, _) => r.(down := r.down - {workload})
    case SawReconciled(yes) => r.(reconciled := yes)
    case SawHealthy(yes) => r.(healthy := yes)
    case SawFit(check) => r.(fit := r.fit + {check})
    case _ => r
  }

  function WorkAfterSight(w: Work, sight: Sight): Work {
    match sight
    case SawGone(pvc, yes) => if yes then w.(gone := w.gone + {pvc}, asked := w.asked + {pvc}) else w
    case SawReplicas(workload, count) => w.(scaled := w.scaled[workload := count])
    case SawBound(pvc, yes) => if yes then w.(bound := w.bound + {pvc}) else w
    case _ => w
  }

  /** What a pass knows after an answer. */
  function NoteSight(cfg: Config, p: Pass, who: Actor, sight: Sight): Pass {
    p.(negative := p.negative || !Hoped(cfg, p, who, sight),
       stamp := if sight.SawClock? then Some(sight.at) else p.stamp,
       timer := if sight.SawTimer? then Some(sight.check) else p.timer,
       flux := FluxAfterSight(p.flux, sight),
       seen := SightsAfter(p.seen, sight),
       work := WorkAfterSight(p.work, sight))
  }

  // ----- the environment -----

  /** What the cluster may do by itself, other writers aside: pods come and go, snapshots become ready or
      appear, PVCs get bound, terminating PVCs vanish, the clock advances, the app's status changes. */
  predicate Benign(w: World, w': World) {
    && w'.flux == w.flux && w'.file == w.file && w'.rollbacks == w.rollbacks
    && w.now <= w'.now
    && (forall n | n in w'.pvcs :: n in w.pvcs && w'.pvcs[n].origin == w.pvcs[n].origin
                                   && w'.pvcs[n].terminating == w.pvcs[n].terminating)
    && (forall n | n in w.pvcs :: n in w'.pvcs || w.pvcs[n].terminating)
    && (forall n | n in w.snaps :: n in w'.snaps && w'.snaps[n].pvc == w.snaps[n].pvc)
  }

  // ----- the transition system -----

  predicate Enabled(cfg: Config, s: State, e: Event) {
    match e
    case Begin(who) => true
    case Saw(who, sight) => PassOf(s, who).active && IsTrueSight(cfg, s, who, sight)
    case Fail(who) => PassOf(s, who).active
    case Did(who, call) => MayCall(cfg, s, who, call) && Accepted(cfg, s.world, call)
    case WriteUpgrade(up) => UpgradeWrite(cfg, s.up, up, s.upPass)
    case WriteRollback(rb) => RollbackWrite(cfg, s.rb, rb, s.rbPass)
    case LoseWrite(who) => PassOf(s, who).active
    case SetFinalizer(who, present) => PassOf(s, who).active && (present || Terminal(s, who))
    case End(who, outcome) => EndOk(cfg, s, who, outcome)
    case EnvWorld(w) => Benign(s.world, w)
    case EnvSuspend(_) => true
    case EnvFile(_) => true
    case EnvPvcs(_) => true
    case EnvSnaps(_) => true
  }

  function PassAfter(cfg: Config, s: State, who: Actor, e: Event): Pass {
    var p := PassOf(s, who);
    if !By(e, who) then p
    else match e
      case Begin(_) => NO_PASS.(active := true, since := s.world.now, rank := RankOf(s, who))
      case Saw(_, sight) => NoteSight(cfg, p, who, sight)
      case Fail(_) => p.(trouble := true)
      case Did(_, call) => NoteCall(cfg, p, call)
      case LoseWrite(_) => p.(trouble := true, lost := true)
      case End(_, _) => p.(active := false)
      case _ => p
  }

  function WorldAfter(cfg: Config, w: World, e: Event): World {
    match e
    case Did(who, call) => Effect(cfg, w, who, call)
    case EnvWorld(w') => w'
    case EnvSuspend(yes) =>
      w.(flux := if !yes then Running else if w.flux == Running then HeldByOther else w.flux)
    case EnvFile(file) => w.(file := file)
    case EnvPvcs(pvcs) => w.(pvcs := pvcs)
    case EnvSnaps(snaps) => w.(snaps := snaps)
    case _ => w
  }

  /** The upgrade's pass has committed, and that is not on record. */
  predicate Unwritten(s: State) { s.upPass.work.committed.Some? && !s.up.committed }

  function UpHistoryAfter(cfg: Config, s: State, e: Event): UpHistory {
    var h, p := s.hist.up, s.upPass;
    if !By(e, Upgrader) then h
    else match e
      case Begin(_) =>
        h.(trouble := h.trouble || p.active, lost := h.lost || p.active, missed := h.missed + One(p.active && Unwritten(s)),
           unrecorded := h.unrecorded + One(Unwritten(s)))
      case Saw(_, sight) =>
        h.(negative := h.negative || !Hoped(cfg, p, Upgrader, sight),
           ready := if sight.SawReady? && sight.yes then h.ready + {sight.snap} else h.ready)
      case Fail(_) => h.(trouble := true)
      case LoseWrite(_) => h.(trouble := true, lost := true, missed := h.missed + One(Unwritten(s)))
      case Did(_, SuspendFlux) => h.(flux := Suspended)
      case Did(_, ResumeFlux) => h.(flux := Resumed)
      case Did(_, Commit(version, _)) => h.(version := Some(version), commits := h.commits + 1)
      case Did(_, CreateSnapshot(pvc, timestamp)) =>
        h.(snaps := h.snaps + {SnapFact(SnapRef(pvc, SnapshotName(cfg, pvc, timestamp)), s.up.stopped)})
      case End(_, _) => h.(ends := h.ends + 1)
      case _ => h
  }

  function RbHistoryAfter(cfg: Config, s: State, e: Event): RbHistory {
    var h, p := s.hist.rb, s.rbPass;
    if !By(e, Rollbacker) then h
    else match e
      case Begin(_) => h.(trouble := h.trouble || p.active)
      case Saw(_, sight) =>
        h.(negative := h.negative || !Hoped(cfg, p, Rollbacker, sight),
           bound := if sight.SawBound? && sight.yes then h.bound + {sight.pvc} else h.bound)
      case Fail(_) => h.(trouble := true)
      case LoseWrite(_) => h.(trouble := true)
      case Did(_, Commit(version, _)) => h.(version := Some(version))
      case Did(_, DeletePvc(pvc)) => h.(bound := h.bound - {pvc})
      case Did(_, CreatePvc(ref)) => h.(bound := h.bound - {ref.pvc})
      case End(_, _) => h.(ends := h.ends + 1)
      case _ => h
  }

  /** The PVCs that differ. */
  function Changed(w: map<string, Pvc>, w': map<string, Pvc>): set<string> {
    set n | n in w.Keys + w'.Keys && !(n in w && n in w' && w[n] == w'[n])
  }

  function TouchedAfter(s: State, e: Event): set<string> {
    match e
    case EnvPvcs(pvcs) => s.hist.touched + Changed(s.world.pvcs, pvcs)
    case Did(Rollbacker, CreatePvc(ref)) => s.hist.touched - {ref.pvc}
    case _ => s.hist.touched
  }

  /** The state after an enabled step. */
  function Apply(cfg: Config, s: State, e: Event): State {
    State(
      if e.WriteUpgrade? then e.up else s.up,
      if e.SetFinalizer? && e.who == Upgrader then e.present else s.upFinalizer,
      PassAfter(cfg, s, Upgrader, e),
      if e.WriteRollback? then e.rb else s.rb,
      if e.SetFinalizer? && e.who == Rollbacker then e.present else s.rbFinalizer,
      PassAfter(cfg, s, Rollbacker, e),
      WorldAfter(cfg, s.world, e),
      s.hist.(otherFile := s.hist.otherFile || e.EnvFile?,
              touched := TouchedAfter(s, e),
              otherSnaps := s.hist.otherSnaps || e.EnvSnaps?,
              up := UpHistoryAfter(cfg, s, e),
              rb := RbHistoryAfter(cfg, s, e)))
  }

  // ----- runs -----

  /** The state a run of single steps leads to, if every step was enabled. */
  function Play(cfg: Config, init: State, log: seq<Event>): Option<State> {
    if log == [] then
      if Initial(init) then Some(init) else None
    else
      match Play(cfg, init, log[..|log| - 1])
      case Some(s) => if Enabled(cfg, s, log[|log| - 1]) then Some(Apply(cfg, s, log[|log| - 1])) else None
      case None => None
  }
}
