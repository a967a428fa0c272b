/** What calls and answers mean in the cluster, whatever the controllers make of them. */
module WorldFacts {
  import opened Wrappers
  import opened YamlTree
  import opened Protocol
  import VersionPath

  // ----- versions and places -----

  predicate HasText(v: VersionInfo) { v.chart != "" || v.tags != [] }

  /** What is written for a version: the chart's, or else the first image's tag. */
  function TextOf(v: VersionInfo): string
    requires HasText(v)
  {
    if v.chart != "" then v.chart else v.tags[0]
  }

  /** The version an upgrade is to go to, if there is one: the requested one, or else the one on offer. */
  function Wanted(cfg: Config, app: AppStatus): Option<VersionInfo> {
    match cfg.target
    case Some(v) => Some(v)
    case None => app.available
  }

  /** The version an upgrade has recorded as the one before it. */
  function Previous(up: UpStatus): Option<VersionInfo> {
    if up.upgrade == None then None else up.upgrade.value.prev
  }

  /** Where the version stands in the manifest. */
  function Place(cfg: Config): YamlTree.Path {
    if cfg.versionPath == "" then ["spec", "chart", "spec", "version"] else VersionPath.Parse(cfg.versionPath)
  }

  lemma PathIsPlace(cfg: Config)
    ensures cfg.Path() == Place(cfg)
  {
    VersionPath.DefaultPath();
  }

  lemma VersionsAreTexts(cfg: Config, app: AppStatus, up: UpStatus)
    ensures CommitVersion(cfg, app)
            == if Wanted(cfg, app).Some? && HasText(Wanted(cfg, app).value) then Some(TextOf(Wanted(cfg, app).value)) else None
    ensures RevertVersion(up)
            == if Previous(up).Some? && HasText(Previous(up).value) then Some(TextOf(Previous(up).value)) else None
    ensures up.upgrade.Some? ==>
              var next := up.upgrade.value.next; VersionString(next) == if HasText(next) then Some(TextOf(next)) else None
  {
  }

  // ----- calls and answers -----

  /** The call shows in the cluster. */
  predicate Felt(cfg: Config, w: World, call: Call) {
    match call
    case SuspendFlux => w.flux != Running
    case ResumeFlux => w.flux == Running
    case Scale(workload, count) => workload in w.replicas && w.replicas[workload] == count
    case CreateSnapshot(pvc, timestamp) =>
      var name := cfg.appName + "-" + pvc + "-pre-upgrade-" + timestamp;
      name in w.snaps && w.snaps[name] == Snapshot(pvc, false)
    case DeleteSnapshot(snap) => snap !in w.snaps
    case UpdateApp(app) => w.app == app
    case CreateRollback => w.rollbacks > 0
    case Commit(_, tree) => w.file == tree
    case DeletePvc(pvc) => pvc in w.pvcs && w.pvcs[pvc].terminating
    case CreatePvc(ref) => ref.pvc in w.pvcs && w.pvcs[ref.pvc] == Pvc(FromSnapshot(ref.snap), false, false)
  }

  lemma CallIsFelt(cfg: Config, w: World, who: Actor, call: Call)
    requires Accepted(cfg, w, call)
    ensures Felt(cfg, Effect(cfg, w, who, call), call)
  {
    if call.CreateSnapshot? {
      assert SnapshotName(cfg, call.pvc, call.timestamp) == cfg.appName + "-" + call.pvc + "-pre-upgrade-" + call.timestamp;
    }
  }

  /** A call that makes something does not take the place of anything. */
  predicate Vacant(cfg: Config, w: World, call: Call) {
    match call
    case CreateSnapshot(pvc, timestamp) => cfg.appName + "-" + pvc + "-pre-upgrade-" + timestamp !in w.snaps
    case CreatePvc(ref) => ref.pvc !in w.pvcs
    case _ => true
  }

  lemma AcceptedIsVacant(cfg: Config, w: World, call: Call)
    requires Accepted(cfg, w, call)
    ensures Vacant(cfg, w, call)
  {
    if call.CreateSnapshot? {
      assert SnapshotName(cfg, call.pvc, call.timestamp) == cfg.appName + "-" + call.pvc + "-pre-upgrade-" + call.timestamp;
    }
  }

  /** The answer is how things are in the cluster. What discovery finds and which checks come out well is not
      part of it. */
  predicate IsSo(w: World, sight: Sight) {
    match sight
    case SawSuspended(yes) => yes <==> w.flux != Running
    case SawApp(app) => w.app == app
    case SawFile(file) => w.file == file
    case SawDown(workload, yes) => yes <==> (workload in w.pods ==> w.pods[workload] == 0)
    case SawUp(workload, yes) => yes <==> workload in w.pods && w.pods[workload] > 0
    case SawReady(snap, yes) => snap in w.snaps && w.snaps[snap].ready == yes
    case SawReconciled(yes) => yes <==> w.reconciled
    case SawHealthy(yes) => yes <==> w.healthy
    case SawGone(pvc, yes) => yes <==> pvc !in w.pvcs
    case SawBound(pvc, yes) => pvc in w.pvcs && w.pvcs[pvc].bound == yes
    case SawReplicas(workload, count) => workload in w.replicas && w.replicas[workload] == count
    case SawClock(at) => w.now == at
    case SawTimer(check) => w.now == check.at
    case _ => true
  }

  lemma SightIsSo(cfg: Config, s: State, who: Actor, sight: Sight)
    requires IsTrueSight(cfg, s, who, sight)
    ensures IsSo(s.world, sight)
  {
  }
}
