/**
 Discovery: which PVCs an app's workloads use, and which workloads mount a set of PVCs. Pods are matched
 to Deployments by the name of the ReplicaSet that owns them. One discovery sees one state of the cluster;
 each of its reads may fail.
 */
module Discovery {
  import opened Wrappers

  const DEPLOYMENT := "Deployment"
  const STATEFUL_SET := "StatefulSet"
  const REPLICA_SET := "ReplicaSet"
  const READ_WRITE_ONCE := "ReadWriteOnce"

  datatype Owner = Owner(kind: string, name: string)

  /** `claims` holds, volume by volume, the name of the PVC it refers to, if it is one. */
  datatype Pod = Pod(name: string, namespace: string, owners: seq<Owner>, claims: seq<Option<string>>)

  datatype PvcKey = PvcKey(namespace: string, name: string)

  datatype PvcInfo = PvcInfo(key: PvcKey, modes: seq<string>)

  datatype Workload = Workload(kind: string, name: string, namespace: string)

  /** Where the app's workloads are listed: a Helm manifest or a Kustomization's inventory. */
  datatype Source = Manifest(workloads: seq<Workload>) | Inventory(ids: seq<string>)

  datatype App = App(namespace: string, explicit: seq<PvcKey>, excluded: seq<PvcKey>, source: Source)

  function OrElse(namespace: string, fallback: string): string {
    if namespace == "" then fallback else namespace
  }

  // ----- ReplicaSet names -----

  predicate IsHashChar(c: char) { 'a' <= c <= 'z' || '0' <= c <= '9' }

  predicate IsHash(hash: string) {
    5 <= |hash| <= 12 && forall i | 0 <= i < |hash| :: IsHashChar(hash[i])
  }

  /** The position of the last dash; the length of the name if there is none. */
  function LastDash(name: string): (k: nat)
    ensures k <= |name|
    ensures k < |name| ==> name[k] == '-' && '-' !in name[k + 1..]
    ensures k == |name| ==> '-' !in name
  {
    if name == "" then 0
    else if name[|name| - 1] == '-' then |name| - 1
    else
      var k := LastDash(name[..|name| - 1]);
      if k == |name| - 1 then
        assert name == name[..|name| - 1] + [name[|name| - 1]];
        |name|
      else
        assert name[k + 1..] == name[..|name| - 1][k + 1..] + [name[|name| - 1]];
        k
  }

  /** The Deployment whose ReplicaSet has this name; empty if the name does not look like one. */
  function FindDeploymentForReplicaSet(rsName: string): string {
    var k := LastDash(rsName);
    if k == |rsName| then ""
    else if IsHash(rsName[k + 1..]) then rsName[..k]
    else ""
  }

  predicate IsReplicaSetOwnedByDeployment(rsName: string, deployment: string) {
    deployment + "-" <= rsName
  }

  /** A name is taken for a Deployment's ReplicaSet exactly when it is the Deployment's name, a dash and
      a hash of 5 to 12 lowercase letters or digits. */
  lemma ReplicaSetNames(rsName: string, deployment: string)
    requires deployment != ""
    ensures FindDeploymentForReplicaSet(rsName) == deployment
            <==> exists hash :: IsHash(hash) && rsName == deployment + "-" + hash
  {
    var k := LastDash(rsName);
    if FindDeploymentForReplicaSet(rsName) == deployment {
      var hash := rsName[k + 1..];
      assert IsHash(hash) && rsName == deployment + "-" + hash;
    }
    if hash :| IsHash(hash) && rsName == deployment + "-" + hash {
      NoDashInHash(hash);
      DashIsLast(deployment, hash);
      assert rsName[|deployment| + 1..] == hash && rsName[..|deployment|] == deployment;
    }
  }

  /** The same, without naming the hash. */
  lemma ReplicaSetNamesSpelt(rsName: string, deployment: string)
    requires deployment != ""
    ensures FindDeploymentForReplicaSet(rsName) == deployment
            <==> && deployment + "-" <= rsName && 5 <= |rsName| - |deployment| - 1 <= 12
                 && forall i | |deployment| < i < |rsName| :: 'a' <= rsName[i] <= 'z' || '0' <= rsName[i] <= '9'
  {
    hide FindDeploymentForReplicaSet;
    ReplicaSetNames(rsName, deployment);
    var n := |deployment| + 1;
    if hash :| IsHash(hash) && rsName == deployment + "-" + hash {
      forall i | n <= i < |rsName| ensures IsHashChar(rsName[i]) { assert rsName[i] == hash[i - n]; }
    }
    if deployment + "-" <= rsName && 5 <= |rsName| - n <= 12
       && forall i | n <= i < |rsName| :: 'a' <= rsName[i] <= 'z' || '0' <= rsName[i] <= '9' {
      var hash := rsName[n..];
      assert IsHash(hash) && rsName == deployment + "-" + hash;
    }
  }

  lemma NoDashInHash(hash: string)
    requires IsHash(hash)
    ensures '-' !in hash
  {
    assert forall i | 0 <= i < |hash| :: IsHashChar(hash[i]);
  }

  lemma {:induction false} DashIsLast(front: string, back: string)
    requires '-' !in back
    ensures LastDash(front + "-" + back) == |front|
  {
    var name := front + "-" + back;
    if back != "" {
      DashIsLast(front, back[..|back| - 1]);
      assert name[..|name| - 1] == front + "-" + back[..|back| - 1];
      assert name[|name| - 1] == back[|back| - 1];
    }
  }

  /** The Deployment a ReplicaSet is traced back to is always one whose pods would be looked for under that
      ReplicaSet name. */
  lemma TracedIsOwned(rsName: string)
    requires FindDeploymentForReplicaSet(rsName) != ""
    ensures IsReplicaSetOwnedByDeployment(rsName, FindDeploymentForReplicaSet(rsName))
  {
    var k := LastDash(rsName);
    assert rsName[..k] + "-" == rsName[..k + 1];
  }

  /** The converse fails exactly for other Deployments' ReplicaSets: what has the form of a ReplicaSet's name
      is claimed by the Deployment it is traced back to, and by every Deployment whose name, followed by a
      dash, begins that one's. */
  lemma OwnershipIsByPrefix(rsName: string, deployment: string)
    requires FindDeploymentForReplicaSet(rsName) != ""
    ensures var traced := FindDeploymentForReplicaSet(rsName);
            IsReplicaSetOwnedByDeployment(rsName, deployment) <==> deployment == traced || deployment + "-" <= traced
  {
    var k := LastDash(rsName);
    var traced, claim := rsName[..k], deployment + "-";
    assert traced + "-" == rsName[..k + 1];
    if claim <= rsName {
      assert rsName[|deployment|] == claim[|deployment|] == '-';
      forall i | k < i < |rsName| ensures rsName[i] != '-' { assert rsName[i] == rsName[k + 1..][i - k - 1]; }
      assert deployment == rsName[..|deployment|];
      if |deployment| < k { assert claim == traced[..|deployment| + 1]; }
    }
  }

  /** So among these Deployments one claims only its own ReplicaSets if and only if no other's name continues
      its own after a dash. */
  lemma ClaimsOnlyItsOwn(deployments: set<string>, deployment: string)
    requires "" !in deployments
    ensures (forall rsName | FindDeploymentForReplicaSet(rsName) in deployments && IsReplicaSetOwnedByDeployment(rsName, deployment) ::
               FindDeploymentForReplicaSet(rsName) == deployment)
            <==> (forall other | other in deployments :: !(deployment + "-" <= other))
  {
    forall other | other in deployments && deployment + "-" <= other
      ensures exists rsName | FindDeploymentForReplicaSet(rsName) in deployments ::
                IsReplicaSetOwnedByDeployment(rsName, deployment) && FindDeploymentForReplicaSet(rsName) != deployment
    {
      var rsName := other + "-" + "abcde";
      assert IsHash("abcde");
      ReplicaSetNames(rsName, other);
      OwnershipIsByPrefix(rsName, deployment);
      assert |other| > |deployment|;
    }
    forall rsName | FindDeploymentForReplicaSet(rsName) in deployments && IsReplicaSetOwnedByDeployment(rsName, deployment)
      ensures FindDeploymentForReplicaSet(rsName) == deployment || deployment + "-" <= FindDeploymentForReplicaSet(rsName)
    {
      OwnershipIsByPrefix(rsName, deployment);
    }
  }

  /** One such pair. */
  lemma OwnershipIsByPrefixOnly()
    ensures IsReplicaSetOwnedByDeployment("web-cache-abc12", "web")
    ensures FindDeploymentForReplicaSet("web-cache-abc12") == "web-cache"
  {
    assert IsHash("abc12");
    assert "web-cache-abc12" == "web-cache" + "-" + "abc12";
    ReplicaSetNames("web-cache-abc12", "web-cache");
  }

  // ----- owners -----

  /** The Deployment or StatefulSet a pod belongs to: the first of its owners that leads to one. */
  function GetOwningWorkload(pod: Pod, owners: seq<Owner>): Option<Workload>
    decreases |owners|
  {
    if owners == [] then None
    else if owners[0].kind == STATEFUL_SET then Some(Workload(STATEFUL_SET, owners[0].name, pod.namespace))
    else if owners[0].kind == REPLICA_SET && FindDeploymentForReplicaSet(owners[0].name) != "" then
      Some(Workload(DEPLOYMENT, FindDeploymentForReplicaSet(owners[0].name), pod.namespace))
    else GetOwningWorkload(pod, owners[1..])
  }

  /** The owner is a StatefulSet with the workload's name, or a ReplicaSet named after it. */
  predicate LeadsTo(owner: Owner, w: Workload) {
    || (owner.kind == "StatefulSet" && w.kind == "StatefulSet" && owner.name == w.name)
    || (owner.kind == "ReplicaSet" && w.kind == "Deployment" && w.name != "" && FindDeploymentForReplicaSet(owner.name) == w.name)
  }

  /** A pod's workload is the one its first owner that leads to any leads to, in the pod's namespace; owners
      of every other kind, and ReplicaSets named otherwise, are passed over. */
  lemma {:induction false} FirstOwnerDecides(pod: Pod, owners: seq<Owner>, w: Workload)
    ensures GetOwningWorkload(pod, owners) == Some(w) <==>
            && w.namespace == pod.namespace
            && exists k | 0 <= k < |owners| :: LeadsTo(owners[k], w) && forall j, v | 0 <= j < k :: !LeadsTo(owners[j], v)
    decreases |owners|
  {
    hide FindDeploymentForReplicaSet;
    if owners != [] {
      var rest := owners[1..];
      FirstOwnerDecides(pod, rest, w);
      assert forall k | 0 <= k < |rest| :: rest[k] == owners[k + 1];
      if v :| LeadsTo(owners[0], v) {
        assert v.(namespace := pod.namespace) == GetOwningWorkload(pod, owners).value;
      } else {
        assert GetOwningWorkload(pod, owners) == GetOwningWorkload(pod, rest) by { LeadsNowhere(pod, owners); }
        if k :| 0 <= k < |rest| && LeadsTo(rest[k], w) && forall j, v | 0 <= j < k :: !LeadsTo(rest[j], v) {
          forall j, v | 0 <= j < k + 1 ensures !LeadsTo(owners[j], v) { if j > 0 { assert owners[j] == rest[j - 1]; } }
          assert LeadsTo(owners[k + 1], w);
        }
        if k :| 0 <= k < |owners| && LeadsTo(owners[k], w) && forall j, v | 0 <= j < k :: !LeadsTo(owners[j], v) {
          forall j, v | 0 <= j < k - 1 ensures !LeadsTo(rest[j], v) { assert rest[j] == owners[j + 1]; }
          assert LeadsTo(rest[k - 1], w);
        }
      }
    }
  }

  lemma LeadsNowhere(pod: Pod, owners: seq<Owner>)
    requires owners != [] && forall v :: !LeadsTo(owners[0], v)
    ensures GetOwningWorkload(pod, owners) == GetOwningWorkload(pod, owners[1..])
  {
    hide FindDeploymentForReplicaSet;
    assert !LeadsTo(owners[0], Workload("StatefulSet", owners[0].name, ""));
    assert !LeadsTo(owners[0], Workload("Deployment", FindDeploymentForReplicaSet(owners[0].name), ""));
  }

  predicate Owns(kind: string, name: string, owner: Owner) {
    || (kind == STATEFUL_SET && owner.kind == STATEFUL_SET && owner.name == name)
    || (kind == DEPLOYMENT && owner.kind == REPLICA_SET && IsReplicaSetOwnedByDeployment(owner.name, name))
  }

  predicate BelongsTo(pod: Pod, w: Workload, fallback: string) {
    pod.namespace == OrElse(w.namespace, fallback) && exists o | o in pod.owners :: Owns(w.kind, w.name, o)
  }

  // ----- what discovery should find -----

  /** The existing PVCs mounted by pods of the workloads. */
  ghost predicate IsUsed(pods: seq<Pod>, pvcs: map<PvcKey, seq<string>>, workloads: seq<Workload>, fallback: string, key: PvcKey) {
    key in pvcs && exists w, pod | w in workloads && pod in pods ::
      BelongsTo(pod, w, fallback) && pod.namespace == key.namespace && Some(key.name) in pod.claims
  }

  predicate IsExcluded(app: App, key: PvcKey) {
    exists x | x in app.excluded :: PvcKey(OrElse(x.namespace, app.namespace), x.name) == key
  }

  /** The workloads that mount one of the named PVCs, by their pods in the namespace. */
  ghost predicate Mounts(pods: seq<Pod>, names: seq<string>, namespace: string, w: Workload) {
    exists pod | pod in pods ::
      pod.namespace == namespace && (exists name | name in names :: Some(name) in pod.claims)
      && GetOwningWorkload(pod, pod.owners) == Some(w)
  }

  function NamesOf(keys: seq<PvcKey>): (names: seq<string>)
    ensures |names| == |keys| && forall i | 0 <= i < |keys| :: names[i] == keys[i].name
  {
    seq(|keys|, i requires 0 <= i < |keys| => keys[i].name)
  }

  /** What the app auto-discovers as PVCs to snapshot. */
  ghost predicate IsSelected(pods: seq<Pod>, pvcs: map<PvcKey, seq<string>>, app: App, key: PvcKey) {
    && IsUsed(pods, pvcs, WorkloadsOf(app), app.namespace, key)
    && !IsExcluded(app, key) && READ_WRITE_ONCE in pvcs[key]
  }

  function WorkloadsOf(app: App): seq<Workload> {
    match app.source
    case Manifest(workloads) => workloads
    case Inventory(ids) => FromInventory(ids, app.namespace)
  }

  // ----- inventory entries -----

  function Split(text: string, sep: char): (parts: seq<string>)
    ensures |parts| >= 1
    decreases |text|
  {
    if text == "" then [""]
    else
      var rest := Split(text[1..], sep);
      if text[0] == sep then [""] + rest else [[text[0]] + rest[0]] + rest[1..]
  }

  predicate IsWorkloadKind(kind: string) { kind == DEPLOYMENT || kind == STATEFUL_SET }

  /** The workload an inventory entry names, if it names one. */
  function FromEntry(id: string, fallback: string): seq<Workload> {
    var parts := Split(id, '_');
    if |parts| < 4 || !IsWorkloadKind(parts[3]) then []
    else [Workload(parts[3], parts[1], OrElse(parts[0], fallback))]
  }

  function FromInventory(ids: seq<string>, fallback: string): seq<Workload> {
    if ids == [] then []
    else FromInventory(ids[..|ids| - 1], fallback) + FromEntry(ids[|ids| - 1], fallback)
  }

  method ExtractWorkloadsFromInventory(ids: seq<string>, fallback: string) returns (workloads: seq<Workload>)
    ensures workloads == FromInventory(ids, fallback)
  {
    workloads := [];
    for i := 0 to |ids|
      invariant workloads == FromInventory(ids[..i], fallback)
    {
      var parts := Split(ids[i], '_');
      if |parts| >= 4 && IsWorkloadKind(parts[3]) {
        workloads := workloads + [Workload(parts[3], parts[1], OrElse(parts[0], fallback))];
      }
      assert ids[..i + 1][..i] == ids[..i];
    }
    assert ids[..|ids|] == ids;
  }

  lemma {:induction false} SplitClean(text: string, sep: char, tail: string)
    requires sep !in text
    ensures Split(text + [sep] + tail, sep) == [text] + Split(tail, sep)
  {
    if text == "" {
      assert (text + [sep] + tail)[1..] == tail;
    } else {
      assert (text + [sep] + tail)[1..] == text[1..] + [sep] + tail;
      SplitClean(text[1..], sep, tail);
      assert [text[0]] + text[1..] == text;
    }
  }

  lemma {:induction false} SplitLast(text: string, sep: char)
    requires sep !in text
    ensures Split(text, sep) == [text]
  {
    if text != "" {
      SplitLast(text[1..], sep);
      assert [text[0]] + text[1..] == text;
    }
  }

  /** An inventory entry written as namespace, name, group and kind, joined by underscores, is read back,
      when none of the four has an underscore in it. */
  lemma EntryRoundTrip(namespace: string, name: string, group: string, kind: string, fallback: string)
    requires '_' !in namespace && '_' !in name && '_' !in group && '_' !in kind
    ensures FromEntry(namespace + "_" + (name + "_" + (group + "_" + kind)), fallback)
            == if IsWorkloadKind(kind) then [Workload(kind, name, OrElse(namespace, fallback))] else []
  {
    SplitLast(kind, '_');
    SplitClean(group, '_', kind);
    SplitClean(name, '_', group + "_" + kind);
    SplitClean(namespace, '_', name + "_" + (group + "_" + kind));
  }

  // ----- the discoverer -----

  class Discoverer {
    const pods: seq<Pod>
    const pvcs: map<PvcKey, seq<string>>  // access modes by PVC
    ghost var refused: nat                // reads that have failed

    constructor (pods: seq<Pod>, pvcs: map<PvcKey, seq<string>>)
      ensures this.pods == pods && this.pvcs == pvcs
    {
      this.pods, this.pvcs := pods, pvcs;
    }

    method ListPods(namespace: string) returns (r: Result<seq<Pod>>)
      modifies this
      ensures refused == if r.Ok? then old(refused) else old(refused) + 1
      ensures r.Ok? ==> forall pod :: pod in r.value <==> pod in pods && pod.namespace == namespace
    {
      var ok: bool := *;
      if !ok {
        refused := refused + 1;
        return Err;
      }
      var found: seq<Pod> := [];
      for i := 0 to |pods|
        invariant forall pod :: pod in found <==> pod in pods[..i] && pod.namespace == namespace
      {
        assert pods[..i + 1] == pods[..i] + [pods[i]];
        if pods[i].namespace == namespace { found := found + [pods[i]]; }
      }
      assert pods[..|pods|] == pods;
      r := Ok(found);
    }

    /** The access modes of a PVC. A PVC that is not there is an error, too, but not a refusal. */
    method GetPvc(key: PvcKey) returns (r: Result<seq<string>>)
      modifies this
      ensures refused == old(refused) || (refused == old(refused) + 1 && r.Err?)
      ensures refused == old(refused) ==> (r.Ok? <==> key in pvcs)
      ensures r.Ok? ==> key in pvcs && r.value == pvcs[key]
    {
      var ok: bool := *;
      if !ok {
        refused := refused + 1;
        return Err;
      }
      r := if key in pvcs then Ok(pvcs[key]) else Err;
    }

    /** The pods of a workload, each once per time it is listed. */
    method FindPodsForWorkload(kind: string, name: string, namespace: string) returns (r: Result<seq<Pod>>)
      modifies this
      ensures refused == if r.Ok? then old(refused) else old(refused) + 1
      ensures r.Ok? ==> forall pod :: pod in r.value <==>
                pod in pods && pod.namespace == namespace && exists o | o in pod.owners :: Owns(kind, name, o)
    {
      var listed := ListPods(namespace);
      if listed.Err? { return Err; }
      var found: seq<Pod> := [];
      for i := 0 to |listed.value|
        invariant forall pod :: pod in found <==>
                    pod in listed.value[..i] && exists o | o in pod.owners :: Owns(kind, name, o)
      {
        var pod := listed.value[i];
        assert listed.value[..i + 1] == listed.value[..i] + [pod];
        var hit := false;
        for j := 0 to |pod.owners|
          invariant !hit && forall k | 0 <= k < j :: !Owns(kind, name, pod.owners[k])
        {
          if Owns(kind, name, pod.owners[j]) {
            hit := true;
            break;
          }
        }
        assert hit <==> exists o | o in pod.owners :: Owns(kind, name, o);
        if hit { found := found + [pod]; }
      }
      assert listed.value[..|listed.value|] == listed.value;
      r := Ok(found);
    }

    /** The existing PVCs the workloads use. A workload or PVC whose read fails is passed over. */
    method FindPvcsForWorkloads(workloads: seq<Workload>, fallback: string) returns (found: map<PvcKey, PvcInfo>)
      modifies this
      ensures refused >= old(refused)
      ensures forall key | key in found :: IsUsed(pods, pvcs, workloads, fallback, key) && found[key] == PvcInfo(key, pvcs[key])
      ensures refused == old(refused) ==> forall key | IsUsed(pods, pvcs, workloads, fallback, key) :: key in found
    {
      found := map[];
      for i := 0 to |workloads|
        invariant refused >= old(refused)
        invariant Sound(found, pods, pvcs, workloads[..i], fallback)
        invariant refused == old(refused) ==>
                    forall key | IsUsed(pods, pvcs, workloads[..i], fallback, key) :: key in found
      {
        found := AddPvcsOf(workloads[i], workloads[..i], fallback, found, old(refused));
        assert workloads[..i + 1] == workloads[..i] + [workloads[i]];
      }
      assert workloads[..|workloads|] == workloads;
    }

    /** One workload's share. */
    method AddPvcsOf(w: Workload, ghost before: seq<Workload>, fallback: string, known: map<PvcKey, PvcInfo>, ghost start: nat)
      returns (found: map<PvcKey, PvcInfo>)
      requires refused >= start && Sound(known, pods, pvcs, before, fallback)
      requires refused == start ==> forall key | IsUsed(pods, pvcs, before, fallback, key) :: key in known
      modifies this
      ensures refused >= start && Sound(found, pods, pvcs, before + [w], fallback)
      ensures refused == start ==> forall key | IsUsed(pods, pvcs, before + [w], fallback, key) :: key in found
    {
      hide IsUsed, Covered, Sound;
      found := known;
      StillSound(known, pods, pvcs, before, w, fallback);
      var ns := OrElse(w.namespace, fallback);
      var mine := FindPodsForWorkload(w.kind, w.name, ns);
      if mine.Err? { return; }
      for i := 0 to |mine.value|
        invariant refused >= old(refused) >= start
        invariant forall key | key in known :: key in found
        invariant Sound(found, pods, pvcs, before + [w], fallback)
        invariant refused == start ==> forall k | 0 <= k < i :: Covered(found, pvcs, mine.value[k], |mine.value[k].claims|)
      {
        assert mine.value[i] in mine.value;
        ghost var was := found;
        found := AddClaims(w, before, fallback, mine.value[i], found, start);
        StillCovered(was, found, pvcs, mine.value[..i]);
      }
      if refused == start { AllCovered(pods, pvcs, before, w, fallback, mine.value, found); }
    }

    method AddClaims(w: Workload, ghost before: seq<Workload>, fallback: string, pod: Pod, known: map<PvcKey, PvcInfo>, ghost start: nat)
      returns (found: map<PvcKey, PvcInfo>)
      requires refused >= start && pod in pods && BelongsTo(pod, w, fallback)
      requires Sound(known, pods, pvcs, before + [w], fallback)
      modifies this
      ensures refused >= old(refused)
      ensures forall key | key in known :: key in found
      ensures Sound(found, pods, pvcs, before + [w], fallback)
      ensures refused == old(refused) ==> Covered(found, pvcs, pod, |pod.claims|)
    {
      found := known;
      for i := 0 to |pod.claims|
        invariant refused >= old(refused)
        invariant forall key | key in known :: key in found
        invariant Sound(found, pods, pvcs, before + [w], fallback)
        invariant refused == old(refused) ==> Covered(found, pvcs, pod, i)
      {
        if pod.claims[i].Some? {
          var key := PvcKey(pod.namespace, pod.claims[i].value);
          var modes := GetPvc(key);
          if modes.Ok? {
            UsedNow(pods, pvcs, before, w, fallback, pod, key);
            if key !in found { found := found[key := PvcInfo(key, modes.value)]; }
          }
        }
      }
    }

    /** Keep those that are mounted read-write by one node at a time and not excluded. */
    method FilterPvcs(found: seq<PvcInfo>, app: App) returns (kept: seq<PvcInfo>)
      ensures forall p :: p in kept <==> p in found && !IsExcluded(app, p.key) && READ_WRITE_ONCE in p.modes
      ensures Unique(found) ==> Unique(kept)
    {
      var excluded: set<PvcKey> := {};
      for i := 0 to |app.excluded|
        invariant forall key :: key in excluded <==>
                    exists x | x in app.excluded[..i] :: PvcKey(OrElse(x.namespace, app.namespace), x.name) == key
      {
        assert app.excluded[..i + 1] == app.excluded[..i] + [app.excluded[i]];
        excluded := excluded + {PvcKey(OrElse(app.excluded[i].namespace, app.namespace), app.excluded[i].name)};
      }
      assert app.excluded[..|app.excluded|] == app.excluded;
      kept := [];
      for i := 0 to |found|
        invariant forall p :: p in kept <==> p in found[..i] && p.key !in excluded && READ_WRITE_ONCE in p.modes
        invariant Unique(found) ==> Unique(kept)
      {
        assert found[..i + 1] == found[..i] + [found[i]];
        if found[i].key !in excluded && READ_WRITE_ONCE in found[i].modes {
          kept := kept + [found[i]];
        }
      }
      assert found[..|found|] == found;
    }

    /** The configured PVCs, in order; all of them must exist. */
    method GetExplicitPvcs(app: App) returns (r: Result<seq<PvcInfo>>)
      modifies this
      ensures refused >= old(refused)
      ensures r.Ok? ==>
                && |r.value| == |app.explicit|
                && forall i | 0 <= i < |app.explicit| ::
                     var key := PvcKey(OrElse(app.explicit[i].namespace, app.namespace), app.explicit[i].name);
                     key in pvcs && r.value[i] == PvcInfo(key, pvcs[key])
      ensures r.Err? && refused == old(refused) ==>
                exists x | x in app.explicit :: PvcKey(OrElse(x.namespace, app.namespace), x.name) !in pvcs
    {
      var found: seq<PvcInfo> := [];
      for i := 0 to |app.explicit|
        invariant refused >= old(refused) && |found| == i
        invariant forall k | 0 <= k < i ::
                    var key := PvcKey(OrElse(app.explicit[k].namespace, app.namespace), app.explicit[k].name);
                    key in pvcs && found[k] == PvcInfo(key, pvcs[key])
      {
        var key := PvcKey(OrElse(app.explicit[i].namespace, app.namespace), app.explicit[i].name);
        var modes := GetPvc(key);
        if modes.Err? { return Err; }
        found := found + [PvcInfo(key, modes.value)];
      }
      r := Ok(found);
    }

    /** The PVCs to snapshot: the explicit list, or what the app's workloads use. */
    method DiscoverPvcs(app: App) returns (r: Result<seq<PvcInfo>>)
      modifies this
      ensures refused >= old(refused)
      ensures r.Ok? && app.explicit == [] ==>
                && Unique(r.value)
                && (forall p | p in r.value :: IsSelected(pods, pvcs, app, p.key) && p.modes == pvcs[p.key])
                && (refused == old(refused) ==> forall key | IsSelected(pods, pvcs, app, key) :: PvcInfo(key, pvcs[key]) in r.value)
      ensures r.Ok? && app.explicit != [] ==>
                && |r.value| == |app.explicit|
                && forall i | 0 <= i < |app.explicit| ::
                     var key := PvcKey(OrElse(app.explicit[i].namespace, app.namespace), app.explicit[i].name);
                     key in pvcs && r.value[i] == PvcInfo(key, pvcs[key])
      ensures r.Err? && refused == old(refused) ==>
                exists x | x in app.explicit :: PvcKey(OrElse(x.namespace, app.namespace), x.name) !in pvcs
    {
      if app.explicit != [] {
        r := GetExplicitPvcs(app);
        return;
      }
      var workloads: seq<Workload>;
      match app.source {
        case Manifest(listed) => workloads := listed;
        case Inventory(ids) => workloads := ExtractWorkloadsFromInventory(ids, app.namespace);
      }
      var found := FindPvcsForWorkloads(workloads, app.namespace);
      var listed := Values(found);
      var kept := FilterPvcs(listed, app);
      r := Ok(kept);
    }

    /** The workloads that mount the named PVCs, each once, in any order. */
    method DiscoverWorkloadsForPvcs(names: seq<string>, namespace: string) returns (r: Result<seq<Workload>>)
      modifies this
      ensures refused == if r.Ok? then old(refused) else old(refused) + 1
      ensures r.Ok? ==> (forall i, j | 0 <= i < j < |r.value| :: r.value[i] != r.value[j])
      ensures r.Ok? ==> forall w :: w in r.value <==> Mounts(pods, names, namespace, w)
    {
      var listed := ListPods(namespace);
      if listed.Err? { return Err; }
      var owners: set<Workload> := {};
      for i := 0 to |listed.value|
        invariant refused == old(refused)
        invariant forall w :: w in owners <==> Mounts(listed.value[..i], names, namespace, w)
      {
        var pod := listed.value[i];
        assert listed.value[..i + 1] == listed.value[..i] + [pod];
        assert pod in listed.value;
        var mounts := MountsAny(pod, names);
        var owner := GetOwningWorkload(pod, pod.owners);
        if mounts && owner.Some? { owners := owners + {owner.value}; }
        MountsOneMore(listed.value[..i], pod, names, namespace);
      }
      assert listed.value[..|listed.value|] == listed.value;
      var workloads := ToSeq(owners);
      r := Ok(workloads);
    }

    method MountsAny(pod: Pod, names: seq<string>) returns (hit: bool)
      ensures hit <==> exists name | name in names :: Some(name) in pod.claims
    {
      hit := false;
      for i := 0 to |pod.claims|
        invariant !hit && forall k | 0 <= k < i :: pod.claims[k] == None || pod.claims[k].value !in names
      {
        if pod.claims[i].Some? && pod.claims[i].value in names {
          hit := true;
          assert Some(pod.claims[i].value) in pod.claims;
          break;
        }
      }
    }

    /** What has to be scaled down before a snapshot. */
    method DiscoverWorkloads(app: App) returns (r: Result<seq<Workload>>)
      modifies this
      ensures refused >= old(refused)
      ensures r.Ok? && app.explicit == [] && refused == old(refused) ==>
                forall w :: w in r.value <==> ToScaleDown(pods, pvcs, app, w)
      ensures r.Ok? && app.explicit != [] ==>
                forall w :: w in r.value <==> Mounts(pods, NamesOf(app.explicit), app.namespace, w)
      ensures r.Ok? ==> forall i, j | 0 <= i < j < |r.value| :: r.value[i] != r.value[j]
      ensures r.Err? && refused == old(refused) ==>
                exists x | x in app.explicit :: PvcKey(OrElse(x.namespace, app.namespace), x.name) !in pvcs
    {
      var found := DiscoverPvcs(app);
      if found.Err? { return Err; }
      if found.value == [] { return Ok([]); }
      var names := seq(|found.value|, i requires 0 <= i < |found.value| => found.value[i].key.name);
      r := DiscoverWorkloadsForPvcs(names, app.namespace);
      assert app.explicit != [] ==> names == NamesOf(app.explicit);
      if app.explicit == [] && refused == old(refused) {
        forall w ensures Mounts(pods, names, app.namespace, w) <==> ToScaleDown(pods, pvcs, app, w) {
          MountingIsUsing(pods, pvcs, app, found.value, names, w);
        }
      }
    }
  }

  // ----- the set to scale down -----

  /** The workload mounts a PVC that the app selects, as far as names tell. */
  ghost predicate ToScaleDown(pods: seq<Pod>, pvcs: map<PvcKey, seq<string>>, app: App, w: Workload) {
    exists pod: Pod, key: PvcKey | pod in pods && Some(key.name) in pod.claims ::
      pod.namespace == app.namespace && IsSelected(pods, pvcs, app, key) && GetOwningWorkload(pod, pod.owners) == Some(w)
  }

  function Resolved(app: App): set<Workload> {
    set w | w in WorkloadsOf(app) :: w.(namespace := OrElse(w.namespace, app.namespace))
  }

  /** What is auto-discovered depends on the set of workloads only, not on whether a manifest or an
      inventory lists them, in which order, how often, or with the app's namespace spelled out. */
  lemma SourceDoesNotMatter(pods: seq<Pod>, pvcs: map<PvcKey, seq<string>>, a: App, b: App, key: PvcKey)
    requires a.namespace == b.namespace && a.excluded == b.excluded
    requires Resolved(a) == Resolved(b)
    requires IsSelected(pods, pvcs, a, key)
    ensures IsSelected(pods, pvcs, b, key)
  {
    var w, pod :| w in WorkloadsOf(a) && pod in pods && BelongsTo(pod, w, a.namespace)
      && pod.namespace == key.namespace && Some(key.name) in pod.claims;
    var x := w.(namespace := OrElse(w.namespace, a.namespace));
    assert x in Resolved(a);
    var v :| v in WorkloadsOf(b) && v.(namespace := OrElse(v.namespace, b.namespace)) == x;
    assert BelongsTo(pod, v, b.namespace);
  }

  /** The pod, listed workload and owner that make a PVC one to be snapshot. */
  ghost predicate Uses(pod: Pod, w: Workload, owner: Owner, key: PvcKey, namespace: string) {
    && owner in pod.owners && Some(key.name) in pod.claims
    && pod.namespace == key.namespace && pod.namespace == (if w.namespace == "" then namespace else w.namespace)
    && ( || (w.kind == "StatefulSet" && owner.kind == "StatefulSet" && owner.name == w.name)
         || (w.kind == "Deployment" && owner.kind == "ReplicaSet" && w.name + "-" <= owner.name))
  }

  /** What is auto-discovered, spelt out: the existing PVCs with access mode ReadWriteOnce that are claimed by a pod
      of a listed workload, in the workload's namespace or else the app's, and that the app does not
      exclude. */
  lemma SelectedSpelt(pods: seq<Pod>, pvcs: map<PvcKey, seq<string>>, app: App, key: PvcKey)
    ensures IsSelected(pods, pvcs, app, key) <==>
            && key in pvcs && "ReadWriteOnce" in pvcs[key]
            && (forall x | x in app.excluded && x.name == key.name ::
                  (if x.namespace == "" then app.namespace else x.namespace) != key.namespace)
            && exists pod, w, owner | pod in pods && w in WorkloadsOf(app) && owner in pod.owners ::
                 Uses(pod, w, owner, key, app.namespace)
  {
    if IsUsed(pods, pvcs, WorkloadsOf(app), app.namespace, key) {
      var w, pod :| w in WorkloadsOf(app) && pod in pods && BelongsTo(pod, w, app.namespace)
        && pod.namespace == key.namespace && Some(key.name) in pod.claims;
      var owner :| owner in pod.owners && Owns(w.kind, w.name, owner);
      assert Uses(pod, w, owner, key, app.namespace);
    }
    if pod, w, owner :| pod in pods && w in WorkloadsOf(app) && owner in pod.owners && Uses(pod, w, owner, key, app.namespace) {
      assert Owns(w.kind, w.name, owner);
      assert BelongsTo(pod, w, app.namespace);
    }
  }

  /** Completeness: a listed StatefulSet, or a listed Deployment whose ReplicaSet bears its name, a dash and
      a hash, is scaled down if its pod in the app's namespace mounts an existing read-write-once PVC that is
      not excluded. */
  lemma ListedIsScaledDown(pods: seq<Pod>, pvcs: map<PvcKey, seq<string>>, app: App, w: Workload, pod: Pod, owner: string,
                           claim: string)
    requires w in WorkloadsOf(app) && w.name != "" && OrElse(w.namespace, app.namespace) == app.namespace
    requires pod in pods && pod.namespace == app.namespace && Some(claim) in pod.claims
    requires || (w.kind == STATEFUL_SET && pod.owners == [Owner(STATEFUL_SET, w.name)])
             || (w.kind == DEPLOYMENT && pod.owners == [Owner(REPLICA_SET, owner)]
                 && exists hash :: IsHash(hash) && owner == w.name + "-" + hash)
    requires var key := PvcKey(app.namespace, claim);
             key in pvcs && READ_WRITE_ONCE in pvcs[key] && !IsExcluded(app, key)
    ensures ToScaleDown(pods, pvcs, app, Workload(w.kind, w.name, app.namespace))
  {
    var key := PvcKey(app.namespace, claim);
    if w.kind == DEPLOYMENT {
      ReplicaSetNames(owner, w.name);
      TracedIsOwned(owner);
    }
    assert Owns(w.kind, w.name, pod.owners[0]) && pod.owners[0] in pod.owners;
    assert BelongsTo(pod, w, app.namespace);
    assert IsUsed(pods, pvcs, WorkloadsOf(app), app.namespace, key);
    assert GetOwningWorkload(pod, pod.owners) == Some(Workload(w.kind, w.name, app.namespace));
  }

  // ----- steps of the loops -----

  lemma MountingIsUsing(pods: seq<Pod>, pvcs: map<PvcKey, seq<string>>, app: App, found: seq<PvcInfo>, names: seq<string>,
                        w: Workload)
    requires |names| == |found| && forall i | 0 <= i < |found| :: names[i] == found[i].key.name
    requires forall p | p in found :: IsSelected(pods, pvcs, app, p.key)
    requires forall key | IsSelected(pods, pvcs, app, key) :: PvcInfo(key, pvcs[key]) in found
    ensures Mounts(pods, names, app.namespace, w) <==> ToScaleDown(pods, pvcs, app, w)
  {
    hide IsSelected;
    if Mounts(pods, names, app.namespace, w) {
      var pod :| pod in pods && pod.namespace == app.namespace
        && (exists name | name in names :: Some(name) in pod.claims) && GetOwningWorkload(pod, pod.owners) == Some(w);
      var name :| name in names && Some(name) in pod.claims;
      var i :| 0 <= i < |names| && names[i] == name;
      assert found[i] in found;
      assert IsSelected(pods, pvcs, app, found[i].key) && Some(found[i].key.name) in pod.claims;
    }
    if ToScaleDown(pods, pvcs, app, w) {
      var pod: Pod, key: PvcKey :| pod in pods && Some(key.name) in pod.claims
        && pod.namespace == app.namespace && IsSelected(pods, pvcs, app, key) && GetOwningWorkload(pod, pod.owners) == Some(w);
      SelectedExists(pods, pvcs, app, key);
      assert PvcInfo(key, pvcs[key]) in found;
      var i :| 0 <= i < |found| && found[i] == PvcInfo(key, pvcs[key]);
      assert names[i] in names && names[i] == key.name;
    }
  }

  lemma SelectedExists(pods: seq<Pod>, pvcs: map<PvcKey, seq<string>>, app: App, key: PvcKey)
    requires IsSelected(pods, pvcs, app, key)
    ensures key in pvcs
  {
  }

  predicate Unique(found: seq<PvcInfo>) {
    forall i, j | 0 <= i < j < |found| :: found[i].key != found[j].key
  }

  /** The first `n` claims of the pod that name existing PVCs have been found. */
  predicate Covered(found: map<PvcKey, PvcInfo>, pvcs: map<PvcKey, seq<string>>, pod: Pod, n: nat)
    requires n <= |pod.claims|
  {
    forall c | 0 <= c < n && pod.claims[c].Some? ::
      PvcKey(pod.namespace, pod.claims[c].value) in pvcs ==> PvcKey(pod.namespace, pod.claims[c].value) in found
  }

  /** Everything found is used by the workloads, with its true access modes. */
  ghost predicate Sound(found: map<PvcKey, PvcInfo>, pods: seq<Pod>, pvcs: map<PvcKey, seq<string>>, workloads: seq<Workload>,
                        fallback: string)
  {
    forall key | key in found :: IsUsed(pods, pvcs, workloads, fallback, key) && found[key] == PvcInfo(key, pvcs[key])
  }

  lemma StillSound(found: map<PvcKey, PvcInfo>, pods: seq<Pod>, pvcs: map<PvcKey, seq<string>>, before: seq<Workload>,
                   w: Workload, fallback: string)
    requires Sound(found, pods, pvcs, before, fallback)
    ensures Sound(found, pods, pvcs, before + [w], fallback)
  {
  }

  lemma UsedByLast(pods: seq<Pod>, pvcs: map<PvcKey, seq<string>>, before: seq<Workload>, w: Workload, fallback: string,
                   key: PvcKey) returns (pod: Pod)
    requires IsUsed(pods, pvcs, before + [w], fallback, key) && !IsUsed(pods, pvcs, before, fallback, key)
    ensures pod in pods && BelongsTo(pod, w, fallback) && pod.namespace == key.namespace && Some(key.name) in pod.claims
  {
    var v, p :| v in before + [w] && p in pods && BelongsTo(p, v, fallback)
      && p.namespace == key.namespace && Some(key.name) in p.claims;
    assert v !in before;
    pod := p;
  }

  lemma StillCovered(was: map<PvcKey, PvcInfo>, now: map<PvcKey, PvcInfo>, pvcs: map<PvcKey, seq<string>>, done: seq<Pod>)
    requires forall key | key in was :: key in now
    ensures forall pod | pod in done && Covered(was, pvcs, pod, |pod.claims|) :: Covered(now, pvcs, pod, |pod.claims|)
  {
  }

  lemma AllCovered(pods: seq<Pod>, pvcs: map<PvcKey, seq<string>>, before: seq<Workload>, w: Workload, fallback: string,
                   mine: seq<Pod>, found: map<PvcKey, PvcInfo>)
    requires forall pod :: pod in mine <==>
               pod in pods && pod.namespace == OrElse(w.namespace, fallback) && exists o | o in pod.owners :: Owns(w.kind, w.name, o)
    requires forall key | IsUsed(pods, pvcs, before, fallback, key) :: key in found
    requires forall k | 0 <= k < |mine| :: Covered(found, pvcs, mine[k], |mine[k].claims|)
    ensures forall key | IsUsed(pods, pvcs, before + [w], fallback, key) :: key in found
  {
    forall key | IsUsed(pods, pvcs, before + [w], fallback, key) ensures key in found {
      if !IsUsed(pods, pvcs, before, fallback, key) {
        var pod := UsedByLast(pods, pvcs, before, w, fallback, key);
        assert pod in mine;
        var k :| 0 <= k < |mine| && mine[k] == pod;
        var c :| 0 <= c < |pod.claims| && pod.claims[c] == Some(key.name);
        assert Covered(found, pvcs, mine[k], |mine[k].claims|);
        assert key == PvcKey(pod.namespace, pod.claims[c].value);
      }
    }
  }

  lemma UsedNow(pods: seq<Pod>, pvcs: map<PvcKey, seq<string>>, before: seq<Workload>, w: Workload, fallback: string,
                pod: Pod, key: PvcKey)
    requires key in pvcs && pod in pods && BelongsTo(pod, w, fallback)
    requires pod.namespace == key.namespace && Some(key.name) in pod.claims
    ensures IsUsed(pods, pvcs, before + [w], fallback, key)
  {
    assert w in before + [w];
  }

  lemma MountsOneMore(pods: seq<Pod>, pod: Pod, names: seq<string>, namespace: string)
    requires pod.namespace == namespace
    ensures forall w :: Mounts(pods + [pod], names, namespace, w) <==>
              Mounts(pods, names, namespace, w)
              || ((exists name | name in names :: Some(name) in pod.claims) && GetOwningWorkload(pod, pod.owners) == Some(w))
  {
    assert pod in pods + [pod];
  }

  /** The values of a map, in any order. */
  method Values(found: map<PvcKey, PvcInfo>) returns (listed: seq<PvcInfo>)
    requires forall key | key in found :: found[key].key == key
    ensures Unique(listed) && forall p :: p in listed <==> p.key in found && found[p.key] == p
  {
    listed := [];
    var left := found.Keys;
    while left != {}
      invariant left <= found.Keys && Unique(listed)
      invariant forall p :: p in listed <==> p.key in found && p.key !in left && found[p.key] == p
      decreases |left|
    {
      var key :| key in left;
      assert forall i | 0 <= i < |listed| :: listed[i] in listed && listed[i].key != key;
      listed := listed + [found[key]];
      left := left - {key};
    }
  }

  method ToSeq(members: set<Workload>) returns (listed: seq<Workload>)
    ensures forall i, j | 0 <= i < j < |listed| :: listed[i] != listed[j]
    ensures forall w :: w in listed <==> w in members
  {
    listed := [];
    var left := members;
    while left != {}
      invariant left <= members
      invariant forall i, j | 0 <= i < j < |listed| :: listed[i] != listed[j]
      invariant forall w :: w in listed <==> w in members && w !in left
      decreases |left|
    {
      var w :| w in left;
      listed := listed + [w];
      left := left - {w};
    }
  }
}
