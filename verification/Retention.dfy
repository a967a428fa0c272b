/** Snapshot retention: sort one PVC's snapshots by age, in place, and delete the oldest beyond a limit. */
module Retention {
  import opened Wrappers

  datatype VolumeSnapshot = VolumeSnapshot(name: string, app: string, source: Option<string>, created: int)

  // ----- the sort -----

  predicate NewestFirst(snaps: seq<VolumeSnapshot>) {
    forall i, j | 0 <= i < j < |snaps| :: snaps[i].created >= snaps[j].created
  }

  /** An exchange sort on creation times, newest first. */
  method SortSnapshotsByCreationTime(a: array<VolumeSnapshot>)
    modifies a
    ensures NewestFirst(a[..])
    ensures multiset(a[..]) == multiset(old(a[..]))
  {
    var i := 0;
    while i < a.Length - 1
      invariant 0 <= i <= a.Length
      invariant forall p, q | 0 <= p < i && p < q < a.Length :: a[p].created >= a[q].created
      invariant multiset(a[..]) == multiset(old(a[..]))
    {
      var j := i + 1;
      while j < a.Length
        invariant i < j <= a.Length
        invariant forall q | i < q < j :: a[i].created >= a[q].created
        invariant forall p, q | 0 <= p < i && p < q < a.Length :: a[p].created >= a[q].created
        invariant multiset(a[..]) == multiset(old(a[..]))
      {
        if a[j].created > a[i].created {
          a[i], a[j] := a[j], a[i];
        }
        j := j + 1;
      }
      i := i + 1;
    }
  }

  // ----- what retention means -----

  function Group(store: set<VolumeSnapshot>, app: string, pvc: string): set<VolumeSnapshot> {
    set s | s in store && s.app == app && s.source == Some(pvc)
  }

  function AtLeastAsNew(group: set<VolumeSnapshot>, d: VolumeSnapshot): set<VolumeSnapshot> {
    set k | k in group && k.created >= d.created
  }

  /** From `was` to `now`, one PVC's group has been cut down: nothing is lost from a group within the limit,
      and whatever is deleted leaves the full number of snapshots at least as new. */
  predicate CutDown(was: set<VolumeSnapshot>, now: set<VolumeSnapshot>, maxCount: nat) {
    && now <= was
    && (|was| <= maxCount ==> now == was)
    && (forall d | d in was && d !in now :: |AtLeastAsNew(now, d)| >= maxCount)
  }

  /** The whole store after a run for `app`; `clean` tells that every deletion went through. */
  ghost predicate Retained(was: set<VolumeSnapshot>, now: set<VolumeSnapshot>, app: string, maxCount: nat, clean: bool) {
    && now <= was
    && (forall s | s in was && s !in now :: s.app == app && s.source.Some?)
    && (forall pvc :: CutDown(Group(was, app, pvc), Group(now, app, pvc), maxCount))
    && (clean ==> forall pvc :: |Group(now, app, pvc)| == Min(|Group(was, app, pvc)|, maxCount))
  }

  function Min(a: nat, b: nat): nat { if a < b then a else b }

  // ----- what follows -----

  /** Once a group is at the limit, no snapshot kept is older than one deleted. */
  lemma NoneKeptIsOlder(was: set<VolumeSnapshot>, now: set<VolumeSnapshot>, maxCount: nat,
                        kept: VolumeSnapshot, deleted: VolumeSnapshot)
    requires CutDown(was, now, maxCount) && |now| <= maxCount
    requires kept in now && deleted in was && deleted !in now
    ensures kept.created >= deleted.created
  {
    var newer := AtLeastAsNew(now, deleted);
    if kept !in newer {
      assert newer <= now - {kept};
      SubsetSize(newer, now - {kept});
    }
  }

  lemma {:induction false} SubsetSize<T>(a: set<T>, b: set<T>)
    requires a <= b
    ensures |a| <= |b|
  {
    assert b == a + (b - a);
  }

  /** A snapshot strictly newer than all others of its PVC survives, however many deletions fail, unless
      retention keeps none at all. */
  lemma NewestSurvives(was: set<VolumeSnapshot>, now: set<VolumeSnapshot>, app: string, pvc: string, maxCount: nat,
                       clean: bool, newest: VolumeSnapshot)
    requires Retained(was, now, app, maxCount, clean) && maxCount >= 1
    requires newest in Group(was, app, pvc)
    requires forall s | s in Group(was, app, pvc) && s != newest :: s.created < newest.created
    ensures newest in now
  {
    var g, h := Group(was, app, pvc), Group(now, app, pvc);
    assert CutDown(g, h, maxCount);
    assert newest !in h ==> AtLeastAsNew(h, newest) == {};
  }

  /** A second run right after a clean one deletes nothing. */
  lemma SecondRunKeepsAll(was: set<VolumeSnapshot>, now: set<VolumeSnapshot>, again: set<VolumeSnapshot>, app: string,
                          maxCount: nat, clean: bool)
    requires Retained(was, now, app, maxCount, true) && Retained(now, again, app, maxCount, clean)
    ensures again == now
  {
    forall s | s in now ensures s in again {
      if s.app == app && s.source.Some? {
        var pvc := s.source.value;
        assert CutDown(Group(now, app, pvc), Group(again, app, pvc), maxCount);
        assert |Group(now, app, pvc)| == Min(|Group(was, app, pvc)|, maxCount);
        assert s in Group(now, app, pvc);
      }
    }
  }

  // ----- the snapshot manager -----

  /** The list holds exactly the members of the set, each once. */
  ghost predicate Lists(snaps: seq<VolumeSnapshot>, members: set<VolumeSnapshot>) {
    && (forall i, j | 0 <= i < j < |snaps| :: snaps[i] != snaps[j])
    && (forall s :: s in snaps <==> s in members)
  }

  lemma {:induction false} ListSize(snaps: seq<VolumeSnapshot>, members: set<VolumeSnapshot>)
    requires Lists(snaps, members)
    ensures |snaps| == |members|
  {
    if snaps == [] {
      assert members == {};
    } else {
      var last := snaps[|snaps| - 1];
      var rest := snaps[..|snaps| - 1];
      assert snaps == rest + [last];
      ListSize(rest, members - {last});
    }
  }

  lemma {:induction false} SameElements(a: seq<VolumeSnapshot>, b: seq<VolumeSnapshot>, members: set<VolumeSnapshot>)
    requires Lists(a, members) && multiset(a) == multiset(b)
    ensures Lists(b, members)
  {
    forall s ensures s in b <==> s in members {
      assert s in multiset(a) <==> s in multiset(b);
    }
    forall i, j | 0 <= i < j < |b| ensures b[i] != b[j] {
      if b[i] == b[j] {
        Twice(b, i, j);
        Once(a, b[i]);
      }
    }
  }

  lemma {:induction false} Once(a: seq<VolumeSnapshot>, s: VolumeSnapshot)
    requires forall i, j | 0 <= i < j < |a| :: a[i] != a[j]
    ensures multiset(a)[s] <= 1
  {
    if a != [] {
      Once(a[..|a| - 1], s);
      assert a == a[..|a| - 1] + [a[|a| - 1]];
      if a[|a| - 1] == s { assert s !in a[..|a| - 1]; assert s !in multiset(a[..|a| - 1]); }
    }
  }

  lemma Twice(b: seq<VolumeSnapshot>, i: nat, j: nat)
    requires i < j < |b| && b[i] == b[j]
    ensures multiset(b)[b[i]] >= 2
  {
    assert b == b[..j] + [b[j]] + b[j + 1..];
    assert b[i] in b[..j];
    assert b[i] in multiset(b[..j]);
  }

  class SnapshotManager {
    var store: set<VolumeSnapshot>
    ghost var refused: nat  // deletions that have failed

    /** All snapshots of an app, in any order. */
    method List(app: string) returns (r: Result<seq<VolumeSnapshot>>)
      ensures r.Ok? ==> Lists(r.value, set s | s in store && s.app == app)
    {
      var ok: bool := *;
      if !ok { return Err; }
      var items: seq<VolumeSnapshot> := [];
      var left := set s | s in store && s.app == app;
      while left != {}
        invariant left <= set s | s in store && s.app == app
        invariant Lists(items, (set s | s in store && s.app == app) - left)
        decreases |left|
      {
        var s :| s in left;
        items := items + [s];
        left := left - {s};
      }
      r := Ok(items);
    }

    method Delete(s: VolumeSnapshot) returns (ok: bool)
      modifies this
      ensures store == if ok then old(store) - {s} else old(store)
      ensures ok ==> s in old(store)
      ensures refused == if ok then old(refused) else old(refused) + 1
    {
      ok := *;
      if ok && s in store {
        store := store - {s};
      } else {
        ok := false;
        refused := refused + 1;
      }
    }

    /** Sort one PVC's snapshots and delete those beyond the limit, going on when a deletion fails. */
    method PruneGroup(app: string, pvc: string, snaps: seq<VolumeSnapshot>, maxCount: nat)
      returns (deleted: nat)
      requires Lists(snaps, Group(store, app, pvc)) && |snaps| > maxCount
      modifies this
      ensures store <= old(store) && old(store) - store <= Group(old(store), app, pvc)
      ensures CutDown(Group(old(store), app, pvc), Group(store, app, pvc), maxCount)
      ensures deleted == |old(store) - store|
      ensures refused >= old(refused) && (refused == old(refused) ==> |Group(store, app, pvc)| == maxCount)
    {
      hide CutDown, NewestFirst, Group, Beyond, Lists;
      var a := new VolumeSnapshot[|snaps|](i requires 0 <= i < |snaps| => snaps[i]);
      assert a[..] == snaps;
      ghost var was, group := store, Group(store, app, pvc);
      SortSnapshotsByCreationTime(a);
      SameElements(snaps, a[..], group);
      deleted := DeleteBeyond(a, maxCount);
      CutToTheNewest(was, store, app, pvc, a[..], maxCount);
      if refused == old(refused) { CutExactly(was, store, app, pvc, a[..], maxCount); }
    }

    /** Try to delete everything from position `maxCount` on. */
    method DeleteBeyond(a: array<VolumeSnapshot>, maxCount: nat) returns (deleted: nat)
      requires maxCount <= a.Length
      modifies this
      ensures store <= old(store) && old(store) - store <= Beyond(a[..], maxCount, a.Length)
      ensures refused >= old(refused)
      ensures refused == old(refused) ==> old(store) - store == Beyond(a[..], maxCount, a.Length)
      ensures deleted == |old(store) - store|
    {
      ghost var was := store;
      deleted := 0;
      assert was - store == {};
      for i := maxCount to a.Length
        invariant store <= was && was - store <= Beyond(a[..], maxCount, i)
        invariant refused >= old(refused)
        invariant refused == old(refused) ==> was - store == Beyond(a[..], maxCount, i)
        invariant deleted == |was - store|
      {
        ghost var before := store;
        var ok := Delete(a[i]);
        BeyondOne(a[..], maxCount, i);
        if ok {
          assert was - store == (was - before) + {a[i]};
          deleted := deleted + 1;
        }
      }
    }

    /** Cut every PVC's snapshots of an app down to the newest `maxCount`; a limit of zero keeps all. */
    method ApplyRetentionPolicy(app: string, maxCount: nat) returns (r: Result<nat>)
      modifies this
      ensures r.Err? || maxCount == 0 ==> store == old(store)
      ensures r.Ok? ==> r.value == |old(store) - store|
      ensures maxCount == 0 ==> r == Ok(0)
      ensures r.Ok? && maxCount > 0 ==> Retained(old(store), store, app, maxCount, refused == old(refused))
    {
      hide Retained, Progressed, CutDown, Lists, Group;
      assert store - store == {};
      if maxCount == 0 { return Ok(0); }
      var items := List(app);
      if items.Err? { return Err; }
      var byPvc := GroupByPvc(app, items.value);
      ghost var was := store;
      NothingYet(was, app, maxCount);
      var deleted := 0;
      var left := byPvc.Keys;
      assert byPvc.Keys - left == {};
      while left != {}
        invariant left <= byPvc.Keys
        invariant Progressed(was, store, app, maxCount, byPvc.Keys - left, refused == old(refused))
        invariant refused >= old(refused)
        invariant deleted == |was - store|
        decreases |left|
      {
        var pvc :| pvc in left;
        ghost var done, before := byPvc.Keys - left, store;
        left := left - {pvc};
        assert byPvc.Keys - left == done + {pvc};
        var snaps := byPvc[pvc];
        assert Lists(byPvc[pvc], Group(was, app, pvc));
        ListSize(snaps, Group(was, app, pvc));
        ghost var clean := refused == old(refused);
        NotYet(was, store, app, maxCount, done, clean, pvc);
        if |snaps| <= maxCount {
          SkippedOn(was, store, app, pvc, maxCount, done, clean);
        } else {
          ghost var so := refused;
          var n := PruneGroup(app, pvc, snaps, maxCount);
          LossesAddUp(was, before, store);
          deleted := deleted + n;
          PrunedOn(was, before, store, app, pvc, maxCount, done, clean, refused == so);
        }
      }
      assert byPvc.Keys - left == byPvc.Keys;
      AllPruned(was, store, app, maxCount, byPvc.Keys, refused == old(refused));
      r := Ok(deleted);
    }

    /** Group the listed snapshots by their PVC; those without one are left out. */
    method GroupByPvc(app: string, items: seq<VolumeSnapshot>) returns (byPvc: map<string, seq<VolumeSnapshot>>)
      requires Lists(items, set s | s in store && s.app == app)
      ensures forall pvc :: pvc in byPvc <==> Group(store, app, pvc) != {}
      ensures forall pvc | pvc in byPvc :: Lists(byPvc[pvc], Group(store, app, pvc))
    {
      byPvc := map[];
      for i := 0 to |items|
        invariant forall pvc | pvc in byPvc :: byPvc[pvc] != [] && Lists(byPvc[pvc], Group(Seen(items, i), app, pvc))
        invariant forall pvc :: Group(Seen(items, i), app, pvc) != {} ==> pvc in byPvc
      {
        var s := items[i];
        if s.source.Some? {
          var pvc := s.source.value;
          byPvc := byPvc[pvc := (if pvc in byPvc then byPvc[pvc] else []) + [s]];
        }
        assert items[i] in items;
        SeenOne(items, i, app);
      }
      SeenAll(items, store, app);
      forall pvc | pvc in byPvc ensures Group(store, app, pvc) != {} {
        assert byPvc[pvc][0] in byPvc[pvc];
      }
    }
  }

  function Seen(items: seq<VolumeSnapshot>, n: nat): set<VolumeSnapshot>
    requires n <= |items|
  {
    set s | s in items[..n]
  }

  /** One more listed snapshot joins the group of its own PVC, and no other. */
  lemma SeenOne(items: seq<VolumeSnapshot>, i: nat, app: string)
    requires i < |items| && items[i].app == app
    ensures forall pvc :: Group(Seen(items, i + 1), app, pvc)
                          == Group(Seen(items, i), app, pvc) + (if items[i].source == Some(pvc) then {items[i]} else {})
  {
    assert items[..i + 1] == items[..i] + [items[i]];
  }

  lemma SeenAll(items: seq<VolumeSnapshot>, store: set<VolumeSnapshot>, app: string)
    requires Lists(items, set s | s in store && s.app == app)
    ensures forall pvc :: Group(Seen(items, |items|), app, pvc) == Group(store, app, pvc)
  {
    assert items[..|items|] == items;
  }

  /** The snapshots from the limit up to position `n`. */
  function Beyond(sorted: seq<VolumeSnapshot>, maxCount: nat, n: nat): set<VolumeSnapshot>
    requires maxCount <= n <= |sorted|
  {
    set k | maxCount <= k < n :: sorted[k]
  }

  lemma BeyondOne(sorted: seq<VolumeSnapshot>, maxCount: nat, n: nat)
    requires maxCount <= n < |sorted|
    ensures Beyond(sorted, maxCount, n + 1) == Beyond(sorted, maxCount, n) + {sorted[n]}
  {
  }

  lemma CutExactly(was: set<VolumeSnapshot>, now: set<VolumeSnapshot>, app: string, pvc: string,
                   sorted: seq<VolumeSnapshot>, maxCount: nat)
    requires Lists(sorted, Group(was, app, pvc)) && maxCount < |sorted|
    requires now <= was && was - now == Beyond(sorted, maxCount, |sorted|)
    ensures |Group(now, app, pvc)| == maxCount
  {
    LeftOver(sorted, Group(was, app, pvc), maxCount);
    assert Group(now, app, pvc) == Group(was, app, pvc) - Beyond(sorted, maxCount, |sorted|);
  }

  lemma LeftOver(sorted: seq<VolumeSnapshot>, group: set<VolumeSnapshot>, maxCount: nat)
    requires Lists(sorted, group) && maxCount <= |sorted|
    ensures |group - Beyond(sorted, maxCount, |sorted|)| == maxCount
  {
    var first := sorted[..maxCount];
    forall s ensures s in first <==> s in group - Beyond(sorted, maxCount, |sorted|) {
      if s in group {
        assert s in sorted;
        var k :| 0 <= k < |sorted| && sorted[k] == s;
        if k < maxCount { assert first[k] == s; }
      }
    }
    ListSize(first, group - Beyond(sorted, maxCount, |sorted|));
  }

  /** Deleting only from beyond the limit of a sorted group leaves the newest ones. */
  lemma CutToTheNewest(was: set<VolumeSnapshot>, now: set<VolumeSnapshot>, app: string, pvc: string,
                       sorted: seq<VolumeSnapshot>, maxCount: nat)
    requires NewestFirst(sorted) && Lists(sorted, Group(was, app, pvc)) && maxCount < |sorted|
    requires now <= was && was - now <= Beyond(sorted, maxCount, |sorted|)
    ensures CutDown(Group(was, app, pvc), Group(now, app, pvc), maxCount)
    ensures was - now <= Group(was, app, pvc)
  {
    var g, h := Group(was, app, pvc), Group(now, app, pvc);
    ListSize(sorted, g);
    var top := g - Beyond(sorted, maxCount, |sorted|);
    LeftOver(sorted, g, maxCount);
    forall d | d in g && d !in h ensures |AtLeastAsNew(h, d)| >= maxCount {
      assert d in was - now;
      forall k | k in top ensures k in AtLeastAsNew(h, d) {
        assert k in sorted;
        var x :| 0 <= x < |sorted| && sorted[x] == k;
        assert x < maxCount;
      }
      SubsetSize(top, AtLeastAsNew(h, d));
    }
    forall s | s in was - now ensures s in g {
      var k :| maxCount <= k < |sorted| && sorted[k] == s;
      assert s in sorted;
    }
  }

  /** The groups in `done` have been cut down, the others are as they were. */
  ghost predicate Progressed(was: set<VolumeSnapshot>, now: set<VolumeSnapshot>, app: string, maxCount: nat,
                             done: set<string>, clean: bool)
  {
    && now <= was
    && (forall s | s in was && s !in now :: s.app == app && s.source.Some?)
    && (forall pvc | pvc !in done :: Group(now, app, pvc) == Group(was, app, pvc))
    && (forall pvc | pvc in done :: CutDown(Group(was, app, pvc), Group(now, app, pvc), maxCount))
    && (clean ==> forall pvc | pvc in done :: |Group(now, app, pvc)| == Min(|Group(was, app, pvc)|, maxCount))
  }

  lemma LossesAddUp(was: set<VolumeSnapshot>, before: set<VolumeSnapshot>, now: set<VolumeSnapshot>)
    requires now <= before <= was
    ensures |was - now| == |was - before| + |before - now|
  {
    assert was - now == (was - before) + (before - now);
  }

  lemma NothingYet(was: set<VolumeSnapshot>, app: string, maxCount: nat)
    ensures Progressed(was, was, app, maxCount, {}, true)
  {
  }

  lemma NotYet(was: set<VolumeSnapshot>, now: set<VolumeSnapshot>, app: string, maxCount: nat, done: set<string>, clean: bool,
               pvc: string)
    requires Progressed(was, now, app, maxCount, done, clean) && pvc !in done
    ensures Group(now, app, pvc) == Group(was, app, pvc) && now <= was
  {
  }

  lemma SkippedOn(was: set<VolumeSnapshot>, now: set<VolumeSnapshot>, app: string, pvc: string, maxCount: nat,
                  done: set<string>, clean: bool)
    requires Progressed(was, now, app, maxCount, done, clean) && pvc !in done && |Group(was, app, pvc)| <= maxCount
    ensures Progressed(was, now, app, maxCount, done + {pvc}, clean)
  {
  }

  lemma PrunedOn(was: set<VolumeSnapshot>, before: set<VolumeSnapshot>, now: set<VolumeSnapshot>, app: string, pvc: string,
                 maxCount: nat, done: set<string>, clean: bool, fine: bool)
    requires Progressed(was, before, app, maxCount, done, clean) && pvc !in done
    requires now <= before && before - now <= Group(before, app, pvc)
    requires CutDown(Group(before, app, pvc), Group(now, app, pvc), maxCount)
    requires |Group(was, app, pvc)| > maxCount
    requires fine ==> |Group(now, app, pvc)| == maxCount
    ensures Progressed(was, now, app, maxCount, done + {pvc}, clean && fine)
  {
    forall other | other != pvc ensures Group(now, app, other) == Group(before, app, other) {
      forall s | s in Group(before, app, other) ensures s in now {
        assert s !in Group(before, app, pvc);
      }
    }
    forall s | s in was && s !in now ensures s.app == app && s.source.Some? {
      if s in before { assert s in before - now; }
    }
  }

  lemma AllPruned(was: set<VolumeSnapshot>, now: set<VolumeSnapshot>, app: string, maxCount: nat, done: set<string>, clean: bool)
    requires Progressed(was, now, app, maxCount, done, clean)
    requires forall pvc :: pvc in done <==> Group(was, app, pvc) != {}
    ensures Retained(was, now, app, maxCount, clean)
  {
  }
}
