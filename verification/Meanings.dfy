/** What the values the controller builds mean to their readers, field by field, and that a
    stopped process has no further effect. */
module Meanings {
  import opened Kube
  import opened Api
  import opened Members
  import opened Lifecycle
  import opened RoundTrip
  import CreateDelete
  import Naming
  import Outcomes
  import Polling
  import Selection
  import Teardown
  import Text

  /* ---- The driver request ---- */

  // It names the group and lists all selected volumes, each as often as selected, in ascending
  // order.  Of a stored ID it hands on the part behind the last dash, or all of one without.
  lemma RequestMeans(vg: VolumeGroup, v: Selection.Volumes, prefix: string, g: string)
    ensures var q := Request(vg, v);
            && q.name == vg.name && multiset(q.volumeIds) == multiset(v.ids)
            && (forall i, j | 0 <= i < j < |q.volumeIds| :: Text.NotAfter(q.volumeIds[i], q.volumeIds[j]))
            && ('-' !in g && (vg.status.groupId == g || vg.status.groupId == prefix + "-" + g) ==> q.existingGroupId == g)
  {
    Outcomes.RequestAsks(vg, v);
    if '-' !in g { Naming.StoredGroupToken(prefix, g); }
  }

  /* ---- The stored group ---- */

  // The group a creation stores lists exactly its members by their written-out names, carries
  // the driver's ID and time, and is ready exactly if it is Complete; otherwise it is in Error.
  lemma StoredGroupMeans(job: Job, res: DriverResponse, ready: bool)
    requires CommaFree(job) && |job.snapshots| >= 1
    ensures var x := CreateDelete.Stored(job, res, ready);
            var list := Text.Split(x.status.snapshots, ',');
            && |list| == |job.snapshots| && (forall i: nat | i < |list| :: Naming.IsNamed(job, i, list[i]))
            && x.status.groupId == res.groupId && x.status.creationTime == res.creationTime
            && x.status.ready == ready && x.status.phase == (if ready then Complete else Error)
            && x.finalizers == job.vg.finalizers && x.spec == job.vg.spec
  {
    hide Naming.IsNamed;
    StoredNames(job);
    forall i: nat | i < |job.snapshots| ensures Naming.IsNamed(job, i, job.Names(|job.snapshots|)[i]) { Naming.NameMeans(job, i, job.Name(i)); }
  }

  /* ---- The created pairs ---- */

  // Each pair refers to each other by name, carries the driver's handle, and takes class,
  // driver and policy from the group's class and the label from the group.
  lemma CreatedPairMeans(o: Objects, job: Job, m: nat)
    requires DistinctPairs(job) && m < |job.snapshots|
    ensures var o' := Pairs(o, job, 0, |job.snapshots|);
            && job.SnapKey(m) in o'
            && var v := o'[job.SnapKey(m)].snapshot;
            && v.ns == job.vg.ns && Naming.IsNamed(job, m, v.name) && v.labels == map["snapshotGroup" := job.vg.name]
            && v.className == Some(job.vg.spec.className) && v.status == None && !v.deleting
            && v.contentName == Some("snapcontent-" + job.draws(m).uuid)
            && ContentKey(v.contentName.value) in o'
            && var c := o'[ContentKey(v.contentName.value)].content;
            && (c.refNs, c.refName) == (v.ns, v.name) && c.handle == Some(job.snapshots[m].snapId)
            && c.className == Some(job.class_.name) && c.driver == job.class_.driver && c.policy == job.class_.policy
  {
    hide Pairs, DistinctPairs;
    PairAt(o, job, 0, m);
    Naming.NameMeans(job, m, job.Name(m));
  }

  // Refreshing a content sets its handle and status from the driver's snapshot and nothing else.
  lemma RefreshMeans(w: World, name: string, s: DriverSnapshot)
    requires !UpdateVolumeSnapshotContentStatus(w, name, true, s).failed
    ensures var k, o' := ContentKey(name), UpdateVolumeSnapshotContentStatus(w, name, true, s).world.objects;
            && k in w.objects && k in o'
            && var a, b := w.objects[k].content, o'[k].content;
            && b.handle == Some(s.snapId)
            && b.status == Some(ContentStatus(s.snapId, s.creationTime, s.ready, s.capacity))
            && b.(handle := a.handle, status := a.status) == a
            && forall x | x != k :: (x in o' <==> x in w.objects) && (x in o' ==> o'[x] == w.objects[x])
  {
    hide UpdateVolumeSnapshotContentStatus;
    RefreshEffect(w, name, true, s);
    assert KeyOf(w.objects[ContentKey(name)]) == ContentKey(name);
  }

  /* ---- A stopped process ---- */

  lemma {:induction false} StoppedTeardown(w: World, ns: string, names: seq<string>, i: nat)
    requires i <= |names| && w.halted
    ensures Teardown.DeleteFrom(w, ns, names, i).world == w
    decreases |names| - i
  {
    if i < |names| { StoppedTeardown(w, ns, names, i + 1); }
  }

  lemma StoppedMember(p: Progress, job: Job, i: nat)
    requires i < |job.snapshots| && p.world.halted
    ensures MemberStep(p, job, i).world == p.world
  {
    var s := job.snapshots[i];
    assert CreateVolumeSnapshot(p.world, job, s, job.draws(i)) == Made(p.world, false, "", true);
    hide CreateVolumeSnapshot;
  }

  lemma {:induction false} StoppedLoop(w: World, job: Job, n: nat)
    requires n <= |job.snapshots| && w.halted
    ensures Handled(w, job, n).world == w
  {
    hide MemberStep;
    if n > 0 {
      StoppedLoop(w, job, n - 1);
      StoppedMember(Handled(w, job, n - 1), job, n - 1);
    }
  }

  // Wherever it was stopped, the rest of a creation, a deletion or a new round changes nothing
  // and calls nobody.
  lemma StoppedDoesNothing(w: World, vg: VolumeGroup, res: DriverResponse, claims: map<string, string>, sc: SnapshotClass,
                           v: Selection.Volumes, driver: string, ch: Choices)
    requires w.halted
    ensures ProcessResponse(w, res, claims, vg, sc, ch).world == w
    ensures CallAndRecord(w, vg, v, sc, ch).world == w
    ensures Take(w, vg, driver, ch).world == w
    ensures Teardown.DeleteVg(w, vg).world == w
    ensures Reconcile(w, vg.ns, vg.name, driver, ch).world == w
  {
    StoppedLoop(w, Job(vg, res.snapshots, claims, sc, ch.draws), |res.snapshots|);
    hide Handled, Text.TrimRight, Polling.Deadline, Request;
  }
}
