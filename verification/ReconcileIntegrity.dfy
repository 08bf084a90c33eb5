/** One reconciliation keeps referential integrity, whatever fails and wherever it stops. */
module ReconcileIntegrity {
  import opened Kube
  import opened Api
  import opened Members
  import opened Integrity
  import opened Lifecycle
  import opened Frames
  import Polling
  import Selection
  import Teardown
  import Text

  // Integrity, and room for the members of the coming answer.
  ghost predicate Prepared(o: Objects, draws: nat -> Draw, n: nat) {
    RefIntegrity(o) && FreshDraws(o, draws, 0, n)
  }

  lemma UpdateGroupPrepared(w: World, x: VolumeGroup, draws: nat -> Draw, n: nat)
    requires Prepared(w.objects, draws, n)
    ensures Prepared(Update(w, GroupObject(x)).world.objects, draws, n)
  {
    var u := Update(w, GroupObject(x)).world;
    assert SameMembers(w.objects, u.objects);
    IntegrityOfMembers(w.objects, u.objects);
    FreshOfMembers(w.objects, u.objects, draws, n);
  }

  lemma UpdateGroupIntegrity(w: World, x: VolumeGroup)
    requires RefIntegrity(w.objects)
    ensures RefIntegrity(Update(w, GroupObject(x)).world.objects)
  {
    var u := Update(w, GroupObject(x)).world;
    assert SameMembers(w.objects, u.objects);
    IntegrityOfMembers(w.objects, u.objects);
  }

  lemma ProcessIntegrity(w: World, res: DriverResponse, claims: map<string, string>, vg: VolumeGroup, sc: SnapshotClass, ch: Choices)
    requires Prepared(w.objects, ch.draws, |res.snapshots|)
    ensures RefIntegrity(ProcessResponse(w, res, claims, vg, sc, ch).world.objects)
  {
    hide Handled, Polling.PollFrom, Polling.Deadline, RefIntegrity, FreshDraws, StatusesOnly, Text.TrimRight, Update;
    var job := Job(vg, res.snapshots, claims, sc, ch.draws);
    var p := Handled(w, job, |res.snapshots|);
    MembersKeepIntegrity(w, job, |res.snapshots|);
    var q := Polling.CheckSnapshotStatus(p.world, vg.ns, p.snaps, vg.spec.timeout, ch.tie);
    PollFrame(p.world, vg.ns, p.snaps, Polling.Deadline(vg.spec.timeout), ch.tie, 0);
    IntegrityOfStatuses(p.world.objects, q.world.objects);
    UpdateGroupIntegrity(q.world, vg.(status := FinalStatus(res, p.snaps, q.ready)));
  }

  lemma IfChangedPrepared(w: World, before: VolumeGroup, after: VolumeGroup, draws: nat -> Draw, n: nat)
    requires Prepared(w.objects, draws, n)
    ensures Prepared(UpdateIfChanged(w, before, after).world.objects, draws, n)
  {
    if before != after { UpdateGroupPrepared(w, after, draws, n); }
  }

  lemma RecordIntegrity(w: World, vg: VolumeGroup, res: DriverResponse, claims: map<string, string>, sc: SnapshotClass, ch: Choices)
    requires Prepared(w.objects, ch.draws, |res.snapshots|)
    ensures RefIntegrity(Record(w, vg, res, claims, sc, ch).world.objects)
  {
    hide ProcessResponse, UpdateIfChanged, Update, FreshDraws, RefIntegrity;
    var f := UpdateIfChanged(w, vg, Finalized(vg));
    IfChangedPrepared(w, vg, Finalized(vg), ch.draws, |res.snapshots|);
    if f.result.Ok? {
      var named := Identified(Finalized(vg), res.groupId);
      var i := UpdateIfChanged(f.world, Finalized(vg), named);
      IfChangedPrepared(f.world, Finalized(vg), named, ch.draws, |res.snapshots|);
      if i.result.Ok? {
        var p := ProcessResponse(i.world, res, claims, named, sc, ch);
        ProcessIntegrity(i.world, res, claims, named, sc, ch);
        UpdateGroupIntegrity(p.world, p.vg);
      }
    }
  }

  // The members the driver may report in this reconciliation.
  function Expected(ch: Choices): nat {
    if ch.reply.Created? then |ch.reply.response.snapshots| else 0
  }

  lemma CallIntegrity(w: World, vg: VolumeGroup, v: Selection.Volumes, sc: SnapshotClass, ch: Choices)
    requires Prepared(w.objects, ch.draws, Expected(ch))
    ensures RefIntegrity(CallAndRecord(w, vg, v, sc, ch).world.objects)
  {
    hide Record, Update, Prepared, RefIntegrity, Request;
    assert RefIntegrity(w.objects) by { PreparedIsIntegral(w.objects, ch.draws, Expected(ch)); }
    var c := CallDriver(w, Request(vg, v), ch.reply);
    if c.result.Ok? { RecordIntegrity(c.world, vg, c.result.value, v.claims, sc, ch); }
    UpdateGroupIntegrity(c.world, InPhase(vg, Error));
  }

  lemma PreparedIsIntegral(o: Objects, draws: nat -> Draw, n: nat)
    requires Prepared(o, draws, n)
    ensures RefIntegrity(o)
  {
  }

  lemma TakeIntegrity(w: World, vg: VolumeGroup, driver: string, ch: Choices)
    requires Prepared(w.objects, ch.draws, Expected(ch))
    ensures RefIntegrity(Take(w, vg, driver, ch).world.objects)
  {
    hide CallAndRecord, Selection.SelectVolumes, Update, Prepared, RefIntegrity;
    var p := Update(w, GroupObject(vg)).world;
    UpdateGroupPrepared(w, vg, ch.draws, Expected(ch));
    PreparedIsIntegral(p.objects, ch.draws, Expected(ch));
    var c := Get(p, ClassKey(vg.spec.className));
    UpdateGroupIntegrity(c.world, InPhase(vg, Error));
    var s := Selection.SelectVolumes(c.world, vg.spec, vg.ns, ch.claimOrder);
    SelectionReads(c.world, vg.spec, vg.ns, ch.claimOrder);
    UpdateGroupIntegrity(s.world, InPhase(vg, Error));
    if c.result.Ok? && s.result.Some? {
      CallIntegrity(s.world, vg, s.result.value, c.result.value.class_, ch);
    }
  }

  lemma DeleteVgIntegrity(w: World, vg: VolumeGroup)
    requires RefIntegrity(w.objects)
    ensures RefIntegrity(Teardown.DeleteVg(w, vg).world.objects)
  {
    hide Teardown.DeleteFrom, RefIntegrity, Update, Text.Split;
    var c := Get(w, ClassKey(vg.spec.className));
    if c.result.Ok? {
      var names := Text.Split(vg.status.snapshots, ',');
      Teardown.TeardownKeepsIntegrity(c.world, vg.ns, names, 0);
      UpdateGroupIntegrity(Teardown.DeleteFrom(c.world, vg.ns, names, 0).world, Teardown.Unfinalized(vg));
      UpdateGroupIntegrity(c.world, Teardown.Unfinalized(vg));
    }
  }

  lemma ReconcileKeepsIntegrity(w: World, ns: string, name: string, driver: string, ch: Choices)
    requires Prepared(w.objects, ch.draws, Expected(ch))
    ensures RefIntegrity(Reconcile(w, ns, name, driver, ch).world.objects)
  {
    hide Take, Teardown.DeleteVg, Prepared, RefIntegrity;
    PreparedIsIntegral(w.objects, ch.draws, Expected(ch));
    var g := Get(w, GroupKey(ns, name));
    if g.result.Ok? {
      DeleteVgIntegrity(g.world, g.result.value.group);
      TakeIntegrity(g.world, InPhase(g.result.value.group, Pending), driver, ch);
    }
  }
}
