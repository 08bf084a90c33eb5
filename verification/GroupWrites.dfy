/** What one reconciliation can store in the group it works on, and when it calls the driver. */
module GroupWrites {
  import opened Kube
  import opened Api
  import opened Members
  import opened Lifecycle
  import opened Frames
  import Polling
  import Selection
  import Teardown
  import Text

  // What a creating reconciliation may leave in the group: still Pending, in Error, or
  // Complete and then ready, finalized and carrying the driver's group ID.
  ghost predicate Outcome(vg: VolumeGroup, groupId: Option<string>, x: VolumeGroup) {
    && x.deleting == vg.deleting && x.spec == vg.spec
    && (|| x.status.phase == Pending
        || x.status.phase == Error
        || (x.status.phase == Complete && x.status.ready && FINALIZER_NAME in x.finalizers && groupId == Some(x.status.groupId)))
  }

  // No object but members and the group at `gk` has changed, and the group at most to an outcome.
  ghost predicate Writes(o: Objects, o': Objects, gk: Key, vg: VolumeGroup, groupId: Option<string>) {
    && (forall k | !IsMemberKey(k) && k != gk :: (k in o <==> k in o') && (k in o ==> o[k] == o'[k]))
    && (gk in o <==> gk in o')
    && (gk in o ==> o'[gk] == o[gk] || (o'[gk].GroupObject? && Outcome(vg, groupId, o'[gk].group)))
  }

  lemma WritesTransitive(a: Objects, b: Objects, c: Objects, gk: Key, vg: VolumeGroup, groupId: Option<string>)
    requires Writes(a, b, gk, vg, groupId) && Writes(b, c, gk, vg, groupId)
    ensures Writes(a, c, gk, vg, groupId)
  {
  }

  lemma UpdateWrites(w: World, vg: VolumeGroup, groupId: Option<string>, x: VolumeGroup)
    requires Outcome(vg, groupId, x) && x.ns == vg.ns && x.name == vg.name
    ensures var u := Update(w, GroupObject(x)).world;
            Writes(w.objects, u.objects, GroupKey(vg.ns, vg.name), vg, groupId) && SameRest(w, u)
  {
  }

  lemma MembersWrite(o: Objects, o': Objects, vg: VolumeGroup, groupId: Option<string>)
    requires MembersOnly(o, o')
    ensures Writes(o, o', GroupKey(vg.ns, vg.name), vg, groupId)
  {
  }

  lemma StatusesAreMembersOnly(o: Objects, o': Objects)
    requires StatusesOnly(o, o')
    ensures MembersOnly(o, o')
  {
    forall k | !IsMemberKey(k) ensures (k in o <==> k in o') && (k in o ==> o[k] == o'[k]) {
      if k in o { assert KeyOf(o[k]) == k; }
    }
  }

  lemma ProcessWrites(w: World, res: DriverResponse, claims: map<string, string>, vg: VolumeGroup, sc: SnapshotClass, ch: Choices)
    requires FINALIZER_NAME in vg.finalizers
    ensures var p := ProcessResponse(w, res, claims, vg, sc, ch);
            && Writes(w.objects, p.world.objects, GroupKey(vg.ns, vg.name), vg, Some(res.groupId))
            && p.world.requests == w.requests
            && p.vg.ns == vg.ns && p.vg.name == vg.name && Outcome(vg, Some(res.groupId), p.vg)
  {
    hide Handled, Polling.PollFrom, Polling.Deadline, Writes, MembersOnly, StatusesOnly, Text.TrimRight;
    var gk := GroupKey(vg.ns, vg.name);
    var p := Handled(w, Job(vg, res.snapshots, claims, sc, ch.draws), |res.snapshots|);
    HandledFrame(w, Job(vg, res.snapshots, claims, sc, ch.draws), |res.snapshots|);
    MembersWrite(w.objects, p.world.objects, vg, Some(res.groupId));
    var q := Polling.CheckSnapshotStatus(p.world, vg.ns, p.snaps, vg.spec.timeout, ch.tie);
    PollFrame(p.world, vg.ns, p.snaps, Polling.Deadline(vg.spec.timeout), ch.tie, 0);
    StatusesAreMembersOnly(p.world.objects, q.world.objects);
    MembersWrite(p.world.objects, q.world.objects, vg, Some(res.groupId));
    WritesTransitive(w.objects, p.world.objects, q.world.objects, gk, vg, Some(res.groupId));
    var done := vg.(status := FinalStatus(res, p.snaps, q.ready));
    UpdateWrites(q.world, vg, Some(res.groupId), done);
    WritesTransitive(w.objects, q.world.objects, Update(q.world, GroupObject(done)).world.objects, gk, vg, Some(res.groupId));
  }

  lemma IfChangedWrites(w: World, vg: VolumeGroup, groupId: Option<string>, before: VolumeGroup, after: VolumeGroup)
    requires Outcome(vg, groupId, after) && after.ns == vg.ns && after.name == vg.name
    ensures var u := UpdateIfChanged(w, before, after).world;
            Writes(w.objects, u.objects, GroupKey(vg.ns, vg.name), vg, groupId) && SameRest(w, u)
  {
    if before != after { UpdateWrites(w, vg, groupId, after); }
  }

  lemma OutcomeOfCopy(vg: VolumeGroup, copy: VolumeGroup, groupId: Option<string>, o: Objects, o': Objects)
    requires copy.deleting == vg.deleting && copy.spec == vg.spec && copy.ns == vg.ns && copy.name == vg.name
    ensures forall x :: Outcome(copy, groupId, x) <==> Outcome(vg, groupId, x)
    ensures Writes(o, o', GroupKey(vg.ns, vg.name), copy, groupId) <==> Writes(o, o', GroupKey(vg.ns, vg.name), vg, groupId)
  {
  }

  lemma RecordWrites(w: World, vg: VolumeGroup, res: DriverResponse, claims: map<string, string>, sc: SnapshotClass, ch: Choices)
    requires vg.status.phase == Pending
    ensures var r := Record(w, vg, res, claims, sc, ch);
            Writes(w.objects, r.world.objects, GroupKey(vg.ns, vg.name), vg, Some(res.groupId)) && r.world.requests == w.requests
  {
    hide ProcessResponse, Writes, UpdateIfChanged;
    var gk, gid := GroupKey(vg.ns, vg.name), Some(res.groupId);
    var f := UpdateIfChanged(w, vg, Finalized(vg));
    IfChangedWrites(w, vg, gid, vg, Finalized(vg));
    if f.result.Ok? {
      var named := Identified(Finalized(vg), res.groupId);
      var i := UpdateIfChanged(f.world, Finalized(vg), named);
      IfChangedWrites(f.world, vg, gid, Finalized(vg), named);
      WritesTransitive(w.objects, f.world.objects, i.world.objects, gk, vg, gid);
      if i.result.Ok? {
        var p := ProcessResponse(i.world, res, claims, named, sc, ch);
        ProcessWrites(i.world, res, claims, named, sc, ch);
        OutcomeOfCopy(vg, named, gid, i.world.objects, p.world.objects);
        WritesTransitive(w.objects, i.world.objects, p.world.objects, gk, vg, gid);
        UpdateWrites(p.world, vg, gid, p.vg);
        WritesTransitive(w.objects, p.world.objects, Update(p.world, GroupObject(p.vg)).world.objects, gk, vg, gid);
      }
    }
  }

  function GroupIdOf(ch: Choices): Option<string> {
    if ch.reply.Created? then Some(ch.reply.response.groupId) else None
  }

  lemma AbortWrites(w: World, vg: VolumeGroup, groupId: Option<string>)
    ensures var r := Abort(w, vg);
            Writes(w.objects, r.world.objects, GroupKey(vg.ns, vg.name), vg, groupId) && r.world.requests == w.requests
  {
    UpdateWrites(w, vg, groupId, InPhase(vg, Error));
  }

  // At most one driver call; none by a process that has stopped.
  ghost predicate AtMostOneCall(w: World, w': World) {
    w'.requests == w.requests || (!w.halted && exists q :: w'.requests == w.requests + [q])
  }

  ghost predicate Called(w: World, w': World) { |w'.requests| > |w.requests| }

  lemma CallWrites(w: World, vg: VolumeGroup, v: Selection.Volumes, sc: SnapshotClass, ch: Choices)
    requires vg.status.phase == Pending
    ensures var r := CallAndRecord(w, vg, v, sc, ch);
            Writes(w.objects, r.world.objects, GroupKey(vg.ns, vg.name), vg, GroupIdOf(ch)) && AtMostOneCall(w, r.world)
  {
    hide Record, Abort, Writes, Request;
    var c := CallDriver(w, Request(vg, v), ch.reply);
    AbortWrites(c.world, vg, GroupIdOf(ch));
    if c.result.Ok? { RecordWrites(c.world, vg, c.result.value, v.claims, sc, ch); }
  }

  lemma AfterPendingWrites(w: World, vg: VolumeGroup, driver: string, ch: Choices)
    requires vg.status.phase == Pending
    ensures var r := AfterPending(w, vg, driver, ch);
            Writes(w.objects, r.world.objects, GroupKey(vg.ns, vg.name), vg, GroupIdOf(ch)) && AtMostOneCall(w, r.world)
  {
    hide CallAndRecord, Abort, Writes, Selection.SelectVolumes;
    assert Writes(w.objects, w.objects, GroupKey(vg.ns, vg.name), vg, GroupIdOf(ch)) by { MembersReflexive(w); MembersWrite(w.objects, w.objects, vg, GroupIdOf(ch)); }
    var c := Get(w, ClassKey(vg.spec.className));
    AbortWrites(c.world, vg, GroupIdOf(ch));
    var s := Selection.SelectVolumes(c.world, vg.spec, vg.ns, ch.claimOrder);
    SelectionReads(c.world, vg.spec, vg.ns, ch.claimOrder);
    AbortWrites(s.world, vg, GroupIdOf(ch));
    if c.result.Ok? && s.result.Some? {
      CallWrites(s.world, vg, s.result.value, c.result.value.class_, ch);
    }
  }

  lemma TakeWrites(w: World, vg: VolumeGroup, driver: string, ch: Choices)
    requires vg.status.phase == Pending
    ensures var r, gk := Take(w, vg, driver, ch), GroupKey(vg.ns, vg.name);
            && Writes(w.objects, r.world.objects, gk, vg, GroupIdOf(ch))
            && AtMostOneCall(w, r.world)
            && (Passes(w) && gk in w.objects ==>
                  gk in r.world.objects && Outcome(vg, GroupIdOf(ch), r.world.objects[gk].group))
            && (Called(w, r.world) ==> Passes(w) || (w.script != [] && w.script[0].Refuse?))
  {
    var gk := GroupKey(vg.ns, vg.name);
    var p := Update(w, GroupObject(vg)).world;
    assert Passes(w) && gk in w.objects ==> gk in p.objects && p.objects[gk] == GroupObject(vg);
    hide AfterPending;
    UpdateWrites(w, vg, GroupIdOf(ch), vg);
    AfterPendingWrites(p, vg, driver, ch);
    WritesTransitive(w.objects, p.objects, Take(w, vg, driver, ch).world.objects, gk, vg, GroupIdOf(ch));
  }

  // A group no reconciliation will call the driver for.
  predicate Locked(vg: VolumeGroup) { vg.deleting || IsComplete(vg) || vg.status.phase == Pending }

  // What a reconciliation can make of the group `vg` it reads.
  ghost predicate Reconciled(vg: VolumeGroup, groupId: Option<string>, x: VolumeGroup) {
    || x == vg
    || (!Locked(vg) && Outcome(vg, groupId, x))
    || (vg.deleting && x == Teardown.Unfinalized(vg))
  }

  // Objects other than members and the one group stay as they are.
  ghost predicate OthersKept(o: Objects, o': Objects, gk: Key) {
    && (forall k | !IsMemberKey(k) && k != gk :: (k in o <==> k in o') && (k in o ==> o[k] == o'[k]))
    && (gk in o <==> gk in o')
  }

  function GroupAt(o: Objects, gk: Key): VolumeGroup
    requires gk.kind == GroupKind && gk in o
  {
    assert KeyOf(o[gk]) == gk;
    o[gk].group
  }

  lemma DropFinalizerEffect(w: World, vg: VolumeGroup)
    ensures var r, gk := Teardown.DropFinalizer(w, vg), GroupKey(vg.ns, vg.name);
            && SameRest(w, r.world)
            && OthersKept(w.objects, r.world.objects, gk)
            && (gk in w.objects ==> r.world.objects[gk] == w.objects[gk] || r.world.objects[gk] == GroupObject(Teardown.Unfinalized(vg)))
  {
    hide Teardown.WithoutString;
  }

  lemma DeleteVgEffect(w: World, vg: VolumeGroup)
    ensures var r, gk := Teardown.DeleteVg(w, vg), GroupKey(vg.ns, vg.name);
            && r.world.requests == w.requests
            && OthersKept(w.objects, r.world.objects, gk)
            && (gk in w.objects ==> r.world.objects[gk] == w.objects[gk] || r.world.objects[gk] == GroupObject(Teardown.Unfinalized(vg)))
  {
    hide Teardown.DeleteFrom, Teardown.DropFinalizer, Text.Split, OthersKept, MembersOnly;
    var c, gk := Get(w, ClassKey(vg.spec.className)), GroupKey(vg.ns, vg.name);
    if c.result.Ok? {
      var names := Text.Split(vg.status.snapshots, ',');
      var t := Teardown.DeleteFrom(c.world, vg.ns, names, 0).world;
      TeardownFrame(c.world, vg.ns, names);
      MembersKeepOthers(w.objects, t.objects, gk);
      DropFinalizerEffect(t, vg);
      OthersTransitive(w.objects, t.objects, Teardown.DropFinalizer(t, vg).world.objects, gk);
      DropFinalizerEffect(c.world, vg);
    }
    OthersReflexive(w.objects, gk);
  }

  lemma MembersKeepOthers(o: Objects, o': Objects, gk: Key)
    requires MembersOnly(o, o') && gk.kind == GroupKind
    ensures OthersKept(o, o', gk) && (gk in o ==> gk in o' && o'[gk] == o[gk])
  {
    assert !IsMemberKey(gk);
  }

  lemma OthersTransitive(a: Objects, b: Objects, c: Objects, gk: Key)
    requires OthersKept(a, b, gk) && OthersKept(b, c, gk)
    ensures OthersKept(a, c, gk) && (gk in c <==> gk in a)
  {
  }

  lemma OthersReflexive(o: Objects, gk: Key)
    ensures OthersKept(o, o, gk)
  {
  }

  // The whole effect of one reconciliation on the groups and on the record of driver calls.
  lemma ReconcileEffect(w: World, ns: string, name: string, driver: string, ch: Choices)
    ensures var r, gk := Reconcile(w, ns, name, driver, ch), GroupKey(ns, name);
            && OthersKept(w.objects, r.world.objects, gk)
            && AtMostOneCall(w, r.world)
            && (gk !in w.objects ==> r.world.requests == w.requests)
            && (gk in w.objects ==>
                  && var vg, x := GroupAt(w.objects, gk), GroupAt(r.world.objects, gk);
                  && Reconciled(vg, GroupIdOf(ch), x)
                  && (Called(w, r.world) ==>
                        && !Locked(vg)
                        && (|w.script| < 2 || !w.script[1].Refuse? ==> Outcome(vg, GroupIdOf(ch), x))))
  {
    hide Take, Teardown.DeleteVg;
    var gk := GroupKey(ns, name);
    assert gk in w.objects ==> KeyOf(w.objects[gk]) == gk;
    var g := Get(w, gk);
    if g.result.Ok? {
      var vg := g.result.value.group;
      if vg.deleting {
        DeleteVgEffect(g.world, vg);
      } else if !Locked(vg) {
        TakeWrites(g.world, InPhase(vg, Pending), driver, ch);
      }
    }
  }
}
