/** What a reconciliation that has called the driver leaves of its group: closed to further
    calls, in Error, or -- exactly when that is so is said here -- open to another call. */
module OpenGroups {
  import opened Kube
  import opened Api
  import opened Members
  import opened Lifecycle
  import opened Frames
  import opened GroupWrites
  import Polling
  import Selection
  import Teardown
  import Text

  // Open to a driver call although no Error is stored.
  predicate Open(vg: VolumeGroup) { !Locked(vg) && vg.status.phase != Error }

  /* ---- The writes behind the driver's answer ---- */

  function Waited(w: World, res: DriverResponse, claims: map<string, string>, vg: VolumeGroup, sc: SnapshotClass, ch: Choices): Polling.Polled {
    var p := Handled(w, Job(vg, res.snapshots, claims, sc, ch.draws), |res.snapshots|);
    Polling.CheckSnapshotStatus(p.world, vg.ns, p.snaps, vg.spec.timeout, ch.tie)
  }

  // The final status is written twice; one of the two writes goes through.
  predicate StatusLands(w: World, res: DriverResponse, claims: map<string, string>, vg: VolumeGroup, sc: SnapshotClass, ch: Choices) {
    var q := Waited(w, res, claims, vg, sc, ch).world;
    Passes(q) || Passes(Spend(q))
  }

  // The world in which the answer is processed, if the finalizer and the ID could be stored.
  function AnswerStart(w: World, vg: VolumeGroup, res: DriverResponse): Option<World> {
    var f := UpdateIfChanged(w, vg, Finalized(vg));
    if f.result.Err? then None
    else
      var i := UpdateIfChanged(f.world, Finalized(vg), Named(vg, res));
      if i.result.Err? then None else Some(i.world)
  }

  // Some write behind the answer goes through.
  predicate AnyLands(w: World, vg: VolumeGroup, res: DriverResponse, claims: map<string, string>, sc: SnapshotClass, ch: Choices) {
    if Named(vg, res) != vg then Passes(w) else StatusLands(w, res, claims, vg, sc, ch)
  }

  // The driver gave no ID, everything was found ready, and that went through.
  predicate UnnamedReadyLands(w: World, vg: VolumeGroup, res: DriverResponse, claims: map<string, string>, sc: SnapshotClass, ch: Choices) {
    var start := AnswerStart(w, vg, res);
    && res.groupId == "" && start.Some?
    && Waited(start.value, res, claims, Named(vg, res), sc, ch).ready
    && StatusLands(start.value, res, claims, Named(vg, res), sc, ch)
  }

  lemma UpdateLands(w: World, x: VolumeGroup)
    requires GroupKey(x.ns, x.name) in w.objects
    ensures var u, gk := Update(w, GroupObject(x)), GroupKey(x.ns, x.name);
            && (u.result.Ok? <==> Passes(w))
            && gk in u.world.objects && u.world.objects[gk] == (if Passes(w) then GroupObject(x) else w.objects[gk])
            && (Passes(u.world) <==> Passes(Spend(w)))
  {
  }

  lemma ProcessGroup(w: World, res: DriverResponse, claims: map<string, string>, vg: VolumeGroup, sc: SnapshotClass, ch: Choices)
    requires GroupKey(vg.ns, vg.name) in w.objects
    ensures var p, q, gk := ProcessResponse(w, res, claims, vg, sc, ch), Waited(w, res, claims, vg, sc, ch), GroupKey(vg.ns, vg.name);
            && p.vg.ns == vg.ns && p.vg.name == vg.name && p.vg.deleting == vg.deleting
            && p.vg.status.groupId == res.groupId && p.vg.status.phase == (if q.ready then Complete else Error)
            && gk in p.world.objects && p.world.objects[gk] == (if Passes(q.world) then GroupObject(p.vg) else w.objects[gk])
            && (Passes(p.world) <==> Passes(Spend(q.world)))
  {
    hide Handled, Polling.PollFrom, Polling.Deadline, MembersOnly, StatusesOnly, Text.TrimRight, Update;
    var gk := GroupKey(vg.ns, vg.name);
    var job := Job(vg, res.snapshots, claims, sc, ch.draws);
    var p := Handled(w, job, |res.snapshots|);
    var q := Waited(w, res, claims, vg, sc, ch);
    HandledFrame(w, job, |res.snapshots|);
    PollFrame(p.world, vg.ns, p.snaps, Polling.Deadline(vg.spec.timeout), ch.tie, 0);
    StatusesAreMembersOnly(p.world.objects, q.world.objects);
    GroupStays(w.objects, p.world.objects, gk);
    GroupStays(p.world.objects, q.world.objects, gk);
    UpdateLands(q.world, vg.(status := FinalStatus(res, p.snaps, q.ready)));
  }

  lemma GroupStays(o: Objects, o': Objects, gk: Key)
    requires MembersOnly(o, o') && gk.kind == GroupKind && gk in o
    ensures gk in o' && o'[gk] == o[gk]
  {
    assert !IsMemberKey(gk);
  }

  lemma IfChangedLands(w: World, before: VolumeGroup, after: VolumeGroup)
    requires GroupKey(after.ns, after.name) in w.objects
    ensures var u, gk := UpdateIfChanged(w, before, after), GroupKey(after.ns, after.name);
            && gk in u.world.objects
            && (before == after ==> u == Reply(w, Ok(())))
            && (before != after ==>
                  && (u.result.Ok? <==> Passes(w))
                  && u.world.objects[gk] == (if Passes(w) then GroupObject(after) else w.objects[gk]))
  {
    UpdateLands(w, after);
  }

  // The status writes at the end.
  lemma AnsweredGroup(w: World, vg: VolumeGroup, res: DriverResponse, claims: map<string, string>, sc: SnapshotClass, ch: Choices)
    requires GroupKey(vg.ns, vg.name) in w.objects && !vg.deleting
    ensures var p, gk := ProcessResponse(w, res, claims, vg, sc, ch), GroupKey(vg.ns, vg.name);
            var o' := Update(p.world, GroupObject(p.vg)).world.objects;
            && gk in o'
            && (Open(GroupAt(o', gk)) <==>
                  if StatusLands(w, res, claims, vg, sc, ch) then res.groupId == "" && Waited(w, res, claims, vg, sc, ch).ready
                  else Open(GroupAt(w.objects, gk)))
  {
    hide ProcessResponse, Update, Waited;
    ProcessGroup(w, res, claims, vg, sc, ch);
    var p := ProcessResponse(w, res, claims, vg, sc, ch);
    UpdateLands(p.world, p.vg);
  }

  lemma RecordGroup(w: World, vg: VolumeGroup, res: DriverResponse, claims: map<string, string>, sc: SnapshotClass, ch: Choices)
    requires GroupKey(vg.ns, vg.name) in w.objects && vg.status.phase == Pending && !vg.deleting
    ensures var o', gk := Record(w, vg, res, claims, sc, ch).world.objects, GroupKey(vg.ns, vg.name);
            && gk in o'
            && (Open(GroupAt(o', gk)) <==>
                  if AnyLands(w, vg, res, claims, sc, ch) then UnnamedReadyLands(w, vg, res, claims, sc, ch)
                  else Open(GroupAt(w.objects, gk)))
  {
    hide ProcessResponse, UpdateIfChanged, Update, Waited, StatusLands;
    var f := UpdateIfChanged(w, vg, Finalized(vg));
    IfChangedLands(w, vg, Finalized(vg));
    if f.result.Ok? {
      var named := Named(vg, res);
      IfChangedLands(f.world, Finalized(vg), named);
      var i := UpdateIfChanged(f.world, Finalized(vg), named);
      if i.result.Ok? { AnsweredGroup(i.world, named, res, claims, sc, ch); }
    }
  }

  /* ---- The whole reconciliation ---- */

  // The world in which the driver is called for the group `vg`, and what was found until then.
  datatype Call = Call(world: World, pending: VolumeGroup, volumes: Selection.Volumes, class_: SnapshotClass)

  function ClassRead(w: World, vg: VolumeGroup): Reply<Object> {
    Get(Update(Spend(w), GroupObject(InPhase(vg, Pending))).world, ClassKey(vg.spec.className))
  }

  function Chosen(w: World, vg: VolumeGroup, ch: Choices): Selection.Selected {
    Selection.SelectVolumes(ClassRead(w, vg).world, vg.spec, vg.ns, ch.claimOrder)
  }

  predicate Admitted(w: World, vg: VolumeGroup, driver: string) {
    var c := ClassRead(w, vg);
    !(vg.spec.pvcLabel != "" && vg.spec.pvcList.Some?) && c.result.Ok? && c.result.value.class_.driver == driver
  }

  predicate ReachesDriver(w: World, vg: VolumeGroup, ch: Choices) {
    ClassRead(w, vg).result.Ok? && Chosen(w, vg, ch).result.Some?
  }

  function CallOf(w: World, vg: VolumeGroup, ch: Choices): Call
    requires ReachesDriver(w, vg, ch)
  {
    Call(Chosen(w, vg, ch).world, InPhase(vg, Pending), Chosen(w, vg, ch).result.value, ClassRead(w, vg).result.value.class_)
  }

  function Answer(c: Call, ch: Choices): Reply<DriverResponse> {
    CallDriver(c.world, Request(c.pending, c.volumes), ch.reply)
  }

  predicate LandsBehindCall(c: Call, ch: Choices) {
    var a := Answer(c, ch);
    if a.result.Err? then Passes(a.world)
    else AnyLands(a.world, c.pending, a.result.value, c.volumes.claims, c.class_, ch)
  }

  // Pending was not stored, and nothing behind the call either.
  predicate NothingLands(w: World, vg: VolumeGroup, ch: Choices) {
    ReachesDriver(w, vg, ch) && !Passes(Spend(w)) && !LandsBehindCall(CallOf(w, vg, ch), ch)
  }

  predicate UnnamedLands(w: World, vg: VolumeGroup, ch: Choices) {
    && ReachesDriver(w, vg, ch)
    && var c := CallOf(w, vg, ch);
    && var a := Answer(c, ch);
    && a.result.Ok? && UnnamedReadyLands(a.world, c.pending, a.result.value, c.volumes.claims, c.class_, ch)
  }

  // None of the group's writes went through and it was not in Error, or the last one stored
  // it ready without an ID.
  predicate LeavesOpen(w: World, vg: VolumeGroup, ch: Choices) {
    (vg.status.phase != Error && NothingLands(w, vg, ch)) || UnnamedLands(w, vg, ch)
  }

  lemma UnnamedIsLanding(w: World, vg: VolumeGroup, res: DriverResponse, claims: map<string, string>, sc: SnapshotClass, ch: Choices)
    requires UnnamedReadyLands(w, vg, res, claims, sc, ch)
    ensures AnyLands(w, vg, res, claims, sc, ch)
  {
    hide Waited;
  }

  lemma CallGroup(w: World, c: Call, ch: Choices)
    requires GroupKey(c.pending.ns, c.pending.name) in c.world.objects && c.pending.status.phase == Pending && !c.pending.deleting
    ensures var o', gk := CallAndRecord(c.world, c.pending, c.volumes, c.class_, ch).world.objects, GroupKey(c.pending.ns, c.pending.name);
            var a := Answer(c, ch);
            && gk in o'
            && (Open(GroupAt(o', gk)) <==>
                  if LandsBehindCall(c, ch)
                  then a.result.Ok? && UnnamedReadyLands(a.world, c.pending, a.result.value, c.volumes.claims, c.class_, ch)
                  else Open(GroupAt(c.world.objects, gk)))
  {
    hide Record, Request, AnyLands, UnnamedReadyLands, Update;
    var a := Answer(c, ch);
    if a.result.Ok? {
      RecordGroup(a.world, c.pending, a.result.value, c.volumes.claims, c.class_, ch);
    } else {
      UpdateLands(a.world, InPhase(c.pending, Error));
    }
  }

  lemma AbortCallsNobody(w: World, vg: VolumeGroup)
    ensures Abort(w, vg).world.requests == w.requests
  {
  }

  // A reconciliation that calls the driver has got there on the way described.
  lemma CalledReaches(w: World, ns: string, name: string, driver: string, ch: Choices)
    requires GroupKey(ns, name) in w.objects && Called(w, Reconcile(w, ns, name, driver, ch).world)
    ensures var vg := w.objects[GroupKey(ns, name)].group;
            && Passes(w) && !Locked(vg) && Admitted(w, vg, driver) && ReachesDriver(w, vg, ch)
            && var c := CallOf(w, vg, ch);
            && Reconcile(w, ns, name, driver, ch) == CallAndRecord(c.world, c.pending, c.volumes, c.class_, ch)
  {
    hide CallAndRecord, Selection.SelectVolumes, Abort, Update, Teardown.DeleteVg;
    var gk := GroupKey(ns, name);
    assert KeyOf(w.objects[gk]) == gk;
    var vg := w.objects[gk].group;
    if vg.deleting { DeleteVgEffect(Spend(w), vg); }
    UpdateKeepsRest(Spend(w), InPhase(vg, Pending));
    var c := ClassRead(w, vg);
    AbortCallsNobody(c.world, InPhase(vg, Pending));
    SelectionReads(c.world, vg.spec, vg.ns, ch.claimOrder);
    AbortCallsNobody(Chosen(w, vg, ch).world, InPhase(vg, Pending));
  }

  lemma UpdateKeepsRest(w: World, x: VolumeGroup)
    ensures SameRest(w, Update(w, GroupObject(x)).world)
  {
  }

  // A reconciliation that calls the driver leaves its group open exactly then.
  lemma OpenIff(w: World, ns: string, name: string, driver: string, ch: Choices)
    requires GroupKey(ns, name) in w.objects && Called(w, Reconcile(w, ns, name, driver, ch).world)
    ensures var gk, o' := GroupKey(ns, name), Reconcile(w, ns, name, driver, ch).world.objects;
            gk in o' && (Open(GroupAt(o', gk)) <==> LeavesOpen(w, w.objects[gk].group, ch))
  {
    hide Reconcile, CallAndRecord, Selection.SelectVolumes, AnyLands, UnnamedReadyLands, Request, Update;
    var gk := GroupKey(ns, name);
    assert KeyOf(w.objects[gk]) == gk;
    var vg := w.objects[gk].group;
    CalledReaches(w, ns, name, driver, ch);
    var c := CallOf(w, vg, ch);
    UpdateLands(Spend(w), c.pending);
    SelectionReads(ClassRead(w, vg).world, vg.spec, vg.ns, ch.claimOrder);
    CallGroup(w, c, ch);
    var a := Answer(c, ch);
    if a.result.Ok? && UnnamedReadyLands(a.world, c.pending, a.result.value, c.volumes.claims, c.class_, ch) {
      UnnamedIsLanding(a.world, c.pending, a.result.value, c.volumes.claims, c.class_, ch);
    }
  }

  /* ---- Calling again ---- */

  // Claims and volumes are the same in both stores.
  ghost predicate SameClaimsAndVolumes(o: Objects, o': Objects) {
    forall k: Key | k.kind == ClaimKind || k.kind == VolumeKind :: (k in o <==> k in o') && (k in o ==> o[k] == o'[k])
  }

  lemma {:induction false} MapAgain(w: World, w': World, pvcs: seq<Claim>, i: nat, found: Selection.Volumes, systemId: string)
    requires i <= |pvcs| && Steady(w') && SameClaimsAndVolumes(w.objects, w'.objects)
    requires Selection.MapFrom(w, pvcs, i, found, systemId).result.Some?
    ensures Selection.MapFrom(w', pvcs, i, found, systemId).result == Selection.MapFrom(w, pvcs, i, found, systemId).result
    decreases |pvcs| - i
  {
    hide Selection.ParseVolumeHandle;
    if i < |pvcs| {
      var g := Get(w, VolumeKey(pvcs[i].volumeName));
      var pv := g.result.value.volume;
      assert Get(w', VolumeKey(pvcs[i].volumeName)) == Reply(w', g.result);
      if !pvcs[i].bound || !pv.bound {
        MapAgain(g.world, w', pvcs, i + 1, found, systemId);
      } else {
        var handle := pv.csi.value.handle;
        MapAgain(g.world, w', pvcs, i + 1, Selection.Volumes(found.ids + [handle], found.claims[handle := pvcs[i].name]),
                 if i == 0 then Selection.ParseVolumeHandle(pv.csi.value.driver, handle) else systemId);
      }
    }
  }

  lemma {:induction false} CollectAgain(w: World, w': World, names: seq<string>, ns: string, i: nat, seen: set<string>, pvcs: seq<Claim>)
    requires i <= |names| && Steady(w') && SameClaimsAndVolumes(w.objects, w'.objects)
    requires Selection.CollectFrom(w, names, ns, i, seen, pvcs).claims.Some?
    ensures var c, c' := Selection.CollectFrom(w, names, ns, i, seen, pvcs), Selection.CollectFrom(w', names, ns, i, seen, pvcs);
            c'.claims == c.claims && c'.world == w' && c.world.objects == w.objects
    decreases |names| - i
  {
    if i < |names| {
      if names[i] in seen {
        CollectAgain(w, w', names, ns, i + 1, seen, pvcs);
      } else {
        var g := Get(w, ClaimKey(ns, names[i]));
        assert Get(w', ClaimKey(ns, names[i])) == Reply(w', g.result);
        CollectAgain(g.world, w', names, ns, i + 1, seen + {names[i]}, pvcs + [g.result.value.claim]);
      }
    }
  }

  lemma {:induction false} ListedAgain(o: Objects, o': Objects, order: seq<Key>, i: nat, wanted: Object -> bool)
    requires i <= |order| && SameClaimsAndVolumes(o, o') && forall x | wanted(x) :: x.ClaimObject?
    ensures Listed(o, order, i, wanted) == Listed(o', order, i, wanted)
  {
    if i > 0 {
      ListedAgain(o, o', order, i - 1, wanted);
      var k := order[i - 1];
      assert k in o ==> KeyOf(o[k]) == k;
      assert k in o' ==> KeyOf(o'[k]) == k;
    }
  }

  lemma ChooseAgain(w: World, w': World, spec: GroupSpec, ns: string, order: seq<Key>)
    requires Steady(w') && SameClaimsAndVolumes(w.objects, w'.objects)
    requires Selection.SelectVolumes(w, spec, ns, order).result.Some?
    ensures Selection.SelectVolumes(w', spec, ns, order).result.Some?
  {
    hide Selection.MapFrom, Selection.CollectFrom, Listed, SameClaimsAndVolumes;
    var none := Selection.Volumes([], map[]);
    if spec.pvcList.Some? {
      var names := spec.pvcList.value;
      CollectAgain(w, w', names, ns, 0, {}, []);
      var c := Selection.CollectFrom(w, names, ns, 0, {}, []);
      MapAgain(c.world, w', c.claims.value, 0, none, "");
    } else {
      var wanted := if spec.pvcLabel != "" then Selection.WithLabel(ns, spec.pvcLabel) else Selection.InNamespace(ns);
      ListedAgain(w.objects, w'.objects, order, |order|, wanted);
      MapAgain(Spend(w), w', Selection.ClaimsOf(Listed(w.objects, order, |order|, wanted)), 0, none, "");
    }
  }

  // An undisturbed reconciliation that finds class and volumes calls the driver.
  lemma UndisturbedCalls(w: World, ns: string, name: string, driver: string, ch: Choices)
    requires Steady(w) && GroupKey(ns, name) in w.objects
    requires var vg := w.objects[GroupKey(ns, name)].group;
             !Locked(vg) && Admitted(w, vg, driver) && ReachesDriver(w, vg, ch)
    ensures Called(w, Reconcile(w, ns, name, driver, ch).world)
  {
    hide Record, Selection.SelectVolumes, Request, Update, Abort;
    var gk := GroupKey(ns, name);
    assert KeyOf(w.objects[gk]) == gk;
    var vg := w.objects[gk].group;
    var c := CallOf(w, vg, ch);
    UpdateKeepsRest(Spend(w), c.pending);
    SelectionReads(ClassRead(w, vg).world, vg.spec, vg.ns, ch.claimOrder);
    ChosenSteady(w, vg, ch);
    var a := Answer(c, ch);
    AbortCallsNobody(a.world, c.pending);
    if a.result.Ok? { RecordWrites(a.world, c.pending, a.result.value, c.volumes.claims, c.class_, ch); }
  }

  lemma ChosenSteady(w: World, vg: VolumeGroup, ch: Choices)
    requires Steady(w) && ReachesDriver(w, vg, ch)
    ensures Steady(Chosen(w, vg, ch).world)
  {
    hide Selection.SelectVolumes;
    Selection.SelectSteady(ClassRead(w, vg).world, vg.spec, vg.ns, ch.claimOrder);
  }

  lemma UpdatedAlike(w: World, w': World, x: VolumeGroup, x': VolumeGroup)
    requires OthersKept(w.objects, w'.objects, GroupKey(x.ns, x.name)) && x'.ns == x.ns && x'.name == x.name
    ensures OthersKept(Update(w, GroupObject(x)).world.objects, Update(w', GroupObject(x')).world.objects, GroupKey(x.ns, x.name))
    ensures Steady(w') ==> Steady(Update(w', GroupObject(x')).world)
  {
  }

  lemma ReadAgain(w: World, again: World, vg: VolumeGroup, x: VolumeGroup)
    requires ClassRead(w, vg).result.Ok? && Steady(again) && OthersKept(w.objects, again.objects, GroupKey(vg.ns, vg.name))
    requires x.ns == vg.ns && x.name == vg.name && x.spec == vg.spec
    ensures ClassRead(again, x).result == ClassRead(w, vg).result && Steady(ClassRead(again, x).world)
    ensures SameClaimsAndVolumes(ClassRead(w, vg).world.objects, ClassRead(again, x).world.objects)
  {
    hide Update;
    UpdatedAlike(Spend(w), Spend(again), InPhase(vg, Pending), InPhase(x, Pending));
    assert !IsMemberKey(ClassKey(vg.spec.className));
  }

  lemma StillReaches(w: World, again: World, vg: VolumeGroup, x: VolumeGroup, ch: Choices)
    requires ReachesDriver(w, vg, ch) && Steady(again) && OthersKept(w.objects, again.objects, GroupKey(vg.ns, vg.name))
    requires x.ns == vg.ns && x.name == vg.name && x.spec == vg.spec
    ensures ReachesDriver(again, x, ch) && ClassRead(again, x).result == ClassRead(w, vg).result
  {
    hide Selection.SelectVolumes, ClassRead, SameClaimsAndVolumes, OthersKept;
    ReadAgain(w, again, vg, x);
    ChooseAgain(ClassRead(w, vg).world, ClassRead(again, x).world, vg.spec, vg.ns, ch.claimOrder);
  }

  function Again(w: World): World { World(w.objects, [], false, [], w.requests) }

  // After a driver call the same reconciliation, now undisturbed, calls the driver again
  // exactly if the group was not locked.
  lemma CalledAgainIff(w: World, ns: string, name: string, driver: string, ch: Choices)
    requires GroupKey(ns, name) in w.objects && Called(w, Reconcile(w, ns, name, driver, ch).world)
    ensures var r, gk := Reconcile(w, ns, name, driver, ch).world, GroupKey(ns, name);
            gk in r.objects &&
            (Called(Again(r), Reconcile(Again(r), ns, name, driver, ch).world) <==> !Locked(GroupAt(r.objects, gk)))
  {
    hide Reconcile, OthersKept, ReachesDriver, Locked, Outcome, Reconciled, ClassRead, CallAndRecord, CallOf;
    var gk := GroupKey(ns, name);
    assert KeyOf(w.objects[gk]) == gk;
    var r, vg := Reconcile(w, ns, name, driver, ch).world, w.objects[gk].group;
    CalledReaches(w, ns, name, driver, ch);
    ReconcileEffect(w, ns, name, driver, ch);
    KeptGroup(w.objects, r.objects, gk);
    assert KeyOf(r.objects[gk]) == gk;
    ReconcileEffect(Again(r), ns, name, driver, ch);
    if !Locked(GroupAt(r.objects, gk)) {
      SpecStays(vg, GroupIdOf(ch), GroupAt(r.objects, gk));
      StillReaches(w, Again(r), vg, GroupAt(r.objects, gk), ch);
      UndisturbedCalls(Again(r), ns, name, driver, ch);
    }
  }

  lemma KeptGroup(o: Objects, o': Objects, gk: Key)
    requires OthersKept(o, o', gk) && gk in o
    ensures gk in o'
  {
  }

  lemma SpecStays(vg: VolumeGroup, groupId: Option<string>, x: VolumeGroup)
    requires Reconciled(vg, groupId, x)
    ensures x.spec == vg.spec
  {
  }
}
