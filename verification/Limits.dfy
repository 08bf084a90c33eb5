/** Inputs on which a guarantee ends: each shows that a condition of a main result is needed. */
module Limits {
  import opened Kube
  import opened Api
  import opened Members
  import opened Lifecycle
  import opened Resumption
  import opened PassRuns
  import CreateDelete
  import Frames
  import GroupWrites
  import Histories
  import Polling
  import RetriedDeletion
  import RoundTrip
  import Selection
  import Teardown
  import Text

  /* ---- Two driver calls without a stored Error ---- */

  const VG := VolumeGroup("ns", "vg", [], false, GroupSpec("drv", "cls", "", None, 0), GroupStatus("", "", 0, false, NoPhase))
  const CLAIM := Claim("ns", "pvc", map[], "pv", true)
  const VOLUME := Volume("pv", Some(CsiSource("drv", "a-1")), true)
  const CLASS := SnapshotClass("cls", "drv", DeletePolicy)

  function Small(): Objects {
    map[GroupKey("ns", "vg") := GroupObject(VG),
        ClaimKey("ns", "pvc") := ClaimObject(CLAIM),
        VolumeKey("pv") := VolumeObject(VOLUME),
        ClassKey("cls") := ClassObject(CLASS)]
  }

  // The group is read, the Pending write refused, the class, the listing and the volume read,
  // the driver called; then the process stops.
  const UNLUCKY := [Proceed, Refuse, Proceed, Proceed, Proceed, Proceed, Stop]

  function UnluckyChoices(res: DriverResponse, draws: nat -> Draw): Choices {
    Choices(Created(res), draws, [ClaimKey("ns", "pvc")], false)
  }

  // A listing of one claim.
  lemma OneClaim(o: Objects, k: Key, c: Claim, wanted: Object -> bool)
    requires k in o && o[k] == ClaimObject(c) && wanted(ClaimObject(c))
    ensures Listed(o, [k], 1, wanted) == [ClaimObject(c)]
    ensures Selection.ClaimsOf([ClaimObject(c)]) == [c]
  {
    assert Listed(o, [k], 0, wanted) == [];
    assert [ClaimObject(c)][..0] == [];
  }

  lemma SmallListing()
    ensures Listed(Small(), [ClaimKey("ns", "pvc")], 1, Selection.InNamespace("ns")) == [ClaimObject(CLAIM)]
    ensures Selection.ClaimsOf([ClaimObject(CLAIM)]) == [CLAIM]
  {
    OneClaim(Small(), ClaimKey("ns", "pvc"), CLAIM, Selection.InNamespace("ns"));
  }

  lemma SmallSelection(w: World)
    requires w.objects == Small() && w.script == [Proceed, Proceed, Proceed, Stop] && !w.halted
    ensures var s := Selection.SelectVolumes(w, VG.spec, "ns", [ClaimKey("ns", "pvc")]);
            s.result.Some? && s.world == w.(script := [Proceed, Stop])
  {
    hide Selection.ParseVolumeHandle, Listed, Selection.ClaimsOf;
    SmallListing();
    var l := List(w, [ClaimKey("ns", "pvc")], Selection.InNamespace("ns"));
    assert l.world.script == [Proceed, Proceed, Stop];
    var none := Selection.Volumes([], map[]);
    var found := Selection.Volumes(none.ids + ["a-1"], none.claims["a-1" := "pvc"]);
    var after := w.(script := [Proceed, Stop]);
    assert Get(l.world, VolumeKey("pv")).world == after;
    assert Selection.MapVolIdToPvcName(l.world, [CLAIM])
        == Selection.MapFrom(after, [CLAIM], 1, found, Selection.ParseVolumeHandle("drv", "a-1"));
  }

  lemma UnluckyCall(w: World, v: Selection.Volumes, ch: Choices)
    requires w.objects == Small() && w.script == [Proceed, Stop] && !w.halted && ch.reply.Created?
    ensures var r := CallAndRecord(w, InPhase(VG, Pending), v, CLASS, ch);
            r.world.objects == Small() && |r.world.requests| == |w.requests| + 1
  {
    hide ProcessResponse, Request, Small;
    var vg := InPhase(VG, Pending);
    var d := CallDriver(w, Request(vg, v), ch.reply);
    assert d.world.script == [Stop] && d.result.Ok?;
    assert Update(d.world, GroupObject(Finalized(vg))).result.Err?;
  }

  lemma UnluckyRest(w: World, ch: Choices)
    requires w.objects == Small() && w.script == [Proceed, Proceed, Proceed, Proceed, Stop] && !w.halted
    requires ch.reply.Created? && ch.claimOrder == [ClaimKey("ns", "pvc")]
    ensures var r := AfterPending(w, InPhase(VG, Pending), "drv", ch);
            r.world.objects == Small() && |r.world.requests| == |w.requests| + 1
  {
    hide Selection.SelectVolumes, CallAndRecord;
    var c := Get(w, ClassKey("cls"));
    assert c.result == Ok(ClassObject(CLASS)) && c.world.script == [Proceed, Proceed, Proceed, Stop];
    SmallSelection(c.world);
    var s := Selection.SelectVolumes(c.world, VG.spec, "ns", ch.claimOrder);
    UnluckyCall(s.world, s.result.value, ch);
  }

  lemma UnluckyRun(requests: seq<DriverRequest>, res: DriverResponse, draws: nat -> Draw)
    ensures var r := Reconcile(World(Small(), UNLUCKY, false, [], requests), "ns", "vg", "drv", UnluckyChoices(res, draws));
            r.world.objects == Small() && |r.world.requests| == |requests| + 1
  {
    hide AfterPending;
    var w := World(Small(), UNLUCKY, false, [], requests);
    var g := Get(w, GroupKey("ns", "vg"));
    assert g.world.script == [Refuse, Proceed, Proceed, Proceed, Proceed, Stop];
    var p := Update(g.world, GroupObject(InPhase(VG, Pending))).world;
    assert p.script == [Proceed, Proceed, Proceed, Proceed, Stop] && p.objects == Small();
    UnluckyRest(p, UnluckyChoices(res, draws));
  }

  // With the Pending write refused, the driver is called twice and no Error is ever stored.
  lemma RefusedPendingWrite(requests: seq<DriverRequest>, res: DriverResponse, draws: nat -> Draw)
    ensures var c := Histories.Cluster(Small(), requests);
            var e := Histories.Reconciliation("ns", "vg", "drv", UnluckyChoices(res, draws), UNLUCKY, []);
            var gk := GroupKey("ns", "vg");
            && Histories.CallsFor(c, e, gk) && Histories.CallsFor(Histories.Step(c, e), e, gk)
            && !Histories.StoredError(Histories.Step(c, e).objects, gk)
  {
    hide Reconcile;
    var r := Reconcile(World(Small(), UNLUCKY, false, [], requests), "ns", "vg", "drv", UnluckyChoices(res, draws));
    UnluckyRun(requests, res, draws);
    UnluckyRun(r.world.requests, res, draws);
  }

  // A group created undisturbed and found ready is closed to further driver calls exactly if the driver gave it an ID.
  lemma LockedByGroupId(w: World, vg: VolumeGroup, driver: string, res: DriverResponse, ch: Choices)
    requires CreateDelete.FoundReady(w, vg, driver, res, ch)
    ensures var gk, o' := GroupKey(vg.ns, vg.name), Reconcile(w, vg.ns, vg.name, driver, ch).world.objects;
            var stored := CreateDelete.Stored(CreateDelete.CreateJob(w, vg, driver, res, ch), res, true);
            && gk in o' && o'[gk] == GroupObject(stored)
            && stored.status.phase == Complete && (GroupWrites.Locked(stored) <==> res.groupId != "")
  {
    hide Reconcile, CreateDelete.MemberList, Text.TrimRight, CreateDelete.Waiting, Selection.SelectVolumes, CreateDelete.Clear, CreateDelete.FlaggedWrites, Frames.StatusesOnly, RoundTrip.Pairs;
    CreateDelete.CreatedStore(w, vg, driver, res, ch);
  }

  // Without one the next reconciliation calls the driver again, with no Error stored.
  lemma UnnamedIsCalledAgain(c: Histories.Cluster, vg: VolumeGroup, driver: string, res: DriverResponse, ch: Choices, env: seq<StatusWrites>)
    requires CreateDelete.FoundReady(Histories.Started(c, [], env), vg, driver, res, ch) && res.groupId == ""
    ensures var e, gk := Histories.Reconciliation(vg.ns, vg.name, driver, ch, [], env), GroupKey(vg.ns, vg.name);
            && Histories.CallsFor(c, e, gk) && Histories.CallsFor(Histories.Step(c, e), Histories.Undisturbed(e), gk)
            && !Histories.StoredError(Histories.Step(c, e).objects, gk)
  {
    hide Reconcile, CreateDelete.Waiting, Selection.SelectVolumes, CreateDelete.Unhindered, CreateDelete.MemberList, Text.TrimRight, Frames.StatusesOnly, RoundTrip.Pairs, Histories.LeavesOpen;
    var w, e, gk := Histories.Started(c, [], env), Histories.Reconciliation(vg.ns, vg.name, driver, ch, [], env), GroupKey(vg.ns, vg.name);
    CreateDelete.CreatedStore(w, vg, driver, res, ch);
    LockedByGroupId(w, vg, driver, res, ch);
    Histories.CallLeaves(c, e, gk);
    Histories.UnseparatedIff(c, e, gk);
  }

  // An instance: the small group, with one member and nothing in its way.
  function SmallResponse(groupId: string): DriverResponse {
    DriverResponse(groupId, 0, [DriverSnapshot("", "a-1", "s-1", 1, 0, true)])
  }

  function SmallChoices(groupId: string): Choices {
    Choices(Created(SmallResponse(groupId)), (i: nat) => Draw("u", []), [ClaimKey("ns", "pvc")], false)
  }

  function PendingSmall(): Objects { CreateDelete.WithGroup(Small(), InPhase(VG, Pending)) }

  lemma PendingSmallListing()
    ensures Listed(PendingSmall(), [ClaimKey("ns", "pvc")], 1, Selection.InNamespace("ns")) == [ClaimObject(CLAIM)]
    ensures Selection.ClaimsOf([ClaimObject(CLAIM)]) == [CLAIM]
    ensures VolumeKey("pv") in PendingSmall() && PendingSmall()[VolumeKey("pv")] == VolumeObject(VOLUME)
  {
    hide Listed, Selection.ClaimsOf;
    OneClaim(PendingSmall(), ClaimKey("ns", "pvc"), CLAIM, Selection.InNamespace("ns"));
  }

  lemma PendingSmallSelection(w: World)
    requires Steady(w) && w.objects == PendingSmall()
    ensures Selection.SelectVolumes(w, VG.spec, "ns", [ClaimKey("ns", "pvc")]).result == Some(Selection.Volumes(["a-1"], map["a-1" := "pvc"]))
  {
    hide PendingSmall, Selection.ParseVolumeHandle, Listed, Selection.ClaimsOf;
    PendingSmallListing();
    var none := Selection.Volumes([], map[]);
    var found := Selection.Volumes(none.ids + ["a-1"], none.claims["a-1" := "pvc"]);
    assert found == Selection.Volumes(["a-1"], map["a-1" := "pvc"]) && |found.claims| == 1;
    assert Selection.MapVolIdToPvcName(w, [CLAIM]) == Selection.MapFrom(w, [CLAIM], 1, found, Selection.ParseVolumeHandle("drv", "a-1"));
  }

  lemma SmallIsClear(job: Job)
    requires |job.snapshots| == 1 && job.vg.ns == "ns" && job.Name(0) == "vg-pvc"
    ensures CreateDelete.Clear(Small(), job)
  {
    assert job.Names(1) == ["vg-pvc"];
  }

  lemma SmallIsFoundReady(groupId: string, requests: seq<DriverRequest>)
    ensures CreateDelete.FoundReady(World(Small(), [], false, [], requests), VG, "drv", SmallResponse(groupId), SmallChoices(groupId))
  {
    hide Selection.SelectVolumes, CreateDelete.Clear, CreateDelete.Waiting, Request, Polling.CheckSnapshotStatus;
    var w, res, ch := World(Small(), [], false, [], requests), SmallResponse(groupId), SmallChoices(groupId);
    PendingSmallSelection(CreateDelete.PendingWorld(w, VG));
    assert CreateDelete.Creatable(w, VG, "drv", res, ch);
    var job := CreateDelete.CreateJob(w, VG, "drv", res, ch);
    assert job.Name(0) == "vg-pvc" by { assert job.claims["a-1"] == "pvc" && job.vg.name == "vg"; }
    SmallIsClear(job);
    CreateDelete.QuietVerdict(CreateDelete.Requested(w, VG, "drv", res, ch), job, ch);
  }

  lemma SmallIsCalledTwice(requests: seq<DriverRequest>)
    ensures var c, gk := Histories.Cluster(Small(), requests), GroupKey("ns", "vg");
            var e := Histories.Reconciliation("ns", "vg", "drv", SmallChoices(""), [], []);
            && Histories.CallsFor(c, e, gk) && Histories.CallsFor(Histories.Step(c, e), e, gk)
            && !Histories.StoredError(Histories.Step(c, e).objects, gk)
  {
    hide Reconcile, Small, CreateDelete.FoundReady;
    var c := Histories.Cluster(Small(), requests);
    SmallIsFoundReady("", requests);
    UnnamedIsCalledAgain(c, VG, "drv", SmallResponse(""), SmallChoices(""), []);
  }

  /* ---- A creation stopped behind its Pending write ---- */

  // It leaves the group Pending, for good (`Histories.PendingForever`).
  lemma StoppedAfterPending(w: World, vg: VolumeGroup, driver: string, ch: Choices)
    requires GroupKey(vg.ns, vg.name) in w.objects && w.objects[GroupKey(vg.ns, vg.name)] == GroupObject(vg) && !GroupWrites.Locked(vg)
    requires !w.halted && w.script == [Proceed, Proceed, Stop]
    ensures Reconcile(w, vg.ns, vg.name, driver, ch).world.objects == CreateDelete.WithGroup(w.objects, InPhase(vg, Pending))
  {
    hide CallAndRecord, Selection.SelectVolumes;
    var p := Update(Spend(w), GroupObject(InPhase(vg, Pending))).world;
    assert Spend(w).script == [Proceed, Stop] && p.script == [Stop];
    assert p.objects == CreateDelete.WithGroup(w.objects, InPhase(vg, Pending));
  }

  /* ---- A Complete group without its member ---- */

  // The only member's content is refused: nothing unready is found, and the group is stored
  // as Complete and ready although the member does not exist.
  lemma CompleteWithoutMember(w: World, res: DriverResponse, claims: map<string, string>, vg: VolumeGroup, sc: SnapshotClass, ch: Choices)
    requires |res.snapshots| == 1 && w.script == [Proceed, Refuse] && !w.halted && w.env == []
    requires GroupKey(vg.ns, vg.name) in w.objects && ContentKey("") !in w.objects
    requires var job := Job(vg, res.snapshots, claims, sc, ch.draws); job.SnapKey(0) !in w.objects && RoundTrip.CommaFree(job)
    requires Polling.PollDue(Polling.Deadline(vg.spec.timeout), ch.tie, 0)
    ensures var job, p, gk := Job(vg, res.snapshots, claims, sc, ch.draws), ProcessResponse(w, res, claims, vg, sc, ch), GroupKey(vg.ns, vg.name);
            && p.failed && job.SnapKey(0) !in p.world.objects
            && gk in p.world.objects && p.world.objects[gk] == GroupObject(p.vg) && p.vg.status.phase == Complete && p.vg.status.ready
  {
    hide Polling.CheckSnapshotStatus, Polling.PollDue, Polling.Deadline, Text.TrimRight, MemberStep, RoundTrip.CommaFree;
    var job, after := Job(vg, res.snapshots, claims, sc, ch.draws), w.(script := []);
    HandledUnfolds(w, job, 1);
    HandledUnfolds(w, job, 0);
    RefusedContent(Progress(w, "", []), job);
    RoundTrip.SnapsAreTerminated(w, job, 1);
    RoundTrip.StoredNames(job);
    var list := Text.Terminated(job.Names(1), ',');
    assert RoundTrip.NoneUnready(after.objects, vg.ns, Text.Split(list, ',')) by {
      assert Text.Split(list, ',') == [job.Name(0), ""];
      var k := SnapshotKey(vg.ns, "");
      assert k in w.objects ==> KeyOf(w.objects[k]) == k;
    }
    RoundTrip.ReadyAtOnce(after, vg.ns, list, vg.spec.timeout, ch.tie);
  }

  lemma RefusedContent(p: Progress, job: Job)
    requires |job.snapshots| == 1 && p.world.script == [Proceed, Refuse] && !p.world.halted
    requires job.SnapKey(0) !in p.world.objects && ContentKey("") !in p.world.objects
    ensures MemberStep(p, job, 0).world == p.world.(script := []) && MemberStep(p, job, 0).errors == p.errors + [0] + [0]
  {
    assert Spend(p.world).script == [Refuse];
    assert CreateVolumeSnapshot(p.world, job, job.snapshots[0], job.draws(0)) == Made(p.world.(script := []), false, "", true);
    hide CreateVolumeSnapshot;
  }

  /* ---- A group that loses its finalizer before its member ---- */

  // Group and class are read, the read of the only member is refused.
  lemma MissedReadDropsFinalizer(o: Objects, vg: VolumeGroup, requests: seq<DriverRequest>, driver: string, ch: Choices)
    requires RetriedDeletion.TornDown(o, vg) && |Text.Split(vg.status.snapshots, ',')| == 1
    requires Teardown.Live(o, SnapshotKey(vg.ns, Text.Split(vg.status.snapshots, ',')[0]))
    ensures var w := World(o, [Proceed, Proceed, Refuse], false, [], requests);
            RetriedDeletion.LosesFinalizerEarly(Reconcile(w, vg.ns, vg.name, driver, ch).world.objects, vg)
  {
    hide Reconcile, Text.Split;
    var w := World(o, [Proceed, Proceed, Refuse], false, [], requests);
    RetriedDeletion.EarlyFinalizerIff(w, vg, driver, ch);
    var names := Text.Split(vg.status.snapshots, ',');
    var c := Spend(Spend(w));
    assert c.script == [Refuse] && Spend(c).script == [];
    assert Teardown.DeleteFrom(c, vg.ns, names, 0) == Teardown.DeleteFrom(Spend(c), vg.ns, names, 1);
  }

  /* ---- A refused read can cost a handle ---- */

  // After a harmful read (`PassRuns.HarmfulReadOrphans`) there is an orphan with the new handle beside the stale content;
  // the next undisturbed pass, when it lists that orphan first, is content with it and
  // does not refresh the stale content the snapshot is bound to.
  lemma StaleHandleSurvives(p: Progress, job: Job, i: nat, o: Objects, draws: nat -> Draw)
    requires i < |job.snapshots| && Coherent(job) && Steady(p.world) && p.world.objects == WithOrphan(o, job, i)
    requires MemberReady(o, job, i) && StatusFits(o, job, i) && job.SnapKey(i) in o && !UpToDate(o, job, i)
    requires ContentKey(ContentName(job.draws(i))) !in o && draws(i).order == [ContentKey(ContentName(job.draws(i)))]
    ensures var q := MemberStep(p, job.(draws := draws), i);
            && q.errors == p.errors && q.world == p.world
            && q.world.objects[NamedContent(q.world.objects, job, i)].content.handle != Some(job.snapshots[i].snapId)
  {
    var o', job', s, sk := p.world.objects, job.(draws := draws), job.snapshots[i], job.SnapKey(i);
    var ck := ContentKey(ContentName(job.draws(i)));
    var orphan := MakeVolSnapContent(ContentName(job.draws(i)), job.vg.ns, job.Name(i), s, job.class_);
    assert job'.NameOf(s) == job.Name(i);
    assert KeyOf(o[sk]) == sk;
    var vs := o'[sk].snapshot;
    assert NamedContent(o', job, i) == NamedContent(o, job, i) && Refers(o, NamedContent(o, job, i), job, i);
    assert Listed(o', [ck], 0, IsContent) == [];
    assert Listed(o', [ck], 1, IsContent) == [ContentObject(orphan)];
    assert Find([ContentObject(orphan)], vs.ns, vs.name) == Some(orphan);
    assert ReuseVolumeSnapshot(p.world, job', vs, s, draws(i)) == Made(p.world, false, orphan.name, false);
    hide ReuseVolumeSnapshot;
    assert CreateVolumeSnapshot(p.world, job', s, draws(i)) == Made(p.world, false, orphan.name, false);
  }
}
