/** The create/delete round trip of a whole group, while others write statuses. */
module CreateDelete {
  import opened Kube
  import opened Api
  import opened Frames
  import opened Lifecycle
  import opened Members
  import opened RoundTrip
  import Histories
  import Polling
  import Selection
  import Teardown
  import Text

  /* ---- Creating ---- */

  function NewJob(vg: VolumeGroup, res: DriverResponse, claims: map<string, string>, sc: SnapshotClass, ch: Choices): Job {
    Job(vg, res.snapshots, claims, sc, ch.draws)
  }

  // No member of the job is in the way.
  ghost predicate Clear(o: Objects, job: Job) { DistinctPairs(job) && NoneThere(o, job, 0) && CommaFree(job) }

  function WithGroup(o: Objects, x: VolumeGroup): Objects { o[GroupKey(x.ns, x.name) := GroupObject(x)] }

  function MemberList(job: Job): string { Text.Terminated(job.Names(|job.snapshots|), ',') }

  // The world in which the wait for the created members begins.
  function WithPairs(w: World, job: Job): World {
    w.(objects := WithGroup(Pairs(w.objects, job, 0, |job.snapshots|), job.vg))
  }

  function Waiting(w: World, job: Job, ch: Choices): Polling.Polled {
    Polling.CheckSnapshotStatus(WithPairs(w, job), job.vg.ns, MemberList(job), job.vg.spec.timeout, ch.tie)
  }

  // The group as it is stored after the wait.
  function Stored(job: Job, res: DriverResponse, ready: bool): VolumeGroup {
    job.vg.(status := FinalStatus(res, MemberList(job), ready))
  }

  function CreatedWorld(w: World, job: Job, res: DriverResponse, ch: Choices): World {
    var q := Waiting(w, job, ch);
    q.world.(objects := WithGroup(q.world.objects, Stored(job, res, q.ready)))
  }

  // What others write to the members' statuses has its readiness flag.
  ghost predicate FlaggedWrites(w: World, job: Job) {
    Polling.WritesFlag(w.env, job.vg.ns, job.Names(|job.snapshots|))
  }

  lemma PairIsFlagged(w: World, job: Job, m: nat)
    requires Clear(w.objects, job) && m < |job.snapshots|
    ensures Polling.Flagged(WithPairs(w, job).objects, job.SnapKey(m))
  {
    hide Pairs, CommaFree, DistinctPairs, NoneThere;
    PairAt(w.objects, job, 0, m);
  }

  lemma PairsAreFlagged(w: World, job: Job)
    requires Clear(w.objects, job) && FlaggedWrites(w, job)
    ensures var names := Text.Split(MemberList(job), ',');
            Polling.Populated(WithPairs(w, job).objects, job.vg.ns, names) && Polling.WritesFlag(w.env, job.vg.ns, names)
  {
    hide CommaFree, Pairs, DistinctPairs, NoneThere, Text.Split, Text.Terminated, Polling.WritesFlag, Polling.Flagged;
    var o, ns, names := WithPairs(w, job).objects, job.vg.ns, job.Names(|job.snapshots|);
    StoredNames(job);
    forall j | 0 <= j < |names| ensures Polling.Flagged(o, SnapshotKey(ns, names[j])) {
      PairIsFlagged(w, job, j);
    }
    Polling.ExtraNameIsFlagged(o, w.env, ns, names);
  }

  // The wait ends with the first poll that finds no member unready, and without success exactly
  // if none of those due before the deadline does.
  lemma CreatedVerdict(w: World, job: Job, ch: Choices)
    requires Steady(w) && Clear(w.objects, job) && FlaggedWrites(w, job)
    ensures var max := Polling.MaxPolls(Polling.Deadline(job.vg.spec.timeout), ch.tie);
            Polling.WaitedRight(WithPairs(w, job), job.vg.ns, MemberList(job), max, 0, Waiting(w, job, ch))
    ensures Steady(Waiting(w, job, ch).world) && Waiting(w, job, ch).world.requests == w.requests
    ensures StatusesOnly(WithPairs(w, job).objects, Waiting(w, job, ch).world.objects)
  {
    hide Polling.PollFrom, Polling.Deadline, Polling.MaxPolls, Polling.Populated, Polling.AllReady, Clear, FlaggedWrites, MemberList, WithPairs, StatusesOnly;
    var p, ns, list, deadline := WithPairs(w, job), job.vg.ns, MemberList(job), Polling.Deadline(job.vg.spec.timeout);
    assert Steady(p) && p.requests == w.requests && p.env == w.env by { WithPairsKeepsRest(w, job); }
    PairsAreFlagged(w, job);
    forall j: nat | 1 <= j <= Polling.MaxPolls(deadline, ch.tie) ensures Polling.Populated(Polling.StoreAt(p, j), ns, Text.Split(list, ',')) {
      Polling.StaysPopulated(p, ns, Text.Split(list, ','), j);
    }
    Polling.WaitExact(p, ns, list, deadline, ch.tie, 0);
    Polling.TicksChangeStatuses(p, Waiting(w, job, ch).polls);
    PollFrame(p, ns, list, deadline, ch.tie, 0);
  }

  lemma WithPairsKeepsRest(w: World, job: Job)
    ensures var p := WithPairs(w, job);
            p.script == w.script && p.halted == w.halted && p.env == w.env && p.requests == w.requests
  {
  }

  // With no other writer about, any poll is a success.
  lemma QuietVerdict(w: World, job: Job, ch: Choices)
    requires Quiet(w) && Clear(w.objects, job)
    ensures Waiting(w, job, ch).ready <==> Polling.PollDue(Polling.Deadline(job.vg.spec.timeout), ch.tie, 0)
  {
    hide Polling.Deadline, Polling.PollDue, Polling.CheckSnapshotStatus, Pairs, DistinctPairs, NoneThere, CommaFree, NoneUnready;
    PairsAreNotUnready(w.objects, job);
    GroupIsNotUnready(Pairs(w.objects, job, 0, |job.snapshots|), job.vg, Text.Split(MemberList(job), ','));
    ReadyAtOnce(WithPairs(w, job), job.vg.ns, MemberList(job), job.vg.spec.timeout, ch.tie);
  }

  lemma GroupIsNotUnready(o: Objects, x: VolumeGroup, names: seq<string>)
    requires NoneUnready(o, x.ns, names)
    ensures NoneUnready(WithGroup(o, x), x.ns, names)
  {
  }

  lemma UpdateSteady(w: World, x: VolumeGroup)
    requires Steady(w) && GroupKey(x.ns, x.name) in w.objects
    ensures Update(w, GroupObject(x)) == Reply(w.(objects := WithGroup(w.objects, x)), Ok(()))
  {
  }

  lemma PairsKeepGroup(o: Objects, job: Job, gk: Key)
    requires gk in o
    ensures gk in Pairs(o, job, 0, |job.snapshots|)
  {
    PairsKeys(o, job, 0, |job.snapshots|, gk);
  }

  lemma PairsHoldGroup(o: Objects, job: Job)
    requires GroupKey(job.vg.ns, job.vg.name) in o && o[GroupKey(job.vg.ns, job.vg.name)] == GroupObject(job.vg)
    ensures Pairs(o, job, 0, |job.snapshots|) == WithGroup(Pairs(o, job, 0, |job.snapshots|), job.vg)
  {
    hide Pairs;
    assert o == WithGroup(o, job.vg);
    PairsBesideGroup(o, job, 0, |job.snapshots|, job.vg);
  }

  lemma ProcessCreates(w: World, res: DriverResponse, claims: map<string, string>, vg: VolumeGroup, sc: SnapshotClass, ch: Choices)
    requires Steady(w) && GroupKey(vg.ns, vg.name) in w.objects && w.objects[GroupKey(vg.ns, vg.name)] == GroupObject(vg)
    requires var job := NewJob(vg, res, claims, sc, ch); Clear(w.objects, job) && FlaggedWrites(w, job)
    ensures var job := NewJob(vg, res, claims, sc, ch);
            ProcessResponse(w, res, claims, vg, sc, ch)
            == Processed(CreatedWorld(w, job, res, ch), Stored(job, res, Waiting(w, job, ch).ready), false)
  {
    hide Handled, Polling.CheckSnapshotStatus, DistinctPairs, NoneThere, CommaFree, Pairs, Update, FinalStatus, Polling.WaitedRight, Polling.WritesFlag, Polling.MaxPolls;
    var job, n := NewJob(vg, res, claims, sc, ch), |res.snapshots|;
    PairsCreated(w, job, n);
    SnapsAreTerminated(w, job, n);
    PairsHoldGroup(w.objects, job);
    assert Handled(w, job, n).world == WithPairs(w, job);
    CreatedVerdict(w, job, ch);
    UpdateSteady(Waiting(w, job, ch).world, Stored(job, res, Waiting(w, job, ch).ready));
  }

  lemma ClearBesideGroup(o: Objects, job: Job, x: VolumeGroup)
    ensures Clear(o, job) <==> Clear(WithGroup(o, x), job)
  {
  }

  lemma BesideGroup(o: Objects, job: Job, x: VolumeGroup, y: VolumeGroup, n: nat)
    requires n <= |job.snapshots| && x.ns == y.ns && x.name == y.name
    ensures WithGroup(Pairs(WithGroup(o, x), job, 0, n), y) == WithGroup(Pairs(o, job, 0, n), y)
  {
    hide Pairs;
    PairsBesideGroup(o, job, 0, n, x);
    var p := Pairs(o, job, 0, n);
    assert WithGroup(WithGroup(p, x), y) == WithGroup(p, y);
  }

  // What was stored in the group before the wait does not matter.
  lemma CreatedBesideGroup(w: World, job: Job, res: DriverResponse, ch: Choices, x: VolumeGroup)
    requires x.ns == job.vg.ns && x.name == job.vg.name
    ensures var w' := w.(objects := WithGroup(w.objects, x));
            Waiting(w', job, ch) == Waiting(w, job, ch) && CreatedWorld(w', job, res, ch) == CreatedWorld(w, job, res, ch)
  {
    hide Polling.CheckSnapshotStatus, Pairs, FinalStatus;
    BesideGroup(w.objects, job, x, job.vg, |job.snapshots|);
  }

  lemma RecordCreates(w: World, vg: VolumeGroup, res: DriverResponse, claims: map<string, string>, sc: SnapshotClass, ch: Choices)
    requires Steady(w) && GroupKey(vg.ns, vg.name) in w.objects && w.objects[GroupKey(vg.ns, vg.name)] == GroupObject(vg)
    requires var job := NewJob(Named(vg, res), res, claims, sc, ch); Clear(w.objects, job) && FlaggedWrites(w, job)
    ensures Record(w, vg, res, claims, sc, ch) == Teardown.Run(CreatedWorld(w, NewJob(Named(vg, res), res, claims, sc, ch), res, ch), false)
  {
    hide ProcessResponse, Update, Clear, FlaggedWrites, FinalStatus, Waiting;
    var named := Named(vg, res);
    var job := NewJob(named, res, claims, sc, ch);
    assert w.objects == WithGroup(w.objects, vg);
    UpdateSteady(w, Finalized(vg));
    var f := w.(objects := WithGroup(w.objects, Finalized(vg)));
    UpdateSteady(f, named);
    var i := w.(objects := WithGroup(w.objects, named));
    assert WithGroup(f.objects, named) == i.objects;
    ClearBesideGroup(w.objects, job, named);
    FlaggedBesideGroup(w, job, i);
    ProcessCreates(i, res, claims, named, sc, ch);
    CreatedBesideGroup(w, job, res, ch, named);
    var q, done := Waiting(w, job, ch), Stored(job, res, Waiting(w, job, ch).ready);
    CreatedSteady(w, job, ch);
    UpdateSteady(CreatedWorld(w, job, res, ch), done);
    assert WithGroup(WithGroup(q.world.objects, done), done) == WithGroup(q.world.objects, done);
  }

  lemma FlaggedBesideGroup(w: World, job: Job, w': World)
    requires w'.env == w.env
    ensures FlaggedWrites(w, job) <==> FlaggedWrites(w', job)
  {
  }

  lemma CreatedSteady(w: World, job: Job, ch: Choices)
    requires Steady(w) && Clear(w.objects, job) && FlaggedWrites(w, job)
    ensures Steady(Waiting(w, job, ch).world)
  {
    hide Waiting, Clear, FlaggedWrites, Polling.WaitedRight;
    CreatedVerdict(w, job, ch);
  }

  // An undisturbed reconciliation of the group `vg` gets as far as a driver that answers `res`.
  ghost predicate Creatable(w: World, vg: VolumeGroup, driver: string, res: DriverResponse, ch: Choices) {
    && Steady(w) && GroupKey(vg.ns, vg.name) in w.objects && w.objects[GroupKey(vg.ns, vg.name)] == GroupObject(vg)
    && !vg.deleting && !(vg.status.phase == Complete && vg.status.groupId != "") && vg.status.phase != Pending
    && !(vg.spec.pvcLabel != "" && vg.spec.pvcList.Some?)
    && ClassKey(vg.spec.className) in w.objects && w.objects[ClassKey(vg.spec.className)].class_.driver == driver
    && Selected(w, vg, ch).result.Some?
    && ch.reply == Created(res)
  }

  function PendingWorld(w: World, vg: VolumeGroup): World { w.(objects := WithGroup(w.objects, InPhase(vg, Pending))) }

  function Selected(w: World, vg: VolumeGroup, ch: Choices): Selection.Selected {
    Selection.SelectVolumes(PendingWorld(w, vg), vg.spec, vg.ns, ch.claimOrder)
  }

  // The job of that reconciliation, and the world with its driver call on record.
  function CreateJob(w: World, vg: VolumeGroup, driver: string, res: DriverResponse, ch: Choices): Job
    requires Creatable(w, vg, driver, res, ch)
  {
    NewJob(Named(InPhase(vg, Pending), res), res, Selected(w, vg, ch).result.value.claims,
           w.objects[ClassKey(vg.spec.className)].class_, ch)
  }

  function Requested(w: World, vg: VolumeGroup, driver: string, res: DriverResponse, ch: Choices): World
    requires Creatable(w, vg, driver, res, ch)
  {
    w.(requests := w.requests + [Request(InPhase(vg, Pending), Selected(w, vg, ch).result.value)])
  }

  // No member is in the way, and the statuses others write are complete.
  ghost predicate Unhindered(w: World, vg: VolumeGroup, driver: string, res: DriverResponse, ch: Choices) {
    && Creatable(w, vg, driver, res, ch)
    && Clear(w.objects, CreateJob(w, vg, driver, res, ch)) && FlaggedWrites(w, CreateJob(w, vg, driver, res, ch))
  }

  // All members are found ready in time.
  ghost predicate FoundReady(w: World, vg: VolumeGroup, driver: string, res: DriverResponse, ch: Choices) {
    Unhindered(w, vg, driver, res, ch) && Waiting(Requested(w, vg, driver, res, ch), CreateJob(w, vg, driver, res, ch), ch).ready
  }

  lemma CallCreates(w: World, vg: VolumeGroup, v: Selection.Volumes, sc: SnapshotClass, res: DriverResponse, ch: Choices)
    requires Steady(w) && GroupKey(vg.ns, vg.name) in w.objects && w.objects[GroupKey(vg.ns, vg.name)] == GroupObject(vg)
    requires var job := NewJob(Named(vg, res), res, v.claims, sc, ch); Clear(w.objects, job) && FlaggedWrites(w, job)
    requires ch.reply == Created(res)
    ensures CallAndRecord(w, vg, v, sc, ch)
         == Teardown.Run(CreatedWorld(w.(requests := w.requests + [Request(vg, v)]), NewJob(Named(vg, res), res, v.claims, sc, ch), res, ch), false)
  {
    hide Record, Clear, Request, CreatedWorld, FlaggedWrites;
    var called := w.(requests := w.requests + [Request(vg, v)]);
    FlaggedBesideGroup(w, NewJob(Named(vg, res), res, v.claims, sc, ch), called);
    RecordCreates(called, vg, res, v.claims, sc, ch);
  }

  // An undisturbed creation ends with the created world.
  lemma ReconcileCreates(w: World, vg: VolumeGroup, driver: string, res: DriverResponse, ch: Choices)
    requires Unhindered(w, vg, driver, res, ch)
    ensures Reconcile(w, vg.ns, vg.name, driver, ch)
         == Teardown.Run(CreatedWorld(Requested(w, vg, driver, res, ch), CreateJob(w, vg, driver, res, ch), res, ch), false)
  {
    hide CallAndRecord, Selection.SelectVolumes, Clear, Request, CreatedWorld, FlaggedWrites;
    var pending, p, job := InPhase(vg, Pending), PendingWorld(w, vg), CreateJob(w, vg, driver, res, ch);
    UpdateSteady(w, pending);
    var v, sc := Selected(w, vg, ch).result.value, w.objects[ClassKey(vg.spec.className)].class_;
    Selection.SelectSteady(p, vg.spec, vg.ns, ch.claimOrder);
    ClearBesideGroup(w.objects, job, pending);
    FlaggedBesideGroup(w, job, p);
    CallCreates(p, pending, v, sc, res, ch);
    CreatedBesideGroup(Requested(w, vg, driver, res, ch), job, res, ch, pending);
  }

  // There, exactly the pairs have been added, up to the statuses written meanwhile, and the
  // group is stored with their names; the driver was called once.
  lemma CreatedStore(w: World, vg: VolumeGroup, driver: string, res: DriverResponse, ch: Choices)
    requires Unhindered(w, vg, driver, res, ch)
    ensures var job, r := CreateJob(w, vg, driver, res, ch), Reconcile(w, vg.ns, vg.name, driver, ch);
            var stored := Stored(job, res, Waiting(Requested(w, vg, driver, res, ch), job, ch).ready);
            && !r.failed && Steady(r.world)
            && StatusesOnly(WithGroup(Pairs(w.objects, job, 0, |job.snapshots|), stored), r.world.objects)
            && GroupKey(vg.ns, vg.name) in r.world.objects && r.world.objects[GroupKey(vg.ns, vg.name)] == GroupObject(stored)
            && r.world.requests == Requested(w, vg, driver, res, ch).requests
  {
    hide Reconcile, Selection.SelectVolumes, Clear, Request, Waiting, FlaggedWrites, Pairs, FinalStatus, Polling.WaitedRight, StatusesOnly, Polling.MaxPolls;
    var job, called := CreateJob(w, vg, driver, res, ch), Requested(w, vg, driver, res, ch);
    ReconcileCreates(w, vg, driver, res, ch);
    FlaggedBesideGroup(w, job, called);
    CreatedVerdict(called, job, ch);
    var q := Waiting(called, job, ch);
    StatusesBesideGroup(Pairs(w.objects, job, 0, |job.snapshots|), q.world.objects, job.vg, Stored(job, res, q.ready));
  }

  lemma StatusesBesideGroup(o: Objects, o': Objects, x: VolumeGroup, y: VolumeGroup)
    requires x.ns == y.ns && x.name == y.name && StatusesOnly(WithGroup(o, x), o')
    ensures StatusesOnly(WithGroup(o, y), WithGroup(o', y))
  {
  }

  /* ---- Deleting ---- */

  lemma TearAdded(o: Objects, job: Job, i: nat)
    requires i < |job.snapshots| && job.SnapKey(i) !in o && ContentKeyOf(job, i) !in o && job.class_.policy == DeletePolicy
    ensures !Teardown.Stuck(AddPair(o, job, i), job.SnapKey(i)) && Teardown.TearOne(AddPair(o, job, i), job.SnapKey(i)) == o
  {
    assert AddPair(o, job, i) - {job.SnapKey(i), ContentKeyOf(job, i)} == o;
  }

  lemma TearPair(o: Objects, job: Job, i: nat)
    requires i < |job.snapshots| && DistinctPairs(job) && NoneThere(o, job, 0) && job.class_.policy == DeletePolicy
    ensures var p := Pairs(o, job, i, |job.snapshots|);
            && !Teardown.Stuck(p, job.SnapKey(i))
            && Teardown.TearOne(p, job.SnapKey(i)) == Pairs(o, job, i + 1, |job.snapshots|)
  {
    hide AddPair, Teardown.Stuck, Teardown.TearOne, DistinctPairs, NoneThere;
    StillAbsent(o, job, i + 1, |job.snapshots|, i);
    TearAdded(Pairs(o, job, i + 1, |job.snapshots|), job, i);
  }

  lemma {:induction false} ClearPairs(o: Objects, job: Job, i: nat)
    requires i <= |job.snapshots| && DistinctPairs(job) && NoneThere(o, job, 0) && job.class_.policy == DeletePolicy
    ensures Teardown.Clear(Pairs(o, job, i, |job.snapshots|), job.vg.ns, job.Names(|job.snapshots|), i) == Teardown.Cleared(o, false)
    decreases |job.snapshots| - i
  {
    hide Teardown.TearOne, Teardown.Stuck, DistinctPairs, NoneThere, AddPair;
    if i < |job.snapshots| {
      TearPair(o, job, i);
      ClearPairs(o, job, i + 1);
    }
  }

  // The stored list leads exactly to the pairs.
  lemma ClearListed(o: Objects, job: Job)
    requires Clear(o, job) && job.class_.policy == DeletePolicy && SnapshotKey(job.vg.ns, "") !in o
    ensures var names := Text.Split(Text.TrimRight(MemberList(job), ','), ',');
            Teardown.Clear(Pairs(o, job, 0, |job.snapshots|), job.vg.ns, names, 0) == Teardown.Cleared(o, false)
  {
    hide DistinctPairs, NoneThere, Teardown.TearOne, Text.Terminated, Text.TrimRight;
    StoredNames(job);
    if |job.snapshots| == 0 {
      Teardown.SettledIsSkipped(o, SnapshotKey(job.vg.ns, ""));
      assert Teardown.Clear(o, job.vg.ns, [""], 1) == Teardown.Cleared(o, false);
    } else {
      ClearPairs(o, job, 0);
    }
  }

  // What an undisturbed reconciliation of the deleted group leaves of members.
  ghost function LeftOver(o: Objects, job: Job): Objects {
    if job.class_.policy == DeletePolicy then o else Pairs(o, job, 0, |job.snapshots|)
  }

  // Nothing but the group has changed of what is left.
  ghost predicate RestAsItWas(o: Objects, o': Objects, gk: Key) {
    forall k | k in o' && k != gk :: k in o && o'[k] == o[k]
  }

  lemma MembersTorn(w: World, o: Objects, job: Job) returns (left: Objects)
    requires Steady(w) && Clear(o, job) && job.class_.policy == DeletePolicy && SnapshotKey(job.vg.ns, "") !in o
    requires StatusesOnly(Pairs(o, job, 0, |job.snapshots|), w.objects)
    ensures var names := Text.Split(Text.TrimRight(MemberList(job), ','), ',');
            Teardown.DeleteFrom(w, job.vg.ns, names, 0) == Teardown.Run(w.(objects := left), false)
    ensures StatusesOnly(o, left) && forall k | k in left :: k in w.objects && left[k] == w.objects[k]
  {
    hide Teardown.DeleteFrom, Clear, Pairs, StatusesOnly, Text.Split, Text.TrimRight, MemberList;
    var names := Text.Split(Text.TrimRight(MemberList(job), ','), ',');
    ClearListed(o, job);
    ClearStatuses(Pairs(o, job, 0, |job.snapshots|), w.objects, job.vg.ns, names, 0);
    Teardown.SteadyTeardown(w, job.vg.ns, names, 0);
    left := Teardown.Clear(w.objects, job.vg.ns, names, 0).objects;
    Teardown.TeardownRemovesOnlyListed(w, job.vg.ns, names, 0);
  }

  lemma SameKind(o: Objects, o': Objects, k: Key)
    requires StatusesOnly(o, o') && k in o && k.kind != SnapshotKind
    ensures k in o' && o'[k] == o[k]
  {
    assert KeyOf(o[k]) == k;
  }

  lemma DeleteVgUndoes(w: World, o: Objects, job: Job, vg: VolumeGroup)
    requires Steady(w) && Clear(o, job) && job.class_.policy != OtherPolicy && SnapshotKey(vg.ns, "") !in o
    requires vg.ns == job.vg.ns && GroupKey(vg.ns, vg.name) in o && ClassKey(vg.spec.className) in o
    requires o[ClassKey(vg.spec.className)] == ClassObject(job.class_)
    requires vg.status.snapshots == Text.TrimRight(MemberList(job), ',')
    requires StatusesOnly(Pairs(o, job, 0, |job.snapshots|), w.objects)
    ensures var r, gk := Teardown.DeleteVg(w, vg), GroupKey(vg.ns, vg.name);
            && !r.failed && RestAsItWas(w.objects, r.world.objects, gk)
            && StatusesOnly(WithGroup(LeftOver(o, job), Teardown.Unfinalized(vg)), r.world.objects)
  {
    hide Teardown.DeleteFrom, Pairs, Clear, StatusesOnly, Text.Split, Text.TrimRight, MemberList, Teardown.Unfinalized, Update;
    var ck, gk, pairs := ClassKey(vg.spec.className), GroupKey(vg.ns, vg.name), Pairs(o, job, 0, |job.snapshots|);
    assert ck in pairs && pairs[ck] == o[ck] by { PairsKeepOld(o, job, ck); }
    SameKind(pairs, w.objects, ck);
    var left := w.objects;
    if job.class_.policy == DeletePolicy {
      left := MembersTorn(w, o, job);
    }
    GroupIsLeft(o, job, left, gk);
    assert Teardown.Unfinalized(vg).ns == vg.ns && Teardown.Unfinalized(vg).name == vg.name by { UnfinalizedNames(vg); }
    UpdateSteady(w.(objects := left), Teardown.Unfinalized(vg));
    StatusesUnderGroup(LeftOver(o, job), left, Teardown.Unfinalized(vg));
  }

  lemma UnfinalizedNames(vg: VolumeGroup)
    ensures Teardown.Unfinalized(vg).ns == vg.ns && Teardown.Unfinalized(vg).name == vg.name
  {
  }

  lemma PairsKeepOld(o: Objects, job: Job, k: Key)
    requires Clear(o, job) && k in o
    ensures k in Pairs(o, job, 0, |job.snapshots|) && Pairs(o, job, 0, |job.snapshots|)[k] == o[k]
  {
    PairsKeys(o, job, 0, |job.snapshots|, k);
  }

  lemma GroupIsLeft(o: Objects, job: Job, left: Objects, gk: Key)
    requires gk in o && gk.kind == GroupKind && StatusesOnly(LeftOver(o, job), left)
    ensures gk in left
  {
    PairsKeepGroup(o, job, gk);
  }

  lemma StatusesUnderGroup(o: Objects, o': Objects, x: VolumeGroup)
    requires StatusesOnly(o, o')
    ensures StatusesOnly(WithGroup(o, x), WithGroup(o', x))
  {
  }

  /* ---- The round trip ---- */

  // The cluster after the user has deleted the group and it has been reconciled once more.
  function Deleted(o: Objects, requests: seq<DriverRequest>, ns: string, name: string, driver: string, ch: Choices): Teardown.Run {
    Reconcile(World(Histories.DeleteGroup(o, GroupKey(ns, name)), [], false, [], requests), ns, name, driver, ch)
  }

  // The deletion of a group stored over its pairs: a Complete one goes, any other is left alone.
  lemma StoredDeleted(o: Objects, job: Job, stored: VolumeGroup, before: Objects, requests: seq<DriverRequest>, driver: string, ch: Choices)
    requires Clear(o, job) && job.class_.policy != OtherPolicy && SnapshotKey(stored.ns, "") !in o
    requires stored.ns == job.vg.ns && GroupKey(stored.ns, stored.name) in o && FINALIZER_NAME in stored.finalizers
    requires ClassKey(stored.spec.className) in o && o[ClassKey(stored.spec.className)] == ClassObject(job.class_)
    requires stored.status.snapshots == Text.TrimRight(MemberList(job), ',')
    requires StatusesOnly(WithGroup(Pairs(o, job, 0, |job.snapshots|), stored), before)
    ensures var marked, gk := stored.(deleting := true), GroupKey(stored.ns, stored.name);
            var r := Deleted(before, requests, stored.ns, stored.name, driver, ch);
            && RestAsItWas(before, r.world.objects, gk)
            && if stored.status.phase == Complete
               then !r.failed && StatusesOnly(WithGroup(LeftOver(o, job), Teardown.Unfinalized(marked)), r.world.objects)
               else r.failed && r.world.objects == WithGroup(before, marked)
  {
    hide Teardown.DeleteVg, Pairs, MemberList, Text.TrimRight, Teardown.WithoutString, Take, Clear, LeftOver, StatusesOnly;
    var n, marked, gk := |job.snapshots|, stored.(deleting := true), GroupKey(stored.ns, stored.name);
    var pairs, base := Pairs(o, job, 0, n), WithGroup(o, marked);
    SameKind(WithGroup(pairs, stored), before, gk);
    var w := World(WithGroup(before, marked), [], false, [], requests);
    assert Deleted(before, requests, stored.ns, stored.name, driver, ch) == Reconcile(w, stored.ns, stored.name, driver, ch);
    if stored.status.phase == Complete {
      PairsBesideGroup(o, job, 0, n, marked);
      StatusesBesideGroup(pairs, before, stored, marked);
      ClearBesideGroup(o, job, marked);
      DeleteVgUndoes(w, base, job, marked);
      LeftOverBesideGroup(o, job, marked, Teardown.Unfinalized(marked));
    }
  }

  lemma LeftOverBesideGroup(o: Objects, job: Job, x: VolumeGroup, y: VolumeGroup)
    requires x.ns == y.ns && x.name == y.name
    ensures WithGroup(LeftOver(WithGroup(o, x), job), y) == WithGroup(LeftOver(o, job), y)
  {
    BesideGroup(o, job, x, y, |job.snapshots|);
    assert WithGroup(WithGroup(o, x), y) == WithGroup(o, y);
  }

  // Create, delete, with any status writes during the wait and until the deletion: under class
  // policy Delete exactly the old objects are left, under Retain exactly the created pairs are
  // extra, in both cases up to the statuses written.  A group that was not found ready is not
  // deleted, and nothing goes.
  lemma CreateDeleteRoundTrip(w: World, vg: VolumeGroup, driver: string, res: DriverResponse, ch: Choices, before: Objects, ch': Choices)
    requires Unhindered(w, vg, driver, res, ch)
    requires SnapshotKey(vg.ns, "") !in w.objects && CreateJob(w, vg, driver, res, ch).class_.policy != OtherPolicy
    requires StatusesOnly(Reconcile(w, vg.ns, vg.name, driver, ch).world.objects, before)
    ensures var job, requests := CreateJob(w, vg, driver, res, ch), Reconcile(w, vg.ns, vg.name, driver, ch).world.requests;
            var ready := Waiting(Requested(w, vg, driver, res, ch), job, ch).ready;
            var marked := Stored(job, res, ready).(deleting := true);
            var r := Deleted(before, requests, vg.ns, vg.name, driver, ch');
            && RestAsItWas(before, r.world.objects, GroupKey(vg.ns, vg.name))
            && if ready
               then !r.failed && StatusesOnly(WithGroup(LeftOver(w.objects, job), Teardown.Unfinalized(marked)), r.world.objects)
               else r.failed && r.world.objects == WithGroup(before, marked)
  {
    hide Reconcile, Pairs, MemberList, Text.TrimRight, Teardown.WithoutString, Clear, LeftOver, Deleted, Selection.SelectVolumes, StatusesOnly, Waiting, FlaggedWrites, Request, RestAsItWas;
    var job, created := CreateJob(w, vg, driver, res, ch), Reconcile(w, vg.ns, vg.name, driver, ch).world;
    var stored := Stored(job, res, Waiting(Requested(w, vg, driver, res, ch), job, ch).ready);
    CreatedStore(w, vg, driver, res, ch);
    assert KeyOf(w.objects[ClassKey(vg.spec.className)]) == ClassKey(vg.spec.className);
    StatusesTransitive(WithGroup(Pairs(w.objects, job, 0, |job.snapshots|), stored), created.objects, before);
    StoredDeleted(w.objects, job, stored, before, created.requests, driver, ch');
  }
}
