/** What each part of the controller leaves alone. */
module Frames {
  import opened Kube
  import opened Api
  import opened Members
  import opened Integrity
  import Polling
  import Selection
  import Teardown
  import Text

  ghost predicate IsMemberKey(k: Key) { k.kind == SnapshotKind || k.kind == ContentKind }

  // Everything but VolumeSnapshots and contents is the same in both stores.
  ghost predicate MembersOnly(o: Objects, o': Objects) {
    forall k | !IsMemberKey(k) :: (k in o <==> k in o') && (k in o ==> o[k] == o'[k])
  }

  // The VolumeSnapshots and contents are the same in both stores.
  ghost predicate SameMembers(o: Objects, o': Objects) {
    forall k | IsMemberKey(k) :: (k in o <==> k in o') && (k in o ==> o[k] == o'[k])
  }

  // The object without its status, if it is a VolumeSnapshot.
  function Unstated(o: Object): Object {
    if o.SnapshotObject? then SnapshotObject(o.snapshot.(status := None)) else o
  }

  // The stores differ in the statuses of VolumeSnapshots alone.
  ghost predicate StatusesOnly(o: Objects, o': Objects) {
    forall k :: (k in o <==> k in o') && (k in o ==> Unstated(o[k]) == Unstated(o'[k]))
  }

  // So do the VolumeSnapshots and contents of both stores.
  ghost predicate SameButStatuses(o: Objects, o': Objects) {
    forall k | IsMemberKey(k) :: (k in o <==> k in o') && (k in o ==> Unstated(o[k]) == Unstated(o'[k]))
  }

  // Neither the cluster nor the record of driver calls has changed.
  ghost predicate OnlyRead(w: World, w': World) {
    w'.objects == w.objects && w'.requests == w.requests && w'.env == w.env
  }

  /* ---- Selection only reads ---- */

  lemma {:induction false} MapFromReads(w: World, pvcs: seq<Claim>, i: nat, found: Selection.Volumes, systemId: string)
    requires i <= |pvcs|
    ensures OnlyRead(w, Selection.MapFrom(w, pvcs, i, found, systemId).world)
    decreases |pvcs| - i
  {
    if i < |pvcs| {
      hide Selection.ParseVolumeHandle;
      var g := Get(w, VolumeKey(pvcs[i].volumeName));
      if g.result.Ok? && g.result.value.volume.csi.Some? {
        var csi := g.result.value.volume.csi.value;
        MapFromReads(g.world, pvcs, i + 1, found, systemId);
        var arrayId := Selection.ParseVolumeHandle(csi.driver, csi.handle);
        MapFromReads(g.world, pvcs, i + 1,
                     Selection.Volumes(found.ids + [csi.handle], found.claims[csi.handle := pvcs[i].name]),
                     if i == 0 then arrayId else systemId);
      }
    }
  }

  lemma {:induction false} CollectReads(w: World, names: seq<string>, ns: string, i: nat, seen: set<string>, pvcs: seq<Claim>)
    requires i <= |names|
    ensures OnlyRead(w, Selection.CollectFrom(w, names, ns, i, seen, pvcs).world)
    decreases |names| - i
  {
    if i < |names| {
      var g := Get(w, ClaimKey(ns, names[i]));
      if names[i] in seen {
        CollectReads(w, names, ns, i + 1, seen, pvcs);
      } else if g.result.Ok? {
        CollectReads(g.world, names, ns, i + 1, seen + {names[i]}, pvcs + [g.result.value.claim]);
      }
    }
  }

  lemma SelectionReads(w: World, spec: GroupSpec, ns: string, order: seq<Key>)
    ensures OnlyRead(w, Selection.SelectVolumes(w, spec, ns, order).world)
  {
    hide Selection.MapFrom, Selection.CollectFrom, Listed;
    var none := Selection.Volumes([], map[]);
    if spec.pvcList.Some? {
      var names := spec.pvcList.value;
      CollectReads(w, names, ns, 0, {}, []);
      var c := Selection.CollectFrom(w, names, ns, 0, {}, []);
      if c.claims.Some? { MapFromReads(c.world, c.claims.value, 0, none, ""); }
    } else {
      var wanted := if spec.pvcLabel != "" then Selection.WithLabel(ns, spec.pvcLabel) else Selection.InNamespace(ns);
      var l := List(w, order, wanted);
      if l.result.Ok? { MapFromReads(l.world, Selection.ClaimsOf(l.result.value), 0, none, ""); }
    }
  }

  /* ---- Members ---- */

  ghost predicate SameRest(w: World, w': World) { w'.requests == w.requests && w'.env == w.env }

  lemma ReuseKeepsRest(w: World, job: Job, vs: VolumeSnapshot, s: DriverSnapshot, d: Draw)
    ensures SameRest(w, ReuseVolumeSnapshot(w, job, vs, s, d).world)
  {
    hide Listed, Find, ValidateExistingVolSnapcontent, NotReusable;
  }

  lemma PairKeepsRest(w: World, job: Job, s: DriverSnapshot, d: Draw)
    ensures SameRest(w, CreatePair(w, job, s, d).world)
  {
  }

  lemma CreateKeepsRest(w: World, job: Job, s: DriverSnapshot, d: Draw)
    ensures SameRest(w, CreateVolumeSnapshot(w, job, s, d).world)
  {
    hide ReuseVolumeSnapshot, CreatePair;
    var g := Get(w, SnapshotKey(job.vg.ns, job.NameOf(s)));
    if g.result.Ok? { ReuseKeepsRest(g.world, job, g.result.value.snapshot, s, d); }
    PairKeepsRest(g.world, job, s, d);
  }

  lemma RefreshKeepsRest(w: World, name: string, update: bool, s: DriverSnapshot)
    ensures SameRest(w, UpdateVolumeSnapshotContentStatus(w, name, update, s).world)
  {
  }

  lemma StepKeepsRest(p: Progress, job: Job, i: nat)
    requires i < |job.snapshots|
    ensures SameRest(p.world, MemberStep(p, job, i).world)
  {
    hide CreateVolumeSnapshot, UpdateVolumeSnapshotContentStatus;
    var s := job.snapshots[i];
    CreateKeepsRest(p.world, job, s, job.draws(i));
    var made := CreateVolumeSnapshot(p.world, job, s, job.draws(i));
    RefreshKeepsRest(made.world, made.contentName, made.update, s);
  }

  lemma EffectIsMembersOnly(o: Objects, e: Effect, job: Job, i: nat)
    requires i < |job.snapshots| && Allowed(o, e, job, i)
    ensures MembersOnly(o, Apply(o, e))
  {
  }

  lemma MembersTransitive(a: Objects, b: Objects, c: Objects)
    requires MembersOnly(a, b) && MembersOnly(b, c)
    ensures MembersOnly(a, c)
  {
  }

  lemma MembersReflexive(w: World)
    ensures MembersOnly(w.objects, w.objects) && SameRest(w, w)
  {
  }

  lemma RestTransitive(a: World, b: World, c: World)
    requires SameRest(a, b) && SameRest(b, c)
    ensures SameRest(a, c)
  {
  }

  lemma {:induction false} HandledFrame(w: World, job: Job, n: nat)
    requires n <= |job.snapshots|
    ensures MembersOnly(w.objects, After(w, job, n)) && SameRest(w, Handled(w, job, n).world)
  {
    hide MemberStep, MembersOnly, Allowed, Apply, SameRest;
    if n == 0 {
      MembersReflexive(w);
    } else {
      var p := Handled(w, job, n - 1);
      HandledFrame(w, job, n - 1);
      StepKeepsRest(p, job, n - 1);
      var e := MemberEffect(p, job, n - 1);
      EffectIsMembersOnly(p.world.objects, e, job, n - 1);
      MembersTransitive(w.objects, p.world.objects, After(w, job, n));
      RestTransitive(w, p.world, Handled(w, job, n).world);
    }
  }

  /* ---- Polling ---- */

  lemma {:induction false} ReadyReads(w: World, ns: string, names: seq<string>, i: nat)
    requires i <= |names|
    ensures OnlyRead(w, Polling.ReadyFrom(w, ns, names, i).world)
    decreases |names| - i
  {
    if i < |names| { ReadyReads(Get(w, SnapshotKey(ns, names[i])).world, ns, names, i + 1); }
  }

  lemma StatusesTransitive(a: Objects, b: Objects, c: Objects)
    requires StatusesOnly(a, b) && StatusesOnly(b, c)
    ensures StatusesOnly(a, c)
  {
  }

  lemma TickFrame(w: World)
    ensures StatusesOnly(w.objects, Tick(w).objects) && Tick(w).requests == w.requests
  {
  }

  lemma {:induction false} PollFrame(w: World, ns: string, snapshots: string, deadline: int, tie: bool, k: nat)
    ensures var w' := Polling.PollFrom(w, ns, snapshots, deadline, tie, k).world;
            && StatusesOnly(w.objects, w'.objects) && w'.requests == w.requests
            && (w.env == [] ==> w'.objects == w.objects && w'.env == [])
    decreases deadline - k * Polling.TICK
  {
    if !w.halted && Polling.PollDue(deadline, tie, k) {
      hide StatusesOnly, Polling.ReadyFrom;
      TickFrame(w);
      var r := Polling.CheckReadyToUse(Tick(w), ns, snapshots);
      ReadyReads(Tick(w), ns, Text.Split(snapshots, ','), 0);
      if !r.ready {
        PollFrame(r.world, ns, snapshots, deadline, tie, k + 1);
        StatusesTransitive(w.objects, r.world.objects, Polling.PollFrom(w, ns, snapshots, deadline, tie, k).world.objects);
      }
    } else {
      assert StatusesOnly(w.objects, w.objects);
    }
  }

  /* ---- Teardown ---- */

  lemma DeleteKeepsRest(w: World, o: Object)
    ensures SameRest(w, Delete(w, o).world)
  {
  }

  lemma {:induction false} TeardownKeepsRest(w: World, ns: string, names: seq<string>, i: nat)
    requires i <= |names|
    ensures SameRest(w, Teardown.DeleteFrom(w, ns, names, i).world)
    decreases |names| - i
  {
    if i < |names| {
      hide Delete;
      var g := Get(w, SnapshotKey(ns, names[i]));
      if g.result.Err? {
        TeardownKeepsRest(g.world, ns, names, i + 1);
      } else {
        DeleteKeepsRest(g.world, g.result.value);
        TeardownKeepsRest(Delete(g.world, g.result.value).world, ns, names, i + 1);
      }
    }
  }

  lemma GoneAreMembers(o: Objects, o': Objects, keys: set<Key>)
    requires Teardown.OnlyGone(o, o', keys)
    ensures MembersOnly(o, o')
  {
    forall k | k in o && k !in o' ensures IsMemberKey(k) { assert KeyOf(o[k]) == k; }
  }

  lemma TeardownFrame(w: World, ns: string, names: seq<string>)
    ensures MembersOnly(w.objects, Teardown.DeleteFrom(w, ns, names, 0).world.objects)
    ensures SameRest(w, Teardown.DeleteFrom(w, ns, names, 0).world)
  {
    hide Teardown.DeleteFrom, Teardown.OnlyGone, MembersOnly;
    TeardownKeepsRest(w, ns, names, 0);
    Teardown.TeardownRemovesOnlyListed(w, ns, names, 0);
    GoneAreMembers(w.objects, Teardown.DeleteFrom(w, ns, names, 0).world.objects, Teardown.Keys(ns, names[0..]));
  }

  // Statuses make no difference to a teardown.
  lemma TearStatuses(o: Objects, o': Objects, k: Key)
    requires StatusesOnly(o, o')
    ensures Teardown.Stuck(o, k) <==> Teardown.Stuck(o', k)
    ensures StatusesOnly(Teardown.TearOne(o, k), Teardown.TearOne(o', k))
  {
    if Teardown.Live(o, k) && o[k].snapshot.contentName.Some? {
      var c := ContentKey(o[k].snapshot.contentName.value);
      assert c in o ==> KeyOf(o[c]) == c;
    }
  }

  lemma {:induction false} ClearStatuses(o: Objects, o': Objects, ns: string, names: seq<string>, i: nat)
    requires i <= |names| && StatusesOnly(o, o')
    ensures var c, c' := Teardown.Clear(o, ns, names, i), Teardown.Clear(o', ns, names, i);
            c'.failed == c.failed && StatusesOnly(c.objects, c'.objects)
    decreases |names| - i
  {
    hide StatusesOnly, Teardown.Stuck, Teardown.TearOne;
    if i < |names| {
      var k := SnapshotKey(ns, names[i]);
      TearStatuses(o, o', k);
      if !Teardown.Stuck(o, k) { ClearStatuses(Teardown.TearOne(o, k), Teardown.TearOne(o', k), ns, names, i + 1); }
    }
  }

  /* ---- Integrity looks at members only ---- */

  lemma IntegrityOfMembers(o: Objects, o': Objects)
    requires SameMembers(o, o') && RefIntegrity(o)
    ensures RefIntegrity(o')
  {
    forall k | Ours(o', k) ensures Bound(o', k) {
      assert KeyOf(o'[k]) == k;
      assert Ours(o, k) && Bound(o, k);
      var c := o[k].snapshot.contentName.value;
      forall k2 | Names(o', k2, c) ensures k2 == k {
        assert KeyOf(o'[k2]) == k2;
        assert Names(o, k2, c);
      }
    }
  }

  lemma IntegrityOfStatuses(o: Objects, o': Objects)
    requires StatusesOnly(o, o') && RefIntegrity(o)
    ensures RefIntegrity(o')
  {
    forall k | Ours(o', k) ensures Bound(o', k) {
      assert Ours(o, k) && Bound(o, k);
      var c := o[k].snapshot.contentName.value;
      assert o'[ContentKey(c)] == o[ContentKey(c)] by { assert KeyOf(o[ContentKey(c)]) == ContentKey(c); }
      forall k2 | Names(o', k2, c) ensures k2 == k { assert Names(o, k2, c); }
    }
  }

  lemma FreshOfMembers(o: Objects, o': Objects, draws: nat -> Draw, n: nat)
    requires SameMembers(o, o') && FreshDraws(o, draws, 0, n)
    ensures FreshDraws(o', draws, 0, n)
  {
    forall j: nat | j < n ensures Unused(o', ContentName(draws(j))) {
      var c := ContentName(draws(j));
      assert Unused(o, c);
      assert IsMemberKey(ContentKey(c));
      forall k ensures !Names(o', k, c) {
        if Names(o', k, c) {
          assert KeyOf(o'[k]) == k && IsMemberKey(k);
          assert Names(o, k, c);
        }
      }
    }
  }
}
