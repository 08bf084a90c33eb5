/** Passes over the driver's answer: disturbed ones keep the store underway and lose one
    content at most for each fault, an undisturbed one finishes it. */
module PassRuns {
  import opened Kube
  import opened Api
  import opened Members
  import opened Isolation
  import opened Resumption

  /* ---- Faults still to come ---- */

  ghost predicate NoRefuse(script: seq<Fault>) { forall i | 0 <= i < |script| :: !script[i].Refuse? }

  // The faults a process can still meet: after a stop there are no more.
  ghost function FaultsLeft(script: seq<Fault>, halted: bool): nat
    decreases |script|
  {
    if halted || script == [] then 0
    else if script[0].Stop? then 1
    else (if script[0].Refuse? then 1 else 0) + FaultsLeft(script[1..], false)
  }

  ghost function Left(w: World): nat { FaultsLeft(w.script, w.halted) }

  ghost predicate Later(w: World, w': World) {
    (NoRefuse(w.script) ==> NoRefuse(w'.script)) && Left(w') <= Left(w)
  }

  lemma SpendLater(w: World)
    ensures Later(w, Spend(w))
    ensures !w.halted && !Passes(w) ==> Left(Spend(w)) < Left(w)
  {
    if !w.halted && w.script != [] && w.script[0].Stop? {
      assert FaultsLeft(w.script[1..], true) == 0;
    }
  }

  lemma HaltLater(w: World)
    ensures Later(w, Halt(w))
  {
  }

  lemma ReuseLater(w: World, job: Job, vs: VolumeSnapshot, s: DriverSnapshot, d: Draw)
    ensures Later(w, ReuseVolumeSnapshot(w, job, vs, s, d).world)
  {
    hide Listed, Find, ValidateExistingVolSnapcontent, NotReusable, NoRefuse, FaultsLeft;
    SpendLater(w);
    HaltLater(w);
    SpendLater(Spend(w));
    HaltLater(Spend(w));
    HaltLater(Spend(Spend(w)));
  }

  lemma PairLater(w: World, job: Job, s: DriverSnapshot, d: Draw)
    ensures var m := CreatePair(w, job, s, d);
            && Later(w, m.world)
            && (m.failed && m.world.objects != w.objects && SnapshotKey(job.vg.ns, job.NameOf(s)) !in w.objects ==> Left(m.world) < Left(w))
            && (m.world.objects != w.objects ==> Passes(w))
  {
    hide NoRefuse, FaultsLeft;
    SpendLater(w);
    SpendLater(Spend(w));
    var c := Create(w, ContentObject(MakeVolSnapContent(ContentName(d), job.vg.ns, job.NameOf(s), s, job.class_)));
    assert c.world.script == Spend(w).script && c.world.halted == Spend(w).halted;
  }

  lemma RefreshLater(w: World, name: string, update: bool, s: DriverSnapshot)
    ensures Later(w, UpdateVolumeSnapshotContentStatus(w, name, update, s).world)
  {
    hide NoRefuse, FaultsLeft;
    SpendLater(w);
    SpendLater(Spend(w));
    SpendLater(Spend(Spend(w)));
  }

  lemma CreateLater(w: World, job: Job, s: DriverSnapshot, d: Draw)
    ensures var m := CreateVolumeSnapshot(w, job, s, d);
            && Later(w, m.world)
            && (m.failed && m.world.objects != w.objects ==> Left(m.world) < Left(w))
  {
    hide ReuseVolumeSnapshot, CreatePair, NoRefuse, FaultsLeft;
    var k := SnapshotKey(job.vg.ns, job.NameOf(s));
    var g := Get(w, k);
    SpendLater(w);
    PairLater(g.world, job, s, d);
    if k in w.objects {
      assert KeyOf(w.objects[k]) == k && job.NameOf(s) != "";
      ReuseLater(g.world, job, w.objects[k].snapshot, s, d);
      ReuseEffect(g.world, job, w.objects[k].snapshot, s, d);
    }
  }

  lemma StepLater(p: Progress, job: Job, i: nat)
    requires i < |job.snapshots|
    ensures Later(p.world, MemberStep(p, job, i).world)
  {
    hide CreateVolumeSnapshot, UpdateVolumeSnapshotContentStatus, NoRefuse, FaultsLeft;
    var s := job.snapshots[i];
    var made := CreateVolumeSnapshot(p.world, job, s, job.draws(i));
    CreateLater(p.world, job, s, job.draws(i));
    RefreshLater(made.world, made.contentName, made.update, s);
  }

  lemma {:induction false} HandledLater(w: World, job: Job, n: nat)
    requires n <= |job.snapshots|
    ensures Later(w, Handled(w, job, n).world)
  {
    hide Handled, MemberStep, NoRefuse, FaultsLeft;
    HandledUnfolds(w, job, n);
    if n > 0 {
      HandledLater(w, job, n - 1);
      StepLater(Handled(w, job, n - 1), job, n - 1);
    }
  }

  // A member's snapshot is made by that member's step or not at all.
  lemma {:induction false} OthersKeepSnapshot(w: World, job: Job, i: nat, m: nat, n: nat)
    requires i < |job.snapshots| && m <= n <= |job.snapshots| && !(m <= i < n) && DistinctNames(job)
    ensures job.SnapKey(i) in After(w, job, m) <==> job.SnapKey(i) in After(w, job, n)
  {
    hide Handled, MemberStep;
    HandledUnfolds(w, job, n);
    if m < n {
      OthersKeepSnapshot(w, job, i, m, n - 1);
      var e := MemberEffect(Handled(w, job, n - 1), job, n - 1);
      assert job.Name(n - 1) != job.Name(i);
    }
  }

  /* ---- Disturbed passes ---- */

  // The read of a snapshot with a stale content is refused, and a new content is made beside it.
  ghost predicate HarmfulRead(w: World, job: Job, i: nat)
    requires i < |job.snapshots|
  {
    && job.SnapKey(i) in w.objects && !UpToDate(w.objects, job, i)
    && w.script != [] && w.script[0].Refuse? && Passes(Spend(w))
    && ContentKey(ContentName(job.draws(i))) !in w.objects
  }

  ghost predicate NoHarmfulRead(w: World, job: Job, n: nat)
    requires n <= |job.snapshots|
  {
    forall i: nat | i < n :: !HarmfulRead(Handled(w, job, i).world, job, i)
  }

  lemma StepUnderway(o0: Objects, p: Progress, job: Job, i: nat) returns (e: Effect)
    requires i < |job.snapshots| && Coherent(job) && Underway(o0, job, p.world.objects) && !HarmfulRead(p.world, job, i)
    ensures Allowed(p.world.objects, e, job, i) && MemberStep(p, job, i).world.objects == Apply(p.world.objects, e)
    ensures NoStray(p.world.objects, e, job, i)
    ensures Underway(o0, job, MemberStep(p, job, i).world.objects)
    ensures AllUntangled(p.world.objects, job) ==> AllUntangled(MemberStep(p, job, i).world.objects, job)
  {
    hide MemberStep, Allowed, Apply, MemberReady, Kept, Added, UpToDate, Coherent, Untangled;
    e := MemberEffect(p, job, i);
    EffectKeepsUnderway(o0, p.world.objects, e, job, i);
    if AllUntangled(p.world.objects, job) { EffectKeepsUntangled(p.world.objects, e, job, i); }
  }

  // Whatever else fails and wherever it stops, a pass leaves the store underway.
  lemma {:induction false} DisturbedPass(o0: Objects, w: World, job: Job, n: nat)
    requires n <= |job.snapshots| && Coherent(job) && Underway(o0, job, w.objects) && NoHarmfulRead(w, job, n)
    ensures Underway(o0, job, After(w, job, n))
    ensures AllUntangled(w.objects, job) ==> AllUntangled(After(w, job, n), job)
  {
    hide Handled, MemberStep, Underway, HarmfulRead, Untangled, Coherent;
    HandledUnfolds(w, job, n);
    if n > 0 {
      DisturbedPass(o0, w, job, n - 1);
      var e := StepUnderway(o0, Handled(w, job, n - 1), job, n - 1);
    }
  }

  // The store after a harmful read, or a refused creation of the snapshot.
  function WithOrphan(o: Objects, job: Job, i: nat): Objects
    requires i < |job.snapshots|
  {
    Apply(o, Orphaned(MakeVolSnapContent(ContentName(job.draws(i)), job.vg.ns, job.Name(i), job.snapshots[i], job.class_)))
  }

  lemma HarmfulReadOrphans(p: Progress, job: Job, i: nat)
    requires i < |job.snapshots| && HarmfulRead(p.world, job, i)
    ensures MemberStep(p, job, i).world.objects == WithOrphan(p.world.objects, job, i)
  {
    var s, d := job.snapshots[i], job.draws(i);
    var m := CreatePair(Spend(p.world), job, s, d);
    assert m.world.objects == WithOrphan(p.world.objects, job, i) && !m.update;
    hide CreatePair;
  }

  lemma HarmfulStep(p: Progress, job: Job, i: nat)
    requires i < |job.snapshots| && HarmfulRead(p.world, job, i) && MemberReady(p.world.objects, job, i)
    ensures !MemberReady(MemberStep(p, job, i).world.objects, job, i)
  {
    hide MemberStep;
    HarmfulReadOrphans(p, job, i);
    var o, o', ck := p.world.objects, WithOrphan(p.world.objects, job, i), ContentKey(ContentName(job.draws(i)));
    assert NamedContent(o', job, i) == NamedContent(o, job, i) != ck;
    assert Refers(o', ck, job, i);
  }

  lemma {:induction false} HarmLasts(w: World, job: Job, i: nat, n: nat)
    requires i < n <= |job.snapshots| && DistinctNames(job)
    requires HarmfulRead(Handled(w, job, i).world, job, i) && MemberReady(After(w, job, i), job, i)
    ensures !MemberReady(After(w, job, n), job, i)
  {
    hide Handled, MemberStep, MemberReady, HarmfulRead, Allowed, Apply, MemberDone, AllCarry, OnlyNamed;
    HandledUnfolds(w, job, n);
    var p := Handled(w, job, n - 1);
    if i == n - 1 {
      HarmfulStep(p, job, i);
    } else {
      HarmLasts(w, job, i, n - 1);
      var e := MemberEffect(p, job, n - 1);
      OtherMemberReady(p.world.objects, e, job, i, n - 1);
    }
  }

  // Nothing weaker will do: the store is still one to go on from exactly if no read was harmful.
  lemma UnderwayIffUnharmed(o0: Objects, w: World, job: Job, n: nat)
    requires n <= |job.snapshots| && Coherent(job) && Underway(o0, job, w.objects)
    ensures Underway(o0, job, After(w, job, n)) <==> NoHarmfulRead(w, job, n)
  {
    hide Handled, MemberStep, MemberReady, HarmfulRead, Kept, Added;
    if NoHarmfulRead(w, job, n) {
      DisturbedPass(o0, w, job, n);
    } else {
      var i := FirstHarm(w, job, n);
      DisturbedPass(o0, w, job, i);
      HarmLasts(w, job, i, n);
    }
  }

  lemma {:induction false} FirstHarm(w: World, job: Job, n: nat) returns (i: nat)
    requires n <= |job.snapshots| && !NoHarmfulRead(w, job, n)
    ensures i < n && NoHarmfulRead(w, job, i) && HarmfulRead(Handled(w, job, i).world, job, i)
  {
    hide Handled, HarmfulRead;
    if NoHarmfulRead(w, job, n - 1) { i := n - 1; } else { i := FirstHarm(w, job, n - 1); }
  }

  /* ---- Faults that do no harm ---- */

  // Stops never do.
  lemma StopsDoNoHarm(w: World, job: Job, n: nat)
    requires n <= |job.snapshots| && NoRefuse(w.script)
    ensures NoHarmfulRead(w, job, n)
  {
    hide Handled, FaultsLeft;
    forall i: nat | i < n ensures !HarmfulRead(Handled(w, job, i).world, job, i) {
      HandledLater(w, job, i);
    }
  }

  // No snapshot has a stale content.
  ghost predicate NoneStale(o: Objects, job: Job) {
    forall i: nat | i < |job.snapshots| && job.SnapKey(i) in o :: UpToDate(o, job, i)
  }

  lemma EffectKeepsNoneStale(o: Objects, e: Effect, job: Job, j: nat)
    requires j < |job.snapshots| && Coherent(job) && Allowed(o, e, job, j) && AllReady(o, job) && NoneStale(o, job)
    ensures NoneStale(Apply(o, e), job)
  {
    hide MemberReady, UpToDate, AllCarry, OnlyNamed;
    forall i: nat | i < |job.snapshots| && job.SnapKey(i) in Apply(o, e) ensures UpToDate(Apply(o, e), job, i) {
      assert MemberReady(o, job, j);
      if i == j { SameMemberReady(o, e, job, j); } else { OtherMemberReady(o, e, job, i, j); }
    }
  }

  // Where none has, no fault does any harm.
  lemma {:induction false} NoneStaleNoHarm(w: World, job: Job, n: nat)
    requires n <= |job.snapshots| && Coherent(job) && AllReady(w.objects, job) && NoneStale(w.objects, job)
    ensures NoHarmfulRead(w, job, n) && AllReady(After(w, job, n), job) && NoneStale(After(w, job, n), job)
  {
    hide Handled, MemberStep, MemberReady, Allowed, Apply, UpToDate, Coherent;
    HandledUnfolds(w, job, n);
    if n > 0 {
      var p := Handled(w, job, n - 1);
      NoneStaleNoHarm(w, job, n - 1);
      var e := MemberEffect(p, job, n - 1);
      EffectKeepsReady(p.world.objects, e, job, n - 1);
      EffectKeepsNoneStale(p.world.objects, e, job, n - 1);
    }
  }

  /* ---- Orphans ---- */

  ghost predicate NamedByMember(o: Objects, job: Job, k: Key) {
    exists i: nat | i < |job.snapshots| :: job.SnapKey(i) in o && NamedContent(o, job, i) == k
  }

  // Contents that were not there before and that no member's snapshot names.
  ghost function Orphans(o0: Objects, job: Job, o: Objects): set<Key> {
    set k | k in o && k !in o0 && k.kind == ContentKind && !NamedByMember(o, job, k)
  }

  lemma EffectOrphans(o0: Objects, o: Objects, e: Effect, job: Job, j: nat)
    requires j < |job.snapshots| && DistinctNames(job) && Allowed(o, e, job, j)
    ensures Orphans(o0, job, Apply(o, e)) <= Orphans(o0, job, o) + (if e.Orphaned? then {ContentKey(e.content.name)} else {})
  {
    var o' := Apply(o, e);
    if e.Paired? { assert job.SnapKey(j) in o' && NamedContent(o', job, j) == ContentKey(e.content.name); }
    var more := if e.Orphaned? then {ContentKey(e.content.name)} else {};
    forall k | k in o' && k.kind == ContentKind && k !in more && !NamedByMember(o', job, k)
      ensures k in o && !NamedByMember(o, job, k)
    {
      forall i: nat | i < |job.snapshots| && job.SnapKey(i) in o ensures NamedContent(o, job, i) != k {
        assert job.SnapKey(i) in o' && NamedContent(o', job, i) == NamedContent(o, job, i);
      }
    }
  }

  lemma StepOrphans(o0: Objects, p: Progress, job: Job, i: nat)
    requires i < |job.snapshots| && DistinctNames(job)
    ensures var q := MemberStep(p, job, i);
            |Orphans(o0, job, q.world.objects)| + Left(q.world) <= |Orphans(o0, job, p.world.objects)| + Left(p.world)
  {
    hide MemberStep, Allowed, Apply, Orphans, FaultsLeft, NoRefuse, CreateVolumeSnapshot;
    var o := p.world.objects;
    var e := MemberEffect(p, job, i);
    EffectOrphans(o0, o, e, job, i);
    StepLater(p, job, i);
    if e.Orphaned? { OrphanCosts(p, job, i); }
    var s := if e.Orphaned? then {ContentKey(e.content.name)} else {};
    SubsetSize(Orphans(o0, job, Apply(o, e)), Orphans(o0, job, o) + s);
  }

  lemma SubsetSize<T>(a: set<T>, b: set<T>)
    requires a <= b
    ensures |a| <= |b|
  {
    if a != b { assert |b - a| + |a| == |b| by { assert (b - a) + a == b; } }
  }

  lemma OrphanCosts(p: Progress, job: Job, i: nat)
    requires i < |job.snapshots|
    requires var made := CreateVolumeSnapshot(p.world, job, job.snapshots[i], job.draws(i));
             made.failed && made.world.objects != p.world.objects
    ensures Left(MemberStep(p, job, i).world) < Left(p.world)
  {
    hide CreateVolumeSnapshot, UpdateVolumeSnapshotContentStatus, FaultsLeft, NoRefuse;
    var s := job.snapshots[i];
    var made := CreateVolumeSnapshot(p.world, job, s, job.draws(i));
    CreateLater(p.world, job, s, job.draws(i));
    RefreshLater(made.world, made.contentName, made.update, s);
  }

  lemma {:induction false} PassOrphans(o0: Objects, w: World, job: Job, n: nat)
    requires n <= |job.snapshots| && DistinctNames(job)
    ensures var q := Handled(w, job, n).world;
            |Orphans(o0, job, q.objects)| + Left(q) <= |Orphans(o0, job, w.objects)| + Left(w)
  {
    hide Handled, MemberStep, Orphans, FaultsLeft;
    HandledUnfolds(w, job, n);
    if n > 0 {
      PassOrphans(o0, w, job, n - 1);
      StepOrphans(o0, Handled(w, job, n - 1), job, n - 1);
    }
  }

  lemma {:induction false} StopsOnlyLeaveOne(script: seq<Fault>, halted: bool)
    requires NoRefuse(script)
    ensures FaultsLeft(script, halted) <= 1
  {
    if !halted && script != [] && !script[0].Stop? { StopsOnlyLeaveOne(script[1..], false); }
  }

  /* ---- Undisturbed passes ---- */

  // The choices of the coming members suit the store: new names, and listings that show
  // the contents of the snapshots that exist.
  ghost predicate GoodDraw(o: Objects, job: Job, i: nat)
    requires i < |job.snapshots|
  {
    && ContentKey(ContentName(job.draws(i))) !in o
    && (job.SnapKey(i) in o ==> NamedContent(o, job, i) in job.draws(i).order)
  }

  ghost predicate GoodDraws(o: Objects, job: Job, i: nat) {
    && (forall j: nat | i <= j < |job.snapshots| :: GoodDraw(o, job, j))
    && (forall j: nat, k: nat | i <= j < k < |job.snapshots| :: ContentName(job.draws(j)) != ContentName(job.draws(k)))
  }

  // The matching content that a listing shows first.
  lemma ListedReuse(w: World, job: Job, i: nat) returns (vc: SnapshotContent)
    requires i < |job.snapshots| && Steady(w)
    requires MemberReady(w.objects, job, i) && StatusFits(w.objects, job, i) && job.SnapKey(i) in w.objects
    requires NamedContent(w.objects, job, i) in job.draws(i).order
    ensures Refers(w.objects, ContentKey(vc.name), job, i) && w.objects[ContentKey(vc.name)] == ContentObject(vc)
    ensures var vs, s := w.objects[job.SnapKey(i)].snapshot, job.snapshots[i];
            ReuseVolumeSnapshot(w, job, vs, s, job.draws(i)) == Made(w, vc.handle != Some(s.snapId), vc.name, false)
  {
    var o, vs, s, d := w.objects, w.objects[job.SnapKey(i)].snapshot, job.snapshots[i], job.draws(i);
    var named := NamedContent(o, job, i);
    assert KeyOf(o[job.SnapKey(i)]) == job.SnapKey(i);
    assert Refers(o, named, job, i);
    var items := Listed(o, d.order, |d.order|, IsContent);
    ListedMembers(o, d.order, |d.order|, IsContent);
    assert d.order[..|d.order|] == d.order && o[named] in items;
    FindIsListed(items, vs.ns, vs.name);
    vc := Find(items, vs.ns, vs.name).value;
    assert ContentObject(vc) in items;
    assert CheckExistingVolSnapshot(w, vs, job.vg.spec.className) == Checked(w, false);
    assert Refers(o, ContentKey(vc.name), job, i);
  }

  lemma QuietReuse(p: Progress, job: Job, i: nat)
    requires i < |job.snapshots| && Steady(p.world)
    requires MemberReady(p.world.objects, job, i) && StatusFits(p.world.objects, job, i) && job.SnapKey(i) in p.world.objects
    requires GoodDraw(p.world.objects, job, i)
    ensures var q, o := MemberStep(p, job, i), p.world.objects;
            && q.errors == p.errors
            && MemberDone(q.world.objects, job, i)
            && q.world == p.world.(objects := q.world.objects)
            && (AllCarry(o, job, i) ==> q.world.objects == o)
  {
    hide ReuseVolumeSnapshot;
    var o, s, sk := p.world.objects, job.snapshots[i], job.SnapKey(i);
    assert KeyOf(o[sk]) == sk && job.NameOf(s) != "";
    var vc := ListedReuse(p.world, job, i);
    assert CreateVolumeSnapshot(p.world, job, s, job.draws(i)) == Made(p.world, vc.handle != Some(s.snapId), vc.name, false);
    if vc.handle != Some(s.snapId) {
      var o' := o[ContentKey(vc.name) := ContentObject(Refreshed(vc, s))];
      assert MemberStep(p, job, i).world.objects == o';
      assert Refers(o, ContentKey(vc.name), job, i);
      assert NamedContent(o', job, i) == NamedContent(o, job, i);
    } else {
      assert OnlyNamed(o, job, i) ==> ContentKey(vc.name) == NamedContent(o, job, i);
    }
  }

  lemma QuietCreate(p: Progress, job: Job, i: nat)
    requires i < |job.snapshots| && Steady(p.world)
    requires job.SnapKey(i) !in p.world.objects && ContentKey(ContentName(job.draws(i))) !in p.world.objects
    ensures var q, o := MemberStep(p, job, i), p.world.objects;
            var c := MakeVolSnapContent(ContentName(job.draws(i)), job.vg.ns, job.Name(i), job.snapshots[i], job.class_);
            && q.errors == p.errors
            && q.world == p.world.(objects := Apply(o, Paired(c, MakeVolSnap(job.vg, job.Name(i), c.name))))
  {
    var o, s, d := p.world.objects, job.snapshots[i], job.draws(i);
    var c := MakeVolSnapContent(ContentName(d), job.vg.ns, job.Name(i), s, job.class_);
    var o' := Apply(o, Paired(c, MakeVolSnap(job.vg, job.Name(i), c.name)));
    assert CreatePair(p.world, job, s, d) == Made(p.world.(objects := o'), false, c.name, false);
  }
}
