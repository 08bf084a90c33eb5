/** Running the answer once more over a store where it is finished: when that changes nothing,
    and what an orphan with another handle makes of it. */
module Rerun {
  import opened Kube
  import opened Api
  import opened Members
  import opened Frames
  import opened Isolation
  import opened Resumption
  import opened PassRuns
  import opened Resume

  lemma FinishedIsSettled(o0: Objects, job: Job, o: Objects)
    requires Finished(o0, job, o)
    ensures AllUntangled(o, job) <==> Settled(o, job)
  {
    hide Untangled, MemberDone, MemberReady, AllCarry, Kept, Added;
    forall i: nat | i < |job.snapshots| ensures Untangled(o, job, i) <==> job.SnapKey(i) in o && AllCarry(o, job, i) {
      assert MemberDone(o, job, i);
      DoneAndUntangled(o, job, i);
      DoneIsThere(o, job, i);
    }
  }

  lemma DoneIsThere(o: Objects, job: Job, i: nat)
    requires i < |job.snapshots| && MemberDone(o, job, i)
    ensures job.SnapKey(i) in o
  {
  }

  // After a finished pass another one creates and changes nothing, unless an orphan has
  // another handle.
  lemma RerunChangesNothing(o0: Objects, w: World, job: Job)
    requires Coherent(job) && Steady(w) && Finished(o0, job, w.objects) && AllUntangled(w.objects, job)
    requires AllFit(w.objects, job) && GoodDraws(w.objects, job, 0)
    ensures After(w, job, |job.snapshots|) == w.objects
  {
    hide Handled, Underway, AllFit, GoodDraws, Coherent, MemberDone, AllUntangled, Settled;
    FinishedIsSettled(o0, job, w.objects);
    QuietPass(o0, w, job, |job.snapshots|);
  }

  /* ---- A rerun that lists such an orphan first ---- */

  lemma {:induction false} ListedHead(o: Objects, order: seq<Key>, i: nat, wanted: Object -> bool)
    requires 1 <= i <= |order| && order[0] in o && wanted(o[order[0]])
    ensures |Listed(o, order, i, wanted)| >= 1 && Listed(o, order, i, wanted)[0] == o[order[0]]
  {
    if i == 1 {
      assert Listed(o, order, 0, wanted) == [];
    } else {
      ListedHead(o, order, i - 1, wanted);
    }
  }

  // The contents for one member are not touched while the others are handled.
  lemma {:induction false} OthersLeaveIt(w: World, job: Job, i: nat, k: Key, m: nat, n: nat)
    requires i < |job.snapshots| && m <= n <= |job.snapshots| && !(m <= i < n) && DistinctNames(job)
    requires Refers(After(w, job, m), k, job, i)
    ensures Refers(After(w, job, n), k, job, i) && After(w, job, n)[k] == After(w, job, m)[k]
  {
    hide Handled, MemberStep;
    HandledUnfolds(w, job, n);
    if m < n {
      OthersLeaveIt(w, job, i, k, m, n - 1);
      var e := MemberEffect(Handled(w, job, n - 1), job, n - 1);
      assert job.Name(n - 1) != job.Name(i);
    }
  }

  lemma FirstIsTaken(p: Progress, job: Job, i: nat, k: Key)
    requires i < |job.snapshots| && Steady(p.world)
    requires MemberReady(p.world.objects, job, i) && StatusFits(p.world.objects, job, i)
    requires job.SnapKey(i) in p.world.objects && GoodDraw(p.world.objects, job, i)
    requires Refers(p.world.objects, k, job, i) && p.world.objects[k].content.handle != Some(job.snapshots[i].snapId)
    requires job.draws(i).order != [] && job.draws(i).order[0] == k
    ensures var o' := MemberStep(p, job, i).world.objects;
            Refers(o', k, job, i) && o'[k].content.handle == Some(job.snapshots[i].snapId)
  {
    hide ReuseVolumeSnapshot, Listed;
    var o, s, sk, d := p.world.objects, job.snapshots[i], job.SnapKey(i), job.draws(i);
    assert KeyOf(o[sk]) == sk && KeyOf(o[k]) == k && job.NameOf(s) != "";
    ListedHead(o, d.order, |d.order|, IsContent);
    var vs, vc := o[sk].snapshot, o[k].content;
    ReuseTakes(p.world, job, vs, s, d, vc);
    assert CreateVolumeSnapshot(p.world, job, s, d) == Made(p.world, true, vc.name, false);
  }

  lemma ReuseTakes(w: World, job: Job, vs: VolumeSnapshot, s: DriverSnapshot, d: Draw, vc: SnapshotContent)
    requires Steady(w) && vs.contentName.Some? && ContentKey(vs.contentName.value) in w.objects
    requires w.objects[ContentKey(vs.contentName.value)].content.handle.Some?
    requires !SnapshotHasNil(vs) && !NotReusable(vs, job.vg.spec.className)
    requires var l := Listed(w.objects, d.order, |d.order|, IsContent); |l| >= 1 && l[0] == ContentObject(vc)
    requires RefersTo(vc, vs.ns, vs.name) && vc.handle.Some? && vc.className == vs.className && vc.driver == job.vg.spec.driverName
    ensures ReuseVolumeSnapshot(w, job, vs, s, d) == Made(w, vc.handle != Some(s.snapId), vc.name, false)
  {
    hide Listed;
    assert CheckExistingVolSnapshot(w, vs, job.vg.spec.className) == Checked(w, false);
    assert Find(Listed(w.objects, d.order, |d.order|, IsContent), vs.ns, vs.name) == Some(vc);
  }

  // It gives that orphan the member's handle.
  lemma RerunRefreshes(o0: Objects, w: World, job: Job, i: nat, k: Key)
    requires Coherent(job) && Steady(w) && Finished(o0, job, w.objects) && AllFit(w.objects, job) && GoodDraws(w.objects, job, 0)
    requires i < |job.snapshots|
    requires Refers(w.objects, k, job, i) && w.objects[k].content.handle != Some(job.snapshots[i].snapId)
    requires job.draws(i).order != [] && job.draws(i).order[0] == k
    ensures var o' := After(w, job, |job.snapshots|);
            k in o' && o'[k].ContentObject? && o'[k].content.handle == Some(job.snapshots[i].snapId)
  {
    hide Handled, MemberStep, Kept, Added, MemberReady, StatusFits, Coherent, GoodDraw;
    assert DistinctNames(job) by { CoherentIsDistinct(job); }
    var p := Handled(w, job, i);
    QuietPass(o0, w, job, i);
    HandledUnfolds(w, job, 0);
    OthersLeaveIt(w, job, i, k, 0, i);
    assert MemberReady(p.world.objects, job, i) && StatusFits(p.world.objects, job, i) && GoodDraw(p.world.objects, job, i);
    assert MemberDone(w.objects, job, i);
    OthersKeepSnapshot(w, job, i, 0, i);
    FirstIsTaken(p, job, i, k);
    HandledUnfolds(w, job, i + 1);
    OthersLeaveIt(w, job, i, k, i + 1, |job.snapshots|);
  }

  // The rerun of `job` with the choices `draws`.
  ghost predicate Idle(w: World, job: Job, draws: nat -> Draw) {
    After(w, job.(draws := draws), |job.(draws := draws).snapshots|) == w.objects
  }

  // So a rerun is idle, whatever the runtime chooses, exactly if no such orphan is left.
  lemma RerunIdleIff(o0: Objects, w: World, job: Job)
    requires Coherent(job) && Steady(w) && Finished(o0, job, w.objects) && AllFit(w.objects, job) && GoodDraws(w.objects, job, 0)
    ensures (forall draws | GoodDraws(w.objects, job.(draws := draws), 0) :: Idle(w, job, draws)) <==> AllUntangled(w.objects, job)
  {
    hide Handled, Underway, AllFit, GoodDraws, Coherent, MemberDone, AllUntangled, SameTask;
    if AllUntangled(w.objects, job) {
      forall draws | GoodDraws(w.objects, job.(draws := draws), 0) ensures Idle(w, job, draws) {
        RedrawnTask(job, draws);
        TaskIsUnderway(o0, job, job.(draws := draws), w.objects);
        TaskFits(job, job.(draws := draws), w.objects);
        RerunChangesNothing(o0, w, job.(draws := draws));
      }
    } else {
      var draws := TroubledRerun(o0, w, job);
    }
  }

  lemma TroubledRerun(o0: Objects, w: World, job: Job) returns (draws: nat -> Draw)
    requires Coherent(job) && Steady(w) && Finished(o0, job, w.objects) && AllFit(w.objects, job) && GoodDraws(w.objects, job, 0)
    requires !AllUntangled(w.objects, job)
    ensures GoodDraws(w.objects, job.(draws := draws), 0) && !Idle(w, job, draws)
  {
    hide Handled, Underway, AllFit, Coherent, SameTask, MemberReady;
    var i: nat :| i < |job.snapshots| && !Untangled(w.objects, job, i);
    var k :| Refers(w.objects, k, job, i) && w.objects[k].content.handle != Some(job.snapshots[i].snapId);
    var d := job.draws(i);
    draws := (j: nat) => if j == i then Draw(d.uuid, [k] + d.order) else job.draws(j);
    var job' := job.(draws := draws);
    RedrawnTask(job, draws);
    TaskIsUnderway(o0, job, job', w.objects);
    TaskFits(job, job', w.objects);
    DrawsStayGood(w.objects, job, job');
    assert job'.Name(i) == job.Name(i);
    RerunRefreshes(o0, w, job', i, k);
  }

  lemma RedrawnTask(job: Job, draws: nat -> Draw)
    ensures SameTask(job, job.(draws := draws))
  {
  }

  lemma DrawsStayGood(o: Objects, a: Job, b: Job)
    requires SameTask(a, b) && GoodDraws(o, a, 0)
    requires forall j: nat | j < |a.snapshots| :: b.draws(j).uuid == a.draws(j).uuid && forall x | x in a.draws(j).order :: x in b.draws(j).order
    ensures GoodDraws(o, b, 0)
  {
    forall j: nat | j < |b.snapshots| ensures GoodDraw(o, b, j) {
      assert GoodDraw(o, a, j) && a.Name(j) == b.Name(j);
      assert NamedContent(o, a, j) == NamedContent(o, b, j);
    }
  }

  // A start with such an orphan: the pass that makes the snapshot, or finds its own content
  // first, leaves the orphan alone, and a rerun that lists it first does not.  So resuming and
  // one undisturbed pass then need not agree on old contents.
  lemma StaleOrphanIsTaken(alone: World, again: World, job: Job, i: nat, k: Key, draws: nat -> Draw)
    requires Coherent(job) && Steady(alone) && AllReady(alone.objects, job) && AllFit(alone.objects, job) && GoodDraws(alone.objects, job, 0)
    requires i < |job.snapshots| && !Untangled(alone.objects, job, i)
    requires Refers(alone.objects, k, job, i) && alone.objects[k].content.handle != Some(job.snapshots[i].snapId)
    requires OwnContentFirst(alone.objects, job, i)
    requires Steady(again) && SameButStatuses(After(alone, job, |job.snapshots|), again.objects) && AllFit(again.objects, job)
    requires GoodDraws(again.objects, job.(draws := draws), 0) && draws(i).order != [] && draws(i).order[0] == k
    ensures var once, twice := After(alone, job, |job.snapshots|), After(again, job.(draws := draws), |job.(draws := draws).snapshots|);
            && k in once && once[k] == alone.objects[k]
            && k in twice && twice[k] != alone.objects[k]
            && !SameOld(alone.objects, twice, once)
  {
    hide Handled, AllReady, AllFit, Underway, GoodDraws, Coherent, SameTask, MemberDone;
    var job', once := job.(draws := draws), After(alone, job, |job.snapshots|);
    assert DistinctNames(job) by { CoherentIsDistinct(job); }
    assert KeyOf(alone.objects[k]) == k && IsMemberKey(k);
    UndisturbedFinishes(alone, job);
    LeftBeside(alone, job, i, k);
    RestatedUnderway(alone.objects, job, once, again.objects);
    assert again.objects[k] == once[k] by { RestatedContent(once, again.objects, k); }
    RedrawnTask(job, draws);
    TaskIsUnderway(alone.objects, job, job', again.objects);
    TaskFits(job, job', again.objects);
    assert job'.Name(i) == job.Name(i);
    RerunRefreshes(alone.objects, again, job', i, k);
  }

  lemma RestatedContent(o: Objects, o': Objects, k: Key)
    requires SameButStatuses(o, o') && k in o && k.kind == ContentKind
    ensures k in o' && o'[k] == o[k]
  {
    assert KeyOf(o[k]) == k;
    assert KeyOf(o'[k]) == k;
  }

  // A snapshot that exists finds its own content first.
  ghost predicate OwnContentFirst(o: Objects, job: Job, i: nat)
    requires i < |job.snapshots|
  {
    job.SnapKey(i) in o ==> job.draws(i).order != [] && job.draws(i).order[0] == NamedContent(o, job, i)
  }

  lemma LeftByStep(p: Progress, job: Job, i: nat, k: Key)
    requires i < |job.snapshots| && Steady(p.world)
    requires MemberReady(p.world.objects, job, i) && StatusFits(p.world.objects, job, i)
    requires GoodDraw(p.world.objects, job, i) && OwnContentFirst(p.world.objects, job, i)
    requires Refers(p.world.objects, k, job, i) && !Untangled(p.world.objects, job, i)
    ensures Refers(MemberStep(p, job, i).world.objects, k, job, i) && MemberStep(p, job, i).world.objects[k] == p.world.objects[k]
  {
    hide MemberStep, ReuseVolumeSnapshot, Listed;
    var o := p.world.objects;
    if job.SnapKey(i) in o {
      assert UpToDate(o, job, i);
      OwnIsTaken(p, job, i);
    } else {
      QuietCreate(p, job, i);
    }
  }

  lemma OwnIsTaken(p: Progress, job: Job, i: nat)
    requires i < |job.snapshots| && Steady(p.world)
    requires MemberReady(p.world.objects, job, i) && StatusFits(p.world.objects, job, i) && UpToDate(p.world.objects, job, i)
    requires job.SnapKey(i) in p.world.objects && OwnContentFirst(p.world.objects, job, i)
    ensures MemberStep(p, job, i).world == p.world
  {
    hide ReuseVolumeSnapshot, Listed;
    var o, s, sk, d := p.world.objects, job.snapshots[i], job.SnapKey(i), job.draws(i);
    var k := NamedContent(o, job, i);
    assert KeyOf(o[sk]) == sk && KeyOf(o[k]) == k && job.NameOf(s) != "";
    ListedHead(o, d.order, |d.order|, IsContent);
    ReuseTakes(p.world, job, o[sk].snapshot, s, d, o[k].content);
    assert CreateVolumeSnapshot(p.world, job, s, d) == Made(p.world, false, o[k].content.name, false);
  }

  lemma LeftBeside(w: World, job: Job, i: nat, k: Key)
    requires Coherent(job) && Steady(w) && AllReady(w.objects, job) && AllFit(w.objects, job) && GoodDraws(w.objects, job, 0)
    requires i < |job.snapshots| && !Untangled(w.objects, job, i) && Refers(w.objects, k, job, i) && OwnContentFirst(w.objects, job, i)
    ensures Refers(After(w, job, |job.snapshots|), k, job, i) && After(w, job, |job.snapshots|)[k] == w.objects[k]
  {
    hide Handled, MemberStep, AllReady, StatusFits, Kept, Added, Coherent, GoodDraw, MemberReady, Untangled, OwnContentFirst;
    assert DistinctNames(job) by { CoherentIsDistinct(job); }
    assert Underway(w.objects, job, w.objects) by { StartIsUnderway(w.objects, job); }
    var p := Handled(w, job, i);
    QuietPass(w.objects, w, job, i);
    HandledUnfolds(w, job, 0);
    OthersLeaveIt(w, job, i, k, 0, i);
    OthersLeaveMember(w, job, i, i);
    assert GoodDraw(p.world.objects, job, i) && StatusFits(p.world.objects, job, i);
    assert MemberReady(p.world.objects, job, i) by { ReadyMember(p.world.objects, job, i); }
    LeftByStep(p, job, i, k);
    HandledUnfolds(w, job, i + 1);
    OthersLeaveIt(w, job, i, k, i + 1, |job.snapshots|);
  }

  lemma ReadyMember(o: Objects, job: Job, i: nat)
    requires AllReady(o, job) && i < |job.snapshots|
    ensures MemberReady(o, job, i)
  {
  }

  lemma EffectLeavesMember(o: Objects, e: Effect, job: Job, i: nat, j: nat)
    requires i < |job.snapshots| && j < |job.snapshots| && job.Name(i) != job.Name(j) && Allowed(o, e, job, j)
    ensures Untangled(Apply(o, e), job, i) <==> Untangled(o, job, i)
    ensures OwnContentFirst(Apply(o, e), job, i) <==> OwnContentFirst(o, job, i)
  {
    hide MemberReady, MemberDone, AllCarry, OnlyNamed;
    OtherMemberReady(o, e, job, i, j);
    assert job.SnapKey(i) in o <==> job.SnapKey(i) in Apply(o, e);
    assert NamedContent(Apply(o, e), job, i) == NamedContent(o, job, i);
  }

  lemma {:induction false} OthersLeaveMember(w: World, job: Job, i: nat, n: nat)
    requires n <= i < |job.snapshots| && DistinctNames(job)
    ensures Untangled(After(w, job, n), job, i) <==> Untangled(w.objects, job, i)
    ensures OwnContentFirst(After(w, job, n), job, i) <==> OwnContentFirst(w.objects, job, i)
  {
    hide Handled, MemberStep, Allowed, Apply, Untangled, OwnContentFirst;
    HandledUnfolds(w, job, n);
    if n > 0 {
      OthersLeaveMember(w, job, i, n - 1);
      var e := MemberEffect(Handled(w, job, n - 1), job, n - 1);
      assert job.Name(n - 1) != job.Name(i);
      EffectLeavesMember(After(w, job, n - 1), e, job, i, n - 1);
    }
  }

  lemma RefusedCreateOrphans(p: Progress, job: Job, i: nat)
    requires i < |job.snapshots| && !p.world.halted && p.world.script == [Proceed, Proceed, Refuse]
    requires job.SnapKey(i) !in p.world.objects && ContentKey(ContentName(job.draws(i))) !in p.world.objects
    ensures MemberStep(p, job, i).world.objects == WithOrphan(p.world.objects, job, i)
  {
    var s, d := job.snapshots[i], job.draws(i);
    var w := Spend(p.world);
    assert Spend(w).script == [Refuse];
    assert CreatePair(w, job, s, d) == Made(Spend(Spend(w)).(objects := WithOrphan(w.objects, job, i)), false, "", true);
    hide CreatePair;
  }

  // The controller leaves such orphans itself: here the creation of the snapshot is refused, and
  // a later answer has another handle for the member.
  lemma RefusedCreateTangles(p: Progress, job: Job, later: Job, i: nat)
    requires i < |job.snapshots| && i < |later.snapshots| && later.vg.ns == job.vg.ns && later.Name(i) == job.Name(i)
    requires !p.world.halted && p.world.script == [Proceed, Proceed, Refuse]
    requires job.SnapKey(i) !in p.world.objects && ContentKey(ContentName(job.draws(i))) !in p.world.objects
    requires later.snapshots[i].snapId != job.snapshots[i].snapId
    requires Coherent(later) && later.vg.spec == job.vg.spec && later.class_ == job.class_ && MemberReady(p.world.objects, later, i)
    ensures var o' := MemberStep(p, job, i).world.objects;
            MemberReady(o', later, i) && later.SnapKey(i) !in o' && !Untangled(o', later, i)
  {
    hide MemberStep;
    RefusedCreateOrphans(p, job, i);
    var o, o', ck := p.world.objects, WithOrphan(p.world.objects, job, i), ContentKey(ContentName(job.draws(i)));
    assert Refers(o', ck, later, i);
    assert forall k | Refers(o', k, later, i) :: k == ck || Refers(o, k, later, i);
  }
}
