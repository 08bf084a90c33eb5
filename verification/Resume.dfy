/** Resuming: the main results about passes over the driver's answer. */
module Resume {
  import opened Kube
  import opened Api
  import opened Members
  import opened Isolation
  import opened Frames
  import opened Resumption
  import opened PassRuns

  /* ---- An undisturbed pass finishes the store ---- */

  lemma EffectKeepsGoodDraws(o: Objects, e: Effect, job: Job, i: nat)
    requires i < |job.snapshots| && DistinctNames(job) && Allowed(o, e, job, i) && GoodDraws(o, job, i)
    ensures GoodDraws(Apply(o, e), job, i + 1)
  {
    var o' := Apply(o, e);
    forall j: nat | i + 1 <= j < |job.snapshots| ensures GoodDraw(o', job, j) {
      assert GoodDraw(o, job, j) && job.Name(i) != job.Name(j);
      assert job.SnapKey(j) in o <==> job.SnapKey(j) in o';
      assert NamedContent(o', job, j) == NamedContent(o, job, j);
      assert ContentName(job.draws(i)) != ContentName(job.draws(j));
    }
  }

  ghost predicate DoneBefore(o: Objects, job: Job, i: nat)
    requires i <= |job.snapshots|
  {
    forall j: nat | j < i :: MemberDone(o, job, j)
  }

  lemma EffectKeepsDone(o: Objects, e: Effect, job: Job, i: nat)
    requires i < |job.snapshots| && Coherent(job) && Allowed(o, e, job, i) && AllReady(o, job) && DoneBefore(o, job, i)
    ensures DoneBefore(Apply(o, e), job, i)
  {
    hide MemberReady, MemberDone, Allowed, Apply;
    forall j: nat | j < i ensures MemberDone(Apply(o, e), job, j) {
      assert MemberReady(o, job, j) && MemberDone(o, job, j);
      OtherMemberReady(o, e, job, j, i);
    }
  }

  // Nothing is left to do, and no content with another handle is left to be found.
  ghost predicate Settled(o: Objects, job: Job) {
    forall i: nat | i < |job.snapshots| :: job.SnapKey(i) in o && AllCarry(o, job, i)
  }

  lemma MemberFinishes(p: Progress, job: Job, i: nat)
    requires i < |job.snapshots| && Coherent(job) && Steady(p.world)
    requires MemberReady(p.world.objects, job, i) && StatusFits(p.world.objects, job, i) && GoodDraw(p.world.objects, job, i)
    ensures var q, o := MemberStep(p, job, i), p.world.objects;
            && q.errors == p.errors && q.world == p.world.(objects := q.world.objects)
            && MemberDone(q.world.objects, job, i)
            && (job.SnapKey(i) in o && AllCarry(o, job, i) ==> q.world.objects == o)
  {
    hide MemberStep;
    var o := p.world.objects;
    if job.SnapKey(i) in o {
      QuietReuse(p, job, i);
    } else {
      QuietCreate(p, job, i);
      var c := MakeVolSnapContent(ContentName(job.draws(i)), job.vg.ns, job.Name(i), job.snapshots[i], job.class_);
      SameMemberReady(o, Paired(c, MakeVolSnap(job.vg, job.Name(i), c.name)), job, i);
    }
  }

  lemma QuietStep(o0: Objects, p: Progress, job: Job, i: nat)
    requires i < |job.snapshots| && Coherent(job) && Steady(p.world) && Underway(o0, job, p.world.objects)
    requires AllFit(p.world.objects, job) && GoodDraws(p.world.objects, job, i) && DoneBefore(p.world.objects, job, i)
    ensures var q, o := MemberStep(p, job, i), p.world.objects;
            && q.errors == p.errors && q.world == p.world.(objects := q.world.objects)
            && Underway(o0, job, q.world.objects) && AllFit(q.world.objects, job)
            && GoodDraws(q.world.objects, job, i + 1) && DoneBefore(q.world.objects, job, i + 1)
            && (Settled(o, job) ==> q.world.objects == o)
  {
    hide MemberStep, Allowed, Apply, MemberReady, MemberDone, StatusFits, Kept, Added, NoStray, UpToDate, AllCarry, Coherent, GoodDraw;
    assert MemberReady(p.world.objects, job, i) && StatusFits(p.world.objects, job, i) && GoodDraw(p.world.objects, job, i);
    MemberFinishes(p, job, i);
    var e := StepUnderway(o0, p, job, i);
    assert DistinctNames(job) by { CoherentIsDistinct(job); }
    EffectKeepsGoodDraws(p.world.objects, e, job, i);
    EffectKeepsDone(p.world.objects, e, job, i);
    EffectKeepsFit(p.world.objects, e, job, i);
  }

  lemma CoherentIsDistinct(job: Job)
    requires Coherent(job)
    ensures DistinctNames(job)
  {
  }

  lemma {:induction false} QuietPass(o0: Objects, w: World, job: Job, n: nat)
    requires n <= |job.snapshots| && Coherent(job) && Steady(w) && Underway(o0, job, w.objects)
    requires AllFit(w.objects, job) && GoodDraws(w.objects, job, 0)
    ensures var q := Handled(w, job, n);
            && q.errors == [] && q.world == w.(objects := q.world.objects)
            && Underway(o0, job, q.world.objects) && AllFit(q.world.objects, job)
            && GoodDraws(q.world.objects, job, n) && DoneBefore(q.world.objects, job, n)
            && (Settled(w.objects, job) ==> q.world.objects == w.objects)
  {
    hide Handled, MemberStep, Underway, AllFit, GoodDraws, Coherent, MemberDone, Settled;
    HandledUnfolds(w, job, n);
    if n > 0 {
      QuietPass(o0, w, job, n - 1);
      QuietStep(o0, Handled(w, job, n - 1), job, n - 1);
    }
  }

  /* ---- The results ---- */

  lemma PassFinishes(o0: Objects, w: World, job: Job)
    requires Coherent(job) && Steady(w) && Underway(o0, job, w.objects) && AllFit(w.objects, job) && GoodDraws(w.objects, job, 0)
    ensures Finished(o0, job, After(w, job, |job.snapshots|)) && AllFit(After(w, job, |job.snapshots|), job)
    ensures AllUntangled(w.objects, job) ==> AllUntangled(After(w, job, |job.snapshots|), job)
    ensures Handled(w, job, |job.snapshots|).errors == []
  {
    hide Handled, Underway, AllFit, GoodDraws, Coherent, MemberDone, NoHarmfulRead, AllUntangled;
    QuietPass(o0, w, job, |job.snapshots|);
    StopsDoNoHarm(w, job, |job.snapshots|);
    DisturbedPass(o0, w, job, |job.snapshots|);
  }

  // One undisturbed pass.
  lemma UndisturbedFinishes(w: World, job: Job)
    requires Coherent(job) && Steady(w) && AllReady(w.objects, job) && AllFit(w.objects, job) && GoodDraws(w.objects, job, 0)
    ensures Finished(w.objects, job, After(w, job, |job.snapshots|)) && AllFit(After(w, job, |job.snapshots|), job)
    ensures AllUntangled(w.objects, job) ==> AllUntangled(After(w, job, |job.snapshots|), job)
    ensures Handled(w, job, |job.snapshots|).errors == []
  {
    hide Handled, AllReady, AllFit, Underway, Finished, GoodDraws, Coherent, AllUntangled;
    StartIsUnderway(w.objects, job);
    PassFinishes(w.objects, w, job);
  }

  // The same work with other choices of the runtime, and whatever is stored of the group itself.
  ghost predicate SameTask(a: Job, b: Job) {
    && b == a.(vg := b.vg, draws := b.draws)
    && b.vg.ns == a.vg.ns && b.vg.name == a.vg.name && b.vg.spec == a.vg.spec
  }

  lemma TaskMember(a: Job, b: Job, o: Objects, i: nat)
    requires SameTask(a, b) && i < |a.snapshots|
    ensures MemberReady(o, a, i) ==> MemberReady(o, b, i)
    ensures MemberDone(o, a, i) ==> MemberDone(o, b, i)
    ensures Untangled(o, a, i) ==> Untangled(o, b, i)
  {
    assert a.Name(i) == b.Name(i) && NamedContent(o, a, i) == NamedContent(o, b, i);
    assert forall k :: Refers(o, k, a, i) <==> Refers(o, k, b, i);
  }

  lemma TaskChanges(a: Job, b: Job, o0: Objects, o: Objects)
    requires SameTask(a, b)
    ensures Kept(o0, a, o) ==> Kept(o0, b, o)
    ensures Added(o0, a, o) ==> Added(o0, b, o)
  {
    assert forall i: nat | i < |a.snapshots| :: a.Name(i) == b.Name(i);
    if Kept(o0, a, o) {
      forall k | k in o0 && IsMemberKey(k)
        ensures k in o && (Unstated(o[k]) == Unstated(o0[k]) || exists i: nat | i < |b.snapshots| :: IsRefresh(o0[k], o[k], b, i))
      {
        if Unstated(o[k]) != Unstated(o0[k]) {
          var i: nat :| i < |a.snapshots| && IsRefresh(o0[k], o[k], a, i);
          assert IsRefresh(o0[k], o[k], b, i);
        }
      }
    }
    if Added(o0, a, o) {
      forall k | k in o && k !in o0 && IsMemberKey(k) ensures exists i: nat | i < |b.snapshots| :: IsNew(o, k, b, i) {
        var i: nat :| i < |a.snapshots| && IsNew(o, k, a, i);
        assert IsNew(o, k, b, i);
      }
    }
  }

  lemma TaskReady(a: Job, b: Job, o: Objects)
    requires SameTask(a, b) && AllReady(o, a)
    ensures AllReady(o, b)
  {
    hide Kept, Added, MemberReady, SameTask;
    StartIsUnderway(o, a);
    TaskIsUnderway(o, a, b, o);
  }

  lemma TaskFits(a: Job, b: Job, o: Objects)
    requires SameTask(a, b) && AllFit(o, a)
    ensures AllFit(o, b)
  {
    forall i: nat | i < |b.snapshots| ensures StatusFits(o, b, i) {
      assert a.Name(i) == b.Name(i) && StatusFits(o, a, i);
    }
  }

  lemma TaskIsUnderway(o0: Objects, a: Job, b: Job, o: Objects)
    requires SameTask(a, b)
    ensures Underway(o0, a, o) ==> Underway(o0, b, o)
    ensures Finished(o0, a, o) ==> Finished(o0, b, o)
    ensures AllUntangled(o, a) ==> AllUntangled(o, b)
    ensures Coherent(a) ==> Coherent(b)
  {
    assert forall i: nat | i < |a.snapshots| :: a.Name(i) == b.Name(i);
    hide MemberReady, MemberDone, Untangled, Kept, Added;
    TaskChanges(a, b, o0, o);
    forall i: nat | i < |a.snapshots|
      ensures MemberReady(o, a, i) ==> MemberReady(o, b, i)
      ensures MemberDone(o, a, i) ==> MemberDone(o, b, i)
      ensures Untangled(o, a, i) ==> Untangled(o, b, i)
    {
      TaskMember(a, b, o, i);
    }
  }

  /* ---- Statuses do not matter to it ---- */

  lemma RestatedMember(job: Job, o: Objects, o': Objects, i: nat)
    requires SameButStatuses(o, o') && i < |job.snapshots|
    ensures MemberReady(o, job, i) ==> MemberReady(o', job, i)
    ensures MemberDone(o, job, i) ==> MemberDone(o', job, i)
    ensures Untangled(o, job, i) ==> Untangled(o', job, i)
    ensures UpToDate(o, job, i) ==> UpToDate(o', job, i)
  {
    forall k ensures Refers(o', k, job, i) <==> Refers(o, k, job, i) {
      if k in o { assert KeyOf(o[k]) == k; }
      if k in o' { assert KeyOf(o'[k]) == k; }
    }
    assert IsMemberKey(job.SnapKey(i));
    assert NamedContent(o', job, i) == NamedContent(o, job, i);
    assert forall k | Refers(o, k, job, i) :: KeyOf(o[k]) == k && o'[k] == o[k];
  }

  lemma RestatedChanges(o0: Objects, job: Job, o: Objects, o': Objects)
    requires SameButStatuses(o, o')
    ensures Kept(o0, job, o) ==> Kept(o0, job, o')
    ensures Added(o0, job, o) ==> Added(o0, job, o')
  {
    if Kept(o0, job, o) {
      forall k | k in o0 && IsMemberKey(k)
        ensures k in o' && (Unstated(o'[k]) == Unstated(o0[k]) || exists i: nat | i < |job.snapshots| :: IsRefresh(o0[k], o'[k], job, i))
      {
        if Unstated(o[k]) != Unstated(o0[k]) {
          var i: nat :| i < |job.snapshots| && IsRefresh(o0[k], o[k], job, i);
          assert IsRefresh(o0[k], o'[k], job, i);
        }
      }
    }
    if Added(o0, job, o) {
      forall k | k in o' && k !in o0 && IsMemberKey(k) ensures exists i: nat | i < |job.snapshots| :: IsNew(o', k, job, i) {
        var i: nat :| i < |job.snapshots| && IsNew(o, k, job, i);
        assert IsNew(o', k, job, i);
      }
    }
  }

  lemma RestatedUnderway(o0: Objects, job: Job, o: Objects, o': Objects)
    requires SameButStatuses(o, o')
    ensures Underway(o0, job, o) ==> Underway(o0, job, o')
    ensures Finished(o0, job, o) ==> Finished(o0, job, o')
    ensures AllUntangled(o, job) ==> AllUntangled(o', job)
    ensures NoneStale(o, job) ==> NoneStale(o', job)
  {
    hide MemberReady, MemberDone, Untangled, UpToDate;
    forall i: nat | i < |job.snapshots|
      ensures MemberReady(o, job, i) ==> MemberReady(o', job, i)
      ensures MemberDone(o, job, i) ==> MemberDone(o', job, i)
      ensures Untangled(o, job, i) ==> Untangled(o', job, i)
      ensures UpToDate(o, job, i) ==> UpToDate(o', job, i)
      ensures job.SnapKey(i) in o' <==> job.SnapKey(i) in o
    {
      assert IsMemberKey(job.SnapKey(i));
      RestatedMember(job, o, o', i);
    }
    RestatedChanges(o0, job, o, o');
  }

  /* ---- Any number of disturbed passes, then an undisturbed one ---- */

  // A process that works on the answer: the world it finds, and the work as it sees it.
  datatype Try = Try(world: World, job: Job)

  function Leaves(t: Try): Objects { After(t.world, t.job, |t.job.snapshots|) }

  // What the process `i` finds; behind the last one that is `last`.
  function Found(tries: seq<Try>, i: nat, last: Objects): Objects
    requires i <= |tries|
  {
    if i < |tries| then tries[i].world.objects else last
  }

  // Each process, as far as it got, works on the task and finds what the one before it left.
  // Statuses and objects other than members may have changed in between.
  ghost predicate Chained(o0: Objects, job: Job, tries: seq<Try>, last: Objects) {
    && SameButStatuses(o0, Found(tries, 0, last))
    && forall i: nat | i < |tries| :: SameTask(job, tries[i].job) && SameButStatuses(Leaves(tries[i]), Found(tries, i + 1, last))
  }

  // No process loses a stale handle by a refused read.
  ghost predicate Unharmed(t: Try) { NoHarmfulRead(t.world, t.job, |t.job.snapshots|) }

  ghost predicate Tolerable(tries: seq<Try>) { forall i: nat | i < |tries| :: Unharmed(tries[i]) }

  lemma TaskIsMutual(a: Job, b: Job)
    requires SameTask(a, b)
    ensures SameTask(b, a) && (DistinctNames(a) ==> DistinctNames(b))
  {
    assert forall i: nat | i < |a.snapshots| :: a.Name(i) == b.Name(i);
  }

  lemma TryKeepsUnderway(o0: Objects, job: Job, t: Try)
    requires Coherent(job) && SameTask(job, t.job) && Underway(o0, job, t.world.objects) && Unharmed(t)
    ensures Underway(o0, job, Leaves(t))
    ensures AllUntangled(t.world.objects, job) ==> AllUntangled(Leaves(t), job)
  {
    hide Handled, Underway, NoHarmfulRead, AllUntangled, Coherent, SameTask;
    TaskIsMutual(job, t.job);
    TaskIsUnderway(o0, job, t.job, t.world.objects);
    DisturbedPass(o0, t.world, t.job, |t.job.snapshots|);
    TaskIsUnderway(o0, t.job, job, Leaves(t));
  }

  lemma {:induction false} TriesKeepUnderway(o0: Objects, job: Job, tries: seq<Try>, last: Objects, n: nat)
    requires n <= |tries| && Coherent(job) && AllReady(o0, job) && Chained(o0, job, tries, last) && Tolerable(tries)
    ensures Underway(o0, job, Found(tries, n, last))
    ensures AllUntangled(o0, job) ==> AllUntangled(Found(tries, n, last), job)
  {
    hide Underway, AllUntangled, Coherent, AllReady, Leaves, Unharmed, SameTask, SameButStatuses, NoneStale;
    if n == 0 {
      StartIsUnderway(o0, job);
      RestatedUnderway(o0, job, o0, Found(tries, 0, last));
    } else {
      TriesKeepUnderway(o0, job, tries, last, n - 1);
      TryKeepsUnderway(o0, job, tries[n - 1]);
      RestatedUnderway(o0, job, Leaves(tries[n - 1]), Found(tries, n, last));
    }
  }

  // Processes that are only stopped are tolerable, wherever that happens.
  lemma StopsAreTolerable(tries: seq<Try>)
    requires forall i | 0 <= i < |tries| :: NoRefuse(tries[i].world.script)
    ensures Tolerable(tries)
  {
    hide NoRefuse, NoHarmfulRead;
    forall i: nat | i < |tries| ensures Unharmed(tries[i]) {
      StopsDoNoHarm(tries[i].world, tries[i].job, |tries[i].job.snapshots|);
    }
  }

  lemma TaskNoneStale(a: Job, b: Job, o: Objects)
    requires SameTask(a, b)
    ensures NoneStale(o, a) ==> NoneStale(o, b)
  {
    forall i: nat | i < |b.snapshots| && b.SnapKey(i) in o && NoneStale(o, a) ensures UpToDate(o, b, i) {
      assert a.Name(i) == b.Name(i) && UpToDate(o, a, i);
      assert NamedContent(o, a, i) == NamedContent(o, b, i);
    }
  }

  lemma NoneStaleTry(job: Job, t: Try)
    requires Coherent(job) && SameTask(job, t.job) && AllReady(t.world.objects, job) && NoneStale(t.world.objects, job)
    ensures Unharmed(t) && AllReady(Leaves(t), job) && NoneStale(Leaves(t), job)
  {
    hide Handled, MemberReady, Kept, Added, NoneStale, Coherent, SameTask, NoHarmfulRead;
    var o, o' := t.world.objects, Leaves(t);
    TaskIsMutual(job, t.job);
    StartIsUnderway(o, job);
    TaskIsUnderway(o, job, t.job, o);
    TaskNoneStale(job, t.job, o);
    NoneStaleNoHarm(t.world, t.job, |t.job.snapshots|);
    StartIsUnderway(o', t.job);
    TaskIsUnderway(o', t.job, job, o');
    TaskNoneStale(t.job, job, o');
  }

  lemma RestatedNoneStale(job: Job, o: Objects, o': Objects)
    requires SameButStatuses(o, o') && AllReady(o, job) && NoneStale(o, job)
    ensures AllReady(o', job) && NoneStale(o', job)
  {
    hide MemberReady, NoneStale, SameButStatuses;
    StartIsUnderway(o, job);
    RestatedUnderway(o, job, o, o');
  }

  lemma {:induction false} NoneStaleStays(o0: Objects, job: Job, tries: seq<Try>, last: Objects, n: nat)
    requires n <= |tries| && Coherent(job) && AllReady(o0, job) && NoneStale(o0, job) && Chained(o0, job, tries, last)
    ensures AllReady(Found(tries, n, last), job) && NoneStale(Found(tries, n, last), job)
  {
    hide AllReady, NoneStale, Coherent, Leaves, SameTask, SameButStatuses, NoHarmfulRead;
    if n == 0 {
      RestatedNoneStale(job, o0, Found(tries, 0, last));
    } else {
      NoneStaleStays(o0, job, tries, last, n - 1);
      NoneStaleTry(job, tries[n - 1]);
      RestatedNoneStale(job, Leaves(tries[n - 1]), Found(tries, n, last));
    }
  }

  // Where no handle is stale, refused calls are tolerable too.
  lemma NoneStaleIsTolerable(o0: Objects, job: Job, tries: seq<Try>, last: Objects)
    requires Coherent(job) && AllReady(o0, job) && NoneStale(o0, job) && Chained(o0, job, tries, last)
    ensures Tolerable(tries)
  {
    hide Coherent, AllReady, NoneStale, Unharmed, SameTask, SameButStatuses;
    forall i: nat | i < |tries| ensures Unharmed(tries[i]) {
      NoneStaleStays(o0, job, tries, last, i);
      NoneStaleTry(job, tries[i]);
    }
  }

  lemma ResumedUnderway(o0: Objects, job: Job, tries: seq<Try>, o: Objects, job': Job)
    requires Coherent(job) && AllReady(o0, job) && Chained(o0, job, tries, o) && Tolerable(tries) && SameTask(job, job')
    ensures Coherent(job') && Underway(o0, job', o)
    ensures AllUntangled(o0, job) ==> AllUntangled(o, job')
  {
    hide AllReady, Underway, Coherent, SameTask, Tolerable, Chained, AllUntangled, Finished;
    TriesKeepUnderway(o0, job, tries, o, |tries|);
    TaskIsUnderway(o0, job, job', o);
  }

  // Disturbed processes, then an undisturbed one, which finds all statuses missing or ready.
  lemma ResumedFinishes(o0: Objects, job: Job, tries: seq<Try>, again: World, job': Job)
    requires Coherent(job) && AllReady(o0, job) && Chained(o0, job, tries, again.objects) && Tolerable(tries)
    requires Steady(again) && SameTask(job, job') && AllFit(again.objects, job') && GoodDraws(again.objects, job', 0)
    ensures Finished(o0, job, After(again, job', |job'.snapshots|))
    ensures AllUntangled(o0, job) ==> AllUntangled(After(again, job', |job'.snapshots|), job)
    ensures Handled(again, job', |job'.snapshots|).errors == []
  {
    hide Handled, AllReady, AllFit, Underway, Finished, GoodDraws, Coherent, SameTask, Tolerable, Chained, AllUntangled;
    ResumedUnderway(o0, job, tries, again.objects, job');
    PassFinishes(o0, again, job');
    TaskIsMutual(job, job');
    TaskIsUnderway(o0, job', job, After(again, job', |job'.snapshots|));
  }

  lemma TaskOrphans(o0: Objects, a: Job, b: Job, o: Objects, o': Objects)
    requires SameTask(a, b) && SameButStatuses(o, o')
    ensures Orphans(o0, a, o) == Orphans(o0, b, o')
  {
    assert forall i: nat | i < |a.snapshots| :: a.Name(i) == b.Name(i) && IsMemberKey(a.SnapKey(i));
    assert forall i: nat | i < |a.snapshots| && a.SnapKey(i) in o :: NamedContent(o, a, i) == NamedContent(o', b, i);
    forall k ensures NamedByMember(o, a, k) <==> NamedByMember(o', b, k) {
      if NamedByMember(o, a, k) {
        var i: nat :| i < |a.snapshots| && a.SnapKey(i) in o && NamedContent(o, a, i) == k;
        assert b.SnapKey(i) in o' && NamedContent(o', b, i) == k;
      }
      if NamedByMember(o', b, k) {
        var i: nat :| i < |b.snapshots| && b.SnapKey(i) in o' && NamedContent(o', b, i) == k;
        assert a.SnapKey(i) in o && NamedContent(o, a, i) == k;
      }
    }
  }

  // All faults the first `n` processes can meet.
  ghost function FaultsOf(tries: seq<Try>, n: nat): nat
    requires n <= |tries|
  {
    if n == 0 then 0 else FaultsOf(tries, n - 1) + Left(tries[n - 1].world)
  }

  lemma SameObjects(o: Objects)
    ensures SameButStatuses(o, o)
  {
  }

  lemma TryOrphans(o0: Objects, job: Job, t: Try)
    requires DistinctNames(job) && SameTask(job, t.job)
    ensures |Orphans(o0, job, Leaves(t))| <= |Orphans(o0, job, t.world.objects)| + Left(t.world)
  {
    hide Handled, Orphans, FaultsLeft, SameTask, DistinctNames, SameButStatuses;
    TaskIsMutual(job, t.job);
    SameObjects(t.world.objects);
    SameObjects(Leaves(t));
    TaskOrphans(o0, job, t.job, t.world.objects, t.world.objects);
    PassOrphans(o0, t.world, t.job, |t.job.snapshots|);
    TaskOrphans(o0, t.job, job, Leaves(t), Leaves(t));
  }

  lemma NoOrphansYet(o: Objects, job: Job)
    ensures Orphans(o, job, o) == {} && SameTask(job, job)
  {
  }

  lemma {:induction false} TriedOrphans(o0: Objects, job: Job, tries: seq<Try>, last: Objects, n: nat)
    requires n <= |tries| && DistinctNames(job) && Chained(o0, job, tries, last)
    ensures |Orphans(o0, job, Found(tries, n, last))| <= FaultsOf(tries, n)
  {
    hide Orphans, Leaves, FaultsLeft, DistinctNames, SameTask, SameButStatuses;
    NoOrphansYet(o0, job);
    if n == 0 {
      TaskOrphans(o0, job, job, o0, Found(tries, 0, last));
    } else {
      TriedOrphans(o0, job, tries, last, n - 1);
      TryOrphans(o0, job, tries[n - 1]);
      TaskOrphans(o0, job, job, Leaves(tries[n - 1]), Found(tries, n, last));
    }
  }

  lemma {:induction false} StopsAreFaults(tries: seq<Try>, n: nat)
    requires n <= |tries| && forall i | 0 <= i < n :: NoRefuse(tries[i].world.script)
    ensures FaultsOf(tries, n) <= n
  {
    if n > 0 {
      StopsAreFaults(tries, n - 1);
      StopsOnlyLeaveOne(tries[n - 1].world.script, tries[n - 1].world.halted);
    }
  }

  /* ---- What finished stores have in common ---- */

  // A VolumeSnapshot without its status and the name of its content.
  ghost function Nameless(o: Object): Object {
    if o.SnapshotObject? then SnapshotObject(o.snapshot.(contentName := None, status := None)) else o
  }

  // Up to statuses: the same VolumeSnapshots but for content names, old ones as they were, and
  // the same handles behind the members.
  ghost predicate SameSnapshots(o0: Objects, job: Job, a: Objects, b: Objects) {
    && (forall k: Key | k.kind == SnapshotKind :: (k in a <==> k in b) && (k in a ==> Nameless(a[k]) == Nameless(b[k])))
    && (forall k | k in o0 && k.kind == SnapshotKind :: k in a && k in b && Unstated(a[k]) == Unstated(b[k]) == Unstated(o0[k]))
    && (forall i: nat | i < |job.snapshots| ::
          && Refers(a, NamedContent(a, job, i), job, i) && Refers(b, NamedContent(b, job, i), job, i)
          && a[NamedContent(a, job, i)].content.handle == b[NamedContent(b, job, i)].content.handle == Some(job.snapshots[i].snapId))
  }

  // Up to statuses: the same old members, their contents included.
  ghost predicate SameOld(o0: Objects, a: Objects, b: Objects) {
    forall k | k in o0 && IsMemberKey(k) :: k in a && k in b && Unstated(a[k]) == Unstated(b[k])
  }

  lemma FinishedMember(o0: Objects, job: Job, o: Objects, i: nat)
    requires i < |job.snapshots| && Finished(o0, job, o)
    ensures Refers(o, NamedContent(o, job, i), job, i)
    ensures o[NamedContent(o, job, i)].content.handle == Some(job.snapshots[i].snapId)
  {
    assert MemberReady(o, job, i) && MemberDone(o, job, i);
  }

  // Whether an old content was refreshed is settled by its handle.
  lemma FinishedOld(o0: Objects, job: Job, a: Objects, b: Objects, k: Key)
    requires DistinctNames(job) && Finished(o0, job, a) && Finished(o0, job, b) && k in o0 && IsMemberKey(k)
    requires AllUntangled(a, job) && AllUntangled(b, job)
    ensures k in a && k in b && Unstated(a[k]) == Unstated(b[k])
  {
    assert k in a && k in b;
    if Unstated(a[k]) != Unstated(o0[k]) {
      var i: nat :| i < |job.snapshots| && IsRefresh(o0[k], a[k], job, i);
      RefreshedInBoth(o0, job, b, k, i);
    } else if Unstated(b[k]) != Unstated(o0[k]) {
      var i: nat :| i < |job.snapshots| && IsRefresh(o0[k], b[k], job, i);
      RefreshedInBoth(o0, job, a, k, i);
    }
  }

  lemma RefreshedInBoth(o0: Objects, job: Job, o: Objects, k: Key, i: nat)
    requires DistinctNames(job) && Finished(o0, job, o) && AllUntangled(o, job) && k in o0 && IsMemberKey(k) && i < |job.snapshots|
    requires IsReferring(o0[k], job.vg.ns, job.Name(i)) && o0[k].content.handle != Some(job.snapshots[i].snapId)
    ensures k in o && o[k] == ContentObject(Refreshed(o0[k].content, job.snapshots[i]))
  {
    assert MemberDone(o, job, i) && Untangled(o, job, i);
    DoneAndUntangled(o, job, i);
    if Unstated(o[k]) == Unstated(o0[k]) {
      assert Refers(o, k, job, i);
    } else {
      var j: nat :| j < |job.snapshots| && IsRefresh(o0[k], o[k], job, j);
      assert job.Name(i) == job.Name(j);
    }
  }

  lemma FinishedNew(o0: Objects, job: Job, a: Objects, b: Objects, k: Key)
    requires Coherent(job) && Finished(o0, job, a) && Finished(o0, job, b) && k in a && k !in o0 && k.kind == SnapshotKind
    ensures k in b && Nameless(a[k]) == Nameless(b[k])
  {
    var i: nat :| i < |job.snapshots| && IsNew(a, k, job, i);
    assert KeyOf(a[k]) == k;
    assert MemberDone(b, job, i) && k == job.SnapKey(i);
    var j: nat :| j < |job.snapshots| && IsNew(b, k, job, j);
    assert KeyOf(b[k]) == k;
    assert i != j ==> job.Name(i) != job.Name(j);
  }

  lemma UnstatedIsNameless(a: Object, b: Object)
    requires Unstated(a) == Unstated(b)
    ensures Nameless(a) == Nameless(b)
  {
    if a.SnapshotObject? {
      assert Nameless(a) == Nameless(Unstated(a)) && Nameless(b) == Nameless(Unstated(b));
    }
  }

  // Any two finished stores agree up to content names; untangled ones in all old members too.
  lemma FinishedAgree(o0: Objects, job: Job, a: Objects, b: Objects)
    requires Coherent(job) && Finished(o0, job, a) && Finished(o0, job, b)
    ensures SameSnapshots(o0, job, a, b)
    ensures AllUntangled(a, job) && AllUntangled(b, job) ==> SameOld(o0, a, b)
  {
    forall k | k in o0 && k.kind == SnapshotKind ensures k in a && k in b && Unstated(a[k]) == Unstated(b[k]) == Unstated(o0[k]) {
      assert KeyOf(o0[k]) == k;
    }
    if AllUntangled(a, job) && AllUntangled(b, job) {
      forall k | k in o0 && IsMemberKey(k) ensures k in a && k in b && Unstated(a[k]) == Unstated(b[k]) {
        FinishedOld(o0, job, a, b, k);
      }
    }
    hide Finished, Coherent;
    forall k: Key | k.kind == SnapshotKind ensures (k in a <==> k in b) && (k in a ==> Nameless(a[k]) == Nameless(b[k])) {
      if k in o0 {
        UnstatedIsNameless(a[k], b[k]);
      } else {
        if k in a { FinishedNew(o0, job, a, b, k); }
        if k in b { FinishedNew(o0, job, b, a, k); }
      }
    }
    forall i: nat | i < |job.snapshots|
      ensures && Refers(a, NamedContent(a, job, i), job, i) && Refers(b, NamedContent(b, job, i), job, i)
              && a[NamedContent(a, job, i)].content.handle == b[NamedContent(b, job, i)].content.handle == Some(job.snapshots[i].snapId)
    {
      FinishedMember(o0, job, a, i);
      FinishedMember(o0, job, b, i);
    }
  }

  // Resuming ends where an undisturbed pass over the original store ends, up to content names
  // and statuses -- and with the same old contents, if no member had an orphan with another handle.
  lemma ResumedEqualsUndisturbed(o0: Objects, job: Job, tries: seq<Try>, again: World, job': Job, alone: World)
    requires Coherent(job) && AllReady(o0, job) && Chained(o0, job, tries, again.objects) && Tolerable(tries)
    requires Steady(again) && SameTask(job, job') && AllFit(again.objects, job') && GoodDraws(again.objects, job', 0)
    requires Steady(alone) && alone.objects == o0 && AllFit(o0, job) && GoodDraws(o0, job, 0)
    ensures SameSnapshots(o0, job, After(again, job', |job'.snapshots|), After(alone, job, |job.snapshots|))
    ensures AllUntangled(o0, job) ==> SameOld(o0, After(again, job', |job'.snapshots|), After(alone, job, |job.snapshots|))
  {
    hide Handled, AllReady, AllFit, Finished, GoodDraws, Coherent, SameTask, SameSnapshots, SameOld, Tolerable, Chained, AllUntangled;
    ResumedFinishes(o0, job, tries, again, job');
    UndisturbedFinishes(alone, job);
    FinishedAgree(o0, job, After(again, job', |job'.snapshots|), After(alone, job, |job.snapshots|));
  }

  // It leaves no more orphans than there were faults, and one per process when all were stops.
  lemma ResumedOrphans(o0: Objects, job: Job, tries: seq<Try>, again: World, job': Job)
    requires DistinctNames(job) && Chained(o0, job, tries, again.objects) && Steady(again) && SameTask(job, job')
    ensures |Orphans(o0, job, After(again, job', |job'.snapshots|))| <= FaultsOf(tries, |tries|)
    ensures (forall i | 0 <= i < |tries| :: NoRefuse(tries[i].world.script)) ==>
              |Orphans(o0, job, After(again, job', |job'.snapshots|))| <= |tries|
  {
    hide Orphans, Chained, SameTask, NoRefuse, DistinctNames, Handled;
    TriedOrphans(o0, job, tries, again.objects, |tries|);
    TryOrphans(o0, job, Try(again, job'));
    if forall i | 0 <= i < |tries| :: NoRefuse(tries[i].world.script) { StopsAreFaults(tries, |tries|); }
  }
}
