/** The main results about members, read off at the end of `processResponse`. */
module Answers {
  import opened Kube
  import opened Api
  import opened Members
  import opened Isolation
  import opened Frames
  import opened Lifecycle
  import Polling
  import Resumption
  import PassRuns
  import Resume
  import Text

  // Status writes and the group's own update leave a realised member realised.
  lemma RealisedThrough(o: Objects, o': Objects, job: Job, i: nat)
    requires i < |job.snapshots| && Realised(o, job, i)
    requires StatusesOnly(o, o') || SameMembers(o, o')
    ensures Realised(o', job, i)
  {
    var k :| k in o && Carries(o[k], job.vg.ns, job.Name(i), job.snapshots[i].snapId);
    assert KeyOf(o[k]) == k && IsMemberKey(job.SnapKey(i));
    assert k in o' && o'[k] == o[k];
  }

  lemma GroupUpdateKeepsMembers(w: World, x: VolumeGroup)
    ensures SameMembers(w.objects, Update(w, GroupObject(x)).world.objects)
  {
  }

  // A member that met no error of its own has its snapshot and a content with its handle when
  // the answer has been processed; without any error all members have.
  lemma AnswerRealised(w: World, res: DriverResponse, claims: map<string, string>, vg: VolumeGroup, sc: SnapshotClass, ch: Choices, i: nat)
    requires var job := Job(vg, res.snapshots, claims, sc, ch.draws);
             i < |res.snapshots| && DistinctNames(job) && ContentKey("") !in w.objects
    ensures var job, p := Job(vg, res.snapshots, claims, sc, ch.draws), ProcessResponse(w, res, claims, vg, sc, ch);
            !p.failed || i !in Handled(w, job, |job.snapshots|).errors ==> Realised(p.world.objects, job, i)
  {
    hide Handled, Realised, Polling.PollFrom, Polling.Deadline, StatusesOnly, SameMembers, Update, DistinctNames, Text.TrimRight;
    var job, n := Job(vg, res.snapshots, claims, sc, ch.draws), |res.snapshots|;
    var p := Handled(w, job, n);
    var q := Polling.CheckSnapshotStatus(p.world, vg.ns, p.snaps, vg.spec.timeout, ch.tie);
    PollFrame(p.world, vg.ns, p.snaps, Polling.Deadline(vg.spec.timeout), ch.tie, 0);
    GroupUpdateKeepsMembers(q.world, vg.(status := FinalStatus(res, p.snaps, q.ready)));
    if i !in p.errors {
      MemberRealised(w, job, i, n);
      RealisedThrough(p.world.objects, q.world.objects, job, i);
      RealisedThrough(q.world.objects, ProcessResponse(w, res, claims, vg, sc, ch).world.objects, job, i);
    }
  }

  lemma StatusesThenGroup(a: Objects, b: Objects, c: Objects)
    requires StatusesOnly(a, b) && SameMembers(b, c)
    ensures SameButStatuses(a, c)
  {
  }

  // Behind the loop over the members nothing changes but statuses and the group.
  lemma AnswerMembers(w: World, res: DriverResponse, claims: map<string, string>, vg: VolumeGroup, sc: SnapshotClass, ch: Choices)
    ensures var job := Job(vg, res.snapshots, claims, sc, ch.draws);
            SameButStatuses(After(w, job, |job.snapshots|), ProcessResponse(w, res, claims, vg, sc, ch).world.objects)
  {
    hide Handled, Polling.PollFrom, Polling.Deadline, Text.TrimRight, Update, SameMembers, StatusesOnly, SameButStatuses;
    var job, n := Job(vg, res.snapshots, claims, sc, ch.draws), |res.snapshots|;
    var p := Handled(w, job, n);
    var q := Polling.CheckSnapshotStatus(p.world, vg.ns, p.snaps, vg.spec.timeout, ch.tie);
    PollFrame(p.world, vg.ns, p.snaps, Polling.Deadline(vg.spec.timeout), ch.tie, 0);
    GroupUpdateKeepsMembers(q.world, vg.(status := FinalStatus(res, p.snaps, q.ready)));
    StatusesThenGroup(p.world.objects, q.world.objects, ProcessResponse(w, res, claims, vg, sc, ch).world.objects);
  }

  lemma ButStatusesTransitive(a: Objects, b: Objects, c: Objects)
    requires SameButStatuses(a, b) && SameButStatuses(b, c)
    ensures SameButStatuses(a, c)
  {
  }

  // A process that processes the answer: the world it finds, the group as it has it, its choices.
  datatype Process = Process(world: World, vg: VolumeGroup, ch: Choices)

  function JobOf(p: Process, res: DriverResponse, claims: map<string, string>, sc: SnapshotClass): Job {
    Job(p.vg, res.snapshots, claims, sc, p.ch.draws)
  }

  function Ends(p: Process, res: DriverResponse, claims: map<string, string>, sc: SnapshotClass): Objects {
    ProcessResponse(p.world, res, claims, p.vg, sc, p.ch).world.objects
  }

  function TryOf(p: Process, res: DriverResponse, claims: map<string, string>, sc: SnapshotClass): Resume.Try {
    Resume.Try(p.world, JobOf(p, res, claims, sc))
  }

  function TriesOf(ps: seq<Process>, res: DriverResponse, claims: map<string, string>, sc: SnapshotClass): seq<Resume.Try> {
    seq(|ps|, i requires 0 <= i < |ps| => TryOf(ps[i], res, claims, sc))
  }

  // The processes run one after the other over the same answer, all but the last one with any
  // faults.  Statuses are written while they wait and in between, and the group may be written too.
  ghost predicate Succeed(o0: Objects, ps: seq<Process>, res: DriverResponse, claims: map<string, string>, sc: SnapshotClass) {
    && |ps| >= 1 && SameButStatuses(o0, ps[0].world.objects)
    && (forall i: nat | i < |ps| :: Resume.SameTask(JobOf(ps[0], res, claims, sc), JobOf(ps[i], res, claims, sc)))
    && (forall i: nat | i < |ps| - 1 :: SameButStatuses(Ends(ps[i], res, claims, sc), ps[i + 1].world.objects))
  }

  lemma ProcessesAreChained(o0: Objects, ps: seq<Process>, res: DriverResponse, claims: map<string, string>, sc: SnapshotClass)
    requires Succeed(o0, ps, res, claims, sc)
    ensures var last := |ps| - 1;
            Resume.Chained(o0, JobOf(ps[0], res, claims, sc), TriesOf(ps[..last], res, claims, sc), ps[last].world.objects)
  {
    hide Handled, ProcessResponse, SameButStatuses, Resume.SameTask;
    var last := |ps| - 1;
    var tries := TriesOf(ps[..last], res, claims, sc);
    forall i: nat | i < |tries| ensures SameButStatuses(Resume.Leaves(tries[i]), Resume.Found(tries, i + 1, ps[last].world.objects)) {
      AnswerMembers(ps[i].world, res, claims, ps[i].vg, sc, ps[i].ch);
      ButStatusesTransitive(Resume.Leaves(tries[i]), Ends(ps[i], res, claims, sc), ps[i + 1].world.objects);
    }
  }

  // A process that nothing disturbs, and that finds all statuses missing or ready.
  ghost predicate Undisturbed(p: Process, res: DriverResponse, claims: map<string, string>, sc: SnapshotClass) {
    var o, job := p.world.objects, JobOf(p, res, claims, sc);
    Steady(p.world) && Resumption.AllFit(o, job) && PassRuns.GoodDraws(o, job, 0)
  }

  lemma EndsFinished(o0: Objects, p: Process, res: DriverResponse, claims: map<string, string>, sc: SnapshotClass)
    requires var job := JobOf(p, res, claims, sc); Resumption.Finished(o0, job, After(p.world, job, |job.snapshots|))
    ensures var job := JobOf(p, res, claims, sc);
            && Resumption.Finished(o0, job, Ends(p, res, claims, sc))
            && (Resumption.AllUntangled(After(p.world, job, |job.snapshots|), job) ==> Resumption.AllUntangled(Ends(p, res, claims, sc), job))
  {
    hide Handled, ProcessResponse, Resumption.Finished, Resumption.AllUntangled, SameButStatuses;
    var job := JobOf(p, res, claims, sc);
    AnswerMembers(p.world, res, claims, p.vg, sc, p.ch);
    Resume.RestatedUnderway(o0, job, After(p.world, job, |job.snapshots|), Ends(p, res, claims, sc));
  }

  // An undisturbed process after any number of failed or stopped ones that met no harmful read
  // finishes the answer, and no member fails.
  lemma AnswerResumed(o0: Objects, ps: seq<Process>, res: DriverResponse, claims: map<string, string>, sc: SnapshotClass)
    requires Succeed(o0, ps, res, claims, sc) && Undisturbed(ps[|ps| - 1], res, claims, sc)
    requires var job := JobOf(ps[0], res, claims, sc);
             Resumption.Coherent(job) && Resumption.AllReady(o0, job) && Resume.Tolerable(TriesOf(ps[..|ps| - 1], res, claims, sc))
    ensures var job, again := JobOf(ps[0], res, claims, sc), ps[|ps| - 1];
            && Resumption.Finished(o0, job, Ends(again, res, claims, sc))
            && (Resumption.AllUntangled(o0, job) ==> Resumption.AllUntangled(Ends(again, res, claims, sc), job))
            && Handled(again.world, JobOf(again, res, claims, sc), |res.snapshots|).errors == []
  {
    hide Handled, ProcessResponse, Resumption.Coherent, Resumption.AllReady, Resumption.AllFit, Resumption.Finished, Resumption.AllUntangled,
         Resume.Tolerable, Resume.Chained, Resume.SameTask, PassRuns.GoodDraws, SameButStatuses;
    var again, tries := ps[|ps| - 1], TriesOf(ps[..|ps| - 1], res, claims, sc);
    var first, job := JobOf(ps[0], res, claims, sc), JobOf(again, res, claims, sc);
    ProcessesAreChained(o0, ps, res, claims, sc);
    assert Resume.SameTask(first, job);
    Resume.ResumedFinishes(o0, first, tries, again.world, job);
    Resume.TaskIsMutual(first, job);
    Resume.TaskIsUnderway(o0, first, job, After(again.world, job, |job.snapshots|));
    EndsFinished(o0, again, res, claims, sc);
    Resume.TaskIsUnderway(o0, job, first, Ends(again, res, claims, sc));
  }

  // Its store is that of one undisturbed process alone, up to content names and statuses, and
  // with the same old contents if no member had an orphan with another handle.
  lemma AnswerEqualsUndisturbed(o0: Objects, ps: seq<Process>, alone: Process, res: DriverResponse, claims: map<string, string>, sc: SnapshotClass)
    requires Succeed(o0, ps, res, claims, sc) && Undisturbed(ps[|ps| - 1], res, claims, sc)
    requires Succeed(o0, [alone], res, claims, sc) && Undisturbed(alone, res, claims, sc)
    requires Resume.SameTask(JobOf(ps[0], res, claims, sc), JobOf(alone, res, claims, sc))
    requires var job := JobOf(ps[0], res, claims, sc);
             Resumption.Coherent(job) && Resumption.AllReady(o0, job) && Resume.Tolerable(TriesOf(ps[..|ps| - 1], res, claims, sc))
    ensures var job, a, b := JobOf(ps[0], res, claims, sc), Ends(ps[|ps| - 1], res, claims, sc), Ends(alone, res, claims, sc);
            Resume.SameSnapshots(o0, job, a, b) && (Resumption.AllUntangled(o0, job) ==> Resume.SameOld(o0, a, b))
  {
    hide ProcessResponse, Resumption.Coherent, Resumption.AllReady, Resumption.Finished, Resumption.AllUntangled, Resume.Unharmed,
         Resume.SameTask, Resume.SameSnapshots, Resume.SameOld, SameButStatuses, Undisturbed;
    var job, own := JobOf(ps[0], res, claims, sc), JobOf(alone, res, claims, sc);
    AnswerResumed(o0, ps, res, claims, sc);
    Resume.TaskIsMutual(job, own);
    Resume.TaskIsUnderway(o0, job, own, o0);
    Resume.TaskReady(job, own, o0);
    assert [alone][..0] == [];
    AnswerResumed(o0, [alone], res, claims, sc);
    Resume.TaskIsUnderway(o0, own, job, Ends(alone, res, claims, sc));
    Resume.FinishedAgree(o0, job, Ends(ps[|ps| - 1], res, claims, sc), Ends(alone, res, claims, sc));
  }

  /* ---- Which members exist in the end ---- */

  // Both creations go through; the read before them need not.
  ghost predicate CreatesPass(w: World, job: Job, i: nat)
    requires i < |job.snapshots|
  {
    Passes(Spend(w)) && ContentKey(ContentName(job.draws(i))) !in w.objects && Passes(Spend(Spend(w)))
  }

  lemma StepCreatesIff(p: Progress, job: Job, i: nat)
    requires i < |job.snapshots| && job.SnapKey(i) !in p.world.objects
    ensures job.SnapKey(i) in MemberStep(p, job, i).world.objects <==> CreatesPass(p.world, job, i)
  {
    var s, d := job.snapshots[i], job.draws(i);
    var m := CreatePair(Spend(p.world), job, s, d);
    assert job.SnapKey(i) in m.world.objects <==> CreatesPass(p.world, job, i);
    assert !m.update;
    hide CreatePair;
  }

  // The snapshot was there before, or the member's two creations go through.
  ghost predicate ComesToBe(w: World, job: Job, i: nat)
    requires i < |job.snapshots|
  {
    job.SnapKey(i) in w.objects || CreatesPass(Handled(w, job, i).world, job, i)
  }

  // A member's snapshot is there after the answer exactly then, whatever the group's status says.
  lemma MemberThereIff(w: World, res: DriverResponse, claims: map<string, string>, vg: VolumeGroup, sc: SnapshotClass, ch: Choices, i: nat)
    requires i < |res.snapshots| && DistinctNames(Job(vg, res.snapshots, claims, sc, ch.draws))
    ensures var job := Job(vg, res.snapshots, claims, sc, ch.draws);
            job.SnapKey(i) in ProcessResponse(w, res, claims, vg, sc, ch).world.objects <==> ComesToBe(w, job, i)
  {
    hide Handled, MemberStep, ProcessResponse, CreatesPass, DistinctNames;
    var job, n := Job(vg, res.snapshots, claims, sc, ch.draws), |res.snapshots|;
    HandledUnfolds(w, job, 0);
    PassRuns.OthersKeepSnapshot(w, job, i, 0, i);
    HandledUnfolds(w, job, i + 1);
    var p := Handled(w, job, i);
    if job.SnapKey(i) in w.objects { var e := MemberEffect(p, job, i); } else { StepCreatesIff(p, job, i); }
    PassRuns.OthersKeepSnapshot(w, job, i, i + 1, n);
    AnswerMembers(w, res, claims, vg, sc, ch);
    assert IsMemberKey(job.SnapKey(i));
  }

  ghost predicate AllThere(o: Objects, job: Job) {
    forall i: nat | i < |job.snapshots| :: job.SnapKey(i) in o
  }

  ghost predicate AllComeToBe(w: World, job: Job) {
    forall i: nat | i < |job.snapshots| :: ComesToBe(w, job, i)
  }

  // So a group, Complete or not, has all its members exactly if no creation of a new one failed.
  lemma AllThereIff(w: World, res: DriverResponse, claims: map<string, string>, vg: VolumeGroup, sc: SnapshotClass, ch: Choices)
    requires DistinctNames(Job(vg, res.snapshots, claims, sc, ch.draws))
    ensures var job := Job(vg, res.snapshots, claims, sc, ch.draws);
            AllThere(ProcessResponse(w, res, claims, vg, sc, ch).world.objects, job) <==> AllComeToBe(w, job)
  {
    hide ProcessResponse, ComesToBe, DistinctNames;
    var job, o' := Job(vg, res.snapshots, claims, sc, ch.draws), ProcessResponse(w, res, claims, vg, sc, ch).world.objects;
    if AllThere(o', job) {
      forall i: nat | i < |job.snapshots| ensures ComesToBe(w, job, i) {
        MemberThereIff(w, res, claims, vg, sc, ch, i);
      }
    }
    if AllComeToBe(w, job) {
      forall i: nat | i < |job.snapshots| ensures job.SnapKey(i) in o' {
        MemberThereIff(w, res, claims, vg, sc, ch, i);
      }
    }
  }
}
