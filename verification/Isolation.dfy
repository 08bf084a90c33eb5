/** A member whose own steps went through is realised in the end, whatever happened to the others. */
module Isolation {
  import opened Kube
  import opened Api
  import opened Members

  ghost predicate DistinctNames(job: Job) {
    forall i, j | 0 <= i < j < |job.snapshots| :: job.Name(i) != job.Name(j)
  }

  lemma {:induction false} NoNamelessContent(w: World, job: Job, n: nat)
    requires n <= |job.snapshots| && ContentKey("") !in w.objects
    ensures ContentKey("") !in After(w, job, n)
  {
    hide MemberStep;
    if n > 0 {
      NoNamelessContent(w, job, n - 1);
      var e := MemberEffect(Handled(w, job, n - 1), job, n - 1);
      assert ContentName(job.draws(n - 1)) != "";
    }
  }

  lemma RealisedKept(o: Objects, e: Effect, job: Job, i: nat, j: nat)
    requires i < |job.snapshots| && j < |job.snapshots| && job.Name(i) != job.Name(j)
    requires Realised(o, job, i) && Allowed(o, e, job, j)
    ensures Realised(Apply(o, e), job, i)
  {
    var k :| k in o && Carries(o[k], job.vg.ns, job.Name(i), job.snapshots[i].snapId);
    assert KeyOf(o[k]) == k;
    assert Apply(o, e)[k] == o[k];
  }

  lemma ErrorsGrow(p: Progress, job: Job, i: nat)
    requires i < |job.snapshots|
    ensures p.errors <= MemberStep(p, job, i).errors
  {
    hide CreateVolumeSnapshot, UpdateVolumeSnapshotContentStatus;
  }

  // Failure isolation: under every pattern of failing calls and stops, a member that
  // reported no error of its own is realised at the end of the loop.
  lemma {:induction false} MemberRealised(w: World, job: Job, i: nat, n: nat)
    requires i < n <= |job.snapshots|
    requires DistinctNames(job) && ContentKey("") !in w.objects
    requires i !in Handled(w, job, n).errors
    ensures Realised(Handled(w, job, n).world.objects, job, i)
  {
    hide MemberStep;
    var p := Handled(w, job, n - 1);
    NoNamelessContent(w, job, n - 1);
    ErrorsGrow(p, job, n - 1);
    var e := MemberEffect(p, job, n - 1);
    if i < n - 1 {
      MemberRealised(w, job, i, n - 1);
      RealisedKept(p.world.objects, e, job, i, n - 1);
    }
  }

  // A pass that collects no error leaves every member realised.
  lemma ResponseRealised(w: World, job: Job)
    requires DistinctNames(job) && ContentKey("") !in w.objects
    ensures Handled(w, job, |job.snapshots|).errors == [] ==>
              forall i: nat | i < |job.snapshots| :: Realised(After(w, job, |job.snapshots|), job, i)
  {
    hide Handled;
    if Handled(w, job, |job.snapshots|).errors == [] {
      forall i: nat | i < |job.snapshots| ensures Realised(After(w, job, |job.snapshots|), job, i) {
        MemberRealised(w, job, i, |job.snapshots|);
      }
    }
  }
}
