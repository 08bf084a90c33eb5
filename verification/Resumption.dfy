/** Running the driver's answer again after a failed or stopped pass ends where one
    undisturbed pass ends, up to the names of contents and a few orphans. */
module Resumption {
  import opened Kube
  import opened Members
  import opened Isolation
  import opened Frames

  /* ---- Stores a pass can start from ---- */

  ghost predicate Refers(o: Objects, k: Key, job: Job, i: nat)
    requires i < |job.snapshots|
  {
    k in o && IsReferring(o[k], job.vg.ns, job.Name(i))
  }

  // The contents for member `i` are of the right driver and class and have a handle.
  ghost predicate Suits(o: Objects, job: Job, i: nat)
    requires i < |job.snapshots|
  {
    forall k | Refers(o, k, job, i) ::
      && o[k].content.driver == job.vg.spec.driverName
      && o[k].content.className == Some(job.vg.spec.className)
      && o[k].content.handle.Some?
  }

  ghost predicate AllCarry(o: Objects, job: Job, i: nat)
    requires i < |job.snapshots|
  {
    forall k | Refers(o, k, job, i) :: o[k].content.handle == Some(job.snapshots[i].snapId)
  }

  ghost function NamedContent(o: Objects, job: Job, i: nat): Key
    requires i < |job.snapshots|
  {
    if job.SnapKey(i) in o && o[job.SnapKey(i)].SnapshotObject? && o[job.SnapKey(i)].snapshot.contentName.Some?
    then ContentKey(o[job.SnapKey(i)].snapshot.contentName.value) else ContentKey("")
  }

  // The member's snapshot is of the right class, and its content exists and refers back.
  ghost predicate Reusable(o: Objects, job: Job, i: nat)
    requires i < |job.snapshots|
  {
    && job.SnapKey(i) in o
    && var vs := o[job.SnapKey(i)].snapshot;
    && vs.className == Some(job.vg.spec.className) && vs.contentName.Some?
    && Refers(o, NamedContent(o, job, i), job, i)
  }

  // If it exists, its status is missing or ready and bound to its own content.
  ghost predicate StatusFits(o: Objects, job: Job, i: nat)
    requires i < |job.snapshots|
  {
    job.SnapKey(i) in o ==>
      var vs := o[job.SnapKey(i)].snapshot;
      vs.status.Some? ==> vs.status.value == SnapshotStatus(Some(true), vs.contentName)
  }

  ghost predicate AllFit(o: Objects, job: Job) {
    forall i: nat | i < |job.snapshots| :: StatusFits(o, job, i)
  }

  // The snapshot's own content is the only one for it.
  ghost predicate OnlyNamed(o: Objects, job: Job, i: nat)
    requires i < |job.snapshots|
  {
    job.SnapKey(i) in o && forall k | Refers(o, k, job, i) :: k == NamedContent(o, job, i)
  }

  // The snapshot's own content carries the handle of the answer.
  ghost predicate UpToDate(o: Objects, job: Job, i: nat)
    requires i < |job.snapshots|
  {
    var k := NamedContent(o, job, i);
    Refers(o, k, job, i) && o[k].content.handle == Some(job.snapshots[i].snapId)
  }

  // A member that is still to be made, whatever orphans there are for it, or a snapshot whose
  // content has the handle already or is the one the reuse path will find.
  ghost predicate MemberReady(o: Objects, job: Job, i: nat)
    requires i < |job.snapshots|
  {
    && Suits(o, job, i)
    && (job.SnapKey(i) in o ==> Reusable(o, job, i) && (UpToDate(o, job, i) || OnlyNamed(o, job, i)))
  }

  ghost predicate AllReady(o: Objects, job: Job) {
    forall i: nat | i < |job.snapshots| :: MemberReady(o, job, i)
  }

  // The group's spec and the class agree, and members have different names.
  ghost predicate Coherent(job: Job) {
    && DistinctNames(job)
    && job.class_.driver == job.vg.spec.driverName && job.class_.name == job.vg.spec.className
  }

  /* ---- What passes may have changed since the store `o0` ---- */

  ghost predicate IsRefresh(a: Object, b: Object, job: Job, i: nat)
    requires i < |job.snapshots|
  {
    && IsReferring(a, job.vg.ns, job.Name(i)) && a.content.handle != Some(job.snapshots[i].snapId)
    && b == ContentObject(Refreshed(a.content, job.snapshots[i]))
  }

  // Old members are as they were, up to statuses and contents refreshed with the handle they lacked.
  ghost predicate Kept(o0: Objects, job: Job, o: Objects) {
    forall k | k in o0 && IsMemberKey(k) ::
      k in o && (Unstated(o[k]) == Unstated(o0[k]) || exists i: nat | i < |job.snapshots| :: IsRefresh(o0[k], o[k], job, i))
  }

  ghost predicate IsNew(o: Objects, k: Key, job: Job, i: nat)
    requires i < |job.snapshots| && k in o
  {
    || (k == job.SnapKey(i) && o[k].SnapshotObject? && o[k].snapshot.contentName.Some?
        && Unstated(o[k]) == SnapshotObject(MakeVolSnap(job.vg, job.Name(i), o[k].snapshot.contentName.value)))
    || o[k] == ContentObject(MakeVolSnapContent(k.name, job.vg.ns, job.Name(i), job.snapshots[i], job.class_))
  }

  // New members are what the answer calls for.
  ghost predicate Added(o0: Objects, job: Job, o: Objects) {
    forall k | k in o && k !in o0 && IsMemberKey(k) :: exists i: nat | i < |job.snapshots| :: IsNew(o, k, job, i)
  }

  ghost predicate Underway(o0: Objects, job: Job, o: Objects) {
    AllReady(o, job) && Kept(o0, job, o) && Added(o0, job, o)
  }

  ghost predicate MemberDone(o: Objects, job: Job, i: nat)
    requires i < |job.snapshots|
  {
    job.SnapKey(i) in o && UpToDate(o, job, i)
  }

  // Underway with nothing left to do.
  ghost predicate Finished(o0: Objects, job: Job, o: Objects) {
    Underway(o0, job, o) && forall i: nat | i < |job.snapshots| :: MemberDone(o, job, i)
  }

  lemma StartIsUnderway(o: Objects, job: Job)
    requires AllReady(o, job)
    ensures Underway(o, job, o)
  {
  }

  /* ---- Every effect of a pass keeps a store underway ---- */

  // No stray content beside one whose handle is still to be refreshed.
  ghost predicate NoStray(o: Objects, e: Effect, job: Job, j: nat)
    requires j < |job.snapshots|
  {
    e.Orphaned? && job.SnapKey(j) in o ==> UpToDate(o, job, j)
  }

  lemma OtherMemberReady(o: Objects, e: Effect, job: Job, i: nat, j: nat)
    requires i < |job.snapshots| && j < |job.snapshots| && job.Name(i) != job.Name(j)
    requires Allowed(o, e, job, j)
    ensures MemberReady(o, job, i) <==> MemberReady(Apply(o, e), job, i)
    ensures MemberDone(o, job, i) <==> MemberDone(Apply(o, e), job, i)
    ensures AllCarry(o, job, i) <==> AllCarry(Apply(o, e), job, i)
    ensures OnlyNamed(o, job, i) <==> OnlyNamed(Apply(o, e), job, i)
  {
    var o' := Apply(o, e);
    assert forall k :: Refers(o', k, job, i) <==> Refers(o, k, job, i);
    assert forall k | Refers(o, k, job, i) :: o'[k] == o[k];
    assert job.SnapKey(i) in o <==> job.SnapKey(i) in o';
    assert NamedContent(o', job, i) == NamedContent(o, job, i);
  }

  lemma OrphanedMemberReady(o: Objects, c: SnapshotContent, job: Job, j: nat)
    requires j < |job.snapshots| && Coherent(job)
    requires Allowed(o, Orphaned(c), job, j) && NoStray(o, Orphaned(c), job, j) && MemberReady(o, job, j)
    ensures MemberReady(Apply(o, Orphaned(c)), job, j)
    ensures MemberDone(o, job, j) ==> MemberDone(Apply(o, Orphaned(c)), job, j)
  {
    var o' := Apply(o, Orphaned(c));
    assert forall k | Refers(o', k, job, j) :: k == ContentKey(c.name) || Refers(o, k, job, j);
    assert NamedContent(o', job, j) == NamedContent(o, job, j);
  }

  lemma RehandledMemberReady(o: Objects, stale: SnapshotContent, s: DriverSnapshot, job: Job, j: nat)
    requires j < |job.snapshots| && Coherent(job)
    requires Allowed(o, Rehandled(stale, s), job, j) && MemberReady(o, job, j)
    ensures MemberReady(Apply(o, Rehandled(stale, s)), job, j) && MemberDone(Apply(o, Rehandled(stale, s)), job, j)
  {
    var o' := Apply(o, Rehandled(stale, s));
    assert Refers(o, ContentKey(stale.name), job, j);
    assert forall x | Refers(o', x, job, j) :: Refers(o, x, job, j);
    assert NamedContent(o', job, j) == NamedContent(o, job, j);
  }

  lemma SameMemberReady(o: Objects, e: Effect, job: Job, j: nat)
    requires j < |job.snapshots| && Coherent(job)
    requires Allowed(o, e, job, j) && NoStray(o, e, job, j) && MemberReady(o, job, j)
    ensures MemberReady(Apply(o, e), job, j)
    ensures MemberDone(o, job, j) || e.Paired? || e.Rehandled? ==> MemberDone(Apply(o, e), job, j)
  {
    match e
    case Nothing =>
    case Orphaned(c) =>
      OrphanedMemberReady(o, c, job, j);
    case Paired(c, v) =>
      var o' := Apply(o, e);
      assert forall k | Refers(o', k, job, j) :: k == ContentKey(c.name) || Refers(o, k, job, j);
      assert NamedContent(o', job, j) == ContentKey(c.name);
    case Rehandled(stale, s) =>
      RehandledMemberReady(o, stale, s, job, j);
  }

  lemma EffectKeepsReady(o: Objects, e: Effect, job: Job, j: nat)
    requires j < |job.snapshots| && Coherent(job)
    requires Allowed(o, e, job, j) && NoStray(o, e, job, j) && AllReady(o, job)
    ensures AllReady(Apply(o, e), job)
  {
    hide MemberReady, Allowed, Apply, NoStray;
    forall i: nat | i < |job.snapshots| ensures MemberReady(Apply(o, e), job, i) {
      assert MemberReady(o, job, i);
      if i == j { SameMemberReady(o, e, job, j); } else { OtherMemberReady(o, e, job, i, j); }
    }
  }

  lemma EffectKeepsKept(o0: Objects, o: Objects, e: Effect, job: Job, j: nat)
    requires j < |job.snapshots| && Coherent(job)
    requires Allowed(o, e, job, j) && Kept(o0, job, o)
    ensures Kept(o0, job, Apply(o, e))
  {
    var o' := Apply(o, e);
    forall k | k in o0 && IsMemberKey(k)
      ensures k in o' && (Unstated(o'[k]) == Unstated(o0[k]) || exists i: nat | i < |job.snapshots| :: IsRefresh(o0[k], o'[k], job, i))
    {
      if o'[k] == o[k] {
        if Unstated(o[k]) != Unstated(o0[k]) {
          var i: nat :| i < |job.snapshots| && IsRefresh(o0[k], o[k], job, i);
          assert IsRefresh(o0[k], o'[k], job, i);
        }
      } else {
        assert e.Rehandled? && o[k] == ContentObject(e.stale);
        forall i: nat | i < |job.snapshots| ensures !IsRefresh(o0[k], o[k], job, i) {
          assert i != j ==> job.Name(i) != job.Name(j);
        }
        assert IsRefresh(o0[k], o'[k], job, j);
      }
    }
  }

  lemma EffectKeepsAdded(o0: Objects, o: Objects, e: Effect, job: Job, j: nat)
    requires j < |job.snapshots| && Coherent(job)
    requires Allowed(o, e, job, j) && Added(o0, job, o)
    ensures Added(o0, job, Apply(o, e))
  {
    var o' := Apply(o, e);
    forall k | k in o' && k !in o0 && IsMemberKey(k) ensures exists i: nat | i < |job.snapshots| :: IsNew(o', k, job, i) {
      if k in o {
        var i: nat :| i < |job.snapshots| && IsNew(o, k, job, i);
        assert i != j ==> job.Name(i) != job.Name(j);
        assert o'[k] == o[k];
        assert IsNew(o', k, job, i);
      } else {
        assert IsNew(o', k, job, j);
      }
    }
  }

  lemma StrayIsNotReady(o: Objects, e: Effect, job: Job, j: nat)
    requires j < |job.snapshots| && Allowed(o, e, job, j) && !NoStray(o, e, job, j) && MemberReady(o, job, j)
    ensures !MemberReady(Apply(o, e), job, j)
  {
    var o', ck := Apply(o, e), ContentKey(e.content.name);
    assert NamedContent(o', job, j) == NamedContent(o, job, j) != ck;
    assert Refers(o', ck, job, j);
  }

  // Exactly the orphans beside a stale content make a store one that cannot be gone on from.
  lemma EffectKeepsUnderway(o0: Objects, o: Objects, e: Effect, job: Job, j: nat)
    requires j < |job.snapshots| && Coherent(job)
    requires Allowed(o, e, job, j) && Underway(o0, job, o)
    ensures Underway(o0, job, Apply(o, e)) <==> NoStray(o, e, job, j)
  {
    hide MemberReady, Kept, Added, Allowed, Apply, NoStray;
    if NoStray(o, e, job, j) {
      EffectKeepsReady(o, e, job, j);
      EffectKeepsKept(o0, o, e, job, j);
      EffectKeepsAdded(o0, o, e, job, j);
    } else {
      assert MemberReady(o, job, j);
      StrayIsNotReady(o, e, job, j);
    }
  }

  // No effect touches a status, and a new snapshot has none.
  lemma EffectKeepsFit(o: Objects, e: Effect, job: Job, j: nat)
    requires j < |job.snapshots| && Allowed(o, e, job, j) && AllFit(o, job)
    ensures AllFit(Apply(o, e), job)
  {
    forall i: nat | i < |job.snapshots| ensures StatusFits(Apply(o, e), job, i) {
      assert StatusFits(o, job, i);
    }
  }

  /* ---- Members without orphans of other handles ---- */

  // All contents for the member carry the handle, or its own content is the only one.
  ghost predicate Untangled(o: Objects, job: Job, i: nat)
    requires i < |job.snapshots|
  {
    AllCarry(o, job, i) || OnlyNamed(o, job, i)
  }

  ghost predicate AllUntangled(o: Objects, job: Job) {
    forall i: nat | i < |job.snapshots| :: Untangled(o, job, i)
  }

  lemma SameMemberUntangled(o: Objects, e: Effect, job: Job, j: nat)
    requires j < |job.snapshots| && Coherent(job)
    requires Allowed(o, e, job, j) && NoStray(o, e, job, j) && MemberReady(o, job, j) && Untangled(o, job, j)
    ensures Untangled(Apply(o, e), job, j)
  {
    var o' := Apply(o, e);
    match e
    case Nothing =>
    case Orphaned(c) =>
      assert forall k | Refers(o', k, job, j) :: k == ContentKey(c.name) || Refers(o, k, job, j);
      assert AllCarry(o, job, j);
    case Paired(c, v) =>
      assert forall k | Refers(o', k, job, j) :: k == ContentKey(c.name) || Refers(o, k, job, j);
    case Rehandled(stale, s) =>
      assert Refers(o, ContentKey(stale.name), job, j) && ContentKey(stale.name) == NamedContent(o, job, j);
      assert forall x | Refers(o', x, job, j) :: Refers(o, x, job, j);
  }

  lemma EffectKeepsUntangled(o: Objects, e: Effect, job: Job, j: nat)
    requires j < |job.snapshots| && Coherent(job)
    requires Allowed(o, e, job, j) && NoStray(o, e, job, j) && AllReady(o, job) && AllUntangled(o, job)
    ensures AllUntangled(Apply(o, e), job)
  {
    hide MemberReady, Allowed, Apply, NoStray, AllCarry, OnlyNamed, MemberDone;
    forall i: nat | i < |job.snapshots| ensures Untangled(Apply(o, e), job, i) {
      assert MemberReady(o, job, i) && Untangled(o, job, i);
      if i == j { SameMemberUntangled(o, e, job, j); } else { OtherMemberReady(o, e, job, i, j); }
    }
  }

  // Members that are done and untangled have no content with another handle left.
  lemma DoneAndUntangled(o: Objects, job: Job, i: nat)
    requires i < |job.snapshots| && MemberDone(o, job, i)
    ensures Untangled(o, job, i) <==> AllCarry(o, job, i)
  {
  }
}
