/** Referential integrity between the snapshots the controller created and their contents. */
module Integrity {
  import opened Kube
  import opened Api
  import opened Members

  // The controller labels every VolumeSnapshot it creates.
  ghost predicate Ours(o: Objects, k: Key) {
    k in o && o[k].SnapshotObject? && "snapshotGroup" in o[k].snapshot.labels
  }

  ghost predicate Names(o: Objects, k: Key, content: string) {
    k in o && o[k].SnapshotObject? && o[k].snapshot.contentName == Some(content)
  }

  // The snapshot names a content that exists, refers back to it, and is named by no other snapshot.
  ghost predicate Bound(o: Objects, k: Key)
    requires k in o && o[k].SnapshotObject?
  {
    && o[k].snapshot.contentName.Some?
    && var c := o[k].snapshot.contentName.value;
    && ContentKey(c) in o
    && o[ContentKey(c)].content.refNs == k.ns && o[ContentKey(c)].content.refName == k.name
    && forall k2 | Names(o, k2, c) :: k2 == k
  }

  ghost predicate RefIntegrity(o: Objects) {
    forall k | Ours(o, k) :: Bound(o, k)
  }

  // A UUID nobody uses: no content has the name and no snapshot asks for it.
  ghost predicate Unused(o: Objects, content: string) {
    ContentKey(content) !in o && forall k :: !Names(o, k, content)
  }

  // The UUIDs drawn for the members `i` up to `n` are unused and differ from each other.
  ghost predicate FreshDraws(o: Objects, draws: nat -> Draw, i: nat, n: nat) {
    && (forall j: nat | i <= j < n :: Unused(o, ContentName(draws(j))))
    && (forall j: nat, k: nat | i <= j < k < n :: ContentName(draws(j)) != ContentName(draws(k)))
  }

  lemma EffectKeepsIntegrity(o: Objects, e: Effect, job: Job, i: nat)
    requires i < |job.snapshots| && Allowed(o, e, job, i)
    requires RefIntegrity(o) && Unused(o, ContentName(job.draws(i)))
    ensures RefIntegrity(Apply(o, e))
  {
    var o' := Apply(o, e);
    forall k | Ours(o', k) ensures Bound(o', k) {
      if k in o && o[k] == o'[k] {
        assert Ours(o, k) && Bound(o, k);
        var c := o[k].snapshot.contentName.value;
        assert KeyOf(o[ContentKey(c)]) == ContentKey(c);
        assert Names(o, k, c);
        forall k2 | Names(o', k2, c) ensures k2 == k {
          assert c != ContentName(job.draws(i));
          assert Names(o, k2, c);
        }
      } else {
        var c := ContentName(job.draws(i));
        forall k2 | Names(o', k2, c) ensures k2 == k { assert !Names(o, k2, c); }
      }
    }
  }

  lemma EffectKeepsFresh(o: Objects, e: Effect, job: Job, i: nat)
    requires i < |job.snapshots| && Allowed(o, e, job, i) && FreshDraws(o, job.draws, i, |job.snapshots|)
    ensures FreshDraws(Apply(o, e), job.draws, i + 1, |job.snapshots|)
  {
    forall j: nat | i + 1 <= j < |job.snapshots| ensures Unused(Apply(o, e), ContentName(job.draws(j))) {
      assert Unused(o, ContentName(job.draws(j)));
      forall k ensures !Names(Apply(o, e), k, ContentName(job.draws(j))) {
        assert !Names(o, k, ContentName(job.draws(j)));
      }
    }
  }

  // At every member, under every pattern of failing calls and stops.
  lemma {:induction false} MembersKeepIntegrity(w: World, job: Job, n: nat)
    requires n <= |job.snapshots|
    requires RefIntegrity(w.objects) && FreshDraws(w.objects, job.draws, 0, |job.snapshots|)
    ensures RefIntegrity(After(w, job, n)) && FreshDraws(After(w, job, n), job.draws, n, |job.snapshots|)
  {
    hide MemberStep, Unused, RefIntegrity;
    if n > 0 {
      MembersKeepIntegrity(w, job, n - 1);
      var e := MemberEffect(Handled(w, job, n - 1), job, n - 1);
      EffectKeepsIntegrity(After(w, job, n - 1), e, job, n - 1);
      EffectKeepsFresh(After(w, job, n - 1), e, job, n - 1);
    }
  }
}
