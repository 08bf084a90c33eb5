/** Names and identifiers: generated VolumeSnapshot names do not collide, and the tokens
    taken out of identifiers are the ones that were put in. */
module Naming {
  import opened Kube
  import opened Members
  import Isolation
  import Selection
  import Canonical
  import Text

  /* ---- VolumeSnapshot names ---- */

  // The member's VolumeSnapshot name, written out: the driver's name for the snapshot, or the
  // group's where it has none, and the claim of the source volume, as far as it is known.
  ghost predicate IsNamed(job: Job, i: nat, name: string)
    requires i < |job.snapshots|
  {
    var s := job.snapshots[i];
    && (s.name != "" && s.sourceId in job.claims ==> name == s.name + "-" + job.claims[s.sourceId])
    && (s.name == "" && s.sourceId in job.claims ==> name == job.vg.name + "-" + job.claims[s.sourceId])
    && (s.name != "" && s.sourceId !in job.claims ==> name == s.name + "-")
    && (s.name == "" && s.sourceId !in job.claims ==> name == job.vg.name + "-")
  }

  lemma NameMeans(job: Job, i: nat, name: string)
    requires i < |job.snapshots|
    ensures job.Name(i) == name <==> IsNamed(job, i, name)
  {
  }

  // The driver names no snapshot, and each of them comes from another selected volume.
  ghost predicate Unnamed(job: Job) {
    && (forall i | 0 <= i < |job.snapshots| :: job.snapshots[i].name == "" && job.snapshots[i].sourceId in job.claims)
    && (forall i, j | 0 <= i < j < |job.snapshots| :: job.snapshots[i].sourceId != job.snapshots[j].sourceId)
  }

  lemma FallbackNamesDiffer(job: Job, i: nat, j: nat)
    requires Unnamed(job) && Canonical.Injective(job.claims) && i < j < |job.snapshots|
    ensures job.Name(i) != job.Name(j)
  {
    var a, b := job.claims[job.snapshots[i].sourceId], job.claims[job.snapshots[j].sourceId];
    var n := |job.vg.name| + 1;
    assert job.Name(i)[n..] == a && job.Name(j)[n..] == b;
  }

  // Names made from the selection's own map are pairwise distinct.
  lemma FallbackNamesDistinct(o: Objects, pvcs: seq<Claim>, job: Job)
    requires Canonical.DistinctClaimNames(pvcs) && job.claims == Selection.ClaimMap(o, pvcs)
    requires Unnamed(job)
    ensures Isolation.DistinctNames(job)
  {
    hide Canonical.DistinctClaimNames, Selection.ClaimMap, Unnamed;
    Canonical.SelectionMapInjective(o, pvcs);
    forall i, j | 0 <= i < j < |job.snapshots| ensures job.Name(i) != job.Name(j) {
      FallbackNamesDiffer(job, i, j);
    }
  }

  // The second pair is the first with a later dash as the joint.
  ghost predicate ShiftedBy(a: string, p: string, b: string, q: string, x: string) {
    b == a + "-" + x && p == x + "-" + q
  }

  ghost predicate Shifted(a: string, p: string, b: string, q: string) { exists x :: ShiftedBy(a, p, b, q, x) }

  ghost predicate Collide(a: string, p: string, b: string, q: string) {
    (a == b && p == q) || Shifted(a, p, b, q) || Shifted(b, q, a, p)
  }

  lemma LongerBase(a: string, p: string, b: string, q: string)
    requires a + "-" + p == b + "-" + q && |a| < |b|
    ensures ShiftedBy(a, p, b, q, b[|a| + 1..])
  {
    var s := a + "-" + p;
    assert b == s[..|b|] && a == s[..|a|] && p == s[|a| + 1..] && q == s[|b| + 1..];
    assert b == b[..|a|] + [b[|a|]] + b[|a| + 1..];
    assert s[|a|] == '-' && s[|b|] == '-';
  }

  // Two names composed with a dash are the same exactly if their parts are, or if one of
  // them has another dash where the other is joined.
  lemma CollideIff(a: string, p: string, b: string, q: string)
    ensures a + "-" + p == b + "-" + q <==> Collide(a, p, b, q)
  {
    if a + "-" + p == b + "-" + q {
      if |a| < |b| {
        LongerBase(a, p, b, q);
      } else if |b| < |a| {
        LongerBase(b, q, a, p);
      } else {
        var s := a + "-" + p;
        assert a == s[..|a|] && b == s[..|b|] && p == s[|a| + 1..] && q == s[|b| + 1..];
      }
    }
    if Shifted(a, p, b, q) {
      var x :| ShiftedBy(a, p, b, q, x);
      assert a + "-" + (x + "-" + q) == (a + "-" + x) + "-" + q;
    }
    if Shifted(b, q, a, p) {
      var x :| ShiftedBy(b, q, a, p, x);
      assert b + "-" + (x + "-" + p) == (b + "-" + x) + "-" + p;
    }
  }

  ghost predicate MembersCollide(job: Job, i: nat, j: nat)
    requires i < |job.snapshots| && j < |job.snapshots|
  {
    var s, t := job.snapshots[i], job.snapshots[j];
    Collide(job.BaseOf(s), job.ClaimOf(s), job.BaseOf(t), job.ClaimOf(t))
  }

  // So exactly then do two members get the same VolumeSnapshot.
  lemma DistinctNamesIff(job: Job)
    ensures Isolation.DistinctNames(job) <==> forall i: nat, j: nat | i < j < |job.snapshots| :: !MembersCollide(job, i, j)
  {
    hide Collide;
    forall i: nat, j: nat | i < j < |job.snapshots| ensures job.Name(i) == job.Name(j) <==> MembersCollide(job, i, j) {
      var s, t := job.snapshots[i], job.snapshots[j];
      CollideIff(job.BaseOf(s), job.ClaimOf(s), job.BaseOf(t), job.ClaimOf(t));
    }
  }

  // Without dashes in the bases only equal parts collide.
  lemma DashFreeNames(a: string, p: string, b: string, q: string)
    requires '-' !in a && '-' !in b
    ensures Collide(a, p, b, q) <==> a == b && p == q
  {
  }

  // An instance: snapshots `a` of claim `b-c` and `a-b` of claim `c`.
  lemma DashedNamesCollide(job: Job, s: DriverSnapshot, t: DriverSnapshot)
    requires job.claims == map["v1" := "b-c", "v2" := "c"]
    requires s.name == "a" && s.sourceId == "v1" && t.name == "a-b" && t.sourceId == "v2"
    ensures job.NameOf(s) == job.NameOf(t)
  {
    assert ShiftedBy("a", "b-c", "a-b", "c", "b");
    CollideIff("a", "b-c", "a-b", "c");
  }

  /* ---- Tokens ---- */

  lemma DefaultHandleToken(driverType: string, a: string, rest: string)
    requires driverType != "csi-powerstore.dellemc.com" && '-' !in a
    ensures Selection.ParseVolumeHandle(driverType, a + "-" + rest) == a
    ensures Selection.ParseVolumeHandle(driverType, a) == a
  {
    Text.SplitFirst(a, rest, '-');
    Text.SplitFree(a, '-');
  }

  lemma PowerstoreHandleToken(v: string, a: string, rest: string)
    requires '/' !in v && '/' !in a
    ensures Selection.ParseVolumeHandle("csi-powerstore.dellemc.com", v + "/" + a + "/" + rest) == a
    ensures Selection.ParseVolumeHandle("csi-powerstore.dellemc.com", v + "/" + a) == a
    ensures Selection.ParseVolumeHandle("csi-powerstore.dellemc.com", v) == ""
  {
    assert v + "/" + a + "/" + rest == v + "/" + (a + "/" + rest);
    Text.SplitFirst(v, a + "/" + rest, '/');
    Text.SplitFirst(a, rest, '/');
    Text.SplitFirst(v, a, '/');
    Text.SplitFree(a, '/');
    Text.SplitFree(v, '/');
  }

  // A volume handle as the drivers compose it: `a-rest`, or `v/a/rest` for PowerStore.
  function Handle(driverType: string, volume: string, a: string, rest: string): string {
    if driverType == "csi-powerstore.dellemc.com" then volume + "/" + a + "/" + rest else a + "-" + rest
  }

  ghost predicate CleanParts(driverType: string, volume: string, a: string) {
    if driverType == "csi-powerstore.dellemc.com" then '/' !in volume && '/' !in a else '-' !in a
  }

  // Two composed handles pass for one system exactly if they are of one array.
  lemma ArraysToldApart(driverType: string, u: string, a: string, x: string, v: string, b: string, y: string)
    requires CleanParts(driverType, u, a) && CleanParts(driverType, v, b)
    ensures var one := Selection.ParseVolumeHandle(driverType, Handle(driverType, u, a, x));
            var other := Selection.ParseVolumeHandle(driverType, Handle(driverType, v, b, y));
            one == other <==> a == b
  {
    if driverType == DRIVER_TYPE_POWERSTORE {
      PowerstoreHandleToken(u, a, x);
      PowerstoreHandleToken(v, b, y);
    } else {
      DefaultHandleToken(driverType, a, x);
      DefaultHandleToken(driverType, b, y);
    }
  }

  // The group ID handed to the next driver attempt: the part behind the last dash.
  function ExistingGroupId(gid: string): string { Text.Last(Text.Split(gid, '-')) }

  lemma StoredGroupToken(prefix: string, g: string)
    requires '-' !in g
    ensures ExistingGroupId(prefix + "-" + g) == g && ExistingGroupId(g) == g
  {
    Text.LastToken(prefix, g, '-');
    Text.SplitFree(g, '-');
  }
}
