/** What a reconciliation stores, asks the driver for and reports, case by case, said on the
    store it finds. */
module Outcomes {
  import opened Kube
  import opened Api
  import opened CreateDelete
  import opened Covering
  import opened GroupWrites
  import opened Lifecycle
  import opened Members
  import opened OpenGroups
  import Canonical
  import Frames
  import Naming
  import Polling
  import RoundTrip
  import Selection
  import Teardown
  import Text

  /* ---- Nothing to do ---- */

  // Whatever fails later: a group that cannot be read is an error, one that is gone is none; a
  // deleted group is refused unless it is Complete and finalized; a Complete one with an ID is
  // left alone, a Pending one is refused.  Nothing is changed.
  lemma IdleOutcomes(w: World, ns: string, name: string, driver: string, ch: Choices)
    ensures var r, gk := Reconcile(w, ns, name, driver, ch), GroupKey(ns, name);
            && (!Passes(w) ==> r == Teardown.Run(Spend(w), true))
            && (Passes(w) && gk !in w.objects ==> r == Teardown.Run(Spend(w), false))
            && (Passes(w) && gk in w.objects ==>
                  var vg := GroupAt(w.objects, gk);
                  && (vg.deleting && !(vg.status.phase == Complete && "vgFinalizer" in vg.finalizers) ==> r == Teardown.Run(Spend(w), true))
                  && (!vg.deleting && vg.status.phase == Complete && vg.status.groupId != "" ==> r == Teardown.Run(Spend(w), false))
                  && (!vg.deleting && vg.status.phase == Pending ==> r == Teardown.Run(Spend(w), true)))
  {
    hide Take, Teardown.DeleteVg;
  }

  /* ---- Claims and volumes do not depend on the group ---- */

  lemma {:induction false} SameHandles(o: Objects, o': Objects, pvcs: seq<Claim>)
    requires SameClaimsAndVolumes(o, o')
    ensures Selection.Handles(o, pvcs) == Selection.Handles(o', pvcs) && Selection.ClaimMap(o, pvcs) == Selection.ClaimMap(o', pvcs)
  {
    hide Selection.ParseVolumeHandle;
    if pvcs != [] { SameHandles(o, o', pvcs[..|pvcs| - 1]); }
  }

  lemma SameFits(o: Objects, o': Objects, pvcs: seq<Claim>)
    requires SameClaimsAndVolumes(o, o')
    ensures Selectable(o, pvcs) <==> Selectable(o', pvcs)
    ensures DerailsFrom(o, pvcs, 0) <==> DerailsFrom(o', pvcs, 0)
  {
    hide Selection.ParseVolumeHandle;
    assert forall c :: Selection.Readable(o, c) <==> Selection.Readable(o', c);
    assert forall c :: Selection.IsBound(o, c) <==> Selection.IsBound(o', c);
    assert forall c :: Selection.ArrayOf(o, c) == Selection.ArrayOf(o', c);
    assert forall c :: NoSource(o, c) <==> NoSource(o', c);
    assert Selection.SystemId(o, pvcs) == Selection.SystemId(o', pvcs);
    assert forall c :: Selection.Fits(o, pvcs, c) <==> Selection.Fits(o', pvcs, c);
    hide Selection.Fits, NoSource, Selection.IsBound, Selection.ArrayOf, Selection.Readable;
  }

  lemma SameCandidates(o: Objects, o': Objects, spec: GroupSpec, ns: string, order: seq<Key>)
    requires SameClaimsAndVolumes(o, o')
    ensures AllNamed(o, spec, ns) <==> AllNamed(o', spec, ns)
    ensures Candidates(o, spec, ns, order) == Candidates(o', spec, ns, order)
  {
    hide Canonical.FirstOccurrences;
    if spec.pvcList.None? {
      hide Listed, Selection.ClaimsOf;
      ListedAgain(o, o', order, |order|, Wanted(spec, ns));
    } else if AllNamed(o, spec, ns) {
      OccursIff(spec.pvcList.value);
      var first := Canonical.FirstOccurrences(spec.pvcList.value, 0, {});
      assert forall i | 0 <= i < |first| :: first[i] in first;
      assert ClaimsNamed(o, ns, first) == ClaimsNamed(o', ns, first);
    }
  }

  lemma GroupIsNoClaim(o: Objects, x: VolumeGroup)
    ensures SameClaimsAndVolumes(o, WithGroup(o, x))
  {
  }

  /* ---- The claims an undisturbed reconciliation works on ---- */

  ghost function CoveredClaims(o: Objects, vg: VolumeGroup, ch: Choices): seq<Claim> {
    Candidates(o, vg.spec, vg.ns, ch.claimOrder)
  }

  ghost predicate HasClass(o: Objects, vg: VolumeGroup, driver: string) {
    ClassKey(vg.spec.className) in o && o[ClassKey(vg.spec.className)].class_.driver == driver
  }

  ghost predicate AskedForBoth(vg: VolumeGroup) { vg.spec.pvcLabel != "" && vg.spec.pvcList.Some? }

  // The group is there, and neither deleted nor closed.
  ghost predicate Untaken(w: World, vg: VolumeGroup, ch: Choices) {
    && Steady(w) && GroupKey(vg.ns, vg.name) in w.objects && w.objects[GroupKey(vg.ns, vg.name)] == GroupObject(vg)
    && !vg.deleting && !(vg.status.phase == Complete && vg.status.groupId != "") && vg.status.phase != Pending
    && Enumerates(ch.claimOrder, w.objects)
  }

  // All named claims exist, and the covered ones can be selected.
  ghost predicate FindsVolumes(o: Objects, vg: VolumeGroup, ch: Choices) {
    AllNamed(o, vg.spec, vg.ns) && Selectable(o, CoveredClaims(o, vg, ch))
  }

  // The selection dereferences the missing CSI source of a volume.
  ghost predicate Derails(o: Objects, vg: VolumeGroup, ch: Choices) {
    AllNamed(o, vg.spec, vg.ns) && DerailsFrom(o, CoveredClaims(o, vg, ch), 0)
  }

  lemma CoveredClaimsAreCovered(w: World, vg: VolumeGroup, ch: Choices)
    requires Untaken(w, vg, ch) && AllNamed(w.objects, vg.spec, vg.ns)
    ensures Covers(w.objects, vg.spec, vg.ns, CoveredClaims(w.objects, vg, ch))
  {
    CandidatesAreCovered(w.objects, vg.spec, vg.ns, ch.claimOrder);
  }

  lemma FoundIsNotDerailed(o: Objects, vg: VolumeGroup, ch: Choices)
    requires FindsVolumes(o, vg, ch)
    ensures !Derails(o, vg, ch)
  {
    hide Candidates;
    var pvcs := CoveredClaims(o, vg, ch);
    forall k | 0 <= k < |pvcs| ensures !NoSource(o, pvcs[k]) { assert pvcs[k] in pvcs; }
  }

  // The selection behind the Pending write, said on the store before it.
  lemma ChosenMeans(w: World, vg: VolumeGroup, ch: Choices)
    requires Untaken(w, vg, ch)
    ensures var p := w.(objects := WithGroup(w.objects, InPhase(vg, Pending)));
            var s, o, pvcs := Selection.SelectVolumes(p, vg.spec, vg.ns, ch.claimOrder), w.objects, CoveredClaims(w.objects, vg, ch);
            && s.result == (if FindsVolumes(o, vg, ch) then Some(Selection.Volumes(Selection.Handles(o, pvcs), Selection.ClaimMap(o, pvcs))) else None)
            && s.world == (if Derails(o, vg, ch) then Halt(p) else p)
  {
    hide Selection.SelectVolumes, Candidates, Selectable, AllNamed, DerailsFrom, SameClaimsAndVolumes;
    var x := InPhase(vg, Pending);
    var p := w.(objects := WithGroup(w.objects, x));
    GroupIsNoClaim(w.objects, x);
    SameCandidates(w.objects, p.objects, vg.spec, vg.ns, ch.claimOrder);
    SameFits(w.objects, p.objects, CoveredClaims(w.objects, vg, ch));
    SameHandles(w.objects, p.objects, CoveredClaims(w.objects, vg, ch));
    assert Enumerates(ch.claimOrder, p.objects);
    SelectsCovered(p, vg.spec, vg.ns, ch.claimOrder);
    SelectionCrashesIff(p, vg.spec, vg.ns, ch.claimOrder);
  }

  lemma TakenInto(w: World, vg: VolumeGroup, driver: string, ch: Choices)
    requires Untaken(w, vg, ch)
    ensures Reconcile(w, vg.ns, vg.name, driver, ch)
         == AfterPending(w.(objects := WithGroup(w.objects, InPhase(vg, Pending))), InPhase(vg, Pending), driver, ch)
  {
    hide AfterPending;
    UpdateSteady(w, InPhase(vg, Pending));
  }

  lemma AbortsToError(w: World, vg: VolumeGroup)
    requires Steady(w) && GroupKey(vg.ns, vg.name) in w.objects
    ensures var p := w.(objects := WithGroup(w.objects, InPhase(vg, Pending)));
            Abort(p, InPhase(vg, Pending)) == Teardown.Run(w.(objects := WithGroup(w.objects, InPhase(vg, Error))), true)
  {
    var p := w.(objects := WithGroup(w.objects, InPhase(vg, Pending)));
    UpdateSteady(p, InPhase(vg, Error));
    assert WithGroup(p.objects, InPhase(vg, Error)) == WithGroup(w.objects, InPhase(vg, Error));
  }

  lemma HaltedAbort(w: World, vg: VolumeGroup)
    requires w.halted
    ensures Abort(w, vg) == Teardown.Run(w, true)
  {
  }

  /* ---- The request ---- */

  // `g` is what `id` has behind its last dash.
  ghost predicate IsTokenOf(g: string, id: string) { '-' !in g && (id == g || exists prefix :: id == prefix + "-" + g) }

  lemma TokenMeans(id: string)
    ensures IsTokenOf(Naming.ExistingGroupId(id), id)
  {
    var parts := Text.Split(id, '-');
    var n := |parts| - 1;
    Text.JoinSplit(id, '-');
    if n > 0 {
      assert parts == parts[..n] + [parts[n]];
      Text.JoinSnoc(parts[..n], parts[n], '-');
      assert id == Text.Join(parts[..n], '-') + "-" + parts[n];
    }
  }

  // It names the group, lists the handles, each as often as there are claims for it, in ascending
  // order, and hands on the last part of the stored group ID.
  ghost predicate AsksFor(q: DriverRequest, vg: VolumeGroup, handles: seq<string>) {
    && q.name == vg.name
    && multiset(q.volumeIds) == multiset(handles)
    && (forall i, j | 0 <= i < j < |q.volumeIds| :: Text.NotAfter(q.volumeIds[i], q.volumeIds[j]))
    && IsTokenOf(q.existingGroupId, vg.status.groupId)
  }

  lemma RequestAsks(vg: VolumeGroup, v: Selection.Volumes)
    ensures AsksFor(Request(vg, v), vg, v.ids)
  {
    var ids := Text.Sort(v.ids);
    Text.SortSorts(v.ids);
    TokenMeans(vg.status.groupId);
    hide Text.LessEq, Text.NotAfter, IsTokenOf, Text.Sort;
    forall i, j | 0 <= i < j < |ids| ensures Text.NotAfter(ids[i], ids[j]) { Text.LessEqMeans(ids[i], ids[j]); }
  }

  /* ---- Groups that are not created ---- */

  // An undisturbed reconciliation of an open group leaves it Pending if it asks for a label and a
  // list, or if the process crashes on a volume without a CSI source.  Otherwise it leaves it in
  // Error if the class is missing or of another driver, if a named claim is missing or the covered
  // claims cannot be selected, or if the driver fails -- which is then asked once.  It reports an
  // error and changes nothing else.
  lemma RefusedOutcomes(w: World, vg: VolumeGroup, driver: string, ch: Choices)
    requires Untaken(w, vg, ch)
    ensures var r, o := Reconcile(w, vg.ns, vg.name, driver, ch), w.objects;
            var pending := w.(objects := WithGroup(o, vg.(status := vg.status.(phase := Pending))));
            var error := w.(objects := WithGroup(o, vg.(status := vg.status.(phase := Error))));
            if AskedForBoth(vg) then r == Teardown.Run(pending, true)
            else if !HasClass(o, vg, driver) then r == Teardown.Run(error, true)
            else if Derails(o, vg, ch) then r == Teardown.Run(Halt(pending), true)
            else if !FindsVolumes(o, vg, ch) then r == Teardown.Run(error, true)
            else ch.reply.DriverFailed? ==>
              && r.failed && |r.world.requests| == |w.requests| + 1
              && r.world == error.(requests := w.requests + [r.world.requests[|w.requests|]])
              && AsksFor(r.world.requests[|w.requests|], vg, Selection.Handles(o, CoveredClaims(o, vg, ch)))
  {
    hide Selection.SelectVolumes, Record, Abort, Candidates, FindsVolumes, Derails, AsksFor, Request;
    TakenInto(w, vg, driver, ch);
    var p, x := w.(objects := WithGroup(w.objects, InPhase(vg, Pending))), InPhase(vg, Pending);
    AbortsToError(w, vg);
    ChosenMeans(w, vg, ch);
    HaltedAbort(Halt(p), x);
    if FindsVolumes(w.objects, vg, ch) && ch.reply.DriverFailed? {
      FoundIsNotDerailed(w.objects, vg, ch);
      var v := Selection.SelectVolumes(p, vg.spec, vg.ns, ch.claimOrder).result.value;
      AskedAsGroup(vg, v);
      AbortsToError(w.(requests := w.requests + [Request(x, v)]), vg);
    }
  }

  lemma AskedAsGroup(vg: VolumeGroup, v: Selection.Volumes)
    ensures AsksFor(Request(InPhase(vg, Pending), v), vg, v.ids)
  {
    RequestAsks(InPhase(vg, Pending), v);
  }

  // If nothing of that is the case, the driver is asked once, for the volumes of the covered claims.
  lemma DriverAsked(w: World, vg: VolumeGroup, driver: string, ch: Choices)
    requires Untaken(w, vg, ch) && !AskedForBoth(vg) && HasClass(w.objects, vg, driver) && FindsVolumes(w.objects, vg, ch)
    ensures var asked := Reconcile(w, vg.ns, vg.name, driver, ch).world.requests;
            && |asked| == |w.requests| + 1 && asked[..|w.requests|] == w.requests
            && AsksFor(asked[|w.requests|], vg, Selection.Handles(w.objects, CoveredClaims(w.objects, vg, ch)))
  {
    hide Selection.SelectVolumes, Record, Abort, Candidates, FindsVolumes, Derails, AsksFor, Request;
    TakenInto(w, vg, driver, ch);
    var p, x := w.(objects := WithGroup(w.objects, InPhase(vg, Pending))), InPhase(vg, Pending);
    ChosenMeans(w, vg, ch);
    FoundIsNotDerailed(w.objects, vg, ch);
    var v, sc := Selection.SelectVolumes(p, vg.spec, vg.ns, ch.claimOrder).result.value, p.objects[ClassKey(vg.spec.className)].class_;
    AskedAsGroup(vg, v);
    var a := CallDriver(p, Request(x, v), ch.reply);
    AbortCallsNobody(a.world, x);
    if a.result.Ok? { RecordWrites(a.world, x, a.result.value, v.claims, sc, ch); }
  }

  /* ---- What is stored and reported behind the driver's answer ---- */

  // The finalizer is added if it is missing, and the driver's ID stored if there is none, each by
  // one write; the answer is processed exactly if these go through.
  lemma AnswerStartMeans(w: World, vg: VolumeGroup, res: DriverResponse)
    requires GroupKey(vg.ns, vg.name) in w.objects
    ensures var needsFinalizer, needsId := "vgFinalizer" !in vg.finalizers, vg.status.groupId == "" && res.groupId != "";
            var w1 := if needsFinalizer then Spend(w) else w;
            var w2 := if needsId then Spend(w1) else w1;
            var x := vg.(finalizers := if needsFinalizer then vg.finalizers + ["vgFinalizer"] else vg.finalizers,
                         status := vg.status.(groupId := if needsId then res.groupId else vg.status.groupId));
            var start := AnswerStart(w, vg, res);
            && (start.Some? <==> (needsFinalizer ==> Passes(w)) && (needsId ==> Passes(w1)))
            && (start.Some? ==> start.value == w2.(objects := if needsFinalizer || needsId then WithGroup(w.objects, x) else w.objects))
            && Named(vg, res) == x
  {
    var f := Finalized(vg);
    assert WithGroup(WithGroup(w.objects, f), Named(vg, res)) == WithGroup(w.objects, Named(vg, res));
  }

  // The processed group differs from the one before in its status alone, which is the answer's.
  lemma AnswerStores(w: World, res: DriverResponse, claims: map<string, string>, vg: VolumeGroup, sc: SnapshotClass, ch: Choices)
    requires GroupKey(vg.ns, vg.name) in w.objects
    ensures var p, q, gk := ProcessResponse(w, res, claims, vg, sc, ch), Waited(w, res, claims, vg, sc, ch), GroupKey(vg.ns, vg.name);
            && p.vg == vg.(status := GroupStatus(res.groupId, p.vg.status.snapshots, res.creationTime, q.ready, if q.ready then Complete else Error))
            && gk in p.world.objects && p.world.objects[gk] == (if Passes(q.world) then GroupObject(p.vg) else w.objects[gk])
            && (p.failed <==> Handled(w, Job(vg, res.snapshots, claims, sc, ch.draws), |res.snapshots|).errors != [] || !Passes(q.world))
  {
    ProcessGroup(w, res, claims, vg, sc, ch);
    WaitKeepsGroup(w, res, claims, vg, sc, ch);
    var q := Waited(w, res, claims, vg, sc, ch);
    var p := Handled(w, Job(vg, res.snapshots, claims, sc, ch.draws), |res.snapshots|);
    UpdateLands(q.world, vg.(status := FinalStatus(res, p.snaps, q.ready)));
    hide Handled, Polling.PollFrom, Polling.Deadline, Text.TrimRight, Update;
  }

  lemma WaitKeepsGroup(w: World, res: DriverResponse, claims: map<string, string>, vg: VolumeGroup, sc: SnapshotClass, ch: Choices)
    requires GroupKey(vg.ns, vg.name) in w.objects
    ensures GroupKey(vg.ns, vg.name) in Waited(w, res, claims, vg, sc, ch).world.objects
  {
    hide Handled, Polling.PollFrom, Polling.Deadline, Frames.MembersOnly, Frames.StatusesOnly;
    var gk, job := GroupKey(vg.ns, vg.name), Job(vg, res.snapshots, claims, sc, ch.draws);
    var p, q := Handled(w, job, |res.snapshots|), Waited(w, res, claims, vg, sc, ch);
    Frames.HandledFrame(w, job, |res.snapshots|);
    Frames.PollFrame(p.world, vg.ns, p.snaps, Polling.Deadline(vg.spec.timeout), ch.tie, 0);
    StatusesAreMembersOnly(p.world.objects, q.world.objects);
    GroupStays(w.objects, p.world.objects, gk);
    GroupStays(p.world.objects, q.world.objects, gk);
  }

  // Its list splits into the names of the members, written out; without members it is empty.
  lemma AnswerLists(w: World, res: DriverResponse, claims: map<string, string>, vg: VolumeGroup, sc: SnapshotClass, ch: Choices)
    requires RoundTrip.CommaFree(Job(vg, res.snapshots, claims, sc, ch.draws))
    ensures var job, stored := Job(vg, res.snapshots, claims, sc, ch.draws), ProcessResponse(w, res, claims, vg, sc, ch).vg.status.snapshots;
            if |res.snapshots| == 0 then stored == ""
            else
              var list := Text.Split(stored, ',');
              |list| == |res.snapshots| && forall i: nat | i < |list| :: Naming.IsNamed(job, i, list[i])
  {
    hide Handled, Polling.CheckSnapshotStatus, Text.Split, RoundTrip.CommaFree, Naming.IsNamed, Update;
    var job := Job(vg, res.snapshots, claims, sc, ch.draws);
    RoundTrip.SnapsAreTerminated(w, job, |res.snapshots|);
    RoundTrip.StoredNames(job);
    forall i: nat | i < |res.snapshots| ensures Naming.IsNamed(job, i, job.Names(|res.snapshots|)[i]) { Naming.NameMeans(job, i, job.Name(i)); }
  }

  // No error is reported exactly if the writes before go through, no member fails, and both
  // writes of the status go through.
  lemma RecordReports(w: World, vg: VolumeGroup, res: DriverResponse, claims: map<string, string>, sc: SnapshotClass, ch: Choices)
    requires GroupKey(vg.ns, vg.name) in w.objects
    ensures var start, named := AnswerStart(w, vg, res), Named(vg, res);
            !Record(w, vg, res, claims, sc, ch).failed <==>
            && start.Some?
            && Handled(start.value, Job(named, res.snapshots, claims, sc, ch.draws), |res.snapshots|).errors == []
            && Passes(Waited(start.value, res, claims, named, sc, ch).world)
            && Passes(Spend(Waited(start.value, res, claims, named, sc, ch).world))
  {
    hide Handled, ProcessResponse, UpdateIfChanged, Update, Waited;
    IfChangedLands(w, vg, Finalized(vg));
    var f := UpdateIfChanged(w, vg, Finalized(vg));
    if f.result.Ok? {
      IfChangedLands(f.world, Finalized(vg), Named(vg, res));
      var i := UpdateIfChanged(f.world, Finalized(vg), Named(vg, res));
      if i.result.Ok? {
        AnswerStores(i.world, res, claims, Named(vg, res), sc, ch);
        ProcessGroup(i.world, res, claims, Named(vg, res), sc, ch);
        var p := ProcessResponse(i.world, res, claims, Named(vg, res), sc, ch);
        UpdateLands(p.world, p.vg);
      }
    }
  }

  // A driver that could not be asked or failed is reported.
  lemma CallReports(w: World, vg: VolumeGroup, v: Selection.Volumes, sc: SnapshotClass, ch: Choices)
    ensures var a := CallDriver(w, Request(vg, v), ch.reply);
            && (a.result.Ok? <==> Passes(w) && ch.reply.Created?)
            && (a.result.Err? ==> CallAndRecord(w, vg, v, sc, ch).failed)
            && (a.result.Ok? ==> CallAndRecord(w, vg, v, sc, ch) == Record(a.world, vg, ch.reply.response, v.claims, sc, ch))
  {
    hide Record, Request;
  }

  /* ---- A created group ---- */

  // The group an undisturbed creation leaves, field by field.
  lemma CreatedGroupMeans(w: World, vg: VolumeGroup, driver: string, res: DriverResponse, ch: Choices)
    requires Unhindered(w, vg, driver, res, ch) && |res.snapshots| >= 1
    ensures var job, gk, o' := CreateJob(w, vg, driver, res, ch), GroupKey(vg.ns, vg.name), Reconcile(w, vg.ns, vg.name, driver, ch).world.objects;
            var ready := Waiting(Requested(w, vg, driver, res, ch), job, ch).ready;
            && gk in o'
            && var x := GroupAt(o', gk);
            && x == vg.(finalizers := x.finalizers, status := x.status)
            && x.finalizers == (if "vgFinalizer" in vg.finalizers then vg.finalizers else vg.finalizers + ["vgFinalizer"])
            && x.status == GroupStatus(res.groupId, x.status.snapshots, res.creationTime, ready, if ready then Complete else Error)
            && var list := Text.Split(x.status.snapshots, ',');
            && |list| == |res.snapshots| && forall i: nat | i < |list| :: Naming.IsNamed(job, i, list[i])
  {
    hide Reconcile, Selection.SelectVolumes, RoundTrip.Pairs, Waiting, Text.TrimRight, Text.Split, Text.Terminated, Frames.StatusesOnly, Naming.IsNamed, FlaggedWrites, RoundTrip.DistinctPairs, RoundTrip.NoneThere, RoundTrip.CommaFree;
    CreatedStore(w, vg, driver, res, ch);
    var job := CreateJob(w, vg, driver, res, ch);
    assert |job.snapshots| == |res.snapshots|;
    RoundTrip.StoredNames(job);
    forall i: nat | i < |res.snapshots| ensures Naming.IsNamed(job, i, job.Names(|res.snapshots|)[i]) { Naming.NameMeans(job, i, job.Name(i)); }
  }
}
