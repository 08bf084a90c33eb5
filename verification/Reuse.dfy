/** When reusing an existing snapshot is well defined, and what it decides. */
module Reuse {
  import opened Kube
  import opened Api
  import opened Members
  import opened Integrity

  // The content listed first for the snapshot, if any.
  function FirstListed(o: Objects, vs: VolumeSnapshot, order: seq<Key>): Option<SnapshotContent> {
    Find(Listed(o, order, |order|, IsContent), vs.ns, vs.name)
  }

  // It is a stored content that refers to the snapshot by name and namespace; there is none only
  // if no listed content does.
  lemma FoundMeans(o: Objects, vs: VolumeSnapshot, order: seq<Key>)
    ensures var found := FirstListed(o, vs, order);
            && (found.Some? ==>
                  && found.value.refNs == vs.ns && found.value.refName == vs.name
                  && ContentKey(found.value.name) in o && o[ContentKey(found.value.name)] == ContentObject(found.value))
            && (found.None? ==> forall k | k in order && k in o && o[k].ContentObject? ::
                  !(o[k].content.refNs == vs.ns && o[k].content.refName == vs.name))
  {
    var items := Listed(o, order, |order|, IsContent);
    FindIsListed(items, vs.ns, vs.name);
    ListedMembers(o, order, |order|, IsContent);
    assert order[..|order|] == order;
    if FirstListed(o, vs, order).None? {
      forall k | k in order && k in o && o[k].ContentObject? ensures !(o[k].content.refNs == vs.ns && o[k].content.refName == vs.name) {
        assert o[k] in items;
      }
    }
  }

  // The reuse path dereferences a nil pointer: a missing field, or the handle of a content it
  // could not read.  The listing is only reached by a snapshot that can be reused.
  ghost predicate MeetsNil(w: World, vs: VolumeSnapshot, className: string, order: seq<Key>) {
    var o := w.objects;
    || vs.contentName.None?
    || !Passes(w)
    || ContentKey(vs.contentName.value) !in o
    || o[ContentKey(vs.contentName.value)].content.handle.None?
    || vs.className.None?
    || (vs.status.Some? && (vs.status.value.ready.None? || vs.status.value.bound.None?))
    || (!NotReusable(vs, className) && Passes(Spend(w)) && FirstListed(o, vs, order).Some?
        && (FirstListed(o, vs, order).value.handle.None? || FirstListed(o, vs, order).value.className.None?))
  }

  // The process is not stopped before either of its next two calls.
  ghost predicate GoesOn(w: World) {
    !w.halted && forall j | 0 <= j < 2 && j < |w.script| :: !w.script[j].Stop?
  }

  // A process that is not stopped crashes exactly then.
  lemma CrashExactly(w: World, job: Job, vs: VolumeSnapshot, s: DriverSnapshot, d: Draw)
    requires GoesOn(w)
    ensures ReuseVolumeSnapshot(w, job, vs, s, d).world.halted <==> MeetsNil(w, vs, job.vg.spec.className, d.order)
  {
    hide Listed, Find;
  }

  // No snapshot and no content lacks a field.
  ghost predicate FullyPopulated(o: Objects) {
    forall k | k in o ::
      && (o[k].SnapshotObject? ==>
            var vs := o[k].snapshot;
            vs.className.Some? && (vs.status.Some? ==> vs.status.value.ready.Some? && vs.status.value.bound.Some?))
      && (o[k].ContentObject? ==> o[k].content.handle.Some? && o[k].content.className.Some?)
  }

  // A snapshot of the controller's, under referential integrity: the reuse path is safe, refuses
  // exactly an unready, elsewhere-bound or other-class snapshot or a content that does not
  // match, and asks for a new handle only for one that does.
  lemma ReuseWellDefined(w: World, job: Job, k: Key, s: DriverSnapshot, d: Draw)
    requires Steady(w) && RefIntegrity(w.objects) && FullyPopulated(w.objects) && Ours(w.objects, k)
    ensures var vs := w.objects[k].snapshot;
            var m, found := ReuseVolumeSnapshot(w, job, vs, s, d), FirstListed(w.objects, vs, d.order);
            var mismatch := found.Some? && (found.value.driver != job.vg.spec.driverName || found.value.className != vs.className);
            var unready := vs.status.Some? && vs.status.value.ready == Some(false);
            var elsewhere := vs.status.Some? && vs.status.value.bound != vs.contentName;
            && m.world == w
            && (m.failed <==> unready || elsewhere || vs.className != Some(job.vg.spec.className) || mismatch)
            && (m.update <==> !m.failed && found.Some? && found.value.handle != Some(s.snapId))
            && (!m.failed ==> m.contentName == if found.Some? then found.value.name else "")
  {
    var o, vs := w.objects, w.objects[k].snapshot;
    assert Bound(o, k);
    assert ContentKey(vs.contentName.value) in o;
    FindIsListed(Listed(o, d.order, |d.order|, IsContent), vs.ns, vs.name);
    ListedMembers(o, d.order, |d.order|, IsContent);
    hide Listed, Find;
  }

  // Under referential integrity, with all fields there, a refused read of the content is the
  // one thing that crashes the process.
  lemma CrashesIffReadRefused(w: World, job: Job, k: Key, s: DriverSnapshot, d: Draw)
    requires GoesOn(w) && RefIntegrity(w.objects) && FullyPopulated(w.objects) && Ours(w.objects, k)
    ensures ReuseVolumeSnapshot(w, job, w.objects[k].snapshot, s, d).world.halted <==> w.script != [] && w.script[0].Refuse?
  {
    hide Listed, Find, ReuseVolumeSnapshot;
    var o, vs := w.objects, w.objects[k].snapshot;
    assert Bound(o, k);
    assert ContentKey(vs.contentName.value) in o;
    CrashExactly(w, job, vs, s, d);
    FindIsListed(Listed(o, d.order, |d.order|, IsContent), vs.ns, vs.name);
    ListedMembers(o, d.order, |d.order|, IsContent);
    var found := FirstListed(o, vs, d.order);
    if found.Some? {
      assert ContentObject(found.value) in Listed(o, d.order, |d.order|, IsContent);
    }
  }

  // So handling such a member crashes when its snapshot is read and then its content is not.
  lemma RefusedReadCrashes(p: Progress, job: Job, i: nat)
    requires i < |job.snapshots| && !p.world.halted && p.world.script == [Proceed, Refuse]
    requires RefIntegrity(p.world.objects) && FullyPopulated(p.world.objects) && Ours(p.world.objects, job.SnapKey(i))
    ensures MemberStep(p, job, i).world.halted && MemberStep(p, job, i).world.objects == p.world.objects
  {
    hide ReuseVolumeSnapshot, UpdateVolumeSnapshotContentStatus;
    var o, s, d, k := p.world.objects, job.snapshots[i], job.draws(i), job.SnapKey(i);
    assert KeyOf(o[k]) == k && job.NameOf(s) != "";
    var w := Spend(p.world);
    CrashesIffReadRefused(w, job, k, s, d);
    ReuseEffect(w, job, o[k].snapshot, s, d);
    var made := CreateVolumeSnapshot(p.world, job, s, d);
    assert made == ReuseVolumeSnapshot(w, job, o[k].snapshot, s, d);
    assert UpdateVolumeSnapshotContentStatus(made.world, made.contentName, made.update, s).world == made.world by { HaltedRefresh(made.world, made.contentName, made.update, s); }
  }

  lemma HaltedRefresh(w: World, name: string, update: bool, s: DriverSnapshot)
    requires w.halted
    ensures UpdateVolumeSnapshotContentStatus(w, name, update, s).world == w
  {
  }

  /* ---- Which members report an error ---- */

  lemma FlagIsBool(flag: Option<bool>)
    ensures flag.Some? ==> flag == Some(true) || flag == Some(false)
  {
    if flag.Some? && flag.value { assert flag == Some(true); }
  }

  // The reuse path reports none exactly then, under any faults.
  lemma ReuseReports(w: World, job: Job, vs: VolumeSnapshot, s: DriverSnapshot, d: Draw)
    ensures !ReuseVolumeSnapshot(w, job, vs, s, d).failed <==>
            && Passes(w) && Passes(Spend(w))
            && vs.contentName.Some? && vs.className == Some(job.vg.spec.className)
            && ContentKey(vs.contentName.value) in w.objects && w.objects[ContentKey(vs.contentName.value)].content.handle.Some?
            && (vs.status.Some? ==> vs.status.value == SnapshotStatus(Some(true), vs.contentName))
            && (FirstListed(w.objects, vs, d.order).Some? ==>
                  var c := FirstListed(w.objects, vs, d.order).value;
                  c.handle.Some? && c.className == vs.className && c.driver == job.vg.spec.driverName)
  {
    hide Listed, Find;
    FoundMeans(w.objects, vs, d.order);
    var c := CheckExistingVolSnapshot(w, vs, job.vg.spec.className);
    assert !c.unusable ==> c.world == Spend(w);
    if vs.status.Some? { FlagIsBool(vs.status.value.ready); }
    assert !c.unusable <==>
        && Passes(w) && vs.contentName.Some? && vs.className == Some(job.vg.spec.className)
        && ContentKey(vs.contentName.value) in w.objects && w.objects[ContentKey(vs.contentName.value)].content.handle.Some?
        && (vs.status.Some? ==> vs.status.value == SnapshotStatus(Some(true), vs.contentName));
    var found := FirstListed(w.objects, vs, d.order);
    var r := CheckExistingVolsnapcontent(c.world, vs, job.vg.spec.driverName, s.snapId, d.order);
    assert !c.unusable && found.Some? && Passes(Spend(w)) ==>
        (!r.failed <==> found.value.handle.Some? && found.value.className.Some? && found.value.className == vs.className && found.value.driver == job.vg.spec.driverName);
  }

  // Reading the content back, and refreshing it when asked, reports none exactly then.
  lemma RefreshReports(w: World, name: string, update: bool, s: DriverSnapshot)
    ensures !UpdateVolumeSnapshotContentStatus(w, name, update, s).failed <==>
            && Passes(w) && ContentKey(name) in w.objects
            && (update ==> Passes(Spend(w)) && Passes(Spend(Spend(w))))
  {
    if ContentKey(name) in w.objects { RefreshedUnderSameKey(w.objects, ContentKey(name), s); }
    hide Refreshed, Apply;
  }

  // A new member reports no error exactly if both creations and the reading back go through.
  lemma NewMemberReports(p: Progress, job: Job, i: nat)
    requires i < |job.snapshots| && job.SnapKey(i) !in p.world.objects && ContentKey("") !in p.world.objects
    ensures var w := Spend(p.world);
            MemberStep(p, job, i).errors == p.errors <==>
            Passes(w) && Passes(Spend(w)) && Passes(Spend(Spend(w))) && ContentKey(ContentName(job.draws(i))) !in w.objects
  {
    hide UpdateVolumeSnapshotContentStatus;
    var w, s, d := Spend(p.world), job.snapshots[i], job.draws(i);
    var made := CreatePair(w, job, s, d);
    RefreshReports(made.world, made.contentName, made.update, s);
    assert !made.failed <==> Passes(w) && Passes(Spend(w)) && ContentKey(ContentName(d)) !in w.objects;
    assert !made.failed ==> ContentKey(made.contentName) in made.world.objects && made.world.script == Spend(Spend(w)).script && made.world.halted == Spend(Spend(w)).halted;
    assert made.failed ==> MemberStep(p, job, i).errors != p.errors;
    hide CreatePair;
  }

  // An existing one, whose snapshot is read, exactly if it can be reused, a content refers to
  // it, and that is read back and, if its handle is another, refreshed.
  lemma OldMemberReports(p: Progress, job: Job, i: nat)
    requires i < |job.snapshots| && job.SnapKey(i) in p.world.objects && Passes(p.world) && ContentKey("") !in p.world.objects
    ensures var w, s, d := Spend(p.world), job.snapshots[i], job.draws(i);
            var vs := w.objects[job.SnapKey(i)].snapshot;
            var made := ReuseVolumeSnapshot(w, job, vs, s, d);
            MemberStep(p, job, i).errors == p.errors <==>
            && !made.failed && FirstListed(w.objects, vs, d.order).Some?
            && Passes(made.world)
            && (FirstListed(w.objects, vs, d.order).value.handle != Some(s.snapId) ==> Passes(Spend(made.world)) && Passes(Spend(Spend(made.world))))
  {
    hide ReuseVolumeSnapshot, UpdateVolumeSnapshotContentStatus, Listed, Find;
    var w, s, d, k := Spend(p.world), job.snapshots[i], job.draws(i), job.SnapKey(i);
    assert KeyOf(w.objects[k]) == k && job.NameOf(s) != "";
    var vs := w.objects[k].snapshot;
    var made := ReuseVolumeSnapshot(w, job, vs, s, d);
    assert CreateVolumeSnapshot(p.world, job, s, d) == made;
    FoundMeans(w.objects, vs, d.order);
    ReuseReturns(w, job, vs, s, d);
    ReuseEffect(w, job, vs, s, d);
    RefreshReports(made.world, made.contentName, made.update, s);
  }

  lemma ReuseReturns(w: World, job: Job, vs: VolumeSnapshot, s: DriverSnapshot, d: Draw)
    ensures var m, found := ReuseVolumeSnapshot(w, job, vs, s, d), FirstListed(w.objects, vs, d.order);
            !m.failed ==>
              && m.contentName == (if found.Some? then found.value.name else "")
              && (m.update <==> found.Some? && found.value.handle != Some(s.snapId))
  {
    hide Listed, Find;
  }
}
