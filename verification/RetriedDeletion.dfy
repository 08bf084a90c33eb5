/** Reconciling a deleted group again after a failed or stopped attempt. */
module RetriedDeletion {
  import opened Kube
  import opened Api
  import opened Lifecycle
  import opened Teardown
  import Frames
  import GroupWrites
  import Text

  lemma {:induction false} StringGone(xs: seq<string>, x: string)
    ensures x !in WithoutString(xs, x)
  {
    if xs != [] { StringGone(xs[1..], x); }
  }

  // The reads of an attempt behind the group and its class: no live member is missed.
  ghost predicate AttemptMissesNothing(w: World, vg: VolumeGroup) {
    var c := Get(Spend(w), ClassKey(vg.spec.className));
    c.result.Ok? && c.result.value.class_.policy == DeletePolicy ==>
      NoMissedRead(c.world, vg.ns, Text.Split(vg.status.snapshots, ','), 0)
  }

  lemma {:induction false} SettledPass(o: Objects, ns: string, names: seq<string>, i: nat)
    requires i <= |names| && AllSettled(o, ns, names, i)
    ensures Teardown.Clear(o, ns, names, i) == Cleared(o, false)
    decreases |names| - i
  {
    hide TearOne, Stuck;
    if i < |names| {
      SettledIsSkipped(o, SnapshotKey(ns, names[i]));
      SettledPass(o, ns, names, i + 1);
    }
  }

  // An attempt over the members that goes through has done all of an uninterrupted one.
  lemma CompletedAttempt(w: World, ns: string, names: seq<string>)
    requires NoMissedRead(w, ns, names, 0)
    requires !DeleteFrom(w, ns, names, 0).failed && !DeleteFrom(w, ns, names, 0).world.halted
    ensures Teardown.Clear(w.objects, ns, names, 0) == Cleared(DeleteFrom(w, ns, names, 0).world.objects, false)
  {
    hide NoMissedRead, DeleteFrom, Live;
    var j := AttemptIsPrefix(w, ns, names, 0);
    RetryFinishes(w, ns, names, 0);
    SettledPass(DeleteFrom(w, ns, names, 0).world.objects, ns, names, 0);
  }

  // What `DeleteVg` stores when nothing disturbs it.
  ghost function Outcome(o: Objects, vg: VolumeGroup): Objects {
    var gk := GroupKey(vg.ns, vg.name);
    if ClassKey(vg.spec.className) !in o then o
    else
      match o[ClassKey(vg.spec.className)].class_.policy
      case DeletePolicy =>
        var c := Teardown.Clear(o, vg.ns, Text.Split(vg.status.snapshots, ','), 0);
        if c.failed || gk !in c.objects then c.objects else c.objects[gk := GroupObject(Unfinalized(vg))]
      case RetainPolicy => if gk !in o then o else o[gk := GroupObject(Unfinalized(vg))]
      case OtherPolicy => o
  }

  lemma SteadyOutcome(w: World, vg: VolumeGroup)
    requires Steady(w)
    ensures DeleteVg(w, vg).world.objects == Outcome(w.objects, vg)
  {
    hide DeleteFrom, Teardown.Clear, WithoutString, Text.Split;
    SteadyTeardown(w, vg.ns, Text.Split(vg.status.snapshots, ','), 0);
  }

  lemma TeardownKeepsOthers(w: World, vg: VolumeGroup, k: Key)
    requires !Frames.IsMemberKey(k)
    ensures var o' := DeleteFrom(w, vg.ns, Text.Split(vg.status.snapshots, ','), 0).world.objects;
            (k in o' <==> k in w.objects) && (k in o' ==> o'[k] == w.objects[k])
  {
    hide DeleteFrom;
    Frames.TeardownFrame(w, vg.ns, Text.Split(vg.status.snapshots, ','));
  }

  // After an attempt the store either still leads to the undisturbed outcome, or is that outcome.
  ghost predicate LeadsOn(o: Objects, o': Objects, vg: VolumeGroup) {
    var gk := GroupKey(vg.ns, vg.name);
    && gk in o'
    && (|| (o'[gk] == GroupObject(vg) && Outcome(o', vg) == Outcome(o, vg))
        || (o'[gk] == GroupObject(Unfinalized(vg)) && o' == Outcome(o, vg)))
  }

  lemma DeletingLeadsOn(w: World, vg: VolumeGroup)
    requires ClassKey(vg.spec.className) in w.objects && w.objects[ClassKey(vg.spec.className)].class_.policy == DeletePolicy && Passes(w)
    requires NoMissedRead(Spend(w), vg.ns, Text.Split(vg.status.snapshots, ','), 0)
    requires GroupKey(vg.ns, vg.name) in w.objects && w.objects[GroupKey(vg.ns, vg.name)] == GroupObject(vg)
    ensures LeadsOn(w.objects, DeleteVg(w, vg).world.objects, vg)
  {
    hide DeleteFrom, Teardown.Clear, WithoutString, Text.Split, NoMissedRead;
    var c, names := Spend(w), Text.Split(vg.status.snapshots, ',');
    var t := DeleteFrom(c, vg.ns, names, 0);
    TeardownKeepsOthers(c, vg, GroupKey(vg.ns, vg.name));
    TeardownKeepsOthers(c, vg, ClassKey(vg.spec.className));
    RetryFinishes(c, vg.ns, names, 0);
    if !t.failed && !t.world.halted { CompletedAttempt(c, vg.ns, names); }
  }

  lemma AttemptLeadsOn(w: World, vg: VolumeGroup)
    requires var c := Get(w, ClassKey(vg.spec.className));
             c.result.Ok? && c.result.value.class_.policy == DeletePolicy ==>
               NoMissedRead(c.world, vg.ns, Text.Split(vg.status.snapshots, ','), 0)
    requires GroupKey(vg.ns, vg.name) in w.objects && w.objects[GroupKey(vg.ns, vg.name)] == GroupObject(vg)
    ensures LeadsOn(w.objects, DeleteVg(w, vg).world.objects, vg)
  {
    hide DeleteFrom, Teardown.Clear, WithoutString, Text.Split, NoMissedRead;
    var c := Get(w, ClassKey(vg.spec.className));
    if c.result.Ok? && c.result.value.class_.policy == DeletePolicy {
      hide LeadsOn;
      DeletingLeadsOn(w, vg);
    }
  }

  // A disturbed reconciliation of a deleted group and then an undisturbed one leave the store
  // an undisturbed one alone leaves.
  lemma RetryEqualsOneShot(w: World, again: World, alone: World, ns: string, name: string, driver: string, ch: Choices)
    requires GroupKey(ns, name) in w.objects
    requires var vg := w.objects[GroupKey(ns, name)].group;
             vg.deleting && vg.status.phase == Complete && FINALIZER_NAME in vg.finalizers && AttemptMissesNothing(w, vg)
    requires Steady(again) && again.objects == Reconcile(w, ns, name, driver, ch).world.objects
    requires Steady(alone) && alone.objects == w.objects
    ensures Reconcile(again, ns, name, driver, ch).world.objects == Reconcile(alone, ns, name, driver, ch).world.objects
  {
    hide DeleteVg, Take, WithoutString, Outcome, NoMissedRead;
    var gk := GroupKey(ns, name);
    assert KeyOf(w.objects[gk]) == gk;
    var vg := w.objects[gk].group;
    StringGone(vg.finalizers, FINALIZER_NAME);
    SteadyOutcome(alone, vg);
    SteadyOutcome(again, vg);
    if Passes(w) { AttemptLeadsOn(Spend(w), vg); }
  }

  /* ---- Any number of attempts ---- */

  lemma OutcomeStatuses(o: Objects, o': Objects, vg: VolumeGroup)
    requires Frames.StatusesOnly(o, o')
    ensures Frames.StatusesOnly(Outcome(o, vg), Outcome(o', vg))
  {
    hide Teardown.Clear, Unfinalized, Text.Split;
    var ck := ClassKey(vg.spec.className);
    assert ck in o ==> KeyOf(o[ck]) == ck && o'[ck] == o[ck];
    Frames.ClearStatuses(o, o', vg.ns, Text.Split(vg.status.snapshots, ','), 0);
  }

  // Up to statuses, the store still leads to the outcome of the original one, or is that outcome.
  ghost predicate StillLeads(o0: Objects, o: Objects, vg: VolumeGroup) {
    var gk := GroupKey(vg.ns, vg.name);
    && gk in o
    && (|| (o[gk] == GroupObject(vg) && Frames.StatusesOnly(Outcome(o0, vg), Outcome(o, vg)))
        || (o[gk] == GroupObject(Unfinalized(vg)) && Frames.StatusesOnly(Outcome(o0, vg), o)))
  }

  lemma StatusesStillLead(o0: Objects, o: Objects, o': Objects, vg: VolumeGroup)
    requires StillLeads(o0, o, vg) && Frames.StatusesOnly(o, o')
    ensures StillLeads(o0, o', vg)
  {
    hide Outcome, Unfinalized;
    var gk := GroupKey(vg.ns, vg.name);
    assert KeyOf(o'[gk]) == gk;
    OutcomeStatuses(o, o', vg);
    if o[gk] == GroupObject(vg) && Frames.StatusesOnly(Outcome(o0, vg), Outcome(o, vg)) {
      Frames.StatusesTransitive(Outcome(o0, vg), Outcome(o, vg), Outcome(o', vg));
    } else {
      Frames.StatusesTransitive(Outcome(o0, vg), o, o');
    }
  }

  // The group is deleted, Complete and finalized.
  ghost predicate Deletable(vg: VolumeGroup) {
    vg.deleting && vg.status.phase == Complete && FINALIZER_NAME in vg.finalizers
  }

  lemma AttemptStillLeads(o0: Objects, w: World, vg: VolumeGroup, driver: string, ch: Choices)
    requires Deletable(vg) && StillLeads(o0, w.objects, vg)
    requires w.objects[GroupKey(vg.ns, vg.name)] == GroupObject(vg) ==> AttemptMissesNothing(w, vg)
    ensures StillLeads(o0, Reconcile(w, vg.ns, vg.name, driver, ch).world.objects, vg)
  {
    hide DeleteVg, Take, WithoutString, Outcome, NoMissedRead, Frames.StatusesOnly;
    var gk := GroupKey(vg.ns, vg.name);
    StringGone(vg.finalizers, FINALIZER_NAME);
    if Passes(w) && w.objects[gk] == GroupObject(vg) { AttemptLeadsOn(Spend(w), vg); }
  }

  lemma UndisturbedEnds(o0: Objects, w: World, vg: VolumeGroup, driver: string, ch: Choices)
    requires Deletable(vg) && Steady(w) && StillLeads(o0, w.objects, vg)
    ensures Frames.StatusesOnly(Outcome(o0, vg), Reconcile(w, vg.ns, vg.name, driver, ch).world.objects)
  {
    hide DeleteVg, Take, WithoutString, Outcome, Frames.StatusesOnly;
    StringGone(vg.finalizers, FINALIZER_NAME);
    SteadyOutcome(w, vg);
  }

  // Each attempt finds what the one before it left, up to statuses, and none that finds the
  // group misses the read of a live member.
  ghost predicate Attempts(ws: seq<World>, vg: VolumeGroup, driver: string, ch: Choices) {
    && (forall i: nat | i < |ws| - 1 ::
          Frames.StatusesOnly(Reconcile(ws[i], vg.ns, vg.name, driver, ch).world.objects, ws[i + 1].objects))
    && forall i: nat | i < |ws| - 1 && GroupKey(vg.ns, vg.name) in ws[i].objects
                       && ws[i].objects[GroupKey(vg.ns, vg.name)] == GroupObject(vg) :: AttemptMissesNothing(ws[i], vg)
  }

  lemma {:induction false} AttemptsStillLead(ws: seq<World>, vg: VolumeGroup, driver: string, ch: Choices, n: nat)
    requires n < |ws| && Deletable(vg) && Attempts(ws, vg, driver, ch)
    requires GroupKey(vg.ns, vg.name) in ws[0].objects && ws[0].objects[GroupKey(vg.ns, vg.name)] == GroupObject(vg)
    ensures StillLeads(ws[0].objects, ws[n].objects, vg)
  {
    hide Reconcile, AttemptMissesNothing, Outcome, Unfinalized;
    if n > 0 {
      hide StillLeads, Frames.StatusesOnly;
      AttemptsStillLead(ws, vg, driver, ch, n - 1);
      LeadingHasGroup(ws[0].objects, ws[n - 1].objects, vg);
      AttemptStillLeads(ws[0].objects, ws[n - 1], vg, driver, ch);
      StatusesStillLead(ws[0].objects, Reconcile(ws[n - 1], vg.ns, vg.name, driver, ch).world.objects, ws[n].objects, vg);
    }
  }

  lemma LeadingHasGroup(o0: Objects, o: Objects, vg: VolumeGroup)
    requires StillLeads(o0, o, vg)
    ensures GroupKey(vg.ns, vg.name) in o
  {
  }

  // Any number of disturbed attempts, with statuses written in between, and an undisturbed one
  // leave what an undisturbed one alone leaves, up to those statuses.
  lemma RetriesEqualOneShot(ws: seq<World>, alone: World, vg: VolumeGroup, driver: string, ch: Choices)
    requires |ws| >= 1 && Deletable(vg) && Attempts(ws, vg, driver, ch) && Steady(ws[|ws| - 1])
    requires GroupKey(vg.ns, vg.name) in ws[0].objects && ws[0].objects[GroupKey(vg.ns, vg.name)] == GroupObject(vg)
    requires Steady(alone) && alone.objects == ws[0].objects
    ensures Frames.StatusesOnly(Reconcile(alone, vg.ns, vg.name, driver, ch).world.objects,
                                Reconcile(ws[|ws| - 1], vg.ns, vg.name, driver, ch).world.objects)
  {
    hide Attempts, DeleteVg, Take, Outcome, StillLeads, Frames.StatusesOnly;
    AttemptsStillLead(ws, vg, driver, ch, |ws| - 1);
    UndisturbedEnds(ws[0].objects, ws[|ws| - 1], vg, driver, ch);
    SteadyOutcome(alone, vg);
  }

  /* ---- The finalizer ---- */

  // The attempt gets to its last update, and that one goes through.
  ghost predicate DropsFinalizer(w: World, vg: VolumeGroup) {
    var c := Get(w, ClassKey(vg.spec.className));
    c.result.Ok? &&
      match c.result.value.class_.policy
      case DeletePolicy =>
        var t := DeleteFrom(c.world, vg.ns, Text.Split(vg.status.snapshots, ','), 0);
        !t.failed && Passes(t.world)
      case RetainPolicy => Passes(c.world)
      case OtherPolicy => false
  }

  // Then the stored group has lost the controller's own finalizer, and nothing else.  Otherwise it
  // is as it was, finalizer included; and except under a policy that is neither Delete nor Retain
  // an error is reported.
  lemma FinalizerFate(w: World, vg: VolumeGroup)
    requires GroupKey(vg.ns, vg.name) in w.objects && w.objects[GroupKey(vg.ns, vg.name)] == GroupObject(vg)
    ensures var r, gk, c := DeleteVg(w, vg), GroupKey(vg.ns, vg.name), Get(w, ClassKey(vg.spec.className));
            && gk in r.world.objects
            && var x := GroupWrites.GroupAt(r.world.objects, gk);
            && (if DropsFinalizer(w, vg)
                then x == vg.(finalizers := x.finalizers) && KeptBut(vg.finalizers, "vgFinalizer", x.finalizers) && x == Unfinalized(vg)
                else x == vg)
            && (!r.failed <==> DropsFinalizer(w, vg) || (c.result.Ok? && c.result.value.class_.policy == OtherPolicy))
  {
    hide DeleteFrom, WithoutString, Text.Split, KeptBut;
    UnfinalizedMeans(vg);
    var c := Get(w, ClassKey(vg.spec.className));
    TeardownKeepsOthers(c.world, vg, GroupKey(vg.ns, vg.name));
  }

  // The group is deleted, Complete, finalized, of policy Delete, and lists each member once.
  ghost predicate TornDown(o: Objects, vg: VolumeGroup) {
    && GroupKey(vg.ns, vg.name) in o && o[GroupKey(vg.ns, vg.name)] == GroupObject(vg)
    && vg.deleting && vg.status.phase == Complete && FINALIZER_NAME in vg.finalizers
    && ClassKey(vg.spec.className) in o && o[ClassKey(vg.spec.className)].class_.policy == DeletePolicy
    && Distinct(Text.Split(vg.status.snapshots, ','))
  }

  ghost predicate LosesFinalizerEarly(o': Objects, vg: VolumeGroup) {
    && GroupKey(vg.ns, vg.name) in o' && FINALIZER_NAME !in o'[GroupKey(vg.ns, vg.name)].group.finalizers
    && !AllSettled(o', vg.ns, Text.Split(vg.status.snapshots, ','), 0)
  }

  // Reconciling it, the finalizer goes while a listed member is still live exactly if a live
  // member's read was refused and the last update was reached all the same.
  lemma EarlyFinalizerIff(w: World, vg: VolumeGroup, driver: string, ch: Choices)
    requires TornDown(w.objects, vg) && Passes(w)
    ensures LosesFinalizerEarly(Reconcile(w, vg.ns, vg.name, driver, ch).world.objects, vg) <==>
            && DropsFinalizer(Spend(w), vg)
            && !NoMissedRead(Spend(Spend(w)), vg.ns, Text.Split(vg.status.snapshots, ','), 0)
  {
    hide DeleteFrom, WithoutString, Text.Split, NoMissedRead, Live, Take;
    var v, c, names := Spend(w), Spend(Spend(w)), Text.Split(vg.status.snapshots, ',');
    FinalizerFate(v, vg);
    StringGone(vg.finalizers, FINALIZER_NAME);
    if DropsFinalizer(v, vg) {
      var t := DeleteFrom(c, vg.ns, names, 0);
      MissedReadIff(c, vg.ns, names);
      assert AllSettled(DeleteVg(v, vg).world.objects, vg.ns, names, 0) <==> AllSettled(t.world.objects, vg.ns, names, 0) by {
        SettledBesideGroup(t.world.objects, vg.ns, names, Unfinalized(vg));
        TeardownKeepsOthers(c, vg, GroupKey(vg.ns, vg.name));
      }
    }
  }

  lemma SettledBesideGroup(o: Objects, ns: string, names: seq<string>, x: VolumeGroup)
    ensures AllSettled(o[GroupKey(x.ns, x.name) := GroupObject(x)], ns, names, 0) <==> AllSettled(o, ns, names, 0)
  {
  }
}
