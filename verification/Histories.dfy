/** Whole histories of a cluster: reconciliations that may fail and stop anywhere, notices of
    deleted contents, deletions by the user, and the external snapshotter's status writes. */
module Histories {
  import opened Kube
  import opened Api
  import opened Integrity
  import opened Lifecycle
  import opened Frames
  import opened GroupWrites
  import opened ReconcileIntegrity
  import OpenGroups
  import Teardown

  // What outlives a process.
  datatype Cluster = Cluster(objects: Objects, requests: seq<DriverRequest>)

  datatype Event =
    | Reconciliation(ns: string, name: string, driver: string, ch: Choices, script: seq<Fault>, env: seq<StatusWrites>)
    | ContentDeleted(content: SnapshotContent, script: seq<Fault>)
    | GroupDeleted(ns: string, name: string)
    | StatusesWritten(writes: StatusWrites)

  function Started(c: Cluster, script: seq<Fault>, env: seq<StatusWrites>): World {
    World(c.objects, script, false, env, c.requests)
  }

  function Ended(w: World): Cluster { Cluster(w.objects, w.requests) }

  // A group with finalizers is marked for deletion, one without is removed.
  function DeleteGroup(o: Objects, k: Key): Objects
    requires k.kind == GroupKind
  {
    if k !in o then o
    else if |o[k].group.finalizers| > 0 then o[k := GroupObject(o[k].group.(deleting := true))]
    else o - {k}
  }

  function Step(c: Cluster, e: Event): Cluster {
    match e
    case Reconciliation(ns, name, driver, ch, script, env) =>
      Ended(Reconcile(Started(c, script, env), ns, name, driver, ch).world)
    case ContentDeleted(content, script) =>
      Ended(HandleSnapContentDelete(Started(c, script, []), content).world)
    case GroupDeleted(ns, name) => c.(objects := DeleteGroup(c.objects, GroupKey(ns, name)))
    case StatusesWritten(writes) => c.(objects := ApplyWrites(c.objects, writes))
  }

  // The cluster after the first `n` events.
  function After(c: Cluster, es: seq<Event>, n: nat): Cluster
    requires n <= |es|
  {
    if n == 0 then c else Step(After(c, es, n - 1), es[n - 1])
  }

  lemma AfterUnfolds(c: Cluster, es: seq<Event>, n: nat)
    requires n <= |es|
    ensures After(c, es, n) == if n == 0 then c else Step(After(c, es, n - 1), es[n - 1])
  {
    hide Step;
  }

  /* ---- What a notice can change ---- */

  // Groups are kept, struck a member, or deleted.
  ghost predicate GroupsStruck(o: Objects, o': Objects) {
    && (forall k: Key | k.kind != GroupKind :: (k in o <==> k in o') && (k in o ==> o[k] == o'[k]))
    && (forall k | k in o' && k.kind == GroupKind ::
          k in o && (o'[k] == o[k] || exists s :: o'[k] == GroupObject(Struck(o[k].group, s))))
  }

  lemma DeleteGroupEffect(w: World, x: VolumeGroup)
    ensures var d := Delete(w, GroupObject(x)).world;
            (d.objects == w.objects || d.objects == w.objects - {GroupKey(x.ns, x.name)}) && d.requests == w.requests
  {
  }

  lemma StrikeEffect(w: World, vg: VolumeGroup, s: string)
    requires GroupKey(vg.ns, vg.name) in w.objects && w.objects[GroupKey(vg.ns, vg.name)] == GroupObject(vg)
    ensures GroupsStruck(w.objects, StrikeMember(w, vg, s).world.objects)
    ensures StrikeMember(w, vg, s).world.requests == w.requests
  {
    hide Delete;
    var x := Struck(vg, s);
    var u := Update(w, GroupObject(x));
    assert GroupsStruck(w.objects, u.world.objects);
    DeleteGroupEffect(u.world, x);
    StruckThenDeleted(w.objects, u.world.objects, GroupKey(vg.ns, vg.name));
  }

  lemma StruckThenDeleted(a: Objects, b: Objects, k: Key)
    requires GroupsStruck(a, b) && k.kind == GroupKind
    ensures GroupsStruck(a, b - {k})
  {
    hide Struck;
  }

  lemma NoticeEffect(w: World, content: SnapshotContent)
    ensures GroupsStruck(w.objects, HandleSnapContentDelete(w, content).world.objects)
    ensures HandleSnapContentDelete(w, content).world.requests == w.requests
  {
    hide StrikeMember;
    var s := Get(w, SnapshotKey(content.refNs, content.refName));
    if s.result.Ok? {
      var labels := s.result.value.snapshot.labels;
      var gk := GroupKey(content.refNs, if LABEL_SNAPSHOT_GROUP in labels then labels[LABEL_SNAPSHOT_GROUP] else "");
      if gk in w.objects {
        assert KeyOf(w.objects[gk]) == gk;
        StrikeEffect(Get(s.world, gk).world, w.objects[gk].group, content.refName);
      }
    }
  }

  /* ---- Every stored Complete is finalized and ready ---- */

  ghost predicate Sound(vg: VolumeGroup) {
    !vg.deleting && vg.status.phase == Complete ==> FINALIZER_NAME in vg.finalizers && vg.status.ready
  }

  ghost predicate AllSound(o: Objects) {
    forall k | k in o && o[k].GroupObject? :: Sound(o[k].group)
  }

  lemma ReconciliationKeepsSound(w: World, ns: string, name: string, driver: string, ch: Choices)
    requires AllSound(w.objects)
    ensures AllSound(Reconcile(w, ns, name, driver, ch).world.objects)
  {
    hide Reconcile;
    ReconcileEffect(w, ns, name, driver, ch);
    var o' := Reconcile(w, ns, name, driver, ch).world.objects;
    forall k | k in o' && o'[k].GroupObject? ensures Sound(o'[k].group) {
      assert KeyOf(o'[k]) == k;
    }
  }

  lemma StepKeepsSound(c: Cluster, e: Event)
    requires AllSound(c.objects)
    ensures AllSound(Step(c, e).objects)
  {
    match e
    case Reconciliation(ns, name, driver, ch, script, env) =>
      hide Reconcile;
      ReconciliationKeepsSound(Started(c, script, env), ns, name, driver, ch);
    case ContentDeleted(content, script) =>
      hide HandleSnapContentDelete;
      NoticeEffect(Started(c, script, []), content);
      var o' := Step(c, e).objects;
      forall k | k in o' && o'[k].GroupObject? ensures Sound(o'[k].group) {
        assert KeyOf(o'[k]) == k;
      }
    case GroupDeleted(ns, name) =>
    case StatusesWritten(writes) =>
  }

  // From groups nobody has processed, through any history.
  lemma {:induction false} EveryCompleteIsSound(c: Cluster, es: seq<Event>, n: nat)
    requires n <= |es| && AllSound(c.objects)
    ensures AllSound(After(c, es, n).objects)
  {
    hide Step, AllSound, After;
    AfterUnfolds(c, es, n);
    if n > 0 {
      EveryCompleteIsSound(c, es, n - 1);
      StepKeepsSound(After(c, es, n - 1), es[n - 1]);
    }
  }

  lemma FreshGroupsAreSound(o: Objects)
    requires forall k | k in o && o[k].GroupObject? :: o[k].group.status.phase == NoPhase
    ensures AllSound(o)
  {
  }

  // So a Complete group that the user deletes is torn down by its next reconciliation.
  lemma DeletingCompleteTearsDown(c: Cluster, es: seq<Event>, ns: string, name: string, w: World, driver: string, ch: Choices)
    requires forall k | k in c.objects && c.objects[k].GroupObject? :: c.objects[k].group.status.phase == NoPhase
    requires var gk, o := GroupKey(ns, name), After(c, es, |es|).objects;
             && gk in o && o[gk].group.status.phase == Complete && !o[gk].group.deleting
             && w.objects == DeleteGroup(o, gk) && Passes(w)
    ensures var vg := After(c, es, |es|).objects[GroupKey(ns, name)].group.(deleting := true);
            Reconcile(w, ns, name, driver, ch) == Teardown.DeleteVg(Spend(w), vg)
  {
    hide Step, Teardown.DeleteVg, Take;
    FreshGroupsAreSound(c.objects);
    EveryCompleteIsSound(c, es, |es|);
    var o := After(c, es, |es|).objects;
    assert KeyOf(o[GroupKey(ns, name)]) == GroupKey(ns, name);
    assert Sound(o[GroupKey(ns, name)].group);
  }

  /* ---- The driver is not called again without a stored Error ---- */

  ghost predicate LockedAt(o: Objects, gk: Key)
    requires gk.kind == GroupKind
  {
    gk in o ==> Locked(o[gk].group)
  }

  // The event reconciles the group at `gk` and calls the driver.
  ghost predicate CallsFor(c: Cluster, e: Event, gk: Key) {
    e.Reconciliation? && GroupKey(e.ns, e.name) == gk && |Step(c, e).requests| > |c.requests|
  }

  lemma LockedGroupIsNotCalledFor(c: Cluster, e: Event, gk: Key)
    requires gk.kind == GroupKind && LockedAt(c.objects, gk)
    ensures !CallsFor(c, e, gk)
  {
    if e.Reconciliation? && GroupKey(e.ns, e.name) == gk {
      hide Reconcile;
      ReconcileEffect(Started(c, e.script, e.env), e.ns, e.name, e.driver, e.ch);
    }
  }

  lemma StepKeepsLocked(c: Cluster, e: Event, gk: Key)
    requires gk.kind == GroupKind && LockedAt(c.objects, gk)
    ensures LockedAt(Step(c, e).objects, gk)
  {
    match e
    case Reconciliation(ns, name, driver, ch, script, env) =>
      hide Reconcile;
      ReconcileEffect(Started(c, script, env), ns, name, driver, ch);
    case ContentDeleted(content, script) =>
      hide HandleSnapContentDelete;
      NoticeEffect(Started(c, script, []), content);
    case GroupDeleted(ns, name) =>
    case StatusesWritten(writes) =>
      if gk in c.objects { assert KeyOf(c.objects[gk]) == gk; }
  }

  // Once Pending, or Complete with an ID, no later reconciliation calls the driver.
  lemma {:induction false} LockedForever(c: Cluster, es: seq<Event>, gk: Key, i: nat, j: nat)
    requires gk.kind == GroupKind && i <= j <= |es| && LockedAt(After(c, es, i).objects, gk)
    ensures LockedAt(After(c, es, j).objects, gk)
    ensures j < |es| ==> !CallsFor(After(c, es, j), es[j], gk)
  {
    hide Step, LockedAt, After, CallsFor;
    if i < j {
      AfterUnfolds(c, es, j);
      LockedForever(c, es, gk, i, j - 1);
      StepKeepsLocked(After(c, es, j - 1), es[j - 1], gk);
    }
    if j < |es| { LockedGroupIsNotCalledFor(After(c, es, j), es[j], gk); }
  }

  // A stored Pending, if the group is still there.
  ghost predicate PendingAt(o: Objects, gk: Key)
    requires gk.kind == GroupKind
  {
    gk in o ==> o[gk].group.status.phase == Pending
  }

  lemma PendingIsIdle(c: Cluster, e: Event, gk: Key)
    requires gk.kind == GroupKind && PendingAt(c.objects, gk) && e.Reconciliation? && GroupKey(e.ns, e.name) == gk
    ensures Step(c, e) == c
  {
    hide Teardown.DeleteVg, Take;
  }

  lemma StepKeepsPending(c: Cluster, e: Event, gk: Key)
    requires gk.kind == GroupKind && PendingAt(c.objects, gk)
    ensures PendingAt(Step(c, e).objects, gk)
  {
    match e
    case Reconciliation(ns, name, driver, ch, script, env) =>
      hide Reconcile;
      if GroupKey(ns, name) == gk {
        PendingIsIdle(c, e, gk);
      } else {
        ReconcileEffect(Started(c, script, env), ns, name, driver, ch);
      }
    case ContentDeleted(content, script) =>
      hide HandleSnapContentDelete;
      NoticeEffect(Started(c, script, []), content);
    case GroupDeleted(ns, name) =>
    case StatusesWritten(writes) =>
      if gk in c.objects { assert KeyOf(c.objects[gk]) == gk; }
  }

  // A stored Pending stays in every history, and reconciling the group, deleted or not, does nothing:
  // it is neither finished nor torn down any more.
  lemma {:induction false} PendingForever(c: Cluster, es: seq<Event>, gk: Key, i: nat, j: nat)
    requires gk.kind == GroupKind && i <= j <= |es| && PendingAt(After(c, es, i).objects, gk)
    ensures PendingAt(After(c, es, j).objects, gk)
    ensures j < |es| && es[j].Reconciliation? && GroupKey(es[j].ns, es[j].name) == gk ==> Step(After(c, es, j), es[j]) == After(c, es, j)
  {
    hide Step, PendingAt, After;
    if i < j {
      AfterUnfolds(c, es, j);
      PendingForever(c, es, gk, i, j - 1);
      StepKeepsPending(After(c, es, j - 1), es[j - 1], gk);
    }
    if j < |es| && es[j].Reconciliation? && GroupKey(es[j].ns, es[j].name) == gk { PendingIsIdle(After(c, es, j), es[j], gk); }
  }

  ghost predicate StoredError(o: Objects, gk: Key)
    requires gk.kind == GroupKind
  {
    gk in o && o[gk].group.status.phase == Error
  }

  // None of the event's writes to the group went through and it was not in Error, or the last
  // one stored it ready without an ID.
  ghost predicate LeavesOpen(c: Cluster, e: Event, gk: Key)
    requires gk.kind == GroupKind
  {
    e.Reconciliation? && gk in c.objects && OpenGroups.LeavesOpen(Started(c, e.script, e.env), c.objects[gk].group, e.ch)
  }

  lemma CallLeaves(c: Cluster, e: Event, gk: Key)
    requires gk.kind == GroupKind && CallsFor(c, e, gk)
    ensures var o' := Step(c, e).objects;
            gk in o' && (!LockedAt(o', gk) && !StoredError(o', gk) <==> LeavesOpen(c, e, gk))
  {
    hide Reconcile, OpenGroups.LeavesOpen, Locked;
    var w := Started(c, e.script, e.env);
    ReconcileEffect(w, e.ns, e.name, e.driver, e.ch);
    OpenGroups.OpenIff(w, e.ns, e.name, e.driver, e.ch);
  }

  // Two driver calls for one group have a stored Error between them, unless the first one
  // left the group open.
  lemma CallsAreSeparated(c: Cluster, es: seq<Event>, gk: Key, i: nat, j: nat)
    requires gk.kind == GroupKind && i < j < |es| && !LeavesOpen(After(c, es, i), es[i], gk)
    ensures CallsFor(After(c, es, i), es[i], gk) && CallsFor(After(c, es, j), es[j], gk) ==>
              StoredError(After(c, es, i + 1).objects, gk)
  {
    hide Step, LockedAt, StoredError, After, CallsFor, LeavesOpen;
    AfterUnfolds(c, es, i + 1);
    if CallsFor(After(c, es, i), es[i], gk) {
      CallLeaves(After(c, es, i), es[i], gk);
      if LockedAt(After(c, es, i + 1).objects, gk) { LockedForever(c, es, gk, i + 1, j); }
    }
  }

  // The same reconciliation with nothing in its way.
  function Undisturbed(e: Event): Event { if e.Reconciliation? then e.(script := [], env := []) else e }

  // If it did, reconciling once more calls the driver with no Error stored; if not, it does not.
  lemma UnseparatedIff(c: Cluster, e: Event, gk: Key)
    requires gk.kind == GroupKind && CallsFor(c, e, gk)
    ensures CallsFor(Step(c, e), Undisturbed(e), gk) && !StoredError(Step(c, e).objects, gk) <==> LeavesOpen(c, e, gk)
  {
    hide Reconcile, OpenGroups.LeavesOpen, Locked;
    CallLeaves(c, e, gk);
    var w := Started(c, e.script, e.env);
    ReconcileEffect(w, e.ns, e.name, e.driver, e.ch);
    OpenGroups.CalledAgainIff(w, e.ns, e.name, e.driver, e.ch);
  }

  // In particular it did not if the Pending write was not refused and the driver gave an ID.
  lemma CarefulCallCloses(c: Cluster, e: Event, gk: Key)
    requires gk.kind == GroupKind && CallsFor(c, e, gk)
    requires |e.script| < 2 || !e.script[1].Refuse?
    requires e.ch.reply.Created? ==> e.ch.reply.response.groupId != ""
    ensures !LeavesOpen(c, e, gk)
  {
    hide Reconcile, OpenGroups.LeavesOpen;
    CallLeaves(c, e, gk);
    ReconcileEffect(Started(c, e.script, e.env), e.ns, e.name, e.driver, e.ch);
  }

  /* ---- Referential integrity at every point of every run ---- */

  ghost predicate DrawsFresh(o: Objects, e: Event) {
    e.Reconciliation? ==> FreshDraws(o, e.ch.draws, 0, Expected(e.ch))
  }

  lemma StepKeepsIntegrity(c: Cluster, e: Event)
    requires RefIntegrity(c.objects) && DrawsFresh(c.objects, e)
    ensures RefIntegrity(Step(c, e).objects)
  {
    match e
    case Reconciliation(ns, name, driver, ch, script, env) =>
      hide Reconcile, RefIntegrity, FreshDraws;
      ReconcileKeepsIntegrity(Started(c, script, env), ns, name, driver, ch);
    case ContentDeleted(content, script) =>
      hide HandleSnapContentDelete, RefIntegrity;
      NoticeEffect(Started(c, script, []), content);
      IntegrityOfMembers(c.objects, Step(c, e).objects);
    case GroupDeleted(ns, name) =>
      hide RefIntegrity;
      IntegrityOfMembers(c.objects, Step(c, e).objects);
    case StatusesWritten(writes) =>
      hide RefIntegrity;
      IntegrityOfStatuses(c.objects, Step(c, e).objects);
  }

  // Scripts may stop a reconciliation before any of its calls, so this holds between any two calls.
  lemma {:induction false} IntegrityAlways(c: Cluster, es: seq<Event>, n: nat)
    requires n <= |es| && RefIntegrity(c.objects)
    requires forall i | 0 <= i < n :: DrawsFresh(After(c, es, i).objects, es[i])
    ensures RefIntegrity(After(c, es, n).objects)
  {
    hide Step, RefIntegrity, DrawsFresh, After;
    AfterUnfolds(c, es, n);
    if n > 0 {
      IntegrityAlways(c, es, n - 1);
      StepKeepsIntegrity(After(c, es, n - 1), es[n - 1]);
    }
  }
}
