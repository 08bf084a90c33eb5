/** The reconciler itself: its methods work on the store step by step and are proved to do
    what the specification functions say. */
module Controller {
  import opened Kube
  import opened Api
  import opened Client
  import Lifecycle
  import Members
  import Naming
  import Polling
  import Selection
  import Teardown
  import Text

  class Reconciler {
    const client: Client
    const driverName: string

    constructor (client: Client, driverName: string)
      ensures this.client == client && this.driverName == driverName
    {
      this.client, this.driverName := client, driverName;
    }

    /* ---- Selection ---- */

    method MapVolIdToPvcName(pvcs: seq<Claim>) returns (found: Option<Selection.Volumes>)
      modifies client
      ensures Selection.Selected(client.State(), found) == Selection.MapVolIdToPvcName(old(client.State()), pvcs)
    {
      var srcVolIds: seq<string>, volIdPvcNameMap: map<string, string> := [], map[];
      var systemId := "";
      for k := 0 to |pvcs|
        invariant Selection.MapFrom(client.State(), pvcs, k, Selection.Volumes(srcVolIds, volIdPvcNameMap), systemId)
               == Selection.MapVolIdToPvcName(old(client.State()), pvcs)
      {
        var g := client.Get(VolumeKey(pvcs[k].volumeName));
        if g.Err? { return None; }
        var pv := g.value.volume;
        if pv.csi.None? {
          client.Crash();
          return None;
        }
        var srcVolId := pv.csi.value.handle;
        if !pvcs[k].bound || !pv.bound { continue; }
        var arrayId := Selection.ParseVolumeHandle(pv.csi.value.driver, srcVolId);
        if k == 0 { systemId := arrayId; }
        if systemId != arrayId { return None; }
        srcVolIds := srcVolIds + [srcVolId];
        volIdPvcNameMap := volIdPvcNameMap[srcVolId := pvcs[k].name];
      }
      if |srcVolIds| < 1 || |volIdPvcNameMap| < 1 { return None; }
      return Some(Selection.Volumes(srcVolIds, volIdPvcNameMap));
    }

    method GetSourceVolIdsFromPvcName(names: seq<string>, ns: string) returns (found: Option<Selection.Volumes>)
      modifies client
      ensures Selection.Selected(client.State(), found) == Selection.FromPvcNames(old(client.State()), names, ns)
    {
      var duplicates: set<string>, pvcs: seq<Claim> := {}, [];
      for i := 0 to |names|
        invariant Selection.CollectFrom(client.State(), names, ns, i, duplicates, pvcs)
               == Selection.CollectFrom(old(client.State()), names, ns, 0, {}, [])
      {
        if names[i] in duplicates { continue; }
        duplicates := duplicates + {names[i]};
        var g := client.Get(ClaimKey(ns, names[i]));
        if g.Err? { return None; }
        pvcs := pvcs + [g.value.claim];
      }
      found := MapVolIdToPvcName(pvcs);
    }

    method ListSourceVolIds(wanted: Object -> bool, order: seq<Key>) returns (found: Option<Selection.Volumes>)
      modifies client
      ensures Selection.Selected(client.State(), found) == Selection.FromListing(old(client.State()), wanted, order)
    {
      var l := client.List(order, wanted);
      if l.Err? || |l.value| < 1 { return None; }
      found := MapVolIdToPvcName(Selection.ClaimsOf(l.value));
    }

    method GetSourceVolIds(spec: GroupSpec, ns: string, order: seq<Key>) returns (found: Option<Selection.Volumes>)
      modifies client
      ensures Selection.Selected(client.State(), found) == Selection.SelectVolumes(old(client.State()), spec, ns, order)
    {
      if spec.pvcList.Some? {
        found := GetSourceVolIdsFromPvcName(spec.pvcList.value, ns);
      } else if spec.pvcLabel != "" {
        found := ListSourceVolIds(Selection.WithLabel(ns, spec.pvcLabel), order);
      } else {
        found := ListSourceVolIds(Selection.InNamespace(ns), order);
      }
    }

    /* ---- Readiness ---- */

    method CheckReadyToUse(ns: string, snapshots: string) returns (ready: bool)
      modifies client
      ensures Polling.Ready(client.State(), ready) == Polling.CheckReadyToUse(old(client.State()), ns, snapshots)
    {
      var snaps := Text.Split(snapshots, ',');
      for i := 0 to |snaps|
        invariant Polling.ReadyFrom(client.State(), ns, snaps, i) == Polling.CheckReadyToUse(old(client.State()), ns, snapshots)
      {
        var g := client.Get(SnapshotKey(ns, snaps[i]));
        if g.Ok? && g.value.snapshot.name != "" && g.value.snapshot.status.Some? {
          var status := g.value.snapshot.status.value;
          if status.ready.None? {
            client.Crash();
            return false;
          }
          if !status.ready.value { return false; }
        }
      }
      return true;
    }

    // `tie` is the choice made when a tick and the deadline are both due; `polls` counts the polls.
    method CheckSnapshotStatus(ns: string, snaps: string, timeout: Int64, tie: bool) returns (ok: bool, polls: nat)
      modifies client
      ensures Polling.Polled(client.State(), ok, polls) == Polling.CheckSnapshotStatus(old(client.State()), ns, snaps, timeout, tie)
    {
      var deadline := Polling.Deadline(timeout);
      polls := 0;
      while !client.halted && Polling.PollDue(deadline, tie, polls)
        invariant Polling.PollFrom(client.State(), ns, snaps, deadline, tie, polls)
               == Polling.CheckSnapshotStatus(old(client.State()), ns, snaps, timeout, tie)
        decreases deadline - polls * Polling.TICK
      {
        client.WaitForTick();
        ok := CheckReadyToUse(ns, snaps);
        polls := polls + 1;
        if ok { return; }
      }
      ok := false;
    }

    /* ---- Members ---- */

    method CheckExistingVolSnapshot(vs: VolumeSnapshot, className: string) returns (unusable: bool)
      modifies client
      ensures Members.Checked(client.State(), unusable) == Members.CheckExistingVolSnapshot(old(client.State()), vs, className)
    {
      if vs.contentName.None? {
        client.Crash();
        return true;
      }
      var g := client.Get(ContentKey(vs.contentName.value));
      unusable := g.Err?;
      if vs.status.Some? {
        var status := vs.status.value;
        if status.ready.None? || status.bound.None? {
          client.Crash();
          return true;
        }
        if !status.ready.value { unusable := true; }
        if status.bound.value != vs.contentName.value { unusable := true; }
      }
      // A content that could not be read has no handle either.
      if g.Err? || g.value.content.handle.None? || vs.className.None? {
        client.Crash();
        return true;
      }
      if vs.className.value != className { unusable := true; }
    }

    method ValidateExistingVolSnapcontent(vc: SnapshotContent, vs: VolumeSnapshot, driver: string, snapId: string)
      returns (update: bool, failed: bool)
      modifies client
      ensures match Members.ValidateExistingVolSnapcontent(vc, vs, driver, snapId)
              case Crash => client.State() == Halt(old(client.State())) && failed
              case Verdict(u, f) => client.State() == old(client.State()) && update == u && failed == f
    {
      update, failed := false, false;
      if vc.handle.None? || vs.className.None? || vc.className.None? {
        client.Crash();
        return false, true;
      }
      if vc.handle.value != snapId { update := true; }
      if vc.driver != driver { failed := true; }
      if vs.className.value != vc.className.value { failed := true; }
      if vc.refName != vs.name || vc.refNs != vs.ns { failed := true; }
      if failed { update := false; }
    }

    method CheckExistingVolsnapcontent(vs: VolumeSnapshot, driver: string, snapId: string, order: seq<Key>)
      returns (contentName: string, update: bool, failed: bool)
      modifies client
      ensures Members.Reuse(client.State(), contentName, update, failed)
           == Members.CheckExistingVolsnapcontent(old(client.State()), vs, driver, snapId, order)
    {
      contentName, update, failed := "", false, false;
      var l := client.List(order, Members.IsContent);
      if l.Err? { return "", false, true; }
      var listed := client.State();
      for i := 0 to |l.value|
        invariant client.State() == listed
        invariant contentName == "" && !update && !failed
        invariant Members.Find(l.value[i..], vs.ns, vs.name) == Members.Find(l.value, vs.ns, vs.name)
      {
        assert l.value[i..][1..] == l.value[i + 1..];
        if Members.IsReferring(l.value[i], vs.ns, vs.name) {
          var vc := l.value[i].content;
          update, failed := ValidateExistingVolSnapcontent(vc, vs, driver, snapId);
          if client.halted { return "", false, true; }
          contentName := vc.name;
          return;
        }
      }
    }

    // `name` is the member's VolumeSnapshot name, `d` the runtime's choices for it.
    method CreateVolumeSnapshot(name: string, vg: VolumeGroup, s: DriverSnapshot, sc: SnapshotClass, d: Members.Draw, ghost job: Members.Job)
      returns (update: bool, contentName: string, failed: bool)
      requires job.vg == vg && job.class_ == sc && job.NameOf(s) == name
      modifies client
      ensures Members.Made(client.State(), update, contentName, failed) == Members.CreateVolumeSnapshot(old(client.State()), job, s, d)
    {
      var g := client.Get(SnapshotKey(vg.ns, name));
      if g.Ok? && g.value.snapshot.name != "" {
        var volsnap := g.value.snapshot;
        var unusable := CheckExistingVolSnapshot(volsnap, vg.spec.className);
        if unusable { return false, "", true; }
        contentName, update, failed := CheckExistingVolsnapcontent(volsnap, vg.spec.driverName, s.snapId, d.order);
        if failed { return false, "", true; }
      } else {
        contentName := Members.ContentName(d);
        var content := Members.MakeVolSnapContent(contentName, vg.ns, name, s, sc);
        var c := client.Create(ContentObject(content));
        if c.Err? { return false, "", true; }
        var volsnap := Members.MakeVolSnap(vg, name, contentName);
        var v := client.Create(SnapshotObject(volsnap));
        if v.Err? { return false, "", true; }
        return false, contentName, false;
      }
    }

    method UpdateVolumeSnapshotContentStatus(contentName: string, update: bool, s: DriverSnapshot) returns (failed: bool)
      modifies client
      ensures Members.Refresh(client.State(), failed) == Members.UpdateVolumeSnapshotContentStatus(old(client.State()), contentName, update, s)
    {
      var g := client.Get(ContentKey(contentName));
      if g.Err? { return true; }
      if update {
        var u := client.Update(ContentObject(Members.Refreshed(g.value.content, s)));
        if u.Err? { return true; }
        g := client.Get(ContentKey(contentName));
        if g.Err? { return true; }
      }
      return false;
    }

    // The loop over the members of the answer.
    method CreateMembers(job: Members.Job) returns (snaps: string, errors: seq<nat>)
      modifies client
      ensures Members.Progress(client.State(), snaps, errors) == Members.Handled(old(client.State()), job, |job.snapshots|)
    {
      hide Members.CreateVolumeSnapshot, Members.UpdateVolumeSnapshotContentStatus, Members.Handled;
      ghost var start := client.State();
      snaps, errors := "", [];
      Members.HandledUnfolds(start, job, 0);
      for i := 0 to |job.snapshots|
        invariant Members.Progress(client.State(), snaps, errors) == Members.Handled(start, job, i)
      {
        Members.HandledUnfolds(start, job, i + 1);
        var s := job.snapshots[i];
        var name := job.NameOf(s);
        snaps := snaps + name + ",";
        var update, contentName, failed := CreateVolumeSnapshot(name, job.vg, s, job.class_, job.draws(i), job);
        if failed { errors := errors + [i]; }
        failed := UpdateVolumeSnapshotContentStatus(contentName, update, s);
        if failed { errors := errors + [i]; }
      }
    }

    method ProcessResponse(res: DriverResponse, claims: map<string, string>, vg: VolumeGroup, sc: SnapshotClass, ch: Lifecycle.Choices)
      returns (done: VolumeGroup, failed: bool)
      modifies client
      ensures Lifecycle.Processed(client.State(), done, failed)
           == Lifecycle.ProcessResponse(old(client.State()), res, claims, vg, sc, ch)
    {
      hide Members.Handled, Polling.PollFrom, Polling.Deadline;
      var snaps, errors := CreateMembers(Members.Job(vg, res.snapshots, claims, sc, ch.draws));
      var ok, polls := CheckSnapshotStatus(vg.ns, snaps, vg.spec.timeout, ch.tie);
      var status := if ok then Complete else Error;
      snaps := Text.TrimRight(snaps, ',');
      done := vg.(status := GroupStatus(res.groupId, snaps, res.creationTime, ok, status));
      var u := client.Update(GroupObject(done));
      failed := errors != [] || u.Err?;
    }

    /* ---- Teardown ---- */

    method DeleteVg(vg: VolumeGroup) returns (failed: bool)
      modifies client
      ensures Teardown.Run(client.State(), failed) == Teardown.DeleteVg(old(client.State()), vg)
    {
      hide Delete, Teardown.WithoutString;
      var c := client.Get(ClassKey(vg.spec.className));
      if c.Err? { return true; }
      var policy := c.value.class_.policy;
      var snapshotNames := Text.Split(vg.status.snapshots, ',');
      if policy == DeletePolicy {
        ghost var before := client.State();
        for i := 0 to |snapshotNames|
          invariant Teardown.DeleteFrom(client.State(), vg.ns, snapshotNames, i) == Teardown.DeleteFrom(before, vg.ns, snapshotNames, 0)
        {
          var g := client.Get(SnapshotKey(vg.ns, snapshotNames[i]));
          if g.Err? { continue; }
          var d := client.Delete(g.value);
          if d.Err? { return true; }
        }
        var u := client.Update(GroupObject(Teardown.Unfinalized(vg)));
        if u.Err? { return true; }
      }
      if policy == RetainPolicy {
        var u := client.Update(GroupObject(Teardown.Unfinalized(vg)));
        if u.Err? { return true; }
      }
      return false;
    }

    /* ---- Reconciling ---- */

    // The group goes into Error and the reconciliation ends.
    method Abort(vg: VolumeGroup)
      modifies client
      ensures Teardown.Run(client.State(), true) == Lifecycle.Abort(old(client.State()), vg)
    {
      var u := client.Update(GroupObject(Lifecycle.InPhase(vg, Error)));
    }

    method Record(vg: VolumeGroup, res: DriverResponse, claims: map<string, string>, sc: SnapshotClass, ch: Lifecycle.Choices)
      returns (failed: bool)
      modifies client
      ensures Teardown.Run(client.State(), failed) == Lifecycle.Record(old(client.State()), vg, res, claims, sc, ch)
    {
      hide Lifecycle.ProcessResponse;
      var current := vg;
      if FINALIZER_NAME !in current.finalizers {
        current := current.(finalizers := current.finalizers + [FINALIZER_NAME]);
        var f := client.Update(GroupObject(current));
        if f.Err? { return true; }
      }
      if current.status.groupId == "" && res.groupId != "" {
        current := current.(status := current.status.(groupId := res.groupId));
        var i := client.Update(GroupObject(current));
        if i.Err? { return true; }
      }
      var done, pFailed := ProcessResponse(res, claims, current, sc, ch);
      var u := client.Update(GroupObject(done));
      failed := u.Err? || pFailed;
    }

    method Reconcile(ns: string, name: string, ch: Lifecycle.Choices) returns (failed: bool)
      modifies client
      ensures Teardown.Run(client.State(), failed) == Lifecycle.Reconcile(old(client.State()), ns, name, driverName, ch)
    {
      hide Lifecycle.Record, Lifecycle.Abort, Selection.SelectVolumes, Teardown.DeleteVg, CallDriver;
      var g := client.Get(GroupKey(ns, name));
      if g.Err? { return g.error != NotFound; }
      var vg := g.value.group;
      if vg.deleting {
        if vg.status.phase == Complete && FINALIZER_NAME in vg.finalizers {
          failed := DeleteVg(vg);
          return;
        }
        return true;
      }
      if vg.status.groupId != "" && vg.status.phase == Complete { return false; }
      if vg.status.phase == Pending { return true; }
      vg := Lifecycle.InPhase(vg, Pending);
      var p := client.Update(GroupObject(vg));
      if vg.spec.pvcLabel != "" && vg.spec.pvcList.Some? { return true; }
      var c := client.Get(ClassKey(vg.spec.className));
      if c.Err? || c.value.class_.driver != driverName {
        Abort(vg);
        return true;
      }
      var volumes := GetSourceVolIds(vg.spec, vg.ns, ch.claimOrder);
      if volumes.None? {
        Abort(vg);
        return true;
      }
      var request := DriverRequest(vg.name, Text.Sort(volumes.value.ids), Naming.ExistingGroupId(vg.status.groupId));
      var res := client.CreateVolumeGroupSnapshot(request, ch.reply);
      if res.Err? {
        Abort(vg);
        return true;
      }
      failed := Record(vg, res.value, volumes.value.claims, c.value.class_, ch);
    }

    /* ---- Content watch ---- */

    // Removes the first occurrence of a member from the list.
    method RemoveMember(members: seq<string>, snapName: string) returns (left: seq<string>)
      ensures left == Lifecycle.RemoveFirst(members, snapName)
    {
      left := members;
      for i := 0 to |members|
        invariant left == members
        invariant Lifecycle.RemoveFirst(members, snapName) == members[..i] + Lifecycle.RemoveFirst(members[i..], snapName)
      {
        assert members[i..][1..] == members[i + 1..];
        if members[i] == snapName {
          left := members[..i] + members[i + 1..];
          return;
        }
        assert members[..i] + [members[i]] == members[..i + 1];
      }
    }

    method HandleSnapContentDelete(content: SnapshotContent) returns (issued: bool)
      modifies client
      ensures Lifecycle.Notice(client.State(), issued) == Lifecycle.HandleSnapContentDelete(old(client.State()), content)
    {
      hide Lifecycle.RemoveFirst, Text.Split, Text.Join;
      var snapName, ns := content.refName, content.refNs;
      var snap := client.Get(SnapshotKey(ns, snapName));
      if snap.Err? { return false; }
      var labels := snap.value.snapshot.labels;
      var group := if LABEL_SNAPSHOT_GROUP in labels then labels[LABEL_SNAPSHOT_GROUP] else "";
      if group == "" { return false; }
      var g := client.Get(GroupKey(ns, group));
      if g.Err? { return false; }
      var vg := g.value.group;
      var members := RemoveMember(Text.Split(vg.status.snapshots, ','), snapName);
      vg := vg.(status := vg.status.(snapshots := Text.Join(members, ',')));
      var u := client.Update(GroupObject(vg));
      issued := vg.status.snapshots == "";
      if issued {
        var d := client.Delete(GroupObject(vg));
      }
    }
  }
}
