/** One reconciliation of a volume group, and the notice of a deleted content. */
module Lifecycle {
  import opened Kube
  import opened Api
  import opened Members
  import opened Teardown
  import Naming
  import Polling
  import Selection
  import Text

  // What chance and the driver decide during one reconciliation.
  datatype Choices = Choices(reply: DriverReply, draws: nat -> Draw, claimOrder: seq<Key>, tie: bool)

  function InPhase(vg: VolumeGroup, phase: Phase): VolumeGroup { vg.(status := vg.status.(phase := phase)) }

  /* ---- The driver's answer ---- */

  datatype Processed = Processed(world: World, vg: VolumeGroup, failed: bool)

  function FinalStatus(res: DriverResponse, snaps: string, ready: bool): GroupStatus {
    GroupStatus(res.groupId, Text.TrimRight(snaps, ','), res.creationTime, ready, if ready then Complete else Error)
  }

  function ProcessResponse(w: World, res: DriverResponse, claims: map<string, string>, vg: VolumeGroup, sc: SnapshotClass, ch: Choices): Processed {
    var p := Handled(w, Job(vg, res.snapshots, claims, sc, ch.draws), |res.snapshots|);
    var q := Polling.CheckSnapshotStatus(p.world, vg.ns, p.snaps, vg.spec.timeout, ch.tie);
    var done := vg.(status := FinalStatus(res, p.snaps, q.ready));
    var u := Update(q.world, GroupObject(done));
    Processed(u.world, done, p.errors != [] || u.result.Err?)
  }

  function Finalized(vg: VolumeGroup): VolumeGroup {
    if FINALIZER_NAME in vg.finalizers then vg else vg.(finalizers := vg.finalizers + [FINALIZER_NAME])
  }

  function Identified(vg: VolumeGroup, groupId: string): VolumeGroup {
    if vg.status.groupId == "" then vg.(status := vg.status.(groupId := groupId)) else vg
  }

  function Named(vg: VolumeGroup, res: DriverResponse): VolumeGroup { Identified(Finalized(vg), res.groupId) }

  // An update that is skipped when there is nothing to change.
  function UpdateIfChanged(w: World, before: VolumeGroup, after: VolumeGroup): Reply<()> {
    if before == after then Reply(w, Ok(())) else Update(w, GroupObject(after))
  }

  // From the driver's answer to the end of the reconciliation.
  function Record(w: World, vg: VolumeGroup, res: DriverResponse, claims: map<string, string>, sc: SnapshotClass, ch: Choices): Run {
    var f := UpdateIfChanged(w, vg, Finalized(vg));
    if f.result.Err? then Run(f.world, true)
    else
      var named := Named(vg, res);
      var i := UpdateIfChanged(f.world, Finalized(vg), named);
      if i.result.Err? then Run(i.world, true)
      else
        var p := ProcessResponse(i.world, res, claims, named, sc, ch);
        var u := Update(p.world, GroupObject(p.vg));
        Run(u.world, u.result.Err? || p.failed)
  }

  /* ---- One reconciliation ---- */

  function Abort(w: World, vg: VolumeGroup): Run {
    Run(Update(w, GroupObject(InPhase(vg, Error))).world, true)
  }

  function CallAndRecord(w: World, vg: VolumeGroup, v: Selection.Volumes, sc: SnapshotClass, ch: Choices): Run {
    var r := CallDriver(w, Request(vg, v), ch.reply);
    if r.result.Err? then Abort(r.world, vg) else Record(r.world, vg, r.result.value, v.claims, sc, ch)
  }

  // Everything behind the Pending write; `vg` is already Pending.
  function AfterPending(w: World, vg: VolumeGroup, driver: string, ch: Choices): Run {
    if vg.spec.pvcLabel != "" && vg.spec.pvcList.Some? then Run(w, true)
    else
      var c := Get(w, ClassKey(vg.spec.className));
      if c.result.Err? || c.result.value.class_.driver != driver then Abort(c.world, vg)
      else
        var s := Selection.SelectVolumes(c.world, vg.spec, vg.ns, ch.claimOrder);
        if s.result.None? then Abort(s.world, vg)
        else CallAndRecord(s.world, vg, s.result.value, c.result.value.class_, ch)
  }

  // A failed Pending write is only logged.
  function Take(w: World, vg: VolumeGroup, driver: string, ch: Choices): Run {
    AfterPending(Update(w, GroupObject(vg)).world, vg, driver, ch)
  }

  function Request(vg: VolumeGroup, v: Selection.Volumes): DriverRequest {
    DriverRequest(vg.name, Text.Sort(v.ids), Naming.ExistingGroupId(vg.status.groupId))
  }

  predicate IsComplete(vg: VolumeGroup) { vg.status.phase == Complete && vg.status.groupId != "" }

  function Reconcile(w: World, ns: string, name: string, driver: string, ch: Choices): Run {
    var g := Get(w, GroupKey(ns, name));
    if g.result.Err? then Run(g.world, g.result.error != NotFound)
    else
      var vg := g.result.value.group;
      if vg.deleting then
        if vg.status.phase == Complete && FINALIZER_NAME in vg.finalizers then DeleteVg(g.world, vg) else Run(g.world, true)
      else if IsComplete(vg) then Run(g.world, false)
      else if vg.status.phase == Pending then Run(g.world, true)
      else Take(g.world, InPhase(vg, Pending), driver, ch)
  }

  /* ---- The notice that a content is gone ---- */

  // `issued` says whether the group's own deletion was requested.
  datatype Notice = Notice(world: World, issued: bool)

  function RemoveFirst(xs: seq<string>, x: string): seq<string> {
    if xs == [] then []
    else if xs[0] == x then xs[1..]
    else [xs[0]] + RemoveFirst(xs[1..], x)
  }

  // The first occurrence goes, and nothing else.
  lemma {:induction false} RemoveFirstMeans(xs: seq<string>, x: string) returns (i: nat)
    ensures i <= |xs| && x !in xs[..i] && (i < |xs| ==> xs[i] == x)
    ensures RemoveFirst(xs, x) == if i < |xs| then xs[..i] + xs[i + 1..] else xs
  {
    if xs == [] || xs[0] == x {
      i := 0;
    } else {
      var j := RemoveFirstMeans(xs[1..], x);
      i := j + 1;
      assert xs[..i] == [xs[0]] + xs[1..][..j];
      assert xs == [xs[0]] + xs[1..];
    }
  }

  function Struck(vg: VolumeGroup, snapName: string): VolumeGroup {
    vg.(status := vg.status.(snapshots := Text.Join(RemoveFirst(Text.Split(vg.status.snapshots, ','), snapName), ',')))
  }

  function StrikeMember(w: World, vg: VolumeGroup, snapName: string): Notice {
    var struck := Struck(vg, snapName);
    var u := Update(w, GroupObject(struck));
    if struck.status.snapshots == "" then Notice(Delete(u.world, GroupObject(struck)).world, true)
    else Notice(u.world, false)
  }

  function HandleSnapContentDelete(w: World, content: SnapshotContent): Notice {
    var s := Get(w, SnapshotKey(content.refNs, content.refName));
    if s.result.Err? then Notice(s.world, false)
    else
      var labels := s.result.value.snapshot.labels;
      var group := if LABEL_SNAPSHOT_GROUP in labels then labels[LABEL_SNAPSHOT_GROUP] else "";
      if group == "" then Notice(s.world, false)
      else
        var g := Get(s.world, GroupKey(content.refNs, group));
        if g.result.Err? then Notice(g.world, false)
        else StrikeMember(g.world, g.result.value.group, content.refName)
  }
}
