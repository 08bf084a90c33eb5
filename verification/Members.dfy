/** Turning the driver's answer into VolumeSnapshot/VolumeSnapshotContent pairs: what
    `processResponse` and its helpers do to the world for each member of the group, and
    the one change each member can make. */
module Members {
  import opened Kube
  import opened Api

  // The runtime's free choices while one member is handled: the UUID and the map order.
  datatype Draw = Draw(uuid: string, order: seq<Key>)

  function ContentName(d: Draw): string { "snapcontent-" + d.uuid }

  // Everything the loop over the members works from.
  datatype Job = Job(
    vg: VolumeGroup,
    snapshots: seq<DriverSnapshot>,
    claims: map<string, string>,
    class_: SnapshotClass,
    draws: nat -> Draw)
  {
    function BaseOf(s: DriverSnapshot): string { if s.name != "" then s.name else vg.name }

    function ClaimOf(s: DriverSnapshot): string { if s.sourceId in claims then claims[s.sourceId] else "" }

    function NameOf(s: DriverSnapshot): string { BaseOf(s) + "-" + ClaimOf(s) }

    function Name(i: nat): string
      requires i < |snapshots|
    {
      NameOf(snapshots[i])
    }

    function Names(n: nat): seq<string>
      requires n <= |snapshots|
    {
      seq(n, i requires 0 <= i < n => Name(i))
    }

    function SnapKey(i: nat): Key
      requires i < |snapshots|
    {
      SnapshotKey(vg.ns, Name(i))
    }
  }

  predicate RefersTo(c: SnapshotContent, ns: string, name: string) { c.refNs == ns && c.refName == name }

  function MakeVolSnap(vg: VolumeGroup, name: string, contentName: string): VolumeSnapshot {
    VolumeSnapshot(vg.ns, name, map[LABEL_SNAPSHOT_GROUP := vg.name], false, Some(vg.spec.className), Some(contentName), None)
  }

  function MakeVolSnapContent(contentName: string, ns: string, name: string, s: DriverSnapshot, sc: SnapshotClass): SnapshotContent {
    SnapshotContent(contentName, ns, name, Some(s.snapId), Some(sc.name), sc.policy, sc.driver, None)
  }

  function Refreshed(c: SnapshotContent, s: DriverSnapshot): SnapshotContent {
    c.(handle := Some(s.snapId), status := Some(ContentStatus(s.snapId, s.creationTime, s.ready, s.capacity)))
  }

  /* ---- Reusing what exists ---- */

  // `unusable` is the error flag of the check; a nil pointer crashes the process instead.
  datatype Checked = Checked(world: World, unusable: bool)

  predicate SnapshotHasNil(vs: VolumeSnapshot) {
    vs.className.None? || (vs.status.Some? && (vs.status.value.ready.None? || vs.status.value.bound.None?))
  }

  predicate NotReusable(vs: VolumeSnapshot, className: string)
    requires vs.contentName.Some? && !SnapshotHasNil(vs)
  {
    || (vs.status.Some? && (vs.status.value.ready == Some(false) || vs.status.value.bound != vs.contentName))
    || vs.className != Some(className)
  }

  function CheckExistingVolSnapshot(w: World, vs: VolumeSnapshot, className: string): Checked {
    if vs.contentName.None? then Checked(Halt(w), true)
    else
      var g := Get(w, ContentKey(vs.contentName.value));
      if g.result.Err? || g.result.value.content.handle.None? || SnapshotHasNil(vs) then Checked(Halt(g.world), true)
      else Checked(g.world, NotReusable(vs, className))
  }

  datatype Validation = Crash | Verdict(update: bool, failed: bool)

  function ValidateExistingVolSnapcontent(vc: SnapshotContent, vs: VolumeSnapshot, driverName: string, snapId: string): Validation {
    if vc.handle.None? || vc.className.None? || vs.className.None? then Crash
    else
      var failed := vc.driver != driverName || vc.className != vs.className || !RefersTo(vc, vs.ns, vs.name);
      Verdict(!failed && vc.handle != Some(snapId), failed)
  }

  predicate IsContent(o: Object) { o.ContentObject? }

  predicate IsReferring(o: Object, ns: string, name: string) { o.ContentObject? && RefersTo(o.content, ns, name) }

  // The first listed content that refers to the snapshot.
  function Find(items: seq<Object>, ns: string, name: string): Option<SnapshotContent> {
    if items == [] then None
    else if IsReferring(items[0], ns, name) then Some(items[0].content)
    else Find(items[1..], ns, name)
  }

  datatype Reuse = Reuse(world: World, contentName: string, update: bool, failed: bool)

  function CheckExistingVolsnapcontent(w: World, vs: VolumeSnapshot, driverName: string, snapId: string, order: seq<Key>): Reuse {
    var l := List(w, order, IsContent);
    if l.result.Err? then Reuse(l.world, "", false, true)
    else
      match Find(l.result.value, vs.ns, vs.name)
      case None => Reuse(l.world, "", false, false)
      case Some(vc) =>
        match ValidateExistingVolSnapcontent(vc, vs, driverName, snapId)
        case Crash => Reuse(Halt(l.world), "", false, true)
        case Verdict(update, failed) => Reuse(l.world, vc.name, update, failed)
  }

  /* ---- One member ---- */

  datatype Made = Made(world: World, update: bool, contentName: string, failed: bool)

  function ReuseVolumeSnapshot(w: World, job: Job, vs: VolumeSnapshot, s: DriverSnapshot, d: Draw): Made {
    var c := CheckExistingVolSnapshot(w, vs, job.vg.spec.className);
    if c.unusable then Made(c.world, false, "", true)
    else
      var r := CheckExistingVolsnapcontent(c.world, vs, job.vg.spec.driverName, s.snapId, d.order);
      if r.failed then Made(r.world, false, "", true) else Made(r.world, r.update, r.contentName, false)
  }

  function CreatePair(w: World, job: Job, s: DriverSnapshot, d: Draw): Made {
    var name := job.NameOf(s);
    var c := Create(w, ContentObject(MakeVolSnapContent(ContentName(d), job.vg.ns, name, s, job.class_)));
    if c.result.Err? then Made(c.world, false, "", true)
    else
      var v := Create(c.world, SnapshotObject(MakeVolSnap(job.vg, name, ContentName(d))));
      if v.result.Err? then Made(v.world, false, "", true) else Made(v.world, false, ContentName(d), false)
  }

  function CreateVolumeSnapshot(w: World, job: Job, s: DriverSnapshot, d: Draw): Made {
    var g := Get(w, SnapshotKey(job.vg.ns, job.NameOf(s)));
    if g.result.Ok? && g.result.value.snapshot.name != "" then ReuseVolumeSnapshot(g.world, job, g.result.value.snapshot, s, d)
    else CreatePair(g.world, job, s, d)
  }

  datatype Refresh = Refresh(world: World, failed: bool)

  function UpdateVolumeSnapshotContentStatus(w: World, contentName: string, update: bool, s: DriverSnapshot): Refresh {
    var g := Get(w, ContentKey(contentName));
    if g.result.Err? then Refresh(g.world, true)
    else if !update then Refresh(g.world, false)
    else
      var u := Update(g.world, ContentObject(Refreshed(g.result.value.content, s)));
      if u.result.Err? then Refresh(u.world, true)
      else
        var again := Get(u.world, ContentKey(contentName));
        Refresh(again.world, again.result.Err?)
  }

  // `errors` holds, for each collected error, the member it came from.
  datatype Progress = Progress(world: World, snaps: string, errors: seq<nat>)

  function MemberStep(p: Progress, job: Job, i: nat): Progress
    requires i < |job.snapshots|
  {
    var s := job.snapshots[i];
    var made := CreateVolumeSnapshot(p.world, job, s, job.draws(i));
    var refreshed := UpdateVolumeSnapshotContentStatus(made.world, made.contentName, made.update, s);
    Progress(refreshed.world, p.snaps + job.Name(i) + ",",
             p.errors + (if made.failed then [i] else []) + (if refreshed.failed then [i] else []))
  }

  // The loop after `i` members.
  function Handled(w: World, job: Job, i: nat): Progress
    requires i <= |job.snapshots|
  {
    if i == 0 then Progress(w, "", []) else MemberStep(Handled(w, job, i - 1), job, i - 1)
  }

  lemma HandledUnfolds(w: World, job: Job, n: nat)
    requires n <= |job.snapshots|
    ensures Handled(w, job, n) == if n == 0 then Progress(w, "", []) else MemberStep(Handled(w, job, n - 1), job, n - 1)
  {
    hide MemberStep;
  }

  function After(w: World, job: Job, i: nat): Objects
    requires i <= |job.snapshots|
  {
    Handled(w, job, i).world.objects
  }

  /* ---- The one change a member can make ---- */

  datatype Effect =
    | Nothing
    | Orphaned(content: SnapshotContent)
    | Paired(content: SnapshotContent, snapshot: VolumeSnapshot)
    | Rehandled(stale: SnapshotContent, s: DriverSnapshot)

  function Apply(o: Objects, e: Effect): Objects {
    match e
    case Nothing => o
    case Orphaned(c) => o[ContentKey(c.name) := ContentObject(c)]
    case Paired(c, v) => o[ContentKey(c.name) := ContentObject(c)][SnapshotKey(v.ns, v.name) := SnapshotObject(v)]
    case Rehandled(stale, s) => o[ContentKey(stale.name) := ContentObject(Refreshed(stale, s))]
  }

  // What the member `i` of the job may change in a store `o`.
  ghost predicate Allowed(o: Objects, e: Effect, job: Job, i: nat)
    requires i < |job.snapshots|
  {
    var s := job.snapshots[i];
    var made := MakeVolSnapContent(ContentName(job.draws(i)), job.vg.ns, job.Name(i), s, job.class_);
    match e
    case Nothing => true
    case Orphaned(c) => c == made && ContentKey(c.name) !in o
    case Paired(c, v) =>
      && c == made && ContentKey(c.name) !in o
      && v == MakeVolSnap(job.vg, job.Name(i), c.name) && job.SnapKey(i) !in o
    case Rehandled(stale, t) =>
      && t == s && job.SnapKey(i) in o
      && ContentKey(stale.name) in o && o[ContentKey(stale.name)] == ContentObject(stale)
      && RefersTo(stale, job.vg.ns, job.Name(i)) && stale.driver == job.vg.spec.driverName
      && stale.className == o[job.SnapKey(i)].snapshot.className && stale.handle != Some(s.snapId)
  }

  ghost predicate Carries(o: Object, ns: string, name: string, snapId: string) {
    IsReferring(o, ns, name) && o.content.handle == Some(snapId)
  }

  // The member has its VolumeSnapshot, and a content that refers to it and carries its handle.
  ghost predicate Realised(o: Objects, job: Job, i: nat)
    requires i < |job.snapshots|
  {
    job.SnapKey(i) in o &&
    exists k | k in o :: Carries(o[k], job.vg.ns, job.Name(i), job.snapshots[i].snapId)
  }

  lemma {:induction false} FindIsListed(items: seq<Object>, ns: string, name: string)
    ensures Find(items, ns, name).Some? ==>
              ContentObject(Find(items, ns, name).value) in items && RefersTo(Find(items, ns, name).value, ns, name)
    ensures Find(items, ns, name).None? ==> forall o | o in items :: !IsReferring(o, ns, name)
  {
    if items != [] { FindIsListed(items[1..], ns, name); }
  }

  // Reusing a snapshot changes no object; what it hands on is a content that matches.
  lemma ReuseEffect(w: World, job: Job, vs: VolumeSnapshot, s: DriverSnapshot, d: Draw)
    ensures var m := ReuseVolumeSnapshot(w, job, vs, s, d);
            && m.world.objects == w.objects
            && (m.update || m.contentName != "" ==>
                  && !m.failed
                  && ContentKey(m.contentName) in w.objects
                  && var c := w.objects[ContentKey(m.contentName)].content;
                  && RefersTo(c, vs.ns, vs.name) && c.driver == job.vg.spec.driverName && c.className == vs.className
                  && (m.update <==> c.handle != Some(s.snapId)))
  {
    var c := CheckExistingVolSnapshot(w, vs, job.vg.spec.className);
    var l := List(c.world, d.order, IsContent);
    if !c.unusable && l.result.Ok? {
      FindIsListed(l.result.value, vs.ns, vs.name);
      ListedMembers(w.objects, d.order, |d.order|, IsContent);
    }
  }

  lemma CreateEffect(w: World, job: Job, i: nat)
    requires i < |job.snapshots|
    ensures var s, d, o := job.snapshots[i], job.draws(i), w.objects;
            var m := CreatePair(w, job, s, d);
            var c := MakeVolSnapContent(ContentName(d), job.vg.ns, job.Name(i), s, job.class_);
            var v := MakeVolSnap(job.vg, job.Name(i), ContentName(d));
            && !m.update
            && (m.world.objects != o ==> Passes(w))
            && (m.failed ==>
                  && m.contentName == ""
                  && (m.world.objects == o || (ContentKey(c.name) !in o && m.world.objects == Apply(o, Orphaned(c)))))
            && (!m.failed ==>
                  && m.contentName == c.name && ContentKey(c.name) !in o && job.SnapKey(i) !in o
                  && m.world.objects == Apply(o, Paired(c, v)))
  {
  }

  lemma RefreshedUnderSameKey(o: Objects, k: Key, s: DriverSnapshot)
    requires k in o && k.kind == ContentKind
    ensures KeyOf(ContentObject(Refreshed(o[k].content, s))) == k
    ensures Apply(o, Rehandled(o[k].content, s)) == o[k := ContentObject(Refreshed(o[k].content, s))]
  {
    assert KeyOf(o[k]) == k;
  }

  lemma RefreshEffect(w: World, name: string, update: bool, s: DriverSnapshot)
    ensures var r := UpdateVolumeSnapshotContentStatus(w, name, update, s);
            var k := ContentKey(name);
            && (r.world.objects == w.objects ||
                (update && k in w.objects && r.world.objects == Apply(w.objects, Rehandled(w.objects[k].content, s))))
            && (!r.failed ==> k in w.objects)
            && (!r.failed && update ==> r.world.objects == Apply(w.objects, Rehandled(w.objects[k].content, s)))
  {
    var k := ContentKey(name);
    hide Apply, Refreshed;
    if k in w.objects { RefreshedUnderSameKey(w.objects, k, s); }
  }

  lemma MemberEffect(p: Progress, job: Job, i: nat) returns (e: Effect)
    requires i < |job.snapshots|
    ensures Allowed(p.world.objects, e, job, i)
    ensures MemberStep(p, job, i).world.objects == Apply(p.world.objects, e)
    ensures e.Orphaned? ==>
              var made := CreateVolumeSnapshot(p.world, job, job.snapshots[i], job.draws(i));
              made.failed && made.world.objects != p.world.objects
    ensures e.Orphaned? ==> Passes(Spend(p.world)) && ContentKey(ContentName(job.draws(i))) !in p.world.objects
    ensures e.Orphaned? && job.SnapKey(i) in p.world.objects ==> p.world.script != [] && p.world.script[0].Refuse?
    ensures i !in MemberStep(p, job, i).errors && ContentKey("") !in p.world.objects ==> Realised(Apply(p.world.objects, e), job, i)
  {
    hide ReuseVolumeSnapshot, CreatePair, UpdateVolumeSnapshotContentStatus;
    var s, d, o, sk := job.snapshots[i], job.draws(i), p.world.objects, job.SnapKey(i);
    var made := CreateVolumeSnapshot(p.world, job, s, d);
    var g := Get(p.world, sk);
    var ck := ContentKey(made.contentName);
    RefreshEffect(made.world, made.contentName, made.update, s);
    if g.result.Ok? && g.result.value.snapshot.name != "" {
      assert KeyOf(o[sk]) == sk;
      ReuseEffect(g.world, job, g.result.value.snapshot, s, d);
      e := if MemberStep(p, job, i).world.objects == o then Nothing else Rehandled(o[ck].content, s);
    } else {
      CreateEffect(g.world, job, i);
      var c := MakeVolSnapContent(ContentName(d), job.vg.ns, job.Name(i), s, job.class_);
      e := if !made.failed then Paired(c, MakeVolSnap(job.vg, job.Name(i), c.name))
           else if made.world.objects == o then Nothing else Orphaned(c);
      assert sk in o ==> KeyOf(o[sk]) == sk && job.NameOf(s) != "";
    }
    if i !in MemberStep(p, job, i).errors && ContentKey("") !in o {
      assert Carries(Apply(o, e)[ck], job.vg.ns, job.Name(i), s.snapId);
    }
  }
}
