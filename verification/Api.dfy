/** What one call to the cluster does: the object store, the injected faults, the other
    writers of the cluster, and the CSI driver, as functions from one world to the next. */
module Api {
  import opened Kube

  // What happens to the next call: it goes through, it is refused without effect, or the
  // process stops just before it.  Once stopped (or crashed on a nil pointer) a process
  // changes nothing any more; the model lets it run on with every call refused.
  datatype Fault = Proceed | Refuse | Stop

  datatype ApiError = NotFound | AlreadyExists | Refused

  datatype Result<+T> = Ok(value: T) | Err(error: ApiError)

  // Statuses the external snapshotter writes between two polls.
  type StatusWrites = map<Key, SnapshotStatus>

  // `script` lists the faults of the coming calls; after its end every call goes through.
  datatype World = World(
    objects: Objects,
    script: seq<Fault>,
    halted: bool,
    env: seq<StatusWrites>,
    requests: seq<DriverRequest>)

  datatype Reply<+T> = Reply(world: World, result: Result<T>)

  // Every coming call goes through; in a quiet world nobody else writes either.
  ghost predicate Steady(w: World) { w.script == [] && !w.halted }

  ghost predicate Quiet(w: World) { Steady(w) && w.env == [] }

  predicate Passes(w: World) { !w.halted && (w.script == [] || w.script[0].Proceed?) }

  // The world after one call has taken its fault from the script.
  function Spend(w: World): World {
    if w.halted || w.script == [] then w
    else w.(script := w.script[1..], halted := w.script[0].Stop?)
  }

  function Halt(w: World): World { w.(halted := true) }

  function Get(w: World, k: Key): Reply<Object> {
    Reply(Spend(w),
          if !Passes(w) then Err(Refused)
          else if k in w.objects then Ok(w.objects[k])
          else Err(NotFound))
  }

  function Create(w: World, o: Object): Reply<()> {
    if !Passes(w) then Reply(Spend(w), Err(Refused))
    else if KeyOf(o) in w.objects then Reply(Spend(w), Err(AlreadyExists))
    else Reply(Spend(w).(objects := w.objects[KeyOf(o) := o]), Ok(()))
  }

  function Update(w: World, o: Object): Reply<()> {
    if !Passes(w) then Reply(Spend(w), Err(Refused))
    else if KeyOf(o) !in w.objects then Reply(Spend(w), Err(NotFound))
    else Reply(Spend(w).(objects := w.objects[KeyOf(o) := o]), Ok(()))
  }

  // Deleting a VolumeSnapshot reads its content and takes the content along when the
  // content's own policy says so.
  function Delete(w: World, o: Object): Reply<()> {
    var k := KeyOf(o);
    var w1 := Spend(w);
    if !Passes(w) then Reply(w1, Err(Refused))
    else if k !in w.objects then Reply(w1, Err(NotFound))
    else if IsDeleting(o) then Reply(w1, Ok(()))
    else if o.SnapshotObject? then
      if o.snapshot.contentName.None? then Reply(Halt(w1), Err(Refused))
      else
        var g := Get(w1, ContentKey(o.snapshot.contentName.value));
        if g.result.Err? then Reply(g.world, Err(g.result.error))
        else if g.result.value.content.policy == DeletePolicy then
          Reply(g.world.(objects := w.objects - {k, ContentKey(o.snapshot.contentName.value)}), Ok(()))
        else Reply(g.world.(objects := w.objects - {k}), Ok(()))
    else Reply(w1.(objects := w.objects - {k}), Ok(()))
  }

  // What a write that does not go through leaves: everything as it was.  A creation fails on a
  // name that is taken, an update on one that is not.
  lemma WriteResults(w: World, o: Object)
    ensures var c, taken := Create(w, o), KeyOf(o) in w.objects;
            && c.result == (if !Passes(w) then Err(Refused) else if taken then Err(AlreadyExists) else Ok(()))
            && (forall k | c.result.Err? || k != KeyOf(o) :: (k in c.world.objects <==> k in w.objects) && (k in w.objects ==> c.world.objects[k] == w.objects[k]))
            && (c.result.Ok? ==> KeyOf(o) in c.world.objects && c.world.objects[KeyOf(o)] == o)
    ensures var u, taken := Update(w, o), KeyOf(o) in w.objects;
            && u.result == (if !Passes(w) then Err(Refused) else if taken then Ok(()) else Err(NotFound))
            && (forall k | u.result.Err? || k != KeyOf(o) :: (k in u.world.objects <==> k in w.objects) && (k in w.objects ==> u.world.objects[k] == w.objects[k]))
            && (u.result.Ok? ==> KeyOf(o) in u.world.objects && u.world.objects[KeyOf(o)] == o)
  {
  }

  // A deletion fails on an object that is not there, and of a snapshot also if its content is not.
  // A marked object stays; any other goes, and a snapshot's content with it if its policy is Delete.
  lemma DeleteResults(w: World, o: Object)
    requires o.SnapshotObject? && !o.snapshot.deleting ==> o.snapshot.contentName.Some?
    ensures var d, k := Delete(w, o), KeyOf(o);
            var deleting := (o.SnapshotObject? && o.snapshot.deleting) || (o.GroupObject? && o.group.deleting);
            if !Passes(w) then d.result == Err(Refused) && d.world.objects == w.objects
            else if k !in w.objects then d.result == Err(NotFound) && d.world.objects == w.objects
            else if deleting then d.result == Ok(()) && d.world.objects == w.objects
            else if !o.SnapshotObject? then d.result == Ok(()) && d.world.objects == w.objects - {k}
            else
              var c := ContentKey(o.snapshot.contentName.value);
              if !Passes(Spend(w)) then d.result == Err(Refused) && d.world.objects == w.objects
              else if c !in w.objects then d.result == Err(NotFound) && d.world.objects == w.objects
              else d.result == Ok(()) && d.world.objects == w.objects - (if w.objects[c].content.policy == DeletePolicy then {k, c} else {k})
  {
  }

  /* ---- Listing ---- */

  // Go ranges over a map in any order: `order` is the order of this call, and names of
  // objects that do not exist are passed over.
  function Listed(objects: Objects, order: seq<Key>, i: nat, wanted: Object -> bool): seq<Object>
    requires i <= |order|
  {
    if i == 0 then []
    else
      var rest := Listed(objects, order, i - 1, wanted);
      var k := order[i - 1];
      if k in objects && wanted(objects[k]) then rest + [objects[k]] else rest
  }

  function List(w: World, order: seq<Key>, wanted: Object -> bool): Reply<seq<Object>> {
    Reply(Spend(w), if Passes(w) then Ok(Listed(w.objects, order, |order|, wanted)) else Err(Refused))
  }

  ghost predicate Distinct<T>(xs: seq<T>) {
    forall i, j | 0 <= i < j < |xs| :: xs[i] != xs[j]
  }

  // An order a real map iteration can have: every key, each once.
  ghost predicate Enumerates(order: seq<Key>, objects: Objects) {
    Distinct(order) && forall k | k in objects :: k in order
  }

  lemma {:induction false} ListedMembers(objects: Objects, order: seq<Key>, i: nat, wanted: Object -> bool)
    requires i <= |order|
    ensures forall o | o in Listed(objects, order, i, wanted) ::
              wanted(o) && KeyOf(o) in order[..i] && KeyOf(o) in objects && objects[KeyOf(o)] == o
    ensures forall k | k in order[..i] && k in objects && wanted(objects[k]) ::
              objects[k] in Listed(objects, order, i, wanted)
  {
    if i > 0 {
      ListedMembers(objects, order, i - 1, wanted);
      assert order[..i] == order[..i - 1] + [order[i - 1]];
    }
  }

  ghost predicate OnePerKey(items: seq<Object>) {
    forall a, b | 0 <= a < b < |items| :: KeyOf(items[a]) != KeyOf(items[b])
  }

  lemma {:induction false} ListedOnce(objects: Objects, order: seq<Key>, i: nat, wanted: Object -> bool)
    requires i <= |order| && Distinct(order)
    ensures OnePerKey(Listed(objects, order, i, wanted))
  {
    if i > 0 {
      ListedOnce(objects, order, i - 1, wanted);
      ListedMembers(objects, order, i - 1, wanted);
      var rest := Listed(objects, order, i - 1, wanted);
      var k := order[i - 1];
      forall a | 0 <= a < |rest| ensures KeyOf(rest[a]) != k {
        assert rest[a] in rest;
      }
      assert k in objects ==> KeyOf(objects[k]) == k;
    }
  }

  // A listing has each wanted object of the store exactly once, whatever the order.
  lemma ListingIsExact(objects: Objects, order: seq<Key>, wanted: Object -> bool)
    requires Enumerates(order, objects)
    ensures OnePerKey(Listed(objects, order, |order|, wanted))
    ensures forall o :: o in Listed(objects, order, |order|, wanted)
                        <==> KeyOf(o) in objects && objects[KeyOf(o)] == o && wanted(o)
  {
    ListedOnce(objects, order, |order|, wanted);
    ListedMembers(objects, order, |order|, wanted);
    assert order[..|order|] == order;
  }

  /* ---- The other writers and the driver ---- */

  function Written(o: Object, k: Key, writes: StatusWrites): Object {
    if o.SnapshotObject? && k in writes
    then SnapshotObject(o.snapshot.(status := Some(writes[k]))) else o
  }

  function ApplyWrites(objects: Objects, writes: StatusWrites): Objects {
    map k | k in objects :: Written(objects[k], k, writes)
  }

  // Time passes until the next poll.
  function Tick(w: World): World {
    if w.env == [] then w
    else w.(objects := ApplyWrites(w.objects, w.env[0]), env := w.env[1..])
  }

  datatype DriverReply = DriverFailed | Created(response: DriverResponse)

  // A refused call may have reached the driver, so it is on record; a stopped process calls nobody.
  function CallDriver(w: World, request: DriverRequest, reply: DriverReply): Reply<DriverResponse> {
    var called := Spend(w).(requests := w.requests + [request]);
    if w.halted then Reply(w, Err(Refused))
    else if !Passes(w) && w.script[0].Stop? then Reply(Spend(w), Err(Refused))
    else if !Passes(w) || reply.DriverFailed? then Reply(called, Err(Refused))
    else Reply(called, Ok(reply.response))
  }
}
