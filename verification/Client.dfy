/** The object store as the controller's client: a map of objects changed in place, an error
    injector, the other writers and the driver. */
module Client {
  import opened Kube
  import opened Api

  class Client {
    var objects: Objects
    var script: seq<Fault>
    var halted: bool
    var env: seq<StatusWrites>
    var requests: seq<DriverRequest>

    function State(): World
      reads this
    {
      World(objects, script, halted, env, requests)
    }

    constructor (objects: Objects, script: seq<Fault>, env: seq<StatusWrites>)
      ensures State() == World(objects, script, false, env, [])
    {
      this.objects, this.script, this.halted, this.env, this.requests := objects, script, false, env, [];
    }

    // The error injector's verdict on the next call.
    method ShouldFail() returns (fail: bool)
      modifies this
      ensures State() == Spend(old(State())) && (fail <==> !Passes(old(State())))
    {
      fail := halted;
      if !halted && script != [] {
        fail := !script[0].Proceed?;
        halted := script[0].Stop?;
        script := script[1..];
      }
    }

    // A nil pointer has been dereferenced.
    method Crash()
      modifies this
      ensures State() == Halt(old(State()))
    {
      halted := true;
    }

    method Get(k: Key) returns (r: Result<Object>)
      modifies this
      ensures Reply(State(), r) == Api.Get(old(State()), k)
    {
      var fail := ShouldFail();
      if fail { return Err(Refused); }
      if k !in objects { return Err(NotFound); }
      return Ok(objects[k]);
    }

    method List(order: seq<Key>, wanted: Object -> bool) returns (r: Result<seq<Object>>)
      modifies this
      ensures Reply(State(), r) == Api.List(old(State()), order, wanted)
    {
      var fail := ShouldFail();
      if fail { return Err(Refused); }
      var items: seq<Object> := [];
      for i := 0 to |order|
        invariant State() == Spend(old(State()))
        invariant items == Listed(objects, order, i, wanted)
      {
        if order[i] in objects && wanted(objects[order[i]]) {
          items := items + [objects[order[i]]];
        }
      }
      return Ok(items);
    }

    method Create(o: Object) returns (r: Result<()>)
      modifies this
      ensures Reply(State(), r) == Api.Create(old(State()), o)
    {
      var fail := ShouldFail();
      if fail { return Err(Refused); }
      if KeyOf(o) in objects { return Err(AlreadyExists); }
      objects := objects[KeyOf(o) := o];
      return Ok(());
    }

    method Update(o: Object) returns (r: Result<()>)
      modifies this
      ensures Reply(State(), r) == Api.Update(old(State()), o)
    {
      var fail := ShouldFail();
      if fail { return Err(Refused); }
      if KeyOf(o) !in objects { return Err(NotFound); }
      objects := objects[KeyOf(o) := o];
      return Ok(());
    }

    method Delete(o: Object) returns (r: Result<()>)
      modifies this
      ensures Reply(State(), r) == Api.Delete(old(State()), o)
    {
      var fail := ShouldFail();
      if fail { return Err(Refused); }
      var k := KeyOf(o);
      if k !in objects { return Err(NotFound); }
      if IsDeleting(o) { return Ok(()); }
      var gone := {k};
      if o.SnapshotObject? {
        if o.snapshot.contentName.None? {
          Crash();
          return Err(Refused);
        }
        var content := Get(ContentKey(o.snapshot.contentName.value));
        if content.Err? { return Err(content.error); }
        if content.value.content.policy == DeletePolicy {
          gone := gone + {ContentKey(o.snapshot.contentName.value)};
        }
      }
      objects := objects - gone;
      return Ok(());
    }

    // The external snapshotter writes until the next poll.
    method WaitForTick()
      modifies this
      ensures State() == Tick(old(State()))
    {
      if env != [] {
        objects := ApplyWrites(objects, env[0]);
        env := env[1..];
      }
    }

    method CreateVolumeGroupSnapshot(request: DriverRequest, reply: DriverReply) returns (r: Result<DriverResponse>)
      modifies this
      ensures Reply(State(), r) == CallDriver(old(State()), request, reply)
    {
      var stopped := halted || (script != [] && script[0].Stop?);
      var fail := ShouldFail();
      if stopped { return Err(Refused); }
      requests := requests + [request];
      if fail || reply.DriverFailed? { return Err(Refused); }
      return Ok(reply.response);
    }
  }
}
