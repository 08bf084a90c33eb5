/** Which volumes a group covers: from claims to volume handles, all on one array. */
module Selection {
  import opened Kube
  import opened Api
  import Text

  // The volume handles found, and the claim each of them belongs to.
  datatype Volumes = Volumes(ids: seq<string>, claims: map<string, string>)

  datatype Selected = Selected(world: World, result: Option<Volumes>)

  function ParseVolumeHandle(driverType: string, handle: string): string {
    if driverType == DRIVER_TYPE_POWERSTORE then
      var parts := Text.Split(handle, '/');
      if |parts| >= 2 then parts[1] else ""
    else
      Text.Split(handle, '-')[0]
  }

  // The rest of the loop from claim `i` on, with what it has gathered so far.
  function MapFrom(w: World, pvcs: seq<Claim>, i: nat, found: Volumes, systemId: string): Selected
    requires i <= |pvcs|
    decreases |pvcs| - i
  {
    if i == |pvcs| then
      Selected(w, if |found.ids| < 1 || |found.claims| < 1 then None else Some(found))
    else
      var g := Get(w, VolumeKey(pvcs[i].volumeName));
      if g.result.Err? then Selected(g.world, None)
      else
        var pv := g.result.value.volume;
        if pv.csi.None? then Selected(Halt(g.world), None)
        else if !pvcs[i].bound || !pv.bound then MapFrom(g.world, pvcs, i + 1, found, systemId)
        else
          var handle := pv.csi.value.handle;
          var arrayId := ParseVolumeHandle(pv.csi.value.driver, handle);
          var system := if i == 0 then arrayId else systemId;
          if system != arrayId then Selected(g.world, None)
          else MapFrom(g.world, pvcs, i + 1, Volumes(found.ids + [handle], found.claims[handle := pvcs[i].name]), system)
  }

  function MapVolIdToPvcName(w: World, pvcs: seq<Claim>): Selected {
    MapFrom(w, pvcs, 0, Volumes([], map[]), "")
  }

  datatype Collected = Collected(world: World, claims: Option<seq<Claim>>)

  // Reading the named claims from name `i` on; names in `seen` are duplicates.
  function CollectFrom(w: World, names: seq<string>, ns: string, i: nat, seen: set<string>, pvcs: seq<Claim>): Collected
    requires i <= |names|
    decreases |names| - i
  {
    if i == |names| then Collected(w, Some(pvcs))
    else if names[i] in seen then CollectFrom(w, names, ns, i + 1, seen, pvcs)
    else
      var g := Get(w, ClaimKey(ns, names[i]));
      if g.result.Err? then Collected(g.world, None)
      else CollectFrom(g.world, names, ns, i + 1, seen + {names[i]}, pvcs + [g.result.value.claim])
  }

  function FromPvcNames(w: World, names: seq<string>, ns: string): Selected {
    var c := CollectFrom(w, names, ns, 0, {}, []);
    if c.claims.None? then Selected(c.world, None) else MapVolIdToPvcName(c.world, c.claims.value)
  }

  function InNamespace(ns: string): Object -> bool {
    (o: Object) => o.ClaimObject? && o.claim.ns == ns
  }

  function WithLabel(ns: string, group: string): Object -> bool {
    (o: Object) => o.ClaimObject? && o.claim.ns == ns
                   && LABEL_VOLUME_GROUP in o.claim.labels && o.claim.labels[LABEL_VOLUME_GROUP] == group
  }

  function ClaimsOf(items: seq<Object>): (claims: seq<Claim>)
    ensures |claims| <= |items|
  {
    if items == [] then []
    else ClaimsOf(items[..|items| - 1]) + (if items[|items| - 1].ClaimObject? then [items[|items| - 1].claim] else [])
  }

  function FromListing(w: World, wanted: Object -> bool, order: seq<Key>): Selected {
    var l := List(w, order, wanted);
    if l.result.Err? || |l.result.value| < 1 then Selected(l.world, None)
    else MapVolIdToPvcName(l.world, ClaimsOf(l.result.value))
  }

  // The choice between the three sources, as the group's spec makes it.
  function SelectVolumes(w: World, spec: GroupSpec, ns: string, order: seq<Key>): Selected {
    if spec.pvcList.Some? then FromPvcNames(w, spec.pvcList.value, ns)
    else if spec.pvcLabel != "" then FromListing(w, WithLabel(ns, spec.pvcLabel), order)
    else FromListing(w, InNamespace(ns), order)
  }

  /* ---- What a claim stands for in a store ---- */

  ghost predicate Readable(o: Objects, c: Claim) {
    VolumeKey(c.volumeName) in o && o[VolumeKey(c.volumeName)].volume.csi.Some?
  }

  ghost predicate IsBound(o: Objects, c: Claim) {
    Readable(o, c) && c.bound && o[VolumeKey(c.volumeName)].volume.bound
  }

  ghost function Source(o: Objects, c: Claim): CsiSource {
    if Readable(o, c) then o[VolumeKey(c.volumeName)].volume.csi.value else CsiSource("", "")
  }

  ghost function HandleOf(o: Objects, c: Claim): string { Source(o, c).handle }

  ghost function ArrayOf(o: Objects, c: Claim): string {
    ParseVolumeHandle(Source(o, c).driver, Source(o, c).handle)
  }

  ghost function Handles(o: Objects, pvcs: seq<Claim>): seq<string> {
    if pvcs == [] then []
    else
      var c := pvcs[|pvcs| - 1];
      Handles(o, pvcs[..|pvcs| - 1]) + (if IsBound(o, c) then [HandleOf(o, c)] else [])
  }

  // The handles of the bound claims, each with the last bound claim that has it.
  ghost function ClaimMap(o: Objects, pvcs: seq<Claim>): map<string, string> {
    if pvcs == [] then map[]
    else
      var c := pvcs[|pvcs| - 1];
      var rest := ClaimMap(o, pvcs[..|pvcs| - 1]);
      if IsBound(o, c) then rest[HandleOf(o, c) := c.name] else rest
  }

  // The array all claims are compared with: the first claim's, or none if that one is skipped.
  ghost function SystemId(o: Objects, pvcs: seq<Claim>): string {
    if pvcs != [] && IsBound(o, pvcs[0]) then ArrayOf(o, pvcs[0]) else ""
  }

  ghost predicate OneSystem(o: Objects, pvcs: seq<Claim>) {
    forall c | c in pvcs && IsBound(o, c) :: ArrayOf(o, c) == SystemId(o, pvcs)
  }

  ghost predicate AllReadable(o: Objects, pvcs: seq<Claim>) { forall c | c in pvcs :: Readable(o, c) }

  ghost predicate SomeBound(o: Objects, pvcs: seq<Claim>) { exists c | c in pvcs :: IsBound(o, c) }

  // The next `n` calls all go through.
  ghost predicate NextPass(w: World, n: nat) {
    (n > 0 ==> !w.halted) && forall j | 0 <= j < n && j < |w.script| :: w.script[j].Proceed?
  }

  ghost predicate Selectable(w: World, pvcs: seq<Claim>) {
    && NextPass(w, |pvcs|)
    && AllReadable(w.objects, pvcs) && SomeBound(w.objects, pvcs) && OneSystem(w.objects, pvcs)
  }

  /* ---- The exact result of the selection loop ---- */

  lemma {:induction false} GatheredKeys(o: Objects, pvcs: seq<Claim>)
    ensures forall h :: h in ClaimMap(o, pvcs) <==> h in Handles(o, pvcs)
    ensures forall h :: h in Handles(o, pvcs) <==> exists c | c in pvcs :: IsBound(o, c) && HandleOf(o, c) == h
    ensures SomeBound(o, pvcs) <==> |Handles(o, pvcs)| >= 1
    ensures SomeBound(o, pvcs) <==> |ClaimMap(o, pvcs)| >= 1
  {
    if pvcs != [] {
      var n := |pvcs| - 1;
      GatheredKeys(o, pvcs[..n]);
      assert pvcs == pvcs[..n] + [pvcs[n]];
      forall c | c in pvcs ensures c in pvcs[..n] || c == pvcs[n] {}
      assert SomeBound(o, pvcs) <==> SomeBound(o, pvcs[..n]) || IsBound(o, pvcs[n]);
    }
  }

  lemma NextPassSteps(w: World, n: nat)
    requires n > 0
    ensures NextPass(w, n) <==> Passes(w) && NextPass(Spend(w), n - 1)
  {
    if Passes(w) && NextPass(Spend(w), n - 1) {
      forall j | 0 <= j < n && j < |w.script| ensures w.script[j].Proceed? {
        assert j > 0 ==> w.script[j] == Spend(w).script[j - 1];
      }
    }
  }

  // What the loop has gathered before claim `i`.
  ghost function Gathered(o: Objects, pvcs: seq<Claim>, i: nat): Volumes
    requires i <= |pvcs|
  {
    Volumes(Handles(o, pvcs[..i]), ClaimMap(o, pvcs[..i]))
  }

  ghost predicate Fits(o: Objects, pvcs: seq<Claim>, c: Claim) {
    Readable(o, c) && (IsBound(o, c) ==> ArrayOf(o, c) == SystemId(o, pvcs))
  }

  lemma MapStep(w: World, pvcs: seq<Claim>, i: nat, systemId: string)
    requires i < |pvcs| && systemId == if i == 0 then "" else SystemId(w.objects, pvcs)
    ensures var o := w.objects;
            MapFrom(w, pvcs, i, Gathered(o, pvcs, i), systemId).result ==
            if Passes(w) && Fits(o, pvcs, pvcs[i])
            then MapFrom(Spend(w), pvcs, i + 1, Gathered(o, pvcs, i + 1), SystemId(o, pvcs)).result
            else None
  {
    hide ParseVolumeHandle;
    var next := pvcs[..i + 1];
    assert next[..i] == pvcs[..i] && next[i] == pvcs[i];
    var o, c := w.objects, pvcs[i];
    if Passes(w) && Fits(o, pvcs, c) {
      assert MapFrom(w, pvcs, i, Gathered(o, pvcs, i), systemId)
          == MapFrom(Spend(w), pvcs, i + 1, Gathered(o, pvcs, i + 1), SystemId(o, pvcs)) by {
        if IsBound(o, c) {
          assert Gathered(o, pvcs, i + 1).ids == Gathered(o, pvcs, i).ids + [HandleOf(o, c)];
          assert Gathered(o, pvcs, i + 1).claims == Gathered(o, pvcs, i).claims[HandleOf(o, c) := c.name];
        } else {
          assert Gathered(o, pvcs, i + 1) == Gathered(o, pvcs, i);
        }
      }
    }
  }

  ghost predicate FitFrom(o: Objects, pvcs: seq<Claim>, i: nat) {
    forall k | i <= k < |pvcs| :: Fits(o, pvcs, pvcs[k])
  }

  lemma MapDone(w: World, pvcs: seq<Claim>, systemId: string)
    ensures var r := MapFrom(w, pvcs, |pvcs|, Gathered(w.objects, pvcs, |pvcs|), systemId).result;
            && (r.Some? <==> SomeBound(w.objects, pvcs))
            && (r.Some? ==> r.value == Gathered(w.objects, pvcs, |pvcs|))
  {
    assert pvcs[..|pvcs|] == pvcs;
    GatheredKeys(w.objects, pvcs);
  }

  lemma {:induction false} MapFromExact(w: World, pvcs: seq<Claim>, i: nat, systemId: string)
    requires i <= |pvcs| && systemId == if i == 0 then "" else SystemId(w.objects, pvcs)
    ensures var o := w.objects;
            var r := MapFrom(w, pvcs, i, Gathered(o, pvcs, i), systemId).result;
            && (r.Some? <==> NextPass(w, |pvcs| - i) && SomeBound(o, pvcs) && FitFrom(o, pvcs, i))
            && (r.Some? ==> r.value == Gathered(o, pvcs, |pvcs|))
    decreases |pvcs| - i
  {
    hide MapFrom, Gathered, SomeBound, Fits;
    if i == |pvcs| {
      MapDone(w, pvcs, systemId);
    } else {
      hide NextPass;
      NextPassSteps(w, |pvcs| - i);
      MapStep(w, pvcs, i, systemId);
      if Passes(w) && Fits(w.objects, pvcs, pvcs[i]) {
        MapFromExact(Spend(w), pvcs, i + 1, SystemId(w.objects, pvcs));
      }
    }
  }

  // The selection succeeds exactly when every volume can be read, some claim is bound and
  // every bound one is on the first claim's array; it then returns exactly the bound handles.
  lemma SelectionExact(w: World, pvcs: seq<Claim>)
    ensures var r := MapVolIdToPvcName(w, pvcs);
            && (r.result.Some? <==> Selectable(w, pvcs))
            && (r.result.Some? ==> r.result.value == Volumes(Handles(w.objects, pvcs), ClaimMap(w.objects, pvcs)))
  {
    var o := w.objects;
    assert pvcs[..0] == [] && pvcs[..|pvcs|] == pvcs;
    MapFromExact(w, pvcs, 0, "");
    assert AllReadable(o, pvcs) && OneSystem(o, pvcs) <==> FitFrom(o, pvcs, 0) by {
      if AllReadable(o, pvcs) && OneSystem(o, pvcs) {
        forall k | 0 <= k < |pvcs| ensures Fits(o, pvcs, pvcs[k]) { assert pvcs[k] in pvcs; }
      }
    }
  }

  // Each handle maps to the last bound claim that has it.
  lemma {:induction false} LastClaimWins(o: Objects, pvcs: seq<Claim>, h: string) returns (k: nat)
    requires h in ClaimMap(o, pvcs)
    ensures k < |pvcs| && IsBound(o, pvcs[k]) && HandleOf(o, pvcs[k]) == h && ClaimMap(o, pvcs)[h] == pvcs[k].name
    ensures forall j | k < j < |pvcs| && IsBound(o, pvcs[j]) :: HandleOf(o, pvcs[j]) != h
  {
    var n := |pvcs| - 1;
    var c := pvcs[n];
    if IsBound(o, c) && HandleOf(o, c) == h {
      k := n;
    } else {
      k := LastClaimWins(o, pvcs[..n], h);
      forall j | k < j < |pvcs| && IsBound(o, pvcs[j]) ensures HandleOf(o, pvcs[j]) != h {
        if j < n { assert pvcs[j] == pvcs[..n][j]; }
      }
    }
  }

  /* ---- Undisturbed selections do not change the world ---- */

  lemma {:induction false} MapFromSteady(w: World, pvcs: seq<Claim>, i: nat, found: Volumes, systemId: string)
    requires i <= |pvcs| && Steady(w) && MapFrom(w, pvcs, i, found, systemId).result.Some?
    ensures MapFrom(w, pvcs, i, found, systemId).world == w
    decreases |pvcs| - i
  {
    if i < |pvcs| {
      hide ParseVolumeHandle;
      var g := Get(w, VolumeKey(pvcs[i].volumeName));
      assert g.world == w;
      var pv := g.result.value.volume;
      if !pvcs[i].bound || !pv.bound {
        MapFromSteady(w, pvcs, i + 1, found, systemId);
      } else {
        var handle := pv.csi.value.handle;
        var arrayId := ParseVolumeHandle(pv.csi.value.driver, handle);
        MapFromSteady(w, pvcs, i + 1, Volumes(found.ids + [handle], found.claims[handle := pvcs[i].name]),
                      if i == 0 then arrayId else systemId);
      }
    }
  }

  lemma {:induction false} CollectSteady(w: World, names: seq<string>, ns: string, i: nat, seen: set<string>, pvcs: seq<Claim>)
    requires i <= |names| && Steady(w)
    ensures CollectFrom(w, names, ns, i, seen, pvcs).world == w
    decreases |names| - i
  {
    if i < |names| {
      var g := Get(w, ClaimKey(ns, names[i]));
      if names[i] in seen {
        CollectSteady(w, names, ns, i + 1, seen, pvcs);
      } else if g.result.Ok? {
        CollectSteady(w, names, ns, i + 1, seen + {names[i]}, pvcs + [g.result.value.claim]);
      }
    }
  }

  lemma SelectSteady(w: World, spec: GroupSpec, ns: string, order: seq<Key>)
    requires Steady(w) && SelectVolumes(w, spec, ns, order).result.Some?
    ensures SelectVolumes(w, spec, ns, order).world == w
  {
    hide MapFrom, CollectFrom, Listed;
    var none := Volumes([], map[]);
    if spec.pvcList.Some? {
      var names := spec.pvcList.value;
      CollectSteady(w, names, ns, 0, {}, []);
      MapFromSteady(w, CollectFrom(w, names, ns, 0, {}, []).claims.value, 0, none, "");
    } else {
      var wanted := if spec.pvcLabel != "" then WithLabel(ns, spec.pvcLabel) else InNamespace(ns);
      MapFromSteady(w, ClaimsOf(Listed(w.objects, order, |order|, wanted)), 0, none, "");
    }
  }
}
