/** Which claims a group covers, said on the store, and that an undisturbed selection takes
    exactly those. */
module Covering {
  import opened Kube
  import opened Api
  import opened Canonical
  import opened Selection

  ghost predicate IsStored(o: Objects, c: Claim) {
    ClaimKey(c.ns, c.name) in o && o[ClaimKey(c.ns, c.name)] == ClaimObject(c)
  }

  // The claim is of the group's namespace, and named in its list or labelled as it asks; without
  // list and label any claim there will do.
  ghost predicate Qualifies(spec: GroupSpec, ns: string, c: Claim) {
    && c.ns == ns
    && if spec.pvcList.Some? then c.name in spec.pvcList.value
       else spec.pvcLabel != "" ==> "volume-group" in c.labels && c.labels["volume-group"] == spec.pvcLabel
  }

  // `x` comes before `y` in the list: it does so first.
  ghost predicate Precedes(names: seq<string>, x: string, y: string) {
    exists i | 0 <= i < |names| :: names[i] == x && y !in names[..i + 1]
  }

  // `pvcs` has each stored claim that qualifies once; listed ones in the order of the list.
  ghost predicate Covers(o: Objects, spec: GroupSpec, ns: string, pvcs: seq<Claim>) {
    && (forall c :: c in pvcs <==> IsStored(o, c) && Qualifies(spec, ns, c))
    && Distinct(pvcs)
    && (spec.pvcList.Some? ==> forall a, b | 0 <= a < b < |pvcs| :: Precedes(spec.pvcList.value, pvcs[a].name, pvcs[b].name))
  }

  ghost predicate AllNamed(o: Objects, spec: GroupSpec, ns: string) {
    spec.pvcList.Some? ==> forall x | x in spec.pvcList.value :: ClaimKey(ns, x) in o
  }

  // Their volumes can be read, one is bound, and all bound ones are on the first one's array.
  ghost predicate Selectable(o: Objects, pvcs: seq<Claim>) {
    AllReadable(o, pvcs) && SomeBound(o, pvcs) && OneSystem(o, pvcs)
  }

  /* ---- By a list of names ---- */

  ghost function ClaimsNamed(o: Objects, ns: string, names: seq<string>): seq<Claim>
    requires forall x | x in names :: ClaimKey(ns, x) in o
  {
    seq(|names|, i requires 0 <= i < |names| => o[ClaimKey(ns, names[i])].claim)
  }

  lemma FirstUnfolds(names: seq<string>, i: nat, seen: set<string>)
    requires i < |names|
    ensures FirstOccurrences(names, i, seen) ==
            if names[i] in seen then FirstOccurrences(names, i + 1, seen)
            else [names[i]] + FirstOccurrences(names, i + 1, seen + {names[i]})
  {
  }

  ghost predicate AllFound(o: Objects, ns: string, names: seq<string>) { forall x | x in names :: ClaimKey(ns, x) in o }

  lemma FoundCons(o: Objects, ns: string, x: string, rest: seq<string>)
    ensures AllFound(o, ns, [x] + rest) <==> ClaimKey(ns, x) in o && AllFound(o, ns, rest)
    ensures AllFound(o, ns, [x] + rest) ==> ClaimsNamed(o, ns, [x] + rest) == [o[ClaimKey(ns, x)].claim] + ClaimsNamed(o, ns, rest)
  {
    if AllFound(o, ns, [x] + rest) {
      assert forall y | y in rest :: y in [x] + rest;
      assert x in [x] + rest;
    }
  }

  // What the reading of the names ends with, having read the claims `pvcs` already.
  ghost predicate Collects(o: Objects, ns: string, pvcs: seq<Claim>, left: seq<string>, claims: Option<seq<Claim>>) {
    && (claims.Some? <==> AllFound(o, ns, left))
    && (claims.Some? ==> claims.value == pvcs + ClaimsNamed(o, ns, left))
  }

  lemma CollectsCons(o: Objects, ns: string, pvcs: seq<Claim>, x: string, rest: seq<string>, claims: Option<seq<Claim>>)
    requires ClaimKey(ns, x) in o && Collects(o, ns, pvcs + [o[ClaimKey(ns, x)].claim], rest, claims)
    ensures Collects(o, ns, pvcs, [x] + rest, claims)
  {
    hide ClaimsNamed, AllFound;
    FoundCons(o, ns, x, rest);
  }

  lemma {:induction false} CollectExact(w: World, names: seq<string>, ns: string, i: nat, seen: set<string>, pvcs: seq<Claim>)
    requires i <= |names| && Steady(w)
    ensures var c := CollectFrom(w, names, ns, i, seen, pvcs);
            c.world == w && Collects(w.objects, ns, pvcs, FirstOccurrences(names, i, seen), c.claims)
    decreases |names| - i
  {
    hide FirstOccurrences, Collects;
    if i == |names| {
      NothingLeft(w.objects, names, ns, seen, pvcs);
    } else {
      FirstUnfolds(names, i, seen);
      if names[i] in seen {
        CollectExact(w, names, ns, i + 1, seen, pvcs);
      } else {
        var k, rest := ClaimKey(ns, names[i]), FirstOccurrences(names, i + 1, seen + {names[i]});
        if k in w.objects {
          CollectExact(w, names, ns, i + 1, seen + {names[i]}, pvcs + [w.objects[k].claim]);
          CollectsCons(w.objects, ns, pvcs, names[i], rest, CollectFrom(w, names, ns, i, seen, pvcs).claims);
        } else {
          NotCollected(w.objects, ns, pvcs, names[i], rest);
        }
      }
    }
  }

  lemma NothingLeft(o: Objects, names: seq<string>, ns: string, seen: set<string>, pvcs: seq<Claim>)
    ensures Collects(o, ns, pvcs, FirstOccurrences(names, |names|, seen), Some(pvcs))
  {
    assert pvcs + ClaimsNamed(o, ns, []) == pvcs;
  }

  lemma NotCollected(o: Objects, ns: string, pvcs: seq<Claim>, x: string, rest: seq<string>)
    requires ClaimKey(ns, x) !in o
    ensures Collects(o, ns, pvcs, [x] + rest, None)
  {
    assert x in [x] + rest;
  }

  lemma HeadPrecedes(names: seq<string>, i: nat, seen: set<string>, y: string)
    requires i < |names| && y !in seen && y != names[i] && forall j | 0 <= j < i :: names[j] in seen
    ensures Precedes(names, names[i], y)
  {
    assert y !in names[..i + 1];
  }

  lemma {:induction false} FirstOccurrencesPrecede(names: seq<string>, i: nat, seen: set<string>, a: nat, b: nat)
    requires i <= |names| && a < b < |FirstOccurrences(names, i, seen)|
    requires forall j | 0 <= j < i :: names[j] in seen
    ensures Precedes(names, FirstOccurrences(names, i, seen)[a], FirstOccurrences(names, i, seen)[b])
    decreases |names| - i
  {
    hide FirstOccurrences, Precedes;
    if i == |names| {
      NoneLeft(names, seen);
    } else {
      FirstUnfolds(names, i, seen);
      if names[i] in seen {
        FirstOccurrencesPrecede(names, i + 1, seen, a, b);
      } else if a > 0 {
        FirstOccurrencesPrecede(names, i + 1, seen + {names[i]}, a - 1, b - 1);
      } else {
        var rest := FirstOccurrences(names, i + 1, seen + {names[i]});
        assert rest[b - 1] in rest;
        HeadPrecedes(names, i, seen, rest[b - 1]);
      }
    }
  }

  lemma NoneLeft(names: seq<string>, seen: set<string>)
    ensures FirstOccurrences(names, |names|, seen) == []
  {
  }

  lemma NamedAreCovered(o: Objects, spec: GroupSpec, ns: string)
    requires spec.pvcList.Some? && AllNamed(o, spec, ns)
    ensures var first := FirstOccurrences(spec.pvcList.value, 0, {});
            (forall x | x in first :: ClaimKey(ns, x) in o) && Covers(o, spec, ns, ClaimsNamed(o, ns, first))
  {
    var names := spec.pvcList.value;
    var first := FirstOccurrences(names, 0, {});
    assert names[0..] == names;
    assert forall x :: x in first <==> x in names;
    var pvcs := ClaimsNamed(o, ns, first);
    hide FirstOccurrences;
    forall i | 0 <= i < |first| ensures pvcs[i].ns == ns && pvcs[i].name == first[i] && IsStored(o, pvcs[i]) {
      assert first[i] in first && KeyOf(o[ClaimKey(ns, first[i])]) == ClaimKey(ns, first[i]);
    }
    forall c ensures c in pvcs <==> IsStored(o, c) && Qualifies(spec, ns, c) {
      if c in pvcs {
        var i :| 0 <= i < |pvcs| && pvcs[i] == c;
        assert first[i] in first;
      }
      if IsStored(o, c) && Qualifies(spec, ns, c) {
        var i :| 0 <= i < |first| && first[i] == c.name;
        assert pvcs[i] == c;
      }
    }
    forall a, b | 0 <= a < b < |pvcs| ensures Precedes(names, pvcs[a].name, pvcs[b].name) {
      FirstOccurrencesPrecede(names, 0, {}, a, b);
    }
  }

  /* ---- By a listing ---- */

  function Wanted(spec: GroupSpec, ns: string): Object -> bool {
    if spec.pvcLabel != "" then WithLabel(ns, spec.pvcLabel) else InNamespace(ns)
  }

  // The items are these claims.
  ghost predicate AreClaims(items: seq<Object>, pvcs: seq<Claim>) {
    |items| == |pvcs| && forall i | 0 <= i < |items| :: items[i] == ClaimObject(pvcs[i])
  }

  lemma {:induction false} ClaimsOfItems(items: seq<Object>)
    requires forall x | x in items :: x.ClaimObject?
    ensures AreClaims(items, ClaimsOf(items))
  {
    if items != [] {
      var n := |items| - 1;
      ClaimsOfItems(items[..n]);
      assert items[n] in items;
      assert forall i | 0 <= i < n :: items[..n][i] == items[i];
    }
  }

  lemma ListedIsCovering(o: Objects, spec: GroupSpec, ns: string, items: seq<Object>, pvcs: seq<Claim>)
    requires spec.pvcList.None? && AreClaims(items, pvcs) && OnePerKey(items)
    requires forall x :: x in items <==> KeyOf(x) in o && o[KeyOf(x)] == x && Wanted(spec, ns)(x)
    ensures Covers(o, spec, ns, pvcs)
  {
    forall c ensures c in pvcs <==> IsStored(o, c) && Qualifies(spec, ns, c) {
      if c in pvcs {
        var i :| 0 <= i < |pvcs| && pvcs[i] == c;
        assert items[i] in items;
      }
      if IsStored(o, c) && Qualifies(spec, ns, c) {
        assert ClaimObject(c) in items;
        var i :| 0 <= i < |items| && items[i] == ClaimObject(c);
        assert pvcs[i] == c;
      }
    }
    forall a, b | 0 <= a < b < |pvcs| ensures pvcs[a] != pvcs[b] {
      assert KeyOf(items[a]) != KeyOf(items[b]);
    }
  }

  lemma ListedAreCovered(o: Objects, spec: GroupSpec, ns: string, order: seq<Key>)
    requires spec.pvcList.None? && Enumerates(order, o)
    ensures Covers(o, spec, ns, ClaimsOf(Listed(o, order, |order|, Wanted(spec, ns))))
  {
    hide Listed, ClaimsOf, Covers, OnePerKey, Enumerates;
    var items := Listed(o, order, |order|, Wanted(spec, ns));
    ListingIsExact(o, order, Wanted(spec, ns));
    ClaimsOfItems(items);
    ListedIsCovering(o, spec, ns, items, ClaimsOf(items));
  }

  /* ---- The selection ---- */

  // The claims an undisturbed selection works on, if it finds all that are named.
  ghost function Candidates(o: Objects, spec: GroupSpec, ns: string, order: seq<Key>): seq<Claim> {
    if spec.pvcList.None? then ClaimsOf(Listed(o, order, |order|, Wanted(spec, ns)))
    else if AllNamed(o, spec, ns) then
      assert spec.pvcList.value[0..] == spec.pvcList.value;
      ClaimsNamed(o, ns, FirstOccurrences(spec.pvcList.value, 0, {}))
    else []
  }

  lemma CandidatesAreCovered(o: Objects, spec: GroupSpec, ns: string, order: seq<Key>)
    requires AllNamed(o, spec, ns) && Enumerates(order, o)
    ensures Covers(o, spec, ns, Candidates(o, spec, ns, order))
  {
    hide Covers, AllNamed, Enumerates, ClaimsOf, Listed, FirstOccurrences, ClaimsNamed;
    if spec.pvcList.Some? { NamedAreCovered(o, spec, ns); } else { ListedAreCovered(o, spec, ns, order); }
  }

  lemma SteadyMap(w: World, pvcs: seq<Claim>)
    requires Steady(w)
    ensures MapVolIdToPvcName(w, pvcs).result ==
            if Selectable(w.objects, pvcs) then Some(Volumes(Handles(w.objects, pvcs), ClaimMap(w.objects, pvcs))) else None
  {
    hide MapVolIdToPvcName, AllReadable, SomeBound, OneSystem;
    SelectionExact(w, pvcs);
  }

  lemma NothingToSelect(o: Objects)
    ensures !Selectable(o, [])
  {
  }

  // Where the selection works on its claims.
  lemma SelectionWorksOn(w: World, spec: GroupSpec, ns: string, order: seq<Key>)
    requires Steady(w)
    ensures var s, pvcs := SelectVolumes(w, spec, ns, order), Candidates(w.objects, spec, ns, order);
            if AllNamed(w.objects, spec, ns) && (spec.pvcList.Some? || pvcs != [])
            then s == MapVolIdToPvcName(w, pvcs) else s == Selected(w, None)
  {
    hide MapVolIdToPvcName, Listed, FirstOccurrences, CollectFrom, ClaimsNamed;
    if spec.pvcList.Some? {
      var names := spec.pvcList.value;
      CollectExact(w, names, ns, 0, {}, []);
      assert names[0..] == names;
      assert forall x :: x in FirstOccurrences(names, 0, {}) <==> x in names by { OccursIff(names); }
      if AllNamed(w.objects, spec, ns) {
        var pvcs := ClaimsNamed(w.objects, ns, FirstOccurrences(names, 0, {}));
        assert [] + pvcs == pvcs;
      }
    } else {
      var items := Listed(w.objects, order, |order|, Wanted(spec, ns));
      ListedMembers(w.objects, order, |order|, Wanted(spec, ns));
      ClaimsOfItems(items);
    }
  }

  lemma OccursIff(names: seq<string>)
    ensures forall x :: x in FirstOccurrences(names, 0, {}) <==> x in names
  {
    assert names[0..] == names;
  }

  // It succeeds exactly if all named claims exist and the covered ones are selectable, and then
  // returns exactly their handles and, for each, the last claim that has it.
  lemma SelectsCovered(w: World, spec: GroupSpec, ns: string, order: seq<Key>)
    requires Steady(w) && Enumerates(order, w.objects)
    ensures var o, pvcs := w.objects, Candidates(w.objects, spec, ns, order);
            && (AllNamed(o, spec, ns) ==> Covers(o, spec, ns, pvcs))
            && SelectVolumes(w, spec, ns, order).result ==
               if AllNamed(o, spec, ns) && Selectable(o, pvcs) then Some(Volumes(Handles(o, pvcs), ClaimMap(o, pvcs))) else None
  {
    hide SelectVolumes, MapVolIdToPvcName, Candidates, Covers, AllNamed, Enumerates, Selectable;
    var o, pvcs := w.objects, Candidates(w.objects, spec, ns, order);
    if AllNamed(o, spec, ns) { CandidatesAreCovered(o, spec, ns, order); }
    SelectionWorksOn(w, spec, ns, order);
    SteadyMap(w, pvcs);
    NothingToSelect(o);
  }

  // The claims named in a list, as the source's own function for it selects them.
  lemma SelectsNamed(w: World, names: seq<string>, ns: string)
    requires Steady(w)
    ensures var o, first := w.objects, FirstOccurrences(names, 0, {});
            FromPvcNames(w, names, ns).result ==
            if (forall x | x in names :: ClaimKey(ns, x) in o) && Selectable(o, ClaimsNamed(o, ns, first))
            then Some(Volumes(Handles(o, ClaimsNamed(o, ns, first)), ClaimMap(o, ClaimsNamed(o, ns, first)))) else None
  {
    hide MapVolIdToPvcName, FirstOccurrences, CollectFrom, ClaimsNamed, Selectable, Handles, ClaimMap;
    CollectExact(w, names, ns, 0, {}, []);
    OccursIff(names);
    if forall x | x in names :: ClaimKey(ns, x) in w.objects {
      var pvcs := ClaimsNamed(w.objects, ns, FirstOccurrences(names, 0, {}));
      assert [] + pvcs == pvcs;
      SteadyMap(w, pvcs);
    }
  }

  /* ---- A volume without a CSI source ---- */

  ghost predicate NoSource(o: Objects, c: Claim) {
    VolumeKey(c.volumeName) in o && o[VolumeKey(c.volumeName)].volume.csi.None?
  }

  // The loop gets from claim `i` to one whose volume has no CSI source, which it dereferences.
  ghost predicate DerailsFrom(o: Objects, pvcs: seq<Claim>, i: nat) {
    exists k | i <= k < |pvcs| :: NoSource(o, pvcs[k]) && forall j | i <= j < k :: Fits(o, pvcs, pvcs[j])
  }

  lemma {:induction false} MapFromDerails(w: World, pvcs: seq<Claim>, i: nat, found: Volumes, systemId: string)
    requires i <= |pvcs| && Steady(w) && systemId == if i == 0 then "" else SystemId(w.objects, pvcs)
    ensures MapFrom(w, pvcs, i, found, systemId).world == if DerailsFrom(w.objects, pvcs, i) then Halt(w) else w
    decreases |pvcs| - i
  {
    if i < |pvcs| {
      hide ParseVolumeHandle, DerailsFrom;
      var o, c := w.objects, pvcs[i];
      DerailsSteps(o, pvcs, i);
      if Fits(o, pvcs, c) {
        if IsBound(o, c) {
          MapFromDerails(w, pvcs, i + 1, Volumes(found.ids + [HandleOf(o, c)], found.claims[HandleOf(o, c) := c.name]), SystemId(o, pvcs));
        } else {
          MapFromDerails(w, pvcs, i + 1, found, systemId);
        }
      }
    } else {
      assert !DerailsFrom(w.objects, pvcs, i);
    }
  }

  lemma DerailsSteps(o: Objects, pvcs: seq<Claim>, i: nat)
    requires i < |pvcs|
    ensures DerailsFrom(o, pvcs, i) <==> NoSource(o, pvcs[i]) || (Fits(o, pvcs, pvcs[i]) && DerailsFrom(o, pvcs, i + 1))
  {
    hide Fits, NoSource;
    if Fits(o, pvcs, pvcs[i]) && DerailsFrom(o, pvcs, i + 1) {
      var k :| i + 1 <= k < |pvcs| && NoSource(o, pvcs[k]) && forall j | i + 1 <= j < k :: Fits(o, pvcs, pvcs[j]);
      assert forall j | i <= j < k :: Fits(o, pvcs, pvcs[j]);
    }
    if DerailsFrom(o, pvcs, i) && !NoSource(o, pvcs[i]) {
      var k :| i <= k < |pvcs| && NoSource(o, pvcs[k]) && forall j | i <= j < k :: Fits(o, pvcs, pvcs[j]);
      assert k > i;
    }
  }

  // An undisturbed selection changes nothing, and crashes exactly if it derails.
  lemma SelectionCrashesIff(w: World, spec: GroupSpec, ns: string, order: seq<Key>)
    requires Steady(w)
    ensures var pvcs := Candidates(w.objects, spec, ns, order);
            SelectVolumes(w, spec, ns, order).world ==
            if AllNamed(w.objects, spec, ns) && DerailsFrom(w.objects, pvcs, 0) then Halt(w) else w
  {
    hide SelectVolumes, Candidates, AllNamed, DerailsFrom, MapFrom;
    SelectionWorksOn(w, spec, ns, order);
    MapFromDerails(w, Candidates(w.objects, spec, ns, order), 0, Volumes([], map[]), "");
    NothingDerails(w.objects);
  }

  lemma NothingDerails(o: Objects)
    ensures !DerailsFrom(o, [], 0)
  {
  }
}
