/** The selection does not depend on chance: not on the order in which claims are listed
    (and exactly when it does), not on repeated names, and its map is fit for naming. */
module Canonical {
  import opened Kube
  import opened Api
  import opened Selection
  import Text

  // The sorted volume list that would go to the driver.
  ghost function SortedIds(w: World, pvcs: seq<Claim>): Option<seq<string>> {
    match MapVolIdToPvcName(w, pvcs).result
    case None => None
    case Some(v) => Some(Text.Sort(v.ids))
  }

  ghost predicate Rearranged(a: seq<Claim>, b: seq<Claim>) { multiset(a) == multiset(b) }

  lemma SameClaims(a: seq<Claim>, b: seq<Claim>)
    requires Rearranged(a, b)
    ensures forall c :: c in a <==> c in b
    ensures |a| == |b|
  {
    forall c ensures c in a <==> c in b {
      assert c in a <==> c in multiset(a);
      assert c in b <==> c in multiset(b);
    }
    assert |multiset(a)| == |multiset(b)|;
  }

  lemma {:induction false} HandlesConcat(o: Objects, a: seq<Claim>, b: seq<Claim>)
    ensures Handles(o, a + b) == Handles(o, a) + Handles(o, b)
  {
    if b == [] {
      assert a + b == a;
    } else {
      assert (a + b)[..|a + b| - 1] == a + b[..|b| - 1];
      HandlesConcat(o, a, b[..|b| - 1]);
    }
  }

  lemma TakeOut(a: seq<Claim>, b: seq<Claim>, k: nat)
    requires a != [] && k < |b| && Rearranged(a, b) && b[k] == a[|a| - 1]
    ensures Rearranged(a[..|a| - 1], b[..k] + b[k + 1..])
  {
    var c := b[k];
    assert a == a[..|a| - 1] + [c];
    assert b == b[..k] + [c] + b[k + 1..];
    assert multiset(a[..|a| - 1]) == multiset(a) - multiset{c};
    assert multiset(b[..k] + b[k + 1..]) == multiset(b) - multiset{c};
  }

  lemma HandlesWithout(o: Objects, b: seq<Claim>, k: nat)
    requires k < |b|
    ensures multiset(Handles(o, b)) == multiset(Handles(o, b[..k] + b[k + 1..])) + multiset(Handles(o, [b[k]]))
  {
    hide Handles;
    var x, y, z := b[..k], [b[k]], b[k + 1..];
    assert b == x + (y + z);
    HandlesConcat(o, x, y + z);
    HandlesConcat(o, y, z);
    HandlesConcat(o, x, z);
  }

  lemma {:induction false} HandlesRearranged(o: Objects, a: seq<Claim>, b: seq<Claim>)
    requires Rearranged(a, b)
    ensures multiset(Handles(o, a)) == multiset(Handles(o, b))
  {
    SameClaims(a, b);
    if a != [] {
      hide Handles, Rearranged;
      var n := |a| - 1;
      assert a[n] in b;
      var k :| 0 <= k < |b| && b[k] == a[n];
      TakeOut(a, b, k);
      HandlesRearranged(o, a[..n], b[..k] + b[k + 1..]);
      assert a[..n] + a[n + 1..] == a[..n];
      HandlesWithout(o, a, n);
      HandlesWithout(o, b, k);
    }
  }

  lemma SelectionOutcome(w: World, pvcs: seq<Claim>)
    requires Steady(w)
    ensures var o := w.objects;
            SortedIds(w, pvcs) ==
            if AllReadable(o, pvcs) && SomeBound(o, pvcs) && OneSystem(o, pvcs)
            then Some(Text.Sort(Handles(o, pvcs))) else None
  {
    hide MapVolIdToPvcName;
    SelectionExact(w, pvcs);
  }

  ghost predicate AllBound(o: Objects, pvcs: seq<Claim>) { forall c | c in pvcs :: IsBound(o, c) }

  ghost predicate DistinctHandles(o: Objects, pvcs: seq<Claim>) {
    forall c, d | c in pvcs && d in pvcs && HandleOf(o, c) == HandleOf(o, d) :: c == d
  }

  ghost predicate SharedArray(o: Objects, pvcs: seq<Claim>) {
    forall c, d | c in pvcs && d in pvcs && IsBound(o, c) && IsBound(o, d) :: ArrayOf(o, c) == ArrayOf(o, d)
  }

  // When every pair is bound, listing the claims in another order changes neither the
  // outcome nor the sorted list sent to the driver.
  lemma CanonicalRequest(w: World, a: seq<Claim>, b: seq<Claim>)
    requires Steady(w) && Rearranged(a, b) && AllBound(w.objects, a)
    ensures SortedIds(w, a) == SortedIds(w, b)
  {
    hide MapVolIdToPvcName, IsBound, ArrayOf;
    var o := w.objects;
    SameClaims(a, b);
    SelectionOutcome(w, a);
    SelectionOutcome(w, b);
    HandlesRearranged(o, a, b);
    Text.SortIsCanonical(Handles(o, a), Handles(o, b));
    if a != [] {
      assert a[0] in b && b[0] in a;
      assert SystemId(o, a) == ArrayOf(o, a[0]) && SystemId(o, b) == ArrayOf(o, b[0]);
      assert OneSystem(o, a) <==> OneSystem(o, b);
    }
  }

  // Nor the map from handles to claims, when the handles are distinct.
  lemma CanonicalMap(o: Objects, a: seq<Claim>, b: seq<Claim>)
    requires Rearranged(a, b) && DistinctHandles(o, a)
    ensures ClaimMap(o, a) == ClaimMap(o, b)
  {
    SameClaims(a, b);
    GatheredKeys(o, a);
    GatheredKeys(o, b);
    assert forall h :: h in ClaimMap(o, a) <==> h in ClaimMap(o, b);
    forall h | h in ClaimMap(o, a) ensures ClaimMap(o, a)[h] == ClaimMap(o, b)[h] {
      var i := LastClaimWins(o, a, h);
      var j := LastClaimWins(o, b, h);
      assert a[i] in a && b[j] in a;
    }
  }

  /* ---- Listings ---- */

  lemma {:induction false} ClaimsOfListing(items: seq<Object>)
    requires OnePerKey(items)
    ensures forall c :: c in ClaimsOf(items) <==> ClaimObject(c) in items
    ensures Distinct(ClaimsOf(items))
  {
    if items != [] {
      var n := |items| - 1;
      var rest := ClaimsOf(items[..n]);
      assert items == items[..n] + [items[n]];
      assert OnePerKey(items[..n]);
      ClaimsOfListing(items[..n]);
      if items[n].ClaimObject? {
        forall a | 0 <= a < n ensures items[..n][a] != items[n] {
          assert KeyOf(items[a]) != KeyOf(items[n]);
        }
        assert items[n].claim !in rest;
        SnocDistinct(rest, items[n].claim);
      }
    }
  }

  lemma SnocDistinct(xs: seq<Claim>, x: Claim)
    requires Distinct(xs) && x !in xs
    ensures Distinct(xs + [x])
  {
    var all := xs + [x];
    forall i, j | 0 <= i < j < |all| ensures all[i] != all[j] {
      assert all[i] == xs[i] && xs[i] in xs;
    }
  }

  lemma {:induction false} CountOnce(xs: seq<Claim>, x: Claim)
    requires Distinct(xs)
    ensures multiset(xs)[x] == if x in xs then 1 else 0
  {
    if xs != [] {
      var n := |xs| - 1;
      assert xs == xs[..n] + [xs[n]];
      assert forall i | 0 <= i < n :: xs[..n][i] == xs[i];
      CountOnce(xs[..n], x);
    }
  }

  // Two map iterations over the same store show the same claims in some other order.
  lemma ListingsRearranged(o: Objects, p: seq<Key>, q: seq<Key>, wanted: Object -> bool)
    requires Enumerates(p, o) && Enumerates(q, o)
    ensures Rearranged(ClaimsOf(Listed(o, p, |p|, wanted)), ClaimsOf(Listed(o, q, |q|, wanted)))
  {
    hide Listed, ClaimsOf;
    var a, b := Listed(o, p, |p|, wanted), Listed(o, q, |q|, wanted);
    ListingIsExact(o, p, wanted);
    ListingIsExact(o, q, wanted);
    ClaimsOfListing(a);
    ClaimsOfListing(b);
    forall x ensures multiset(ClaimsOf(a))[x] == multiset(ClaimsOf(b))[x] {
      CountOnce(ClaimsOf(a), x);
      CountOnce(ClaimsOf(b), x);
    }
  }

  // The sorted list a selection from a listing sends to the driver.
  ghost function RequestedIds(w: World, wanted: Object -> bool, order: seq<Key>): Option<seq<string>> {
    match FromListing(w, wanted, order).result
    case None => None
    case Some(v) => Some(Text.Sort(v.ids))
  }

  lemma RequestedFromClaims(w: World, wanted: Object -> bool, order: seq<Key>)
    requires Steady(w)
    ensures RequestedIds(w, wanted, order) == SortedIds(w, ClaimsOf(Listed(w.objects, order, |order|, wanted)))
  {
    hide MapVolIdToPvcName, Listed;
    var items := Listed(w.objects, order, |order|, wanted);
    if |items| < 1 { SelectionOutcome(w, ClaimsOf(items)); }
  }

  // All claims of interest bound: the request is the same for every order of iteration.
  lemma RequestIgnoresListingOrder(w: World, wanted: Object -> bool, p: seq<Key>, q: seq<Key>)
    requires Steady(w) && Enumerates(p, w.objects) && Enumerates(q, w.objects)
    requires forall k | k in w.objects && w.objects[k].ClaimObject? && wanted(w.objects[k]) :: IsBound(w.objects, w.objects[k].claim)
    ensures RequestedIds(w, wanted, p) == RequestedIds(w, wanted, q)
  {
    hide IsBound, SortedIds, RequestedIds;
    var o := w.objects;
    var items := Listed(o, p, |p|, wanted);
    ListingsRearranged(o, p, q, wanted);
    ListingIsExact(o, p, wanted);
    ClaimsOfListing(items);
    forall c | c in ClaimsOf(items) ensures IsBound(o, c) {
      assert ClaimObject(c) in items;
    }
    RequestedFromClaims(w, wanted, p);
    RequestedFromClaims(w, wanted, q);
    CanonicalRequest(w, ClaimsOf(items), ClaimsOf(Listed(o, q, |q|, wanted)));
  }

  /* ---- Exactly when the order matters ---- */

  // Some claim is skipped, some is bound, and the bound ones share an array with a name.
  ghost predicate OrderSensitive(o: Objects, pvcs: seq<Claim>) {
    && SharedArray(o, pvcs)
    && (exists c | c in pvcs :: IsBound(o, c) && ArrayOf(o, c) != "")
    && (exists c | c in pvcs :: !IsBound(o, c))
  }

  ghost function Fronted(pvcs: seq<Claim>, k: nat): seq<Claim>
    requires k < |pvcs|
  {
    [pvcs[k]] + pvcs[..k] + pvcs[k + 1..]
  }

  lemma FrontedRearranges(pvcs: seq<Claim>, k: nat)
    requires k < |pvcs|
    ensures Rearranged(pvcs, Fronted(pvcs, k))
  {
    assert pvcs == pvcs[..k] + [pvcs[k]] + pvcs[k + 1..];
  }

  lemma SensitiveOrder(w: World, pvcs: seq<Claim>) returns (bad: seq<Claim>, good: seq<Claim>)
    requires Steady(w) && AllReadable(w.objects, pvcs) && OrderSensitive(w.objects, pvcs)
    ensures Rearranged(pvcs, bad) && Rearranged(pvcs, good)
    ensures SortedIds(w, bad) == None && SortedIds(w, good) != None
  {
    hide MapVolIdToPvcName, IsBound, ArrayOf;
    var o := w.objects;
    var i :| 0 <= i < |pvcs| && IsBound(o, pvcs[i]) && ArrayOf(o, pvcs[i]) != "";
    var j :| 0 <= j < |pvcs| && !IsBound(o, pvcs[j]);
    good, bad := Fronted(pvcs, i), Fronted(pvcs, j);
    FrontedRearranges(pvcs, i);
    FrontedRearranges(pvcs, j);
    SameClaims(pvcs, good);
    SameClaims(pvcs, bad);
    SelectionOutcome(w, good);
    SelectionOutcome(w, bad);
    assert pvcs[i] in pvcs && pvcs[j] in pvcs;
    assert SystemId(o, good) == ArrayOf(o, pvcs[i]);
    assert OneSystem(o, good);
    assert SystemId(o, bad) == "" && pvcs[i] in bad;
    assert !OneSystem(o, bad);
  }

  lemma InsensitiveOrder(w: World, a: seq<Claim>, b: seq<Claim>)
    requires Steady(w) && AllReadable(w.objects, a) && Rearranged(a, b) && !OrderSensitive(w.objects, a)
    ensures SortedIds(w, a) == SortedIds(w, b)
  {
    hide MapVolIdToPvcName, IsBound, ArrayOf;
    var o := w.objects;
    SameClaims(a, b);
    SelectionOutcome(w, a);
    SelectionOutcome(w, b);
    HandlesRearranged(o, a, b);
    Text.SortIsCanonical(Handles(o, a), Handles(o, b));
    if SomeBound(o, a) {
      assert a[0] in b && b[0] in a;
      if !SharedArray(o, a) {
        assert !OneSystem(o, a) && !OneSystem(o, b);
      } else {
        assert OneSystem(o, a) && OneSystem(o, b);
      }
    }
  }

  lemma UnreadableOrder(w: World, a: seq<Claim>, b: seq<Claim>)
    requires Steady(w) && !AllReadable(w.objects, a) && Rearranged(a, b)
    ensures SortedIds(w, a) == SortedIds(w, b) == None
  {
    hide MapVolIdToPvcName;
    SameClaims(a, b);
    SelectionOutcome(w, a);
    SelectionOutcome(w, b);
  }

  // The outcome is the same for every listing order if and only if some volume cannot be read
  // or the claims are not order sensitive.
  lemma OrderMattersIff(w: World, pvcs: seq<Claim>)
    requires Steady(w)
    ensures (forall q | Rearranged(pvcs, q) :: SortedIds(w, q) == SortedIds(w, pvcs))
            <==> !(AllReadable(w.objects, pvcs) && OrderSensitive(w.objects, pvcs))
  {
    if AllReadable(w.objects, pvcs) && OrderSensitive(w.objects, pvcs) {
      var bad, good := SensitiveOrder(w, pvcs);
    } else {
      forall q | Rearranged(pvcs, q) ensures SortedIds(w, q) == SortedIds(w, pvcs) {
        if AllReadable(w.objects, pvcs) { InsensitiveOrder(w, pvcs, q); } else { UnreadableOrder(w, pvcs, q); }
      }
    }
  }

  /* ---- Repeated names ---- */

  function FirstOccurrences(names: seq<string>, i: nat, seen: set<string>): (r: seq<string>)
    requires i <= |names|
    ensures Distinct(r)
    ensures forall x :: x in r <==> x in names[i..] && x !in seen
    decreases |names| - i
  {
    if i == |names| then []
    else
      assert names[i..] == [names[i]] + names[i + 1..];
      if names[i] in seen then FirstOccurrences(names, i + 1, seen)
      else [names[i]] + FirstOccurrences(names, i + 1, seen + {names[i]})
  }

  lemma {:induction false} CollectShift(w: World, names: seq<string>, ns: string, i: nat, seen: set<string>, pvcs: seq<Claim>, x: string)
    requires i <= |names|
    ensures CollectFrom(w, [x] + names, ns, i + 1, seen, pvcs) == CollectFrom(w, names, ns, i, seen, pvcs)
    decreases |names| - i
  {
    if i < |names| {
      assert ([x] + names)[i + 1] == names[i];
      var g := Get(w, ClaimKey(ns, names[i]));
      if names[i] in seen {
        CollectShift(w, names, ns, i + 1, seen, pvcs, x);
      } else if g.result.Ok? {
        CollectShift(g.world, names, ns, i + 1, seen + {names[i]}, pvcs + [g.result.value.claim], x);
      }
    }
  }

  // Reading a list of names does exactly what reading each name once, in first-occurrence order, does.
  lemma {:induction false} DuplicatesDoNotMatter(w: World, names: seq<string>, ns: string, i: nat, seen: set<string>, pvcs: seq<Claim>)
    requires i <= |names|
    ensures CollectFrom(w, names, ns, i, seen, pvcs) == CollectFrom(w, FirstOccurrences(names, i, seen), ns, 0, seen, pvcs)
    decreases |names| - i
  {
    if i < |names| {
      if names[i] in seen {
        DuplicatesDoNotMatter(w, names, ns, i + 1, seen, pvcs);
      } else {
        var g := Get(w, ClaimKey(ns, names[i]));
        var rest := FirstOccurrences(names, i + 1, seen + {names[i]});
        if g.result.Ok? {
          var more := pvcs + [g.result.value.claim];
          DuplicatesDoNotMatter(g.world, names, ns, i + 1, seen + {names[i]}, more);
          CollectShift(g.world, rest, ns, 0, seen + {names[i]}, more, names[i]);
        }
      }
    }
  }

  lemma SelectionIgnoresDuplicates(w: World, names: seq<string>, ns: string)
    ensures FromPvcNames(w, names, ns) == FromPvcNames(w, FirstOccurrences(names, 0, {}), ns)
  {
    DuplicatesDoNotMatter(w, names, ns, 0, {}, []);
    hide MapVolIdToPvcName;
  }

  // Distinct handles: no ID twice, and one map entry for each.
  lemma {:induction false} OneEntryPerId(o: Objects, pvcs: seq<Claim>)
    requires Distinct(Handles(o, pvcs))
    ensures |ClaimMap(o, pvcs)| == |Handles(o, pvcs)|
  {
    if pvcs != [] {
      var n := |pvcs| - 1;
      hide IsBound, HandleOf;
      var rest, all := Handles(o, pvcs[..n]), Handles(o, pvcs);
      assert forall k | 0 <= k < |rest| :: rest[k] == all[k];
      OneEntryPerId(o, pvcs[..n]);
      GatheredKeys(o, pvcs[..n]);
      if IsBound(o, pvcs[n]) {
        assert all[|rest|] == HandleOf(o, pvcs[n]);
        assert HandleOf(o, pvcs[n]) !in ClaimMap(o, pvcs[..n]);
      }
    }
  }

  /* ---- Naming from the map ---- */

  ghost predicate Injective(m: map<string, string>) {
    forall a, b | a in m && b in m && m[a] == m[b] :: a == b
  }

  ghost predicate DistinctClaimNames(pvcs: seq<Claim>) {
    forall i, j | 0 <= i < j < |pvcs| :: pvcs[i].name != pvcs[j].name
  }

  // Each claim has one volume, so different handles lead to different claims.
  lemma SelectionMapInjective(o: Objects, pvcs: seq<Claim>)
    requires DistinctClaimNames(pvcs)
    ensures Injective(ClaimMap(o, pvcs))
  {
    var m := ClaimMap(o, pvcs);
    forall a, b | a in m && b in m && m[a] == m[b] ensures a == b {
      var i := LastClaimWins(o, pvcs, a);
      var j := LastClaimWins(o, pvcs, b);
    }
  }
}
