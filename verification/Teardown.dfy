/** Deleting the members of a group, one snapshot after the other. */
module Teardown {
  import opened Kube
  import opened Api
  import opened Integrity
  import Text

  datatype Run = Run(world: World, failed: bool)

  // The loop over the members from name `i` on; a snapshot that cannot be read counts as gone.
  function DeleteFrom(w: World, ns: string, names: seq<string>, i: nat): Run
    requires i <= |names|
    decreases |names| - i
  {
    if i == |names| then Run(w, false)
    else
      var g := Get(w, SnapshotKey(ns, names[i]));
      if g.result.Err? then DeleteFrom(g.world, ns, names, i + 1)
      else
        var d := Delete(g.world, g.result.value);
        if d.result.Err? then Run(d.world, true) else DeleteFrom(d.world, ns, names, i + 1)
  }

  function WithoutString(xs: seq<string>, x: string): seq<string> {
    if xs == [] then []
    else if xs[0] == x then WithoutString(xs[1..], x)
    else [xs[0]] + WithoutString(xs[1..], x)
  }

  function Unfinalized(vg: VolumeGroup): VolumeGroup {
    vg.(finalizers := WithoutString(vg.finalizers, FINALIZER_NAME))
  }

  // Where the parts of `r` were in `xs`, in order.
  ghost predicate PickedFrom(xs: seq<string>, r: seq<string>, places: seq<nat>) {
    && |places| == |r|
    && (forall i | 0 <= i < |places| :: places[i] < |xs| && r[i] == xs[places[i]])
    && (forall i, j | 0 <= i < j < |places| :: places[i] < places[j])
  }

  // `r` is what `xs` has besides `x`, in order and as often as before.
  ghost predicate KeptBut(xs: seq<string>, x: string, r: seq<string>) {
    && (forall y :: multiset(r)[y] == if y == x then 0 else multiset(xs)[y])
    && exists places :: PickedFrom(xs, r, places)
  }

  lemma {:induction false} WithoutCounts(xs: seq<string>, x: string, y: string)
    ensures multiset(WithoutString(xs, x))[y] == if y == x then 0 else multiset(xs)[y]
  {
    if xs != [] {
      assert xs == [xs[0]] + xs[1..];
      WithoutCounts(xs[1..], x, y);
    }
  }

  lemma PickedLater(x: string, xs: seq<string>, r: seq<string>, places: seq<nat>) returns (later: seq<nat>)
    requires PickedFrom(xs, r, places)
    ensures PickedFrom([x] + xs, r, later) && forall i | 0 <= i < |later| :: later[i] > 0
  {
    later := seq(|places|, i requires 0 <= i < |places| => places[i] + 1);
  }

  lemma PickedFirst(x: string, xs: seq<string>, r: seq<string>, later: seq<nat>)
    requires PickedFrom([x] + xs, r, later) && forall i | 0 <= i < |later| :: later[i] > 0
    ensures PickedFrom([x] + xs, [x] + r, [0] + later)
  {
  }

  lemma {:induction false} WithoutPicks(xs: seq<string>, x: string) returns (places: seq<nat>)
    ensures PickedFrom(xs, WithoutString(xs, x), places)
  {
    if xs == [] {
      places := [];
    } else {
      hide PickedFrom;
      assert xs == [xs[0]] + xs[1..];
      var rest := WithoutString(xs[1..], x);
      places := WithoutPicks(xs[1..], x);
      var later := PickedLater(xs[0], xs[1..], rest, places);
      places := later;
      if xs[0] != x {
        PickedFirst(xs[0], xs[1..], rest, later);
        places := [0] + later;
      }
    }
  }

  lemma WithoutMeans(xs: seq<string>, x: string)
    ensures KeptBut(xs, x, WithoutString(xs, x))
  {
    hide PickedFrom, WithoutString;
    var places := WithoutPicks(xs, x);
    forall y ensures multiset(WithoutString(xs, x))[y] == if y == x then 0 else multiset(xs)[y] { WithoutCounts(xs, x, y); }
  }

  // The group as it was but for the controller's own finalizer.
  lemma UnfinalizedMeans(vg: VolumeGroup)
    ensures var x := Unfinalized(vg);
            x == vg.(finalizers := x.finalizers) && KeptBut(vg.finalizers, "vgFinalizer", x.finalizers)
  {
    WithoutMeans(vg.finalizers, "vgFinalizer");
  }

  function DropFinalizer(w: World, vg: VolumeGroup): Run {
    var u := Update(w, GroupObject(Unfinalized(vg)));
    Run(u.world, u.result.Err?)
  }

  function DeleteVg(w: World, vg: VolumeGroup): Run {
    var c := Get(w, ClassKey(vg.spec.className));
    if c.result.Err? then Run(c.world, true)
    else
      match c.result.value.class_.policy
      case DeletePolicy =>
        var t := DeleteFrom(c.world, vg.ns, Text.Split(vg.status.snapshots, ','), 0);
        if t.failed then t else DropFinalizer(t.world, vg)
      case RetainPolicy => DropFinalizer(c.world, vg)
      case OtherPolicy => Run(c.world, false)
  }

  /* ---- What deleting one member does to a store ---- */

  ghost predicate Live(o: Objects, k: Key) {
    k in o && o[k].SnapshotObject? && !o[k].snapshot.deleting
  }

  ghost predicate HasContent(o: Objects, k: Key)
    requires Live(o, k)
  {
    o[k].snapshot.contentName.Some? && ContentKey(o[k].snapshot.contentName.value) in o
  }

  // A live snapshot without its content cannot be deleted.
  ghost predicate Stuck(o: Objects, k: Key) { Live(o, k) && !HasContent(o, k) }

  ghost function TearOne(o: Objects, k: Key): Objects {
    if !Live(o, k) || !HasContent(o, k) then o
    else
      var c := ContentKey(o[k].snapshot.contentName.value);
      if o[c].content.policy == DeletePolicy then o - {k, c} else o - {k}
  }

  // The members from `i` up to `j`, torn down in turn.
  ghost function Sweep(o: Objects, ns: string, names: seq<string>, i: nat, j: nat): Objects
    requires i <= j <= |names|
    decreases j - i
  {
    if i == j then o else Sweep(TearOne(o, SnapshotKey(ns, names[i])), ns, names, i + 1, j)
  }

  // An uninterrupted pass: it stops at the first stuck member.
  datatype Cleared = Cleared(objects: Objects, failed: bool)

  ghost function Clear(o: Objects, ns: string, names: seq<string>, i: nat): Cleared
    requires i <= |names|
    decreases |names| - i
  {
    if i == |names| then Cleared(o, false)
    else if Stuck(o, SnapshotKey(ns, names[i])) then Cleared(o, true)
    else Clear(TearOne(o, SnapshotKey(ns, names[i])), ns, names, i + 1)
  }

  lemma DeleteEffect(w: World, k: Key)
    requires k in w.objects && w.objects[k].SnapshotObject?
    ensures var d := Delete(w, w.objects[k]);
            && (d.result.Ok? ==> !Stuck(w.objects, k) && d.world.objects == TearOne(w.objects, k))
            && (d.result.Err? ==> d.world.objects == w.objects)
            && (Steady(w) && !Stuck(w.objects, k) ==> d.result.Ok? && d.world == w.(objects := TearOne(w.objects, k)))
            && (Stuck(w.objects, k) ==> d.result.Err?)
  {
    assert KeyOf(w.objects[k]) == k;
  }

  /* ---- Nothing else is removed ---- */

  ghost function Keys(ns: string, names: seq<string>): set<Key> {
    set x | x in names :: SnapshotKey(ns, x)
  }

  // Only live snapshots among `keys` go, and contents only along with one of those that names them.
  ghost predicate OnlyGone(o: Objects, o': Objects, keys: set<Key>) {
    && (forall k | k in o' :: k in o && o[k] == o'[k])
    && (forall k | k in o && k !in o' ::
          || (k in keys && Live(o, k))
          || (k.kind == ContentKind && o[k].content.policy == DeletePolicy
              && exists s :: s in keys && Live(o, s) && s !in o' && Names(o, s, k.name)))
  }

  lemma NothingGone(o: Objects, keys: set<Key>)
    ensures OnlyGone(o, o, keys)
  {
  }

  lemma TearOneThenOnly(o: Objects, s: Key, o': Objects, rest: set<Key>, keys: set<Key>)
    requires OnlyGone(TearOne(o, s), o', rest) && s in keys && rest <= keys
    ensures OnlyGone(o, o', keys)
  {
    var m := TearOne(o, s);
    forall k | k in o && k !in o'
      ensures || (k in keys && Live(o, k))
              || (k.kind == ContentKind && o[k].content.policy == DeletePolicy
                  && exists s :: s in keys && Live(o, s) && s !in o' && Names(o, s, k.name))
    {
      if k in m {
        if !(k in rest && Live(m, k)) {
          var t :| t in rest && Live(m, t) && t !in o' && Names(m, t, k.name);
          assert Names(o, t, k.name) && Live(o, t);
        }
      } else if k != s {
        assert Names(o, s, k.name);
      }
    }
  }

  lemma KeysShrink(ns: string, names: seq<string>, i: nat)
    requires i < |names|
    ensures Keys(ns, names[i + 1..]) <= Keys(ns, names[i..]) && SnapshotKey(ns, names[i]) in Keys(ns, names[i..])
    ensures Keys(ns, names[i..]) == Keys(ns, names[i + 1..]) + {SnapshotKey(ns, names[i])}
  {
    assert names[i..] == [names[i]] + names[i + 1..];
    assert names[i] in names[i..];
  }

  lemma OnlyGoneMore(o: Objects, o': Objects, rest: set<Key>, keys: set<Key>)
    requires OnlyGone(o, o', rest) && rest <= keys
    ensures OnlyGone(o, o', keys)
  {
    forall k | k in o && k !in o'
      ensures || (k in keys && Live(o, k))
              || (k.kind == ContentKind && o[k].content.policy == DeletePolicy
                  && exists s :: s in keys && Live(o, s) && s !in o' && Names(o, s, k.name))
    {
      if !(k in rest && Live(o, k)) {
        var t :| t in rest && Live(o, t) && t !in o' && Names(o, t, k.name);
      }
    }
  }

  // Whatever fails, no unlisted snapshot is ever removed, and nothing is changed.
  lemma {:induction false} TeardownRemovesOnlyListed(w: World, ns: string, names: seq<string>, i: nat)
    requires i <= |names|
    ensures OnlyGone(w.objects, DeleteFrom(w, ns, names, i).world.objects, Keys(ns, names[i..]))
    decreases |names| - i
  {
    hide OnlyGone, Delete, Keys;
    if i == |names| {
      NothingGone(w.objects, Keys(ns, names[i..]));
    } else {
      KeysShrink(ns, names, i);
      var k := SnapshotKey(ns, names[i]);
      var o, o' := w.objects, DeleteFrom(w, ns, names, i).world.objects;
      var g := Get(w, k);
      if g.result.Err? {
        TeardownRemovesOnlyListed(g.world, ns, names, i + 1);
        OnlyGoneMore(o, o', Keys(ns, names[i + 1..]), Keys(ns, names[i..]));
      } else {
        assert KeyOf(o[k]) == k;
        DeleteEffect(g.world, k);
        var d := Delete(g.world, g.result.value);
        if d.result.Ok? {
          TeardownRemovesOnlyListed(d.world, ns, names, i + 1);
          TearOneThenOnly(o, k, o', Keys(ns, names[i + 1..]), Keys(ns, names[i..]));
        } else {
          NothingGone(o, Keys(ns, names[i..]));
        }
      }
    }
  }

  lemma TearOneKeepsIntegrity(o: Objects, k: Key)
    requires RefIntegrity(o)
    ensures RefIntegrity(TearOne(o, k))
  {
    var o' := TearOne(o, k);
    forall x | Ours(o', x) ensures Bound(o', x) {
      assert Ours(o, x) && Bound(o, x);
      var c := o[x].snapshot.contentName.value;
      if ContentKey(c) !in o' {
        assert Names(o, k, c);
      }
      forall y | Names(o', y, c) ensures y == x { assert Names(o, y, c); }
    }
  }

  lemma {:induction false} TeardownKeepsIntegrity(w: World, ns: string, names: seq<string>, i: nat)
    requires i <= |names| && RefIntegrity(w.objects)
    ensures RefIntegrity(DeleteFrom(w, ns, names, i).world.objects)
    decreases |names| - i
  {
    if i < |names| {
      hide RefIntegrity, Delete;
      var k := SnapshotKey(ns, names[i]);
      var g := Get(w, k);
      if g.result.Err? {
        TeardownKeepsIntegrity(g.world, ns, names, i + 1);
      } else {
        assert KeyOf(w.objects[k]) == k;
        DeleteEffect(g.world, k);
        TearOneKeepsIntegrity(w.objects, k);
        var d := Delete(g.world, g.result.value);
        if d.result.Ok? { TeardownKeepsIntegrity(d.world, ns, names, i + 1); }
      }
    }
  }

  /* ---- Retrying ---- */

  // The next read is refused although there is something to delete.
  ghost predicate MissedRead(w: World, k: Key) {
    Live(w.objects, k) && !w.halted && w.script != [] && w.script[0].Refuse?
  }

  ghost predicate NoMissedRead(w: World, ns: string, names: seq<string>, i: nat)
    requires i <= |names|
    decreases |names| - i
  {
    i < |names| ==>
      var g := Get(w, SnapshotKey(ns, names[i]));
      && !MissedRead(w, SnapshotKey(ns, names[i]))
      && (g.result.Err? ==> NoMissedRead(g.world, ns, names, i + 1))
      && (g.result.Ok? ==>
            var d := Delete(g.world, g.result.value);
            d.result.Ok? ==> NoMissedRead(d.world, ns, names, i + 1))
  }

  lemma {:induction false} HaltedTeardown(w: World, ns: string, names: seq<string>, i: nat)
    requires i <= |names| && w.halted
    ensures DeleteFrom(w, ns, names, i) == Run(w, false)
    decreases |names| - i
  {
    if i < |names| { HaltedTeardown(w, ns, names, i + 1); }
  }

  // One step of an attempt that misses nothing: it goes on as an uninterrupted pass would, or it ends here.
  lemma AttemptStep(w: World, ns: string, names: seq<string>, i: nat) returns (next: Option<World>)
    requires i < |names| && NoMissedRead(w, ns, names, i)
    ensures var k, r := SnapshotKey(ns, names[i]), DeleteFrom(w, ns, names, i);
            match next
            case Some(w') =>
              && !Stuck(w.objects, k) && w'.objects == TearOne(w.objects, k)
              && NoMissedRead(w', ns, names, i + 1) && r == DeleteFrom(w', ns, names, i + 1)
            case None => r.world.objects == w.objects && (r.failed || r.world.halted)
  {
    hide Delete;
    var k := SnapshotKey(ns, names[i]);
    assert k in w.objects ==> KeyOf(w.objects[k]) == k;
    var g := Get(w, k);
    if g.result.Ok? {
      DeleteEffect(g.world, k);
      var d := Delete(g.world, g.result.value);
      next := if d.result.Ok? then Some(d.world) else None;
    } else if g.world.halted {
      HaltedTeardown(g.world, ns, names, i + 1);
      next := None;
    } else {
      next := Some(g.world);
    }
  }

  lemma {:induction false} SettledStays(o: Objects, ns: string, names: seq<string>, i: nat, k: Key)
    requires i <= |names| && !Live(o, k)
    ensures !Live(Clear(o, ns, names, i).objects, k)
    decreases |names| - i
  {
    if i < |names| && !Stuck(o, SnapshotKey(ns, names[i])) {
      SettledStays(TearOne(o, SnapshotKey(ns, names[i])), ns, names, i + 1, k);
    }
  }

  // Passing over what an attempt has left ends where an uninterrupted pass over the original store ends.
  lemma {:induction false} RetryFinishes(w: World, ns: string, names: seq<string>, i: nat)
    requires i <= |names| && NoMissedRead(w, ns, names, i)
    ensures Clear(DeleteFrom(w, ns, names, i).world.objects, ns, names, i) == Clear(w.objects, ns, names, i)
    decreases |names| - i
  {
    if i < |names| {
      hide NoMissedRead, DeleteFrom, TearOne;
      var k := SnapshotKey(ns, names[i]);
      var next := AttemptStep(w, ns, names, i);
      if next.Some? {
        var left := DeleteFrom(w, ns, names, i).world.objects;
        RetryFinishes(next.value, ns, names, i + 1);
        TeardownRemovesOnlyListed(next.value, ns, names, i + 1);
        TornIsSettled(w.objects, k);
        SettledIsSkipped(left, k);
      }
    }
  }

  lemma TornIsSettled(o: Objects, k: Key)
    requires !Stuck(o, k)
    ensures !Live(TearOne(o, k), k)
  {
  }

  lemma SettledIsSkipped(o: Objects, k: Key)
    ensures !Live(o, k) ==> !Stuck(o, k) && TearOne(o, k) == o
  {
  }

  lemma {:induction false} SteadyTeardown(w: World, ns: string, names: seq<string>, i: nat)
    requires i <= |names| && Steady(w)
    ensures var r, c := DeleteFrom(w, ns, names, i), Clear(w.objects, ns, names, i);
            && r.world.objects == c.objects && r.failed == c.failed
            && (!r.failed ==> r.world == w.(objects := c.objects))
    decreases |names| - i
  {
    if i < |names| {
      hide Delete, TearOne, Stuck;
      var k := SnapshotKey(ns, names[i]);
      if k in w.objects {
        assert KeyOf(w.objects[k]) == k;
        DeleteEffect(w, k);
        if !Stuck(w.objects, k) { SteadyTeardown(Delete(w, w.objects[k]).world, ns, names, i + 1); }
      } else {
        SettledIsSkipped(w.objects, k);
        SteadyTeardown(w, ns, names, i + 1);
      }
    }
  }

  // A failed or stopped attempt followed by an undisturbed one leaves exactly the store,
  // and reports exactly the outcome, of an undisturbed attempt alone.
  lemma RetryEqualsOneShot(w: World, again: World, alone: World, ns: string, names: seq<string>)
    requires NoMissedRead(w, ns, names, 0)
    requires Steady(again) && again.objects == DeleteFrom(w, ns, names, 0).world.objects
    requires Steady(alone) && alone.objects == w.objects
    ensures DeleteFrom(again, ns, names, 0).world.objects == DeleteFrom(alone, ns, names, 0).world.objects
    ensures DeleteFrom(again, ns, names, 0).failed == DeleteFrom(alone, ns, names, 0).failed
  {
    hide DeleteFrom, NoMissedRead;
    RetryFinishes(w, ns, names, 0);
    SteadyTeardown(again, ns, names, 0);
    SteadyTeardown(alone, ns, names, 0);
  }

  /* ---- What an attempt has removed when it ends ---- */

  // A snapshot is left exactly when it is not among the live ones of the first names.
  ghost predicate PrefixGone(o: Objects, o': Objects, ns: string, names: seq<string>, i: nat, j: nat)
    requires i <= j <= |names|
  {
    && OnlyGone(o, o', Keys(ns, names[i..j]))
    && forall m | i <= m < j :: !Live(o', SnapshotKey(ns, names[m]))
  }

  lemma PrefixGoneSteps(o: Objects, o': Objects, ns: string, names: seq<string>, i: nat, j: nat)
    requires i < j <= |names| && !Stuck(o, SnapshotKey(ns, names[i]))
    requires PrefixGone(TearOne(o, SnapshotKey(ns, names[i])), o', ns, names, i + 1, j)
    ensures PrefixGone(o, o', ns, names, i, j)
  {
    var k := SnapshotKey(ns, names[i]);
    TornIsSettled(o, k);
    assert !Live(o', k);
    hide OnlyGone, Keys;
    KeysShrink(ns, names[..j], i);
    assert names[..j][i..] == names[i..j] && names[..j][i + 1..] == names[i + 1..j];
    TearOneThenOnly(o, k, o', Keys(ns, names[i + 1..j]), Keys(ns, names[i..j]));
  }

  // An attempt that misses no read removes exactly the live members among the first `j`
  // names, and all of them when it neither fails nor stops.
  lemma {:induction false} AttemptIsPrefix(w: World, ns: string, names: seq<string>, i: nat) returns (j: nat)
    requires i <= |names| && NoMissedRead(w, ns, names, i)
    ensures i <= j <= |names|
    ensures PrefixGone(w.objects, DeleteFrom(w, ns, names, i).world.objects, ns, names, i, j)
    ensures var r := DeleteFrom(w, ns, names, i); !r.failed && !r.world.halted ==> j == |names|
    decreases |names| - i
  {
    var r := DeleteFrom(w, ns, names, i);
    if i == |names| {
      j := i;
      NothingGone(w.objects, Keys(ns, names[i..j]));
    } else {
      hide NoMissedRead, DeleteFrom, TearOne, PrefixGone;
      var next := AttemptStep(w, ns, names, i);
      if next.Some? {
        j := AttemptIsPrefix(next.value, ns, names, i + 1);
        PrefixGoneSteps(w.objects, r.world.objects, ns, names, i, j);
      } else {
        j := i;
        NothingGone(w.objects, Keys(ns, names[i..j]));
        NothingIsAPrefix(w.objects, ns, names, i);
      }
    }
  }

  lemma NothingIsAPrefix(o: Objects, ns: string, names: seq<string>, i: nat)
    requires i <= |names|
    ensures PrefixGone(o, o, ns, names, i, i)
  {
  }

  // The same, read off for one snapshot.
  lemma PrefixGoneExactly(o: Objects, o': Objects, ns: string, names: seq<string>, j: nat, k: Key)
    requires j <= |names| && PrefixGone(o, o', ns, names, 0, j) && k in o && o[k].SnapshotObject?
    ensures k in o' <==> !(Live(o, k) && k in Keys(ns, names[..j]))
  {
    assert names[0..j] == names[..j];
    assert KeyOf(o[k]) == k;
    if k in Keys(ns, names[..j]) {
      var m :| 0 <= m < j && k == SnapshotKey(ns, names[m]);
      assert !Live(o', k);
    }
  }

  ghost predicate AllSettled(o: Objects, ns: string, names: seq<string>, i: nat) {
    forall m | i <= m < |names| :: !Live(o, SnapshotKey(ns, names[m]))
  }

  lemma UnlistedStays(o: Objects, o': Objects, ns: string, names: seq<string>, i: nat)
    requires i < |names| && Distinct(names) && OnlyGone(o, o', Keys(ns, names[i + 1..]))
    requires Live(o, SnapshotKey(ns, names[i]))
    ensures Live(o', SnapshotKey(ns, names[i]))
  {
    assert SnapshotKey(ns, names[i]) !in Keys(ns, names[i + 1..]);
  }

  lemma {:induction false} MissedStays(w: World, ns: string, names: seq<string>, i: nat) returns (m: nat)
    requires i <= |names| && Distinct(names) && !NoMissedRead(w, ns, names, i)
    requires !DeleteFrom(w, ns, names, i).failed
    ensures i <= m < |names| && Live(DeleteFrom(w, ns, names, i).world.objects, SnapshotKey(ns, names[m]))
    decreases |names| - i
  {
    hide Delete, OnlyGone, Live;
    var k := SnapshotKey(ns, names[i]);
    var g := Get(w, k);
    if MissedRead(w, k) {
      m := i;
      TeardownRemovesOnlyListed(g.world, ns, names, i + 1);
      UnlistedStays(w.objects, DeleteFrom(w, ns, names, i).world.objects, ns, names, i);
    } else if g.result.Err? {
      m := MissedStays(g.world, ns, names, i + 1);
    } else {
      m := MissedStays(Delete(g.world, g.result.value).world, ns, names, i + 1);
    }
  }

  // A read that was refused is the one way an attempt can report success and leave a live
  // member behind: exactly then does it.
  lemma MissedReadIff(w: World, ns: string, names: seq<string>)
    requires Distinct(names)
    requires !DeleteFrom(w, ns, names, 0).failed && !DeleteFrom(w, ns, names, 0).world.halted
    ensures NoMissedRead(w, ns, names, 0) <==> AllSettled(DeleteFrom(w, ns, names, 0).world.objects, ns, names, 0)
  {
    hide DeleteFrom, Live, NoMissedRead;
    if NoMissedRead(w, ns, names, 0) {
      var j := AttemptIsPrefix(w, ns, names, 0);
    } else {
      var m := MissedStays(w, ns, names, 0);
    }
  }
}
