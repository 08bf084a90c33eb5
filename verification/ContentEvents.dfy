/** Contents of a group's members are deleted one by one, in any order: the member list
    shrinks accordingly and the group goes with its last member. */
module ContentEvents {
  import opened Kube
  import opened Api
  import opened Lifecycle
  import Text

  // The names that are left, in their original order.
  function Without(names: seq<string>, gone: set<string>): seq<string> {
    if names == [] then []
    else if names[0] in gone then Without(names[1..], gone)
    else [names[0]] + Without(names[1..], gone)
  }

  ghost predicate GoodNames(names: seq<string>) {
    Distinct(names) && Text.AllFree(names, ',') && forall i | 0 <= i < |names| :: names[i] != ""
  }

  lemma {:induction false} WithoutIsPart(names: seq<string>, gone: set<string>)
    ensures forall x :: x in Without(names, gone) <==> x in names && x !in gone
    ensures GoodNames(names) ==> GoodNames(Without(names, gone))
  {
    if names != [] {
      WithoutIsPart(names[1..], gone);
      var rest := Without(names[1..], gone);
      assert names == [names[0]] + names[1..];
      if GoodNames(names) {
        assert GoodNames(names[1..]);
        assert names[0] !in rest;
        forall i, j | 0 <= i < j < |[names[0]] + rest| ensures ([names[0]] + rest)[i] != ([names[0]] + rest)[j] {
          if i == 0 { assert rest[j - 1] in rest; }
        }
      }
    }
  }

  lemma {:induction false} WithoutNothing(names: seq<string>)
    ensures Without(names, {}) == names
  {
    if names != [] { WithoutNothing(names[1..]); }
  }

  lemma {:induction false} WithoutAbsent(names: seq<string>, gone: set<string>, s: string)
    requires s !in names
    ensures Without(names, gone + {s}) == Without(names, gone)
  {
    if names != [] { WithoutAbsent(names[1..], gone, s); }
  }

  lemma {:induction false} RemoveFirstIsWithout(names: seq<string>, gone: set<string>, s: string)
    requires Distinct(names)
    ensures RemoveFirst(Without(names, gone), s) == Without(names, gone + {s})
  {
    if names != [] {
      var tail := names[1..];
      if names[0] == s {
        assert s !in tail;
        WithoutAbsent(tail, gone, s);
        if s in gone {
          RemoveFirstIsWithout(tail, gone, s);
        }
      } else {
        RemoveFirstIsWithout(tail, gone, s);
      }
    }
  }

  lemma EmptyJoin(names: seq<string>)
    requires GoodNames(names)
    ensures Text.Join(names, ',') == "" <==> names == []
  {
    if names != [] { assert |Text.Join(names, ',')| >= |names[0]|; }
  }

  // Striking a name from the stored list is removing it from the members.
  lemma StruckList(names: seq<string>, gone: set<string>, s: string)
    requires GoodNames(names)
    ensures Text.Join(RemoveFirst(Text.Split(Text.Join(Without(names, gone), ','), ','), s), ',') == Text.Join(Without(names, gone + {s}), ',')
  {
    var left := Without(names, gone);
    WithoutIsPart(names, gone);
    RemoveFirstIsWithout(names, gone, s);
    if left == [] {
      assert Text.Split("", ',') == [""];
    } else {
      Text.SplitJoin(left, ',');
    }
  }

  /* ---- One notice ---- */

  // The content belongs to a snapshot of the group at `gk`.
  ghost predicate Concerns(o: Objects, c: SnapshotContent, gk: Key) {
    var k := SnapshotKey(c.refNs, c.refName);
    && k in o && "snapshotGroup" in o[k].snapshot.labels
    && o[k].snapshot.labels["snapshotGroup"] != ""
    && gk == GroupKey(c.refNs, o[k].snapshot.labels["snapshotGroup"])
  }

  // The store with the group's list set to `snaps`: an empty list takes an unmarked group along.
  ghost function Listing(o: Objects, gk: Key, vg: VolumeGroup, snaps: string): Objects
    requires gk == GroupKey(vg.ns, vg.name)
  {
    if snaps == "" && !vg.deleting then o - {gk}
    else o[gk := GroupObject(vg.(status := vg.status.(snapshots := snaps)))]
  }

  lemma StrikeOne(w: World, vg: VolumeGroup, s: string)
    requires Steady(w) && GroupKey(vg.ns, vg.name) in w.objects
    ensures var snaps := Struck(vg, s).status.snapshots;
            StrikeMember(w, vg, s) == Notice(w.(objects := Listing(w.objects, GroupKey(vg.ns, vg.name), vg, snaps)), snaps == "")
  {
    var x := Struck(vg, s);
    assert x == vg.(status := vg.status.(snapshots := x.status.snapshots));
    hide Struck;
    var gk := GroupKey(vg.ns, vg.name);
    assert w.objects[gk := GroupObject(x)] - {gk} == w.objects - {gk};
  }

  lemma OneNotice(w: World, c: SnapshotContent, gk: Key)
    requires Steady(w) && gk.kind == GroupKind
    ensures var n, o := HandleSnapContentDelete(w, c), w.objects;
            && Steady(n.world)
            && (forall k: Key | k.kind != GroupKind :: (k in o <==> k in n.world.objects) && (k in o ==> o[k] == n.world.objects[k]))
            && (if Concerns(o, c, gk) && gk in o then
                  var snaps := Struck(o[gk].group, c.refName).status.snapshots;
                  n.world.objects == Listing(o, gk, o[gk].group, snaps) && (n.issued <==> snaps == "")
                else
                  (gk in o <==> gk in n.world.objects) && (gk in o ==> o[gk] == n.world.objects[gk]))
  {
    hide StrikeMember, Struck;
    var o, s := w.objects, SnapshotKey(c.refNs, c.refName);
    if s in o {
      var labels := o[s].snapshot.labels;
      var k := GroupKey(c.refNs, if LABEL_SNAPSHOT_GROUP in labels then labels[LABEL_SNAPSHOT_GROUP] else "");
      if k in o {
        assert KeyOf(o[k]) == k;
        StrikeOne(w, o[k].group, c.refName);
      }
    }
  }

  /* ---- Any sequence of notices ---- */

  function Noted(w: World, cs: seq<SnapshotContent>, i: nat): World
    requires i <= |cs|
  {
    if i == 0 then w else HandleSnapContentDelete(Noted(w, cs, i - 1), cs[i - 1]).world
  }

  // The members whose contents the first `i` notices report.
  ghost function Gone(o: Objects, gk: Key, cs: seq<SnapshotContent>, i: nat): set<string>
    requires i <= |cs|
  {
    if i == 0 then {}
    else Gone(o, gk, cs, i - 1) + (if Concerns(o, cs[i - 1], gk) then {cs[i - 1].refName} else {})
  }

  // The group lists exactly the members left; an unmarked one is gone once none is left.
  ghost predicate ListsWhatIsLeft(o: Objects, gk: Key, vg: VolumeGroup, left: seq<string>)
  {
    if left == [] && !vg.deleting then gk !in o
    else gk in o && o[gk] == GroupObject(vg.(status := vg.status.(snapshots := Text.Join(left, ','))))
  }

  lemma {:induction false} NoticesInAnyOrder(w: World, gk: Key, vg: VolumeGroup, names: seq<string>, cs: seq<SnapshotContent>, i: nat)
    requires Steady(w) && i <= |cs| && gk == GroupKey(vg.ns, vg.name) && |names| >= 1 && GoodNames(names)
    requires gk in w.objects && w.objects[gk] == GroupObject(vg) && vg.status.snapshots == Text.Join(names, ',')
    ensures Steady(Noted(w, cs, i))
    ensures forall k: Key | k.kind != GroupKind :: (k in w.objects <==> k in Noted(w, cs, i).objects)
                                                   && (k in w.objects ==> w.objects[k] == Noted(w, cs, i).objects[k])
    ensures ListsWhatIsLeft(Noted(w, cs, i).objects, gk, vg, Without(names, Gone(w.objects, gk, cs, i)))
  {
    hide HandleSnapContentDelete, ListsWhatIsLeft, Without, GoodNames, Concerns;
    if i == 0 {
      WithoutNothing(names);
      AllAreLeft(w.objects, gk, vg, names);
    } else {
      var gone := Gone(w.objects, gk, cs, i - 1);
      NoticesInAnyOrder(w, gk, vg, names, cs, i - 1);
      NextNotice(w.objects, Noted(w, cs, i - 1), gk, vg, names, gone, cs[i - 1]);
    }
  }

  lemma AllAreLeft(o: Objects, gk: Key, vg: VolumeGroup, names: seq<string>)
    requires gk in o && o[gk] == GroupObject(vg) && vg.status.snapshots == Text.Join(names, ',') && |names| >= 1
    ensures ListsWhatIsLeft(o, gk, vg, names)
  {
  }

  lemma NextNotice(o: Objects, w: World, gk: Key, vg: VolumeGroup, names: seq<string>, gone: set<string>, c: SnapshotContent)
    requires Steady(w) && gk == GroupKey(vg.ns, vg.name) && GoodNames(names)
    requires forall k: Key | k.kind != GroupKind :: (k in o <==> k in w.objects) && (k in o ==> o[k] == w.objects[k])
    requires ListsWhatIsLeft(w.objects, gk, vg, Without(names, gone))
    ensures var n := HandleSnapContentDelete(w, c);
            var gone' := gone + (if Concerns(o, c, gk) then {c.refName} else {});
            && Steady(n.world)
            && (forall k: Key | k.kind != GroupKind :: (k in o <==> k in n.world.objects) && (k in o ==> o[k] == n.world.objects[k]))
            && ListsWhatIsLeft(n.world.objects, gk, vg, Without(names, gone'))
            && (Concerns(o, c, gk) && gk in w.objects ==> (n.issued <==> Without(names, gone') == []))
  {
    hide HandleSnapContentDelete, Without, GoodNames;
    OneNotice(w, c, gk);
    assert Concerns(w.objects, c, gk) <==> Concerns(o, c, gk);
    if Concerns(o, c, gk) {
      StruckList(names, gone, c.refName);
      WithoutIsPart(names, gone + {c.refName});
      EmptyJoin(Without(names, gone + {c.refName}));
      LeftShrinks(names, gone, c.refName);
    } else {
      assert gone + {} == gone;
    }
  }

  lemma LeftShrinks(names: seq<string>, gone: set<string>, s: string)
    ensures Without(names, gone) == [] ==> Without(names, gone + {s}) == []
  {
    WithoutIsPart(names, gone);
    WithoutIsPart(names, gone + {s});
    var after := Without(names, gone + {s});
    if after != [] { assert after[0] in Without(names, gone); }
  }

  // The deletion of the group is issued by the notice that takes the last member, and by no earlier one.
  lemma DeletedWithTheLastMember(w: World, gk: Key, vg: VolumeGroup, names: seq<string>, cs: seq<SnapshotContent>, i: nat)
    requires Steady(w) && i < |cs| && gk == GroupKey(vg.ns, vg.name) && |names| >= 1 && GoodNames(names) && !vg.deleting
    requires gk in w.objects && w.objects[gk] == GroupObject(vg) && vg.status.snapshots == Text.Join(names, ',')
    requires Concerns(w.objects, cs[i], gk)
    ensures var before, after := Without(names, Gone(w.objects, gk, cs, i)), Without(names, Gone(w.objects, gk, cs, i + 1));
            && (before != [] ==> (HandleSnapContentDelete(Noted(w, cs, i), cs[i]).issued <==> after == []))
            && (before == [] ==> gk !in Noted(w, cs, i).objects)
  {
    hide HandleSnapContentDelete, Without, GoodNames;
    NoticesInAnyOrder(w, gk, vg, names, cs, i);
    NextNotice(w.objects, Noted(w, cs, i), gk, vg, names, Gone(w.objects, gk, cs, i), cs[i]);
  }

  /* ---- One notice under faults ---- */

  lemma StruckMeans(vg: VolumeGroup, names: seq<string>, name: string)
    requires GoodNames(names) && vg.status.snapshots == Text.Join(names, ',')
    ensures var left := Without(names, {name});
            Struck(vg, name) == vg.(status := vg.status.(snapshots := Text.Join(left, ','))) && (Text.Join(left, ',') == "" <==> left == [])
  {
    WithoutNothing(names);
    StruckList(names, {}, name);
    assert {} + {name} == {name};
    WithoutIsPart(names, {name});
    EmptyJoin(Without(names, {name}));
  }

  lemma StrikeUnderFaults(w: World, vg: VolumeGroup, name: string)
    requires GroupKey(vg.ns, vg.name) in w.objects
    ensures var n, x, gk := StrikeMember(w, vg, name), Struck(vg, name), GroupKey(vg.ns, vg.name);
            var listed := if Passes(w) then w.objects[gk := GroupObject(x)] else w.objects;
            && (n.issued <==> x.status.snapshots == "")
            && n.world.objects == if x.status.snapshots == "" && !vg.deleting && Passes(Spend(w)) then listed - {gk} else listed
  {
    var x := Struck(vg, name);
    assert x.ns == vg.ns && x.name == vg.name && x.deleting == vg.deleting;
    hide Struck;
  }

  // A notice is passed over unless both reads go through.  Then the list is written without the
  // member, if that write goes through; whether it does or not, the group's deletion is issued
  // exactly if no member is left, and an unmarked group goes if that call goes through.
  lemma NoticeUnderFaults(w: World, c: SnapshotContent, gk: Key, vg: VolumeGroup, names: seq<string>)
    requires gk == GroupKey(vg.ns, vg.name) && gk in w.objects && w.objects[gk] == GroupObject(vg)
    requires Concerns(w.objects, c, gk) && GoodNames(names) && vg.status.snapshots == Text.Join(names, ',')
    ensures var n, o, left, w2 := HandleSnapContentDelete(w, c), w.objects, Without(names, {c.refName}), Spend(Spend(w));
            var listed := if Passes(w2) then o[gk := GroupObject(vg.(status := vg.status.(snapshots := Text.Join(left, ','))))] else o;
            if !Passes(w) || !Passes(Spend(w)) then !n.issued && n.world.objects == o
            else
              && (n.issued <==> left == [])
              && n.world.objects == if left == [] && !vg.deleting && Passes(Spend(w2)) then listed - {gk} else listed
  {
    hide StrikeMember, Struck, Without, GoodNames, Text.Join;
    StruckMeans(vg, names, c.refName);
    StrikeUnderFaults(Spend(Spend(w)), vg, c.refName);
  }

  // Nothing is done for a content whose snapshot is gone, or belongs to no stored group.
  lemma NoticePassedOver(w: World, c: SnapshotContent)
    requires forall gk | gk in w.objects && gk.kind == GroupKind :: !Concerns(w.objects, c, gk)
    ensures var n := HandleSnapContentDelete(w, c); !n.issued && n.world.objects == w.objects
  {
    hide StrikeMember;
  }
}
