/** Creating a group and deleting it again, undisturbed: what is left of it. */
module RoundTrip {
  import opened Kube
  import opened Api
  import opened Members
  import opened Isolation
  import opened PassRuns
  import Polling
  import Text

  /* ---- The pairs of a group ---- */

  function ContentOf(job: Job, i: nat): SnapshotContent
    requires i < |job.snapshots|
  {
    MakeVolSnapContent(ContentName(job.draws(i)), job.vg.ns, job.Name(i), job.snapshots[i], job.class_)
  }

  function SnapshotOf(job: Job, i: nat): VolumeSnapshot
    requires i < |job.snapshots|
  {
    MakeVolSnap(job.vg, job.Name(i), ContentName(job.draws(i)))
  }

  function ContentKeyOf(job: Job, i: nat): Key
    requires i < |job.snapshots|
  {
    ContentKey(ContentName(job.draws(i)))
  }

  function AddPair(o: Objects, job: Job, i: nat): Objects
    requires i < |job.snapshots|
  {
    o[ContentKeyOf(job, i) := ContentObject(ContentOf(job, i))][job.SnapKey(i) := SnapshotObject(SnapshotOf(job, i))]
  }

  // The store with the pairs of the members `i` up to `j` added.
  function Pairs(o: Objects, job: Job, i: nat, j: nat): Objects
    requires i <= j <= |job.snapshots|
    decreases j - i
  {
    if i == j then o else AddPair(Pairs(o, job, i + 1, j), job, i)
  }

  // Different names and UUIDs for all members.
  ghost predicate DistinctPairs(job: Job) {
    && DistinctNames(job)
    && forall i: nat, j: nat | i < j < |job.snapshots| :: ContentKeyOf(job, i) != ContentKeyOf(job, j)
  }

  ghost predicate NoneThere(o: Objects, job: Job, i: nat) {
    forall j: nat | i <= j < |job.snapshots| :: job.SnapKey(j) !in o && ContentKeyOf(job, j) !in o
  }

  lemma AddPairsCommute(o: Objects, job: Job, i: nat, j: nat)
    requires DistinctPairs(job) && i < j < |job.snapshots|
    ensures AddPair(AddPair(o, job, i), job, j) == AddPair(AddPair(o, job, j), job, i)
  {
    assert job.Name(i) != job.Name(j);
  }

  lemma {:induction false} PairsSnoc(o: Objects, job: Job, i: nat, j: nat)
    requires DistinctPairs(job) && i <= j < |job.snapshots|
    ensures Pairs(o, job, i, j + 1) == AddPair(Pairs(o, job, i, j), job, j)
    decreases j - i
  {
    hide AddPair, DistinctPairs;
    if i < j {
      PairsSnoc(o, job, i + 1, j);
      AddPairsCommute(Pairs(o, job, i + 1, j), job, i, j);
    } else {
      assert Pairs(o, job, j + 1, j + 1) == o;
    }
  }

  // Groups and pairs do not get in each other's way.
  lemma AddBesideGroup(o: Objects, job: Job, i: nat, x: VolumeGroup)
    requires i < |job.snapshots|
    ensures AddPair(o[GroupKey(x.ns, x.name) := GroupObject(x)], job, i) == AddPair(o, job, i)[GroupKey(x.ns, x.name) := GroupObject(x)]
  {
  }

  lemma {:induction false} PairsBesideGroup(o: Objects, job: Job, i: nat, j: nat, x: VolumeGroup)
    requires i <= j <= |job.snapshots|
    ensures Pairs(o[GroupKey(x.ns, x.name) := GroupObject(x)], job, i, j) == Pairs(o, job, i, j)[GroupKey(x.ns, x.name) := GroupObject(x)]
    decreases j - i
  {
    hide AddPair;
    if i < j {
      PairsBesideGroup(o, job, i + 1, j, x);
      AddBesideGroup(Pairs(o, job, i + 1, j), job, i, x);
    }
  }

  lemma {:induction false} PairsKeys(o: Objects, job: Job, i: nat, j: nat, k: Key)
    requires i <= j <= |job.snapshots|
    ensures k in Pairs(o, job, i, j) <==> k in o || exists m: nat | i <= m < j :: k == ContentKeyOf(job, m) || k == job.SnapKey(m)
    ensures k in o && NoneThere(o, job, 0) ==> Pairs(o, job, i, j)[k] == o[k]
    decreases j - i
  {
    if i < j { PairsKeys(o, job, i + 1, j, k); }
  }

  lemma StillAbsent(o: Objects, job: Job, i: nat, j: nat, m: nat)
    requires DistinctPairs(job) && NoneThere(o, job, 0) && i <= j <= |job.snapshots| && m < |job.snapshots| && !(i <= m < j)
    ensures job.SnapKey(m) !in Pairs(o, job, i, j) && ContentKeyOf(job, m) !in Pairs(o, job, i, j)
  {
    PairsKeys(o, job, i, j, job.SnapKey(m));
    PairsKeys(o, job, i, j, ContentKeyOf(job, m));
    forall x: nat | i <= x < j ensures job.SnapKey(m) != job.SnapKey(x) && ContentKeyOf(job, m) != ContentKeyOf(job, x) {
      assert job.Name(m) != job.Name(x);
    }
  }

  /* ---- Creating them ---- */

  lemma {:induction false} SnapsAreTerminated(w: World, job: Job, n: nat)
    requires n <= |job.snapshots|
    ensures Handled(w, job, n).snaps == Text.Terminated(job.Names(n), ',')
  {
    hide CreateVolumeSnapshot, UpdateVolumeSnapshotContentStatus, Handled;
    HandledUnfolds(w, job, n);
    if n > 0 {
      SnapsAreTerminated(w, job, n - 1);
      assert job.Names(n)[..n - 1] == job.Names(n - 1);
    }
  }

  lemma {:induction false} PairsCreated(w: World, job: Job, n: nat)
    requires n <= |job.snapshots| && Steady(w) && DistinctPairs(job) && NoneThere(w.objects, job, 0)
    ensures Handled(w, job, n).errors == [] && Handled(w, job, n).world == w.(objects := Pairs(w.objects, job, 0, n))
  {
    hide MemberStep, Handled, DistinctPairs, NoneThere;
    HandledUnfolds(w, job, n);
    if n > 0 {
      var p := Handled(w, job, n - 1);
      PairsCreated(w, job, n - 1);
      StillAbsent(w.objects, job, 0, n - 1, n - 1);
      QuietCreate(p, job, n - 1);
      PairsSnoc(w.objects, job, 0, n - 1);
    }
  }

  /* ---- Waiting for them ---- */

  ghost predicate NoneUnready(o: Objects, ns: string, names: seq<string>) {
    forall j | 0 <= j < |names| :: !Polling.Unready(o, SnapshotKey(ns, names[j]))
  }

  lemma {:induction false} NothingUnready(w: World, ns: string, names: seq<string>, i: nat)
    requires i <= |names| && Steady(w) && NoneUnready(w.objects, ns, names)
    ensures Polling.ReadyFrom(w, ns, names, i) == Polling.Ready(w, true)
    decreases |names| - i
  {
    if i < |names| {
      assert !Polling.Unready(w.objects, SnapshotKey(ns, names[i]));
      assert SnapshotKey(ns, names[i]) in w.objects ==> KeyOf(w.objects[SnapshotKey(ns, names[i])]) == SnapshotKey(ns, names[i]);
      NothingUnready(w, ns, names, i + 1);
    }
  }

  lemma ReadyAtOnce(w: World, ns: string, snapshots: string, timeout: Int64, tie: bool)
    requires Quiet(w) && NoneUnready(w.objects, ns, Text.Split(snapshots, ','))
    ensures var due := Polling.PollDue(Polling.Deadline(timeout), tie, 0);
            && Polling.CheckSnapshotStatus(w, ns, snapshots, timeout, tie).world == w
            && Polling.CheckSnapshotStatus(w, ns, snapshots, timeout, tie).ready == due
  {
    hide Polling.Deadline;
    NothingUnready(w, ns, Text.Split(snapshots, ','), 0);
    assert Tick(w) == w;
  }

  ghost predicate CommaFree(job: Job) { Text.AllFree(job.Names(|job.snapshots|), ',') }

  lemma NamesNotEmpty(job: Job, i: nat)
    requires i < |job.snapshots|
    ensures job.Name(i) != ""
  {
  }

  // What is stored for the members splits back to their names.
  lemma StoredNames(job: Job)
    requires CommaFree(job)
    ensures var n := |job.snapshots|;
            var names := job.Names(n);
            && Text.Split(Text.Terminated(names, ','), ',') == names + [""]
            && Text.Split(Text.TrimRight(Text.Terminated(names, ','), ','), ',') == if n == 0 then [""] else names
  {
    var n := |job.snapshots|;
    var names := job.Names(n);
    if n == 0 {
      assert names == [];
      assert Text.Terminated(names, ',') == "" && Text.TrimRight("", ',') == "" && Text.Split("", ',') == [""];
    } else {
      NamesNotEmpty(job, n - 1);
      Text.MemberListRoundTrip(names, ',');
    }
  }

  lemma PairsAreNotUnready(o: Objects, job: Job)
    requires DistinctPairs(job) && NoneThere(o, job, 0) && CommaFree(job)
    ensures NoneUnready(Pairs(o, job, 0, |job.snapshots|), job.vg.ns,
                        Text.Split(Text.Terminated(job.Names(|job.snapshots|), ','), ','))
  {
    var n := |job.snapshots|;
    StoredNames(job);
    var names, o' := job.Names(n) + [""], Pairs(o, job, 0, n);
    forall j | 0 <= j < |names| ensures !Polling.Unready(o', SnapshotKey(job.vg.ns, names[j])) {
      var k := SnapshotKey(job.vg.ns, names[j]);
      assert k in o' ==> KeyOf(o'[k]) == k;
      if j < n { PairAt(o, job, 0, j); }
    }
  }

  ghost predicate HasPair(o: Objects, job: Job, m: nat)
    requires m < |job.snapshots|
  {
    && job.SnapKey(m) in o && o[job.SnapKey(m)] == SnapshotObject(SnapshotOf(job, m))
    && ContentKeyOf(job, m) in o && o[ContentKeyOf(job, m)] == ContentObject(ContentOf(job, m))
  }

  lemma AddedPair(o: Objects, job: Job, i: nat, m: nat)
    requires DistinctPairs(job) && i <= m < |job.snapshots| && (i < m ==> HasPair(o, job, m))
    ensures HasPair(AddPair(o, job, i), job, m)
  {
    assert i < m ==> job.Name(i) != job.Name(m);
  }

  lemma {:induction false} PairAt(o: Objects, job: Job, i: nat, m: nat)
    requires DistinctPairs(job) && i <= m < |job.snapshots|
    ensures HasPair(Pairs(o, job, i, |job.snapshots|), job, m)
    decreases m - i
  {
    hide AddPair, HasPair, DistinctPairs;
    if i < m { PairAt(o, job, i + 1, m); }
    AddedPair(Pairs(o, job, i + 1, |job.snapshots|), job, i, m);
  }
}
