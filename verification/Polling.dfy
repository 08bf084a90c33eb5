/** Waiting for the snapshots to become ready: a poll every half second until a deadline. */
module Polling {
  import opened Kube
  import opened Api
  import Text

  const SECOND := 1_000_000_000
  const TICK := 500_000_000
  const DEFAULT_TIMEOUT: Int64 := 90
  // The longest timeout in seconds whose nanoseconds fit 64 bits.
  const MAX_TIMEOUT := 9_223_372_036

  /* ---- One poll ---- */

  datatype Ready = Ready(world: World, ready: bool)

  // Checking the names from `i` on; a missing or unreadable snapshot, or one without a status, is passed over.
  function ReadyFrom(w: World, ns: string, names: seq<string>, i: nat): Ready
    requires i <= |names|
    decreases |names| - i
  {
    if i == |names| then Ready(w, true)
    else
      var g := Get(w, SnapshotKey(ns, names[i]));
      if g.result.Ok? && g.result.value.snapshot.name != "" && g.result.value.snapshot.status.Some? then
        match g.result.value.snapshot.status.value.ready
        case None => Ready(Halt(g.world), false)
        case Some(ready) => if ready then ReadyFrom(g.world, ns, names, i + 1) else Ready(g.world, false)
      else ReadyFrom(g.world, ns, names, i + 1)
  }

  function CheckReadyToUse(w: World, ns: string, snapshots: string): Ready {
    ReadyFrom(w, ns, Text.Split(snapshots, ','), 0)
  }

  /* ---- The wait ---- */

  function Wrap64(x: int): Int64 {
    (x + 0x8000_0000_0000_0000) % 0x1_0000_0000_0000_0000 - 0x8000_0000_0000_0000
  }

  function Seconds(timeout: Int64): Int64 { if timeout == 0 then DEFAULT_TIMEOUT else timeout }

  function Deadline(timeout: Int64): Int64 { Wrap64(Seconds(timeout) * SECOND) }

  // `tie` is Go's choice when a tick and the deadline are both ready.
  predicate PollDue(deadline: int, tie: bool, k: nat) {
    (k + 1) * TICK < deadline || ((k + 1) * TICK == deadline && tie)
  }

  datatype Polled = Polled(world: World, ready: bool, polls: nat)

  // The wait after `k` polls.  Polls take no time; the other writers act between them.
  // A crashed process waits no more.
  function PollFrom(w: World, ns: string, snapshots: string, deadline: int, tie: bool, k: nat): Polled
    decreases deadline - k * TICK
  {
    if w.halted || !PollDue(deadline, tie, k) then Polled(w, false, k)
    else
      var r := CheckReadyToUse(Tick(w), ns, snapshots);
      if r.ready then Polled(r.world, true, k + 1)
      else PollFrom(r.world, ns, snapshots, deadline, tie, k + 1)
  }

  function CheckSnapshotStatus(w: World, ns: string, snapshots: string, timeout: Int64, tie: bool): Polled {
    PollFrom(w, ns, snapshots, Deadline(timeout), tie, 0)
  }

  /* ---- What one poll decides ---- */

  ghost predicate Unready(o: Objects, k: Key) {
    k in o && o[k].SnapshotObject? && o[k].snapshot.name != "" && o[k].snapshot.status.Some?
    && o[k].snapshot.status.value.ready != Some(true)
  }

  // The call `i` places ahead goes through.
  ghost predicate CallPasses(w: World, i: nat) {
    !w.halted && (forall j | 0 <= j < i && j < |w.script| :: !w.script[j].Stop?)
    && (i < |w.script| ==> w.script[i].Proceed?)
  }

  // Reading from name `i` on, the name `j` is read and found not ready.
  ghost predicate Blocks(w: World, ns: string, names: seq<string>, i: nat, j: nat)
    requires i <= j < |names|
  {
    CallPasses(w, j - i) && Unready(w.objects, SnapshotKey(ns, names[j]))
  }

  lemma BlocksSteps(w: World, ns: string, names: seq<string>, i: nat, j: nat)
    requires i <= j < |names|
    ensures i < j ==> (Blocks(w, ns, names, i, j) <==> Blocks(Spend(w), ns, names, i + 1, j))
    ensures i == j ==> (Blocks(w, ns, names, i, j) <==> Passes(w) && Unready(w.objects, SnapshotKey(ns, names[i])))
  {
    var n := j - i;
    if n > 0 && CallPasses(Spend(w), n - 1) {
      forall m | 0 <= m < n && m < |w.script| ensures !w.script[m].Stop? {
        if m > 0 { assert w.script[m] == Spend(w).script[m - 1]; }
      }
    }
  }

  ghost predicate Unblocked(w: World, ns: string, names: seq<string>, i: nat) {
    forall j: nat | i <= j < |names| :: !Blocks(w, ns, names, i, j)
  }

  lemma UnblockedSteps(w: World, ns: string, names: seq<string>, i: nat)
    requires i < |names|
    ensures Unblocked(w, ns, names, i) <==>
            !(Passes(w) && Unready(w.objects, SnapshotKey(ns, names[i]))) && Unblocked(Spend(w), ns, names, i + 1)
  {
    hide Blocks;
    BlocksSteps(w, ns, names, i, i);
    if Unblocked(w, ns, names, i) {
      var next := i + 1;
      forall j: nat | next <= j < |names| ensures !Blocks(Spend(w), ns, names, next, j) {
        BlocksSteps(w, ns, names, i, j);
      }
    } else {
      var j: nat :| i <= j < |names| && Blocks(w, ns, names, i, j);
      BlocksSteps(w, ns, names, i, j);
    }
  }

  // A poll says ready exactly when no listed snapshot it could read has a status that is not ready.
  lemma {:induction false} ReadyExact(w: World, ns: string, names: seq<string>, i: nat)
    requires i <= |names|
    ensures ReadyFrom(w, ns, names, i).ready <==> Unblocked(w, ns, names, i)
    ensures ReadyFrom(w, ns, names, i).world.objects == w.objects
    decreases |names| - i
  {
    if i < |names| {
      hide Unblocked;
      var k := SnapshotKey(ns, names[i]);
      assert k in w.objects ==> KeyOf(w.objects[k]) == k;
      UnblockedSteps(w, ns, names, i);
      if !(Passes(w) && Unready(w.objects, k)) {
        ReadyExact(Spend(w), ns, names, i + 1);
      }
    }
  }

  // Of the names from `i` on, the name `j` is the first that stops the poll.
  ghost predicate StopsFirst(w: World, ns: string, names: seq<string>, i: nat, j: nat)
    requires i <= j < |names|
  {
    Blocks(w, ns, names, i, j) && forall m: nat | i <= m < j :: !Blocks(w, ns, names, i, m)
  }

  lemma StopsFirstSteps(w: World, ns: string, names: seq<string>, i: nat, j: nat)
    requires i <= j < |names|
    ensures var stops := Passes(w) && Unready(w.objects, SnapshotKey(ns, names[i]));
            StopsFirst(w, ns, names, i, j) <==> if i == j then stops else !stops && StopsFirst(Spend(w), ns, names, i + 1, j)
  {
    hide Blocks;
    var next := i + 1;
    BlocksSteps(w, ns, names, i, i);
    forall m: nat | next <= m <= j ensures Blocks(w, ns, names, i, m) <==> Blocks(Spend(w), ns, names, next, m) {
      BlocksSteps(w, ns, names, i, m);
    }
  }

  ghost predicate LacksFlag(o: Objects, k: Key) {
    k in o && o[k].SnapshotObject? && o[k].snapshot.status.Some? && o[k].snapshot.status.value.ready.None?
  }

  // That name's status lacks its readiness flag.
  ghost predicate MeetsNoFlag(w: World, ns: string, names: seq<string>, i: nat) {
    exists j: nat | i <= j < |names| :: StopsFirst(w, ns, names, i, j) && LacksFlag(w.objects, SnapshotKey(ns, names[j]))
  }

  lemma MeetsNoFlagSteps(w: World, ns: string, names: seq<string>, i: nat)
    requires i < |names|
    ensures var k := SnapshotKey(ns, names[i]);
            MeetsNoFlag(w, ns, names, i) <==>
            if Passes(w) && Unready(w.objects, k) then LacksFlag(w.objects, k) else MeetsNoFlag(Spend(w), ns, names, i + 1)
  {
    hide StopsFirst, LacksFlag, Unready;
    var next := i + 1;
    StopsFirstSteps(w, ns, names, i, i);
    forall j: nat | next <= j < |names|
      ensures StopsFirst(w, ns, names, i, j) <==>
              !(Passes(w) && Unready(w.objects, SnapshotKey(ns, names[i]))) && StopsFirst(Spend(w), ns, names, next, j)
    {
      StopsFirstSteps(w, ns, names, i, j);
    }
  }

  // A poll of a process that is not stopped crashes exactly on such a status.
  lemma {:induction false} PollCrashesIff(w: World, ns: string, names: seq<string>, i: nat)
    requires i <= |names| && !w.halted && forall j | 0 <= j < |w.script| :: !w.script[j].Stop?
    ensures ReadyFrom(w, ns, names, i).world.halted <==> MeetsNoFlag(w, ns, names, i)
    decreases |names| - i
  {
    if i < |names| {
      hide MeetsNoFlag;
      var k := SnapshotKey(ns, names[i]);
      assert k in w.objects ==> KeyOf(w.objects[k]) == k;
      MeetsNoFlagSteps(w, ns, names, i);
      if !(Passes(w) && Unready(w.objects, k)) { PollCrashesIff(Spend(w), ns, names, i + 1); }
    } else {
      NoNamesLeft(w, ns, names);
    }
  }

  lemma NoNamesLeft(w: World, ns: string, names: seq<string>)
    ensures !MeetsNoFlag(w, ns, names, |names|)
  {
  }

  /* ---- What the wait decides ---- */

  ghost predicate AllReady(o: Objects, ns: string, snapshots: string) {
    var names := Text.Split(snapshots, ',');
    forall j | 0 <= j < |names| :: !Unready(o, SnapshotKey(ns, names[j]))
  }

  // The status has its readiness flag, if there is a status.
  ghost predicate Flagged(o: Objects, k: Key) {
    k.name != "" && k in o && o[k].SnapshotObject? && o[k].snapshot.status.Some? ==> o[k].snapshot.status.value.ready.Some?
  }

  // No listed snapshot's status lacks it.
  ghost predicate Populated(o: Objects, ns: string, names: seq<string>) {
    forall j | 0 <= j < |names| :: Flagged(o, SnapshotKey(ns, names[j]))
  }

  ghost function MaxPolls(deadline: int, tie: bool): nat {
    if deadline <= 0 then 0 else (deadline - (if tie then 0 else 1)) / 500_000_000
  }

  // The world the poll `k` looks at, polls being numbered from 1, and its store.
  ghost function WorldAt(w: World, k: nat): World
    decreases k
  {
    if k == 0 then w else WorldAt(Tick(w), k - 1)
  }

  ghost function StoreAt(w: World, k: nat): Objects { WorldAt(w, k).objects }

  lemma DueExact(deadline: int, tie: bool, k: nat)
    ensures PollDue(deadline, tie, k) <==> k < MaxPolls(deadline, tie)
  {
  }

  lemma {:induction false} SteadyPoll(w: World, ns: string, names: seq<string>, i: nat)
    requires i <= |names| && Steady(w) && Populated(w.objects, ns, names)
    ensures ReadyFrom(w, ns, names, i).world == w
    decreases |names| - i
  {
    if i < |names| {
      var k := SnapshotKey(ns, names[i]);
      assert Flagged(w.objects, k);
      assert k in w.objects ==> KeyOf(w.objects[k]) == k;
      SteadyPoll(w, ns, names, i + 1);
    }
  }

  lemma PollDecides(w: World, ns: string, snapshots: string)
    requires Steady(w) && Populated(w.objects, ns, Text.Split(snapshots, ','))
    ensures CheckReadyToUse(w, ns, snapshots) == Ready(w, AllReady(w.objects, ns, snapshots))
  {
    var names := Text.Split(snapshots, ',');
    SteadyPoll(w, ns, names, 0);
    ReadyExact(w, ns, names, 0);
    assert forall j: nat | j < |names| :: Blocks(w, ns, names, 0, j) <==> Unready(w.objects, SnapshotKey(ns, names[j]));
  }

  // What a wait from poll `k` on with result `r` has seen: `last` more polls, of which only
  // the last one can have found everything ready.
  ghost predicate WaitedRight(w: World, ns: string, snapshots: string, max: nat, k: nat, r: Polled) {
    && k <= r.polls <= max
    && var last := r.polls - k;
    && r.world == WorldAt(w, last)
    && (forall j: nat | 1 <= j < last :: !AllReady(StoreAt(w, j), ns, snapshots))
    && (if r.ready then last > 0 && AllReady(StoreAt(w, last), ns, snapshots)
        else r.polls == max && (last > 0 ==> !AllReady(StoreAt(w, last), ns, snapshots)))
  }

  lemma OneMorePoll(w: World, ns: string, snapshots: string, max: nat, k: nat, r: Polled)
    requires WaitedRight(Tick(w), ns, snapshots, max, k + 1, r) && !AllReady(Tick(w).objects, ns, snapshots)
    ensures WaitedRight(w, ns, snapshots, max, k, r)
  {
    hide AllReady;
    var last := r.polls - k;
    forall j: nat | 1 <= j <= last ensures WorldAt(w, j) == WorldAt(Tick(w), j - 1) && StoreAt(w, j) == StoreAt(Tick(w), j - 1) {}
    assert StoreAt(Tick(w), 0) == Tick(w).objects;
  }

  // The wait ends at the first poll that finds everything ready, and gives up exactly
  // when none of the polls due before the deadline does.
  lemma {:induction false} WaitExact(w: World, ns: string, snapshots: string, deadline: int, tie: bool, k: nat)
    requires Steady(w) && k <= MaxPolls(deadline, tie)
    requires forall j: nat | 1 <= j <= MaxPolls(deadline, tie) - k :: Populated(StoreAt(w, j), ns, Text.Split(snapshots, ','))
    ensures WaitedRight(w, ns, snapshots, MaxPolls(deadline, tie), k, PollFrom(w, ns, snapshots, deadline, tie, k))
    decreases MaxPolls(deadline, tie) - k
  {
    hide AllReady, CheckReadyToUse, PollDue, MaxPolls, Populated;
    DueExact(deadline, tie, k);
    if k < MaxPolls(deadline, tie) {
      var t := Tick(w);
      assert WorldAt(w, 1) == t by { assert WorldAt(t, 0) == t; }
      assert Populated(StoreAt(w, 1), ns, Text.Split(snapshots, ','));
      PollDecides(t, ns, snapshots);
      if !AllReady(t.objects, ns, snapshots) {
        hide WaitedRight;
        forall j: nat | 1 <= j <= MaxPolls(deadline, tie) - (k + 1) ensures Populated(StoreAt(t, j), ns, Text.Split(snapshots, ',')) {
          assert StoreAt(w, j + 1) == StoreAt(t, j);
        }
        WaitExact(t, ns, snapshots, deadline, tie, k + 1);
        OneMorePoll(w, ns, snapshots, MaxPolls(deadline, tie), k, PollFrom(t, ns, snapshots, deadline, tie, k + 1));
      }
    }
  }

  // The other writers give every listed status its readiness flag.
  ghost predicate WritesFlag(env: seq<StatusWrites>, ns: string, names: seq<string>) {
    forall t, j | 0 <= t < |env| && 0 <= j < |names| && names[j] != "" && SnapshotKey(ns, names[j]) in env[t] ::
      env[t][SnapshotKey(ns, names[j])].ready.Some?
  }

  // The empty name at the end of an untrimmed list makes no difference.
  lemma ExtraNameIsFlagged(o: Objects, env: seq<StatusWrites>, ns: string, names: seq<string>)
    ensures Populated(o, ns, names) ==> Populated(o, ns, names + [""])
    ensures WritesFlag(env, ns, names) ==> WritesFlag(env, ns, names + [""])
  {
    var all := names + [""];
    assert forall j | 0 <= j < |all| && all[j] != "" :: j < |names| && all[j] == names[j];
  }

  lemma {:induction false} StaysPopulated(w: World, ns: string, names: seq<string>, k: nat)
    requires Populated(w.objects, ns, names) && WritesFlag(w.env, ns, names)
    ensures Populated(StoreAt(w, k), ns, names)
    decreases k
  {
    if k > 0 {
      forall j | 0 <= j < |names| ensures Flagged(Tick(w).objects, SnapshotKey(ns, names[j])) {
        assert Flagged(w.objects, SnapshotKey(ns, names[j]));
      }
      StaysPopulated(Tick(w), ns, names, k - 1);
    }
  }

  lemma {:induction false} TicksChangeStatuses(w: World, k: nat)
    ensures WorldAt(w, k) == w.(objects := StoreAt(w, k), env := WorldAt(w, k).env)
    decreases k
  {
    if k > 0 { TicksChangeStatuses(Tick(w), k - 1); }
  }

  // Under any failing calls the wait still ends in time.
  lemma {:induction false} WaitBounded(w: World, ns: string, snapshots: string, deadline: int, tie: bool, k: nat)
    requires k <= MaxPolls(deadline, tie)
    ensures k <= PollFrom(w, ns, snapshots, deadline, tie, k).polls <= MaxPolls(deadline, tie)
    decreases MaxPolls(deadline, tie) - k
  {
    DueExact(deadline, tie, k);
    if k < MaxPolls(deadline, tie) {
      hide CheckReadyToUse, PollDue, MaxPolls;
      WaitBounded(CheckReadyToUse(Tick(w), ns, snapshots).world, ns, snapshots, deadline, tie, k + 1);
    }
  }

  /* ---- The deadline ---- */

  // At most two polls for each second of the timeout, whatever fails meanwhile; 180 if none is given.
  lemma PollsBounded(w: World, ns: string, snapshots: string, timeout: Int64, tie: bool)
    requires 0 <= timeout <= MAX_TIMEOUT
    ensures CheckSnapshotStatus(w, ns, snapshots, timeout, tie).polls <= (if timeout == 0 then 180 else 2 * timeout)
  {
    hide PollFrom, MaxPolls, Deadline;
    WaitBounded(w, ns, snapshots, Deadline(timeout), tie, 0);
    PollsOfTimeout(timeout, tie);
  }

  // The nanoseconds are what they should be exactly for timeouts of at most MAX_TIMEOUT either way.
  lemma DeadlineFits(timeout: Int64)
    ensures Deadline(timeout) == (if timeout == 0 then 90_000_000_000 else timeout * 1_000_000_000)
            <==> -9_223_372_036 <= timeout <= 9_223_372_036
  {
  }

  // One poll every half second: twice the timeout, or 180 when none is given; the
  // last one is a matter of luck.
  lemma PollsOfTimeout(timeout: Int64, tie: bool)
    requires 0 <= timeout <= MAX_TIMEOUT
    ensures MaxPolls(Deadline(timeout), tie) == (if timeout == 0 then 180 else 2 * timeout) - (if tie then 0 else 1)
    ensures MaxPolls(Deadline(timeout), tie) >= 1
  {
  }

  // Exactly the timeouts up to that limit are waited for with two polls a second.
  lemma PollsExact(timeout: Int64, tie: bool)
    ensures MaxPolls(Deadline(timeout), tie) == (if timeout == 0 then 180 else 2 * timeout) - (if tie then 0 else 1)
            <==> 0 <= timeout <= 9_223_372_036
  {
  }

  // Beyond that the deadline wraps around: one second more and there is no poll at all, while
  // longer and even negative timeouts can leave billions.
  lemma OverflowingTimeouts(tie: bool)
    ensures MaxPolls(Deadline(MAX_TIMEOUT + 1), tie) == 0
    ensures MaxPolls(Deadline(20_000_000_000), tie) > 3_000_000_000
    ensures MaxPolls(Deadline(-MAX_TIMEOUT - 1), tie) > 3_000_000_000
  {
  }

  // A wait makes no poll exactly if the wrapped deadline lies before the first tick, or at it and wins.
  lemma NoPollIff(w: World, ns: string, snapshots: string, timeout: Int64, tie: bool)
    requires !w.halted
    ensures CheckSnapshotStatus(w, ns, snapshots, timeout, tie).polls == 0
            <==> Deadline(timeout) < TICK || (Deadline(timeout) == TICK && !tie)
  {
    hide Deadline, CheckReadyToUse, MaxPolls;
    var deadline := Deadline(timeout);
    DueExact(deadline, tie, 0);
    if PollDue(deadline, tie, 0) {
      WaitBounded(CheckReadyToUse(Tick(w), ns, snapshots).world, ns, snapshots, deadline, tie, 1);
    }
  }

  /* ---- The list as it is polled ---- */

  lemma {:induction false} ExtraEmptyName(w: World, ns: string, names: seq<string>, i: nat)
    requires i <= |names|
    ensures ReadyFrom(w, ns, names + [""], i).ready == ReadyFrom(w, ns, names, i).ready
    decreases |names| - i
  {
    var all := names + [""];
    if i == |names| {
      var k := SnapshotKey(ns, "");
      assert all[i] == "" && (k in w.objects ==> KeyOf(w.objects[k]) == k);
    } else {
      assert all[i] == names[i];
      ExtraEmptyName(Spend(w), ns, names, i + 1);
    }
  }

  // The list is polled with its trailing comma; the trimmed list gives the same verdict.
  lemma TrailingCommaIsHarmless(w: World, ns: string, names: seq<string>)
    requires |names| >= 1 && Text.AllFree(names, ',') && names[|names| - 1] != ""
    ensures CheckReadyToUse(w, ns, Text.Terminated(names, ',')).ready
         == CheckReadyToUse(w, ns, Text.TrimRight(Text.Terminated(names, ','), ',')).ready
  {
    hide ReadyFrom, Text.TrimRight, Text.Terminated, Text.Split;
    Text.MemberListRoundTrip(names, ',');
    ExtraEmptyName(w, ns, names, 0);
  }
}
