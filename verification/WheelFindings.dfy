/**
  What becomes of the tasks of the last bucket, which the tick loop compares with the tier of the next round: they run
  32 ticks early or never. Also runs in which a task misses its time and in which AddOnce panics.
 */
module WheelFindings {
  import opened WheelRules

  /** The last bucket is jammed when its head's tier is already over. */
  predicate Jammed(w: Wheel) { Shape(w) && w.buckets[LEN - 1] != [] && w.buckets[LEN - 1][0].tier <= w.clock.tier }

  /** A task added to the empty last bucket for the current tier jams it. */
  lemma JamStarts(w: Wheel, task: TaskId, timestamp: int)
    requires Shape(w) && w.buckets[LEN - 1] == [] && SlotFor(w.clock, timestamp) == Slot(w.clock.tier, LEN - 1)
    ensures CanAdd(w, timestamp) && Jammed(AddOnce(w, task, timestamp))
  {
    SlotForIsExact(w.clock, timestamp);
    AddOnceAt(w, task, timestamp);
  }

  lemma JamStays(s: State, a: Action)
    requires Enabled(s, a) && Jammed(s.wheel)
    ensures Jammed(Step(s, a).wheel) && (a.Pass? && s.wheel.clock.index == LEN - 1 ==> Fired(s.wheel) == [])
  {
    hide SlotFor;
    match a
    case Add(task, timestamp) => AddKeepsHeads(s.wheel, task, timestamp);
    case Pass => TickAt(s.wheel);
  }

  /** A bucket in use keeps its head when a task is added. */
  lemma AddKeepsHeads(w: Wheel, task: TaskId, timestamp: int)
    requires Shape(w) && CanAdd(w, timestamp)
    ensures var v := AddOnce(w, task, timestamp);
      && Shape(v) && v.clock == w.clock
      && forall b | 0 <= b < LEN && w.buckets[b] != [] :: v.buckets[b] != [] && v.buckets[b][0].tier == w.buckets[b][0].tier
  {
    hide SlotFor;
    SlotForIsExact(w.clock, timestamp);
    AddOnceAt(w, task, timestamp);
    var slot := SlotFor(w.clock, timestamp);
    InsertKeepsSorted(w.buckets[slot.bucket], slot.tier, task);
  }

  /** While it is in use, a last bucket that is not jammed does not jam. */
  lemma NoJamStarts(s: State, a: Action)
    requires Enabled(s, a) && s.wheel.buckets[LEN - 1] != [] && !Jammed(s.wheel)
    ensures !Jammed(Step(s, a).wheel)
  {
    hide SlotFor;
    match a
    case Add(task, timestamp) => AddKeepsHeads(s.wheel, task, timestamp);
    case Pass =>
      TickAt(s.wheel);
      assert Sorted(s.wheel.buckets[LEN - 1]);
  }

  /** Over every run a jam lasts for good, and after it no task of the last bucket runs any more. */
  lemma {:induction false} JamLasts(r: Run, now: int, j: nat, k: nat)
    requires IsRun(r, now) && j <= k < |r.states| && Jammed(r.states[j].wheel)
    ensures Jammed(r.states[k].wheel)
    ensures forall f | f in r.states[k].fired && f !in r.states[j].fired ::
      f.task in r.states[k].added && BucketOf(now, r.states[k].added[f.task]) != LEN - 1
    decreases k
  {
    hide Init, Inv, Jammed, BucketOf, Enabled;
    if j < k {
      var s, a := r.states[k - 1], r.actions[k - 1];
      JamLasts(r, now, j, k - 1);
      JamStays(s, a);
      RunKeepsInv(r, now, k - 1);
      assert Enabled(s, a);
      NewFiresElsewhere(s, a, now);
    }
  }

  lemma NewFiresElsewhere(s: State, a: Action, now: int)
    requires Inv(s, now) && Enabled(s, a) && Jammed(s.wheel)
    ensures var t := Step(s, a);
      && (forall x | x in s.added :: x in t.added && t.added[x] == s.added[x])
      && forall f | f in t.fired && f !in s.fired :: f.task in t.added && BucketOf(now, t.added[f.task]) != LEN - 1
  {
    hide PendingOk, NoneLost, NoneOverdue, FiredOk, BucketOf, TierOf;
    if a.Pass? {
      JamStays(s, a);
      FiredGrows(s);
      FiredArePending(s, now);
      TickTime(s.wheel.clock);
    }
  }

  /** Once the time 32 ticks before its own is past, a task of the last bucket ran then, or waits behind a jam. */
  lemma EarlyOrJammed(s: State, now: int, x: TaskId)
    requires Inv(s, now) && x in s.added && BucketOf(now, s.added[x]) == LEN - 1 && s.added[x] - LEN < s.wheel.clock.timestamp
    ensures Fire(x, s.added[x] - LEN) in s.fired || (Jammed(s.wheel) && !HasFired(s, x))
  {
    hide PendingOk, NoneOverdue;
    var due := s.added[x];
    var t := TierOf(now, due);
    assert now + LEN * t + LEN - 1 == due;
    if HasFired(s, x) {
      var f :| f in s.fired && f.task == x;
      assert OnTime(f, due, now);
      assert f == Fire(x, due - LEN);
    } else {
      var l := s.wheel.buckets[LEN - 1];
      assert x in At(s.wheel, LEN - 1, t) && Sorted(l) && l != [];
      if l[0].tier > t { TiersAbove(l, t); }
    }
  }

  lemma InSlot(s: State, now: int, x: TaskId)
    requires Inv(s, now) && x in s.added && BucketOf(now, s.added[x]) == LEN - 1 && !HasFired(s, x)
    ensures s.wheel.buckets[LEN - 1] != []
  {
    hide PendingOk, NoneOverdue, FiredOk;
  }

  /** A task added to the last bucket without a jam meets none before it has run. */
  lemma {:induction false} NoJamBeforeItRuns(r: Run, now: int, j: nat, k: nat, x: TaskId)
    requires IsRun(r, now) && j <= k < |r.states| && x in r.states[j].added
    requires BucketOf(now, r.states[j].added[x]) == LEN - 1 && !Jammed(r.states[j].wheel)
    ensures x in r.states[k].added && r.states[k].added[x] == r.states[j].added[x]
    ensures HasFired(r.states[k], x) || !Jammed(r.states[k].wheel)
    decreases k
  {
    hide Init, Inv, Jammed, BucketOf, Enabled, HasFired;
    if j < k {
      var s, a := r.states[k - 1], r.actions[k - 1];
      NoJamBeforeItRuns(r, now, j, k - 1, x);
      RunKeepsInv(r, now, k - 1);
      assert Enabled(s, a);
      RecordsStay(s, a, x);
      if !HasFired(s, x) {
        InSlot(s, now, x);
        NoJamStarts(s, a);
      }
    }
  }

  /**
    The fate of a task of the last bucket: it runs, 32 ticks early, if and only if adding it left the bucket without a
    jam; otherwise it never runs.
   */
  lemma RunsEarlyIffNoJam(r: Run, now: int, j: nat, k: nat, x: TaskId)
    requires IsRun(r, now) && j < k < |r.states| && r.actions[j].Add? && r.actions[j].task == x && x in r.states[j + 1].added
    requires BucketOf(now, r.states[j + 1].added[x]) == LEN - 1
    ensures var s := r.states[k];
      && x in s.added && s.added[x] == r.states[j + 1].added[x]
      && (Jammed(r.states[j + 1].wheel) ==> !HasFired(s, x))
      && (s.added[x] - LEN < s.wheel.clock.timestamp ==> (Fire(x, s.added[x] - LEN) in s.fired <==> !Jammed(r.states[j + 1].wheel)))
  {
    hide Init, Enabled, Step, Inv, BucketOf;
    RunKeepsInv(r, now, k);
    AddedStay(r, now, j + 1, k, x);
    NotYetFired(r, now, j, x);
    if Jammed(r.states[j + 1].wheel) {
      JamLasts(r, now, j + 1, k);
    } else {
      NoJamBeforeItRuns(r, now, j + 1, k, x);
      if r.states[k].added[x] - LEN < r.states[k].wheel.clock.timestamp { EarlyOrJammed(r.states[k], now, x); }
    }
  }

  lemma NotYetFired(r: Run, now: int, j: nat, x: TaskId)
    requires IsRun(r, now) && j < |r.actions| && r.actions[j].Add? && r.actions[j].task == x
    ensures !HasFired(r.states[j + 1], x)
  {
    hide Init, PendingOk, NoneLost, NoneOverdue, CanAdd, Shape;
    RunKeepsInv(r, now, j);
    assert Enabled(r.states[j], r.actions[j]);
  }

  // ---- runs that fail ---------------------------------------------------------------------

  lemma Begin(now: int) returns (s: State)
    ensures Init(s, now) && Shape(s.wheel)
  {
    s := State(Wheel(Clock(now, 0, 0), seq(LEN, _ => [])), map[], []);
  }

  /** The run that adds one task to the empty wheel. */
  lemma AddFirst(now: int, timestamp: int) returns (r: Run)
    requires timestamp >= now
    ensures IsRun(r, now) && r.actions == [Add(0, timestamp)]
    ensures var s := r.states[1]; var b, t := BucketOf(now, timestamp), TierOf(now, timestamp);
      && Shape(s.wheel) && s.wheel.clock == Clock(now, 0, 0) && s.added == map[0 := timestamp] && 0 <= b < LEN
      && s.wheel.buckets[b] == [Tier(t, [0])]
  {
    var s := Begin(now);
    SlotForIsExact(s.wheel.clock, timestamp);
    AddOnceAt(s.wheel, 0, timestamp);
    var a := Add(0, timestamp);
    assert Enabled(s, a);
    r := Run([s, Step(s, a)], [a]);
  }

  lemma {:induction false} PassMany(r0: Run, now: int, n: nat) returns (r: Run)
    requires IsRun(r0, now)
    ensures IsRun(r, now) && r0.states <= r.states && r0.actions <= r.actions && |r.actions| == |r0.actions| + n
    ensures r.states[|r.actions|].wheel.clock.timestamp == r0.states[|r0.actions|].wheel.clock.timestamp + n
  {
    hide Init, Tick;
    if n == 0 {
      r := r0;
    } else {
      var q := PassMany(r0, now, n - 1);
      var s := q.states[|q.actions|];
      RunKeepsInv(q, now, |q.actions|);
      assert Enabled(s, Pass);
      TickTimestamp(s.wheel);
      r := Run(q.states + [Step(s, Pass)], q.actions + [Pass]);
    }
  }

  lemma TickTimestamp(w: Wheel)
    requires Shape(w)
    ensures Tick(w).clock.timestamp == w.clock.timestamp + 1
  {
  }

  /** AddOnce can panic: a task for the next round waits in the bucket of a task that is due at once. */
  lemma AddCanPanic(now: int) returns (r: Run)
    ensures IsRun(r, now) && |r.states| == 2 && Shape(r.states[1].wheel) && !CanAdd(r.states[1].wheel, now)
  {
    r := AddFirst(now, now + LEN);
    assert SlotFor(Clock(now, 0, 0), now) == Slot(0, 0);
  }

  /** A task due at the end of the first round never runs, however long the wheel turns. */
  lemma NeverRuns(now: int, n: nat) returns (r: Run)
    requires n >= LEN
    ensures IsRun(r, now) && |r.states| == n + 2
    ensures var s := r.states[n + 1]; 0 in s.added && s.added[0] == now + LEN - 1 && s.wheel.clock.timestamp == now + n && !HasFired(s, 0)
  {
    var r0 := AddFirst(now, now + LEN - 1);
    r := PassMany(r0, now, n);
    assert r.states[1] == r0.states[1] && r.actions[0] == r0.actions[0];
    assert Jammed(r.states[1].wheel);
    RunsEarlyIffNoJam(r, now, 0, n + 1, 0);
  }

  /** A task due at the end of the second round runs at the end of the first. */
  lemma RunsEarly(now: int, n: nat) returns (r: Run)
    requires n >= LEN
    ensures IsRun(r, now) && |r.states| == n + 2
    ensures var s := r.states[n + 1];
      0 in s.added && s.added[0] == now + 2 * LEN - 1 && Fire(0, now + LEN - 1) in s.fired && Fire(0, now + 2 * LEN - 1) !in s.fired
  {
    var r0 := AddFirst(now, now + 2 * LEN - 1);
    r := PassMany(r0, now, n);
    assert r.states[1] == r0.states[1] && r.actions[0] == r0.actions[0];
    assert !Jammed(r.states[1].wheel);
    RunsEarlyIffNoJam(r, now, 0, n + 1, 0);
    RunKeepsInv(r, now, n + 1);
  }
}
