/**
  The timing wheel (timing_wheel/timing_wheel.go) on values: 32 buckets, each a list of tiers; a task due at
  time d sits in the bucket and tier its distance from the start of the wheel says.
 */
module WheelRules {
  type TaskId = nat

  const LEN: int := 32

  /** A tierTask node without its links. */
  datatype Tier = Tier(tier: int, tasks: seq<TaskId>)

  datatype Clock = Clock(timestamp: int, tier: int, index: int)

  datatype Wheel = Wheel(clock: Clock, buckets: seq<seq<Tier>>)

  // ---- the clock --------------------------------------------------------------------------

  function Incr(c: Clock): Clock {
    if c.index + 1 == LEN then Clock(c.timestamp + 1, c.tier + 1, 0) else Clock(c.timestamp + 1, c.tier, c.index + 1)
  }

  /** The time at which the wheel stood at tier 0, index 0. */
  function Start(c: Clock): int { c.timestamp - (LEN * c.tier + c.index) }

  function BucketOf(start: int, due: int): int { (due - start) % LEN }

  function TierOf(start: int, due: int): int { (due - start) / LEN }

  /** Every tick keeps `timestamp - (32 * tier + index)`. */
  lemma IncrKeepsStart(c: Clock)
    requires 0 <= c.index < LEN
    ensures Start(Incr(c)) == Start(c) && 0 <= Incr(c).index < LEN
  {
  }

  // ---- where AddOnce puts a task ----------------------------------------------------------

  datatype Slot = Slot(tier: int, bucket: int)

  function Due(c: Clock, timestamp: int): int { if timestamp <= c.timestamp then c.timestamp else timestamp }

  function SlotFor(c: Clock, timestamp: int): Slot {
    var remain := Due(c, timestamp) - c.timestamp;
    var tier, bucket := c.tier + remain / LEN, c.index + remain % LEN;
    if bucket >= LEN then Slot(tier + 1, bucket % LEN) else Slot(tier, bucket)
  }

  /** The slot is the one whose time is the task's, or now if that is past; no other slot has that time. */
  lemma SlotForIsExact(c: Clock, timestamp: int)
    requires 0 <= c.index < LEN
    ensures Due(c, timestamp) == if timestamp <= c.timestamp then c.timestamp else timestamp
    ensures var s := SlotFor(c, timestamp); var d := Due(c, timestamp);
      && 0 <= s.bucket < LEN && Start(c) + LEN * s.tier + s.bucket == d
      && s.bucket == BucketOf(Start(c), d) && s.tier == TierOf(Start(c), d)
  {
    SlotIsUnique(Start(c), Due(c, timestamp), SlotFor(c, timestamp));
  }

  lemma SlotIsUnique(start: int, due: int, s: Slot)
    requires 0 <= s.bucket < LEN && start + LEN * s.tier + s.bucket == due
    ensures s.bucket == BucketOf(start, due) && s.tier == TierOf(start, due)
  {
  }

  // ---- one bucket -------------------------------------------------------------------------

  /** Strictly increasing tiers, none of them empty. */
  predicate Sorted(l: seq<Tier>) {
    l == [] || (l[0].tasks != [] && (|l| > 1 ==> l[0].tier < l[1].tier) && Sorted(l[1..]))
  }

  /** The tasks a bucket holds for a tier, in the order they were added. */
  function TasksAt(l: seq<Tier>, t: int): seq<TaskId> {
    if l == [] then [] else if l[0].tier == t then l[0].tasks else TasksAt(l[1..], t)
  }

  /** The insert loop; a new tier in front of the head would follow the head's nil `prev` (line 76). */
  predicate Admissible(l: seq<Tier>, t: int) { l == [] || t >= l[0].tier }

  function Insert(l: seq<Tier>, t: int, task: TaskId): seq<Tier>
    requires Admissible(l, t)
  {
    if l == [] then [Tier(t, [task])]
    else if l[0].tier == t then [Tier(t, l[0].tasks + [task])] + l[1..]
    else if |l| == 1 || t < l[1].tier then [l[0], Tier(t, [task])] + l[1..]
    else [l[0]] + Insert(l[1..], t, task)
  }

  lemma {:induction false} InsertKeepsSorted(l: seq<Tier>, t: int, task: TaskId)
    requires Sorted(l) && Admissible(l, t)
    ensures Sorted(Insert(l, t, task)) && Insert(l, t, task) != []
    ensures Insert(l, t, task)[0].tier == if l == [] then t else l[0].tier
  {
    if l != [] && l[0].tier != t {
      var r := Insert(l, t, task);
      if |l| == 1 || t < l[1].tier {
        assert r[1..] == [Tier(t, [task])] + l[1..] && r[1..][1..] == l[1..];
      } else {
        InsertKeepsSorted(l[1..], t, task);
        assert r[1..] == Insert(l[1..], t, task);
      }
    } else if l != [] {
      assert Insert(l, t, task)[1..] == l[1..];
    }
  }

  lemma {:induction false} TiersAbove(l: seq<Tier>, t: int)
    requires Sorted(l) && l != [] && t < l[0].tier
    ensures TasksAt(l, t) == []
  {
    if |l| > 1 { TiersAbove(l[1..], t); }
  }

  /** Inserting appends the task to its tier and changes no other. */
  lemma {:induction false} InsertAt(l: seq<Tier>, t: int, task: TaskId, u: int)
    requires Sorted(l) && Admissible(l, t)
    ensures TasksAt(Insert(l, t, task), u) == TasksAt(l, u) + (if u == t then [task] else [])
  {
    var r := Insert(l, t, task);
    if l == [] {
      assert r[1..] == [];
    } else if l[0].tier == t {
      assert r[1..] == l[1..];
    } else if |l| == 1 || t < l[1].tier {
      assert r[1..] == [Tier(t, [task])] + l[1..] && r[1..][1..] == l[1..];
      if u == t && |l| > 1 { TiersAbove(l[1..], t); }
    } else {
      assert r[1..] == Insert(l[1..], t, task);
      InsertAt(l[1..], t, task, u);
    }
  }

  /** Taking the head away empties its tier and changes no other. */
  lemma TailAt(l: seq<Tier>, u: int)
    requires Sorted(l) && l != []
    ensures Sorted(l[1..]) && TasksAt(l[1..], u) == if u == l[0].tier then [] else TasksAt(l, u)
  {
    if u == l[0].tier && |l| > 1 { TiersAbove(l[1..], u); }
  }

  // ---- AddOnce and the tick ---------------------------------------------------------------

  predicate Shape(w: Wheel) {
    |w.buckets| == LEN && 0 <= w.clock.index < LEN && forall b | 0 <= b < LEN :: Sorted(w.buckets[b])
  }

  /** AddOnce returns; otherwise it dereferences the head's nil `prev` and panics. */
  predicate CanAdd(w: Wheel, timestamp: int)
    requires Shape(w)
  {
    SlotForIsExact(w.clock, timestamp);
    var s := SlotFor(w.clock, timestamp); Admissible(w.buckets[s.bucket], s.tier)
  }

  function AddOnce(w: Wheel, task: TaskId, timestamp: int): Wheel
    requires Shape(w) && CanAdd(w, timestamp)
  {
    SlotForIsExact(w.clock, timestamp);
    var s := SlotFor(w.clock, timestamp);
    w.(buckets := w.buckets[s.bucket := Insert(w.buckets[s.bucket], s.tier, task)])
  }

  /** Whether the tick at the wheel's index runs the head of its bucket: its tier is compared after Incr. */
  predicate Fires(w: Wheel)
    requires Shape(w)
  {
    var l := w.buckets[w.clock.index]; l != [] && Incr(w.clock).tier == l[0].tier
  }

  function Tick(w: Wheel): Wheel
    requires Shape(w)
  {
    var i := w.clock.index;
    Wheel(Incr(w.clock), if Fires(w) then w.buckets[i := w.buckets[i][1..]] else w.buckets)
  }

  function Fired(w: Wheel): seq<TaskId>
    requires Shape(w)
  {
    if Fires(w) then w.buckets[w.clock.index][0].tasks else []
  }

  /** The tasks of bucket `b` and tier `t`. */
  function At(w: Wheel, b: int, t: int): seq<TaskId>
    requires Shape(w) && 0 <= b < LEN
  {
    TasksAt(w.buckets[b], t)
  }

  lemma AddOnceAt(w: Wheel, task: TaskId, timestamp: int)
    requires Shape(w) && CanAdd(w, timestamp)
    ensures Shape(AddOnce(w, task, timestamp))
    ensures forall b, t | 0 <= b < LEN ::
      At(AddOnce(w, task, timestamp), b, t) == At(w, b, t) + (if SlotFor(w.clock, timestamp) == Slot(t, b) then [task] else [])
  {
    SlotForIsExact(w.clock, timestamp);
    var s := SlotFor(w.clock, timestamp);
    InsertKeepsSorted(w.buckets[s.bucket], s.tier, task);
    forall b, t | 0 <= b < LEN
      ensures At(AddOnce(w, task, timestamp), b, t) == At(w, b, t) + (if s == Slot(t, b) then [task] else [])
    {
      if b == s.bucket { InsertAt(w.buckets[b], s.tier, task, t); }
    }
  }

  lemma TickAt(w: Wheel)
    requires Shape(w)
    ensures Shape(Tick(w))
    ensures forall b, t | 0 <= b < LEN ::
      At(Tick(w), b, t) == if b == w.clock.index && Fires(w) && t == Incr(w.clock).tier then [] else At(w, b, t)
    ensures Fires(w) ==> Fired(w) == At(w, w.clock.index, Incr(w.clock).tier)
  {
    IncrKeepsStart(w.clock);
    var i := w.clock.index;
    if Fires(w) {
      assert Sorted(w.buckets[i][1..]);
      forall t ensures TasksAt(w.buckets[i][1..], t) == if t == w.buckets[i][0].tier then [] else At(w, i, t) {
        TailAt(w.buckets[i], t);
      }
    }
  }

  ghost function Ticks(w: Wheel, n: nat): (r: Wheel)
    requires Shape(w)
    ensures Shape(r) && r.clock.timestamp == w.clock.timestamp + n && Start(r.clock) == Start(w.clock)
  {
    if n == 0 then w
    else
      TickAt(Ticks(w, n - 1));
      IncrKeepsStart(Ticks(w, n - 1).clock);
      Tick(Ticks(w, n - 1))
  }

  ghost function FiredIn(w: Wheel, n: nat): seq<TaskId>
    requires Shape(w)
  {
    if n == 0 then [] else FiredIn(w, n - 1) + Fired(Ticks(w, n - 1))
  }

  lemma TicksNone(w: Wheel)
    requires Shape(w)
    ensures Ticks(w, 0) == w && FiredIn(w, 0) == []
  {
  }

  lemma TicksNext(w: Wheel, n: nat)
    requires Shape(w)
    ensures Ticks(w, n + 1) == Tick(Ticks(w, n)) && FiredIn(w, n + 1) == FiredIn(w, n) + Fired(Ticks(w, n))
    ensures Tick(Ticks(w, n)).clock == Incr(Ticks(w, n).clock)
  {
  }

  /** At any bucket but the last, a tick that meets no overdue tier runs exactly the tasks due now. */
  lemma TickIsPunctual(w: Wheel)
    requires Shape(w) && w.clock.index != LEN - 1
    requires w.buckets[w.clock.index] != [] ==> w.buckets[w.clock.index][0].tier >= w.clock.tier
    ensures Fired(w) == At(w, w.clock.index, w.clock.tier)
  {
    var l := w.buckets[w.clock.index];
    if l != [] && l[0].tier > w.clock.tier { TiersAbove(l, w.clock.tier); }
  }

  // ---- every run --------------------------------------------------------------------------

  /** A task run by the tick that moves the clock from `at` to `at + 1`. */
  datatype Fire = Fire(task: TaskId, at: int)

  /** `added` records when each task is due, `fired` every execution in order. */
  datatype State = State(wheel: Wheel, added: map<TaskId, int>, fired: seq<Fire>)

  datatype Action = Add(task: TaskId, timestamp: int) | Pass

  ghost predicate Enabled(s: State, a: Action) {
    Shape(s.wheel) && (a.Add? ==> a.task !in s.added && CanAdd(s.wheel, a.timestamp))
  }

  function FiresAt(tasks: seq<TaskId>, at: int): seq<Fire> { seq(|tasks|, k requires 0 <= k < |tasks| => Fire(tasks[k], at)) }

  ghost function Step(s: State, a: Action): State
    requires Enabled(s, a)
  {
    match a
    case Add(task, timestamp) =>
      s.(wheel := AddOnce(s.wheel, task, timestamp), added := s.added[task := Due(s.wheel.clock, timestamp)])
    case Pass => s.(wheel := Tick(s.wheel), fired := s.fired + FiresAt(Fired(s.wheel), s.wheel.clock.timestamp))
  }

  ghost predicate Init(s: State, now: int) {
    s.wheel.clock == Clock(now, 0, 0) && s.wheel.buckets == seq(LEN, _ => []) && s.added == map[] && s.fired == []
  }

  predicate HasFired(s: State, x: TaskId) { exists f :: f in s.fired && f.task == x }

  predicate NoRepeats(q: seq<TaskId>) { forall i, j | 0 <= i < j < |q| :: q[i] != q[j] }

  /** Every task in the wheel was added, sits in the slot of its time, is there once and has not run. */
  ghost predicate PendingOk(s: State, start: int) {
    Shape(s.wheel) && forall b, t | 0 <= b < LEN ::
      && NoRepeats(At(s.wheel, b, t))
      && forall x | x in At(s.wheel, b, t) :: x in s.added && s.added[x] == start + LEN * t + b && !HasFired(s, x)
  }

  /** Every added task has run or is in the slot of its time. */
  ghost predicate NoneLost(s: State, start: int) {
    Shape(s.wheel) && forall x | x in s.added ::
      HasFired(s, x) || (0 <= BucketOf(start, s.added[x]) < LEN && x in At(s.wheel, BucketOf(start, s.added[x]), TierOf(start, s.added[x])))
  }

  /** No tier of a bucket but the last is overdue. */
  ghost predicate NoneOverdue(s: State, start: int) {
    Shape(s.wheel) && forall b, t | 0 <= b < LEN - 1 && At(s.wheel, b, t) != [] :: start + LEN * t + b >= s.wheel.clock.timestamp
  }

  predicate OnTime(f: Fire, due: int, start: int) {
    f.at == if BucketOf(start, due) == LEN - 1 then due - LEN else due
  }

  /** Each task runs at most once: on time, or 32 ticks early if it was in the last bucket. */
  ghost predicate FiredOk(s: State, start: int) {
    && (forall i, j | 0 <= i < j < |s.fired| :: s.fired[i].task != s.fired[j].task)
    && (forall f | f in s.fired :: f.task in s.added && OnTime(f, s.added[f.task], start) && f.at < s.wheel.clock.timestamp)
  }

  ghost predicate Inv(s: State, start: int) {
    && Shape(s.wheel) && Start(s.wheel.clock) == start
    && PendingOk(s, start) && NoneLost(s, start) && NoneOverdue(s, start) && FiredOk(s, start)
  }

  lemma AddKept(s: State, task: TaskId, timestamp: int, start: int)
    requires Inv(s, start) && Enabled(s, Add(task, timestamp))
    ensures Inv(Step(s, Add(task, timestamp)), start)
  {
    hide Shape, CanAdd, AddOnce, At, SlotFor, BucketOf, TierOf, LEN;
    var s' := Step(s, Add(task, timestamp));
    var slot := SlotFor(s.wheel.clock, timestamp);
    ShapeIndex(s.wheel);
    SlotForIsExact(s.wheel.clock, timestamp);
    AddOnceAt(s.wheel, task, timestamp);
    AddOnceClock(s.wheel, task, timestamp);
    assert !HasFired(s, task);
    assert forall x :: HasFired(s', x) == HasFired(s, x);
    assert forall b, t | 0 <= b < LEN :: task !in At(s.wheel, b, t);
    assert forall b, t | 0 <= b < LEN :: At(s'.wheel, b, t) == At(s.wheel, b, t) + (if slot == Slot(t, b) then [task] else []);
  }

  lemma ShapeIndex(w: Wheel)
    requires Shape(w)
    ensures 0 <= w.clock.index < LEN
  {
  }

  lemma AddOnceClock(w: Wheel, task: TaskId, timestamp: int)
    requires Shape(w) && CanAdd(w, timestamp)
    ensures AddOnce(w, task, timestamp).clock == w.clock && Due(w.clock, timestamp) >= w.clock.timestamp
  {
  }

  /** The time of the slot a tick empties: now, or 32 ticks from now at the last bucket. */
  lemma TickTime(c: Clock)
    requires 0 <= c.index < LEN
    ensures var d := Start(c) + LEN * Incr(c).tier + c.index;
      && BucketOf(Start(c), d) == c.index && TierOf(Start(c), d) == Incr(c).tier
      && (c.index != LEN - 1 ==> d == c.timestamp && Incr(c).tier == c.tier) && (c.index == LEN - 1 ==> d == c.timestamp + LEN)
      && Incr(c).timestamp == c.timestamp + 1
  {
    SlotIsUnique(Start(c), Start(c) + LEN * Incr(c).tier + c.index, Slot(Incr(c).tier, c.index));
  }

  lemma FiredGrows(s: State)
    requires Shape(s.wheel)
    ensures var s' := Step(s, Pass);
      && s'.wheel.clock.timestamp == s.wheel.clock.timestamp + 1
      && (forall x :: HasFired(s', x) <==> HasFired(s, x) || x in Fired(s.wheel))
      && (forall f | f in s'.fired :: f in s.fired || (f.task in Fired(s.wheel) && f.at == s.wheel.clock.timestamp))
  {
    var s' := Step(s, Pass);
    var more := FiresAt(Fired(s.wheel), s.wheel.clock.timestamp);
    assert forall f | f in more :: f.task in Fired(s.wheel) && f.at == s.wheel.clock.timestamp;
    forall x ensures HasFired(s', x) <==> HasFired(s, x) || x in Fired(s.wheel) {
      if x in Fired(s.wheel) {
        var k :| 0 <= k < |Fired(s.wheel)| && Fired(s.wheel)[k] == x;
        assert more[k] in s'.fired;
      }
      if HasFired(s, x) {
        var f :| f in s.fired && f.task == x;
        assert f in s'.fired;
      }
    }
  }

  lemma FiredArePending(s: State, start: int)
    requires Inv(s, start)
    ensures var c := s.wheel.clock; forall x | x in Fired(s.wheel) ::
      x in s.added && s.added[x] == start + LEN * Incr(c).tier + c.index && !HasFired(s, x)
    ensures NoRepeats(Fired(s.wheel))
  {
    hide Fires, NoneLost, NoneOverdue, FiredOk;
    TickAt(s.wheel);
    if !Fires(s.wheel) { assert Fired(s.wheel) == [] by { FiredNone(s.wheel); } }
  }

  lemma FiredNone(w: Wheel)
    requires Shape(w) && !Fires(w)
    ensures Fired(w) == []
  {
  }

  lemma TickFiredOk(s: State, start: int)
    requires Inv(s, start)
    ensures FiredOk(Step(s, Pass), start)
  {
    hide Shape, PendingOk, NoneLost, NoneOverdue, Fires, BucketOf, TierOf, Tick, Fired;
    ShapeIndex(s.wheel);
    TickTime(s.wheel.clock);
    FiredArePending(s, start);
    FiredGrows(s);
    var s' := Step(s, Pass);
    forall i, j | 0 <= i < j < |s'.fired| ensures s'.fired[i].task != s'.fired[j].task {
      if i < |s.fired| <= j {
        assert s.fired[i] in s.fired;
        assert HasFired(s, s.fired[i].task);
        assert s'.fired[j].task == Fired(s.wheel)[j - |s.fired|];
      }
    }
  }

  lemma TickPendingOk(s: State, start: int)
    requires Inv(s, start)
    ensures PendingOk(Step(s, Pass), start)
  {
    hide Shape, NoneLost, NoneOverdue, FiredOk, Tick, Fired, At, HasFired, Fires;
    ShapeIndex(s.wheel);
    TickTime(s.wheel.clock);
    FiredArePending(s, start);
    FiredGrows(s);
    TickAt(s.wheel);
    var s', c := Step(s, Pass), s.wheel.clock;
    forall b, t, x | 0 <= b < LEN && x in At(s'.wheel, b, t) ensures x in s.added && s.added[x] == start + LEN * t + b && !HasFired(s', x) {
      assert x in At(s.wheel, b, t);
      if x in Fired(s.wheel) {
        SlotIsUnique(start, s.added[x], Slot(t, b));
        SlotIsUnique(start, s.added[x], Slot(Incr(c).tier, c.index));
        assert false by { FiredMeansFires(s.wheel, x); }
      }
    }
  }

  lemma FiredMeansFires(w: Wheel, x: TaskId)
    requires Shape(w) && x in Fired(w)
    ensures Fires(w)
  {
  }

  lemma TickNoneLost(s: State, start: int)
    requires Inv(s, start)
    ensures NoneLost(Step(s, Pass), start)
  {
    hide Shape, PendingOk, NoneOverdue, FiredOk, Tick, Fired, At, HasFired, Fires, BucketOf, TierOf;
    ShapeIndex(s.wheel);
    FiredGrows(s);
    TickAt(s.wheel);
  }

  lemma HeadNotOverdue(s: State, start: int)
    requires Inv(s, start) && s.wheel.clock.index != LEN - 1 && s.wheel.buckets[s.wheel.clock.index] != []
    ensures s.wheel.buckets[s.wheel.clock.index][0].tier >= s.wheel.clock.tier
  {
    hide PendingOk, NoneLost, FiredOk;
    var i := s.wheel.clock.index;
    assert Sorted(s.wheel.buckets[i]);
    var t := s.wheel.buckets[i][0].tier;
    assert At(s.wheel, i, t) == s.wheel.buckets[i][0].tasks != [];
  }

  lemma TickNoneOverdue(s: State, start: int)
    requires Inv(s, start)
    ensures NoneOverdue(Step(s, Pass), start)
  {
    hide PendingOk, NoneLost, FiredOk, At, Fires;
    TickTime(s.wheel.clock);
    TickAt(s.wheel);
    var s', c := Step(s, Pass), s.wheel.clock;
    if c.index != LEN - 1 {
      if s.wheel.buckets[c.index] != [] { HeadNotOverdue(s, start); }
      TickIsPunctual(s.wheel);
    }
    forall b, t | 0 <= b < LEN - 1 && At(s'.wheel, b, t) != [] ensures start + LEN * t + b >= c.timestamp + 1 {
      assert At(s.wheel, b, t) == At(s'.wheel, b, t);
      if start + LEN * t + b == c.timestamp {
        SlotIsUnique(start, c.timestamp, Slot(t, b));
        SlotIsUnique(start, c.timestamp, Slot(c.tier, c.index));
        assert false by { NotFiredMeansEmpty(s.wheel); }
      }
    }
  }

  lemma NotFiredMeansEmpty(w: Wheel)
    requires Shape(w) && Fired(w) == At(w, w.clock.index, w.clock.tier) && At(w, w.clock.index, w.clock.tier) != []
    ensures Fires(w)
  {
  }

  lemma StepKeepsInv(s: State, a: Action, start: int)
    requires Inv(s, start) && Enabled(s, a)
    ensures Inv(Step(s, a), start)
  {
    hide PendingOk, NoneLost, NoneOverdue, FiredOk, At, HasFired, Fires, BucketOf, TierOf, CanAdd;
    match a
    case Add(task, timestamp) => AddKept(s, task, timestamp, start);
    case Pass =>
      TickAt(s.wheel);
      IncrKeepsStart(s.wheel.clock);
      TickPendingOk(s, start);
      TickNoneLost(s, start);
      TickNoneOverdue(s, start);
      TickFiredOk(s, start);
  }

  datatype Run = Run(states: seq<State>, actions: seq<Action>)

  ghost predicate IsRun(r: Run, now: int) {
    && |r.states| == |r.actions| + 1 && Init(r.states[0], now)
    && forall k | 0 <= k < |r.actions| :: Enabled(r.states[k], r.actions[k]) && r.states[k + 1] == Step(r.states[k], r.actions[k])
  }

  lemma InitInv(s: State, now: int)
    requires Init(s, now)
    ensures Inv(s, now)
  {
  }

  lemma {:induction false} RunKeepsInv(r: Run, now: int, k: nat)
    requires IsRun(r, now) && k < |r.states|
    ensures Inv(r.states[k], now)
  {
    hide Inv, Init, Enabled, Step;
    if k == 0 {
      InitInv(r.states[0], now);
    } else {
      RunKeepsInv(r, now, k - 1);
      StepKeepsInv(r.states[k - 1], r.actions[k - 1], now);
    }
  }

  lemma OnTimeIffNotLastBucket(r: Run, now: int, k: nat, x: TaskId)
    requires IsRun(r, now) && k < |r.states| && x in r.states[k].added
    requires r.states[k].added[x] < r.states[k].wheel.clock.timestamp
    ensures var s := r.states[k]; var due := s.added[x];
      && (Fire(x, due) in s.fired <==> BucketOf(now, due) != LEN - 1)
      && (forall i, j | 0 <= i < |s.fired| && 0 <= j < |s.fired| && s.fired[i].task == s.fired[j].task :: i == j)
  {
    hide IsRun, PendingOk;
    RunKeepsInv(r, now, k);
    var s := r.states[k];
    var due := s.added[x];
    var b, t := BucketOf(now, due), TierOf(now, due);
    assert now + LEN * t + b == due;
    if b != LEN - 1 {
      assert HasFired(s, x);
      var f :| f in s.fired && f.task == x;
      assert OnTime(f, due, now);
      assert f == Fire(x, due);
    } else {
      assert !OnTime(Fire(x, due), due, now);
    }
  }

  // ---- in terms of the calls --------------------------------------------------------------

  lemma RecordsStay(s: State, a: Action, x: TaskId)
    requires Enabled(s, a) && x in s.added
    ensures x in Step(s, a).added && Step(s, a).added[x] == s.added[x]
    ensures HasFired(s, x) ==> HasFired(Step(s, a), x)
  {
    if HasFired(s, x) {
      var f :| f in s.fired && f.task == x;
      assert f in Step(s, a).fired;
    }
  }

  lemma {:induction false} AddedStay(r: Run, now: int, j: nat, k: nat, x: TaskId)
    requires IsRun(r, now) && j <= k < |r.states| && x in r.states[j].added
    ensures x in r.states[k].added && r.states[k].added[x] == r.states[j].added[x]
    decreases k
  {
    hide Init, Enabled;
    if j < k {
      AddedStay(r, now, j, k - 1, x);
      assert Enabled(r.states[k - 1], r.actions[k - 1]);
      RecordsStay(r.states[k - 1], r.actions[k - 1], x);
    }
  }

  /** A task added for a time is due then, or at once if that time is past or now. */
  lemma DueWhenAsked(r: Run, now: int, j: nat, k: nat, x: TaskId, timestamp: int)
    requires IsRun(r, now) && j < k < |r.states| && r.actions[j] == Add(x, timestamp)
    ensures var clock := r.states[j].wheel.clock.timestamp;
      x in r.states[k].added && r.states[k].added[x] == if timestamp <= clock then clock else timestamp
  {
    hide Init, CanAdd, Shape;
    assert Enabled(r.states[j], r.actions[j]) && r.states[j + 1] == Step(r.states[j], r.actions[j]);
    AddedStay(r, now, j + 1, k, x);
  }

  function Passes(actions: seq<Action>): nat {
    if actions == [] then 0 else Passes(actions[..|actions| - 1]) + if actions[|actions| - 1].Pass? then 1 else 0
  }

  /** The clock shows the start of the wheel plus one second per tick. */
  lemma {:induction false} ClockCountsTicks(r: Run, now: int, k: nat)
    requires IsRun(r, now) && k < |r.states|
    ensures r.states[k].wheel.clock.timestamp == now + Passes(r.actions[..k])
  {
    hide CanAdd, Shape;
    if k > 0 {
      ClockCountsTicks(r, now, k - 1);
      assert Enabled(r.states[k - 1], r.actions[k - 1]);
      assert r.actions[..k][..k - 1] == r.actions[..k - 1];
    }
  }

  /**
    Exactness: in every run, a task added for a time, or for now if that is past, was run by the tick that moved the
    clock past it if and only if the time does not fall on the last of the 32 buckets; and no task ever runs twice.
   */
  lemma RunsOnTimeIffNotLastBucket(r: Run, now: int, j: nat, k: nat, x: TaskId, timestamp: int)
    requires IsRun(r, now) && j < k < |r.states| && r.actions[j] == Add(x, timestamp)
    ensures var clock := r.states[j].wheel.clock.timestamp; var due := if timestamp <= clock then clock else timestamp;
      due < r.states[k].wheel.clock.timestamp ==> (Fire(x, due) in r.states[k].fired <==> (due - now) % 32 != 31)
    ensures forall i, n | 0 <= i < n < |r.states[k].fired| :: r.states[k].fired[i].task != r.states[k].fired[n].task
  {
    hide IsRun, PendingOk, NoneLost, NoneOverdue;
    DueWhenAsked(r, now, j, k, x, timestamp);
    RunKeepsInv(r, now, k);
    if r.states[k].added[x] < r.states[k].wheel.clock.timestamp { OnTimeIffNotLastBucket(r, now, k, x); }
  }

  /** Until its time is past, a task of any other bucket waits in its slot and has not run. */
  lemma WaitsUntilDue(r: Run, now: int, k: nat, x: TaskId)
    requires IsRun(r, now) && k < |r.states| && x in r.states[k].added
    requires r.states[k].added[x] >= r.states[k].wheel.clock.timestamp && BucketOf(now, r.states[k].added[x]) != LEN - 1
    ensures var s := r.states[k]; var due := s.added[x];
      Shape(s.wheel) && !HasFired(s, x) && x in At(s.wheel, BucketOf(now, due), TierOf(now, due))
  {
    hide IsRun, PendingOk, NoneOverdue;
    RunKeepsInv(r, now, k);
  }

  /** AddOnce panics exactly when its bucket is in use and every task waiting there is due later. */
  lemma AddPanicsIffAllLater(r: Run, now: int, k: nat, timestamp: int)
    requires IsRun(r, now) && k < |r.states|
    ensures var s := r.states[k]; var clock := s.wheel.clock.timestamp;
      var due := if timestamp <= clock then clock else timestamp; var b := (due - now) % 32;
      && Shape(s.wheel) && 0 <= b < LEN
      && (!CanAdd(s.wheel, timestamp) <==>
            s.wheel.buckets[b] != [] && forall t, x | x in At(s.wheel, b, t) :: x in s.added && s.added[x] > due)
  {
    hide IsRun, NoneLost, NoneOverdue, FiredOk;
    RunKeepsInv(r, now, k);
    var s := r.states[k];
    SlotForIsExact(s.wheel.clock, timestamp);
    var due := Due(s.wheel.clock, timestamp);
    var b, t := BucketOf(now, due), TierOf(now, due);
    var l := s.wheel.buckets[b];
    if l != [] {
      assert Sorted(l) && At(s.wheel, b, l[0].tier) == l[0].tasks;
      assert l[0].tasks[0] in At(s.wheel, b, l[0].tier);
      if t < l[0].tier {
        forall u, x | x in At(s.wheel, b, u) ensures x in s.added && s.added[x] > due {
          if u < l[0].tier { TiersAbove(l, u); }
        }
      }
    }
  }
}
