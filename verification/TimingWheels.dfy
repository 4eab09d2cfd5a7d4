/**
  The timing wheel on the heap (timing_wheel/timing_wheel.go): an array of buckets, each a chain of tierTask
  nodes that AddOnce splices and the tick loop pops. Proved against module WheelRules.
 */
module TimingWheels {
  import opened WheelRules

  class TierTask {
    var tier: int
    var tasks: seq<TaskId>
    var prev: TierTask?
    var next: TierTask?

    constructor (tier: int, tasks: seq<TaskId>, prev: TierTask?, next: TierTask?)
      ensures this.tier == tier && this.tasks == tasks && this.prev == prev && this.next == next
    {
      this.tier, this.tasks, this.prev, this.next := tier, tasks, prev, next;
    }
  }

  /** A bucket's nodes: `next` links them to the end; only the head's `prev` is relied on, and it is nil. */
  ghost predicate Chained(head: TierTask?, chain: seq<TierTask>)
    reads chain`prev, chain`next
  {
    && head == (if chain == [] then null else chain[0])
    && (chain != [] ==> chain[0].prev == null && chain[|chain| - 1].next == null)
    && (forall k | 0 <= k < |chain| - 1 :: chain[k].next == chain[k + 1])
  }

  ghost predicate Holds(chain: seq<TierTask>, value: seq<Tier>)
    reads chain`tier, chain`tasks
  {
    |chain| == |value| && forall k | 0 <= k < |chain| :: value[k] == Tier(chain[k].tier, chain[k].tasks)
  }

  ghost predicate Distinct(chain: seq<TierTask>) { forall k, j | 0 <= k < j < |chain| :: chain[k] != chain[j] }

  /** No node is in two buckets, or twice in one. */
  ghost predicate Apart(chains: seq<seq<TierTask>>, nodes: set<TierTask>) {
    && (forall b, x | 0 <= b < |chains| && x in chains[b] :: x in nodes)
    && (forall b | 0 <= b < |chains| :: Distinct(chains[b]))
    && (forall b, c, x | 0 <= b < c < |chains| && x in chains[b] :: x !in chains[c])
  }

  lemma ApartChanged(chains: seq<seq<TierTask>>, nodes: set<TierTask>, b: nat, chain: seq<TierTask>, more: set<TierTask>)
    requires Apart(chains, nodes) && b < |chains| && Distinct(chain) && more !! nodes
    requires forall x | x in chain :: x in chains[b] || x in more
    ensures Apart(chains[b := chain], nodes + more)
  {
  }

  lemma ApartFacts(chains: seq<seq<TierTask>>, nodes: set<TierTask>, b: nat)
    requires Apart(chains, nodes) && b < |chains|
    ensures Distinct(chains[b]) && forall x | x in chains[b] :: x in nodes
  {
  }

  lemma Elsewhere(chains: seq<seq<TierTask>>, nodes: set<TierTask>, b: nat, x: TierTask)
    requires Apart(chains, nodes) && b < |chains| && x in chains[b]
    ensures forall c | 0 <= c < |chains| && c != b :: x !in chains[c]
  {
  }

  class TimingWheel {
    var timestamp: int
    var tier: int
    var index: int
    const buckets: array<TierTask?>
    ghost var chains: seq<seq<TierTask>>  // the nodes of each bucket
    ghost var values: seq<seq<Tier>>      // what they hold
    ghost var nodes: set<TierTask>        // all of them

    ghost predicate Valid()
      reads this, buckets, nodes
    {
      && buckets.Length == LEN && |chains| == LEN && |values| == LEN && 0 <= index < LEN && Apart(chains, nodes)
      && forall b | 0 <= b < LEN :: Chained(buckets[b], chains[b]) && Holds(chains[b], values[b]) && Sorted(values[b])
    }

    ghost function View(): Wheel
      reads this
    {
      Wheel(Clock(timestamp, tier, index), values)
    }

    constructor (now: int)
      ensures Valid() && View() == Wheel(Clock(now, 0, 0), seq(LEN, _ => []))
    {
      timestamp, tier, index := now, 0, 0;
      buckets := new TierTask?[LEN](_ => null);
      chains, values, nodes := seq(LEN, _ => []), seq(LEN, _ => []), {};
    }

    /** current.Incr, with TierIncr at the end of a round. */
    method Incr()
      modifies this`timestamp, this`tier, this`index
      ensures Clock(timestamp, tier, index) == WheelRules.Incr(old(Clock(timestamp, tier, index)))
    {
      timestamp := timestamp + 1;
      index := index + 1;
      if index == LEN {
        tier := tier + 1;
        index := 0;
      }
    }

    /** The bucket's head becomes its successor, whose `prev` is cut. */
    method CutHead(i: int, ghost c: seq<TierTask>)
      requires 0 <= i < buckets.Length && c != [] && Chained(buckets[i], c)
      modifies buckets, (set x | x in c[1..])`prev
      ensures Chained(buckets[i], c[1..]) && buckets[..] == old(buckets[..])[i := buckets[i]]
    {
      hide Chained, Follow;
      ChainedNext(buckets[i], c);
      buckets[i] := buckets[i].next;
      if buckets[i] != null {
        assert buckets[i] in c[1..];
        buckets[i].prev := null;
      }
      ChainedTail(buckets[i], c);
    }

    method PopHead(i: int)
      requires Valid() && 0 <= i < LEN && chains[i] != []
      modifies this`chains, this`values, buckets, nodes`prev
      ensures Valid() && values == old(values)[i := old(values)[i][1..]]
    {
      hide Apart, Sorted, Chained, Holds, Distinct;
      ghost var c, v := chains[i], values[i];
      assert Chained(buckets[i], c) && Holds(c, v) && Sorted(v);
      ApartFacts(chains, nodes, i);
      RestIn(c);
      HoldsTail(c, v);
      HeadOf(buckets[i], c, v);
      SortedTail(v);
      ElsewhereAll(chains, nodes, i);
      CutHead(i, c);
      forall b | 0 <= b < LEN && b != i ensures Chained(buckets[b], chains[b]) {
        assert buckets[b] == buckets[..][b] == old(buckets[..])[b];
        assert old(Chained(buckets[b], chains[b]));
      }
      ApartChanged(chains, nodes, i, c[1..], {});
      assert nodes + {} == nodes;
      chains, values := chains[i := c[1..]], values[i := v[1..]];
    }

    /** The body of the tick loop for bucket `i`, which the loop keeps equal to the clock's index. */
    method Tick(i: int) returns (taskList: seq<TaskId>)
      requires Valid() && i == index
      modifies this`timestamp, this`tier, this`index, this`chains, this`values, buckets, nodes`prev
      ensures Valid() && Shape(old(View())) && View() == WheelRules.Tick(old(View())) && taskList == Fired(old(View()))
    {
      taskList := [];
      Incr();
      var linkedList := buckets[i];
      assert Holds(chains[i], values[i]) && Chained(buckets[i], chains[i]);
      if linkedList != null && tier == linkedList.tier {
        taskList := linkedList.tasks;
        PopHead(i);
      }
    }

    /** One round of the loop in Init: its counter and the clock's index stay in step, so the next round can follow. */
    method Round() returns (executed: seq<TaskId>)
      requires Valid() && index == 0
      modifies this`timestamp, this`tier, this`index, this`chains, this`values, buckets, nodes`prev
      ensures Valid() && index == 0 && Shape(old(View())) && View() == Ticks(old(View()), LEN) && executed == FiredIn(old(View()), LEN)
    {
      hide Ticks, FiredIn, WheelRules.Tick, Fired, Apart, Chained, Holds, Sorted;
      ghost var w := View();
      executed := [];
      var i := 0;
      TicksNone(w);
      while i < LEN
        invariant 0 <= i <= LEN && Valid() && index == (if i == LEN then 0 else i) && Shape(w) && View() == Ticks(w, i) && executed == FiredIn(w, i)
      {
        var taskList := Tick(i);
        executed := executed + taskList;
        TicksNext(w, i);
        i := i + 1;
      }
    }

    /** The task joins the tier of node `p`. */
    method AppendTo(b: int, p: TierTask, ghost k: int, task: TaskId, ghost value: seq<Tier>)
      requires Valid() && 0 <= b < LEN && 0 <= k < |chains[b]| && chains[b][k] == p && Sorted(value)
      requires value == values[b][k := Tier(values[b][k].tier, values[b][k].tasks + [task])]
      modifies this`values, p`tasks
      ensures Valid() && values == old(values)[b := value]
    {
      hide Apart, Sorted, Chained;
      assert p in chains[b] && Holds(chains[b], values[b]);
      ApartFacts(chains, nodes, b);
      Elsewhere(chains, nodes, b, p);
      p.tasks := p.tasks + [task];
      values := values[b := value];
    }

    /** A new node between `p` and its successor; the successor's `prev` is not updated. */
    method Link(b: int, p: TierTask, ghost k: int, t: int, task: TaskId) returns (n: TierTask)
      requires 0 <= b < |chains| == |values| == buckets.Length && 0 <= k < |chains[b]| && chains[b][k] == p
      requires Distinct(chains[b]) && Chained(buckets[b], chains[b]) && Holds(chains[b], values[b])
      modifies p`next
      ensures fresh(n) && n !in chains[b] && n.tier == t && n.tasks == [task]
      ensures Chained(buckets[b], chains[b][..k + 1] + [n] + chains[b][k + 1..])
      ensures Holds(chains[b][..k + 1] + [n] + chains[b][k + 1..], values[b][..k + 1] + [Tier(t, [task])] + values[b][k + 1..])
    {
      n := new TierTask(t, [task], p, p.next);
      p.next := n;
      ChainedSplice(buckets[b], chains[b], k, n);
      HoldsSplice(chains[b], values[b], k, n);
    }

    method SpliceAfter(b: int, p: TierTask, ghost k: int, t: int, task: TaskId, ghost value: seq<Tier>)
      requires Valid() && 0 <= b < LEN && 0 <= k < |chains[b]| && chains[b][k] == p && Sorted(value)
      requires value == values[b][..k + 1] + [Tier(t, [task])] + values[b][k + 1..]
      modifies this`values, this`chains, this`nodes, p`next
      ensures Valid() && values == old(values)[b := value]
    {
      hide Apart, Sorted, Chained, Holds, Distinct;
      assert p in chains[b];
      ApartFacts(chains, nodes, b);
      Elsewhere(chains, nodes, b, p);
      var n := Link(b, p, k, t, task);
      DistinctSplice(chains[b], k, n);
      ApartChanged(chains, nodes, b, chains[b][..k + 1] + [n] + chains[b][k + 1..], {n});
      chains, values, nodes := chains[b := chains[b][..k + 1] + [n] + chains[b][k + 1..]], values[b := value], nodes + {n};
    }

    method StartBucket(b: int, t: int, task: TaskId)
      requires Valid() && 0 <= b < LEN && chains[b] == []
      modifies this`values, this`chains, this`nodes, buckets
      ensures Valid() && values == old(values)[b := [Tier(t, [task])]]
    {
      hide Apart;
      var n := new TierTask(t, [task], null, null);
      buckets[b] := n;
      ApartChanged(chains, nodes, b, [n], {n});
      chains, values, nodes := chains[b := [n]], values[b := [Tier(t, [task])]], nodes + {n};
      assert Sorted([Tier(t, [task])]);
    }

    /**
      The insert loop of AddOnce. A new tier below the head's would write through the head's nil `prev`; further
      along the chain that branch is never reached, so the links the splice leaves stale are never followed.
     */
    method InsertInto(b: int, t: int, task: TaskId) returns (panicked: bool)
      requires Valid() && 0 <= b < LEN
      modifies this`values, this`chains, this`nodes, buckets, nodes`tasks, nodes`next
      ensures Valid() && panicked == !Admissible(old(values)[b], t)
      ensures values == if panicked then old(values) else old(values)[b := Insert(old(values)[b], t, task)]
    {
      hide Apart, Distinct, Chained, Holds, Sorted, Insert;
      ghost var l, c := values[b], chains[b];
      ApartFacts(chains, nodes, b);
      assert Holds(c, l) && Chained(buckets[b], c) && Sorted(l);
      HeadOf(buckets[b], c, l);
      if buckets[b] == null {
        StartBucket(b, t, task);
        InsertStarts(t, task);
        return false;
      }
      var tierPointer := buckets[b];
      ghost var k := 0;
      assert l[..0] == [] && l[0..] == l;
      while true
        invariant unchanged(this) && unchanged(buckets) && unchanged(old(nodes))
        invariant 0 <= k < |l| && tierPointer == c[k]
        invariant k > 0 ==> Admissible(l, t) && Admissible(l[k..], t)
        invariant Admissible(l, t) && Admissible(l[k..], t) ==> Insert(l, t, task) == l[..k] + Insert(l[k..], t, task)
        decreases |l| - k
      {
        assert tierPointer in c && tierPointer in nodes;
        NodeAt(buckets[b], c, l, k);
        if t < tierPointer.tier {
          return true;
        }
        assert Admissible(l, t);
        if tierPointer.tier == t {
          InsertKeepsSorted(l, t, task);
          InsertJoins(l, k, t, task);
          AppendTo(b, tierPointer, k, task, Insert(l, t, task));
          return false;
        }
        if tierPointer.next == null || t < tierPointer.next.tier {
          InsertKeepsSorted(l, t, task);
          InsertSplices(l, k, t, task);
          SpliceAfter(b, tierPointer, k, t, task, Insert(l, t, task));
          return false;
        }
        InsertGoesOn(l, k, t, task);
        tierPointer := tierPointer.next;
        k := k + 1;
      }
    }

    /** Tier and bucket of a task, as AddOnce computes them. */
    method Place(when: int) returns (taskTier: int, taskBucket: int)
      requires 0 <= index < LEN
      ensures Slot(taskTier, taskBucket) == SlotFor(Clock(timestamp, tier, index), when) && 0 <= taskBucket < LEN
      ensures 32 * (taskTier - tier) + taskBucket - index == if when <= timestamp then 0 else when - timestamp
    {
      var due := when;
      if due <= timestamp {
        due := timestamp;
      }
      var remain := due - timestamp;
      taskTier, taskBucket := tier + remain / LEN, index + remain % LEN;
      if taskBucket >= LEN {
        taskTier := taskTier + 1;
        taskBucket := taskBucket % LEN;
      }
    }

    method AddOnce(task: TaskId, when: int) returns (panicked: bool)
      requires Valid()
      modifies this`values, this`chains, this`nodes, buckets, nodes`tasks, nodes`next
      ensures Valid() && Shape(old(View())) && panicked == !CanAdd(old(View()), when)
      ensures View() == if panicked then old(View()) else WheelRules.AddOnce(old(View()), task, when)
    {
      hide SlotFor, Apart, Chained, Holds, Sorted, Insert, Admissible;
      var taskTier, taskBucket := Place(when);
      panicked := InsertInto(taskBucket, taskTier, task);
    }
  }

  lemma SortedTail(l: seq<Tier>)
    requires Sorted(l) && l != []
    ensures Sorted(l[1..])
  {
  }

  lemma ElsewhereAll(chains: seq<seq<TierTask>>, nodes: set<TierTask>, b: nat)
    requires Apart(chains, nodes) && b < |chains|
    ensures forall c, x | 0 <= c < |chains| && c != b && x in chains[c] :: x !in chains[b]
  {
  }

  lemma HeadOf(head: TierTask?, c: seq<TierTask>, l: seq<Tier>)
    requires Chained(head, c) && Holds(c, l)
    ensures |c| == |l| && (head == null <==> c == []) && (c != [] ==> head == c[0] && head.prev == null)
  {
  }

  /** A node of a bucket: what it holds, and its successor with its tier. */
  lemma NodeAt(head: TierTask?, c: seq<TierTask>, l: seq<Tier>, k: nat)
    requires Chained(head, c) && Holds(c, l) && k < |c|
    ensures |c| == |l| && l[k] == Tier(c[k].tier, c[k].tasks) && (k == 0 ==> c[k].prev == null)
    ensures c[k].next == if k + 1 < |c| then c[k + 1] else null
    ensures k + 1 < |c| ==> l[k + 1].tier == c[k + 1].tier
  {
  }

  function Successor(c: seq<TierTask>, j: nat): TierTask? { if j + 1 < |c| then c[j + 1] else null }

  ghost predicate Follow(c: seq<TierTask>)
    reads c`next
  {
    forall j: nat | j < |c| :: c[j].next == Successor(c, j)
  }

  lemma ChainedNext(head: TierTask?, c: seq<TierTask>)
    requires Chained(head, c)
    ensures Follow(c) && (c != [] ==> head == c[0] && head.next == Successor(c, 0))
  {
  }

  lemma ChainedTail(head: TierTask?, c: seq<TierTask>)
    requires c != [] && Follow(c) && head == c[0].next && (head != null ==> head.prev == null)
    ensures Chained(head, c[1..])
  {
    var r := c[1..];
    assert c[0].next == Successor(c, 0) && c[|c| - 1].next == Successor(c, |c| - 1);
    forall j | 0 <= j < |r| - 1 ensures r[j].next == r[j + 1] {
      assert c[j + 1].next == Successor(c, j + 1);
    }
  }

  lemma HoldsTail(c: seq<TierTask>, l: seq<Tier>)
    requires c != [] && Holds(c, l)
    ensures Holds(c[1..], l[1..])
  {
  }

  lemma RestIn(c: seq<TierTask>)
    requires c != []
    ensures forall x | x in c[1..] :: x in c
    ensures Distinct(c) ==> Distinct(c[1..])
  {
  }

  lemma InsertStarts(t: int, task: TaskId)
    ensures Insert([], t, task) == [Tier(t, [task])]
  {
  }

  /** The insert loop at a node whose tier is the task's. */
  lemma InsertJoins(l: seq<Tier>, k: nat, t: int, task: TaskId)
    requires k < |l| && l[k].tier == t && Admissible(l, t) && Insert(l, t, task) == l[..k] + Insert(l[k..], t, task)
    ensures Insert(l, t, task) == l[k := Tier(t, l[k].tasks + [task])]
  {
    var m := l[k..];
    assert Insert(m, t, task) == [Tier(t, m[0].tasks + [task])] + m[1..];
  }

  /** ... at a node below it whose successor is above it, or missing. */
  lemma InsertSplices(l: seq<Tier>, k: nat, t: int, task: TaskId)
    requires k < |l| && l[k].tier < t && Admissible(l, t) && Insert(l, t, task) == l[..k] + Insert(l[k..], t, task)
    requires k + 1 == |l| || t < l[k + 1].tier
    ensures Insert(l, t, task) == l[..k + 1] + [Tier(t, [task])] + l[k + 1..]
  {
    var m := l[k..];
    assert Insert(m, t, task) == [m[0], Tier(t, [task])] + m[1..];
  }

  /** ... and at any other node below it. */
  lemma InsertGoesOn(l: seq<Tier>, k: nat, t: int, task: TaskId)
    requires k + 1 < |l| && l[k].tier < t && l[k + 1].tier <= t
    requires Admissible(l, t) && Insert(l, t, task) == l[..k] + Insert(l[k..], t, task)
    ensures Admissible(l[k + 1..], t) && Insert(l, t, task) == l[..k + 1] + Insert(l[k + 1..], t, task)
  {
    var m := l[k..];
    assert m[1..] == l[k + 1..];
    assert Insert(m, t, task) == [m[0]] + Insert(m[1..], t, task);
  }

  lemma DistinctSplice(c: seq<TierTask>, k: nat, n: TierTask)
    requires Distinct(c) && n !in c && k < |c|
    ensures Distinct(c[..k + 1] + [n] + c[k + 1..])
    ensures forall x :: x in c[..k + 1] + [n] + c[k + 1..] <==> x == n || x in c
  {
    var r := c[..k + 1] + [n] + c[k + 1..];
    assert forall x :: x in c <==> x in c[..k + 1] || x in c[k + 1..];
    forall i, j | 0 <= i < j < |r| ensures r[i] != r[j] {
      assert r[i] == if i <= k then c[i] else if i == k + 1 then n else c[i - 1];
      assert r[j] == if j <= k then c[j] else if j == k + 1 then n else c[j - 1];
    }
  }

  lemma ChainedSplice(head: TierTask?, c: seq<TierTask>, k: nat, n: TierTask)
    requires k < |c| && head == c[0] && c[0].prev == null && c[k].next == n
    requires n.next == if k + 1 < |c| then c[k + 1] else null
    requires (forall j | 0 <= j < |c| - 1 && j != k :: c[j].next == c[j + 1]) && (k + 1 < |c| ==> c[|c| - 1].next == null)
    ensures Chained(head, c[..k + 1] + [n] + c[k + 1..])
  {
    var r := c[..k + 1] + [n] + c[k + 1..];
    forall j | 0 <= j < |r| - 1 ensures r[j].next == r[j + 1] {
      assert r[j] == if j <= k then c[j] else if j == k + 1 then n else c[j - 1];
      assert r[j + 1] == if j + 1 <= k then c[j + 1] else if j == k then n else c[j];
    }
    assert r[|r| - 1] == if k + 1 < |c| then c[|c| - 1] else n;
  }

  lemma HoldsSplice(c: seq<TierTask>, v: seq<Tier>, k: nat, n: TierTask)
    requires Holds(c, v) && k < |c|
    ensures Holds(c[..k + 1] + [n] + c[k + 1..], v[..k + 1] + [Tier(n.tier, n.tasks)] + v[k + 1..])
  {
  }
}
