/**
  The goroutine pool (gopool/pool.go, gopool/worker.go) as a machine over its atomic operations: any
  number of submitters inside CtxGo and of workers inside run, interleaved at every lock operation and
  every atomic load, add and store.
 */
module PoolMachine {
  type Task = nat
  type Actor = nat

  /** A submitter's next operation in CtxGo. */
  datatype Submitter =
    | Entering(task: Task)    // taskLock.Lock()
    | Locked(task: Task)      // append to the queue
    | Linked                  // taskLock.Unlock()
    | Adding                  // AddInt32(&taskCount, 1)
    | Loading                 // LoadInt32(&taskCount) >= ScaleThreshold
    | ReadWorkers             // WorkerCount(), left of <
    | ReadCap(workers: int)   // ... < LoadInt32(&cap)
    | ReadZero                // WorkerCount() == 0
    | Spawning                // incrWorkerCount()
    | Launching               // w.run()

  /** A worker's next operation in run. */
  datatype Worker =
    | Idle                    // taskLock.Lock()
    | Looking                 // take taskHead, or see nil
    | Taken(task: Task)       // AddInt32(&taskCount, -1)
    | Holding(task: Task)     // taskLock.Unlock()
    | Running(task: Task)     // t.f(), t.Recycle()
    | SawEmpty                // close(): decWorkerCount()
    | Closing                 // taskLock.Unlock(), return

  datatype Holder = Free | BySubmitter(i: Actor) | ByWorker(j: Actor)

  /** `submitted`, `taken` and `ran` record every enqueue, every dequeue and every execution in order. */
  datatype State = State(
    queue: seq<Task>, taskCount: int, workerCount: int, cap: int, threshold: int, lock: Holder,
    submitters: map<Actor, Submitter>, workers: map<Actor, Worker>,
    submitted: seq<Task>, taken: seq<Task>, ran: seq<Task>)

  datatype Action =
    | Arrive(i: Actor, task: Task)     // a caller enters CtxGo
    | Submit(i: Actor, newborn: Actor)   // one operation of a submitter; `newborn` names a launched worker
    | Work(j: Actor)                   // one operation of a worker
    | SetCap(cap: int)

  ghost predicate Enabled(s: State, a: Action) {
    match a
    case Arrive(i, _) => i !in s.submitters
    case Submit(i, newborn) => i in s.submitters && newborn !in s.workers && (s.submitters[i].Entering? ==> s.lock.Free?)
    case Work(j) => j in s.workers && (s.workers[j].Idle? ==> s.lock.Free?)
    case SetCap(_) => true
  }

  function Goes(s: State, i: Actor, p: Submitter): State { s.(submitters := s.submitters[i := p]) }

  function Returns(s: State, i: Actor): State { s.(submitters := s.submitters - {i}) }

  function Submits(s: State, i: Actor, newborn: Actor): State
    requires i in s.submitters
  {
    match s.submitters[i]
    case Entering(t) => Goes(s, i, Locked(t)).(lock := BySubmitter(i))
    case Locked(t) => Goes(s, i, Linked).(queue := s.queue + [t], submitted := s.submitted + [t])
    case Linked => Goes(s, i, Adding).(lock := Free)
    case Adding => Goes(s, i, Loading).(taskCount := s.taskCount + 1)
    case Loading => Goes(s, i, if s.taskCount >= s.threshold then ReadWorkers else ReadZero)
    case ReadWorkers => Goes(s, i, ReadCap(s.workerCount))
    case ReadCap(w) => Goes(s, i, if w < s.cap then Spawning else ReadZero)
    case ReadZero => if s.workerCount == 0 then Goes(s, i, Spawning) else Returns(s, i)
    case Spawning => Goes(s, i, Launching).(workerCount := s.workerCount + 1)
    case Launching => Returns(s, i).(workers := s.workers[newborn := Idle])
  }

  function Turns(s: State, j: Actor, p: Worker): State { s.(workers := s.workers[j := p]) }

  function Works(s: State, j: Actor): State
    requires j in s.workers
  {
    match s.workers[j]
    case Idle => Turns(s, j, Looking).(lock := ByWorker(j))
    case Looking =>
      if s.queue != [] then Turns(s, j, Taken(s.queue[0])).(queue := s.queue[1..], taken := s.taken + [s.queue[0]])
      else Turns(s, j, SawEmpty)
    case Taken(t) => Turns(s, j, Holding(t)).(taskCount := s.taskCount - 1)
    case Holding(t) => Turns(s, j, Running(t)).(lock := Free)
    case Running(t) => Turns(s, j, Idle).(ran := s.ran + [t])
    case SawEmpty => Turns(s, j, Closing).(workerCount := s.workerCount - 1)
    case Closing => s.(workers := s.workers - {j}, lock := Free)
  }

  ghost function Step(s: State, a: Action): State
    requires Enabled(s, a)
  {
    match a
    case Arrive(i, t) => Goes(s, i, Entering(t))
    case Submit(i, newborn) => Submits(s, i, newborn)
    case Work(j) => Works(s, j)
    case SetCap(c) => s.(cap := c)
  }

  ghost predicate Init(s: State) {
    && s.queue == [] && s.taskCount == 0 && s.workerCount == 0 && s.lock.Free?
    && s.submitters == map[] && s.workers == map[] && s.submitted == [] && s.taken == [] && s.ran == []
  }

  // ---- counting actors --------------------------------------------------------------------

  ghost function Those<T>(m: map<Actor, T>, p: T -> bool): set<Actor> { set i | i in m && p(m[i]) }

  ghost function One(b: bool): nat { if b then 1 else 0 }

  lemma Moved<T>(m: map<Actor, T>, i: Actor, x: T, p: T -> bool)
    ensures |Those(m[i := x], p)| == |Those(m, p)| - One(i in m && p(m[i])) + One(p(x))
  {
    var before, after := Those(m, p), Those(m[i := x], p);
    assert after == if p(x) then before + {i} else before - {i};
  }

  lemma Removed<T>(m: map<Actor, T>, i: Actor, p: T -> bool)
    ensures |Those(m - {i}, p)| == |Those(m, p)| - One(i in m && p(m[i]))
  {
    assert Those(m - {i}, p) == Those(m, p) - {i};
  }

  lemma SomeOf<T>(m: map<Actor, T>, p: T -> bool, i: Actor)
    requires i in m && p(m[i])
    ensures |Those(m, p)| >= 1
  {
    assert i in Those(m, p);
    assert Those(m, p) == {i} + (Those(m, p) - {i});
  }

  // ---- the invariant ----------------------------------------------------------------------

  predicate HoldsLock(p: Submitter) { p.Locked? || p.Linked? }
  predicate WorksLocked(w: Worker) { w.Looking? || w.Taken? || w.Holding? || w.SawEmpty? || w.Closing? }

  /** The lock is held by whoever is in a critical section; a worker that saw no task sees none until it leaves. */
  ghost predicate LockOk(s: State) {
    && (forall i | i in s.submitters :: HoldsLock(s.submitters[i]) <==> s.lock == BySubmitter(i))
    && (forall j | j in s.workers :: WorksLocked(s.workers[j]) <==> s.lock == ByWorker(j))
    && (s.lock.BySubmitter? ==> s.lock.i in s.submitters) && (s.lock.ByWorker? ==> s.lock.j in s.workers)
    && (forall j | j in s.workers && s.workers[j].SawEmpty? :: s.queue == [])
  }

  /** Enqueued, but not yet in taskCount. */
  predicate Uncounted(p: Submitter) { p.Linked? || p.Adding? }

  /** taskCount plus the uncounted submitters is the queue length, plus a task just taken. */
  ghost predicate TasksOk(s: State) {
    s.taskCount + |Those(s.submitters, Uncounted)| == |s.queue| + |Those(s.workers, JustTook)|
  }

  predicate Live(w: Worker) { !w.Closing? }

  /** workerCount counts the workers that have not closed and those about to be launched. */
  ghost predicate WorkersOk(s: State) {
    s.workerCount == |Those(s.workers, Live)| + |Those(s.submitters, AboutToLaunch)|
  }

  /** Between its enqueue and its decision to spawn, or its increment. */
  predicate Pending(p: Submitter) { !p.Entering? && !p.Locked? && !p.Launching? }

  ghost predicate NotStranded(s: State) {
    s.queue != [] ==> s.workerCount >= 1 || exists i :: i in s.submitters && Pending(s.submitters[i])
  }

  ghost predicate Fifo(s: State) { s.submitted == s.taken + s.queue }

  ghost predicate Inv(s: State) { LockOk(s) && TasksOk(s) && WorkersOk(s) && NotStranded(s) && Fifo(s) }

  lemma LockKeptBySubmit(s: State, i: Actor, newborn: Actor)
    requires LockOk(s) && Enabled(s, Submit(i, newborn))
    ensures LockOk(Submits(s, i, newborn))
  {
    hide Submits, HoldsLock;
    SubmitLock(s, i, newborn);
    SubmitFrame(s, i, newborn);
  }

  lemma SubmitFrame(s: State, i: Actor, newborn: Actor)
    requires i in s.submitters
    ensures var s' := Submits(s, i, newborn);
      && (forall k :: k != i ==> (k in s'.submitters <==> k in s.submitters) && (k in s.submitters ==> s'.submitters[k] == s.submitters[k]))
      && (forall j :: j != newborn ==> (j in s'.workers <==> j in s.workers) && (j in s.workers ==> s'.workers[j] == s.workers[j]))
  {
  }

  lemma SubmitLock(s: State, i: Actor, newborn: Actor)
    requires LockOk(s) && Enabled(s, Submit(i, newborn))
    ensures var s' := Submits(s, i, newborn);
      && (s'.lock == s.lock || (s.lock == BySubmitter(i) && s'.lock.Free?) || (s.lock.Free? && s'.lock == BySubmitter(i)))
      && (s'.lock == BySubmitter(i) <==> i in s'.submitters && HoldsLock(s'.submitters[i]))
      && (newborn in s'.workers ==> s'.workers[newborn] == Idle)
      && (s'.queue == s.queue || s.lock == BySubmitter(i))
  {
  }

  lemma LockKeptByWork(s: State, j: Actor)
    requires LockOk(s) && Enabled(s, Work(j))
    ensures LockOk(Works(s, j))
  {
  }

  lemma LockKept(s: State, a: Action)
    requires LockOk(s) && Enabled(s, a)
    ensures LockOk(Step(s, a))
  {
    hide Submits, Works;
    match a
    case Submit(i, newborn) => LockKeptBySubmit(s, i, newborn);
    case Work(j) => LockKeptByWork(s, j);
    case _ =>
  }

  /** How one operation of submitter `i` changes the number of submitters with property `p`. */
  lemma SubmitMoves(s: State, i: Actor, newborn: Actor, p: Submitter -> bool)
    requires i in s.submitters
    ensures var s' := Submits(s, i, newborn);
      |Those(s'.submitters, p)| == |Those(s.submitters, p)| - One(p(s.submitters[i])) + One(i in s'.submitters && p(s'.submitters[i]))
  {
    hide Those;
    var s' := Submits(s, i, newborn);
    if i in s'.submitters { Moved(s.submitters, i, s'.submitters[i], p); } else { Removed(s.submitters, i, p); }
  }

  lemma SubmitLaunches(s: State, i: Actor, newborn: Actor, p: Worker -> bool)
    requires i in s.submitters && newborn !in s.workers
    ensures |Those(Submits(s, i, newborn).workers, p)| == |Those(s.workers, p)| + One(s.submitters[i].Launching? && p(Idle))
  {
    Moved(s.workers, newborn, Idle, p);
  }

  lemma WorkMoves(s: State, j: Actor, p: Worker -> bool)
    requires j in s.workers
    ensures var s' := Works(s, j);
      |Those(s'.workers, p)| == |Those(s.workers, p)| - One(p(s.workers[j])) + One(j in s'.workers && p(s'.workers[j]))
  {
    hide Those;
    var s' := Works(s, j);
    if j in s'.workers { Moved(s.workers, j, s'.workers[j], p); } else { Removed(s.workers, j, p); }
  }

  predicate JustTook(w: Worker) { w.Taken? }

  predicate AboutToLaunch(p: Submitter) { p.Launching? }

  /** What one operation adds to taskCount, to the queue and to the callers not counted yet. */
  lemma SubmitCounts(s: State, i: Actor, newborn: Actor)
    requires i in s.submitters
    ensures var s' := Submits(s, i, newborn);
      s'.taskCount - s.taskCount + One(i in s'.submitters && Uncounted(s'.submitters[i])) == |s'.queue| - |s.queue| + One(Uncounted(s.submitters[i]))
  {
  }

  lemma WorkCounts(s: State, j: Actor)
    requires j in s.workers
    ensures var s' := Works(s, j);
      && s'.submitters == s.submitters
      && s'.taskCount - s.taskCount == |s'.queue| - |s.queue| + One(j in s'.workers && JustTook(s'.workers[j])) - One(JustTook(s.workers[j]))
  {
  }

  lemma TasksKept(s: State, a: Action)
    requires TasksOk(s) && Enabled(s, a)
    ensures TasksOk(Step(s, a))
  {
    hide Those, Submits, Works;
    match a
    case Arrive(i, t) => Moved(s.submitters, i, Entering(t), Uncounted);
    case Submit(i, newborn) =>
      SubmitMoves(s, i, newborn, Uncounted);
      SubmitLaunches(s, i, newborn, JustTook);
      SubmitCounts(s, i, newborn);
    case Work(j) =>
      WorkMoves(s, j, JustTook);
      WorkCounts(s, j);
    case SetCap(_) =>
  }

  lemma WorkersKept(s: State, a: Action)
    requires WorkersOk(s) && Enabled(s, a)
    ensures WorkersOk(Step(s, a))
  {
    hide Those;
    match a
    case Arrive(i, t) => Moved(s.submitters, i, Entering(t), AboutToLaunch);
    case Submit(i, newborn) => SubmitMoves(s, i, newborn, AboutToLaunch); SubmitLaunches(s, i, newborn, Live);
    case Work(j) => WorkMoves(s, j, Live);
    case SetCap(_) =>
  }

  /** A task is never stranded: the decrement that could strand it happens while the queue is empty. */
  lemma NotStrandedKept(s: State, a: Action)
    requires Inv(s) && Enabled(s, a)
    ensures NotStranded(Step(s, a))
  {
    hide Those, TasksOk, Fifo;
    var s' := Step(s, a);
    if s'.queue != [] {
      match a
      case Submit(i, newborn) => SubmitStrandsNothing(s, i, newborn);
      case Work(j) => WorkStrandsNothing(s, j);
      case Arrive(i, _) =>
        if s.workerCount < 1 {
          var k :| k in s.submitters && Pending(s.submitters[k]);
          assert k in s'.submitters && Pending(s'.submitters[k]);
        }
      case SetCap(_) =>
    }
  }

  lemma SubmitStrandsNothing(s: State, i: Actor, newborn: Actor)
    requires Inv(s) && Enabled(s, Submit(i, newborn))
    ensures NotStranded(Submits(s, i, newborn))
  {
    hide TasksOk, Fifo, LockOk;
    var s' := Submits(s, i, newborn);
    assert s.workerCount >= 0;
    if s'.queue != [] && s'.workerCount < 1 {
      if s.submitters[i].Launching? { SomeOf(s.submitters, AboutToLaunch, i); }
      if s.submitters[i].Locked? || Pending(s.submitters[i]) {
        assert i in s'.submitters && Pending(s'.submitters[i]);
      } else {
        var k :| k in s.submitters && Pending(s.submitters[k]);
        assert k in s'.submitters && Pending(s'.submitters[k]);
      }
    }
  }

  lemma WorkStrandsNothing(s: State, j: Actor)
    requires Inv(s) && Enabled(s, Work(j))
    ensures NotStranded(Works(s, j))
  {
    hide TasksOk, Fifo, WorkersOk;
  }

  lemma FifoKept(s: State, a: Action)
    requires Fifo(s) && Enabled(s, a)
    ensures Fifo(Step(s, a))
  {
  }

  lemma StepKeepsInv(s: State, a: Action)
    requires Inv(s) && Enabled(s, a)
    ensures Inv(Step(s, a))
  {
    hide LockOk, TasksOk, WorkersOk, NotStranded, Fifo, Step, Enabled;
    LockKept(s, a);
    TasksKept(s, a);
    WorkersKept(s, a);
    NotStrandedKept(s, a);
    FifoKept(s, a);
  }

  // ---- every run --------------------------------------------------------------------------

  datatype Run = Run(states: seq<State>, actions: seq<Action>)

  ghost predicate IsRun(r: Run) {
    && |r.states| == |r.actions| + 1 && Init(r.states[0])
    && forall k | 0 <= k < |r.actions| :: Enabled(r.states[k], r.actions[k]) && r.states[k + 1] == Step(r.states[k], r.actions[k])
  }

  lemma {:induction false} RunKeepsInv(r: Run, k: nat)
    requires IsRun(r) && k < |r.states|
    ensures Inv(r.states[k])
  {
    hide Inv, Step, Enabled;
    if k == 0 {
      InitInv(r.states[0]);
    } else {
      RunKeepsInv(r, k - 1);
      StepKeepsInv(r.states[k - 1], r.actions[k - 1]);
    }
  }

  lemma InitInv(s: State)
    requires Init(s)
    ensures Inv(s)
  {
    assert Those(s.submitters, Uncounted) == {} && Those(s.workers, JustTook) == {};
    assert Those(s.workers, Live) == {} && Those(s.submitters, AboutToLaunch) == {};
  }

  /** A worker that will come back to the queue before it can close. */
  predicate WillLook(w: Worker) { !w.SawEmpty? && !w.Closing? }

  /**
    No stranded task: at every atomic step of every run, while the queue holds a task, some live worker will
    look at the queue again, or some submitter is about to launch one or still has to decide.
   */
  lemma NoTaskIsStranded(r: Run, k: nat)
    requires IsRun(r) && k < |r.states| && r.states[k].queue != []
    ensures var s := r.states[k];
      || (exists j :: j in s.workers && WillLook(s.workers[j]))
      || (exists i :: i in s.submitters && (Pending(s.submitters[i]) || s.submitters[i].Launching?))
  {
    hide IsRun, TasksOk, Fifo;
    RunKeepsInv(r, k);
    var s := r.states[k];
    if s.workerCount >= 1 {
      if |Those(s.submitters, AboutToLaunch)| >= 1 {
        var i :| i in Those(s.submitters, AboutToLaunch);
      } else {
        var j :| j in Those(s.workers, Live);
        assert j in s.workers && WillLook(s.workers[j]);
      }
    }
  }

  /** When nobody is inside the pool any more, it is empty and both counters are back at zero. */
  lemma QuietPoolIsEmpty(r: Run, k: nat)
    requires IsRun(r) && k < |r.states| && r.states[k].submitters == map[] && r.states[k].workers == map[]
    ensures var s := r.states[k]; s.queue == [] && s.taskCount == 0 && s.workerCount == 0 && s.taken == s.submitted
  {
    hide IsRun;
    RunKeepsInv(r, k);
    var s := r.states[k];
    assert Those(s.submitters, Uncounted) == {} && Those(s.workers, JustTook) == {};
    assert Those(s.workers, Live) == {} && Those(s.submitters, AboutToLaunch) == {};
  }

  /** Tasks are taken in the order of submission, each once, and the counter is exact up to operations under way. */
  lemma TasksAreConserved(r: Run, k: nat)
    requires IsRun(r) && k < |r.states|
    ensures var s := r.states[k];
      && s.taken <= s.submitted && s.queue == s.submitted[|s.taken|..]
      && s.taskCount == |s.queue| + |Those(s.workers, JustTook)| - |Those(s.submitters, Uncounted)|
      && |Those(s.workers, JustTook)| <= 1
  {
    hide IsRun, NotStranded, WorkersOk;
    RunKeepsInv(r, k);
    var s := r.states[k];
    if j :| j in Those(s.workers, JustTook) {
      assert Those(s.workers, JustTook) == {j};
    } else {
      assert Those(s.workers, JustTook) == {};
    }
  }

  // ---- the worker bound -------------------------------------------------------------------

  /** Has read a worker count that will make it spawn under any cap up to `c`. */
  ghost function Decided(c: int): Submitter -> bool { (p: Submitter) => p.Spawning? || (p.ReadCap? && p.workers < c) }

  ghost function Max(x: int, y: int): int { if x < y then y else x }

  ghost predicate Bounded(s: State, c: int, n: nat) {
    s.workerCount + |Those(s.submitters, Decided(c))| <= Max(c, 1) + n - 1
  }

  lemma OthersDecided(m: map<Actor, Submitter>, i: Actor, p: Submitter -> bool)
    requires i in m && !p(m[i])
    ensures |Those(m, p)| <= |m| - 1
  {
    var rest := m.Keys - {i};
    assert Those(m, p) <= rest;
    assert rest == Those(m, p) + (rest - Those(m, p));
    assert m.Keys == rest + {i};
  }

  lemma BoundKept(s: State, a: Action, c: int, n: nat)
    requires Enabled(s, a) && Bounded(s, c, n) && s.cap <= c && |s.submitters| <= n
    ensures Bounded(Step(s, a), c, n)
  {
    hide Those;
    match a
    case Arrive(i, t) => Moved(s.submitters, i, Entering(t), Decided(c));
    case Submit(i, newborn) =>
      SubmitMoves(s, i, newborn, Decided(c));
      if !Decided(c)(s.submitters[i]) { OthersDecided(s.submitters, i, Decided(c)); }
    case Work(j) =>
    case SetCap(_) =>
  }

  /**
    The worker bound: as long as no cap above `c` is set and at most `n` callers are inside CtxGo at once,
    the workers and those about to be spawned never exceed max(c, 1) + n - 1.
   */
  lemma {:induction false} WorkersAreBounded(r: Run, k: nat, c: int, n: nat)
    requires IsRun(r) && k < |r.states|
    requires forall j | 0 <= j < k :: r.states[j].cap <= c && |r.states[j].submitters| <= n
    ensures Bounded(r.states[k], c, n) && r.states[k].workerCount <= (if c < 1 then 1 else c) + n - 1
  {
    hide Step, Enabled;
    if k == 0 {
      InitBounded(r.states[0], c, n);
    } else {
      WorkersAreBounded(r, k - 1, c, n);
      BoundKept(r.states[k - 1], r.actions[k - 1], c, n);
    }
  }

  lemma InitBounded(s: State, c: int, n: nat)
    requires Init(s)
    ensures Bounded(s, c, n)
  {
    assert Those(s.submitters, Decided(c)) == {};
  }
}
