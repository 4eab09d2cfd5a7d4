/** What becomes of each task handed to the pool, and exactly when a caller starts another worker. */
module PoolRuns {
  import opened PoolMachine

  // ---- every call runs its task once ------------------------------------------------------

  /** How often CtxGo was called with task `t`. */
  ghost function Calls(actions: seq<Action>, t: Task): nat {
    if actions == [] then 0
    else
      var last := actions[|actions| - 1];
      Calls(actions[..|actions| - 1], t) + if last.Arrive? && last.task == t then 1 else 0
  }

  /** A caller that has yet to enqueue `t`, and a worker that has yet to run it. */
  ghost function Brings(t: Task): Submitter -> bool { (p: Submitter) => (p.Entering? || p.Locked?) && p.task == t }

  ghost function InHand(t: Task): Worker -> bool { (w: Worker) => (w.Taken? || w.Holding? || w.Running?) && w.task == t }

  /** Where the calls of `t` have got to. */
  ghost function Accounted(s: State, t: Task): nat {
    |Those(s.submitters, Brings(t))| + multiset(s.queue)[t] + |Those(s.workers, InHand(t))| + multiset(s.ran)[t]
  }

  lemma SubmitAccount(s: State, i: Actor, newborn: Actor, t: Task)
    requires i in s.submitters && newborn !in s.workers
    ensures Accounted(Submits(s, i, newborn), t) == Accounted(s, t)
  {
    hide Those, Submits;
    SubmitMoves(s, i, newborn, Brings(t));
    SubmitLaunches(s, i, newborn, InHand(t));
    SubmitQueues(s, i, newborn, t);
    SubmitBrings(s, i, newborn, t);
  }

  lemma SubmitBrings(s: State, i: Actor, newborn: Actor, t: Task)
    requires i in s.submitters
    ensures var s' := Submits(s, i, newborn); var p := s.submitters[i];
      One(Brings(t)(p)) == One(i in s'.submitters && Brings(t)(s'.submitters[i])) + One(p.Locked? && p.task == t)
  {
  }

  lemma WorkAccount(s: State, j: Actor, t: Task)
    requires j in s.workers
    ensures Accounted(Works(s, j), t) == Accounted(s, t)
  {
    hide Those, Works;
    WorkMoves(s, j, InHand(t));
    WorkTakes(s, j, t);
    WorkHands(s, j, t);
  }

  lemma WorkHands(s: State, j: Actor, t: Task)
    requires j in s.workers
    ensures var s' := Works(s, j); var w := s.workers[j];
      && s'.submitters == s.submitters
      && One(InHand(t)(w)) + One(w.Looking? && s.queue != [] && s.queue[0] == t)
         == One(j in s'.workers && InHand(t)(s'.workers[j])) + One(w.Running? && w.task == t)
  {
  }

  lemma AccountKept(s: State, a: Action, t: Task)
    requires Enabled(s, a)
    ensures Accounted(Step(s, a), t) == Accounted(s, t) + if a.Arrive? && a.task == t then 1 else 0
  {
    hide Those, Submits, Works;
    match a
    case Arrive(i, u) => Moved(s.submitters, i, Entering(u), Brings(t));
    case Submit(i, newborn) => SubmitAccount(s, i, newborn, t);
    case Work(j) => WorkAccount(s, j, t);
    case SetCap(_) =>
  }

  lemma SubmitQueues(s: State, i: Actor, newborn: Actor, t: Task)
    requires i in s.submitters
    ensures var p := s.submitters[i]; var s' := Submits(s, i, newborn);
      multiset(s'.queue)[t] == multiset(s.queue)[t] + (if p.Locked? && p.task == t then 1 else 0) && s'.ran == s.ran
  {
  }

  lemma WorkTakes(s: State, j: Actor, t: Task)
    requires j in s.workers
    ensures var s' := Works(s, j); var w := s.workers[j];
      && multiset(s'.queue)[t] == multiset(s.queue)[t] - (if w.Looking? && s.queue != [] && s.queue[0] == t then 1 else 0)
      && multiset(s'.ran)[t] == multiset(s.ran)[t] + (if w.Running? && w.task == t then 1 else 0)
  {
    if s.queue != [] { assert s.queue == [s.queue[0]] + s.queue[1..]; }
  }

  /**
    Every call of CtxGo runs its task exactly once: at every atomic step of every run, each call's task is with its
    caller, in the queue, with one worker, or has run.
   */
  lemma {:induction false} EveryCallIsAccountedFor(r: Run, k: nat, t: Task)
    requires IsRun(r) && k < |r.states|
    ensures Calls(r.actions[..k], t) == Accounted(r.states[k], t)
  {
    hide Step, Enabled, Accounted;
    if k == 0 {
      NothingYet(r.states[0], t);
    } else {
      EveryCallIsAccountedFor(r, k - 1, t);
      AccountKept(r.states[k - 1], r.actions[k - 1], t);
      assert r.actions[..k][..k - 1] == r.actions[..k - 1];
    }
  }

  lemma NothingYet(s: State, t: Task)
    requires Init(s)
    ensures Accounted(s, t) == 0
  {
    assert Those(s.submitters, Brings(t)) == {} && Those(s.workers, InHand(t)) == {};
  }

  /** When nobody is inside the pool any more, every task has run as often as it was handed in. */
  lemma QuietPoolRanEverything(r: Run, k: nat, t: Task)
    requires IsRun(r) && k < |r.states| && r.states[k].submitters == map[] && r.states[k].workers == map[]
    ensures multiset(r.states[k].ran)[t] == Calls(r.actions[..k], t)
  {
    hide IsRun;
    EveryCallIsAccountedFor(r, k, t);
    QuietPoolIsEmpty(r, k);
    var s := r.states[k];
    assert Those(s.submitters, Brings(t)) == {} && Those(s.workers, InHand(t)) == {};
  }

  // ---- when a caller starts a worker ------------------------------------------------------

  predicate Deciding(p: Submitter) { p.Loading? || p.ReadWorkers? || p.ReadCap? || p.ReadZero? }

  function Rank(p: Submitter): nat {
    match p
    case Loading => 4
    case ReadWorkers => 3
    case ReadCap(_) => 2
    case ReadZero => 1
    case _ => 0
  }

  lemma DecidingGoesOn(s: State, i: Actor, newborn: Actor)
    requires i in s.submitters && Deciding(s.submitters[i])
    ensures var s' := Submits(s, i, newborn); i in s'.submitters ==> Rank(s'.submitters[i]) < Rank(s.submitters[i])
  {
  }

  /** The caller makes its decision with nobody else in between. */
  ghost function Decides(s: State, i: Actor): State
    requires i in s.submitters
    decreases Rank(s.submitters[i])
  {
    if !Deciding(s.submitters[i]) then s
    else
      var s' := Submits(s, i, 0);
      DecidingGoesOn(s, i, 0);
      if i in s'.submitters then Decides(s', i) else s'
  }

  /**
    Undisturbed, a caller goes on to start a worker exactly if the queue is long enough and the cap allows it, or there
    is no worker; otherwise it returns.
   */
  lemma SpawnsIff(s: State, i: Actor)
    requires i in s.submitters && s.submitters[i] == Loading
    ensures Decides(s, i).submitters ==
      if (s.taskCount >= s.threshold && s.workerCount < s.cap) || s.workerCount == 0 then s.submitters[i := Spawning] else s.submitters - {i}
    ensures Decides(s, i) == s.(submitters := Decides(s, i).submitters)
  {
    hide Decides, Submits;
    DecidesNext(s, i);
    ReadsNext(s, i);
    var s1 := Submits(s, i, 0);
    if s.taskCount >= s.threshold {
      DecidesNext(s1, i);
      ReadsNext(s1, i);
      CapDecides(Submits(s1, i, 0), i);
      assert s.submitters[i := ReadWorkers][i := ReadCap(s.workerCount)] == s.submitters[i := ReadCap(s.workerCount)];
      assert s.submitters[i := ReadCap(s.workerCount)] - {i} == s.submitters - {i};
    } else {
      ZeroDecides(s1, i);
      assert s.submitters[i := ReadZero] - {i} == s.submitters - {i};
    }
  }

  lemma DecidesNext(s: State, i: Actor)
    requires i in s.submitters && Deciding(s.submitters[i])
    ensures var s' := Submits(s, i, 0); Decides(s, i) == if i in s'.submitters then Decides(s', i) else s'
  {
  }

  /** Loading the task count and reading the worker count change nothing but where the caller is. */
  lemma ReadsNext(s: State, i: Actor)
    requires i in s.submitters
    ensures s.submitters[i].Loading? ==> Submits(s, i, 0) == Goes(s, i, if s.taskCount >= s.threshold then ReadWorkers else ReadZero)
    ensures s.submitters[i].ReadWorkers? ==> Submits(s, i, 0) == Goes(s, i, ReadCap(s.workerCount))
  {
  }

  lemma ZeroDecides(s: State, i: Actor)
    requires i in s.submitters && s.submitters[i] == ReadZero
    ensures Decides(s, i) == s.(submitters := if s.workerCount == 0 then s.submitters[i := Spawning] else s.submitters - {i})
  {
  }

  lemma CapDecides(s: State, i: Actor)
    requires i in s.submitters && s.submitters[i].ReadCap? && s.submitters[i].workers == s.workerCount
    ensures Decides(s, i) ==
      s.(submitters := if s.workerCount < s.cap || s.workerCount == 0 then s.submitters[i := Spawning] else s.submitters - {i})
  {
    DecidesNext(s, i);
    if s.workerCount >= s.cap {
      ZeroDecides(Submits(s, i, 0), i);
      assert s.submitters[i := ReadZero] - {i} == s.submitters - {i};
    }
  }

  // ---- ... and over runs, whatever happens in between -------------------------------------

  ghost predicate DecidesSince(r: Run, j: nat, k: nat, i: Actor)
    requires |r.states| == |r.actions| + 1 && k < |r.states|
  {
    forall n | j <= n <= k :: i in r.states[n].submitters && Deciding(r.states[n].submitters[i])
  }

  /** At step j, caller i of the call still under way at state k loaded the task count. */
  ghost predicate LoadsAt(r: Run, j: nat, k: nat, i: Actor)
    requires |r.states| == |r.actions| + 1 && k < |r.states|
  {
    && j < k && r.actions[j].Submit? && r.actions[j].i == i && DecidesSince(r, j, k, i) && r.states[j].submitters[i] == Loading
  }

  /** At step q, in between, it read the worker count. */
  ghost predicate ReadsWorkersAt(r: Run, j: nat, q: nat, k: nat, i: Actor)
    requires |r.states| == |r.actions| + 1 && k < |r.states|
  {
    j < q < k && r.actions[q].Submit? && r.actions[q].i == i && DecidesSince(r, j, k, i) && r.states[q].submitters[i] == ReadWorkers
  }

  /** At step p, after that, it read the cap. */
  ghost predicate ReadsCapAt(r: Run, q: nat, p: nat, k: nat, i: Actor)
    requires |r.states| == |r.actions| + 1 && k < |r.states|
  {
    q < p < k && r.actions[p].Submit? && r.actions[p].i == i && DecidesSince(r, q, k, i) && r.states[p].submitters[i].ReadCap?
  }

  /** How a caller came to where it is: it was there before, or its own last operation brought it there. */
  lemma CameFrom(s: State, a: Action, i: Actor)
    requires Enabled(s, a) && i in Step(s, a).submitters
    requires var p := Step(s, a).submitters[i]; p.ReadWorkers? || p.ReadCap? || p.ReadZero? || p.Spawning?
    ensures i in s.submitters
    ensures var before, now := s.submitters[i], Step(s, a).submitters[i];
      before == now || (
        && a.Submit? && a.i == i
        && (now.ReadWorkers? ==> before.Loading? && s.taskCount >= s.threshold)
        && (now.ReadCap? ==> before.ReadWorkers? && now.workers == s.workerCount)
        && (now.ReadZero? ==> (before.Loading? && s.taskCount < s.threshold) || (before.ReadCap? && before.workers >= s.cap))
        && (now.Spawning? ==> (before.ReadCap? && before.workers < s.cap) || (before.ReadZero? && s.workerCount == 0)))
  {
    if a.Submit? { SubmitFrame(s, a.i, a.newborn); }
  }

  lemma DecidesOn(r: Run, j: nat, k: nat, i: Actor)
    requires IsRun(r) && k < |r.actions| && DecidesSince(r, j, k, i)
    requires i in r.states[k + 1].submitters && Deciding(r.states[k + 1].submitters[i])
    ensures DecidesSince(r, j, k + 1, i)
  {
    hide IsRun;
  }

  lemma {:induction false} WhyReadsWorkers(r: Run, k: nat, i: Actor) returns (j: nat)
    requires IsRun(r) && k < |r.states| && i in r.states[k].submitters && r.states[k].submitters[i].ReadWorkers?
    ensures LoadsAt(r, j, k, i) && r.states[j].taskCount >= r.states[j].threshold
  {
    hide Step, Enabled;
    CameFrom(r.states[k - 1], r.actions[k - 1], i);
    if r.states[k - 1].submitters[i].ReadWorkers? {
      j := WhyReadsWorkers(r, k - 1, i);
    } else {
      j := k - 1;
    }
    DecidesOn(r, j, k - 1, i);
  }

  lemma {:induction false} WhyReadsCap(r: Run, k: nat, i: Actor) returns (j: nat, q: nat)
    requires IsRun(r) && k < |r.states| && i in r.states[k].submitters && r.states[k].submitters[i].ReadCap?
    ensures LoadsAt(r, j, k, i) && r.states[j].taskCount >= r.states[j].threshold
    ensures ReadsWorkersAt(r, j, q, k, i) && r.states[q].workerCount == r.states[k].submitters[i].workers
  {
    hide Step, Enabled;
    CameFrom(r.states[k - 1], r.actions[k - 1], i);
    if r.states[k - 1].submitters[i].ReadCap? {
      j, q := WhyReadsCap(r, k - 1, i);
    } else {
      j := WhyReadsWorkers(r, k - 1, i);
      q := k - 1;
    }
    DecidesOn(r, j, k - 1, i);
  }

  lemma {:induction false} WhyReadsZero(r: Run, k: nat, i: Actor) returns (j: nat, q: nat, p: nat)
    requires IsRun(r) && k < |r.states| && i in r.states[k].submitters && r.states[k].submitters[i].ReadZero?
    ensures LoadsAt(r, j, k, i)
    ensures r.states[j].taskCount < r.states[j].threshold
         || (ReadsWorkersAt(r, j, q, k, i) && ReadsCapAt(r, q, p, k, i) && r.states[q].workerCount >= r.states[p].cap)
  {
    hide Step, Enabled;
    CameFrom(r.states[k - 1], r.actions[k - 1], i);
    if r.states[k - 1].submitters[i].ReadZero? {
      j, q, p := WhyReadsZero(r, k - 1, i);
    } else if r.states[k - 1].submitters[i].ReadCap? {
      j, q := WhyReadsCap(r, k - 1, i);
      p := k - 1;
    } else {
      j, q, p := k - 1, 0, 0;
    }
    DecidesOn(r, j, k - 1, i);
  }

  /**
    In every run, a caller that returns without having launched a worker read a worker count other than zero at last;
    and it loaded a task count below the threshold, or read a worker count that was not below the cap it read next.
   */
  lemma LeavesOnlyIf(r: Run, k: nat, i: Actor) returns (j: nat, q: nat, p: nat)
    requires IsRun(r) && k < |r.actions| && i in r.states[k].submitters && i !in r.states[k + 1].submitters
    requires r.states[k + 1].workers == r.states[k].workers
    ensures r.states[k].workerCount != 0 && LoadsAt(r, j, k, i)
    ensures r.states[j].taskCount < r.states[j].threshold
         || (ReadsWorkersAt(r, j, q, k, i) && ReadsCapAt(r, q, p, k, i) && r.states[q].workerCount >= r.states[p].cap)
  {
    Leaving(r.states[k], r.actions[k], i);
    hide Step, Enabled;
    j, q, p := WhyReadsZero(r, k, i);
  }

  lemma Leaving(s: State, a: Action, i: Actor)
    requires Enabled(s, a) && i in s.submitters && i !in Step(s, a).submitters && Step(s, a).workers == s.workers
    ensures s.submitters[i].ReadZero? && s.workerCount != 0
  {
    if a.Submit? {
      SubmitFrame(s, a.i, a.newborn);
      assert a.newborn in s.workers[a.newborn := Idle];
    }
  }

  /** ... and one that decides to launch a worker read zero workers, or a long enough queue and fewer workers than the cap. */
  lemma SpawnsOnlyIf(r: Run, k: nat, i: Actor) returns (j: nat, q: nat)
    requires IsRun(r) && k < |r.actions| && i in r.states[k].submitters && i in r.states[k + 1].submitters
    requires !r.states[k].submitters[i].Spawning? && r.states[k + 1].submitters[i].Spawning?
    ensures r.states[k].workerCount == 0
         || (LoadsAt(r, j, k, i) && r.states[j].taskCount >= r.states[j].threshold
             && ReadsWorkersAt(r, j, q, k, i) && r.states[q].workerCount < r.states[k].cap)
  {
    hide Step, Enabled;
    CameFrom(r.states[k], r.actions[k], i);
    j, q := 0, 0;
    if r.states[k].submitters[i].ReadCap? { j, q := WhyReadsCap(r, k, i); }
  }

  /** The cap is the one set last; the threshold never changes. */
  lemma {:induction false} CapIsTheOneSet(r: Run, j: nat, k: nat, c: int)
    requires IsRun(r) && j < k < |r.states| && r.actions[j] == SetCap(c) && forall n | j < n < k :: !r.actions[n].SetCap?
    ensures r.states[k].cap == c && r.states[k].threshold == r.states[j].threshold
    decreases k
  {
    hide Init;
    assert Enabled(r.states[k - 1], r.actions[k - 1]) && r.states[k] == Step(r.states[k - 1], r.actions[k - 1]);
    if j + 1 < k { CapIsTheOneSet(r, j, k - 1, c); }
  }
}
