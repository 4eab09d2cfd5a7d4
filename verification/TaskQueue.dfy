/**
  The pool's intrusive task queue on the heap (gopool/pool.go, gopool/worker.go): task nodes linked
  through `next`, `taskTail` left stale when the queue empties, and nodes recycled after they ran.
  Each method is one critical section of taskLock or one operation of the node pool.
 */
module TaskQueue {

  class Task {
    var f: nat
    var next: Task?

    constructor ()
      ensures next == null
    {
      f, next := 0, null;
    }
  }

  class Pool {
    var taskHead: Task?
    var taskTail: Task?
    var recycled: set<Task>       // the sync.Pool of task nodes
    ghost var queued: seq<Task>   // the nodes from taskHead on
    ghost var held: set<Task>     // nodes a submitter took and has not enqueued
    ghost var running: set<Task>  // nodes a worker took and has not recycled

    /** taskTail says nothing while the queue is empty. */
    ghost predicate Linked()
      reads this, queued
    {
      && taskHead == (if queued == [] then null else queued[0])
      && (queued != [] ==> taskTail == queued[|queued| - 1])
      && (forall k | 0 <= k < |queued| - 1 :: queued[k].next == queued[k + 1])
      && (queued != [] ==> queued[|queued| - 1].next == null)
      && (forall j, k | 0 <= j < k < |queued| :: queued[j] != queued[k])
    }

    /** A node is in the queue, with a submitter, with a worker or recycled, but never in two places. */
    ghost predicate Apart()
      reads this
    {
      && held !! recycled && held !! running && recycled !! running
      && forall t | t in queued :: t !in held && t !in recycled && t !in running
    }

    ghost predicate Valid()
      reads this, queued, held, recycled
    {
      Linked() && Apart() && (forall t | t in held :: t.next == null) && (forall t | t in recycled :: t.next == null)
    }

    ghost function Contents(): seq<nat>
      reads this, queued
    {
      seq(|queued|, k requires 0 <= k < |queued| reads this, queued => queued[k].f)
    }

    constructor ()
      ensures Valid() && Contents() == [] && held == {} && running == {} && recycled == {}
    {
      taskHead, taskTail, recycled := null, null, {};
      queued, held, running := [], {}, {};
    }

    /** taskPool.Get: any recycled node, or a new one. */
    method Get(reuse: bool) returns (t: Task)
      requires Valid()
      modifies this`recycled, this`held
      ensures Valid() && t !in old(held) && held == old(held) + {t} && t !in old(queued) && t !in running
      ensures recycled == old(recycled) - {t} && (t in old(recycled) || fresh(t))
    {
      if reuse && recycled != {} {
        t :| t in recycled;
        recycled := recycled - {t};
      } else {
        t := new Task();
      }
      held := held + {t};
    }

    /** The critical section of CtxGo. */
    method Enqueue(t: Task)
      requires Valid() && t in held
      modifies this`taskHead, this`taskTail, this`queued, this`held, queued`next
      ensures Valid() && queued == old(queued) + [t] && held == old(held) - {t}
      ensures Contents() == old(Contents()) + [t.f]
    {
      if taskHead == null {
        taskHead := t;
        taskTail := t;
      } else {
        taskTail.next := t;
        taskTail := t;
      }
      queued := queued + [t];
      held := held - {t};
    }

    /** The critical section of run: the head leaves the queue; its `next` is not cleared yet. */
    method Dequeue() returns (t: Task?)
      requires Valid()
      modifies this`taskHead, this`queued, this`running
      ensures Valid()
      ensures t == null <==> old(queued) == []
      ensures t == null ==> queued == [] && running == old(running)
      ensures t != null ==> t == old(queued)[0] && queued == old(queued)[1..] && running == old(running) + {t}
      ensures t != null ==> old(Contents()) == [t.f] + Contents()
    {
      t := null;
      if taskHead != null {
        t := taskHead;
        taskHead := taskHead.next;
        queued := queued[1..];
        running := running + {t};
      }
    }

    /** Recycle: only now is the node's link cut, and the queue does not notice. */
    method Recycle(t: Task)
      requires Valid() && t in running
      modifies this`recycled, this`running, t
      ensures Valid() && queued == old(queued) && Contents() == old(Contents())
      ensures recycled == old(recycled) + {t} && running == old(running) - {t}
    {
      t.next := null;
      t.f := 0;
      recycled := recycled + {t};
      running := running - {t};
    }

    /** CtxGo as far as the unlock: the queue gains exactly the submitted function, at its end. */
    method Submit(f: nat, reuse: bool) returns (t: Task)
      requires Valid()
      modifies this`recycled, this`held, this`taskHead, this`taskTail, this`queued, queued`next, recycled`f
      ensures Valid() && Contents() == old(Contents()) + [f] && queued == old(queued) + [t]
      ensures held == old(held) && running == old(running)
    {
      t := Get(reuse);
      t.f := f;
      Enqueue(t);
    }
  }
}
