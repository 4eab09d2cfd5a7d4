/**
  The Group of concurrency/singlefilgt.go on the heap. Every locked section is a method, and each is proved to make
  exactly one step of the machine in module Flight.
 */
module Singleflight {
  import opened Flight

  /** A result channel with one slot. */
  class Pipe {
    var buf: seq<Result>

    constructor ()
      ensures buf == []
    {
      buf := [];
    }

    /** Sends without blocking: the slot must be free. */
    method Send(r: Result)
      requires |buf| < 1
      modifies this
      ensures buf == old(buf) + [r]
    {
      buf := buf + [r];
    }
  }

  class Job {
    var outcome: Outcome
    var dups: nat
    var pipes: seq<Pipe>

    constructor (pipes: seq<Pipe>)
      ensures outcome == Running && dups == 0 && this.pipes == pipes
    {
      this.outcome, this.dups, this.pipes := Running, 0, pipes;
    }
  }

  /** A call's channel list, as objects. */
  ghost predicate Lists(list: seq<Pipe>, chans: seq<Chan>, pipes: seq<Pipe>) {
    |list| == |chans| && forall n :: 0 <= n < |chans| ==> chans[n] < |pipes| && pipes[chans[n]] == list[n]
  }

  ghost predicate Same(job: Job, c: Call, pipes: seq<Pipe>)
    reads job
  {
    job.outcome == c.outcome && job.dups == c.dups && Lists(job.pipes, c.chans, pipes)
  }

  ghost predicate Apart<T>(objects: seq<T>) { forall i, j :: 0 <= i < j < |objects| ==> objects[i] != objects[j] }

  ghost predicate Numbered(v: State, jobs: seq<Job>, pipes: seq<Pipe>) {
    && (forall i :: i in v.calls <==> 0 <= i < |jobs|)
    && (forall h :: h in v.chans <==> 0 <= h < |pipes|)
  }

  ghost predicate Registered(m: map<Key, Job>, v: State, jobs: seq<Job>) {
    m.Keys == v.m.Keys && forall k :: k in m ==> v.m[k] < |jobs| && jobs[v.m[k]] == m[k]
  }

  ghost predicate JobsMatch(v: State, jobs: seq<Job>, pipes: seq<Pipe>)
    reads jobs
  {
    forall i: CallId :: i < |jobs| && i in v.calls ==> Same(jobs[i], v.calls[i], pipes)
  }

  /** All jobs but one match. */
  ghost predicate OthersMatch(v: State, jobs: seq<Job>, pipes: seq<Pipe>, i: CallId)
    reads set j | 0 <= j < |jobs| && j != i :: jobs[j]
  {
    forall j: CallId :: j < |jobs| && j != i && j in v.calls ==> Same(jobs[j], v.calls[j], pipes)
  }

  ghost predicate PipesMatch(chans: map<Chan, Channel>, pipes: seq<Pipe>)
    reads pipes
  {
    forall h: Chan :: h < |pipes| && h in chans ==> pipes[h].buf == chans[h].buf
  }

  /** DoChan brings one new channel, Do none. */
  ghost predicate Grown(p: Party, pipes: seq<Pipe>, pipes2: seq<Pipe>) {
    if p.ByDo? then pipes2 == pipes else p.ch == |pipes| && |pipes2| == |pipes| + 1 && pipes <= pipes2
  }

  lemma ListsGrow(list: seq<Pipe>, chans: seq<Chan>, pipes: seq<Pipe>, p: Pipe)
    requires Lists(list, chans, pipes)
    ensures Lists(list, chans, pipes + [p])
    ensures Lists(list + [p], chans + [|pipes|], pipes + [p])
  {
  }

  class Group {
    var m: map<Key, Job>

    /** The machine's state, and the call and channel objects by their numbers in it. */
    ghost var view: State
    ghost var jobs: seq<Job>
    ghost var pipes: seq<Pipe>

    ghost predicate Valid()
      reads this, jobs, pipes
    {
      && Inv(view) && Numbered(view, jobs, pipes) && Registered(m, view, jobs)
      && Apart(jobs) && Apart(pipes)
      && JobsMatch(view, jobs, pipes) && PipesMatch(view.chans, pipes)
    }

    constructor ()
      ensures Valid() && Init(view)
    {
      m := map[];
      view := State(map[], map[], map[], map[], map[]);
      jobs, pipes := [], [];
      new;
      InitInv(view);
    }

    /** The machine state `t` after `who` enters, and its channel list. */
    ghost predicate Entering(key: Key, who: Party, list: seq<Pipe>, t: State)
      reads this, pipes, list
    {
      var i := Target(view, key, |jobs|);
      && Inv(t) && t.m == view.m[key := i]
      && (key in view.m ==> i in view.calls)
      && t.calls == view.calls[i := if key in view.m then Joined(view.calls[i], who) else Started(key, who)]
      && Grown(who, pipes, pipes + list)
      && Apart(pipes + list) && PipesMatch(t.chans, pipes + list)
      && forall h :: h in t.chans <==> 0 <= h < |pipes + list|
    }

    /** A key in flight: count the duplicate and keep its channel. */
    method Join(key: Key, list: seq<Pipe>, ghost who: Party, ghost t: State) returns (c: Job)
      requires Valid() && key in m && Entering(key, who, list, t)
      modifies this`view, this`pipes, m[key]
      ensures Valid() && view == t && pipes == old(pipes) + list && c == m[key]
    {
      hide Inv, Joined, Started, Numbered, Registered, Apart, JobsMatch, OthersMatch, PipesMatch, Lists;
      c := m[key];
      ghost var v := view;
      ghost var i := FindsJob(m, v, jobs, pipes, key);
      Singled(v, jobs, pipes, i);
      Distinguished(jobs, i);
      c.dups := c.dups + 1;
      c.pipes := c.pipes + list;
      JoinsList(v.calls[i], who, old(c.pipes), pipes, list);
      JobJoined(v, t, jobs, pipes, pipes + list, i, who);
      Entered(m, m, v, t, jobs, jobs, pipes, pipes + list, i, key);
      pipes := pipes + list;
      view := t;
    }

    /** A key not in flight: register a new call. */
    method Start(key: Key, list: seq<Pipe>, ghost who: Party, ghost t: State) returns (c: Job)
      requires Valid() && key !in m && Entering(key, who, list, t)
      modifies this
      ensures Valid() && view == t && pipes == old(pipes) + list
      ensures fresh(c) && jobs == old(jobs) + [c] && m == old(m)[key := c] && c.pipes == list
    {
      hide Inv, Joined, Started, Numbered, Registered, Apart, JobsMatch, PipesMatch, Lists;
      EntryEnabled(m, view, jobs, pipes);
      c := new Job(list);
      m := m[key := c];
      ghost var v, i := view, |jobs|;
      JobAdded(v, t, jobs, pipes, pipes + list, c, key, who);
      Entered(old(m), m, v, t, jobs, jobs + [c], pipes, pipes + list, i, key);
      jobs := jobs + [c];
      pipes := pipes + list;
      view := t;
    }

    /** The locked section of Do: the caller joins the call in flight and will wait, or leads a new one. */
    method EnterDo(key: Key, ghost g: Caller) returns (c: Job, leads: bool)
      requires Valid() && g !in view.callers
      modifies this, if key in m then {m[key]} else {}
      ensures Valid() && pipes == old(pipes)
      ensures view == Step(old(view), Do(g, key, |old(jobs)|))
      ensures leads <==> key !in old(m)
      ensures if leads then fresh(c) && jobs == old(jobs) + [c] else c == old(m[key]) && jobs == old(jobs)
    {
      hide Inv, Step, Joined, Started, Numbered, Registered, Apart, JobsMatch, PipesMatch, Lists;
      EntryEnabled(m, view, jobs, pipes);
      ghost var t := Step(view, Do(g, key, |jobs|));
      StepKeepsInv(view, Do(g, key, |jobs|));
      DoEnters(view, g, key, |jobs|);
      ChansNumbered(view, jobs, pipes);
      assert pipes + [] == pipes;
      leads := key !in m;
      if leads {
        c := Start(key, [], ByDo(g), t);
      } else {
        c := Join(key, [], ByDo(g), t);
      }
    }

    /** The locked section of DoChan: a new channel, listed by the call in flight or by a new one that a goroutine will run. */
    method EnterDoChan(key: Key) returns (ch: Pipe, c: Job, leads: bool)
      requires Valid()
      modifies this, if key in m then {m[key]} else {}
      ensures Valid() && fresh(ch) && pipes == old(pipes) + [ch]
      ensures view == Step(old(view), DoChan(|old(pipes)|, key, |old(jobs)|))
      ensures leads <==> key !in old(m)
      ensures if leads then fresh(c) && jobs == old(jobs) + [c] else c == old(m[key]) && jobs == old(jobs)
    {
      hide Inv, Step, Joined, Started, Numbered, Registered, JobsMatch, PipesMatch, Lists;
      EntryEnabled(m, view, jobs, pipes);
      ch := new Pipe();
      ghost var t := Step(view, DoChan(|pipes|, key, |jobs|));
      StepKeepsInv(view, DoChan(|pipes|, key, |jobs|));
      DoChanEnters(view, |pipes|, key, |jobs|);
      ChansNumbered(view, jobs, pipes);
      NewChannel(view.chans, pipes, ch, Target(view, key, |jobs|));
      leads := key !in m;
      if leads {
        c := Start(key, [ch], ByChan(|pipes|), t);
      } else {
        c := Join(key, [ch], ByChan(|pipes|), t);
      }
    }

    /** The job of call `i`. */
    ghost predicate Is(c: Job, i: CallId)
      reads this
    {
      i < |jobs| && jobs[i] == c && i in view.calls
    }

    /** The user's function ends and its outcome is stored in the call. */
    method FnDone(c: Job, o: Outcome, ghost i: CallId)
      requires Valid() && Is(c, i) && c.outcome.Running? && !o.Running?
      modifies this`view, c
      ensures Valid() && view.calls.Keys == old(view.calls.Keys) && c.outcome == o
      ensures Enabled(old(view), FnEnds(i, o)) && view == Step(old(view), FnEnds(i, o))
    {
      hide Inv, Numbered, Registered, Apart, JobsMatch, OthersMatch, PipesMatch, Lists;
      Singled(view, jobs, pipes, i);
      Distinguished(jobs, i);
      ghost var v, t := view, Step(view, FnEnds(i, o));
      StepKeepsInv(v, FnEnds(i, o));
      c.outcome := o;
      JobChanged(v, t, jobs, pipes, i);
      Renumbered(m, m, v, t, jobs, pipes, {});
      view := t;
    }

    /** The deferred locked section of doCall: unregister the call if it is still registered, then send its result. */
    method Complete(c: Job, key: Key, ghost i: CallId)
      requires Valid() && Is(c, i) && !c.outcome.Running?
      requires view.calls[i].key == key && !view.calls[i].done
      modifies this`view, this`m, c.pipes
      ensures Valid()
      ensures Enabled(old(view), Flight.Complete(i)) && view == Step(old(view), Flight.Complete(i))
    {
      hide Inv, Numbered, Registered, Apart, JobsMatch, OthersMatch, PipesMatch, Lists, SendAll;
      Singled(view, jobs, pipes, i);
      ghost var v, t := view, Completed(view, i);
      StepKeepsInv(v, Flight.Complete(i));
      IsRegistered(m, v, jobs, pipes, key, i);
      ghost var gone := {};
      if key in m && m[key] == c {
        m := m - {key};
        gone := {key};
      }
      if c.outcome.Returned? {
        SendResults(c, Result(c.outcome.val, c.outcome.err, c.dups > 0), i);
      }
      JobChanged(v, t, jobs, pipes, i);
      SendsOnNoNewChannel(v.chans, v.calls[i].chans, t.chans);
      Renumbered(old(m), m, v, t, jobs, pipes, gone);
      view := t;
    }

    /** Do returns, for a duplicate with a shared result, or unwinds if the function did not return. */
    method LeaveDo(c: Job, waited: bool, ghost g: Caller, ghost i: CallId) returns (returned: bool, r: Result)
      requires Valid() && Is(c, i) && view.calls[i].done
      requires g in view.callers && view.callers[g] == if waited then Waiting(i) else Leading(i)
      modifies this`view
      ensures Enabled(old(view), Return(g)) && view == Step(old(view), Return(g))
      ensures g in view.callers && view.callers[g] == if returned then Got(i, r) else Unwound(i)
      ensures Valid()
    {
      hide Inv, Numbered, Registered, Apart, JobsMatch, OthersMatch, PipesMatch, Lists;
      Singled(view, jobs, pipes, i);
      StepKeepsInv(view, Return(g));
      ghost var v, t := view, Step(view, Return(g));
      returned := c.outcome.Returned?;
      r := if returned then Result(c.outcome.val, c.outcome.err, waited || c.dups > 0) else Result(0, 0, false);
      JobChanged(v, t, jobs, pipes, i);
      Renumbered(m, m, v, t, jobs, pipes, {});
      view := t;
    }

    method Forget(key: Key)
      requires Valid()
      modifies this`view, this`m
      ensures Valid() && view == Step(old(view), Flight.Forget(key))
      ensures m == old(m) - {key}
    {
      hide Inv, Numbered, Registered, Apart, JobsMatch, PipesMatch, Lists;
      StepKeepsInv(view, Flight.Forget(key));
      ghost var v, t := view, Step(view, Flight.Forget(key));
      m := m - {key};
      JobsSame(v, t, jobs, pipes);
      Renumbered(old(m), m, v, t, jobs, pipes, {key});
      view := t;
    }

    /** Sends one result on every channel of the call; each slot is free. */
    method SendResults(c: Job, r: Result, ghost i: CallId)
      requires Inv(view) && Numbered(view, jobs, pipes) && Apart(pipes) && PipesMatch(view.chans, pipes)
      requires Is(c, i) && Same(c, view.calls[i], pipes) && !view.calls[i].done
      modifies c.pipes
      ensures PipesMatch(SendAll(view.chans, view.calls[i].chans, r), pipes)
    {
      hide Inv, Numbered, Apart, PipesMatch, SendAll;
      ghost var chans := view.calls[i].chans;
      SentNone(view.chans, pipes, r);
      assert chans[..0] == [];
      for n := 0 to |c.pipes|
        invariant PipesMatch(SendAll(view.chans, chans[..n], r), pipes)
      {
        NextSlotIsFree(view, jobs, pipes, i, r, n);
        OnlyPipe(pipes, chans[n]);
        assert PipesBut(SendAll(view.chans, chans[..n], r), pipes, chans[n]) by {
          PipesSingled(SendAll(view.chans, chans[..n], r), pipes, chans[n]);
        }
        c.pipes[n].Send(r);
        SentOneMore(view.chans, chans, n, pipes, r);
      }
      assert chans[..|c.pipes|] == chans;
    }
  }

  ghost predicate PipesBut(chans: map<Chan, Channel>, pipes: seq<Pipe>, g: Chan)
    reads set h | 0 <= h < |pipes| && h != g :: pipes[h]
  {
    forall h: Chan :: h < |pipes| && h != g && h in chans ==> pipes[h].buf == chans[h].buf
  }

  lemma PipesSingled(chans: map<Chan, Channel>, pipes: seq<Pipe>, g: Chan)
    requires PipesMatch(chans, pipes)
    ensures PipesBut(chans, pipes, g)
  {
  }

  lemma OnlyPipe(pipes: seq<Pipe>, g: Chan)
    requires Apart(pipes) && g < |pipes|
    ensures pipes[g] !in set h | 0 <= h < |pipes| && h != g :: pipes[h]
  {
  }

  lemma SentNone(chans: map<Chan, Channel>, pipes: seq<Pipe>, r: Result)
    requires PipesMatch(chans, pipes)
    ensures PipesMatch(SendAll(chans, [], r), pipes)
  {
  }

  /** A channel not yet sent to is still empty: the call is not done and lists it once. */
  lemma NextSlotIsFree(v: State, jobs: seq<Job>, pipes: seq<Pipe>, i: CallId, r: Result, n: nat)
    requires Inv(v) && Numbered(v, jobs, pipes) && i in v.calls && !v.calls[i].done && n < |v.calls[i].chans|
    requires PipesMatch(SendAll(v.chans, v.calls[i].chans[..n], r), pipes)
    ensures var h := v.calls[i].chans[n]; h < |pipes| && h in v.chans && h !in v.calls[i].chans[..n] && v.chans[h].buf == [] && pipes[h].buf == []
  {
    hide LivesOk, PlacesOk, MapOk;
    var h := v.calls[i].chans[n];
    assert CallOk(v.calls[i]) && ByChan(h) in v.calls[i].members;
    assert Belongs(v, i, ByChan(h));
    assert ChannelOk(v.calls[i], v.chans[h]);
  }

  lemma SentOneMore(chans: map<Chan, Channel>, list: seq<Chan>, n: nat, pipes: seq<Pipe>, r: Result)
    requires n < |list| && list[n] < |pipes| && list[n] in chans && list[n] !in list[..n]
    requires PipesBut(SendAll(chans, list[..n], r), pipes, list[n]) && pipes[list[n]].buf == chans[list[n]].buf + [r]
    ensures PipesMatch(SendAll(chans, list[..n + 1], r), pipes)
  {
    assert list[..n + 1] == list[..n] + [list[n]];
  }

  lemma JobChanged(v: State, t: State, jobs: seq<Job>, pipes: seq<Pipe>, i: CallId)
    requires OthersMatch(v, jobs, pipes, i) && i < |jobs| && i in v.calls
    requires i in t.calls && t.calls == v.calls[i := t.calls[i]] && Same(jobs[i], t.calls[i], pipes)
    ensures JobsMatch(t, jobs, pipes)
  {
  }

  lemma JobsSame(v: State, t: State, jobs: seq<Job>, pipes: seq<Pipe>)
    requires JobsMatch(v, jobs, pipes) && t.calls == v.calls
    ensures JobsMatch(t, jobs, pipes)
  {
  }

  lemma SendsOnNoNewChannel(chans: map<Chan, Channel>, list: seq<Chan>, after: map<Chan, Channel>)
    requires after == chans || exists r :: after == SendAll(chans, list, r)
    ensures after.Keys == chans.Keys
  {
  }

  lemma IsRegistered(m: map<Key, Job>, v: State, jobs: seq<Job>, pipes: seq<Pipe>, key: Key, i: CallId)
    requires Registered(m, v, jobs) && Numbered(v, jobs, pipes) && Apart(jobs) && i < |jobs|
    ensures key in m <==> key in v.m
    ensures key in m ==> (m[key] == jobs[i] <==> v.m[key] == i)
  {
  }

  /** Numbers stay, and the same keys may have been unregistered on both sides. */
  lemma Renumbered(m: map<Key, Job>, m2: map<Key, Job>, v: State, t: State, jobs: seq<Job>, pipes: seq<Pipe>, gone: set<Key>)
    requires Numbered(v, jobs, pipes) && Registered(m, v, jobs)
    requires t.calls.Keys == v.calls.Keys && t.chans.Keys == v.chans.Keys
    requires m2 == m - gone && t.m == v.m - gone
    ensures Numbered(t, jobs, pipes) && Registered(m2, t, jobs)
  {
  }

  lemma ChansNumbered(v: State, jobs: seq<Job>, pipes: seq<Pipe>)
    requires Numbered(v, jobs, pipes)
    ensures forall h :: h in v.chans <==> 0 <= h < |pipes|
  {
  }

  lemma NewChannel(chans: map<Chan, Channel>, pipes: seq<Pipe>, ch: Pipe, i: CallId)
    requires PipesMatch(chans, pipes) && ch.buf == []
    ensures PipesMatch(chans[|pipes| := Channel(i, [], [])], pipes + [ch])
  {
  }

  lemma DoChanEnters(s: State, h: Chan, key: Key, newborn: CallId)
    requires Enabled(s, DoChan(h, key, newborn)) && Inv(s)
    ensures var t := Step(s, DoChan(h, key, newborn)); var i := Target(s, key, newborn);
      && (key in s.m ==> i in s.calls)
      && t.m == s.m[key := i] && t.chans == s.chans[h := Channel(i, [], [])]
      && t.calls == s.calls[i := if key in s.m then Joined(s.calls[i], ByChan(h)) else Started(key, ByChan(h))]
  {
  }

  lemma Singled(v: State, jobs: seq<Job>, pipes: seq<Pipe>, i: CallId)
    requires JobsMatch(v, jobs, pipes) && i < |jobs| && i in v.calls
    ensures OthersMatch(v, jobs, pipes, i) && Same(jobs[i], v.calls[i], pipes)
  {
  }

  lemma Distinguished(jobs: seq<Job>, i: CallId)
    requires Apart(jobs) && i < |jobs|
    ensures jobs[i] !in set j | 0 <= j < |jobs| && j != i :: jobs[j]
  {
  }

  lemma JoinsList(c: Call, p: Party, list: seq<Pipe>, pipes: seq<Pipe>, more: seq<Pipe>)
    requires Lists(list, c.chans, pipes) && Grown(p, pipes, pipes + more)
    ensures var d := Joined(c, p); d.outcome == c.outcome && d.dups == c.dups + 1
    ensures Lists(list + more, Joined(c, p).chans, pipes + more)
  {
    if p.ByChan? { ListsGrow(list, c.chans, pipes, more[0]); }
  }

  lemma EntryEnabled(m: map<Key, Job>, v: State, jobs: seq<Job>, pipes: seq<Pipe>)
    requires Numbered(v, jobs, pipes) && Registered(m, v, jobs)
    ensures |jobs| !in v.calls && |pipes| !in v.chans && m.Keys == v.m.Keys
  {
  }

  lemma FindsJob(m: map<Key, Job>, v: State, jobs: seq<Job>, pipes: seq<Pipe>, key: Key) returns (i: CallId)
    requires Registered(m, v, jobs) && Numbered(v, jobs, pipes) && key in m
    ensures key in v.m && v.m[key] == i < |jobs| && jobs[i] == m[key] && i in v.calls
  {
    i := v.m[key];
  }

  lemma DoEnters(s: State, g: Caller, key: Key, newborn: CallId)
    requires Enabled(s, Do(g, key, newborn)) && Inv(s)
    ensures var t := Step(s, Do(g, key, newborn)); var i := Target(s, key, newborn);
      && (key in s.m ==> i in s.calls)
      && t.m == s.m[key := i] && t.chans == s.chans
      && t.calls == s.calls[i := if key in s.m then Joined(s.calls[i], ByDo(g)) else Started(key, ByDo(g))]
  {
  }

  /** Numbers and registrations after an entry. */
  lemma Entered(m: map<Key, Job>, m2: map<Key, Job>, v: State, t: State, jobs: seq<Job>, jobs2: seq<Job>,
                pipes: seq<Pipe>, pipes2: seq<Pipe>, i: CallId, key: Key)
    requires Numbered(v, jobs, pipes) && Registered(m, v, jobs) && Apart(jobs)
    requires t.calls.Keys == v.calls.Keys + {i} && t.m == v.m[key := i]
    requires i < |jobs2| && if i < |jobs| then jobs2 == jobs else i == |jobs| && jobs2 == jobs + [jobs2[i]] && jobs2[i] !in jobs
    requires m2 == m[key := jobs2[i]]
    requires forall h :: h in t.chans <==> 0 <= h < |pipes2|
    ensures Numbered(t, jobs2, pipes2) && Registered(m2, t, jobs2) && Apart(jobs2)
  {
  }

  lemma JobJoined(v: State, t: State, jobs: seq<Job>, pipes: seq<Pipe>, pipes2: seq<Pipe>, i: CallId, p: Party)
    requires OthersMatch(v, jobs, pipes, i) && i < |jobs| && i in v.calls
    requires t.calls == v.calls[i := Joined(v.calls[i], p)]
    requires Grown(p, pipes, pipes2)
    requires Same(jobs[i], t.calls[i], pipes2)
    ensures JobsMatch(t, jobs, pipes2)
  {
    forall j: CallId | j < |jobs| && j in t.calls ensures Same(jobs[j], t.calls[j], pipes2) {
      if j != i && p.ByChan? {
        assert Same(jobs[j], v.calls[j], pipes) && pipes2 == pipes + [pipes2[|pipes|]];
        ListsGrow(jobs[j].pipes, v.calls[j].chans, pipes, pipes2[|pipes|]);
      }
    }
  }

  lemma JobAdded(v: State, t: State, jobs: seq<Job>, pipes: seq<Pipe>, pipes2: seq<Pipe>, c: Job, key: Key, p: Party)
    requires JobsMatch(v, jobs, pipes) && Numbered(v, jobs, pipes)
    requires t.calls == v.calls[|jobs| := Started(key, p)]
    requires Grown(p, pipes, pipes2)
    requires c.outcome == Running && c.dups == 0 && c.pipes == pipes2[|pipes|..]
    ensures JobsMatch(t, jobs + [c], pipes2)
  {
    forall j: CallId | j < |jobs + [c]| && j in t.calls ensures Same((jobs + [c])[j], t.calls[j], pipes2) {
      if j < |jobs| {
        assert Same(jobs[j], v.calls[j], pipes);
        if p.ByChan? {
          assert pipes2 == pipes + [pipes2[|pipes|]];
          ListsGrow(jobs[j].pipes, v.calls[j].chans, pipes, pipes2[|pipes|]);
        }
      }
    }
  }
}
