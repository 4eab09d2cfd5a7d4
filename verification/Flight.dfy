/**
  Duplicate suppression (concurrency/singlefilgt.go) as a machine: any interleaving of Do, DoChan and Forget with
  the ends of the executed functions, the completions under the lock, the returns of Do and the channel receives.
 */
module Flight {
  type Key = nat
  type CallId = nat
  type Caller = nat
  type Chan = nat

  /** How far the user's function got: it still runs, returned, panicked, or left by runtime.Goexit. */
  datatype Outcome = Running | Returned(val: int, err: int) | Panicked | Exited

  datatype Result = Result(val: int, err: int, shared: bool)

  /** Whoever a call answers: a goroutine inside Do, or a channel made by DoChan. */
  datatype Party = ByDo(caller: Caller) | ByChan(ch: Chan)

  /** A call object; `members` records everyone who started or joined it. */
  datatype Call = Call(key: Key, dups: nat, chans: seq<Chan>, outcome: Outcome, done: bool, members: set<Party>)

  /** A goroutine that entered Do: waiting as a duplicate, executing, back with an answer, or unwound by a panic. */
  datatype Place = Waiting(call: CallId) | Leading(call: CallId) | Got(call: CallId, result: Result) | Unwound(call: CallId)

  /** A one-slot result channel; `sent` records every send. */
  datatype Channel = Channel(call: CallId, buf: seq<Result>, sent: seq<Result>)

  datatype State = State(
    m: map<Key, CallId>, calls: map<CallId, Call>,
    callers: map<Caller, Place>, chans: map<Chan, Channel>, forgets: map<Key, nat>)

  datatype Action =
    | Do(caller: Caller, key: Key, newborn: CallId)
    | DoChan(ch: Chan, key: Key, newborn: CallId)
    | FnEnds(call: CallId, outcome: Outcome)
    | Complete(call: CallId)
    | Return(caller: Caller)
    | Receive(ch: Chan)
    | Forget(key: Key)

  function Joined(c: Call, p: Party): Call {
    c.(dups := c.dups + 1, members := c.members + {p}, chans := if p.ByChan? then c.chans + [p.ch] else c.chans)
  }

  function Started(key: Key, p: Party): Call {
    Call(key, 0, if p.ByChan? then [p.ch] else [], Running, false, {p})
  }

  /** The call that Do or DoChan enters: the registered one, else a new one. */
  function Target(s: State, key: Key, newborn: CallId): CallId {
    if key in s.m then s.m[key] else newborn
  }

  /** The locked section at the start of Do and DoChan. */
  function Enter(s: State, key: Key, p: Party, newborn: CallId): State {
    var i := Target(s, key, newborn);
    s.(calls := s.calls[i := if key in s.m && i in s.calls then Joined(s.calls[i], p) else Started(key, p)],
       m := s.m[key := i])
  }

  /** What a call that returned normally reports. */
  function Answer(c: Call): Result
    requires c.outcome.Returned?
  {
    Result(c.outcome.val, c.outcome.err, c.dups > 0)
  }

  /** Sends the result on each channel of the list. */
  function SendAll(chans: map<Chan, Channel>, list: seq<Chan>, r: Result): map<Chan, Channel> {
    map h | h in chans :: if h in list then chans[h].(buf := chans[h].buf + [r], sent := chans[h].sent + [r]) else chans[h]
  }

  /** The deferred locked section of doCall: done, unregistered if still registered, and sent on every channel. */
  function Completed(s: State, i: CallId): State
    requires i in s.calls
  {
    var c := s.calls[i];
    s.(calls := s.calls[i := c.(done := true)],
       m := if c.key in s.m && s.m[c.key] == i then s.m - {c.key} else s.m,
       chans := if c.outcome.Returned? then SendAll(s.chans, c.chans, Answer(c)) else s.chans)
  }

  /** Where a goroutine ends up when Do is over: a duplicate always reports a shared result. */
  function Over(c: Call, g: Place): Place {
    if !c.outcome.Returned? then Unwound(g.call)
    else if g.Waiting? then Got(g.call, Answer(c).(shared := true))
    else Got(g.call, Answer(c))
  }

  function Forgets(s: State, key: Key): nat { if key in s.forgets then s.forgets[key] else 0 }

  predicate Inside(g: Place) { g.Waiting? || g.Leading? }

  predicate Enabled(s: State, a: Action) {
    match a
    case Do(g, _, newborn) => g !in s.callers && newborn !in s.calls
    case DoChan(h, _, newborn) => h !in s.chans && newborn !in s.calls
    case FnEnds(i, o) => i in s.calls && s.calls[i].outcome.Running? && !o.Running?
    case Complete(i) => i in s.calls && !s.calls[i].outcome.Running? && !s.calls[i].done
    case Return(g) =>
      g in s.callers && Inside(s.callers[g]) && s.callers[g].call in s.calls && s.calls[s.callers[g].call].done
    case Receive(h) => h in s.chans && s.chans[h].buf != []
    case Forget(_) => true
  }

  function Step(s: State, a: Action): State
    requires Enabled(s, a)
  {
    match a
    case Do(g, key, newborn) =>
      var i := Target(s, key, newborn);
      Enter(s, key, ByDo(g), newborn).(callers := s.callers[g := if key in s.m then Waiting(i) else Leading(i)])
    case DoChan(h, key, newborn) =>
      var i := Target(s, key, newborn);
      Enter(s, key, ByChan(h), newborn).(chans := s.chans[h := Channel(i, [], [])])
    case FnEnds(i, o) => s.(calls := s.calls[i := s.calls[i].(outcome := o)])
    case Complete(i) => Completed(s, i)
    case Return(g) => s.(callers := s.callers[g := Over(s.calls[s.callers[g].call], s.callers[g])])
    case Receive(h) => s.(chans := s.chans[h := s.chans[h].(buf := s.chans[h].buf[1..])])
    case Forget(key) => s.(m := s.m - {key}, forgets := s.forgets[key := Forgets(s, key) + 1])
  }

  ghost predicate Init(s: State) { s == State(map[], map[], map[], map[], map[]) }

  datatype Run = Run(states: seq<State>, actions: seq<Action>)

  ghost predicate IsRun(r: Run) {
    && |r.states| == |r.actions| + 1
    && Init(r.states[0])
    && forall k :: 0 <= k < |r.actions| ==> Enabled(r.states[k], r.actions[k]) && r.states[k + 1] == Step(r.states[k], r.actions[k])
  }

  // ---------- the invariant ----------

  predicate Distinct(list: seq<Chan>) { forall a, b :: 0 <= a < b < |list| ==> list[a] != list[b] }

  /** A call counts its members: one starter and `dups` more; its channel list is its channel members, once each. */
  ghost predicate CallOk(c: Call) {
    && (c.done ==> !c.outcome.Running?)
    && |c.members| == c.dups + 1
    && Distinct(c.chans)
    && (forall h :: h in c.chans <==> ByChan(h) in c.members)
  }

  ghost predicate CallsOk(s: State) { forall i :: i in s.calls ==> CallOk(s.calls[i]) }

  /** Only an unfinished call of that very key is registered. */
  ghost predicate MapOk(s: State) {
    forall k :: k in s.m ==> s.m[k] in s.calls && s.calls[s.m[k]].key == k && !s.calls[s.m[k]].done
  }

  predicate Belongs(s: State, i: CallId, p: Party) {
    match p
    case ByDo(g) => g in s.callers && s.callers[g].call == i
    case ByChan(h) => h in s.chans && s.chans[h].call == i
  }

  /** Everybody belongs to exactly one call. */
  ghost predicate PartiesOk(s: State) {
    && (forall i, p :: i in s.calls && p in s.calls[i].members ==> Belongs(s, i, p))
    && (forall g :: g in s.callers ==> s.callers[g].call in s.calls && ByDo(g) in s.calls[s.callers[g].call].members)
    && (forall h :: h in s.chans ==> s.chans[h].call in s.calls && ByChan(h) in s.calls[s.chans[h].call].members)
  }

  predicate PlaceOk(c: Call, g: Place) {
    match g
    case Waiting(_) => c.dups > 0
    case Leading(_) => true
    case Got(_, r) => c.done && c.outcome.Returned? && r == Answer(c)
    case Unwound(_) => c.done && !c.outcome.Returned?
  }

  ghost predicate PlacesOk(s: State) {
    forall g :: g in s.callers && s.callers[g].call in s.calls ==> PlaceOk(s.calls[s.callers[g].call], s.callers[g])
  }

  /** A channel was sent the call's answer once if the call is done and returned, else nothing. */
  predicate ChannelOk(c: Call, h: Channel) {
    && h.sent == (if c.done && c.outcome.Returned? then [Answer(c)] else [])
    && (h.buf == h.sent || h.buf == [])
  }

  ghost predicate ChannelsOk(s: State) {
    forall h :: h in s.chans && s.chans[h].call in s.calls ==> ChannelOk(s.calls[s.chans[h].call], s.chans[h])
  }

  /** The executions of a key in flight. */
  function Live(s: State, key: Key): set<CallId> { set i | i in s.calls && s.calls[i].key == key && !s.calls[i].done }

  ghost predicate LiveOk(s: State, key: Key) { |Live(s, key)| <= Forgets(s, key) + if key in s.m then 1 else 0 }

  ghost predicate LivesOk(s: State) { forall key :: LiveOk(s, key) }

  ghost predicate Inv(s: State) {
    CallsOk(s) && MapOk(s) && PartiesOk(s) && PlacesOk(s) && ChannelsOk(s) && LivesOk(s)
  }

  lemma InitInv(s: State)
    requires Init(s)
    ensures Inv(s)
  {
    forall key ensures LiveOk(s, key) {
      assert Live(s, key) == {};
    }
  }

  // ---------- every step keeps it ----------

  lemma JoinedOk(c: Call, p: Party)
    requires CallOk(c) && p !in c.members
    ensures CallOk(Joined(c, p))
  {
    var d := Joined(c, p);
    forall h ensures h in d.chans <==> ByChan(h) in d.members {
      if p.ByChan? { assert d.chans == c.chans + [p.ch]; }
    }
    assert p.ByChan? ==> p.ch !in c.chans;
  }

  lemma NotAMember(s: State, p: Party, i: CallId)
    requires PartiesOk(s) && i in s.calls
    requires match p case ByDo(g) => g !in s.callers case ByChan(h) => h !in s.chans
    ensures p !in s.calls[i].members
  {
    assert !Belongs(s, i, p);
  }

  lemma EntryCalls(s: State, key: Key, p: Party, newborn: CallId)
    requires CallsOk(s) && MapOk(s) && PartiesOk(s)
    requires match p case ByDo(g) => g !in s.callers case ByChan(h) => h !in s.chans
    ensures CallsOk(Enter(s, key, p, newborn))
  {
    if key in s.m {
      NotAMember(s, p, s.m[key]);
      JoinedOk(s.calls[s.m[key]], p);
    }
    hide MapOk, PartiesOk, Joined;
  }

  lemma CallsKept(s: State, a: Action)
    requires Inv(s) && Enabled(s, a)
    ensures CallsOk(Step(s, a))
  {
    hide PartiesOk, PlacesOk, ChannelsOk, LivesOk, MapOk;
    match a
    case Do(g, key, newborn) => EntryCalls(s, key, ByDo(g), newborn);
    case DoChan(h, key, newborn) => EntryCalls(s, key, ByChan(h), newborn);
    case FnEnds(i, o) => assert CallOk(s.calls[i]);
    case Complete(i) => assert CallOk(s.calls[i]);
    case Return(g) =>
    case Receive(h) =>
    case Forget(key) =>
  }

  lemma MapKept(s: State, a: Action)
    requires Inv(s) && Enabled(s, a)
    ensures MapOk(Step(s, a))
  {
    hide CallsOk, PartiesOk, PlacesOk, ChannelsOk, LivesOk;
    var t := Step(s, a);
    forall k | k in t.m ensures t.m[k] in t.calls && t.calls[t.m[k]].key == k && !t.calls[t.m[k]].done {
      if k in s.m { assert s.calls[s.m[k]].key == k; }
    }
  }

  /** A goroutine or channel that enters the locked section belongs to the call it found or made. */
  lemma EntrantBelongs(s: State, key: Key, p: Party, newborn: CallId, t: State)
    requires MapOk(s) && PartiesOk(s) && newborn !in s.calls
    requires t.calls == Enter(s, key, p, newborn).calls
    requires Belongs(t, Target(s, key, newborn), p)
    requires p.ByDo? ==> p.caller !in s.callers && t.chans == s.chans && t.callers == s.callers[p.caller := t.callers[p.caller]]
    requires p.ByChan? ==> p.ch !in s.chans && t.callers == s.callers && t.chans == s.chans[p.ch := t.chans[p.ch]]
    ensures PartiesOk(t)
  {
    assert forall j :: j in s.calls ==> !Belongs(s, j, p) && p !in s.calls[j].members;
    forall j, q | j in t.calls && q in t.calls[j].members ensures Belongs(t, j, q) {
      if q != p {
        assert j in s.calls && q in s.calls[j].members;
        assert Belongs(s, j, q);
      }
    }
  }

  lemma PartiesKept(s: State, a: Action)
    requires Inv(s) && Enabled(s, a)
    ensures PartiesOk(Step(s, a))
  {
    hide CallsOk, PlacesOk, ChannelsOk, LivesOk;
    var t := Step(s, a);
    if a.Do? || a.DoChan? {
      hide PartiesOk;
      EntrantBelongs(s, a.key, if a.Do? then ByDo(a.caller) else ByChan(a.ch), a.newborn, t);
    } else {
      SamePlaces(s, a);
      SameParties(s, t);
    }
  }

  lemma SamePlaces(s: State, a: Action)
    requires Enabled(s, a) && !a.Do? && !a.DoChan?
    ensures SameHomes(s, Step(s, a))
  {
  }

  ghost predicate SameHomes(s: State, t: State) {
    && t.calls.Keys == s.calls.Keys && t.callers.Keys == s.callers.Keys && t.chans.Keys == s.chans.Keys
    && (forall i :: i in s.calls ==> t.calls[i].members == s.calls[i].members)
    && (forall g :: g in s.callers ==> t.callers[g].call == s.callers[g].call)
    && (forall h :: h in s.chans ==> t.chans[h].call == s.chans[h].call)
  }

  lemma SameParties(s: State, t: State)
    requires PartiesOk(s) && SameHomes(s, t)
    ensures PartiesOk(t)
  {
    forall i, p | i in t.calls && p in t.calls[i].members ensures Belongs(t, i, p) {
      assert Belongs(s, i, p);
    }
  }

  lemma PlacesKept(s: State, a: Action)
    requires Inv(s) && Enabled(s, a)
    ensures PlacesOk(Step(s, a))
  {
  }

  lemma ListsItsChannels(s: State, i: CallId, h: Chan)
    requires CallsOk(s) && PartiesOk(s) && i in s.calls && h in s.chans
    ensures h in s.calls[i].chans <==> s.chans[h].call == i
  {
    assert CallOk(s.calls[i]);
    assert ByChan(h) in s.calls[i].members ==> Belongs(s, i, ByChan(h));
  }

  /** Sending reaches every channel of the completed call and no other. */
  lemma CompletionSends(s: State, i: CallId)
    requires CallsOk(s) && PartiesOk(s) && ChannelsOk(s) && Enabled(s, Complete(i))
    ensures ChannelsOk(Completed(s, i))
  {
    hide CallsOk, PartiesOk;
    var t := Completed(s, i);
    forall h | h in t.chans && t.chans[h].call in t.calls ensures ChannelOk(t.calls[t.chans[h].call], t.chans[h]) {
      assert s.chans[h].call == t.chans[h].call && ChannelOk(s.calls[s.chans[h].call], s.chans[h]);
      ListsItsChannels(s, i, h);
    }
  }

  /** No call finishes, and a finished call stays as it is. */
  ghost predicate QuietCalls(s: State, t: State) {
    forall i :: i in s.calls ==> i in t.calls && t.calls[i].done == s.calls[i].done && (s.calls[i].done ==> t.calls[i] == s.calls[i])
  }

  predicate NewOrEmptied(s: State, t: State, h: Chan)
    requires h in t.chans && t.chans[h].call in t.calls
  {
    if h in s.chans
    then t.chans[h].call == s.chans[h].call && t.chans[h].sent == s.chans[h].sent && (t.chans[h].buf == s.chans[h].buf || t.chans[h].buf == [])
    else !t.calls[t.chans[h].call].done && t.chans[h].sent == [] && t.chans[h].buf == []
  }

  /** Moreover channels are at most new or emptied. */
  ghost predicate Quiet(s: State, t: State) {
    QuietCalls(s, t) && forall h :: h in t.chans && t.chans[h].call in t.calls ==> NewOrEmptied(s, t, h)
  }

  lemma CallsAreQuiet(s: State, a: Action)
    requires CallsOk(s) && MapOk(s) && Enabled(s, a) && !a.Complete?
    ensures QuietCalls(s, Step(s, a))
  {
    if a.FnEnds? { assert CallOk(s.calls[a.call]); }
    hide CallsOk;
  }

  lemma ChannelIsQuiet(s: State, a: Action, h: Chan)
    requires MapOk(s) && PartiesOk(s) && ChannelsOk(s) && Enabled(s, a) && !a.Complete?
    requires h in Step(s, a).chans && Step(s, a).chans[h].call in Step(s, a).calls
    ensures NewOrEmptied(s, Step(s, a), h)
  {
    if a.Receive? { assert ChannelOk(s.calls[s.chans[a.ch].call], s.chans[a.ch]); }
    hide PartiesOk, ChannelsOk;
  }

  lemma StepIsQuiet(s: State, a: Action)
    requires CallsOk(s) && MapOk(s) && PartiesOk(s) && ChannelsOk(s) && Enabled(s, a) && !a.Complete?
    ensures Quiet(s, Step(s, a))
  {
    hide Step, CallsOk, MapOk, PartiesOk, ChannelsOk, QuietCalls, NewOrEmptied;
    CallsAreQuiet(s, a);
    forall h | h in Step(s, a).chans && Step(s, a).chans[h].call in Step(s, a).calls ensures NewOrEmptied(s, Step(s, a), h) {
      ChannelIsQuiet(s, a, h);
    }
  }

  lemma QuietKeepsChannels(s: State, t: State)
    requires ChannelsOk(s) && PartiesOk(s) && Quiet(s, t)
    ensures ChannelsOk(t)
  {
    forall h | h in t.chans && t.chans[h].call in t.calls ensures ChannelOk(t.calls[t.chans[h].call], t.chans[h]) {
      assert h in s.chans ==> s.chans[h].call in s.calls && ChannelOk(s.calls[s.chans[h].call], s.chans[h]);
    }
  }

  lemma ChannelsKept(s: State, a: Action)
    requires Inv(s) && Enabled(s, a)
    ensures ChannelsOk(Step(s, a))
  {
    hide CallsOk, PartiesOk, PlacesOk, ChannelsOk, LivesOk, MapOk, Quiet;
    if a.Complete? {
      CompletionSends(s, a.call);
    } else {
      StepIsQuiet(s, a);
      QuietKeepsChannels(s, Step(s, a));
    }
  }

  lemma EntryLive(s: State, key: Key, p: Party, newborn: CallId, k: Key)
    requires MapOk(s) && LiveOk(s, k) && newborn !in s.calls
    ensures LiveOk(Enter(s, key, p, newborn), k)
  {
    if key in s.m {
      JoinLive(s, key, p, newborn, k);
    } else {
      hide MapOk;
      var t := Enter(s, key, p, newborn);
      if k == key {
        assert Live(t, k) == Live(s, k) + {newborn};
      } else {
        assert Live(t, k) == Live(s, k);
      }
    }
  }

  lemma JoinLive(s: State, key: Key, p: Party, newborn: CallId, k: Key)
    requires MapOk(s) && LiveOk(s, k) && key in s.m
    ensures LiveOk(Enter(s, key, p, newborn), k)
  {
    var i := s.m[key];
    assert i in s.calls;
    hide MapOk;
    var t := Enter(s, key, p, newborn);
    assert t.m == s.m && t.calls == s.calls[i := Joined(s.calls[i], p)];
    SameLive(s, t, k);
  }

  lemma CompletionLive(s: State, i: CallId, k: Key)
    requires MapOk(s) && LiveOk(s, k) && Enabled(s, Complete(i))
    ensures LiveOk(Completed(s, i), k)
  {
    var t := Completed(s, i);
    assert Live(t, k) == Live(s, k) - {i};
    assert i in Live(s, k) <==> s.calls[i].key == k;
  }

  lemma SameLive(s: State, t: State, k: Key)
    requires LiveOk(s, k)
    requires t.calls.Keys == s.calls.Keys && forall i :: i in s.calls ==> t.calls[i].key == s.calls[i].key && t.calls[i].done == s.calls[i].done
    requires Forgets(t, k) + (if k in t.m then 1 else 0) >= Forgets(s, k) + if k in s.m then 1 else 0
    ensures LiveOk(t, k)
  {
    assert Live(t, k) == Live(s, k);
  }

  lemma LiveKept(s: State, a: Action, key: Key)
    requires MapOk(s) && LiveOk(s, key) && Enabled(s, a)
    ensures LiveOk(Step(s, a), key)
  {
    hide Live;
    var t := Step(s, a);
    if a.Do? {
      EntryLive(s, a.key, ByDo(a.caller), a.newborn, key);
      SameLive(Enter(s, a.key, ByDo(a.caller), a.newborn), t, key);
    } else if a.DoChan? {
      EntryLive(s, a.key, ByChan(a.ch), a.newborn, key);
      SameLive(Enter(s, a.key, ByChan(a.ch), a.newborn), t, key);
    } else if a.Complete? {
      CompletionLive(s, a.call, key);
    } else {
      SameLive(s, t, key);
    }
  }

  lemma StepKeepsInv(s: State, a: Action)
    requires Inv(s) && Enabled(s, a)
    ensures Inv(Step(s, a))
  {
    hide CallsOk, MapOk, PartiesOk, PlacesOk, ChannelsOk, LiveOk, Step;
    CallsKept(s, a);
    MapKept(s, a);
    PartiesKept(s, a);
    PlacesKept(s, a);
    ChannelsKept(s, a);
    forall key ensures LiveOk(Step(s, a), key) { LiveKept(s, a, key); }
  }

  lemma {:induction false} RunKeepsInv(r: Run, k: nat)
    requires IsRun(r) && k < |r.states|
    ensures Inv(r.states[k])
  {
    hide Inv, Step, Init;
    if k == 0 {
      InitInv(r.states[0]);
    } else {
      RunKeepsInv(r, k - 1);
      StepKeepsInv(r.states[k - 1], r.actions[k - 1]);
    }
  }

  // ---------- what it means for callers ----------

  /** The results a party has been given so far. */
  function Received(s: State, p: Party): seq<Result> {
    match p
    case ByDo(g) => if g in s.callers && s.callers[g].Got? then [s.callers[g].result] else []
    case ByChan(h) => if h in s.chans then s.chans[h].sent else []
  }

  /** Still inside Do. */
  predicate Pending(s: State, p: Party) { p.ByDo? && p.caller in s.callers && Inside(s.callers[p.caller]) }

  /**
    Whoever started or joined a call gets nothing unless the function returned, and then exactly once the same value,
    error and shared flag, which is true exactly when the call had more than one member.
   */
  lemma EveryoneGetsTheSameAnswer(r: Run, k: nat, i: CallId, p: Party)
    requires IsRun(r) && k < |r.states| && i in r.states[k].calls && p in r.states[k].calls[i].members
    ensures var s := r.states[k]; var c := s.calls[i];
      if c.done && c.outcome.Returned? && !Pending(s, p)
      then Received(s, p) == [Result(c.outcome.val, c.outcome.err, |c.members| > 1)]
      else Received(s, p) == []
  {
    hide IsRun, LivesOk;
    RunKeepsInv(r, k);
    var s := r.states[k];
    assert Belongs(s, i, p) && CallOk(s.calls[i]);
  }

  /** When a call completes, the one-slot buffer of each of its channels is empty, so no send blocks under the lock. */
  lemma SendsNeverBlock(r: Run, k: nat, h: Chan)
    requires IsRun(r) && k < |r.actions| && r.actions[k].Complete?
    requires r.actions[k].call in r.states[k].calls && h in r.states[k].calls[r.actions[k].call].chans
    ensures h in r.states[k].chans && r.states[k].chans[h].buf == []
  {
    hide Step, LivesOk;
    RunKeepsInv(r, k);
    var s := r.states[k]; var i := r.actions[k].call;
    assert Enabled(s, r.actions[k]) && CallOk(s.calls[i]);
    assert ByChan(h) in s.calls[i].members;
    assert Belongs(s, i, ByChan(h));
  }

  /** Executions of a key overlap at most once per Forget; a key never forgotten has only its registered call running. */
  lemma OneExecutionPerKey(r: Run, k: nat, key: Key)
    requires IsRun(r) && k < |r.states|
    ensures var s := r.states[k];
      && |Live(s, key)| <= 1 + Forgets(s, key)
      && (Forgets(s, key) == 0 ==> Live(s, key) == if key in s.m then {s.m[key]} else {})
  {
    hide IsRun, PartiesOk, PlacesOk, ChannelsOk, CallsOk;
    RunKeepsInv(r, k);
    var s := r.states[k];
    assert LiveOk(s, key);
    if Forgets(s, key) == 0 {
      if key in s.m {
        AtMostOne(Live(s, key), s.m[key]);
      } else {
        assert |Live(s, key)| == 0;
      }
    }
  }

  lemma AtMostOne(ids: set<CallId>, i: CallId)
    requires i in ids && |ids| <= 1
    ensures ids == {i}
  {
    assert |ids - {i}| == 0;
  }

  /** Nothing about a call changes once it is done, its outcome is set once, and it only ever gains members. */
  predicate Later(c: Call, d: Call) {
    && (c.done ==> d == c)
    && (!c.outcome.Running? ==> d.outcome == c.outcome)
    && c.key == d.key && c.members <= d.members && c.chans <= d.chans && c.dups <= d.dups
  }

  lemma StepKeepsCall(s: State, a: Action, i: CallId)
    requires Inv(s) && Enabled(s, a) && i in s.calls
    ensures i in Step(s, a).calls && Later(s.calls[i], Step(s, a).calls[i])
  {
    hide PartiesOk, PlacesOk, ChannelsOk, LivesOk;
    assert CallOk(s.calls[i]);
  }

  lemma {:induction false} DoneCallsAreFrozen(r: Run, j: nat, k: nat, i: CallId)
    requires IsRun(r) && j <= k < |r.states| && i in r.states[j].calls
    ensures i in r.states[k].calls && Later(r.states[j].calls[i], r.states[k].calls[i])
    ensures r.states[k].calls[i].done ==> i !in r.states[k].m.Values
    decreases k
  {
    hide Step, Init, Enabled;
    RunKeepsInv(r, k);
    hide CallsOk, PartiesOk, PlacesOk, ChannelsOk, LivesOk;
    if j < k {
      RunKeepsInv(r, k - 1);
      DoneCallsAreFrozen(r, j, k - 1, i);
      StepKeepsCall(r.states[k - 1], r.actions[k - 1], i);
    }
  }

  lemma RegistrationLasts(s: State, a: Action, key: Key)
    requires MapOk(s) && Enabled(s, a) && key in s.m && a != Forget(key) && a != Complete(s.m[key])
    ensures key in Step(s, a).m && Step(s, a).m[key] == s.m[key]
  {
  }

  /** A registration ends only by its own call's completion or by Forget: finishing a forgotten call spares newer ones. */
  lemma {:induction false} RegistrationsLast(r: Run, j: nat, k: nat, key: Key)
    requires IsRun(r) && j <= k < |r.states| && key in r.states[j].m
    requires forall n :: j <= n < k ==> r.actions[n] != Forget(key) && r.actions[n] != Complete(r.states[j].m[key])
    ensures key in r.states[k].m && r.states[k].m[key] == r.states[j].m[key]
    decreases k
  {
    hide Init, Step, Enabled, MapOk, CallsOk, PartiesOk, PlacesOk, ChannelsOk, LivesOk;
    if j < k {
      RegistrationsLast(r, j, k - 1, key);
      RunKeepsInv(r, k - 1);
      RegistrationLasts(r.states[k - 1], r.actions[k - 1], key);
    }
  }
}
