/** Duplicate suppression over whole runs: what callers get is what the function returned, and who shares a call. */
module FlightRuns {
  import opened Flight

  // ---- results ----------------------------------------------------------------------------

  lemma EndIsStored(r: Run, j: nat, k: nat, i: CallId, o: Outcome)
    requires IsRun(r) && j < k < |r.states| && r.actions[j] == FnEnds(i, o)
    ensures i in r.states[k].calls && r.states[k].calls[i].outcome == o && !o.Running?
  {
    hide Init;
    assert Enabled(r.states[j], r.actions[j]) && r.states[j + 1] == Step(r.states[j], r.actions[j]);
    assert i in r.states[j + 1].calls && r.states[j + 1].calls[i].outcome == o;
    DoneCallsAreFrozen(r, j + 1, k, i);
  }

  /**
    Whoever started or joined a call gets, once the call is complete and Do is over, exactly one result: the value and
    the error the function returned, and whether there was more than one of them.
   */
  lemma AnswerIsTheFunctionsResult(r: Run, j: nat, k: nat, i: CallId, p: Party, v: int, e: int)
    requires IsRun(r) && j < k < |r.states| && r.actions[j] == FnEnds(i, Returned(v, e))
    requires i in r.states[k].calls && r.states[k].calls[i].done && p in r.states[k].calls[i].members
    requires !Pending(r.states[k], p)
    ensures Received(r.states[k], p) == [Result(v, e, |r.states[k].calls[i].members| > 1)]
  {
    hide IsRun;
    EndIsStored(r, j, k, i, Returned(v, e));
    EveryoneGetsTheSameAnswer(r, k, i, p);
  }

  /** After a panic or a Goexit of the function nobody gets a result, and no Do of that call ever returns normally. */
  lemma NoAnswerWithoutAReturn(r: Run, j: nat, k: nat, i: CallId, p: Party, o: Outcome)
    requires IsRun(r) && j < k < |r.states| && r.actions[j] == FnEnds(i, o) && !o.Returned?
    requires i in r.states[k].calls && p in r.states[k].calls[i].members
    ensures Received(r.states[k], p) == []
    ensures p.ByDo? ==> p.caller in r.states[k].callers && !r.states[k].callers[p.caller].Got?
  {
    hide IsRun;
    EndIsStored(r, j, k, i, o);
    EveryoneGetsTheSameAnswer(r, k, i, p);
    RunKeepsInv(r, k);
    hide CallsOk, MapOk, PlacesOk, ChannelsOk, LivesOk;
    assert Belongs(r.states[k], i, p);
  }

  /** A channel whose result was received stays empty. */
  predicate Drained(s: State, h: Chan) { h in s.chans && s.chans[h].buf == [] && s.chans[h].sent != [] }

  lemma CompletionSpares(s: State, i: CallId, h: Chan)
    requires CallsOk(s) && PartiesOk(s) && ChannelsOk(s) && Enabled(s, Complete(i)) && Drained(s, h)
    ensures Drained(Completed(s, i), h)
  {
    ListsItsChannels(s, i, h);
    assert ChannelOk(s.calls[s.chans[h].call], s.chans[h]);
    hide CallsOk, PartiesOk, ChannelsOk;
  }

  lemma DrainedStays(s: State, a: Action, h: Chan)
    requires Inv(s) && Enabled(s, a) && Drained(s, h)
    ensures Drained(Step(s, a), h)
  {
    hide CallsOk, MapOk, PartiesOk, PlacesOk, ChannelsOk, LivesOk;
    if a.Complete? { CompletionSpares(s, a.call, h); }
  }

  lemma ReceiveDrains(s: State, h: Chan)
    requires Inv(s) && Enabled(s, Receive(h))
    ensures Drained(Step(s, Receive(h)), h)
  {
    hide MapOk, PlacesOk, LivesOk, CallsOk;
    assert s.chans[h].call in s.calls && ChannelOk(s.calls[s.chans[h].call], s.chans[h]);
  }

  lemma {:induction false} StaysDrained(r: Run, j: nat, k: nat, h: Chan)
    requires IsRun(r) && j < k < |r.states| && r.actions[j] == Receive(h)
    ensures Drained(r.states[k], h)
    decreases k
  {
    hide Init, Step, Enabled, Inv, Drained;
    RunKeepsInv(r, k - 1);
    if j + 1 == k {
      ReceiveDrains(r.states[j], h);
    } else {
      StaysDrained(r, j, k - 1, h);
      DrainedStays(r.states[k - 1], r.actions[k - 1], h);
    }
  }

  /** Nobody receives twice from the channel of a DoChan. */
  lemma OneReceivePerChannel(r: Run, j: nat, k: nat, h: Chan)
    requires IsRun(r) && j < |r.actions| && k < |r.actions| && r.actions[j] == Receive(h) && r.actions[k] == Receive(h)
    ensures j == k
  {
    hide Init, Step;
    assert Enabled(r.states[j], r.actions[j]) && Enabled(r.states[k], r.actions[k]);
    if j < k { StaysDrained(r, j, k, h); }
    if k < j { StaysDrained(r, k, j, h); }
  }

  // ---- who shares a call ------------------------------------------------------------------

  /** Step j is a Do or DoChan that found no call of its key and started call i. */
  ghost predicate Starts(r: Run, j: nat, key: Key, i: CallId)
    requires |r.states| == |r.actions| + 1 && j < |r.actions|
  {
    var a := r.actions[j]; (a.Do? || a.DoChan?) && a.key == key && a.newborn == i && key !in r.states[j].m
  }

  /** Call i was started for `key`, and since then it was not completed and the key not forgotten. */
  ghost predicate InFlight(r: Run, k: nat, key: Key, i: CallId)
    requires |r.states| == |r.actions| + 1 && k < |r.states|
  {
    exists j: nat :: j < k && Starts(r, j, key, i) && forall n | j < n < k :: r.actions[n] != Forget(key) && r.actions[n] != Complete(i)
  }

  lemma StartRegisters(s: State, a: Action)
    requires Enabled(s, a) && (a.Do? || a.DoChan?) && a.key !in s.m
    ensures a.key in Step(s, a).m && Step(s, a).m[a.key] == a.newborn
  {
  }

  /** How a key comes to be registered: it was before, or this step registered it. */
  lemma RegistrationCame(s: State, a: Action, key: Key)
    requires Inv(s) && Enabled(s, a) && key in Step(s, a).m
    ensures var i := Step(s, a).m[key];
      || (key in s.m && s.m[key] == i && a != Forget(key) && a != Complete(i))
      || ((a.Do? || a.DoChan?) && a.key == key && a.newborn == i && key !in s.m)
  {
    hide CallsOk, PartiesOk, PlacesOk, ChannelsOk, LivesOk;
  }

  lemma {:induction false} RegisteredWasStarted(r: Run, k: nat, key: Key)
    requires IsRun(r) && k < |r.states| && key in r.states[k].m
    ensures InFlight(r, k, key, r.states[k].m[key])
  {
    hide Step, Enabled, Inv;
    if k > 0 {
      var i, s, a := r.states[k].m[key], r.states[k - 1], r.actions[k - 1];
      RunKeepsInv(r, k - 1);
      RegistrationCame(s, a, key);
      if key in s.m {
        RegisteredWasStarted(r, k - 1, key);
        var j: nat :| j < k - 1 && Starts(r, j, key, i) && forall n | j < n < k - 1 :: r.actions[n] != Forget(key) && r.actions[n] != Complete(i);
        assert Starts(r, j, key, i);
      } else {
        assert Starts(r, k - 1, key, i);
      }
    }
  }

  /** In every run a call is registered for a key exactly while it is in flight. */
  lemma RegisteredIffInFlight(r: Run, k: nat, key: Key, i: CallId)
    requires IsRun(r) && k < |r.states|
    ensures (key in r.states[k].m && r.states[k].m[key] == i) <==> InFlight(r, k, key, i)
  {
    hide Step, Init, Enabled;
    if key in r.states[k].m { RegisteredWasStarted(r, k, key); }
    if InFlight(r, k, key, i) {
      var j: nat :| j < k && Starts(r, j, key, i) && forall n | j < n < k :: r.actions[n] != Forget(key) && r.actions[n] != Complete(i);
      StartRegisters(r.states[j], r.actions[j]);
      RegistrationsLast(r, j + 1, k, key);
    }
  }

  /**
    A Do waits for call i exactly if i is in flight for its key; with none in flight it leads a call of its own, which
    then has no other member.
   */
  lemma JoinsIffInFlight(r: Run, k: nat, g: Caller, key: Key, newborn: CallId, i: CallId)
    requires IsRun(r) && k < |r.actions| && r.actions[k] == Do(g, key, newborn)
    ensures g in r.states[k + 1].callers
    ensures r.states[k + 1].callers[g] == Waiting(i) <==> InFlight(r, k, key, i)
    ensures (forall c :: !InFlight(r, k, key, c)) ==>
      newborn in r.states[k + 1].calls && r.states[k + 1].callers[g] == Leading(newborn) && r.states[k + 1].calls[newborn].members == {ByDo(g)}
  {
    hide InFlight;
    RegisteredIffInFlight(r, k, key, i);
    assert Enabled(r.states[k], r.actions[k]) && r.states[k + 1] == Step(r.states[k], r.actions[k]);
    if key in r.states[k].m { RegisteredIffInFlight(r, k, key, r.states[k].m[key]); }
  }

  /** After Forget, the next Do of the key does not wait for an earlier call. */
  lemma ForgetStartsAfresh(r: Run, j: nat, k: nat, g: Caller, key: Key, newborn: CallId)
    requires IsRun(r) && j < k < |r.actions| && r.actions[j] == Forget(key) && r.actions[k] == Do(g, key, newborn)
    requires forall n | j < n < k :: !((r.actions[n].Do? || r.actions[n].DoChan?) && r.actions[n].key == key)
    ensures g in r.states[k + 1].callers && r.states[k + 1].callers[g] == Leading(newborn)
  {
    hide Init, Step, Enabled;
    forall c ensures !InFlight(r, k, key, c) {
      forall n: nat | n < k && Starts(r, n, key, c) ensures n < j < k && r.actions[j] == Forget(key) {
      }
    }
    JoinsIffInFlight(r, k, g, key, newborn, newborn);
  }
}
