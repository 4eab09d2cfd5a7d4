/**
  Runs the code allows and its design would not want: a member that leads in a term it did not win, two leaders of
  one term, and, when a prune forgets a vote of a term not yet past, two members elected in one term.
 */
module ElectionFindings {
  import opened Options
  import opened ClusterRules
  import opened ElectionProtocol
  import opened ElectionInvariants
  import opened ElectionSafety
  import opened ElectionTheorems
  import opened ElectionLeaders

  ghost predicate Ends(nodes: set<Id>, r: Run, s: State) { |r.states| > 0 && IsRun(nodes, r) && r.states[|r.states| - 1] == s }

  ghost predicate Has(s: State, i: Id, l: Local, f: Fights) {
    i in s.locals && i in s.fights && s.locals[i] == l && s.fights[i] == f
  }

  ghost predicate NoPrunes(r: Run) { forall a | a in r.actions :: !a.Prune? }

  lemma NoPrunesIsSafe(r: Run)
    requires NoPrunes(r)
    ensures PrunesSafely(r)
  {
    forall k | 0 <= k < |r.actions| && k < |r.states| ensures PrunesPastTerms(r.states[k], r.actions[k]) {
      assert r.actions[k] in r.actions;
    }
  }

  lemma Extend(nodes: set<Id>, r: Run, s: State, a: Action) returns (r': Run)
    requires Ends(nodes, r, s) && Enabled(s, a)
    ensures Ends(nodes, r', Step(s, a)) && (NoPrunes(r) && !a.Prune? ==> NoPrunes(r'))
  {
    hide Init, Enabled, EffectOf, Apply;
    r' := Run(r.states + [Step(s, a)], r.actions + [a]);
    forall k: nat | k < |r'.actions| ensures Follows(r', k) {
      if k < |r.actions| { assert Follows(r, k) && r'.states[k] == r.states[k] && r'.states[k + 1] == r.states[k + 1]; }
    }
  }

  /** Member `i` takes action `a`; the others, and the messages it does not use up, stay. */
  lemma Act(nodes: set<Id>, r: Run, s: State, a: Action, l: Local, f: Fights) returns (r': Run, s': State)
    requires Ends(nodes, r, s) && Has(s, l.me, l, f) && Actor(a) == l.me && Able(l, f, a)
    requires a.Deliver? || a.Drop? ==> a.m in s.net
    requires EffectOn(l, f, a).node == l.me
    ensures Ends(nodes, r', s') && Has(s', l.me, EffectOn(l, f, a).after, EffectOn(l, f, a).fights)
    ensures forall j, k, g | j != l.me && Has(s, j, k, g) :: Has(s', j, k, g)
    ensures forall m | m in EffectOn(l, f, a).sent :: m in s'.net
    ensures forall m | m in s.net && m !in EffectOn(l, f, a).consumed :: m in s'.net
    ensures s'.won == s.won + EffectOn(l, f, a).won && (NoPrunes(r) && !a.Prune? ==> NoPrunes(r'))
  {
    hide Able, EffectOn, IsRun, NoPrunes;
    r' := Extend(nodes, r, s, a);
    s' := Step(s, a);
  }

  // ---- a round of an election, as far as the wait for votes -------------------------------

  predicate CanStand(l: Local) {
    && l.me in l.terms && l.leader == NO_ID && !l.fighting && OnlineMajority(l)
    && (l.status.Follower? || l.status.Candidate?)
  }

  /** `l` once it waits for the votes of its next term. */
  function Stands(l: Local): Local {
    l.(terms := l.terms[l.me := Own(l) + 1], status := Candidate, fighting := true)
  }

  function Ask(l: Local, p: Id, kind: Kind): Msg { Msg(kind, l.me, p, Own(l) + 1, NO_ID, None, false) }

  lemma StartEffect(l: Local, f: Fights)
    requires l.me in l.terms && l.leader == NO_ID && !l.fighting && (l.status.Follower? || l.status.Candidate?) && f.spawned > 0
    ensures var e := EffectOn(l, f, FightStart(l.me)); var t := Own(l) + 1;
      && e.node == l.me && e.after == Stands(l).(status := l.status)
      && e.fights == Fights(f.spawned - 1, f.past + multiset{Asking(t)}) && e.consumed == multiset{}
  {
  }

  lemma AskEffect(l: Local, f: Fights, t: int, p: Id)
    requires l.leader == NO_ID && OnlineMajority(l) && f.past == multiset{Asking(t)} && p in l.connected
    ensures var e := EffectOn(l, f, FightAsk(l.me, t));
      && e.node == l.me && e.after == l && e.fights == Fights(f.spawned, multiset{Standing(t)}) && e.consumed == multiset{}
      && Msg(AskLeader, l.me, p, t, NO_ID, None, false) in e.sent
  {
    assert f.past - multiset{Asking(t)} + multiset{Standing(t)} == multiset{Standing(t)};
  }

  lemma StandEffect(l: Local, f: Fights, t: int)
    requires l.leader == NO_ID && (l.status.Follower? || l.status.Candidate?) && f.past == multiset{Standing(t)}
    ensures var e := EffectOn(l, f, FightStand(l.me, t));
      && e.node == l.me && e.after == l.(status := Candidate) && e.fights == Fights(f.spawned, multiset{Polling(t)}) && e.consumed == multiset{}
  {
    assert f.past - multiset{Standing(t)} + multiset{Polling(t)} == multiset{Polling(t)};
  }

  lemma PollEffect(l: Local, f: Fights, t: int, p: Id)
    requires l.leader == NO_ID && l.status.Candidate? && OnlineMajority(l) && Own(l) == t && f.past == multiset{Polling(t)} && p in l.connected
    ensures var e := EffectOn(l, f, FightPoll(l.me, t));
      && e.node == l.me && e.after == l && e.fights == Fights(f.spawned, multiset{Counting(t)}) && e.consumed == multiset{}
      && Msg(GetVote, l.me, p, t, NO_ID, None, false) in e.sent
  {
    assert f.past - multiset{Polling(t)} + multiset{Counting(t)} == multiset{Counting(t)};
  }

  /** Everyone but `i`, and every message, of `s` is still there in `s'`. */
  ghost predicate Undisturbed(s: State, s': State, i: Id) {
    && (forall j, l, f | j != i && Has(s, j, l, f) :: Has(s', j, l, f))
    && (forall m | m in s.net :: m in s'.net) && s.won <= s'.won
  }

  lemma BeginElection(nodes: set<Id>, r: Run, s: State, l: Local, n: nat, p: Id) returns (r': Run, s': State)
    requires Ends(nodes, r, s) && Has(s, l.me, l, Fights(n + 1, multiset{})) && CanStand(l) && p in l.connected
    ensures Ends(nodes, r', s') && Has(s', l.me, Stands(l).(status := l.status), Fights(n, multiset{Standing(Own(l) + 1)}))
    ensures Ask(l, p, AskLeader) in s'.net && Undisturbed(s, s', l.me) && (NoPrunes(r) ==> NoPrunes(r'))
  {
    hide EffectOn, Ends, NoPrunes, IsReady, IsPruned, Stands, OnlineMajority;
    var t := Own(l) + 1;
    StandsHolds(l);
    StartEffect(l, Fights(n + 1, multiset{}));
    r', s' := Act(nodes, r, s, FightStart(l.me), l, Fights(n + 1, multiset{}));
    var l1, f1 := Stands(l).(status := l.status), Fights(n, multiset{} + multiset{Asking(t)});
    AskEffect(l1, f1, t, p);
    r', s' := Act(nodes, r', s', FightAsk(l.me, t), l1, f1);
  }

  lemma StandForElection(nodes: set<Id>, r: Run, s: State, l: Local, n: nat, p: Id) returns (r': Run, s': State)
    requires Ends(nodes, r, s) && Has(s, l.me, l, Fights(n + 1, multiset{})) && CanStand(l) && p in l.connected
    ensures Ends(nodes, r', s') && Has(s', l.me, Stands(l), Fights(n, multiset{Counting(Own(l) + 1)}))
    ensures Ask(l, p, AskLeader) in s'.net && Ask(l, p, GetVote) in s'.net
    ensures Undisturbed(s, s', l.me) && (NoPrunes(r) ==> NoPrunes(r'))
  {
    hide EffectOn, Ends, NoPrunes, IsReady, IsPruned, Stands, OnlineMajority;
    var t := Own(l) + 1;
    StandsHolds(l);
    r', s' := BeginElection(nodes, r, s, l, n, p);
    var l1, f1, f2 := Stands(l).(status := l.status), Fights(n, multiset{Standing(t)}), Fights(n, multiset{Polling(t)});
    StandEffect(l1, f1, t);
    r', s' := Act(nodes, r', s', FightStand(l.me, t), l1, f1);
    PollEffect(Stands(l), f2, t, p);
    r', s' := Act(nodes, r', s', FightPoll(l.me, t), Stands(l), f2);
  }

  lemma StandsHolds(l: Local)
    requires l.me in l.terms
    ensures Stands(l).me == l.me && Stands(l).leader == l.leader && Stands(l).connected == l.connected
    ensures Own(Stands(l)) == Own(l) + 1 && Stands(l).status == Candidate
    ensures OnlineMajority(Stands(l)) == OnlineMajority(l) == OnlineMajority(Stands(l).(status := l.status))
    ensures Stands(l).(status := l.status).(status := Candidate) == Stands(l)
  {
    assert Stands(l).terms.Keys == l.terms.Keys;
    assert |Stands(l).terms| == |Stands(l).terms.Keys|;
  }

  /** Everyone but `i`, and every message but `m`, of `s` is still there in `s'`. */
  ghost predicate UndisturbedBut(s: State, s': State, i: Id, m: Msg) {
    && (forall j, l, f | j != i && Has(s, j, l, f) :: Has(s', j, l, f))
    && (forall x | x in s.net && x != m :: x in s'.net) && s.won <= s'.won
  }

  lemma VoteEffect(l: Local, f: Fights, m: Msg)
    requires m.kind.GetVote? && m.to == l.me && !l.status.Leader? && Grants(l, m.term)
    ensures var e := EffectOn(l, f, Deliver(m));
      && e.node == l.me && e.after == l.(voteNode := l.voteNode[m.term := m.from]) && e.fights == f && e.consumed == multiset{m}
      && GrantMsg(Vote(l.me, m.term, m.from)) in e.sent && e.granted == {Vote(l.me, m.term, m.from)}
  {
  }

  lemma GiveVote(nodes: set<Id>, r: Run, s: State, l: Local, f: Fights, m: Msg) returns (r': Run, s': State)
    requires Ends(nodes, r, s) && Has(s, l.me, l, f) && m in s.net
    requires m.kind.GetVote? && m.to == l.me && !l.status.Leader? && Grants(l, m.term)
    ensures Ends(nodes, r', s') && Has(s', l.me, l.(voteNode := l.voteNode[m.term := m.from]), f)
    ensures GrantMsg(Vote(l.me, m.term, m.from)) in s'.net && UndisturbedBut(s, s', l.me, m)
    ensures NoPrunes(r) ==> NoPrunes(r')
  {
    hide EffectOn, Ends, NoPrunes, Grants;
    VoteEffect(l, f, m);
    r', s' := Act(nodes, r, s, Deliver(m), l, f);
  }

  lemma StartUpEffect(l: Local, f: Fights)
    requires l.status.Unstarted?
    ensures var e := EffectOn(l, f, StartUp(l.me));
      e.node == l.me && e.after == l.(status := Follower) && e.fights == Spawn(f) && e.consumed == multiset{}
  {
  }

  lemma ConnectEffect(l: Local, f: Fights, j: Id)
    requires j in l.terms && j != l.me && j !in l.connected
    ensures var e := EffectOn(l, f, Connect(l.me, j));
      && e.node == l.me && e.after == l.(alive := l.alive + {j}, connected := l.connected + {j})
      && e.fights == f && e.consumed == multiset{}
  {
  }

  /** A member as configured. */
  ghost function Blank(nodes: set<Id>, i: Id): Local {
    Local(i, Unstarted, NO_ID, map x | x in nodes :: 0, map[], map[], {}, {}, false)
  }

  /** ... and once it is up and connected to `p`. */
  ghost function Up(nodes: set<Id>, i: Id, p: Id): Local {
    Blank(nodes, i).(status := Follower, alive := {p}, connected := {p})
  }

  lemma Begin(nodes: set<Id>) returns (r: Run, s: State)
    requires NO_ID !in nodes
    ensures Ends(nodes, r, s) && NoPrunes(r) && forall i | i in nodes :: Has(s, i, Blank(nodes, i), Fights(0, multiset{}))
  {
    s := State(map i | i in nodes :: Blank(nodes, i), map i | i in nodes :: Fights(0, multiset{}), multiset{}, {}, {}, {}, {}, 0);
    assert Init(nodes, s);
    r := Run([s], []);
  }

  lemma ComeUp(nodes: set<Id>, r: Run, s: State, i: Id, p: Id) returns (r': Run, s': State)
    requires Ends(nodes, r, s) && Has(s, i, Blank(nodes, i), Fights(0, multiset{})) && p in nodes && p != i
    ensures Ends(nodes, r', s') && Has(s', i, Up(nodes, i, p), Fights(1, multiset{})) && Undisturbed(s, s', i)
    ensures NoPrunes(r) ==> NoPrunes(r')
  {
    hide EffectOn, Ends, NoPrunes;
    var l := Blank(nodes, i);
    StartUpEffect(l, Fights(0, multiset{}));
    var r1, s1 := Act(nodes, r, s, StartUp(i), l, Fights(0, multiset{}));
    var l1 := l.(status := Follower);
    ConnectEffect(l1, Fights(1, multiset{}), p);
    r', s' := Act(nodes, r1, s1, Connect(i, p), l1, Fights(1, multiset{}));
  }

  // ---- the steps that end an election -----------------------------------------------------

  lemma TallyEffect(l: Local, f: Fights, v: Vote)
    requires l.me == v.candidate && l.leader == NO_ID
    ensures var e := EffectOn(l, f, Deliver(GrantMsg(v)));
      && e.node == l.me && e.after == AddVote(LearnTerms(l, GrantMsg(v)), v.term)
      && e.fights == f && e.consumed == multiset{GrantMsg(v)}
  {
    hide Raise;
  }

  lemma WinEffect(l: Local, f: Fights, t: int)
    requires f.past == multiset{Counting(t)} && Majority(SelfVote(l, t), t) && NobodyAhead(SelfVote(l, t), t)
    ensures var e := EffectOn(l, f, FightCount(l.me, t));
      && e.node == l.me && e.after == SelfVote(l, t) && e.fights == Fights(f.spawned, multiset{Confirming(t)})
      && e.consumed == multiset{} && e.won == {Bid(l.me, t)}
      && forall p | p in SelfVote(l, t).connected :: Msg(BroadcastLeader, l.me, p, t, l.me, None, true) in e.sent
  {
    hide SelfVote, Majority, NobodyAhead, Grants;
    assert f.past - multiset{Counting(t)} + multiset{Confirming(t)} == multiset{Confirming(t)};
  }

  lemma LoseEffect(l: Local, f: Fights, t: int)
    requires f.past == multiset{Counting(t)} && !Majority(SelfVote(l, t), t)
    ensures var e := EffectOn(l, f, FightCount(l.me, t));
      && e.node == l.me && e.after == SelfVote(l, t).(fighting := false) && e.fights == Fights(f.spawned + 1, multiset{})
      && e.consumed == multiset{}
  {
    hide SelfVote, Majority, NobodyAhead, Grants, ToPeers;
    assert f.past - multiset{Counting(t)} == multiset{};
  }

  lemma SignEffect(l: Local, f: Fights, t: int, replies: seq<Msg>)
    requires l.me != NO_ID && Confirming(t) in f.past && Confirmed(replies) && SignAllowed(l, l.me) && l.leader != l.me
    ensures var e := EffectOn(l, f, FightConfirm(l.me, t, replies));
      e.node == l.me && e.after == l.(leader := l.me, status := Leader, fighting := false) && e.consumed == multiset{}
  {
  }

  lemma GiveUpEffect(l: Local, f: Fights, t: int)
    requires f.past == multiset{Confirming(t)}
    ensures var e := EffectOn(l, f, FightConfirm(l.me, t, []));
      && e.node == l.me && e.after == l.(fighting := false) && e.fights == Fights(f.spawned + 1, multiset{}) && e.consumed == multiset{}
  {
    assert f.past - multiset{Confirming(t)} == multiset{};
  }

  // ---- two members: the second follows the first, and is lost -----------------------------

  function Two(a: Id, b: Id, x: int, y: int): map<Id, int> { map[a := x, b := y] }

  lemma TwoHolds(a: Id, b: Id, x: int, y: int)
    requires a != b
    ensures |Two(a, b, x, y)| == 2 && Two(a, b, x, y) == Two(b, a, y, x)
  {
    assert |Two(a, b, x, y)| == |Two(a, b, x, y).Keys| && Two(a, b, x, y).Keys == {a, b};
  }

  /** Member `i` without a leader hears from `j` that `j` leads in a later term. */
  lemma FollowEffect(l: Local, f: Fights, j: Id, x: int, y: int, t: int)
    requires l.me != j && j != NO_ID && l.leader == NO_ID && l.terms == Two(l.me, j, x, y) && x < t && y <= t
    ensures var m := Msg(BroadcastLeader, j, l.me, t, j, None, true); var e := EffectOn(l, f, Deliver(m));
      && e.node == l.me && e.after == l.(terms := Two(l.me, j, t, t), leader := j, status := Follower)
      && e.fights == f && e.consumed == multiset{m}
  {
    hide Replies;
    assert Raise(Raise(Raise(l.terms, l.me, t), j, t), j, t) == Two(l.me, j, t, t);
  }

  lemma LostEffect(a: Id, l: Local, f: Fights)
    requires l.leader == a && a in l.connected && !l.status.Closed?
    ensures var e := EffectOn(l, f, SessionClosed(l.me, a));
      && e.node == l.me && e.fights == Spawn(f) && e.consumed == multiset{}
      && e.after == ReleaseLeader(l.(alive := l.alive - {a}, connected := l.connected - {a}))
  {
    hide OnlineMajority;
  }

  /** A grant of term t from `j` raises what the candidate knows of `j`. */
  lemma GrantTerms(l: Local, j: Id, y: int, t: int)
    requires l.me != j && j != NO_ID && l.me != NO_ID && l.terms == Two(l.me, j, t, y) && y <= t
    ensures LearnTerms(l, GrantMsg(Vote(j, t, l.me))) == l.(terms := Two(l.me, j, t, t))
  {
    assert Raise(Raise(l.terms, l.me, t), j, t) == Two(l.me, j, t, t);
  }

  /** With the vote of the other member, a candidate of two has a majority. */
  lemma PairWins(l: Local, j: Id, t: int)
    requires l.me != j && l.terms == Two(l.me, j, t, t) && Tally(l, t) == 1 && t !in l.voteNode
    ensures Majority(SelfVote(l, t), t) && NobodyAhead(SelfVote(l, t), t)
    ensures SelfVote(l, t) == l.(voteNode := l.voteNode[t := l.me], voteCount := l.voteCount[t := 2])
  {
    TwoHolds(l.me, j, t, t);
  }

  /** `a` once it has won term 1 and waits for confirmation; its own term may since be `t`. */
  ghost function Winner(a: Id, b: Id, t: int): Local {
    Local(a, Candidate, NO_ID, Two(a, b, t, t), map[1 := a], map[1 := 2], {b}, {b}, true)
  }

  ghost function Voter(a: Id, b: Id): Local {
    Local(b, Follower, NO_ID, Two(b, a, 0, 0), map[1 := a], map[], {a}, {a}, false)
  }

  lemma PairHolds(a: Id, b: Id, nodes: set<Id>)
    requires a != b && a != NO_ID && b != NO_ID && nodes == {a, b}
    ensures Up(nodes, a, b) == Local(a, Follower, NO_ID, Two(a, b, 0, 0), map[], map[], {b}, {b}, false)
    ensures Up(nodes, b, a) == Local(b, Follower, NO_ID, Two(b, a, 0, 0), map[], map[], {a}, {a}, false)
    ensures CanStand(Up(nodes, a, b)) && Own(Up(nodes, a, b)) == 0
    ensures Stands(Up(nodes, a, b)) == Local(a, Candidate, NO_ID, Two(a, b, 1, 0), map[], map[], {b}, {b}, true)
  {
    assert (map x: Id | x in nodes :: 0) == Two(a, b, 0, 0) == Two(b, a, 0, 0);
    TwoHolds(a, b, 0, 0);
  }

  /** What the two members have come to. */
  ghost predicate Pair(nodes: set<Id>, r: Run, s: State, a: Id, b: Id, l: Local, f: Fights, k: Local, g: Fights) {
    a != b && a != NO_ID && b != NO_ID && nodes == {a, b} && Ends(nodes, r, s) && NoPrunes(r) && Has(s, a, l, f) && Has(s, b, k, g)
  }

  lemma AsksForVotes(a: Id, b: Id, nodes: set<Id>) returns (r: Run, s: State)
    requires a != b && a != NO_ID && b != NO_ID && nodes == {a, b}
    ensures Pair(nodes, r, s, a, b, Stands(Up(nodes, a, b)), Fights(0, multiset{Counting(1)}), Up(nodes, b, a), Fights(1, multiset{}))
    ensures Msg(AskLeader, a, b, 1, NO_ID, None, false) in s.net && Msg(GetVote, a, b, 1, NO_ID, None, false) in s.net
  {
    hide EffectOn, Ends, Blank, Up, Stands, CanStand, NoPrunes;
    PairHolds(a, b, nodes);
    r, s := Begin(nodes);
    r, s := ComeUp(nodes, r, s, a, b);
    r, s := ComeUp(nodes, r, s, b, a);
    r, s := StandForElection(nodes, r, s, Up(nodes, a, b), 0, b);
  }

  /** The candidate of a pair gets the other's vote in term t, and wins. */
  lemma PairElects(nodes: set<Id>, r0: Run, s0: State, l: Local, n: nat, j: Id, y: int, t: int) returns (r: Run, s: State)
    requires Ends(nodes, r0, s0) && Has(s0, l.me, l, Fights(n, multiset{Counting(t)})) && GrantMsg(Vote(j, t, l.me)) in s0.net
    requires l.me != j && j != NO_ID && l.me != NO_ID && l.leader == NO_ID && l.terms == Two(l.me, j, t, y) && y <= t
    requires l.voteCount == map[] && t !in l.voteNode && j in l.connected
    ensures Ends(nodes, r, s) && (NoPrunes(r0) ==> NoPrunes(r)) && Bid(l.me, t) in s.won
    ensures Has(s, l.me, l.(terms := Two(l.me, j, t, t), voteNode := l.voteNode[t := l.me], voteCount := map[t := 2]), Fights(n, multiset{Confirming(t)}))
    ensures Msg(BroadcastLeader, l.me, j, t, l.me, None, true) in s.net
    ensures UndisturbedBut(s0, s, l.me, GrantMsg(Vote(j, t, l.me)))
  {
    hide EffectOn, Ends, SelfVote, Majority, NobodyAhead, LearnTerms, NoPrunes;
    var f := Fights(n, multiset{Counting(t)});
    TallyEffect(l, f, Vote(j, t, l.me));
    GrantTerms(l, j, y, t);
    r, s := Act(nodes, r0, s0, Deliver(GrantMsg(Vote(j, t, l.me))), l, f);
    var l2 := AddVote(l.(terms := Two(l.me, j, t, t)), t);
    PairWins(l2, j, t);
    WinEffect(l2, f, t);
    r, s := Act(nodes, r, s, FightCount(l.me, t), l2, f);
  }

  lemma WinsTermOne(a: Id, b: Id, nodes: set<Id>) returns (r: Run, s: State)
    requires a != b && a != NO_ID && b != NO_ID && nodes == {a, b}
    ensures Pair(nodes, r, s, a, b, Winner(a, b, 1), Fights(0, multiset{Confirming(1)}), Voter(a, b), Fights(1, multiset{}))
    ensures Msg(AskLeader, a, b, 1, NO_ID, None, false) in s.net && Msg(BroadcastLeader, a, b, 1, a, None, true) in s.net
    ensures Bid(a, 1) in s.won
  {
    hide EffectOn, Ends, Blank, Up, Stands, NoPrunes;
    PairHolds(a, b, nodes);
    r, s := AsksForVotes(a, b, nodes);
    r, s := GiveVote(nodes, r, s, Up(nodes, b, a), Fights(1, multiset{}), Msg(GetVote, a, b, 1, NO_ID, None, false));
    r, s := PairElects(nodes, r, s, Stands(Up(nodes, a, b)), 0, b, 0, 1);
  }

  /** `b` once it followed `a` in term 1 and lost it; `up` says who it is connected to. */
  ghost function Orphan(a: Id, b: Id, up: set<Id>): Local {
    Local(b, Follower, NO_ID, Two(b, a, 1, 1), map[1 := a], map[], up, up, false)
  }

  lemma LosesItsLeader(a: Id, b: Id, nodes: set<Id>) returns (r: Run, s: State)
    requires a != b && a != NO_ID && b != NO_ID && nodes == {a, b}
    ensures Pair(nodes, r, s, a, b, Winner(a, b, 1), Fights(0, multiset{Confirming(1)}), Orphan(a, b, {}), Fights(2, multiset{}))
    ensures Msg(AskLeader, a, b, 1, NO_ID, None, false) in s.net && Bid(a, 1) in s.won
  {
    hide EffectOn, Ends, Winner, NoPrunes;
    r, s := WinsTermOne(a, b, nodes);
    var f := Fights(1, multiset{});
    FollowEffect(Voter(a, b), f, a, 0, 0, 1);
    r, s := Act(nodes, r, s, Deliver(Msg(BroadcastLeader, a, b, 1, a, None, true)), Voter(a, b), f);
    var l1 := Voter(a, b).(terms := Two(b, a, 1, 1), leader := a);
    LostEffect(a, l1, f);
    r, s := Act(nodes, r, s, SessionClosed(b, a), l1, f);
  }

  // ---- a leader in a term it did not win --------------------------------------------------

  lemma AnswerEffect(a: Id, l: Local, f: Fights)
    requires l.leader == NO_ID
    ensures var m := Msg(AskLeader, a, l.me, 1, NO_ID, None, false); var e := EffectOn(l, f, Deliver(m));
      && e.node == l.me && e.after == l && e.fights == f && e.consumed == multiset{m}
      && Msg(ReAskLeader, l.me, a, Own(l), NO_ID, None, false) in e.sent
  {
  }

  lemma OutgrowEffect(a: Id, b: Id, l: Local, f: Fights)
    requires a != b && a != NO_ID && b != NO_ID && l.me == a && l.leader == NO_ID && l.terms == Two(a, b, 1, 1)
    ensures var m := Msg(ReAskLeader, b, a, 2, NO_ID, None, false); var e := EffectOn(l, f, Deliver(m));
      e.node == a && e.after == l.(terms := Two(a, b, 2, 2)) && e.fights == f && e.consumed == multiset{m}
  {
    assert Raise(Raise(l.terms, a, 2), b, 2) == Two(a, b, 2, 2);
  }

  lemma AnswersFromTermTwo(a: Id, b: Id, nodes: set<Id>) returns (r: Run, s: State)
    requires a != b && a != NO_ID && b != NO_ID && nodes == {a, b}
    ensures Ends(nodes, r, s) && Has(s, a, Winner(a, b, 1), Fights(0, multiset{Confirming(1)}))
    ensures Msg(ReAskLeader, b, a, 2, NO_ID, None, false) in s.net
  {
    hide EffectOn, Ends, Winner, NoPrunes;
    r, s := LosesItsLeader(a, b, nodes);
    var l2 := Orphan(a, b, {});
    StartEffect(l2, Fights(2, multiset{}));
    r, s := Act(nodes, r, s, FightStart(b), l2, Fights(2, multiset{}));
    var l3 := Stands(l2).(status := Follower);
    AnswerEffect(a, l3, Fights(1, multiset{} + multiset{Asking(2)}));
    r, s := Act(nodes, r, s, Deliver(Msg(AskLeader, a, b, 1, NO_ID, None, false)), l3, Fights(1, multiset{} + multiset{Asking(2)}));
  }

  /**
    A run of a two-member cluster that ends with member `a` leading in term 2, which it has not won: a
    late answer to its AskLeader raised its term while it waited for the confirmation of term 1.
   */
  lemma LeadsATermItDidNotWin(a: Id, b: Id, nodes: set<Id>) returns (r: Run, s: State)
    requires a != b && a != NO_ID && b != NO_ID && nodes == {a, b}
    ensures Ends(nodes, r, s) && a in s.locals
    ensures s.locals[a].leader == a && s.locals[a].status == Leader && Own(s.locals[a]) == 2
    ensures Bid(a, 1) in s.won && Bid(a, 2) !in s.won
  {
    hide EffectOn, BidsOk, Base, Good, IsRun;
    var f := Fights(0, multiset{Confirming(1)});
    r, s := AnswersFromTermTwo(a, b, nodes);
    OutgrowEffect(a, b, Winner(a, b, 1), f);
    r, s := Act(nodes, r, s, Deliver(Msg(ReAskLeader, b, a, 2, NO_ID, None, false)), Winner(a, b, 1), f);
    var action := FightConfirm(a, 1, [Msg(ReLeader, b, a, 1, NO_ID, Some(true), false)]);
    SignEffect(Winner(a, b, 2), f, 1, action.replies);
    RunIsGood(nodes, r, |r.states| - 1);
    assert Enabled(s, action);
    SigningIsEarned(nodes, s, action);
    r := Extend(nodes, r, s, action);
    s := Step(s, action);
  }

  // ---- two leaders of one term ------------------------------------------------------------

  /** `b` waits for the votes of term 2. */
  ghost function Challenger(a: Id, b: Id): Local {
    Local(b, Candidate, NO_ID, Two(b, a, 2, 1), map[1 := a], map[], {a}, {a}, true)
  }

  lemma OrphanStands(a: Id, b: Id)
    requires a != b && a != NO_ID && b != NO_ID
    ensures var l := Orphan(a, b, {a}); CanStand(l) && Own(l) == 1 && Stands(l) == Challenger(a, b)
  {
    TwoHolds(b, a, 1, 1);
    assert Two(b, a, 1, 1)[b := 2] == Two(b, a, 2, 1);
  }

  lemma Challenges(a: Id, b: Id, nodes: set<Id>) returns (r: Run, s: State)
    requires a != b && a != NO_ID && b != NO_ID && nodes == {a, b}
    ensures Pair(nodes, r, s, a, b, Winner(a, b, 1), Fights(0, multiset{Confirming(1)}), Challenger(a, b), Fights(1, multiset{Counting(2)}))
    ensures Msg(GetVote, b, a, 2, NO_ID, None, false) in s.net
  {
    hide EffectOn, Ends, Winner, Stands, CanStand, NoPrunes;
    r, s := LosesItsLeader(a, b, nodes);
    ConnectEffect(Orphan(a, b, {}), Fights(2, multiset{}), a);
    r, s := Act(nodes, r, s, Connect(b, a), Orphan(a, b, {}), Fights(2, multiset{}));
    assert {} + {a} == {a};
    OrphanStands(a, b);
    r, s := StandForElection(nodes, r, s, Orphan(a, b, {a}), 1, a);
  }

  /** `b` once it has won term 2. */
  ghost function Second(a: Id, b: Id): Local {
    Local(b, Candidate, NO_ID, Two(b, a, 2, 2), map[1 := a, 2 := b], map[2 := 2], {a}, {a}, true)
  }

  lemma WinsTermTwo(a: Id, b: Id, nodes: set<Id>) returns (r: Run, s: State)
    requires a != b && a != NO_ID && b != NO_ID && nodes == {a, b}
    ensures Pair(nodes, r, s, a, b, Winner(a, b, 1).(voteNode := map[1 := a, 2 := b]), Fights(0, multiset{Confirming(1)}),
                 Second(a, b), Fights(1, multiset{Confirming(2)}))
    ensures Msg(BroadcastLeader, b, a, 2, b, None, true) in s.net
  {
    hide EffectOn, Ends, NoPrunes;
    r, s := Challenges(a, b, nodes);
    r, s := GiveVote(nodes, r, s, Winner(a, b, 1), Fights(0, multiset{Confirming(1)}), Msg(GetVote, b, a, 2, NO_ID, None, false));
    r, s := PairElects(nodes, r, s, Challenger(a, b), 1, a, 1, 2);
  }

  lemma PairMaySign(l: Local, j: Id)
    requires l.me != j && l.terms == Two(l.me, j, 2, 2) && (l.leader == NO_ID || l.leader == j)
    ensures SignAllowed(l, l.me)
  {
  }

  /**
    Two leaders of one term, without any pruning: `a` follows `b` into term 2, which `b` has won, while `a` still
    waits for the confirmation of term 1; then it signs itself over `b`, and `b` signs itself too.
   */
  lemma TwoLeadersInOneTerm(a: Id, b: Id, nodes: set<Id>) returns (r: Run, s: State)
    requires a != b && a != NO_ID && b != NO_ID && nodes == {a, b}
    ensures Ends(nodes, r, s) && PrunesSafely(r) && !ConfirmsInTerm(r)
    ensures Leads(s, a) && s.locals[a].status == Leader && Own(s.locals[a]) == 2
    ensures Leads(s, b) && s.locals[b].status == Leader && Own(s.locals[b]) == 2
  {
    hide EffectOn, Ends, NoPrunes, PrunesSafely, ConfirmsInTerm, SignAllowed;
    r, s := WinsTermTwo(a, b, nodes);
    var l, f := Winner(a, b, 1).(voteNode := map[1 := a, 2 := b]), Fights(0, multiset{Confirming(1)});
    FollowEffect(l, f, b, 1, 1, 2);
    r, s := Act(nodes, r, s, Deliver(Msg(BroadcastLeader, b, a, 2, b, None, true)), l, f);
    var l1 := l.(terms := Two(a, b, 2, 2), leader := b, status := Follower);
    PairMaySign(l1, b);
    var fromB, fromA := [Msg(ReLeader, b, a, 1, NO_ID, Some(true), false)], [Msg(ReLeader, a, b, 2, NO_ID, Some(true), false)];
    SignEffect(l1, f, 1, fromB);
    r, s := Act(nodes, r, s, FightConfirm(a, 1, fromB), l1, f);
    var k, g := Second(a, b), Fights(1, multiset{Confirming(2)});
    PairMaySign(k, a);
    SignEffect(k, g, 2, fromA);
    r, s := Act(nodes, r, s, FightConfirm(b, 2, fromA), k, g);
    NoPrunesIsSafe(r);
    if ConfirmsInTerm(r) { NotOnlyOneLeader(nodes, r, s, a, b); }
  }

  lemma NotOnlyOneLeader(nodes: set<Id>, r: Run, s: State, a: Id, b: Id)
    requires Ends(nodes, r, s) && PrunesSafely(r) && nodes == {a, b} && a != b
    requires Leads(s, a) && Leads(s, b) && Own(s.locals[a]) == Own(s.locals[b])
    ensures !ConfirmsInTerm(r)
  {
    hide IsRun, PrunesSafely, ConfirmsInTerm, Own;
    if ConfirmsInTerm(r) { OneLeaderPerTerm(nodes, r, |r.states| - 1, |r.states| - 1, Own(s.locals[a]), a, b); }
  }

  // ---- two members elected in one term, once a prune forgets a vote that is not past ------

  function Three(x: int, y: int, z: int): map<Id, int> { map[1 := x, 2 := y, 3 := z] }

  lemma ThreeHolds(x: int, y: int, z: int)
    ensures |Three(x, y, z)| == 3
  {
    assert |Three(x, y, z)| == |Three(x, y, z).Keys| && Three(x, y, z).Keys == {1, 2, 3};
  }

  /** Member 3 after voting for member 1 in each of the terms 1 to n; its own term is still 0. */
  ghost function Elector(n: nat): Local { Local(3, Follower, NO_ID, Three(0, 0, 0), VotesUpTo(n), map[], {1}, {1}, false) }

  /** Member 1 after it won term 1, was not confirmed, and failed in each of the terms 2 to n. */
  predicate Loser(n: nat, l: Local) {
    && l.me == 1 && l.leader == NO_ID && !l.fighting && l.status.Candidate?
    && l.terms == Three(n, 0, 1) && l.alive == {3} && l.connected == {3}
    && (forall t | t in l.voteNode :: t <= n) && (forall t | t in l.voteCount :: t <= n)
    && Tally(l, 1) == 2
  }

  ghost function Idle(i: Id): Local { Local(i, Follower, NO_ID, Three(0, 0, 0), map[], map[], {3}, {3}, false) }

  /** What a lost round keeps: the losing candidate, its elector and member 2, and that term 1 was won. */
  ghost predicate Rounds(nodes: set<Id>, r: Run, s: State, n: nat, l: Local) {
    && nodes == {1, 2, 3} && Ends(nodes, r, s) && Loser(n, l) && Bid(1, 1) in s.won
    && Has(s, 1, l, Fights(1, multiset{})) && Has(s, 3, Elector(n), Fights(1, multiset{})) && Has(s, 2, Idle(2), Fights(1, multiset{}))
  }

  lemma UpThree(nodes: set<Id>)
    requires nodes == {1, 2, 3}
    ensures Up(nodes, 1, 3) == Idle(1) && Up(nodes, 2, 3) == Idle(2) && Up(nodes, 3, 1) == Elector(0)
  {
    assert (map x: Id | x in nodes :: 0) == Three(0, 0, 0);
  }

  lemma NoRounds(nodes: set<Id>) returns (r: Run, s: State)
    requires nodes == {1, 2, 3}
    ensures Ends(nodes, r, s) && Has(s, 1, Idle(1), Fights(1, multiset{})) && Has(s, 2, Idle(2), Fights(1, multiset{}))
    ensures Has(s, 3, Elector(0), Fights(1, multiset{}))
  {
    hide EffectOn, Ends, Blank, Up, NoPrunes, Idle, Elector;
    UpThree(nodes);
    r, s := Begin(nodes);
    r, s := ComeUp(nodes, r, s, 1, 3);
    r, s := ComeUp(nodes, r, s, 2, 3);
    r, s := ComeUp(nodes, r, s, 3, 1);
  }

  /** An idle member once it waits for the votes of term 1, and once it has the vote of member 3. */
  ghost function Hopeful(i: Id, terms: map<Id, int>, votes: map<int, nat>): Local {
    Local(i, Candidate, NO_ID, terms, map[], votes, {3}, {3}, true)
  }

  lemma IdleStands(i: Id, terms: map<Id, int>)
    requires (i == 1 && terms == Three(1, 0, 0)) || (i == 2 && terms == Three(0, 1, 0))
    ensures CanStand(Idle(i)) && Own(Idle(i)) == 0 && Stands(Idle(i)) == Hopeful(i, terms, map[])
  {
    ThreeHolds(0, 0, 0);
    assert Three(0, 0, 0)[i := 1] == terms;
  }

  lemma HopefulLearns(i: Id, before: map<Id, int>, after: map<Id, int>)
    requires (i == 1 && before == Three(1, 0, 0) && after == Three(1, 0, 1)) || (i == 2 && before == Three(0, 1, 0) && after == Three(0, 1, 1))
    ensures AddVote(LearnTerms(Hopeful(i, before, map[]), GrantMsg(Vote(3, 1, i))), 1) == Hopeful(i, after, map[1 := 1])
  {
    assert Raise(Raise(Raise(before, i, 1), 3, 1), NO_ID, 1) == after;
  }

  /** The vote of member 3 and its own make a majority of three. */
  lemma HopefulWins(i: Id, terms: map<Id, int>)
    requires (i == 1 && terms == Three(1, 0, 1)) || (i == 2 && terms == Three(0, 1, 1))
    ensures var l := Hopeful(i, terms, map[1 := 1]);
      && SelfVote(l, 1) == l.(voteNode := map[1 := i], voteCount := map[1 := 2])
      && Majority(SelfVote(l, 1), 1) && NobodyAhead(SelfVote(l, 1), 1)
  {
    ThreeHolds(1, 0, 1);
    ThreeHolds(0, 1, 1);
  }

  /** Member `i` stands in term 1, gets the vote of member 3, and wins. */
  lemma IsElected(nodes: set<Id>, r0: Run, s0: State, i: Id, before: map<Id, int>, after: map<Id, int>, l3: Local) returns (r: Run, s: State)
    requires Ends(nodes, r0, s0) && Has(s0, i, Idle(i), Fights(1, multiset{})) && Has(s0, 3, l3, Fights(1, multiset{}))
    requires (i == 1 && before == Three(1, 0, 0) && after == Three(1, 0, 1)) || (i == 2 && before == Three(0, 1, 0) && after == Three(0, 1, 1))
    requires l3.me == 3 && l3.status == Follower && Grants(l3, 1)
    ensures Ends(nodes, r, s) && Bid(i, 1) in s.won && s0.won <= s.won
    ensures Has(s, i, Hopeful(i, after, map[1 := 2]).(voteNode := map[1 := i]), Fights(0, multiset{Confirming(1)}))
    ensures Has(s, 3, l3.(voteNode := l3.voteNode[1 := i]), Fights(1, multiset{}))
    ensures forall j, l, f | j != i && j != 3 && Has(s0, j, l, f) :: Has(s, j, l, f)
  {
    hide EffectOn, Ends, NoPrunes, SelfVote, Majority, NobodyAhead, LearnTerms, Grants, Idle, Hopeful, Undisturbed, UndisturbedBut;
    r, s := HasTheVotes(nodes, r0, s0, i, before, l3);
    var l, l1, f := Hopeful(i, before, map[]), Hopeful(i, after, map[1 := 1]), Fights(0, multiset{Counting(1)});
    HopefulIs(i, before, map[]);
    HopefulIs(i, after, map[1 := 1]);
    TallyEffect(l, f, Vote(3, 1, i));
    HopefulLearns(i, before, after);
    HopefulWins(i, after);
    r, s := Act(nodes, r, s, Deliver(GrantMsg(Vote(3, 1, i))), l, f);
    WinEffect(l1, f, 1);
    r, s := Act(nodes, r, s, FightCount(i, 1), l1, f);
  }

  lemma HopefulIs(i: Id, terms: map<Id, int>, votes: map<int, nat>)
    ensures var l := Hopeful(i, terms, votes); l.me == i && l.leader == NO_ID
    ensures Hopeful(i, terms, votes).(voteNode := map[1 := i], voteCount := map[1 := 2]) == Hopeful(i, terms, map[1 := 2]).(voteNode := map[1 := i])
  {
  }

  lemma HasTheVotes(nodes: set<Id>, r0: Run, s0: State, i: Id, before: map<Id, int>, l3: Local) returns (r: Run, s: State)
    requires Ends(nodes, r0, s0) && Has(s0, i, Idle(i), Fights(1, multiset{})) && Has(s0, 3, l3, Fights(1, multiset{}))
    requires (i == 1 && before == Three(1, 0, 0)) || (i == 2 && before == Three(0, 1, 0))
    requires l3.me == 3 && l3.status == Follower && Grants(l3, 1)
    ensures Ends(nodes, r, s) && s0.won <= s.won && GrantMsg(Vote(3, 1, i)) in s.net
    ensures Has(s, i, Hopeful(i, before, map[]), Fights(0, multiset{Counting(1)}))
    ensures Has(s, 3, l3.(voteNode := l3.voteNode[1 := i]), Fights(1, multiset{}))
    ensures forall j, l, f | j != i && j != 3 && Has(s0, j, l, f) :: Has(s, j, l, f)
  {
    hide EffectOn, Ends, NoPrunes, Stands, CanStand, Grants, Idle, Hopeful;
    IdleStands(i, before);
    IdleIs(i);
    r, s := StandForElection(nodes, r0, s0, Idle(i), 0, 3);
    r, s := GiveVote(nodes, r, s, l3, Fights(1, multiset{}), Msg(GetVote, i, 3, 1, NO_ID, None, false));
  }

  lemma IdleIs(i: Id)
    ensures Idle(i).me == i && Idle(i).connected == {3}
  {
  }

  lemma FirstRound(nodes: set<Id>) returns (r: Run, s: State, l: Local)
    requires nodes == {1, 2, 3}
    ensures Rounds(nodes, r, s, 1, l)
  {
    hide EffectOn, Ends, NoPrunes, Grants;
    r, s := NoRounds(nodes);
    ElectorGrants(0);
    r, s := IsElected(nodes, r, s, 1, Three(1, 0, 0), Three(1, 0, 1), Elector(0));
    var k := Hopeful(1, Three(1, 0, 1), map[1 := 2]).(voteNode := map[1 := 1]);
    GiveUpEffect(k, Fights(0, multiset{Confirming(1)}), 1);
    r, s := Act(nodes, r, s, FightConfirm(1, 1, []), k, Fights(0, multiset{Confirming(1)}));
    l := k.(fighting := false);
  }

  lemma LosesARound(nodes: set<Id>, r0: Run, s0: State, n: nat, l0: Local) returns (r: Run, s: State, l: Local)
    requires Rounds(nodes, r0, s0, n, l0) && n >= 1
    ensures Rounds(nodes, r, s, n + 1, l)
  {
    hide EffectOn, Ends, Stands, Elector, SelfVote, Majority, Grants, Loser, Idle, NoPrunes;
    var t := n + 1;
    LoserLoses(n, l0);
    LoserStands(n, l0);
    ElectorHolds(n);
    r, s := StandForElection(nodes, r0, s0, l0, 0, 3);
    ElectorGrants(n);
    r, s := GiveVote(nodes, r, s, Elector(n), Fights(1, multiset{}), Ask(l0, 3, GetVote));
    LoseEffect(Stands(l0), Fights(0, multiset{Counting(t)}), t);
    r, s := Act(nodes, r, s, FightCount(1, t), Stands(l0), Fights(0, multiset{Counting(t)}));
    l := SelfVote(Stands(l0), t).(fighting := false);
  }

  lemma LoserStands(n: nat, l: Local)
    requires Loser(n, l)
    ensures l.me == 1 && 3 in l.connected && CanStand(l) && Own(l) == n
    ensures Ask(l, 3, GetVote) == Msg(GetVote, 1, 3, n + 1, NO_ID, None, false)
    ensures Stands(l) == l.(terms := Three(n + 1, 0, 1), status := Candidate, fighting := true)
  {
    ThreeHolds(n, 0, 1);
    assert Three(n, 0, 1)[1 := n + 1] == Three(n + 1, 0, 1);
  }

  lemma LoserLoses(n: nat, l: Local)
    requires Loser(n, l) && n >= 1
    ensures Loser(n + 1, SelfVote(Stands(l), n + 1).(fighting := false)) && !Majority(SelfVote(Stands(l), n + 1), n + 1)
  {
    hide Stands, CanStand;
    LoserStands(n, l);
    ThreeHolds(n + 1, 0, 1);
    var k := l.(terms := Three(n + 1, 0, 1), status := Candidate, fighting := true);
    LonelyVote(k, n + 1);
  }

  lemma LonelyVote(l: Local, t: int)
    requires l.me == 1 && l.terms == Three(t, 0, 1) && t !in l.voteNode && t !in l.voteCount
    ensures SelfVote(l, t) == l.(voteNode := l.voteNode[t := 1], voteCount := l.voteCount[t := 1])
  {
  }

  lemma ElectorHolds(n: nat)
    ensures Elector(n).me == 3 && Elector(n).status == Follower
  {
  }

  lemma ElectorGrants(n: nat)
    ensures Grants(Elector(n), n + 1)
    ensures Elector(n).(voteNode := Elector(n).voteNode[n + 1 := 1]) == Elector(n + 1)
  {
    VotesUpToHolds(n);
  }

  lemma {:induction false} LosesManyRounds(nodes: set<Id>, n: nat) returns (r: Run, s: State, l: Local)
    requires nodes == {1, 2, 3} && n >= 1
    ensures Rounds(nodes, r, s, n, l)
  {
    hide Rounds;
    if n == 1 {
      r, s, l := FirstRound(nodes);
    } else {
      r, s, l := LosesManyRounds(nodes, n - 1);
      r, s, l := LosesARound(nodes, r, s, n - 1, l);
    }
  }

  lemma PruneEffect(n: nat, p: map<int, Id>)
    requires IsPruned(Elector(n).voteNode, p)
    ensures Able(Elector(n), Fights(1, multiset{}), Prune(3, p, map[]))
    ensures var e := EffectOn(Elector(n), Fights(1, multiset{}), Prune(3, p, map[]));
      e.node == 3 && e.after == Elector(n).(voteNode := p) && e.fights == Fights(1, multiset{}) && e.consumed == multiset{}
  {
  }

  /** Member 3, still in term 0, prunes its vote of term 1. */
  lemma PrunesAFutureTerm(nodes: set<Id>, n: nat) returns (r: Run, s: State, l: Local, l3: Local)
    requires nodes == {1, 2, 3} && n > 20
    ensures Ends(nodes, r, s) && Loser(n, l) && Bid(1, 1) in s.won
    ensures Has(s, 1, l, Fights(1, multiset{})) && Has(s, 2, Idle(2), Fights(1, multiset{}))
    ensures Has(s, 3, l3, Fights(1, multiset{})) && l3.me == 3 && l3.status == Follower && Grants(l3, 1)
  {
    hide EffectOn, Ends, Grants, IsPruned, Loser, Able, VotesUpTo, Idle, NoPrunes;
    r, s, l := LosesManyRounds(nodes, n);
    var p := PruneCanForgetVotes(Elector(n), n);
    PruneEffect(n, p);
    l3 := Elector(n).(voteNode := p);
    r, s := Act(nodes, r, s, Prune(3, p, map[]), Elector(n), Fights(1, multiset{}));
  }

  /**
    Without the pruning assumption election safety fails: in this run of a three-member cluster, member 3 prunes its
    vote of term 1 while still in term 0 and votes again in term 1. Both its candidates pass the majority test of that
    term and hold a majority of it.
   */
  lemma TwoMajoritiesInOneTerm(nodes: set<Id>, n: nat) returns (r: Run, s: State)
    requires nodes == {1, 2, 3} && n > 20
    ensures Ends(nodes, r, s) && !PrunesSafely(r)
    ensures Bid(1, 1) in s.won && Bid(2, 1) in s.won
    ensures TallyAt(s, 1, 1) > |nodes| / 2 && TallyAt(s, 2, 1) > |nodes| / 2
  {
    hide EffectOn, Ends, PrunesSafely, Grants, NoPrunes;
    var l, l3;
    r, s, l, l3 := PrunesAFutureTerm(nodes, n);
    r, s := IsElected(nodes, r, s, 2, Three(0, 1, 0), Three(0, 1, 1), l3);
    assert Has(s, 1, l, Fights(1, multiset{}));
    if PrunesSafely(r) { NotSafe(nodes, r, s); }
  }

  lemma NotSafe(nodes: set<Id>, r: Run, s: State)
    requires Ends(nodes, r, s) && nodes == {1, 2, 3} && Bid(1, 1) in s.won && Bid(2, 1) in s.won
    ensures !PrunesSafely(r)
  {
    hide IsRun, PrunesSafely;
    if PrunesSafely(r) { AtMostOneElected(nodes, r, |r.states| - 1, Bid(1, 1), Bid(2, 1)); }
  }
}
