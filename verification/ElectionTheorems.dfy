/** The election's main results, for every run of the cluster. */
module ElectionTheorems {
  import opened Options
  import opened ClusterRules
  import opened ElectionProtocol
  import opened ElectionInvariants
  import opened ElectionSafety
  import opened ElectionTerms

  ghost predicate Good(nodes: set<Id>, s: State) { Base(nodes, s) && BidsOk(nodes, s) && exists top :: Topped(nodes, s, top) }

  lemma FreshMember(nodes: set<Id>, i: Id, l: Local)
    requires Fresh(nodes, i, l) && i in nodes && NO_ID !in nodes
    ensures MemberAt(nodes, i, l, Fights(0, multiset{})) && BidsOf({}, {}, l, Fights(0, multiset{}))
    ensures Own(l) == 0 && Within(l, 0) && VotesWithin(l, 0)
  {
  }

  lemma FreshVotes(nodes: set<Id>, i: Id, l: Local)
    requires Fresh(nodes, i, l)
    ensures VotesOf({}, l) && TallyOf(nodes, {}, l)
  {
  }

  lemma InitMembers(nodes: set<Id>, s: State)
    requires Init(nodes, s)
    ensures Base(nodes, s) && BidsOk(nodes, s)
    ensures forall i | i in nodes :: Own(s.locals[i]) == 0
    ensures StateWithin(nodes, s, 0)
  {
    hide Fresh, MemberAt, BidsOf, Own, Within, VotesWithin;
    forall i | i in nodes
      ensures MemberAt(nodes, i, s.locals[i], s.fights[i]) && BidsOf({}, {}, s.locals[i], s.fights[i])
      ensures Own(s.locals[i]) == 0 && Within(s.locals[i], 0) && VotesWithin(s.locals[i], 0)
    {
      assert FreshAt(nodes, s, i);
      FreshMember(nodes, i, s.locals[i]);
    }
  }

  lemma InitVotes(nodes: set<Id>, s: State)
    requires Init(nodes, s)
    ensures VotesOk(nodes, s)
  {
    hide Fresh, VotesOf, TallyOf;
    forall i | i in nodes ensures VotesOf(s.granted, s.locals[i]) && TallyOf(nodes, s.counted, s.locals[i]) {
      assert FreshAt(nodes, s, i);
      FreshVotes(nodes, i, s.locals[i]);
    }
  }

  lemma StepKeepsGood(nodes: set<Id>, s: State, a: Action)
    requires Good(nodes, s) && Enabled(s, a)
    ensures Good(nodes, Step(s, a))
  {
    hide Base, BidsOk, Topped, Enabled, Happens, Apply, EffectOf;
    StepHappens(nodes, s, a);
    BaseKept(nodes, s, EffectOf(s, a));
    BidsKept(nodes, s, EffectOf(s, a));
    var top :| Topped(nodes, s, top);
    var top' := ToppedKept(nodes, s, a, top);
  }

  /** Every state of every run of a non-empty cluster is good. */
  lemma {:induction false} RunIsGood(nodes: set<Id>, r: Run, k: nat)
    requires IsRun(nodes, r) && nodes != {} && k < |r.states|
    ensures Good(nodes, r.states[k])
  {
    hide Base, BidsOk, Topped, Good, Init, Enabled, Step;
    if k == 0 {
      var top :| top in nodes;
      InitIsGood(nodes, r.states[0], top);
    } else {
      RunIsGood(nodes, r, k - 1);
      assert Follows(r, k - 1);
      StepKeepsGood(nodes, r.states[k - 1], r.actions[k - 1]);
    }
  }

  lemma InitIsGood(nodes: set<Id>, s: State, top: Id)
    requires Init(nodes, s) && top in nodes
    ensures Good(nodes, s)
  {
    hide Base, BidsOk, StateWithin, Own, Fresh;
    InitMembers(nodes, s);
    assert Topped(nodes, s, top);
  }

  lemma SafePruneForgetsPast(s: State, a: Action)
    requires Enabled(s, a) && PrunesPastTerms(s, a)
    ensures ForgetsPast(s.locals[Actor(a)], EffectOf(s, a))
  {
    hide Able, EffectOn;
    ActionConsumes(s.locals[Actor(a)], s.fights[Actor(a)], a);
  }

  lemma {:induction false} RunKeepsVotes(nodes: set<Id>, r: Run, k: nat)
    requires IsRun(nodes, r) && PrunesSafely(r) && nodes != {} && k < |r.states|
    ensures VotesOk(nodes, r.states[k])
  {
    hide Base, BidsOk, Topped, VotesOk, Init, Enabled, Happens, Apply, EffectOf, ForgetsPast, PrunesPastTerms;
    if k == 0 {
      InitVotes(nodes, r.states[0]);
    } else {
      RunKeepsVotes(nodes, r, k - 1);
      RunIsGood(nodes, r, k - 1);
      var s, a := r.states[k - 1], r.actions[k - 1];
      assert Follows(r, k - 1);
      StepHappens(nodes, s, a);
      SafePruneForgetsPast(s, a);
      VotesKept(nodes, s, EffectOf(s, a));
    }
  }

  // ---- at most one winner per term --------------------------------------------------------

  ghost function TallyAt(s: State, c: Id, t: int): nat { if c in s.locals then Tally(s.locals[c], t) else 0 }

  lemma {:induction false} RecordsGrow(nodes: set<Id>, r: Run, j: nat, k: nat)
    requires IsRun(nodes, r) && j <= k < |r.states|
    ensures r.states[j].granted <= r.states[k].granted && r.states[j].won <= r.states[k].won
    decreases k
  {
    hide Init, Enabled, EffectOf;
    if j < k {
      RecordsGrow(nodes, r, j, k - 1);
      assert Follows(r, k - 1);
    }
  }

  lemma CandidatesShareVoters(nodes: set<Id>, votes: set<Vote>, t: int, a: Id, b: Id)
    requires OneVote(votes) && a != b
    ensures Voters(nodes, votes, t, a) !! Voters(nodes, votes, t, b)
    ensures |Voters(nodes, votes, t, a)| + |Voters(nodes, votes, t, b)| <= |nodes|
  {
    var va, vb := Voters(nodes, votes, t, a), Voters(nodes, votes, t, b);
    assert va !! vb by {
      assert forall v :: Vote(v, t, a) in votes && Vote(v, t, b) in votes ==> Vote(v, t, a) == Vote(v, t, b);
    }
    SubsetSize(va + vb, nodes);
    assert |va + vb| == |va| + |vb|;
  }

  lemma QuorumsMeet(nodes: set<Id>, votes: set<Vote>, t: int, a: Id, b: Id)
    requires OneVote(votes)
    requires |Voters(nodes, votes, t, a)| > |nodes| / 2 && |Voters(nodes, votes, t, b)| > |nodes| / 2
    ensures a == b
  {
    hide Voters;
    if a != b { CandidatesShareVoters(nodes, votes, t, a, b); }
  }

  lemma MajorityIsBacked(nodes: set<Id>, r: Run, j: nat, k: nat, t: int, c: Id)
    requires IsRun(nodes, r) && PrunesSafely(r) && j <= k < |r.states| && c in nodes
    requires TallyAt(r.states[j], c, t) > |nodes| / 2
    ensures |Voters(nodes, r.states[k].granted, t, c)| > |nodes| / 2
  {
    hide VotesOk, Init, Voters, PrunesSafely, Topped, BidsOk, NetOk, MemberOk, Tally;
    RunIsGood(nodes, r, j);
    RunKeepsVotes(nodes, r, j);
    MemberFacts(nodes, r.states[j], c);
    TallyIsBacked(nodes, r.states[j], c, t);
    RecordsGrow(nodes, r, j, k);
    VotersGrow(nodes, r.states[j].granted, r.states[k].granted, t, c);
  }

  /**
    Election safety: over a whole run in which pruning forgets votes of past terms only, at most one
    member ever holds more than half of the votes of a term, whenever each of them holds it.
   */
  lemma AtMostOneWinner(nodes: set<Id>, r: Run, j: nat, k: nat, t: int, a: Id, b: Id)
    requires IsRun(nodes, r) && PrunesSafely(r) && j < |r.states| && k < |r.states| && a in nodes && b in nodes
    requires TallyAt(r.states[j], a, t) > |nodes| / 2 && TallyAt(r.states[k], b, t) > |nodes| / 2
    ensures a == b
  {
    hide IsRun, PrunesSafely, Voters, TallyAt;
    var n := if j < k then k else j;
    MajorityIsBacked(nodes, r, j, n, t, a);
    MajorityIsBacked(nodes, r, k, n, t, b);
    RunKeepsVotes(nodes, r, n);
    QuorumsMeet(nodes, r.states[n].granted, t, a, b);
  }

  /** No two members ever pass the majority test of fightElection in the same term. */
  lemma AtMostOneElected(nodes: set<Id>, r: Run, k: nat, b: Bid, c: Bid)
    requires IsRun(nodes, r) && PrunesSafely(r) && nodes != {} && k < |r.states|
    requires b in r.states[k].won && c in r.states[k].won && b.term == c.term
    ensures b == c
  {
    hide IsRun, PrunesSafely, Voters;
    RunKeepsVotes(nodes, r, k);
    QuorumsMeet(nodes, r.states[k].granted, b.term, b.node, c.node);
  }

  // ---- conservation of votes --------------------------------------------------------------

  /** The members whose vote for `c` in term `t` is on its way to `c`. */
  ghost function InFlight(nodes: set<Id>, s: State, t: int, c: Id): set<Id> {
    set v | v in nodes && GrantMsg(Vote(v, t, c)) in s.net
  }

  lemma FlyingVoters(nodes: set<Id>, s: State, t: int, c: Id)
    requires GrantsOk(s.granted, s.counted, s.net)
    ensures InFlight(nodes, s, t, c) <= Voters(nodes, s.granted, t, c)
    ensures InFlight(nodes, s, t, c) !! Voters(nodes, s.counted, t, c)
    ensures forall v | v in InFlight(nodes, s, t, c) :: s.net[GrantMsg(Vote(v, t, c))] == 1
  {
    forall v | v in InFlight(nodes, s, t, c)
      ensures Vote(v, t, c) in s.granted && Vote(v, t, c) !in s.counted && s.net[GrantMsg(Vote(v, t, c))] == 1
    {
      var m := GrantMsg(Vote(v, t, c));
      assert m in s.net && VoteGiven(m) && Ballot(m) == Vote(v, t, c);
    }
  }

  lemma CountedVoters(nodes: set<Id>, s: State, t: int, c: Id)
    requires s.counted <= s.granted
    ensures Voters(nodes, s.counted, t, c) <= Voters(nodes, s.granted, t, c)
  {
  }

  lemma TallyIsCounted(nodes: set<Id>, s: State, t: int, c: Id)
    requires VotesOk(nodes, s) && MembersOk(nodes, s) && c in nodes
    ensures TallyAt(s, c, t) <= |Voters(nodes, s.counted, t, c)|
  {
    hide Voters, VotesOf, GrantsOk, MembersOk, OneVote;
    MemberFacts(nodes, s, c);
    assert TallyOf(nodes, s.counted, s.locals[c]);
  }

  /** In every state of such a run, votes tallied and votes in flight are at most the distinct members that granted one. */
  lemma VotesAreConserved(nodes: set<Id>, r: Run, k: nat, t: int, c: Id)
    requires IsRun(nodes, r) && PrunesSafely(r) && k < |r.states| && c in nodes
    ensures var s := r.states[k]; TallyAt(s, c, t) + |InFlight(nodes, s, t, c)| <= |Voters(nodes, s.granted, t, c)|
  {
    hide IsRun, PrunesSafely, VotesOk, Base, BidsOk, Topped, TallyAt, InFlight, Voters;
    RunIsGood(nodes, r, k);
    RunKeepsVotes(nodes, r, k);
    VotesAdd(nodes, r.states[k], t, c);
  }

  lemma VotesAdd(nodes: set<Id>, s: State, t: int, c: Id)
    requires VotesOk(nodes, s) && Base(nodes, s) && c in nodes
    ensures TallyAt(s, c, t) + |InFlight(nodes, s, t, c)| <= |Voters(nodes, s.granted, t, c)|
    ensures forall v | v in InFlight(nodes, s, t, c) :: s.net[GrantMsg(Vote(v, t, c))] == 1
  {
    hide MembersOk, NetOk, VotesOf, TallyOf, InFlight, Voters, GrantsOk, TallyAt;
    var counted, flying := Voters(nodes, s.counted, t, c), InFlight(nodes, s, t, c);
    TallyIsCounted(nodes, s, t, c);
    FlyingVoters(nodes, s, t, c);
    CountedVoters(nodes, s, t, c);
    SubsetSize(counted + flying, Voters(nodes, s.granted, t, c));
    assert |counted + flying| == |counted| + |flying|;
  }

  ghost function VoteSum(nodes: set<Id>, s: State, t: int, cs: set<Id>): nat
    decreases cs
  {
    if cs == {} then 0
    else var c :| c in cs; TallyAt(s, c, t) + |InFlight(nodes, s, t, c)| + VoteSum(nodes, s, t, cs - {c})
  }

  ghost function AllVoters(nodes: set<Id>, votes: set<Vote>, t: int, cs: set<Id>): set<Id> {
    set v, c | v in nodes && c in cs && Vote(v, t, c) in votes :: v
  }

  lemma {:induction false} VoteSumIsBounded(nodes: set<Id>, s: State, t: int, cs: set<Id>)
    requires VotesOk(nodes, s) && Base(nodes, s) && cs <= nodes
    ensures VoteSum(nodes, s, t, cs) <= |AllVoters(nodes, s.granted, t, cs)|
    decreases cs
  {
    hide Base, VotesOk, TallyAt, InFlight;
    if cs != {} {
      var c :| c in cs && VoteSum(nodes, s, t, cs) == TallyAt(s, c, t) + |InFlight(nodes, s, t, c)| + VoteSum(nodes, s, t, cs - {c});
      VotesAdd(nodes, s, t, c);
      VoteSumIsBounded(nodes, s, t, cs - {c});
      assert OneVote(s.granted) by { VotesAreSingle(nodes, s); }
      VotersSplit(nodes, s, t, cs, c);
    }
  }

  lemma VotesAreSingle(nodes: set<Id>, s: State)
    requires VotesOk(nodes, s)
    ensures OneVote(s.granted)
  {
  }

  lemma VotersSplit(nodes: set<Id>, s: State, t: int, cs: set<Id>, c: Id)
    requires OneVote(s.granted) && c in cs
    ensures |AllVoters(nodes, s.granted, t, cs)| == |Voters(nodes, s.granted, t, c)| + |AllVoters(nodes, s.granted, t, cs - {c})|
  {
    var one, rest := Voters(nodes, s.granted, t, c), AllVoters(nodes, s.granted, t, cs - {c});
    assert AllVoters(nodes, s.granted, t, cs) == one + rest;
    assert one !! rest by {
      assert forall v, d :: Vote(v, t, c) in s.granted && Vote(v, t, d) in s.granted ==> Vote(v, t, c) == Vote(v, t, d);
    }
    assert |one + rest| == |one| + |rest|;
  }

  /** In every state of such a run, the votes of a term, tallied or in flight, number at most one per member. */
  lemma VotesOfATermAreAtMostOneEach(nodes: set<Id>, r: Run, k: nat, t: int)
    requires IsRun(nodes, r) && PrunesSafely(r) && nodes != {} && k < |r.states|
    ensures VoteSum(nodes, r.states[k], t, nodes) <= |nodes|
  {
    hide IsRun, PrunesSafely, VotesOk, Base, BidsOk, Topped, VoteSum;
    RunIsGood(nodes, r, k);
    RunKeepsVotes(nodes, r, k);
    VoteSumIsBounded(nodes, r.states[k], t, nodes);
    SubsetSize(AllVoters(nodes, r.states[k].granted, t, nodes), nodes);
  }

  // ---- leadership -------------------------------------------------------------------------

  /**
    In every state of every run: a recorded leader is never behind the member's own term, status and
    leader agree unless the member is closed, and at most one fightElection is past the guard, exactly
    while `fighting` is set.
   */
  lemma MembersStayConsistent(nodes: set<Id>, r: Run, k: nat, i: Id)
    requires IsRun(nodes, r) && k < |r.states| && i in nodes
    ensures i in r.states[k].locals && i in r.states[k].fights
    ensures var l := r.states[k].locals[i];
      && LeaderNotBehind(l) && StatusAgrees(l) && i !in l.alive
      && |r.states[k].fights[i].past| == (if l.fighting then 1 else 0)
  {
    hide IsRun, MembersOk, BidsOk, Topped, NetOk, LeaderNotBehind, StatusAgrees;
    RunIsGood(nodes, r, k);
    MemberFacts(nodes, r.states[k], i);
  }

  lemma EarnFacts(l: Local, f: Fights, e: Effect)
    requires Lawful(l, f, e) && e.after.leader == l.me && l.leader != l.me
    ensures e.won == {} && e.fought == {} && Own(e.after) == Own(l) && exists t :: Confirming(t) in f.past
  {
  }

  lemma WonTermIsFought(s: State, l: Local, f: Fights, t: int)
    requires BidsOf(s.fought, s.won, l, f) && Confirming(t) in f.past && s.won <= s.fought
    ensures Bid(l.me, t) in s.won && t <= Own(l)
    ensures Bid(l.me, Own(l)) in s.won <==> Own(l) == t
  {
    assert Confirming(t).term == t;
  }

  /** No message makes a member sign itself: replies name members it is connected to, broadcasts name their sender. */
  lemma NoMessageSignsTheReceiver(l: Local, f: Fights, m: Msg)
    requires Consistent(l) && MsgOk(l.terms.Keys, m) && m.to == l.me && l.leader != l.me
    ensures OnDeliver(Nothing(l.me, l, f), m).after.leader != l.me
  {
    hide OnReply, OnBroadcast, Replies;
    if m.kind.BroadcastLeader? {
      BroadcastKeeps(l, m);
    } else if !IsRequest(m.kind) {
      ReplyKeeps(l, m);
    }
  }

  /** There is an answer, and every answer says yes. */
  predicate AllAgree(replies: seq<Msg>) { |replies| > 0 && forall i | 0 <= i < |replies| :: replies[i].success == Some(true) }

  lemma OnlyConfirmSigns(l: Local, f: Fights, a: Action)
    requires Consistent(l) && Able(l, f, a) && Actor(a) == l.me && l.leader != l.me
    requires a.Deliver? ==> MsgOk(l.terms.Keys, a.m)
    requires EffectOn(l, f, a).after.leader == l.me
    ensures a.FightConfirm? && Confirming(a.term) in f.past && AllAgree(a.replies)
  {
    hide OnDeliver, MsgOk, ToPeers, Majority, NobodyAhead, SignLeader, SignAllowed, IsPruned, OnlineMajority, Grants, StatusAgrees, LeaderNotBehind;
    if a.Deliver? { NoMessageSignsTheReceiver(l, f, a.m); }
  }

  lemma DeliveredIsOk(nodes: set<Id>, s: State, a: Action)
    requires Base(nodes, s) && Enabled(s, a)
    ensures Actor(a) in nodes && s.locals[Actor(a)].me == Actor(a) && Consistent(s.locals[Actor(a)])
    ensures s.locals[Actor(a)].terms.Keys == nodes && (a.Deliver? ==> MsgOk(nodes, a.m))
  {
    hide Able, MsgOk;
  }

  /** The step form of LeadershipIsEarned below. */
  lemma SigningIsEarned(nodes: set<Id>, s: State, a: Action)
    requires Good(nodes, s) && Enabled(s, a) && Actor(a) in nodes
    requires s.locals[Actor(a)].leader != Actor(a) && Step(s, a).locals[Actor(a)].leader == Actor(a)
    ensures a.FightConfirm? && Confirming(a.term) in s.fights[a.i].past && Bid(a.i, a.term) in s.won && AllAgree(a.replies)
    ensures var l' := Step(s, a).locals[a.i]; a.term <= Own(l') && (Bid(a.i, Own(l')) in Step(s, a).won <==> Own(l') == a.term)
  {
    hide Lawful, MemberOk, MemberAt, NetOk, BidsOf, Able, EffectOn, Topped, Own, Consistent, MsgOk;
    var i := Actor(a);
    var l, f, e := s.locals[i], s.fights[i], EffectOf(s, a);
    StepHappens(nodes, s, a);
    MemberFacts(nodes, s, i);
    DeliveredIsOk(nodes, s, a);
    OnlyConfirmSigns(l, f, a);
    EarnFacts(l, f, e);
    WonTermIsFought(s, l, f, a.term);
  }

  /**
    Leadership is earned: a member becomes its own leader in a run only when it confirms an election whose
    majority test it passed, with at least one answer and no refusal. The term it then leads in is one it has won exactly when its own term was not
    raised while it waited for the confirmations; the code does not check that again.
   */
  lemma LeadershipIsEarned(nodes: set<Id>, r: Run, k: nat, i: Id)
    requires IsRun(nodes, r) && k < |r.actions| && i in nodes
    requires i in r.states[k].locals && i in r.states[k + 1].locals
    requires r.states[k].locals[i].leader != i && r.states[k + 1].locals[i].leader == i
    ensures var a := r.actions[k]; var l' := r.states[k + 1].locals[i];
      && a.FightConfirm? && a.i == i && Bid(i, a.term) in r.states[k].won && a.term <= Own(l')
      && |a.replies| > 0 && (forall n | 0 <= n < |a.replies| :: a.replies[n].success == Some(true))
      && (Bid(i, Own(l')) in r.states[k + 1].won <==> Own(l') == a.term)
  {
    hide Init, Enabled, Good, Step, Own;
    RunIsGood(nodes, r, k);
    assert Follows(r, k);
    if i != Actor(r.actions[k]) { OnlyActorChanges(nodes, r.states[k], r.actions[k], i); }
    SigningIsEarned(nodes, r.states[k], r.actions[k]);
  }

  lemma OnlyActorChanges(nodes: set<Id>, s: State, a: Action, i: Id)
    requires Good(nodes, s) && Enabled(s, a) && i != Actor(a) && i in s.locals
    ensures i in Step(s, a).locals && Step(s, a).locals[i] == s.locals[i]
  {
    hide Lawful, MemberOk, MemberAt, NetOk, Able, EffectOn, Topped, BidsOf;
    StepHappens(nodes, s, a);
  }

  /** In every run a member's elections come in strictly increasing terms, and only fightElection begins them. */
  lemma ElectionTermsIncrease(nodes: set<Id>, r: Run, k: nat, b: Bid, c: Bid)
    requires IsRun(nodes, r) && k < |r.actions| && nodes != {}
    requires b in r.states[k + 1].fought && b !in r.states[k].fought && c in r.states[k].fought && c.node == b.node
    ensures r.actions[k].FightStart? && b.node == r.actions[k].i && c.term < b.term
  {
    hide Init, Good, Step, Enabled;
    RunIsGood(nodes, r, k);
    assert Follows(r, k);
    NextElectionIsLater(nodes, r.states[k], r.actions[k], b, c);
  }

  lemma NextElectionIsLater(nodes: set<Id>, s: State, a: Action, b: Bid, c: Bid)
    requires Good(nodes, s) && Enabled(s, a)
    requires b in Step(s, a).fought && b !in s.fought && c in s.fought && c.node == b.node
    ensures a.FightStart? && b.node == Actor(a) && c.term < b.term
  {
    hide Lawful, MemberOk, MemberAt, NetOk, Able, EffectOn, Topped, Own;
    var i := Actor(a);
    var e := EffectOf(s, a);
    StepHappens(nodes, s, a);
    MemberFacts(nodes, s, i);
    FoughtAbove(s.locals[i], s.fights[i], e, b);
    OnlyFightStartFights(s.locals[i], s.fights[i], a);
    assert BidsOf(s.fought, s.won, s.locals[i], s.fights[i]);
  }

  lemma FoughtAbove(l: Local, f: Fights, e: Effect, b: Bid)
    requires Lawful(l, f, e) && b in e.fought
    ensures b.node == l.me && b.term == Own(l) + 1
  {
  }

  lemma OnlyFightStartFights(l: Local, f: Fights, a: Action)
    requires Able(l, f, a)
    ensures EffectOn(l, f, a).fought != {} ==> a.FightStart?
  {
    hide OnReply, OnRequest, Replies, Grants, ToPeers, SelfVote, Majority, NobodyAhead, Confirmed, SignLeader, SignAllowed, IsPruned, OnlineMajority, OnFightStart;
  }

  /**
    No invented terms: some member's own term is at least every cached term, every voted term and every
    term in flight, and it is at most the number of elections begun.
   */
  lemma NoTermIsInvented(nodes: set<Id>, r: Run, k: nat) returns (top: Id)
    requires IsRun(nodes, r) && nodes != {} && k < |r.states|
    ensures top in nodes && top in r.states[k].locals
    ensures var b := Own(r.states[k].locals[top]);
      && b <= r.states[k].elections
      && (forall i | i in nodes && i in r.states[k].locals :: Within(r.states[k].locals[i], b) && VotesWithin(r.states[k].locals[i], b))
      && SentWithin(r.states[k].net, b)
  {
    hide IsRun, Base, BidsOk, Within, VotesWithin, SentWithin;
    RunIsGood(nodes, r, k);
    top :| Topped(nodes, r.states[k], top);
  }
}
