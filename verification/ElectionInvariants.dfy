/**
  What each atomic step may do to a member (`Lawful`), proved action by action, and what follows
  for the whole cluster whatever is pruned: shape, earned leadership, and how far terms reach.
 */
module ElectionInvariants {
  import opened Options
  import opened ClusterRules
  import opened ElectionProtocol

  /** At most one fightElection is past the `fighting` guard, and `fighting` says whether one is. */
  predicate OneFight(fighting: bool, f: Fights) { |f.past| == if fighting then 1 else 0 }

  predicate MsgOk(nodes: set<Id>, m: Msg) {
    m.from in nodes && m.to in nodes && m.from != m.to && (m.kind.BroadcastLeader? ==> m.leaderId == m.from)
  }

  predicate NoBlankVotes(l: Local) { forall t | t in l.voteNode :: l.voteNode[t] != NO_ID }

  ghost predicate FightsBelowOwn(l: Local, f: Fights) { forall p | p in f.past :: p.term <= Own(l) }

  ghost predicate MemberOk(l: Local, f: Fights) {
    Consistent(l) && OneFight(l.fighting, f) && NoBlankVotes(l) && FightsBelowOwn(l, f)
  }

  // ---- what a step may do -----------------------------------------------------------------

  predicate VoteGiven(m: Msg) { m.kind.ReGetVote? && m.success == Some(true) }

  function GrantMsg(v: Vote): Msg { Msg(ReGetVote, v.voter, v.candidate, v.term, NO_ID, Some(true), false) }

  function Ballot(m: Msg): Vote { Vote(m.from, m.term, m.to) }

  /** Votes are granted in terms not voted in and not past, and recorded; records are not overwritten. */
  ghost predicate VoteStep(l: Local, e: Effect) {
    && (forall v | v in e.granted ::
          && v.voter == l.me && Grants(l, v.term) && v.candidate != NO_ID
          && v.term in e.after.voteNode && e.after.voteNode[v.term] == v.candidate)
    && (forall t | t in l.voteNode :: t in e.forgot || (t in e.after.voteNode && e.after.voteNode[t] == l.voteNode[t]))
    && (forall t | t in e.after.voteNode :: t in l.voteNode || exists v :: v in e.granted && v.term == t)
    && NoBlankVotes(e.after)
  }

  /** At most one vote is tallied, by one, for the member itself; without one no tally grows. */
  ghost predicate CountStep(l: Local, e: Effect) {
    && (e.counted == {} ==> forall t :: Tally(e.after, t) <= Tally(l, t))
    && (forall v | v in e.counted ::
          && e.counted == {v} && v.candidate == l.me
          && (forall t :: Tally(e.after, t) <= Tally(l, t) + (if t == v.term then 1 else 0))
          && (GrantMsg(v) in e.consumed || (v in e.granted && v.voter == l.me)))
  }

  /** A grant is answered once, to the candidate, and no other positive answer is sent. */
  ghost predicate AnswerStep(l: Local, e: Effect) {
    forall m | m in e.sent && VoteGiven(m) :: m == GrantMsg(Ballot(m)) && Ballot(m) in e.granted && e.sent[m] == 1
  }

  /** A vote goes to a candidate that asked for it, or to the member itself while it counts. */
  ghost predicate AskedStep(l: Local, f: Fights, e: Effect) {
    && (forall v | v in e.granted ::
          (v.candidate == l.me && Counting(v.term) in f.past)
          || (v.candidate != l.me && exists m :: m in e.consumed && m.kind.GetVote? && m.from == v.candidate && m.term == v.term))
    && (forall m | m in e.sent && m.kind.GetVote? :: Polling(m.term) in f.past)
  }

  predicate FightsIn(f: Fights, t: int) {
    Asking(t) in f.past || Standing(t) in f.past || Polling(t) in f.past || Counting(t) in f.past || Confirming(t) in f.past
  }

  /** Elections are begun one term above, and won only while counting with a majority. */
  ghost predicate BidStep(l: Local, f: Fights, e: Effect) {
    && (forall b | b in e.fought ::
          e.fought == {b} && b.node == l.me && !l.fighting && b.term == Own(l) + 1 && Own(e.after) == b.term)
    && (forall p | p in e.fights.past :: Bid(l.me, p.term) in e.fought || FightsIn(f, p.term))
    && (forall t | Confirming(t) in e.fights.past :: Confirming(t) in f.past || Bid(l.me, t) in e.won)
    && (forall b | b in e.won :: b.node == l.me && Counting(b.term) in f.past && Tally(e.after, b.term) > |l.terms| / 2)
  }

  /** A member becomes its own leader only when it confirms an election. */
  ghost predicate EarnStep(l: Local, f: Fights, e: Effect) {
    e.after.leader == l.me && l.leader != l.me ==>
      (exists t :: Confirming(t) in f.past && Own(e.after) == Own(l) && e.won == {} && e.fought == {})
  }

  /** The member stays in order, and speaks for itself to other members only. */
  ghost predicate Sound(l: Local, e: Effect) {
    && e.node == l.me && TermsGrow(l, e.after) && MemberOk(e.after, e.fights)
    && (forall m | m in e.sent :: m.from == l.me && MsgOk(l.terms.Keys, m))
  }

  ghost predicate Ballots(l: Local, f: Fights, e: Effect) {
    VoteStep(l, e) && CountStep(l, e) && AnswerStep(l, e) && AskedStep(l, f, e)
  }

  ghost predicate Bids(l: Local, f: Fights, e: Effect) { BidStep(l, f, e) && EarnStep(l, f, e) }

  ghost predicate Lawful(l: Local, f: Fights, e: Effect) { Sound(l, e) && Ballots(l, f, e) && Bids(l, f, e) }

  lemma Alone(f: Fights, p: Phase)
    requires |f.past| <= 1 && p in f.past
    ensures f.past == multiset{p}
  {
    assert f.past == multiset{p} + (f.past - multiset{p});
  }

  // ---- each action is lawful --------------------------------------------------------------

  lemma QuietBallots(l: Local, f: Fights, e: Effect)
    requires NoBlankVotes(l) && e.after.voteNode == l.voteNode && e.after.voteCount == l.voteCount
    requires e.granted == {} && e.counted == {}
    requires forall m | m in e.sent :: !VoteGiven(m) && (m.kind.GetVote? ==> Polling(m.term) in f.past)
    ensures Ballots(l, f, e)
  {
  }

  lemma QuietBids(l: Local, f: Fights, e: Effect)
    requires e.after.leader == l.me ==> l.leader == l.me
    requires e.won == {} && e.fought == {}
    requires forall p | p in e.fights.past :: FightsIn(f, p.term)
    requires forall t | Confirming(t) in e.fights.past :: Confirming(t) in f.past
    ensures Bids(l, f, e)
  {
  }

  lemma QuietLawful(l: Local, f: Fights, e: Effect)
    requires MemberOk(l, f) && MemberOk(e.after, e.fights) && e.node == l.me && TermsGrow(l, e.after)
    requires e.after.voteNode == l.voteNode && e.after.voteCount == l.voteCount
    requires e.after.leader == l.me ==> l.leader == l.me
    requires e.granted == {} && e.counted == {} && e.won == {} && e.fought == {}
    requires forall m | m in e.sent :: m.from == l.me && MsgOk(l.terms.Keys, m) && !VoteGiven(m)
    requires forall m | m in e.sent && m.kind.GetVote? :: Polling(m.term) in f.past
    requires forall p | p in e.fights.past :: FightsIn(f, p.term)
    requires forall t | Confirming(t) in e.fights.past :: Confirming(t) in f.past
    ensures Lawful(l, f, e)
  {
    hide Ballots, Bids;
    QuietBallots(l, f, e);
    QuietBids(l, f, e);
  }

  lemma ToPeersHolds(l: Local, m0: Msg)
    ensures forall m | m in ToPeers(l, m0) :: m.to in l.connected && m == m0.(to := m.to) && ToPeers(l, m0)[m] == 1
  {
  }

  lemma StartUpLawful(l: Local, f: Fights)
    requires MemberOk(l, f) && l.status.Unstarted?
    ensures Lawful(l, f, Nothing(l.me, l.(status := Follower), Spawn(f)))
  {
    hide Lawful;
    QuietLawful(l, f, Nothing(l.me, l.(status := Follower), Spawn(f)));
  }

  lemma CloseLawful(l: Local, f: Fights)
    requires MemberOk(l, f)
    ensures Lawful(l, f, Nothing(l.me, l.(status := Closed, connected := {}), f))
  {
    hide Lawful;
    QuietLawful(l, f, Nothing(l.me, l.(status := Closed, connected := {}), f));
  }

  lemma ConnectLawful(l: Local, f: Fights, j: Id)
    requires MemberOk(l, f) && j in l.terms && j != l.me
    ensures Lawful(l, f, Nothing(l.me, l.(alive := l.alive + {j}, connected := l.connected + {j}), f))
  {
    hide Lawful;
    QuietLawful(l, f, Nothing(l.me, l.(alive := l.alive + {j}, connected := l.connected + {j}), f));
  }

  lemma SessionClosedLawful(l: Local, f: Fights, j: Id)
    requires MemberOk(l, f)
    ensures Lawful(l, f, OnSessionClosed(Nothing(l.me, l, f), j))
  {
    hide Lawful, OnlineMajority;
    QuietLawful(l, f, OnSessionClosed(Nothing(l.me, l, f), j));
  }

  lemma NextTermLawful(l: Local, f: Fights)
    requires MemberOk(l, f)
    ensures Lawful(l, f, ToNextTerm(Nothing(l.me, l, f)))
  {
    hide Lawful;
    QuietLawful(l, f, ToNextTerm(Nothing(l.me, l, f)));
  }

  lemma HeartbeatLawful(l: Local, f: Fights, j: Id)
    requires MemberOk(l, f) && j in l.connected
    ensures Lawful(l, f, Nothing(l.me, l, f).(sent := multiset{Msg(BroadcastLeader, l.me, j, Own(l), l.me, None, false)}))
  {
    hide Lawful;
    QuietLawful(l, f, Nothing(l.me, l, f).(sent := multiset{Msg(BroadcastLeader, l.me, j, Own(l), l.me, None, false)}));
  }

  lemma DropLawful(l: Local, f: Fights, m: Msg)
    requires MemberOk(l, f)
    ensures Lawful(l, f, Nothing(l.me, l, f).(consumed := multiset{m}))
  {
    hide Lawful;
    QuietLawful(l, f, Nothing(l.me, l, f).(consumed := multiset{m}));
  }

  function Pruning(l: Local, f: Fights, vn: map<int, Id>, vc: map<int, nat>): Effect {
    Nothing(l.me, l.(voteNode := vn, voteCount := vc), f).(forgot := l.voteNode.Keys - vn.Keys)
  }

  lemma PruneBallots(l: Local, f: Fights, vn: map<int, Id>, vc: map<int, nat>)
    requires MemberOk(l, f) && IsPruned(l.voteNode, vn) && IsPruned(l.voteCount, vc)
    ensures Ballots(l, f, Pruning(l, f, vn, vc))
  {
  }

  lemma PruneLawful(l: Local, f: Fights, vn: map<int, Id>, vc: map<int, nat>)
    requires MemberOk(l, f) && IsPruned(l.voteNode, vn) && IsPruned(l.voteCount, vc)
    ensures Lawful(l, f, Pruning(l, f, vn, vc))
  {
    hide IsPruned, Ballots, Bids;
    PruneBallots(l, f, vn, vc);
    QuietBids(l, f, Pruning(l, f, vn, vc));
    PruneKeepsVotes(l, vn);
  }

  lemma PruneKeepsVotes(l: Local, vn: map<int, Id>)
    requires NoBlankVotes(l) && IsPruned(l.voteNode, vn)
    ensures forall t | t in vn :: vn[t] != NO_ID
  {
  }

  lemma AskLawful(l: Local, f: Fights, m: Msg)
    requires MemberOk(l, f) && MsgOk(l.terms.Keys, m) && m.to == l.me && m.kind.AskLeader?
    ensures Lawful(l, f, OnDeliver(Nothing(l.me, l, f), m))
  {
    hide Lawful;
    QuietLawful(l, f, OnDeliver(Nothing(l.me, l, f), m));
  }

  lemma BroadcastRepliesHold(l: Local, m: Msg)
    ensures forall r | r in BroadcastReplies(l, m) :: r.from == l.me && r.to == m.from && (r.kind.Ok? || r.kind.ReLeader?)
  {
    hide AfterBroadcastTerms, SignAllowed, AlreadyFollows, Own;
    AfterBroadcastIsMe(l, m);
  }

  lemma AfterBroadcastIsMe(l: Local, m: Msg)
    ensures AfterBroadcastTerms(l, m).me == l.me
  {
    hide Raise;
  }

  lemma BroadcastKeepsRest(l: Local, m: Msg)
    ensures var r := OnBroadcast(l, m);
      r.voteNode == l.voteNode && r.voteCount == l.voteCount && r.fighting == l.fighting
  {
    hide SignAllowed, AlreadyFollows, Own, Raise;
  }

  lemma BroadcastLawful(l: Local, f: Fights, m: Msg)
    requires MemberOk(l, f) && MsgOk(l.terms.Keys, m) && m.to == l.me && m.kind.BroadcastLeader?
    ensures Lawful(l, f, OnDeliver(Nothing(l.me, l, f), m))
  {
    hide Lawful, OnBroadcast, BroadcastReplies;
    BroadcastKeeps(l, m);
    BroadcastRepliesHold(l, m);
    BroadcastKeepsRest(l, m);
    QuietLawful(l, f, OnDeliver(Nothing(l.me, l, f), m));
  }

  lemma GetVoteBallots(l: Local, f: Fights, m: Msg)
    requires NoBlankVotes(l) && MsgOk(l.terms.Keys, m) && m.to == l.me && m.kind.GetVote? && NO_ID !in l.terms
    ensures Ballots(l, f, OnDeliver(Nothing(l.me, l, f), m)) && NoBlankVotes(OnGetVote(l, m))
  {
    assert m in OnDeliver(Nothing(l.me, l, f), m).consumed;
  }

  lemma GetVoteLawful(l: Local, f: Fights, m: Msg)
    requires MemberOk(l, f) && MsgOk(l.terms.Keys, m) && m.to == l.me && m.kind.GetVote?
    ensures Lawful(l, f, OnDeliver(Nothing(l.me, l, f), m))
  {
    hide Ballots, Bids, Grants;
    GetVoteBallots(l, f, m);
    GetVoteKeeps(l, m);
    QuietBids(l, f, OnDeliver(Nothing(l.me, l, f), m));
  }

  /** What a reply can change besides terms and leader: one tally, by one. */
  lemma ReplyCounts(l: Local, m: Msg)
    ensures var r := OnReply(l, m);
      && r.voteNode == l.voteNode && r.fighting == l.fighting
      && r.voteCount == if Counts(l, m) then l.voteCount[m.term := Tally(l, m.term) + 1] else l.voteCount
  {
    hide Raise, SignAllowed;
  }

  lemma ReplyBallots(l: Local, f: Fights, m: Msg)
    requires NoBlankVotes(l) && m.to == l.me && !IsRequest(m.kind)
    requires VoteGiven(m) ==> m == GrantMsg(Ballot(m))
    ensures Ballots(l, f, OnDeliver(Nothing(l.me, l, f), m)) && OnReply(l, m).fighting == l.fighting
  {
    hide OnReply, StepsDown;
    ReplyCounts(l, m);
    assert m in OnDeliver(Nothing(l.me, l, f), m).consumed;
  }

  lemma ReplyLawful(l: Local, f: Fights, m: Msg)
    requires MemberOk(l, f) && MsgOk(l.terms.Keys, m) && m.to == l.me && !IsRequest(m.kind)
    requires VoteGiven(m) ==> m == GrantMsg(Ballot(m))
    ensures Lawful(l, f, OnDeliver(Nothing(l.me, l, f), m))
  {
    hide Ballots, Bids, OnReply;
    ReplyBallots(l, f, m);
    ReplyKeeps(l, m);
    QuietBids(l, f, OnDeliver(Nothing(l.me, l, f), m));
  }

  lemma FightStartBids(l: Local, f: Fights)
    requires MemberOk(l, f) && f.spawned > 0
    ensures Bids(l, f, OnFightStart(Nothing(l.me, l, f)))
  {
    if !l.fighting { assert f.past == multiset{}; }
  }

  lemma NewTermKeeps(l: Local, t: int)
    requires Consistent(l) && l.leader == NO_ID && t == Own(l) + 1
    ensures var r := SetTerm(l, l.me, t).(fighting := true);
      Consistent(r) && TermsGrow(l, r) && Own(r) == t
  {
  }

  lemma FightStartSound(l: Local, f: Fights)
    requires MemberOk(l, f) && f.spawned > 0
    ensures Sound(l, OnFightStart(Nothing(l.me, l, f)))
  {
    hide SetTerm, Consistent, TermsGrow, Own;
    if l.leader == NO_ID { NewTermKeeps(l, Own(l) + 1); }
    TermsGrowRefl(l);
    SetTermKeepsRest(l, Own(l) + 1);
  }

  lemma TermsGrowRefl(l: Local)
    ensures TermsGrow(l, l)
  {
  }

  lemma SetTermKeepsRest(l: Local, t: int)
    ensures SetTerm(l, l.me, t) == l.(terms := SetTerm(l, l.me, t).terms)
  {
  }

  lemma FightStartLawful(l: Local, f: Fights)
    requires MemberOk(l, f) && f.spawned > 0
    ensures Lawful(l, f, OnFightStart(Nothing(l.me, l, f)))
  {
    hide Ballots, Bids, Sound, SetTerm;
    SetTermKeepsRest(l, Own(l) + 1);
    QuietBallots(l, f, OnFightStart(Nothing(l.me, l, f)));
    FightStartBids(l, f);
    FightStartSound(l, f);
  }

  /** The goroutine in phase `p` returns. */
  lemma LeaveLawful(l: Local, f: Fights, p: Phase, again: bool)
    requires MemberOk(l, f) && p in f.past
    ensures Lawful(l, f, Leave(Nothing(l.me, l, f), p, again))
  {
    hide Lawful;
    Alone(f, p);
    QuietLawful(l, f, Leave(Nothing(l.me, l, f), p, again));
  }

  /** The goroutine in phase `p` sends `m0` to the peers and goes on to phase `q` of the same election. */
  lemma MoveLawful(l: Local, f: Fights, p: Phase, q: Phase, m0: Msg)
    requires MemberOk(l, f) && p in f.past && q.term == p.term && !q.Confirming?
    requires m0.from == l.me && (m0.kind.AskLeader? || (m0.kind.GetVote? && p == Polling(m0.term)))
    ensures Lawful(l, f, Move(Nothing(l.me, l, f), p, q).(sent := ToPeers(l, m0)))
  {
    hide Lawful, ToPeers;
    Alone(f, p);
    ToPeersHolds(l, m0);
    QuietLawful(l, f, Move(Nothing(l.me, l, f), p, q).(sent := ToPeers(l, m0)));
  }

  lemma FightAskLawful(l: Local, f: Fights, t: int)
    requires MemberOk(l, f) && Asking(t) in f.past
    ensures Lawful(l, f, OnFightAsk(Nothing(l.me, l, f), t))
  {
    hide Lawful, ToPeers, Leave, Move, MemberOk;
    LeaveLawful(l, f, Asking(t), false);
    MoveLawful(l, f, Asking(t), Standing(t), Msg(AskLeader, l.me, NO_ID, t, NO_ID, None, false));
    DropNothingLawful(l, f);
  }

  lemma DropNothingLawful(l: Local, f: Fights)
    requires MemberOk(l, f)
    ensures Lawful(l, f, Nothing(l.me, l, f))
  {
    hide Lawful;
    QuietLawful(l, f, Nothing(l.me, l, f));
  }

  lemma FightStandLawful(l: Local, f: Fights, t: int)
    requires MemberOk(l, f) && Standing(t) in f.past
    ensures Lawful(l, f, OnFightStand(Nothing(l.me, l, f), t))
  {
    hide Lawful, Leave;
    if l.leader != NO_ID || l.status.Closed? || l.status.Leader? {
      LeaveLawful(l, f, Standing(t), false);
    } else {
      Alone(f, Standing(t));
      QuietLawful(l, f, OnFightStand(Nothing(l.me, l, f), t));
    }
  }

  lemma FightPollLawful(l: Local, f: Fights, t: int)
    requires MemberOk(l, f) && Polling(t) in f.past
    ensures Lawful(l, f, OnFightPoll(Nothing(l.me, l, f), t))
  {
    hide Lawful, ToPeers, Leave, Move;
    LeaveLawful(l, f, Polling(t), false);
    LeaveLawful(l, f, Polling(t), true);
    MoveLawful(l, f, Polling(t), Counting(t), Msg(GetVote, l.me, NO_ID, t, NO_ID, None, false));
    DropNothingLawful(l, f);
  }

  lemma SelfVoteHolds(l: Local, f: Fights, t: int)
    requires MemberOk(l, f)
    ensures var r := SelfVote(l, t);
      && MemberOk(r, f) && r.me == l.me && r.terms == l.terms && r.leader == l.leader
      && r.connected == l.connected && r.fighting == l.fighting
      && (!Grants(l, t) ==> r == l)
      && (Grants(l, t) ==> r.voteNode == l.voteNode[t := l.me] && forall u :: Tally(r, u) == Tally(l, u) + (if u == t then 1 else 0))
  {
  }

  lemma FightCountBallots(l: Local, f: Fights, t: int, e: Effect)
    requires MemberOk(l, f) && Counting(t) in f.past && e.after.voteNode == SelfVote(l, t).voteNode && e.after.voteCount == SelfVote(l, t).voteCount
    requires e.granted == e.counted == (if Grants(l, t) then {Vote(l.me, t, l.me)} else {})
    requires forall m | m in e.sent :: m.kind.BroadcastLeader?
    ensures Ballots(l, f, e)
  {
    SelfVoteHolds(l, f, t);
  }

  lemma FightCountBids(l: Local, f: Fights, t: int, won: bool, e: Effect)
    requires Counting(t) in f.past && e.after.leader == l.leader && e.fought == {}
    requires won == (Tally(e.after, t) > |l.terms| / 2) && e.won == (if won then {Bid(l.me, t)} else {})
    requires forall p | p in e.fights.past :: p == Confirming(t) && won
    ensures Bids(l, f, e)
  {
  }

  lemma FightCountSound(l: Local, f: Fights, t: int)
    requires MemberOk(l, f) && f.past == multiset{Counting(t)}
    ensures Sound(l, OnFightCount(Nothing(l.me, l, f), t))
  {
    hide ToPeers, SelfVote, Majority, NobodyAhead, Grants;
    SelfVoteHolds(l, f, t);
    ToPeersHolds(SelfVote(l, t), Msg(BroadcastLeader, l.me, NO_ID, t, l.me, None, true));
  }

  /** What the count step leaves behind. */
  lemma FightCountShape(l: Local, f: Fights, t: int)
    ensures var e := OnFightCount(Nothing(l.me, l, f), t); var won := Majority(SelfVote(l, t), t);
      && e.after.voteNode == SelfVote(l, t).voteNode && e.after.voteCount == SelfVote(l, t).voteCount
      && e.after.leader == SelfVote(l, t).leader && e.fought == {}
      && e.granted == e.counted == (if Grants(l, t) then {Vote(l.me, t, l.me)} else {})
      && e.won == (if won then {Bid(l.me, t)} else {})
  {
    hide ToPeers, SelfVote, NobodyAhead, Grants, Majority;
  }

  lemma FightCountMoves(l: Local, f: Fights, t: int)
    requires f.past == multiset{Counting(t)}
    ensures forall p | p in OnFightCount(Nothing(l.me, l, f), t).fights.past :: p == Confirming(t) && Majority(SelfVote(l, t), t)
  {
    hide ToPeers, SelfVote, NobodyAhead, Grants, Majority;
  }

  lemma FightCountSends(l: Local, f: Fights, t: int)
    ensures forall m | m in OnFightCount(Nothing(l.me, l, f), t).sent :: m.kind.BroadcastLeader?
  {
    hide ToPeers, SelfVote, NobodyAhead, Grants, Majority;
    ToPeersHolds(SelfVote(l, t), Msg(BroadcastLeader, l.me, NO_ID, t, l.me, None, true));
  }

  lemma FightCountLawful(l: Local, f: Fights, t: int)
    requires MemberOk(l, f) && Counting(t) in f.past
    ensures Lawful(l, f, OnFightCount(Nothing(l.me, l, f), t))
  {
    hide OnFightCount, SelfVote, Ballots, Bids, Grants, Sound;
    var e := OnFightCount(Nothing(l.me, l, f), t);
    Alone(f, Counting(t));
    SelfVoteHolds(l, f, t);
    FightCountShape(l, f, t);
    FightCountMoves(l, f, t);
    FightCountSends(l, f, t);
    FightCountBallots(l, f, t, e);
    FightCountBids(l, f, t, Majority(SelfVote(l, t), t), e);
    FightCountSound(l, f, t);
  }

  lemma FightConfirmBids(l: Local, f: Fights, t: int, replies: seq<Msg>)
    requires MemberOk(l, f) && f.past == multiset{Confirming(t)}
    ensures Bids(l, f, OnFightConfirm(Nothing(l.me, l, f), t, replies))
  {
    hide Confirmed, SignAllowed;
  }

  lemma FightConfirmSound(l: Local, f: Fights, t: int, replies: seq<Msg>)
    requires MemberOk(l, f) && f.past == multiset{Confirming(t)}
    ensures Sound(l, OnFightConfirm(Nothing(l.me, l, f), t, replies))
  {
    hide Confirmed, SignAllowed;
    SignLeaderKeeps(l, l.me);
  }

  lemma FightConfirmLawful(l: Local, f: Fights, t: int, replies: seq<Msg>)
    requires MemberOk(l, f) && Confirming(t) in f.past
    ensures Lawful(l, f, OnFightConfirm(Nothing(l.me, l, f), t, replies))
  {
    hide Ballots, Bids, Confirmed, Sound;
    Alone(f, Confirming(t));
    FightConfirmSound(l, f, t, replies);
    FightConfirmBids(l, f, t, replies);
    QuietBallots(l, f, OnFightConfirm(Nothing(l.me, l, f), t, replies));
  }

  lemma DeliverLawful(l: Local, f: Fights, m: Msg)
    requires MemberOk(l, f) && MsgOk(l.terms.Keys, m) && m.to == l.me
    requires VoteGiven(m) ==> m == GrantMsg(Ballot(m))
    ensures Lawful(l, f, OnDeliver(Nothing(l.me, l, f), m))
  {
    hide Lawful, OnDeliver, MemberOk, MsgOk;
    match m.kind
    case AskLeader => AskLawful(l, f, m);
    case GetVote => GetVoteLawful(l, f, m);
    case BroadcastLeader => BroadcastLawful(l, f, m);
    case _ => ReplyLawful(l, f, m);
  }

  /** Every action a member can take is lawful. */
  lemma ActionLawful(l: Local, f: Fights, a: Action)
    requires MemberOk(l, f) && Actor(a) == l.me && Able(l, f, a)
    requires a.Deliver? ==> MsgOk(l.terms.Keys, a.m) && (VoteGiven(a.m) ==> a.m == GrantMsg(Ballot(a.m)))
    ensures Lawful(l, f, EffectOn(l, f, a))
  {
    hide Lawful, OnDeliver, MemberOk, MsgOk, OnSessionClosed, OnFightStart, OnFightAsk, OnFightStand, OnFightPoll,
      OnFightCount, OnFightConfirm, IsPruned, IsReady, VoteGiven, GrantMsg, Ballot, Own, ToNextTerm, Spawn;
    match a
    case StartUp(_) => StartUpLawful(l, f);
    case Close(_) => CloseLawful(l, f);
    case Connect(_, j) => ConnectLawful(l, f, j);
    case SessionClosed(_, j) => SessionClosedLawful(l, f, j);
    case Deliver(m) => DeliverLawful(l, f, m);
    case Drop(m) => DropLawful(l, f, m);
    case LeaderHeartbeat(_, j) => HeartbeatLawful(l, f, j);
    case LeaderlessHeartbeat(_) => NextTermLawful(l, f);
    case Prune(_, vn, vc) => PruneLawful(l, f, vn, vc);
    case FightStart(_) => FightStartLawful(l, f);
    case FightAsk(_, t) => FightAskLawful(l, f, t);
    case FightStand(_, t) => FightStandLawful(l, f, t);
    case FightPoll(_, t) => FightPollLawful(l, f, t);
    case FightCount(_, t) => FightCountLawful(l, f, t);
    case FightConfirm(_, t, replies) => FightConfirmLawful(l, f, t, replies);
  }

  predicate UsesNothing(e: Effect) { e.consumed == multiset{} && e.forgot == {} }

  lemma FightsUseNothing(l: Local, f: Fights, t: int, replies: seq<Msg>)
    ensures UsesNothing(OnFightAsk(Nothing(l.me, l, f), t)) && UsesNothing(OnFightStand(Nothing(l.me, l, f), t))
    ensures UsesNothing(OnFightPoll(Nothing(l.me, l, f), t)) && UsesNothing(OnFightCount(Nothing(l.me, l, f), t))
    ensures UsesNothing(OnFightConfirm(Nothing(l.me, l, f), t, replies))
  {
    hide ToPeers, SelfVote, Grants, Majority, NobodyAhead, Confirmed, SignLeader, SignAllowed, OnlineMajority, Own;
  }

  lemma ActionConsumes(l: Local, f: Fights, a: Action)
    requires Able(l, f, a)
    ensures EffectOn(l, f, a).consumed == if a.Deliver? || a.Drop? then multiset{a.m} else multiset{}
    ensures EffectOn(l, f, a).forgot == if a.Prune? then l.voteNode.Keys - a.voteNode.Keys else {}
  {
    hide OnFightAsk, OnFightStand, OnFightPoll, OnFightCount, OnFightConfirm;
    hide OnReply, OnRequest, Replies, Grants, IsPruned, OnlineMajority, Own;
    match a
    case FightAsk(_, t) => FightsUseNothing(l, f, t, []);
    case FightStand(_, t) => FightsUseNothing(l, f, t, []);
    case FightPoll(_, t) => FightsUseNothing(l, f, t, []);
    case FightCount(_, t) => FightsUseNothing(l, f, t, []);
    case FightConfirm(_, t, replies) => FightsUseNothing(l, f, t, replies);
    case _ =>
  }
}
