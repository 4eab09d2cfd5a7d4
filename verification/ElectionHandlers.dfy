/**
  What each handler and each part of fightElection does and answers, said of the members of a run: such members are
  consistent and know of no term above their own, which decides most of the tests in the code.
 */
module ElectionHandlers {
  import opened Options
  import opened ClusterRules
  import opened ElectionProtocol
  import opened ElectionInvariants
  import opened ElectionSafety
  import opened ElectionTerms
  import opened ElectionTheorems
  import opened ElectionLeaders

  predicate Sane(l: Local) { Consistent(l) && OwnOnTop(l) }

  /** Every member of every run is sane, so what follows holds of it. */
  lemma MembersAreSane(nodes: set<Id>, r: Run, k: nat, i: Id)
    requires IsRun(nodes, r) && k < |r.states| && i in nodes
    ensures i in r.states[k].locals && Sane(r.states[k].locals[i]) && r.states[k].locals[i].terms.Keys == nodes
  {
    hide IsRun, Lawful, MemberAt, NetOk, Topped, BidsOf, OwnOnTop;
    RunIsGood(nodes, r, k);
    MemberFacts(nodes, r.states[k], i);
    NobodyKnowsALaterTerm(nodes, r, k, i);
  }

  lemma LeadersTerm(l: Local)
    requires Sane(l)
    ensures l.leader != NO_ID ==> TermOf(l, l.leader) == Own(l)
  {
  }

  function Larger(x: int, y: int): int { if x < y then y else x }

  /** Learning a term raises exactly the member itself, the sender and the named leader, and nothing else changes. */
  lemma LearningIsExact(l: Local, m: Msg)
    ensures var r := LearnTerms(l, m);
      && r.terms.Keys == l.terms.Keys && r == l.(terms := r.terms)
      && forall x | x in l.terms ::
           r.terms[x] == if x == l.me || x == m.from || x == m.leaderId then Larger(l.terms[x], m.term) else l.terms[x]
  {
  }

  // ---- requests ---------------------------------------------------------------------------

  /** The answer to AskLeader carries the member's own term; it names the leader unless the asker is ahead. */
  lemma AskIsAnswered(l: Local, m: Msg)
    requires Sane(l)
    ensures AskReply(l, m) ==
      Msg(ReAskLeader, l.me, m.from, Own(l), if l.leader != NO_ID && Own(l) >= m.term then l.leader else NO_ID, None, false)
  {
    LeadersTerm(l);
  }

  predicate Unvoted(l: Local, t: int) { t in l.voteNode ==> l.voteNode[t] == NO_ID }

  /** Nobody leads after a request for its vote; the vote is given if it is still free and the term is not past. */
  lemma VoteIsAnswered(l: Local, m: Msg)
    requires Consistent(l) && m.kind.GetVote?
    ensures var r := OnRequest(l, m); var yes := Unvoted(l, m.term) && m.term >= Own(l);
      && r.status != Leader && r.leader == (if l.status.Leader? then NO_ID else l.leader)
      && r.terms == l.terms && r.voteCount == l.voteCount
      && r.voteNode == (if yes then l.voteNode[m.term := m.from] else l.voteNode)
      && Replies(l, m) == multiset{Msg(ReGetVote, l.me, m.from, m.term, NO_ID, Some(yes), false)}
  {
  }

  lemma AfterTermsOf(l: Local, m: Msg)
    requires Sane(l) && m.term >= Own(l)
    ensures var l1 := AfterBroadcastTerms(l, m);
      && Sane(l1) && Own(l1) == m.term && l1.terms == LearnTerms(l, m).terms && l1.terms.Keys == l.terms.Keys && l1.me == l.me
      && l1.leader == (if m.term > Own(l) && l.leader != m.leaderId then NO_ID else l.leader)
      && (m.leaderId in l.terms ==> TermOf(l1, m.leaderId) == m.term)
  {
    hide LearnTerms;
    LearnTermsKeeps(l, m);
    LearnTermsKeeps(ReleaseLeader(l), m);
    ReleaseLearns(l, m);
  }

  lemma ReleaseLearns(l: Local, m: Msg)
    ensures LearnTerms(ReleaseLeader(l), m).terms == LearnTerms(l, m).terms
    ensures LearnTerms(ReleaseLeader(l), m) == ReleaseLeader(l).(terms := LearnTerms(l, m).terms)
    ensures LearnTerms(l, m) == l.(terms := LearnTerms(l, m).terms)
  {
    hide Raise;
  }

  /** A member may sign whoever it knows to be in its own term, and nobody else. */
  lemma SignsWhoIsInItsTerm(l: Local, x: Id)
    requires Sane(l) && x in l.terms
    ensures SignAllowed(l, x) <==> l.terms[x] == Own(l)
    ensures SignLeader(l, x).leader == if l.terms[x] == Own(l) then x else l.leader
  {
    LeadersTerm(l);
  }

  /** A broadcast that is not behind is always followed, if its leader is configured; one that is behind changes nothing. */
  lemma BroadcastIsFollowed(l: Local, m: Msg)
    requires Sane(l)
    ensures var r := OnBroadcast(l, m);
      if m.term < Own(l) then r == l
      else
        && Own(r) == m.term && r.terms == LearnTerms(l, m).terms
        && r.leader == if m.leaderId in l.terms then m.leaderId else if m.term > Own(l) then NO_ID else l.leader
  {
    hide AfterBroadcastTerms, SignLeader, SignAllowed, LearnTerms, Consistent, OwnOnTop;
    if m.term >= Own(l) {
      AfterTermsOf(l, m);
      var l1 := AfterBroadcastTerms(l, m);
      BroadcastTerms(l, m);
      LearnTermsIsMe(l, m);
      LeadersAreConfigured(l);
      if m.leaderId in l1.terms { SignsWhoIsInItsTerm(l1, m.leaderId); }
    }
  }

  lemma LeadersAreConfigured(l: Local)
    requires Consistent(l)
    ensures l.leader != NO_ID ==> l.leader in l.terms
    ensures NO_ID !in l.terms
  {
  }

  /** A broadcast's Success is true exactly if it is not behind and the member then follows the leader it names. */
  lemma SuccessIsTrue(l: Local, m: Msg)
    requires Consistent(l)
    ensures forall r | r in BroadcastReplies(l, m) && r.kind.ReLeader? ::
      r.success == Some(m.term >= Own(l) && OnBroadcast(l, m).leader == m.leaderId)
  {
    hide AfterBroadcastTerms, SignLeader, SignAllowed;
    if m.term >= Own(l) {
      AfterTermsKeep(l, m);
      var l1 := AfterBroadcastTerms(l, m);
      if m.leaderId in l1.terms { SignedIffAllowed(l1, m.leaderId); }
    }
  }

  lemma AfterTermsKeep(l: Local, m: Msg)
    requires Consistent(l) && m.term >= Own(l)
    ensures Consistent(AfterBroadcastTerms(l, m))
  {
    hide LearnTerms;
    LearnTermsKeeps(l, m);
    LearnTermsKeeps(ReleaseLeader(l), m);
  }

  lemma SignedIffAllowed(l: Local, x: Id)
    requires Consistent(l) && x in l.terms
    ensures SignLeader(l, x).leader == x <==> SignAllowed(l, x)
  {
  }

  predicate SendsLeaderReply(l: Local, m: Msg) {
    m.term < Own(l) || (m.leaderId in l.terms && (m.confirm || l.leader != m.leaderId))
  }

  /**
    The answers to a broadcast: an Ok unless it is behind, and the answer about the leader unless that leader is unknown,
    or followed already and no confirmation asked for. Both carry the member's own term as it is then.
   */
  lemma BroadcastIsAnswered(l: Local, m: Msg)
    requires Sane(l)
    ensures var t := Larger(Own(l), m.term); var about := Msg(ReLeader, l.me, m.from, t, NO_ID, Some(m.term >= Own(l)), false);
      BroadcastReplies(l, m) == (if m.term >= Own(l) then multiset{Msg(Ok, l.me, m.from, t, NO_ID, None, false)} else multiset{})
                                + (if SendsLeaderReply(l, m) then multiset{about} else multiset{})
  {
    hide AfterBroadcastTerms, SignLeader, SignAllowed, Consistent, OwnOnTop;
    LeadersAreConfigured(l);
    if m.term >= Own(l) {
      AfterTermsOf(l, m);
      var l1 := AfterBroadcastTerms(l, m);
      LeadersAreConfigured(l1);
      if m.leaderId in l1.terms { SignsWhoIsInItsTerm(l1, m.leaderId); }
    }
  }

  // ---- replies ----------------------------------------------------------------------------

  /** A reply of a later term makes a member that has a leader release it, and does nothing else. */
  lemma ReplyReleases(l: Local, m: Msg)
    requires l.leader != NO_ID && Own(l) < m.term
    ensures OnReply(l, m) == l.(leader := NO_ID, status := Follower)
  {
  }

  /** Any other reply is learned from, and counted if it grants a vote. */
  lemma ReplyIsLearned(l: Local, m: Msg)
    requires l.leader == NO_ID || m.term <= Own(l)
    ensures var r := OnReply(l, m);
      && r.terms == LearnTerms(l, m).terms && r.voteNode == l.voteNode
      && forall t :: Tally(r, t) == Tally(l, t) + if m.kind.ReGetVote? && m.success == Some(true) && t == m.term then 1 else 0
  {
    hide LearnTerms;
    ReplyTerms(l, m);
    ReplyCounts(l, m);
    hide OnReply;
  }

  /** Whom such a reply makes the member follow: a live leader in its term that it names, nobody if it is refused itself. */
  lemma ReplyLeads(l: Local, m: Msg)
    requires Sane(l) && (l.leader == NO_ID || m.term <= Own(l))
    ensures OnReply(l, m).leader ==
      if m.kind.ReAskLeader? && m.leaderId in l.alive && (m.term >= Own(l) || l.terms[m.leaderId] == Own(l)) then m.leaderId
      else if m.kind.ReLeader? && m.success == Some(false) && l.leader == l.me then NO_ID
      else l.leader
  {
    hide LearnTerms, SignLeader, SignAllowed;
    LearnTermsOnTop(l, m);
    ReplyTermsKeep(l, m);
    LearnedTermOf(l, m);
    var l1 := LearnTerms(l, m);
    assert Sane(l1);
    LeadersAreConfigured(l);
    if m.leaderId in l1.terms { SignsWhoIsInItsTerm(l1, m.leaderId); }
  }

  lemma LearnedTermOf(l: Local, m: Msg)
    requires Consistent(l) && OwnOnTop(l)
    ensures var r := LearnTerms(l, m); r.me == l.me && Own(r) == Larger(Own(l), m.term) && r.terms.Keys == l.terms.Keys
    ensures m.leaderId in l.terms ==> LearnTerms(l, m).terms[m.leaderId] == Larger(l.terms[m.leaderId], m.term)
  {
    hide LearnTerms;
    LearningIsExact(l, m);
  }

  /** A leader that is refused by a reply has no leader afterwards. */
  lemma RefusedLeaderStepsDown(l: Local, m: Msg)
    requires Consistent(l) && l.leader == l.me && m.kind.ReLeader? && m.success == Some(false)
    ensures OnReply(l, m).leader == NO_ID && OnReply(l, m).status == Follower
  {
    hide Raise;
  }

  // ---- the parts of fightElection ---------------------------------------------------------

  /** More than half of all members are online, the member itself included. */
  predicate EnoughOnline(l: Local) { 2 * (|l.alive| + 1) > |l.terms| }

  lemma EnoughIsMajority(l: Local)
    ensures OnlineMajority(l) <==> EnoughOnline(l)
  {
  }

  function Requests(l: Local, kind: Kind, t: int, leader: Id, confirm: bool): multiset<Msg> {
    multiset(set p | p in l.connected :: Msg(kind, l.me, p, t, leader, None, confirm))
  }

  lemma PeersAreSent(l: Local, kind: Kind, t: int, leader: Id, confirm: bool)
    ensures ToPeers(l, Msg(kind, l.me, NO_ID, t, leader, None, confirm)) == Requests(l, kind, t, leader, confirm)
  {
    assert (set p | p in l.connected :: Msg(kind, l.me, NO_ID, t, leader, None, confirm).(to := p))
        == (set p | p in l.connected :: Msg(kind, l.me, p, t, leader, None, confirm));
  }

  /** An election begins, one term up, exactly if the member is open, has no leader and is not fighting. */
  lemma ElectionBeginsIff(l: Local, f: Fights)
    requires Consistent(l) && f.spawned > 0
    ensures var e := OnFightStart(Nothing(l.me, l, f)); var t := Own(l) + 1;
      if !l.status.Closed? && l.leader == NO_ID && !l.fighting
      then && e.fought == {Bid(l.me, t)} && e.after == l.(terms := l.terms[l.me := t], fighting := true)
           && e.fights == Fights(f.spawned - 1, f.past + multiset{Asking(t)})
      else e.fought == {} && e.after == l && e.fights == Fights(f.spawned - 1, f.past)
  {
  }

  predicate Leaves(e: Effect, l: Local, f: Fights, more: nat) {
    e.after == l.(fighting := false) && e.fights == Fights(f.spawned + more, multiset{}) && e.sent == multiset{}
  }

  predicate Sends(e: Effect, l: Local, f: Fights, next: Phase, sent: multiset<Msg>) {
    e.after == l && e.fights == Fights(f.spawned, multiset{next}) && e.sent == sent
  }

  /** Waiting to ask for a leader: over once there is one; the question goes out exactly when enough are online. */
  lemma AsksIffEnoughOnline(l: Local, f: Fights, t: int)
    requires f.past == multiset{Asking(t)}
    ensures var e := OnFightAsk(Nothing(l.me, l, f), t);
      if l.leader != NO_ID then Leaves(e, l, f, 0)
      else if 2 * (|l.alive| + 1) > |l.terms| then Sends(e, l, f, Standing(t), Requests(l, AskLeader, t, NO_ID, false))
      else e == Nothing(l.me, l, f)
  {
    hide ToPeers, Requests, OnlineMajority;
    EnoughIsMajority(l);
    PeersAreSent(l, AskLeader, t, NO_ID, false);
    assert f.past - multiset{Asking(t)} == multiset{};
    assert multiset{} + multiset{Standing(t)} == multiset{Standing(t)};
  }

  lemma StandsIffLeaderless(l: Local, f: Fights, t: int)
    requires f.past == multiset{Standing(t)}
    ensures var e := OnFightStand(Nothing(l.me, l, f), t);
      if l.leader != NO_ID || l.status.Closed? || l.status.Leader? then Leaves(e, l, f, 0)
      else Sends(e, l.(status := if l.status.Follower? then Candidate else l.status), f, Polling(t), multiset{})
  {
    assert f.past - multiset{Standing(t)} == multiset{};
    assert multiset{} + multiset{Polling(t)} == multiset{Polling(t)};
  }

  /** A candidate asks for votes exactly when enough are online; it gives up once the term is no longer its own. */
  lemma PollsIffEnoughOnline(l: Local, f: Fights, t: int)
    requires f.past == multiset{Polling(t)} && t <= Own(l)
    ensures var e := OnFightPoll(Nothing(l.me, l, f), t);
      if l.leader != NO_ID then Leaves(e, l, f, 0)
      else if l.status != Candidate || t != Own(l) then Leaves(e, l, f, 1)
      else if 2 * (|l.alive| + 1) > |l.terms| then Sends(e, l, f, Counting(t), Requests(l, GetVote, t, NO_ID, false))
      else e == Nothing(l.me, l, f)
  {
    hide ToPeers, Requests, OnlineMajority;
    EnoughIsMajority(l);
    PeersAreSent(l, GetVote, Own(l), NO_ID, false);
    assert f.past - multiset{Polling(t)} == multiset{};
    assert multiset{} + multiset{Counting(t)} == multiset{Counting(t)};
  }

  /** The votes a candidate counts: those that reached it, and its own if it is still free. */
  function Votes(l: Local, t: int): nat {
    (if t in l.voteCount then l.voteCount[t] else 0) + (if Unvoted(l, t) && t >= Own(l) then 1 else 0)
  }

  /** An election is won exactly with more than half of the votes; it goes on exactly if the term is still the member's own. */
  lemma WinsIffMajority(l: Local, f: Fights, t: int)
    requires Sane(l) && f.past == multiset{Counting(t)}
    ensures var e := OnFightCount(Nothing(l.me, l, f), t); var won := 2 * Votes(l, t) > |l.terms|;
      && e.won == (if won then {Bid(l.me, t)} else {})
      && e.granted == (if Unvoted(l, t) && t >= Own(l) then {Vote(l.me, t, l.me)} else {})
      && e.fights == (if won && Own(l) <= t then Fights(f.spawned, multiset{Confirming(t)}) else Fights(f.spawned + 1, multiset{}))
      && e.sent == (if won && Own(l) <= t then Requests(l, BroadcastLeader, t, l.me, true) else multiset{})
  {
    hide ToPeers, Requests, Majority, NobodyAhead;
    var l1 := SelfVote(l, t);
    MajorityIs(l1, t);
    AheadIs(l1, t);
    PeersAreSent(l1, BroadcastLeader, t, l.me, true);
    RequestsOf(l, l1, t);
    assert f.past - multiset{Counting(t)} == multiset{};
    assert multiset{} + multiset{Confirming(t)} == multiset{Confirming(t)};
  }

  lemma RequestsOf(l: Local, l1: Local, t: int)
    requires l1.connected == l.connected && l1.me == l.me
    ensures Requests(l1, BroadcastLeader, t, l.me, true) == Requests(l, BroadcastLeader, t, l.me, true)
  {
  }

  lemma MajorityIs(l: Local, t: int)
    ensures Majority(l, t) <==> 2 * Tally(l, t) > |l.terms|
  {
  }

  lemma AheadIs(l: Local, t: int)
    requires WellFormed(l) && OwnOnTop(l)
    ensures NobodyAhead(l, t) <==> Own(l) <= t
  {
  }

  /** A winner signs itself exactly if somebody answered and everybody agreed; otherwise another election follows. */
  lemma SignsIffAllAgree(l: Local, f: Fights, t: int, replies: seq<Msg>)
    requires Sane(l) && l.me != NO_ID && f.past == multiset{Confirming(t)}
    ensures var e := OnFightConfirm(Nothing(l.me, l, f), t, replies);
      && e.after.leader == (if AllAgree(replies) then l.me else l.leader) && !e.after.fighting
      && e.fights == Fights(f.spawned + (if AllAgree(replies) then 0 else 1), multiset{})
  {
    hide SignAllowed;
    SignsWhoIsInItsTerm(l, l.me);
    assert Confirmed(replies) <==> AllAgree(replies);
    assert f.past - multiset{Confirming(t)} == multiset{};
  }

  /** A lost session starts an election exactly if it was the leader's, or too few are left and none is under way. */
  lemma LossStartsElectionIff(l: Local, f: Fights, j: Id)
    requires Consistent(l) && j in l.terms
    ensures var e := OnSessionClosed(Nothing(l.me, l, f), j);
      var again := !l.status.Closed? && (l.leader == j || (2 * (|l.alive - {j}| + 1) <= |l.terms| && !l.fighting));
      && e.fights == Fights(f.spawned + (if again then 1 else 0), f.past)
      && e.after.leader == (if again then NO_ID else l.leader)
      && e.after.alive == l.alive - {j} && e.after.connected == l.connected - {j}
  {
    hide OnlineMajority;
    EnoughIsMajority(l.(alive := l.alive - {j}, connected := l.connected - {j}));
  }

  /** At most 20 entries stay as they are; of more, exactly ten go, and none of those kept is smaller. */
  lemma PruneDropsTen<V>(m: map<int, V>, p: map<int, V>)
    requires IsPruned(m, p)
    ensures |m| <= 20 ==> p == m
    ensures |m| > 20 ==> |p| == |m| - 10 && forall d, k | d in m && d !in p && k in p :: k in m && p[k] == m[k] && d < k
  {
    if |m| > 20 {
      assert m.Keys == p.Keys + (m.Keys - p.Keys);
      assert |m.Keys| == |m| && |p.Keys| == |p|;
      forall d, k | d in m && d !in p && k in p ensures k in m && p[k] == m[k] && d < k {
        assert d in m.Keys - p.Keys;
      }
    }
  }
}
