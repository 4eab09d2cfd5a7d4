/**
  The invariants of the whole cluster, and that every lawful step keeps them: the shape of members and
  messages, the records of elections, and, when votes of past terms only are forgotten, the records of votes.
 */
module ElectionSafety {
  import opened ClusterRules
  import opened ElectionProtocol
  import opened ElectionInvariants

  // ---- the shape of every reachable state -------------------------------------------------

  ghost predicate MemberAt(nodes: set<Id>, i: Id, l: Local, f: Fights) {
    l.me == i && l.terms.Keys == nodes && MemberOk(l, f)
  }

  ghost predicate MembersOk(nodes: set<Id>, s: State) {
    && NO_ID !in nodes && s.locals.Keys == nodes && s.fights.Keys == nodes
    && (forall i | i in nodes :: MemberAt(nodes, i, s.locals[i], s.fights[i]))
  }

  predicate WireOk(nodes: set<Id>, m: Msg) { MsgOk(nodes, m) && (VoteGiven(m) ==> m == GrantMsg(Ballot(m))) }

  ghost predicate NetOk(nodes: set<Id>, net: multiset<Msg>) { forall m | m in net :: WireOk(nodes, m) }

  ghost predicate Base(nodes: set<Id>, s: State) { MembersOk(nodes, s) && NetOk(nodes, s.net) }

  /** An effect that takes place at `s`: lawful for its member, and using up only what is in flight. */
  ghost predicate Happens(nodes: set<Id>, s: State, e: Effect) {
    && e.node in nodes && e.node in s.locals && e.node in s.fights
    && Lawful(s.locals[e.node], s.fights[e.node], e) && UsesUp(s.net, e.consumed)
  }

  ghost predicate UsesUp(net: multiset<Msg>, consumed: multiset<Msg>) { consumed <= net }

  lemma StepHappens(nodes: set<Id>, s: State, a: Action)
    requires Base(nodes, s) && Enabled(s, a)
    ensures Happens(nodes, s, EffectOf(s, a)) && EffectOf(s, a).node == Actor(a)
  {
    hide Lawful, MemberOk, Able, EffectOn;
    var i := Actor(a);
    ActionLawful(s.locals[i], s.fights[i], a);
    ActionConsumes(s.locals[i], s.fights[i], a);
    LawfulNode(s.locals[i], s.fights[i], EffectOf(s, a));
  }

  lemma LawfulNode(l: Local, f: Fights, e: Effect)
    requires Lawful(l, f, e)
    ensures e.node == l.me
  {
  }

  lemma SentHolds(l: Local, f: Fights, e: Effect)
    requires Lawful(l, f, e)
    ensures NetOk(l.terms.Keys, e.sent)
  {
  }

  lemma AfterHolds(l: Local, f: Fights, e: Effect)
    requires Lawful(l, f, e)
    ensures e.node == l.me == e.after.me && MemberOk(e.after, e.fights) && TermsGrow(l, e.after) && Own(l) <= Own(e.after)
    ensures e.after.terms.Keys == l.terms.Keys
  {
  }

  lemma NetKept(nodes: set<Id>, net: multiset<Msg>, consumed: multiset<Msg>, sent: multiset<Msg>)
    requires NetOk(nodes, net) && NetOk(nodes, sent)
    ensures NetOk(nodes, net - consumed + sent)
  {
    hide WireOk;
  }

  lemma MembersKept(nodes: set<Id>, s: State, e: Effect)
    requires MembersOk(nodes, s) && e.node in nodes && MemberAt(nodes, e.node, e.after, e.fights)
    ensures MembersOk(nodes, Apply(s, e))
  {
    hide MemberAt;
  }

  lemma AfterAt(nodes: set<Id>, s: State, e: Effect)
    requires MembersOk(nodes, s) && Happens(nodes, s, e)
    ensures MemberAt(nodes, e.node, e.after, e.fights) && NetOk(nodes, e.sent)
  {
    hide Lawful, MemberOk, NetOk, TermsGrow, UsesUp, Own;
    SentHolds(s.locals[e.node], s.fights[e.node], e);
    AfterHolds(s.locals[e.node], s.fights[e.node], e);
  }

  lemma BaseKept(nodes: set<Id>, s: State, e: Effect)
    requires Base(nodes, s) && Happens(nodes, s, e)
    ensures Base(nodes, Apply(s, e))
  {
    hide Lawful, MembersOk, MemberAt, NetOk, UsesUp;
    AfterAt(nodes, s, e);
    NetKept(nodes, s.net, e.consumed, e.sent);
    MembersKept(nodes, s, e);
  }

  // ---- elections begun and won ------------------------------------------------------------

  /** A member's running election is its latest, it has fought no term above its own, and it confirms only what it won. */
  ghost predicate BidsOf(fought: set<Bid>, won: set<Bid>, l: Local, f: Fights) {
    && (forall b | b in fought && b.node == l.me :: b.term <= Own(l))
    && (forall p | p in f.past :: Bid(l.me, p.term) in fought)
    && (forall p, b | p in f.past && b in fought && b.node == l.me :: b.term <= p.term)
    && (forall t | Confirming(t) in f.past :: Bid(l.me, t) in won)
  }

  /** Votes are asked for and granted only in elections the candidate began. */
  ghost predicate BidsOk(nodes: set<Id>, s: State) {
    && (forall i | i in nodes && i in s.locals && i in s.fights :: BidsOf(s.fought, s.won, s.locals[i], s.fights[i]))
    && s.won <= s.fought
    && (forall m | m in s.net && m.kind.GetVote? :: Bid(m.from, m.term) in s.fought)
    && (forall v | v in s.granted :: Bid(v.candidate, v.term) in s.fought)
  }

  lemma FightsInFought(fought: set<Bid>, won: set<Bid>, l: Local, f: Fights, t: int)
    requires BidsOf(fought, won, l, f) && FightsIn(f, t)
    ensures Bid(l.me, t) in fought && forall b | b in fought && b.node == l.me :: b.term <= t
  {
    var p := if Asking(t) in f.past then Asking(t) else if Standing(t) in f.past then Standing(t)
             else if Polling(t) in f.past then Polling(t) else if Counting(t) in f.past then Counting(t) else Confirming(t);
    assert p in f.past && p.term == t;
  }

  lemma BidsOfKept(fought: set<Bid>, won: set<Bid>, l: Local, f: Fights, e: Effect)
    requires BidsOf(fought, won, l, f) && OneFight(l.fighting, f) && Bids(l, f, e) && Own(l) <= Own(e.after) && l.me == e.after.me
    ensures BidsOf(fought + e.fought, won + e.won, e.after, e.fights) && e.won <= fought
  {
    hide FightsIn, Tally;
    if b :| b in e.fought { assert f.past == multiset{}; }
    forall p | p in e.fights.past
      ensures Bid(l.me, p.term) in fought + e.fought && forall b | b in fought + e.fought && b.node == l.me :: b.term <= p.term
    {
      if Bid(l.me, p.term) !in e.fought { FightsInFought(fought, won, l, f, p.term); assert e.fought == {} by { NoFightsIn(f, p.term); } }
    }
  }

  lemma NoFightsIn(f: Fights, t: int)
    requires FightsIn(f, t)
    ensures |f.past| > 0
  {
  }

  lemma BidsOfOthers(fought: set<Bid>, won: set<Bid>, l: Local, f: Fights, more: set<Bid>, wins: set<Bid>)
    requires BidsOf(fought, won, l, f) && forall b | b in more :: b.node != l.me
    ensures BidsOf(fought + more, won + wins, l, f)
  {
  }

  lemma AskedKept(s: State, l: Local, f: Fights, e: Effect)
    requires AskedStep(l, f, e) && BidsOf(s.fought, s.won, l, f) && e.consumed <= s.net
    requires forall m | m in e.sent :: m.from == l.me
    requires forall m | m in s.net && m.kind.GetVote? :: Bid(m.from, m.term) in s.fought
    requires forall v | v in s.granted :: Bid(v.candidate, v.term) in s.fought
    ensures forall m | m in s.net - e.consumed + e.sent && m.kind.GetVote? :: Bid(m.from, m.term) in s.fought + e.fought
    ensures forall v | v in s.granted + e.granted :: Bid(v.candidate, v.term) in s.fought + e.fought
  {
    forall m | m in s.net - e.consumed + e.sent && m.kind.GetVote? ensures Bid(m.from, m.term) in s.fought {
      if m in e.sent { assert Polling(m.term) in f.past; } else { assert m in s.net; }
    }
  }

  lemma BidsKept(nodes: set<Id>, s: State, e: Effect)
    requires Base(nodes, s) && BidsOk(nodes, s) && Happens(nodes, s, e)
    ensures BidsOk(nodes, Apply(s, e))
  {
    hide MemberAt, NetOk, BidsOf, Lawful;
    var s' := Apply(s, e);
    var l, f := s.locals[e.node], s.fights[e.node];
    BidsFacts(nodes, s, e);
    BidsOfKept(s.fought, s.won, l, f, e);
    forall i | i in nodes && i in s'.locals && i in s'.fights ensures BidsOf(s'.fought, s'.won, s'.locals[i], s'.fights[i]) {
      if i != e.node {
        MemberFacts(nodes, s, i);
        BidsOfOthers(s.fought, s.won, s.locals[i], s.fights[i], e.fought, e.won);
      }
    }
    AskedKept(s, l, f, e);
  }

  lemma MemberFacts(nodes: set<Id>, s: State, i: Id)
    requires MembersOk(nodes, s) && i in nodes
    ensures i in s.locals && i in s.fights
    ensures s.locals[i].me == i && MemberOk(s.locals[i], s.fights[i]) && s.locals[i].terms.Keys == nodes
  {
  }

  lemma BidsFactsOf(l: Local, f: Fights, e: Effect)
    requires MemberOk(l, f) && Lawful(l, f, e)
    ensures Bids(l, f, e) && AskedStep(l, f, e) && Own(l) <= Own(e.after) && l.me == e.after.me
    ensures OneFight(l.fighting, f) && (forall b | b in e.fought :: b.node == l.me)
    ensures forall m | m in e.sent :: m.from == l.me
  {
  }

  lemma BidsFacts(nodes: set<Id>, s: State, e: Effect)
    requires MembersOk(nodes, s) && Happens(nodes, s, e)
    ensures var l, f := s.locals[e.node], s.fights[e.node];
      && Bids(l, f, e) && AskedStep(l, f, e) && Own(l) <= Own(e.after) && l.me == e.after.me == e.node
      && OneFight(l.fighting, f) && (forall b | b in e.fought :: b.node == e.node)
      && (forall m | m in e.sent :: m.from == e.node)
  {
    hide Lawful, MembersOk, MemberOk, Bids, AskedStep, OneFight, Own, UsesUp;
    MemberFacts(nodes, s, e.node);
    BidsFactsOf(s.locals[e.node], s.fights[e.node], e);
  }

  // ---- votes: one per member and term, each tallied at most once --------------------------

  /** Every granted vote is still on record with its voter, or its term is past for the voter. */
  predicate VotesOf(granted: set<Vote>, l: Local) {
    forall v | v in granted && v.voter == l.me :: v.term < Own(l) || Voted(l, v.term) == v.candidate != NO_ID
  }

  predicate OneVote(granted: set<Vote>) {
    forall v, w | v in granted && w in granted && v.voter == w.voter && v.term == w.term :: v == w
  }

  /** A step forgets votes of past terms only. */
  predicate ForgetsPast(l: Local, e: Effect) { forall t | t in e.forgot :: t < Own(l) }

  lemma GrantsAreNew(granted: set<Vote>, l: Local, e: Effect)
    requires VotesOf(granted, l) && VoteStep(l, e)
    ensures forall v, w | v in e.granted && w in granted && w.voter == v.voter :: w.term != v.term
    ensures e.granted !! granted
  {
  }

  lemma VotesOfKept(granted: set<Vote>, l: Local, e: Effect)
    requires VotesOf(granted, l) && VoteStep(l, e) && NoBlankVotes(l) && ForgetsPast(l, e)
    requires Own(l) <= Own(e.after) && l.me == e.after.me
    ensures VotesOf(granted + e.granted, e.after)
  {
    forall v | v in granted + e.granted && v.voter == l.me
      ensures v.term < Own(e.after) || Voted(e.after, v.term) == v.candidate != NO_ID
    {
      if v !in e.granted && v.term >= Own(e.after) {
        assert Voted(l, v.term) != NO_ID && v.term in l.voteNode;
        assert v.term !in e.forgot;
      }
    }
  }

  lemma OneVoteKept(granted: set<Vote>, l: Local, e: Effect)
    requires OneVote(granted) && VotesOf(granted, l) && VoteStep(l, e)
    ensures OneVote(granted + e.granted)
  {
    GrantsAreNew(granted, l, e);
    forall v, w | v in granted + e.granted && w in granted + e.granted && v.voter == w.voter && v.term == w.term ensures v == w {
      if v in e.granted && w in e.granted { assert v.candidate == w.candidate; }
    }
  }

  /** Who voted for `c` in term `t`. */
  ghost function Voters(nodes: set<Id>, votes: set<Vote>, t: int, c: Id): set<Id> {
    set v | v in nodes && Vote(v, t, c) in votes
  }

  lemma VotersGrow(nodes: set<Id>, votes: set<Vote>, more: set<Vote>, t: int, c: Id)
    requires votes <= more
    ensures |Voters(nodes, votes, t, c)| <= |Voters(nodes, more, t, c)| <= |nodes|
  {
    SubsetSize(Voters(nodes, votes, t, c), Voters(nodes, more, t, c));
    SubsetSize(Voters(nodes, more, t, c), nodes);
  }

  lemma SubsetSize(a: set<Id>, b: set<Id>)
    requires a <= b
    ensures |a| <= |b|
  {
    assert b == a + (b - a);
  }

  lemma VotersAdd(nodes: set<Id>, votes: set<Vote>, v: Vote)
    requires v !in votes && v.voter in nodes
    ensures |Voters(nodes, votes + {v}, v.term, v.candidate)| == |Voters(nodes, votes, v.term, v.candidate)| + 1
  {
    assert Voters(nodes, votes + {v}, v.term, v.candidate) == Voters(nodes, votes, v.term, v.candidate) + {v.voter};
  }

  /** A candidate's tally never exceeds the number of distinct members whose vote it has tallied. */
  ghost predicate TallyOf(nodes: set<Id>, counted: set<Vote>, l: Local) {
    forall t :: Tally(l, t) <= |Voters(nodes, counted, t, l.me)|
  }

  lemma TallyOfOthers(nodes: set<Id>, counted: set<Vote>, more: set<Vote>, l: Local)
    requires TallyOf(nodes, counted, l)
    ensures TallyOf(nodes, counted + more, l)
  {
    forall t ensures Tally(l, t) <= |Voters(nodes, counted + more, t, l.me)| {
      VotersGrow(nodes, counted, counted + more, t, l.me);
    }
  }

  lemma TallyOfKept(nodes: set<Id>, counted: set<Vote>, l: Local, e: Effect)
    requires TallyOf(nodes, counted, l) && CountStep(l, e) && l.me == e.after.me
    requires forall v | v in e.counted :: v !in counted && v.voter in nodes
    ensures TallyOf(nodes, counted + e.counted, e.after)
  {
    hide Voters, Tally;
    forall t ensures Tally(e.after, t) <= |Voters(nodes, counted + e.counted, t, l.me)| {
      VotersGrow(nodes, counted, counted + e.counted, t, l.me);
      if v :| v in e.counted {
        assert e.counted == {v};
        if t == v.term { VotersAdd(nodes, counted, v); }
      }
    }
  }

  /** A grant in flight is a granted vote that has not been tallied, and there is one message for it. */
  ghost predicate GrantsOk(granted: set<Vote>, counted: set<Vote>, net: multiset<Msg>) {
    forall m | m in net && VoteGiven(m) :: Ballot(m) in granted && Ballot(m) !in counted && net[m] == 1
  }

  lemma GrantsKept(granted: set<Vote>, counted: set<Vote>, net: multiset<Msg>, nodes: set<Id>, l: Local, e: Effect)
    requires GrantsOk(granted, counted, net) && NetOk(nodes, net) && NetOk(nodes, e.sent) && counted <= granted
    requires AnswerStep(l, e) && CountStep(l, e) && e.consumed <= net && e.granted !! granted
    ensures GrantsOk(granted + e.granted, counted + e.counted, net - e.consumed + e.sent)
  {
    var net' := net - e.consumed + e.sent;
    forall m | m in net' && VoteGiven(m)
      ensures Ballot(m) in granted + e.granted && Ballot(m) !in counted + e.counted && net'[m] == 1
    {
      assert m in net || m in e.sent;
      assert WireOk(nodes, m);
      if m in e.sent { assert m !in net; }
      assert GrantMsg(Ballot(m)) == m;
    }
  }

  /** What a step tallies was granted before, and not yet tallied. */
  lemma CountedWereGranted(granted: set<Vote>, counted: set<Vote>, net: multiset<Msg>, nodes: set<Id>, l: Local, e: Effect)
    requires GrantsOk(granted, counted, net) && NetOk(nodes, net) && counted <= granted && l.me in nodes
    requires CountStep(l, e) && e.consumed <= net && e.granted !! granted
    ensures forall v | v in e.counted :: v !in counted && v.voter in nodes && v in granted + e.granted
  {
    forall v | v in e.counted ensures v !in counted && v.voter in nodes && v in granted + e.granted {
      if GrantMsg(v) in e.consumed {
        assert GrantMsg(v) in net && WireOk(nodes, GrantMsg(v));
        assert Ballot(GrantMsg(v)) == v;
      }
    }
  }

  /** The voting invariant: it holds as long as pruning forgets votes of past terms only. */
  ghost predicate VotesOk(nodes: set<Id>, s: State) {
    && OneVote(s.granted) && s.counted <= s.granted
    && (forall i | i in nodes && i in s.locals :: VotesOf(s.granted, s.locals[i]) && TallyOf(nodes, s.counted, s.locals[i]))
    && GrantsOk(s.granted, s.counted, s.net)
    && (forall b | b in s.won :: |Voters(nodes, s.granted, b.term, b.node)| > |nodes| / 2)
  }

  lemma VoteFactsOf(l: Local, f: Fights, e: Effect)
    requires MemberOk(l, f) && Lawful(l, f, e)
    ensures VoteStep(l, e) && CountStep(l, e) && AnswerStep(l, e) && NoBlankVotes(l)
    ensures Own(l) <= Own(e.after) && l.me == e.after.me == e.node && (forall v | v in e.granted :: v.voter == l.me)
    ensures forall b | b in e.won :: b.node == l.me && Tally(e.after, b.term) > |l.terms| / 2
  {
  }

  lemma VoteFacts(nodes: set<Id>, s: State, e: Effect)
    requires Base(nodes, s) && Happens(nodes, s, e)
    ensures var l := s.locals[e.node];
      && VoteStep(l, e) && CountStep(l, e) && AnswerStep(l, e) && NoBlankVotes(l)
      && Own(l) <= Own(e.after) && l.me == e.after.me == e.node && NetOk(nodes, e.sent)
      && (forall v | v in e.granted :: v.voter == e.node)
      && (forall b | b in e.won :: b.node == e.node && Tally(e.after, b.term) > |nodes| / 2)
  {
    hide Lawful, MembersOk, MemberOk, MemberAt, NetOk, VoteStep, CountStep, AnswerStep, NoBlankVotes, Own, UsesUp, Tally;
    MemberFacts(nodes, s, e.node);
    VoteFactsOf(s.locals[e.node], s.fights[e.node], e);
    SentHolds(s.locals[e.node], s.fights[e.node], e);
    SameSize(s.locals[e.node].terms, nodes);
  }

  lemma SameSize(terms: map<Id, int>, nodes: set<Id>)
    requires terms.Keys == nodes
    ensures |terms| == |nodes|
  {
  }

  lemma VotesOfOthers(granted: set<Vote>, more: set<Vote>, l: Local)
    requires VotesOf(granted, l) && forall v | v in more :: v.voter != l.me
    ensures VotesOf(granted + more, l)
  {
  }

  lemma MemberVotesKept(nodes: set<Id>, s: State, e: Effect, i: Id)
    requires Base(nodes, s) && VotesOk(nodes, s) && Happens(nodes, s, e) && ForgetsPast(s.locals[e.node], e) && i in nodes
    ensures var s' := Apply(s, e); VotesOf(s'.granted, s'.locals[i]) && TallyOf(nodes, s'.counted, s'.locals[i])
    ensures e.granted !! s.granted && forall v | v in e.counted :: v in s.granted + e.granted
  {
    hide Lawful, MemberAt, VotesOf, TallyOf, NetOk, VoteStep, CountStep, AnswerStep, ForgetsPast, OneVote, GrantsOk, Voters;
    var l := s.locals[e.node];
    VoteFacts(nodes, s, e);
    GrantsAreNew(s.granted, l, e);
    CountedWereGranted(s.granted, s.counted, s.net, nodes, l, e);
    if i == e.node {
      VotesOfKept(s.granted, l, e);
      TallyOfKept(nodes, s.counted, l, e);
    } else {
      MemberFacts(nodes, s, i);
      VotesOfOthers(s.granted, e.granted, s.locals[i]);
      TallyOfOthers(nodes, s.counted, e.counted, s.locals[i]);
    }
  }

  /** A member that passes the majority test holds votes of a majority. */
  lemma TallyIsBacked(nodes: set<Id>, s: State, c: Id, t: int)
    requires VotesOk(nodes, s) && c in nodes && c in s.locals && s.locals[c].me == c
    ensures Tally(s.locals[c], t) <= |Voters(nodes, s.granted, t, c)|
  {
    VotersGrow(nodes, s.counted, s.granted, t, c);
    assert TallyOf(nodes, s.counted, s.locals[c]);
  }

  lemma WonKept(nodes: set<Id>, s: State, e: Effect)
    requires Base(nodes, s) && VotesOk(nodes, s) && Happens(nodes, s, e) && ForgetsPast(s.locals[e.node], e)
    ensures forall b | b in s.won + e.won :: |Voters(nodes, s.granted + e.granted, b.term, b.node)| > |nodes| / 2
  {
    hide Lawful, MemberAt, MemberOk, VotesOf, NetOk, VoteStep, CountStep, AnswerStep, ForgetsPast, OneVote, GrantsOk, Voters, UsesUp;
    VoteFacts(nodes, s, e);
    MemberVotesKept(nodes, s, e, e.node);
    forall b | b in s.won + e.won ensures |Voters(nodes, s.granted + e.granted, b.term, b.node)| > |nodes| / 2 {
      VotersGrow(nodes, s.granted, s.granted + e.granted, b.term, b.node);
      if b in e.won {
        VotersGrow(nodes, s.counted + e.counted, s.granted + e.granted, b.term, b.node);
      }
    }
  }

  lemma VotesKept(nodes: set<Id>, s: State, e: Effect)
    requires Base(nodes, s) && VotesOk(nodes, s) && Happens(nodes, s, e) && ForgetsPast(s.locals[e.node], e)
    ensures VotesOk(nodes, Apply(s, e))
  {
    hide Lawful, MembersOk, MemberAt, MemberOk, VotesOf, TallyOf, NetOk, VoteStep, CountStep, AnswerStep, ForgetsPast, OneVote, GrantsOk, Voters, NoBlankVotes;
    VoteFacts(nodes, s, e);
    forall i | i in nodes && i in Apply(s, e).locals
      ensures VotesOf(Apply(s, e).granted, Apply(s, e).locals[i]) && TallyOf(nodes, Apply(s, e).counted, Apply(s, e).locals[i])
    {
      MemberVotesKept(nodes, s, e, i);
    }
    MemberVotesKept(nodes, s, e, e.node);
    OneVoteKept(s.granted, s.locals[e.node], e);
    GrantsKept(s.granted, s.counted, s.net, nodes, s.locals[e.node], e);
    WonKept(nodes, s, e);
  }
}
