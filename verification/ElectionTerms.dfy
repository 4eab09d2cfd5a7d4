/**
  No invented terms: only fightElection makes a term, every handler copies or echoes one, so no
  term anywhere exceeds the largest own term, and that one is at most the number of elections begun.
 */
module ElectionTerms {
  import opened Options
  import opened ClusterRules
  import opened ElectionProtocol
  import opened ElectionInvariants
  import opened ElectionSafety

  predicate Within(l: Local, b: int) { forall x | x in l.terms :: l.terms[x] <= b }

  ghost predicate SentWithin(sent: multiset<Msg>, b: int) { forall m | m in sent :: m.term <= b }

  lemma LearnTermsWithin(l: Local, m: Msg, b: int)
    requires Within(l, b) && m.term <= b
    ensures Within(LearnTerms(l, m), b)
  {
  }

  lemma BroadcastWithin(l: Local, m: Msg, b: int)
    requires Within(l, b) && m.term <= b && l.me in l.terms
    ensures Within(OnBroadcast(l, m), b)
  {
    hide LearnTerms;
    LearnTermsWithin(l, m, b);
    LearnTermsWithin(ReleaseLeader(l), m, b);
  }

  lemma AfterBroadcastWithin(l: Local, m: Msg, b: int)
    requires Within(l, b) && m.term <= b && l.me in l.terms
    ensures var l1 := AfterBroadcastTerms(l, m); Within(l1, b) && l1.me == l.me && l1.me in l1.terms
  {
    hide LearnTerms;
    LearnTermsWithin(l, m, b);
    LearnTermsWithin(ReleaseLeader(l), m, b);
    LearnTermsKeepMe(l, m);
    LearnTermsKeepMe(ReleaseLeader(l), m);
  }

  lemma LearnTermsKeepMe(l: Local, m: Msg)
    requires l.me in l.terms
    ensures LearnTerms(l, m).me == l.me && l.me in LearnTerms(l, m).terms
  {
  }

  /** Every reply to a broadcast carries the member's own term, before or after it learned. */
  lemma BroadcastReplyTerms(l: Local, m: Msg)
    ensures forall r | r in BroadcastReplies(l, m) :: r.term == Own(l) || r.term == Own(AfterBroadcastTerms(l, m))
  {
    hide AfterBroadcastTerms, AlreadyFollows, SignAllowed, Own;
  }

  lemma BroadcastRepliesWithin(l: Local, m: Msg, b: int)
    requires Within(l, b) && m.term <= b && l.me in l.terms
    ensures SentWithin(BroadcastReplies(l, m), b)
  {
    hide AfterBroadcastTerms, BroadcastReplies;
    AfterBroadcastWithin(l, m, b);
    BroadcastReplyTerms(l, m);
  }

  lemma RequestWithin(l: Local, m: Msg, b: int)
    requires WellFormed(l) && Within(l, b) && m.term <= b && IsRequest(m.kind)
    ensures Within(OnRequest(l, m), b) && SentWithin(Replies(l, m), b)
  {
    hide OnBroadcast, BroadcastReplies;
    BroadcastWithin(l, m, b);
    BroadcastRepliesWithin(l, m, b);
  }

  lemma ReplyWithin(l: Local, m: Msg, b: int)
    requires Within(l, b) && m.term <= b
    ensures Within(OnReply(l, m), b)
  {
    hide LearnTerms;
    LearnTermsWithin(l, m, b);
  }

  lemma DeliverWithin(l: Local, f: Fights, m: Msg, b: int)
    requires WellFormed(l) && Within(l, b) && m.term <= b
    ensures var e := OnDeliver(Nothing(l.me, l, f), m); Within(e.after, b) && SentWithin(e.sent, b)
  {
    hide OnRequest, OnReply, Replies, Within;
    if IsRequest(m.kind) { RequestWithin(l, m, b); } else { ReplyWithin(l, m, b); }
  }

  lemma ToPeersWithin(l: Local, m: Msg, b: int)
    requires m.term <= b
    ensures SentWithin(ToPeers(l, m), b)
  {
  }

  /** The same terms, of the same member. */
  predicate SameTerms(l: Local, r: Local) { r.terms == l.terms && r.me == l.me }

  lemma WaitsKeepTerms(l: Local, f: Fights, t: int)
    ensures SameTerms(l, OnFightAsk(Nothing(l.me, l, f), t).after) && SameTerms(l, OnFightStand(Nothing(l.me, l, f), t).after)
    ensures SameTerms(l, OnFightPoll(Nothing(l.me, l, f), t).after)
  {
    hide ToPeers, OnlineMajority, Own;
  }

  lemma CountKeepsTerms(l: Local, f: Fights, t: int)
    ensures SameTerms(l, OnFightCount(Nothing(l.me, l, f), t).after)
  {
    hide ToPeers, Majority, NobodyAhead, Grants;
  }

  lemma ConfirmKeepsTerms(l: Local, f: Fights, t: int, replies: seq<Msg>)
    ensures SameTerms(l, OnFightConfirm(Nothing(l.me, l, f), t, replies).after)
  {
    hide Confirmed, SignAllowed;
  }

  lemma SessionKeepsTerms(l: Local, f: Fights, j: Id)
    ensures SameTerms(l, OnSessionClosed(Nothing(l.me, l, f), j).after)
  {
    hide OnlineMajority;
  }

  /** Only a delivery and the start of an election change a member's terms. */
  lemma TermsStay(l: Local, f: Fights, a: Action)
    requires Able(l, f, a) && !a.Deliver? && !a.FightStart?
    ensures SameTerms(l, EffectOn(l, f, a).after)
  {
    hide OnFightAsk, OnFightStand, OnFightPoll, OnFightCount, OnFightConfirm, OnSessionClosed, IsPruned, IsReady, Own;
    match a
    case SessionClosed(_, j) => SessionKeepsTerms(l, f, j);
    case FightAsk(_, t) => WaitsKeepTerms(l, f, t);
    case FightStand(_, t) => WaitsKeepTerms(l, f, t);
    case FightPoll(_, t) => WaitsKeepTerms(l, f, t);
    case FightCount(_, t) => CountKeepsTerms(l, f, t);
    case FightConfirm(_, t, replies) => ConfirmKeepsTerms(l, f, t, replies);
    case _ =>
  }

  lemma AskWithin(l: Local, f: Fights, t: int, b: int)
    requires t <= b
    ensures SentWithin(OnFightAsk(Nothing(l.me, l, f), t).sent, b)
  {
    hide ToPeers, OnlineMajority;
    ToPeersWithin(l, Msg(AskLeader, l.me, NO_ID, t, NO_ID, None, false), b);
  }

  lemma PollWithin(l: Local, f: Fights, t: int, b: int)
    requires Own(l) <= b
    ensures SentWithin(OnFightPoll(Nothing(l.me, l, f), t).sent, b)
  {
    hide ToPeers, OnlineMajority, Own;
    ToPeersWithin(l, Msg(GetVote, l.me, NO_ID, Own(l), NO_ID, None, false), b);
  }

  lemma CountWithin(l: Local, f: Fights, t: int, b: int)
    requires t <= b
    ensures SentWithin(OnFightCount(Nothing(l.me, l, f), t).sent, b)
  {
    hide ToPeers, Majority, NobodyAhead, Grants, SelfVote;
    ToPeersWithin(SelfVote(l, t), Msg(BroadcastLeader, l.me, NO_ID, t, l.me, None, true), b);
  }

  lemma OwnWithin(l: Local, f: Fights, a: Action, b: int)
    requires MemberOk(l, f) && Able(l, f, a) && Within(l, b)
    ensures Own(l) <= b && (a.FightAsk? || a.FightPoll? || a.FightCount? ==> a.term <= b)
  {
    hide IsPruned, IsReady, StatusAgrees, LeaderNotBehind;
  }

  lemma SendsWithin(l: Local, f: Fights, a: Action, b: int)
    requires MemberOk(l, f) && Able(l, f, a) && Within(l, b) && !a.Deliver? && !a.FightStart?
    ensures SentWithin(EffectOn(l, f, a).sent, b)
  {
    hide OnFightAsk, OnFightPoll, OnFightCount, MemberOk, Within, IsPruned, IsReady, OnlineMajority, SignAllowed, SignLeader, Confirmed, Own;
    OwnWithin(l, f, a, b);
    match a
    case FightAsk(_, t) => AskWithin(l, f, t, b);
    case FightPoll(_, t) => PollWithin(l, f, t, b);
    case FightCount(_, t) => CountWithin(l, f, t, b);
    case _ =>
  }

  lemma FightStartWithin(l: Local, f: Fights, b: int)
    requires f.spawned > 0 && Within(l, b) && (OnFightStart(Nothing(l.me, l, f)).fought != {} ==> Own(l) < b)
    ensures var e := OnFightStart(Nothing(l.me, l, f)); Within(e.after, b) && SentWithin(e.sent, b)
  {
  }

  /** A step spreads no term beyond `b`, unless it begins an election in a term beyond `b`. */
  lemma ActionWithin(l: Local, f: Fights, a: Action, b: int)
    requires MemberOk(l, f) && Able(l, f, a) && Within(l, b) && (a.Deliver? ==> a.m.term <= b)
    requires EffectOn(l, f, a).fought != {} ==> Own(l) < b
    ensures Within(EffectOn(l, f, a).after, b) && SentWithin(EffectOn(l, f, a).sent, b)
  {
    if a.Deliver? {
      hide OnDeliver, OneFight, FightsBelowOwn, NoBlankVotes;
      DeliverWithin(l, f, a.m, b);
    } else if a.FightStart? {
      hide OnFightStart;
      FightStartWithin(l, f, b);
    } else {
      hide EffectOn, MemberOk, Able;
      TermsStay(l, f, a);
      SendsWithin(l, f, a, b);
    }
  }

  // ---- the largest own term ---------------------------------------------------------------

  predicate VotesWithin(l: Local, b: int) { forall t | t in l.voteNode :: t <= b }

  /** No member, message or vote record of `s` knows a term above `b`. */
  ghost predicate StateWithin(nodes: set<Id>, s: State, b: int) {
    && (forall i | i in nodes && i in s.locals :: Within(s.locals[i], b) && VotesWithin(s.locals[i], b))
    && SentWithin(s.net, b)
  }

  lemma VotesWithinKept(l: Local, f: Fights, e: Effect, b: int)
    requires MemberOk(l, f) && Lawful(l, f, e) && Within(l, b) && VotesWithin(l, b) && SentWithin(e.consumed, b)
    ensures VotesWithin(e.after, b)
  {
    forall t | t in e.after.voteNode ensures t <= b {
      if t !in l.voteNode {
        var v :| v in e.granted && v.term == t;
        if v.candidate == l.me {
          assert Counting(t) in f.past;
          assert t <= Own(l);
        } else {
          var m :| m in e.consumed && m.kind.GetVote? && m.from == v.candidate && m.term == v.term;
        }
      }
    }
  }

  lemma NetWithin(net: multiset<Msg>, consumed: multiset<Msg>, sent: multiset<Msg>, b: int)
    requires SentWithin(net, b) && SentWithin(sent, b)
    ensures SentWithin(net - consumed + sent, b)
  {
  }

  lemma ConsumedWithin(s: State, a: Action, b: int)
    requires Enabled(s, a) && SentWithin(s.net, b)
    ensures SentWithin(EffectOf(s, a).consumed, b) && (a.Deliver? ==> a.m.term <= b)
  {
    hide Able, EffectOn;
    ActionConsumes(s.locals[Actor(a)], s.fights[Actor(a)], a);
  }

  lemma StepWithin(nodes: set<Id>, s: State, a: Action, b: int)
    requires Base(nodes, s) && Enabled(s, a) && StateWithin(nodes, s, b)
    requires EffectOf(s, a).fought != {} ==> Own(s.locals[Actor(a)]) < b
    ensures StateWithin(nodes, Step(s, a), b)
  {
    hide Lawful, MembersOk, MemberOk, MemberAt, NetOk, Within, VotesWithin, SentWithin, Able, EffectOn, Own;
    var i := Actor(a);
    var e := EffectOf(s, a);
    StepHappens(nodes, s, a);
    MemberFacts(nodes, s, i);
    ConsumedWithin(s, a, b);
    ActionWithin(s.locals[i], s.fights[i], a, b);
    VotesWithinKept(s.locals[i], s.fights[i], e, b);
    NetWithin(s.net, e.consumed, e.sent, b);
  }

  /** Some member's own term tops every term in the system, and the number of elections tops it. */
  ghost predicate Topped(nodes: set<Id>, s: State, top: Id) {
    && top in nodes && top in s.locals
    && StateWithin(nodes, s, Own(s.locals[top])) && Own(s.locals[top]) <= s.elections
  }

  lemma WithinGrows(nodes: set<Id>, s: State, b: int, c: int)
    requires StateWithin(nodes, s, b) && b <= c
    ensures StateWithin(nodes, s, c)
  {
  }

  lemma OwnIsWithin(nodes: set<Id>, s: State, i: Id, b: int)
    requires MembersOk(nodes, s) && i in nodes && StateWithin(nodes, s, b)
    ensures Own(s.locals[i]) <= b
  {
    MemberFacts(nodes, s, i);
  }

  lemma FoughtFacts(l: Local, f: Fights, e: Effect)
    requires MemberOk(l, f) && Lawful(l, f, e)
    ensures Own(l) <= Own(e.after) && (e.fought == {} || (|e.fought| == 1 && Own(e.after) == Own(l) + 1))
  {
    if b :| b in e.fought { assert e.fought == {b}; }
  }

  lemma ToppedKept(nodes: set<Id>, s: State, a: Action, top: Id) returns (top': Id)
    requires Base(nodes, s) && Enabled(s, a) && Topped(nodes, s, top)
    ensures Topped(nodes, Step(s, a), top')
  {
    hide Lawful, MembersOk, MemberOk, MemberAt, NetOk, Able, EffectOn, StateWithin, Own, OneFight;
    var i := Actor(a);
    var e := EffectOf(s, a);
    var s' := Step(s, a);
    var b := Own(s.locals[top]);
    StepHappens(nodes, s, a);
    BaseKept(nodes, s, e);
    MemberFacts(nodes, s, i);
    FoughtFacts(s.locals[i], s.fights[i], e);
    OwnIsWithin(nodes, s, i, b);
    if e.fought == {} || Own(s.locals[i]) < b {
      StepWithin(nodes, s, a, b);
      OwnIsWithin(nodes, s', top, b);
      top' := top;
      assert Own(s'.locals[top]) == b;
    } else {
      WithinGrows(nodes, s, b, b + 1);
      StepWithin(nodes, s, a, b + 1);
      top' := i;
    }
  }
}
