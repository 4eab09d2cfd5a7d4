/** What holds of leaders over every run: their recorded terms, their own terms, and how many there are. */
module ElectionLeaders {
  import opened Options
  import opened ClusterRules
  import opened ElectionProtocol
  import opened ElectionInvariants
  import opened ElectionSafety
  import opened ElectionTerms
  import opened ElectionTheorems

  // ---- recorded terms ---------------------------------------------------------------------

  /** A member knows of no term above its own. */
  predicate OwnOnTop(l: Local) { Within(l, Own(l)) }

  lemma LearnTermsOnTop(l: Local, m: Msg)
    requires Consistent(l) && OwnOnTop(l)
    ensures OwnOnTop(LearnTerms(l, m))
  {
    hide LearnTerms;
    if m.term >= Own(l) { LearnTermsKeeps(l, m); } else { LearnLowTermsKeeps(l, m); }
  }

  lemma BroadcastTerms(l: Local, m: Msg)
    ensures OnBroadcast(l, m).me == l.me
    ensures OnBroadcast(l, m).terms == if m.term < Own(l) then l.terms else LearnTerms(l, m).terms
  {
    hide Raise, SignAllowed, AlreadyFollows, Own;
  }

  lemma ReplyTerms(l: Local, m: Msg)
    ensures OnReply(l, m).me == l.me
    ensures OnReply(l, m).terms == if StepsDown(l, m) then l.terms else LearnTerms(l, m).terms
  {
    hide Raise, SignAllowed, StepsDown;
  }

  lemma DeliverOnTop(l: Local, f: Fights, m: Msg)
    requires Consistent(l) && OwnOnTop(l)
    ensures OwnOnTop(OnDeliver(Nothing(l.me, l, f), m).after)
  {
    hide OnBroadcast, OnReply, Replies, Grants, LearnTerms, LeaderNotBehind, StatusAgrees;
    LearnTermsOnTop(l, m);
    BroadcastTerms(l, m);
    ReplyTerms(l, m);
    LearnTermsIsMe(l, m);
  }

  lemma LearnTermsIsMe(l: Local, m: Msg)
    ensures LearnTerms(l, m).me == l.me
  {
  }

  lemma FightStartOnTop(l: Local, f: Fights)
    requires Consistent(l) && OwnOnTop(l) && f.spawned > 0
    ensures OwnOnTop(OnFightStart(Nothing(l.me, l, f)).after)
  {
  }

  /** No step breaks it: whoever learns a term learns it for itself first. */
  lemma ActionOnTop(l: Local, f: Fights, a: Action)
    requires Consistent(l) && OwnOnTop(l) && Able(l, f, a)
    ensures OwnOnTop(EffectOn(l, f, a).after)
  {
    if a.Deliver? {
      hide OnDeliver, Consistent, OwnOnTop;
      DeliverOnTop(l, f, a.m);
    } else if a.FightStart? {
      hide OnFightStart, Consistent, OwnOnTop;
      FightStartOnTop(l, f);
    } else {
      hide EffectOn, Able, Consistent;
      TermsStay(l, f, a);
    }
  }

  /** In every state of every run, no member has cached a term above its own. */
  lemma {:induction false} NobodyKnowsALaterTerm(nodes: set<Id>, r: Run, k: nat, i: Id)
    requires IsRun(nodes, r) && k < |r.states| && i in nodes
    ensures i in r.states[k].locals && OwnOnTop(r.states[k].locals[i])
  {
    hide Enabled, Step, Good, OwnOnTop, Fresh;
    if k == 0 {
      assert FreshAt(nodes, r.states[0], i);
      FreshOnTop(nodes, i, r.states[0].locals[i]);
    } else {
      hide Init;
      RunIsGood(nodes, r, k - 1);
      NobodyKnowsALaterTerm(nodes, r, k - 1, i);
      assert Follows(r, k - 1);
      StepOnTop(nodes, r.states[k - 1], r.actions[k - 1], i);
    }
  }

  lemma FreshOnTop(nodes: set<Id>, i: Id, l: Local)
    requires Fresh(nodes, i, l)
    ensures OwnOnTop(l)
  {
  }

  lemma StepOnTop(nodes: set<Id>, s: State, a: Action, i: Id)
    requires Good(nodes, s) && Enabled(s, a) && i in nodes && i in s.locals && OwnOnTop(s.locals[i])
    ensures i in Step(s, a).locals && OwnOnTop(Step(s, a).locals[i])
  {
    hide Able, EffectOn, Lawful, MemberOk, MemberAt, NetOk, Topped, OwnOnTop, BidsOf, Consistent, MsgOk;
    if i == Actor(a) {
      StepHappens(nodes, s, a);
      DeliveredIsOk(nodes, s, a);
      ActionOnTop(s.locals[i], s.fights[i], a);
    } else {
      OnlyActorChanges(nodes, s, a, i);
    }
  }

  /** ... so comparing an election's term with every cached term (lines 360-369) decides what the own term alone does. */
  lemma OwnTermDecides(nodes: set<Id>, r: Run, k: nat, i: Id, t: int)
    requires IsRun(nodes, r) && k < |r.states| && i in nodes && i in r.states[k].locals
    ensures NobodyAhead(r.states[k].locals[i], t) <==> Own(r.states[k].locals[i]) <= t
  {
    hide IsRun, Lawful, MemberAt, NetOk, Topped, BidsOf;
    RunIsGood(nodes, r, k);
    MemberFacts(nodes, r.states[k], i);
    NobodyKnowsALaterTerm(nodes, r, k, i);
  }

  /** ... so a recorded leader's term is exactly the follower's own term. */
  lemma LeaderIsInMyTerm(nodes: set<Id>, r: Run, k: nat, i: Id)
    requires IsRun(nodes, r) && k < |r.states| && i in nodes && i in r.states[k].locals && r.states[k].locals[i].leader != NO_ID
    ensures var l := r.states[k].locals[i]; TermOf(l, l.leader) == Own(l)
  {
    hide IsRun, Lawful, MemberAt, NetOk, Topped, BidsOf;
    RunIsGood(nodes, r, k);
    MemberFacts(nodes, r.states[k], i);
    NobodyKnowsALaterTerm(nodes, r, k, i);
  }

  /** No step of any run, whatever it is, replaces a leader by one with a smaller recorded term. */
  lemma LeaderTermNeverFalls(nodes: set<Id>, r: Run, k: nat, i: Id)
    requires IsRun(nodes, r) && k < |r.actions| && i in nodes
    ensures i in r.states[k].locals && i in r.states[k + 1].locals
    ensures LeaderTermGrows(r.states[k].locals[i], r.states[k + 1].locals[i])
  {
    hide Init, Enabled, Step, Good, TermOf, OwnOnTop;
    NobodyKnowsALaterTerm(nodes, r, k, i);
    NobodyKnowsALaterTerm(nodes, r, k + 1, i);
    OwnNeverFalls(nodes, r, k, i);
    if r.states[k].locals[i].leader != NO_ID && r.states[k + 1].locals[i].leader != NO_ID {
      LeaderIsInMyTerm(nodes, r, k, i);
      LeaderIsInMyTerm(nodes, r, k + 1, i);
    }
  }

  lemma OwnNeverFalls(nodes: set<Id>, r: Run, k: nat, i: Id)
    requires IsRun(nodes, r) && k < |r.actions| && i in nodes && i in r.states[k].locals && i in r.states[k + 1].locals
    ensures Own(r.states[k].locals[i]) <= Own(r.states[k + 1].locals[i])
  {
    hide Init, Lawful, MemberOk, MemberAt, NetOk, Able, EffectOn, Topped, BidsOf, Own;
    RunIsGood(nodes, r, k);
    assert Follows(r, k);
    var s, a := r.states[k], r.actions[k];
    if i == Actor(a) {
      StepHappens(nodes, s, a);
      AfterHolds(s.locals[i], s.fights[i], EffectOf(s, a));
    } else {
      OnlyActorChanges(nodes, s, a, i);
    }
  }

  // ---- own terms --------------------------------------------------------------------------

  lemma BroadcastDeposes(l: Local, m: Msg)
    requires Consistent(l) && l.leader == l.me && m.leaderId != l.me && m.term > Own(l)
    ensures OnBroadcast(l, m).leader != l.me
  {
    hide Raise, SignAllowed;
  }

  lemma ReplyDeposes(l: Local, m: Msg)
    requires Consistent(l) && l.leader == l.me
    ensures OnReply(l, m).leader == l.me ==> Own(OnReply(l, m)) == Own(l)
  {
    hide LearnTerms;
    if !StepsDown(l, m) {
      if m.term < Own(l) { LearnLowTermsKeeps(l, m); } else { LearnTermsKeeps(l, m); }
      ReplyTerms(l, m);
      LearnTermsIsMe(l, m);
    }
  }

  lemma DeliverKeepsLead(l: Local, f: Fights, m: Msg)
    requires Consistent(l) && MsgOk(l.terms.Keys, m) && m.to == l.me && l.leader == l.me
    ensures var r := OnDeliver(Nothing(l.me, l, f), m).after; r.leader == l.me ==> Own(r) == Own(l)
  {
    hide OnBroadcast, OnReply, Replies, Grants, Consistent;
    match m.kind
    case AskLeader =>
    case GetVote =>
    case BroadcastLeader =>
      BroadcastKeeps(l, m);
      if m.term > Own(l) { BroadcastDeposes(l, m); }
    case _ => ReplyDeposes(l, m);
  }

  lemma ActionKeepsLead(l: Local, f: Fights, a: Action)
    requires Consistent(l) && Able(l, f, a) && Actor(a) == l.me && l.leader == l.me
    requires a.Deliver? ==> MsgOk(l.terms.Keys, a.m)
    ensures EffectOn(l, f, a).after.leader == l.me ==> Own(EffectOn(l, f, a).after) == Own(l)
  {
    if a.Deliver? {
      hide OnDeliver, Consistent, MsgOk, Own;
      DeliverKeepsLead(l, f, a.m);
    } else if a.FightStart? {
    } else {
      hide EffectOn, Able, Consistent;
      TermsStay(l, f, a);
    }
  }

  ghost predicate Leads(s: State, i: Id) { i in s.locals && s.locals[i].leader == i }

  lemma StepKeepsLead(nodes: set<Id>, s: State, a: Action, i: Id)
    requires Good(nodes, s) && Enabled(s, a) && i in nodes && Leads(s, i) && Leads(Step(s, a), i)
    ensures Own(Step(s, a).locals[i]) == Own(s.locals[i])
  {
    hide Able, EffectOn, Lawful, MemberOk, MemberAt, NetOk, Topped, BidsOf, Consistent, MsgOk, Own;
    if i == Actor(a) {
      StepHappens(nodes, s, a);
      DeliveredIsOk(nodes, s, a);
      ActionKeepsLead(s.locals[i], s.fights[i], a);
    } else {
      OnlyActorChanges(nodes, s, a, i);
    }
  }

  /** As long as a member leads, its own term stays the same. */
  lemma {:induction false} LeadersKeepTheirTerm(nodes: set<Id>, r: Run, j: nat, k: nat, i: Id)
    requires IsRun(nodes, r) && j <= k < |r.states| && i in nodes
    requires forall n: nat | j <= n <= k :: Leads(r.states[n], i)
    ensures i in r.states[j].locals && i in r.states[k].locals && Own(r.states[k].locals[i]) == Own(r.states[j].locals[i])
    decreases k
  {
    hide Init, Enabled, Step, Good, Own;
    assert Leads(r.states[j], i) && Leads(r.states[k], i);
    if j < k {
      LeadersKeepTheirTerm(nodes, r, j, k - 1, i);
      RunIsGood(nodes, r, k - 1);
      assert Follows(r, k - 1) && Leads(r.states[k - 1], i);
      StepKeepsLead(nodes, r.states[k - 1], r.actions[k - 1], i);
    }
  }

  // ---- at most one leader per term --------------------------------------------------------

  /** When step k makes a member its own leader, that member's term is still the one it was elected in. */
  ghost predicate SignsInTerm(r: Run, k: nat)
    requires |r.states| == |r.actions| + 1 && k < |r.actions|
  {
    var a := r.actions[k];
    a.FightConfirm? && !Leads(r.states[k], a.i) && Leads(r.states[k + 1], a.i) ==> Own(r.states[k + 1].locals[a.i]) == a.term
  }

  /** The check the code leaves out before it signs itself (line 398): the term has not changed since. */
  ghost predicate ConfirmsInTerm(r: Run) {
    |r.states| == |r.actions| + 1 && forall k: nat | k < |r.actions| :: SignsInTerm(r, k)
  }

  lemma NobodyLeadsAtFirst(nodes: set<Id>, s: State, i: Id)
    requires Init(nodes, s) && i in nodes
    ensures !Leads(s, i)
  {
    assert FreshAt(nodes, s, i);
  }

  /** In a run that signs in the term of the election only, every leader has won the term it leads in. */
  lemma {:induction false} LeadersHaveWon(nodes: set<Id>, r: Run, k: nat, i: Id)
    requires IsRun(nodes, r) && ConfirmsInTerm(r) && k < |r.states| && i in nodes && Leads(r.states[k], i)
    ensures Bid(i, Own(r.states[k].locals[i])) in r.states[k].won
  {
    hide Enabled, Step, Good, Own;
    if k == 0 {
      NobodyLeadsAtFirst(nodes, r.states[0], i);
    } else {
      hide Init;
      NobodyKnowsALaterTerm(nodes, r, k - 1, i);
      if Leads(r.states[k - 1], i) {
        LeadersHaveWon(nodes, r, k - 1, i);
        RecordsGrow(nodes, r, k - 1, k);
        RunIsGood(nodes, r, k - 1);
        assert Follows(r, k - 1);
        StepKeepsLead(nodes, r.states[k - 1], r.actions[k - 1], i);
      } else {
        LeadershipIsEarned(nodes, r, k - 1, i);
        assert SignsInTerm(r, k - 1);
      }
    }
  }

  /** Members that lead in a term they have won, at whatever moments of a safely pruned run, are one member. */
  lemma OneWinningLeader(nodes: set<Id>, r: Run, j: nat, k: nat, t: int, a: Id, b: Id)
    requires IsRun(nodes, r) && PrunesSafely(r) && j < |r.states| && k < |r.states| && a in nodes && b in nodes
    requires Leads(r.states[j], a) && Own(r.states[j].locals[a]) == t && Bid(a, t) in r.states[j].won
    requires Leads(r.states[k], b) && Own(r.states[k].locals[b]) == t && Bid(b, t) in r.states[k].won
    ensures a == b
  {
    hide IsRun, PrunesSafely, Own;
    var n := if j < k then k else j;
    RecordsGrow(nodes, r, j, n);
    RecordsGrow(nodes, r, k, n);
    AtMostOneElected(nodes, r, n, Bid(a, t), Bid(b, t));
  }

  /**
    One leader per term: over a whole run that prunes safely and signs in the term of the election only, whoever
    leads in a term, at whatever moment, is the same member.
   */
  lemma OneLeaderPerTerm(nodes: set<Id>, r: Run, j: nat, k: nat, t: int, a: Id, b: Id)
    requires IsRun(nodes, r) && PrunesSafely(r) && ConfirmsInTerm(r)
    requires j < |r.states| && k < |r.states| && a in nodes && b in nodes
    requires Leads(r.states[j], a) && Own(r.states[j].locals[a]) == t
    requires Leads(r.states[k], b) && Own(r.states[k].locals[b]) == t
    ensures a == b
  {
    hide IsRun, PrunesSafely, ConfirmsInTerm, Own;
    LeadersHaveWon(nodes, r, j, a);
    LeadersHaveWon(nodes, r, k, b);
    OneWinningLeader(nodes, r, j, k, t, a, b);
  }
}
