/**
  What one member of the cluster knows, and how each of its atomic reactions changes it
  (cluster/node.go, cluster/service.go, cluster/contact.go), as functions on values.
  Clusters.dfy proves the imperative code against these functions; ElectionProtocol.dfy
  runs them over a network.
 */
module ClusterRules {
  import opened Options

  /** Node ids are compared with each other and with the empty string only; 0 is the empty string. */
  type Id = nat
  const NO_ID: Id := 0

  datatype Kind = AskLeader | GetVote | BroadcastLeader | ReAskLeader | ReGetVote | ReLeader | Ok

  /** A NodeMsg on the wire. `from` is NodeMsg.NodeId, `confirm` is Flag == "1". */
  datatype Msg = Msg(kind: Kind, from: Id, to: Id, term: int, leaderId: Id, success: Option<bool>, confirm: bool)

  predicate IsRequest(k: Kind) { k.AskLeader? || k.GetVote? || k.BroadcastLeader? }

  datatype Status = Unstarted | Leader | Candidate | Follower | Closed

  /**
    A member's state. `terms` holds the term of every configured Node object, the member's own
    (`terms[me]`) included; `leader == NO_ID` is a nil nodeLeader.
   */
  datatype Local = Local(
    me: Id, status: Status, leader: Id, terms: map<Id, int>,
    voteNode: map<int, Id>, voteCount: map<int, nat>,
    alive: set<Id>, connected: set<Id>, fighting: bool)

  function TermOf(l: Local, x: Id): int { if x in l.terms then l.terms[x] else 0 }

  function Own(l: Local): int { TermOf(l, l.me) }

  function Voted(l: Local, t: int): Id { if t in l.voteNode then l.voteNode[t] else NO_ID }

  function Tally(l: Local, t: int): nat { if t in l.voteCount then l.voteCount[t] else 0 }

  /** Node.setTerm on the Node object with id `x`: a term never falls. */
  function Raise(terms: map<Id, int>, x: Id, t: int): map<Id, int> {
    if x in terms && terms[x] < t then terms[x := t] else terms
  }

  function SetTerm(l: Local, x: Id, t: int): Local { l.(terms := Raise(l.terms, x, t)) }

  /** Whether Node.voteToNode grants a vote in term `t`. */
  predicate Grants(l: Local, t: int) { Voted(l, t) == NO_ID && t >= Own(l) }

  function VoteTo(l: Local, t: int, c: Id): Local {
    if Grants(l, t) then l.(voteNode := l.voteNode[t := c]) else l
  }

  function AddVote(l: Local, t: int): Local { l.(voteCount := l.voteCount[t := Tally(l, t) + 1]) }

  predicate SignAllowed(l: Local, x: Id) {
    TermOf(l, x) >= Own(l) && (l.leader != NO_ID ==> TermOf(l, x) >= TermOf(l, l.leader))
  }

  /** Cluster.signLeader; it answers SignAllowed. */
  function SignLeader(l: Local, x: Id): Local {
    if !SignAllowed(l, x) || (l.leader != NO_ID && l.leader == x) then l
    else l.(leader := x, status := if x == l.me then Leader else Follower)
  }

  function ReleaseLeader(l: Local): Local { l.(leader := NO_ID, status := Follower) }

  predicate IsReady(l: Local) { (l.status.Leader? || l.status.Candidate? || l.status.Follower?) && !l.fighting }

  /** len(GetAliveNodeNames()) > len(GetAllNodeNames()) / 2 */
  predicate OnlineMajority(l: Local) { |l.alive| + 1 > |l.terms| / 2 }

  // ---- acceptor handler -------------------------------------------------------------------

  function AskReply(l: Local, m: Msg): Msg {
    if l.leader != NO_ID && TermOf(l, l.leader) >= m.term
    then Msg(ReAskLeader, l.me, m.from, TermOf(l, l.leader), l.leader, None, false)
    else Msg(ReAskLeader, l.me, m.from, Own(l), NO_ID, None, false)
  }

  function BeforeVote(l: Local): Local { if l.status.Leader? then ReleaseLeader(l) else l }

  function OnGetVote(l: Local, m: Msg): Local { VoteTo(BeforeVote(l), m.term, m.from) }

  function VoteReply(l: Local, m: Msg): Msg {
    Msg(ReGetVote, l.me, m.from, m.term, NO_ID, Some(Grants(l, m.term)), false)
  }

  /** The terms a broadcast or a reply leaves behind: own, sender's and named leader's. */
  function LearnTerms(l: Local, m: Msg): Local {
    l.(terms := Raise(Raise(Raise(l.terms, l.me, m.term), m.from, m.term), m.leaderId, m.term))
  }

  function LeaderReply(l: Local, m: Msg, success: bool): Msg {
    Msg(ReLeader, l.me, m.from, Own(l), NO_ID, Some(success), false)
  }

  function AfterBroadcastTerms(l: Local, m: Msg): Local {
    var l1 := if m.term > Own(l) && l.leader != NO_ID && l.leader != m.leaderId then ReleaseLeader(l) else l;
    LearnTerms(l1, m)
  }

  predicate AlreadyFollows(l: Local, m: Msg) {
    l.leader != NO_ID && l.leader == m.leaderId && TermOf(l, l.leader) == m.term
  }

  function OnBroadcast(l: Local, m: Msg): Local {
    if m.term < Own(l) then l
    else
      var l1 := AfterBroadcastTerms(l, m);
      if AlreadyFollows(l1, m) || m.leaderId !in l1.terms then l1 else SignLeader(l1, m.leaderId)
  }

  function BroadcastReplies(l: Local, m: Msg): multiset<Msg> {
    if m.term < Own(l) then multiset{LeaderReply(l, m, false)}
    else
      var l1 := AfterBroadcastTerms(l, m);
      var ok := Msg(Ok, l.me, m.from, Own(l1), NO_ID, None, false);
      if AlreadyFollows(l1, m) then
        if m.confirm then multiset{ok, LeaderReply(l1, m, true)} else multiset{ok}
      else if m.leaderId !in l1.terms then multiset{ok}
      else multiset{ok, LeaderReply(l1, m, SignAllowed(l1, m.leaderId))}
  }

  function OnRequest(l: Local, m: Msg): Local {
    match m.kind
    case GetVote => OnGetVote(l, m)
    case BroadcastLeader => OnBroadcast(l, m)
    case _ => l
  }

  function Replies(l: Local, m: Msg): multiset<Msg> {
    match m.kind
    case AskLeader => multiset{AskReply(l, m)}
    case GetVote => multiset{VoteReply(BeforeVote(l), m)}
    case BroadcastLeader => BroadcastReplies(l, m)
    case _ => multiset{}
  }

  // ---- connector handler ------------------------------------------------------------------

  /** A reply of a later term makes a member that has a leader release it and ignore the rest. */
  predicate StepsDown(l: Local, m: Msg) { l.leader != NO_ID && Own(l) < m.term }

  function OnReply(l: Local, m: Msg): Local {
    if StepsDown(l, m) then ReleaseLeader(l) else ReactTo(LearnTerms(l, m), m)
  }

  function ReactTo(l: Local, m: Msg): Local {
    match m.kind
    case ReAskLeader =>
      if m.leaderId != NO_ID && m.leaderId in l.alive && m.leaderId in l.terms
      then SignLeader(l, m.leaderId) else l
    case ReGetVote => if m.success == Some(true) then AddVote(l, m.term) else l
    case ReLeader => if m.success == Some(false) && l.leader == l.me then ReleaseLeader(l) else l
    case _ => l
  }

  predicate Counts(l: Local, m: Msg) { !StepsDown(l, m) && m.kind.ReGetVote? && m.success == Some(true) }

  // ---- heartbeat: pruning of the vote maps ------------------------------------------------

  /** heartbeat's clean-up of a vote map: over 20 entries, the ten smallest terms go. */
  ghost predicate IsPruned<V>(m: map<int, V>, p: map<int, V>) {
    if |m| <= 20 then p == m
    else
      && p.Keys <= m.Keys && |m.Keys - p.Keys| == 10
      && (forall t | t in p :: p[t] == m[t])
      && (forall d, k | d in m.Keys - p.Keys && k in p :: d < k)
  }

  ghost predicate DropsOnlyPastTerms(l: Local, p: map<int, Id>) {
    forall t | t in l.voteNode && t !in p :: t < Own(l)
  }

  /**
    Pruning the vote map is harmless exactly when every dropped term is already behind the member:
    otherwise some term it has voted in is open for a second vote.
   */
  lemma PruneForgetsNoVoteIffPast(l: Local, p: map<int, Id>)
    requires IsPruned(l.voteNode, p)
    requires forall t | t in l.voteNode :: l.voteNode[t] != NO_ID
    ensures (forall t | t in l.voteNode :: !Grants(l.(voteNode := p), t)) <==> DropsOnlyPastTerms(l, p)
  {
    var after := l.(voteNode := p);
    assert Own(after) == Own(l);
    if forall t | t in l.voteNode :: !Grants(after, t) {
      forall t | t in l.voteNode && t !in p ensures t < Own(l) {
        assert !Grants(after, t);
      }
    }
  }

  /** The votes of a member that voted for member 1 in each of the terms 1 to n. */
  ghost function VotesUpTo(n: nat): map<int, Id> {
    if n == 0 then map[] else VotesUpTo(n - 1)[n := 1]
  }

  lemma {:induction false} VotesUpToHolds(n: nat)
    ensures |VotesUpTo(n)| == n
    ensures forall t :: t in VotesUpTo(n) <==> 1 <= t <= n
    ensures forall t | t in VotesUpTo(n) :: VotesUpTo(n)[t] == 1
  {
    if n > 0 { VotesUpToHolds(n - 1); }
  }

  /** ... and the code does not check: a member still in term 0 can vote twice in each of the terms 1 to 10. */
  lemma PruneCanForgetVotes(l: Local, n: nat) returns (p: map<int, Id>)
    requires l.voteNode == VotesUpTo(n) && n > 20 && Own(l) <= 1
    ensures IsPruned(l.voteNode, p)
    ensures forall t | 1 <= t <= 10 :: !Grants(l, t) && Grants(l.(voteNode := p), t)
  {
    var ten: nat :| ten == 10;
    VotesUpToHolds(n);
    VotesUpToHolds(ten);
    p := map t | t in VotesUpTo(n) && t > ten :: 1;
    assert l.voteNode.Keys - p.Keys == VotesUpTo(ten).Keys;
    assert |VotesUpTo(ten).Keys| == ten;
  }

  // ---- what every reaction keeps ----------------------------------------------------------

  predicate WellFormed(l: Local) {
    && l.me in l.terms && NO_ID !in l.terms
    && (l.leader == NO_ID || l.leader in l.terms)
    && l.alive <= l.terms.Keys - {l.me} && l.connected <= l.terms.Keys - {l.me}
  }

  /** The recorded leader is never behind the member that follows it. */
  predicate LeaderNotBehind(l: Local) { l.leader != NO_ID ==> TermOf(l, l.leader) >= Own(l) }

  /** Unless closed, a member says Leader exactly when its leader is itself; a candidate has none. */
  predicate StatusAgrees(l: Local) {
    !l.status.Closed? ==>
      (l.status.Leader? <==> l.leader == l.me) && (l.status.Candidate? ==> l.leader == NO_ID)
  }

  predicate Consistent(l: Local) { WellFormed(l) && LeaderNotBehind(l) && StatusAgrees(l) }

  predicate TermsGrow(l: Local, l': Local) {
    l'.me == l.me && l'.terms.Keys == l.terms.Keys && forall x | x in l.terms :: l.terms[x] <= l'.terms[x]
  }

  /** A leader replaced by another without a release in between never has a smaller recorded term. */
  predicate LeaderTermGrows(l: Local, l': Local) {
    l.leader != NO_ID && l'.leader != NO_ID ==> TermOf(l', l'.leader) >= TermOf(l, l.leader)
  }

  lemma SignLeaderKeeps(l: Local, x: Id)
    requires Consistent(l) && x in l.terms
    ensures Consistent(SignLeader(l, x)) && LeaderTermGrows(l, SignLeader(l, x))
    ensures SignAllowed(l, x) ==> SignLeader(l, x).leader == x
    ensures !SignAllowed(l, x) ==> SignLeader(l, x) == l
  {
  }

  lemma LearnTermsKeeps(l: Local, m: Msg)
    requires WellFormed(l) && m.term >= Own(l)
    ensures var r := LearnTerms(l, m);
      && r == l.(terms := r.terms) && TermsGrow(l, r) && Own(r) == m.term
      && (m.leaderId in l.terms ==> TermOf(r, m.leaderId) >= m.term)
      && (forall x | x in l.terms :: r.terms[x] == l.terms[x] || r.terms[x] == m.term)
  {
  }

  /** A broadcast leaves the member consistent; it can only make the member follow the named leader. */
  lemma BroadcastKeeps(l: Local, m: Msg)
    requires Consistent(l)
    ensures var r := OnBroadcast(l, m);
      && Consistent(r) && TermsGrow(l, r)
      && (r.leader == l.leader || r.leader == NO_ID || r.leader == m.leaderId)
      && Own(r) == (if m.term > Own(l) then m.term else Own(l))
      && (m.term >= Own(l) && m.leaderId in l.terms && r.leader != NO_ID && SignAllowed(AfterBroadcastTerms(l, m), m.leaderId)
          ==> r.leader == m.leaderId)
  {
    if m.term >= Own(l) {
      var l0 := if m.term > Own(l) && l.leader != NO_ID && l.leader != m.leaderId then ReleaseLeader(l) else l;
      LearnTermsKeeps(l0, m);
      var l1 := AfterBroadcastTerms(l, m);
      assert Consistent(l1);
      if m.leaderId in l1.terms { SignLeaderKeeps(l1, m.leaderId); }
    }
  }

  lemma LearnLowTermsKeeps(l: Local, m: Msg)
    requires Consistent(l) && m.term < Own(l)
    ensures var r := LearnTerms(l, m);
      && r == l.(terms := r.terms) && TermsGrow(l, r) && Own(r) == Own(l) && Consistent(r)
      && (forall x | x in l.terms :: r.terms[x] == l.terms[x] || r.terms[x] == m.term)
  {
  }

  lemma ReactToKeeps(l: Local, m: Msg)
    requires Consistent(l)
    ensures var r := ReactTo(l, m);
      && Consistent(r) && r.terms == l.terms && r.me == l.me && r.voteNode == l.voteNode
      && (r.leader == l.leader || r.leader == NO_ID || (r.leader == m.leaderId && r.leader != l.me))
  {
  }

  /** A reply leaves the member consistent, and never makes it its own leader. */
  lemma ReplyKeeps(l: Local, m: Msg)
    requires Consistent(l)
    ensures var r := OnReply(l, m);
      && Consistent(r) && TermsGrow(l, r) && r.voteNode == l.voteNode
      && (r.leader == l.leader || r.leader == NO_ID || (r.leader == m.leaderId && r.leader != l.me))
  {
    if !StepsDown(l, m) {
      ReplyTermsKeep(l, m);
      ReactToKeeps(LearnTerms(l, m), m);
    }
  }

  lemma ReplyTermsKeep(l: Local, m: Msg)
    requires Consistent(l) && !StepsDown(l, m)
    ensures var r := LearnTerms(l, m);
      && Consistent(r) && r == l.(terms := r.terms) && TermsGrow(l, r)
      && (forall x | x in l.terms :: r.terms[x] == l.terms[x] || r.terms[x] == m.term)
  {
    if m.term >= Own(l) { LearnTermsKeeps(l, m); } else { LearnLowTermsKeeps(l, m); }
  }

  lemma GetVoteKeeps(l: Local, m: Msg)
    requires Consistent(l)
    ensures Consistent(OnGetVote(l, m)) && OnGetVote(l, m).terms == l.terms && OnGetVote(l, m).me == l.me
  {
  }
}
