/**
  The cluster as a transition system: every configured member, its fightElection goroutines cut
  at their waits, and the messages in flight. Each handler is one atomic step; a message is
  delivered at most once and may be lost; members do not restart.
 */
module ElectionProtocol {
  import opened Options
  import opened ClusterRules

  /** Where a fightElection goroutine that has passed the `fighting` guard waits, and its term. */
  datatype Phase =
    | Asking(term: int)      // waiting for enough members online
    | Standing(term: int)    // waiting for the answers to AskLeader
    | Polling(term: int)     // candidate, waiting for enough members online
    | Counting(term: int)    // waiting for the answers to GetVote
    | Confirming(term: int)  // waiting for the answers to its own BroadcastLeader

  /** A member's fightElection goroutines: those in the delay before the guard, and those past it. */
  datatype Fights = Fights(spawned: nat, past: multiset<Phase>)

  datatype Vote = Vote(voter: Id, term: int, candidate: Id)
  datatype Bid = Bid(node: Id, term: int)

  /**
    `granted`, `counted`, `won` and `fought` only record what happened: every vote granted, every
    vote tallied, every majority test passed, every election begun.
   */
  datatype State = State(
    locals: map<Id, Local>,
    fights: map<Id, Fights>,
    net: multiset<Msg>,
    granted: set<Vote>, counted: set<Vote>, won: set<Bid>, fought: set<Bid>,
    elections: nat)

  /** What one atomic step does to one member, to the network and to the records; `forgot` are the voted terms it drops. */
  datatype Effect = Effect(
    node: Id, after: Local, fights: Fights,
    consumed: multiset<Msg>, sent: multiset<Msg>,
    granted: set<Vote>, counted: set<Vote>, won: set<Bid>, fought: set<Bid>,
    forgot: set<int>)

  datatype Action =
    | StartUp(i: Id)
    | Close(i: Id)
    | Connect(i: Id, j: Id)
    | SessionClosed(i: Id, j: Id)
    | Deliver(m: Msg)
    | Drop(m: Msg)
    | LeaderHeartbeat(i: Id, j: Id)
    | LeaderlessHeartbeat(i: Id)
    | Prune(i: Id, voteNode: map<int, Id>, voteCount: map<int, nat>)
    | FightStart(i: Id)
    | FightAsk(i: Id, term: int)
    | FightStand(i: Id, term: int)
    | FightPoll(i: Id, term: int)
    | FightCount(i: Id, term: int)
    | FightConfirm(i: Id, term: int, replies: seq<Msg>)

  function Actor(a: Action): Id {
    match a
    case Deliver(m) => m.to
    case Drop(m) => m.to
    case _ => a.i
  }

  // ---- effects ----------------------------------------------------------------------------

  function Nothing(i: Id, l: Local, f: Fights): Effect {
    Effect(i, l, f, multiset{}, multiset{}, {}, {}, {}, {}, {})
  }

  /** The goroutine in phase `p` returns; with `again` it starts a new fightElection as it does. */
  function Leave(e: Effect, p: Phase, again: bool): Effect {
    e.(after := e.after.(fighting := false),
       fights := Fights(if again then e.fights.spawned + 1 else e.fights.spawned, e.fights.past - multiset{p}))
  }

  function Move(e: Effect, p: Phase, q: Phase): Effect {
    e.(fights := e.fights.(past := e.fights.past - multiset{p} + multiset{q}))
  }

  function Spawn(f: Fights): Fights { f.(spawned := f.spawned + 1) }

  /** Cluster.toNextTerm */
  function ToNextTerm(e: Effect): Effect { e.(after := ReleaseLeader(e.after), fights := Spawn(e.fights)) }

  /** The request a member sends to every peer it is connected to. */
  function ToPeers(l: Local, m: Msg): multiset<Msg> { multiset(set j | j in l.connected :: m.(to := j)) }

  function OnSessionClosed(e: Effect, j: Id): Effect {
    var l := e.after.(alive := e.after.alive - {j}, connected := e.after.connected - {j});
    var e1 := e.(after := l);
    if l.leader == j then
      if l.status.Closed? then e1 else ToNextTerm(e1)
    else if !OnlineMajority(l) && !l.status.Closed? && !l.fighting then ToNextTerm(e1)
    else e1
  }

  function OnDeliver(e: Effect, m: Msg): Effect {
    var l := e.after;
    var e1 := e.(consumed := multiset{m});
    if IsRequest(m.kind) then
      e1.(after := OnRequest(l, m), sent := Replies(l, m),
          granted := if m.kind.GetVote? && Grants(BeforeVote(l), m.term) then {Vote(m.to, m.term, m.from)} else {})
    else
      e1.(after := OnReply(l, m),
          counted := if Counts(l, m) then {Vote(m.from, m.term, m.to)} else {})
  }

  /** contact.go 215-266: the guards, then the new term. */
  function OnFightStart(e: Effect): Effect
    requires e.fights.spawned > 0
  {
    var l := e.after;
    var f := e.fights.(spawned := e.fights.spawned - 1);
    if l.status.Closed? || l.status.Leader? || l.leader != NO_ID || l.fighting then e.(fights := f)
    else
      var t := Own(l) + 1;
      e.(fights := f.(past := f.past + multiset{Asking(t)}),
         after := SetTerm(l, l.me, t).(fighting := true), fought := {Bid(l.me, t)})
  }

  /** 274-290 */
  function OnFightAsk(e: Effect, t: int): Effect {
    var l := e.after;
    if l.leader != NO_ID then Leave(e, Asking(t), false)
    else if OnlineMajority(l) then
      Move(e, Asking(t), Standing(t)).(sent := ToPeers(l, Msg(AskLeader, l.me, NO_ID, t, NO_ID, None, false)))
    else e
  }

  /** 294-309 */
  function OnFightStand(e: Effect, t: int): Effect {
    var l := e.after;
    if l.leader != NO_ID || l.status.Closed? || l.status.Leader? then Leave(e, Standing(t), false)
    else Move(e, Standing(t), Polling(t)).(after := if l.status.Follower? then l.(status := Candidate) else l)
  }

  /** 312-336 */
  function OnFightPoll(e: Effect, t: int): Effect {
    var l := e.after;
    if l.leader != NO_ID then Leave(e, Polling(t), false)
    else if !l.status.Candidate? || t < Own(l) then Leave(e, Polling(t), true)
    else if OnlineMajority(l) then
      Move(e, Polling(t), Counting(t)).(sent := ToPeers(l, Msg(GetVote, l.me, NO_ID, Own(l), NO_ID, None, false)))
    else e
  }

  /** 338-340: the candidate's vote for itself. */
  function SelfVote(l: Local, t: int): Local {
    if Grants(l, t) then AddVote(VoteTo(l, t, l.me), t) else l
  }

  predicate Majority(l: Local, t: int) { Tally(l, t) > |l.terms| / 2 }

  predicate NobodyAhead(l: Local, t: int) { forall x | x in l.terms :: l.terms[x] <= t }

  /** 338-383: own vote, majority test, terms test, and the broadcast that asks for confirmation. */
  function OnFightCount(e: Effect, t: int): Effect {
    var l := e.after;
    var self := if Grants(l, t) then {Vote(l.me, t, l.me)} else {};
    var l1 := SelfVote(l, t);
    var e1 := e.(after := l1, granted := self, counted := self,
                 won := if Majority(l1, t) then {Bid(l.me, t)} else {});
    if Majority(l1, t) && NobodyAhead(l1, t) then
      Move(e1, Counting(t), Confirming(t)).(sent := ToPeers(l1, Msg(BroadcastLeader, l.me, NO_ID, t, l.me, None, true)))
    else Leave(e1, Counting(t), true)
  }

  predicate Confirmed(replies: seq<Msg>) { |replies| > 0 && forall r | r in replies :: r.success == Some(true) }

  /** 385-400 */
  function OnFightConfirm(e: Effect, t: int, replies: seq<Msg>): Effect {
    var l := e.after;
    if Confirmed(replies) && SignAllowed(l, l.me) then Leave(e.(after := SignLeader(l, l.me)), Confirming(t), false)
    else Leave(e, Confirming(t), true)
  }

  // ---- steps ------------------------------------------------------------------------------

  /** What a member's own state must allow for it to take action `a`. */
  ghost predicate Able(l: Local, f: Fights, a: Action) {
    match a
    case StartUp(_) => l.status.Unstarted?
    case Close(_) => true
    case Connect(_, j) => j in l.terms && j != l.me && j !in l.connected
    case SessionClosed(_, j) => j in l.connected || j in l.alive
    case Deliver(_) => true
    case Drop(_) => true
    case LeaderHeartbeat(_, j) => IsReady(l) && l.status.Leader? && j in l.connected
    case LeaderlessHeartbeat(_) => IsReady(l) && !l.status.Leader? && l.leader !in l.connected
    case Prune(_, vn, vc) => IsReady(l) && IsPruned(l.voteNode, vn) && IsPruned(l.voteCount, vc)
    case FightStart(_) => f.spawned > 0
    case FightAsk(_, t) => Asking(t) in f.past
    case FightStand(_, t) => Standing(t) in f.past
    case FightPoll(_, t) => Polling(t) in f.past
    case FightCount(_, t) => Counting(t) in f.past
    case FightConfirm(_, t, _) => Confirming(t) in f.past
  }

  ghost function EffectOn(l: Local, f: Fights, a: Action): Effect
    requires Able(l, f, a)
  {
    var e := Nothing(l.me, l, f);
    match a
    case StartUp(_) => e.(after := l.(status := Follower), fights := Spawn(f))
    case Close(_) => e.(after := l.(status := Closed, connected := {}))
    case Connect(_, j) => e.(after := l.(alive := l.alive + {j}, connected := l.connected + {j}))
    case SessionClosed(_, j) => OnSessionClosed(e, j)
    case Deliver(m) => OnDeliver(e, m)
    case Drop(m) => e.(consumed := multiset{m})
    case LeaderHeartbeat(_, j) => e.(sent := multiset{Msg(BroadcastLeader, l.me, j, Own(l), l.me, None, false)})
    case LeaderlessHeartbeat(_) => ToNextTerm(e)
    case Prune(_, vn, vc) => e.(after := l.(voteNode := vn, voteCount := vc), forgot := l.voteNode.Keys - vn.Keys)
    case FightStart(_) => OnFightStart(e)
    case FightAsk(_, t) => OnFightAsk(e, t)
    case FightStand(_, t) => OnFightStand(e, t)
    case FightPoll(_, t) => OnFightPoll(e, t)
    case FightCount(_, t) => OnFightCount(e, t)
    case FightConfirm(_, t, replies) => OnFightConfirm(e, t, replies)
  }

  ghost predicate Enabled(s: State, a: Action) {
    var i := Actor(a);
    && i in s.locals && i in s.fights && Able(s.locals[i], s.fights[i], a)
    && (a.Deliver? || a.Drop? ==> a.m in s.net)
  }

  ghost function EffectOf(s: State, a: Action): Effect
    requires Enabled(s, a)
  {
    EffectOn(s.locals[Actor(a)], s.fights[Actor(a)], a)
  }

  ghost function Apply(s: State, e: Effect): State {
    State(s.locals[e.node := e.after], s.fights[e.node := e.fights],
          s.net - e.consumed + e.sent,
          s.granted + e.granted, s.counted + e.counted, s.won + e.won, s.fought + e.fought,
          s.elections + |e.fought|)
  }

  ghost function Step(s: State, a: Action): State
    requires Enabled(s, a)
  {
    Apply(s, EffectOf(s, a))
  }

  /** A member as configured, before StartUp. */
  predicate Fresh(nodes: set<Id>, i: Id, l: Local) {
    && l.me == i && l.status.Unstarted? && l.leader == NO_ID && !l.fighting
    && l.terms.Keys == nodes && (forall x | x in l.terms :: l.terms[x] == 0)
    && l.voteNode == map[] && l.voteCount == map[] && l.alive == {} && l.connected == {}
  }

  predicate FreshAt(nodes: set<Id>, s: State, i: Id) {
    i in s.locals && i in s.fights && Fresh(nodes, i, s.locals[i]) && s.fights[i] == Fights(0, multiset{})
  }

  ghost predicate Init(nodes: set<Id>, s: State) {
    && NO_ID !in nodes && s.locals.Keys == nodes && s.fights.Keys == nodes
    && (forall i {:trigger FreshAt(nodes, s, i)} | i in nodes :: FreshAt(nodes, s, i))
    && s.net == multiset{} && s.granted == {} && s.counted == {} && s.won == {} && s.fought == {} && s.elections == 0
  }

  /** A run: its states, and the action taken between each two. */
  datatype Run = Run(states: seq<State>, actions: seq<Action>)

  ghost predicate IsRun(nodes: set<Id>, r: Run) {
    && |r.states| == |r.actions| + 1
    && Init(nodes, r.states[0])
    && forall k: nat | k < |r.actions| :: Follows(r, k)
  }

  /** Action k leads from state k to state k + 1. */
  ghost predicate Follows(r: Run, k: nat)
    requires |r.states| == |r.actions| + 1 && k < |r.actions|
  {
    Enabled(r.states[k], r.actions[k]) && r.states[k + 1] == Step(r.states[k], r.actions[k])
  }

  /** The pruning assumption: a prune drops recorded votes of past terms only. */
  ghost predicate PrunesPastTerms(s: State, a: Action) {
    a.Prune? && a.i in s.locals ==> DropsOnlyPastTerms(s.locals[a.i], a.voteNode)
  }

  ghost predicate PrunesSafely(r: Run) {
    forall k | 0 <= k < |r.actions| && k < |r.states| :: PrunesPastTerms(r.states[k], r.actions[k])
  }
}
