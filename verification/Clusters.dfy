/**
  The imperative cluster member: Node objects and the Cluster that updates them in place
  (cluster/node.go, cluster/service.go, cluster/contact.go). `View` is the member's state as a value;
  every method is proved to change it as the corresponding function of ClusterRules says.
 */
module Clusters {
  import opened Options
  import opened ClusterRules
  import opened ElectionProtocol

  class Node {
    const id: Id
    var term: int
    var voteCount: map<int, nat>
    var voteNode: map<int, Id>
    var connected: bool

    constructor (id: Id)
      ensures this.id == id && term == 0 && voteCount == map[] && voteNode == map[] && !connected
    {
      this.id := id;
      term, voteCount, voteNode, connected := 0, map[], map[], false;
    }

    method AddVoteCount(t: int)
      modifies this`voteCount
      ensures voteCount == old(voteCount)[t := (if t in old(voteCount) then old(voteCount)[t] else 0) + 1]
    {
      var n := if t in voteCount then voteCount[t] else 0;
      voteCount := voteCount[t := n + 1];
    }

    /** At most one vote per term, and none in a term behind the node. */
    method VoteToNode(yourTerm: int, yourNodeId: Id) returns (granted: bool)
      modifies this`voteNode
      ensures granted <==> (yourTerm in old(voteNode) ==> old(voteNode)[yourTerm] == NO_ID) && yourTerm >= term
      ensures voteNode == if granted then old(voteNode)[yourTerm := yourNodeId] else old(voteNode)
    {
      var vote := if yourTerm in voteNode then voteNode[yourTerm] else NO_ID;
      if vote == NO_ID {
        if yourTerm >= term {
          voteNode := voteNode[yourTerm := yourNodeId];
          return true;
        } else {
          return false;
        }
      } else {
        return false;
      }
    }

    method SetTerm(newTerm: int) returns (raised: bool)
      modifies this`term
      ensures raised <==> newTerm > old(term)
      ensures term == if raised then newTerm else old(term)
    {
      if newTerm <= term {
        return false;
      } else {
        term := newTerm;
        return true;
      }
    }
  }

  class Cluster {
    const nodeMy: Node
    const nodesAll: map<Id, Node>
    var nodesAlive: set<Id>
    var nodeLeader: Node?
    var status: Status
    var fighting: bool

    ghost predicate Valid()
      reads this, nodeMy`connected
    {
      && !nodeMy.connected
      && NO_ID !in nodesAll && nodeMy.id in nodesAll && nodesAll[nodeMy.id] == nodeMy
      && (forall x | x in nodesAll :: nodesAll[x].id == x)
      && (nodeLeader != null ==> nodeLeader.id in nodesAll && nodesAll[nodeLeader.id] == nodeLeader)
    }

    ghost function Terms(): map<Id, int>
      reads nodesAll.Values`term
    {
      map x | x in nodesAll :: nodesAll[x].term
    }

    ghost function Connected(): set<Id>
      reads nodesAll.Values`connected
    {
      set x | x in nodesAll && nodesAll[x].connected
    }

    ghost function View(): Local
      reads this, nodeMy, nodesAll.Values
    {
      Local(nodeMy.id, status, if nodeLeader == null then NO_ID else nodeLeader.id, Terms(),
            nodeMy.voteNode, nodeMy.voteCount, nodesAlive, Connected(), fighting)
    }

    /** A member loaded from the configuration `nodes`, the entry `my` being itself. */
    constructor (my: Node, nodes: map<Id, Node>)
      requires NO_ID !in nodes && my.id in nodes && nodes[my.id] == my && forall x | x in nodes :: nodes[x].id == x
      requires !my.connected
      ensures Valid() && nodeMy == my && nodesAll == nodes
      ensures nodeLeader == null && status == Unstarted && nodesAlive == {} && !fighting
    {
      nodeMy, nodesAll := my, nodes;
      nodesAlive, nodeLeader, status, fighting := {}, null, Unstarted, false;
    }

    /** setTerm on the configured node `x`, if there is one. */
    method RaiseTerm(x: Id, t: int)
      requires Valid()
      modifies nodesAll.Values`term
      ensures View() == SetTerm(old(View()), x, t)
    {
      if x in nodesAll {
        var _ := nodesAll[x].SetTerm(t);
      }
      assert Terms() == Raise(old(Terms()), x, t);
    }

    method SignLeader(newLeader: Node) returns (success: bool)
      requires Valid() && newLeader.id in nodesAll && nodesAll[newLeader.id] == newLeader
      modifies this`nodeLeader, this`status
      ensures Valid() && View() == ClusterRules.SignLeader(old(View()), newLeader.id)
      ensures success == SignAllowed(old(View()), newLeader.id)
    {
      if newLeader.term < nodeMy.term {
        return false;
      }
      if nodeLeader != null && newLeader.term < nodeLeader.term {
        return false;
      }
      if nodeLeader != null && nodeLeader.id == newLeader.id {
        return true;
      }
      nodeLeader := newLeader;
      if nodeMy.id == newLeader.id {
        status := Leader;
      } else {
        status := Follower;
      }
      return true;
    }

    method ReleaseLeader()
      requires Valid()
      modifies this`nodeLeader, this`status
      ensures Valid() && View() == ClusterRules.ReleaseLeader(old(View()))
    {
      nodeLeader := null;
      status := Follower;
    }

    // ---- service ----

    /** In cluster mode: the first call makes the member a follower and opens the service, which starts an election. */
    method StartUp() returns (started: bool)
      requires Valid()
      modifies this`status
      ensures Valid() && started == old(status).Unstarted?
      ensures View() == if started then EffectOn(old(View()), Fights(0, multiset{}), Action.StartUp(nodeMy.id)).after else old(View())
    {
      started := status == Unstarted;
      if started {
        status := Follower;
      }
    }

    method Close()
      requires Valid()
      modifies this`status, nodesAll.Values`connected
      ensures Valid() && View() == EffectOn(old(View()), Fights(0, multiset{}), Action.Close(nodeMy.id)).after
    {
      status := Closed;
      var rest := nodesAll.Keys;
      while rest != {}
        invariant rest <= nodesAll.Keys && forall x | x in nodesAll && x !in rest :: !nodesAll[x].connected
        invariant Valid() && status == Closed
        modifies nodesAll.Values`connected
        decreases rest
      {
        var x := AnyOf(rest);
        rest := rest - {x};
        nodesAll[x].connected := false;
      }
      assert Connected() == {} && Terms() == old(Terms());
    }

    /** A connection to `target` is up: its connector is kept and it is alive. */
    method SessionConnected(target: Node)
      requires Valid() && target.id in nodesAll && nodesAll[target.id] == target && target.id != nodeMy.id && !target.connected
      modifies this`nodesAlive, target`connected
      ensures Valid() && View() == EffectOn(old(View()), Fights(0, multiset{}), Connect(nodeMy.id, target.id)).after
    {
      target.connected := true;
      nodesAlive := nodesAlive + {target.id};
      assert Connected() == old(Connected()) + {target.id} && Terms() == old(Terms());
    }

    /** The connection to `target` is gone; `again` says that another election was started. */
    method HandleSessionClosed(target: Node) returns (again: bool)
      requires Valid() && target.id in nodesAll && nodesAll[target.id] == target
      modifies this`nodesAlive, this`nodeLeader, this`status, target`connected
      ensures var e := OnSessionClosed(old(Before(Fights(0, multiset{}))), target.id);
        Valid() && View() == e.after && e.fights.spawned == if again then 1 else 0
    {
      hide OnlineMajority, OnSessionClosed, Terms, Connected, WithoutPeer;
      ghost var l := View();
      SessionOutcome(l, target.id);
      DropPeer(target);
      again := false;
      var majority := MajorityOnline();
      if nodeLeader != null && nodeLeader.id == target.id {
        again := status != Closed;
      } else if !majority {
        again := status != Closed && !fighting;
      }
      if again {
        ReleaseLeader();
      }
    }

    method DropPeer(target: Node)
      requires Valid() && target.id in nodesAll && nodesAll[target.id] == target
      modifies this`nodesAlive, target`connected
      ensures Valid() && View() == WithoutPeer(old(View()), target.id)
    {
      target.connected := false;
      nodesAlive := nodesAlive - {target.id};
      assert Connected() == old(Connected()) - {target.id} && Terms() == old(Terms());
    }

    method MajorityOnline() returns (ok: bool)
      requires Valid()
      ensures ok == OnlineMajority(View())
    {
      assert Terms().Keys == nodesAll.Keys && |Terms()| == |Terms().Keys| && |nodesAll| == |nodesAll.Keys|;
      ok := |nodesAlive| + 1 > |nodesAll| / 2;
    }

    // ---- acceptor handler ----

    method HandleAskLeader(m: Msg) returns (reply: Msg)
      requires Valid()
      ensures reply == AskReply(View(), m)
    {
      var leaderId, leaderTerm := NO_ID, nodeMy.term;
      if nodeLeader != null && nodeLeader.term >= m.term {
        leaderId, leaderTerm := nodeLeader.id, nodeLeader.term;
      }
      reply := Msg(ReAskLeader, nodeMy.id, m.from, leaderTerm, leaderId, None, false);
    }

    method HandleGetVote(m: Msg) returns (reply: Msg)
      requires Valid()
      modifies this`nodeLeader, this`status, nodeMy`voteNode
      ensures Valid() && View() == OnGetVote(old(View()), m)
      ensures reply == VoteReply(BeforeVote(old(View())), m)
    {
      if status == Leader {
        ReleaseLeader();
      }
      var chooseYou := nodeMy.VoteToNode(m.term, m.from);
      reply := Msg(ReGetVote, nodeMy.id, m.from, m.term, NO_ID, Some(chooseYou), false);
    }

    method HandleBroadcast(m: Msg) returns (replies: seq<Msg>)
      requires Valid()
      modifies this`nodeLeader, this`status, nodesAll.Values`term
      ensures Valid() && View() == OnBroadcast(old(View()), m)
      ensures multiset(replies) == BroadcastReplies(old(View()), m)
      ensures m.term < old(nodeMy.term) ==> replies == [Msg(ReLeader, nodeMy.id, m.from, nodeMy.term, NO_ID, Some(false), false)]
    {
      hide AfterBroadcastTerms, ClusterRules.SignLeader, SignAllowed, AlreadyFollows;
      if m.term < nodeMy.term {
        replies := [Msg(ReLeader, nodeMy.id, m.from, nodeMy.term, NO_ID, Some(false), false)];
        return;
      }
      LearnFromBroadcast(m);
      replies := FollowNamed(m);
    }

    /** The rest of a broadcast whose term is not behind: acknowledge, then follow the leader it names. */
    method FollowNamed(m: Msg) returns (replies: seq<Msg>)
      requires Valid()
      modifies this`nodeLeader, this`status
      ensures var l := old(View()); var ok := Msg(Ok, l.me, m.from, Own(l), NO_ID, None, false);
        && Valid()
        && View() == (if AlreadyFollows(l, m) || m.leaderId !in l.terms then l else ClusterRules.SignLeader(l, m.leaderId))
        && multiset(replies) == if AlreadyFollows(l, m) then (if m.confirm then multiset{ok, LeaderReply(l, m, true)} else multiset{ok})
                                else if m.leaderId !in l.terms then multiset{ok}
                                else multiset{ok, LeaderReply(l, m, SignAllowed(l, m.leaderId))}
    {
      hide ClusterRules.SignLeader, SignAllowed;
      replies := [Msg(Ok, nodeMy.id, m.from, nodeMy.term, NO_ID, None, false)];
      assert Own(View()) == nodeMy.term && TermOf(View(), m.leaderId) == if m.leaderId in nodesAll then nodesAll[m.leaderId].term else 0;
      if nodeLeader != null && nodeLeader.id == m.leaderId && nodeLeader.term == m.term {
        if m.confirm {
          replies := replies + [Msg(ReLeader, nodeMy.id, m.from, nodeMy.term, NO_ID, Some(true), false)];
        }
        return;
      }
      if m.leaderId in nodesAll {
        var success := SignLeader(nodesAll[m.leaderId]);
        replies := replies + [Msg(ReLeader, nodeMy.id, m.from, nodeMy.term, NO_ID, Some(success), false)];
      }
    }

    method LearnFromBroadcast(m: Msg)
      requires Valid()
      modifies this`nodeLeader, this`status, nodesAll.Values`term
      ensures Valid() && View() == AfterBroadcastTerms(old(View()), m)
    {
      if m.term > nodeMy.term && nodeLeader != null && nodeLeader.id != m.leaderId {
        ReleaseLeader();
      }
      LearnFrom(m);
    }

    /** Own term, the sender's cached term and the named leader's cached term, in this order. */
    method LearnFrom(m: Msg)
      requires Valid()
      modifies nodesAll.Values`term
      ensures View() == LearnTerms(old(View()), m)
    {
      RaiseTerm(nodeMy.id, m.term);
      RaiseTerm(m.from, m.term);
      RaiseTerm(m.leaderId, m.term);
    }

    // ---- connector handler ----

    method HandleReply(m: Msg)
      requires Valid()
      modifies this`nodeLeader, this`status, nodesAll.Values`term, nodeMy`voteCount
      ensures Valid() && View() == OnReply(old(View()), m)
    {
      if nodeLeader != null && nodeMy.term < m.term {
        ReleaseLeader();
        return;
      }
      LearnFrom(m);
      React(m);
    }

    method React(m: Msg)
      requires Valid()
      modifies this`nodeLeader, this`status, nodeMy`voteCount
      ensures Valid() && View() == ReactTo(old(View()), m)
    {
      match m.kind {
        case ReAskLeader =>
          if m.leaderId != NO_ID && m.leaderId !in nodesAlive {
            return;
          }
          if m.leaderId != NO_ID && m.leaderId in nodesAll {
            var _ := SignLeader(nodesAll[m.leaderId]);
          }
        case ReGetVote =>
          if m.success == Some(true) {
            nodeMy.AddVoteCount(m.term);
          }
        case ReLeader =>
          if m.success == Some(false) && nodeLeader != null && nodeLeader.id == nodeMy.id {
            ReleaseLeader();
          }
        case _ =>
      }
    }

    // ---- heartbeat ----

    /** The clean-up of both vote maps at the end of a heartbeat. */
    method PruneVotes()
      requires Valid()
      modifies nodeMy`voteNode, nodeMy`voteCount
      ensures Valid()
      ensures IsPruned(old(nodeMy.voteNode), nodeMy.voteNode) && IsPruned(old(nodeMy.voteCount), nodeMy.voteCount)
      ensures View() == old(View()).(voteNode := nodeMy.voteNode, voteCount := nodeMy.voteCount)
    {
      hide IsPruned, Terms, Connected;
      var counts := Pruned(nodeMy.voteCount);
      var votes := Pruned(nodeMy.voteNode);
      nodeMy.voteCount, nodeMy.voteNode := counts, votes;
    }

    // ---- fightElection, between its waits ----

    /** The effect record of a lone goroutine of this member, before it acts. */
    ghost function Before(f: Fights): Effect
      reads this, nodeMy, nodesAll.Values
    {
      Nothing(nodeMy.id, View(), f)
    }

    method FightStart() returns (started: bool, currentTerm: int)
      requires Valid()
      modifies this`fighting, nodesAll.Values`term
      ensures Valid() && View() == OnFightStart(old(Before(Fights(1, multiset{})))).after
      ensures OnFightStart(old(Before(Fights(1, multiset{})))).fought == if started then {Bid(nodeMy.id, currentTerm)} else {}
    {
      started, currentTerm := false, 0;
      if status == Closed || status == Leader || nodeLeader != null || fighting {
        return;
      }
      fighting := true;
      currentTerm := nodeMy.term + 1;
      RaiseTerm(nodeMy.id, currentTerm);
      started := true;
    }

    /** The request goes to every peer with a connector. */
    method SendToPeers(m: Msg) returns (sent: set<Msg>)
      requires Valid()
      ensures multiset(sent) == ToPeers(View(), m)
    {
      sent := {};
      var rest := nodesAll.Keys;
      while rest != {}
        invariant rest <= nodesAll.Keys
        invariant sent == set j | j in nodesAll && j !in rest && nodesAll[j].connected :: m.(to := j)
        decreases rest
      {
        var x := AnyOf(rest);
        rest := rest - {x};
        if x != nodeMy.id && nodesAll[x].connected {
          sent := sent + {m.(to := x)};
        }
      }
      assert sent == set j | j in Connected() :: m.(to := j);
    }

    /** One round of the wait for enough members online. */
    method FightAsk(t: int) returns (left: bool, sent: set<Msg>)
      requires Valid()
      modifies this`fighting
      ensures var e := OnFightAsk(old(Before(Fights(0, multiset{Asking(t)}))), t);
        Valid() && View() == e.after && multiset(sent) == e.sent && (left <==> e.fights.past == multiset{})
    {
      hide OnlineMajority, ToPeers;
      left, sent := false, {};
      if nodeLeader != null {
        left, fighting := true, false;
        return;
      }
      var enough := MajorityOnline();
      if enough {
        sent := SendToPeers(Msg(AskLeader, nodeMy.id, NO_ID, t, NO_ID, None, false));
      }
    }

    method FightStand(ghost t: int) returns (candidate: bool)
      requires Valid()
      modifies this`fighting, this`status
      ensures var e := OnFightStand(old(Before(Fights(0, multiset{Standing(t)}))), t);
        Valid() && View() == e.after && (candidate <==> Polling(t) in e.fights.past)
    {
      if nodeLeader != null || status == Closed || status == Leader {
        fighting := false;
        return false;
      }
      if status == Follower {
        status := Candidate;
      }
      return true;
    }

    /** One round of the candidate's wait for enough members online, up to the request for votes. */
    method FightPoll(t: int) returns (left: bool, again: bool, sent: set<Msg>)
      requires Valid()
      modifies this`fighting
      ensures var e := OnFightPoll(old(Before(Fights(0, multiset{Polling(t)}))), t);
        && Valid() && View() == e.after && multiset(sent) == e.sent
        && (left <==> e.fights.past == multiset{}) && e.fights.spawned == if again then 1 else 0
    {
      hide OnlineMajority, ToPeers;
      left, again, sent := false, false, {};
      if nodeLeader != null {
        left, fighting := true, false;
        return;
      }
      if status != Candidate || t < nodeMy.term {
        left, again, fighting := true, true, false;
        return;
      }
      var enough := MajorityOnline();
      if enough {
        sent := SendToPeers(Msg(GetVote, nodeMy.id, NO_ID, nodeMy.term, NO_ID, None, false));
      }
    }

    /** The candidate's own vote, the majority test and the comparison with every known term. */
    method FightCount(t: int) returns (fightDone: bool)
      requires Valid()
      modifies this`fighting, nodeMy`voteNode, nodeMy`voteCount
      ensures var e := OnFightCount(old(Before(Fights(0, multiset{Counting(t)}))), t);
        Valid() && View() == e.after && (fightDone <==> Confirming(t) in e.fights.past)
    {
      hide OnFightCount, SelfVote, Majority, NobodyAhead;
      CountOutcome(View(), t);
      VoteForMyself(t);
      fightDone := HasMajority(t);
      if fightDone {
        fightDone := KnowsNobodyAhead(t);
      }
      if !fightDone {
        fighting := false;
      }
    }

    method HasMajority(t: int) returns (ok: bool)
      requires Valid()
      ensures ok == Majority(View(), t)
    {
      assert Terms().Keys == nodesAll.Keys && |Terms()| == |Terms().Keys| && |nodesAll| == |nodesAll.Keys|;
      var voteCount := if t in nodeMy.voteCount then nodeMy.voteCount[t] else 0;
      ok := voteCount > |nodesAll| / 2;
    }

    method VoteForMyself(t: int)
      requires Valid()
      modifies nodeMy`voteNode, nodeMy`voteCount
      ensures Valid() && View() == SelfVote(old(View()), t)
    {
      var granted := nodeMy.VoteToNode(t, nodeMy.id);
      if granted {
        nodeMy.AddVoteCount(t);
      }
    }

    method KnowsNobodyAhead(t: int) returns (ok: bool)
      requires Valid()
      ensures ok == NobodyAhead(View(), t)
    {
      var rest := nodesAll.Keys;
      ok := true;
      while rest != {} && ok
        invariant rest <= nodesAll.Keys && (ok <==> forall x | x in nodesAll && x !in rest :: nodesAll[x].term <= t)
        decreases rest
      {
        var x := AnyOf(rest);
        rest := rest - {x};
        if t < nodesAll[x].term {
          ok := false;
        }
      }
      assert forall x | x in nodesAll :: Terms()[x] == nodesAll[x].term;
    }

    /** Sign itself if every reply agrees and there is one; otherwise another fightElection follows. */
    method FightConfirm(t: int, replies: seq<Msg>) returns (again: bool)
      requires Valid()
      modifies this`fighting, this`nodeLeader, this`status
      ensures var e := OnFightConfirm(old(Before(Fights(0, multiset{Confirming(t)}))), t, replies);
        Valid() && View() == e.after && e.fights.spawned == if again then 1 else 0
      ensures !again ==> nodeLeader == nodeMy && |replies| > 0 && forall i | 0 <= i < |replies| :: replies[i].success == Some(true)
    {
      var fightDone := |replies| > 0;
      var i := 0;
      while i < |replies| && fightDone
        invariant 0 <= i <= |replies|
        invariant fightDone <==> |replies| > 0 && forall r | r in replies[..i] :: r.success == Some(true)
      {
        if replies[i].success != Some(true) {
          fightDone := false;
        }
        i := i + 1;
        assert replies[..i] == replies[..i - 1] + [replies[i - 1]];
      }
      assert fightDone ==> replies[..i] == replies;
      again := true;
      if fightDone {
        var signed := SignLeader(nodeMy);
        again := !signed;
      }
      fighting := false;
    }
  }

  function WithoutPeer(l: Local, j: Id): Local { l.(alive := l.alive - {j}, connected := l.connected - {j}) }

  lemma SessionOutcome(l: Local, j: Id)
    ensures var e := OnSessionClosed(Nothing(l.me, l, Fights(0, multiset{})), j); var l1 := WithoutPeer(l, j);
      var again := !l.status.Closed? && (l.leader == j || (!OnlineMajority(l1) && !l.fighting));
      && e.after == (if again then ClusterRules.ReleaseLeader(l1) else l1) && e.fights.spawned == (if again then 1 else 0)
      && l1.leader == l.leader && l1.status == l.status && l1.fighting == l.fighting
  {
    hide OnlineMajority;
  }

  lemma CountOutcome(l: Local, t: int)
    ensures var e := OnFightCount(Nothing(l.me, l, Fights(0, multiset{Counting(t)})), t); var l1 := SelfVote(l, t);
      if Majority(l1, t) && NobodyAhead(l1, t) then e.after == l1 && Confirming(t) in e.fights.past
      else e.after == l1.(fighting := false) && Confirming(t) !in e.fights.past
  {
    hide SelfVote, Majority, NobodyAhead, ToPeers, Grants;
  }

  ghost predicate Increasing(s: seq<int>) { forall i, j | 0 <= i < j < |s| :: s[i] < s[j] }

  method AnyOf<T>(s: set<T>) returns (x: T)
    requires s != {}
    ensures x in s
  {
    x :| x in s;
  }

  /** A map's keys, collected and sorted. */
  method SortedKeys(keys: set<int>) returns (s: seq<int>)
    ensures Increasing(s) && |s| == |keys| && forall k :: k in s <==> k in keys
  {
    s := [];
    var rest := keys;
    while rest != {}
      invariant rest <= keys && Increasing(s) && |s| + |rest| == |keys|
      invariant forall k :: k in s <==> k in keys - rest
      decreases rest
    {
      var k := AnyOf(rest);
      s := InsertSorted(s, k);
      rest := rest - {k};
    }
  }

  method InsertSorted(s: seq<int>, k: int) returns (r: seq<int>)
    requires Increasing(s) && k !in s
    ensures Increasing(r) && |r| == |s| + 1 && forall x :: x in r <==> x == k || x in s
  {
    var i := 0;
    while i < |s| && s[i] < k
      invariant 0 <= i <= |s| && forall j | 0 <= j < i :: s[j] < k
    {
      i := i + 1;
    }
    r := s[..i] + [k] + s[i..];
    assert forall x :: x in s <==> x in s[..i] || x in s[i..];
  }

  /** heartbeat's clean-up of one vote map: over 20 entries, the ten smallest keys are deleted. */
  method Pruned<V>(m: map<int, V>) returns (p: map<int, V>)
    ensures IsPruned(m, p)
  {
    p := m;
    if |m| > 20 {
      var key := SortedKeys(m.Keys);
      var i := 0;
      while i < 10
        invariant 0 <= i <= 10 && p.Keys <= m.Keys && |p.Keys| == |m.Keys| - i
        invariant forall t | t in p :: p[t] == m[t]
        invariant forall t | t in m :: t in p <==> t !in key[..i]
      {
        assert key[i] in key && key[i] !in key[..i];
        p := p - {key[i]};
        i := i + 1;
      }
      PrunedFront(m, p, key);
    }
  }

  lemma PrunedFront<V>(m: map<int, V>, p: map<int, V>, key: seq<int>)
    requires |m| > 20 && Increasing(key) && |key| == |m| && p.Keys <= m.Keys && |p.Keys| == |m.Keys| - 10
    requires forall t | t in p :: p[t] == m[t]
    requires (forall k :: k in key <==> k in m.Keys) && forall t | t in m :: t in p <==> t !in key[..10]
    ensures IsPruned(m, p)
  {
    assert m.Keys == p.Keys + (m.Keys - p.Keys);
    forall d, k | d in m.Keys - p.Keys && k in p ensures d < k {
      var i :| 0 <= i < 10 && key[i] == d;
      var j :| 0 <= j < |key| && key[j] == k;
      assert j >= 10;
    }
  }
}
