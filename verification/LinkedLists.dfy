/** The doubly linked list of basic/linkedlist.go, proved against operations on the sequence of its values. */
module LinkedLists {
  /** An interface value: nil, or something comparable. */
  datatype Value = Nil | Just(v: int)

  class Node {
    var data: Value
    var prev: Node?
    var next: Node?

    constructor (data: Value, prev: Node?, next: Node?)
      ensures this.data == data && this.prev == prev && this.next == next
    {
      this.data, this.prev, this.next := data, prev, next;
    }

    /** A removed node is wiped. */
    method Wipe()
      modifies this
      ensures data == Nil && prev == null && next == null
    {
      data, prev, next := Nil, null, null;
    }
  }

  function At(nodes: seq<Node>, i: int): Node? { if 0 <= i < |nodes| then nodes[i] else null }

  ghost predicate Apart(nodes: seq<Node>) { forall i, j :: 0 <= i < j < |nodes| ==> nodes[i] != nodes[j] }

  /** The pointer that leads forward to position i: `first`, or the `next` of the node before. */
  ghost function To(first: Node?, nodes: seq<Node>, i: int): Node?
    reads nodes`next
  {
    if 0 < i <= |nodes| then nodes[i - 1].next else first
  }

  /** The pointer that leads back to position i: `last`, or the `prev` of the node after. */
  ghost function Back(last: Node?, nodes: seq<Node>, i: int): Node?
    reads nodes`prev
  {
    if -1 <= i < |nodes| - 1 then nodes[i + 1].prev else last
  }

  /** Forward pointers are right, but for those to positions from `a` up to `b`. */
  ghost predicate Forward(first: Node?, nodes: seq<Node>, a: int, b: int)
    reads nodes`next
  {
    forall i :: 0 <= i <= |nodes| && !(a <= i < b) ==> To(first, nodes, i) == At(nodes, i)
  }

  ghost predicate Backward(last: Node?, nodes: seq<Node>, a: int, b: int)
    reads nodes`prev
  {
    forall i :: -1 <= i < |nodes| && !(a <= i < b) ==> Back(last, nodes, i) == At(nodes, i)
  }

  ghost predicate Holds(nodes: seq<Node>, values: seq<Value>)
    reads nodes`data
  {
    |values| == |nodes| && forall i :: 0 <= i < |nodes| ==> nodes[i].data == values[i]
  }

  function Inserted<T>(s: seq<T>, k: nat, x: T): seq<T>
    requires k <= |s|
  {
    s[..k] + [x] + s[k..]
  }

  function Deleted<T>(s: seq<T>, k: nat): seq<T>
    requires k < |s|
  {
    s[..k] + s[k + 1..]
  }

  lemma InsertForward(first: Node?, nodes: seq<Node>, k: nat, x: Node)
    requires k <= |nodes| && Forward(first, nodes, k, k + 1) && To(first, nodes, k) == x && x.next == At(nodes, k)
    ensures Forward(first, Inserted(nodes, k, x), 0, 0)
  {
    var r := Inserted(nodes, k, x);
    forall i | 0 <= i <= |r| ensures To(first, r, i) == At(r, i) {
      if i <= k {
        assert To(first, r, i) == To(first, nodes, i) && (i < k ==> At(r, i) == At(nodes, i));
      } else if i > k + 1 {
        assert To(first, r, i) == To(first, nodes, i - 1) && At(r, i) == At(nodes, i - 1);
      }
    }
  }

  lemma InsertBackward(last: Node?, nodes: seq<Node>, k: nat, x: Node)
    requires k <= |nodes| && Backward(last, nodes, k - 1, k) && Back(last, nodes, k - 1) == x && x.prev == At(nodes, k - 1)
    ensures Backward(last, Inserted(nodes, k, x), 0, 0)
  {
    var r := Inserted(nodes, k, x);
    forall i | -1 <= i < |r| ensures Back(last, r, i) == At(r, i) {
      if i >= k {
        assert Back(last, r, i) == Back(last, nodes, i - 1) && (i > k ==> At(r, i) == At(nodes, i - 1));
      } else if i < k - 1 {
        assert Back(last, r, i) == Back(last, nodes, i) && At(r, i) == At(nodes, i);
      }
    }
  }

  lemma InsertRest(nodes: seq<Node>, values: seq<Value>, k: nat, x: Node, v: Value)
    requires k <= |nodes| && Apart(nodes) && Holds(nodes, values) && x !in nodes && x.data == v
    ensures |values| == |nodes|
    ensures Apart(Inserted(nodes, k, x)) && Holds(Inserted(nodes, k, x), Inserted(values, k, v))
    ensures |Inserted(nodes, k, x)| == |nodes| + 1 && forall y :: y in Inserted(nodes, k, x) ==> y == x || y in nodes
  {
    var r := Inserted(nodes, k, x);
    forall i, j | 0 <= i < j < |r| ensures r[i] != r[j] {
      assert r[i] == if i < k then nodes[i] else if i == k then x else nodes[i - 1];
      assert r[j] == if j < k then nodes[j] else if j == k then x else nodes[j - 1];
    }
  }

  lemma DeleteForward(first: Node?, nodes: seq<Node>, k: nat)
    requires k < |nodes| && Forward(first, nodes, k, k + 2) && To(first, nodes, k) == At(nodes, k + 1)
    ensures Forward(first, Deleted(nodes, k), 0, 0)
  {
    var r := Deleted(nodes, k);
    forall i | 0 <= i <= |r| ensures To(first, r, i) == At(r, i) {
      if i <= k {
        assert To(first, r, i) == To(first, nodes, i) && At(r, i) == At(nodes, if i < k then i else k + 1);
      } else {
        assert To(first, r, i) == To(first, nodes, i + 1) && At(r, i) == At(nodes, i + 1);
      }
    }
  }

  lemma DeleteBackward(last: Node?, nodes: seq<Node>, k: nat)
    requires k < |nodes| && Backward(last, nodes, k - 1, k + 1) && Back(last, nodes, k) == At(nodes, k - 1)
    ensures Backward(last, Deleted(nodes, k), 0, 0)
  {
    var r := Deleted(nodes, k);
    forall i | -1 <= i < |r| ensures Back(last, r, i) == At(r, i) {
      if i >= k - 1 {
        assert Back(last, r, i) == Back(last, nodes, i + 1) && At(r, i) == At(nodes, if i >= k then i + 1 else k - 1);
      } else {
        assert Back(last, r, i) == Back(last, nodes, i) && At(r, i) == At(nodes, i);
      }
    }
  }

  lemma DeleteRest(nodes: seq<Node>, values: seq<Value>, k: nat)
    requires k < |nodes| && Apart(nodes) && |values| == |nodes|
    requires forall i :: 0 <= i < |nodes| && i != k ==> nodes[i].data == values[i]
    ensures Apart(Deleted(nodes, k)) && Holds(Deleted(nodes, k), Deleted(values, k)) 
    ensures |Deleted(nodes, k)| == |nodes| - 1
    ensures forall i :: 0 <= i < |nodes| - 1 ==> Deleted(nodes, k)[i] != nodes[k]
  {
    var r := Deleted(nodes, k);
    assert forall i :: 0 <= i < |r| ==> r[i] == nodes[if i < k then i else i + 1];
  }

  class LinkedList {
    var size: int
    var first: Node?
    var last: Node?
    ghost var nodes: seq<Node>
    ghost var values: seq<Value>

    ghost predicate Valid()
      reads this, nodes
    {
      && size == |nodes| && Apart(nodes) && Holds(nodes, values)
      && Forward(first, nodes, 0, 0) && Backward(last, nodes, 0, 0)
    }

    constructor ()
      ensures Valid() && values == []
    {
      size, first, last, nodes, values := 0, null, null, [], [];
    }

    /** Redirects the pointer that leads forward to position k. */
    method SetTo(p: Node?, x: Node?, ghost k: nat, ghost b: int)
      requires k <= |nodes| && p == At(nodes, k - 1) && Apart(nodes) && Forward(first, nodes, k, b) && k < b
      modifies this`first, (if p == null then {} else {p})`next
      ensures Forward(first, nodes, k, b) && To(first, nodes, k) == x
    {
      if p == null {
        first := x;
      } else {
        p.next := x;
      }
      forall i | 0 <= i <= |nodes| && !(k <= i < b) ensures To(first, nodes, i) == At(nodes, i) {
        assert old(To(first, nodes, i)) == At(nodes, i);
      }
    }

    /** Redirects the pointer that leads back to position k. */
    method SetBack(n: Node?, x: Node?, ghost k: int, ghost a: int)
      requires -1 <= k < |nodes| && n == At(nodes, k + 1) && Apart(nodes) && Backward(last, nodes, a, k + 1) && a <= k
      modifies this`last, (if n == null then {} else {n})`prev
      ensures Backward(last, nodes, a, k + 1) && Back(last, nodes, k) == x
    {
      if n == null {
        last := x;
      } else {
        n.prev := x;
      }
      forall i | -1 <= i < |nodes| && !(a <= i < k + 1) ensures Back(last, nodes, i) == At(nodes, i) {
        assert old(Back(last, nodes, i)) == At(nodes, i);
      }
    }

    /** What every change leaves to the caller: the nodes are old ones or new ones. */
    twostate predicate Renewed()
      reads this
    {
      forall x :: x in nodes ==> x in old(nodes) || fresh(x)
    }

    /** Links a new node in before position k, between its neighbours. */
    method Link(v: Value, p: Node?, n: Node?, ghost k: nat)
      requires Valid() && k <= |nodes| && p == At(nodes, k - 1) && n == At(nodes, k)
      modifies this, nodes
      ensures Valid() && Renewed() && values == Inserted(old(values), k, v)
    {
      hide Apart, Forward, Backward, Holds, Inserted, To, Back;
      var x := new Node(v, p, n);
      WeakForward(first, nodes, k, k + 1);
      WeakBackward(last, nodes, k - 1, k);
      SetTo(p, x, k, k + 1);
      SetBack(n, x, k - 1, k - 1);
      InsertForward(first, nodes, k, x);
      InsertBackward(last, nodes, k, x);
      InsertRest(nodes, values, k, x, v);
      nodes, values, size := Inserted(nodes, k, x), Inserted(values, k, v), size + 1;
    }

    method AddLast(v: Value)
      requires Valid()
      modifies this, nodes
      ensures Valid() && Renewed() && values == old(values) + [v]
    {
      ghost var n := |nodes|;
      assert Back(last, nodes, n - 1) == At(nodes, n - 1);
      Link(v, last, null, n);
    }

    method AddFirst(v: Value)
      requires Valid()
      modifies this, nodes
      ensures Valid() && Renewed() && values == [v] + old(values)
    {
      assert To(first, nodes, 0) == At(nodes, 0);
      Link(v, null, first, 0);
    }

    /** The node at a position, walking from the nearer end. */
    method GetNode(no: int) returns (n: Node)
      requires Valid() && 0 <= no < size
      ensures n == nodes[no]
    {
      hide Apart, Holds;
      var p: Node?;
      if no < size / 2 {
        p := first;
        assert To(first, nodes, 0) == At(nodes, 0);
        for from := 0 to no
          invariant p == At(nodes, from)
        {
          assert To(first, nodes, from + 1) == At(nodes, from + 1);
          p := p.next;
        }
      } else {
        p := last;
        assert Back(last, nodes, size - 1) == At(nodes, size - 1);
        for from := size - 1 downto no
          invariant p == At(nodes, from)
        {
          assert Back(last, nodes, from) == At(nodes, from);
          p := p.prev;
        }
      }
      n := p;
    }

    /** Fails, changing nothing, exactly for a position outside 0..size. */
    method AddBefore(index: int, v: Value) returns (ok: bool)
      requires Valid()
      modifies this, nodes
      ensures Valid() && Renewed() && (ok <==> 0 <= index <= |old(values)|)
      ensures values == if ok then old(values)[..index] + [v] + old(values)[index..] else old(values)
    {
      hide Apart, Forward, Backward, To, Back;
      ok := 0 <= index <= size;
      if index == size {
        AddLast(v);
      } else if ok {
        var n := GetNode(index);
        Neighbours(first, last, nodes, index);
        Link(v, n.prev, n, index);
      }
    }

    /** Unlinks and wipes the node at position k. */
    method DeleteNode(n: Node, ghost k: nat) returns (d: Value)
      requires Valid() && k < |nodes| && n == nodes[k]
      modifies this, nodes
      ensures Valid() && nodes == Deleted(old(nodes), k) && values == Deleted(old(values), k) && d == old(values)[k]
      ensures n.data == Nil && n.prev == null && n.next == null
    {
      hide Apart, Forward, Backward, Deleted, To, Back;
      d := n.data;
      var p, x := n.prev, n.next;
      Neighbours(first, last, nodes, k);
      WeakForward(first, nodes, k, k + 2);
      WeakBackward(last, nodes, k - 1, k + 1);
      SetTo(p, x, k, k + 2);
      SetBack(x, p, k, k - 1);
      DeleteForward(first, nodes, k);
      DeleteBackward(last, nodes, k);
      DeleteRest(nodes, values, k);
      ghost var r := Deleted(nodes, k);
      assert n !in r && Holds(r, Deleted(values, k)) && Forward(first, r, 0, 0) && Backward(last, r, 0, 0);
      n.Wipe();
      nodes, values, size := Deleted(nodes, k), Deleted(values, k), size - 1;
    }

    /** Nil, changing nothing, outside the list. */
    method Remove(index: int) returns (d: Value)
      requires Valid()
      modifies this, nodes
      ensures Valid() && Renewed()
      ensures if 0 <= index < |old(values)| then values == old(values)[..index] + old(values)[index + 1..] && d == old(values)[index]
              else values == old(values) && d == Nil
    {
      hide Apart, Forward, Backward;
      if index < 0 || index >= size {
        return Nil;
      }
      var n := GetNode(index);
      d := DeleteNode(n, index);
    }

    /** Removes the first node that holds the value. */
    method RemoveData(v: Value) returns (found: bool)
      requires Valid()
      modifies this, nodes
      ensures Valid() && Renewed() && (found <==> v in old(values))
      ensures if found
        then var k := FirstIndex(old(values), v); values == old(values)[..k] + old(values)[k + 1..]
        else values == old(values)
    {
      hide Apart, Backward;
      var n := first;
      ghost var k := 0;
      assert To(first, nodes, 0) == At(nodes, 0);
      while n != null && n.data != v
        invariant 0 <= k <= |nodes| && n == At(nodes, k) && v !in values[..k]
        decreases |nodes| - k
      {
        assert To(first, nodes, k + 1) == At(nodes, k + 1);
        n := n.next;
        k := k + 1;
      }
      found := n != null;
      if found {
        FirstIndexIs(values, v, k);
        var _ := DeleteNode(n, k);
      }
    }

    /** Removes everything up to and including the position; fails, changing nothing, outside the list. */
    method RemoveUntil(index: int) returns (ok: bool)
      requires Valid()
      modifies this, nodes
      ensures Valid() && Renewed() && (ok <==> 0 <= index < |old(values)|)
      ensures values == if ok then old(values)[index + 1..] else old(values)
    {
      hide Apart, Backward;
      ok := 0 <= index < size;
      if ok {
        var current := 0;
        while current <= index
          invariant 0 <= current <= index + 1 <= |old(values)|
          invariant Valid() && nodes == old(nodes)[current..] && values == old(values)[current..]
          decreases index - current
        {
          assert To(first, nodes, 0) == At(nodes, 0);
          var _ := DeleteNode(first, 0);
          current := current + 1;
        }
      }
    }

    method RemoveFirst() returns (d: Value)
      requires Valid()
      modifies this, nodes
      ensures Valid() && Renewed()
      ensures if old(values) == [] then d == Nil && values == [] else [d] + values == old(values)
    {
      hide Apart, Backward;
      assert To(first, nodes, 0) == At(nodes, 0);
      if first == null {
        return Nil;
      }
      d := DeleteNode(first, 0);
    }

    method RemoveLast() returns (d: Value)
      requires Valid()
      modifies this, nodes
      ensures Valid() && Renewed()
      ensures if old(values) == [] then d == Nil && values == [] else values + [d] == old(values)
    {
      hide Apart, Forward;
      assert Back(last, nodes, |nodes| - 1) == At(nodes, |nodes| - 1);
      if last == null {
        return Nil;
      }
      d := DeleteNode(last, |nodes| - 1);
    }

    /** Empties the list and wipes every node it had. */
    method Clear()
      requires Valid()
      modifies this, nodes
      ensures Valid() && values == []
      ensures forall x :: x in old(nodes) ==> x.data == Nil && x.prev == null && x.next == null
    {
      hide Apart, Forward, Backward, Holds;
      EmptyIsLinked();
      Ends(first, last, nodes);
      forall i: nat | i < |nodes| ensures nodes[i].next == At(nodes, i + 1) {
        Neighbours(first, last, nodes, i);
      }
      var n := first;
      ghost var k := 0;
      while n != null
        invariant 0 <= k <= |nodes| && n == At(nodes, k) && first == old(first) && nodes == old(nodes)
        invariant forall i :: 0 <= i < k ==> nodes[i].data == Nil && nodes[i].prev == null && nodes[i].next == null
        invariant forall i :: k <= i < |nodes| ==> nodes[i].next == At(nodes, i + 1)
        modifies nodes
        decreases |nodes| - k
      {
        var next := n.next;
        NoOther(nodes, k);
        n.Wipe();
        n := next;
        k := k + 1;
      }
      first, last, size, nodes, values := null, null, 0, [], [];
    }

    method Size() returns (n: int)
      requires Valid()
      ensures n == |values|
    {
      n := size;
    }

    method GetFirst() returns (d: Value)
      requires Valid()
      ensures d == if values == [] then Nil else values[0]
    {
      assert To(first, nodes, 0) == At(nodes, 0);
      d := if first != null then first.data else Nil;
    }

    method GetLast() returns (d: Value)
      requires Valid()
      ensures d == if values == [] then Nil else values[|values| - 1]
    {
      assert Back(last, nodes, |nodes| - 1) == At(nodes, |nodes| - 1);
      d := if last != null then last.data else Nil;
    }

    method Get(index: int) returns (d: Value)
      requires Valid()
      ensures d == if 0 <= index < |values| then values[index] else Nil
    {
      if index < 0 || index >= size {
        return Nil;
      }
      var n := GetNode(index);
      d := n.data;
    }

    /** Visits positions in order until the callback says false. */
    method Loop(callback: (int, Value) -> bool) returns (visited: seq<(int, Value)>)
      requires Valid()
      ensures visited == Visits(Pairs(values), callback)
      ensures |visited| <= |values| && forall i | 0 <= i < |visited| :: visited[i] == (i, values[i])
    {
      hide Apart, Backward, Pairs, Visits;
      PairsAre(values);
      visited := [];
      var index, n := 0, first;
      assert To(first, nodes, 0) == At(nodes, 0);
      assert Pairs(values)[0..] == Pairs(values);
      while n != null
        invariant 0 <= index <= |nodes| && n == At(nodes, index)
        invariant |visited| == index && forall i | 0 <= i < index :: visited[i] == (i, values[i])
        invariant visited + Visits(Pairs(values)[index..], callback) == Visits(Pairs(values), callback)
        decreases |nodes| - index
      {
        assert To(first, nodes, index + 1) == At(nodes, index + 1);
        VisitsNext(Pairs(values), callback, index, visited, Visits(Pairs(values), callback));
        visited := visited + [(index, n.data)];
        if callback(index, n.data) {
          index := index + 1;
        } else {
          return;
        }
        n := n.next;
      }
      VisitsEnd(Pairs(values), callback, index, visited);
    }

    method ReverseLoop(callback: (int, Value) -> bool) returns (visited: seq<(int, Value)>)
      requires Valid()
      ensures visited == Visits(Reversed(Pairs(values)), callback)
      ensures |visited| <= |values| && forall i | 0 <= i < |visited| :: visited[i] == (|values| - 1 - i, values[|values| - 1 - i])
    {
      hide Apart, Forward, Backward, Holds, Pairs, Visits, Reversed;
      visited := [];
      var index, n := size - 1, last;
      ghost var pairs, k := Reversed(Pairs(values)), 0;
      ReversedPairs(values, 0);
      Ends(first, last, nodes);
      assert |values| == |nodes| by { HoldsAt(nodes, values, 0); }
      assert pairs[0..] == pairs;
      while n != null
        invariant -1 <= index < |nodes| && n == At(nodes, index) && k == size - 1 - index
        invariant |visited| == k && forall i | 0 <= i < k :: visited[i] == (|values| - 1 - i, values[|values| - 1 - i])
        invariant visited + Visits(pairs[k..], callback) == Visits(pairs, callback)
        decreases index
      {
        Neighbours(first, last, nodes, index);
        HoldsAt(nodes, values, index);
        ReversedPairs(values, k);
        VisitsNext(pairs, callback, k, visited, Visits(pairs, callback));
        visited := visited + [(index, n.data)];
        if callback(index, n.data) {
          index := index - 1;
          k := k + 1;
        } else {
          return;
        }
        n := n.prev;
      }
      VisitsEnd(pairs, callback, size, visited);
    }
  }

  function Pairs(values: seq<Value>): seq<(int, Value)> { seq(|values|, i requires 0 <= i < |values| => (i, values[i])) }

  /** Last to first. */
  function Reversed(s: seq<(int, Value)>): seq<(int, Value)> { seq(|s|, i requires 0 <= i < |s| => s[|s| - 1 - i]) }

  lemma ReversedPairs(values: seq<Value>, i: nat)
    ensures |Reversed(Pairs(values))| == |values|
    ensures i < |values| ==> Reversed(Pairs(values))[i] == (|values| - 1 - i, values[|values| - 1 - i])
  {
  }

  /** What a callback gets to see of a list of pairs. */
  function Visits(pairs: seq<(int, Value)>, callback: (int, Value) -> bool): seq<(int, Value)> {
    if pairs == [] then []
    else [pairs[0]] + if callback(pairs[0].0, pairs[0].1) then Visits(pairs[1..], callback) else []
  }

  /** It sees the pairs in order, all of them or up to and including the first it refuses. */
  lemma {:induction false} VisitsUntilRefused(pairs: seq<(int, Value)>, callback: (int, Value) -> bool)
    ensures var r := Visits(pairs, callback);
      && r <= pairs
      && (forall i :: 0 <= i < |r| - 1 ==> callback(r[i].0, r[i].1))
      && (|r| < |pairs| ==> r != [] && !callback(r[|r| - 1].0, r[|r| - 1].1))
  {
    if pairs != [] { VisitsUntilRefused(pairs[1..], callback); }
  }

  lemma PairsAre(values: seq<Value>)
    ensures |Pairs(values)| == |values| && forall i :: 0 <= i < |values| ==> Pairs(values)[i] == (i, values[i])
  {
  }

  lemma VisitsNext(pairs: seq<(int, Value)>, callback: (int, Value) -> bool, k: nat,
                   visited: seq<(int, Value)>, whole: seq<(int, Value)>)
    requires k < |pairs| && visited + Visits(pairs[k..], callback) == whole
    ensures visited + [pairs[k]] + (if callback(pairs[k].0, pairs[k].1) then Visits(pairs[k + 1..], callback) else []) == whole
  {
    assert pairs[k..][1..] == pairs[k + 1..];
  }

  lemma VisitsEnd(pairs: seq<(int, Value)>, callback: (int, Value) -> bool, k: nat, visited: seq<(int, Value)>)
    requires k == |pairs| && visited + Visits(pairs[k..], callback) == Visits(pairs, callback)
    ensures visited == Visits(pairs, callback)
  {
  }

  /** A callback that never stops sees the list backwards, with the same indices, as the mirror of forwards. */
  lemma LoopsMirror(values: seq<Value>, callback: (int, Value) -> bool)
    requires forall i :: 0 <= i < |values| ==> callback(i, values[i])
    ensures Visits(Reversed(Pairs(values)), callback) == Reversed(Visits(Pairs(values), callback))
  {
    var forth, back := Visits(Pairs(values), callback), Visits(Reversed(Pairs(values)), callback);
    VisitsUntilRefused(Pairs(values), callback);
    VisitsUntilRefused(Reversed(Pairs(values)), callback);
    assert forth == Pairs(values);
    assert back == Reversed(Pairs(values));
  }

  function FirstIndex(values: seq<Value>, v: Value): (k: nat)
    requires v in values
    ensures k < |values| && values[k] == v && v !in values[..k]
  {
    if values[0] == v then 0 else assert values == [values[0]] + values[1..]; 1 + FirstIndex(values[1..], v)
  }

  lemma FirstIndexIs(values: seq<Value>, v: Value, k: nat)
    requires k < |values| && values[k] == v && v !in values[..k]
    ensures FirstIndex(values, v) == k
  {
    var j := FirstIndex(values, v);
    assert forall i :: 0 <= i < k ==> values[i] == values[..k][i];
    assert forall i :: 0 <= i < j ==> values[i] == values[..j][i];
  }

  lemma EmptyIsLinked()
    ensures Apart([]) && Holds([], []) && Forward(null, [], 0, 0) && Backward(null, [], 0, 0)
  {
  }

  lemma NoOther(nodes: seq<Node>, k: nat)
    requires Apart(nodes) && k < |nodes|
    ensures forall i :: 0 <= i < |nodes| && i != k ==> nodes[i] != nodes[k]
  {
  }

  lemma Ends(first: Node?, last: Node?, nodes: seq<Node>)
    requires Forward(first, nodes, 0, 0) && Backward(last, nodes, 0, 0)
    ensures first == At(nodes, 0) && last == At(nodes, |nodes| - 1)
  {
    assert To(first, nodes, 0) == At(nodes, 0) && Back(last, nodes, |nodes| - 1) == At(nodes, |nodes| - 1);
  }

  lemma HoldsAt(nodes: seq<Node>, values: seq<Value>, k: nat)
    requires Holds(nodes, values)
    ensures |values| == |nodes| && (k < |nodes| ==> nodes[k].data == values[k])
  {
  }

  lemma Neighbours(first: Node?, last: Node?, nodes: seq<Node>, k: nat)
    requires Forward(first, nodes, 0, 0) && Backward(last, nodes, 0, 0) && k < |nodes|
    ensures nodes[k].next == At(nodes, k + 1) && nodes[k].prev == At(nodes, k - 1)
  {
    assert To(first, nodes, k + 1) == At(nodes, k + 1) && Back(last, nodes, k - 1) == At(nodes, k - 1);
  }

  lemma WeakForward(first: Node?, nodes: seq<Node>, a: int, b: int)
    requires Forward(first, nodes, 0, 0)
    ensures Forward(first, nodes, a, b)
  {
  }

  lemma WeakBackward(last: Node?, nodes: seq<Node>, a: int, b: int)
    requires Backward(last, nodes, 0, 0)
    ensures Backward(last, nodes, a, b)
  {
  }
}
