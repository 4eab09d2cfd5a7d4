/** The insertion-ordered map and set of basic/orderedmap.go and basic/orderedset.go. */
module OrderedSets {
  import opened Options

  /** Any comparable interface value, by number. */
  type Item = nat

  predicate Distinct(s: seq<Item>) { forall i, j :: 0 <= i < j < |s| ==> s[i] != s[j] }

  /** A sequence without the occurrences of an item. */
  function Without(s: seq<Item>, x: Item): (r: seq<Item>)
    ensures forall y :: y in r <==> y in s && y != x
    ensures |r| <= |s|
  {
    if s == [] then [] else (if s[0] == x then [] else [s[0]]) + Without(s[1..], x)
  }

  lemma {:induction false} WithoutKeepsDistinct(s: seq<Item>, x: Item)
    requires Distinct(s)
    ensures Distinct(Without(s, x))
  {
    if s != [] {
      assert s == [s[0]] + s[1..];
      WithoutKeepsDistinct(s[1..], x);
      var r := Without(s[1..], x);
      assert Distinct(r) && s[0] !in s[1..] && s[0] !in r;
    }
  }

  lemma {:induction false} WithoutAbsent(s: seq<Item>, x: Item)
    requires x !in s
    ensures Without(s, x) == s
  {
    if s != [] { WithoutAbsent(s[1..], x); }
  }

  /** In a sequence without repetitions one position goes. */
  lemma {:induction false} WithoutAt(s: seq<Item>, k: nat)
    requires Distinct(s) && k < |s|
    ensures Without(s, s[k]) == s[..k] + s[k + 1..]
  {
    if k == 0 {
      WithoutAbsent(s[1..], s[0]);
    } else {
      WithoutAt(s[1..], k - 1);
      assert s[1..][..k - 1] == s[1..k] && s[1..][k..] == s[k + 1..];
    }
  }

  lemma {:induction false} DistinctSize(s: seq<Item>, keys: set<Item>)
    requires Distinct(s) && forall k :: k in keys <==> k in s
    ensures |s| == |keys|
  {
    if s == [] {
      assert forall k :: k in keys ==> false;
      assert keys == {};
    } else {
      assert s == [s[0]] + s[1..];
      DistinctSize(s[1..], keys - {s[0]});
    }
  }

  class OrderedMap {
    var keys: seq<nat>
    var store: map<nat, Item>

    /** The key list has the store's keys, once each. */
    ghost predicate Valid()
      reads this
    {
      Keyed(keys, store)
    }

    constructor ()
      ensures Valid() && keys == [] && store == map[]
    {
      keys, store := [], map[];
    }

    method Put(key: nat, value: Item)
      requires Valid()
      modifies this
      ensures Valid() && store == old(store)[key := value]
      ensures keys == if key in old(store) then old(keys) else old(keys) + [key]
    {
      if key !in store {
        keys := keys + [key];
      }
      store := store[key := value];
    }

    /** A missing key has the nil value. */
    method Get(key: nat) returns (value: Option<Item>, found: bool)
      requires Valid()
      ensures found <==> key in keys
      ensures value == if found then Some(store[key]) else None
    {
      found := key in store;
      value := if found then Some(store[key]) else None;
    }

    method Remove(key: nat)
      requires Valid()
      modifies this
      ensures Valid() && store == old(store) - {key} && keys == Without(old(keys), key)
    {
      hide Without;
      if key !in store {
        WithoutAbsent(keys, key);
        return;
      }
      WithoutKeepsDistinct(keys, key);
      store := store - {key};
      for i := 0 to |keys|
        invariant keys == old(keys) && key !in keys[..i]
      {
        if keys[i] == key {
          WithoutAt(keys, i);
          keys := keys[..i] + keys[i + 1..];
          break;
        }
        assert keys[..i + 1] == keys[..i] + [keys[i]];
      }
    }

    method Size() returns (n: int)
      requires Valid()
      ensures n == |keys|
    {
      DistinctSize(keys, store.Keys);
      n := |store|;
    }

    /** The array allocated with the store's size is filled exactly, in key order. */
    method Values() returns (values: array<Item>)
      requires Valid()
      ensures fresh(values) && values[..] == Image(keys, store)
    {
      DistinctSize(keys, store.Keys);
      values := new Item[|store|];
      for i := 0 to |keys|
        invariant values[..i] == Image(keys, store)[..i]
      {
        values[i] := store[keys[i]];
        assert values[..i + 1] == values[..i] + [values[i]];
      }
    }
  }

  function Image(keys: seq<nat>, store: map<nat, Item>): seq<Item>
    requires forall i :: 0 <= i < |keys| ==> keys[i] in store
  {
    seq(|keys|, i requires 0 <= i < |keys| => store[keys[i]])
  }

  // ---------- the set ----------

  /** Adding a list: each item not yet there goes to the end. */
  function AddAll(s: seq<Item>, items: seq<Item>): (r: seq<Item>)
    ensures s <= r && forall x :: x in r <==> x in s || x in items
    ensures Distinct(s) ==> Distinct(r)
  {
    if items == [] then s
    else
      var r := AddAll(s, items[..|items| - 1]); var x := items[|items| - 1];
      assert items == items[..|items| - 1] + [x];
      if x in r then r else r + [x]
  }

  /** Removing a list as the code does it: it stops at the first item that is not there. */
  function RemoveSome(s: seq<Item>, items: seq<Item>): seq<Item>
    decreases |items|
  {
    if items == [] || items[0] !in s then s else RemoveSome(Without(s, items[0]), items[1..])
  }

  /** Removing a list as documented: items that are not there are skipped. */
  function RemoveAll(s: seq<Item>, items: seq<Item>): seq<Item>
    decreases |items|
  {
    if items == [] then s else RemoveAll(Without(s, items[0]), items[1..])
  }

  /** Keys and items determine each other, and keys are handed out in increasing order. */
  ghost predicate Indexed(index: map<Item, nat>, keys: seq<nat>, store: map<nat, Item>, next: nat) {
    && (forall x :: x in index ==> index[x] in store && store[index[x]] == x)
    && (forall k :: k in store ==> store[k] in index && index[store[k]] == k && k < next)
    && Increasing(keys)
  }

  ghost predicate Increasing(keys: seq<nat>) { forall i, j :: 0 <= i < j < |keys| ==> keys[i] < keys[j] }

  lemma ImageIs(index: map<Item, nat>, keys: seq<nat>, store: map<nat, Item>, next: nat)
    requires Indexed(index, keys, store, next) && Keyed(keys, store)
    ensures Distinct(Image(keys, store)) && forall x :: x in Image(keys, store) <==> x in index
  {
    var r := Image(keys, store);
    forall x | x in index ensures x in r {
      var i :| 0 <= i < |keys| && keys[i] == index[x];
      assert r[i] == x;
    }
    forall i, j | 0 <= i < j < |r| ensures r[i] != r[j] {
      assert keys[i] != keys[j] && index[r[i]] == keys[i] && index[r[j]] == keys[j];
    }
  }

  /** The key list and the store agree. */
  ghost predicate Keyed(keys: seq<nat>, store: map<nat, Item>) { Distinct(keys) && forall k :: k in store <==> k in keys }

  /** Removing one position from the keys removes that position from the items. */
  lemma ImageGap(keys: seq<nat>, store: map<nat, Item>, i: nat)
    requires Keyed(keys, store) && i < |keys|
    ensures var rest := keys[..i] + keys[i + 1..];
      && (forall j :: 0 <= j < |rest| ==> rest[j] in store - {keys[i]})
      && Image(rest, store - {keys[i]}) == Image(keys, store)[..i] + Image(keys, store)[i + 1..]
  {
    var rest := keys[..i] + keys[i + 1..];
    assert forall j :: 0 <= j < |rest| ==> rest[j] == keys[if j < i then j else j + 1];
  }

  lemma ImageWithout(index: map<Item, nat>, keys: seq<nat>, store: map<nat, Item>, next: nat, k: nat)
    requires Indexed(index, keys, store, next) && Keyed(keys, store) && k in store
    ensures forall i :: 0 <= i < |Without(keys, k)| ==> Without(keys, k)[i] in store - {k}
    ensures Image(Without(keys, k), store - {k}) == Without(Image(keys, store), store[k])
  {
    hide Without;
    var i :| 0 <= i < |keys| && keys[i] == k;
    WithoutAt(keys, i);
    ImageIs(index, keys, store, next);
    hide Indexed;
    WithoutAt(Image(keys, store), i);
    ImageGap(keys, store, i);
    hide *;
    assert Without(keys, k) == keys[..i] + keys[i + 1..];
    var r := Image(keys, store);
    assert Without(r, r[i]) == r[..i] + r[i + 1..];
  }

  lemma IncreasingGap(keys: seq<nat>, i: nat)
    requires Increasing(keys) && i < |keys|
    ensures Increasing(keys[..i] + keys[i + 1..])
  {
    var rest := keys[..i] + keys[i + 1..];
    assert forall j :: 0 <= j < |rest| ==> rest[j] == keys[if j < i then j else j + 1];
  }

  lemma IndexedWithout(index: map<Item, nat>, keys: seq<nat>, store: map<nat, Item>, next: nat, k: nat)
    requires Indexed(index, keys, store, next) && Keyed(keys, store) && k in store
    ensures Indexed(index - {store[k]}, Without(keys, k), store - {k}, next)
  {
    hide Without, Increasing;
    var i :| 0 <= i < |keys| && keys[i] == k;
    WithoutAt(keys, i);
    IncreasingGap(keys, i);
  }

  lemma IndexedPut(index: map<Item, nat>, keys: seq<nat>, store: map<nat, Item>, next: nat, x: Item)
    requires Indexed(index, keys, store, next) && Keyed(keys, store) && x !in index
    ensures next !in store && Indexed(index[x := next], keys + [next], store[next := x], next + 1)
    ensures Keyed(keys + [next], store[next := x]) && Image(keys + [next], store[next := x]) == Image(keys, store) + [x]
  {
    forall i | 0 <= i < |keys| ensures keys[i] in store && keys[i] < next {
      assert keys[i] in keys;
    }
  }

  class OrderedSet {
    var currentIndex: nat
    var index: map<Item, nat>
    const store: OrderedMap

    ghost predicate Valid()
      reads this, store
    {
      store.Valid() && Indexed(index, store.keys, store.store, currentIndex)
    }

    /** The items in the order of insertion. */
    ghost function Items(): seq<Item>
      reads this, store
      requires Valid()
    {
      Image(store.keys, store.store)
    }

    constructor ()
      ensures Valid() && fresh(store) && Items() == []
    {
      currentIndex, index := 0, map[];
      store := new OrderedMap();
    }

    method Put(item: Item)
      requires Valid() && item !in index
      modifies this, store
      ensures Valid() && Items() == old(Items()) + [item] && index.Keys == old(index.Keys) + {item}
    {
      hide Indexed;
      IndexedPut(index, store.keys, store.store, currentIndex, item);
      store.Put(currentIndex, item);
      index := index[item := currentIndex];
      currentIndex := currentIndex + 1;
    }

    method Delete(k: nat, item: Item)
      requires Valid() && item in index && index[item] == k
      modifies this, store
      ensures Valid() && Items() == Without(old(Items()), item) && index == old(index) - {item}
    {
      ImageWithout(index, store.keys, store.store, currentIndex, k);
      IndexedWithout(index, store.keys, store.store, currentIndex, k);
      store.Remove(k);
      index := index - {item};
    }

    method Add(items: seq<Item>)
      requires Valid()
      modifies this, store
      ensures Valid() && Items() == AddAll(old(Items()), items)
    {
      assert items[..0] == [];
      for n := 0 to |items|
        invariant Valid() && Items() == AddAll(old(Items()), items[..n])
      {
        assert items[..n + 1][..n] == items[..n];
        ImageIs(index, store.keys, store.store, currentIndex);
        if items[n] !in index {
          Put(items[n]);
        }
      }
      assert items[..|items|] == items;
    }

    method Remove(items: seq<Item>)
      requires Valid()
      modifies this, store
      ensures Valid() && Items() == RemoveSome(old(Items()), items)
    {
      assert items[0..] == items;
      for n := 0 to |items|
        invariant Valid() && RemoveSome(Items(), items[n..]) == RemoveSome(old(Items()), items)
      {
        ImageIs(index, store.keys, store.store, currentIndex);
        assert items[n..][1..] == items[n + 1..];
        if items[n] !in index {
          return;
        }
        Delete(index[items[n]], items[n]);
      }
    }

    method Contains(items: seq<Item>) returns (all: bool)
      requires Valid()
      ensures all <==> forall x :: x in items ==> x in Items()
    {
      ImageIs(index, store.keys, store.store, currentIndex);
      for n := 0 to |items|
        invariant forall x :: x in items[..n] ==> x in Items()
      {
        if items[n] !in index {
          assert items[n] in items && items[n] !in Items();
          return false;
        }
        assert items[..n + 1] == items[..n] + [items[n]];
      }
      assert items[..|items|] == items;
      return true;
    }

    method Values() returns (values: array<Item>)
      requires Valid()
      ensures fresh(values) && values[..] == Items() && Distinct(values[..])
    {
      ImageIs(index, store.keys, store.store, currentIndex);
      values := store.Values();
    }
  }

  // ---------- when Remove does what it documents ----------

  /** How many items the code gets through before it stops. */
  function Reached(s: seq<Item>, items: seq<Item>): (k: nat)
    ensures k <= |items|
    decreases |items|
  {
    if items == [] || items[0] !in s then 0 else 1 + Reached(Without(s, items[0]), items[1..])
  }

  /** It stops at the first item that the set never had or that the list names a second time. */
  lemma {:induction false} ReachedIs(s: seq<Item>, items: seq<Item>)
    ensures var k := Reached(s, items);
      && (forall j :: 0 <= j < k ==> items[j] in s && items[j] !in items[..j])
      && (k < |items| ==> items[k] !in s || items[k] in items[..k])
    decreases |items|
  {
    hide Without;
    if items != [] && items[0] in s {
      var rest, k := items[1..], Reached(s, items);
      ReachedIs(Without(s, items[0]), rest);
      forall j | 0 <= j < k ensures items[j] in s && items[j] !in items[..j] {
        if j > 0 {
          assert items[j] == rest[j - 1] && items[..j] == [items[0]] + rest[..j - 1];
        }
      }
      if k < |items| {
        assert items[k] == rest[k - 1] && items[..k] == [items[0]] + rest[..k - 1];
      }
    }
  }

  /** The items of a sequence outside a set. */
  function Keep(s: seq<Item>, gone: set<Item>): (r: seq<Item>)
    ensures forall x :: x in r <==> x in s && x !in gone
  {
    if s == [] then [] else (if s[0] in gone then [] else [s[0]]) + Keep(s[1..], gone)
  }

  lemma {:induction false} KeepWithout(s: seq<Item>, gone: set<Item>, x: Item)
    ensures Without(Keep(s, gone), x) == Keep(s, gone + {x})
  {
    if s != [] {
      KeepWithout(s[1..], gone, x);
      var rest := Keep(s[1..], gone);
      assert ([s[0]] + rest)[1..] == rest && [] + rest == rest;
      assert Keep(s, gone) == (if s[0] in gone then [] else [s[0]]) + rest;
      assert Keep(s, gone + {x}) == (if s[0] in gone + {x} then [] else [s[0]]) + Without(rest, x);
      assert Without([s[0]] + rest, x) == (if s[0] == x then [] else [s[0]]) + Without(rest, x);
    }
  }

  lemma {:induction false} KeepNothing(s: seq<Item>)
    ensures Keep(s, {}) == s
  {
    if s != [] { KeepNothing(s[1..]); }
  }

  function SetOf(items: seq<Item>): set<Item> { set x | x in items }

  lemma {:induction false} RemoveAllKeeps(s: seq<Item>, gone: set<Item>, items: seq<Item>)
    ensures RemoveAll(Keep(s, gone), items) == Keep(s, gone + SetOf(items))
    decreases |items|
  {
    if items == [] {
      assert gone + SetOf(items) == gone;
    } else {
      KeepWithout(s, gone, items[0]);
      RemoveAllKeeps(s, gone + {items[0]}, items[1..]);
      assert items == [items[0]] + items[1..];
      assert gone + SetOf(items) == gone + {items[0]} + SetOf(items[1..]);
    }
  }

  lemma {:induction false} RemoveSomeKeeps(s: seq<Item>, gone: set<Item>, items: seq<Item>)
    ensures var k := Reached(Keep(s, gone), items); RemoveSome(Keep(s, gone), items) == Keep(s, gone + SetOf(items[..k]))
    decreases |items|
  {
    hide Keep, Without;
    var k := Reached(Keep(s, gone), items);
    if k == 0 {
      assert gone + SetOf(items[..k]) == gone;
    } else {
      KeepWithout(s, gone, items[0]);
      RemoveSomeKeeps(s, gone + {items[0]}, items[1..]);
      assert items[..k] == [items[0]] + items[1..][..k - 1];
      assert gone + SetOf(items[..k]) == gone + {items[0]} + SetOf(items[1..][..k - 1]);
    }
  }

  lemma {:induction false} KeepSame(s: seq<Item>, a: set<Item>, b: set<Item>)
    requires forall x :: x in s ==> (x in a <==> x in b)
    ensures Keep(s, a) == Keep(s, b)
  {
    if s != [] { KeepSame(s[1..], a, b); }
  }

  /**
    Remove deletes every listed item exactly when nothing of the set is left to delete in the part of the list that
    starts with the first item missing from the set or listed twice.
   */
  lemma RemoveIsCompleteIff(s: seq<Item>, items: seq<Item>)
    ensures var k := Reached(s, items);
      RemoveSome(s, items) == RemoveAll(s, items) <==> forall x :: x in items[k..] && x in s ==> x in items[..k]
  {
    hide RemoveSome, RemoveAll, Keep;
    var k := Reached(s, items);
    KeepNothing(s);
    RemoveAllKeeps(s, {}, items);
    RemoveSomeKeeps(s, {}, items);
    var some, all := {} + SetOf(items[..k]), {} + SetOf(items);
    assert items == items[..k] + items[k..];
    if forall x :: x in items[k..] && x in s ==> x in items[..k] {
      KeepSame(s, some, all);
    } else {
      var x :| x in items[k..] && x in s && x !in items[..k];
      assert x in Keep(s, some) && x !in Keep(s, all);
    }
  }

  /** Removing a missing item first keeps the next one in the set. */
  lemma RemoveStopsEarly()
    ensures RemoveSome([1, 2], [3, 1]) == [1, 2] && RemoveAll([1, 2], [3, 1]) == [2]
  {
    assert Without([1, 2], 3) == [1, 2] && Without([1, 2], 1) == [2];
    assert [3, 1][1..] == [1] && [1][1..] == [];
  }

  // ---------- insertion order over a history ----------

  datatype Op = Insert(x: Item) | Delete(x: Item)

  /** The items after single additions and removals from the empty set. */
  function Play(ops: seq<Op>): seq<Item> {
    if ops == [] then []
    else
      var s := Play(ops[..|ops| - 1]);
      match ops[|ops| - 1]
      case Insert(x) => AddAll(s, [x])
      case Delete(x) => RemoveSome(s, [x])
  }

  /** Since when an item has been in the set without a break; -1 if it is not. */
  function Since(ops: seq<Op>, x: Item): (t: int)
    ensures -1 <= t < |ops|
  {
    if ops == [] then -1
    else
      var n := |ops| - 1; var t := Since(ops[..n], x);
      if ops[n].x != x then t
      else if ops[n].Delete? then -1
      else if t >= 0 then t else n
  }

  lemma PlayInsert(ops: seq<Op>, x: Item)
    ensures Play(ops + [Insert(x)]) == if x in Play(ops) then Play(ops) else Play(ops) + [x]
  {
    assert (ops + [Insert(x)])[..|ops|] == ops && [x][..0] == [];
    assert AddAll(Play(ops), [x][..0]) == Play(ops);
  }

  lemma PlayDelete(ops: seq<Op>, x: Item)
    ensures Play(ops + [Delete(x)]) == if x in Play(ops) then Without(Play(ops), x) else Play(ops)
  {
    assert (ops + [Delete(x)])[..|ops|] == ops && [x][1..] == [];
    assert RemoveSome(Without(Play(ops), x), [x][1..]) == Without(Play(ops), x);
  }

  /** The items are those in the set, by the time of their insertion. */
  ghost predicate Ordered(s: seq<Item>, ops: seq<Op>) {
    && (forall x :: x in s <==> Since(ops, x) >= 0)
    && (forall i, j :: 0 <= i < j < |s| ==> Since(ops, s[i]) < Since(ops, s[j]))
  }

  lemma SinceNext(ops: seq<Op>, op: Op)
    ensures forall y :: y != op.x ==> Since(ops + [op], y) == Since(ops, y)
    ensures op.Delete? ==> Since(ops + [op], op.x) == -1
    ensures op.Insert? ==> Since(ops + [op], op.x) == if Since(ops, op.x) >= 0 then Since(ops, op.x) else |ops|
  {
    assert (ops + [op])[..|ops|] == ops;
  }

  lemma OrderedInsert(s: seq<Item>, ops: seq<Op>, x: Item)
    requires Ordered(s, ops)
    ensures Ordered(if x in s then s else s + [x], ops + [Insert(x)])
  {
    SinceNext(ops, Insert(x));
    hide Since;
    var r := if x in s then s else s + [x];
    forall i, j | 0 <= i < j < |r| ensures Since(ops + [Insert(x)], r[i]) < Since(ops + [Insert(x)], r[j]) {
      assert r[i] == s[i] && r[i] in s;
      assert j < |s| ==> r[j] in s;
    }
  }

  lemma OrderedDelete(s: seq<Item>, ops: seq<Op>, x: Item)
    requires Ordered(s, ops)
    ensures Ordered(if x in s then Without(s, x) else s, ops + [Delete(x)])
  {
    SinceNext(ops, Delete(x));
    hide Since, Without;
    if x in s {
      var r := Without(s, x);
      forall i, j | 0 <= i < j < |r| ensures Since(ops + [Delete(x)], r[i]) < Since(ops + [Delete(x)], r[j]) {
        OrderedPair(s, ops, x, i, j);
      }
    }
  }

  /** Two items that survive a removal keep their order. */
  lemma Survivors(s: seq<Item>, x: Item, i: nat, j: nat) returns (a: nat, b: nat)
    requires Distinct(s) && x in s && i < j < |Without(s, x)|
    ensures a < b < |s| && Without(s, x)[i] == s[a] && Without(s, x)[j] == s[b]
  {
    hide Without;
    var k :| 0 <= k < |s| && s[k] == x;
    WithoutAt(s, k);
    hide Distinct;
    a, b := if i < k then i else i + 1, if j < k then j else j + 1;
  }

  lemma OrderedIsDistinct(s: seq<Item>, ops: seq<Op>)
    requires Ordered(s, ops)
    ensures Distinct(s)
  {
    hide Since;
  }

  lemma OrderedPair(s: seq<Item>, ops: seq<Op>, x: Item, i: nat, j: nat)
    requires Ordered(s, ops) && x in s && i < j < |Without(s, x)|
    ensures var r := Without(s, x); r[i] != x && r[j] != x && Since(ops, r[i]) < Since(ops, r[j])
  {
    hide Since, Without, Distinct;
    OrderedIsDistinct(s, ops);
    var a, b := Survivors(s, x, i, j);
    assert Without(s, x)[i] in Without(s, x) && Without(s, x)[j] in Without(s, x);
  }

  lemma {:induction false} PlayIsOrdered(ops: seq<Op>)
    ensures Ordered(Play(ops), ops)
  {
    hide Without;
    if ops != [] {
      var before, op := ops[..|ops| - 1], ops[|ops| - 1];
      assert ops == before + [op];
      PlayIsOrdered(before);
      if op.Insert? {
        PlayInsert(before, op.x);
        OrderedInsert(Play(before), before, op.x);
      } else {
        PlayDelete(before, op.x);
        OrderedDelete(Play(before), before, op.x);
      }
    }
  }

  // ---------- ... and over a history of calls with lists ----------

  function Inserts(items: seq<Item>): seq<Op> { seq(|items|, i requires 0 <= i < |items| => Insert(items[i])) }

  function Deletes(items: seq<Item>): seq<Op> { seq(|items|, i requires 0 <= i < |items| => Delete(items[i])) }

  lemma AddAllLast(s: seq<Item>, items: seq<Item>)
    ensures items == [] ==> AddAll(s, items) == s
    ensures items != [] ==> var r := AddAll(s, items[..|items| - 1]); var x := items[|items| - 1];
      AddAll(s, items) == if x in r then r else r + [x]
  {
  }

  /** Adding a list is adding its items one by one. */
  lemma {:induction false} AddingOneByOne(ops: seq<Op>, items: seq<Item>)
    ensures AddAll(Play(ops), items) == Play(ops + Inserts(items))
    decreases |items|
  {
    hide Play, AddAll;
    AddAllLast(Play(ops), items);
    if items == [] {
      assert ops + Inserts(items) == ops;
    } else {
      var n := |items| - 1;
      AddingOneByOne(ops, items[..n]);
      PlayInsert(ops + Inserts(items[..n]), items[n]);
      assert ops + Inserts(items) == ops + Inserts(items[..n]) + [Insert(items[n])];
    }
  }

  /** Removing a list is removing, one by one, the items that are reached. */
  lemma {:induction false} RemovingOneByOne(ops: seq<Op>, items: seq<Item>)
    ensures var k := Reached(Play(ops), items); RemoveSome(Play(ops), items) == Play(ops + Deletes(items[..k]))
    decreases |items|
  {
    hide Without, Play;
    var k := Reached(Play(ops), items);
    if k == 0 {
      assert ops + Deletes(items[..k]) == ops;
    } else {
      var more := ops + [Delete(items[0])];
      PlayDelete(ops, items[0]);
      RemovingOneByOne(more, items[1..]);
      assert items[..k] == [items[0]] + items[1..][..k - 1];
      assert ops + Deletes(items[..k]) == more + Deletes(items[1..][..k - 1]);
    }
  }

  datatype Call = Add(items: seq<Item>) | Remove(items: seq<Item>)

  /** The items after calls of Add and Remove on the empty set. */
  function PlayCalls(calls: seq<Call>): seq<Item> {
    if calls == [] then []
    else
      var s := PlayCalls(calls[..|calls| - 1]);
      match calls[|calls| - 1]
      case Add(items) => AddAll(s, items)
      case Remove(items) => RemoveSome(s, items)
  }

  /** The single additions and removals the calls make. */
  function OpsOf(calls: seq<Call>): seq<Op> {
    if calls == [] then []
    else
      var before := calls[..|calls| - 1];
      match calls[|calls| - 1]
      case Add(items) => OpsOf(before) + Inserts(items)
      case Remove(items) => OpsOf(before) + Deletes(items[..Reached(PlayCalls(before), items)])
  }

  lemma {:induction false} CallsAreOps(calls: seq<Call>)
    ensures PlayCalls(calls) == Play(OpsOf(calls))
  {
    hide Play;
    if calls == [] {
      assert Play([]) == [] by { NothingPlayed(); }
    } else {
      var before := calls[..|calls| - 1];
      CallsAreOps(before);
      match calls[|calls| - 1]
      case Add(items) => AddingOneByOne(OpsOf(before), items);
      case Remove(items) => RemovingOneByOne(OpsOf(before), items);
    }
  }

  lemma NothingPlayed()
    ensures Play([]) == []
  {
  }

  /**
    After any history of calls with lists the set holds exactly the items inserted and not deleted since, in the
    order of those insertions.
   */
  lemma InsertionOrder(calls: seq<Call>)
    ensures var s := PlayCalls(calls); var ops := OpsOf(calls);
      && (forall x :: x in s <==> Since(ops, x) >= 0)
      && (forall i, j :: 0 <= i < j < |s| ==> Since(ops, s[i]) < Since(ops, s[j]))
  {
    hide Since, Play, PlayCalls, OpsOf;
    CallsAreOps(calls);
    PlayIsOrdered(OpsOf(calls));
  }
}
