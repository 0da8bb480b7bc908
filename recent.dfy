/**
 * The list of recent recordings and screenshots (RecentViewModel.cs): new
 * items are inserted at the top, an item asks to be removed through its
 * RemoveRequested event, and the list can be cleared. Loading and saving
 * the list are commented out in the code and do nothing.
 *
 * Items are objects compared by reference; here an item is its identity.
 */
module RecentList {

  /** The identity of a recent item. */
  type Item = nat

  /** ObservableCollection.Remove: the first occurrence of x is removed, if there is one. */
  function RemoveFirst(s: seq<Item>, x: Item): (r: seq<Item>)
    ensures x !in s ==> r == s
    ensures |r| == if x in s then |s| - 1 else |s|
    ensures forall y :: y in r ==> y in s
  {
    if s == [] then []
    else if s[0] == x then s[1..]
    else
      assert s == [s[0]] + s[1..];
      [s[0]] + RemoveFirst(s[1..], x)
  }

  /** Removal keeps the other items in their order: what is left is the list without that one occurrence. */
  lemma {:induction false} RemoveFirstKeepsOrder(a: seq<Item>, x: Item, b: seq<Item>)
    requires x !in a
    ensures RemoveFirst(a + [x] + b, x) == a + b
  {
    var s := a + [x] + b;
    if a == [] {
      assert s == [x] + b;
    } else {
      assert s[0] == a[0] && a[0] != x;
      assert s[1..] == a[1..] + [x] + b;
      calc {
        RemoveFirst(s, x);
        [a[0]] + RemoveFirst(s[1..], x);
        { RemoveFirstKeepsOrder(a[1..], x, b); }
        [a[0]] + (a[1..] + b);
        { assert a == [a[0]] + a[1..]; }
        a + b;
      }
    }
  }

  /** The occurrence removed is the first: the list splits there, and the rest is what remains. */
  lemma {:induction false} RemoveFirstSplits(s: seq<Item>, x: Item) returns (i: nat)
    requires x in s
    ensures i < |s| && s[i] == x && x !in s[..i]
    ensures RemoveFirst(s, x) == s[..i] + s[i + 1..]
  {
    i := 0;
    while s[i] != x
      invariant i < |s| && x !in s[..i] && x in s[i..]
      decreases |s| - i
    {
      assert s[i..] == [s[i]] + s[i + 1..];
      assert s[..i + 1] == s[..i] + [s[i]];
      i := i + 1;
    }
    assert s == s[..i] + [x] + s[i + 1..];
    RemoveFirstKeepsOrder(s[..i], x, s[i + 1..]);
  }

  /** Adding an item and then removing it gives back the list it was added to. */
  lemma AddThenRemove(s: seq<Item>, x: Item)
    ensures RemoveFirst([x] + s, x) == s
  {
  }

  /** Removing an item the list does not hold changes nothing. */
  lemma RemoveAbsent(s: seq<Item>, x: Item)
    requires x !in s
    ensures RemoveFirst(s, x) == s
  {
  }

  /** What a RemoveRequested event does: each subscribed handler removes one occurrence. */
  function RemoveTimes(s: seq<Item>, x: Item, n: nat): (r: seq<Item>)
    ensures |r| <= |s|
    decreases n
  {
    if n == 0 then s else RemoveTimes(RemoveFirst(s, x), x, n - 1)
  }

  /** An item added once and asked to be removed leaves the other items as they were, in order. */
  lemma {:induction false} SingleRemoveRequest(a: seq<Item>, x: Item, b: seq<Item>)
    requires x !in a
    ensures RemoveTimes(a + [x] + b, x, 1) == a + b
  {
    RemoveFirstKeepsOrder(a, x, b);
  }

  class RecentViewModel {
    var recentList: seq<Item>
    /** How many RemoveRequested handlers Add subscribed for each item. */
    var handlers: map<Item, nat>

    constructor ()
      ensures recentList == [] && handlers == map[]
    {
      recentList := [];
      handlers := map[];
      new;
      Load();
    }

    function Subscriptions(x: Item): nat
      reads this
    {
      if x in handlers then handlers[x] else 0
    }

    /** The list as IRecentList.Items shows it. */
    function Items(): (r: seq<Item>)
      reads this
      ensures |r| == |recentList| && forall i :: 0 <= i < |r| ==> r[i] == recentList[i]
    {
      recentList
    }

    /** Add: the item goes on top and a removal handler is subscribed to it. */
    method Add(item: Item)
      modifies this
      ensures recentList == [item] + old(recentList)
      ensures handlers == old(handlers)[item := old(Subscriptions(item)) + 1]
    {
      recentList := [item] + recentList;
      handlers := handlers[item := Subscriptions(item) + 1];
    }

    /** The item raises RemoveRequested: every handler subscribed for it runs. */
    method RemoveRequested(item: Item)
      modifies this
      ensures recentList == RemoveTimes(old(recentList), item, old(Subscriptions(item)))
      ensures handlers == old(handlers)
    {
      var n := Subscriptions(item);
      var k := 0;
      while k < n
        invariant 0 <= k <= n
        invariant RemoveTimes(old(recentList), item, n) == RemoveTimes(recentList, item, n - k)
        invariant handlers == old(handlers)
      {
        recentList := RemoveFirst(recentList, item);
        k := k + 1;
      }
    }

    /** Clear: the list is emptied; the handlers stay subscribed. */
    method Clear()
      modifies this
      ensures recentList == [] && handlers == old(handlers)
    {
      recentList := [];
    }

    /** Load: its body is commented out. */
    method Load()
    {
    }

    /** Dispose: its body is commented out. */
    method Dispose()
    {
    }
  }
}
