/** OrderedStorage (src/ordered_storage.rs): one vector meant to be kept in
    descending priority order, so that pop is a removal from the head.

    Push computes the insertion index by counting, inside `Iterator::find`,
    the items visited until the first one with a strictly lower priority, and
    then stepping back by one. When no item has a lower priority the count
    ends at the length, and stepping back puts the new item BEFORE the last
    item instead of after it. The class keeps that behaviour; FirstBelow is
    the index the comment at src/ordered_storage.rs:23-24 describes, and
    lemmas below set the two side by side. */
module OrderedStore {
  import opened Storage

  /** Items in descending priority order. */
  predicate SortedDesc(s: seq<StorageItem>) {
    forall i, j :: 0 <= i < j < |s| ==> s[i].priority >= s[j].priority
  }

  /** The index of the first item with a priority strictly below `p`, or |s|
      when there is none: where a stable descending insert puts a new item. */
  function FirstBelow(s: seq<StorageItem>, p: u16): (k: nat)
    ensures k <= |s|
    ensures forall j :: 0 <= j < k ==> s[j].priority >= p
    ensures k < |s| ==> s[k].priority < p
  {
    if s == [] || s[0].priority < p then 0 else 1 + FirstBelow(s[1..], p)
  }

  /** The index push inserts at, as computed by the source: the number of
      items `find` visits, less one when it is positive. */
  function InsertIndex(s: seq<StorageItem>, p: u16): (k: nat)
    ensures k <= |s|
    ensures (exists j :: 0 <= j < |s| && s[j].priority < p) ==>
              k < |s| && s[k].priority < p && forall j :: 0 <= j < k ==> s[j].priority >= p
    ensures (forall j :: 0 <= j < |s| ==> s[j].priority >= p) ==>
              k == if |s| == 0 then 0 else |s| - 1
  {
    var visited := if FirstBelow(s, p) < |s| then FirstBelow(s, p) + 1 else |s|;
    if visited > 0 then visited - 1 else visited
  }

  /** `Vec::insert`: `x` lands at index `k`, every other item keeps its order. */
  function InsertAt(s: seq<StorageItem>, k: nat, x: StorageItem): (r: seq<StorageItem>)
    requires k <= |s|
    ensures |r| == |s| + 1 && r[k] == x
    ensures r[..k] == s[..k] && r[k + 1..] == s[k..]
    ensures forall i :: 0 <= i < k ==> r[i] == s[i]
    ensures forall i :: k < i < |r| ==> r[i] == s[i - 1]
  {
    s[..k] + [x] + s[k..]
  }

  /** What push does to the vector, as written: `Vec::insert` at InsertIndex,
      which never exceeds the length, so push never fails. */
  function PushInto(s: seq<StorageItem>, x: StorageItem): (r: seq<StorageItem>)
    ensures |r| == |s| + 1
  {
    InsertAt(s, InsertIndex(s, x.priority), x)
  }

  /** What one pop does to the vector: hand out and drop the head. */
  function PopFrom(s: seq<StorageItem>): (r: (Option<StorageItem>, seq<StorageItem>))
    ensures s == [] ==> r == (None, s)
    ensures s != [] ==> r.0 == Some(s[0]) && r.1 == s[1..]
  {
    if s == [] then (None, s) else (Some(s[0]), s[1..])
  }

  /** max_priority reads the head only. */
  function HeadPriority(s: seq<StorageItem>): (r: Option<u16>)
    ensures r.None? <==> s == []
    ensures r.Some? ==> r.value == s[0].priority
  {
    if s == [] then None else Some(s[0].priority)
  }

  class OrderedStorage {
    var elements: seq<StorageItem>

    constructor ()
      ensures elements == []
    {
      elements := [];
    }

    method Push(priority: u16, payload: seq<u8>)
      modifies this
      ensures elements == PushInto(old(elements), StorageItem(priority, payload))
    {
      var index: nat := 0;
      // `find`: the closure counts every item it is shown and stops at the
      // first one whose priority is strictly below the new one
      var found := false;
      var i := 0;
      while i < |elements| && !found
        invariant 0 <= i <= |elements|
        invariant index == i
        invariant !found ==> forall j :: 0 <= j < i ==> elements[j].priority >= priority
        invariant found ==> 0 < i && i - 1 == FirstBelow(elements, priority)
      {
        index := index + 1;
        found := elements[i].priority < priority;
        i := i + 1;
      }
      if index > 0 {
        index := index - 1;
      }
      elements := elements[..index] + [StorageItem(priority, payload)] + elements[index..];
    }

    method Pop() returns (r: Option<StorageItem>)
      modifies this
      ensures (r, elements) == PopFrom(old(elements))
    {
      if elements == [] {
        r := None;
      } else {
        r := Some(elements[0]);
        elements := elements[1..];
      }
    }

    method MaxPriority() returns (r: Option<u16>)
      ensures r == HeadPriority(elements)
    {
      if elements != [] {
        r := Some(elements[0].priority);
      } else {
        r := None;
      }
    }

    /** Persistence is a no-op in this engine. */
    method Dump()
      ensures unchanged(this)
    {
    }

    /** Persistence is a no-op in this engine. */
    method Load()
      ensures unchanged(this)
    {
    }
  }

  /** A fresh store holds just the pushed item. */
  lemma PushIntoEmpty(x: StorageItem)
    ensures PushInto([], x) == [x]
  {
  }

  /** Push keeps every old item in its relative order: the old vector is the
      new one without the pushed item. */
  lemma PushKeepsOldItems(s: seq<StorageItem>, x: StorageItem)
    ensures var k := InsertIndex(s, x.priority);
            var r := PushInto(s, x);
            r[k] == x && r[..k] + r[k + 1..] == s
  {
    var k := InsertIndex(s, x.priority);
    assert s == s[..k] + s[k..];
  }

  /** When some item has a strictly lower priority, push is a stable insert:
      a sorted vector stays sorted and the new item joins the end of its FIFO
      class. */
  lemma PushWithLowerKeepsOrder(s: seq<StorageItem>, x: StorageItem)
    requires SortedDesc(s)
    requires exists j :: 0 <= j < |s| && s[j].priority < x.priority
    ensures InsertIndex(s, x.priority) == FirstBelow(s, x.priority)
    ensures SortedDesc(PushInto(s, x))
    ensures forall p :: OfPriority(PushInto(s, x), p) == OfPriority(s, p) + (if p == x.priority then [x] else [])
  {
    StableInsert(s, x);
  }

  /** The behaviour as written when no item has a lower priority: the new item
      goes in just before the last one. */
  lemma PushWithoutLowerGoesBeforeLast(s: seq<StorageItem>, x: StorageItem)
    requires s != []
    requires forall j :: 0 <= j < |s| ==> s[j].priority >= x.priority
    ensures PushInto(s, x) == s[..|s| - 1] + [x, s[|s| - 1]]
  {
  }

  /** Pushing 3 onto [5] gives [3, 5]: the vector is no longer sorted. */
  lemma PushLowestBreaksOrder(a: seq<u8>, b: seq<u8>)
    ensures PushInto([StorageItem(5, a)], StorageItem(3, b)) == [StorageItem(3, b), StorageItem(5, a)]
    ensures !SortedDesc(PushInto([StorageItem(5, a)], StorageItem(3, b)))
  {
    assert FirstBelow([StorageItem(5, a)], 3) == 1;
  }

  /** Pushing priority 2 onto [2a] puts the new item first, ahead of the
      older item of the same priority. */
  lemma PushEqualBreaksFifo(a: seq<u8>, b: seq<u8>)
    ensures PushInto([StorageItem(2, a)], StorageItem(2, b)) == [StorageItem(2, b), StorageItem(2, a)]
  {
    assert FirstBelow([StorageItem(2, a)], 2) == 1;
  }

  /** The corrected push: insert before the first strictly lower item, or
      at the end; the old items keep their relative order. */
  function IntendedPushInto(s: seq<StorageItem>, x: StorageItem): (r: seq<StorageItem>)
    ensures var k := FirstBelow(s, x.priority);
            |r| == |s| + 1 && r[k] == x && r[..k] + r[k + 1..] == s
  {
    var k := FirstBelow(s, x.priority);
    assert s == s[..k] + s[k..];
    InsertAt(s, k, x)
  }

  /** The corrected push keeps the vector sorted, and the new item joins the
      end of its FIFO class, whatever the vector holds. */
  lemma StableInsert(s: seq<StorageItem>, x: StorageItem)
    requires SortedDesc(s)
    ensures SortedDesc(IntendedPushInto(s, x))
    ensures forall p :: OfPriority(IntendedPushInto(s, x), p) == OfPriority(s, p) + (if p == x.priority then [x] else [])
  {
    var k := FirstBelow(s, x.priority);
    assert IntendedPushInto(s, x) == InsertAt(s, k, x);
    StableInsertSorted(s, k, x);
    assert forall j :: k <= j < |s| ==> s[j].priority <= s[k].priority < x.priority;
    forall p
      ensures OfPriority(InsertAt(s, k, x), p) == OfPriority(s, p) + (if p == x.priority then [x] else [])
    {
      InsertBeforeLowerClass(s, k, x, p);
    }
  }

  /** Inserting `x` after every item not below it and before every item
      below it keeps a sorted vector sorted. */
  lemma StableInsertSorted(s: seq<StorageItem>, k: nat, x: StorageItem)
    requires SortedDesc(s) && k <= |s|
    requires forall j :: 0 <= j < k ==> s[j].priority >= x.priority
    requires k < |s| ==> s[k].priority < x.priority
    ensures SortedDesc(InsertAt(s, k, x))
  {
    var r := InsertAt(s, k, x);
    forall i, j | 0 <= i < j < |r|
      ensures r[i].priority >= r[j].priority
    {
      if j < k {
        assert r[i] == s[i] && r[j] == s[j];
      } else if j == k {
        assert r[i] == s[i];
      } else if i < k {
        assert r[i] == s[i] && r[j] == s[j - 1];
      } else if i == k {
        assert r[j] == s[j - 1] && s[k].priority >= s[j - 1].priority;
      } else {
        assert r[i] == s[i - 1] && r[j] == s[j - 1];
      }
    }
  }

  /** Inserting `x` at `k`, where every item from `k` on is below it, adds
      `x` at the end of its FIFO class and changes no other class. */
  lemma InsertBeforeLowerClass(s: seq<StorageItem>, k: nat, x: StorageItem, p: u16)
    requires k <= |s|
    requires forall j :: k <= j < |s| ==> s[j].priority < x.priority
    ensures OfPriority(InsertAt(s, k, x), p) == OfPriority(s, p) + (if p == x.priority then [x] else [])
  {
    OfPriorityInsertAt(s, k, x, p);
    var before, after := OfPriority(s[..k], p), OfPriority(s[k..], p);
    if p == x.priority {
      NoneFrom(s, k, x.priority);
      assert before + ([x] + after) == (before + after) + [x];
    } else {
      assert before + ([] + after) == (before + after) + [];
    }
  }

  /** No item from index `k` on has priority `p` when all of them are below it. */
  lemma NoneFrom(s: seq<StorageItem>, k: nat, p: u16)
    requires k <= |s|
    requires forall j :: k <= j < |s| ==> s[j].priority < p
    ensures OfPriority(s[k..], p) == []
  {
    assert !Holds(s[k..], p) by {
      forall j | 0 <= j < |s[k..]|
        ensures s[k..][j].priority < p
      {
        assert s[k..][j] == s[k + j];
      }
    }
    OfPriorityEmpty(s[k..], p);
  }

  /** The FIFO classes of a vector after `Vec::insert`. */
  lemma OfPriorityInsertAt(s: seq<StorageItem>, k: nat, x: StorageItem, p: u16)
    requires k <= |s|
    ensures OfPriority(InsertAt(s, k, x), p)
         == OfPriority(s[..k], p) + ((if x.priority == p then [x] else []) + OfPriority(s[k..], p))
    ensures OfPriority(s, p) == OfPriority(s[..k], p) + OfPriority(s[k..], p)
  {
    assert InsertAt(s, k, x) == s[..k] + ([x] + s[k..]);
    assert s == s[..k] + s[k..];
    OfPriorityAppend(s[..k], [x] + s[k..], p);
    OfPriorityAppend([x], s[k..], p);
    OfPriorityAppend(s[..k], s[k..], p);
    assert OfPriority([x], p) == (if x.priority == p then [x] else []) + OfPriority([], p);
  }

  /** In a sorted vector the head carries the greatest priority, so reading
      the head only is the right answer there. */
  lemma HeadIsMaxWhenSorted(s: seq<StorageItem>)
    requires SortedDesc(s)
    ensures HeadPriority(s) == MaxPriority(s)
  {
    if s != [] {
      assert IsMaxPriority(s, s[0].priority);
    }
  }
}
