/** SimpleStorage (src/simple_storage.rs): the items in one unordered vector
    in push order; pop scans for the greatest priority and removes the first
    item that has it, keeping the order of the rest. */
module SimpleStore {
  import opened Storage

  /** `Iterator::position`: the index of the first item of `s` with priority
      `p`, or None when there is none. */
  function Position(s: seq<StorageItem>, p: u16): (r: Option<nat>)
    ensures r.None? <==> !Holds(s, p)
    ensures r.Some? ==> r.value < |s| && s[r.value].priority == p
    ensures r.Some? ==> forall j :: 0 <= j < r.value ==> s[j].priority != p
  {
    if s == [] then None
    else if s[0].priority == p then Some(0)
    else
      match Position(s[1..], p)
      case None => None
      case Some(k) => Some(k + 1)
  }

  /** What one pop does to the vector `s`: the item handed out and the
      vector left behind. */
  function PopFrom(s: seq<StorageItem>): (r: (Option<StorageItem>, seq<StorageItem>))
    ensures s == [] ==> r == (None, s)
    ensures s != [] ==> exists i :: 0 <= i < |s| && TakesAt(s, i, r)
  {
    match MaxPriority(s)
    case None => (None, s)
    case Some(p) =>
      var i := Position(s, p).value;
      assert TakesAt(s, i, (Some(s[i]), s[..i] + s[i + 1..]));
      (Some(s[i]), s[..i] + s[i + 1..])
  }

  /** Popping `s` handed out `s[i]` and left the other items in their order,
      where `s[i]` is the earliest pushed item of the greatest priority. */
  predicate TakesAt(s: seq<StorageItem>, i: nat, r: (Option<StorageItem>, seq<StorageItem>))
    requires i < |s|
  {
    && r.0 == Some(s[i])
    && IsMaxPriority(s, s[i].priority)
    && (forall j :: 0 <= j < i ==> s[j].priority != s[i].priority)
    && r.1 == s[..i] + s[i + 1..]
  }

  class SimpleStorage {
    /** The pushed items, oldest first. */
    var elements: seq<StorageItem>

    constructor ()
      ensures elements == []
    {
      elements := [];
    }

    /** Appends; every priority and payload is accepted. */
    method Push(priority: u16, payload: seq<u8>)
      modifies this
      ensures elements == old(elements) + [StorageItem(priority, payload)]
    {
      elements := elements + [StorageItem(priority, payload)];
    }

    method Pop() returns (r: Option<StorageItem>)
      modifies this
      ensures (r, elements) == PopFrom(old(elements))
    {
      var mp := MaxPriority();
      match mp {
        case None =>
          r := None;
        case Some(priority) =>
          var position := Position(elements, priority);
          // the `unwrap` of the position lookup: the maximum occurs in the vector
          assert position.Some?;
          var itemIndex := position.value;
          r := Some(elements[itemIndex]);
          elements := elements[..itemIndex] + elements[itemIndex + 1..];
      }
    }

    method MaxPriority() returns (r: Option<u16>)
      ensures r.None? <==> elements == []
      ensures r.Some? ==> IsMaxPriority(elements, r.value)
    {
      if elements == [] {
        return None;
      }
      var maxPriority: u16 := 0;
      for i := 0 to |elements|
        invariant forall j :: 0 <= j < i ==> elements[j].priority <= maxPriority
        invariant (i == 0 && maxPriority == 0) || exists j :: 0 <= j < i && elements[j].priority == maxPriority
      {
        if elements[i].priority > maxPriority {
          maxPriority := elements[i].priority;
        }
      }
      r := Some(maxPriority);
    }

    method Clear()
      modifies this
      ensures elements == []
    {
      elements := [];
    }
  }
}
