/** HashStorage (src/hash_storage.rs): a map from each priority to the FIFO
    bucket of the items pushed with it. Pop takes the head of the bucket of
    the greatest priority whose bucket is non-empty; a bucket emptied by pop
    stays in the map until Clear. */
module HashStore {
  import opened Storage

  type Buckets = map<u16, seq<StorageItem>>

  /** The bucket of `p`, empty when `p` has never been pushed. */
  function Bucket(m: Buckets, p: u16): seq<StorageItem> {
    if p in m then m[p] else []
  }

  /** The greatest priority below `n` whose bucket is non-empty. */
  function MaxNonEmptyBelow(m: Buckets, n: nat): (r: Option<u16>)
    requires n <= 0x1_0000
    ensures r.Some? ==> r.value as nat < n && Bucket(m, r.value) != []
    ensures r.Some? ==> forall q: u16 :: r.value < q && q as nat < n ==> Bucket(m, q) == []
    ensures r.None? ==> forall q: u16 :: q as nat < n ==> Bucket(m, q) == []
  {
    if n == 0 then None
    else if Bucket(m, (n - 1) as u16) != [] then Some((n - 1) as u16)
    else MaxNonEmptyBelow(m, n - 1)
  }

  /** The priority whose bucket pop takes from: the greatest key with a
      non-empty bucket, None when every bucket is empty. */
  function MaxNonEmpty(m: Buckets): (r: Option<u16>)
    ensures r.None? <==> forall q :: q in m ==> m[q] == []
    ensures r.Some? ==> r.value in m && m[r.value] != []
    ensures r.Some? ==> forall q :: q in m && m[q] != [] ==> q <= r.value
  {
    var r := MaxNonEmptyBelow(m, 0x1_0000);
    assert forall q :: q in m ==> Bucket(m, q) == m[q];
    r
  }

  /** What push does to the map. */
  function PushInto(m: Buckets, item: StorageItem): (r: Buckets)
    ensures r.Keys == m.Keys + {item.priority}
    ensures forall q :: Bucket(r, q) == if q == item.priority then Bucket(m, q) + [item] else Bucket(m, q)
  {
    m[item.priority := Bucket(m, item.priority) + [item]]
  }

  /** What one pop does to the map: the item handed out and the map left behind. */
  function PopFrom(m: Buckets): (r: (Option<StorageItem>, Buckets))
    ensures r.1.Keys == m.Keys
    ensures MaxNonEmpty(m).None? ==> r == (None, m)
    ensures MaxNonEmpty(m).Some? ==>
              var p := MaxNonEmpty(m).value;
              && r.0 == Some(m[p][0])
              && r.1[p] == m[p][1..]
              && forall q :: q in m && q != p ==> r.1[q] == m[q]
  {
    match MaxNonEmpty(m)
    case None => (None, m)
    case Some(p) => (Some(m[p][0]), m[p := m[p][1..]])
  }

  class HashStorage {
    var elements: Buckets

    constructor ()
      ensures elements == map[]
    {
      elements := map[];
    }

    method Push(priority: u16, payload: seq<u8>)
      modifies this
      ensures elements == PushInto(old(elements), StorageItem(priority, payload))
    {
      var storageItem := StorageItem(priority, payload);
      if priority in elements {
        elements := elements[priority := elements[priority] + [storageItem]];
      } else {
        assert Bucket(elements, priority) + [storageItem] == [storageItem];
        elements := elements[priority := [storageItem]];
      }
    }

    method Pop() returns (r: Option<StorageItem>)
      modifies this
      ensures (r, elements) == PopFrom(old(elements))
    {
      var mp := MaxPriority();
      match mp {
        case Some(priority) =>
          // `get_mut(..).unwrap()` and `remove(0)`: the chosen bucket exists and is non-empty
          assert priority in elements && elements[priority] != [];
          var priorityElements := elements[priority];
          r := Some(priorityElements[0]);
          elements := elements[priority := priorityElements[1..]];
        case None =>
          r := None;
      }
    }

    /** Visits the buckets in the map's own (arbitrary) order. */
    method MaxPriority() returns (r: Option<u16>)
      ensures r == MaxNonEmpty(elements)
    {
      var maxPriority: u16 := 0;
      var found := false;
      var unvisited := elements.Keys;
      while unvisited != {}
        invariant unvisited <= elements.Keys
        invariant found <==> exists q :: q in elements && q !in unvisited && elements[q] != []
        invariant !found ==> maxPriority == 0
        invariant found ==> maxPriority in elements && elements[maxPriority] != []
        invariant forall q :: q in elements && q !in unvisited && elements[q] != [] ==> q <= maxPriority
        decreases unvisited
      {
        var priority :| priority in unvisited;
        if elements[priority] != [] {
          found := true;
          if priority > maxPriority {
            maxPriority := priority;
          }
        }
        unvisited := unvisited - {priority};
      }
      r := if found then Some(maxPriority) else None;
    }

    /** Persistence is a no-op in this engine. */
    method Dump()
      ensures unchanged(this)
    {
    }

    /** Persistence is a no-op in this engine. */
    method Load()
      ensures unchanged(this)
    {
    }

    /** Drops every bucket, the emptied ones included. */
    method Clear()
      modifies this
      ensures elements == map[]
    {
      elements := map[];
    }
  }
}
