/** The unit of data of the priority-queue server and the vocabulary every
    storage engine is specified in (src/storage.rs).

    The Rust `Storage` trait is the interface the three engines share; here
    each engine is a class with the same operations (Push, Pop, MaxPriority
    and, where the source has it, Clear), and what they have in common is
    stated with the functions of this module over sequences of items. */
module Storage {

  /** Rust's `u8`. */
  newtype u8 = x: int | 0 <= x < 0x100

  /** Rust's `u16`: every priority lies in 0..65535. */
  newtype u16 = x: int | 0 <= x < 0x1_0000

  datatype Option<T> = None | Some(value: T)

  /** One queued payload: its priority (larger pops first) and its bytes. */
  datatype StorageItem = StorageItem(priority: u16, data: seq<u8>)

  /** Some item of `s` has priority `p`. */
  predicate Holds(s: seq<StorageItem>, p: u16) {
    exists i :: 0 <= i < |s| && s[i].priority == p
  }

  /** `p` occurs in `s` and no item of `s` has a greater priority. */
  predicate IsMaxPriority(s: seq<StorageItem>, p: u16) {
    Holds(s, p) && forall i :: 0 <= i < |s| ==> s[i].priority <= p
  }

  /** The priority of the item a queue holding `s` must hand out next. */
  function MaxPriority(s: seq<StorageItem>): (r: Option<u16>)
    ensures r.None? <==> s == []
    ensures r.Some? ==> IsMaxPriority(s, r.value)
  {
    if s == [] then None
    else
      match MaxPriority(s[1..])
      case None => Some(s[0].priority)
      case Some(q) =>
        assert Holds(s, q) by {
          var i :| 0 <= i < |s[1..]| && s[1..][i].priority == q;
          assert s[i + 1].priority == q;
        }
        if s[0].priority > q then Some(s[0].priority) else Some(q)
  }

  /** The items of `s` that have priority `p`, in their order in `s`: the
      FIFO class of `p` that every engine must hand out first to last. */
  function OfPriority(s: seq<StorageItem>, p: u16): (r: seq<StorageItem>)
    ensures |r| <= |s|
    ensures forall i :: 0 <= i < |r| ==> r[i].priority == p
  {
    if s == [] then []
    else (if s[0].priority == p then [s[0]] else []) + OfPriority(s[1..], p)
  }

  lemma {:induction false} OfPriorityAppend(a: seq<StorageItem>, b: seq<StorageItem>, p: u16)
    ensures OfPriority(a + b, p) == OfPriority(a, p) + OfPriority(b, p)
  {
    if a != [] {
      assert (a + b)[1..] == a[1..] + b;
      OfPriorityAppend(a[1..], b, p);
    } else {
      assert a + b == b;
    }
  }

  /** A FIFO class is empty exactly when its priority does not occur. */
  lemma {:induction false} OfPriorityEmpty(s: seq<StorageItem>, p: u16)
    ensures OfPriority(s, p) == [] <==> !Holds(s, p)
  {
    if s != [] {
      OfPriorityEmpty(s[1..], p);
      if Holds(s[1..], p) {
        var i :| 0 <= i < |s[1..]| && s[1..][i].priority == p;
        assert s[i + 1].priority == p;
      }
      if Holds(s, p) && s[0].priority != p {
        var i :| 0 <= i < |s| && s[i].priority == p;
        assert s[1..][i - 1].priority == p;
      }
    }
  }

  /** Splitting `s` around position `i`, and dropping the item there. */
  lemma OfPrioritySplit(s: seq<StorageItem>, i: nat, p: u16)
    requires i < |s|
    ensures OfPriority(s, p)
         == OfPriority(s[..i], p) + (if s[i].priority == p then [s[i]] else []) + OfPriority(s[i + 1..], p)
    ensures OfPriority(s[..i] + s[i + 1..], p) == OfPriority(s[..i], p) + OfPriority(s[i + 1..], p)
  {
    assert s == s[..i] + ([s[i]] + s[i + 1..]);
    OfPriorityAppend(s[..i], [s[i]] + s[i + 1..], p);
    OfPriorityAppend([s[i]], s[i + 1..], p);
    assert OfPriority([s[i]], p) == (if s[i].priority == p then [s[i]] else []) + OfPriority([], p);
    OfPriorityAppend(s[..i], s[i + 1..], p);
  }
}
