/** Whether the engines are interchangeable: replaying one history of calls
    against SimpleStorage and against another engine, do they answer alike?

    HashStorage does, for every history. OrderedStorage as written does not
    (pushing 3 after 5 makes it hand out 3 first); with the insertion index
    its comment describes (OrderedStore.FirstBelow) it does, for every
    history without Clear, the one operation it lacks. */
module Equivalence {
  import opened Storage
  import SimpleStore
  import HashStore
  import OrderedStore

  /** One call on the storage interface. */
  datatype Op = Push(priority: u16, data: seq<u8>) | Pop | PeekMax | Clear

  /** What the call returns to its caller. */
  datatype Reply = Pushed | Popped(item: Option<StorageItem>) | Peeked(priority: Option<u16>) | Cleared

  /** The reply is the kind of reply the call gives. */
  predicate Answers(op: Op, reply: Reply) {
    match op
    case Push(_, _) => reply.Pushed?
    case Pop => reply.Popped?
    case PeekMax => reply.Peeked?
    case Clear => reply.Cleared?
  }

  predicate NoClear(ops: seq<Op>) {
    forall i :: 0 <= i < |ops| ==> !ops[i].Clear?
  }

  /** The replies of a SimpleStorage holding `s` to `ops`. */
  function SimpleRun(s: seq<StorageItem>, ops: seq<Op>): (r: seq<Reply>)
    ensures |r| == |ops| && forall i :: 0 <= i < |ops| ==> Answers(ops[i], r[i])
    decreases |ops|
  {
    if ops == [] then []
    else
      match ops[0]
      case Push(p, d) => [Pushed] + SimpleRun(s + [StorageItem(p, d)], ops[1..])
      case Pop => [Popped(SimpleStore.PopFrom(s).0)] + SimpleRun(SimpleStore.PopFrom(s).1, ops[1..])
      case PeekMax => [Peeked(MaxPriority(s))] + SimpleRun(s, ops[1..])
      case Clear => [Cleared] + SimpleRun([], ops[1..])
  }

  /** The replies of a HashStorage holding `m` to `ops`. */
  function HashRun(m: HashStore.Buckets, ops: seq<Op>): (r: seq<Reply>)
    ensures |r| == |ops| && forall i :: 0 <= i < |ops| ==> Answers(ops[i], r[i])
    decreases |ops|
  {
    if ops == [] then []
    else
      match ops[0]
      case Push(p, d) => [Pushed] + HashRun(HashStore.PushInto(m, StorageItem(p, d)), ops[1..])
      case Pop => [Popped(HashStore.PopFrom(m).0)] + HashRun(HashStore.PopFrom(m).1, ops[1..])
      case PeekMax => [Peeked(HashStore.MaxNonEmpty(m))] + HashRun(m, ops[1..])
      case Clear => [Cleared] + HashRun(map[], ops[1..])
  }

  /** The replies of an OrderedStorage holding `l` to `ops`, as written. */
  function OrderedRun(l: seq<StorageItem>, ops: seq<Op>): (r: seq<Reply>)
    requires NoClear(ops)
    ensures |r| == |ops| && forall i :: 0 <= i < |ops| ==> Answers(ops[i], r[i])
    decreases |ops|
  {
    if ops == [] then []
    else
      match ops[0]
      case Push(p, d) => [Pushed] + OrderedRun(OrderedStore.PushInto(l, StorageItem(p, d)), ops[1..])
      case Pop => [Popped(OrderedStore.PopFrom(l).0)] + OrderedRun(OrderedStore.PopFrom(l).1, ops[1..])
      case PeekMax => [Peeked(OrderedStore.HeadPriority(l))] + OrderedRun(l, ops[1..])
  }

  /** The same with push inserting at OrderedStore.FirstBelow. */
  function IntendedOrderedRun(l: seq<StorageItem>, ops: seq<Op>): (r: seq<Reply>)
    requires NoClear(ops)
    ensures |r| == |ops| && forall i :: 0 <= i < |ops| ==> Answers(ops[i], r[i])
    decreases |ops|
  {
    if ops == [] then []
    else
      match ops[0]
      case Push(p, d) => [Pushed] + IntendedOrderedRun(OrderedStore.IntendedPushInto(l, StorageItem(p, d)), ops[1..])
      case Pop => [Popped(OrderedStore.PopFrom(l).0)] + IntendedOrderedRun(OrderedStore.PopFrom(l).1, ops[1..])
      case PeekMax => [Peeked(OrderedStore.HeadPriority(l))] + IntendedOrderedRun(l, ops[1..])
  }

  /** The buckets of `m` are, priority by priority, the FIFO classes of `s`. */
  predicate BucketsOf(m: HashStore.Buckets, s: seq<StorageItem>) {
    forall p: u16 :: HashStore.Bucket(m, p) == OfPriority(s, p)
  }

  /** `l` is sorted and holds the FIFO classes of `s`. */
  predicate SortedOf(l: seq<StorageItem>, s: seq<StorageItem>) {
    OrderedStore.SortedDesc(l) && forall p: u16 :: OfPriority(l, p) == OfPriority(s, p)
  }

  /** Appending adds the item to the end of its own FIFO class only. */
  lemma PushClasses(s: seq<StorageItem>, x: StorageItem, p: u16)
    ensures OfPriority(s + [x], p) == OfPriority(s, p) + (if p == x.priority then [x] else [])
  {
    OfPriorityAppend(s, [x], p);
    assert OfPriority([x], p) == (if x.priority == p then [x] else []) + OfPriority([], p);
  }

  /** SimpleStorage's pop hands out the head of the FIFO class of the
      greatest priority, and leaves every other class as it was. */
  lemma PopClasses(s: seq<StorageItem>)
    requires s != []
    ensures var (item, rest) := SimpleStore.PopFrom(s);
            && item.Some? && Some(item.value.priority) == MaxPriority(s)
            && OfPriority(s, item.value.priority) == [item.value] + OfPriority(rest, item.value.priority)
            && forall q :: q != item.value.priority ==> OfPriority(rest, q) == OfPriority(s, q)
  {
    var p := MaxPriority(s).value;
    var i := SimpleStore.Position(s, p).value;
    assert SimpleStore.PopFrom(s) == (Some(s[i]), s[..i] + s[i + 1..]);
    RemoveFirstOfClass(s, i);
  }

  /** Removing the first item of its priority takes the head of that FIFO
      class and leaves every other class alone. */
  lemma RemoveFirstOfClass(s: seq<StorageItem>, i: nat)
    requires i < |s|
    requires forall j :: 0 <= j < i ==> s[j].priority != s[i].priority
    ensures OfPriority(s, s[i].priority) == [s[i]] + OfPriority(s[..i] + s[i + 1..], s[i].priority)
    ensures forall q :: q != s[i].priority ==> OfPriority(s[..i] + s[i + 1..], q) == OfPriority(s, q)
  {
    NoneBefore(s, i);
    RemoveHeadOfClass(s, i);
    forall q | q != s[i].priority
      ensures OfPriority(s[..i] + s[i + 1..], q) == OfPriority(s, q)
    {
      RemoveOtherClass(s, i, q);
    }
  }

  lemma RemoveHeadOfClass(s: seq<StorageItem>, i: nat)
    requires i < |s| && OfPriority(s[..i], s[i].priority) == []
    ensures OfPriority(s, s[i].priority) == [s[i]] + OfPriority(s[..i] + s[i + 1..], s[i].priority)
  {
    var p := s[i].priority;
    OfPrioritySplit(s, i, p);
    var before, after := OfPriority(s[..i], p), OfPriority(s[i + 1..], p);
    assert before == [];
    assert OfPriority(s, p) == before + [s[i]] + after;
    assert OfPriority(s[..i] + s[i + 1..], p) == before + after;
    assert before + [s[i]] + after == [s[i]] + after;
    assert before + after == after;
  }

  lemma NoneBefore(s: seq<StorageItem>, i: nat)
    requires i < |s|
    requires forall j :: 0 <= j < i ==> s[j].priority != s[i].priority
    ensures OfPriority(s[..i], s[i].priority) == []
  {
    assert !Holds(s[..i], s[i].priority) by {
      forall j | 0 <= j < i
        ensures s[..i][j].priority != s[i].priority
      {
        assert s[..i][j] == s[j];
      }
    }
    OfPriorityEmpty(s[..i], s[i].priority);
  }

  lemma RemoveOtherClass(s: seq<StorageItem>, i: nat, q: u16)
    requires i < |s| && q != s[i].priority
    ensures OfPriority(s[..i] + s[i + 1..], q) == OfPriority(s, q)
  {
    OfPrioritySplit(s, i, q);
    var before, after := OfPriority(s[..i], q), OfPriority(s[i + 1..], q);
    assert before + [] + after == before + after;
  }

  /** Two sequences with the same FIFO classes have the same maximum. */
  lemma SameClassesSameMax(a: seq<StorageItem>, b: seq<StorageItem>)
    requires forall p: u16 :: OfPriority(a, p) == OfPriority(b, p)
    ensures MaxPriority(a) == MaxPriority(b)
  {
    if a != [] {
      SameClassHolds(a, b, a[0].priority);
    }
    if b != [] {
      SameClassHolds(b, a, b[0].priority);
    }
    if a != [] && b != [] {
      var pa, pb := MaxPriority(a).value, MaxPriority(b).value;
      SameClassHolds(a, b, pa);
      SameClassHolds(b, a, pb);
      var i :| 0 <= i < |b| && b[i].priority == pa;
      var j :| 0 <= j < |a| && a[j].priority == pb;
      assert pa == pb;
    }
  }

  lemma SameClassHolds(a: seq<StorageItem>, b: seq<StorageItem>, p: u16)
    requires OfPriority(a, p) == OfPriority(b, p)
    requires Holds(a, p)
    ensures Holds(b, p)
  {
    OfPriorityEmpty(a, p);
    OfPriorityEmpty(b, p);
  }

  lemma HashPushMatches(m: HashStore.Buckets, s: seq<StorageItem>, x: StorageItem)
    requires BucketsOf(m, s)
    ensures BucketsOf(HashStore.PushInto(m, x), s + [x])
  {
    forall p: u16
      ensures HashStore.Bucket(HashStore.PushInto(m, x), p) == OfPriority(s + [x], p)
    {
      PushClasses(s, x, p);
    }
  }

  /** The greatest non-empty bucket is the greatest priority held. */
  lemma HashMaxMatches(m: HashStore.Buckets, s: seq<StorageItem>)
    requires BucketsOf(m, s)
    ensures HashStore.MaxNonEmpty(m) == MaxPriority(s)
  {
    MaxOfMatchingBuckets(m, s, HashStore.MaxNonEmpty(m), MaxPriority(s));
  }

  /** The same, stated over what the two maxima promise rather than over
      how they are computed. */
  lemma MaxOfMatchingBuckets(m: HashStore.Buckets, s: seq<StorageItem>, a: Option<u16>, b: Option<u16>)
    requires BucketsOf(m, s)
    requires a.None? <==> forall q :: q in m ==> m[q] == []
    requires a.Some? ==> a.value in m && m[a.value] != []
    requires a.Some? ==> forall q :: q in m && m[q] != [] ==> q <= a.value
    requires b.None? <==> s == []
    requires b.Some? ==> IsMaxPriority(s, b.value)
    ensures a == b
  {
    if b.Some? {
      BucketHolds(m, s, b.value);
      BucketHolds(m, s, a.value);
      var i :| 0 <= i < |s| && s[i].priority == a.value;
      assert a.value <= b.value <= a.value;
    } else {
      forall q | q in m
        ensures m[q] == []
      {
        BucketHolds(m, s, q);
      }
    }
  }

  /** A bucket is present and non-empty exactly when its priority is held. */
  lemma BucketHolds(m: HashStore.Buckets, s: seq<StorageItem>, p: u16)
    requires HashStore.Bucket(m, p) == OfPriority(s, p)
    ensures (p in m && m[p] != []) <==> Holds(s, p)
  {
    OfPriorityEmpty(s, p);
  }

  lemma HashPopMatches(m: HashStore.Buckets, s: seq<StorageItem>)
    requires BucketsOf(m, s)
    ensures HashStore.PopFrom(m).0 == SimpleStore.PopFrom(s).0
    ensures BucketsOf(HashStore.PopFrom(m).1, SimpleStore.PopFrom(s).1)
  {
    HashMaxMatches(m, s);
    if s != [] {
      PopClasses(s);
      var p := MaxPriority(s).value;
      assert HashStore.Bucket(m, p) == OfPriority(s, p);
    }
  }

  /** HashStorage answers every history as SimpleStorage does. */
  lemma {:induction false} HashRunMatches(m: HashStore.Buckets, s: seq<StorageItem>, ops: seq<Op>)
    requires BucketsOf(m, s)
    ensures HashRun(m, ops) == SimpleRun(s, ops)
    decreases |ops|
  {
    if ops != [] {
      match ops[0]
      case Push(p, d) =>
        HashPushMatches(m, s, StorageItem(p, d));
        HashRunMatches(HashStore.PushInto(m, StorageItem(p, d)), s + [StorageItem(p, d)], ops[1..]);
      case Pop =>
        HashPopMatches(m, s);
        HashRunMatches(HashStore.PopFrom(m).1, SimpleStore.PopFrom(s).1, ops[1..]);
      case PeekMax =>
        HashMaxMatches(m, s);
        HashRunMatches(m, s, ops[1..]);
      case Clear =>
        HashRunMatches(map[], [], ops[1..]);
    }
  }

  /** From fresh engines, HashStorage and SimpleStorage answer alike. */
  lemma HashMatchesSimple(ops: seq<Op>)
    ensures HashRun(map[], ops) == SimpleRun([], ops)
  {
    HashRunMatches(map[], [], ops);
  }

  /** OrderedStorage as written and SimpleStorage part ways after two pushes:
      SimpleStorage hands out the 5 first, OrderedStorage the 3. */
  lemma OrderedDiffersFromSimple()
    ensures var ops := [Push(5, []), Push(3, []), Pop];
            && SimpleRun([], ops) == [Pushed, Pushed, Popped(Some(StorageItem(5, [])))]
            && OrderedRun([], ops) == [Pushed, Pushed, Popped(Some(StorageItem(3, [])))]
  {
    SimpleRunFiveThree();
    OrderedRunFiveThree();
  }

  lemma SimpleRunFiveThree()
    ensures SimpleRun([], [Push(5, []), Push(3, []), Pop]) == [Pushed, Pushed, Popped(Some(StorageItem(5, [])))]
  {
    var five, three := StorageItem(5, []), StorageItem(3, []);
    assert [] + [five] == [five] && [five] + [three] == [five, three];
    assert SimpleStore.PopFrom([five, three]) == (Some(five), [three]) by {
      assert MaxPriority([five, three]) == Some(5);
      assert SimpleStore.Position([five, three], 5) == Some(0);
      assert [five, three][..0] + [five, three][1..] == [three];
    }
    assert [Pop][1..] == [];
    assert SimpleRun([five, three], [Pop]) == [Popped(Some(five))];
    assert [Push(3, []), Pop][1..] == [Pop];
    assert SimpleRun([five], [Push(3, []), Pop]) == [Pushed, Popped(Some(five))];
    assert [Push(5, []), Push(3, []), Pop][1..] == [Push(3, []), Pop];
  }

  lemma OrderedRunFiveThree()
    ensures OrderedRun([], [Push(5, []), Push(3, []), Pop]) == [Pushed, Pushed, Popped(Some(StorageItem(3, [])))]
  {
    OrderedStore.PushIntoEmpty(StorageItem(5, []));
    OrderedRunThreePop();
    assert [Push(5, []), Push(3, []), Pop][1..] == [Push(3, []), Pop];
  }

  /** The last two steps of OrderedRunFiveThree. */
  lemma OrderedRunThreePop()
    ensures OrderedRun([StorageItem(5, [])], [Push(3, []), Pop]) == [Pushed, Popped(Some(StorageItem(3, [])))]
  {
    var five, three := StorageItem(5, []), StorageItem(3, []);
    OrderedStore.PushLowestBreaksOrder([], []);
    assert OrderedStore.PopFrom([three, five]) == (Some(three), [five]);
    assert [Pop][1..] == [];
    assert OrderedRun([three, five], [Pop]) == [Popped(Some(three))];
    assert [Push(3, []), Pop][1..] == [Pop];
  }

  lemma IntendedPushMatches(l: seq<StorageItem>, s: seq<StorageItem>, x: StorageItem)
    requires SortedOf(l, s)
    ensures SortedOf(OrderedStore.IntendedPushInto(l, x), s + [x])
  {
    OrderedStore.StableInsert(l, x);
    forall p: u16
      ensures OfPriority(OrderedStore.IntendedPushInto(l, x), p) == OfPriority(s + [x], p)
    {
      PushClasses(s, x, p);
    }
  }

  lemma SortedPeekMatches(l: seq<StorageItem>, s: seq<StorageItem>)
    requires SortedOf(l, s)
    ensures OrderedStore.HeadPriority(l) == MaxPriority(s)
  {
    OrderedStore.HeadIsMaxWhenSorted(l);
    SameClassesSameMax(l, s);
  }

  lemma SortedPopMatches(l: seq<StorageItem>, s: seq<StorageItem>)
    requires SortedOf(l, s)
    ensures OrderedStore.PopFrom(l).0 == SimpleStore.PopFrom(s).0
    ensures SortedOf(OrderedStore.PopFrom(l).1, SimpleStore.PopFrom(s).1)
  {
    SortedPeekMatches(l, s);
    if l != [] {
      var rest := SimpleStore.PopFrom(s).1;
      PopClasses(s);
      var item := SimpleStore.PopFrom(s).0.value;
      var p := l[0].priority;
      assert item.priority == p;
      assert [l[0]] + OfPriority(l[1..], p) == [item] + OfPriority(rest, p) by {
        assert OfPriority(l, p) == [l[0]] + OfPriority(l[1..], p);
        assert OfPriority(l, p) == OfPriority(s, p);
      }
      assert l[0] == item && OfPriority(l[1..], p) == OfPriority(rest, p) by {
        var x, y := [l[0]] + OfPriority(l[1..], p), [item] + OfPriority(rest, p);
        assert x[0] == y[0] && x[1..] == y[1..];
      }
      forall q: u16
        ensures OfPriority(l[1..], q) == OfPriority(rest, q)
      {
        if q != p {
          assert OfPriority(l, q) == [] + OfPriority(l[1..], q);
          assert OfPriority(l, q) == OfPriority(s, q);
        }
      }
    } else {
      assert s == [];
    }
  }

  /** With the intended insertion index, OrderedStorage answers every history
      without Clear as SimpleStorage does. */
  lemma {:induction false} IntendedRunMatches(l: seq<StorageItem>, s: seq<StorageItem>, ops: seq<Op>)
    requires SortedOf(l, s)
    requires NoClear(ops)
    ensures IntendedOrderedRun(l, ops) == SimpleRun(s, ops)
    decreases |ops|
  {
    if ops != [] {
      assert NoClear(ops[1..]);
      match ops[0]
      case Push(p, d) =>
        IntendedPushMatches(l, s, StorageItem(p, d));
        IntendedRunMatches(OrderedStore.IntendedPushInto(l, StorageItem(p, d)), s + [StorageItem(p, d)], ops[1..]);
      case Pop =>
        SortedPopMatches(l, s);
        IntendedRunMatches(OrderedStore.PopFrom(l).1, SimpleStore.PopFrom(s).1, ops[1..]);
      case PeekMax =>
        SortedPeekMatches(l, s);
        IntendedRunMatches(l, s, ops[1..]);
    }
  }

  lemma IntendedMatchesSimple(ops: seq<Op>)
    requires NoClear(ops)
    ensures IntendedOrderedRun([], ops) == SimpleRun([], ops)
  {
    IntendedRunMatches([], [], ops);
  }

  /** One call on a SimpleStorage holding `s`: the reply and the new items. */
  function SimpleStep(s: seq<StorageItem>, op: Op): (Reply, seq<StorageItem>) {
    match op
    case Push(p, d) => (Pushed, s + [StorageItem(p, d)])
    case Pop => (Popped(SimpleStore.PopFrom(s).0), SimpleStore.PopFrom(s).1)
    case PeekMax => (Peeked(MaxPriority(s)), s)
    case Clear => (Cleared, [])
  }

  function HashStep(m: HashStore.Buckets, op: Op): (Reply, HashStore.Buckets) {
    match op
    case Push(p, d) => (Pushed, HashStore.PushInto(m, StorageItem(p, d)))
    case Pop => (Popped(HashStore.PopFrom(m).0), HashStore.PopFrom(m).1)
    case PeekMax => (Peeked(HashStore.MaxNonEmpty(m)), m)
    case Clear => (Cleared, map[])
  }

  function OrderedStep(l: seq<StorageItem>, op: Op): (Reply, seq<StorageItem>)
    requires !op.Clear?
  {
    match op
    case Push(p, d) => (Pushed, OrderedStore.PushInto(l, StorageItem(p, d)))
    case Pop => (Popped(OrderedStore.PopFrom(l).0), OrderedStore.PopFrom(l).1)
    case PeekMax => (Peeked(OrderedStore.HeadPriority(l)), l)
  }

  /** The Run functions, one call at a time. */
  lemma RunSteps(s: seq<StorageItem>, m: HashStore.Buckets, ops: seq<Op>, i: nat)
    requires i < |ops|
    ensures SimpleRun(s, ops[i..]) == [SimpleStep(s, ops[i]).0] + SimpleRun(SimpleStep(s, ops[i]).1, ops[i + 1..])
    ensures HashRun(m, ops[i..]) == [HashStep(m, ops[i]).0] + HashRun(HashStep(m, ops[i]).1, ops[i + 1..])
    ensures NoClear(ops[i..]) ==>
              && NoClear(ops[i + 1..]) && !ops[i].Clear?
              && OrderedRun(s, ops[i..]) == [OrderedStep(s, ops[i]).0] + OrderedRun(OrderedStep(s, ops[i]).1, ops[i + 1..])
  {
    assert ops[i..][0] == ops[i] && ops[i..][1..] == ops[i + 1..];
    if NoClear(ops[i..]) {
      assert NoClear(ops[i + 1..]);
    }
  }

  lemma AppendReply(done: seq<Reply>, r: Reply, rest: seq<Reply>)
    ensures (done + [r]) + rest == done + ([r] + rest)
  {
  }

  /** One call dispatched to a SimpleStorage. */
  method SimpleCall(simple: SimpleStore.SimpleStorage, op: Op) returns (reply: Reply)
    modifies simple
    ensures (reply, simple.elements) == SimpleStep(old(simple.elements), op)
  {
    match op
    case Push(p, d) =>
      simple.Push(p, d);
      reply := Pushed;
    case Pop =>
      var item := simple.Pop();
      reply := Popped(item);
    case PeekMax =>
      var priority := simple.MaxPriority();
      assert priority == MaxPriority(simple.elements);
      reply := Peeked(priority);
    case Clear =>
      simple.Clear();
      reply := Cleared;
  }

  method HashCall(hash: HashStore.HashStorage, op: Op) returns (reply: Reply)
    modifies hash
    ensures (reply, hash.elements) == HashStep(old(hash.elements), op)
  {
    match op
    case Push(p, d) =>
      hash.Push(p, d);
      reply := Pushed;
    case Pop =>
      var item := hash.Pop();
      reply := Popped(item);
    case PeekMax =>
      var priority := hash.MaxPriority();
      reply := Peeked(priority);
    case Clear =>
      hash.Clear();
      reply := Cleared;
  }

  method OrderedCall(ordered: OrderedStore.OrderedStorage, op: Op) returns (reply: Reply)
    requires !op.Clear?
    modifies ordered
    ensures (reply, ordered.elements) == OrderedStep(old(ordered.elements), op)
  {
    match op
    case Push(p, d) =>
      ordered.Push(p, d);
      reply := Pushed;
    case Pop =>
      var item := ordered.Pop();
      reply := Popped(item);
    case PeekMax =>
      var priority := ordered.MaxPriority();
      reply := Peeked(priority);
  }

  /** A history replayed through SimpleStorage's own methods, as its unit
      tests do with fixed histories: the replies are those of SimpleRun. */
  method ReplaySimple(ops: seq<Op>) returns (replies: seq<Reply>)
    ensures replies == SimpleRun([], ops)
  {
    var simple := new SimpleStore.SimpleStorage();
    replies := [];
    var i := 0;
    while i < |ops|
      invariant 0 <= i <= |ops|
      invariant replies + SimpleRun(simple.elements, ops[i..]) == SimpleRun([], ops)
    {
      RunSteps(simple.elements, map[], ops, i);
      var reply := SimpleCall(simple, ops[i]);
      AppendReply(replies, reply, SimpleRun(simple.elements, ops[i + 1..]));
      replies := replies + [reply];
      i := i + 1;
    }
    assert ops[|ops|..] == [];
  }

  /** The same through HashStorage's methods: its replies are those of
      HashRun, and so, by HashMatchesSimple, those of SimpleStorage. */
  method ReplayHash(ops: seq<Op>) returns (replies: seq<Reply>)
    ensures replies == HashRun(map[], ops)
    ensures replies == SimpleRun([], ops)
  {
    var hash := new HashStore.HashStorage();
    replies := [];
    var i := 0;
    while i < |ops|
      invariant 0 <= i <= |ops|
      invariant replies + HashRun(hash.elements, ops[i..]) == HashRun(map[], ops)
    {
      RunSteps([], hash.elements, ops, i);
      var reply := HashCall(hash, ops[i]);
      AppendReply(replies, reply, HashRun(hash.elements, ops[i + 1..]));
      replies := replies + [reply];
      i := i + 1;
    }
    assert ops[|ops|..] == [];
    HashMatchesSimple(ops);
  }

  /** The same for OrderedStorage as written, over a history without Clear. */
  method ReplayOrdered(ops: seq<Op>) returns (replies: seq<Reply>)
    requires NoClear(ops)
    ensures replies == OrderedRun([], ops)
  {
    var ordered := new OrderedStore.OrderedStorage();
    replies := [];
    var i := 0;
    while i < |ops|
      invariant 0 <= i <= |ops|
      invariant NoClear(ops[i..])
      invariant replies + OrderedRun(ordered.elements, ops[i..]) == OrderedRun([], ops)
    {
      RunSteps(ordered.elements, map[], ops, i);
      var reply := OrderedCall(ordered, ops[i]);
      AppendReply(replies, reply, OrderedRun(ordered.elements, ops[i + 1..]));
      replies := replies + [reply];
      i := i + 1;
    }
    assert ops[|ops|..] == [];
  }
}
