# leaky_bucket: storage engines and command parser

leaky_bucket is a small TCP priority-queue server written in Rust. A client
sends text lines such as `push 10 hello` or `pop 3`. The server parses each
line into a `Command`, and the queued data lives in one of three
interchangeable storage engines. This Dafny project models those engines and
the line parser, and proves what they promise.

- `storage.dfy` (module `Storage`): the `StorageItem` record (a `u16`
  priority and a byte payload), and the reference meaning every engine is
  specified against:
  - `MaxPriority` is the greatest priority held.
  - `OfPriority` is the FIFO class of a priority: its items in push order.
- `simple_storage.dfy` (module `SimpleStore`): `SimpleStorage`, an unordered
  vector. Pop removes the earliest-pushed item of the greatest priority.
- `hash_storage.dfy` (module `HashStore`): `HashStorage`, a map from priority
  to a FIFO bucket. Pop takes the head of the greatest non-empty bucket.
  Buckets emptied by pop stay in the map.
- `ordered_storage.dfy` (module `OrderedStore`): `OrderedStorage`, a vector
  meant to stay in descending priority order, popped from the head. Its
  insertion index is modelled exactly as computed. That computation is wrong
  when no item has a lower priority (see Findings).
- `connection.dfy` (module `Protocol`): `ProtocolParser`, the mapping from a
  line's bytes to a `Command` or a parse error: `splitn(3, ' ')`, an ASCII
  case-insensitive keyword, `str::parse` for `u16` and `usize`.
- `equivalence.dfy` (module `Equivalence`): a history of calls (push, pop,
  max_priority, clear) is replayed against each engine.
  - `HashStorage` answers every history exactly as `SimpleStorage` does.
  - `OrderedStorage` as written does not.
  - With the corrected insertion index, it does, for every history without
    clear.
  - Replay methods drive the engines' own classes through their methods and
    reach the same replies.

Each engine is a class whose fields the methods update in place. Each
state-changing method states its new state as a function of the old one.
The properties are proved about those functions.

## Model

| member | source | states |
|---|---|---|
| `Storage.MaxPriority` | src/storage.rs:15 | None exactly when no item is held; otherwise a priority that some item has and that no item exceeds |
| `Storage.OfPriority` | src/storage.rs:3-7 | the FIFO class of a priority: only items of that priority, never more than the whole store |
| `Storage.OfPriorityAppend` | src/simple_storage.rs:22-27 | the classes of a concatenation are the concatenated classes, so appending an item touches only its own class |
| `Storage.OfPriorityEmpty` | src/hash_storage.rs:42 | a class is empty exactly when no item has that priority |
| `Storage.OfPrioritySplit` | src/simple_storage.rs:38 | the classes of a vector split around one position, and the classes once the item there is removed |
| `SimpleStore.Position` | src/simple_storage.rs:34-37 | the index of the first item with the priority; None exactly when no item has it |
| `SimpleStore.PopFrom` | src/simple_storage.rs:29-42 | empty: None and nothing changes; otherwise it hands out an item of maximal priority with no earlier item of that priority, and leaves the others in their order |
| `SimpleStore.SimpleStorage.constructor` | src/simple_storage.rs:16-20 | a new store is empty |
| `SimpleStore.SimpleStorage.Push` | src/simple_storage.rs:22-27 | the item is appended and the old items stay as they were; there is no failure case |
| `SimpleStore.SimpleStorage.Pop` | src/simple_storage.rs:29-42 | result and new vector are those of PopFrom; the position lookup always finds the maximum, so the unwrap cannot fail |
| `SimpleStore.SimpleStorage.MaxPriority` | src/simple_storage.rs:44-56 | None exactly when empty, otherwise a priority held and not exceeded; the store is not changed |
| `SimpleStore.SimpleStorage.Clear` | src/simple_storage.rs:81-83 | the store is empty afterwards |
| `HashStore.MaxNonEmptyBelow` | src/hash_storage.rs:37-52 | the greatest priority below a bound whose bucket is non-empty, or None when every such bucket is empty |
| `HashStore.MaxNonEmpty` | src/hash_storage.rs:37-52 | None exactly when every bucket is empty (an empty map included); otherwise a key whose bucket is non-empty and at least every other such key |
| `HashStore.PushInto` | src/hash_storage.rs:16-25 | the key set gains the priority; its bucket gets the item at its end (a fresh singleton when absent); every other bucket is unchanged |
| `HashStore.PopFrom` | src/hash_storage.rs:27-35 | keys are never removed; with no non-empty bucket, None and nothing changes; otherwise the head of the greatest non-empty bucket is handed out and dropped, other buckets unchanged |
| `HashStore.HashStorage.constructor` | src/hash_storage.rs:10-14 | a new store has no buckets |
| `HashStore.HashStorage.Push` | src/hash_storage.rs:16-25 | the new map is PushInto of the old one, on both the existing-key and the new-key branch |
| `HashStore.HashStorage.Pop` | src/hash_storage.rs:27-35 | result and new map are those of PopFrom; the chosen bucket exists and is non-empty, so `unwrap` and `remove(0)` cannot fail |
| `HashStore.HashStorage.MaxPriority` | src/hash_storage.rs:37-52 | whatever order the keys are visited in, the loop returns MaxNonEmpty of the map |
| `HashStore.HashStorage.Dump` | src/hash_storage.rs:54 | dumping changes nothing and writes nothing |
| `HashStore.HashStorage.Load` | src/hash_storage.rs:55 | loading changes nothing |
| `HashStore.HashStorage.Clear` | src/hash_storage.rs:57-59 | every bucket, emptied ones included, is dropped |
| `OrderedStore.FirstBelow` | src/ordered_storage.rs:23-24 | the index of the first item strictly below the priority, or the length when there is none |
| `OrderedStore.InsertIndex` | src/ordered_storage.rs:29-34 | the computed index never exceeds the length; it is the first strictly lower item when one exists, and length minus one otherwise (0 on an empty vector) |
| `OrderedStore.PushInto` | src/ordered_storage.rs:28-40 | push as written never fails (the index never exceeds the length, so `Vec::insert` cannot panic) and grows the vector by one |
| `OrderedStore.IntendedPushInto` | src/ordered_storage.rs:23-24 | the corrected push grows the vector by one, puts the item at FirstBelow and keeps every old item in its order |
| `OrderedStore.InsertAt` | src/ordered_storage.rs:36-39 | `Vec::insert`: one longer, the item at the index, the rest shifted in order |
| `OrderedStore.PopFrom` | src/ordered_storage.rs:42-48 | empty: None and nothing changes; otherwise the head is handed out and the rest is kept |
| `OrderedStore.HeadPriority` | src/ordered_storage.rs:50-55 | None exactly when empty, otherwise the head's priority and nothing else |
| `OrderedStore.OrderedStorage.constructor` | src/ordered_storage.rs:16-20 | a new store is empty |
| `OrderedStore.OrderedStorage.Push` | src/ordered_storage.rs:28-40 | the counter loop inside `find` and the decrement yield InsertIndex, and the item is inserted there |
| `OrderedStore.OrderedStorage.Pop` | src/ordered_storage.rs:42-48 | result and new vector are those of PopFrom |
| `OrderedStore.OrderedStorage.MaxPriority` | src/ordered_storage.rs:50-55 | the answer is HeadPriority; the store is not changed |
| `OrderedStore.OrderedStorage.Dump` | src/ordered_storage.rs:57 | dumping changes nothing and writes nothing |
| `OrderedStore.OrderedStorage.Load` | src/ordered_storage.rs:58 | loading changes nothing |
| `OrderedStore.PushIntoEmpty` | src/ordered_storage.rs:29-36 | pushing into an empty store gives the one-item vector |
| `OrderedStore.PushKeepsOldItems` | src/ordered_storage.rs:29-39 | push as written puts the item at InsertIndex, and removing it gives back the old vector in its order |
| `OrderedStore.PushWithLowerKeepsOrder` | src/ordered_storage.rs:29-36 | when some item is strictly lower, the index is FirstBelow, a sorted vector stays sorted, and the item joins the end of its FIFO class |
| `OrderedStore.PushWithoutLowerGoesBeforeLast` | src/ordered_storage.rs:30-34 | when no item is strictly lower, the new item lands just before the last item |
| `OrderedStore.PushLowestBreaksOrder` | src/ordered_storage.rs:29-39 | pushing 3 onto [5] gives [3, 5], which is not sorted |
| `OrderedStore.PushEqualBreaksFifo` | src/ordered_storage.rs:29-39 | pushing priority 2 onto [2a] gives [2b, 2a], ahead of the older item |
| `OrderedStore.StableInsert` | src/ordered_storage.rs:23-24 | inserting at FirstBelow keeps any sorted vector sorted and appends the item to its own FIFO class only |
| `OrderedStore.StableInsertSorted` | src/ordered_storage.rs:23-24 | inserting at FirstBelow keeps a sorted vector sorted |
| `OrderedStore.InsertBeforeLowerClass` | src/ordered_storage.rs:36-39 | inserting before items that are all lower adds the item at the end of its class and changes no other class |
| `OrderedStore.OfPriorityInsertAt` | src/ordered_storage.rs:36-39 | the FIFO classes of a vector after `Vec::insert`, split at the index |
| `OrderedStore.NoneFrom` | src/ordered_storage.rs:32 | a tail whose items are all below a priority holds none of it |
| `OrderedStore.HeadIsMaxWhenSorted` | src/ordered_storage.rs:50-55 | on a sorted vector, reading only the head gives the greatest priority |
| `Protocol.IndexOfSpace` | src/connection.rs:15 | the first space, or the length: no space before it |
| `Protocol.SplitN` | src/connection.rs:15 | one to n tokens that join back with single spaces into the line; no earlier token holds a space, and the last holds none unless the limit was reached |
| `Protocol.ToLowerAscii` | src/connection.rs:21 | same length, each byte lower-cased |
| `Protocol.ParseUnsigned` | src/connection.rs:35-39 | both directions: a success is below the limit and is the value of the string's digits, or of the digits after a single leading '+'; every such string whose value is below the limit parses to that value |
| `Protocol.ParseLine` | src/connection.rs:14-28 | a pop starts with a keyword spelling "pop" in any case, followed by a space or the end; a push starts with a keyword spelling "push" and a space, is at least seven bytes longer than its data, and its data is the line's tail |
| `Protocol.LineShape` | src/connection.rs:15-19 | the line begins with its first token, so there is always one and the empty-tokens branch cannot be taken; three tokens rebuild the line exactly |
| `Protocol.ParsePush` | src/connection.rs:31-44 | succeeds exactly when there are three tokens and the second parses as a `u16`; the push then carries that number as priority and the third token as data |
| `Protocol.ParsePop` | src/connection.rs:47-57 | always succeeds with a pop whose number fits a `usize` |
| `Protocol.Decimal` | src/connection.rs:35 | non-empty decimal digits, without space, whose value is the number |
| `Protocol.DecimalParses` | src/connection.rs:35 | parsing the decimal form of n gives n when it is below the limit, and an error otherwise |
| `Protocol.IndexOfSpaceAfter` | src/connection.rs:15 | a space-free prefix moves the first space by its length |
| `Protocol.FirstToken` | src/connection.rs:15 | with a limit of two or more, the first token is everything before the first space |
| `Protocol.SplitNAtSpace` | src/connection.rs:15 | splitting a space-free word, a space and a rest gives the word and then the split of the rest |
| `Protocol.SplitNWithoutSpace` | src/connection.rs:15 | a line without a space is a single token |
| `Protocol.SplitNOne` | src/connection.rs:15 | with a limit of one, the whole line is the token |
| `Protocol.EncodeParses` | src/connection.rs:14-57 | round trip: a written-out command parses back to itself, for any push payload (spaces included) and any `usize` pop count |
| `Protocol.EncodePopParses` | src/connection.rs:47-57 | "pop n" parses to a pop of n |
| `Protocol.EncodePushParses` | src/connection.rs:31-44 | "push p data" parses to a push of p carrying data byte for byte |
| `Protocol.KeywordCaseInsensitive` | src/connection.rs:21-27 | lower-casing the first token never changes what the line parses to |
| `Protocol.SameTokensSameCommand` | src/connection.rs:21-27 | lines with the same later tokens and the same lower-cased keyword parse alike |
| `Protocol.UnknownKeywordRejected` | src/connection.rs:23-26 | a first token that is neither keyword is an unrecognized command |
| `Protocol.EmptyLineRejected` | src/connection.rs:15-26 | the empty line is an unrecognized command |
| `Protocol.PushWithoutPayloadRejected` | src/connection.rs:32-34 | a push of one or two tokens is rejected |
| `Protocol.PushBadPriorityRejected` | src/connection.rs:35-39 | a push whose priority token is not a `u16` is rejected, whatever follows |
| `Protocol.PushPriorityMustBeU16` | src/connection.rs:35-39 | a double space (empty priority) and 65536 are both rejected |
| `Protocol.PushNumber` | src/connection.rs:31-44 | a push line of keyword, priority and data parses to a push of the parsed priority with the data byte for byte, or is rejected when the priority is not a `u16` |
| `Protocol.PushPlusPriority` | src/connection.rs:35 | "+5" is accepted as priority 5 |
| `Protocol.PushZeroPaddedPriority` | src/connection.rs:35 | "007" is accepted as priority 7 |
| `Protocol.PopNumber` | src/connection.rs:47-56 | pop alone means 1; otherwise the count is the parsed second token (0 included), or 1 when it is not a number; later tokens are ignored |
| `Equivalence.SimpleRun` | src/simple_storage.rs:15-84 | SimpleStorage's replies to a history: one reply per call, of the kind the call asks for |
| `Equivalence.HashRun` | src/hash_storage.rs:9-60 | HashStorage's replies to a history: one reply per call, of the kind the call asks for |
| `Equivalence.OrderedRun` | src/ordered_storage.rs:27-59 | OrderedStorage's replies, as written, to a history without clear: one reply per call, of the kind the call asks for |
| `Equivalence.IntendedOrderedRun` | src/ordered_storage.rs:23-24 | the corrected OrderedStorage's replies to a history without clear: one reply per call, of the kind the call asks for |
| `Equivalence.PushClasses` | src/simple_storage.rs:22-27 | appending adds the item to the end of its own class only |
| `Equivalence.PopClasses` | src/simple_storage.rs:29-42 | SimpleStorage's pop hands out the head of the greatest priority's class and leaves every other class unchanged |
| `Equivalence.RemoveFirstOfClass` | src/simple_storage.rs:34-38 | removing the first item of a priority takes the head of that class and leaves the other classes |
| `Equivalence.RemoveHeadOfClass` | src/simple_storage.rs:34-38 | the removed first item was the head of its class |
| `Equivalence.NoneBefore` | src/simple_storage.rs:34-36 | before the first item of a priority, the class of that priority is empty |
| `Equivalence.RemoveOtherClass` | src/simple_storage.rs:38 | removing one item leaves every class of another priority unchanged |
| `Equivalence.SameClassesSameMax` | src/simple_storage.rs:44-56 | stores with the same FIFO classes have the same maximum |
| `Equivalence.SameClassHolds` | src/simple_storage.rs:44-56 | the same class means the same priorities are held |
| `Equivalence.HashPushMatches` | src/hash_storage.rs:16-25 | a push keeps the buckets equal to the FIFO classes of the matching vector |
| `Equivalence.HashMaxMatches` | src/hash_storage.rs:37-52 | when buckets match classes, the greatest non-empty bucket is the greatest priority held |
| `Equivalence.MaxOfMatchingBuckets` | src/hash_storage.rs:37-52 | the same, stated over what the two maxima promise |
| `Equivalence.BucketHolds` | src/hash_storage.rs:42 | a matching bucket is present and non-empty exactly when its priority is held |
| `Equivalence.HashPopMatches` | src/hash_storage.rs:27-35 | a pop hands out the same item as SimpleStorage's and keeps buckets and classes matched |
| `Equivalence.HashRunMatches` | src/hash_storage.rs:9-60 | from matching states, HashStorage and SimpleStorage give the same replies to every history |
| `Equivalence.HashMatchesSimple` | src/hash_storage.rs:66-143 | from fresh stores, HashStorage answers every history of push, pop, max_priority and clear exactly as SimpleStorage |
| `Equivalence.OrderedDiffersFromSimple` | src/ordered_storage.rs:28-40 | push 5, push 3, pop: SimpleStorage hands out 5, OrderedStorage as written hands out 3 |
| `Equivalence.SimpleRunFiveThree` | src/simple_storage.rs:29-42 | SimpleStorage's replies to push 5, push 3, pop |
| `Equivalence.OrderedRunFiveThree` | src/ordered_storage.rs:28-48 | OrderedStorage's replies to push 5, push 3, pop |
| `Equivalence.OrderedRunThreePop` | src/ordered_storage.rs:28-48 | OrderedStorage holding 5 replies to push 3, pop by handing out 3 |
| `Equivalence.IntendedPushMatches` | src/ordered_storage.rs:23-24 | the corrected push keeps the vector sorted and its classes those of the matching SimpleStorage |
| `Equivalence.SortedPeekMatches` | src/ordered_storage.rs:50-55 | on a sorted vector with the same classes, the head's priority is SimpleStorage's maximum |
| `Equivalence.SortedPopMatches` | src/ordered_storage.rs:42-48 | on a sorted vector with the same classes, popping the head hands out SimpleStorage's item and keeps the two matched |
| `Equivalence.IntendedRunMatches` | src/ordered_storage.rs:27-55 | from matching states, the corrected OrderedStorage replies as SimpleStorage to every history without clear |
| `Equivalence.IntendedMatchesSimple` | src/ordered_storage.rs:23-40 | from fresh stores, the corrected OrderedStorage answers every history without clear exactly as SimpleStorage |
| `Equivalence.RunSteps` | src/storage.rs:9-17 | each history function replies to a history one call at a time |
| `Equivalence.SimpleCall` | src/storage.rs:11-16 | one call on a SimpleStorage object replies and changes state as the SimpleStorage history function says |
| `Equivalence.HashCall` | src/storage.rs:11-16 | one call on a HashStorage object replies and changes state as the HashStorage history function says |
| `Equivalence.OrderedCall` | src/storage.rs:11-15 | one call on an OrderedStorage object replies and changes state as the OrderedStorage history function says |
| `Equivalence.ReplaySimple` | src/simple_storage.rs:90-166 | replaying a history through SimpleStorage's methods gives SimpleStorage's replies |
| `Equivalence.ReplayHash` | src/hash_storage.rs:66-143 | replaying a history through HashStorage's methods gives HashStorage's replies, and these are SimpleStorage's |
| `Equivalence.ReplayOrdered` | src/ordered_storage.rs:27-58 | replaying a history without clear through OrderedStorage's methods gives OrderedStorage's replies as written |

## Left out

- The `Storage` trait (src/storage.rs:9-17) is not a Dafny trait. The
  three engines are classes with the same method names. Their common
  contract is stated once: by the functions of module `Storage`, and by the
  `Op`/`Reply` histories of module `Equivalence`, which the three
  `...Call` methods dispatch to each class.
- `pop(count)`, declared at src/storage.rs:12, has no implementation. Only
  the single-item `pop() -> Option<StorageItem>`, which every engine
  implements, is modelled.
- `SimpleStorage::dump` and `load` (src/simple_storage.rs:58-79) are left
  out: they do file I/O through the bincode serializer, whose byte format is
  not part of this model.
- `HashStorage::dump` and `OrderedStorage::dump` are empty methods. They
  have no modifies clause, so they change nothing.
- `OrderedStorage` has no `clear` and no trait-level `new`. The histories
  replayed against it contain no clear.
- `Connection::handle` and `handle_stream` (src/connection.rs:60-94) and
  src/main.rs are left out: TCP sockets, `BufReader::lines`, a thread per
  connection, a shared `Mutex` and logging. Parsed commands are only
  printed there, never executed against a store. The connection limit exists
  only as a commented-out constant.
- The error messages built with `format!` are not modelled. An error is one
  of two kinds, `UnrecognizedCommand` and `UnrecognizedPush`, without its
  text.
- There is no CLEAR command in the parser, and none is modelled.
- A line is modelled as the UTF-8 bytes of the Rust `String`. Splitting,
  keyword comparison and number parsing only look at ASCII bytes, so this
  is exact.
- `to_lowercase` is modelled as ASCII lower-casing. No non-ASCII character
  lower-cases to a letter of "pop" or "push", so the keyword match is the
  same.
- `usize` is taken as 64 bits: pop counts of 2^64 or more are not a number,
  and fall back to 1.
- `HashMap` iteration order is not modelled: the `MaxPriority` loop picks
  any unvisited key and is proved correct for every order.
- `Protocol.ParseLine`: its own contract states only the shape of a line
  that parses. The exact parse is stated by `PushNumber` (every line of a
  push keyword, a priority token and data), `PopNumber` (every line of a pop
  keyword), `PushWithoutPayloadRejected` (a push line of one or two tokens),
  `UnknownKeywordRejected` and `KeywordCaseInsensitive`.

## Findings

| source | as written | input that shows it | evidently intended | confidence | as-written member | corrected member |
|---|---|---|---|---|---|---|
| src/ordered_storage.rs:29-34 | the count of items `find` visits, less one, is the insertion index; when no item is strictly lower, `find` visits every item and the index is length minus one | push 5, then push 3: the vector becomes [3, 5] and pop hands out 3 before 5; push 2a, then push 2b: 2b is handed out first | insert before the first strictly lower item, or at the end when there is none (the comment at src/ordered_storage.rs:23-24), which keeps the vector sorted and FIFO within a priority | not executed | `Equivalence.OrderedDiffersFromSimple` | `Equivalence.IntendedMatchesSimple` |

`OrderedStorage.Push` keeps the insertion index as the code computes it,
`InsertIndex`. `OrderedStore.PushLowestBreaksOrder` and
`OrderedStore.PushEqualBreaksFifo` show the two consequences. The corrected
push, `OrderedStore.IntendedPushInto`, inserts at `FirstBelow`.
`OrderedStore.StableInsert` proves that it keeps the order. The corrected
history function uses it, and `Equivalence.IntendedMatchesSimple` proves
that it then agrees with `SimpleStorage` on every history without clear.
