/** ProtocolParser (src/connection.rs): one text line, already stripped of its
    newline, becomes a Command or a parse error.

    The line is taken as the bytes of the Rust `String` (its UTF-8 encoding).
    Every step of the parser looks only at ASCII bytes: the space it splits
    on, the keyword it compares and the digits it reads, and no byte of a
    multi-byte UTF-8 sequence is ASCII, so working on the bytes gives the
    same tokens the `&str` methods give. The payload of a push is the
    untouched bytes of the rest of the line, which is what `into_bytes`
    returns. */
module Protocol {
  import opened Storage

  const SPACE: u8 := 32
  const PLUS: u8 := 43

  /** The keywords, lower case: "pop" and "push". */
  const POP: seq<u8> := [112, 111, 112]
  const PUSH: seq<u8> := [112, 117, 115, 104]

  /** One past the greatest `u16`, and one past the greatest `usize` of a
      64-bit target. */
  const U16_LIMIT: nat := 0x1_0000
  const USIZE_LIMIT: nat := 0x1_0000_0000_0000_0000

  datatype Command = Pop(number: nat) | Push(priority: u16, data: seq<u8>)

  /** The two messages of the parser, without their text. */
  datatype ParseError = UnrecognizedCommand | UnrecognizedPush

  datatype Result<T> = Ok(value: T) | Err(error: ParseError)

  /** The index of the first space in `s`, or |s| when there is none. */
  function IndexOfSpace(s: seq<u8>): (i: nat)
    ensures i <= |s|
    ensures forall j :: 0 <= j < i ==> s[j] != SPACE
    ensures i < |s| ==> s[i] == SPACE
  {
    if s == [] || s[0] == SPACE then 0 else 1 + IndexOfSpace(s[1..])
  }

  /** The tokens glued back together with one space between neighbours. */
  function JoinWithSpaces(tokens: seq<seq<u8>>): seq<u8>
    requires tokens != []
  {
    if |tokens| == 1 then tokens[0] else tokens[0] + [SPACE] + JoinWithSpaces(tokens[1..])
  }

  /** `str::splitn(n, ' ')`: the pieces between single spaces, at most `n` of
      them, the last being the rest of the line as it is. */
  function SplitN(s: seq<u8>, n: nat): (tokens: seq<seq<u8>>)
    requires n >= 1
    ensures 1 <= |tokens| <= n
    ensures JoinWithSpaces(tokens) == s
    ensures forall k :: 0 <= k < |tokens| - 1 ==> SPACE !in tokens[k]
    ensures |tokens| < n ==> SPACE !in tokens[|tokens| - 1]
    decreases n
  {
    var i := IndexOfSpace(s);
    if n == 1 || i == |s| then
      assert SPACE in s ==> i < |s|;
      [s]
    else
      var rest := SplitN(s[i + 1..], n - 1);
      assert s == s[..i] + [SPACE] + s[i + 1..];
      [s[..i]] + rest
  }

  /** ASCII lower case of one byte; every other byte is left alone. */
  function LowerByte(b: u8): u8 {
    if 65 <= b <= 90 then b + 32 else b
  }

  function ToLowerAscii(s: seq<u8>): (r: seq<u8>)
    ensures |r| == |s| && forall i :: 0 <= i < |s| ==> r[i] == LowerByte(s[i])
  {
    seq(|s|, i requires 0 <= i < |s| => LowerByte(s[i]))
  }

  predicate IsDigit(b: u8) {
    48 <= b <= 57
  }

  predicate AllDigits(s: seq<u8>) {
    forall i :: 0 <= i < |s| ==> IsDigit(s[i])
  }

  /** The number written in decimal by the digits `s`. */
  function DigitsValue(s: seq<u8>): nat
    requires AllDigits(s)
  {
    if s == [] then 0 else DigitsValue(s[..|s| - 1]) * 10 + (s[|s| - 1] - 48) as nat
  }

  /** `str::parse` for an unsigned integer type whose values lie below
      `limit`: an optional leading '+', then at least one decimal digit, with
      a value that fits; anything else (an empty string, a lone '+', a '-', a
      space, a value too large) is an error. */
  function ParseUnsigned(s: seq<u8>, limit: nat): (r: Option<nat>)
    ensures r.Some? ==> r.value < limit
    ensures r.Some? ==>
              || (s != [] && AllDigits(s) && DigitsValue(s) == r.value)
              || (|s| >= 2 && s[0] == PLUS && AllDigits(s[1..]) && DigitsValue(s[1..]) == r.value)
    ensures s != [] && AllDigits(s) && DigitsValue(s) < limit ==> r == Some(DigitsValue(s))
    ensures |s| >= 2 && s[0] == PLUS && AllDigits(s[1..]) && DigitsValue(s[1..]) < limit ==> r == Some(DigitsValue(s[1..]))
  {
    var digits := if s != [] && s[0] == PLUS then s[1..] else s;
    if digits == [] || !AllDigits(digits) then None
    else if DigitsValue(digits) < limit then Some(DigitsValue(digits))
    else None
  }

  /** The line's Command, or the error the parser reports. */
  function ParseLine(line: seq<u8>): (r: Result<Command>)
    ensures r.Ok? && r.value.Pop? ==>
              && |line| >= 3 && ToLowerAscii(line[..3]) == POP && (|line| == 3 || line[3] == SPACE)
              && r.value.number < USIZE_LIMIT
    ensures r.Ok? && r.value.Push? ==>
              && |line| >= 7 + |r.value.data| && ToLowerAscii(line[..4]) == PUSH && line[4] == SPACE
              && line[|line| - |r.value.data|..] == r.value.data
  {
    var tokens := SplitN(line, 3);
    if |tokens| == 0 then Err(UnrecognizedCommand)
    else
      var cmd := ToLowerAscii(tokens[0]);
      LineShape(line);
      if cmd == POP then ParsePop(tokens)
      else if cmd == PUSH then ParsePush(tokens)
      else Err(UnrecognizedCommand)
  }

  /** The line begins with its first token, followed by a space or by
      nothing; three tokens are the whole line with two spaces between. */
  lemma LineShape(line: seq<u8>)
    ensures var t := SplitN(line, 3);
            && |t[0]| <= |line| && line[..|t[0]|] == t[0] && (|t[0]| == |line| || line[|t[0]|] == SPACE)
            && (|t| == 3 ==> line == t[0] + [SPACE] + t[1] + [SPACE] + t[2])
  {
    var t := SplitN(line, 3);
    if |t| == 1 {
      assert line == t[0];
    } else {
      assert line == t[0] + [SPACE] + JoinWithSpaces(t[1..]);
      if |t| == 3 {
        assert t[1..][1..] == [t[2]];
        assert JoinWithSpaces(t[1..]) == t[1] + [SPACE] + t[2];
      }
    }
  }

  /** push [priority] data: three tokens and a priority that is a `u16`. */
  function ParsePush(tokens: seq<seq<u8>>): (r: Result<Command>)
    ensures r.Ok? <==> |tokens| >= 3 && ParseUnsigned(tokens[1], U16_LIMIT).Some?
    ensures r.Ok? ==>
              && tokens[1] != [] && r.value.Push?
              && r.value.priority as nat == ParseUnsigned(tokens[1], U16_LIMIT).value
              && r.value.data == tokens[2]
  {
    if |tokens| < 3 then Err(UnrecognizedPush)
    else
      match ParseUnsigned(tokens[1], U16_LIMIT)
      case None => Err(UnrecognizedPush)
      case Some(priority) => Ok(Push(priority as u16, tokens[2]))
  }

  /** pop [number]: never fails; a missing or unreadable number means 1. */
  function ParsePop(tokens: seq<seq<u8>>): (r: Result<Command>)
    ensures r.Ok? && r.value.Pop? && r.value.number < USIZE_LIMIT
  {
    var popNumber :=
      if |tokens| < 2 then 1
      else
        match ParseUnsigned(tokens[1], USIZE_LIMIT)
        case Some(num) => num
        case None => 1;
    Ok(Pop(popNumber))
  }

  /** The decimal digits of `n`, most significant first. */
  function Decimal(n: nat): (r: seq<u8>)
    ensures r != [] && AllDigits(r) && DigitsValue(r) == n
    ensures SPACE !in r
  {
    if n < 10 then [(48 + n) as u8]
    else
      var front := Decimal(n / 10);
      var r := front + [(48 + n % 10) as u8];
      assert r[..|r| - 1] == front;
      r
  }

  /** A command written out as a client would send it. */
  function Encode(cmd: Command): seq<u8> {
    match cmd
    case Pop(n) => POP + [SPACE] + Decimal(n)
    case Push(p, d) => PUSH + [SPACE] + Decimal(p as nat) + [SPACE] + d
  }

  lemma DecimalParses(n: nat, limit: nat)
    ensures ParseUnsigned(Decimal(n), limit) == if n < limit then Some(n) else None
  {
  }

  lemma {:induction false} IndexOfSpaceAfter(a: seq<u8>, b: seq<u8>)
    requires SPACE !in a
    ensures IndexOfSpace(a + b) == |a| + IndexOfSpace(b)
  {
    if a == [] {
      assert a + b == b;
    } else {
      assert (a + b)[1..] == a[1..] + b;
      IndexOfSpaceAfter(a[1..], b);
    }
  }

  /** The first token is everything before the first space. */
  lemma FirstToken(s: seq<u8>, n: nat)
    requires n >= 2
    ensures SplitN(s, n)[0] == s[..IndexOfSpace(s)]
  {
    assert s[..|s|] == s;
  }

  lemma SplitNAtSpace(a: seq<u8>, b: seq<u8>, n: nat)
    requires SPACE !in a && n >= 2
    ensures SplitN(a + [SPACE] + b, n) == [a] + SplitN(b, n - 1)
  {
    var s := a + [SPACE] + b;
    assert s == a + ([SPACE] + b);
    IndexOfSpaceAfter(a, [SPACE] + b);
    assert s[..|a|] == a && s[|a| + 1..] == b;
  }

  lemma SplitNWithoutSpace(a: seq<u8>, n: nat)
    requires SPACE !in a && n >= 1
    ensures SplitN(a, n) == [a]
  {
    IndexOfSpaceAfter(a, []);
    assert a + [] == a;
  }

  /** Round trip: a command written out parses back to itself, whatever
      bytes (spaces included) a push carries. */
  lemma EncodeParses(cmd: Command)
    requires cmd.Pop? ==> cmd.number < USIZE_LIMIT
    ensures ParseLine(Encode(cmd)) == Ok(cmd)
  {
    match cmd
    case Pop(n) => EncodePopParses(n);
    case Push(p, d) => EncodePushParses(p, d);
  }

  lemma EncodePopParses(n: nat)
    requires n < USIZE_LIMIT
    ensures ParseLine(Encode(Pop(n))) == Ok(Pop(n))
  {
    var digits := Decimal(n);
    SplitNAtSpace(POP, digits, 3);
    SplitNWithoutSpace(digits, 2);
    assert SplitN(Encode(Pop(n)), 3) == [POP, digits];
    assert ToLowerAscii(POP) == POP;
    DecimalParses(n, USIZE_LIMIT);
    assert ParsePop([POP, digits]) == Ok(Pop(n));
  }

  lemma EncodePushParses(p: u16, d: seq<u8>)
    ensures ParseLine(Encode(Push(p, d))) == Ok(Push(p, d))
  {
    var digits := Decimal(p as nat);
    assert Encode(Push(p, d)) == PUSH + [SPACE] + (digits + [SPACE] + d);
    SplitNAtSpace(PUSH, digits + [SPACE] + d, 3);
    SplitNAtSpace(digits, d, 2);
    SplitNOne(d);
    assert SplitN(Encode(Push(p, d)), 3) == [PUSH, digits, d];
    assert ToLowerAscii(PUSH) == PUSH;
    DecimalParses(p as nat, U16_LIMIT);
    assert ParsePush([PUSH, digits, d]) == Ok(Push(p, d));
  }

  lemma SplitNOne(s: seq<u8>)
    ensures SplitN(s, 1) == [s]
  {
  }

  /** The keyword is read without regard to ASCII case: lower-casing the first
      token does not change what the line parses to. */
  lemma KeywordCaseInsensitive(line: seq<u8>)
    ensures var i := IndexOfSpace(line);
            ParseLine(ToLowerAscii(line[..i]) + line[i..]) == ParseLine(line)
  {
    var i := IndexOfSpace(line);
    var keyword, lowered := line[..i], ToLowerAscii(line[..i]);
    assert SPACE !in keyword;
    assert SPACE !in lowered;
    assert ToLowerAscii(lowered) == ToLowerAscii(keyword);
    if i == |line| {
      assert lowered + line[i..] == lowered;
      SplitNWithoutSpace(lowered, 3);
      SplitNWithoutSpace(line, 3);
      SameTokensSameCommand(lowered, line);
    } else {
      assert line == keyword + [SPACE] + line[i + 1..];
      assert lowered + line[i..] == lowered + [SPACE] + line[i + 1..];
      SplitNAtSpace(keyword, line[i + 1..], 3);
      SplitNAtSpace(lowered, line[i + 1..], 3);
      SameTokensSameCommand(lowered + line[i..], line);
    }
  }

  /** Lines whose tokens agree after the keyword, and whose keywords agree
      once lower-cased, parse alike. */
  lemma SameTokensSameCommand(a: seq<u8>, b: seq<u8>)
    requires |SplitN(a, 3)| == |SplitN(b, 3)|
    requires SplitN(a, 3)[1..] == SplitN(b, 3)[1..]
    requires ToLowerAscii(SplitN(a, 3)[0]) == ToLowerAscii(SplitN(b, 3)[0])
    ensures ParseLine(a) == ParseLine(b)
  {
    var ta, tb := SplitN(a, 3), SplitN(b, 3);
    var keyword := ToLowerAscii(ta[0]);
    if |ta| >= 2 {
      assert ta[1] == ta[1..][0] == tb[1];
    }
    if |ta| >= 3 {
      assert ta[2] == ta[1..][1] == tb[2];
    }
    if keyword == POP {
      assert ParseLine(a) == ParsePop(ta) && ParseLine(b) == ParsePop(tb);
    } else if keyword == PUSH {
      assert ParseLine(a) == ParsePush(ta) && ParseLine(b) == ParsePush(tb);
    }
  }

  /** Only "pop" and "push" are commands; every other first token, the empty
      line included, is an unrecognized command. */
  lemma UnknownKeywordRejected(line: seq<u8>)
    requires ToLowerAscii(line[..IndexOfSpace(line)]) != POP
    requires ToLowerAscii(line[..IndexOfSpace(line)]) != PUSH
    ensures ParseLine(line) == Err(UnrecognizedCommand)
  {
    FirstToken(line, 3);
  }

  lemma EmptyLineRejected()
    ensures ParseLine([]) == Err(UnrecognizedCommand)
  {
    UnknownKeywordRejected([]);
  }

  /** A push without a payload token is rejected. */
  lemma PushWithoutPayloadRejected(keyword: seq<u8>, priority: seq<u8>)
    requires ToLowerAscii(keyword) == PUSH && SPACE !in keyword && SPACE !in priority
    ensures ParseLine(keyword) == Err(UnrecognizedPush)
    ensures ParseLine(keyword + [SPACE] + priority) == Err(UnrecognizedPush)
  {
    SplitNWithoutSpace(keyword, 3);
    SplitNAtSpace(keyword, priority, 3);
    SplitNWithoutSpace(priority, 2);
  }

  /** A push of three tokens: the priority is the second token read as a
      `u16` (a leading '+' and leading zeros allowed), the data the rest of
      the line byte for byte; a second token that is not a `u16` is an error. */
  lemma PushNumber(keyword: seq<u8>, priority: seq<u8>, data: seq<u8>)
    requires ToLowerAscii(keyword) == PUSH && SPACE !in keyword && SPACE !in priority
    ensures ParseLine(keyword + [SPACE] + priority + [SPACE] + data)
         == match ParseUnsigned(priority, U16_LIMIT)
            case Some(n) => Ok(Push(n as u16, data))
            case None => Err(UnrecognizedPush)
  {
    assert keyword + [SPACE] + priority + [SPACE] + data == keyword + [SPACE] + (priority + [SPACE] + data);
    SplitNAtSpace(keyword, priority + [SPACE] + data, 3);
    SplitNAtSpace(priority, data, 2);
    SplitNOne(data);
    assert SplitN(keyword + [SPACE] + priority + [SPACE] + data, 3) == [keyword, priority, data];
  }

  /** A push whose second token is not a `u16` is rejected, whatever follows. */
  lemma PushBadPriorityRejected(keyword: seq<u8>, priority: seq<u8>, data: seq<u8>)
    requires ToLowerAscii(keyword) == PUSH && SPACE !in keyword && SPACE !in priority
    requires ParseUnsigned(priority, U16_LIMIT).None?
    ensures ParseLine(keyword + [SPACE] + priority + [SPACE] + data) == Err(UnrecognizedPush)
  {
    PushNumber(keyword, priority, data);
  }

  /** A non-canonical priority that still parses: "+5" is 5. */
  lemma PushPlusPriority(data: seq<u8>)
    ensures ParseLine(PUSH + [SPACE] + [PLUS, 53] + [SPACE] + data) == Ok(Push(5, data))
  {
    assert ToLowerAscii(PUSH) == PUSH;
    assert [PLUS, 53][1..] == [53] && AllDigits([53]) && DigitsValue([53]) == 5 by {
      assert [53 as u8][..0] == [];
    }
    PushNumber(PUSH, [PLUS, 53], data);
  }

  /** A non-canonical priority that still parses: "007" is 7. */
  lemma PushZeroPaddedPriority(data: seq<u8>)
    ensures ParseLine(PUSH + [SPACE] + [48, 48, 55] + [SPACE] + data) == Ok(Push(7, data))
  {
    assert ToLowerAscii(PUSH) == PUSH;
    assert AllDigits([48, 48, 55]) && DigitsValue([48, 48, 55]) == 7 by {
      var s: seq<u8> := [48, 48, 55];
      assert s[..2] == [48, 48] && s[..2][..1] == [48] && s[..2][..1][..0] == [];
      assert DigitsValue([48]) == 0 && DigitsValue([48, 48]) == 0;
    }
    PushNumber(PUSH, [48, 48, 55], data);
  }

  /** Two instances: a doubled space leaves an empty priority token, and
      65536 does not fit a `u16`. */
  lemma PushPriorityMustBeU16(data: seq<u8>)
    ensures ParseLine(PUSH + [SPACE] + [SPACE] + data) == Err(UnrecognizedPush)
    ensures ParseLine(PUSH + [SPACE] + Decimal(U16_LIMIT) + [SPACE] + data) == Err(UnrecognizedPush)
  {
    assert ToLowerAscii(PUSH) == PUSH;
    assert PUSH + [SPACE] + [SPACE] + data == PUSH + [SPACE] + [] + [SPACE] + data;
    PushBadPriorityRejected(PUSH, [], data);
    DecimalParses(U16_LIMIT, U16_LIMIT);
    PushBadPriorityRejected(PUSH, Decimal(U16_LIMIT), data);
  }

  /** A pop never fails: no count means 1, a count that is not a number
      means 1, a number (0 included) is taken as it is, and anything after
      the count is ignored. */
  lemma PopNumber(keyword: seq<u8>, rest: seq<u8>)
    requires ToLowerAscii(keyword) == POP && SPACE !in keyword
    ensures ParseLine(keyword) == Ok(Pop(1))
    ensures ParseLine(keyword + [SPACE] + rest)
         == Ok(Pop(match ParseUnsigned(rest[..IndexOfSpace(rest)], USIZE_LIMIT)
                   case Some(n) => n
                   case None => 1))
  {
    SplitNWithoutSpace(keyword, 3);
    SplitNAtSpace(keyword, rest, 3);
    FirstToken(rest, 2);
  }
}
