/** Day 13: distress-signal packets (nested lists of integers), their parser
    and their ordering, and the two puzzle answers built on them. */
module Day13 {
  import opened Wrappers
  import opened Text

  /** A packet: an unsigned integer or a list of packets. */
  datatype Packet = Number(n: nat) | List(items: seq<Packet>)

  /** The only error this model keeps: a packet that does not parse
      (`InputInvalid`; nom's message text is not modelled). */
  datatype ThirteenthError = InputInvalid

  /** Every number of the packet fits a `u32`. */
  predicate Valid(p: Packet)
    decreases p
  {
    match p
    case Number(n) => n <= U32_MAX
    case List(xs) => AllValid(xs)
  }

  predicate AllValid(xs: seq<Packet>)
    decreases xs
  {
    forall i | 0 <= i < |xs| :: Valid(xs[i])
  }

  /** The divider packet `[[x]]`. */
  function Divider(x: nat): Packet
  {
    List([List([Number(x)])])
  }

  // ---------------------------------------------------------------------------
  // The nom parser: parse_packet = alt((parse_number, parse_list)),
  // parse_list = delimited("[", separated_list0(",", parse_packet), "]").
  // Every failure is a recoverable nom error, so `alt` and `separated_list0`
  // fall back; None is that error.
  // ---------------------------------------------------------------------------

  function ParsePacket(s: String): (r: Option<Parsed<Packet>>)
    ensures r.Some? ==> |r.value.rest| < |s| && Valid(r.value.value)
    decreases |s|, 1
  {
    match NomU32(s)
    case Some(n) => Some(Parsed(Number(n.value), n.rest))
    case None => ParseList(s)
  }

  function ParseList(s: String): (r: Option<Parsed<Packet>>)
    ensures r.Some? ==> |r.value.rest| < |s| && Valid(r.value.value)
    ensures r.Some? ==> s[0] == '['
    decreases |s|, 0
  {
    if s == [] || s[0] != '[' then None
    else
      var items := Elements(s[1..]);
      var t := items.rest;
      if t == [] || t[0] != ']' then None
      else Some(Parsed(List(items.value), t[1..]))
  }

  /** `separated_list0`'s first element: none at all is an empty list. */
  function Elements(s: String): (r: Parsed<seq<Packet>>)
    ensures |r.rest| <= |s| && AllValid(r.value)
    decreases |s|, 2
  {
    match ParsePacket(s)
    case None => Parsed([], s)
    case Some(first) =>
      var more := MoreElements(first.rest);
      Parsed([first.value] + more.value, more.rest)
  }

  /** `separated_list0`'s loop: a ',' and an element, as often as both parse;
      when the element after a ',' fails, the ',' is left unconsumed. */
  function MoreElements(s: String): (r: Parsed<seq<Packet>>)
    ensures |r.rest| <= |s| && AllValid(r.value)
    decreases |s|, 2
  {
    if s == [] || s[0] != ',' then Parsed([], s)
    else
      match ParsePacket(s[1..])
      case None => Parsed([], s)
      case Some(next) =>
        var more := MoreElements(next.rest);
        Parsed([next.value] + more.value, more.rest)
  }

  /** `Packet::from_str`: `finish()` does not ask for the whole input, so text
      after a packet is ignored. */
  function FromStr(s: String): (r: Result<Packet, ThirteenthError>)
    ensures r.Ok? <==> ParsePacket(s).Some?
    ensures r.Ok? ==> Valid(r.value) && r.value == ParsePacket(s).value.value
  {
    match ParsePacket(s)
    case None => Err(InputInvalid)
    case Some(p) => Ok(p.value)
  }

  // ---------------------------------------------------------------------------
  // The input format: a packet written with ',' between items and no spaces.
  // ---------------------------------------------------------------------------

  function Encode(p: Packet): String
    decreases p
  {
    match p
    case Number(n) => NatToDec(n)
    case List(xs) => "[" + (EncodeItems(xs) + "]")
  }

  function EncodeItems(xs: seq<Packet>): String
    decreases xs, 1
  {
    if xs == [] then "" else Encode(xs[0]) + EncodeMore(xs[1..])
  }

  function EncodeMore(xs: seq<Packet>): String
    decreases xs, 0
  {
    if xs == [] then "" else "," + (Encode(xs[0]) + EncodeMore(xs[1..]))
  }

  /** Text that cannot continue a number. */
  predicate Stops(rest: String)
  {
    rest == [] || !IsDigit(rest[0])
  }

  /** An encoded packet parses back, whatever follows that cannot continue
      it. */
  lemma {:induction false} ParseEncode(p: Packet, rest: String)
    requires Valid(p) && Stops(rest)
    ensures ParsePacket(Encode(p) + rest) == Some(Parsed(p, rest))
    decreases p, 1
  {
    match p
    case Number(n) =>
      NomUnsignedOfNumeral(n, U32_MAX, rest);
    case List(xs) =>
      var s := Encode(p) + rest;
      Assoc("[", EncodeItems(xs) + "]", rest);
      Assoc(EncodeItems(xs), "]", rest);
      assert s[1..] == EncodeItems(xs) + ("]" + rest);
      ElementsEncode(xs, "]" + rest);
      assert ParseList(s) == Some(Parsed(p, rest));
  }

  lemma {:induction false} ElementsEncode(xs: seq<Packet>, rest: String)
    requires AllValid(xs) && rest != [] && rest[0] == ']'
    ensures Elements(EncodeItems(xs) + rest) == Parsed(xs, rest)
    decreases xs, 0
  {
    if xs == [] {
      assert EncodeItems(xs) + rest == rest;
      assert NomU32(rest).None?;
    } else {
      Assoc(Encode(xs[0]), EncodeMore(xs[1..]), rest);
      var after := EncodeMore(xs[1..]) + rest;
      assert Stops(after);
      assert Valid(xs[0]);
      ParseEncode(xs[0], after);
      MoreEncode(xs[1..], rest);
      assert xs == [xs[0]] + xs[1..];
    }
  }

  lemma {:induction false} MoreEncode(xs: seq<Packet>, rest: String)
    requires AllValid(xs) && rest != [] && rest[0] == ']'
    ensures MoreElements(EncodeMore(xs) + rest) == Parsed(xs, rest)
    decreases xs, 0
  {
    if xs == [] {
      assert EncodeMore(xs) + rest == rest;
    } else {
      assert xs == [xs[0]] + xs[1..];
      var after := EncodeMore(xs[1..]) + rest;
      var t := Encode(xs[0]) + after;
      assert EncodeMore(xs) + rest == "," + t by {
        Assoc(",", Encode(xs[0]) + EncodeMore(xs[1..]), rest);
        Assoc(Encode(xs[0]), EncodeMore(xs[1..]), rest);
      }
      assert ParsePacket(t) == Some(Parsed(xs[0], after)) by {
        assert Stops(after);
        assert Valid(xs[0]);
        ParseEncode(xs[0], after);
      }
      MoreEncode(xs[1..], rest);
      MoreElementsStep(t, Parsed(xs[0], after));
    }
  }

  lemma MoreElementsStep(t: String, next: Parsed<Packet>)
    requires ParsePacket(t) == Some(next)
    ensures MoreElements("," + t) == Parsed([next.value] + MoreElements(next.rest).value, MoreElements(next.rest).rest)
  {
    Unprefix(',', t);
  }

  lemma Unprefix(c: char, t: String)
    ensures ([c] + t)[0] == c && ([c] + t)[1..] == t
  {
  }

  /** The puzzle text of a packet is read as that packet. */
  lemma FromStrEncode(p: Packet)
    requires Valid(p)
    ensures FromStr(Encode(p)) == Ok(p)
  {
    ParseEncode(p, "");
    assert Encode(p) + "" == Encode(p);
  }

  // ---------------------------------------------------------------------------
  // Ordering: numbers by value, lists lexicographically, and a number against
  // a list as the one-element list holding it.
  // ---------------------------------------------------------------------------

  function Flip(o: Ordering): Ordering
  {
    match o
    case Less => Greater
    case Equal => Equal
    case Greater => Less
  }

  function CmpNat(a: nat, b: nat): (o: Ordering)
    ensures o == Less <==> a < b
    ensures o == Equal <==> a == b
  {
    if a < b then Less else if a == b then Equal else Greater
  }

  function Size(p: Packet): (n: nat)
    ensures 1 <= n
    decreases p
  {
    match p
    case Number(_) => 1
    case List(xs) => 1 + SizeItems(xs)
  }

  function SizeItems(xs: seq<Packet>): nat
    decreases xs
  {
    if xs == [] then 0 else Size(xs[0]) + SizeItems(xs[1..])
  }

  lemma SizeOfSingleton(p: Packet)
    ensures SizeItems([p]) == Size(p)
  {
    assert [p][1..] == [];
  }

  /** `Ord for Packet`. */
  function Cmp(a: Packet, b: Packet): Ordering
    decreases Size(a) + Size(b), 1
  {
    match (a, b)
    case (Number(x), Number(y)) => CmpNat(x, y)
    case (List(xs), List(ys)) => CmpList(xs, ys)
    case (Number(x), List(ys)) =>
      SizeOfSingleton(a);
      CmpList([Number(x)], ys)
    case (List(xs), Number(y)) =>
      SizeOfSingleton(b);
      CmpList(xs, [Number(y)])
  }

  /** `Ord for Vec<Packet>`: the first unequal pair decides, else the lengths. */
  function CmpList(xs: seq<Packet>, ys: seq<Packet>): Ordering
    decreases SizeItems(xs) + SizeItems(ys), 2
  {
    if xs == [] && ys == [] then Equal
    else if xs == [] then Less
    else if ys == [] then Greater
    else
      match Cmp(xs[0], ys[0])
      case Equal => CmpList(xs[1..], ys[1..])
      case o => o
  }

  /** Every packet compares Equal to itself. */
  lemma {:induction false} CmpRefl(a: Packet)
    ensures Cmp(a, a) == Equal
    decreases a, 1
  {
    if a.List? {
      CmpListRefl(a.items);
    }
  }

  lemma {:induction false} CmpListRefl(xs: seq<Packet>)
    ensures CmpList(xs, xs) == Equal
    decreases xs, 0
  {
    if xs != [] {
      CmpRefl(xs[0]);
      CmpListRefl(xs[1..]);
    }
  }

  /** Swapping the operands flips the outcome. */
  lemma {:induction false} CmpFlip(a: Packet, b: Packet)
    ensures Cmp(b, a) == Flip(Cmp(a, b))
    decreases Size(a) + Size(b), 1
  {
    match (a, b)
    case (Number(x), Number(y)) =>
    case (List(xs), List(ys)) => CmpListFlip(xs, ys);
    case (Number(x), List(ys)) =>
      SizeOfSingleton(a);
      CmpListFlip([Number(x)], ys);
    case (List(xs), Number(y)) =>
      SizeOfSingleton(b);
      CmpListFlip(xs, [Number(y)]);
  }

  lemma {:induction false} CmpListFlip(xs: seq<Packet>, ys: seq<Packet>)
    ensures CmpList(ys, xs) == Flip(CmpList(xs, ys))
    decreases SizeItems(xs) + SizeItems(ys), 2
  {
    if xs != [] && ys != [] {
      CmpFlip(xs[0], ys[0]);
      if Cmp(xs[0], ys[0]) == Equal {
        CmpListFlip(xs[1..], ys[1..]);
      }
    }
  }

  /** A number compares with anything exactly as the one-element list that
      holds it does, on either side. */
  lemma NumberAsList(x: nat, b: Packet)
    ensures Cmp(Number(x), b) == Cmp(List([Number(x)]), b)
    ensures Cmp(b, Number(x)) == Cmp(b, List([Number(x)]))
  {
    if b.Number? {
      assert [Number(x)][1..] == [];
      assert [b][1..] == [];
      assert CmpList([Number(x)], [b]) == Cmp(Number(x), b);
      assert CmpList([b], [Number(x)]) == Cmp(b, Number(x));
    }
  }

  /** Ordering is not equality: a number and the list holding only it compare
      Equal, but `PartialEq` tells them apart. */
  lemma EqualIsNotEquality(x: nat)
    ensures Cmp(Number(x), List([Number(x)])) == Equal
    ensures Number(x) != List([Number(x)])
  {
    NumberAsList(x, List([Number(x)]));
    CmpRefl(List([Number(x)]));
  }

  /** A proper prefix is Less than the longer list. */
  lemma {:induction false} PrefixIsLess(xs: seq<Packet>, ys: seq<Packet>)
    requires ys != []
    ensures CmpList(xs, xs + ys) == Less
    decreases |xs|
  {
    if xs != [] {
      CmpRefl(xs[0]);
      assert (xs + ys)[1..] == xs[1..] + ys;
      PrefixIsLess(xs[1..], ys);
    }
  }

  /** Lexicographic order stated by positions: the first pair that is not
      Equal decides, and when there is none the shorter list is Less. */
  lemma {:induction false} CmpListDecidedAt(xs: seq<Packet>, ys: seq<Packet>, k: nat)
    requires k <= |xs| && k <= |ys|
    requires forall i | 0 <= i < k :: Cmp(xs[i], ys[i]) == Equal
    ensures k < |xs| && k < |ys| && Cmp(xs[k], ys[k]) != Equal ==> CmpList(xs, ys) == Cmp(xs[k], ys[k])
    ensures k == |xs| || k == |ys| ==> CmpList(xs, ys) == CmpNat(|xs|, |ys|)
    decreases k
  {
    if k > 0 {
      assert Cmp(xs[0], ys[0]) == Equal;
      CmpListDecidedAt(xs[1..], ys[1..], k - 1);
    }
  }

  // ---------------------------------------------------------------------------
  // Part one: the sum of the 1-based indices of the pairs in the right order.
  // ---------------------------------------------------------------------------

  /** The pairs of texts: the blank-line separated groups that hold a '\n',
      split at their first one (groups without one are dropped by the
      `flat_map` over `split_once`). */
  function TextPairs(groups: seq<String>): (r: seq<(String, String)>)
    ensures |r| <= |groups|
  {
    if groups == [] then []
    else
      var rest := TextPairs(groups[1..]);
      match SplitOnce(groups[0], "\n")
      case None => rest
      case Some(pair) => [pair] + rest
  }

  /** Both packets of every pair parsed, or the error. */
  function ParsePairs(texts: seq<(String, String)>): (r: Result<seq<(Packet, Packet)>, ThirteenthError>)
    ensures r.Ok? <==> forall i | 0 <= i < |texts| :: FromStr(texts[i].0).Ok? && FromStr(texts[i].1).Ok?
    ensures r.Ok? ==> |r.value| == |texts|
    ensures r.Ok? ==> forall i | 0 <= i < |texts| ::
      r.value[i] == (FromStr(texts[i].0).value, FromStr(texts[i].1).value)
  {
    if texts == [] then Ok([])
    else
      var a :- FromStr(texts[0].0);
      var b :- FromStr(texts[0].1);
      var rest :- ParsePairs(texts[1..]);
      Ok([(a, b)] + rest)
  }

  /** The sum of the 1-based indices of the pairs whose left packet is Less. */
  function IndexSum(pairs: seq<(Packet, Packet)>): nat
  {
    if pairs == [] then 0
    else
      var n := |pairs|;
      IndexSum(pairs[..n - 1]) + (if Cmp(pairs[n - 1].0, pairs[n - 1].1) == Less then n else 0)
  }

  predicate InOrder(pair: (Packet, Packet))
  {
    Cmp(pair.0, pair.1) == Less
  }

  /** The index sum reaches its largest value, 1 + 2 + ... + n, exactly when
      every pair is in order. */
  lemma {:induction false} IndexSumBound(pairs: seq<(Packet, Packet)>)
    ensures 2 * IndexSum(pairs) <= |pairs| * (|pairs| + 1)
    ensures 2 * IndexSum(pairs) == |pairs| * (|pairs| + 1) <==> forall i | 0 <= i < |pairs| :: InOrder(pairs[i])
  {
    if pairs != [] {
      var n := |pairs|;
      var front := pairs[..n - 1];
      IndexSumBound(front);
      assert n * (n + 1) == (n - 1) * n + 2 * n;
      if forall i | 0 <= i < n :: InOrder(pairs[i]) {
        assert forall i | 0 <= i < n - 1 :: InOrder(front[i]) by {
          forall i | 0 <= i < n - 1 ensures InOrder(front[i]) { assert front[i] == pairs[i]; }
        }
      } else if forall i | 0 <= i < n - 1 :: InOrder(front[i]) {
        assert !InOrder(pairs[n - 1]) by {
          forall i | 0 <= i < n - 1 ensures InOrder(pairs[i]) { assert front[i] == pairs[i]; }
        }
      }
    }
  }

  /** `sum_of_right_ordered_packet_indices`. */
  function SumOfRightOrderedPacketIndices(content: String): (r: Result<nat, ThirteenthError>)
    ensures r.Ok? <==> ParsePairs(TextPairs(SplitTerminator(content, "\n\n"))).Ok?
    ensures r.Ok? ==> r.value == IndexSum(ParsePairs(TextPairs(SplitTerminator(content, "\n\n"))).value)
  {
    var pairs :- ParsePairs(TextPairs(SplitTerminator(content, "\n\n")));
    Ok(IndexSum(pairs))
  }

  // ---------------------------------------------------------------------------
  // Part two: the 1-based positions of the dividers among all packets sorted.
  // ---------------------------------------------------------------------------

  /** Each packet is not Greater than the next one. */
  predicate Sorted(ps: seq<Packet>)
  {
    forall i | 0 < i < |ps| :: Cmp(ps[i - 1], ps[i]) != Greater
  }

  /** Insertion of `p` after every element at the end that is not Greater,
      keeping equal packets in their original order as the stable `sort` does. */
  function Insert(sorted: seq<Packet>, p: Packet): (r: seq<Packet>)
    requires Sorted(sorted)
    ensures Sorted(r) && multiset(r) == multiset(sorted) + multiset{p}
    ensures |r| == |sorted| + 1
    ensures r[|r| - 1] == p || (sorted != [] && r[|r| - 1] == sorted[|sorted| - 1])
  {
    if sorted == [] then [p]
    else
      var n := |sorted|;
      var last := sorted[n - 1];
      if Cmp(p, last) != Less then
        CmpFlip(p, last);
        sorted + [p]
      else
        var init := sorted[..n - 1];
        assert sorted == init + [last];
        CmpFlip(p, last);
        var front := Insert(init, p);
        SortedAppend(sorted, init, last, p, front);
        front + [last]
  }

  /** Putting `last` back after the insertion into the rest keeps the order:
      what ends the insertion is `p` or the end of the rest, and neither
      comes after `last`. */
  lemma SortedAppend(sorted: seq<Packet>, init: seq<Packet>, last: Packet, p: Packet, front: seq<Packet>)
    requires Sorted(sorted) && sorted == init + [last]
    requires Cmp(last, p) == Greater
    requires Sorted(front) && |front| == |init| + 1
    requires front[|front| - 1] == p || (init != [] && front[|front| - 1] == init[|init| - 1])
    ensures Sorted(front + [last])
  {
    var r := front + [last];
    forall i | 0 < i < |r|
      ensures Cmp(r[i - 1], r[i]) != Greater
    {
      if i == |r| - 1 {
        if front[|front| - 1] == p {
          CmpFlip(p, last);
        } else {
          assert Cmp(sorted[|init| - 1], sorted[|init|]) != Greater;
        }
      } else {
        assert r[i - 1] == front[i - 1] && r[i] == front[i];
      }
    }
  }

  /** `sort()`: a stable sort by `Cmp`. */
  function Sort(ps: seq<Packet>): (r: seq<Packet>)
    ensures Sorted(r) && multiset(r) == multiset(ps) && |r| == |ps|
  {
    if ps == [] then []
    else
      var n := |ps|;
      assert ps == ps[..n - 1] + [ps[n - 1]];
      Insert(Sort(ps[..n - 1]), ps[n - 1])
  }

  /** `dividers.contains(packet)`, by structural equality. */
  predicate IsDivider(p: Packet, dividers: seq<Packet>)
  {
    p in dividers
  }

  /** The 1-based positions, in increasing order, of the packets that are one
      of the dividers. */
  function DividerPositions(sorted: seq<Packet>, dividers: seq<Packet>, from: nat): (r: seq<nat>)
    requires from <= |sorted|
    ensures forall k | 0 <= k < |r| :: from < r[k] <= |sorted| && IsDivider(sorted[r[k] - 1], dividers)
    ensures forall k | 0 < k < |r| :: r[k - 1] < r[k]
    decreases |sorted| - from
  {
    if from == |sorted| then []
    else
      var rest := DividerPositions(sorted, dividers, from + 1);
      if IsDivider(sorted[from], dividers) then
        var r := [from + 1] + rest;
        assert forall k | 0 < k < |r| :: r[k] == rest[k - 1];
        r
      else rest
  }

  /** Every divider position from `from` on is listed. */
  lemma {:induction false} DividerPositionsComplete(sorted: seq<Packet>, dividers: seq<Packet>, from: nat, j: nat)
    requires from <= j < |sorted| && IsDivider(sorted[j], dividers)
    ensures j + 1 in DividerPositions(sorted, dividers, from)
    decreases |sorted| - from
  {
    if from < j {
      DividerPositionsComplete(sorted, dividers, from + 1, j);
    }
  }

  /** The non-empty lines, parsed, or the error. */
  function ParseLines(lines: seq<String>): (r: Result<seq<Packet>, ThirteenthError>)
    ensures r.Ok? <==> forall i | 0 <= i < |lines| :: lines[i] != [] ==> FromStr(lines[i]).Ok?
  {
    if lines == [] then Ok([])
    else if lines[0] == [] then ParseLines(lines[1..])
    else
      var p :- FromStr(lines[0]);
      var rest :- ParseLines(lines[1..]);
      Ok([p] + rest)
  }

  /** `divider_packet_indices`. */
  function DividerPacketIndices(content: String, dividers: seq<Packet>): (r: Result<seq<nat>, ThirteenthError>)
    ensures r.Ok? <==> ParseLines(Lines(content)).Ok?
  {
    var packets :- ParseLines(Lines(content));
    Ok(DividerPositions(Sort(packets + dividers), dividers, 0))
  }

  /** Every divider is found: some returned position holds it. */
  lemma DividersFound(content: String, dividers: seq<Packet>, d: Packet)
    requires ParseLines(Lines(content)).Ok? && d in dividers
    ensures var r := DividerPacketIndices(content, dividers).value;
      var sorted := Sort(ParseLines(Lines(content)).value + dividers);
      exists k | 0 <= k < |r| :: sorted[r[k] - 1] == d
  {
    var packets := ParseLines(Lines(content)).value;
    var sorted := Sort(packets + dividers);
    assert DividerPacketIndices(content, dividers) == Ok(DividerPositions(sorted, dividers, 0));
    var j := InSorted(packets + dividers, d);
    DividerListed(sorted, dividers, d, j);
  }

  /** A divider at index `j` of the sorted packets is at a listed position. */
  lemma DividerListed(sorted: seq<Packet>, dividers: seq<Packet>, d: Packet, j: nat)
    requires j < |sorted| && sorted[j] == d && d in dividers
    ensures var r := DividerPositions(sorted, dividers, 0);
      exists k | 0 <= k < |r| :: sorted[r[k] - 1] == d
  {
    var r := DividerPositions(sorted, dividers, 0);
    DividerPositionsComplete(sorted, dividers, 0, j);
    var k :| 0 <= k < |r| && r[k] == j + 1;
    assert sorted[r[k] - 1] == d;
  }

  /** A packet of the input has a position in the sorted packets. */
  lemma InSorted(ps: seq<Packet>, d: Packet) returns (j: nat)
    requires d in ps
    ensures j < |Sort(ps)| && Sort(ps)[j] == d
  {
    assert d in multiset(ps);
    assert d in multiset(Sort(ps));
    j :| 0 <= j < |Sort(ps)| && Sort(ps)[j] == d;
  }

  // ---------------------------------------------------------------------------
  // The parser and comparison examples.
  // ---------------------------------------------------------------------------

  function Numbers(ns: seq<nat>): (r: seq<Packet>)
    ensures |r| == |ns| && forall i | 0 <= i < |ns| :: r[i] == Number(ns[i])
  {
    if ns == [] then [] else [Number(ns[0])] + Numbers(ns[1..])
  }

  lemma Numerals()
    ensures NatToDec(1) == "1" && NatToDec(42) == "42" && NatToDec(43) == "43"
    ensures NatToDec(10) == "10" && NatToDec(100) == "100"
  {
    assert NatToDec(4) == "4";
    assert NatToDec(42) == NatToDec(4) + "2";
    assert NatToDec(43) == NatToDec(4) + "3";
    assert NatToDec(10) == NatToDec(1) + "0";
    assert NatToDec(100) == NatToDec(10) + "0";
  }

  lemma ParseNumberExample(s: String)
    requires s == "42"
    ensures FromStr(s) == Ok(Number(42))
  {
    Numerals();
    FromStrEncode(Number(42));
  }

  lemma ParseListExamples()
    ensures FromStr("[]") == Ok(List([]))
    ensures FromStr("[42]") == Ok(List([Number(42)]))
  {
    Numerals();
    FromStrEncode(List([]));
    assert EncodeItems([Number(42)]) == "42";
    assert Encode(List([Number(42)])) == "[42]";
    FromStrEncode(List([Number(42)]));
  }

  lemma ParseTwoExample(s: String)
    requires s == "[42,43]"
    ensures FromStr(s) == Ok(List([Number(42), Number(43)]))
  {
    Numerals();
    var xs := [Number(42), Number(43)];
    assert EncodeItems(xs) == "42,43" by {
      assert xs[1..] == [Number(43)];
      assert EncodeMore(xs[1..]) == ",43";
    }
    assert Encode(List(xs)) == s;
    FromStrEncode(List(xs));
  }

  lemma InnerText(items: seq<Packet>, s: String)
    requires items == [Number(1), Number(10), Number(100)] && s == "[1,10,100]"
    ensures Encode(List(items)) == s
  {
    Numerals();
    var tail := items[1..];
    var last := tail[1..];
    assert tail == [Number(10), Number(100)] && last == [Number(100)] && last[1..] == [];
    assert Encode(last[0]) == "100" && Encode(tail[0]) == "10" && Encode(items[0]) == "1";
    assert EncodeMore(last[1..]) == "";
    var more := EncodeMore(last);
    assert more == "," + (Encode(last[0]) + EncodeMore(last[1..]));
    var more' := EncodeMore(tail);
    assert more' == "," + (Encode(tail[0]) + more);
    assert EncodeItems(items) == Encode(items[0]) + more';
  }

  lemma NestedText(xs: seq<Packet>, s: String)
    requires xs == [Number(42), List([Number(1), Number(10), Number(100)])]
    requires s == "[42,[1,10,100]]"
    ensures Encode(List(xs)) == s
  {
    Numerals();
    InnerText(xs[1].items, "[1,10,100]");
    assert xs[1..] == [xs[1]];
    assert EncodeMore(xs[1..]) == ",[1,10,100]";
    assert EncodeItems(xs) == "42,[1,10,100]";
  }

  lemma ParseNestedExample(s: String)
    requires s == "[42,[1,10,100]]"
    ensures FromStr(s) == Ok(List([Number(42), List([Number(1), Number(10), Number(100)])]))
  {
    var xs := [Number(42), List([Number(1), Number(10), Number(100)])];
    NestedText(xs, s);
    assert Valid(List(xs)) by {
      assert AllValid([Number(1), Number(10), Number(100)]);
    }
    FromStrEncode(List(xs));
  }

  lemma ParseTripleExample(s: String)
    requires s == "[[[]]]"
    ensures FromStr(s) == Ok(List([List([List([])])]))
  {
    assert EncodeItems([List([])]) == "[]";
    assert EncodeItems([List([List([])])]) == "[[]]";
    assert Encode(List([List([List([])])])) == s;
    FromStrEncode(List([List([List([])])]));
  }

  /** A missing closing bracket is an error. */
  lemma MissingBracket(s: String)
    requires s == "[[]"
    ensures FromStr(s).Err?
  {
    assert s[1..] == Encode(List([])) + "";
    ParseEncode(List([]), "");
    assert Elements(s[1..]).rest == [];
    assert NomU32(s).None? && ParseList(s).None?;
  }

  /** A packet right after a number, with no ',' between, is an error. */
  lemma ExtraBracket(s: String)
    requires s == "[1[]"
    ensures FromStr(s).Err?
  {
    assert s[1..] == Encode(Number(1)) + "[]";
    ParseEncode(Number(1), "[]");
    assert Elements(s[1..]).rest == "[]";
    assert NomU32(s).None? && ParseList(s).None?;
  }

  /** Two ',' in a row are an error. */
  lemma ExtraComma(s: String)
    requires s == "[1,2,,3]"
    ensures FromStr(s).Err?
  {
    var t := ",,3]";
    assert s[1..] == Encode(Number(1)) + ("," + Encode(Number(2)) + t);
    ParseEncode(Number(1), "," + Encode(Number(2)) + t);
    assert ("," + Encode(Number(2)) + t)[1..] == Encode(Number(2)) + t;
    ParseEncode(Number(2), t);
    assert MoreElements(t) == Parsed([], t) by {
      assert t[1..] == ",3]";
    }
    assert Elements(s[1..]).rest == t;
    assert NomU32(s).None? && ParseList(s).None?;
  }

  lemma CompareExamples()
    ensures Cmp(Number(42), Number(43)) == Less
    ensures Cmp(List([]), List([])) == Equal
    ensures Cmp(List(Numbers([1, 2, 3, 4, 5])), List(Numbers([1, 2, 3, 4, 5, 6]))) == Less
    ensures Cmp(List(Numbers([1, 2, 3, 4, 5, 6])), List(Numbers([1, 2, 3, 4, 5]))) == Greater
    ensures Cmp(List(Numbers([0, 0, 0])), Number(2)) == Cmp(List(Numbers([0, 0, 0])), List([Number(2)]))
  {
    var five := Numbers([1, 2, 3, 4, 5]);
    var six := Numbers([1, 2, 3, 4, 5, 6]);
    assert six == five + [Number(6)];
    PrefixIsLess(five, [Number(6)]);
    CmpFlip(List(five), List(six));
    NumberAsList(2, List(Numbers([0, 0, 0])));
  }

  /** The eight example pairs of the puzzle, from the comparison tests. */
  function SamplePairs(): seq<(Packet, Packet)>
  {
    [ (List(Numbers([1, 1, 3, 1, 1])), List(Numbers([1, 1, 5, 1, 1]))),
      (List([List([Number(1)]), List(Numbers([2, 3, 4]))]), List([List([Number(1)]), Number(4)])),
      (List([Number(9)]), List([List(Numbers([8, 7, 6]))])),
      (List([List(Numbers([4, 4])), Number(4), Number(4)]), List([List(Numbers([4, 4])), Number(4), Number(4), Number(4)])),
      (List(Numbers([7, 7, 7, 7])), List(Numbers([7, 7, 7]))),
      (List([]), List([Number(3)])),
      (List([List([List([])])]), List([List([])])),
      (Sample8(7), Sample8(0)) ]
  }

  /** `[1,[2,[3,[4,[5,6,x]]]],8,9]`. */
  function Sample8(x: nat): Packet
  {
    List([Number(1), List([Number(2), List([Number(3), List([Number(4), List(Numbers([5, 6, x]))])])]), Number(8), Number(9)])
  }

  lemma SamplePair1()
    ensures Cmp(List(Numbers([1, 1, 3, 1, 1])), List(Numbers([1, 1, 3, 1, 1]))) == Equal
    ensures Cmp(List(Numbers([1, 1, 3, 1, 1])), List(Numbers([1, 1, 5, 1, 1]))) == Less
    ensures Cmp(List(Numbers([1, 1, 5, 1, 1])), List(Numbers([1, 1, 3, 1, 1]))) == Greater
  {
    var a, c := Numbers([1, 1, 3, 1, 1]), Numbers([1, 1, 5, 1, 1]);
    CmpRefl(List(a));
    CmpListDecidedAt(a, c, 2);
    CmpFlip(List(a), List(c));
  }

  lemma SamplePair2()
    ensures Cmp(List([List([Number(1)]), List(Numbers([2, 3, 4]))]), List([List([Number(1)]), Number(4)])) == Less
  {
    var xs := [List([Number(1)]), List(Numbers([2, 3, 4]))];
    var ys := [List([Number(1)]), Number(4)];
    CmpRefl(List([Number(1)]));
    NumberAsList(4, List(Numbers([2, 3, 4])));
    assert Cmp(xs[1], ys[1]) == Less;
    CmpListDecidedAt(xs, ys, 1);
  }

  lemma SamplePair3()
    ensures Cmp(List([Number(9)]), List([List(Numbers([8, 7, 6]))])) == Greater
  {
    NumberAsList(9, List(Numbers([8, 7, 6])));
    assert Cmp(Number(9), List(Numbers([8, 7, 6]))) == Greater;
    CmpListDecidedAt([Number(9)], [List(Numbers([8, 7, 6]))], 0);
  }

  lemma SamplePair4()
    ensures Cmp(List([List(Numbers([4, 4])), Number(4), Number(4)]), List([List(Numbers([4, 4])), Number(4), Number(4), Number(4)])) == Less
  {
    var xs := [List(Numbers([4, 4])), Number(4), Number(4)];
    assert xs + [Number(4)] == [List(Numbers([4, 4])), Number(4), Number(4), Number(4)];
    PrefixIsLess(xs, [Number(4)]);
  }

  lemma SamplePair5()
    ensures Cmp(List(Numbers([7, 7, 7, 7])), List(Numbers([7, 7, 7]))) == Greater
  {
    assert Numbers([7, 7, 7]) + [Number(7)] == Numbers([7, 7, 7, 7]);
    PrefixIsLess(Numbers([7, 7, 7]), [Number(7)]);
    CmpFlip(List(Numbers([7, 7, 7])), List(Numbers([7, 7, 7, 7])));
  }

  lemma SamplePair6And7()
    ensures Cmp(List([]), List([Number(3)])) == Less
    ensures Cmp(List([List([List([])])]), List([List([])])) == Greater
  {
    var xs, ys := [List([List([])])], [List([])];
    assert Cmp(xs[0], ys[0]) == Greater;
    CmpListDecidedAt(xs, ys, 0);
  }

  lemma SamplePair8()
    ensures Cmp(Sample8(7), Sample8(0)) == Greater
  {
    var a, b := Sample8(7), Sample8(0);
    var l7, l0 := Numbers([5, 6, 7]), Numbers([5, 6, 0]);
    CmpListDecidedAt(l7, l0, 2);
    var d4 := List([Number(4), List(l7)]);
    CmpListDecidedAt(d4.items, [Number(4), List(l0)], 1);
    var d3 := List([Number(3), d4]);
    CmpListDecidedAt(d3.items, [Number(3), List([Number(4), List(l0)])], 1);
    var d2 := List([Number(2), d3]);
    CmpListDecidedAt(d2.items, [Number(2), List([Number(3), List([Number(4), List(l0)])])], 1);
    CmpListDecidedAt(a.items, b.items, 1);
  }

  /** Appending a pair adds its 1-based index when it is in order. */
  lemma IndexSumSnoc(pairs: seq<(Packet, Packet)>, pair: (Packet, Packet))
    ensures IndexSum(pairs + [pair]) == IndexSum(pairs) + (if InOrder(pair) then |pairs| + 1 else 0)
  {
    assert (pairs + [pair])[..|pairs|] == pairs;
  }

  /** Eight pairs of which the 1st, 2nd, 4th and 6th are in order sum to 13. */
  lemma IndexSumOfEight(ps: seq<(Packet, Packet)>)
    requires |ps| == 8
    requires InOrder(ps[0]) && InOrder(ps[1]) && !InOrder(ps[2]) && InOrder(ps[3])
    requires !InOrder(ps[4]) && InOrder(ps[5]) && !InOrder(ps[6]) && !InOrder(ps[7])
    ensures IndexSum(ps) == 13
  {
    var q0: seq<(Packet, Packet)> := [];
    IndexSumSnoc(q0, ps[0]);
    var q1 := q0 + [ps[0]];
    IndexSumSnoc(q1, ps[1]);
    var q2 := q1 + [ps[1]];
    IndexSumSnoc(q2, ps[2]);
    var q3 := q2 + [ps[2]];
    IndexSumSnoc(q3, ps[3]);
    var q4 := q3 + [ps[3]];
    IndexSumSnoc(q4, ps[4]);
    var q5 := q4 + [ps[4]];
    IndexSumSnoc(q5, ps[5]);
    var q6 := q5 + [ps[5]];
    IndexSumSnoc(q6, ps[6]);
    var q7 := q6 + [ps[6]];
    IndexSumSnoc(q7, ps[7]);
    assert q7 + [ps[7]] == ps;
  }

  /** Which example pairs are in order. */
  lemma SampleOrders1To3()
    ensures InOrder(SamplePairs()[0]) && InOrder(SamplePairs()[1]) && !InOrder(SamplePairs()[2])
  {
    SamplePair1();
    SamplePair2();
    SamplePair3();
  }

  lemma SampleOrders4To5()
    ensures InOrder(SamplePairs()[3]) && !InOrder(SamplePairs()[4])
  {
    SamplePair4();
    SamplePair5();
  }

  lemma SampleOrders6To8()
    ensures InOrder(SamplePairs()[5]) && !InOrder(SamplePairs()[6]) && !InOrder(SamplePairs()[7])
  {
    SamplePair6And7();
    SamplePair8();
  }

  /** On the example pairs the sum of the indices in order is 13. */
  lemma SampleIndexSum()
    ensures IndexSum(SamplePairs()) == 13
  {
    SampleOrders1To3();
    SampleOrders4To5();
    SampleOrders6To8();
    IndexSumOfEight(SamplePairs());
  }
}
