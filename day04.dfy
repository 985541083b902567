/** Day 4: camp cleanup. Each line holds two section assignments "a-b,c-d";
    a pair counts when one assignment contains the other. */
module Day04 {
  import opened Wrappers
  import opened Text

  /** `RangeInclusive<u32>`: `start..=end`, empty when start > end. */
  datatype Range = Range(start: nat, end: nat)

  /** `HashSet::from_iter(start..=end)`. */
  function Sections(r: Range): (s: set<nat>)
    ensures forall x :: x in s <==> r.start <= x <= r.end
    decreases r.end + 1 - r.start
  {
    if r.start > r.end then {} else {r.start} + Sections(Range(r.start + 1, r.end))
  }

  /** `range`: nom `u32`, '-', nom `u32`; what follows is left unconsumed. */
  function ParseRange(s: String): (r: Option<Parsed<Range>>)
    ensures r.Some? ==> r.value.value.start <= U32_MAX && r.value.value.end <= U32_MAX
    ensures r.Some? ==> |r.value.rest| < |s|
  {
    var a :- NomU32(s);
    var dash :- StripPrefix(a.rest, "-");
    var b :- NomU32(dash);
    Some(Parsed(Range(a.value, b.value), b.rest))
  }

  /** `pair`: range ',' range. */
  function ParsePair(s: String): (r: Option<Parsed<(Range, Range)>>)
  {
    var a :- ParseRange(s);
    var comma :- StripPrefix(a.rest, ",");
    var b :- ParseRange(comma);
    Some(Parsed((a.value, b.value), b.rest))
  }

  function ShowRange(r: Range): String
  {
    NatToDec(r.start) + "-" + NatToDec(r.end)
  }

  /** A pair written "a-b,c-d" parses back, whatever non-digit text follows. */
  lemma ParsePairOfShown(a: Range, b: Range, rest: String)
    requires a.start <= U32_MAX && a.end <= U32_MAX && b.start <= U32_MAX && b.end <= U32_MAX
    requires rest == [] || !IsDigit(rest[0])
    ensures ParsePair(ShowRange(a) + "," + ShowRange(b) + rest) == Some(Parsed((a, b), rest))
  {
    var afterComma := ShowRange(b) + rest;
    var afterA := "," + afterComma;
    assert ShowRange(a) + "," + ShowRange(b) + rest == ShowRange(a) + afterA;
    assert afterA[0] == ',';
    ParseRangeOfShown(a, afterA);
    StripPrefixOfConcat(",", afterComma);
    ParseRangeOfShown(b, rest);
  }

  lemma ParseRangeOfShown(r: Range, rest: String)
    requires r.start <= U32_MAX && r.end <= U32_MAX
    requires rest == [] || !IsDigit(rest[0])
    ensures ParseRange(ShowRange(r) + rest) == Some(Parsed(r, rest))
  {
    var afterDash := NatToDec(r.end) + rest;
    var afterStart := "-" + afterDash;
    assert ShowRange(r) + rest == NatToDec(r.start) + afterStart;
    assert afterStart[0] == '-';
    NomUnsignedOfNumeral(r.start, U32_MAX, afterStart);
    StripPrefixOfConcat("-", afterDash);
    NomUnsignedOfNumeral(r.end, U32_MAX, rest);
  }

  /** `a.is_subset(&b) || b.is_subset(&a)` on the section sets. */
  predicate FullyOverlapping(a: Range, b: Range)
  {
    Sections(a) <= Sections(b) || Sections(b) <= Sections(a)
  }

  /** Containment of section sets read on the bounds: an empty range is in
      every range, otherwise the bounds must nest. */
  lemma SubsetIffNested(a: Range, b: Range)
    ensures Sections(a) <= Sections(b) <==> Nested(a, b)
  {
    if a.start <= a.end && Sections(a) <= Sections(b) {
      assert a.start in Sections(a);
      assert a.end in Sections(a);
    }
  }

  /** The parsed pairs of the lines; lines that do not parse are skipped. */
  function Pairs(lines: seq<String>): (r: seq<(Range, Range)>)
    ensures |r| <= |lines|
  {
    if lines == [] then []
    else
      match ParsePair(lines[0])
      case Some(p) => [p.value] + Pairs(lines[1..])
      case None => Pairs(lines[1..])
  }

  function CountOverlapping(pairs: seq<(Range, Range)>): (n: nat)
    ensures n <= |pairs|
  {
    if pairs == [] then 0
    else (if FullyOverlapping(pairs[0].0, pairs[0].1) then 1 else 0) + CountOverlapping(pairs[1..])
  }

  /** `amount_of_fully_overlapping_search_assigments`. */
  function AmountOfFullyOverlappingSearchAssignments(input: String): (n: nat)
    ensures n <= |Lines(input)|
  {
    CountOverlapping(Pairs(Lines(input)))
  }

  predicate Nested(a: Range, b: Range)
  {
    a.start > a.end || (b.start <= a.start && a.end <= b.end)
  }

  /** The count read on the bounds alone: pairs where one range is empty or
      nests inside the other. */
  lemma {:induction false} CountByBounds(pairs: seq<(Range, Range)>)
    ensures CountOverlapping(pairs) == CountNested(pairs)
  {
    if pairs != [] {
      SubsetIffNested(pairs[0].0, pairs[0].1);
      SubsetIffNested(pairs[0].1, pairs[0].0);
      CountByBounds(pairs[1..]);
    }
  }

  function CountNested(pairs: seq<(Range, Range)>): nat
  {
    if pairs == [] then 0
    else (if Nested(pairs[0].0, pairs[0].1) || Nested(pairs[0].1, pairs[0].0) then 1 else 0) + CountNested(pairs[1..])
  }
}
