/** Day 3: rucksack priorities. Each line is a rucksack; its two halves are
    the compartments and the priority of an item in both is summed. */
module Day03 {
  import opened Wrappers
  import opened Text

  /** `prio`: 'a'..'z' are 1..26, 'A'..'Z' are 27..52, everything else 0. */
  function Prio(c: char): (p: nat)
    ensures p <= 52
    ensures 1 <= p <= 26 <==> 'a' <= c <= 'z'
    ensures 27 <= p <= 52 <==> 'A' <= c <= 'Z'
    ensures p == 0 <==> !IsAsciiAlpha(c)
  {
    if 'A' <= c <= 'Z' then c as int - 'A' as int + 27
    else if 'a' <= c <= 'z' then c as int - 'a' as int + 1
    else 0
  }

  /** Letters have distinct priorities. */
  lemma PrioInjective(a: char, b: char)
    requires Prio(a) == Prio(b) && Prio(a) > 0
    ensures a == b
  {
  }

  function Prios(line: String): (ps: seq<nat>)
    ensures |ps| == |line|
    ensures forall i | 0 <= i < |line| :: ps[i] == Prio(line[i])
  {
    seq(|line|, i requires 0 <= i < |line| => Prio(line[i]))
  }

  /** `slice::chunks(size)`: consecutive pieces of `size` elements, the last
      one possibly shorter. */
  function Chunks(xs: seq<nat>, size: nat): (r: seq<seq<nat>>)
    requires size > 0
    ensures xs != [] ==> r != [] && r[0] == xs[..if |xs| <= size then |xs| else size]
    decreases |xs|
  {
    if xs == [] then []
    else if |xs| <= size then [xs]
    else [xs[..size]] + Chunks(xs[size..], size)
  }

  /** Halving a rucksack gives exactly two compartments iff its length is even. */
  lemma HalvesAreTwoChunks(xs: seq<nat>)
    requires |xs| >= 2
    ensures |Chunks(xs, |xs| / 2)| == 2 <==> |xs| % 2 == 0
    ensures |xs| % 2 == 0 ==> Chunks(xs, |xs| / 2) == [xs[..|xs| / 2], xs[|xs| / 2..]]
  {
    var n := |xs| / 2;
    var tail := xs[n..];
    if |xs| % 2 == 0 {
      assert Chunks(tail, n) == [tail];
    } else {
      assert |tail| == n + 1;
      assert Chunks(tail[n..], n) == [tail[n..]];
      assert |Chunks(tail, n)| == 2;
    }
  }

  function Elements(xs: seq<nat>): set<nat>
  {
    set i | 0 <= i < |xs| :: xs[i]
  }

  /** The smallest priority in both compartments, looking from `p` upwards.
      The source takes whichever element its hash set yields first. */
  function FirstShared(a: set<nat>, b: set<nat>, p: nat): (r: Option<nat>)
    requires p <= 53
    ensures r.Some? ==> r.value in a && r.value in b && p <= r.value <= 52
    ensures r.Some? ==> forall q | p <= q < r.value :: !(q in a && q in b)
    ensures r.None? ==> forall q | p <= q <= 52 :: !(q in a && q in b)
    decreases 53 - p
  {
    if p > 52 then None
    else if p in a && p in b then Some(p)
    else FirstShared(a, b, p + 1)
  }

  /** The priority a rucksack contributes: None when the halves do not come
      out as exactly two chunks or share nothing. The source panics on a line
      shorter than two characters (`chunks(0)`). */
  function DuplicatePriority(line: String): (r: Option<nat>)
    requires |line| >= 2
    ensures r.Some? ==> |line| % 2 == 0 && r.value <= 52
    ensures r.Some? ==> exists i, j | 0 <= i < |line| / 2 <= j < |line| :: Prio(line[i]) == r.value == Prio(line[j])
  {
    var ps := Prios(line);
    var halves := Chunks(ps, |ps| / 2);
    HalvesAreTwoChunks(ps);
    if |halves| != 2 then None
    else
      var r := FirstShared(Elements(halves[0]), Elements(halves[1]), 0);
      if r.Some? then
        var i :| 0 <= i < |halves[0]| && halves[0][i] == r.value;
        var j :| 0 <= j < |halves[1]| && halves[1][j] == r.value;
        assert Prio(line[i]) == r.value;
        assert Prio(line[|line| / 2 + j]) == r.value;
        r
      else r
  }

  /** When the halves share exactly one priority, that is the one summed,
      whichever element the source's set yields. */
  lemma SingleSharedItem(line: String, p: nat)
    requires |line| >= 2 && |line| % 2 == 0
    requires var ps := Prios(line); var n := |line| / 2;
      Elements(ps[..n]) * Elements(ps[n..]) == {p}
    ensures DuplicatePriority(line) == Some(p)
  {
    var ps := Prios(line);
    var n := |line| / 2;
    HalvesAreTwoChunks(ps);
    var a, b := Elements(ps[..n]), Elements(ps[n..]);
    assert Chunks(ps, |ps| / 2) == [ps[..n], ps[n..]];
    assert p in a * b;
    assert p <= 52 by {
      var i :| 0 <= i < n && ps[..n][i] == p;
    }
    var r := FirstShared(a, b, 0);
    assert r.Some?;
    assert r.value in a * b;
  }

  function Priorities(lines: seq<String>): (r: seq<nat>)
    requires forall k | 0 <= k < |lines| :: |lines[k]| >= 2
    ensures |r| <= |lines|
    ensures forall k | 0 <= k < |r| :: r[k] <= 52
  {
    if lines == [] then []
    else
      var rest := Priorities(lines[1..]);
      match DuplicatePriority(lines[0])
      case Some(p) =>
        var r := [p] + rest;
        assert forall k | 1 <= k < |r| :: r[k] == rest[k - 1];
        r
      case None => rest
  }

  function Sum(xs: seq<nat>): nat
  {
    if xs == [] then 0 else xs[0] + Sum(xs[1..])
  }

  lemma {:induction false} SumBounded(xs: seq<nat>, bound: nat)
    requires forall k | 0 <= k < |xs| :: xs[k] <= bound
    ensures Sum(xs) <= bound * |xs|
  {
    if xs != [] {
      SumBounded(xs[1..], bound);
    }
  }

  /** `sum_of_priorities_of_duplicate_items`: every summed priority is at
      most 52, so the total is at most 52 per line. */
  function SumOfPrioritiesOfDuplicateItems(input: String): (total: nat)
    requires forall k | 0 <= k < |Lines(input)| :: |Lines(input)[k]| >= 2
    ensures total <= 52 * |Lines(input)|
  {
    var ps := Priorities(Lines(input));
    SumBounded(ps, 52);
    Sum(ps)
  }
}
