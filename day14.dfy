/** Day 14: sand pouring into a cave. The input lists rock structures as
    paths of "x,y" points joined by " -> "; every segment of a path is
    solid rock. Grains of sand enter at (500, 0) one at a time and fall
    down, down-left or down-right until they rest or fall out of the cave;
    with a floor added two rows below the lowest rock, grains pile up until
    the entry is covered. */
module Day14 {
  import opened Wrappers
  import opened Text

  /** A vector of `euclid::Vector2D<isize>`, y pointing down. */
  datatype Coord = Coord(x: int, y: int)

  /** euclid's componentwise `min` and `max`. */
  function Min(a: Coord, b: Coord): Coord
  {
    Coord(if a.x <= b.x then a.x else b.x, if a.y <= b.y then a.y else b.y)
  }

  function Max(a: Coord, b: Coord): Coord
  {
    Coord(if a.x >= b.x then a.x else b.x, if a.y >= b.y then a.y else b.y)
  }

  datatype Material = Air | Rock | Sand

  const Entry := Coord(500, 0)

  /** The cave is a 1000 by 200 array, indexed by column then row. */
  const Columns := 1000
  const Rows := 200

  // ---------------------------------------------------------------- parsing

  /** The parts of nom's error that `from_str` keeps: the input where the
      failing parser started and its kind. */
  datatype ErrorKind = Digit | Char
  datatype CaveError = CaveError(input: String, kind: ErrorKind)

  /** `parse_coord`: a `u32`, ',' and a `u32`. */
  function ParseCoord(s: String): (r: Result<Parsed<Coord>, CaveError>)
    ensures r.Ok? ==> |r.value.rest| < |s|
    ensures r.Ok? ==> 0 <= r.value.value.x <= U32_MAX && 0 <= r.value.value.y <= U32_MAX
  {
    match NomU32(s)
    case None => Err(CaveError(s, Digit))
    case Some(x) =>
      if x.rest == [] || x.rest[0] != ',' then Err(CaveError(x.rest, Char))
      else
        match NomU32(x.rest[1..])
        case None => Err(CaveError(x.rest[1..], Digit))
        case Some(y) => Ok(Parsed(Coord(x.value, y.value), y.rest))
  }

  /** The rest of `separated_list1`: as long as " -> " and a point follow,
      they are taken; otherwise the list ends before the separator. */
  function MoreCoords(s: String): (r: Parsed<seq<Coord>>)
    ensures |r.rest| <= |s|
    decreases |s|
  {
    match StripPrefix(s, " -> ")
    case None => Parsed([], s)
    case Some(after) =>
      match ParseCoord(after)
      case Err(_) => Parsed([], s)
      case Ok(c) =>
        var more := MoreCoords(c.rest);
        Parsed([c.value] + more.value, more.rest)
  }

  /** `parse_structure`: one or more points separated by " -> "; text
      after the last point is ignored (`finish` does not ask for the end of
      the input). */
  function ParseStructure(s: String): (r: Result<Parsed<seq<Coord>>, CaveError>)
    ensures r.Ok? ==> |r.value.value| >= 1
    ensures r.Err? ==> ParseCoord(s).Err? && r.error == ParseCoord(s).error
  {
    var first :- ParseCoord(s);
    var more := MoreCoords(first.rest);
    Ok(Parsed([first.value] + more.value, more.rest))
  }

  /** How a point is written in the puzzle input. */
  function CoordText(c: Coord): String
    requires c.x >= 0 && c.y >= 0
  {
    NatToDec(c.x) + ("," + NatToDec(c.y))
  }

  predicate InU32(cs: seq<Coord>)
  {
    forall i | 0 <= i < |cs| :: 0 <= cs[i].x <= U32_MAX && 0 <= cs[i].y <= U32_MAX
  }

  /** How a path is written in the puzzle input. */
  function StructureText(cs: seq<Coord>): String
    requires |cs| >= 1 && InU32(cs)
  {
    if |cs| == 1 then CoordText(cs[0])
    else CoordText(cs[0]) + (" -> " + StructureText(cs[1..]))
  }

  lemma CoordOfText(c: Coord, rest: String)
    requires 0 <= c.x <= U32_MAX && 0 <= c.y <= U32_MAX
    requires rest == [] || !IsDigit(rest[0])
    ensures ParseCoord(CoordText(c) + rest) == Ok(Parsed(c, rest))
  {
    var after := "," + (NatToDec(c.y) + rest);
    Assoc(NatToDec(c.x), "," + NatToDec(c.y), rest);
    Assoc(",", NatToDec(c.y), rest);
    assert CoordText(c) + rest == NatToDec(c.x) + after;
    NomUnsignedOfNumeral(c.x, U32_MAX, after);
    assert after[1..] == NatToDec(c.y) + rest;
    NomUnsignedOfNumeral(c.y, U32_MAX, rest);
  }

  /** One " -> " and a point written out are taken by `MoreCoords`. */
  lemma MoreCoordsStep(c: Coord, tail: String)
    requires 0 <= c.x <= U32_MAX && 0 <= c.y <= U32_MAX
    requires tail == [] || !IsDigit(tail[0])
    ensures MoreCoords(" -> " + (CoordText(c) + tail))
      == Parsed([c] + MoreCoords(tail).value, MoreCoords(tail).rest)
  {
    StripPrefixOfConcat(" -> ", CoordText(c) + tail);
    CoordOfText(c, tail);
  }

  /** The text after the first point of a path. */
  function TailText(cs: seq<Coord>): String
    requires |cs| >= 1 && InU32(cs)
  {
    if |cs| == 1 then [] else " -> " + StructureText(cs[1..])
  }

  lemma TailTextFacts(cs: seq<Coord>)
    requires |cs| >= 1 && InU32(cs)
    ensures StructureText(cs) == CoordText(cs[0]) + TailText(cs)
    ensures TailText(cs) == [] || !IsDigit(TailText(cs)[0])
  {
  }

  lemma {:induction false} MoreCoordsOfText(cs: seq<Coord>)
    requires |cs| >= 1 && InU32(cs)
    ensures MoreCoords(" -> " + StructureText(cs)) == Parsed(cs, [])
    decreases |cs|, 1
  {
    var tail := TailText(cs);
    assert [cs[0]] + cs[1..] == cs;
    TailTextFacts(cs);
    MoreCoordsStep(cs[0], tail);
    MoreOfTail(cs);
  }

  /** What follows the first point of a written path is the rest of the
      points. */
  lemma {:induction false} MoreOfTail(cs: seq<Coord>)
    requires |cs| >= 1 && InU32(cs)
    ensures MoreCoords(TailText(cs)) == Parsed(cs[1..], [])
    decreases |cs|, 0
  {
    if |cs| > 1 {
      MoreCoordsOfText(cs[1..]);
    } else {
      assert !StartsWith([], " -> ");
    }
  }

  /** A path written out parses back to the same points. */
  lemma ParseStructureOfText(cs: seq<Coord>)
    requires |cs| >= 1 && InU32(cs)
    ensures ParseStructure(StructureText(cs)) == Ok(Parsed(cs, []))
  {
    var tail := TailText(cs);
    assert [cs[0]] + cs[1..] == cs;
    TailTextFacts(cs);
    CoordOfText(cs[0], tail);
    MoreOfTail(cs);
  }

  /** Every line parsed as a path; the first line that fails decides the
      error (`collect` into a `Result`). */
  function Structures(lines: seq<String>): (r: Result<seq<seq<Coord>>, CaveError>)
    ensures r.Ok? <==> forall i | 0 <= i < |lines| :: ParseStructure(lines[i]).Ok?
    ensures r.Ok? ==> (|r.value| == |lines|
      && forall i | 0 <= i < |lines| :: r.value[i] == ParseStructure(lines[i]).value.value)
  {
    if lines == [] then Ok([])
    else
      match ParseStructure(lines[0])
      case Err(e) => Err(e)
      case Ok(first) =>
        var tail := lines[1..];
        assert forall i | 1 <= i < |lines| :: tail[i - 1] == lines[i];
        match Structures(tail)
        case Err(e) => Err(e)
        case Ok(rest) => Ok([first.value] + rest)
  }

  /** Line `i` is the first that does not parse, and fails with `e`. */
  predicate FirstFailure(lines: seq<String>, i: int, e: CaveError)
    requires 0 <= i < |lines|
  {
    ParseStructure(lines[i]).Err? && ParseStructure(lines[i]).error == e
    && forall j | 0 <= j < i :: ParseStructure(lines[j]).Ok?
  }

  /** The error `Structures` reports is that of the first line that does
      not parse. */
  lemma {:induction false} StructuresFirstError(lines: seq<String>)
    ensures Structures(lines).Err? ==>
      exists i | 0 <= i < |lines| :: FirstFailure(lines, i, Structures(lines).error)
  {
    if lines == [] || Structures(lines).Ok? {
    } else if ParseStructure(lines[0]).Err? {
      assert FirstFailure(lines, 0, Structures(lines).error);
    } else {
      var tail := lines[1..];
      StructuresFirstError(tail);
      var e := Structures(tail).error;
      assert Structures(lines).error == e;
      var k :| 0 <= k < |tail| && FirstFailure(tail, k, e);
      assert forall j | 1 <= j < k + 1 :: lines[j] == tail[j - 1];
      assert FirstFailure(lines, k + 1, e);
    }
  }

  // ---------------------------------------------------------------- segments

  type Segment = (Coord, Coord)

  /** `tuple_windows` on a path: each point with the next one. */
  function Windows(cs: seq<Coord>): (r: seq<Segment>)
    ensures |r| == if |cs| < 2 then 0 else |cs| - 1
    ensures forall i | 0 <= i < |r| :: r[i] == (cs[i], cs[i + 1])
  {
    if |cs| < 2 then [] else [(cs[0], cs[1])] + Windows(cs[1..])
  }

  /** The segments of all paths, in input order. */
  function AllSegments(structures: seq<seq<Coord>>): seq<Segment>
  {
    if structures == [] then [] else Windows(structures[0]) + AllSegments(structures[1..])
  }

  /** The cell lies in the box spanned by the segment's ends, inclusive. */
  predicate Inside(seg: Segment, x: int, y: int)
  {
    var (a, b) := (Min(seg.0, seg.1), Max(seg.0, seg.1));
    a.x <= x <= b.x && a.y <= y <= b.y
  }

  ghost predicate Covered(segs: seq<Segment>, x: int, y: int)
  {
    exists i | 0 <= i < |segs| :: Inside(segs[i], x, y)
  }

  /** Indexing the cave at every cell of every segment stays in the array
      (the source panics otherwise). */
  predicate InArray(segs: seq<Segment>)
  {
    forall i | 0 <= i < |segs| ::
      && 0 <= segs[i].0.x < Columns && 0 <= segs[i].0.y < Rows
      && 0 <= segs[i].1.x < Columns && 0 <= segs[i].1.y < Rows
  }

  /** `region` after the segments: the componentwise minimum and maximum
      of the entry and every segment end. */
  function RegionAfter(segs: seq<Segment>): (r: (Coord, Coord))
    ensures r.0.x <= Entry.x && r.0.y <= Entry.y && r.1.x >= Entry.x && r.1.y >= Entry.y
    ensures forall i | 0 <= i < |segs| ::
      (r.0.x <= segs[i].0.x && r.0.x <= segs[i].1.x && r.0.y <= segs[i].0.y && r.0.y <= segs[i].1.y)
    ensures forall i | 0 <= i < |segs| ::
      (r.1.x >= segs[i].0.x && r.1.x >= segs[i].1.x && r.1.y >= segs[i].0.y && r.1.y >= segs[i].1.y)
    ensures r.1.y == Entry.y || exists i | 0 <= i < |segs| :: r.1.y == segs[i].0.y || r.1.y == segs[i].1.y
  {
    if segs == [] then (Entry, Entry)
    else
      var n := |segs| - 1;
      var before := RegionAfter(segs[..n]);
      assert forall i | 0 <= i < n :: segs[..n][i] == segs[i];
      var (a, b) := (Min(segs[n].0, segs[n].1), Max(segs[n].0, segs[n].1));
      (Min(before.0, a), Max(before.1, b))
  }

  /** Adding a segment covers its box and nothing else. */
  lemma CoveredSnoc(segs: seq<Segment>, k: nat, x: int, y: int)
    requires k < |segs|
    ensures Covered(segs[..k + 1], x, y) <==> Covered(segs[..k], x, y) || Inside(segs[k], x, y)
  {
    assert segs[..k + 1][k] == segs[k];
    assert forall i | 0 <= i < k :: segs[..k + 1][i] == segs[..k][i];
    if Covered(segs[..k + 1], x, y) {
      var i :| 0 <= i < k + 1 && Inside(segs[..k + 1][i], x, y);
      if i < k {
        assert Inside(segs[..k][i], x, y);
      }
    }
  }

  /** Writing rock into every cell of the box from `a` to `b`. */
  method FillRect(cave: array2<Material>, a: Coord, b: Coord)
    requires cave.Length0 == Columns && cave.Length1 == Rows
    requires 0 <= a.x <= b.x < Columns && 0 <= a.y <= b.y < Rows
    modifies cave
    ensures forall x, y | 0 <= x < Columns && 0 <= y < Rows ::
      cave[x, y] == if a.x <= x <= b.x && a.y <= y <= b.y then Rock else old(cave[x, y])
  {
    for x := a.x to b.x + 1
      invariant forall i, j | 0 <= i < Columns && 0 <= j < Rows ::
        cave[i, j] == if a.x <= i < x && a.y <= j <= b.y then Rock else old(cave[i, j])
    {
      for y := a.y to b.y + 1
        invariant forall i, j | 0 <= i < Columns && 0 <= j < Rows ::
          cave[i, j] == if (a.x <= i < x && a.y <= j <= b.y) || (i == x && a.y <= j < y) then Rock else old(cave[i, j])
      {
        cave[x, y] := Rock;
      }
    }
  }

  // ---------------------------------------------------------------- the cave

  class Cave {
    const cave: array2<Material>
    var region: (Coord, Coord)
    var hasGround: bool

    /** The array has its fixed size, the region's lower edge is not above
      the entry, and with a floor the region's lower edge is the floor: a
      row of rock below the entry and inside the array. */
    ghost predicate Valid()
      reads this, cave
    {
      && cave.Length0 == Columns && cave.Length1 == Rows
      && region.1.y >= 0
      && (hasGround ==> 0 < region.1.y < Rows && forall x | 0 <= x < Columns :: cave[x, region.1.y] == Rock)
    }

    constructor (cave: array2<Material>, region: (Coord, Coord), hasGround: bool)
      ensures this.cave == cave && this.region == region && this.hasGround == hasGround
    {
      this.cave := cave;
      this.region := region;
      this.hasGround := hasGround;
    }

    /** A cell a grain can reach from the entry: each step goes one row
      down and at most one column aside, so the column stays well inside
      the array. */
    ghost predicate Reach(g: Coord)
    {
      0 <= g.y < Rows && Entry.x - g.y <= g.x <= Entry.x + g.y
    }

    /** A grain at `p` cannot move: the cells below, below left and below
        right are all taken. */
    ghost predicate Rests(p: Coord)
      reads this, cave
      requires Valid() && Reach(p) && p.y + 1 < Rows
    {
      cave[p.x, p.y + 1] != Air && cave[p.x - 1, p.y + 1] != Air && cave[p.x + 1, p.y + 1] != Air
    }

    /** Where a grain at `g` comes to rest, or None when it falls out of
        the bottom of the array; it tries straight down, then down-left,
        then down-right. With a floor every grain rests above it. */
    ghost function Landing(g: Coord): (r: Option<Coord>)
      reads this, cave
      requires Valid() && Reach(g) && (hasGround ==> g.y < region.1.y)
      ensures r.Some? ==> Reach(r.value) && r.value.y + 1 < Rows && Rests(r.value)
      ensures r.Some? && hasGround ==> r.value.y < region.1.y
      ensures r.None? ==> !hasGround
      decreases Rows - g.y
    {
      if g.y + 1 >= Rows then None
      else if cave[g.x, g.y + 1] == Air then Landing(Coord(g.x, g.y + 1))
      else if cave[g.x - 1, g.y + 1] == Air then Landing(Coord(g.x - 1, g.y + 1))
      else if cave[g.x + 1, g.y + 1] == Air then Landing(Coord(g.x + 1, g.y + 1))
      else Some(g)
    }

    /** `simulate`: one grain. With a floor and sand already at the entry
        nothing happens (false); a grain that falls out of the array leaves
        the cave as it was (false); otherwise the grain's resting cell
        becomes sand and no other cell changes (true). */
    method Simulate() returns (rested: bool)
      requires Valid()
      modifies cave
      ensures Valid()
      ensures old(hasGround && cave[Entry.x, Entry.y] == Sand) ==> !rested && unchanged(cave)
      ensures !old(hasGround && cave[Entry.x, Entry.y] == Sand) ==>
        match old(Landing(Entry))
        case None => !rested && unchanged(cave)
        case Some(p) => rested && forall x, y | 0 <= x < Columns && 0 <= y < Rows ::
          cave[x, y] == if x == p.x && y == p.y then Sand else old(cave[x, y])
    {
      var grain := Entry;
      while true
        invariant unchanged(cave)
        invariant Reach(grain) && (hasGround ==> grain.y < region.1.y)
        invariant Landing(grain) == Landing(Entry)
        decreases Rows - grain.y
      {
        if hasGround && cave[Entry.x, Entry.y] == Sand {
          return false;
        }
        if grain.y + 1 >= Rows {
          return false;
        }
        if cave[grain.x, grain.y + 1] == Air {
          grain := Coord(grain.x, grain.y + 1);
          continue;
        }
        if cave[grain.x - 1, grain.y + 1] == Air {
          grain := Coord(grain.x - 1, grain.y + 1);
          continue;
        }
        if cave[grain.x + 1, grain.y + 1] == Air {
          grain := Coord(grain.x + 1, grain.y + 1);
          continue;
        }
        cave[grain.x, grain.y] := Sand;
        return true;
      }
    }

    /** `create_floor`: a row of rock two rows below the region, which
        becomes the region's lower edge, and the cave has ground. The slice
        panics when that row is outside the array. */
    method CreateFloor()
      requires Valid() && region.1.y + 2 < Rows
      modifies this`region, this`hasGround, cave
      ensures Valid() && hasGround
      ensures region == (old(region).0, Coord(old(region).1.x, old(region).1.y + 2))
      ensures forall x, y | 0 <= x < Columns && 0 <= y < Rows ::
        cave[x, y] == if y == region.1.y then Rock else old(cave[x, y])
    {
      var height := region.1.y + 2;
      for x := 0 to Columns
        modifies cave
        invariant forall i, j | 0 <= i < Columns && 0 <= j < Rows ::
          cave[i, j] == if j == height && i < x then Rock else old(cave[i, j])
      {
        cave[x, height] := Rock;
      }
      region := (region.0, Coord(region.1.x, height));
      hasGround := true;
    }
  }

  /** `Cave::from_str`: every segment's box is rock, everything else air,
      the region spans the entry and all segment ends, and there is no
      floor yet. A line that does not start with a point is an error. */
  method CaveFromStr(s: String) returns (r: Result<Cave, CaveError>)
    requires Structures(Lines(s)).Ok? ==> InArray(AllSegments(Structures(Lines(s)).value))
    ensures r.Err? <==> Structures(Lines(s)).Err?
    ensures r.Err? ==> r.error == Structures(Lines(s)).error
    ensures r.Ok? ==> fresh(r.value) && fresh(r.value.cave) && r.value.Valid() && !r.value.hasGround
    ensures r.Ok? ==> var segs := AllSegments(Structures(Lines(s)).value);
      && r.value.region == RegionAfter(segs)
      && forall x, y | 0 <= x < Columns && 0 <= y < Rows ::
        r.value.cave[x, y] == if Covered(segs, x, y) then Rock else Air
  {
    var parsed := Structures(Lines(s));
    if parsed.Err? {
      return Err(parsed.error);
    }
    var segs := AllSegments(parsed.value);
    var cave := new Material[Columns, Rows]((_, _) => Air);
    var region := DrawSegments(cave, segs);
    var c := new Cave(cave, region, false);
    return Ok(c);
  }

  /** The loop of `from_str` over the segments of all paths, on a cave of
      air: fills each segment's box with rock and widens the region. */
  method DrawSegments(cave: array2<Material>, segs: seq<Segment>) returns (region: (Coord, Coord))
    requires cave.Length0 == Columns && cave.Length1 == Rows && InArray(segs)
    requires forall x, y | 0 <= x < Columns && 0 <= y < Rows :: cave[x, y] == Air
    modifies cave
    ensures region == RegionAfter(segs)
    ensures forall x, y | 0 <= x < Columns && 0 <= y < Rows ::
      cave[x, y] == if Covered(segs, x, y) then Rock else Air
  {
    var lo, hi := Entry, Entry;
    for k := 0 to |segs|
      invariant (lo, hi) == RegionAfter(segs[..k])
      invariant forall x, y | 0 <= x < Columns && 0 <= y < Rows ::
        cave[x, y] == if Covered(segs[..k], x, y) then Rock else Air
    {
      assert segs[..k + 1][..k] == segs[..k];
      var a := Min(segs[k].0, segs[k].1);
      var b := Max(segs[k].0, segs[k].1);
      lo := Min(lo, a);
      hi := Max(hi, b);
      FillRect(cave, a, b);
      forall x, y | 0 <= x < Columns && 0 <= y < Rows
        ensures Covered(segs[..k + 1], x, y) <==> Covered(segs[..k], x, y) || Inside(segs[k], x, y)
      {
        CoveredSnoc(segs, k, x, y);
      }
    }
    assert segs[..|segs|] == segs;
    region := (lo, hi);
  }

  // ---------------------------------------------------------------- the tests

  lemma Numerals()
    ensures NatToDec(2) == "2" && NatToDec(5) == "5" && NatToDec(6) == "6" && NatToDec(7) == "7"
    ensures NatToDec(10) == "10" && NatToDec(14) == "14" && NatToDec(18) == "18"
    ensures NatToDec(20) == "20" && NatToDec(42) == "42"
  {
    assert NatToDec(1) == "1" && NatToDec(4) == "4" && NatToDec(0) == "0";
    assert NatToDec(10) == NatToDec(1) + "0" && NatToDec(14) == NatToDec(1) + "4";
    assert NatToDec(18) == NatToDec(1) + "8" && NatToDec(20) == NatToDec(2) + "0";
    assert NatToDec(42) == NatToDec(4) + "2";
  }

  /** A one-line input with a path of two points. */
  lemma OnePath(s: String, a: Coord, b: Coord)
    requires InU32([a, b]) && s == StructureText([a, b])
    requires s != [] && '\n' !in s && s[|s| - 1] != '\r'
    ensures Structures(Lines(s)) == Ok([[a, b]])
    ensures AllSegments([[a, b]]) == [(a, b)]
  {
    OneLine(s);
    ParseStructureOfText([a, b]);
    var lines := Lines(s);
    assert lines[0] == s;
    var r := Structures(lines);
    assert r.Ok? && r.value[0] == [a, b];
    assert r.value == [[a, b]];
    assert Windows([a, b]) == [(a, b)];
    assert AllSegments([[a, b]][1..]) == [];
  }

  lemma OneSegment(seg: Segment, x: int, y: int)
    ensures Covered([seg], x, y) <==> Inside(seg, x, y)
  {
    if Inside(seg, x, y) {
      assert Inside([seg][0], x, y);
    }
  }

  lemma TwoSegments(seg: Segment, seg': Segment, x: int, y: int)
    ensures Covered([seg, seg'], x, y) <==> Inside(seg, x, y) || Inside(seg', x, y)
  {
    if Inside(seg, x, y) {
      assert Inside([seg, seg'][0], x, y);
    }
    if Inside(seg', x, y) {
      assert Inside([seg, seg'][1], x, y);
    }
  }

  lemma SingleLineText(s: String)
    requires s == "10,2 -> 10,5"
    ensures s == StructureText([Coord(10, 2), Coord(10, 5)])
  {
    Numerals();
  }

  /** `cave_from_str_single_line`: column 10, rows 0 to 7. */
  method FromStrSingleLine() returns (column: seq<Material>)
    ensures column == [Air, Air, Rock, Rock, Rock, Rock, Air, Air]
  {
    var s := "10,2 -> 10,5";
    var seg := (Coord(10, 2), Coord(10, 5));
    SingleLineText(s);
    OnePath(s, seg.0, seg.1);
    forall y | 0 <= y < 8 { OneSegment(seg, 10, y); }
    var r := CaveFromStr(s);
    var cave := r.value.cave;
    column := [cave[10, 0], cave[10, 1], cave[10, 2], cave[10, 3], cave[10, 4], cave[10, 5], cave[10, 6], cave[10, 7]];
  }

  lemma ReversedLineText(s: String)
    requires s == "42,20 -> 42,18"
    ensures s == StructureText([Coord(42, 20), Coord(42, 18)])
  {
    Numerals();
  }

  /** `cave_from_str_single_line_rev`: column 42, rows 15 to 21; a path
      drawn upwards covers the same cells. */
  method FromStrReversedLine() returns (column: seq<Material>)
    ensures column == [Air, Air, Air, Rock, Rock, Rock, Air]
  {
    var s := "42,20 -> 42,18";
    var seg := (Coord(42, 20), Coord(42, 18));
    ReversedLineText(s);
    OnePath(s, seg.0, seg.1);
    forall y | 15 <= y < 22 { OneSegment(seg, 42, y); }
    var r := CaveFromStr(s);
    var cave := r.value.cave;
    column := [cave[42, 15], cave[42, 16], cave[42, 17], cave[42, 18], cave[42, 19], cave[42, 20], cave[42, 21]];
  }

  /** The lines of the two-line input are two paths written out. */
  lemma TwoLinesText(first: String, second: String)
    requires first == "10,5 -> 10,7" && second == "10,6 -> 14,6"
    ensures first == StructureText([Coord(10, 5), Coord(10, 7)])
    ensures second == StructureText([Coord(10, 6), Coord(14, 6)])
  {
    Numerals();
  }

  /** An input of two lines, each a path of two points. */
  lemma TwoPaths(lines: seq<String>, a: Coord, b: Coord, c: Coord, d: Coord)
    requires InU32([a, b]) && InU32([c, d])
    requires lines == [StructureText([a, b]), StructureText([c, d])]
    ensures Structures(lines) == Ok([[a, b], [c, d]])
  {
    ParseStructureOfText([a, b]);
    ParseStructureOfText([c, d]);
    var r := Structures(lines);
    assert r.Ok? && r.value[0] == [a, b] && r.value[1] == [c, d];
    assert r.value == [[a, b], [c, d]];
  }

  lemma TwoSegmentPaths(a: Coord, b: Coord, c: Coord, d: Coord)
    ensures AllSegments([[a, b], [c, d]]) == [(a, b), (c, d)]
  {
    assert Windows([a, b]) == [(a, b)] && Windows([c, d]) == [(c, d)];
    assert [[a, b], [c, d]][1..] == [[c, d]] && [[c, d]][1..] == [];
    assert AllSegments([[c, d]]) == [(c, d)];
  }

  /** The cells of the two paths of `cave_from_str_two_lines` near their
      crossing: column 10 and row 6 are rock. */
  lemma CrossingCells(seg: Segment, seg': Segment)
    requires seg == (Coord(10, 5), Coord(10, 7)) && seg' == (Coord(10, 6), Coord(14, 6))
    ensures forall x, y | 10 <= x < 15 && 5 <= y < 8 :: Covered([seg, seg'], x, y) <==> x == 10 || y == 6
  {
    forall x, y | 10 <= x < 15 && 5 <= y < 8 {
      TwoSegments(seg, seg', x, y);
    }
  }

  /** The input of `cave_from_str_two_lines` is two lines, each a path of
      two points. */
  lemma TwoLinesInput(s: String)
    requires s == "10,5 -> 10,7\n10,6 -> 14,6"
    ensures Lines(s) == [StructureText([Coord(10, 5), Coord(10, 7)]), StructureText([Coord(10, 6), Coord(14, 6)])]
  {
    var first, second := "10,5 -> 10,7", "10,6 -> 14,6";
    assert s == first + "\n" + second;
    TwoLinesText(first, second);
    TwoLines(first, second);
  }

  /** The cave of two crossing paths, near the crossing. */
  method CrossingCave(s: String) returns (cave: array2<Material>)
    requires Lines(s) == [StructureText([Coord(10, 5), Coord(10, 7)]), StructureText([Coord(10, 6), Coord(14, 6)])]
    ensures cave.Length0 == Columns && cave.Length1 == Rows
    ensures forall x, y | 10 <= x < 15 && 5 <= y < 8 :: cave[x, y] == if x == 10 || y == 6 then Rock else Air
  {
    var seg, seg' := (Coord(10, 5), Coord(10, 7)), (Coord(10, 6), Coord(14, 6));
    assert InArray([seg, seg']);
    TwoPaths(Lines(s), seg.0, seg.1, seg'.0, seg'.1);
    TwoSegmentPaths(seg.0, seg.1, seg'.0, seg'.1);
    CrossingCells(seg, seg');
    var r := CaveFromStr(s);
    cave := r.value.cave;
  }

  /** `cave_from_str_two_lines`: rows 5 to 7 of columns 10 to 14, where a
      vertical and a horizontal path cross. */
  method FromStrTwoLines() returns (rows: seq<seq<Material>>)
    ensures rows == [[Rock, Air, Air, Air, Air], [Rock, Rock, Rock, Rock, Rock], [Rock, Air, Air, Air, Air]]
  {
    var s := "10,5 -> 10,7\n10,6 -> 14,6";
    TwoLinesInput(s);
    var cave := CrossingCave(s);
    rows := [
      [cave[10, 5], cave[11, 5], cave[12, 5], cave[13, 5], cave[14, 5]],
      [cave[10, 6], cave[11, 6], cave[12, 6], cave[13, 6], cave[14, 6]],
      [cave[10, 7], cave[11, 7], cave[12, 7], cave[13, 7], cave[14, 7]]
    ];
  }
}
