/** Day 17: rocks of five shapes fall into a chamber seven units wide. A jet
    of gas pushes the falling rock sideways, then it falls one unit, until
    it comes to rest on the floor or on an earlier rock; the next shape then
    appears three units above the highest rock. */
module Day17 {
  import opened Wrappers
  import opened Text

  const Width := 7

  /** A vector of `euclid::Vector2D<i32>`, y pointing up; the i32 range is
      not modelled. */
  datatype Coord = Coord(x: int, y: int)
  {
    function Plus(d: Coord): Coord { Coord(x + d.x, y + d.y) }
  }

  const Down := Coord(0, -1)

  // ---------------------------------------------------------------- rocks

  /** The shapes in the order `enum_iterator` walks them. */
  datatype Shape = Horizontal | Plus | Bend | Vertical | Block

  /** `next_cycle`: the following shape, the last one wrapping to the
      first. */
  function NextCycle(s: Shape): Shape
  {
    match s
    case Horizontal => Plus
    case Plus => Bend
    case Bend => Vertical
    case Vertical => Block
    case Block => Horizontal
  }

  /** Five steps bring every shape back to itself, and the walk from the
      first shape meets all five in order. */
  lemma ShapeOrderRepeats(s: Shape)
    ensures NextCycle(NextCycle(NextCycle(NextCycle(NextCycle(s))))) == s
    ensures NextCycle(Horizontal) == Plus && NextCycle(Plus) == Bend
    ensures NextCycle(Bend) == Vertical && NextCycle(Vertical) == Block
    ensures NextCycle(Block) == Horizontal
  {
  }

  /** The cells of each shape relative to its lower left corner. */
  function Offsets(s: Shape): seq<Coord>
  {
    match s
    case Horizontal => [Coord(0, 0), Coord(1, 0), Coord(2, 0), Coord(3, 0)]
    case Plus => [Coord(1, 0), Coord(0, 1), Coord(1, 1), Coord(2, 1), Coord(1, 2)]
    case Bend => [Coord(0, 0), Coord(1, 0), Coord(2, 0), Coord(2, 1), Coord(2, 2)]
    case Vertical => [Coord(0, 0), Coord(0, 1), Coord(0, 2), Coord(0, 3)]
    case Block => [Coord(0, 0), Coord(1, 0), Coord(0, 1), Coord(1, 1)]
  }

  /** Every shape fits in a 4 by 4 box above its origin, and its first cell
      lies on the origin's row. */
  lemma OffsetsInBox(s: Shape)
    ensures |Offsets(s)| >= 1 && Offsets(s)[0].y == 0
    ensures forall i | 0 <= i < |Offsets(s)| :: 0 <= Offsets(s)[i].x <= 3 && 0 <= Offsets(s)[i].y <= 3
  {
  }

  datatype Rock = Rock(origin: Coord, shape: Shape, offsets: seq<Coord>)

  /** `Rock::new`. */
  function NewRock(origin: Coord, shape: Shape): Rock
  {
    Rock(origin, shape, Offsets(shape))
  }

  /** `Rock::coords`: the cells the rock covers. */
  function Coords(r: Rock): (cs: seq<Coord>)
    ensures |cs| == |r.offsets|
  {
    seq(|r.offsets|, i requires 0 <= i < |r.offsets| => r.origin.Plus(r.offsets[i]))
  }

  /** `Rock::push` and `Rock::fall_down`: the origin moves by `d`. */
  function Moved(r: Rock, d: Coord): Rock
  {
    r.(origin := r.origin.Plus(d))
  }

  /** Moving a rock moves each of its cells by the same vector. */
  lemma MovedCoords(r: Rock, d: Coord)
    ensures |Coords(Moved(r, d))| == |Coords(r)|
    ensures forall i | 0 <= i < |Coords(r)| :: Coords(Moved(r, d))[i] == Coords(r)[i].Plus(d)
  {
  }

  function Elements(cs: seq<Coord>): set<Coord>
  {
    set i | 0 <= i < |cs| :: cs[i]
  }

  // ---------------------------------------------------------------- the rules

  /** The test in `gravity`: some cell of the rock is on the floor or has
      a settled rock below it. */
  predicate Lands(cs: seq<Coord>, rocks: set<Coord>)
  {
    exists i | 0 <= i < |cs| :: cs[i].Plus(Down) in rocks || cs[i].y == 0
  }

  /** The test in `push`: some cell would leave the columns 0..6 or run
      into a settled rock. */
  predicate Hits(cs: seq<Coord>, rocks: set<Coord>, jet: Coord)
  {
    exists i | 0 <= i < |cs| :: var d := cs[i].Plus(jet); d.x < 0 || d.x >= Width || d in rocks
  }

  /** The highest row of a set of cells, 0 for no cells (`max_by_key`
      then `unwrap_or_default`). */
  ghost function Highest(s: set<Coord>): (y: int)
    ensures s == {} ==> y == 0
    ensures forall c | c in s :: c.y <= y
    ensures s != {} ==> exists c | c in s :: c.y == y
    decreases |s|
  {
    if s == {} then 0
    else
      var c :| c in s;
      var rest := s - {c};
      assert forall d | d in s :: d == c || d in rest;
      if rest == {} then c.y
      else
        var m := Highest(rest);
        if c.y >= m then c.y else m
  }

  /** A set has one highest row. */
  lemma HighestUnique(s: set<Coord>, y: int)
    requires s != {} && (exists c | c in s :: c.y == y) && forall c | c in s :: c.y <= y
    ensures y == Highest(s)
  {
    var c :| c in s && c.y == y;
    var d :| d in s && d.y == Highest(s);
  }

  predicate InColumns(c: Coord) { 0 <= c.x < Width && c.y >= 0 }

  /** What holds between the moves of the simulation: the falling rock has
      its shape's cells and is inside the chamber, the settled rocks are
      inside the chamber, and `max` is three above the highest row of a
      settled rock (3 before any rock has settled). */
  ghost predicate Layout(rock: Rock, rocks: set<Coord>, max: int)
  {
    && rock.offsets == Offsets(rock.shape)
    && (forall i | 0 <= i < |Coords(rock)| :: InColumns(Coords(rock)[i]))
    && (forall c | c in rocks :: InColumns(c))
    && max == (if rocks == {} then 3 else Highest(rocks) + 4)
  }

  /** A rock still falling also overlaps no settled rock. */
  ghost predicate InFlight(rock: Rock, rocks: set<Coord>, max: int)
  {
    && Layout(rock, rocks, max)
    && forall i | 0 <= i < |Coords(rock)| :: Coords(rock)[i] !in rocks
  }

  /** A rock that comes to rest joins the settled rocks without leaving
      the chamber, and `max` follows the new highest row. */
  lemma {:induction false} SettleKeepsLayout(rock: Rock, rocks: set<Coord>, max: int)
    requires Layout(rock, rocks, max)
    ensures var settled := rocks + Elements(Coords(rock));
      Layout(rock, settled, Highest(settled) + 4)
  {
    var settled := rocks + Elements(Coords(rock));
    OffsetsInBox(rock.shape);
    assert Coords(rock)[0] in settled;
    forall c | c in settled
      ensures InColumns(c)
    {
      if c !in rocks {
        var i :| 0 <= i < |Coords(rock)| && Coords(rock)[i] == c;
      }
    }
  }

  /** A rock that does not land falls one row without leaving the chamber
      or overlapping a settled rock. */
  lemma {:induction false} FallKeepsFlight(rock: Rock, rocks: set<Coord>, max: int)
    requires InFlight(rock, rocks, max) && !Lands(Coords(rock), rocks)
    ensures InFlight(Moved(rock, Down), rocks, max)
  {
    MovedCoords(rock, Down);
    forall i | 0 <= i < |Coords(rock)|
      ensures InColumns(Coords(Moved(rock, Down))[i]) && Coords(Moved(rock, Down))[i] !in rocks
    {
      assert !(Coords(rock)[i].Plus(Down) in rocks || Coords(rock)[i].y == 0);
    }
  }

  /** A push that hits nothing keeps the rock inside the chamber and away
      from the settled rocks. */
  lemma {:induction false} PushKeepsFlight(rock: Rock, rocks: set<Coord>, max: int, jet: Coord)
    requires InFlight(rock, rocks, max) && jet.y == 0 && !Hits(Coords(rock), rocks, jet)
    ensures InFlight(Moved(rock, jet), rocks, max)
  {
    MovedCoords(rock, jet);
    forall i | 0 <= i < |Coords(rock)|
      ensures InColumns(Coords(Moved(rock, jet))[i]) && Coords(Moved(rock, jet))[i] !in rocks
    {
      var d := Coords(rock)[i].Plus(jet);
      assert !(d.x < 0 || d.x >= Width || d in rocks);
    }
  }

  /** The empty chamber's first rock is in flight. */
  lemma EmptyChamber()
    ensures InFlight(NewRock(Coord(2, 3), Horizontal), {}, 3)
  {
    OffsetsInBox(Horizontal);
  }

  /** A new rock at column 2 on row `max` lies inside the chamber, above
      every settled rock. */
  lemma {:induction false} SpawnIsInFlight(rock: Rock, rocks: set<Coord>, max: int, shape: Shape)
    requires Layout(rock, rocks, max)
    ensures InFlight(NewRock(Coord(2, max), shape), rocks, max)
  {
    var r := NewRock(Coord(2, max), shape);
    OffsetsInBox(shape);
    forall i | 0 <= i < |Coords(r)|
      ensures InColumns(Coords(r)[i]) && Coords(r)[i] !in rocks
    {
      assert Coords(r)[i].y >= max;
    }
  }

  // ---------------------------------------------------------------- the chamber

  class Chamber {
    var rock: Rock
    var rocks: set<Coord>
    var max: int

    ghost predicate Valid()
      reads this
    {
      Layout(rock, rocks, max)
    }

    ghost predicate Airborne()
      reads this
    {
      InFlight(rock, rocks, max)
    }

    /** `Chamber::default`: an empty chamber, the first shape at (2, 3). */
    constructor ()
      ensures rock == NewRock(Coord(2, 3), Horizontal) && rocks == {} && max == 3
    {
      rock := NewRock(Coord(2, 3), Horizontal);
      rocks := {};
      max := 3;
    }

    /** `spawn`: the next shape in the cycle appears at (2, max). */
    method Spawn()
      modifies this`rock
      ensures rock == NewRock(Coord(2, max), NextCycle(old(rock).shape))
    {
      rock := NewRock(Coord(2, max), NextCycle(rock.shape));
    }

    /** `gravity`: a rock on the floor or on a settled rock joins the
        settled rocks and `max` moves to four above the highest one (the
        answer is true); any other rock falls one row (false). */
    method Gravity() returns (settled: bool)
      modifies this`rock, this`rocks, this`max
      ensures settled == Lands(Coords(old(rock)), old(rocks))
      ensures settled ==> rock == old(rock) && rocks == old(rocks) + Elements(Coords(old(rock)))
      ensures settled ==> max == Highest(rocks) + 4
      ensures !settled ==> rock == Moved(old(rock), Down) && rocks == old(rocks) && max == old(max)
    {
      var cs := Coords(rock);
      if Lands(cs, rocks) {
        rocks := rocks + Elements(cs);
        var top := TopOf(rocks);
        max := top + 4;
        return true;
      }
      rock := Moved(rock, Down);
      return false;
    }

    /** `push`: the rock moves by the jet unless one of its cells would
        leave the chamber or run into a settled rock. */
    method Push(jet: Coord)
      requires jet.y == 0
      modifies this`rock
      ensures rock == if Hits(Coords(old(rock)), rocks, jet) then old(rock) else Moved(old(rock), jet)
    {
      if Hits(Coords(rock), rocks, jet) {
        return;
      }
      rock := Moved(rock, jet);
    }

    /** `max_height`: one more than the highest settled row, read as a
        `u32`; an empty chamber has height 1. The addition overflows for
        a highest row of -1. */
    method MaxHeight() returns (h: nat)
      requires Highest(rocks) % 0x1_0000_0000 != U32_MAX
      ensures h == 1 + Highest(rocks) % 0x1_0000_0000
      ensures 0 <= Highest(rocks) <= I32_MAX ==> h == 1 + Highest(rocks) && forall c | c in rocks :: c.y < h
    {
      var top := TopOf(rocks);
      h := 1 + top % 0x1_0000_0000;
    }
  }

  /** The highest row of the settled rocks, found by visiting them all. */
  method TopOf(s: set<Coord>) returns (y: int)
    ensures y == Highest(s)
  {
    y := 0;
    var todo := s;
    while todo != {}
      invariant todo <= s
      invariant todo == s ==> y == 0
      invariant todo != s ==> (exists c | c in s - todo :: c.y == y) && forall c | c in s - todo :: c.y <= y
      decreases todo
    {
      var c :| c in todo;
      if todo == s || c.y > y {
        y := c.y;
      }
      todo := todo - {c};
    }
    if s != {} {
      assert s - todo == s;
      HighestUnique(s, y);
    }
  }

  // ---------------------------------------------------------------- jets

  datatype Jet = Left | Right

  /** `Coord::from(&Jet)`. */
  function Vector(j: Jet): (d: Coord)
    ensures d.y == 0 && (d.x == -1 || d.x == 1)
  {
    match j
    case Left => Coord(-1, 0)
    case Right => Coord(1, 0)
  }

  function JetMessage(c: char): String
  {
    "Character '" + [c] + "' does not denote a jet stream direction"
  }

  /** `Jet::try_from(char)`. */
  function JetOf(c: char): (r: Result<Jet, String>)
    ensures r.Ok? <==> c == '<' || c == '>'
    ensures r.Ok? ==> (r.value == Right <==> c == '>')
    ensures r.Err? ==> r.error == JetMessage(c)
  {
    match c
    case '>' => Ok(Right)
    case '<' => Ok(Left)
    case _ => Err(JetMessage(c))
  }

  predicate IsJetChar(c: char) { c == '<' || c == '>' || c == '\n' }

  /** `Jet::stream`: newlines are dropped and every other character must
      be an angle bracket; the first one that is not decides the error. */
  function Stream(s: String): (r: Result<seq<Jet>, String>)
    ensures r.Ok? <==> forall i | 0 <= i < |s| :: IsJetChar(s[i])
    ensures r.Err? ==> exists i | 0 <= i < |s| ::
      (!IsJetChar(s[i]) && r.error == JetMessage(s[i]) && forall j | 0 <= j < i :: IsJetChar(s[j]))
  {
    if s == [] then Ok([])
    else if s[0] == '\n' then
      var r := Stream(s[1..]);
      assert forall i | 1 <= i <= |s[1..]| :: s[1..][i - 1] == s[i];
      r
    else
      var j :- JetOf(s[0]);
      var rest :- Stream(s[1..]);
      Ok([j] + rest)
  }

  /** The puzzle's text for a list of jets. */
  function JetText(js: seq<Jet>): String
  {
    if js == [] then [] else [if js[0] == Left then '<' else '>'] + JetText(js[1..])
  }

  /** Reading the text of some jets gives the jets back. */
  lemma {:induction false} StreamOfJetText(js: seq<Jet>)
    ensures Stream(JetText(js)) == Ok(js)
  {
    if js != [] {
      var t := JetText(js);
      assert t[1..] == JetText(js[1..]);
      StreamOfJetText(js[1..]);
      assert [js[0]] + js[1..] == js;
    }
  }

  /** `parse_char_other_than_angle_brackets_is_error`. */
  lemma StreamRejectsLetter(s: String)
    requires s == ">>><<<x>>"
    ensures Stream(s) == Err(JetMessage('x'))
  {
    assert !IsJetChar(s[6]);
    var r := Stream(s);
    var i :| 0 <= i < |s| && !IsJetChar(s[i]) && r.error == JetMessage(s[i])
      && forall j | 0 <= j < i :: IsJetChar(s[j]);
    assert i == 6;
  }

  // ---------------------------------------------------------------- the tests

  /** `chamber_default_is_empty` and
      `chamber_gravity_lets_rock_fall_down_until_on_ground`: the first rock
      falls three times and lands on the floor at the fourth call. */
  method GravityExample() returns (answers: seq<bool>, empty: bool)
    ensures answers == [false, false, false, true] && !empty
  {
    var chamber := new Chamber();
    FlatRockLands(3);
    var a := chamber.Gravity();
    assert !a && chamber.rock == NewRock(Coord(2, 2), Horizontal) && chamber.rocks == {};
    FlatRockLands(2);
    var b := chamber.Gravity();
    assert !b && chamber.rock == NewRock(Coord(2, 1), Horizontal) && chamber.rocks == {};
    FlatRockLands(1);
    var c := chamber.Gravity();
    assert !c && chamber.rock == NewRock(Coord(2, 0), Horizontal) && chamber.rocks == {};
    FlatRockLands(0);
    var d := chamber.Gravity();
    assert Coords(NewRock(Coord(2, 0), Horizontal))[0] in chamber.rocks;
    answers := [a, b, c, d];
    empty := chamber.rocks == {};
  }

  /** The first shape in an empty chamber lands only on the floor. */
  lemma FlatRockLands(y: int)
    ensures Lands(Coords(NewRock(Coord(2, y), Horizontal)), {}) <==> y == 0
    ensures Moved(NewRock(Coord(2, y), Horizontal), Down) == NewRock(Coord(2, y - 1), Horizontal)
  {
    assert Coords(NewRock(Coord(2, y), Horizontal))[0].y == y;
  }

  /** `chamber_push_lets_rock_move_sideways`: the origins after a push to
      the left and one back to the right. */
  method PushSideways() returns (origins: seq<Coord>)
    ensures origins == [Coord(1, 3), Coord(2, 3)]
  {
    var chamber := new Chamber();
    chamber.Push(Vector(Left));
    var first := chamber.rock.origin;
    chamber.Push(Vector(Right));
    origins := [first, chamber.rock.origin];
  }

  /** `chamber_push_does_nothing_if_rock_is_already_against_wall`. */
  method PushAgainstWall() returns (origin: Coord)
    ensures origin == Coord(0, 3)
  {
    var chamber := new Chamber();
    chamber.rock := chamber.rock.(origin := Coord(0, 3));
    assert Coords(chamber.rock)[0] == Coord(0, 3);
    chamber.Push(Vector(Left));
    origin := chamber.rock.origin;
  }

  /** `chamber_push_does_nothing_if_rock_in_way`: settled rocks just left
      and just right of the first rock stop pushes both ways. */
  method PushIntoRocks() returns (origins: seq<Coord>)
    ensures origins == [Coord(2, 3), Coord(2, 3)]
  {
    var chamber := new Chamber();
    var start := chamber.rock.origin;
    chamber.rocks := {start.Plus(Coord(-1, 0)), start.Plus(Coord(4, 0))};
    RocksBeside(chamber.rocks);
    chamber.Push(Vector(Left));
    chamber.Push(Vector(Right));
    origins := [start, chamber.rock.origin];
  }

  /** Settled rocks at (1, 3) and (6, 3) block the first rock both ways. */
  lemma RocksBeside(rocks: set<Coord>)
    requires rocks == {Coord(1, 3), Coord(6, 3)}
    ensures Hits(Coords(NewRock(Coord(2, 3), Horizontal)), rocks, Vector(Left))
    ensures Hits(Coords(NewRock(Coord(2, 3), Horizontal)), rocks, Vector(Right))
  {
    var cs := Coords(NewRock(Coord(2, 3), Horizontal));
    assert cs[0].Plus(Vector(Left)) == Coord(1, 3);
    assert cs[3].Plus(Vector(Right)) == Coord(6, 3);
  }

  /** The loop of `chamber_sample_a`: jets are taken in a cycle, each rock
      is pushed and then falls, and after `count` rocks have come to rest
      (at least one) the chamber is returned. The loop ends because each
      rock falls until it lands, at the latest on the floor. */
  method DropRocks(jets: seq<Jet>, count: nat) returns (chamber: Chamber, settled: nat)
    ensures fresh(chamber) && chamber.Valid()
    ensures jets != [] ==> settled == if count == 0 then 1 else count
    ensures jets == [] ==> settled == 0
  {
    chamber := new Chamber();
    settled := 0;
    EmptyChamber();
    if jets == [] {
      return;
    }
    var k := 0;
    while true
      invariant 0 <= k < |jets|
      invariant settled < count || settled == 0
      invariant chamber.Airborne()
      decreases count + 1 - settled, chamber.rock.origin.y
    {
      var landed := PushAndFall(chamber, Vector(jets[k]));
      k := (k + 1) % |jets|;
      if landed {
        settled := settled + 1;
        if settled >= count {
          return;
        }
        SpawnIsInFlight(chamber.rock, chamber.rocks, chamber.max, NextCycle(chamber.rock.shape));
        chamber.Spawn();
      }
    }
  }

  /** One turn of the loop: a push, then a fall or a landing. A rock that
      does not land has moved down a row without reaching below the
      floor. */
  method PushAndFall(chamber: Chamber, jet: Coord) returns (landed: bool)
    requires chamber.Airborne() && jet.y == 0
    modifies chamber`rock, chamber`rocks, chamber`max
    ensures landed ==> chamber.Valid()
    ensures !landed ==> chamber.Airborne() && 0 <= chamber.rock.origin.y < old(chamber.rock.origin.y)
  {
    if !Hits(Coords(chamber.rock), chamber.rocks, jet) {
      PushKeepsFlight(chamber.rock, chamber.rocks, chamber.max, jet);
    }
    chamber.Push(jet);
    OffsetsInBox(chamber.rock.shape);
    ghost var height := chamber.rock.origin.y;
    assert Coords(chamber.rock)[0].y == height;
    if Lands(Coords(chamber.rock), chamber.rocks) {
      SettleKeepsLayout(chamber.rock, chamber.rocks, chamber.max);
    } else {
      FallKeepsFlight(chamber.rock, chamber.rocks, chamber.max);
    }
    landed := chamber.Gravity();
    if !landed {
      assert height != 0;
      OffsetsInBox(chamber.rock.shape);
      assert Coords(chamber.rock)[0].y == chamber.rock.origin.y;
    }
  }
}
