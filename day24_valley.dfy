/** Day 24, the valley: a walled rectangle whose interior holds blizzards
    that each move one cell per minute in their own direction, wrapping from
    one wall to the opposite one. The only gaps in the walls are the entry
    on the top row and the exit on the bottom row. */
module Day24Valley {
  import opened Wrappers
  import opened Ints
  import opened Text

  /** `euclid::Vector2D<i32>`, y pointing down; the i32 range is not
      modelled. */
  datatype Coord = Coord(x: int, y: int)
  {
    function Plus(d: Coord): Coord { Coord(x + d.x, y + d.y) }
  }

  /** `Direction`, declared beside the search. */
  datatype Direction = Up | Left | Right | Down

  /** `TryFrom<char> for Direction`. */
  function ParseDirection(c: char): (r: Result<Direction, char>)
    ensures r.Err? ==> r.error == c
  {
    match c
    case '>' => Ok(Right)
    case '<' => Ok(Left)
    case 'v' => Ok(Down)
    case '^' => Ok(Up)
    case _ => Err(c)
  }

  /** The character a blizzard is drawn with in the input. */
  function Glyph(d: Direction): char
  {
    match d
    case Right => '>'
    case Left => '<'
    case Down => 'v'
    case Up => '^'
  }

  /** Exactly the four blizzard characters parse, each to the direction it
      is drawn for. */
  lemma ParseDirectionGlyph(c: char)
    ensures ParseDirection(c).Ok? <==> c in {'>', '<', 'v', '^'}
    ensures forall d :: ParseDirection(Glyph(d)) == Ok(d)
    ensures ParseDirection(c).Ok? ==> Glyph(ParseDirection(c).value) == c
  {
  }

  /** The four directions `blizzards` probes are all there are. */
  lemma EveryDirection()
    ensures forall d :: d in [Up, Down, Left, Right]
  {
    forall d ensures d in [Up, Down, Left, Right] {
      match d
      case Up =>
      case Down =>
      case Left =>
      case Right =>
    }
  }

  /** `From<Direction> for Coord`. */
  function Unit(d: Direction): (u: Coord)
    ensures Abs(u.x) + Abs(u.y) == 1
  {
    match d
    case Up => Coord(0, -1)
    case Down => Coord(0, 1)
    case Left => Coord(-1, 0)
    case Right => Coord(1, 0)
  }

  datatype Blizzard = Blizzard(coord: Coord, direction: Direction)

  /** Strictly inside the walls: the cells blizzards live on. */
  predicate Interior(c: Coord, dims: Coord)
  {
    0 < c.x < dims.x && 0 < c.y < dims.y
  }

  /** `blow`: one step in the blizzard's direction, and a step onto a wall
      re-enters from the opposite wall. */
  function Blow(b: Blizzard, dims: Coord): (r: Blizzard)
  {
    var t := b.coord.Plus(Unit(b.direction));
    var x1 := if t.x < 1 then t.x + (dims.x - 1) else t.x;
    var x2 := if x1 >= dims.x then x1 - (dims.x - 1) else x1;
    var y1 := if t.y < 1 then t.y + (dims.y - 1) else t.y;
    var y2 := if y1 >= dims.y then y1 - (dims.y - 1) else y1;
    Blizzard(Coord(x2, y2), b.direction)
  }

  /** A blizzard keeps its direction and, from the interior, moves one step
      around the torus the interior forms: its offset from the first inner
      row and column advances by one modulo the inner width and height. */
  lemma BlowWraps(b: Blizzard, dims: Coord)
    requires Interior(b.coord, dims)
    ensures Blow(b, dims).direction == b.direction
    ensures Interior(Blow(b, dims).coord, dims)
    ensures Blow(b, dims).coord.x - 1 == (b.coord.x - 1 + Unit(b.direction).x) % (dims.x - 1)
    ensures Blow(b, dims).coord.y - 1 == (b.coord.y - 1 + Unit(b.direction).y) % (dims.y - 1)
  {
    var u := Unit(b.direction);
    WrapStep(b.coord.x - 1 + u.x, dims.x - 1);
    WrapStep(b.coord.y - 1 + u.y, dims.y - 1);
  }

  /** An offset at most one past either end of `0..n` reduces by one wrap. */
  lemma WrapStep(t: int, n: int)
    requires n >= 1 && -1 <= t <= n
    ensures t % n == if t < 0 then t + n else if t >= n then t - n else t
  {
    if t < 0 {
      ModUnique(t, n, -1, t + n);
    } else if t >= n {
      ModUnique(t, n, 1, t - n);
    } else {
      ModUnique(t, n, 0, t);
    }
  }

  /** Two interior blizzards never blow onto the same cell in the same
      direction, so a minute loses no blizzard. */
  lemma BlowInjective(a: Blizzard, b: Blizzard, dims: Coord)
    requires Interior(a.coord, dims) && Interior(b.coord, dims)
    requires Blow(a, dims) == Blow(b, dims)
    ensures a == b
  {
  }

  /** The wrap-around cases of the blizzard tests on a 6 by 6 valley. */
  lemma BlowSamples()
    ensures Blow(Blizzard(Coord(5, 2), Right), Coord(6, 6)) == Blizzard(Coord(1, 2), Right)
    ensures Blow(Blizzard(Coord(1, 2), Left), Coord(6, 6)) == Blizzard(Coord(5, 2), Left)
    ensures Blow(Blizzard(Coord(4, 5), Down), Coord(6, 6)) == Blizzard(Coord(4, 1), Down)
    ensures Blow(Blizzard(Coord(4, 1), Up), Coord(6, 6)) == Blizzard(Coord(4, 5), Up)
  {
  }

  // ---------------------------------------------------------------- the valley

  /** `Valley`: `dims` are the coordinates of the bottom-right wall corner. */
  datatype Valley = Valley(entry: Coord, exit: Coord, dims: Coord, blizzards: set<Blizzard>)

  /** What a parsed valley looks like: the entry in the top wall, the exit in
      the bottom wall and every blizzard in the interior. */
  predicate WellFormed(v: Valley)
  {
    && v.entry.y == 0 && v.exit.y == v.dims.y >= 1
    && forall b | b in v.blizzards :: Interior(b.coord, v.dims)
  }

  /** `blizzards`: the directions of the blizzards on `c`. */
  function BlizzardsAt(v: Valley, c: Coord): (r: set<Direction>)
    ensures forall d :: d in r <==> Blizzard(c, d) in v.blizzards
  {
    EveryDirection();
    set d | d in [Up, Down, Left, Right] && Blizzard(c, d) in v.blizzards
  }

  /** `inside`: an interior cell, the entry or the exit. */
  predicate Inside(v: Valley, c: Coord)
  {
    (c.x > 0 && c.x < v.dims.x && c.y > 0 && c.y < v.dims.y) || c == v.entry || c == v.exit
  }

  /** The cells a walker may stand on lie within the walls' rectangle, and
      a wall cell is one only when it is the entry or the exit. */
  lemma InsideWithinWalls(v: Valley, c: Coord)
    requires WellFormed(v) && 0 <= v.entry.x <= v.dims.x && 0 <= v.exit.x <= v.dims.x
    ensures Inside(v, c) ==> 0 <= c.x <= v.dims.x && 0 <= c.y <= v.dims.y
    ensures Inside(v, c) && !Interior(c, v.dims) ==> c == v.entry || c == v.exit
    ensures Inside(v, v.entry) && Inside(v, v.exit)
  {
  }

  /** `simulate`: every blizzard blows once; the walls stay. */
  function Simulate(v: Valley): (r: Valley)
    ensures r.entry == v.entry && r.exit == v.exit && r.dims == v.dims
  {
    Valley(v.entry, v.exit, v.dims, set b | b in v.blizzards :: Blow(b, v.dims))
  }

  /** A minute keeps the valley well formed, every blizzard of the new
      valley is an old one blown, and their number stays the same. */
  lemma SimulateKeeps(v: Valley)
    requires WellFormed(v)
    ensures WellFormed(Simulate(v))
    ensures forall b | b in v.blizzards :: Blow(b, v.dims) in Simulate(v).blizzards
    ensures forall b | b in Simulate(v).blizzards :: exists a | a in v.blizzards :: Blow(a, v.dims) == b
    ensures |Simulate(v).blizzards| == |v.blizzards|
  {
    forall b | b in v.blizzards ensures Interior(Blow(b, v.dims).coord, v.dims) {
      BlowWraps(b, v.dims);
    }
    BlownCount(v.blizzards, v.dims, v.blizzards);
  }

  /** Blowing the blizzards of `part` gives as many blizzards as `part` has. */
  lemma {:induction false} BlownCount(all: set<Blizzard>, dims: Coord, part: set<Blizzard>)
    requires part <= all && forall b | b in all :: Interior(b.coord, dims)
    ensures |set b | b in part :: Blow(b, dims)| == |part|
    decreases |part|
  {
    if part != {} {
      var a :| a in part;
      var rest := part - {a};
      BlownCount(all, dims, rest);
      var image := set b | b in rest :: Blow(b, dims);
      forall b | b in rest ensures Blow(b, dims) != Blow(a, dims) {
        if Blow(b, dims) == Blow(a, dims) {
          BlowInjective(a, b, dims);
        }
      }
      assert (set b | b in part :: Blow(b, dims)) == image + {Blow(a, dims)};
    }
  }

  /** The valley after `t` minutes. */
  function After(v: Valley, t: nat): (r: Valley)
    ensures r.entry == v.entry && r.exit == v.exit && r.dims == v.dims
  {
    if t == 0 then v else Simulate(After(v, t - 1))
  }

  /** Blizzards stay in the interior however long they blow, so the entry
      and the exit never hold one. */
  lemma {:induction false} AfterWellFormed(v: Valley, t: nat)
    requires WellFormed(v)
    ensures WellFormed(After(v, t))
    ensures BlizzardsAt(After(v, t), v.entry) == {} && BlizzardsAt(After(v, t), v.exit) == {}
  {
    if t > 0 {
      AfterWellFormed(v, t - 1);
      SimulateKeeps(After(v, t - 1));
    }
    var w := After(v, t);
    forall d ensures Blizzard(v.entry, d) !in w.blizzards && Blizzard(v.exit, d) !in w.blizzards {
    }
  }

  // ---------------------------------------------------------------- parsing

  datatype ValleyError = GridEmpty | OnlyWalls | NoEntry | NoExit | ShortLine(line: nat)

  /** `find(is_opening)`: the column of the first '.'. */
  function Opening(line: String): (r: Option<nat>)
    ensures r.Some? ==> r.value < |line| && line[r.value] == '.'
    ensures r.Some? ==> forall j | 0 <= j < r.value :: line[j] != '.'
    ensures r.None? ==> forall j | 0 <= j < |line| :: line[j] != '.'
  {
    if line == [] then None
    else if line[0] == '.' then Some(0)
    else match Opening(line[1..])
      case None => None
      case Some(i) => Some(i + 1)
  }

  /** Every inner row is long enough to read each inner column from. */
  predicate LongEnough(lines: seq<String>, dims: Coord)
    requires 0 <= dims.y < |lines|
  {
    forall y | 1 <= y < dims.y :: dims.x <= 1 || dims.x <= |lines[y]|
  }

  /** The blizzards drawn on the inner cells. */
  function Drawn(lines: seq<String>, dims: Coord): set<Blizzard>
    requires 0 <= dims.y < |lines|
  {
    set x: int, y: int | 1 <= x < dims.x && 1 <= y < dims.y && x < |lines[y]| && ParseDirection(lines[y][x]).Ok?
      :: Blizzard(Coord(x, y), ParseDirection(lines[y][x]).value)
  }

  /** Row `y` is the first one the scan finds too short: every row reached
      column `x - 1`, and of the rows at column `x`, `y` is the first that
      does not reach it. */
  predicate FirstShort(lines: seq<String>, dims: Coord, x: nat, y: nat)
    requires y < |lines| && dims.y <= |lines|
  {
    && |lines[y]| <= x
    && (forall k | 1 <= k < y :: x < |lines[k]|)
    && (x == 1 || forall k | 1 <= k < dims.y :: x - 1 < |lines[k]|)
  }

  /** The nested scan of `from_str`, column by column and, in each column,
      row by row; it stops at the first inner row too short to read. */
  method ScanBlizzards(lines: seq<String>, dims: Coord) returns (r: Result<set<Blizzard>, ValleyError>)
    requires 0 <= dims.y < |lines|
    ensures r.Ok? <==> LongEnough(lines, dims)
    ensures r.Ok? ==> r.value == Drawn(lines, dims)
    ensures r.Err? ==> r.error.ShortLine? && 1 <= r.error.line < dims.y && |lines[r.error.line]| < dims.x
    ensures r.Err? ==> exists x | 1 <= x < dims.x :: FirstShort(lines, dims, x, r.error.line)
  {
    var blizzards: set<Blizzard> := {};
    var x := 1;
    while x < dims.x
      invariant 1 <= x <= if dims.x < 1 then 1 else dims.x
      invariant x == 1 || forall y | 1 <= y < dims.y :: x - 1 < |lines[y]|
      invariant blizzards == DrawnBefore(lines, dims, x, dims.y)
      decreases dims.x - x
    {
      var y := 1;
      while y < dims.y
        invariant 1 <= y <= if dims.y < 1 then 1 else dims.y
        invariant forall k | 1 <= k < y :: x < |lines[k]|
        invariant blizzards == DrawnBefore(lines, dims, x, dims.y) + DrawnColumn(lines, x, y)
        decreases dims.y - y
      {
        if |lines[y]| <= x {
          assert FirstShort(lines, dims, x, y);
          return Err(ShortLine(y));
        }
        var d := ParseDirection(lines[y][x]);
        if d.Ok? {
          blizzards := blizzards + {Blizzard(Coord(x, y), d.value)};
        }
        y := y + 1;
      }
      ColumnDone(lines, dims, x);
      x := x + 1;
    }
    DrawnAll(lines, dims, x);
    return Ok(blizzards);
  }

  /** The blizzards drawn on the inner cells of the columns before `x`. */
  function DrawnBefore(lines: seq<String>, dims: Coord, x: int, h: int): set<Blizzard>
    requires h < |lines|
  {
    set x': int, y: int | 1 <= x' < x && 1 <= y < h && x' < |lines[y]| && ParseDirection(lines[y][x']).Ok?
      :: Blizzard(Coord(x', y), ParseDirection(lines[y][x']).value)
  }

  /** The blizzards drawn in column `x` above row `y`. */
  function DrawnColumn(lines: seq<String>, x: int, y: int): set<Blizzard>
    requires y <= |lines|
  {
    set k: int | 1 <= k < y && 0 <= x < |lines[k]| && ParseDirection(lines[k][x]).Ok?
      :: Blizzard(Coord(x, k), ParseDirection(lines[k][x]).value)
  }

  lemma ColumnDone(lines: seq<String>, dims: Coord, x: int)
    requires 0 <= dims.y < |lines| && x >= 1
    ensures DrawnBefore(lines, dims, x, dims.y) + DrawnColumn(lines, x, if dims.y < 1 then 1 else dims.y)
      == DrawnBefore(lines, dims, x + 1, dims.y)
  {
  }

  lemma DrawnAll(lines: seq<String>, dims: Coord, x: int)
    requires 0 <= dims.y < |lines| && x >= 1 && (dims.x >= 1 ==> x == dims.x) && (dims.x < 1 ==> x == 1)
    ensures DrawnBefore(lines, dims, x, dims.y) == Drawn(lines, dims)
  {
  }

  /** The input `from_str` accepts: at least two lines, an opening in the
      top and in the bottom line, and inner rows long enough. */
  predicate Parses(s: String)
  {
    var lines := Lines(s);
    && |lines| >= 2 && Opening(lines[0]).Some? && Opening(lines[|lines| - 1]).Some?
    && LongEnough(lines, Coord(|lines[0]| - 1, |lines| - 1))
  }

  /** The valley `from_str` builds from such an input. */
  function ValleyOf(s: String): (v: Valley)
    requires Parses(s)
    ensures WellFormed(v)
  {
    var lines := Lines(s);
    var dims := Coord(|lines[0]| - 1, |lines| - 1);
    Valley(Coord(Opening(lines[0]).value, 0), Coord(Opening(lines[dims.y]).value, dims.y), dims, Drawn(lines, dims))
  }

  /** `from_str`: at least two lines; the first line sets the width and the
      number of lines the height; the entry is the first '.' of the top line
      and the exit the first '.' of the bottom line. */
  method Parse(s: String) returns (r: Result<Valley, ValleyError>)
    ensures Lines(s) == [] <==> r == Err(GridEmpty)
    ensures |Lines(s)| == 1 <==> r == Err(OnlyWalls)
    ensures r == Err(NoEntry) <==> |Lines(s)| >= 2 && Opening(Lines(s)[0]).None?
    ensures r == Err(NoExit) <==>
      |Lines(s)| >= 2 && Opening(Lines(s)[0]).Some? && Opening(Lines(s)[|Lines(s)| - 1]).None?
    ensures r.Ok? <==> Parses(s)
    ensures r.Ok? ==> r.value == ValleyOf(s) && WellFormed(r.value)
    ensures r.Ok? ==> r.value.dims == Coord(|Lines(s)[0]| - 1, |Lines(s)| - 1)
    ensures r.Ok? ==> r.value.blizzards == Drawn(Lines(s), r.value.dims)
  {
    var lines := Lines(s);
    if |lines| == 0 {
      return Err(GridEmpty);
    }
    if |lines| == 1 {
      return Err(OnlyWalls);
    }
    var dims := Coord(|lines[0]| - 1, |lines| - 1);
    var entry := Opening(lines[0]);
    if entry.None? {
      return Err(NoEntry);
    }
    var exit := Opening(lines[dims.y]);
    if exit.None? {
      return Err(NoExit);
    }
    var blizzards := ScanBlizzards(lines, dims);
    if blizzards.Err? {
      return Err(blizzards.error);
    }
    r := Ok(Valley(Coord(entry.value, 0), Coord(exit.value, dims.y), dims, blizzards.value));
  }
}
