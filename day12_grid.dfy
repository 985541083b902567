/** Day 12, the heightmap: a grid of elevation letters read line by line,
    with the start `S` at elevation `a` and the best signal `E` at `z`. */
module Day12Grid {
  import opened Wrappers
  import opened Text

  /** A vector of `euclid::Vector2D<i32>`; the i32 range is not modelled. */
  datatype Coord = Coord(x: int, y: int)
  {
    function Plus(d: Coord): Coord { Coord(x + d.x, y + d.y) }
  }

  datatype TwelfthError =
    | FileProblem(message: String)
    | InputDoesNotContainAnyStart
    | InputDoesNotContainAnyFinish
    | SolverCouldNotFindASolutionToTarget

  /** `Heightmap`: never changed once it is read. */
  datatype Heightmap = Heightmap(start: Coord, finish: Coord, grid: map<Coord, char>, width: nat, height: nat)
  {
    /** `elevation`: the cell and its letter, or nothing off the grid. */
    function Elevation(c: Coord): (r: Option<(Coord, char)>)
      ensures r.Some? <==> c in grid
      ensures r.Some? ==> r.value == (c, grid[c])
    {
      if c in grid then Some((c, grid[c])) else None
    }

    /** `dimension`. */
    function Dimension(): (r: (nat, nat))
      ensures r.0 == width && r.1 == height
    {
      (width, height)
    }
  }

  /** The letter stored for a character of the input. */
  function Level(c: char): (l: char)
    ensures c == 'S' ==> l == 'a'
    ensures c == 'E' ==> l == 'z'
    ensures c != 'S' && c != 'E' ==> l == c
  {
    if c == 'S' then 'a' else if c == 'E' then 'z' else c
  }

  // ---------------------------------------------------------------- reading, as values

  /** The last index of `ch` in a row. */
  function LastIn(row: String, ch: char): (r: Option<nat>)
    ensures r.Some? ==> r.value < |row| && row[r.value] == ch
    ensures r.Some? ==> forall j | r.value < j < |row| :: row[j] != ch
    ensures r.None? ==> forall j | 0 <= j < |row| :: row[j] != ch
  {
    if row == [] then None
    else if row[|row| - 1] == ch then Some(|row| - 1)
    else LastIn(row[..|row| - 1], ch)
  }

  /** `ch` occurs at `c` of the lines. */
  predicate At(ls: seq<String>, c: Coord, ch: char)
  {
    0 <= c.y < |ls| && 0 <= c.x < |ls[c.y]| && ls[c.y][c.x] == ch
  }

  /** `c` comes after `d` in reading order. */
  predicate After(c: Coord, d: Coord)
  {
    c.y > d.y || (c.y == d.y && c.x > d.x)
  }

  /** The last position of `ch` in reading order: the one a scan that keeps
      overwriting ends with. */
  function LastOf(ls: seq<String>, ch: char): (r: Option<Coord>)
  {
    if ls == [] then None
    else match LastIn(ls[|ls| - 1], ch)
      case Some(x) => Some(Coord(x, |ls| - 1))
      case None => LastOf(ls[..|ls| - 1], ch)
  }

  /** The cells of one row, at height `y`. */
  function RowGrid(row: String, y: int): map<Coord, char>
  {
    if row == [] then map[]
    else RowGrid(row[..|row| - 1], y)[Coord(|row| - 1, y) := Level(row[|row| - 1])]
  }

  /** The cells of all lines. */
  function GridOf(ls: seq<String>): map<Coord, char>
  {
    if ls == [] then map[] else GridOf(ls[..|ls| - 1]) + RowGrid(ls[|ls| - 1], |ls| - 1)
  }

  /** `max_x`: the largest column index met, 0 when there is none. */
  function MaxX(ls: seq<String>): nat
  {
    if ls == [] then 0
    else
      var last := ls[|ls| - 1];
      Max(MaxX(ls[..|ls| - 1]), if last == [] then 0 else |last| - 1)
  }

  /** `max_y`: the last row holding a character, 0 when there is none. */
  function MaxY(ls: seq<String>): nat
  {
    if ls == [] then 0
    else if ls[|ls| - 1] != [] then |ls| - 1
    else MaxY(ls[..|ls| - 1])
  }

  function Max(a: nat, b: nat): nat
  {
    if a < b then b else a
  }

  /** What `from_str` yields for the lines of the input. */
  function HeightmapOf(ls: seq<String>): (r: Result<Heightmap, TwelfthError>)
  {
    if LastOf(ls, 'S').None? then Err(InputDoesNotContainAnyStart)
    else if LastOf(ls, 'E').None? then Err(InputDoesNotContainAnyFinish)
    else Ok(Heightmap(LastOf(ls, 'S').value, LastOf(ls, 'E').value, GridOf(ls), MaxX(ls) + 1, MaxY(ls) + 1))
  }

  // ---------------------------------------------------------------- what the values mean

  /** The last position found is an occurrence with none after it, and no
      position is found exactly when there is no occurrence at all. */
  lemma {:induction false} LastOfIsLast(ls: seq<String>, ch: char)
    ensures LastOf(ls, ch).Some? ==> At(ls, LastOf(ls, ch).value, ch)
    ensures LastOf(ls, ch).Some? ==>
      forall c | At(ls, c, ch) :: !After(c, LastOf(ls, ch).value)
    ensures LastOf(ls, ch).None? <==> forall c :: !At(ls, c, ch)
  {
    if ls != [] {
      var init := ls[..|ls| - 1];
      LastOfIsLast(init, ch);
      forall c | At(init, c, ch)
        ensures At(ls, c, ch)
      {
      }
      forall c | At(ls, c, ch) && c.y < |ls| - 1
        ensures At(init, c, ch)
      {
      }
      if LastIn(ls[|ls| - 1], ch).None? {
        forall c | At(ls, c, ch)
          ensures c.y < |ls| - 1
        {
        }
      } else {
        var x := LastIn(ls[|ls| - 1], ch).value;
        assert At(ls, Coord(x, |ls| - 1), ch);
      }
    }
  }

  lemma {:induction false} RowGridCells(row: String, y: int)
    ensures forall c :: c in RowGrid(row, y) <==> c.y == y && 0 <= c.x < |row|
    ensures forall c | c in RowGrid(row, y) :: RowGrid(row, y)[c] == Level(row[c.x])
  {
    if row != [] {
      RowGridCells(row[..|row| - 1], y);
    }
  }

  /** The grid holds exactly the cells of the lines, each at the letter of
      its character with `S` and `E` replaced. */
  lemma {:induction false} GridOfCells(ls: seq<String>)
    ensures forall c :: c in GridOf(ls) <==> 0 <= c.y < |ls| && 0 <= c.x < |ls[c.y]|
    ensures forall c | c in GridOf(ls) :: GridOf(ls)[c] == Level(ls[c.y][c.x])
  {
    if ls != [] {
      var init := ls[..|ls| - 1];
      GridOfCells(init);
      RowGridCells(ls[|ls| - 1], |ls| - 1);
    }
  }

  /** `width` and `height` are one past the largest column and row that
      hold a character, and every character lies within them. */
  lemma {:induction false} DimensionsBound(ls: seq<String>)
    ensures forall y | 0 <= y < |ls| :: |ls[y]| <= MaxX(ls) + 1 && (ls[y] != [] ==> y <= MaxY(ls))
    ensures MaxY(ls) == 0 || (MaxY(ls) < |ls| && ls[MaxY(ls)] != [])
    ensures MaxX(ls) == 0 || exists y | 0 <= y < |ls| :: |ls[y]| == MaxX(ls) + 1
  {
    if ls != [] {
      var init := ls[..|ls| - 1];
      DimensionsBound(init);
      assert forall y | 0 <= y < |init| :: ls[y] == init[y];
      if MaxX(ls) != 0 && MaxX(ls) != MaxX(init) {
        assert |ls[|ls| - 1]| == MaxX(ls) + 1;
      }
    }
  }

  /** `from_str` fails on a missing start before it looks for the finish; a
      heightmap it reads has its start at an `S` shown as `a`, its finish at
      an `E` shown as `z`, and is as wide and high as its characters. */
  lemma HeightmapOfMeaning(ls: seq<String>)
    ensures HeightmapOf(ls) == Err(InputDoesNotContainAnyStart) <==> forall c :: !At(ls, c, 'S')
    ensures HeightmapOf(ls) == Err(InputDoesNotContainAnyFinish) <==>
      (exists c :: At(ls, c, 'S')) && forall c :: !At(ls, c, 'E')
    ensures HeightmapOf(ls).Ok? ==>
      var h := HeightmapOf(ls).value;
      && At(ls, h.start, 'S') && At(ls, h.finish, 'E')
      && h.start in h.grid && h.grid[h.start] == 'a'
      && h.finish in h.grid && h.grid[h.finish] == 'z'
      && (forall c | c in h.grid :: 0 <= c.x < h.width && 0 <= c.y < h.height)
  {
    LastOfIsLast(ls, 'S');
    LastOfIsLast(ls, 'E');
    GridOfCells(ls);
    DimensionsBound(ls);
    if HeightmapOf(ls).Ok? {
      var h := HeightmapOf(ls).value;
      assert Level(ls[h.start.y][h.start.x]) == 'a';
    }
  }

  /** The one-line example: start at the `S` on the left, finish at the `E`
      on the right, and the letters in between. */
  lemma OneLineExample(s: String)
    requires s == "SabcdeE"
    ensures HeightmapOf(Lines(s)).Ok?
    ensures HeightmapOf(Lines(s)).value.start == Coord(0, 0)
    ensures HeightmapOf(Lines(s)).value.finish == Coord(6, 0)
    ensures HeightmapOf(Lines(s)).value.grid == map[Coord(0, 0) := 'a', Coord(1, 0) := 'a', Coord(2, 0) := 'b',
      Coord(3, 0) := 'c', Coord(4, 0) := 'd', Coord(5, 0) := 'e', Coord(6, 0) := 'z']
    ensures HeightmapOf(Lines(s)).value.Dimension() == (7, 1)
  {
    var ls := [s];
    assert Lines(s) == ls by {
      SplitWithout(s, "\n");
    }
    OneLineStartFinish(ls);
    OneLineGrid(ls);
    assert MaxX(ls) == 6 && MaxY(ls) == 0 by {
      assert ls[..0] == [];
    }
  }

  lemma OneLineStartFinish(ls: seq<String>)
    requires ls == ["SabcdeE"]
    ensures LastOf(ls, 'S') == Some(Coord(0, 0)) && LastOf(ls, 'E') == Some(Coord(6, 0))
  {
    assert At(ls, Coord(0, 0), 'S');
    LastOfIsLast(ls, 'S');
    assert At(ls, Coord(6, 0), 'E');
    LastOfIsLast(ls, 'E');
  }

  lemma OneLineGrid(ls: seq<String>)
    requires ls == ["SabcdeE"]
    ensures GridOf(ls) == map[Coord(0, 0) := 'a', Coord(1, 0) := 'a', Coord(2, 0) := 'b',
      Coord(3, 0) := 'c', Coord(4, 0) := 'd', Coord(5, 0) := 'e', Coord(6, 0) := 'z']
  {
    GridOfCells(ls);
  }

  // ---------------------------------------------------------------- reading in place

  lemma ScanEmptyRow(ls: seq<String>)
    ensures LastOf(ls + [[]], 'S') == LastOf(ls, 'S') && LastOf(ls + [[]], 'E') == LastOf(ls, 'E')
    ensures GridOf(ls + [[]]) == GridOf(ls)
    ensures MaxX(ls + [[]]) == MaxX(ls) && MaxY(ls + [[]]) == MaxY(ls)
  {
    assert (ls + [[]])[..|ls|] == ls;
  }

  lemma MaxYBelow(ls: seq<String>)
    requires ls != []
    ensures MaxY(ls) < |ls|
  {
  }

  lemma ScanCharLast(ls: seq<String>, row: String, c: char, ch: char)
    ensures LastOf(ls + [row + [c]], ch) == if c == ch then Some(Coord(|row|, |ls|)) else LastOf(ls + [row], ch)
  {
    var a := ls + [row];
    var b := ls + [row + [c]];
    assert a[..|ls|] == ls && b[..|ls|] == ls;
    assert (row + [c])[..|row|] == row;
  }

  lemma ScanCharGrid(ls: seq<String>, row: String, c: char)
    ensures GridOf(ls + [row + [c]]) == GridOf(ls + [row])[Coord(|row|, |ls|) := Level(c)]
  {
    var a := ls + [row];
    var b := ls + [row + [c]];
    assert a[..|ls|] == ls && b[..|ls|] == ls;
    assert (row + [c])[..|row|] == row;
    var k := Coord(|row|, |ls|);
    var m, r := GridOf(ls), RowGrid(row, |ls|);
    assert GridOf(a) == m + r;
    assert GridOf(b) == m + r[k := Level(c)] by {
      assert RowGrid(row + [c], |ls|) == r[k := Level(c)];
    }
    UnionUpdate(m, r, k, Level(c));
  }

  lemma UnionUpdate(m: map<Coord, char>, r: map<Coord, char>, k: Coord, v: char)
    ensures m + r[k := v] == (m + r)[k := v]
  {
  }

  lemma ScanCharMax(ls: seq<String>, row: String, c: char)
    ensures MaxX(ls + [row + [c]]) == Max(MaxX(ls + [row]), |row|)
    ensures MaxY(ls + [row + [c]]) == Max(MaxY(ls + [row]), |ls|)
  {
    var a := ls + [row];
    var b := ls + [row + [c]];
    assert a[..|ls|] == ls && b[..|ls|] == ls;
    MaxYBelow(a);
  }

  /** The inner loop of `from_str`: the characters of line `y`, left to
      right. */
  method ScanLine(done: seq<String>, line: String, start0: Option<Coord>, finish0: Option<Coord>,
                  grid0: map<Coord, char>, maxX0: nat, maxY0: nat)
    returns (start: Option<Coord>, finish: Option<Coord>, grid: map<Coord, char>, maxX: nat, maxY: nat)
    requires start0 == LastOf(done, 'S') && finish0 == LastOf(done, 'E')
    requires grid0 == GridOf(done) && maxX0 == MaxX(done) && maxY0 == MaxY(done)
    ensures start == LastOf(done + [line], 'S') && finish == LastOf(done + [line], 'E')
    ensures grid == GridOf(done + [line]) && maxX == MaxX(done + [line]) && maxY == MaxY(done + [line])
  {
    start, finish, grid, maxX, maxY := start0, finish0, grid0, maxX0, maxY0;
    var y := |done|;
    ScanEmptyRow(done);
    for x := 0 to |line|
      invariant start == LastOf(done + [line[..x]], 'S') && finish == LastOf(done + [line[..x]], 'E')
      invariant grid == GridOf(done + [line[..x]])
      invariant maxX == MaxX(done + [line[..x]]) && maxY == MaxY(done + [line[..x]])
    {
      var c := line[x];
      assert line[..x + 1] == line[..x] + [c];
      ScanCharLast(done, line[..x], c, 'S');
      ScanCharLast(done, line[..x], c, 'E');
      ScanCharGrid(done, line[..x], c);
      ScanCharMax(done, line[..x], c);
      maxX := Max(maxX, x);
      maxY := Max(maxY, y);
      var coord := Coord(x, y);
      if c == 'S' {
        start := Some(coord);
      }
      if c == 'E' {
        finish := Some(coord);
      }
      grid := grid[coord := Level(c)];
    }
    assert line[..|line|] == line;
  }

  /** `from_str`: every character of every line is stored under its cell
      (`S` as `a`, `E` as `z`), the last `S` and `E` met are the start and
      the finish, and `max_x`/`max_y` grow to the largest indices met. */
  method ParseHeightmap(s: String) returns (r: Result<Heightmap, TwelfthError>)
    ensures r == HeightmapOf(Lines(s))
  {
    var lines := Lines(s);
    var start: Option<Coord> := None;
    var finish: Option<Coord> := None;
    var grid: map<Coord, char> := map[];
    var maxX: nat := 0;
    var maxY: nat := 0;
    for y := 0 to |lines|
      invariant start == LastOf(lines[..y], 'S') && finish == LastOf(lines[..y], 'E')
      invariant grid == GridOf(lines[..y]) && maxX == MaxX(lines[..y]) && maxY == MaxY(lines[..y])
    {
      assert lines[..y] + [lines[y]] == lines[..y + 1];
      start, finish, grid, maxX, maxY := ScanLine(lines[..y], lines[y], start, finish, grid, maxX, maxY);
    }
    assert lines[..|lines|] == lines;
    if start.None? {
      return Err(InputDoesNotContainAnyStart);
    }
    if finish.None? {
      return Err(InputDoesNotContainAnyFinish);
    }
    r := Ok(Heightmap(start.value, finish.value, grid, maxX + 1, maxY + 1));
  }
}
