/** Day 22 (monkey map), the flat map: a grid of cells read from the text,
    the path walked so far, the turns, and the step forward that skips the
    void and wraps around the bounding box of the drawing. */
module Day22Grid {
  import opened Wrappers
  import opened Ints
  import opened Text
  import opened Day22

  // ---------------------------------------------------------------- the box

  /** The bounding box of every character of the drawing, inclusive on all
      four sides (`top`, `btm`, `left`, `right`). */
  datatype Box = Box(top: int, btm: int, left: int, right: int) {
    predicate Contains(c: Coord)
    {
      top <= c.y <= btm && left <= c.x <= right
    }
  }

  /** `Index<Coord>`: a coordinate that was not stored is `Void`. */
  function CellAt(coords: map<Coord, Cell>, c: Coord): Cell
  {
    if c in coords then coords[c] else Void
  }

  /** The stored cells together with their bounding box. */
  datatype Board = Board(coords: map<Coord, Cell>, box: Box) {
    function At(c: Coord): Cell { CellAt(coords, c) }
  }

  // ---------------------------------------------------------------- wrapping

  /** One step along one axis, wrapping from one side of [lo, hi] to the
      other. */
  function AxisStep(v: int, u: int, lo: int, hi: int): (w: int)
    requires lo <= v <= hi && -1 <= u <= 1
    ensures lo <= w <= hi
  {
    var w := v + u;
    if w > hi then w - (hi - lo + 1)
    else if w < lo then w + (hi - lo + 1)
    else w
  }

  /** The wrapped step is the step modulo the width of the box. */
  lemma AxisStepIsModular(v: int, u: int, lo: int, hi: int)
    requires lo <= v <= hi && -1 <= u <= 1
    ensures AxisStep(v, u, lo, hi) - lo == (v - lo + u) % (hi - lo + 1)
  {
    var width := hi - lo + 1;
    if v + u > hi {
      ModUnique(v - lo + u, width, 1, 0);
    } else if v + u < lo {
      ModUnique(v - lo + u, width, -1, width - 1);
    } else {
      ModUnique(v - lo + u, width, 0, v - lo + u);
    }
  }

  /** The wrap-around as `advance` writes it: a coordinate that reaches the
      last column (row) is sent back, instead of one that passes it. */
  function AxisStepAsWritten(v: int, u: int, lo: int, hi: int): (r: int)
    ensures lo < hi && lo <= v <= hi && -1 <= u <= 1 ==> lo <= r <= hi
    ensures lo <= v + u < hi ==> r == v + u
  {
    var w := v + u;
    var w1 := if w >= hi then w - (hi - lo) else w;
    if w1 < lo then w1 + (hi - lo + 1) else w1
  }

  /** As written, a step right (down) never lands on the last column (row):
      from the one before it goes back to the first, where the intended
      wrap-around enters it. */
  lemma AsWrittenNeverEntersLast(v: int, lo: int, hi: int)
    requires lo < hi && lo <= v < hi
    ensures AxisStepAsWritten(v, 1, lo, hi) != hi
    ensures AxisStepAsWritten(hi - 1, 1, lo, hi) == lo
    ensures AxisStep(hi - 1, 1, lo, hi) == hi
  {
  }

  /** The displacement of `k` steps of `u`, without a multiplication. */
  function Shift(u: int, k: nat): int
  {
    if u > 0 then k else if u < 0 then -(k as int) else 0
  }

  /** `k` wrapped steps along one axis. */
  function AxisAhead(v: int, u: int, lo: int, hi: int, k: nat): (w: int)
    requires lo <= v <= hi && -1 <= u <= 1
    ensures lo <= w <= hi
  {
    if k == 0 then v else AxisStep(AxisAhead(v, u, lo, hi, k - 1), u, lo, hi)
  }

  lemma {:induction false} AxisAheadIsModular(v: int, u: int, lo: int, hi: int, k: nat)
    requires lo <= v <= hi && -1 <= u <= 1
    ensures AxisAhead(v, u, lo, hi, k) - lo == (v - lo + Shift(u, k)) % (hi - lo + 1)
  {
    var width := hi - lo + 1;
    if k == 0 {
      ModUnique(v - lo, width, 0, v - lo);
    } else {
      var a := v - lo + Shift(u, k - 1);
      var m := AxisAhead(v, u, lo, hi, k - 1);
      AxisAheadIsModular(v, u, lo, hi, k - 1);
      AxisStepIsModular(m, u, lo, hi);
      ModShift(a, u, width, m - lo, v - lo + Shift(u, k));
    }
  }

  /** Reducing before adding does not change the remainder: `m` is the
      reduced `a` and `s` the sum `a + u`. */
  lemma ModShift(a: int, u: int, width: int, m: int, s: int)
    requires width >= 1 && m == a % width && s == a + u
    ensures (m + u) % width == s % width
  {
    var q := a / width;
    assert a == width * q + m;
    ModOfMultiplePlus(width, q, m + u, s);
  }

  /** Walking the width of the box along an axis comes back to the start. */
  lemma AxisAheadPeriodic(v: int, u: int, lo: int, hi: int, k: nat)
    requires lo <= v <= hi && -1 <= u <= 1
    requires u == 0 || k == hi - lo + 1
    ensures AxisAhead(v, u, lo, hi, k) == v
  {
    var width := hi - lo + 1;
    AxisAheadIsModular(v, u, lo, hi, k);
    ModOfMultiplePlus(width, if u == 0 then 0 else u, v - lo, v - lo + Shift(u, k));
    ModUnique(v - lo, width, 0, v - lo);
  }

  /** Where `k` steps in direction `d` lead from `c`, wrapping inside the box. */
  function Ahead(b: Box, c: Coord, d: Direction, k: nat): (r: Coord)
    requires b.Contains(c)
    ensures b.Contains(r)
  {
    var u := Unit(d);
    Coord(AxisAhead(c.x, u.x, b.left, b.right, k), AxisAhead(c.y, u.y, b.top, b.btm, k))
  }

  /** One more step is one more wrapped step along each axis. */
  lemma AheadStep(b: Box, c: Coord, d: Direction, k: nat)
    requires b.Contains(c)
    ensures var p := Ahead(b, c, d, k);
      Ahead(b, c, d, k + 1) == Coord(AxisStep(p.x, Unit(d).x, b.left, b.right), AxisStep(p.y, Unit(d).y, b.top, b.btm))
  {
  }

  /** The number of steps after which walking in direction `d` is back. */
  function Period(b: Box, d: Direction): int
  {
    if d == Right || d == Left then b.right - b.left + 1 else b.btm - b.top + 1
  }

  lemma AheadPeriodic(b: Box, c: Coord, d: Direction)
    requires b.Contains(c)
    ensures Period(b, d) >= 1 && Ahead(b, c, d, Period(b, d)) == c
  {
    var u := Unit(d);
    AxisAheadPeriodic(c.x, u.x, b.left, b.right, Period(b, d));
    AxisAheadPeriodic(c.y, u.y, b.top, b.btm, Period(b, d));
  }

  /** The number of steps, from `k` on, to the first cell that is not void
      (or the full period, where the walk is back at the start). */
  function Landing(bd: Board, c: Coord, d: Direction, k: nat): (r: nat)
    requires bd.box.Contains(c) && 1 <= k <= Period(bd.box, d)
    ensures k <= r <= Period(bd.box, d)
    ensures bd.At(Ahead(bd.box, c, d, r)) != Void || r == Period(bd.box, d)
    ensures forall j | k <= j < r :: bd.At(Ahead(bd.box, c, d, j)) == Void
    decreases Period(bd.box, d) - k
  {
    if bd.At(Ahead(bd.box, c, d, k)) != Void || k == Period(bd.box, d) then k
    else Landing(bd, c, d, k + 1)
  }

  /** The cell a step forward from `c` reaches: the first one in direction
      `d`, wrapping around the box, that is not void. */
  function Target(bd: Board, c: Coord, d: Direction): (t: Coord)
    requires bd.box.Contains(c)
    ensures bd.box.Contains(t)
  {
    AheadPeriodic(bd.box, c, d);
    Ahead(bd.box, c, d, Landing(bd, c, d, 1))
  }

  /** From a cell that is not void the step always finds a free cell or a
      wall, and every cell skipped on the way is void. */
  lemma TargetIsSolid(bd: Board, c: Coord, d: Direction)
    requires bd.box.Contains(c) && bd.At(c) != Void
    ensures bd.At(Target(bd, c, d)) != Void
    ensures forall j | 1 <= j < Landing(bd, c, d, 1) :: bd.At(Ahead(bd.box, c, d, j)) == Void
  {
    AheadPeriodic(bd.box, c, d);
  }

  /** The first solid cell met is the step's target. */
  lemma LandingIsFirst(bd: Board, c: Coord, d: Direction, k: nat)
    requires bd.box.Contains(c) && 1 <= k <= Period(bd.box, d)
    requires forall j | 1 <= j < k :: bd.At(Ahead(bd.box, c, d, j)) == Void
    requires bd.At(Ahead(bd.box, c, d, k)) != Void
    ensures Landing(bd, c, d, 1) == k
  {
  }

  /** Forward(n) from `c`: the cells entered, one per step, up to `n` of
      them, until the step would run into a wall. */
  function Walk(bd: Board, c: Coord, d: Direction, n: int): (r: seq<(Coord, Direction)>)
    requires bd.box.Contains(c)
    ensures |r| <= (if n < 0 then 0 else n)
    ensures forall i | 0 <= i < |r| :: r[i].1 == d && bd.At(r[i].0) == Free && bd.box.Contains(r[i].0)
    decreases n
  {
    if n <= 0 then []
    else
      var t := Target(bd, c, d);
      if bd.At(t) == Free then [(t, d)] + Walk(bd, t, d, n - 1) else []
  }

  /** A walk whose first step is blocked enters nothing. */
  lemma WalkBlocked(bd: Board, c: Coord, d: Direction, m: int)
    requires bd.box.Contains(c) && bd.At(Target(bd, c, d)) != Free
    ensures Walk(bd, c, d, m) == []
  {
  }

  /** After a step into a free cell, the rest of the walk goes on from there. */
  lemma WalkOn(bd: Board, c: Coord, d: Direction, m: int, before: seq<State>, after: seq<State>)
    requires bd.box.Contains(c) && m > 0
    requires bd.At(Target(bd, c, d)) == Free
    requires after == Redecorated(before) + [NewState(Target(bd, c, d), d)]
    ensures Poses(after) + Walk(bd, Target(bd, c, d), d, m - 1) == Poses(before) + Walk(bd, c, d, m)
  {
    var t := Target(bd, c, d);
    PosesAppend(Redecorated(before), [NewState(t, d)]);
    assert Poses([NewState(t, d)]) == [(t, d)];
    assert Walk(bd, c, d, m) == [(t, d)] + Walk(bd, t, d, m - 1);
  }

  /** The same step, with the cell entered and the steps left named. */
  lemma WalkOnTo(bd: Board, c: Coord, d: Direction, m: int, t: Coord, k: int, before: seq<State>, after: seq<State>)
    requires bd.box.Contains(c) && m > 0 && k == m - 1
    requires t == Target(bd, c, d) && bd.At(t) == Free
    requires after == Redecorated(before) + [NewState(t, d)]
    ensures bd.box.Contains(t)
    ensures Poses(after) + Walk(bd, t, d, k) == Poses(before) + Walk(bd, c, d, m)
  {
    WalkOn(bd, c, d, m, before, after);
  }

  /** Where a walk from `c` ends. */
  function End(c: Coord, r: seq<(Coord, Direction)>): Coord
  {
    if r == [] then c else r[|r| - 1].0
  }

  /** A walk that begins with a step ends where the rest of it ends. */
  lemma EndAfterStep(c: Coord, step: (Coord, Direction), rest: seq<(Coord, Direction)>)
    ensures End(c, [step] + rest) == End(step.0, rest)
  {
    if rest != [] {
      assert ([step] + rest)[|rest|] == rest[|rest| - 1];
    }
  }

  /** A walk stops short of `n` steps only in front of a wall. */
  lemma {:induction false} WalkStopsAtWall(bd: Board, c: Coord, d: Direction, n: int)
    requires bd.box.Contains(c) && bd.At(c) != Void
    ensures var r := Walk(bd, c, d, n);
      bd.box.Contains(End(c, r))
      && (|r| == (if n < 0 then 0 else n) || bd.At(Target(bd, End(c, r), d)) == Wall)
    decreases n
  {
    if n > 0 {
      var t := Target(bd, c, d);
      TargetIsSolid(bd, c, d);
      if bd.At(t) == Free {
        WalkStopsAtWall(bd, t, d, n - 1);
        var rest := Walk(bd, t, d, n - 1);
        assert Walk(bd, c, d, n) == [(t, d)] + rest;
        EndAfterStep(c, (t, d), rest);
      }
    }
  }

  /** The loop of `advance`: step in direction `d`, wrapping around the
      box, until the cell is not void. */
  method Seek(bd: Board, start: Coord, d: Direction) returns (c: Coord)
    requires bd.box.Contains(start) && bd.At(start) != Void
    ensures c == Target(bd, start, d) && bd.At(c) != Void
  {
    var dir := Unit(d);
    var (top, btm, left, right) := (bd.box.top, bd.box.btm, bd.box.left, bd.box.right);
    c := start;
    ghost var k: nat := 0;
    AheadPeriodic(bd.box, start, d);
    while true
      invariant k < Period(bd.box, d)
      invariant c == Ahead(bd.box, start, d, k)
      invariant forall j | 1 <= j <= k :: bd.At(Ahead(bd.box, start, d, j)) == Void
      decreases Period(bd.box, d) - k
    {
      ghost var prev := c;
      c := c.Plus(dir);
      if c.x > right {
        c := c.(x := c.x - (right - left + 1));
      }
      if c.x < left {
        c := c.(x := c.x + (right - left + 1));
      }
      if c.y > btm {
        c := c.(y := c.y - (btm - top + 1));
      }
      if c.y < top {
        c := c.(y := c.y + (btm - top + 1));
      }
      assert c.x == AxisStep(prev.x, dir.x, left, right) && c.y == AxisStep(prev.y, dir.y, top, btm);
      AheadStep(bd.box, start, d, k);
      k := k + 1;
      var n := bd.At(c);
      if n == Free || n == Wall {
        LandingIsFirst(bd, start, d, k);
        return;
      }
    }
  }

  // ---------------------------------------------------------------- the path

  /** `after_move`: the newest state remembers the facing of the one before,
      which stops being the tip. Only the drawing reads these fields. */
  function Redecorated(p: seq<State>): (r: seq<State>)
    ensures |r| == |p| && Poses(r) == Poses(p)
    ensures forall i | 0 <= i < |p| :: r[i].coord == p[i].coord && r[i].dir == p[i].dir
    ensures |p| >= 2 ==> r[|p| - 1].last == p[|p| - 2].dir && !r[|p| - 2].isTip
    ensures forall i | 0 <= i < |p| - 2 :: r[i] == p[i]
  {
    if |p| >= 2 then
      var n := |p|;
      var r := p[n - 1 := p[n - 1].(last := p[n - 2].dir)][n - 2 := p[n - 2].(isTip := false)];
      assert forall i | 0 <= i < n :: Pose(r[i]) == Pose(p[i]);
      r
    else p
  }

  /** The password of a position and facing. */
  function PasswordOf(c: Coord, d: Direction): int
  {
    1000 * c.y + 4 * c.x + Facing(d)
  }

  /** The password encodes row, column and facing, each recoverable as long
      as the column stays below 250. */
  lemma PasswordDecodes(c: Coord, d: Direction)
    requires 0 <= c.y && 0 <= c.x < 250
    ensures PasswordOf(c, d) / 1000 == c.y
    ensures (PasswordOf(c, d) % 1000) / 4 == c.x
  {
    var p := PasswordOf(c, d);
    ModUnique(p, 1000, c.y, 4 * c.x + Facing(d));
    ModUnique(4 * c.x + Facing(d), 4, c.x, Facing(d));
  }

  /** The facing is the password modulo 4, wherever the tip stands. */
  lemma PasswordFacing(c: Coord, d: Direction)
    ensures PasswordOf(c, d) % 4 == Facing(d)
  {
    ModUnique(PasswordOf(c, d), 4, 250 * c.y + c.x, Facing(d));
  }

  // ---------------------------------------------------------------- reading the map

  /** Every character of the text is a cell glyph (`Cell::from` panics on
      any other). */
  predicate Drawable(lines: seq<String>)
  {
    forall y, x | 0 <= y < |lines| && 0 <= x < |lines[y]| :: CellOf(lines[y][x]).Some?
  }

  predicate Placed(lines: seq<String>, yy: int, xx: int)
  {
    0 <= yy < |lines| && 0 <= xx < |lines[yy]|
  }

  /** The cell the text draws at a 1-based position; void off the text. */
  function Drawn(lines: seq<String>, c: Coord): Cell
    requires Drawable(lines)
  {
    if Placed(lines, c.y - 1, c.x - 1) then CellOf(lines[c.y - 1][c.x - 1]).value else Void
  }

  /** The character at (yy, xx) comes before (y, x) in reading order. */
  predicate Scanned(lines: seq<String>, y: int, x: int, yy: int, xx: int)
  {
    Placed(lines, yy, xx) && (yy < y || (yy == y && xx < x))
  }

  /** The box holds every character read so far and never goes past the
      `i32` extremes the scan starts from. */
  ghost predicate Encloses(lines: seq<String>, y: int, x: int, b: Box)
  {
    (forall yy, xx | Scanned(lines, y, x, yy, xx) :: b.top <= yy + 1 <= b.btm && b.left <= xx + 1 <= b.right)
    && b.top <= I32_MAX && b.left <= I32_MAX && b.btm >= I32_MIN && b.right >= I32_MIN
  }

  /** Characters, read so far, that lie on each side of the box (unless the
      side is still at its starting extreme). */
  datatype Witnesses = Witnesses(top: (int, int), btm: (int, int), left: (int, int), right: (int, int))

  ghost predicate Attained(lines: seq<String>, y: int, x: int, b: Box, w: Witnesses)
  {
    (b.top == I32_MAX || (Scanned(lines, y, x, w.top.0, w.top.1) && w.top.0 + 1 == b.top))
    && (b.btm == I32_MIN || (Scanned(lines, y, x, w.btm.0, w.btm.1) && w.btm.0 + 1 == b.btm))
    && (b.left == I32_MAX || (Scanned(lines, y, x, w.left.0, w.left.1) && w.left.1 + 1 == b.left))
    && (b.right == I32_MIN || (Scanned(lines, y, x, w.right.0, w.right.1) && w.right.1 + 1 == b.right))
  }

  /** The box is the tightest one around every character of the text, or
      keeps the `i32` extreme it starts from on a side nothing reaches. */
  ghost predicate Hull(lines: seq<String>, b: Box)
  {
    Encloses(lines, |lines|, 0, b)
    && (b.top == I32_MAX || exists yy, xx | Placed(lines, yy, xx) :: yy + 1 == b.top)
    && (b.btm == I32_MIN || exists yy, xx | Placed(lines, yy, xx) :: yy + 1 == b.btm)
    && (b.left == I32_MAX || exists yy, xx | Placed(lines, yy, xx) :: xx + 1 == b.left)
    && (b.right == I32_MIN || exists yy, xx | Placed(lines, yy, xx) :: xx + 1 == b.right)
  }

  /** The start is the leftmost free cell of row 1, or (i32::MAX, i32::MAX)
      when row 1 has none. */
  ghost predicate Leftmost(lines: seq<String>, start: Coord)
    requires Drawable(lines)
  {
    if start.y == 1 then
      1 <= start.x && Drawn(lines, start) == Free
      && forall x | 1 <= x < start.x :: Drawn(lines, Coord(x, 1)) != Free
    else
      start == Coord(I32_MAX, I32_MAX) && forall x | 1 <= x < I32_MAX :: Drawn(lines, Coord(x, 1)) != Free
  }

  /** The start so far: the leftmost free cell of row 1 among the
      characters read. */
  ghost predicate LeftmostSoFar(lines: seq<String>, y: int, x: int, start: Coord)
    requires Drawable(lines)
  {
    if start.y == 1 then
      1 <= start.x && Scanned(lines, y, x, 0, start.x - 1) && Drawn(lines, start) == Free
      && forall cx | 1 <= cx < start.x :: Drawn(lines, Coord(cx, 1)) != Free
    else
      start == Coord(I32_MAX, I32_MAX)
      && forall cx | 1 <= cx < I32_MAX && Scanned(lines, y, x, 0, cx - 1) :: Drawn(lines, Coord(cx, 1)) != Free
  }

  /** Everything the scan has built after reading up to (y, x). */
  ghost predicate Progress(lines: seq<String>, y: int, x: int, coords: map<Coord, Cell>, b: Box, start: Coord, w: Witnesses)
    requires Drawable(lines)
  {
    (forall c :: CellAt(coords, c) == (if Scanned(lines, y, x, c.y - 1, c.x - 1) then Drawn(lines, c) else Void))
    && (forall c | c in coords :: coords[c] != Void)
    && Encloses(lines, y, x, b) && Attained(lines, y, x, b, w)
    && LeftmostSoFar(lines, y, x, start)
  }

  /** What reading the character at (y, x) does to the scan: store the cell
      unless it is void, widen the box to take it in, and take it as the
      start if it is a free cell of row 1 left of the start so far. */
  ghost predicate Absorbs(lines: seq<String>, y: int, x: int,
                          coords: map<Coord, Cell>, b: Box, start: Coord, w: Witnesses,
                          coords': map<Coord, Cell>, b': Box, start': Coord, w': Witnesses)
    requires Drawable(lines) && Placed(lines, y, x)
  {
    var c := Coord(x + 1, y + 1);
    var cell := CellOf(lines[y][x]).value;
    && coords' == (if cell != Void then coords[c := cell] else coords)
    && Widens(y, x, b, w, b', w')
    && start' == (if c.y == 1 && c.x < start.x && cell == Free then c else start)
  }

  /** `top.min(y)`, `btm.max(y)`, `left.min(x)`, `right.max(x)` for the
      character at (y, x), whose witness replaces a side it moves. */
  ghost predicate Widens(y: int, x: int, b: Box, w: Witnesses, b': Box, w': Witnesses)
  {
    var c := Coord(x + 1, y + 1);
    && b'.top == (if c.y < b.top then c.y else b.top)
    && b'.btm == (if c.y > b.btm then c.y else b.btm)
    && b'.left == (if c.x < b.left then c.x else b.left)
    && b'.right == (if c.x > b.right then c.x else b.right)
    && w'.top == (if c.y < b.top then (y, x) else w.top)
    && w'.btm == (if c.y > b.btm then (y, x) else w.btm)
    && w'.left == (if c.x < b.left then (y, x) else w.left)
    && w'.right == (if c.x > b.right then (y, x) else w.right)
  }

  lemma CellsStep(lines: seq<String>, y: int, x: int, coords: map<Coord, Cell>, coords': map<Coord, Cell>)
    requires Drawable(lines) && Placed(lines, y, x)
    requires forall c :: CellAt(coords, c) == (if Scanned(lines, y, x, c.y - 1, c.x - 1) then Drawn(lines, c) else Void)
    requires forall c | c in coords :: coords[c] != Void
    requires var cell := CellOf(lines[y][x]).value;
      coords' == (if cell != Void then coords[Coord(x + 1, y + 1) := cell] else coords)
    ensures forall c :: CellAt(coords', c) == (if Scanned(lines, y, x + 1, c.y - 1, c.x - 1) then Drawn(lines, c) else Void)
    ensures forall c | c in coords' :: coords'[c] != Void
  {
    forall c ensures CellAt(coords', c) == (if Scanned(lines, y, x + 1, c.y - 1, c.x - 1) then Drawn(lines, c) else Void) {
      if c != Coord(x + 1, y + 1) {
        assert Scanned(lines, y, x + 1, c.y - 1, c.x - 1) == Scanned(lines, y, x, c.y - 1, c.x - 1);
        assert CellAt(coords', c) == CellAt(coords, c);
      }
    }
  }

  lemma BoxStep(lines: seq<String>, y: int, x: int, b: Box, w: Witnesses, b': Box, w': Witnesses)
    requires Drawable(lines) && Placed(lines, y, x)
    requires Encloses(lines, y, x, b) && Attained(lines, y, x, b, w)
    requires Widens(y, x, b, w, b', w')
    ensures Encloses(lines, y, x + 1, b') && Attained(lines, y, x + 1, b', w')
  {
    var next := x + 1;
    forall yy, xx | Scanned(lines, y, next, yy, xx)
      ensures b'.top <= yy + 1 <= b'.btm && b'.left <= xx + 1 <= b'.right
    {
      if yy != y || xx != x {
        assert Scanned(lines, y, x, yy, xx);
      }
    }
    assert Scanned(lines, y, next, y, x);
    assert forall yy, xx | Scanned(lines, y, x, yy, xx) :: Scanned(lines, y, next, yy, xx);
  }

  lemma StartStep(lines: seq<String>, y: int, x: int, start: Coord, start': Coord)
    requires Drawable(lines) && Placed(lines, y, x)
    requires LeftmostSoFar(lines, y, x, start)
    requires var c := Coord(x + 1, y + 1);
      start' == (if c.y == 1 && c.x < start.x && CellOf(lines[y][x]).value == Free then c else start)
    ensures LeftmostSoFar(lines, y, x + 1, start')
  {
    assert Drawn(lines, Coord(x + 1, y + 1)) == CellOf(lines[y][x]).value;
    if start'.y == 1 {
      assert Scanned(lines, y, x + 1, 0, start'.x - 1);
      if start' != start {
        forall cx | 1 <= cx < start'.x ensures Drawn(lines, Coord(cx, 1)) != Free {
          assert start.y == 1 ==> start.x > x + 1;
          if Placed(lines, 0, cx - 1) {
            assert Scanned(lines, y, x, 0, cx - 1);
          }
        }
      }
    } else {
      forall cx | 1 <= cx < I32_MAX && Scanned(lines, y, x + 1, 0, cx - 1) ensures Drawn(lines, Coord(cx, 1)) != Free {
        if cx - 1 != x || y != 0 {
          assert Scanned(lines, y, x, 0, cx - 1);
        }
      }
    }
  }

  /** Reading one more character keeps the scan's invariant. */
  lemma ScanStep(lines: seq<String>, y: int, x: int,
                 coords: map<Coord, Cell>, b: Box, start: Coord, w: Witnesses,
                 coords': map<Coord, Cell>, b': Box, start': Coord, w': Witnesses)
    requires Drawable(lines) && Placed(lines, y, x)
    requires Progress(lines, y, x, coords, b, start, w)
    requires Absorbs(lines, y, x, coords, b, start, w, coords', b', start', w')
    ensures Progress(lines, y, x + 1, coords', b', start', w')
  {
    CellsStep(lines, y, x, coords, coords');
    BoxStep(lines, y, x, b, w, b', w');
    StartStep(lines, y, x, start, start');
  }

  /** The end of one line is the start of the next. */
  lemma NextRow(lines: seq<String>, y: int, coords: map<Coord, Cell>, b: Box, start: Coord, w: Witnesses)
    requires Drawable(lines) && 0 <= y < |lines|
    requires Progress(lines, y, |lines[y]|, coords, b, start, w)
    ensures Progress(lines, y + 1, 0, coords, b, start, w)
  {
    var n := |lines[y]|;
    forall yy, xx ensures Scanned(lines, y, n, yy, xx) == Scanned(lines, y + 1, 0, yy, xx) {
    }
    forall c ensures CellAt(coords, c) == (if Scanned(lines, y + 1, 0, c.y - 1, c.x - 1) then Drawn(lines, c) else Void) {
      assert Scanned(lines, y, n, c.y - 1, c.x - 1) == Scanned(lines, y + 1, 0, c.y - 1, c.x - 1);
    }
    var below := y + 1;
    forall yy, xx | Scanned(lines, below, 0, yy, xx)
      ensures b.top <= yy + 1 <= b.btm && b.left <= xx + 1 <= b.right
    {
      assert Scanned(lines, y, n, yy, xx);
    }
    assert Scanned(lines, y, n, w.top.0, w.top.1) ==> Scanned(lines, y + 1, 0, w.top.0, w.top.1);
    assert Scanned(lines, y, n, w.btm.0, w.btm.1) ==> Scanned(lines, y + 1, 0, w.btm.0, w.btm.1);
    assert Scanned(lines, y, n, w.left.0, w.left.1) ==> Scanned(lines, y + 1, 0, w.left.0, w.left.1);
    assert Scanned(lines, y, n, w.right.0, w.right.1) ==> Scanned(lines, y + 1, 0, w.right.0, w.right.1);
    if start.y == 1 {
      assert Scanned(lines, y, n, 0, start.x - 1);
    } else {
      forall cx | 1 <= cx < I32_MAX && Scanned(lines, y + 1, 0, 0, cx - 1) ensures Drawn(lines, Coord(cx, 1)) != Free {
        assert Scanned(lines, y, n, 0, cx - 1);
      }
    }
  }

  /** The body of the `from_str` loop for the character at (y, x). */
  method Absorb(lines: seq<String>, y: nat, x: nat, coords0: map<Coord, Cell>, b0: Box, start0: Coord, ghost w0: Witnesses)
    returns (coords: map<Coord, Cell>, b: Box, start: Coord, ghost w: Witnesses)
    requires Drawable(lines) && Placed(lines, y, x)
    ensures Absorbs(lines, y, x, coords0, b0, start0, w0, coords, b, start, w)
  {
    coords, b, start, w := coords0, b0, start0, w0;
    var c := Coord(x + 1, y + 1);
    var cell := CellOf(lines[y][x]).value;
    if cell != Void {
      coords := coords[c := cell];
    }
    if c.y < b.top {
      b, w := b.(top := c.y), w.(top := (y, x));
    }
    if c.y > b.btm {
      b, w := b.(btm := c.y), w.(btm := (y, x));
    }
    if c.x < b.left {
      b, w := b.(left := c.x), w.(left := (y, x));
    }
    if c.x > b.right {
      b, w := b.(right := c.x), w.(right := (y, x));
    }
    if c.y == 1 && c.x < start.x && cell == Free {
      start := c;
    }
  }

  /** The `from_str` loop over the characters of line `y`. */
  method ScanRow(lines: seq<String>, y: nat, coords0: map<Coord, Cell>, b0: Box, start0: Coord, ghost w0: Witnesses)
    returns (coords: map<Coord, Cell>, b: Box, start: Coord, ghost w: Witnesses)
    requires Drawable(lines) && y < |lines|
    requires Progress(lines, y, 0, coords0, b0, start0, w0)
    ensures Progress(lines, y, |lines[y]|, coords, b, start, w)
  {
    coords, b, start, w := coords0, b0, start0, w0;
    var x := 0;
    while x < |lines[y]|
      invariant x <= |lines[y]|
      invariant Progress(lines, y, x, coords, b, start, w)
    {
      var coords', b', start', w' := Absorb(lines, y, x, coords, b, start, w);
      ScanStep(lines, y, x, coords, b, start, w, coords', b', start', w');
      coords, b, start, w := coords', b', start', w';
      x := x + 1;
    }
  }

  /** The `from_str` loop: every character of every line, in reading order. */
  method Scan(lines: seq<String>) returns (coords: map<Coord, Cell>, b: Box, start: Coord)
    requires Drawable(lines)
    ensures forall c :: CellAt(coords, c) == Drawn(lines, c)
    ensures forall c | c in coords :: coords[c] != Void
    ensures Hull(lines, b)
    ensures Leftmost(lines, start)
  {
    coords, b, start := map[], Box(I32_MAX, I32_MIN, I32_MAX, I32_MIN), Coord(I32_MAX, I32_MAX);
    ghost var w := Witnesses((0, 0), (0, 0), (0, 0), (0, 0));
    var y := 0;
    while y < |lines|
      invariant y <= |lines|
      invariant Progress(lines, y, 0, coords, b, start, w)
    {
      coords, b, start, w := ScanRow(lines, y, coords, b, start, w);
      NextRow(lines, y, coords, b, start, w);
      y := y + 1;
    }
    assert forall yy, xx :: Scanned(lines, y, 0, yy, xx) == Placed(lines, yy, xx);
    if start.y != 1 {
      forall x | 1 <= x < I32_MAX ensures Drawn(lines, Coord(x, 1)) != Free {
        if Placed(lines, 0, x - 1) {
          assert Scanned(lines, y, 0, 0, x - 1);
        }
      }
    }
    forall c ensures CellAt(coords, c) == Drawn(lines, c) {
      if !Scanned(lines, y, 0, c.y - 1, c.x - 1) {
        assert !Placed(lines, c.y - 1, c.x - 1);
      }
    }
  }

  // ---------------------------------------------------------------- the grid

  class Grid {
    var coords: map<Coord, Cell>
    var path: seq<State>
    var starting: Coord
    var top: int
    var btm: int
    var left: int
    var right: int

    function Layout(): Board
      reads this
    {
      Board(coords, Box(top, btm, left, right))
    }

    /** `tip`: the newest state of the path. */
    function Tip(): State
      reads this
      requires |path| >= 1
    {
      path[|path| - 1]
    }

    /** The path is never empty and its tip stands on a free cell inside
      the box. */
    predicate Valid()
      reads this
    {
      |path| >= 1 && Layout().box.Contains(Tip().coord) && Layout().At(Tip().coord) == Free
    }

    /** `from_str`: cells at 1-based positions, void ones not stored, the
        box around the whole drawing and the start on the leftmost free cell
        of row 1, facing right. */
    constructor FromStr(s: String)
      requires Drawable(Lines(s))
      ensures forall c :: Layout().At(c) == Drawn(Lines(s), c)
      ensures forall c | c in coords :: coords[c] != Void
      ensures Hull(Lines(s), Layout().box)
      ensures Leftmost(Lines(s), starting)
      ensures path == [NewState(starting, Right)]
      ensures (exists x | 1 <= x < I32_MAX :: Drawn(Lines(s), Coord(x, 1)) == Free) ==> Valid()
    {
      var lines := Lines(s);
      var cells, b, start := Scan(lines);
      coords, starting := cells, start;
      top, btm, left, right := b.top, b.btm, b.left, b.right;
      path := [NewState(start, Right)];
      if start.y == 1 {
        assert Placed(lines, start.y - 1, start.x - 1);
        assert Scanned(lines, |lines|, 0, start.y - 1, start.x - 1);
      }
    }

    /** `password`. */
    function Password(): (p: int)
      reads this
      requires |path| >= 1
      ensures p % 4 == Facing(Tip().dir)
      ensures 0 <= Tip().coord.y && 0 <= Tip().coord.x < 250 ==>
        p / 1000 == Tip().coord.y && (p % 1000) / 4 == Tip().coord.x
    {
      var c, d := Tip().coord, Tip().dir;
      PasswordFacing(c, d);
      if 0 <= c.y && 0 <= c.x < 250 then
        PasswordDecodes(c, d);
        PasswordOf(c, d)
      else
        PasswordOf(c, d)
    }

    /** `turn_left`: the tip turns counter-clockwise where it stands. */
    method TurnLeft()
      requires Valid()
      modifies this
      ensures Valid() && Layout() == old(Layout()) && starting == old(starting)
      ensures path == Redecorated(old(path)[|old(path)| - 1 := old(Tip()).(dir := PreviousCycle(old(Tip()).dir))])
      ensures Poses(path) == Poses(old(path)[..|old(path)| - 1]) + [(old(Tip()).coord, PreviousCycle(old(Tip()).dir))]
    {
      var tip := Tip();
      path := path[|path| - 1 := tip.(dir := PreviousCycle(tip.dir))];
      PosesAppend(path[..|path| - 1], [path[|path| - 1]]);
      assert path == path[..|path| - 1] + [path[|path| - 1]];
      path := Redecorated(path);
    }

    /** `turn_right`: the tip turns clockwise where it stands. */
    method TurnRight()
      requires Valid()
      modifies this
      ensures Valid() && Layout() == old(Layout()) && starting == old(starting)
      ensures path == Redecorated(old(path)[|old(path)| - 1 := old(Tip()).(dir := NextCycle(old(Tip()).dir))])
      ensures Poses(path) == Poses(old(path)[..|old(path)| - 1]) + [(old(Tip()).coord, NextCycle(old(Tip()).dir))]
    {
      var tip := Tip();
      path := path[|path| - 1 := tip.(dir := NextCycle(tip.dir))];
      PosesAppend(path[..|path| - 1], [path[|path| - 1]]);
      assert path == path[..|path| - 1] + [path[|path| - 1]];
      path := Redecorated(path);
    }

    /** `advance`: walk from the tip past void cells, wrapping around the
        box, to the first cell that is not void; a free one is appended to
        the path, a wall leaves it where it was. */
    method Advance() returns (moved: bool)
      requires Valid()
      modifies this
      ensures Valid() && Layout() == old(Layout()) && starting == old(starting)
      ensures var t := Target(old(Layout()), old(Tip()).coord, old(Tip()).dir);
        (moved <==> Layout().At(t) == Free)
        && (!moved ==> Layout().At(t) == Wall && path == Redecorated(old(path)))
        && (moved ==> path == Redecorated(old(path)) + [NewState(t, old(Tip()).dir)])
        && Tip().dir == old(Tip()).dir && Tip().coord == (if moved then t else old(Tip()).coord)
      ensures !moved ==> Poses(path) == Poses(old(path))
    {
      var state := Tip();
      var c := Seek(Layout(), state.coord, state.dir);
      var n := Layout().At(c);
      if n == Free {
        path := Redecorated(path) + [NewState(c, state.dir)];
        assert Tip().coord == c;
        return true;
      }
      path := Redecorated(path);
      assert Tip().coord == state.coord;
      return false;
    }

    /** `Wrappable::execute`: a turn, or up to `n` steps forward that stop
        at the first one blocked by a wall. */
    method Execute(m: Move)
      requires Valid()
      modifies this
      ensures Valid() && Layout() == old(Layout()) && starting == old(starting)
      ensures m.TurnL? ==> Poses(path) == Poses(old(path)[..|old(path)| - 1]) + [(old(Tip()).coord, PreviousCycle(old(Tip()).dir))]
      ensures m.TurnR? ==> Poses(path) == Poses(old(path)[..|old(path)| - 1]) + [(old(Tip()).coord, NextCycle(old(Tip()).dir))]
      ensures m.Forward? ==> Poses(path) == Poses(old(path)) + Walk(old(Layout()), old(Tip()).coord, old(Tip()).dir, m.n)
    {
      match m
      case TurnL => TurnLeft();
      case TurnR => TurnRight();
      case Forward(n) => Forward(n);
    }

    /** The `Forward(n)` arm of `execute`: `advance` up to `n` times,
        stopping at the first that is blocked. */
    method Forward(n: int)
      requires Valid()
      modifies this
      ensures Valid() && Layout() == old(Layout()) && starting == old(starting)
      ensures Poses(path) == Poses(old(path)) + Walk(old(Layout()), old(Tip()).coord, old(Tip()).dir, n)
    {
      ghost var d := Tip().dir;
      ghost var bd := Layout();
      ghost var goal := Poses(path) + Walk(bd, Tip().coord, d, n);
      var i := 0;
      while i < n
        invariant Valid() && Layout() == bd && starting == old(starting) && Tip().dir == d
        invariant 0 <= i <= (if n < 0 then 0 else n)
        invariant Poses(path) + Walk(bd, Tip().coord, d, n - i) == goal
      {
        var ok := AdvanceOnWalk(bd, d, n - i, goal);
        if !ok {
          break;
        }
        i := i + 1;
      }
    }

    /** One `advance` of a walk of `m` steps towards the poses `goal`: when
        it moves, a walk one step shorter remains; when it is blocked, the
        goal is reached. */
    method AdvanceOnWalk(ghost bd: Board, ghost d: Direction, ghost m: int, ghost goal: seq<(Coord, Direction)>)
      returns (moved: bool)
      requires Valid() && Layout() == bd && Tip().dir == d && m > 0
      requires Poses(path) + Walk(bd, Tip().coord, d, m) == goal
      modifies this
      ensures Valid() && Layout() == bd && starting == old(starting) && Tip().dir == d
      ensures moved ==> Poses(path) + Walk(bd, Tip().coord, d, m - 1) == goal
      ensures !moved ==> Poses(path) == goal
    {
      ghost var before := path;
      ghost var here := Tip().coord;
      moved := Advance();
      if moved {
        WalkOnTo(bd, here, d, m, Tip().coord, m - 1, before, path);
      } else {
        WalkBlocked(bd, here, d, m);
        assert Poses(before) + [] == Poses(before);
      }
    }
  }

  // ---------------------------------------------------------------- examples

  /** A row of three free cells: stepping right from the middle enters the
      third, where the code as written goes back to the first. */
  lemma ThreeInARow(bd: Board)
    requires bd == Board(map[Coord(1, 1) := Free, Coord(2, 1) := Free, Coord(3, 1) := Free], Box(1, 1, 1, 3))
    ensures Target(bd, Coord(2, 1), Right) == Coord(3, 1)
    ensures AxisStepAsWritten(2, 1, 1, 3) == 1
  {
    LandingIsFirst(bd, Coord(2, 1), Right, 1);
  }

  /** "..\n.#": three free cells and a wall at (2, 2). */
  lemma SquareDrawing(s: String)
    requires s == "..\n.#"
    ensures Drawable(Lines(s))
    ensures Drawn(Lines(s), Coord(1, 1)) == Free && Drawn(Lines(s), Coord(2, 1)) == Free
    ensures Drawn(Lines(s), Coord(1, 2)) == Free && Drawn(Lines(s), Coord(2, 2)) == Wall
  {
    assert s == ".." + "\n" + ".#";
    TwoLines("..", ".#");
  }

  /** " ..\n ## ": the blank at (1, 1) is void. */
  lemma VoidDrawing(s: String)
    requires s == " ..\n ## "
    ensures Drawable(Lines(s)) && Drawn(Lines(s), Coord(1, 1)) == Void
  {
    assert s == " .." + "\n" + " ## ";
    TwoLines(" ..", " ## ");
  }
}
