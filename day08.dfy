/** Day 8: a square forest of tree heights. A tree is visible when it is on
    the border or strictly taller than every tree between it and some edge;
    its scenic score multiplies how far it can see in the four directions. */
module Day08 {
  import opened Wrappers
  import opened Text
  import opened Seqs

  /** `Array2<i8>`, row by row. */
  type Grid = seq<seq<int>>

  datatype EighthError = CannotParseTreeHeight(c: char) | EmptyGrid

  /** How parsing can fail: with an `EighthError`, or with the index panic of
      the copy loop when the lines do not form a square. */
  datatype Failure = Fault(error: EighthError) | Panic

  /** The marker `visible_trees` writes into hidden cells. */
  const NotVisible: int := -1

  predicate Square(f: Grid)
  {
    forall i | 0 <= i < |f| :: |f[i]| == |f|
  }

  // ---------------------------------------------------------------- parsing

  /** `c.to_string().parse::<i8>()`: a lone character is a number only when
      it is a digit (a lone sign is not). */
  function ParseHeight(c: char): (r: Result<int, EighthError>)
    ensures r.Ok? <==> IsDigit(c)
    ensures r.Ok? ==> 0 <= r.value <= 9 && r.value == DigitValue(c)
    ensures r.Err? ==> r.error == CannotParseTreeHeight(c)
  {
    if IsDigit(c) then Ok(DigitValue(c)) else Err(CannotParseTreeHeight(c))
  }

  /** The heights of one line, stopping at the first character that is not
      a digit. */
  function ParseRow(line: String): (r: Result<seq<int>, EighthError>)
    ensures r.Ok? <==> AllDigits(line)
    ensures r.Ok? ==> |r.value| == |line| && forall j | 0 <= j < |line| :: r.value[j] == DigitValue(line[j])
    ensures r.Err? ==> exists j | 0 <= j < |line| :: !IsDigit(line[j]) && r.error == CannotParseTreeHeight(line[j])
  {
    if line == [] then Ok([])
    else
      var h :- ParseHeight(line[0]);
      var rest :- ParseRow(line[1..]);
      Ok([h] + rest)
  }

  function ParseRows(lines: seq<String>): (r: Result<Grid, EighthError>)
    ensures r.Ok? <==> forall i | 0 <= i < |lines| :: AllDigits(lines[i])
    ensures r.Ok? ==> |r.value| == |lines|
    ensures r.Ok? ==> forall i | 0 <= i < |lines| :: r.value[i] == ParseRow(lines[i]).value
    ensures r.Err? ==> r.error.CannotParseTreeHeight?
  {
    if lines == [] then Ok([])
    else
      var row :- ParseRow(lines[0]);
      var rest :- ParseRows(lines[1..]);
      Ok([row] + rest)
  }

  /** `parse_forest`: the grid gets as many rows as the first line has
      characters and as many columns as there are lines; the copy loop
      indexes out of bounds unless the lines form a square. */
  function ParseForest(content: String): (r: Result<Grid, Failure>)
    ensures Lines(content) == [] ==> r == Err(Fault(EmptyGrid))
    ensures r.Ok? ==> Square(r.value) && (r.value == [] || |r.value| == |Lines(content)|)
    ensures r.Ok? && r.value == [] ==> Lines(content) != [] && Lines(content)[0] == []
    ensures r.Ok? ==> forall i | 0 <= i < |r.value| :: |Lines(content)[i]| >= |r.value|
    ensures r.Ok? ==> forall i, j | 0 <= i < |r.value| && 0 <= j < |r.value| ::
      IsDigit(Lines(content)[i][j]) && r.value[i][j] == DigitValue(Lines(content)[i][j])
  {
    var lines := Lines(content);
    match ParseRows(lines)
    case Err(e) => Err(Fault(e))
    case Ok(grid) =>
      if grid == [] then Err(Fault(EmptyGrid))
      else
        var w := |grid[0]|;
        var h := |grid|;
        if w <= h && forall i | 0 <= i < w :: |grid[i]| >= h then
          assert w > 0 ==> |grid[0]| >= h;
          assert forall i | 0 <= i < w :: |lines[i]| == |grid[i]| && forall j | 0 <= j < h :: grid[i][j] == DigitValue(lines[i][j]);
          Ok(seq(w, i requires 0 <= i < w => grid[i][..h]))
        else Err(Panic)
  }

  /** Digit lines parse exactly when the first line is as long as there are
      lines and no line is shorter; characters past that width are dropped. */
  lemma ParseForestOfSquare(content: String)
    requires var ls := Lines(content); ls != [] && ls[0] != [] && forall i | 0 <= i < |ls| :: AllDigits(ls[i])
    ensures var ls := Lines(content);
      ParseForest(content).Ok? <==> |ls[0]| == |ls| && forall i | 0 <= i < |ls| :: |ls[i]| >= |ls|
  {
    var ls := Lines(content);
    var grid := ParseRows(ls).value;
    assert forall i | 0 <= i < |ls| :: |grid[i]| == |ls[i]|;
  }

  /** A character that is not a digit is reported as `CannotParseTreeHeight`. */
  lemma ParseForestRejectsNonDigit(content: String, i: nat, j: nat)
    requires i < |Lines(content)| && j < |Lines(content)[i]| && !IsDigit(Lines(content)[i][j])
    ensures ParseForest(content).Err? && ParseForest(content).error.Fault?
    ensures ParseForest(content).error.error.CannotParseTreeHeight?
  {
    assert !AllDigits(Lines(content)[i]);
  }

  // ---------------------------------------------------------------- visibility

  /** The four ray directions, in the order `visible_trees` casts them.
      W runs from the east edge westwards, E from the west edge, S from the
      north edge and N from the south edge. */
  datatype Direction = W | E | S | N

  const Directions: seq<Direction> := [W, E, S, N]

  /** (row, column) offset of one step. */
  function Offset(d: Direction): (int, int)
  {
    match d
    case W => (0, -1)
    case E => (0, 1)
    case S => (1, 0)
    case N => (-1, 0)
  }

  predicate Border(n: nat, r: nat, c: nat)
  {
    r == 0 || c == 0 || r == n - 1 || c == n - 1
  }

  /** The trees a ray in direction `d` has passed before it reaches (r, c):
      those between (r, c) and the edge the ray started from. */
  function Behind(f: Grid, r: nat, c: nat, d: Direction): seq<int>
    requires Square(f) && r < |f| && c < |f|
  {
    match d
    case W => f[r][c + 1..]
    case E => f[r][..c]
    case S => seq(r, k requires 0 <= k < r => f[k][c])
    case N => seq(|f| - 1 - r, k requires 0 <= k < |f| - 1 - r => f[r + 1 + k][c])
  }

  /** The tallest of the trees; `.max().unwrap_or(0)`. */
  function Highest(xs: seq<int>): (m: int)
    ensures forall k | 0 <= k < |xs| :: xs[k] <= m
    ensures xs != [] ==> exists k | 0 <= k < |xs| :: xs[k] == m
    ensures xs == [] ==> m == 0
  {
    if xs == [] then 0
    else if |xs| == 1 then xs[0]
    else
      var m := Highest(xs[1..]);
      assert forall k | 1 <= k < |xs| :: xs[k] == xs[1..][k - 1];
      if xs[0] > m then xs[0] else m
  }

  /** The tree at (r, c) is strictly taller than every tree between it and
      the edge the ray `d` comes from. */
  predicate TallerThanAll(f: Grid, r: nat, c: nat, d: Direction)
    requires Square(f) && r < |f| && c < |f|
  {
    forall k | 0 <= k < |Behind(f, r, c, d)| :: Behind(f, r, c, d)[k] < f[r][c]
  }

  /** The comparison the ray makes is exactly "taller than all behind it". */
  lemma HighestDecides(f: Grid, r: nat, c: nat, d: Direction)
    requires Square(f) && r < |f| && c < |f| && Behind(f, r, c, d) != []
    ensures f[r][c] > Highest(Behind(f, r, c, d)) <==> TallerThanAll(f, r, c, d)
  {
  }

  /** Visible from one of the first `k` directions of `Directions`. */
  predicate SeenAmong(f: Grid, r: nat, c: nat, k: nat)
    requires Square(f) && r < |f| && c < |f|
  {
    (k > 0 && TallerThanAll(f, r, c, W)) || (k > 1 && TallerThanAll(f, r, c, E))
    || (k > 2 && TallerThanAll(f, r, c, S)) || (k > 3 && TallerThanAll(f, r, c, N))
  }

  predicate Visible(f: Grid, r: nat, c: nat)
    requires Square(f) && r < |f| && c < |f|
  {
    Border(|f|, r, c) || SeenAmong(f, r, c, 4)
  }

  /** What `visible_trees` leaves in a cell: border cells keep their height,
      interior cells get their height when visible and `NotVisible` otherwise. */
  function Visibility(f: Grid, r: nat, c: nat): int
    requires Square(f) && r < |f| && c < |f|
  {
    if Border(|f|, r, c) || SeenAmong(f, r, c, 4) then f[r][c] else NotVisible
  }

  /** With heights that are never `NotVisible` (every parsed forest), a
      cell is marked exactly when the tree is not visible. */
  lemma MarkedIffHidden(f: Grid, r: nat, c: nat)
    requires Square(f) && r < |f| && c < |f| && f[r][c] >= 0
    ensures Visibility(f, r, c) != NotVisible <==> Visible(f, r, c)
    ensures Visibility(f, r, c) != NotVisible ==> Visibility(f, r, c) == f[r][c]
  {
  }

  /** The ray index a cell belongs to: its row for W/E, its column for S/N. */
  function RayOf(d: Direction, r: nat, c: nat): nat
  {
    match d
    case W => r
    case E => r
    case S => c
    case N => c
  }

  /** The cell a ray reaches after `s` steps from its first interior cell. */
  function RayCell(n: nat, d: Direction, i: nat, s: nat): (p: (nat, nat))
    requires 1 <= i < n - 1 && s < n - 2
    ensures 1 <= p.0 < n - 1 && 1 <= p.1 < n - 1 && RayOf(d, p.0, p.1) == i
  {
    match d
    case W => (i, n - 2 - s)
    case E => (i, 1 + s)
    case S => (1 + s, i)
    case N => (n - 2 - s, i)
  }

  /** The step at which the ray along the cell's row or column reaches it. */
  function StepOf(n: nat, d: Direction, r: nat, c: nat): int
  {
    match d
    case W => n - 2 - c
    case E => c - 1
    case S => r - 1
    case N => n - 2 - r
  }

  /** The cells of a ray: interior cells of row or column `i`. */
  predicate OnRay(n: nat, d: Direction, i: nat, r: nat, c: nat)
  {
    !Border(n, r, c) && RayOf(d, r, c) == i
  }

  /** Every cell of the ray is reached at exactly one step. */
  lemma RayCellOfStep(n: nat, d: Direction, i: nat, r: nat, c: nat)
    requires r < n && c < n && OnRay(n, d, i, r, c)
    ensures 1 <= i < n - 1 && 0 <= StepOf(n, d, r, c) < n - 2
    ensures RayCell(n, d, i, StepOf(n, d, r, c)) == (r, c)
  {
  }

  /** Different steps reach different cells. */
  lemma RayCellsDistinct(n: nat, d: Direction, i: nat, s: nat)
    requires 1 <= i < n - 1 && s < n - 2
    ensures forall t | 0 <= t < n - 2 && t != s :: RayCell(n, d, i, t) != RayCell(n, d, i, s)
  {
  }

  /** The cell reached at step `t` is taller than everything behind it. */
  predicate RayTaller(f: Grid, d: Direction, i: nat, t: nat)
    requires Square(f) && 1 <= i < |f| - 1 && t < |f| - 2
  {
    var p := RayCell(|f|, d, i, t);
    TallerThanAll(f, p.0, p.1, d)
  }

  /** One ray of `visible_trees`: every interior cell of row or column `i`
      that is taller than all trees behind it gets its height. */
  method CastRay(f: Grid, vis: array2<int>, d: Direction, i: nat)
    requires Square(f) && vis.Length0 == |f| && vis.Length1 == |f| && 1 <= i < |f| - 1
    modifies vis
    ensures forall r, c | 0 <= r < |f| && 0 <= c < |f| ::
      vis[r, c] == if !Border(|f|, r, c) && RayOf(d, r, c) == i && TallerThanAll(f, r, c, d)
        then f[r][c] else old(vis[r, c])
  {
    var n := |f|;
    CastRaySteps(f, vis, d, i);
    forall r, c | 0 <= r < n && 0 <= c < n && OnRay(n, d, i, r, c)
      ensures vis[r, c] == if TallerThanAll(f, r, c, d) then f[r][c] else old(vis[r, c])
    {
      RayCellOfStep(n, d, i, r, c);
    }
  }

  /** The loop of `CastRay`, stated step by step along the ray. */
  method CastRaySteps(f: Grid, vis: array2<int>, d: Direction, i: nat)
    requires Square(f) && vis.Length0 == |f| && vis.Length1 == |f| && 1 <= i < |f| - 1
    modifies vis
    ensures forall r, c | 0 <= r < |f| && 0 <= c < |f| && !OnRay(|f|, d, i, r, c) :: vis[r, c] == old(vis[r, c])
    ensures forall t | 0 <= t < |f| - 2 ::
      var p := RayCell(|f|, d, i, t);
      vis[p.0, p.1] == if RayTaller(f, d, i, t) then f[p.0][p.1] else old(vis[p.0, p.1])
  {
    var n := |f|;
    for s := 0 to n - 2
      invariant forall r, c | 0 <= r < n && 0 <= c < n && !OnRay(n, d, i, r, c) :: vis[r, c] == old(vis[r, c])
      invariant forall t | 0 <= t < n - 2 ::
        var p := RayCell(n, d, i, t);
        vis[p.0, p.1] == if t < s && RayTaller(f, d, i, t) then f[p.0][p.1] else old(vis[p.0, p.1])
    {
      MarkIfTaller(f, vis, d, i, s);
      RayCellsDistinct(n, d, i, s);
    }
  }

  /** One step of the ray: the cell reached gets its height when it is
      taller than everything behind it. */
  method MarkIfTaller(f: Grid, vis: array2<int>, d: Direction, i: nat, s: nat)
    requires Square(f) && vis.Length0 == |f| && vis.Length1 == |f| && 1 <= i < |f| - 1 && s < |f| - 2
    modifies vis
    ensures forall r, c | 0 <= r < |f| && 0 <= c < |f| ::
      vis[r, c] == if (r, c) == RayCell(|f|, d, i, s) && RayTaller(f, d, i, s) then f[r][c] else old(vis[r, c])
  {
    var p := RayCell(|f|, d, i, s);
    var highest := Highest(Behind(f, p.0, p.1, d));
    HighestDecides(f, p.0, p.1, d);
    if f[p.0][p.1] > highest {
      vis[p.0, p.1] := f[p.0][p.1];
    }
  }

  /** `visible_trees`: a copy of the forest whose interior is first marked
      `NotVisible`, then uncovered by rays cast in the four directions. */
  method VisibleTrees(f: Grid) returns (vis: array2<int>)
    requires Square(f) && |f| >= 1
    ensures vis.Length0 == |f| && vis.Length1 == |f|
    ensures forall r, c | 0 <= r < |f| && 0 <= c < |f| :: vis[r, c] == Visibility(f, r, c)
  {
    var n := |f|;
    vis := new int[n, n]((r, c) requires 0 <= r < n && 0 <= c < n =>
      if Border(n, r, c) then f[r][c] else NotVisible);
    for k := 0 to 4
      invariant forall r, c | 0 <= r < n && 0 <= c < n ::
        vis[r, c] == if Border(n, r, c) || SeenAmong(f, r, c, k) then f[r][c] else NotVisible
    {
      var d := Directions[k];
      var i := 1;
      while i < n - 1
        invariant 1 <= i && (n >= 2 ==> i <= n - 1)
        invariant forall r, c | 0 <= r < n && 0 <= c < n ::
          vis[r, c] == if Border(n, r, c) || SeenAmong(f, r, c, k) || (RayOf(d, r, c) < i && TallerThanAll(f, r, c, d))
            then f[r][c] else NotVisible
      {
        CastRay(f, vis, d, i);
        i := i + 1;
      }
    }
  }

  /** The grid `visible_trees` computes, as a value. */
  function VisibilityGrid(f: Grid): (g: Grid)
    requires Square(f)
    ensures Square(g) && |g| == |f|
    ensures forall r, c | 0 <= r < |f| && 0 <= c < |f| :: g[r][c] == Visibility(f, r, c)
  {
    seq(|f|, r requires 0 <= r < |f| => seq(|f|, c requires 0 <= c < |f| => Visibility(f, r, c)))
  }

  /** Number of entries different from `NotVisible` in one row. */
  function CountInRow(row: seq<int>): (k: nat)
    ensures k <= |row|
    ensures k == |row| <==> forall j | 0 <= j < |row| :: row[j] != NotVisible
    ensures k == 0 <==> forall j | 0 <= j < |row| :: row[j] == NotVisible
  {
    if row == [] then 0
    else
      assert forall j | 1 <= j < |row| :: row[j] == row[1..][j - 1];
      (if row[0] != NotVisible then 1 else 0) + CountInRow(row[1..])
  }

  /** `count_visible`: the number of cells that are not `NotVisible`. */
  function CountVisible(g: Grid): (k: nat)
    ensures k == 0 <==> forall i, j | 0 <= i < |g| && 0 <= j < |g[i]| :: g[i][j] == NotVisible
  {
    if g == [] then 0
    else
      var k := CountInRow(g[0]) + CountVisible(g[1..]);
      assert forall i | 1 <= i < |g| :: g[i] == g[1..][i - 1];
      k
  }

  // ---------------------------------------------------------------- scenic score

  /** The cell `s` steps from (r, c) in direction `d`. */
  function Ahead(r: nat, c: nat, d: Direction, s: nat): (int, int)
  {
    match d
    case W => (r, c - s)
    case E => (r, c + s)
    case S => (r + s, c)
    case N => (r - s, c)
  }

  predicate OnGrid(n: nat, p: (int, int))
  {
    0 <= p.0 < n && 0 <= p.1 < n
  }

  function At(f: Grid, p: (int, int)): int
    requires Square(f) && OnGrid(|f|, p)
  {
    f[p.0][p.1]
  }

  /** Trees seen from step `s` on by a tree of height `h`: counting stops
      after the first one at least as tall, or at the edge. */
  function SeenFrom(f: Grid, r: nat, c: nat, d: Direction, h: int, s: nat): (k: nat)
    requires Square(f) && r < |f| && c < |f| && s >= 1
    decreases |f| - s
  {
    if !OnGrid(|f|, Ahead(r, c, d, s)) then 0
    else if At(f, Ahead(r, c, d, s)) >= h then 1
    else 1 + SeenFrom(f, r, c, d, h, s + 1)
  }

  /** How far the tree at (r, c) sees in direction `d`. */
  function ViewingDistance(f: Grid, r: nat, c: nat, d: Direction): nat
    requires Square(f) && r < |f| && c < |f|
  {
    SeenFrom(f, r, c, d, f[r][c], 1)
  }

  /** Counting from step `s` covers trees on the grid, all lower than `h`
      but the last, which is at least as tall unless the edge came first. */
  lemma {:induction false} SeenFromStops(f: Grid, r: nat, c: nat, d: Direction, h: int, s: nat)
    requires Square(f) && r < |f| && c < |f| && s >= 1
    ensures var k := SeenFrom(f, r, c, d, h, s);
      && (forall t | s <= t < s + k :: OnGrid(|f|, Ahead(r, c, d, t)))
      && (forall t | s <= t < s + k - 1 :: At(f, Ahead(r, c, d, t)) < h)
      && ((k > 0 && At(f, Ahead(r, c, d, s + k - 1)) >= h) || !OnGrid(|f|, Ahead(r, c, d, s + k)))
    decreases |f| - s
  {
    if OnGrid(|f|, Ahead(r, c, d, s)) && At(f, Ahead(r, c, d, s)) < h {
      SeenFromStops(f, r, c, d, h, s + 1);
    }
  }

  /** The viewing distance counts the trees up to and including the first one
      at least as tall as the viewer, or up to the edge. */
  lemma ViewingDistanceStops(f: Grid, r: nat, c: nat, d: Direction)
    requires Square(f) && r < |f| && c < |f|
    ensures var k := ViewingDistance(f, r, c, d);
      && (forall t | 1 <= t <= k :: OnGrid(|f|, Ahead(r, c, d, t)))
      && (forall t | 1 <= t < k :: At(f, Ahead(r, c, d, t)) < f[r][c])
      && ((k > 0 && At(f, Ahead(r, c, d, k)) >= f[r][c]) || !OnGrid(|f|, Ahead(r, c, d, k + 1)))
  {
    SeenFromStops(f, r, c, d, f[r][c], 1);
  }

  /** An interior tree sees at least one tree in every direction. */
  lemma InteriorSeesAll(f: Grid, r: nat, c: nat, d: Direction)
    requires Square(f) && 0 < r < |f| - 1 && 0 < c < |f| - 1
    ensures ViewingDistance(f, r, c, d) >= 1
  {
    assert OnGrid(|f|, Ahead(r, c, d, 1));
  }

  /** `scenic_score`: the viewing distance per direction; a direction in which
      no tree is seen gets no entry. */
  method ScenicScore(f: Grid, r: nat, c: nat) returns (view: map<Direction, nat>)
    requires Square(f) && r < |f| && c < |f|
    ensures forall d :: d in view <==> ViewingDistance(f, r, c, d) > 0
    ensures forall d | d in view :: view[d] == ViewingDistance(f, r, c, d)
  {
    var height := f[r][c];
    view := map[];
    var order := [N, S, E, W];
    for k := 0 to 4
      invariant forall d :: d in view <==> d in order[..k] && ViewingDistance(f, r, c, d) > 0
      invariant forall d | d in view :: view[d] == ViewingDistance(f, r, c, d)
    {
      var d := order[k];
      var count := 0;
      var s := 1;
      while OnGrid(|f|, Ahead(r, c, d, s))
        invariant s >= 1 && count == s - 1
        invariant count + SeenFrom(f, r, c, d, height, s) == ViewingDistance(f, r, c, d)
        decreases |f| - s
      {
        count := count + 1;
        if At(f, Ahead(r, c, d, s)) >= height {
          break;
        }
        s := s + 1;
      }
      if count > 0 {
        view := view[d := count];
      }
    }
    forall d ensures d in order[..4] {
      assert order[..4] == order;
      match d
      case N => assert order[0] == N;
      case S => assert order[1] == S;
      case E => assert order[2] == E;
      case W => assert order[3] == W;
    }
  }

  /** `product()` of an iterator of numbers. */
  function Product(xs: seq<nat>): nat
  {
    if xs == [] then 1 else xs[0] * Product(xs[1..])
  }

  /** The product of the entries of the view map. */
  function Score(f: Grid, r: nat, c: nat): nat
    requires Square(f) && r < |f| && c < |f|
  {
    Product([Factor(ViewingDistance(f, r, c, N)), Factor(ViewingDistance(f, r, c, S)),
             Factor(ViewingDistance(f, r, c, E)), Factor(ViewingDistance(f, r, c, W))])
  }

  /** A missing entry contributes nothing to the product. */
  function Factor(k: nat): nat
  {
    if k == 0 then 1 else k
  }

  /** Inside the border the score is the plain product of the four distances. */
  lemma InteriorScore(f: Grid, r: nat, c: nat)
    requires Square(f) && 0 < r < |f| - 1 && 0 < c < |f| - 1
    ensures Score(f, r, c) == ViewingDistance(f, r, c, N) * (ViewingDistance(f, r, c, S)
      * (ViewingDistance(f, r, c, E) * ViewingDistance(f, r, c, W)))
  {
    InteriorSeesAll(f, r, c, N);
    InteriorSeesAll(f, r, c, S);
    InteriorSeesAll(f, r, c, E);
    InteriorSeesAll(f, r, c, W);
    ProductOfFour(ViewingDistance(f, r, c, N), ViewingDistance(f, r, c, S), ViewingDistance(f, r, c, E), ViewingDistance(f, r, c, W));
  }

  lemma ProductOfFour(a: nat, b: nat, c: nat, d: nat)
    requires a > 0 && b > 0 && c > 0 && d > 0
    ensures Product([Factor(a), Factor(b), Factor(c), Factor(d)]) == a * (b * (c * d))
  {
    var xs := [a, b, c, d];
    assert [Factor(a), Factor(b), Factor(c), Factor(d)] == xs;
    assert xs[1..][1..][1..][1..] == [];
    assert Product(xs[1..][1..][1..]) == d;
    assert Product(xs[1..][1..]) == c * d;
    assert Product(xs[1..]) == b * (c * d);
  }

  /** `(1..dim-1).cartesian_product(1..dim-1)`: interior cells, row-major. */
  function InteriorCells(n: nat): (cs: seq<(nat, nat)>)
    ensures forall k | 0 <= k < |cs| :: 1 <= cs[k].0 < n - 1 && 1 <= cs[k].1 < n - 1
    ensures forall r, c | 1 <= r < n - 1 && 1 <= c < n - 1 :: (r, c) in cs
    ensures |cs| == 0 <==> n <= 2
    ensures forall a, b | 0 <= a < b < |cs| :: RowMajorBefore(cs[a], cs[b])
  {
    RowsFrom(n, 1)
  }

  predicate RowMajorBefore(p: (nat, nat), q: (nat, nat))
  {
    p.0 < q.0 || (p.0 == q.0 && p.1 < q.1)
  }

  /** In a row-major list, positions follow the order of the cells. */
  lemma RowMajorIndex(cs: seq<(nat, nat)>, i: nat, j: nat)
    requires forall a, b | 0 <= a < b < |cs| :: RowMajorBefore(cs[a], cs[b])
    requires i < |cs| && j < |cs| && RowMajorBefore(cs[i], cs[j])
    ensures i < j
  {
  }

  function RowsFrom(n: nat, r: nat): (cs: seq<(nat, nat)>)
    requires r >= 1
    ensures forall k | 0 <= k < |cs| :: r <= cs[k].0 < n - 1 && 1 <= cs[k].1 < n - 1
    ensures forall x, c | r <= x < n - 1 && 1 <= c < n - 1 :: (x, c) in cs
    ensures |cs| == 0 <==> r >= n - 1 || n <= 2
    ensures forall a, b | 0 <= a < b < |cs| :: RowMajorBefore(cs[a], cs[b])
    decreases n - r
  {
    if r >= n - 1 then []
    else
      var row := InteriorRow(n, r);
      assert forall c | 1 <= c < n - 1 :: row[c - 1] == (r, c);
      row + RowsFrom(n, r + 1)
  }

  /** The interior cells of row `r`, left to right. */
  function InteriorRow(n: nat, r: nat): (row: seq<(nat, nat)>)
    requires n > 2
    ensures |row| == n - 2 && forall j | 0 <= j < n - 2 :: row[j] == (r, j + 1)
  {
    seq(n - 2, j requires 0 <= j < n - 2 => (r, j + 1))
  }

  /** The score of every cell of `cs`, in order. */
  function Scores(f: Grid, cs: seq<(nat, nat)>): (ss: seq<nat>)
    requires Square(f) && forall k | 0 <= k < |cs| :: cs[k].0 < |f| && cs[k].1 < |f|
    ensures |ss| == |cs|
  {
    seq(|cs|, k requires 0 <= k < |cs| => Score(f, cs[k].0, cs[k].1))
  }

  /** `find_most_scenic_place`: the interior cell with the highest score, the
      last in row-major order on ties (`max_by_key`); None when there is no
      interior. */
  function MostScenicPlace(f: Grid): (r: Option<((nat, nat), nat)>)
    requires Square(f)
    ensures r.None? <==> |f| <= 2
    ensures r.Some? ==> (0 < r.value.0.0 < |f| - 1 && 0 < r.value.0.1 < |f| - 1
      && r.value.1 == Score(f, r.value.0.0, r.value.0.1))
  {
    var cs := InteriorCells(|f|);
    if cs == [] then None
    else
      var i := LastMaxIndex(Scores(f, cs));
      Some((cs[i], Scores(f, cs)[i]))
  }

  /** No interior cell scores higher than the place found. */
  lemma MostScenicPlaceIsBest(f: Grid, x: nat, y: nat)
    requires Square(f) && 0 < x < |f| - 1 && 0 < y < |f| - 1
    ensures MostScenicPlace(f).Some? && Score(f, x, y) <= MostScenicPlace(f).value.1
  {
    var cs := InteriorCells(|f|);
    assert (x, y) in cs;
    var k :| 0 <= k < |cs| && cs[k] == (x, y);
    assert Scores(f, cs)[k] == Score(f, x, y);
  }

  /** Ties go to the later cell in row-major order: every interior cell
      after the place found scores strictly lower. */
  lemma MostScenicPlaceIsLast(f: Grid, x: nat, y: nat)
    requires Square(f) && 0 < x < |f| - 1 && 0 < y < |f| - 1
    requires RowMajorBefore(MostScenicPlace(f).value.0, (x, y))
    ensures Score(f, x, y) < MostScenicPlace(f).value.1
  {
    var cs := InteriorCells(|f|);
    var ss := Scores(f, cs);
    var i := LastMaxIndex(ss);
    assert MostScenicPlace(f).value == (cs[i], ss[i]);
    var j := InteriorIndex(|f|, x, y);
    RowMajorIndex(cs, i, j);
    assert ss[j] == Score(f, x, y);
  }

  /** Where an interior cell sits in the row-major list. */
  lemma InteriorIndex(n: nat, x: nat, y: nat) returns (j: nat)
    requires 0 < x < n - 1 && 0 < y < n - 1
    ensures j < |InteriorCells(n)| && InteriorCells(n)[j] == (x, y)
  {
    var cs := InteriorCells(n);
    assert (x, y) in cs;
    j :| 0 <= j < |cs| && cs[j] == (x, y);
  }

  // ---------------------------------------------------------------- sample

  /** The forest of the puzzle's example. */
  predicate Sample(f: Grid)
  {
    && |f| == 5
    && f[0] == [3, 0, 3, 7, 3]
    && f[1] == [2, 5, 5, 1, 2]
    && f[2] == [6, 5, 3, 3, 2]
    && f[3] == [3, 3, 5, 4, 9]
    && f[4] == [3, 5, 3, 9, 0]
  }

  lemma SampleIsSquare(f: Grid)
    requires Sample(f)
    ensures Square(f)
  {
    forall i | 0 <= i < 5 ensures |f[i]| == 5 {
      if i == 0 {} else if i == 1 {} else if i == 2 {} else if i == 3 {} else {}
    }
  }

  /** A hidden interior cell: in each direction some tree behind it is at
      least as tall. */
  lemma Hidden(f: Grid, r: nat, c: nat, w: nat, e: nat, s: nat, n: nat)
    requires Square(f) && 0 < r < |f| - 1 && 0 < c < |f| - 1
    requires c < w < |f| && f[r][w] >= f[r][c]
    requires e < c && f[r][e] >= f[r][c]
    requires s < r && f[s][c] >= f[r][c]
    requires r < n < |f| && f[n][c] >= f[r][c]
    ensures Visibility(f, r, c) == NotVisible
  {
    assert Behind(f, r, c, W)[w - c - 1] == f[r][w];
    assert Behind(f, r, c, E)[e] == f[r][e];
    assert Behind(f, r, c, S)[s] == f[s][c];
    assert Behind(f, r, c, N)[n - r - 1] == f[n][c];
  }

  /** The interior of the example, row by row: five trees are seen from
      some edge, the other four are hidden. */
  lemma SampleRow1(f: Grid)
    requires Sample(f) && Square(f)
    ensures Visibility(f, 1, 1) == 5 && Visibility(f, 1, 2) == 5 && Visibility(f, 1, 3) == NotVisible
  {
    SampleVisible11(f);
    SampleVisible12(f);
    SampleVisible13(f);
  }

  lemma SampleVisible11(f: Grid)
    requires Sample(f) && Square(f)
    ensures Visibility(f, 1, 1) == 5
  {
    assert TallerThanAll(f, 1, 1, E);
  }

  lemma SampleVisible12(f: Grid)
    requires Sample(f) && Square(f)
    ensures Visibility(f, 1, 2) == 5
  {
    assert TallerThanAll(f, 1, 2, S);
  }

  lemma SampleVisible13(f: Grid)
    requires Sample(f) && Square(f)
    ensures Visibility(f, 1, 3) == NotVisible
  {
    Hidden(f, 1, 3, 4, 2, 0, 2);
  }

  lemma SampleRow2(f: Grid)
    requires Sample(f) && Square(f)
    ensures Visibility(f, 2, 1) == 5 && Visibility(f, 2, 2) == NotVisible && Visibility(f, 2, 3) == 3
  {
    SampleVisible21(f);
    SampleVisible22(f);
    SampleVisible23(f);
  }

  lemma SampleVisible21(f: Grid)
    requires Sample(f) && Square(f)
    ensures Visibility(f, 2, 1) == 5
  {
    assert TallerThanAll(f, 2, 1, W);
  }

  lemma SampleVisible22(f: Grid)
    requires Sample(f) && Square(f)
    ensures Visibility(f, 2, 2) == NotVisible
  {
    Hidden(f, 2, 2, 3, 1, 1, 3);
  }

  lemma SampleVisible23(f: Grid)
    requires Sample(f) && Square(f)
    ensures Visibility(f, 2, 3) == 3
  {
    assert TallerThanAll(f, 2, 3, W);
  }

  lemma SampleRow3(f: Grid)
    requires Sample(f) && Square(f)
    ensures Visibility(f, 3, 1) == NotVisible && Visibility(f, 3, 2) == 5 && Visibility(f, 3, 3) == NotVisible
  {
    SampleVisible31(f);
    SampleVisible32(f);
    SampleVisible33(f);
  }

  lemma SampleVisible31(f: Grid)
    requires Sample(f) && Square(f)
    ensures Visibility(f, 3, 1) == NotVisible
  {
    Hidden(f, 3, 1, 2, 0, 2, 4);
  }

  lemma SampleVisible32(f: Grid)
    requires Sample(f) && Square(f)
    ensures Visibility(f, 3, 2) == 5
  {
    assert TallerThanAll(f, 3, 2, E);
  }

  lemma SampleVisible33(f: Grid)
    requires Sample(f) && Square(f)
    ensures Visibility(f, 3, 3) == NotVisible
  {
    Hidden(f, 3, 3, 4, 2, 0, 4);
  }

  /** The visibility grid of the example. */
  lemma SampleVisibility(f: Grid)
    requires Sample(f)
    ensures Square(f)
    ensures VisibilityGrid(f) == SampleVisibilityGrid()
  {
    SampleIsSquare(f);
    var g, e := VisibilityGrid(f), SampleVisibilityGrid();
    SampleGridEdges(f);
    SampleGridRow1(f);
    SampleGridRow2(f);
    SampleGridRow3(f);
    assert g[0] == e[0] && g[1] == e[1] && g[2] == e[2] && g[3] == e[3] && g[4] == e[4];
  }

  /** The first and last rows are border cells: they keep their heights. */
  lemma SampleGridEdges(f: Grid)
    requires Sample(f) && Square(f)
    ensures VisibilityGrid(f)[0] == SampleVisibilityGrid()[0]
    ensures VisibilityGrid(f)[4] == SampleVisibilityGrid()[4]
  {
    GridRowOf(f, 0, f[0]);
    GridRowOf(f, 4, f[4]);
  }

  lemma SampleGridRow1(f: Grid)
    requires Sample(f) && Square(f)
    ensures VisibilityGrid(f)[1] == SampleVisibilityGrid()[1]
  {
    SampleRow1(f);
    GridRowOf(f, 1, SampleVisibilityGrid()[1]);
  }

  lemma SampleGridRow2(f: Grid)
    requires Sample(f) && Square(f)
    ensures VisibilityGrid(f)[2] == SampleVisibilityGrid()[2]
  {
    SampleRow2(f);
    GridRowOf(f, 2, SampleVisibilityGrid()[2]);
  }

  lemma SampleGridRow3(f: Grid)
    requires Sample(f) && Square(f)
    ensures VisibilityGrid(f)[3] == SampleVisibilityGrid()[3]
  {
    SampleRow3(f);
    GridRowOf(f, 3, SampleVisibilityGrid()[3]);
  }

  /** Row `r` of a 5 by 5 visibility grid, given cell by cell. */
  lemma GridRowOf(f: Grid, r: nat, row: seq<int>)
    requires Square(f) && |f| == 5 && r < 5 && |row| == 5
    requires Visibility(f, r, 0) == row[0] && Visibility(f, r, 1) == row[1] && Visibility(f, r, 2) == row[2]
    requires Visibility(f, r, 3) == row[3] && Visibility(f, r, 4) == row[4]
    ensures VisibilityGrid(f)[r] == row
  {
    var g := VisibilityGrid(f);
    forall c | 0 <= c < 5 ensures g[r][c] == row[c] {
      if c == 0 {} else if c == 1 {} else if c == 2 {} else if c == 3 {} else {}
    }
  }

  function SampleVisibilityGrid(): Grid
  {
    [[3, 0, 3, 7, 3], [2, 5, 5, -1, 2], [6, 5, -1, 3, 2], [3, -1, 5, -1, 9], [3, 5, 3, 9, 0]]
  }

  /** A grid of five rows counts row by row. */
  lemma CountFiveRows(g: Grid)
    requires |g| == 5
    ensures CountVisible(g) == CountInRow(g[0]) + CountInRow(g[1]) + CountInRow(g[2]) + CountInRow(g[3]) + CountInRow(g[4])
  {
    var g1, g2, g3, g4 := g[1..], g[2..], g[3..], g[4..];
    assert g1[1..] == g2 && g2[1..] == g3 && g3[1..] == g4 && g4[1..] == [];
    assert g1[0] == g[1] && g2[0] == g[2] && g3[0] == g[3] && g4[0] == g[4];
  }

  /** 1 for an entry that is not `NotVisible`. */
  function Counted(x: int): nat
  {
    if x != NotVisible then 1 else 0
  }

  /** A row of five entries counts entry by entry. */
  lemma CountFiveCells(row: seq<int>)
    requires |row| == 5
    ensures CountInRow(row) == Counted(row[0]) + Counted(row[1]) + Counted(row[2]) + Counted(row[3]) + Counted(row[4])
  {
    var r1, r2, r3, r4 := row[1..], row[2..], row[3..], row[4..];
    assert r1[1..] == r2 && r2[1..] == r3 && r3[1..] == r4 && r4[1..] == [];
    assert r1[0] == row[1] && r2[0] == row[2] && r3[0] == row[3] && r4[0] == row[4];
  }

  lemma CountOfSampleGrid(g: Grid)
    requires g == SampleVisibilityGrid()
    ensures CountVisible(g) == 21
  {
    CountFiveRows(g);
    SampleRowCounts(g);
  }

  lemma SampleRowCounts(g: Grid)
    requires g == SampleVisibilityGrid()
    ensures CountInRow(g[0]) == 5 && CountInRow(g[1]) == 4 && CountInRow(g[2]) == 4
    ensures CountInRow(g[3]) == 3 && CountInRow(g[4]) == 5
  {
    CountFiveCells(g[0]);
    CountFiveCells(g[1]);
    CountFiveCells(g[2]);
    CountFiveCells(g[3]);
    CountFiveCells(g[4]);
  }

  /** 16 border trees and 5 interior ones are visible, 21 in all. */
  lemma SampleCount(f: Grid)
    requires Sample(f)
    ensures Square(f) && CountVisible(VisibilityGrid(f)) == 21
  {
    SampleVisibility(f);
    CountOfSampleGrid(VisibilityGrid(f));
  }

  /** One step further when the tree ahead is lower than the viewer. */
  lemma SeenPast(f: Grid, r: nat, c: nat, d: Direction, s: nat)
    requires Square(f) && r < |f| && c < |f| && s >= 1
    requires OnGrid(|f|, Ahead(r, c, d, s)) && At(f, Ahead(r, c, d, s)) < f[r][c]
    ensures SeenFrom(f, r, c, d, f[r][c], s) == 1 + SeenFrom(f, r, c, d, f[r][c], s + 1)
  {
  }

  /** The view ends at step `s`: at the edge, or at a tree at least as tall. */
  lemma SeenUpTo(f: Grid, r: nat, c: nat, d: Direction, s: nat)
    requires Square(f) && r < |f| && c < |f| && s >= 1
    ensures !OnGrid(|f|, Ahead(r, c, d, s)) ==> SeenFrom(f, r, c, d, f[r][c], s) == 0
    ensures OnGrid(|f|, Ahead(r, c, d, s)) && At(f, Ahead(r, c, d, s)) >= f[r][c] ==> SeenFrom(f, r, c, d, f[r][c], s) == 1
  {
  }

  /** The two places the puzzle's example scores: (1, 2) sees 1 up, 1 left,
      2 right and 2 down; (3, 2) sees 2 up, 2 left, 1 down and 2 right. */
  lemma SampleViews(f: Grid)
    requires Sample(f) && Square(f)
    ensures ViewingDistance(f, 1, 2, N) == 1 && ViewingDistance(f, 1, 2, W) == 1
    ensures ViewingDistance(f, 1, 2, E) == 2 && ViewingDistance(f, 1, 2, S) == 2
    ensures ViewingDistance(f, 3, 2, N) == 2 && ViewingDistance(f, 3, 2, W) == 2
    ensures ViewingDistance(f, 3, 2, S) == 1 && ViewingDistance(f, 3, 2, E) == 2
  {
    SeenPast(f, 1, 2, N, 1); SeenUpTo(f, 1, 2, N, 2);
    SeenUpTo(f, 1, 2, W, 1);
    SeenPast(f, 1, 2, E, 1); SeenPast(f, 1, 2, E, 2); SeenUpTo(f, 1, 2, E, 3);
    SeenPast(f, 1, 2, S, 1); SeenUpTo(f, 1, 2, S, 2);
    SeenPast(f, 3, 2, N, 1); SeenUpTo(f, 3, 2, N, 2);
    SeenPast(f, 3, 2, W, 1); SeenPast(f, 3, 2, W, 2); SeenUpTo(f, 3, 2, W, 3);
    SeenPast(f, 3, 2, S, 1); SeenUpTo(f, 3, 2, S, 2);
    SeenPast(f, 3, 2, E, 1); SeenUpTo(f, 3, 2, E, 2);
  }

  /** Scores of row 1 of the example's interior. */
  lemma SampleScoresRow1(f: Grid)
    requires Sample(f) && Square(f)
    ensures Score(f, 1, 1) == 1
    ensures Score(f, 1, 2) == 4
    ensures Score(f, 1, 3) == 1
  {
    SampleScore11(f);
    SampleScore12(f);
    SampleScore13(f);
  }

  lemma SampleScore11(f: Grid)
    requires Sample(f) && Square(f)
    ensures Score(f, 1, 1) == 1
  {
    SeenPast(f, 1, 1, N, 1);
    SeenUpTo(f, 1, 1, N, 2);
    SeenUpTo(f, 1, 1, S, 1);
    SeenUpTo(f, 1, 1, E, 1);
    SeenPast(f, 1, 1, W, 1);
    SeenUpTo(f, 1, 1, W, 2);
    InteriorScore(f, 1, 1);
  }

  lemma SampleScore12(f: Grid)
    requires Sample(f) && Square(f)
    ensures Score(f, 1, 2) == 4
  {
    SeenPast(f, 1, 2, N, 1);
    SeenUpTo(f, 1, 2, N, 2);
    SeenPast(f, 1, 2, S, 1);
    SeenUpTo(f, 1, 2, S, 2);
    SeenPast(f, 1, 2, E, 1);
    SeenPast(f, 1, 2, E, 2);
    SeenUpTo(f, 1, 2, E, 3);
    SeenUpTo(f, 1, 2, W, 1);
    InteriorScore(f, 1, 2);
  }

  lemma SampleScore13(f: Grid)
    requires Sample(f) && Square(f)
    ensures Score(f, 1, 3) == 1
  {
    SeenUpTo(f, 1, 3, N, 1);
    SeenUpTo(f, 1, 3, S, 1);
    SeenUpTo(f, 1, 3, E, 1);
    SeenUpTo(f, 1, 3, W, 1);
    InteriorScore(f, 1, 3);
  }

  /** Scores of row 2 of the example's interior. */
  lemma SampleScoresRow2(f: Grid)
    requires Sample(f) && Square(f)
    ensures Score(f, 2, 1) == 6
    ensures Score(f, 2, 2) == 1
    ensures Score(f, 2, 3) == 2
  {
    SampleScore21(f);
    SampleScore22(f);
    SampleScore23(f);
  }

  lemma SampleScore21(f: Grid)
    requires Sample(f) && Square(f)
    ensures Score(f, 2, 1) == 6
  {
    SeenUpTo(f, 2, 1, N, 1);
    SeenPast(f, 2, 1, S, 1);
    SeenUpTo(f, 2, 1, S, 2);
    SeenPast(f, 2, 1, E, 1);
    SeenPast(f, 2, 1, E, 2);
    SeenPast(f, 2, 1, E, 3);
    SeenUpTo(f, 2, 1, E, 4);
    SeenUpTo(f, 2, 1, W, 1);
    InteriorScore(f, 2, 1);
  }

  lemma SampleScore22(f: Grid)
    requires Sample(f) && Square(f)
    ensures Score(f, 2, 2) == 1
  {
    SeenUpTo(f, 2, 2, N, 1);
    SeenUpTo(f, 2, 2, S, 1);
    SeenUpTo(f, 2, 2, E, 1);
    SeenUpTo(f, 2, 2, W, 1);
    InteriorScore(f, 2, 2);
  }

  lemma SampleScore23(f: Grid)
    requires Sample(f) && Square(f)
    ensures Score(f, 2, 3) == 2
  {
    SeenPast(f, 2, 3, N, 1);
    SeenUpTo(f, 2, 3, N, 2);
    SeenUpTo(f, 2, 3, S, 1);
    SeenPast(f, 2, 3, E, 1);
    SeenUpTo(f, 2, 3, E, 2);
    SeenUpTo(f, 2, 3, W, 1);
    InteriorScore(f, 2, 3);
  }

  /** Scores of row 3 of the example's interior. */
  lemma SampleScoresRow3(f: Grid)
    requires Sample(f) && Square(f)
    ensures Score(f, 3, 1) == 1
    ensures Score(f, 3, 2) == 8
    ensures Score(f, 3, 3) == 3
  {
    SampleScore31(f);
    SampleScore32(f);
    SampleScore33(f);
  }

  lemma SampleScore31(f: Grid)
    requires Sample(f) && Square(f)
    ensures Score(f, 3, 1) == 1
  {
    SeenUpTo(f, 3, 1, N, 1);
    SeenUpTo(f, 3, 1, S, 1);
    SeenUpTo(f, 3, 1, E, 1);
    SeenUpTo(f, 3, 1, W, 1);
    InteriorScore(f, 3, 1);
  }

  lemma SampleScore32(f: Grid)
    requires Sample(f) && Square(f)
    ensures Score(f, 3, 2) == 8
  {
    SeenPast(f, 3, 2, N, 1);
    SeenUpTo(f, 3, 2, N, 2);
    SeenPast(f, 3, 2, S, 1);
    SeenUpTo(f, 3, 2, S, 2);
    SeenPast(f, 3, 2, E, 1);
    SeenUpTo(f, 3, 2, E, 2);
    SeenPast(f, 3, 2, W, 1);
    SeenPast(f, 3, 2, W, 2);
    SeenUpTo(f, 3, 2, W, 3);
    InteriorScore(f, 3, 2);
  }

  lemma SampleScore33(f: Grid)
    requires Sample(f) && Square(f)
    ensures Score(f, 3, 3) == 3
  {
    SeenPast(f, 3, 3, N, 1);
    SeenPast(f, 3, 3, N, 2);
    SeenUpTo(f, 3, 3, N, 3);
    SeenUpTo(f, 3, 3, S, 1);
    SeenUpTo(f, 3, 3, E, 1);
    SeenUpTo(f, 3, 3, W, 1);
    InteriorScore(f, 3, 3);
  }

  /** The example's best place is (3, 2) with a score of 8: no interior cell
      scores more, and no other one scores as much. */
  lemma SampleMostScenicPlace(f: Grid)
    requires Sample(f)
    ensures Square(f) && MostScenicPlace(f) == Some(((3, 2), 8))
  {
    SampleIsSquare(f);
    SampleScore32(f);
    MostScenicPlaceIsBest(f, 3, 2);
    var p := MostScenicPlace(f).value;
    var x, y := p.0.0, p.0.1;
    assert 0 < x < 4 && 0 < y < 4 && p.1 == Score(f, x, y);
    SampleOnlyBest(f, x, y);
  }

  /** Only (3, 2) scores 8 or more in the example. */
  lemma SampleOnlyBest(f: Grid, x: nat, y: nat)
    requires Sample(f) && Square(f) && 0 < x < 4 && 0 < y < 4 && Score(f, x, y) >= 8
    ensures x == 3 && y == 2
  {
    SampleScoresRow1(f);
    SampleScoresRow2(f);
    SampleScoresRow3(f);
  }
}
