/** Day 9: a rope of knots on a grid. The head follows the commands one
    step at a time, every further knot follows the knot before it, and the
    positions the last knot visits are recorded. */
module Day09 {
  import opened Wrappers
  import opened Text

  // ---------------------------------------------------------------- commands

  /** `Command`: a direction letter and a `u32` number of steps. */
  datatype Command = Up(n: nat) | Down(n: nat) | Left(n: nat) | Right(n: nat)

  /** `NinthError::InputParseError` and its message. */
  datatype NinthError = InputParseError(message: String)

  /** A vector of `euclid::Vector2D<i32>`; the i32 range is not modelled. */
  datatype Coord = Coord(x: int, y: int)
  {
    function Plus(d: Coord): Coord { Coord(x + d.x, y + d.y) }
  }

  function DirectionLetter(c: Command): String
  {
    match c
    case Up(_) => "U"
    case Down(_) => "D"
    case Left(_) => "L"
    case Right(_) => "R"
  }

  /** `Command::from_str`: "<letter> <count>". The count is parsed before the
      letter is looked at. */
  function ParseCommand(s: String): (r: Result<Command, NinthError>)
    ensures SplitOnce(s, " ").None? ==> r == Err(InputParseError(s))
    ensures SplitOnce(s, " ").Some? && ParseUnsigned(SplitOnce(s, " ").value.1, U32_MAX).None? ==>
      r == Err(InputParseError(IntErrorText(SplitOnce(s, " ").value.1, 0, U32_MAX)))
    ensures r.Ok? <==> (SplitOnce(s, " ").Some? && ParseUnsigned(SplitOnce(s, " ").value.1, U32_MAX).Some?
                        && SplitOnce(s, " ").value.0 in {"U", "D", "L", "R"})
    ensures r.Ok? ==> (DirectionLetter(r.value) == SplitOnce(s, " ").value.0
                       && r.value.n == ParseUnsigned(SplitOnce(s, " ").value.1, U32_MAX).value)
  {
    match SplitOnce(s, " ")
    case None => Err(InputParseError(s))
    case Some((a, b)) =>
      match ParseUnsigned(b, U32_MAX)
      case None => Err(InputParseError(IntErrorText(b, 0, U32_MAX)))
      case Some(n) =>
        if a == "U" then Ok(Up(n))
        else if a == "D" then Ok(Down(n))
        else if a == "L" then Ok(Left(n))
        else if a == "R" then Ok(Right(n))
        else Err(InputParseError("Unknown direction " + a))
  }

  /** How a command is written in the puzzle input. */
  function ShowCommand(c: Command): String
  {
    DirectionLetter(c) + " " + NatToDec(c.n)
  }

  /** Every command with a `u32` count is read back from its text. */
  lemma ParseShownCommand(c: Command)
    requires c.n <= U32_MAX
    ensures ParseCommand(ShowCommand(c)) == Ok(c)
  {
    SplitOfConcat(DirectionLetter(c), " ", NatToDec(c.n));
    ParseUnsignedOfNumeral(c.n, U32_MAX);
  }

  /** A letter other than U, D, L, R is rejected once the count parses. */
  lemma UnknownDirection(letter: String, n: nat)
    requires ' ' !in letter && letter !in {"U", "D", "L", "R"} && n <= U32_MAX
    ensures ParseCommand(letter + " " + NatToDec(n)) == Err(InputParseError("Unknown direction " + letter))
  {
    SplitOfConcat(letter, " ", NatToDec(n));
    ParseUnsignedOfNumeral(n, U32_MAX);
  }

  /** A line without a space is its own error message. */
  lemma NoSpace(s: String)
    requires ' ' !in s
    ensures ParseCommand(s) == Err(InputParseError(s))
  {
    SplitWithout(s, " ");
  }

  /** `parse_input`: every line is a command; the first bad line is the error. */
  function ParseCommands(lines: seq<String>): (r: Result<seq<Command>, NinthError>)
    ensures r.Ok? <==> forall i | 0 <= i < |lines| :: ParseCommand(lines[i]).Ok?
    ensures r.Ok? ==> |r.value| == |lines| && forall i | 0 <= i < |lines| :: r.value[i] == ParseCommand(lines[i]).value
  {
    if lines == [] then Ok([])
    else
      var c :- ParseCommand(lines[0]);
      var rest :- ParseCommands(lines[1..]);
      Ok([c] + rest)
  }

  function ParseInput(content: String): Result<seq<Command>, NinthError>
  {
    ParseCommands(Lines(content))
  }

  /** `From<Command> for Direction`: y points up. */
  function DirectionOf(c: Command): (d: Coord)
    ensures Unit(d)
  {
    match c
    case Up(_) => Coord(0, 1)
    case Down(_) => Coord(0, -1)
    case Left(_) => Coord(-1, 0)
    case Right(_) => Coord(1, 0)
  }

  /** `From<Command> for i32`: `n as i32`, which wraps counts above
      `i32::MAX` to negative numbers (and then no step is taken). */
  function StepCount(c: Command): (k: int)
    requires c.n <= U32_MAX
    ensures c.n <= I32_MAX ==> k == c.n
    ensures c.n > I32_MAX ==> k < 0 && k == c.n - 0x1_0000_0000
  {
    if c.n <= I32_MAX then c.n else c.n - 0x1_0000_0000
  }

  predicate Unit(d: Coord)
  {
    (d.x == 0 && (d.y == 1 || d.y == -1)) || (d.y == 0 && (d.x == 1 || d.x == -1))
  }

  // ---------------------------------------------------------------- knots

  function Abs(i: int): nat { if i < 0 then -i else i }

  /** `clamp(-1, 1)` on one axis. */
  function Sign(i: int): int
  {
    if i < 0 then -1 else if i > 0 then 1 else 0
  }

  /** The two knots are on the same or on neighbouring cells, diagonals
      included; for two positions of one knot, a move by at most one cell
      on each axis. */
  predicate Touching(a: Coord, b: Coord)
  {
    Abs(a.x - b.x) <= 1 && Abs(a.y - b.y) <= 1
  }

  /** Where `pull` puts a tail that follows `head`: it stays when the
      Manhattan distance is at most 1 or the two are diagonal neighbours,
      and otherwise moves one cell towards the head on each axis that
      differs. */
  function Follow(head: Coord, tail: Coord): (t: Coord)
    ensures Touching(t, tail)
  {
    var sx := head.x - tail.x;
    var sy := head.y - tail.y;
    var distance := Abs(sx) + Abs(sy);
    if distance <= 1 then tail
    else if distance == 2 && (sx == 0 || sy == 0) then Coord(tail.x + Sign(sx), tail.y + Sign(sy))
    else if distance == 2 && sx != 0 && sy != 0 then tail
    else Coord(tail.x + Sign(sx), tail.y + Sign(sy))
  }

  /** A tail stays exactly when it touches the head. */
  lemma FollowStaysIffTouching(head: Coord, tail: Coord)
    ensures Follow(head, tail) == tail <==> Touching(head, tail)
  {
  }

  /** After its leader moved by at most one cell, a touching knot catches up:
      it touches the leader again. */
  lemma FollowCatchesUp(leader: Coord, moved: Coord, tail: Coord)
    requires Touching(leader, tail) && Touching(moved, leader)
    ensures Touching(moved, Follow(moved, tail))
  {
  }

  /** The knots after `step`: each follows the new position of the knot
      before it, the first one follows the head. */
  function Drag(head: Coord, tails: seq<Coord>): (r: seq<Coord>)
    ensures |r| == |tails|
  {
    if tails == [] then []
    else
      var pre := Drag(head, tails[..|tails| - 1]);
      pre + [Follow(if pre == [] then head else pre[|pre| - 1], tails[|tails| - 1])]
  }

  /** Every knot touches the one before it. */
  predicate Chain(head: Coord, tails: seq<Coord>)
  {
    && (tails != [] ==> Touching(head, tails[0]))
    && forall i | 0 < i < |tails| :: Touching(tails[i - 1], tails[i])
  }

  /** Dragging one more knot appends where that knot goes. */
  lemma DragExtend(head: Coord, tails: seq<Coord>, b: nat)
    requires b < |tails|
    ensures Drag(head, tails[..b + 1])
         == Drag(head, tails[..b]) + [Follow(if b == 0 then head else Drag(head, tails[..b])[b - 1], tails[b])]
  {
    assert tails[..b + 1][..b] == tails[..b];
  }

  /** One more knot of a partly dragged rope follows the one before it. */
  lemma DragOneMore(head: Coord, original: seq<Coord>, b: nat, tails: seq<Coord>)
    requires 1 <= b < |original| && tails == Drag(head, original[..b]) + original[b..]
    ensures tails[b := Follow(tails[b - 1], tails[b])] == Drag(head, original[..b + 1]) + original[b + 1..]
  {
    var done := Drag(head, original[..b]);
    assert tails[b - 1] == done[b - 1] && tails[b] == original[b];
    DragExtend(head, original, b);
    var moved := Follow(done[b - 1], original[b]);
    assert original[b..] == [original[b]] + original[b + 1..];
    calc {
      tails[b := moved];
      done + [moved] + original[b + 1..];
      Drag(head, original[..b + 1]) + original[b + 1..];
    }
  }

  lemma ChainPrefix(head: Coord, tails: seq<Coord>, k: nat)
    requires Chain(head, tails) && k <= |tails|
    ensures Chain(head, tails[..k])
  {
    assert forall i | 0 <= i < k :: tails[..k][i] == tails[i];
  }

  lemma ChainSnoc(head: Coord, pre: seq<Coord>, t: Coord)
    requires Chain(head, pre) && Touching(if pre == [] then head else pre[|pre| - 1], t)
    ensures Chain(head, pre + [t])
  {
    var r := pre + [t];
    assert forall i | 0 <= i < |pre| :: r[i] == pre[i];
  }

  /** Moving the head by at most one cell and dragging the knots keeps the
      rope connected, and every knot moves by at most one cell. */
  lemma {:induction false} DragKeepsChain(head: Coord, moved: Coord, tails: seq<Coord>)
    requires Chain(head, tails) && Touching(moved, head)
    ensures Chain(moved, Drag(moved, tails))
    ensures forall i | 0 <= i < |tails| :: Touching(Drag(moved, tails)[i], tails[i])
    decreases |tails|
  {
    if tails != [] {
      var n := |tails|;
      var front := tails[..n - 1];
      ChainPrefix(head, tails, n - 1);
      DragKeepsChain(head, moved, front);
      var pre := Drag(moved, front);
      var leader := if pre == [] then moved else pre[n - 2];
      var r := Drag(moved, tails);
      assert r == pre + [Follow(leader, tails[n - 1])];
      if n == 1 {
        FollowCatchesUp(head, moved, tails[0]);
      } else {
        assert front[n - 2] == tails[n - 2];
        FollowCatchesUp(tails[n - 2], pre[n - 2], tails[n - 1]);
      }
      ChainSnoc(moved, pre, Follow(leader, tails[n - 1]));
      TouchingSnoc(pre, Follow(leader, tails[n - 1]), tails);
    }
  }

  /** Knot by knot touching extends by one more knot. */
  lemma TouchingSnoc(pre: seq<Coord>, t: Coord, tails: seq<Coord>)
    requires |tails| == |pre| + 1 && Touching(t, tails[|pre|])
    requires forall i | 0 <= i < |pre| :: Touching(pre[i], tails[..|pre|][i])
    ensures forall i | 0 <= i < |tails| :: Touching((pre + [t])[i], tails[i])
  {
    assert forall i | 0 <= i < |pre| :: (pre + [t])[i] == pre[i] && tails[..|pre|][i] == tails[i];
  }

  /** A rope's head, following knots and visited cells, as values. */
  datatype Knots = Knots(head: Coord, tails: seq<Coord>, visited: set<Coord>)

  /** `k` calls of `step` in direction `dir`: the head moves, the knots are
      dragged and the last knot's cell is recorded, each time. */
  function Stepped(s: Knots, dir: Coord, k: nat): (r: Knots)
    requires s.tails != []
    ensures |r.tails| == |s.tails|
    ensures s.visited <= r.visited
    ensures k > 0 ==> r.tails[|r.tails| - 1] in r.visited
    decreases k
  {
    if k == 0 then s
    else
      var prev := Stepped(s, dir, k - 1);
      var head := prev.head.Plus(dir);
      var tails := Drag(head, prev.tails);
      Knots(head, tails, prev.visited + {tails[|tails| - 1]})
  }

  /** After `k` steps the head has moved `k` times by `dir`. */
  lemma {:induction false} SteppedHead(s: Knots, dir: Coord, k: nat)
    requires s.tails != []
    ensures Stepped(s, dir, k).head == Coord(s.head.x + k * dir.x, s.head.y + k * dir.y)
  {
    if k > 0 {
      SteppedHead(s, dir, k - 1);
      assert Stepped(s, dir, k).head == Stepped(s, dir, k - 1).head.Plus(dir);
      assert (k - 1) * dir.x + dir.x == k * dir.x && (k - 1) * dir.y + dir.y == k * dir.y;
    }
  }

  /** The rope is connected and its last knot's cell is recorded. */
  predicate Connected(s: Knots)
  {
    s.tails != [] && Chain(s.head, s.tails) && s.tails[|s.tails| - 1] in s.visited
  }

  /** Unit steps keep a connected rope connected, however many. */
  lemma {:induction false} SteppedKeepsConnected(s: Knots, dir: Coord, k: nat)
    requires Connected(s) && Unit(dir)
    ensures Connected(Stepped(s, dir, k))
  {
    if k > 0 {
      SteppedKeepsConnected(s, dir, k - 1);
      var prev := Stepped(s, dir, k - 1);
      DragKeepsChain(prev.head, prev.head.Plus(dir), prev.tails);
    }
  }

  function LastKnot(s: Knots): Coord
    requires s.tails != []
  {
    s.tails[|s.tails| - 1]
  }

  /** After `k` steps the cell the last knot reached after step `j` is
      among the visited ones. */
  lemma {:induction false} SteppedRecords(s: Knots, dir: Coord, k: nat, j: nat)
    requires s.tails != [] && 1 <= j <= k
    ensures LastKnot(Stepped(s, dir, j)) in Stepped(s, dir, k).visited
  {
    if j < k {
      SteppedRecords(s, dir, k - 1, j);
      StepKeepsVisited(s, dir, k);
      var before, after := Stepped(s, dir, k - 1).visited, Stepped(s, dir, k).visited;
      assert LastKnot(Stepped(s, dir, j)) in before && before <= after;
    } else {
      var r := Stepped(s, dir, k);
      assert LastKnot(r) == r.tails[|r.tails| - 1] && LastKnot(r) in r.visited;
    }
  }

  lemma StepKeepsVisited(s: Knots, dir: Coord, k: nat)
    requires s.tails != [] && k > 0
    ensures Stepped(s, dir, k - 1).visited <= Stepped(s, dir, k).visited
  {
    var prev := Stepped(s, dir, k - 1);
    var tails := Drag(prev.head.Plus(dir), prev.tails);
    assert Stepped(s, dir, k).visited == prev.visited + {tails[|tails| - 1]};
  }

  /** A visited cell was visited before the steps or reached by the last
      knot after one of them. */
  lemma {:induction false} SteppedRecordsOnly(s: Knots, dir: Coord, k: nat, p: Coord)
    requires s.tails != [] && p in Stepped(s, dir, k).visited && p !in s.visited
    ensures exists j | 1 <= j <= k :: p == LastKnot(Stepped(s, dir, j))
  {
    if k > 0 {
      var prev := Stepped(s, dir, k - 1);
      if p != LastKnot(Stepped(s, dir, k)) {
        assert p in prev.visited;
        SteppedRecordsOnly(s, dir, k - 1, p);
        var j :| 1 <= j <= k - 1 && p == LastKnot(Stepped(s, dir, j));
      }
    }
  }

  /** `Rope`: the head, the following knots and the set of cells the last
      knot has been on. */
  class Rope {
    var head: Coord
    var tails: seq<Coord>
    var visited: set<Coord>

    /** The rope is connected and the last knot's cell is recorded. */
    ghost predicate Valid()
      reads this
    {
      Connected(State())
    }

    function State(): Knots
      reads this
    {
      Knots(head, tails, visited)
    }

    /** `Rope::new(knots)`: every knot at the origin, the origin visited.
        `knots - 1` underflows for 0 knots. */
    constructor (knots: nat)
      requires knots >= 1
      ensures head == Coord(0, 0) && visited == {Coord(0, 0)}
      ensures |tails| == knots - 1 && forall i | 0 <= i < |tails| :: tails[i] == Coord(0, 0)
      ensures knots >= 2 ==> Valid()
    {
      head := Coord(0, 0);
      tails := seq(knots - 1, _ => Coord(0, 0));
      visited := {Coord(0, 0)};
    }

    /** `pull`: knot `i` follows the given leader position. */
    method Pull(leader: Coord, i: nat)
      requires i < |tails|
      modifies this
      ensures tails == old(tails)[i := Follow(leader, old(tails)[i])]
      ensures head == old(head) && visited == old(visited)
    {
      tails := tails[i := Follow(leader, tails[i])];
    }

    /** The knots of `step` following one after the other, the first one
        following the head. */
    method FollowAll()
      requires tails != []
      modifies this
      ensures tails == Drag(head, old(tails))
      ensures head == old(head) && visited == old(visited)
    {
      ghost var original := tails;
      DragExtend(head, original, 0);
      Pull(head, 0);
      for b := 1 to |tails|
        invariant |tails| == |original| && head == old(head) && visited == old(visited)
        invariant tails == Drag(head, original[..b]) + original[b..]
      {
        DragOneMore(head, original, b, tails);
        Pull(tails[b - 1], b);
      }
      assert original[..|original|] == original;
    }

    /** `step`: the head moves by `dir`, the knots follow in order, and the
        last knot's new cell is recorded. */
    method Step(dir: Coord)
      requires tails != []
      modifies this
      ensures head == old(head).Plus(dir)
      ensures tails == Drag(head, old(tails))
      ensures visited == old(visited) + {tails[|tails| - 1]}
      ensures old(Valid()) && Unit(dir) ==> Valid()
    {
      head := head.Plus(dir);
      FollowAll();
      visited := visited + {tails[|tails| - 1]};
      if old(Valid()) && Unit(dir) {
        DragKeepsChain(old(head), head, old(tails));
      }
    }
  }

  /** `Rope::default()`: a head and one tail. */
  method DefaultRope() returns (r: Rope)
    ensures r.head == Coord(0, 0) && r.tails == [Coord(0, 0)] && r.visited == {Coord(0, 0)}
    ensures r.Valid()
  {
    r := new Rope(2);
  }

  /** One command: `n as i32` unit steps in its direction. */
  method Apply(rope: Rope, c: Command)
    requires rope.Valid() && c.n <= U32_MAX
    modifies rope
    ensures rope.State() == Stepped(old(rope.State()), DirectionOf(c), if StepCount(c) > 0 then StepCount(c) else 0)
    ensures rope.Valid()
  {
    var k := StepCount(c);
    var n: nat := if k > 0 then k else 0;
    var dir := DirectionOf(c);
    ghost var s0 := rope.State();
    for i := 0 to n
      invariant rope.State() == Stepped(s0, dir, i)
    {
      rope.Step(dir);
    }
    SteppedKeepsConnected(s0, dir, n);
  }
}
