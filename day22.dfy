/** Day 22 (monkey map), the shared part: facings and their unit vectors,
    rotations, the path states, the cells of the map and the instruction
    list. The grid itself, which executes instructions, is module Day22Grid. */
module Day22 {
  import opened Wrappers
  import opened Text

  /** A position on the map, 1-based, with y growing downwards. */
  datatype Coord = Coord(x: int, y: int) {
    function Plus(other: Coord): Coord { Coord(x + other.x, y + other.y) }
  }

  // ---------------------------------------------------------------- facings

  /** Declaration order is the order `next_cycle` walks: clockwise on screen. */
  datatype Direction = Right | Down | Left | Up

  /** The discriminant, which is the facing term of the password. */
  function Facing(d: Direction): (f: nat)
    ensures f < 4
  {
    match d
    case Right => 0
    case Down => 1
    case Left => 2
    case Up => 3
  }

  /** `Coord::from(Direction)`. */
  function Unit(d: Direction): (u: Coord)
    ensures (u.x == 0) != (u.y == 0)
    ensures -1 <= u.x <= 1 && -1 <= u.y <= 1
  {
    match d
    case Left => Coord(-1, 0)
    case Right => Coord(1, 0)
    case Up => Coord(0, -1)
    case Down => Coord(0, 1)
  }

  /** `next_cycle`: the following variant, wrapping from the last to the first. */
  function NextCycle(d: Direction): (r: Direction)
    ensures Facing(r) == (Facing(d) + 1) % 4
  {
    match d
    case Right => Down
    case Down => Left
    case Left => Up
    case Up => Right
  }

  /** `previous_cycle`: the preceding variant, wrapping from the first to the last. */
  function PreviousCycle(d: Direction): (r: Direction)
    ensures Facing(r) == (Facing(d) + 3) % 4
  {
    match d
    case Right => Up
    case Down => Right
    case Left => Down
    case Up => Left
  }

  /** The facing values tell the directions apart. */
  lemma FacingInjective(a: Direction, b: Direction)
    requires Facing(a) == Facing(b)
    ensures a == b
  {
  }

  /** Turning one way undoes turning the other, and four turns come back. */
  lemma TurnsCycle(d: Direction)
    ensures PreviousCycle(NextCycle(d)) == d && NextCycle(PreviousCycle(d)) == d
    ensures NextCycle(NextCycle(NextCycle(NextCycle(d)))) == d
  {
  }

  /** With y pointing down, `next_cycle` turns the unit vector clockwise on
      screen, (x, y) to (-y, x), and `previous_cycle` counter-clockwise. */
  lemma TurnsRotateUnits(d: Direction)
    ensures Unit(NextCycle(d)) == Coord(-Unit(d).y, Unit(d).x)
    ensures Unit(PreviousCycle(d)) == Coord(Unit(d).y, -Unit(d).x)
  {
  }

  /** Opposite facings have opposite unit vectors. */
  lemma OppositeUnits(d: Direction)
    ensures Unit(NextCycle(NextCycle(d))) == Coord(-Unit(d).x, -Unit(d).y)
  {
  }

  // ---------------------------------------------------------------- rotations

  datatype Rotation = NoRotation | Clockwise | CounterClockwise | OneEighty

  /** `Direction * Rotation`. The source's match has no arm for `OneEighty`. */
  function Rotate(d: Direction, rot: Rotation): (r: Direction)
    requires rot != OneEighty
    ensures rot == Clockwise ==> Facing(r) == (Facing(d) + 1) % 4
    ensures rot == CounterClockwise ==> Facing(r) == (Facing(d) + 3) % 4
    ensures rot == NoRotation ==> r == d
  {
    match rot
    case NoRotation => d
    case Clockwise => NextCycle(d)
    case CounterClockwise => PreviousCycle(d)
  }

  /** `Direction / Direction`: the turn between two facings, `NoRotation`
      for equal or opposite ones. */
  function Divide(a: Direction, b: Direction): (r: Rotation)
    ensures r != OneEighty
    ensures r == NoRotation <==> (a == b || a == NextCycle(NextCycle(b)))
  {
    match (a, b)
    case (Left, Up) => CounterClockwise
    case (Up, Right) => CounterClockwise
    case (Right, Down) => CounterClockwise
    case (Down, Left) => CounterClockwise
    case (Left, Down) => Clockwise
    case (Down, Right) => Clockwise
    case (Right, Up) => Clockwise
    case (Up, Left) => Clockwise
    case _ => NoRotation
  }

  /** Applying `a / b` to `b` gives back `a` whenever the two are not opposite. */
  lemma DivideThenRotate(a: Direction, b: Direction)
    requires a != NextCycle(NextCycle(b))
    ensures Rotate(b, Divide(a, b)) == a
  {
  }

  // ---------------------------------------------------------------- path states

  /** One step of the walked path: where, which way, the facing of the step
      before (`last`) and whether it is the newest step (`is_tip`); the last
      two only decorate the drawing. */
  datatype State = State(coord: Coord, dir: Direction, last: Direction, isTip: bool)

  /** `State::new`. */
  function NewState(c: Coord, d: Direction): (s: State)
    ensures s.coord == c && s.dir == d && s.last == Right && !s.isTip
  {
    State(c, d, Right, false)
  }

  /** `PartialEq for State`: only the position and the facing are compared. */
  predicate Same(a: State, b: State)
  {
    a.coord == b.coord && a.dir == b.dir
  }

  /** What `Same` compares. */
  function Pose(s: State): (p: (Coord, Direction))
    ensures p.0 == s.coord && p.1 == s.dir
  {
    (s.coord, s.dir)
  }

  /** State equality is equality of poses, so it is an equivalence that
      ignores the decorations. */
  lemma SameIsPoseEquality(a: State, b: State, c: State)
    ensures Same(a, b) <==> Pose(a) == Pose(b)
    ensures Same(a, a)
    ensures Same(a, b) ==> Same(b, a)
    ensures Same(a, b) && Same(b, c) ==> Same(a, c)
    ensures Same(a, a.(last := b.last, isTip := b.isTip))
  {
  }

  /** The poses of a path, position by position. */
  function Poses(path: seq<State>): (r: seq<(Coord, Direction)>)
    ensures |r| == |path|
    ensures forall i | 0 <= i < |path| :: r[i] == Pose(path[i])
  {
    if path == [] then [] else [Pose(path[0])] + Poses(path[1..])
  }

  /** Two paths compare equal, element by element under `Same`, exactly when
      their poses agree. */
  lemma PathsCompareByPoses(p: seq<State>, q: seq<State>)
    ensures (|p| == |q| && forall i | 0 <= i < |p| :: Same(p[i], q[i])) <==> Poses(p) == Poses(q)
  {
    if Poses(p) == Poses(q) {
      assert |p| == |q|;
      forall i | 0 <= i < |p| ensures Same(p[i], q[i]) {
        assert Poses(p)[i] == Poses(q)[i];
      }
    }
  }

  lemma PosesAppend(p: seq<State>, q: seq<State>)
    ensures Poses(p + q) == Poses(p) + Poses(q)
  {
  }

  // ---------------------------------------------------------------- cells

  datatype Cell = Void | Free | Wall

  /** `Cell::from(char)`; `None` where the source panics on an unknown glyph. */
  function CellOf(c: char): (r: Option<Cell>)
    ensures r.Some? <==> c in {' ', '.', '·', '#', '○'}
    ensures r == Some(Void) <==> c == ' '
  {
    match c
    case ' ' => Some(Void)
    case '.' => Some(Free)
    case '·' => Some(Free)
    case '#' => Some(Wall)
    case '○' => Some(Wall)
    case _ => None
  }

  /** The glyph the puzzle input uses for each cell. */
  function Glyph(cell: Cell): char
  {
    match cell
    case Void => ' '
    case Free => '.'
    case Wall => '#'
  }

  lemma CellOfGlyph(cell: Cell)
    ensures CellOf(Glyph(cell)) == Some(cell)
  {
  }

  // ---------------------------------------------------------------- instructions

  datatype Move = Forward(n: int) | TurnL | TurnR

  /** `Move::from_str`: "L" and "R" are turns, anything else must be an
      `i32`; the error is the message of that parse's `ParseIntError`. */
  function ParseMove(s: String): (r: Result<Move, String>)
    ensures r.Ok? && r.value.Forward? ==> I32_MIN <= r.value.n <= I32_MAX
    ensures r.Ok? && r.value == TurnL <==> s == "L"
    ensures r.Ok? && r.value == TurnR <==> s == "R"
    ensures r.Err? <==> s != "L" && s != "R" && ParseSigned(s, I32_MIN, I32_MAX).None?
    ensures r.Err? ==> IntError(s, I32_MIN, I32_MAX).Some? && r.error == IntError(s, I32_MIN, I32_MAX).value.Message()
  {
    IntErrorOfSigned(s, I32_MIN, I32_MAX);
    if s == "L" then Ok(TurnL)
    else if s == "R" then Ok(TurnR)
    else
      match ParseSigned(s, I32_MIN, I32_MAX)
      case Some(n) => Ok(Forward(n))
      case None => Err(IntErrorText(s, I32_MIN, I32_MAX))
  }

  /** The word an instruction is written as. */
  function Token(m: Move): String
  {
    match m
    case TurnL => "L"
    case TurnR => "R"
    case Forward(n) => IntToDec(n)
  }

  predicate InRange(m: Move)
  {
    m.Forward? ==> I32_MIN <= m.n <= I32_MAX
  }

  lemma ParseToken(m: Move)
    requires InRange(m)
    ensures ParseMove(Token(m)) == Ok(m)
  {
    if m.Forward? {
      ParseSignedOfNumeral(m.n, I32_MIN, I32_MAX);
      assert IntToDec(m.n) != "L" && IntToDec(m.n) != "R" by {
        var t := IntToDec(m.n);
        assert t[0] == '-' || IsDigit(t[0]);
      }
    }
  }

  /** The two `replace` calls: a blank on each side of every 'L' and 'R'. */
  function Spaced(s: String): (r: String)
    ensures |r| >= |s|
  {
    if s == [] then []
    else (if s[0] == 'L' then " L " else if s[0] == 'R' then " R " else [s[0]]) + Spaced(s[1..])
  }

  lemma {:induction false} SpacedConcat(a: String, b: String)
    ensures Spaced(a + b) == Spaced(a) + Spaced(b)
    decreases |a|
  {
    if a != [] {
      var head := if a[0] == 'L' then " L " else if a[0] == 'R' then " R " else [a[0]];
      assert (a + b)[0] == a[0] && (a + b)[1..] == a[1..] + b;
      SpacedConcat(a[1..], b);
      assert Spaced(a + b) == head + (Spaced(a[1..]) + Spaced(b));
      assert Spaced(a) == head + Spaced(a[1..]);
    } else {
      assert a + b == b;
    }
  }

  lemma {:induction false} SpacedPlain(a: String)
    requires 'L' !in a && 'R' !in a
    ensures Spaced(a) == a
    decreases |a|
  {
    if a != [] {
      assert 'L' !in a[1..] && 'R' !in a[1..];
      SpacedPlain(a[1..]);
    }
  }

  /** Parse every word, stopping at the first that fails (`collect` into a
      `Result`). */
  function ParseAll(words: seq<String>): (r: Result<seq<Move>, String>)
    ensures r.Ok? ==> |r.value| == |words| && forall i | 0 <= i < |words| :: ParseMove(words[i]) == Ok(r.value[i])
    ensures r.Err? ==> exists i | 0 <= i < |words| ::
      ParseMove(words[i]) == Err(r.error) && forall j | 0 <= j < i :: ParseMove(words[j]).Ok?
  {
    if words == [] then Ok([])
    else
      match ParseMove(words[0])
      case Err(e) => Err(e)
      case Ok(m) =>
        match ParseAll(words[1..])
        case Err(e) =>
          assert exists i | 1 <= i < |words| ::
            ParseMove(words[i]) == Err(e) && forall j | 0 <= j < i :: ParseMove(words[j]).Ok? by {
            var i :| 0 <= i < |words[1..]| && ParseMove(words[1..][i]) == Err(e)
              && forall j | 0 <= j < i :: ParseMove(words[1..][j]).Ok?;
            assert ParseMove(words[i + 1]) == Err(e);
            forall j | 0 <= j < i + 1
              ensures ParseMove(words[j]).Ok?
            {
              if j > 0 {
                assert words[j] == words[1..][j - 1];
              }
            }
          }
          Err(e)
        case Ok(ms) => Ok([m] + ms)
  }

  /** `parse_instructions`. The `filter` on " " drops nothing, since a word
      of `split_whitespace` holds no blank. */
  function ParseInstructions(s: String): (r: Result<seq<Move>, String>)
    ensures r.Ok? <==> forall w | w in Words(Spaced(s)) :: ParseMove(w).Ok?
    ensures r.Ok? ==> |r.value| == |Words(Spaced(s))|
  {
    ParseAll(Words(Spaced(s)))
  }

  /** Instructions as the puzzle writes them: no two distances next to each
      other (they would read as one number) and every distance an `i32`. */
  predicate Writable(ms: seq<Move>)
  {
    (forall i | 0 <= i < |ms| :: InRange(ms[i]))
    && (forall i | 0 <= i < |ms| - 1 :: !(ms[i].Forward? && ms[i + 1].Forward?))
  }

  /** The instructions written out without separators, as in the input. */
  function Render(ms: seq<Move>): String
  {
    if ms == [] then [] else Token(ms[0]) + Render(ms[1..])
  }

  function Tokens(ms: seq<Move>): (r: seq<String>)
    ensures |r| == |ms| && forall i | 0 <= i < |ms| :: r[i] == Token(ms[i])
  {
    if ms == [] then [] else [Token(ms[0])] + Tokens(ms[1..])
  }

  /** A written-out distance has no letters and no blanks. */
  lemma NumeralIsWord(n: int)
    ensures IsWord(IntToDec(n)) && 'L' !in IntToDec(n) && 'R' !in IntToDec(n)
  {
    var t := IntToDec(n);
    assert forall i | 0 <= i < |t| :: t[i] == '-' || IsDigit(t[i]) by {
      if n < 0 {
        assert forall i | 1 <= i < |t| :: t[i] == NatToDec(-n)[i - 1];
      }
    }
  }

  lemma SkipNothing(t: String)
    requires t != [] && !IsSpace(t[0])
    ensures SkipSpaces(t) == t
  {
  }

  lemma {:induction false} WordLengthOfWord(w: String, t: String)
    requires IsWord(w) && (t == [] || IsSpace(t[0]))
    ensures WordLength(w + t) == |w|
    decreases |w|
  {
    assert (w + t)[1..] == w[1..] + t;
    if |w| > 1 {
      WordLengthOfWord(w[1..], t);
    } else {
      assert w[1..] + t == t;
    }
  }

  /** `split_whitespace` takes a word off the front of a text that goes on
      with a blank or ends. */
  lemma WordsOfWord(w: String, t: String)
    requires IsWord(w) && (t == [] || IsSpace(t[0]))
    ensures Words(w + t) == [w] + Words(t)
  {
    SkipNothing(w + t);
    WordLengthOfWord(w, t);
    assert (w + t)[..|w|] == w && (w + t)[|w|..] == t;
  }

  lemma WordsAfterBlank(t: String)
    ensures Words(" " + t) == Words(t)
  {
    assert (" " + t)[1..] == t;
  }

  /** Spacing a rendered list gives text that starts with a blank unless it
      starts with a distance. */
  lemma {:induction false} SpacedRender(ms: seq<Move>)
    requires Writable(ms)
    ensures Spaced(Render(ms)) == (if ms == [] then [] else
      (if ms[0].Forward? then Token(ms[0]) else " " + Token(ms[0]) + " ") + Spaced(Render(ms[1..])))
  {
    if ms != [] {
      SpacedConcat(Token(ms[0]), Render(ms[1..]));
      if ms[0].Forward? {
        NumeralIsWord(ms[0].n);
        SpacedPlain(Token(ms[0]));
      }
    }
  }

  /** A turn, spaced out, is one word. */
  lemma TurnWords(t: String, rest: String)
    requires IsWord(t)
    ensures Words(" " + t + " " + rest) == [t] + Words(rest)
  {
    assert " " + t + " " + rest == " " + (t + (" " + rest));
    WordsAfterBlank(t + (" " + rest));
    WordsOfWord(t, " " + rest);
    WordsAfterBlank(rest);
  }

  /** After a distance comes a turn, whose spacing starts with a blank. */
  lemma AfterDistance(ms: seq<Move>)
    requires Writable(ms) && |ms| >= 1 && ms[0].Forward?
    ensures Writable(ms[1..])
    ensures var rest := Spaced(Render(ms[1..])); rest == [] || rest[0] == ' '
  {
    assert forall i | 0 <= i < |ms| - 1 :: ms[1..][i] == ms[i + 1];
    SpacedRender(ms[1..]);
  }

  lemma {:induction false} WordsOfRender(ms: seq<Move>)
    requires Writable(ms)
    ensures Words(Spaced(Render(ms))) == Tokens(ms)
    decreases |ms|
  {
    if ms != [] {
      var rest := Spaced(Render(ms[1..]));
      assert Writable(ms[1..]) by {
        assert forall i | 0 <= i < |ms| - 1 :: ms[1..][i] == ms[i + 1];
      }
      WordsOfRender(ms[1..]);
      SpacedRender(ms);
      if ms[0].Forward? {
        AfterDistance(ms);
        NumeralIsWord(ms[0].n);
        WordsOfWord(Token(ms[0]), rest);
      } else {
        TurnWords(Token(ms[0]), rest);
      }
    }
  }

  lemma ParseTokens(ms: seq<Move>)
    requires forall i | 0 <= i < |ms| :: InRange(ms[i])
    ensures ParseAll(Tokens(ms)) == Ok(ms)
  {
    var words := Tokens(ms);
    forall i | 0 <= i < |ms|
      ensures ParseMove(words[i]) == Ok(ms[i])
    {
      ParseToken(ms[i]);
    }
    var r := ParseAll(words);
    assert r.Ok?;
    assert r.value == ms;
  }

  /** Writing the instructions out without separators and parsing them back
      gives the same instructions. */
  lemma ParseRender(ms: seq<Move>)
    requires Writable(ms)
    ensures ParseInstructions(Render(ms)) == Ok(ms)
  {
    WordsOfRender(ms);
    ParseTokens(ms);
  }

}
