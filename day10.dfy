/** Day 10: a CPU with one register `x` that runs `noop` and `addx`
    instructions, sums signal strengths at cycles 20, 60, 100, …, and a CRT
    screen whose pen paints one pixel per tick. */
module Day10 {
  import opened Wrappers
  import opened Text

  // ---------------------------------------------------------------- instructions

  datatype Instruction = Noop | AddX(n: int)

  /** `TenthError`; a nom failure becomes `InputInvalid` with nom's text. */
  datatype TenthError = FileProblem(message: String) | InputInvalid(message: String)

  /** `nom::error::Error` as its `Display` prints it: the error kind and the
      input the failing parser was given. */
  function NomErrorText(kind: String, input: String): String
  {
    "error " + kind + " at: " + input
  }

  /** `add_x`: the tag "addx", blanks, then a signed 32-bit number; anything
      after the number is left over. Each failure names the parser that
      failed and the text it was given. */
  function ParseAddX(s: String): (r: Result<Instruction, String>)
    ensures !StartsWith(s, "addx") ==> r == Err(NomErrorText("Tag", s))
    ensures r.Ok? <==> (StartsWith(s, "addx") && Space1(s[4..]).Some?
                        && NomI32(Space1(s[4..]).value).Some?)
    ensures r.Ok? ==> r.value == AddX(NomI32(Space1(s[4..]).value).value.value)
  {
    match StripPrefix(s, "addx")
    case None => Err(NomErrorText("Tag", s))
    case Some(afterTag) =>
      match Space1(afterTag)
      case None => Err(NomErrorText("Space", afterTag))
      case Some(afterBlank) =>
        match NomI32(afterBlank)
        case None => Err(NomErrorText("Digit", afterBlank))
        case Some(p) => Ok(AddX(p.value))
  }

  /** `Instruction::from_str`: `noop` is tried first and ignores whatever
      follows the tag; otherwise `add_x` decides, and its error is the one
      reported. */
  function ParseInstruction(s: String): (r: Result<Instruction, TenthError>)
    ensures StartsWith(s, "noop") ==> r == Ok(Noop)
    ensures !StartsWith(s, "noop") && ParseAddX(s).Ok? ==> r == Ok(ParseAddX(s).value)
    ensures !StartsWith(s, "noop") && ParseAddX(s).Err? ==> r == Err(InputInvalid(ParseAddX(s).error))
    ensures r.Ok? && r.value.AddX? ==> StartsWith(s, "addx")
  {
    if StartsWith(s, "noop") then Ok(Noop)
    else
      match ParseAddX(s)
      case Ok(i) => Ok(i)
      case Err(e) => Err(InputInvalid(e))
  }

  /** How an instruction is written in a program. */
  function ShowInstruction(i: Instruction): String
  {
    match i
    case Noop => "noop"
    case AddX(n) => "addx " + IntToDec(n)
  }

  /** Every instruction whose operand fits an `i32` reads back from its text. */
  lemma ParseShownInstruction(i: Instruction)
    requires i.AddX? ==> I32_MIN <= i.n <= I32_MAX
    ensures ParseInstruction(ShowInstruction(i)) == Ok(i)
  {
    if i.AddX? {
      ParseShownAddX(i.n, ShowInstruction(i));
    } else {
      StripPrefixOfConcat("noop", []);
    }
  }

  lemma ParseShownAddX(n: int, s: String)
    requires I32_MIN <= n <= I32_MAX && s == "addx " + IntToDec(n)
    ensures ParseAddX(s) == Ok(AddX(n)) && !StartsWith(s, "noop")
  {
    var d := IntToDec(n);
    assert s == "addx" + (" " + d);
    StripPrefixOfConcat("addx", " " + d);
    assert s[4..] == " " + d;
    Space1OfBlank(d);
    assert d + [] == d;
    NomSignedOfNumeral(n, I32_MIN, I32_MAX, []);
    assert s[0] == 'a';
  }

  /** The `parse_noop` test: trailing text after `noop` is ignored and a
      misspelt tag is an error. */
  lemma NoopExamples(foo: String, nopo: String)
    requires foo == "noop foo" && nopo == "nopo"
    ensures ParseInstruction("noop") == Ok(Noop)
    ensures ParseInstruction(foo) == Ok(Noop)
    ensures ParseInstruction(nopo) == Err(InputInvalid(NomErrorText("Tag", nopo)))
  {
    ParseShownInstruction(Noop);
    assert foo[..4] == "noop";
    assert nopo[..4] != "noop" && nopo[..4] != "addx" by {
      assert nopo[2] == 'p';
    }
  }

  /** The `parse_addx` test: a positive and a negative operand are read. */
  lemma AddXExamples(positive: String, negative: String)
    requires positive == "addx 42" && negative == "addx -69"
    ensures ParseInstruction(positive) == Ok(AddX(42))
    ensures ParseInstruction(negative) == Ok(AddX(-69))
  {
    AddXExample(positive, 42);
    AddXExample(negative, -69);
  }

  lemma AddXExample(line: String, v: int)
    requires (line == "addx 42" && v == 42) || (line == "addx -69" && v == -69)
    ensures ParseInstruction(line) == Ok(AddX(v))
  {
    assert ShowInstruction(AddX(v)) == line;
    ParseShownInstruction(AddX(v));
  }

  /** The `parse_addx` test, continued: a missing operand, a misspelt tag or
      an operand that is not a number are errors. */
  lemma AddXErrors(bare: String, adxd: String, foo: String)
    requires bare == "addx" && adxd == "adxd" && foo == "addx foo"
    ensures ParseInstruction(bare) == Err(InputInvalid(NomErrorText("Space", "")))
    ensures ParseInstruction(adxd) == Err(InputInvalid(NomErrorText("Tag", adxd)))
    ensures ParseInstruction(foo) == Err(InputInvalid(NomErrorText("Digit", "foo")))
  {
    assert bare[..4] != "noop" && bare + [] == bare;
    StripPrefixOfConcat(bare, []);
    assert adxd[..4] != "noop" && adxd[..4] != "addx" by {
      assert adxd[2] == 'x';
    }
    assert foo[..4] != "noop" && foo == "addx" + " foo";
    StripPrefixOfConcat("addx", " foo");
    Space1OfBlank("foo");
    assert LeadingDigits("foo") == 0;
  }

  // ---------------------------------------------------------------- CPU

  /** The three registers of `Cpu`. */
  datatype Registers = Registers(cycles: int, x: int, signal: int)

  const Boot := Registers(0, 1, 0)

  /** Cycles 20, 60, 100, … are sampled. A zero remainder means the same
      under Rust's truncating `%` as under Dafny's. */
  predicate Sampled(cycle: int)
  {
    (cycle - 20) % 40 == 0
  }

  /** `tick`: one more cycle; a sampled cycle adds cycle · x to the signal. */
  function TickOf(r: Registers): (t: Registers)
    ensures t.cycles == r.cycles + 1 && t.x == r.x
    ensures t.signal == r.signal + (if Sampled(r.cycles + 1) then (r.cycles + 1) * r.x else 0)
  {
    var cycles := r.cycles + 1;
    Registers(cycles, r.x, if Sampled(cycles) then r.signal + cycles * r.x else r.signal)
  }

  /** `execute`: `noop` takes one tick; `addx n` takes two and then adds
      `n` to `x`. */
  function ExecuteOf(r: Registers, i: Instruction): Registers
  {
    match i
    case Noop => TickOf(r)
    case AddX(n) => var t := TickOf(TickOf(r)); t.(x := t.x + n)
  }

  /** The instructions executed in order. */
  function RunOf(r: Registers, program: seq<Instruction>): Registers
    decreases |program|
  {
    if program == [] then r else RunOf(ExecuteOf(r, program[0]), program[1..])
  }

  /** The reference: the value `x` holds during each cycle of the program. */
  function Trace(x: int, program: seq<Instruction>): (t: seq<int>)
    decreases |program|
  {
    if program == [] then []
    else
      match program[0]
      case Noop => [x] + Trace(x, program[1..])
      case AddX(n) => [x, x] + Trace(x + n, program[1..])
  }

  /** The value of `x` once every instruction has completed. */
  function FinalX(x: int, program: seq<Instruction>): int
    decreases |program|
  {
    if program == [] then x
    else
      match program[0]
      case Noop => FinalX(x, program[1..])
      case AddX(n) => FinalX(x + n, program[1..])
  }

  /** The signal strengths of the sampled cycles of a trace whose first
      cycle is `start + 1`. */
  function Signals(trace: seq<int>, start: int): int
    decreases |trace|
  {
    if trace == [] then 0
    else (if Sampled(start + 1) then (start + 1) * trace[0] else 0) + Signals(trace[1..], start + 1)
  }

  lemma {:induction false} SignalsAppend(a: seq<int>, b: seq<int>, start: int)
    ensures Signals(a + b, start) == Signals(a, start) + Signals(b, start + |a|)
    decreases |a|
  {
    if a != [] {
      assert (a + b)[1..] == a[1..] + b;
      SignalsAppend(a[1..], b, start + 1);
    } else {
      assert a + b == b;
    }
  }

  /** Running a program counts one cycle per trace entry, leaves `x` at its
      final value, and adds the signal strengths of the sampled cycles of
      the trace. */
  lemma {:induction false} RunFollowsTrace(r: Registers, program: seq<Instruction>)
    ensures RunOf(r, program) == Registers(r.cycles + |Trace(r.x, program)|, FinalX(r.x, program),
                                           r.signal + Signals(Trace(r.x, program), r.cycles))
    decreases |program|
  {
    if program != [] {
      var rest := program[1..];
      var next := ExecuteOf(r, program[0]);
      RunFollowsTrace(next, rest);
      var tail := Trace(next.x, rest);
      match program[0]
      case Noop =>
        SignalsAppend([r.x], tail, r.cycles);
      case AddX(n) =>
        SignalsAppend([r.x, r.x], tail, r.cycles);
        assert Signals([r.x, r.x], r.cycles) == Signals([r.x], r.cycles) + Signals([r.x], r.cycles + 1) by {
          SignalsAppend([r.x], [r.x], r.cycles);
        }
    }
  }

  /** `Cpu`: cycle count, register `x` and the summed signal strength. */
  class Cpu {
    var cycles: int
    var x: int
    var signalStrength: int

    function State(): Registers
      reads this
    {
      Registers(cycles, x, signalStrength)
    }

    /** `Cpu::default()`. */
    constructor ()
      ensures cycles == 0 && x == 1 && signalStrength == 0
    {
      cycles, x, signalStrength := 0, 1, 0;
    }

    method Tick()
      modifies this
      ensures State() == TickOf(old(State()))
    {
      cycles := cycles + 1;
      if (cycles - 20) % 40 == 0 {
        signalStrength := signalStrength + cycles * x;
      }
    }

    method Execute(i: Instruction)
      modifies this
      ensures State() == ExecuteOf(old(State()), i)
    {
      match i
      case Noop => Tick();
      case AddX(n) =>
        Tick();
        Tick();
        x := x + n;
    }

    /** `signal_strength`, after the test loop that executes a whole
        program: the sum over the sampled cycles of cycle · x. */
    method RunProgram(program: seq<Instruction>) returns (strength: int)
      modifies this
      ensures State() == RunOf(old(State()), program)
      ensures strength == old(signalStrength) + Signals(Trace(old(x), program), old(cycles))
    {
      for k := 0 to |program|
        invariant RunOf(old(State()), program) == RunOf(State(), program[k..])
      {
        assert program[k..][1..] == program[k + 1..];
        Execute(program[k]);
      }
      RunFollowsTrace(old(State()), program);
      strength := signalStrength;
    }
  }

  /** The `a_little_sample` test: noop, addx 3, addx -5. */
  lemma LittleSample()
    ensures RunOf(Boot, [Noop]).x == 1 && RunOf(Boot, [Noop]).cycles == 1
    ensures RunOf(Boot, [Noop, AddX(3)]).x == 4 && RunOf(Boot, [Noop, AddX(3)]).cycles == 3
    ensures RunOf(Boot, [Noop, AddX(3), AddX(-5)]).x == -1 && RunOf(Boot, [Noop, AddX(3), AddX(-5)]).cycles == 5
  {
    assert [Noop, AddX(3)][1..] == [AddX(3)];
    assert [Noop, AddX(3), AddX(-5)][1..] == [AddX(3), AddX(-5)];
    assert [AddX(3), AddX(-5)][1..] == [AddX(-5)];
  }

  // ---------------------------------------------------------------- CRT

  const WIDTH: nat := 39
  const HEIGHT: nat := 5
  /** Pixels on the screen: 40 columns by 6 rows, (WIDTH + 1) · (HEIGHT + 1). */
  const FRAME: nat := 240

  datatype Pixel = White | Black | X

  type Pen = (nat, nat)

  predicate OnScreen(p: Pen)
  {
    p.0 <= WIDTH && p.1 <= HEIGHT
  }

  /** How the pen moves: along a row, then to the start of the next row,
      and from the last pixel back to the first. */
  function NextPen(p: Pen): (q: Pen)
    requires OnScreen(p)
    ensures OnScreen(q)
  {
    if p == (WIDTH, HEIGHT) then (0, 0)
    else if p.0 == WIDTH then (0, p.1 + 1)
    else (p.0 + 1, p.1)
  }

  /** The pen of a fresh screen after `k` ticks. */
  function PenAfter(k: nat): (p: Pen)
    ensures OnScreen(p)
  {
    if k == 0 then (0, 0) else NextPen(PenAfter(k - 1))
  }

  /** The position of a pen in row-major order. */
  function PenIndex(p: Pen): (i: nat)
    requires OnScreen(p)
    ensures i < FRAME
  {
    p.1 * (WIDTH + 1) + p.0
  }

  /** Every pixel has its own index. */
  lemma PenIndexInjective(p: Pen, q: Pen)
    requires OnScreen(p) && OnScreen(q) && PenIndex(p) == PenIndex(q)
    ensures p == q
  {
  }

  /** The pen moves to the next pixel in row-major order, and from the last
      one to the first. */
  lemma NextPenIndex(p: Pen)
    requires OnScreen(p)
    ensures PenIndex(NextPen(p)) == (PenIndex(p) + 1) % FRAME
  {
  }

  /** After `k` ticks the pen is on pixel `k mod 240`. */
  lemma {:induction false} PenAfterIndex(k: nat)
    ensures PenIndex(PenAfter(k)) == k % FRAME
  {
    if k > 0 {
      PenAfterIndex(k - 1);
      NextPenIndex(PenAfter(k - 1));
      ModSuccessor(k - 1);
    }
  }

  lemma ModSuccessor(k: nat)
    ensures (k % FRAME + 1) % FRAME == (k + 1) % FRAME
  {
    var q, m := k / FRAME, k % FRAME;
    assert k == q * FRAME + m;
    if m + 1 < FRAME {
      ModOf(k + 1, q, m + 1);
    } else {
      ModOf(k + 1, q + 1, 0);
    }
  }

  lemma ModOf(k: nat, q: nat, m: nat)
    requires k == q * FRAME + m && m < FRAME
    ensures k % FRAME == m
  {
  }

  /** `tick` reports a frame overflow exactly on every 240th tick. */
  lemma OverflowEveryFrame(k: nat)
    ensures PenAfter(k) == (0, 0) <==> k % FRAME == 0
  {
    PenAfterIndex(k);
    if k % FRAME == 0 {
      PenIndexInjective(PenAfter(k), (0, 0));
    }
  }

  /** The pen visits the pixels in row-major order, a frame at a time. */
  lemma PenIsRowMajor(k: nat)
    ensures PenAfter(k) == ((k % FRAME) % (WIDTH + 1), (k % FRAME) / (WIDTH + 1))
  {
    PenAfterIndex(k);
    var m := k % FRAME;
    PenIndexInjective(PenAfter(k), (m % (WIDTH + 1), m / (WIDTH + 1)));
  }

  /** Within the first frame, tick `k` leaves the pen on column `k mod 40`
      of row `k div 40`. */
  lemma PenInFirstFrame(k: nat, x: nat, y: nat)
    requires k < FRAME && y * (WIDTH + 1) + x == k && x <= WIDTH
    ensures PenAfter(k) == (x, y)
  {
    assert y * (WIDTH + 1) == 40 * y;
    assert y <= HEIGHT;
    PenAfterIndex(k);
    assert k % FRAME == k;
    PenIndexInjective(PenAfter(k), (x, y));
  }

  /** The `increases_pen_on_every_tick` test: one tick moves the pen to
      (1, 0), 39 ticks to the end of the first row, 40 to the start of the
      second, and a whole frame back to (0, 0). */
  lemma PenExamples(one: nat, width: nat, frame: nat)
    requires one == 1 && width == WIDTH && frame == FRAME
    ensures PenAfter(one) == (1, 0)
    ensures PenAfter(width) == (WIDTH, 0) && PenAfter(width + 1) == (0, 1)
    ensures PenAfter(frame) == (0, 0)
  {
    PenInFirstFrame(one, 1, 0);
    PenInFirstFrame(width, WIDTH, 0);
    PenInFirstFrame(width + 1, 0, 1);
    OverflowEveryFrame(frame);
  }

  /** The `frame_overflow_returns_false` test: the first 239 ticks do not
      overflow, the 240th does. */
  lemma FrameExample(frame: nat)
    requires frame == FRAME
    ensures forall k | 1 <= k < frame :: PenAfter(k) != (0, 0)
    ensures PenAfter(frame) == (0, 0)
  {
    forall k | 1 <= k < frame ensures PenAfter(k) != (0, 0) {
      OverflowEveryFrame(k);
    }
    OverflowEveryFrame(frame);
  }

  /** `Screen`: a 40 × 6 array of pixels indexed `[x, y]`, the pen and the
      column of the 3-pixel-wide sprite. */
  class Screen {
    var pixels: array2<Pixel>
    var width: nat
    var height: nat
    var pen: Pen
    var sprite: int

    ghost predicate Valid()
      reads this
    {
      && pixels.Length0 == WIDTH + 1 && pixels.Length1 == HEIGHT + 1
      && width == WIDTH + 1 && height == HEIGHT + 1
      && OnScreen(pen)
    }

    /** `Screen::default()`: every pixel X, the pen at the origin, the
        sprite at column 1. */
    constructor ()
      ensures Valid() && fresh(pixels)
      ensures pen == (0, 0) && sprite == 1
      ensures forall x, y | 0 <= x <= WIDTH && 0 <= y <= HEIGHT :: pixels[x, y] == X
    {
      pixels := new Pixel[WIDTH + 1, HEIGHT + 1]((_, _) => X);
      width := WIDTH + 1;
      height := HEIGHT + 1;
      pen := (0, 0);
      sprite := 1;
    }

    /** `contains_sprite`: the sprite covers its own column and the two
        beside it. */
    predicate ContainsSprite(x: int)
      reads this
      ensures ContainsSprite(x) <==> sprite - 1 <= x <= sprite + 1
    {
      x in [sprite - 1, sprite, sprite + 1]
    }

    /** `tick`: paints the pixel under the pen white when the sprite covers
        its column and black otherwise, moves the pen on, and reports
        whether it wrapped to the first pixel. */
    method Tick() returns (overflow: bool)
      requires Valid()
      modifies this, pixels
      ensures Valid() && pixels == old(pixels) && sprite == old(sprite)
      ensures pixels[old(pen).0, old(pen).1] == (if ContainsSprite(old(pen).0) then White else Black)
      ensures forall x, y | 0 <= x <= WIDTH && 0 <= y <= HEIGHT && (x, y) != old(pen) ::
                pixels[x, y] == old(pixels[x, y])
      ensures pen == NextPen(old(pen))
      ensures overflow <==> pen == (0, 0)
    {
      pixels[pen.0, pen.1] := if ContainsSprite(pen.0) then White else Black;
      pen := if pen == (WIDTH, HEIGHT) then (0, 0)
             else if pen.0 == WIDTH then (0, pen.1 + 1)
             else (pen.0 + 1, pen.1);
      overflow := pen == (0, 0);
    }
  }

  /** The `draw_sprite_at_pen` test: with the sprite at column 3, six ticks
      paint columns 2 to 4 of the first row white and leave column 6
      untouched. */
  method DrawSpriteAtPen() returns (row: seq<Pixel>)
    ensures row == [Black, Black, White, White, White, Black, X]
  {
    var screen := new Screen();
    screen.sprite := 3;
    for i := 0 to 6
      invariant screen.Valid() && fresh(screen.pixels) && screen.sprite == 3 && screen.pen == (i, 0)
      invariant forall x | 0 <= x < i :: screen.pixels[x, 0] == (if 2 <= x <= 4 then White else Black)
      invariant forall x | i <= x <= WIDTH :: screen.pixels[x, 0] == X
    {
      var _ := screen.Tick();
    }
    var p := screen.pixels;
    row := [p[0, 0], p[1, 0], p[2, 0], p[3, 0], p[4, 0], p[5, 0], p[6, 0]];
  }
}
