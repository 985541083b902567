/** Day 5: a crane rearranging stacks of crates. The input draws the stacks
    (one crate letter per 4-character column, bottom row last, followed by a
    row of stack numbers), then after an empty line lists instructions
    "move <amount> from <src> to <dest>" with 1-based stack numbers. */
module Day05 {
  import opened Wrappers
  import opened Text
  import opened Seqs

  /** The stacks, each listed bottom to top. */
  type Stacks = seq<seq<char>>

  datatype Instruction = Instruction(amount: nat, src: nat, dest: nat)

  /** `ElfError`; the text nom puts into `InvalidInstruction` is not modelled. */
  datatype ElfError =
    | InputDoesNotContainTwoSections
    | CannotExecuteInstructionBecauseStackAlreadyEmpty
    | InvalidInstruction

  /** How a whole rearrangement can fail: with an `ElfError`, or with a
      panic of the source (a stack number out of range, or a `usize`
      underflow in `crate_mover9001`). */
  datatype Failure = Elf(error: ElfError) | Panic

  datatype Mover = CrateMover9000 | CrateMover9001

  // ---------------------------------------------------------------- instructions

  /** A keyword, nom's `space1`, then a `u32`: one "move 3" part of the
      grammar. */
  function KeywordNumber(s: String, keyword: String): (r: Option<Parsed<nat>>)
    ensures r.Some? ==> r.value.value <= U32_MAX && |r.value.rest| < |s|
  {
    var afterKeyword :- StripPrefix(s, keyword);
    var beforeNumber :- Space1(afterKeyword);
    NomU32(beforeNumber)
  }

  /** The nom grammar "move" space1 u32 space1 "from" space1 u32 space1 "to"
      space1 u32; text after the last number is ignored. */
  function InstructionNom(s: String): (r: Option<Instruction>)
    ensures r.Some? ==> r.value.amount <= U32_MAX && r.value.src <= U32_MAX && r.value.dest <= U32_MAX
  {
    var amount :- KeywordNumber(s, "move");
    var beforeFrom :- Space1(amount.rest);
    var src :- KeywordNumber(beforeFrom, "from");
    var beforeTo :- Space1(src.rest);
    var dest :- KeywordNumber(beforeTo, "to");
    Some(Instruction(amount.value, src.value, dest.value))
  }

  /** `Instruction::from_str`. */
  function ParseInstruction(s: String): (r: Result<Instruction, ElfError>)
    ensures r.Err? <==> InstructionNom(s).None?
    ensures r.Err? ==> r.error == InvalidInstruction
    ensures r.Ok? ==> r.value == InstructionNom(s).value
  {
    match InstructionNom(s)
    case Some(ins) => Ok(ins)
    case None => Err(InvalidInstruction)
  }

  function ShowInstruction(ins: Instruction): String
  {
    "move " + NatToDec(ins.amount) + " from " + NatToDec(ins.src) + " to " + NatToDec(ins.dest)
  }

  lemma KeywordNumberOfShown(keyword: String, n: nat, rest: String)
    requires n <= U32_MAX
    requires rest == [] || !IsDigit(rest[0])
    ensures KeywordNumber(keyword + " " + NatToDec(n) + rest, keyword) == Some(Parsed(n, rest))
  {
    var number := NatToDec(n) + rest;
    Assoc(keyword + " ", NatToDec(n), rest);
    Assoc(keyword, " ", number);
    assert keyword + " " + NatToDec(n) + rest == keyword + (" " + number);
    StripPrefixOfConcat(keyword, " " + number);
    assert !IsBlank(number[0]);
    Space1OfBlank(number);
    NomUnsignedOfNumeral(n, U32_MAX, rest);
  }

  /** An instruction written in the puzzle's words parses back. */
  lemma ParseInstructionOfShown(ins: Instruction)
    requires ins.amount <= U32_MAX && ins.src <= U32_MAX && ins.dest <= U32_MAX
    ensures ParseInstruction(ShowInstruction(ins)) == Ok(ins)
  {
    var toPart := "to" + " " + NatToDec(ins.dest) + [];
    var fromPart := "from" + " " + NatToDec(ins.src) + (" " + toPart);
    var s := "move" + " " + NatToDec(ins.amount) + (" " + fromPart);
    assert ShowInstruction(ins) == s;
    KeywordNumberOfShown("move", ins.amount, " " + fromPart);
    assert KeywordNumber(s, "move") == Some(Parsed(ins.amount, " " + fromPart));
    Space1OfBlank(fromPart);
    KeywordNumberOfShown("from", ins.src, " " + toPart);
    assert KeywordNumber(fromPart, "from") == Some(Parsed(ins.src, " " + toPart));
    Space1OfBlank(toPart);
    KeywordNumberOfShown("to", ins.dest, []);
    assert KeywordNumber(toPart, "to") == Some(Parsed(ins.dest, []));
  }

  // ---------------------------------------------------------------- the cranes

  function Total(st: Stacks): nat
  {
    if st == [] then 0 else |st[0]| + Total(st[1..])
  }

  lemma {:induction false} TotalUpdate(st: Stacks, i: nat, s: seq<char>)
    requires i < |st|
    ensures Total(st[i := s]) + |st[i]| == Total(st) + |s|
  {
    if i > 0 {
      TotalUpdate(st[1..], i - 1, s);
      assert st[i := s][1..] == st[1..][i - 1 := s];
    }
  }

  /** One crate from the top of stack `src` to the top of stack `dest`;
      None when `src` is empty (`pop` gives None, and `?` returns before
      `dest` is looked at). */
  function MoveOne(st: Stacks, src: int, dest: int): (r: Option<Stacks>)
    requires 0 <= src < |st| && (st[src] == [] || 0 <= dest < |st|)
    ensures r.None? <==> st[src] == []
    ensures r.Some? ==> |r.value| == |st| && Total(r.value) == Total(st)
    ensures r.Some? ==> forall k | 0 <= k < |st| && k != src && k != dest :: r.value[k] == st[k]
  {
    if st[src] == [] then None
    else
      var s := st[src];
      var popped := st[src := s[..|s| - 1]];
      TotalUpdate(st, src, s[..|s| - 1]);
      TotalUpdate(popped, dest, popped[dest] + [s[|s| - 1]]);
      Some(popped[dest := popped[dest] + [s[|s| - 1]]])
  }

  /** `crate_mover9000` on the stacks: `n` single moves, stopping at the
      first empty source stack; the flag says whether all `n` happened.
      The source stack is only looked at when something is to be moved,
      and the destination only when a crate was popped. */
  function Mover9000(st: Stacks, src: int, dest: int, n: nat): (r: (Stacks, bool))
    requires n == 0 || (0 <= src < |st| && (st[src] == [] || 0 <= dest < |st|))
    ensures |r.0| == |st| && Total(r.0) == Total(st)
    ensures n > 0 && 0 <= src < |st| && st[src] == [] ==> r == (st, false)
    ensures forall k | 0 <= k < |st| && k != src && k != dest :: r.0[k] == st[k]
  {
    if n == 0 then (st, true)
    else
      var prev := Mover9000(st, src, dest, n - 1);
      if !prev.1 then prev
      else
        var next := MoveOne(prev.0, src, dest);
        if next.None? then (prev.0, false) else (next.value, true)
  }

  /** Once a move has failed, further moves change nothing. */
  lemma {:induction false} Mover9000StaysFailed(st: Stacks, src: int, dest: int, i: nat, n: nat)
    requires 0 < i <= n && 0 <= src < |st| && (st[src] == [] || 0 <= dest < |st|)
    requires !Mover9000(st, src, dest, i).1
    ensures Mover9000(st, src, dest, n) == Mover9000(st, src, dest, i)
    decreases n - i
  {
    if i < n {
      Mover9000StaysFailed(st, src, dest, i, n - 1);
    }
  }

  /** Moving one crate at a time puts the top `n` crates onto `dest` in
      reverse order. */
  lemma {:induction false} Mover9000Reverses(st: Stacks, src: nat, dest: nat, n: nat)
    requires src < |st| && dest < |st| && src != dest
    requires n <= |st[src]|
    ensures var s := st[src];
      Mover9000(st, src, dest, n) == (st[src := s[..|s| - n]][dest := st[dest] + Reverse(s[|s| - n..])], true)
  {
    if n > 0 {
      var s := st[src];
      Mover9000Reverses(st, src, dest, n - 1);
      var prev := st[src := s[..|s| - (n - 1)]][dest := st[dest] + Reverse(s[|s| - (n - 1)..])];
      assert Mover9000(st, src, dest, n - 1) == (prev, true);
      var next := MoveOneReversed(st, src, dest, n);
      assert MoveOne(prev, src, dest) == Some(next);
    } else {
      var s := st[src];
      assert s[..|s|] == s && s[|s|..] == [];
      assert st[dest] + Reverse(s[|s|..]) == st[dest];
      assert st[src := s] == st;
      assert st[dest := st[dest]] == st;
    }
  }

  /** The step of `Mover9000Reverses`: with `n - 1` crates moved, moving one
      more gives the state with `n` moved. */
  lemma MoveOneReversed(st: Stacks, src: nat, dest: nat, n: nat) returns (next: Stacks)
    requires src < |st| && dest < |st| && src != dest
    requires 0 < n <= |st[src]|
    ensures var s := st[src];
      && next == st[src := s[..|s| - n]][dest := st[dest] + Reverse(s[|s| - n..])]
      && MoveOne(st[src := s[..|s| - (n - 1)]][dest := st[dest] + Reverse(s[|s| - (n - 1)..])], src, dest) == Some(next)
  {
    var s := st[src];
    var prev := st[src := s[..|s| - (n - 1)]][dest := st[dest] + Reverse(s[|s| - (n - 1)..])];
    assert prev[src] == s[..|s| - (n - 1)];
    assert prev[src][..|prev[src]| - 1] == s[..|s| - n];
    assert prev[src][|prev[src]| - 1] == s[|s| - n];
    assert s[|s| - n..] == [s[|s| - n]] + s[|s| - (n - 1)..];
    ReverseCons(s[|s| - n], s[|s| - (n - 1)..]);
    var popped := prev[src := s[..|s| - n]];
    next := popped[dest := popped[dest] + [s[|s| - n]]];
    assert popped[dest] + [s[|s| - n]] == st[dest] + Reverse(s[|s| - n..]);
    assert next == st[src := s[..|s| - n]][dest := st[dest] + Reverse(s[|s| - n..])];
  }

  /** A stack holding fewer than `n` crates is emptied onto `dest`, in
      reverse order, and then the move fails; the crates stay moved. */
  lemma {:induction false} Mover9000EmptiesShortStack(st: Stacks, src: nat, dest: nat, n: nat)
    requires src < |st| && dest < |st| && src != dest
    requires n > |st[src]|
    ensures Mover9000(st, src, dest, n) == (st[src := []][dest := st[dest] + Reverse(st[src])], false)
  {
    var s := st[src];
    Mover9000Reverses(st, src, dest, |s|);
    assert s[..0] == [] && s[0..] == s;
    Mover9000StaysFailed(st, src, dest, |s| + 1, n);
  }

  /** Moving from a stack onto itself changes nothing, and fails only on an
      empty stack. */
  lemma {:induction false} Mover9000SameStack(st: Stacks, src: nat, n: nat)
    requires src < |st|
    ensures Mover9000(st, src, src, n) == (st, n == 0 || st[src] != [])
  {
    if n > 0 {
      Mover9000SameStack(st, src, n - 1);
      if st[src] != [] {
        var s := st[src];
        var popped := st[src := s[..|s| - 1]];
        assert popped[src := popped[src] + [s[|s| - 1]]] == st by {
          assert s[..|s| - 1] + [s[|s| - 1]] == s;
        }
      }
    }
  }

  /** `crate_mover9001` on the stacks: the top `n` crates move together and
      keep their order. Moving none is an error and changes nothing; the
      source underflows when `n` exceeds the stack (excluded here), and uses
      `dest` only when something is moved. */
  function Mover9001(st: Stacks, src: int, dest: int, n: nat): (r: (Stacks, bool))
    requires 0 <= src < |st| && n <= |st[src]|
    requires n == 0 || 0 <= dest < |st|
    ensures |r.0| == |st| && Total(r.0) == Total(st)
    ensures r.1 <==> n > 0
    ensures !r.1 || src == dest ==> r.0 == st
    ensures forall k | 0 <= k < |st| && k != src && k != dest :: r.0[k] == st[k]
    ensures r.1 && src != dest ==> |r.0[dest]| == |st[dest]| + n
    ensures r.1 && src != dest ==> r.0[src] + r.0[dest][|st[dest]|..] == st[src]
    ensures r.1 && src != dest ==> r.0[dest][..|st[dest]|] == st[dest]
  {
    if n == 0 then
      (st, false)
    else
      var s := st[src];
      var rest := st[src := s[..|s| - n]];
      BlockMove(st, src, dest, n);
      (rest[dest := rest[dest] + s[|s| - n..]], true)
  }

  /** What lifting the top `n` crates of `src` onto `dest` as one block
      does to the stacks. */
  lemma BlockMove(st: Stacks, src: int, dest: int, n: nat)
    requires 0 <= src < |st| && 0 < n <= |st[src]| && 0 <= dest < |st|
    ensures var s := st[src];
      var rest := st[src := s[..|s| - n]];
      var r := rest[dest := rest[dest] + s[|s| - n..]];
      && |r| == |st| && Total(r) == Total(st)
      && (src == dest ==> r == st)
      && (forall k | 0 <= k < |st| && k != src && k != dest :: r[k] == st[k])
      && (src != dest ==> r[src] == s[..|s| - n] && r[dest] == st[dest] + s[|s| - n..])
  {
    var s := st[src];
    var rest := st[src := s[..|s| - n]];
    var moved := s[|s| - n..];
    TotalUpdate(st, src, s[..|s| - n]);
    TotalUpdate(rest, dest, rest[dest] + moved);
    assert s[..|s| - n] + moved == s;
  }

  /** The two cranes take the same crates off the source stack; the 9000
      lands them reversed, the 9001 in their original order. */
  lemma CranesDifferOnlyInOrder(st: Stacks, src: nat, dest: nat, n: nat)
    requires src < |st| && dest < |st| && src != dest
    requires 0 < n <= |st[src]|
    ensures Mover9000(st, src, dest, n).0[src] == Mover9001(st, src, dest, n).0[src]
    ensures Mover9000(st, src, dest, n).0[dest]
      == st[dest] + Reverse(Mover9001(st, src, dest, n).0[dest][|st[dest]|..])
  {
    var s := st[src];
    Mover9000Reverses(st, src, dest, n);
    assert Mover9001(st, src, dest, n).0[dest][|st[dest]|..] == s[|s| - n..];
  }

  /** `ship.stacks.into_iter().flat_map(|stack| stack.last().cloned())`. */
  function Tops(st: Stacks): (r: seq<char>)
    ensures |r| <= |st|
    ensures (forall j | 0 <= j < |st| :: st[j] != []) ==>
      |r| == |st| && forall j | 0 <= j < |st| :: r[j] == st[j][|st[j]| - 1]
  {
    if st == [] then []
    else
      var rest := Tops(st[1..]);
      if st[0] == [] then rest
      else
        var r := [st[0][|st[0]| - 1]] + rest;
        assert forall j | 1 <= j < |r| :: r[j] == rest[j - 1];
        r
  }

  // ---------------------------------------------------------------- the drawing

  /** The crate in one 4-character column of a drawing line: its first
      ASCII letter. */
  function FirstAlpha(cell: String): (c: Option<char>)
    ensures c.Some? ==> IsAsciiAlpha(c.value) && c.value in cell
    ensures c.None? <==> forall i | 0 <= i < |cell| :: !IsAsciiAlpha(cell[i])
  {
    if cell == [] then None
    else if IsAsciiAlpha(cell[0]) then Some(cell[0])
    else
      var c := FirstAlpha(cell[1..]);
      assert forall i | 1 <= i < |cell| :: cell[i] == cell[1..][i - 1];
      c
  }

  /** `line.chars().chunks(4)`, each column read as its crate. */
  function CrateRow(line: String): (row: seq<Option<char>>)
    ensures |row| == (|line| + 3) / 4
    decreases |line|
  {
    if line == [] then []
    else if |line| <= 4 then [FirstAlpha(line)]
    else [FirstAlpha(line[..4])] + CrateRow(line[4..])
  }

  function Max(a: nat, b: nat): nat { if a < b then b else a }

  /** Column `i` of a row put on the ship: a new empty stack when the ship
      has only `i` stacks, then the crate, if any, on top of stack `i`. */
  function AddCell(st: Stacks, i: nat, cell: Option<char>): (r: Stacks)
    requires i <= |st|
    ensures |r| == Max(|st|, i + 1)
    ensures forall j | 0 <= j < |r| ::
      r[j] == (if j < |st| then st[j] else []) + (if j == i && cell.Some? then [cell.value] else [])
  {
    var padded := if |st| <= i then st + [[]] else st;
    if cell.Some? then padded[i := padded[i] + [cell.value]] else padded
  }

  /** The first `k` columns of a row put on the ship, left to right: each
      stack gains the crate drawn in its column, and there are at least `k`
      stacks. */
  function AddRow(st: Stacks, row: seq<Option<char>>, k: nat): (r: Stacks)
    requires k <= |row|
    ensures |r| == Max(|st|, k)
    ensures forall j | 0 <= j < |r| ::
      r[j] == (if j < |st| then st[j] else []) + (if j < k && row[j].Some? then [row[j].value] else [])
  {
    if k == 0 then st
    else
      var prev := AddRow(st, row, k - 1);
      var r := AddCell(prev, k - 1, row[k - 1]);
      AddRowCell(st, row, k, prev, r);
      r
  }

  /** The column `k - 1` added to the first `k - 1`, cell by cell. */
  lemma AddRowCell(st: Stacks, row: seq<Option<char>>, k: nat, prev: Stacks, r: Stacks)
    requires 0 < k <= |row| && |prev| == Max(|st|, k - 1)
    requires forall j | 0 <= j < |prev| ::
      prev[j] == (if j < |st| then st[j] else []) + (if j < k - 1 && row[j].Some? then [row[j].value] else [])
    requires r == AddCell(prev, k - 1, row[k - 1])
    ensures |r| == Max(|st|, k)
    ensures forall j | 0 <= j < |r| ::
      r[j] == (if j < |st| then st[j] else []) + (if j < k && row[j].Some? then [row[j].value] else [])
  {
    forall j | 0 <= j < |r|
      ensures r[j] == (if j < |st| then st[j] else []) + (if j < k && row[j].Some? then [row[j].value] else [])
    {
      var base: seq<char> := if j < |st| then st[j] else [];
      var cell: seq<char> := if j == k - 1 && row[j].Some? then [row[j].value] else [];
      assert r[j] == (if j < |prev| then prev[j] else []) + cell;
      if j < |prev| && j < k - 1 {
        assert prev[j] == base + (if row[j].Some? then [row[j].value] else []);
      } else if j < |prev| {
        assert prev[j] == base + [];
        assert base + [] == base;
      } else {
        assert base == [];
        assert [] + cell == cell;
      }
    }
  }

  /** The crates drawn in column `j`, taking the lines in the given order. */
  function Column(lines: seq<String>, j: nat): seq<char>
  {
    if lines == [] then []
    else
      var row := CrateRow(lines[|lines| - 1]);
      Column(lines[..|lines| - 1], j) + (if j < |row| && row[j].Some? then [row[j].value] else [])
  }

  function Width(lines: seq<String>): nat
  {
    if lines == [] then 0 else Max(Width(lines[..|lines| - 1]), |CrateRow(lines[|lines| - 1])|)
  }

  lemma {:induction false} ColumnBeyondWidth(lines: seq<String>)
    ensures forall j: nat | j >= Width(lines) :: Column(lines, j) == []
  {
    if lines != [] {
      ColumnBeyondWidth(lines[..|lines| - 1]);
    }
  }

  /** The ship built from drawing lines given bottom row first: as many
      stacks as the widest line has columns, and stack `j` holds the crates
      of column `j` from the bottom up. */
  function Build(lines: seq<String>): (st: Stacks)
    ensures |st| == Width(lines)
    ensures forall j | 0 <= j < |st| :: st[j] == Column(lines, j)
  {
    if lines == [] then []
    else
      var init := lines[..|lines| - 1];
      var row := CrateRow(lines[|lines| - 1]);
      ColumnBeyondWidth(init);
      AddRow(Build(init), row, |row|)
  }

  /** One more column of a row: the cell is added on top of the columns before. */
  lemma AddRowNext(st: Stacks, row: seq<Option<char>>, i: nat)
    requires i < |row|
    ensures AddRow(st, row, i + 1) == AddCell(AddRow(st, row, i), i, row[i])
  {
  }

  /** One more drawing line: its row is put on the ship built so far. */
  lemma BuildNext(lines: seq<String>, k: nat)
    requires k < |lines|
    ensures var row := CrateRow(lines[k]);
      Build(lines[..k + 1]) == AddRow(Build(lines[..k]), row, |row|)
  {
    assert lines[..k + 1][..k] == lines[..k];
  }

  /** `s.lines().rev().skip(1)`: the drawing from its bottom row up, without
      the row of stack numbers. */
  function DrawingLines(s: String): (r: seq<String>)
    ensures |r| == if Lines(s) == [] then 0 else |Lines(s)| - 1
    ensures forall i | 0 <= i < |r| :: r[i] == Lines(s)[|Lines(s)| - 2 - i]
  {
    var rev := Reverse(Lines(s));
    if rev == [] then [] else rev[1..]
  }

  // ---------------------------------------------------------------- the ship

  /** `Ship`: the stacks the crane works on. */
  class Ship {
    var stacks: Stacks

    /** `Ship::default()`. */
    constructor ()
      ensures stacks == []
    {
      stacks := [];
    }

    /** `Ship::from_str`: every drawing line, bottom first, column by column. */
    constructor FromStr(s: String)
      ensures stacks == Build(DrawingLines(s))
    {
      stacks := [];
      new;
      var lines := DrawingLines(s);
      var k := 0;
      while k < |lines|
        invariant 0 <= k <= |lines|
        invariant stacks == Build(lines[..k])
      {
        BuildNext(lines, k);
        PutRow(CrateRow(lines[k]));
        k := k + 1;
      }
      assert lines[..k] == lines;
    }

    /** The body of `from_str`'s loop over one drawing line: a stack is
        added when the column is new, and the column's crate is pushed. */
    method PutRow(row: seq<Option<char>>)
      modifies this
      ensures stacks == AddRow(old(stacks), row, |row|)
    {
      var i := 0;
      while i < |row|
        invariant 0 <= i <= |row|
        invariant stacks == AddRow(old(stacks), row, i)
      {
        AddRowNext(old(stacks), row, i);
        ghost var expected := AddCell(stacks, i, row[i]);
        if |stacks| <= i {
          stacks := stacks + [[]];
        }
        if row[i].Some? {
          stacks := stacks[i := stacks[i] + [row[i].value]];
        }
        assert stacks == expected;
        i := i + 1;
      }
    }

    /** The crane `mover` stands for, executing one instruction. */
    method Crane(instruction: Instruction, mover: Mover) returns (r: Result<(), ElfError>)
      requires CanApply(stacks, instruction, mover)
      modifies this
      ensures (stacks, r.Ok?) == Moved(old(stacks), instruction, mover)
      ensures r.Err? ==> r.error == CannotExecuteInstructionBecauseStackAlreadyEmpty
    {
      if mover.CrateMover9000? {
        r := CrateMover9000(instruction);
      } else {
        r := CrateMover9001(instruction);
      }
    }

    /** `Ship::crate_mover9000`: one crate at a time; an empty source stack
        stops the instruction with an error, leaving moved crates moved. */
    method CrateMover9000(instruction: Instruction) returns (r: Result<(), ElfError>)
      requires CanApply(stacks, instruction, Mover.CrateMover9000)
      modifies this
      ensures (stacks, r.Ok?) == Mover9000(old(stacks), instruction.src - 1, instruction.dest - 1, instruction.amount)
      ensures r.Err? ==> r.error == CannotExecuteInstructionBecauseStackAlreadyEmpty
    {
      var src, dest := instruction.src - 1, instruction.dest - 1;
      var i := 0;
      while i < instruction.amount
        invariant 0 <= i <= instruction.amount
        invariant Mover9000(old(stacks), src, dest, i) == (stacks, true)
        invariant i == 0 || 0 <= dest < |stacks|
      {
        if stacks[src] == [] {
          Mover9000StaysFailed(old(stacks), src, dest, i + 1, instruction.amount);
          return Err(CannotExecuteInstructionBecauseStackAlreadyEmpty);
        }
        var s := stacks[src];
        var crate := s[|s| - 1];
        stacks := stacks[src := s[..|s| - 1]];
        stacks := stacks[dest := stacks[dest] + [crate]];
        i := i + 1;
      }
      return Ok(());
    }

    /** `Ship::crate_mover9001`: the top crates move as one block. */
    method CrateMover9001(instruction: Instruction) returns (r: Result<(), ElfError>)
      requires 1 <= instruction.src <= |stacks| && instruction.amount <= |stacks[instruction.src - 1]|
      requires instruction.amount == 0 || 1 <= instruction.dest <= |stacks|
      modifies this
      ensures (stacks, r.Ok?) == Mover9001(old(stacks), instruction.src - 1, instruction.dest - 1, instruction.amount)
      ensures r.Err? ==> r.error == CannotExecuteInstructionBecauseStackAlreadyEmpty
    {
      var src, dest := instruction.src - 1, instruction.dest - 1;
      var s := stacks[src];
      var buffer := s[|s| - instruction.amount..];
      stacks := stacks[src := s[..|s| - instruction.amount]];
      if buffer == [] {
        assert s[..|s|] == s;
        assert stacks == old(stacks);
        return Err(CannotExecuteInstructionBecauseStackAlreadyEmpty);
      }
      stacks := stacks[dest := stacks[dest] + buffer];
      return Ok(());
    }
  }

  // ---------------------------------------------------------------- a whole run

  /** Whether the chosen crane can carry out the instruction without the
      source panicking: stack numbers count from 1, the 9000 looks at the
      destination only after a successful pop, and the 9001 splits off no
      more than the source holds and looks at the destination only when it
      has taken something. */
  predicate CanApply(st: Stacks, ins: Instruction, mover: Mover)
  {
    match mover
    case CrateMover9000 =>
      ins.amount == 0 || (1 <= ins.src <= |st| && (st[ins.src - 1] == [] || 1 <= ins.dest <= |st|))
    case CrateMover9001 =>
      1 <= ins.src <= |st| && ins.amount <= |st[ins.src - 1]| && (ins.amount == 0 || 1 <= ins.dest <= |st|)
  }

  function Apply(st: Stacks, ins: Instruction, mover: Mover): (r: Result<Stacks, Failure>)
    ensures r.Err? <==> (
      || !CanApply(st, ins, mover)
      || (mover == CrateMover9000 && !Mover9000(st, ins.src - 1, ins.dest - 1, ins.amount).1)
      || (mover == CrateMover9001 && ins.amount == 0))
    ensures r.Err? && CanApply(st, ins, mover) ==> r.error == Elf(CannotExecuteInstructionBecauseStackAlreadyEmpty)
    ensures r == Err(Panic) <==> !CanApply(st, ins, mover)
    ensures r.Ok? ==> |r.value| == |st| && Total(r.value) == Total(st)
  {
    if !CanApply(st, ins, mover) then Err(Panic)
    else
      var moved := Moved(st, ins, mover);
      if moved.1 then Ok(moved.0) else Err(Elf(CannotExecuteInstructionBecauseStackAlreadyEmpty))
  }

  /** The 9000 on an empty source stack fails with the elves' error
      whatever the destination: the first `pop` returns before the
      destination is indexed. */
  lemma EmptySourceIsElfError(st: Stacks, ins: Instruction)
    requires ins.amount > 0 && 1 <= ins.src <= |st| && st[ins.src - 1] == []
    ensures Apply(st, ins, CrateMover9000) == Err(Elf(CannotExecuteInstructionBecauseStackAlreadyEmpty))
  {
  }

  /** The stacks the chosen crane leaves, and whether it finished. */
  function Moved(st: Stacks, ins: Instruction, mover: Mover): (r: (Stacks, bool))
    requires CanApply(st, ins, mover)
    ensures |r.0| == |st| && Total(r.0) == Total(st)
  {
    match mover
    case CrateMover9000 => Mover9000(st, ins.src - 1, ins.dest - 1, ins.amount)
    case CrateMover9001 => Mover9001(st, ins.src - 1, ins.dest - 1, ins.amount)
  }

  /** The instruction lines in order, stopping at the first failure
      (`collect::<Result<Vec<_>, _>>`). */
  function Run(st: Stacks, lines: seq<String>, mover: Mover): (r: Result<Stacks, Failure>)
    ensures r.Ok? ==> |r.value| == |st| && Total(r.value) == Total(st)
  {
    if lines == [] then Ok(st)
    else
      var prev :- Run(st, lines[..|lines| - 1], mover);
      RunLine(prev, lines[|lines| - 1], mover)
  }

  function RunLine(st: Stacks, line: String, mover: Mover): (r: Result<Stacks, Failure>)
    ensures r.Ok? ==> |r.value| == |st| && Total(r.value) == Total(st)
  {
    match ParseInstruction(line)
    case Err(e) => Err(Elf(e))
    case Ok(ins) => Apply(st, ins, mover)
  }

  /** A failure ends the run: later lines are not looked at. */
  lemma {:induction false} RunStopsAtFailure(st: Stacks, lines: seq<String>, k: nat, mover: Mover)
    requires k <= |lines| && Run(st, lines[..k], mover).Err?
    ensures Run(st, lines, mover) == Run(st, lines[..k], mover)
    decreases |lines| - k
  {
    if k < |lines| {
      assert lines[..|lines| - 1][..k] == lines[..k];
      RunStopsAtFailure(st, lines[..|lines| - 1], k, mover);
    } else {
      assert lines[..k] == lines;
    }
  }

  /** `split_input`: the drawing and the instructions around the first
      empty line. */
  function SplitInput(content: String): (r: Result<(String, String), ElfError>)
    ensures r.Err? <==> !Contains(content, "\n\n")
    ensures r.Ok? ==> content == r.value.0 + "\n\n" + r.value.1
  {
    match SplitOnce(content, "\n\n")
    case Some(parts) => Ok(parts)
    case None => Err(InputDoesNotContainTwoSections)
  }

  /** `find_rearanged_top_of_stacks` on the file's content. */
  function RearrangedTops(content: String, mover: Mover): (r: Result<seq<char>, Failure>)
    ensures !Contains(content, "\n\n") ==> r == Err(Elf(InputDoesNotContainTwoSections))
    ensures r.Ok? ==> (Contains(content, "\n\n")
      && |r.value| <= |Build(DrawingLines(SplitInput(content).value.0))|)
  {
    match SplitInput(content)
    case Err(e) => Err(Elf(e))
    case Ok((drawing, instructions)) =>
      var st :- Run(Build(DrawingLines(drawing)), Lines(instructions), mover);
      Ok(Tops(st))
  }

  /** One instruction line of `find_rearanged_top_of_stacks`: parse it and
      let the crane execute it; the failure, if any, is returned. */
  method Execute(ship: Ship, line: String, mover: Mover) returns (failed: Option<Failure>)
    modifies ship
    ensures failed.None? <==> RunLine(old(ship.stacks), line, mover).Ok?
    ensures failed.None? ==> ship.stacks == RunLine(old(ship.stacks), line, mover).value
    ensures failed.Some? ==> failed.value == RunLine(old(ship.stacks), line, mover).error
  {
    ghost var st := ship.stacks;
    var parsed := ParseInstruction(line);
    if parsed.Err? {
      assert RunLine(st, line, mover) == Err(Elf(parsed.error));
      return Some(Elf(parsed.error));
    }
    var ins := parsed.value;
    assert RunLine(st, line, mover) == Apply(st, ins, mover);
    if !CanApply(ship.stacks, ins, mover) {
      return Some(Panic);
    }
    var done := ship.Crane(ins, mover);
    if done.Err? {
      return Some(Elf(done.error));
    }
    return None;
  }

  /** The instruction lines executed one by one on the ship, stopping at
      the first failure. */
  method Rearrange(ship: Ship, lines: seq<String>, mover: Mover) returns (failed: Option<Failure>)
    modifies ship
    ensures failed.None? ==> Run(old(ship.stacks), lines, mover) == Ok(ship.stacks)
    ensures failed.Some? ==> Run(old(ship.stacks), lines, mover) == Err(failed.value)
  {
    ghost var init := ship.stacks;
    var k := 0;
    assert lines[..0] == [];
    while k < |lines|
      invariant 0 <= k <= |lines|
      invariant Run(init, lines[..k], mover) == Ok(ship.stacks)
    {
      RunNext(init, lines, k, mover);
      failed := Execute(ship, lines[k], mover);
      if failed.Some? {
        RunStopsAtFailure(init, lines, k + 1, mover);
        return;
      }
      k := k + 1;
    }
    assert lines[..k] == lines;
    return None;
  }

  /** The imperative run on a `Ship`; reading the file is left to the caller. */
  method FindRearrangedTopOfStacks(content: String, mover: Mover) returns (r: Result<seq<char>, Failure>)
    ensures r == RearrangedTops(content, mover)
  {
    var sections := SplitInput(content);
    if sections.Err? {
      return Err(Elf(sections.error));
    }
    var (drawing, instructions) := sections.value;
    var ship := new Ship.FromStr(drawing);
    var lines := Lines(instructions);
    assert RearrangedTops(content, mover) == TopsAfter(Run(Build(DrawingLines(drawing)), lines, mover));
    var failed := Rearrange(ship, lines, mover);
    if failed.Some? {
      return Err(failed.value);
    }
    return Ok(Tops(ship.stacks));
  }

  /** The tops after a run, or the run's failure. */
  function TopsAfter(run: Result<Stacks, Failure>): (r: Result<seq<char>, Failure>)
    ensures r.Ok? <==> run.Ok?
    ensures r.Ok? ==> |r.value| <= |run.value|
    ensures r.Err? ==> r.error == run.error
  {
    match run
    case Ok(st) => Ok(Tops(st))
    case Err(e) => Err(e)
  }

  /** One more line of a run that has not failed so far. */
  lemma RunNext(st: Stacks, lines: seq<String>, k: nat, mover: Mover)
    requires k < |lines| && Run(st, lines[..k], mover).Ok?
    ensures Run(st, lines[..k + 1], mover) == RunLine(Run(st, lines[..k], mover).value, lines[k], mover)
  {
    assert lines[..k + 1][..k] == lines[..k];
  }

  /** An instruction the 9000 can complete, read as one block move. */
  lemma Apply9000(st: Stacks, ins: Instruction)
    requires 1 <= ins.src <= |st| && 1 <= ins.dest <= |st| && ins.src != ins.dest
    requires ins.amount <= |st[ins.src - 1]|
    ensures var s := st[ins.src - 1];
      Apply(st, ins, CrateMover9000)
        == Ok(st[ins.src - 1 := s[..|s| - ins.amount]][ins.dest - 1 := st[ins.dest - 1] + Reverse(s[|s| - ins.amount..])])
  {
    Mover9000Reverses(st, ins.src - 1, ins.dest - 1, ins.amount);
  }

  /** An instruction the 9001 can complete, read as one block move. */
  lemma Apply9001(st: Stacks, ins: Instruction)
    requires 1 <= ins.src <= |st| && 1 <= ins.dest <= |st| && ins.src != ins.dest
    requires 0 < ins.amount <= |st[ins.src - 1]|
    ensures var s := st[ins.src - 1];
      Apply(st, ins, CrateMover9001)
        == Ok(st[ins.src - 1 := s[..|s| - ins.amount]][ins.dest - 1 := st[ins.dest - 1] + s[|s| - ins.amount..]])
  {
  }

  /** The puzzle's example: stacks "ZN", "MCD", "P" and the instructions
      "move 1 from 2 to 1", "move 3 from 1 to 3", "move 2 from 2 to 1",
      "move 1 from 1 to 2", step by step; the 9000 leaves C, M, Z on top
      and the 9001 M, C, D. */
  lemma Example9000Step1()
    ensures Apply(["ZN", "MCD", "P"], Instruction(1, 2, 1), CrateMover9000) == Ok(["ZND", "MC", "P"])
  {
      Apply9000(["ZN", "MCD", "P"], Instruction(1, 2, 1));
      assert "MCD"[..2] == "MC" && "MCD"[2..] == "D";
      assert Reverse("D") == "D";
      assert "ZN" + "D" == "ZND";
      assert ["ZN", "MCD", "P"][1 := "MC"][0 := "ZND"] == ["ZND", "MC", "P"];
  }

  lemma Example9000Step2()
    ensures Apply(["ZND", "MC", "P"], Instruction(3, 1, 3), CrateMover9000) == Ok(["", "MC", "PDNZ"])
  {
      Apply9000(["ZND", "MC", "P"], Instruction(3, 1, 3));
      assert "ZND"[..0] == "" && "ZND"[0..] == "ZND";
      assert Reverse("ZND") == "DNZ";
      assert "P" + "DNZ" == "PDNZ";
      assert ["ZND", "MC", "P"][0 := ""][2 := "PDNZ"] == ["", "MC", "PDNZ"];
  }

  lemma Example9000Step3()
    ensures Apply(["", "MC", "PDNZ"], Instruction(2, 2, 1), CrateMover9000) == Ok(["CM", "", "PDNZ"])
  {
      Apply9000(["", "MC", "PDNZ"], Instruction(2, 2, 1));
      assert "MC"[..0] == "" && "MC"[0..] == "MC";
      assert Reverse("MC") == "CM";
      assert "" + "CM" == "CM";
      assert ["", "MC", "PDNZ"][1 := ""][0 := "CM"] == ["CM", "", "PDNZ"];
  }

  lemma Example9000Step4()
    ensures Apply(["CM", "", "PDNZ"], Instruction(1, 1, 2), CrateMover9000) == Ok(["C", "M", "PDNZ"])
  {
      Apply9000(["CM", "", "PDNZ"], Instruction(1, 1, 2));
      assert "CM"[..1] == "C" && "CM"[1..] == "M";
      assert Reverse("M") == "M";
      assert "" + "M" == "M";
      assert ["CM", "", "PDNZ"][0 := "C"][1 := "M"] == ["C", "M", "PDNZ"];
  }

  lemma Example9001Step1()
    ensures Apply(["ZN", "MCD", "P"], Instruction(1, 2, 1), CrateMover9001) == Ok(["ZND", "MC", "P"])
  {
      Apply9001(["ZN", "MCD", "P"], Instruction(1, 2, 1));
      assert "MCD"[..2] == "MC" && "MCD"[2..] == "D";
      assert "ZN" + "D" == "ZND";
      assert ["ZN", "MCD", "P"][1 := "MC"][0 := "ZND"] == ["ZND", "MC", "P"];
  }

  lemma Example9001Step2()
    ensures Apply(["ZND", "MC", "P"], Instruction(3, 1, 3), CrateMover9001) == Ok(["", "MC", "PZND"])
  {
      Apply9001(["ZND", "MC", "P"], Instruction(3, 1, 3));
      assert "ZND"[..0] == "" && "ZND"[0..] == "ZND";
      assert "P" + "ZND" == "PZND";
      assert ["ZND", "MC", "P"][0 := ""][2 := "PZND"] == ["", "MC", "PZND"];
  }

  lemma Example9001Step3()
    ensures Apply(["", "MC", "PZND"], Instruction(2, 2, 1), CrateMover9001) == Ok(["MC", "", "PZND"])
  {
      Apply9001(["", "MC", "PZND"], Instruction(2, 2, 1));
      assert "MC"[..0] == "" && "MC"[0..] == "MC";
      assert "" + "MC" == "MC";
      assert ["", "MC", "PZND"][1 := ""][0 := "MC"] == ["MC", "", "PZND"];
  }

  lemma Example9001Step4()
    ensures Apply(["MC", "", "PZND"], Instruction(1, 1, 2), CrateMover9001) == Ok(["M", "C", "PZND"])
  {
      Apply9001(["MC", "", "PZND"], Instruction(1, 1, 2));
      assert "MC"[..1] == "M" && "MC"[1..] == "C";
      assert "" + "C" == "C";
      assert ["MC", "", "PZND"][0 := "M"][1 := "C"] == ["M", "C", "PZND"];
  }

  lemma ExampleTops()
    ensures Tops(["C", "M", "PDNZ"]) == "CMZ"
    ensures Tops(["M", "C", "PZND"]) == "MCD"
  {
  }
}
