/** Day 11, one monkey: its queue of worry levels, the operation it applies,
    the divisibility test that picks the next monkey, and the parser for its
    description. */
module Day11Monkey {
  import opened Wrappers
  import opened Text

  const U128_MAX: nat := 0xFFFF_FFFF_FFFF_FFFF_FFFF_FFFF_FFFF_FFFF

  /** The boxed closure of the source, one case per form the parser builds:
      `old + n`, `old + old`, `old * n`, `old * old`. */
  datatype Operation = Add(n: nat) | Double | Multiply(n: nat) | Square

  function Apply(op: Operation, x: nat): (y: nat)
    ensures op.Add? ==> y == x + op.n
    ensures op.Multiply? ==> y == x * op.n
    ensures op.Double? ==> y == 2 * x
    ensures op.Square? ==> y == x * x
  {
    match op
    case Add(n) => x + n
    case Double => x + x
    case Multiply(n) => x * n
    case Square => x * x
  }

  /** Everything a monkey holds, as a value. */
  datatype MonkeyState = MonkeyState(id: nat, items: seq<nat>, operation: Operation, modulo: nat,
                                     trueMonkey: nat, falseMonkey: nat, inspections: nat)

  /** `test`: divisible worry goes to the true monkey, the rest to the false
      one. A zero divisor panics in the source. */
  function TestOf(m: MonkeyState, x: nat): (target: nat)
    requires m.modulo > 0
    ensures target == m.trueMonkey || target == m.falseMonkey
    ensures m.trueMonkey != m.falseMonkey ==> (target == m.trueMonkey <==> x % m.modulo == 0)
  {
    if x % m.modulo == 0 then m.trueMonkey else m.falseMonkey
  }

  /** `inspect` on values: the front item comes out and is counted. */
  function InspectOf(m: MonkeyState): (MonkeyState, Option<nat>)
  {
    if m.items == [] then (m, None)
    else (m.(items := m.items[1..], inspections := m.inspections + 1), Some(m.items[0]))
  }

  /** `catch` on values: the item joins the back of the queue. */
  function CatchOf(m: MonkeyState, item: nat): MonkeyState
  {
    m.(items := m.items + [item])
  }

  /** Inspecting and catching keep `inspections + |items|` apart from what
      was caught: every inspection counts an item that left the queue. */
  lemma InspectionsCountDepartures(m: MonkeyState, item: nat)
    ensures InspectOf(m).0.inspections + |InspectOf(m).0.items| == m.inspections + |m.items|
    ensures InspectOf(m).1.Some? <==> m.items != []
    ensures CatchOf(m, item).inspections + |CatchOf(m, item).items| == m.inspections + |m.items| + 1
  {
  }

  /** The queue is first in, first out: an item caught by a monkey with an
      empty queue is the next one inspected. */
  lemma FirstInFirstOut(m: MonkeyState, item: nat)
    requires m.items == []
    ensures InspectOf(CatchOf(m, item)).1 == Some(item)
    ensures InspectOf(CatchOf(m, item)).0.items == []
  {
  }

  /** `Monkey`: the only fields that change are the queue and the count. */
  class Monkey {
    var id: nat
    var items: seq<nat>
    var operation: Operation
    var modulo: nat
    var trueMonkey: nat
    var falseMonkey: nat
    var inspections: nat

    function State(): MonkeyState
      reads this
    {
      MonkeyState(id, items, operation, modulo, trueMonkey, falseMonkey, inspections)
    }

    /** The monkey `parse_monkey` builds: nothing inspected yet. */
    constructor (d: MonkeyState)
      ensures State() == d.(inspections := 0)
    {
      id, items, operation, modulo := d.id, d.items, d.operation, d.modulo;
      trueMonkey, falseMonkey, inspections := d.trueMonkey, d.falseMonkey, 0;
    }

    function Test(x: nat): (target: nat)
      requires modulo > 0
      reads this
      ensures target == TestOf(State(), x)
    {
      if x % modulo == 0 then trueMonkey else falseMonkey
    }

    /** `inspect`: pops the front item and counts it; an empty queue yields
        nothing and counts nothing. */
    method Inspect() returns (item: Option<nat>)
      modifies this
      ensures State() == InspectOf(old(State())).0
      ensures item == InspectOf(old(State())).1
    {
      if items == [] {
        item := None;
      } else {
        item := Some(items[0]);
        items := items[1..];
        inspections := inspections + 1;
      }
    }

    /** `catch`: appends to the back of the queue. */
    method Catch(item: nat)
      modifies this
      ensures State() == CatchOf(old(State()), item)
    {
      items := items + [item];
    }
  }

  // ---------------------------------------------------------------- parsing

  function Tag(s: String, t: String): Option<String>
  {
    StripPrefix(s, t)
  }

  /** One operand of `parse_addition` / `parse_multiplication`: the word
      "old" is tried before a number. */
  function Operand(s: String, multiply: bool): (r: Option<Parsed<Operation>>)
  {
    var t := MultiSpace0(s);
    match Tag(t, "old")
    case Some(rest) => Some(Parsed(if multiply then Square else Double, rest))
    case None =>
      match NomUnsigned(t, U128_MAX)
      case None => None
      case Some(p) => Some(Parsed(if multiply then Multiply(p.value) else Add(p.value), p.rest))
  }

  /** `parse_function`: "new = old ", then `+` or `*` with its operand. */
  function ParseFunction(s: String): (r: Option<Parsed<Operation>>)
  {
    match Tag(s, "new = old ")
    case None => None
    case Some(t) =>
      var addition :=
        match Tag(t, "+")
        case None => None
        case Some(u) => Operand(u, false);
      if addition.Some? then addition
      else
        match Tag(t, "*")
        case None => None
        case Some(u) => Operand(u, true)
  }

  /** `separated_list0(tag(", "), u128)`: no number gives an empty list;
      after each separator a number must follow, or the list ends before
      that separator. */
  function ItemList(s: String): (r: Parsed<seq<nat>>)
  {
    match NomUnsigned(s, U128_MAX)
    case None => Parsed([], s)
    case Some(p) => MoreItems([p.value], p.rest)
  }

  function MoreItems(acc: seq<nat>, s: String): (r: Parsed<seq<nat>>)
    decreases |s|
  {
    match Tag(s, ", ")
    case None => Parsed(acc, s)
    case Some(t) =>
      match NomUnsigned(t, U128_MAX)
      case None => Parsed(acc, s)
      case Some(p) => MoreItems(acc + [p.value], p.rest)
  }

  /** Leading whitespace, a tag and a number. */
  function TaggedNumber(s: String, tag: String, max: nat): Option<Parsed<nat>>
  {
    var t :- MultiSpace1(s);
    var u :- Tag(t, tag);
    NomUnsigned(u, max)
  }

  /** "Monkey <u32>:" and its line feed. */
  function HeaderLine(s: String): Option<Parsed<nat>>
  {
    var t :- Tag(s, "Monkey ");
    var id :- NomUnsigned(t, U32_MAX);
    var u :- Tag(id.rest, ":");
    var v :- Newline(u);
    Some(Parsed(id.value, v))
  }

  /** "Starting items: " and the list, then a line feed. */
  function ItemsLine(s: String): Option<Parsed<seq<nat>>>
  {
    var t :- MultiSpace1(s);
    var u :- Tag(t, "Starting items: ");
    var items := ItemList(u);
    var v :- Newline(items.rest);
    Some(Parsed(items.value, v))
  }

  /** "Operation: " and the function, then a line feed. */
  function OperationLine(s: String): Option<Parsed<Operation>>
  {
    var t :- MultiSpace1(s);
    var u :- Tag(t, "Operation: ");
    var op :- ParseFunction(u);
    var v :- Newline(op.rest);
    Some(Parsed(op.value, v))
  }

  /** A tagged number followed by a line feed. */
  function NumberLine(s: String, tag: String, max: nat): Option<Parsed<nat>>
  {
    var n :- TaggedNumber(s, tag, max);
    var v :- Newline(n.rest);
    Some(Parsed(n.value, v))
  }

  /** `parse_monkey`: the six lines of a description in their fixed order.
      Whatever follows the last number is ignored. */
  function ParseMonkey(s: String): (r: Option<MonkeyState>)
    ensures r.Some? ==> r.value.inspections == 0
  {
    var id :- HeaderLine(s);
    var items :- ItemsLine(id.rest);
    var op :- OperationLine(items.rest);
    var modulo :- NumberLine(op.rest, "Test: divisible by ", U128_MAX);
    var t :- NumberLine(modulo.rest, "If true: throw to monkey ", U32_MAX);
    var f :- TaggedNumber(t.rest, "If false: throw to monkey ", U32_MAX);
    Some(MonkeyState(id.value, items.value, op.value, modulo.value, t.value, f.value, 0))
  }

  // ---------------------------------------------------------------- round trip

  function ShowOperation(op: Operation): String
  {
    match op
    case Add(n) => "+ " + NatToDec(n)
    case Double => "+ old"
    case Multiply(n) => "* " + NatToDec(n)
    case Square => "* old"
  }

  /** A monkey's description as the puzzle input writes it. */
  function ShowMonkey(m: MonkeyState): String
  {
    HeaderText(m.id)
    + (ItemsText(m.items)
    + (OperationText(m.operation) + ("\n"
    + (NumberText("  ", "Test: divisible by ", m.modulo) + ("\n"
    + (NumberText("    ", "If true: throw to monkey ", m.trueMonkey) + ("\n"
    + NumberText("    ", "If false: throw to monkey ", m.falseMonkey))))))))
  }

  function HeaderText(id: nat): String
  {
    "Monkey " + NatToDec(id) + ":" + "\n"
  }

  function ItemsText(items: seq<nat>): String
  {
    "  " + "Starting items: " + Join(Numerals(items), ", ") + "\n"
  }

  function OperationText(op: Operation): String
  {
    "  " + "Operation: " + "new = old " + ShowOperation(op)
  }

  function NumberText(indent: String, tag: String, n: nat): String
  {
    indent + tag + NatToDec(n)
  }

  function Numerals(xs: seq<nat>): (r: seq<String>)
    ensures |r| == |xs|
  {
    if xs == [] then [] else [NatToDec(xs[0])] + Numerals(xs[1..])
  }

  /** A number the parser accepts. */
  predicate Fits(m: MonkeyState)
  {
    && m.id <= U32_MAX && m.trueMonkey <= U32_MAX && m.falseMonkey <= U32_MAX
    && m.modulo <= U128_MAX && (forall i | 0 <= i < |m.items| :: m.items[i] <= U128_MAX)
    && (m.operation.Add? || m.operation.Multiply? ==> m.operation.n <= U128_MAX)
  }

  lemma NumberBefore(n: nat, max: nat, rest: String)
    requires n <= max && (rest == [] || !IsDigit(rest[0]))
    ensures NomUnsigned(NatToDec(n) + rest, max) == Some(Parsed(n, rest))
  {
    NomUnsignedOfNumeral(n, max, rest);
  }

  /** A line feed ends a list. */
  lemma MoreItemsStops(acc: seq<nat>, rest: String)
    requires rest != [] && rest[0] == '\n'
    ensures MoreItems(acc, rest) == Parsed(acc, rest)
  {
    assert !StartsWith(rest, ", ") by {
      if |rest| >= 2 {
        assert rest[..2][0] != ", "[0];
      }
    }
  }

  /** A separator and a number extend the list. */
  lemma MoreItemsReads(acc: seq<nat>, n: nat, after: String)
    requires n <= U128_MAX && (after == [] || !IsDigit(after[0]))
    ensures MoreItems(acc, ", " + NatToDec(n) + after) == MoreItems(acc + [n], after)
  {
    Assoc(", ", NatToDec(n), after);
    StripPrefixOfConcat(", ", NatToDec(n) + after);
    NumberBefore(n, U128_MAX, after);
  }

  /** The rest of a list after at least one number is read back. */
  lemma {:induction false} MoreItemsOfJoin(acc: seq<nat>, xs: seq<nat>, rest: String)
    requires forall i | 0 <= i < |xs| :: xs[i] <= U128_MAX
    requires rest != [] && rest[0] == '\n'
    ensures MoreItems(acc, Separated(xs) + rest) == Parsed(acc + xs, rest)
    decreases |xs|
  {
    if xs == [] {
      MoreItemsOfNone(acc, xs, rest);
    } else {
      var longer, tail := acc + [xs[0]], xs[1..];
      assert longer + tail == acc + xs;
      MoreItemsFirst(acc, xs, rest);
      MoreItemsOfJoin(longer, tail, rest);
    }
  }

  /** The first separator and number of a run are read. */
  lemma MoreItemsFirst(acc: seq<nat>, xs: seq<nat>, rest: String)
    requires xs != [] && xs[0] <= U128_MAX
    requires rest != [] && rest[0] == '\n'
    ensures MoreItems(acc, Separated(xs) + rest) == MoreItems(acc + [xs[0]], Separated(xs[1..]) + rest)
  {
    SeparatedFirst(xs, rest);
    MoreItemsReads(acc, xs[0], Separated(xs[1..]) + rest);
  }

  lemma MoreItemsOfNone(acc: seq<nat>, xs: seq<nat>, rest: String)
    requires xs == [] && rest != [] && rest[0] == '\n'
    ensures MoreItems(acc, Separated(xs) + rest) == Parsed(acc + xs, rest)
  {
    assert Separated(xs) + rest == rest && acc + xs == acc;
    MoreItemsStops(acc, rest);
  }

  lemma SeparatedFirst(xs: seq<nat>, rest: String)
    requires xs != [] && rest != [] && rest[0] == '\n'
    ensures Separated(xs) + rest == ", " + NatToDec(xs[0]) + (Separated(xs[1..]) + rest)
    ensures !IsDigit((Separated(xs[1..]) + rest)[0])
  {
    var tail := Separated(xs[1..]);
    assert Separated(xs) == ", " + NatToDec(xs[0]) + tail;
    Assoc(", " + NatToDec(xs[0]), tail, rest);
    AfterSeparated(tail, rest);
  }

  /** Text after a (maybe empty) run of separated numbers and a line feed
      does not start with a digit. */
  lemma AfterSeparated(tail: String, rest: String)
    requires tail == [] || tail[0] == ','
    requires rest != [] && rest[0] == '\n'
    ensures !IsDigit((tail + rest)[0])
  {
    if tail == [] {
      assert tail + rest == rest;
    } else {
      assert (tail + rest)[0] == ',';
    }
  }

  /** Each number with the separator in front of it. */
  function Separated(xs: seq<nat>): (r: String)
    ensures r != [] ==> r[0] == ','
  {
    if xs == [] then [] else ", " + NatToDec(xs[0]) + Separated(xs[1..])
  }

  lemma {:induction false} JoinIsSeparated(xs: seq<nat>)
    requires xs != []
    ensures Join(Numerals(xs), ", ") == NatToDec(xs[0]) + Separated(xs[1..])
    decreases |xs|
  {
    var ns := Numerals(xs);
    assert ns[1..] == Numerals(xs[1..]);
    if |xs| > 1 {
      JoinIsSeparated(xs[1..]);
      assert xs[1..][1..] == xs[2..];
      assert Separated(xs[1..]) == ", " + NatToDec(xs[1]) + Separated(xs[2..]);
    }
  }

  /** A joined list of numbers before a line feed is read back whole. */
  lemma ItemListOfJoin(xs: seq<nat>, rest: String)
    requires forall i | 0 <= i < |xs| :: xs[i] <= U128_MAX
    requires rest != [] && rest[0] == '\n'
    ensures ItemList(Join(Numerals(xs), ", ") + rest) == Parsed(xs, rest)
  {
    if xs == [] {
      ItemListOfEmpty(xs, rest);
    } else {
      ItemListOfSome(xs, rest);
    }
  }

  lemma ItemListOfEmpty(xs: seq<nat>, rest: String)
    requires xs == [] && rest != [] && rest[0] == '\n'
    ensures ItemList(Join(Numerals(xs), ", ") + rest) == Parsed(xs, rest)
  {
    assert Join(Numerals(xs), ", ") == [];
    assert Join(Numerals(xs), ", ") + rest == rest;
    assert LeadingDigits(rest) == 0;
    assert NomUnsigned(rest, U128_MAX) == None;
  }

  lemma ItemListOfSome(xs: seq<nat>, rest: String)
    requires xs != [] && forall i | 0 <= i < |xs| :: xs[i] <= U128_MAX
    requires rest != [] && rest[0] == '\n'
    ensures ItemList(Join(Numerals(xs), ", ") + rest) == Parsed(xs, rest)
  {
    var tail := Separated(xs[1..]) + rest;
    assert [xs[0]] + xs[1..] == xs;
    assert Join(Numerals(xs), ", ") + rest == NatToDec(xs[0]) + tail && !IsDigit(tail[0]) by {
      JoinThenRest(xs, rest);
    }
    assert MoreItems([xs[0]], tail) == Parsed(xs, rest) by {
      MoreItemsOfJoin([xs[0]], xs[1..], rest);
    }
    ItemListFirst(xs[0], tail);
  }

  lemma JoinThenRest(xs: seq<nat>, rest: String)
    requires xs != [] && rest != [] && rest[0] == '\n'
    ensures Join(Numerals(xs), ", ") + rest == NatToDec(xs[0]) + (Separated(xs[1..]) + rest)
    ensures !IsDigit((Separated(xs[1..]) + rest)[0])
  {
    JoinIsSeparated(xs);
    Assoc(NatToDec(xs[0]), Separated(xs[1..]), rest);
    AfterSeparated(Separated(xs[1..]), rest);
  }

  lemma ItemListFirst(x: nat, tail: String)
    requires x <= U128_MAX && tail != [] && !IsDigit(tail[0])
    ensures ItemList(NatToDec(x) + tail) == MoreItems([x], tail)
  {
    NumberBefore(x, U128_MAX, tail);
  }

  lemma OperandOld(multiply: bool, rest: String)
    requires rest != [] && rest[0] == '\n'
    ensures Operand(" old" + rest, multiply) == Some(Parsed(if multiply then Square else Double, rest))
  {
    assert " old" + rest == " " + ("old" + rest);
    MultiSpaceBefore(" ", "old" + rest);
    StripPrefixOfConcat("old", rest);
  }

  lemma OperandNumber(multiply: bool, n: nat, rest: String)
    requires n <= U128_MAX && rest != [] && rest[0] == '\n'
    ensures Operand(" " + NatToDec(n) + rest, multiply)
         == Some(Parsed(if multiply then Multiply(n) else Add(n), rest))
  {
    var d := NatToDec(n);
    var t := d + rest;
    Assoc(" ", d, rest);
    assert IsDigit(t[0]);
    MultiSpaceBefore(" ", t);
    assert MultiSpace0(" " + d + rest) == t;
    assert Tag(t, "old") == None by {
      assert !StartsWith(t, "old");
    }
    NumberBefore(n, U128_MAX, rest);
    assert NomUnsigned(t, U128_MAX) == Some(Parsed(n, rest));
  }

  /** The operand after the sign, as `ShowOperation` writes it. */
  function OperandText(op: Operation): String
  {
    match op
    case Add(n) => " " + NatToDec(n)
    case Multiply(n) => " " + NatToDec(n)
    case _ => " old"
  }

  lemma ParseShownFunction(op: Operation, rest: String)
    requires (op.Add? || op.Multiply?) ==> op.n <= U128_MAX
    requires rest != [] && rest[0] == '\n'
    ensures ParseFunction("new = old " + ShowOperation(op) + rest) == Some(Parsed(op, rest))
  {
    var multiply := op.Multiply? || op.Square?;
    var sign := if multiply then "*" else "+";
    var u := OperandText(op) + rest;
    assert "new = old " + ShowOperation(op) + rest == "new = old " + (sign + u);
    StripPrefixOfConcat("new = old ", sign + u);
    StripPrefixOfConcat(sign, u);
    match op
    case Add(n) => OperandNumber(false, n, rest);
    case Multiply(n) => OperandNumber(true, n, rest);
    case Double => OperandOld(false, rest);
    case Square => OperandOld(true, rest);
    if multiply {
      assert !StartsWith(sign + u, "+");
    }
  }

  /** Layout the description uses before a label: one or more blanks. */
  predicate Indent(blank: String)
  {
    blank != [] && forall i | 0 <= i < |blank| :: IsMultiSpace(blank[i])
  }

  /** A label read after the indentation starts with something visible. */
  predicate Label(tag: String)
  {
    tag != [] && !IsMultiSpace(tag[0])
  }

  lemma LayoutOfDescription()
    ensures Indent("  ") && Indent("    ")
    ensures Label("Test: divisible by ")
    ensures Label("If true: throw to monkey ") && Label("If false: throw to monkey ")
  {
  }

  lemma TaggedNumberOf(blank: String, tag: String, n: nat, max: nat, rest: String)
    requires Indent(blank) && Label(tag)
    requires n <= max && (rest == [] || !IsDigit(rest[0]))
    ensures TaggedNumber(NumberText(blank, tag, n) + rest, tag, max) == Some(Parsed(n, rest))
  {
    var s := NumberText(blank, tag, n) + rest;
    assert s == blank + (tag + (NatToDec(n) + rest));
    MultiSpaceBefore(blank, tag + (NatToDec(n) + rest));
    StripPrefixOfConcat(tag, NatToDec(n) + rest);
    NumberBefore(n, max, rest);
  }

  lemma NumberLineOf(blank: String, tag: String, n: nat, max: nat, rest: String)
    requires Indent(blank) && Label(tag)
    requires n <= max
    ensures NumberLine(NumberText(blank, tag, n) + ("\n" + rest), tag, max) == Some(Parsed(n, rest))
  {
    TaggedNumberOf(blank, tag, n, max, "\n" + rest);
    assert ("\n" + rest)[1..] == rest;
  }

  lemma HeaderLineOf(id: nat, rest: String)
    requires id <= U32_MAX
    ensures HeaderLine(HeaderText(id) + rest) == Some(Parsed(id, rest))
  {
    var d := NatToDec(id);
    var s := HeaderText(id) + rest;
    var line := "\n" + rest;
    var afterTag := d + (":" + line);
    Assoc("Monkey " + d + ":", "\n", rest);
    Assoc("Monkey " + d, ":", line);
    Assoc("Monkey ", d, ":" + line);
    assert s == "Monkey " + afterTag;
    assert Tag(s, "Monkey ") == Some(afterTag) by {
      StripPrefixOfConcat("Monkey ", afterTag);
    }
    assert NomUnsigned(afterTag, U32_MAX) == Some(Parsed(id, ":" + line)) by {
      NumberBefore(id, U32_MAX, ":" + line);
    }
    assert Tag(":" + line, ":") == Some(line) by {
      StripPrefixOfConcat(":", line);
    }
    assert Newline(line) == Some(rest) by {
      assert line[1..] == rest;
    }
  }

  lemma ItemsLineOf(xs: seq<nat>, rest: String)
    requires forall i | 0 <= i < |xs| :: xs[i] <= U128_MAX
    ensures ItemsLine(ItemsText(xs) + rest) == Some(Parsed(xs, rest))
  {
    var list := Join(Numerals(xs), ", ");
    assert ItemsText(xs) + rest == "  " + ("Starting items: " + (list + ("\n" + rest)));
    MultiSpaceBefore("  ", "Starting items: " + (list + ("\n" + rest)));
    StripPrefixOfConcat("Starting items: ", list + ("\n" + rest));
    ItemListOfJoin(xs, "\n" + rest);
    assert ("\n" + rest)[1..] == rest;
  }

  lemma OperationLineOf(op: Operation, rest: String)
    requires (op.Add? || op.Multiply?) ==> op.n <= U128_MAX
    ensures OperationLine(OperationText(op) + ("\n" + rest)) == Some(Parsed(op, rest))
  {
    var n, sh, line := "new = old ", ShowOperation(op), "\n" + rest;
    var f := n + sh + line;
    Assoc("  " + "Operation: " + n, sh, line);
    Assoc("  " + "Operation: ", n, sh + line);
    Assoc("  ", "Operation: ", n + (sh + line));
    Assoc(n, sh, line);
    assert OperationText(op) + line == "  " + ("Operation: " + f);
    assert line[1..] == rest;
    MultiSpaceBefore("  ", "Operation: " + f);
    StripPrefixOfConcat("Operation: ", f);
    ParseShownFunction(op, line);
  }

  /** Every description the puzzle input could contain is read back as the
      monkey it describes, with nothing inspected yet. */
  lemma ParseShownMonkey(m: MonkeyState)
    requires Fits(m) && m.inspections == 0
    ensures ParseMonkey(ShowMonkey(m)) == Some(m)
  {
    var f := NumberText("    ", "If false: throw to monkey ", m.falseMonkey);
    var t := NumberText("    ", "If true: throw to monkey ", m.trueMonkey) + ("\n" + f);
    var md := NumberText("  ", "Test: divisible by ", m.modulo) + ("\n" + t);
    var op := OperationText(m.operation) + ("\n" + md);
    var items := ItemsText(m.items) + op;
    var s := ShowMonkey(m);
    LayoutOfDescription();
    assert HeaderLine(s) == Some(Parsed(m.id, items)) by {
      HeaderLineOf(m.id, items);
    }
    assert ItemsLine(items) == Some(Parsed(m.items, op)) by {
      ItemsLineOf(m.items, op);
    }
    assert OperationLine(op) == Some(Parsed(m.operation, md)) by {
      OperationLineOf(m.operation, md);
    }
    assert NumberLine(md, "Test: divisible by ", U128_MAX) == Some(Parsed(m.modulo, t)) by {
      NumberLineOf("  ", "Test: divisible by ", m.modulo, U128_MAX, t);
    }
    assert NumberLine(t, "If true: throw to monkey ", U32_MAX) == Some(Parsed(m.trueMonkey, f)) by {
      NumberLineOf("    ", "If true: throw to monkey ", m.trueMonkey, U32_MAX, f);
    }
    assert TaggedNumber(f, "If false: throw to monkey ", U32_MAX) == Some(Parsed(m.falseMonkey, [])) by {
      TaggedNumberOf("    ", "If false: throw to monkey ", m.falseMonkey, U32_MAX, []);
      assert f + [] == f;
    }
    ParseMonkeyOfStages(s, Parsed(m.id, items), Parsed(m.items, op), Parsed(m.operation, md),
      Parsed(m.modulo, t), Parsed(m.trueMonkey, f), m.falseMonkey);
  }

  /** Reading a description whose stages each succeed yields the monkey the
      stages read, in order. */
  lemma ParseMonkeyOfStages(s: String, id: Parsed<nat>, items: Parsed<seq<nat>>, op: Parsed<Operation>,
                            modulo: Parsed<nat>, t: Parsed<nat>, f: nat)
    requires HeaderLine(s) == Some(id)
    requires ItemsLine(id.rest) == Some(items)
    requires OperationLine(items.rest) == Some(op)
    requires NumberLine(op.rest, "Test: divisible by ", U128_MAX) == Some(modulo)
    requires NumberLine(modulo.rest, "If true: throw to monkey ", U32_MAX) == Some(t)
    requires TaggedNumber(t.rest, "If false: throw to monkey ", U32_MAX) == Some(Parsed(f, []))
    ensures ParseMonkey(s) == Some(MonkeyState(id.value, items.value, op.value, modulo.value, t.value, f, 0))
  {
  }

  /** The first monkey of the sample: its description reads back, it
      multiplies by 19 and it throws to 2 exactly when divisible by 23. */
  lemma SampleMonkeyZero(m: MonkeyState)
    requires m == MonkeyState(0, [79, 98], Multiply(19), 23, 2, 3, 0)
    ensures ParseMonkey(ShowMonkey(m)) == Some(m)
    ensures Apply(m.operation, 1) == 19 && Apply(m.operation, 2) == 2 * 19
    ensures TestOf(m, 23) == 2 && TestOf(m, 24) == 3
  {
    ParseShownMonkey(m);
  }

  /** The second monkey of the sample adds 6 and tests divisibility by 19. */
  lemma SampleMonkeyOne(m: MonkeyState)
    requires m == MonkeyState(1, [54, 65, 75, 74], Add(6), 19, 2, 0, 0)
    ensures ParseMonkey(ShowMonkey(m)) == Some(m)
    ensures Apply(m.operation, 1) == 1 + 6 && Apply(m.operation, 2) == 2 + 6
    ensures TestOf(m, 19) == 2 && TestOf(m, 20) == 0
  {
    ParseShownMonkey(m);
  }

  /** The third monkey of the sample squares and tests divisibility by 13. */
  lemma SampleMonkeyTwo(m: MonkeyState)
    requires m == MonkeyState(2, [79, 60, 97], Square, 13, 1, 3, 0)
    ensures ParseMonkey(ShowMonkey(m)) == Some(m)
    ensures Apply(m.operation, 1) == 1 && Apply(m.operation, 2) == 4 && Apply(m.operation, 42) == 42 * 42
    ensures TestOf(m, 13) == 1 && TestOf(m, 14) == 3
  {
    ParseShownMonkey(m);
  }
}
