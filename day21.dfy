/** Day 21: monkeys shouting numbers. Each input line names a monkey and
    either the number it shouts or the two monkeys whose numbers it
    combines with one of the four arithmetic operations. */
module Day21 {
  import opened Wrappers
  import opened Text
  import opened Ints

  datatype Operation = Plus | Minus | Times | Divide

  /** `Operation::call` on `i64`; division truncates toward zero and by
      zero it panics. Division truncates: quotient times divisor plus a
      remainder smaller than the divisor, with the dividend's sign, gives
      back the dividend. */
  function Call(op: Operation, a: int, b: int): (r: int)
    requires op.Divide? ==> b != 0
    ensures op.Divide? ==> a == b * r + TruncRem(a, b)
    ensures op.Divide? ==> Abs(a - b * r) < Abs(b) && (a >= 0 ==> a - b * r >= 0) && (a <= 0 ==> a - b * r <= 0)
  {
    match op
    case Plus => a + b
    case Minus => a - b
    case Times => a * b
    case Divide => TruncDivision(a, b); TruncDiv(a, b)
  }

  /** Minus undoes Plus, and Divide undoes Times. */
  lemma Inverses(a: int, b: int)
    ensures Call(Minus, Call(Plus, a, b), b) == a
    ensures b != 0 ==> Call(Divide, Call(Times, a, b), b) == a
  {
    if b != 0 {
      var p := a * b;
      assert Abs(p) == Abs(a) * Abs(b) by {
        MultiplySigns(a, b);
      }
      ModUnique(Abs(p), Abs(b), Abs(a), 0);
      if a > 0 {
        assert (p < 0) == (b < 0);
      } else if a < 0 {
        assert (p < 0) != (b < 0);
      }
    }
  }

  datatype Monkey =
    | Lone(name: String, number: int)
    | Math(name: String, a: String, op: Operation, b: String)

  /** `Monkey::name`: the name a monkey's line starts with. */
  function Name(m: Monkey): (r: String)
    ensures IsName(m.name) ==> ParseId(MonkeyText(m)).Ok? && ParseId(MonkeyText(m)).value.value == r
  {
    var rest := MonkeyText(m)[|m.name|..];
    assert MonkeyText(m) == m.name + rest;
    if IsName(m.name) then IdOfName(m.name, rest); m.name else m.name
  }

  // ---------------------------------------------------------------- parsing

  /** The parts of a nom error: where the failing parser started and its kind. */
  datatype ErrorKind = TakeWhile1 | Char | Digit
  datatype MonkeyError = MonkeyError(input: String, kind: ErrorKind)

  predicate IsName(s: String)
  {
    |s| > 0 && forall i | 0 <= i < |s| :: IsLower(s[i])
  }

  /** The length of the run of 'a' to 'z' at the front of `s`. */
  function LowerRun(s: String): (k: nat)
    ensures k <= |s| && forall i | 0 <= i < k :: IsLower(s[i])
    ensures k < |s| ==> !IsLower(s[k])
  {
    if s == [] || !IsLower(s[0]) then 0 else 1 + LowerRun(s[1..])
  }

  /** `parse_id`: one or more of 'a' to 'z', greedily. */
  function ParseId(s: String): (r: Result<Parsed<String>, MonkeyError>)
    ensures r.Ok? ==> IsName(r.value.value) && r.value.value + r.value.rest == s
    ensures r.Ok? ==> r.value.value == s[..LowerRun(s)]
    ensures r.Ok? ==> r.value.rest == [] || !IsLower(r.value.rest[0])
    ensures r.Err? ==> r.error == MonkeyError(s, TakeWhile1)
  {
    var k := LowerRun(s);
    if k == 0 then Err(MonkeyError(s, TakeWhile1))
    else
      assert s[..k] + s[k..] == s;
      Ok(Parsed(s[..k], s[k..]))
  }

  /** nom's `char(c)`. */
  function Expect(s: String, c: char): (r: Result<String, MonkeyError>)
    ensures r.Ok? <==> |s| > 0 && s[0] == c
    ensures r.Ok? ==> r.value == s[1..]
    ensures r.Err? ==> r.error == MonkeyError(s, Char)
  {
    if |s| > 0 && s[0] == c then Ok(s[1..]) else Err(MonkeyError(s, Char))
  }

  /** The operator characters, tried in the order '+', '-', '*', '/'; when
      none fits, `alt` reports the last one's error. */
  function ParseOperation(s: String): (r: Result<Parsed<Operation>, MonkeyError>)
    ensures r.Ok? <==> |s| > 0 && s[0] in {'+', '-', '*', '/'}
    ensures r.Ok? ==> r.value.rest == s[1..] && OpChar(r.value.value) == s[0]
    ensures r.Err? ==> r.error == MonkeyError(s, Char)
  {
    if |s| > 0 && s[0] == '+' then Ok(Parsed(Plus, s[1..]))
    else if |s| > 0 && s[0] == '-' then Ok(Parsed(Minus, s[1..]))
    else if |s| > 0 && s[0] == '*' then Ok(Parsed(Times, s[1..]))
    else if |s| > 0 && s[0] == '/' then Ok(Parsed(Divide, s[1..]))
    else Err(MonkeyError(s, Char))
  }

  /** nom's `i64`. */
  function ParseNumber(s: String): (r: Result<Parsed<int>, MonkeyError>)
    ensures r.Ok? <==> NomI64(s).Some?
    ensures r.Ok? ==> r.value == NomI64(s).value
    ensures r.Err? ==> r.error == MonkeyError(s, Digit)
  {
    match NomI64(s)
    case None => Err(MonkeyError(s, Digit))
    case Some(p) => Ok(p)
  }

  /** `parse_lone`: a name, ':', ' ' and an `i64`. */
  function ParseLone(s: String): (r: Result<Parsed<Monkey>, MonkeyError>)
    ensures r.Ok? ==> r.value.value.Lone? && IsName(r.value.value.name)
    ensures r.Ok? ==> r.value.value.name == s[..LowerRun(s)]
    ensures r.Ok? ==> I64_MIN <= r.value.value.number <= I64_MAX
  {
    var name :- ParseId(s);
    var s1 :- Expect(name.rest, ':');
    var s2 :- Expect(s1, ' ');
    var number :- ParseNumber(s2);
    Ok(Parsed(Lone(name.value, number.value), number.rest))
  }

  /** `parse_math`: a name, ':', ' ', then the operands. */
  function ParseMath(s: String): (r: Result<Parsed<Monkey>, MonkeyError>)
    ensures r.Ok? ==> r.value.value.Math? && r.value.value.name == s[..LowerRun(s)]
    ensures r.Ok? ==> IsName(r.value.value.name) && IsName(r.value.value.a) && IsName(r.value.value.b)
  {
    var name :- ParseId(s);
    var s1 :- Expect(name.rest, ':');
    var s2 :- Expect(s1, ' ');
    var operands :- ParseOperands(s2);
    var (a, op, b) := operands.value;
    Ok(Parsed(Math(name.value, a, op, b), operands.rest))
  }

  /** The rest of `parse_math`: a name, ' ', an operator, ' ' and a name. */
  function ParseOperands(s: String): (r: Result<Parsed<(String, Operation, String)>, MonkeyError>)
    ensures r.Ok? ==> IsName(r.value.value.0) && IsName(r.value.value.2)
  {
    var a :- ParseId(s);
    var s1 :- Expect(a.rest, ' ');
    var op :- ParseOperation(s1);
    var s2 :- Expect(op.rest, ' ');
    var b :- ParseId(s2);
    Ok(Parsed((a.value, op.value, b.value), b.rest))
  }

  /** `parse_monkey`: a lone monkey is tried first; when it fails, the
      math monkey's result, error included, is the answer. */
  function ParseMonkey(s: String): (r: Result<Parsed<Monkey>, MonkeyError>)
    ensures ParseLone(s).Ok? ==> r == ParseLone(s)
    ensures ParseLone(s).Err? ==> r == ParseMath(s)
  {
    match ParseLone(s)
    case Ok(p) => Ok(p)
    case Err(_) => ParseMath(s)
  }

  /** `Monkey::from_str`: whatever follows the monkey is ignored. */
  function MonkeyFromStr(s: String): (r: Result<Monkey, MonkeyError>)
    ensures r.Ok? ==> IsName(r.value.name) && Name(r.value) == s[..LowerRun(s)]
    ensures r.Ok? && r.value.Math? ==> IsName(r.value.a) && IsName(r.value.b)
    ensures r.Err? <==> ParseLone(s).Err? && ParseMath(s).Err?
  {
    var p :- ParseMonkey(s);
    Ok(p.value)
  }

  // ---------------------------------------------------------------- writing

  function OpChar(op: Operation): char
  {
    match op
    case Plus => '+'
    case Minus => '-'
    case Times => '*'
    case Divide => '/'
  }

  /** How the puzzle input writes a monkey. */
  function MonkeyText(m: Monkey): String
  {
    match m
    case Lone(name, number) => name + (": " + IntToDec(number))
    case Math(name, a, op, b) => name + (": " + (a + (" " + ([OpChar(op)] + (" " + b)))))
  }

  /** A monkey whose names are letters and whose number fits in an `i64`. */
  predicate Writable(m: Monkey)
  {
    IsName(m.name) && match m
      case Lone(_, number) => I64_MIN <= number <= I64_MAX
      case Math(_, a, _, b) => IsName(a) && IsName(b)
  }

  /** A name followed by a non-letter is read back whole. */
  lemma IdOfName(name: String, rest: String)
    requires IsName(name) && (rest == [] || !IsLower(rest[0]))
    ensures ParseId(name + rest) == Ok(Parsed(name, rest))
    decreases |name|
  {
    var s := name + rest;
    if |name| > 1 {
      assert s[1..] == name[1..] + rest;
      IdOfName(name[1..], rest);
    } else {
      assert s[1..] == rest;
    }
    assert LowerRun(s) == |name|;
    assert s[..|name|] == name && s[|name|..] == rest;
  }

  /** A lone monkey written out is read back as itself. */
  lemma LoneOfText(name: String, number: int)
    requires Writable(Lone(name, number))
    ensures MonkeyFromStr(MonkeyText(Lone(name, number))) == Ok(Lone(name, number))
  {
    var digits := IntToDec(number);
    IdOfName(name, ": " + digits);
    assert (": " + digits)[1..] == " " + digits;
    assert (" " + digits)[1..] == digits;
    NomSignedOfNumeral(number, I64_MIN, I64_MAX, []);
    assert digits + [] == digits;
  }

  /** The lone parser fails on a line whose value starts with a letter. */
  lemma LoneRejectsName(name: String, rest: String)
    requires IsName(name) && |rest| > 0 && IsLower(rest[0])
    ensures ParseLone(name + (": " + rest)).Err?
  {
    var t1 := ": " + rest;
    IdOfName(name, t1);
    assert t1[1..] == " " + rest && (" " + rest)[1..] == rest;
    assert NomI64(rest).None?;
  }

  /** The operands of a math monkey's line are read back. */
  lemma OperandsOfText(a: String, op: Operation, b: String)
    requires IsName(a) && IsName(b)
    ensures ParseOperands(a + (" " + ([OpChar(op)] + (" " + b)))) == Ok(Parsed((a, op, b), []))
  {
    var t2 := " " + b;
    var t1 := " " + ([OpChar(op)] + t2);
    IdOfName(a, t1);
    assert t1[1..] == [OpChar(op)] + t2;
    assert ([OpChar(op)] + t2)[1..] == t2;
    assert ParseOperation([OpChar(op)] + t2) == Ok(Parsed(op, t2));
    assert t2[1..] == b;
    IdOfName(b, []);
    assert b + [] == b;
  }

  /** The math parser reads a math monkey's line. */
  lemma MathParsesText(name: String, a: String, op: Operation, b: String)
    requires Writable(Math(name, a, op, b))
    ensures ParseMath(MonkeyText(Math(name, a, op, b))) == Ok(Parsed(Math(name, a, op, b), []))
  {
    var t2 := a + (" " + ([OpChar(op)] + (" " + b)));
    var t1 := ": " + t2;
    assert MonkeyText(Math(name, a, op, b)) == name + t1;
    IdOfName(name, t1);
    assert t1[1..] == " " + t2 && (" " + t2)[1..] == t2;
    assert Expect(t1, ':') == Ok(" " + t2);
    assert Expect(" " + t2, ' ') == Ok(t2);
    OperandsOfText(a, op, b);
  }

  /** A math monkey written out is read back as itself: the lone parser
      fails on the first operand's letter, and the math parser takes the
      line. */
  lemma MathOfText(name: String, a: String, op: Operation, b: String)
    requires Writable(Math(name, a, op, b))
    ensures MonkeyFromStr(MonkeyText(Math(name, a, op, b))) == Ok(Math(name, a, op, b))
  {
    LoneRejectsName(name, a + (" " + ([OpChar(op)] + (" " + b))));
    MathParsesText(name, a, op, b);
  }

  /** Every monkey written out is read back as itself. */
  lemma MonkeyOfText(m: Monkey)
    requires Writable(m)
    ensures MonkeyFromStr(MonkeyText(m)) == Ok(m)
  {
    match m
    case Lone(name, number) => LoneOfText(name, number);
    case Math(name, a, op, b) => MathOfText(name, a, op, b);
  }

  /** `lone_from_str`. */
  lemma LoneFromStrExample(s: String)
    requires s == "abcd: 42"
    ensures MonkeyFromStr(s) == Ok(Lone("abcd", 42))
  {
    assert NatToDec(4) == "4" && NatToDec(2) == "2";
    assert IntToDec(42) == NatToDec(4) + "2";
    assert s == MonkeyText(Lone("abcd", 42));
    LoneOfText("abcd", 42);
  }

  /** `math_from_str`. */
  lemma MathFromStrExample(s: String)
    requires s == "abcd: efgh + ijkl"
    ensures MonkeyFromStr(s) == Ok(Math("abcd", "efgh", Plus, "ijkl"))
  {
    assert s == MonkeyText(Math("abcd", "efgh", Plus, "ijkl"));
    MathOfText("abcd", "efgh", Plus, "ijkl");
  }

  /** A name with a capital letter is rejected by both parsers, and the
      error is the math parser's, at the start of the line. */
  lemma CapitalNameRejected(s: String)
    requires s == "Abcd: 42"
    ensures MonkeyFromStr(s) == Err(MonkeyError(s, TakeWhile1))
  {
    assert LowerRun(s) == 0;
  }
}
