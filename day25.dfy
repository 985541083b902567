/** Day 25: SNAFU numbers, balanced base five with the digits '=' (−2),
    '-' (−1), '0', '1' and '2', written most significant digit first. */
module Day25 {
  import opened Wrappers
  import opened Text

  /** One SNAFU digit (an `i8` in the source that only ever holds −2..2). */
  type Digit = d: int | -2 <= d <= 2

  /** A SNAFU number: its digits, least significant first. */
  datatype Snafu = Snafu(digits: seq<Digit>)

  /** The parse error: a character that is not a SNAFU digit. */
  datatype SnafuError = UnknownDigit(c: char)

  /** The digit a character stands for. */
  function DigitOf(c: char): (r: Option<Digit>)
    ensures r.Some? <==> c in "=-012"
  {
    match c
    case '0' => Some(0)
    case '1' => Some(1)
    case '2' => Some(2)
    case '-' => Some(-1)
    case '=' => Some(-2)
    case _ => None
  }

  /** The character `Display` writes for a digit. */
  function CharOf(d: Digit): (c: char)
    ensures DigitOf(c) == Some(d)
  {
    match d
    case -1 => '-'
    case -2 => '='
    case 0 => '0'
    case 1 => '1'
    case 2 => '2'
  }

  /** Reading back the character of a digit character gives that character. */
  lemma CharOfDigitOf(c: char)
    requires DigitOf(c).Some?
    ensures CharOf(DigitOf(c).value) == c
  {
  }

  // ---------------------------------------------------------------------------
  // FromStr: the characters in reverse order, each mapped to its digit; the
  // collect stops at the first error in that order, i.e. the last bad
  // character of the text.
  // ---------------------------------------------------------------------------

  function FromStr(s: String): (r: Result<Snafu, SnafuError>)
    ensures r.Ok? <==> forall i | 0 <= i < |s| :: DigitOf(s[i]).Some?
    ensures r.Ok? ==> |r.value.digits| == |s|
    ensures r.Err? ==> exists i | 0 <= i < |s| ::
      s[i] == r.error.c && DigitOf(s[i]).None? && forall j | i < j < |s| :: DigitOf(s[j]).Some?
  {
    if s == [] then Ok(Snafu([]))
    else
      var last := s[|s| - 1];
      match DigitOf(last)
      case None => Err(UnknownDigit(last))
      case Some(d) =>
        var front := FromStr(s[..|s| - 1]);
        if front.Err? then
          ghost var i :| 0 <= i < |s| - 1 && s[..|s| - 1][i] == front.error.c && DigitOf(s[i]).None?
            && forall j | i < j < |s| - 1 :: DigitOf(s[j]).Some?;
          assert s[i] == front.error.c;
          Err(front.error)
        else
          Ok(Snafu([d] + front.value.digits))
  }

  // ---------------------------------------------------------------------------
  // Display: the digits most significant first, as characters.
  // ---------------------------------------------------------------------------

  function Show(n: Snafu): (r: String)
    ensures |r| == |n.digits|
    ensures forall i | 0 <= i < |r| :: r[i] == CharOf(n.digits[|r| - 1 - i])
    decreases |n.digits|
  {
    if n.digits == [] then ""
    else Show(Snafu(n.digits[1..])) + [CharOf(n.digits[0])]
  }

  /** Parsing what `Display` writes gives the number back. */
  lemma {:induction false} ParseShow(n: Snafu)
    ensures FromStr(Show(n)) == Ok(n)
    decreases |n.digits|
  {
    if n.digits != [] {
      var tail := Snafu(n.digits[1..]);
      ParseShow(tail);
      var s := Show(n);
      assert s[..|s| - 1] == Show(tail);
      assert [n.digits[0]] + tail.digits == n.digits;
    }
  }

  /** `Display` writes back the text a number was parsed from. */
  lemma {:induction false} ShowParse(s: String)
    requires FromStr(s).Ok?
    ensures Show(FromStr(s).value) == s
    decreases |s|
  {
    if s != [] {
      var front := s[..|s| - 1];
      ShowParse(front);
      ShowParseStep(s, front, FromStr(s).value, FromStr(front).value);
    }
  }

  /** A parsed text's last character is its least significant digit. */
  lemma FromStrLast(s: String, front: String, n: Snafu, m: Snafu)
    requires s != [] && front == s[..|s| - 1]
    requires FromStr(s) == Ok(n) && FromStr(front) == Ok(m)
    ensures DigitOf(s[|s| - 1]).Some? && n.digits == [DigitOf(s[|s| - 1]).value] + m.digits
  {
  }

  /** One more character at the end: the least significant digit. */
  lemma ShowParseStep(s: String, front: String, n: Snafu, m: Snafu)
    requires s != [] && front == s[..|s| - 1]
    requires FromStr(s) == Ok(n) && FromStr(front) == Ok(m) && Show(m) == front
    ensures Show(n) == s
  {
    var c := s[|s| - 1];
    var d := DigitOf(c).value;
    FromStrLast(s, front, n, m);
    assert Snafu(n.digits[1..]) == m;
    assert Show(n) == front + [CharOf(d)];
    CharOfDigitOf(c);
    assert s == front + [c];
  }

  // ---------------------------------------------------------------------------
  // The value of a digit sequence.
  // ---------------------------------------------------------------------------

  function Pow5(i: nat): (p: nat)
    ensures 1 <= p
  {
    if i == 0 then 1 else 5 * Pow5(i - 1)
  }

  /** The reference value, Horner's rule: digit 0 plus five times the value
      of the digits above it. */
  function Value(ds: seq<int>): int
  {
    if ds == [] then 0 else ds[0] + 5 * Value(ds[1..])
  }

  /** `From<Snafu> for i64` as written: a fold over the enumerated digits,
      adding each digit times five to the power of its position. The fold
      from position `i` adds the value of the digits from `i` on, scaled to
      their position. */
  function SumFrom(ds: seq<int>, i: nat, acc: int): (r: int)
    requires i <= |ds|
    ensures r == acc + Pow5(i) * Value(ds[i..])
    decreases |ds| - i
  {
    if i == |ds| then acc
    else
      var r := SumFrom(ds, i + 1, acc + ds[i] * Pow5(i));
      assert ds[i..][1..] == ds[i + 1..];
      calc {
        r;
        acc + ds[i] * Pow5(i) + Pow5(i + 1) * Value(ds[i + 1..]);
        acc + ds[i] * Pow5(i) + Pow5(i) * (5 * Value(ds[i + 1..]));
        { Distribute(Pow5(i), ds[i], 5 * Value(ds[i + 1..])); }
        acc + Pow5(i) * (ds[i] + 5 * Value(ds[i + 1..]));
        acc + Pow5(i) * Value(ds[i..]);
      }
      r
  }

  function ToI64(n: Snafu): (v: int)
    ensures v == Value(n.digits)
  {
    assert n.digits[0..] == n.digits;
    SumFrom(n.digits, 0, 0)
  }

  lemma Distribute(p: int, a: int, b: int)
    ensures a * p + p * b == p * (a + b)
  {
  }

  /** The value of a concatenation: the upper part counts from the length of
      the lower part on. */
  lemma {:induction false} ValueAppend(a: seq<int>, b: seq<int>)
    ensures Value(a + b) == Value(a) + Pow5(|a|) * Value(b)
    decreases |a|
  {
    if a == [] {
      assert a + b == b;
    } else {
      assert (a + b)[1..] == a[1..] + b;
      ValueAppend(a[1..], b);
      calc {
        Value(a + b);
        a[0] + 5 * (Value(a[1..]) + Pow5(|a| - 1) * Value(b));
        { Distribute(5, Value(a[1..]), Pow5(|a| - 1) * Value(b)); }
        a[0] + 5 * Value(a[1..]) + 5 * (Pow5(|a| - 1) * Value(b));
        Value(a) + Pow5(|a|) * Value(b);
      }
    }
  }

  /** Replacing the digit at `k` changes the value by the difference times
      five to the power `k`. */
  lemma {:induction false} ValueUpdate(ds: seq<int>, k: nat, v: int)
    requires k < |ds|
    ensures Value(ds[k := v]) == Value(ds) + (v - ds[k]) * Pow5(k)
    decreases k
  {
    if k > 0 {
      assert ds[k := v][1..] == ds[1..][k - 1 := v];
      ValueUpdate(ds[1..], k - 1, v);
      Distribute(5, Value(ds[1..]), (v - ds[k]) * Pow5(k - 1));
    }
  }

  /** Splitting off the low base-five digit of `rest` at scale `p`. */
  lemma DivStep(rest: int, p: int)
    ensures rest * p == (rest % 5) * p + (rest / 5) * (5 * p)
  {
    var q, m := rest / 5, rest % 5;
    assert rest == 5 * q + m;
    assert rest * p == (5 * q + m) * p;
    Distribute(p, m, 5 * q);
  }

  lemma ValueOfZero(ds: seq<int>)
    ensures Value(ds + [0]) == Value(ds)
  {
    ValueAppend(ds, [0]);
  }

  // ---------------------------------------------------------------------------
  // Canonical digit sequences and the balanced base-five expansion.
  // ---------------------------------------------------------------------------

  /** No most significant zero digit. */
  predicate Canonical(ds: seq<int>)
  {
    ds == [] || ds[|ds| - 1] != 0
  }

  predicate AreDigits(ds: seq<int>)
  {
    forall i | 0 <= i < |ds| :: -2 <= ds[i] <= 2
  }

  /** The balanced base-five expansion of a non-negative number, least
      significant digit first, with no most significant zero. */
  function Balanced(x: nat): (r: seq<Digit>)
    ensures Value(r) == x && Canonical(r)
  {
    if x == 0 then [] else [Low(x)] + Balanced(High(x))
  }

  /** The lowest balanced digit of `x`: the one congruent to `x` modulo 5. */
  function Low(x: int): (d: Digit)
    ensures (x - d) % 5 == 0
  {
    (x + 2) % 5 - 2
  }

  /** What is left of `x` above its lowest balanced digit. */
  function High(x: nat): (h: nat)
    ensures x == Low(x) + 5 * h
    ensures 0 < x ==> h < x
  {
    (x - Low(x)) / 5
  }

  /** A canonical non-empty digit sequence has a non-zero value: its top
      digit outweighs everything below it. */
  lemma {:induction false} CanonicalNonzero(ds: seq<int>)
    requires AreDigits(ds) && Canonical(ds) && ds != []
    ensures Value(ds) != 0
    decreases |ds|
  {
    if |ds| > 1 {
      CanonicalNonzero(ds[1..]);
    }
  }

  /** A canonical digit sequence is determined by its value. */
  lemma {:induction false} CanonicalUnique(a: seq<int>, b: seq<int>)
    requires AreDigits(a) && Canonical(a) && AreDigits(b) && Canonical(b)
    requires Value(a) == Value(b)
    ensures a == b
    decreases |a| + |b|
  {
    if a == [] && b != [] {
      CanonicalNonzero(b);
    } else if a != [] && b == [] {
      CanonicalNonzero(a);
    } else if a != [] {
      assert a[0] == b[0] by {
        assert (a[0] - b[0]) == 5 * (Value(b[1..]) - Value(a[1..]));
      }
      if a[1..] == [] || b[1..] == [] {
        if a[1..] != [] { CanonicalNonzero(a[1..]); }
        if b[1..] != [] { CanonicalNonzero(b[1..]); }
      }
      CanonicalUnique(a[1..], b[1..]);
      assert a == [a[0]] + a[1..];
      assert b == [b[0]] + b[1..];
    }
  }

  /** The expansion is the only canonical digit sequence with its value, so
      encoding what a canonical number decodes to gives that number. */
  lemma BalancedOfValue(ds: seq<Digit>)
    requires Canonical(ds) && Value(ds) >= 0
    ensures Balanced(Value(ds)) == ds
  {
    CanonicalUnique(Balanced(Value(ds)), ds);
  }

  /** The source's final `rev().skip_while(zero).rev()`: the digits without
      their most significant zeros. */
  function TrimHigh(ds: seq<int>): (r: seq<int>)
    ensures |r| <= |ds| && r == ds[..|r|] && Canonical(r)
    ensures forall i | |r| <= i < |ds| :: ds[i] == 0
    ensures Value(r) == Value(ds)
  {
    if ds == [] || ds[|ds| - 1] != 0 then ds
    else
      var r := TrimHigh(ds[..|ds| - 1]);
      assert ds == ds[..|ds| - 1] + [0];
      ValueOfZero(ds[..|ds| - 1]);
      r
  }

  /** The body of the carry loop: add `digit` to the pending carry at `n`,
      bringing the sum back into −2..2 by carrying one into `n + 1`. */
  method PlaceDigit(digits: seq<int>, n: nat, digit: int) returns (next: seq<int>)
    requires n + 1 < |digits| && AreDigits(digits)
    requires 0 <= digits[n] <= 1 && digits[n + 1] == 0 && 0 <= digit < 5
    ensures |next| == |digits| && AreDigits(next) && 0 <= next[n + 1] <= 1
    ensures Value(next) == Value(digits) + digit * Pow5(n)
  {
    if digit <= 2 {
      ValueAdd(digits, n, digit);
      next := digits[n := digits[n] + digit];
      if next[n] > 2 {
        Carry(next, n, 0);
        next := next[n := next[n] - 5][n + 1 := next[n + 1] + 1];
      }
    } else {
      Carry(digits, n, digit);
      next := digits[n := digits[n] + (digit - 5)];
      next := next[n + 1 := next[n + 1] + 1];
    }
  }

  /** Adding `d - 5` at `n` and carrying one into `n + 1` adds `d` times
      the weight of `n`. */
  lemma Carry(ds: seq<int>, n: nat, d: int)
    requires n + 1 < |ds|
    ensures Value(ds[n := ds[n] + (d - 5)][n + 1 := ds[n + 1] + 1]) == Value(ds) + d * Pow5(n)
  {
    var p := Pow5(n);
    assert Pow5(n + 1) == 5 * p;
    var lowered := ds[n := ds[n] + (d - 5)];
    ValueAdd(ds, n, d - 5);
    ValueAdd(lowered, n + 1, 1);
    assert lowered[n + 1] == ds[n + 1];
    Distribute(p, d, -5);
  }

  /** Adding `delta` to the digit at `k` adds `delta` times its weight. */
  lemma ValueAdd(ds: seq<int>, k: nat, delta: int)
    requires k < |ds|
    ensures Value(ds[k := ds[k] + delta]) == Value(ds) + delta * Pow5(k)
  {
    ValueUpdate(ds, k, ds[k] + delta);
  }

  /** `From<i64> for Snafu`: the carry loop over a digit vector that always
      holds a pending carry above the current position, then the trimming of
      most significant zeros. The loop never ends for a negative input, so
      the model requires `x >= 0`. */
  method FromI64(x: int) returns (r: Snafu)
    requires 0 <= x
    ensures Value(r.digits) == x && Canonical(r.digits)
    ensures r.digits == Balanced(x) == Encode(x)
  {
    var rest := x;
    var digits: seq<int> := [];
    var n := 0;
    while true
      invariant 0 <= rest
      invariant |digits| == if n == 0 then 0 else n + 1
      invariant AreDigits(digits)
      invariant n > 0 ==> 0 <= digits[n] <= 1
      invariant Value(digits) + rest * Pow5(n) == x
      decreases rest
    {
      if |digits| <= n {
        ValueOfZero(digits);
        digits := digits + [0];
      }
      if |digits| <= n + 1 {
        ValueOfZero(digits);
        digits := digits + [0];
      }
      assert digits[n + 1] == 0;

      var digit := rest % 5;
      digits := PlaceDigit(digits, n, digit);

      DivStep(rest, Pow5(n));
      rest := rest / 5;
      n := n + 1;
      if rest == 0 {
        break;
      }
    }
    var trimmed := TrimHigh(digits);
    r := Snafu(trimmed);
    CanonicalUnique(Balanced(x), r.digits);
  }

  // ---------------------------------------------------------------------------
  // Negative numbers. The loop of `From<i64>` ends only once `x` reaches 0,
  // which a negative `x` never does; a negative number has a balanced
  // expansion all the same: the digits of its magnitude, negated.
  // ---------------------------------------------------------------------------

  /** `x` after `k` rounds of the loop: `x.div_euclid(5)` each round, which
      is Dafny's `/` for a positive divisor. */
  function Rounds(x: int, k: nat): int
  {
    if k == 0 then x else Rounds(x, k - 1) / 5
  }

  /** From a negative start `x` stays negative in every round (-1 is a fixed
      point of `div_euclid(5)`), so the `x == 0` exit is never taken and the
      loop of `From<i64>` does not terminate. */
  lemma {:induction false} NegativeNeverReachesZero(x: int, k: nat)
    requires x < 0
    ensures Rounds(x, k) < 0
  {
    if k > 0 {
      NegativeNeverReachesZero(x, k - 1);
    }
  }

  /** Every digit negated. */
  function Negated(ds: seq<Digit>): (r: seq<Digit>)
    ensures |r| == |ds| && forall i | 0 <= i < |ds| :: r[i] == -ds[i]
  {
    if ds == [] then [] else [-ds[0]] + Negated(ds[1..])
  }

  lemma {:induction false} NegatedValue(ds: seq<Digit>)
    ensures Value(Negated(ds)) == -Value(ds)
  {
    if ds != [] {
      assert Negated(ds)[1..] == Negated(ds[1..]);
      NegatedValue(ds[1..]);
    }
  }

  /** The balanced base-five expansion of any integer, without most
      significant zeros: what `From<i64>` evidently intends for every `i64`. */
  function Encode(x: int): (r: seq<Digit>)
    ensures Value(r) == x && Canonical(r)
    ensures 0 <= x ==> r == Balanced(x)
  {
    if 0 <= x then Balanced(x)
    else
      NegatedValue(Balanced(-x));
      Negated(Balanced(-x))
  }

  /** Encoding is the inverse of decoding on canonical digits, negative
      values included. */
  lemma EncodeOfValue(ds: seq<Digit>)
    requires Canonical(ds)
    ensures Encode(Value(ds)) == ds
  {
    CanonicalUnique(Encode(Value(ds)), ds);
  }

  // ---------------------------------------------------------------------------
  // The listed decimal / SNAFU pairs: the text parses, decodes to the decimal
  // and is what the decimal encodes to.
  // ---------------------------------------------------------------------------

  predicate Converts(decimal: nat, text: String)
  {
    && FromStr(text).Ok?
    && ToI64(FromStr(text).value) == decimal
    && Balanced(decimal) == FromStr(text).value.digits
  }

  /** A text of digits with no leading zero that decodes to `decimal` converts
      both ways. */
  lemma ConvertsOfValue(decimal: nat, text: String)
    requires FromStr(text).Ok? && (text == [] || text[0] != '0')
    requires Value(FromStr(text).value.digits) == decimal
    ensures Converts(decimal, text)
  {
    var ds := FromStr(text).value.digits;
    ShowParse(text);
    if ds != [] {
      assert text[0] == CharOf(ds[|ds| - 1]);
    }
    BalancedOfValue(ds);
  }

  /** `text` parses to digits worth `v`. */
  predicate Reads(text: String, v: int)
  {
    FromStr(text).Ok? && Value(FromStr(text).value.digits) == v
  }

  /** One character more: the value of a text is its last digit plus five
      times the value of the text before it. */
  lemma ReadsStep(front: String, v: int, c: char, d: Digit, text: String)
    requires Reads(front, v) && DigitOf(c) == Some(d) && text == front + [c]
    ensures Reads(text, d + 5 * v)
  {
    assert text[..|text| - 1] == front;
  }

  lemma ReadsEmpty()
    ensures Reads("", 0)
  {
  }

  lemma Converts1()
    ensures Converts(1, "1")
  {
    assert Reads("1", 1) by {
      ReadsEmpty();
      ReadsStep("", 0, '1', 1, "1");
    }
    ConvertsOfValue(1, "1");
  }

  lemma Converts2()
    ensures Converts(2, "2")
  {
    assert Reads("2", 2) by {
      ReadsEmpty();
      ReadsStep("", 0, '2', 2, "2");
    }
    ConvertsOfValue(2, "2");
  }

  lemma Converts3()
    ensures Converts(3, "1=")
  {
    assert Reads("1=", 3) by {
      ReadsEmpty();
      ReadsStep("", 0, '1', 1, "1");
      ReadsStep("1", 1, '=', -2, "1=");
    }
    ConvertsOfValue(3, "1=");
  }

  lemma Converts4()
    ensures Converts(4, "1-")
  {
    assert Reads("1-", 4) by {
      ReadsEmpty();
      ReadsStep("", 0, '1', 1, "1");
      ReadsStep("1", 1, '-', -1, "1-");
    }
    ConvertsOfValue(4, "1-");
  }

  lemma Converts5()
    ensures Converts(5, "10")
  {
    assert Reads("10", 5) by {
      ReadsEmpty();
      ReadsStep("", 0, '1', 1, "1");
      ReadsStep("1", 1, '0', 0, "10");
    }
    ConvertsOfValue(5, "10");
  }

  lemma Converts6()
    ensures Converts(6, "11")
  {
    assert Reads("11", 6) by {
      ReadsEmpty();
      ReadsStep("", 0, '1', 1, "1");
      ReadsStep("1", 1, '1', 1, "11");
    }
    ConvertsOfValue(6, "11");
  }

  lemma Converts7()
    ensures Converts(7, "12")
  {
    assert Reads("12", 7) by {
      ReadsEmpty();
      ReadsStep("", 0, '1', 1, "1");
      ReadsStep("1", 1, '2', 2, "12");
    }
    ConvertsOfValue(7, "12");
  }

  lemma Converts8()
    ensures Converts(8, "2=")
  {
    assert Reads("2=", 8) by {
      ReadsEmpty();
      ReadsStep("", 0, '2', 2, "2");
      ReadsStep("2", 2, '=', -2, "2=");
    }
    ConvertsOfValue(8, "2=");
  }

  lemma Converts9()
    ensures Converts(9, "2-")
  {
    assert Reads("2-", 9) by {
      ReadsEmpty();
      ReadsStep("", 0, '2', 2, "2");
      ReadsStep("2", 2, '-', -1, "2-");
    }
    ConvertsOfValue(9, "2-");
  }

  lemma Converts10()
    ensures Converts(10, "20")
  {
    assert Reads("20", 10) by {
      ReadsEmpty();
      ReadsStep("", 0, '2', 2, "2");
      ReadsStep("2", 2, '0', 0, "20");
    }
    ConvertsOfValue(10, "20");
  }

  lemma Converts15()
    ensures Converts(15, "1=0")
  {
    assert Reads("1=0", 15) by {
      ReadsEmpty();
      ReadsStep("", 0, '1', 1, "1");
      ReadsStep("1", 1, '=', -2, "1=");
      ReadsStep("1=", 3, '0', 0, "1=0");
    }
    ConvertsOfValue(15, "1=0");
  }

  lemma Converts20()
    ensures Converts(20, "1-0")
  {
    assert Reads("1-0", 20) by {
      ReadsEmpty();
      ReadsStep("", 0, '1', 1, "1");
      ReadsStep("1", 1, '-', -1, "1-");
      ReadsStep("1-", 4, '0', 0, "1-0");
    }
    ConvertsOfValue(20, "1-0");
  }

  lemma Converts2022()
    ensures Converts(2022, "1=11-2")
  {
    assert Reads("1=11-2", 2022) by {
      ReadsEmpty();
      ReadsStep("", 0, '1', 1, "1");
      ReadsStep("1", 1, '=', -2, "1=");
      ReadsStep("1=", 3, '1', 1, "1=1");
      ReadsStep("1=1", 16, '1', 1, "1=11");
      ReadsStep("1=11", 81, '-', -1, "1=11-");
      ReadsStep("1=11-", 404, '2', 2, "1=11-2");
    }
    ConvertsOfValue(2022, "1=11-2");
  }

  lemma Converts12345()
    ensures Converts(12345, "1-0---0")
  {
    assert Reads("1-0---0", 12345) by {
      ReadsEmpty();
      ReadsStep("", 0, '1', 1, "1");
      ReadsStep("1", 1, '-', -1, "1-");
      ReadsStep("1-", 4, '0', 0, "1-0");
      ReadsStep("1-0", 20, '-', -1, "1-0-");
      ReadsStep("1-0-", 99, '-', -1, "1-0--");
      ReadsStep("1-0--", 494, '-', -1, "1-0---");
      ReadsStep("1-0---", 2469, '0', 0, "1-0---0");
    }
    ConvertsOfValue(12345, "1-0---0");
  }

  /** One character more of a fixed text. */
  lemma ReadsNext(t: String, k: nat, v: int, d: Digit)
    requires k < |t| && Reads(t[..k], v) && DigitOf(t[k]) == Some(d)
    ensures Reads(t[..k + 1], d + 5 * v)
  {
    assert t[..k + 1] == t[..k] + [t[k]];
    ReadsStep(t[..k], v, t[k], d, t[..k + 1]);
  }

  lemma ReadsTopOf314159265(t: String)
    requires t == "1121-1110-1=0"
    ensures Reads(t[..7], 20106)
  {
    ReadsEmpty();
    assert t[..0] == "";
    ReadsNext(t, 0, 0, 1);
    ReadsNext(t, 1, 1, 1);
    ReadsNext(t, 2, 6, 2);
    ReadsNext(t, 3, 32, 1);
    ReadsNext(t, 4, 161, -1);
    ReadsNext(t, 5, 804, 1);
    ReadsNext(t, 6, 4021, 1);
  }

  lemma ReadsMidOf314159265(t: String)
    requires t == "1121-1110-1=0"
    ensures Reads(t[..10], 2513274)
  {
    ReadsTopOf314159265(t);
    ReadsNext(t, 7, 20106, 1);
    ReadsNext(t, 8, 100531, 0);
    ReadsNext(t, 9, 502655, -1);
  }

  lemma ReadsOf314159265(t: String)
    requires t == "1121-1110-1=0"
    ensures Reads(t, 314159265)
  {
    ReadsMidOf314159265(t);
    ReadsNext(t, 10, 2513274, 1);
    ReadsNext(t, 11, 12566371, -2);
    ReadsNext(t, 12, 62831853, 0);
    assert t[..13] == t;
  }

  lemma Converts314159265()
    ensures Converts(314159265, "1121-1110-1=0")
  {
    assert Reads("1121-1110-1=0", 314159265) by {
      ReadsOf314159265("1121-1110-1=0");
    }
    ConvertsOfValue(314159265, "1121-1110-1=0");
  }

  lemma Converts1747()
    ensures Converts(1747, "1=-0-2")
  {
    assert Reads("1=-0-2", 1747) by {
      ReadsEmpty();
      ReadsStep("", 0, '1', 1, "1");
      ReadsStep("1", 1, '=', -2, "1=");
      ReadsStep("1=", 3, '-', -1, "1=-");
      ReadsStep("1=-", 14, '0', 0, "1=-0");
      ReadsStep("1=-0", 70, '-', -1, "1=-0-");
      ReadsStep("1=-0-", 349, '2', 2, "1=-0-2");
    }
    ConvertsOfValue(1747, "1=-0-2");
  }

  lemma Converts906()
    ensures Converts(906, "12111")
  {
    assert Reads("12111", 906) by {
      ReadsEmpty();
      ReadsStep("", 0, '1', 1, "1");
      ReadsStep("1", 1, '2', 2, "12");
      ReadsStep("12", 7, '1', 1, "121");
      ReadsStep("121", 36, '1', 1, "1211");
      ReadsStep("1211", 181, '1', 1, "12111");
    }
    ConvertsOfValue(906, "12111");
  }

  lemma Converts198()
    ensures Converts(198, "2=0=")
  {
    assert Reads("2=0=", 198) by {
      ReadsEmpty();
      ReadsStep("", 0, '2', 2, "2");
      ReadsStep("2", 2, '=', -2, "2=");
      ReadsStep("2=", 8, '0', 0, "2=0");
      ReadsStep("2=0", 40, '=', -2, "2=0=");
    }
    ConvertsOfValue(198, "2=0=");
  }

  lemma Converts11()
    ensures Converts(11, "21")
  {
    assert Reads("21", 11) by {
      ReadsEmpty();
      ReadsStep("", 0, '2', 2, "2");
      ReadsStep("2", 2, '1', 1, "21");
    }
    ConvertsOfValue(11, "21");
  }

  lemma Converts201()
    ensures Converts(201, "2=01")
  {
    assert Reads("2=01", 201) by {
      ReadsEmpty();
      ReadsStep("", 0, '2', 2, "2");
      ReadsStep("2", 2, '=', -2, "2=");
      ReadsStep("2=", 8, '0', 0, "2=0");
      ReadsStep("2=0", 40, '1', 1, "2=01");
    }
    ConvertsOfValue(201, "2=01");
  }

  lemma Converts31()
    ensures Converts(31, "111")
  {
    assert Reads("111", 31) by {
      ReadsEmpty();
      ReadsStep("", 0, '1', 1, "1");
      ReadsStep("1", 1, '1', 1, "11");
      ReadsStep("11", 6, '1', 1, "111");
    }
    ConvertsOfValue(31, "111");
  }

  lemma Converts1257()
    ensures Converts(1257, "20012")
  {
    assert Reads("20012", 1257) by {
      ReadsEmpty();
      ReadsStep("", 0, '2', 2, "2");
      ReadsStep("2", 2, '0', 0, "20");
      ReadsStep("20", 10, '0', 0, "200");
      ReadsStep("200", 50, '1', 1, "2001");
      ReadsStep("2001", 251, '2', 2, "20012");
    }
    ConvertsOfValue(1257, "20012");
  }

  lemma Converts32()
    ensures Converts(32, "112")
  {
    assert Reads("112", 32) by {
      ReadsEmpty();
      ReadsStep("", 0, '1', 1, "1");
      ReadsStep("1", 1, '1', 1, "11");
      ReadsStep("11", 6, '2', 2, "112");
    }
    ConvertsOfValue(32, "112");
  }

  lemma Converts353()
    ensures Converts(353, "1=-1=")
  {
    assert Reads("1=-1=", 353) by {
      ReadsEmpty();
      ReadsStep("", 0, '1', 1, "1");
      ReadsStep("1", 1, '=', -2, "1=");
      ReadsStep("1=", 3, '-', -1, "1=-");
      ReadsStep("1=-", 14, '1', 1, "1=-1");
      ReadsStep("1=-1", 71, '=', -2, "1=-1=");
    }
    ConvertsOfValue(353, "1=-1=");
  }

  lemma Converts107()
    ensures Converts(107, "1-12")
  {
    assert Reads("1-12", 107) by {
      ReadsEmpty();
      ReadsStep("", 0, '1', 1, "1");
      ReadsStep("1", 1, '-', -1, "1-");
      ReadsStep("1-", 4, '1', 1, "1-1");
      ReadsStep("1-1", 21, '2', 2, "1-12");
    }
    ConvertsOfValue(107, "1-12");
  }

  lemma Converts37()
    ensures Converts(37, "122")
  {
    assert Reads("122", 37) by {
      ReadsEmpty();
      ReadsStep("", 0, '1', 1, "1");
      ReadsStep("1", 1, '2', 2, "12");
      ReadsStep("12", 7, '2', 2, "122");
    }
    ConvertsOfValue(37, "122");
  }
}
