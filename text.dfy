/** Text helpers shared by the puzzle parsers: Rust's `str` splitting
    (`split`, `split_once`, `lines`, `split_whitespace`, `trim`), decimal
    numerals as printed by `Display`, nom's `u32`/`i32`/`i64` digit parsers
    and `str::parse` for the integer types. Integer widths are explicit bounds. */
module Text {
  import opened Wrappers

  type String = seq<char>

  const U8_MAX: nat := 0xFF
  const U32_MAX: nat := 0xFFFF_FFFF
  const USIZE_MAX: nat := 0xFFFF_FFFF_FFFF_FFFF
  const I8_MIN: int := -0x80
  const I8_MAX: int := 0x7F
  const I32_MIN: int := -0x8000_0000
  const I32_MAX: int := 0x7FFF_FFFF
  const I64_MIN: int := -0x8000_0000_0000_0000
  const I64_MAX: int := 0x7FFF_FFFF_FFFF_FFFF

  /** What a nom parser returns on success: the value and the unconsumed input. */
  datatype Parsed<+T> = Parsed(value: T, rest: String)

  // ---------------------------------------------------------------- digits

  predicate IsDigit(c: char) { '0' <= c <= '9' }

  predicate AllDigits(s: String) { forall i | 0 <= i < |s| :: IsDigit(s[i]) }

  predicate IsAsciiAlpha(c: char) { 'a' <= c <= 'z' || 'A' <= c <= 'Z' }

  predicate IsLower(c: char) { 'a' <= c <= 'z' }

  function DigitValue(c: char): (d: nat)
    requires IsDigit(c)
    ensures d < 10
  {
    c as int - '0' as int
  }

  function DigitChar(d: nat): (c: char)
    requires d < 10
    ensures IsDigit(c) && DigitValue(c) == d
  {
    ('0' as int + d) as char
  }

  /** The value of a decimal numeral, most significant digit first. */
  function DecValue(s: String): nat
    requires AllDigits(s)
    decreases |s|
  {
    if s == [] then 0 else 10 * DecValue(s[..|s| - 1]) + DigitValue(s[|s| - 1])
  }

  /** The numeral `Display` prints for a natural number: no sign, no leading zero. */
  function NatToDec(n: nat): (r: String)
    ensures 1 <= |r| && AllDigits(r) && DecValue(r) == n
    ensures r[0] == '0' ==> r == "0"
  {
    if n < 10 then [DigitChar(n)]
    else
      var prefix := NatToDec(n / 10);
      var r := prefix + [DigitChar(n % 10)];
      assert r[..|r| - 1] == prefix;
      r
  }

  /** The numeral `Display` prints for an integer: a '-' before negative values. */
  function IntToDec(i: int): (r: String)
    ensures 1 <= |r|
  {
    if i < 0 then "-" + NatToDec(-i) else NatToDec(i)
  }

  /** Number of digits at the front of `s`. */
  function LeadingDigits(s: String): (k: nat)
    ensures k <= |s| && AllDigits(s[..k])
    ensures k < |s| ==> !IsDigit(s[k])
  {
    if s == [] || !IsDigit(s[0]) then 0
    else
      var k := 1 + LeadingDigits(s[1..]);
      assert forall i | 1 <= i < k :: s[..k][i] == s[1..][..k - 1][i - 1];
      k
  }

  lemma {:induction false} LeadingDigitsOfNumeral(d: String, rest: String)
    requires AllDigits(d)
    requires rest == [] || !IsDigit(rest[0])
    ensures LeadingDigits(d + rest) == |d|
    ensures (d + rest)[..|d|] == d && (d + rest)[|d|..] == rest
    decreases |d|
  {
    if d != [] {
      assert (d + rest)[1..] == d[1..] + rest;
      LeadingDigitsOfNumeral(d[1..], rest);
    }
  }

  // ---------------------------------------------------------------- nom

  /** nom's unsigned digit parser (`u8`, `u32`, `u64` of
      `nom::character::complete`): at least one ASCII digit, greedily, and an
      error when the value exceeds `max`. */
  function NomUnsigned(s: String, max: nat): (r: Option<Parsed<nat>>)
    ensures r.Some? <==> 0 < LeadingDigits(s) && DecValue(s[..LeadingDigits(s)]) <= max
    ensures r.Some? ==> r.value.value <= max && r.value.rest == s[LeadingDigits(s)..]
  {
    var k := LeadingDigits(s);
    if k == 0 then None
    else
      var v := DecValue(s[..k]);
      if v > max then None else Some(Parsed(v, s[k..]))
  }

  /** nom's signed digit parser (`i32`, `i64`): an optional '+' or '-', then
      at least one digit; an error when the value leaves [min, max]. */
  function NomSigned(s: String, min: int, max: int): (r: Option<Parsed<int>>)
    ensures r.Some? ==> min <= r.value.value <= max && |r.value.rest| < |s|
  {
    var negative := |s| > 0 && s[0] == '-';
    var body := if |s| > 0 && (s[0] == '-' || s[0] == '+') then s[1..] else s;
    var k := LeadingDigits(body);
    if k == 0 then None
    else
      var v := DecValue(body[..k]);
      var x: int := if negative then -(v as int) else v;
      if x < min || x > max then None else Some(Parsed(x, body[k..]))
  }

  function NomU32(s: String): Option<Parsed<nat>> { NomUnsigned(s, U32_MAX) }

  function NomI32(s: String): Option<Parsed<int>> { NomSigned(s, I32_MIN, I32_MAX) }

  function NomI64(s: String): Option<Parsed<int>> { NomSigned(s, I64_MIN, I64_MAX) }

  /** A numeral printed by `Display` parses back with nom, whatever non-digit text follows. */
  lemma NomUnsignedOfNumeral(n: nat, max: nat, rest: String)
    requires n <= max
    requires rest == [] || !IsDigit(rest[0])
    ensures NomUnsigned(NatToDec(n) + rest, max) == Some(Parsed(n, rest))
  {
    LeadingDigitsOfNumeral(NatToDec(n), rest);
  }

  lemma NomSignedOfNumeral(i: int, min: int, max: int, rest: String)
    requires min <= i <= max
    requires rest == [] || !IsDigit(rest[0])
    ensures NomSigned(IntToDec(i) + rest, min, max) == Some(Parsed(i, rest))
  {
    if i < 0 {
      NomNegative(NatToDec(-i), rest);
      LeadingDigitsOfNumeral(NatToDec(-i), rest);
    } else {
      LeadingDigitsOfNumeral(NatToDec(i), rest);
    }
  }

  lemma NomNegative(d: String, rest: String)
    ensures ("-" + d + rest)[0] == '-' && ("-" + d + rest)[1..] == d + rest
  {
  }

  /** nom's `space1`: at least one ' ' or '\t'. */
  predicate IsBlank(c: char) { c == ' ' || c == '\t' }

  function LeadingBlanks(s: String): (k: nat)
    ensures k <= |s| && (k < |s| ==> !IsBlank(s[k]))
  {
    if s == [] || !IsBlank(s[0]) then 0 else 1 + LeadingBlanks(s[1..])
  }

  function Space1(s: String): (r: Option<String>)
    ensures r.Some? <==> s != [] && IsBlank(s[0])
    ensures r.Some? ==> r.value == s[LeadingBlanks(s)..] && |r.value| < |s|
  {
    var k := LeadingBlanks(s);
    if k == 0 then None else Some(s[k..])
  }

  /** A single blank before a token that does not start with a blank is consumed. */
  lemma Space1OfBlank(rest: String)
    requires rest == [] || !IsBlank(rest[0])
    ensures Space1(" " + rest) == Some(rest)
  {
    var s := " " + rest;
    assert s[1..] == rest;
    assert LeadingBlanks(s) == 1 + LeadingBlanks(rest);
  }

  /** nom's `multispace0`: spaces, tabs, carriage returns and line feeds. */
  predicate IsMultiSpace(c: char)
  {
    c == ' ' || c == '\t' || c == '\r' || c == '\n'
  }

  function LeadingMultiSpace(s: String): (k: nat)
    ensures k <= |s| && (k < |s| ==> !IsMultiSpace(s[k]))
    ensures forall i | 0 <= i < k :: IsMultiSpace(s[i])
  {
    if s == [] || !IsMultiSpace(s[0]) then 0 else 1 + LeadingMultiSpace(s[1..])
  }

  function MultiSpace0(s: String): (r: String)
    ensures |r| <= |s|
  {
    s[LeadingMultiSpace(s)..]
  }

  /** nom's `multispace1`: at least one whitespace character. */
  function MultiSpace1(s: String): (r: Option<String>)
    ensures r.Some? <==> s != [] && IsMultiSpace(s[0])
    ensures r.Some? ==> |r.value| < |s|
  {
    var k := LeadingMultiSpace(s);
    if k == 0 then None else Some(s[k..])
  }

  /** Whitespace in front of a word that does not start with whitespace is
      consumed completely. */
  lemma {:induction false} MultiSpaceBefore(blank: String, rest: String)
    requires forall i | 0 <= i < |blank| :: IsMultiSpace(blank[i])
    requires rest == [] || !IsMultiSpace(rest[0])
    ensures LeadingMultiSpace(blank + rest) == |blank|
    ensures MultiSpace0(blank + rest) == rest
    ensures blank != [] ==> MultiSpace1(blank + rest) == Some(rest)
    decreases |blank|
  {
    if blank != [] {
      assert (blank + rest)[1..] == blank[1..] + rest;
      MultiSpaceBefore(blank[1..], rest);
    }
    assert (blank + rest)[|blank|..] == rest;
  }

  /** nom's `newline`: exactly one '\n'. */
  function Newline(s: String): (r: Option<String>)
    ensures r.Some? ==> |r.value| < |s|
  {
    if s != [] && s[0] == '\n' then Some(s[1..]) else None
  }

  // ---------------------------------------------------------------- str::parse

  /** `str::parse::<uN>()`: an optional '+', then only digits, at least one. */
  function ParseUnsigned(s: String, max: nat): (r: Option<nat>)
    ensures r.Some? ==> r.value <= max
  {
    var body := if |s| > 0 && s[0] == '+' then s[1..] else s;
    if body == [] || !AllDigits(body) || DecValue(body) > max then None
    else Some(DecValue(body))
  }

  /** `str::parse::<iN>()`: an optional '+' or '-', then only digits, at least one. */
  function ParseSigned(s: String, min: int, max: int): (r: Option<int>)
    ensures r.Some? ==> min <= r.value <= max
  {
    var negative := |s| > 0 && s[0] == '-';
    var body := if |s| > 0 && (s[0] == '+' || s[0] == '-') then s[1..] else s;
    if body == [] || !AllDigits(body) then None
    else
      var x: int := if negative then -(DecValue(body) as int) else DecValue(body);
      if x < min || x > max then None else Some(x)
  }

  lemma ParseUnsignedOfNumeral(n: nat, max: nat)
    requires n <= max
    ensures ParseUnsigned(NatToDec(n), max) == Some(n)
  {
  }

  lemma ParseSignedOfNumeral(i: int, min: int, max: int)
    requires min <= i <= max
    ensures ParseSigned(IntToDec(i), min, max) == Some(i)
  {
    if i < 0 {
      assert IntToDec(i)[1..] == NatToDec(-i);
    }
  }

  // ---------------------------------------------------------------- ParseIntError

  /** The kinds of `ParseIntError` a decimal parse can report, and the text
      each displays. */
  datatype IntErrorKind = EmptyString | InvalidDigit | PosOverflow | NegOverflow
  {
    function Message(): String
    {
      match this
      case EmptyString => "cannot parse integer from empty string"
      case InvalidDigit => "invalid digit found in string"
      case PosOverflow => "number too large to fit in target type"
      case NegOverflow => "number too small to fit in target type"
    }
  }

  /** Why `str::parse` rejects `s` for an integer type holding `min..=max`
      (a signed type when `min < 0`), or `None` when it accepts it: an empty
      string, a lone sign, or the first problem met while the digits are
      read from the left with checked arithmetic. A '-' is a sign only for
      signed types. */
  function IntError(s: String, min: int, max: nat): Option<IntErrorKind>
    requires min <= 0
  {
    if s == [] then Some(EmptyString)
    else if |s| == 1 && (s[0] == '+' || s[0] == '-') then Some(InvalidDigit)
    else if s[0] == '-' && min < 0 then ScanDigits(s[1..], 0, -min, NegOverflow)
    else ScanDigits(if s[0] == '+' then s[1..] else s, 0, max, PosOverflow)
  }

  /** Digits read from the left onto `acc`: a character that is not a digit,
      or a value past `bound`, stops the reading. */
  function ScanDigits(ds: String, acc: nat, bound: nat, over: IntErrorKind): Option<IntErrorKind>
  {
    if ds == [] then None
    else if !IsDigit(ds[0]) then Some(InvalidDigit)
    else if acc * 10 + DigitValue(ds[0]) > bound then Some(over)
    else ScanDigits(ds[1..], acc * 10 + DigitValue(ds[0]), bound, over)
  }

  /** The text of the `ParseIntError` for `s`; empty when `s` parses. */
  function IntErrorText(s: String, min: int, max: nat): String
    requires min <= 0
  {
    match IntError(s, min, max)
    case Some(k) => k.Message()
    case None => ""
  }

  /** The value of digits read from the left onto `acc`. */
  function LeftValue(ds: String, acc: nat): nat
    requires AllDigits(ds)
  {
    if ds == [] then acc else LeftValue(ds[1..], acc * 10 + DigitValue(ds[0]))
  }

  lemma {:induction false} LeftValueSnoc(ds: String, c: char, acc: nat)
    requires AllDigits(ds) && IsDigit(c)
    ensures LeftValue(ds + [c], acc) == 10 * LeftValue(ds, acc) + DigitValue(c)
    decreases |ds|
  {
    if ds != [] {
      assert (ds + [c])[1..] == ds[1..] + [c];
      LeftValueSnoc(ds[1..], c, acc * 10 + DigitValue(ds[0]));
    }
  }

  /** Reading from the left gives the numeral's value. */
  lemma {:induction false} LeftValueIsDecValue(ds: String)
    requires AllDigits(ds)
    ensures LeftValue(ds, 0) == DecValue(ds)
    decreases |ds|
  {
    if ds != [] {
      var front := ds[..|ds| - 1];
      LeftValueSnoc(front, ds[|ds| - 1], 0);
      LeftValueIsDecValue(front);
      assert front + [ds[|ds| - 1]] == ds;
    }
  }

  /** Reading more digits never makes the value smaller. */
  lemma {:induction false} LeftValueGrows(ds: String, acc: nat)
    requires AllDigits(ds)
    ensures acc <= LeftValue(ds, acc)
    decreases |ds|
  {
    if ds != [] {
      LeftValueGrows(ds[1..], acc * 10 + DigitValue(ds[0]));
    }
  }

  /** The scan finds no problem exactly when every character is a digit and
      the value stays within the bound; when only the bound is passed, it
      reports the overflow. */
  lemma {:induction false} ScanDigitsExact(ds: String, acc: nat, bound: nat, over: IntErrorKind)
    requires acc <= bound
    ensures ScanDigits(ds, acc, bound, over).None? <==> AllDigits(ds) && LeftValue(ds, acc) <= bound
    ensures AllDigits(ds) && LeftValue(ds, acc) > bound ==> ScanDigits(ds, acc, bound, over) == Some(over)
    decreases |ds|
  {
    if ds != [] && IsDigit(ds[0]) && acc * 10 + DigitValue(ds[0]) <= bound {
      var next := acc * 10 + DigitValue(ds[0]);
      ScanDigitsExact(ds[1..], next, bound, over);
      assert AllDigits(ds) <==> AllDigits(ds[1..]);
    } else if ds != [] && IsDigit(ds[0]) && AllDigits(ds) {
      LeftValueGrows(ds[1..], acc * 10 + DigitValue(ds[0]));
    }
  }

  /** A signed parse fails exactly when `IntError` names a reason. */
  lemma IntErrorOfSigned(s: String, min: int, max: nat)
    requires min < 0
    ensures IntError(s, min, max).None? <==> ParseSigned(s, min, max).Some?
  {
    if |s| > 1 || (|s| == 1 && s[0] != '+' && s[0] != '-') {
      var body := if s[0] == '+' || s[0] == '-' then s[1..] else s;
      ScanDigitsExact(body, 0, if s[0] == '-' then -min else max, if s[0] == '-' then NegOverflow else PosOverflow);
      if AllDigits(body) {
        LeftValueIsDecValue(body);
      }
    }
  }

  /** An unsigned parse fails exactly when `IntError` names a reason. */
  lemma IntErrorOfUnsigned(s: String, max: nat)
    ensures IntError(s, 0, max).None? <==> ParseUnsigned(s, max).Some?
  {
    if |s| > 1 || (|s| == 1 && s[0] != '+' && s[0] != '-') {
      var body := if s[0] == '+' then s[1..] else s;
      ScanDigitsExact(body, 0, max, PosOverflow);
      if AllDigits(body) {
        LeftValueIsDecValue(body);
      }
    }
  }

  /** Which kind a rejected text gets: nothing to read, a first character
      that is neither a digit nor a sign, or digits only whose value passes
      the bound on its side. */
  lemma IntErrorKinds(s: String, min: int, max: nat)
    requires min <= 0
    ensures s == [] ==> IntError(s, min, max) == Some(EmptyString)
    ensures s != [] && !IsDigit(s[0]) && s[0] != '+' && s[0] != '-' ==> IntError(s, min, max) == Some(InvalidDigit)
    ensures AllDigits(s) && s != [] && DecValue(s) > max ==> IntError(s, min, max) == Some(PosOverflow)
    ensures min < 0 && |s| > 1 && s[0] == '-' && AllDigits(s[1..]) && DecValue(s[1..]) > -min ==>
      IntError(s, min, max) == Some(NegOverflow)
  {
    if AllDigits(s) && s != [] {
      LeftValueIsDecValue(s);
      ScanDigitsExact(s, 0, max, PosOverflow);
    }
    if |s| > 1 && AllDigits(s[1..]) {
      LeftValueIsDecValue(s[1..]);
      ScanDigitsExact(s[1..], 0, -min, NegOverflow);
    }
  }

  // ---------------------------------------------------------------- splitting

  predicate OccursAt(s: String, sep: String, i: int)
  {
    0 <= i && i + |sep| <= |s| && s[i..i + |sep|] == sep
  }

  /** The first occurrence of `sep` in `s` at or after `from`. */
  function FindFrom(s: String, sep: String, from: nat): (r: Option<nat>)
    requires from <= |s|
    ensures r.Some? ==> from <= r.value && OccursAt(s, sep, r.value)
    ensures r.Some? ==> forall j | from <= j < r.value :: !OccursAt(s, sep, j)
    ensures r.None? ==> forall j | from <= j :: !OccursAt(s, sep, j)
    decreases |s| - from
  {
    if from + |sep| > |s| then None
    else if s[from..from + |sep|] == sep then Some(from)
    else if from == |s| then None
    else FindFrom(s, sep, from + 1)
  }

  function Find(s: String, sep: String): (r: Option<nat>)
    ensures r.Some? ==> OccursAt(s, sep, r.value)
    ensures r.Some? ==> forall j | 0 <= j < r.value :: !OccursAt(s, sep, j)
    ensures r.None? ==> forall j | 0 <= j :: !OccursAt(s, sep, j)
  {
    FindFrom(s, sep, 0)
  }

  predicate Contains(s: String, sep: String) { Find(s, sep).Some? }

  lemma NoOccurrenceInPrefix(s: String, sep: String, i: nat)
    requires |sep| > 0 && i <= |s|
    requires forall j | 0 <= j < i :: !OccursAt(s, sep, j)
    ensures !Contains(s[..i], sep)
  {
    if Find(s[..i], sep).Some? {
      var j := Find(s[..i], sep).value;
      assert s[..i][j..j + |sep|] == s[j..j + |sep|];
      assert OccursAt(s, sep, j);
    }
  }

  /** Concatenation regrouped to the right. */
  lemma Assoc(a: String, b: String, c: String)
    ensures (a + b) + c == a + (b + c)
  {
  }

  /** Inverse of `Split`: the parts glued with the separator between them. */
  function Join(parts: seq<String>, sep: String): String
  {
    if |parts| == 0 then []
    else if |parts| == 1 then parts[0]
    else parts[0] + sep + Join(parts[1..], sep)
  }

  /** Rust's `str::split(sep)`: always at least one part, none containing the separator. */
  function Split(s: String, sep: String): (r: seq<String>)
    requires |sep| > 0
    ensures |r| >= 1
    ensures Join(r, sep) == s
    ensures forall k | 0 <= k < |r| :: !Contains(r[k], sep)
    decreases |s|
  {
    match Find(s, sep)
    case None => [s]
    case Some(i) =>
      NoOccurrenceInPrefix(s, sep, i);
      var tail := Split(s[i + |sep|..], sep);
      var r := [s[..i]] + tail;
      assert r[1..] == tail;
      assert s == s[..i] + sep + s[i + |sep|..];
      r
  }

  /** Rust's `str::split_terminator(sep)`: `split` without a final empty
      part, so the text is the parts joined, perhaps with one more separator. */
  function SplitTerminator(s: String, sep: String): (r: seq<String>)
    requires |sep| > 0
    ensures forall k | 0 <= k < |r| :: !Contains(r[k], sep)
    ensures Join(r, sep) == s || (|r| > 0 && Join(r, sep) + sep == s)
  {
    var parts := Split(s, sep);
    var n := |parts| - 1;
    if parts[n] == [] then
      assert forall k | 0 <= k < n :: parts[..n][k] == parts[k];
      if n > 0 then JoinWithoutEmptyLast(parts, sep); parts[..n] else []
    else parts
  }

  /** Dropping a final empty part removes the separator before it. */
  lemma {:induction false} JoinWithoutEmptyLast(parts: seq<String>, sep: String)
    requires |parts| >= 2 && parts[|parts| - 1] == []
    ensures Join(parts[..|parts| - 1], sep) + sep == Join(parts, sep)
  {
    if |parts| > 2 {
      var tail := parts[1..];
      JoinWithoutEmptyLast(tail, sep);
      assert parts[..|parts| - 1][1..] == tail[..|tail| - 1];
    }
  }

  /** Rust's `str::split_once(sep)`: the text before and after the first occurrence. */
  function SplitOnce(s: String, sep: String): (r: Option<(String, String)>)
    requires |sep| > 0
    ensures r.Some? ==> s == r.value.0 + sep + r.value.1 && !Contains(r.value.0, sep)
    ensures r.None? <==> !Contains(s, sep)
  {
    match Find(s, sep)
    case None => None
    case Some(i) =>
      NoOccurrenceInPrefix(s, sep, i);
      assert s == s[..i] + sep + s[i + |sep|..];
      Some((s[..i], s[i + |sep|..]))
  }

  /** A one-character separator absent from `s` does not occur in it. */
  lemma NotContainsChar(s: String, sep: String)
    requires |sep| == 1 && sep[0] !in s
    ensures !Contains(s, sep)
  {
  }

  /** Splitting at a one-character separator peels off the text before its
      first occurrence. */
  lemma SplitOfConcat(a: String, sep: String, b: String)
    requires |sep| == 1 && sep[0] !in a
    ensures Split(a + sep + b, sep) == [a] + Split(b, sep)
    ensures SplitOnce(a + sep + b, sep) == Some((a, b))
  {
    var s := a + sep + b;
    forall j | 0 <= j < |a| ensures !OccursAt(s, sep, j) {
      assert s[j] == a[j];
    }
    assert OccursAt(s, sep, |a|);
    assert Find(s, sep) == Some(|a|);
    assert s[..|a|] == a;
    assert s[|a| + 1..] == b;
  }

  /** Text without the separator is its only part. */
  lemma SplitWithout(s: String, sep: String)
    requires |sep| == 1 && sep[0] !in s
    ensures Split(s, sep) == [s]
    ensures SplitOnce(s, sep) == None
  {
    NotContainsChar(s, sep);
  }

  predicate StartsWith(s: String, prefix: String)
  {
    |prefix| <= |s| && s[..|prefix|] == prefix
  }

  /** The part of `s` after `prefix`, or None (`str::strip_prefix`, nom's `tag`). */
  function StripPrefix(s: String, prefix: String): (r: Option<String>)
    ensures r.Some? <==> StartsWith(s, prefix)
    ensures r.Some? ==> s == prefix + r.value
  {
    if StartsWith(s, prefix) then
      assert s == prefix + s[|prefix|..];
      Some(s[|prefix|..])
    else None
  }

  lemma StripPrefixOfConcat(prefix: String, rest: String)
    ensures StripPrefix(prefix + rest, prefix) == Some(rest)
  {
    assert (prefix + rest)[..|prefix|] == prefix;
  }

  function StripCr(line: String): String
  {
    if |line| > 0 && line[|line| - 1] == '\r' then line[..|line| - 1] else line
  }

  /** Rust's `str::lines()`: split at '\n', drop a '\r' before each '\n', and
      no final empty line after a trailing '\n'. */
  function Lines(s: String): seq<String>
  {
    TerminatedLines(Split(s, "\n"))
  }

  /** All parts but the last were followed by '\n'; the last one is a line
      only when it is not empty. */
  function TerminatedLines(parts: seq<String>): seq<String>
    requires |parts| >= 1
  {
    if |parts| == 1 then (if parts[0] == [] then [] else [parts[0]])
    else [StripCr(parts[0])] + TerminatedLines(parts[1..])
  }

  /** Lines each followed by '\n', the way a text file is written. */
  function Unlines(ls: seq<String>): String
  {
    if ls == [] then [] else ls[0] + "\n" + Unlines(ls[1..])
  }

  predicate PlainLine(l: String)
  {
    '\n' !in l && (|l| == 0 || l[|l| - 1] != '\r')
  }

  lemma {:induction false} SplitUnlines(ls: seq<String>)
    requires forall k | 0 <= k < |ls| :: PlainLine(ls[k])
    ensures Split(Unlines(ls), "\n") == ls + [[]]
  {
    if ls == [] {
      assert Find(Unlines(ls), "\n").None?;
    } else {
      var rest := ls[1..];
      SplitOfConcat(ls[0], "\n", Unlines(rest));
      SplitUnlines(rest);
      assert ls + [[]] == [ls[0]] + (rest + [[]]);
    }
  }

  /** `lines()` undoes writing the lines out with a '\n' after each. */
  lemma {:induction false} TerminatedPlainLines(ls: seq<String>)
    requires forall k | 0 <= k < |ls| :: PlainLine(ls[k])
    ensures TerminatedLines(ls + [[]]) == ls
  {
    if ls != [] {
      assert (ls + [[]])[1..] == ls[1..] + [[]];
      TerminatedPlainLines(ls[1..]);
      assert StripCr(ls[0]) == ls[0];
    }
  }

  /** `lines()` undoes writing the lines out with a '\n' after each. */
  lemma LinesOfUnlines(ls: seq<String>)
    requires forall k | 0 <= k < |ls| :: PlainLine(ls[k])
    ensures Lines(Unlines(ls)) == ls
  {
    SplitUnlines(ls);
    TerminatedPlainLines(ls);
  }

  /** A text of one line without a line break. */
  lemma OneLine(s: String)
    requires s != [] && '\n' !in s && s[|s| - 1] != '\r'
    ensures Lines(s) == [s]
  {
    SplitWithout(s, "\n");
  }

  /** A text of two lines with no final line break. */
  lemma TwoLines(first: String, second: String)
    requires first != [] && '\n' !in first && first[|first| - 1] != '\r'
    requires second != [] && '\n' !in second
    ensures Lines(first + "\n" + second) == [first, second]
  {
    SplitOfConcat(first, "\n", second);
    SplitWithout(second, "\n");
    var parts := [first] + [second];
    assert parts[1..] == [second];
    assert TerminatedLines(parts) == [first] + [second];
  }

  // ---------------------------------------------------------------- whitespace

  /** ASCII whitespace, as `split_ascii_whitespace` and `trim` see it on the
      puzzle inputs. */
  predicate IsSpace(c: char)
  {
    c == ' ' || c == '\t' || c == '\n' || c == '\r' || c == '\U{000C}'
  }

  function SkipSpaces(s: String): (r: String)
    ensures |r| <= |s|
    ensures r == [] || !IsSpace(r[0])
  {
    if s != [] && IsSpace(s[0]) then SkipSpaces(s[1..]) else s
  }

  function WordLength(s: String): (k: nat)
    ensures k <= |s| && (k < |s| ==> IsSpace(s[k]))
    ensures forall i | 0 <= i < k :: !IsSpace(s[i])
  {
    if s == [] || IsSpace(s[0]) then 0
    else
      var k := 1 + WordLength(s[1..]);
      assert forall i | 1 <= i < k :: s[i] == s[1..][i - 1];
      k
  }
  predicate IsWord(w: String)
  {
    w != [] && forall i | 0 <= i < |w| :: !IsSpace(w[i])
  }

  /** Rust's `split_whitespace()`: the maximal non-empty runs of non-space characters. */
  function Words(s: String): (r: seq<String>)
    ensures forall k | 0 <= k < |r| :: IsWord(r[k])
    decreases |s|
  {
    var t := SkipSpaces(s);
    if t == [] then []
    else
      var k := WordLength(t);
      var w := t[..k];
      assert IsWord(w);
      [w] + Words(t[k..])
  }

  /** Rust's `trim()`: no whitespace at either end. */
  function Trim(s: String): (r: String)
    ensures r == [] || (!IsSpace(r[0]) && !IsSpace(r[|r| - 1]))
  {
    var t := SkipSpaces(s);
    TrimEnd(t)
  }

  function TrimEnd(s: String): (r: String)
    ensures r == [] || !IsSpace(r[|r| - 1])
    ensures |r| <= |s| && r == s[..|r|]
    ensures r == [] || !IsSpace(r[0]) || (s != [] && IsSpace(s[0]))
  {
    if s != [] && IsSpace(s[|s| - 1]) then TrimEnd(s[..|s| - 1]) else s
  }

  /** `trim` removes one leading blank before text that starts and ends
      with a visible character. */
  lemma TrimOfPadded(t: String)
    requires t != [] && !IsSpace(t[0]) && !IsSpace(t[|t| - 1])
    ensures Trim(" " + t) == t
  {
    assert (" " + t)[1..] == t;
    assert SkipSpaces(" " + t) == SkipSpaces(t) == t;
    assert TrimEnd(t) == t;
  }

  // ---------------------------------------------------------------- order

  /** `Ord` on `str`: lexicographic by character, a proper prefix first. */
  predicate LexLess(a: String, b: String)
  {
    if a == [] then b != []
    else if b == [] then false
    else if a[0] != b[0] then a[0] < b[0]
    else LexLess(a[1..], b[1..])
  }

  lemma {:induction false} LexIrreflexive(a: String)
    ensures !LexLess(a, a)
  {
    if a != [] {
      LexIrreflexive(a[1..]);
    }
  }

  /** Two strings are equal or one of them comes first, never both. */
  lemma {:induction false} LexTrichotomy(a: String, b: String)
    ensures a == b || LexLess(a, b) || LexLess(b, a)
    ensures !(LexLess(a, b) && LexLess(b, a))
  {
    if a != [] && b != [] && a[0] == b[0] {
      LexTrichotomy(a[1..], b[1..]);
      if a[1..] == b[1..] {
        assert a == [a[0]] + a[1..] && b == [b[0]] + b[1..];
      }
    }
  }

  lemma {:induction false} LexTransitive(a: String, b: String, c: String)
    requires LexLess(a, b) && LexLess(b, c)
    ensures LexLess(a, c)
  {
    if a != [] && a[0] == b[0] && b[0] == c[0] {
      LexTransitive(a[1..], b[1..], c[1..]);
    }
  }

  /** Nothing in `s` comes before `m`. */
  predicate IsFirst(m: String, s: set<String>)
  {
    m in s && forall x | x in s :: !LexLess(x, m)
  }

  /** A string before the first of the others is the first of them all. */
  lemma FirstOfSmaller(y: String, m: String, s: set<String>)
    requires y in s && IsFirst(m, s - {y}) && LexLess(y, m)
    ensures IsFirst(y, s)
  {
    forall x | x in s
      ensures !LexLess(x, y)
    {
      if x == y {
        LexIrreflexive(y);
      } else if LexLess(x, y) {
        LexTransitive(x, y, m);
      }
    }
  }

  /** The first of the others stays first when a later string joins. */
  lemma FirstOfLarger(y: String, m: String, s: set<String>)
    requires y in s && IsFirst(m, s - {y}) && !LexLess(y, m)
    ensures IsFirst(m, s)
  {
  }

  /** Every finite non-empty set of strings has a first element. */
  lemma {:induction false} FirstExists(s: set<String>)
    requires s != {}
    ensures exists m :: IsFirst(m, s)
    decreases |s|
  {
    var y :| y in s;
    if s == {y} {
      LexIrreflexive(y);
      assert IsFirst(y, s);
    } else {
      FirstExists(s - {y});
      var m :| IsFirst(m, s - {y});
      if LexLess(y, m) {
        FirstOfSmaller(y, m, s);
      } else {
        FirstOfLarger(y, m, s);
      }
    }
  }

  /** The first string of a set in `str` order. */
  function First(s: set<String>): (m: String)
    requires s != {}
    ensures m in s && forall x | x in s && x != m :: LexLess(m, x)
  {
    FirstExists(s);
    LexOrderTotal();
    var m :| IsFirst(m, s);
    forall x | x in s && x != m
      ensures LexLess(m, x)
    {
      LexTrichotomy(m, x);
    }
    m
  }

  lemma LexOrderTotal()
    ensures forall a: String, b: String :: a == b || LexLess(a, b) || LexLess(b, a)
    ensures forall a: String, b: String :: !(LexLess(a, b) && LexLess(b, a))
  {
    forall a: String, b: String
      ensures a == b || LexLess(a, b) || LexLess(b, a)
      ensures !(LexLess(a, b) && LexLess(b, a))
    {
      LexTrichotomy(a, b);
    }
  }

  /** The strings of a set in `str` order. */
  function Sorted(s: set<String>): (r: seq<String>)
    ensures |r| == |s| && forall x :: x in r <==> x in s
    ensures forall i, j | 0 <= i < j < |r| :: LexLess(r[i], r[j])
    decreases |s|
  {
    if s == {} then []
    else
      var m := First(s);
      var rest := Sorted(s - {m});
      forall j | 0 <= j < |rest|
        ensures LexLess(m, rest[j])
      {
        assert rest[j] in rest;
      }
      [m] + rest
  }
}
