/** Day 15: sensors and beacons. Each input line places a sensor and the
    beacon closest to it; a sensor covers every cell no farther from it, in
    Manhattan distance, than its beacon, except the sensor's and the
    beacon's own cells. A scan of one row counts the cells some sensor
    covers. */
module Day15 {
  import opened Wrappers
  import opened Text
  import opened Ints

  /** A vector of `euclid::Vector2D<i32>`. */
  datatype Coord = Coord(x: int, y: int)

  function Sub(a: Coord, b: Coord): Coord
  {
    Coord(a.x - b.x, a.y - b.y)
  }

  /** `manhatten`: the absolute values of the components, summed (a dot
      product with (1, 1)). */
  function Manhattan(c: Coord): nat
  {
    Abs(c.x) + Abs(c.y)
  }

  /** The Manhattan distance is a metric: zero only between equal points,
      symmetric, and obeying the triangle inequality. */
  lemma ManhattanMetric(a: Coord, b: Coord, c: Coord)
    ensures Manhattan(Sub(a, b)) == 0 <==> a == b
    ensures Manhattan(Sub(a, b)) == Manhattan(Sub(b, a))
    ensures Manhattan(Sub(a, c)) <= Manhattan(Sub(a, b)) + Manhattan(Sub(b, c))
  {
  }

  // ---------------------------------------------------------------- sensors

  /** A sensor with its closest beacon, the distance between them and the
      box that distance spans around the sensor. */
  datatype Sensor = Sensor(location: Coord, beacon: Coord, range: int, min: Coord, max: Coord)

  /** The fields `from_str` derives from the two positions. */
  function NewSensor(location: Coord, beacon: Coord): Sensor
  {
    var range := Manhattan(Sub(location, beacon));
    Sensor(location, beacon, range,
      Coord(location.x - range, location.y - range), Coord(location.x + range, location.y + range))
  }

  /** `covers`: the cell is neither the sensor nor its beacon, and is no
      farther from the sensor than the beacon is. */
  predicate Covers(s: Sensor, c: Coord)
  {
    c != s.location && c != s.beacon && Manhattan(Sub(s.location, c)) <= s.range
  }

  /** A covered cell is one where no other beacon can be: strictly closer
      to the sensor than its closest beacon or as close but elsewhere, and
      it lies inside the sensor's box. */
  lemma CoversNearerThanBeacon(location: Coord, beacon: Coord, c: Coord)
    ensures var s := NewSensor(location, beacon);
      Covers(s, c) <==> (c != location && c != beacon
        && Manhattan(Sub(location, c)) <= Manhattan(Sub(location, beacon)))
    ensures var s := NewSensor(location, beacon);
      Covers(s, c) ==> s.min.x <= c.x <= s.max.x && s.min.y <= c.y <= s.max.y
  {
  }

  // ---------------------------------------------------------------- parsing

  /** The length of `-?\d+` at the front of `s`, 0 when there is none; both
      parts are greedy, and '-' not followed by a digit matches nothing. */
  function SignedRun(s: String): (k: nat)
    ensures k <= |s|
    ensures k > 0 ==> k == (if s[0] == '-' then 1 else 0) + LeadingDigits(s[(if s[0] == '-' then 1 else 0)..])
    ensures k < |s| ==> !IsDigit(s[k])
  {
    if |s| > 0 && s[0] == '-' then
      var d := LeadingDigits(s[1..]);
      if d == 0 then 0 else 1 + d
    else LeadingDigits(s)
  }

  /** A tag and a `-?\d+` group after it. */
  function Field(s: String, tag: String): (r: Option<Parsed<String>>)
    ensures r.Some? ==> (StartsWith(s, tag)
      && |r.value.value| > 0 && r.value.value + r.value.rest == s[|tag|..])
  {
    match StripPrefix(s, tag)
    case None => None
    case Some(t) =>
      var k := SignedRun(t);
      if k == 0 then None
      else
        assert t[..k] + t[k..] == t;
        Some(Parsed(t[..k], t[k..]))
  }

  /** The pattern is these texts, each followed by a `-?\d+` group:
      `Sensor at x=(-?\d+), y=(-?\d+): closest beacon is at x=(-?\d+), y=(-?\d+)`. */
  const Tags: seq<String> := ["Sensor at x=", ", y=", ": closest beacon is at x=", ", y="]

  /** The groups of `tags[0] -?\d+ tags[1] -?\d+ ...` matched at the start
      of `s`. */
  function Groups(s: String, tags: seq<String>): (r: Option<seq<String>>)
    ensures r.Some? ==> |r.value| == |tags|
    decreases |tags|
  {
    if tags == [] then Some([])
    else
      var f :- Field(s, tags[0]);
      var more :- Groups(f.rest, tags[1..]);
      Some([f.value] + more)
  }

  /** The sensor pattern matched at the very start of `s`, giving its four
      groups as text; text after the match is not looked at. */
  function MatchAt(s: String): (r: Option<seq<String>>)
    ensures r.Some? ==> |r.value| == 4
  {
    Groups(s, Tags)
  }

  /** `Regex::captures`: the leftmost position, from `i` on, where the
      pattern matches. */
  function LeftmostMatch(s: String, i: nat): (r: Option<nat>)
    requires i <= |s|
    ensures r.Some? ==> i <= r.value <= |s| && MatchAt(s[r.value..]).Some?
    decreases |s| - i
  {
    if MatchAt(s[i..]).Some? then Some(i)
    else if i == |s| then None
    else LeftmostMatch(s, i + 1)
  }

  /** No position before the one found is a match; when
      none is found, no position matches. */
  lemma {:induction false} LeftmostMatchIsLeftmost(s: String, i: nat)
    requires i <= |s|
    ensures var r := LeftmostMatch(s, i);
      r.Some? ==> forall k | i <= k < r.value :: MatchAt(s[k..]).None?
    ensures LeftmostMatch(s, i).None? ==> forall k | i <= k <= |s| :: MatchAt(s[k..]).None?
    decreases |s| - i
  {
    if MatchAt(s[i..]).None? && i < |s| {
      LeftmostMatchIsLeftmost(s, i + 1);
      var r := LeftmostMatch(s, i + 1);
      assert LeftmostMatch(s, i) == r;
      forall k | i <= k <= |s| && (r.None? || k < r.value) ensures MatchAt(s[k..]).None? {
        if k > i {
          assert i + 1 <= k;
        }
      }
    }
  }

  /** Why a line is not a sensor: no match of the pattern, or a captured
      number that does not fit in an `i32`. */
  datatype SensorError = NotInFormat(line: String) | BadNumber(kind: IntErrorKind)

  /** `str::parse::<i32>` of one group; its `ParseIntError` is passed on
      by `?`, so the error is the kind of that error. */
  function Group(text: String): (r: Result<int, SensorError>)
    ensures r.Ok? <==> ParseSigned(text, I32_MIN, I32_MAX).Some?
    ensures r.Ok? ==> r.value == ParseSigned(text, I32_MIN, I32_MAX).value
    ensures r.Err? ==> r.error.BadNumber? && Some(r.error.kind) == IntError(text, I32_MIN, I32_MAX)
  {
    IntErrorOfSigned(text, I32_MIN, I32_MAX);
    match ParseSigned(text, I32_MIN, I32_MAX)
    case None => Err(BadNumber(IntError(text, I32_MIN, I32_MAX).value))
    case Some(v) => Ok(v)
  }

  /** A captured group is `-?\d+`, so the only way its parse fails is a
      value out of the `i32` range. */
  lemma GroupOverflows(text: String)
    requires |text| > 0
    requires AllDigits(if text[0] == '-' then text[1..] else text)
    requires text[0] == '-' ==> |text| > 1
    ensures Group(text).Err? ==> Group(text).error in {BadNumber(PosOverflow), BadNumber(NegOverflow)}
  {
    IntErrorKinds(text, I32_MIN, I32_MAX);
    IntErrorOfSigned(text, I32_MIN, I32_MAX);
    if text[0] == '-' {
      if DecValue(text[1..]) <= -I32_MIN {
        assert ParseSigned(text, I32_MIN, I32_MAX).Some?;
      }
    } else if DecValue(text) <= I32_MAX {
      assert ParseSigned(text, I32_MIN, I32_MAX).Some?;
    }
  }

  /** `Sensor::from_str`: the leftmost match of the pattern anywhere in the
      line; its groups are parsed in the order sx, sy, bx, by and the first
      that does not fit in an `i32` is the error. */
  function ParseSensor(s: String): (r: Result<Sensor, SensorError>)
    ensures r.Err? && r.error.NotInFormat? <==> LeftmostMatch(s, 0).None?
    ensures r.Ok? ==> r.value.range == Manhattan(Sub(r.value.location, r.value.beacon))
    ensures r.Ok? ==> I32_MIN <= r.value.location.x <= I32_MAX && I32_MIN <= r.value.location.y <= I32_MAX
    ensures r.Ok? ==> I32_MIN <= r.value.beacon.x <= I32_MAX && I32_MIN <= r.value.beacon.y <= I32_MAX
  {
    match LeftmostMatch(s, 0)
    case None => Err(NotInFormat(s))
    case Some(j) =>
      var c := MatchAt(s[j..]).value;
      var sx :- Group(c[0]);
      var sy :- Group(c[1]);
      var bx :- Group(c[2]);
      var bY :- Group(c[3]);
      Ok(NewSensor(Coord(sx, sy), Coord(bx, bY)))
  }

  /** Each tag followed by the numeral of the matching value. */
  function PatternText(tags: seq<String>, values: seq<int>): String
    requires |tags| == |values|
    decreases |tags|
  {
    if tags == [] then [] else tags[0] + (IntToDec(values[0]) + PatternText(tags[1..], values[1..]))
  }

  /** The numerals of the values, in order. */
  function Numerals(values: seq<int>): (r: seq<String>)
    ensures |r| == |values| && forall i | 0 <= i < |values| :: r[i] == IntToDec(values[i])
  {
    if values == [] then [] else [IntToDec(values[0])] + Numerals(values[1..])
  }

  /** How the puzzle input writes a sensor and its beacon. */
  function SensorText(location: Coord, beacon: Coord): String
  {
    PatternText(Tags, [location.x, location.y, beacon.x, beacon.y])
  }

  /** The text of a sensor, spelt out. */
  lemma SensorTextIs(location: Coord, beacon: Coord)
    ensures SensorText(location, beacon) == "Sensor at x=" + (IntToDec(location.x) + (", y=" + (IntToDec(location.y)
      + (": closest beacon is at x=" + (IntToDec(beacon.x) + (", y=" + IntToDec(beacon.y)))))))
  {
    var values := [location.x, location.y, beacon.x, beacon.y];
    assert Tags[1..] == [", y=", ": closest beacon is at x=", ", y="];
    assert Tags[2..] == [": closest beacon is at x=", ", y="] && Tags[3..] == [", y="];
    assert values[1..] == [location.y, beacon.x, beacon.y] && values[2..] == [beacon.x, beacon.y];
    assert values[3..] == [beacon.y];
    assert IntToDec(beacon.y) + [] == IntToDec(beacon.y);
    assert Tags[3..][1..] == [] && values[3..][1..] == [];
    assert PatternText(Tags[3..][1..], values[3..][1..]) == [];
    var t3 := PatternText(Tags[3..], values[3..]);
    assert t3 == ", y=" + IntToDec(beacon.y);
    var t2 := PatternText(Tags[2..], values[2..]);
    assert t2 == ": closest beacon is at x=" + (IntToDec(beacon.x) + t3);
    var t1 := PatternText(Tags[1..], values[1..]);
    assert t1 == ", y=" + (IntToDec(location.y) + t2);
  }

  /** An integer written out is one whole `-?\d+` group. */
  lemma SignedRunOfNumeral(i: int, rest: String)
    requires rest == [] || !IsDigit(rest[0])
    ensures SignedRun(IntToDec(i) + rest) == |IntToDec(i)|
    ensures (IntToDec(i) + rest)[..|IntToDec(i)|] == IntToDec(i)
    ensures (IntToDec(i) + rest)[|IntToDec(i)|..] == rest
  {
    var s := IntToDec(i) + rest;
    if i < 0 {
      NomNegative(NatToDec(-i), rest);
      LeadingDigitsOfNumeral(NatToDec(-i), rest);
    } else {
      LeadingDigitsOfNumeral(NatToDec(i), rest);
      assert s[0] == NatToDec(i)[0];
    }
  }

  /** A tag followed by an integer written out is one field. */
  lemma FieldOfNumeral(tag: String, i: int, rest: String)
    requires rest == [] || !IsDigit(rest[0])
    ensures Field(tag + (IntToDec(i) + rest), tag) == Some(Parsed(IntToDec(i), rest))
  {
    StripPrefixOfConcat(tag, IntToDec(i) + rest);
    SignedRunOfNumeral(i, rest);
  }

  /** Tags that do not start with a digit, each followed by a numeral,
      match back to the numerals. */
  lemma {:induction false} GroupsOfText(tags: seq<String>, values: seq<int>)
    requires |tags| == |values|
    requires forall i | 0 <= i < |tags| :: |tags[i]| > 0 && !IsDigit(tags[i][0])
    ensures Groups(PatternText(tags, values), tags) == Some(Numerals(values))
    decreases |tags|
  {
    if tags != [] {
      var rest := PatternText(tags[1..], values[1..]);
      assert rest == [] || rest[0] == tags[1][0];
      FieldOfNumeral(tags[0], values[0], rest);
      GroupsOfText(tags[1..], values[1..]);
    }
  }

  lemma TagsAreText()
    ensures forall i | 0 <= i < |Tags| :: |Tags[i]| > 0 && !IsDigit(Tags[i][0])
  {
  }

  /** A sensor line written out matches the pattern at its start and
      captures the four numerals. */
  lemma MatchOfText(location: Coord, beacon: Coord)
    ensures MatchAt(SensorText(location, beacon)) == Some(Numerals([location.x, location.y, beacon.x, beacon.y]))
  {
    TagsAreText();
    GroupsOfText(Tags, [location.x, location.y, beacon.x, beacon.y]);
  }

  /** A sensor line written out for positions that fit in `i32` parses back
      to the sensor of those positions. */
  lemma ParseSensorOfText(location: Coord, beacon: Coord)
    requires I32_MIN <= location.x <= I32_MAX && I32_MIN <= location.y <= I32_MAX
    requires I32_MIN <= beacon.x <= I32_MAX && I32_MIN <= beacon.y <= I32_MAX
    ensures ParseSensor(SensorText(location, beacon)) == Ok(NewSensor(location, beacon))
  {
    var s := SensorText(location, beacon);
    MatchOfText(location, beacon);
    assert s[0..] == s;
    assert LeftmostMatch(s, 0) == Some(0);
    var c := Numerals([location.x, location.y, beacon.x, beacon.y]);
    GroupOfNumeral(location.x);
    GroupOfNumeral(location.y);
    GroupOfNumeral(beacon.x);
    GroupOfNumeral(beacon.y);
    assert c[0] == IntToDec(location.x) && c[1] == IntToDec(location.y);
    assert c[2] == IntToDec(beacon.x) && c[3] == IntToDec(beacon.y);
  }

  /** The numeral of a value in the `i32` range is a group of that value. */
  lemma GroupOfNumeral(v: int)
    requires I32_MIN <= v <= I32_MAX
    ensures Group(IntToDec(v)) == Ok(v)
  {
    ParseSignedOfNumeral(v, I32_MIN, I32_MAX);
  }

  lemma ExampleNumerals()
    ensures IntToDec(2) == "2" && IntToDec(18) == "18" && IntToDec(-2) == "-2" && IntToDec(15) == "15"
  {
    assert NatToDec(1) == "1" && NatToDec(2) == "2" && NatToDec(5) == "5" && NatToDec(8) == "8";
    assert NatToDec(18) == NatToDec(1) + "8" && NatToDec(15) == NatToDec(1) + "5";
  }

  /** The line of the test, character by character: each tag, then its
      numeral; a quarter of the line at a time. */
  lemma ExampleChars(s: String, t: String)
    requires s == "Sensor at x=2, y=18: closest beacon is at x=-2, y=15"
    requires t == "Sensor at x=" + ("2" + (", y=" + ("18" + (": closest beacon is at x=" + ("-2" + (", y=" + "15"))))))
    ensures s == t
  {
    ExampleChars0(s, t);
    ExampleChars1(s, t);
    ExampleChars2(s, t);
    ExampleChars3(s, t);
  }

  lemma ExampleChars0(s: String, t: String)
    requires s == "Sensor at x=2, y=18: closest beacon is at x=-2, y=15"
    requires t == "Sensor at x=" + ("2" + (", y=" + ("18" + (": closest beacon is at x=" + ("-2" + (", y=" + "15"))))))
    ensures |s| == |t| == 52 && forall k | 0 <= k < 13 :: s[k] == t[k]
  {
    forall k | 0 <= k < 13
      ensures s[k] == t[k]
    {
    }
  }

  lemma ExampleChars1(s: String, t: String)
    requires s == "Sensor at x=2, y=18: closest beacon is at x=-2, y=15"
    requires t == "Sensor at x=" + ("2" + (", y=" + ("18" + (": closest beacon is at x=" + ("-2" + (", y=" + "15"))))))
    ensures |s| == |t| == 52 && forall k | 13 <= k < 26 :: s[k] == t[k]
  {
    forall k | 13 <= k < 26
      ensures s[k] == t[k]
    {
    }
  }

  lemma ExampleChars2(s: String, t: String)
    requires s == "Sensor at x=2, y=18: closest beacon is at x=-2, y=15"
    requires t == "Sensor at x=" + ("2" + (", y=" + ("18" + (": closest beacon is at x=" + ("-2" + (", y=" + "15"))))))
    ensures |s| == |t| == 52 && forall k | 26 <= k < 39 :: s[k] == t[k]
  {
    forall k | 26 <= k < 39
      ensures s[k] == t[k]
    {
    }
  }

  lemma ExampleChars3(s: String, t: String)
    requires s == "Sensor at x=2, y=18: closest beacon is at x=-2, y=15"
    requires t == "Sensor at x=" + ("2" + (", y=" + ("18" + (": closest beacon is at x=" + ("-2" + (", y=" + "15"))))))
    ensures |s| == |t| == 52 && forall k | 39 <= k < 52 :: s[k] == t[k]
  {
    forall k | 39 <= k < 52
      ensures s[k] == t[k]
    {
    }
  }

  lemma ExampleText(s: String)
    requires s == "Sensor at x=2, y=18: closest beacon is at x=-2, y=15"
    ensures s == SensorText(Coord(2, 18), Coord(-2, 15))
  {
    ExampleNumerals();
    SensorTextIs(Coord(2, 18), Coord(-2, 15));
    ExampleChars(s, "Sensor at x=" + (IntToDec(2) + (", y=" + (IntToDec(18)
      + (": closest beacon is at x=" + (IntToDec(-2) + (", y=" + IntToDec(15))))))));
  }

  /** `sensor_from_str`: the line of the test parses, to a sensor whose
      beacon is 7 away. */
  lemma SensorFromStrExample(s: String)
    requires s == "Sensor at x=2, y=18: closest beacon is at x=-2, y=15"
    ensures ParseSensor(s) == Ok(NewSensor(Coord(2, 18), Coord(-2, 15)))
    ensures ParseSensor(s).value.range == 7
  {
    ExampleText(s);
    ParseSensorOfText(Coord(2, 18), Coord(-2, 15));
  }

  /** The fewest characters a match of `tags` needs: each tag and at least
      one digit after it. */
  function PatternLength(tags: seq<String>): nat
  {
    if tags == [] then 0 else |tags[0]| + 1 + PatternLength(tags[1..])
  }

  /** A match of the tags needs at least their least length. */
  lemma {:induction false} GroupsNeedLength(s: String, tags: seq<String>)
    ensures Groups(s, tags).Some? ==> |s| >= PatternLength(tags)
    decreases |tags|
  {
    if tags != [] && Groups(s, tags).Some? {
      var f := Field(s, tags[0]).value;
      GroupsNeedLength(f.rest, tags[1..]);
    }
  }

  /** A line shorter than the least length of the pattern has no match
      anywhere, so it is not a sensor. */
  lemma ShortLineRejected(s: String)
    requires |s| < PatternLength(Tags)
    ensures ParseSensor(s) == Err(NotInFormat(s))
  {
    match LeftmostMatch(s, 0)
    case None =>
    case Some(j) =>
      GroupsNeedLength(s[j..], Tags);
      assert false;
  }

  /** A line that only starts like a sensor is not one. */
  lemma TruncatedLineRejected(s: String)
    requires s == "Sensor at x=2"
    ensures ParseSensor(s) == Err(NotInFormat(s))
  {
    assert PatternLength(Tags) == 49 by {
      assert Tags[1..][1..][1..][1..] == [];
    }
    ShortLineRejected(s);
  }

  // ---------------------------------------------------------------- the row scan

  /** The loop over the sensors that starts from the widest `i32` values
      and widens a box over every sensor's box. */
  method ScanBox(sensors: seq<Sensor>) returns (min: Coord, max: Coord)
    ensures forall i | 0 <= i < |sensors| ::
      min.x <= sensors[i].min.x && min.y <= sensors[i].min.y
      && max.x >= sensors[i].max.x && max.y >= sensors[i].max.y
    ensures min.x == I32_MAX || exists i | 0 <= i < |sensors| :: min.x == sensors[i].min.x
    ensures max.x == I32_MIN || exists i | 0 <= i < |sensors| :: max.x == sensors[i].max.x
  {
    min, max := Coord(I32_MAX, I32_MAX), Coord(I32_MIN, I32_MIN);
    for k := 0 to |sensors|
      invariant forall i | 0 <= i < k ::
        min.x <= sensors[i].min.x && min.y <= sensors[i].min.y
        && max.x >= sensors[i].max.x && max.y >= sensors[i].max.y
      invariant min.x == I32_MAX || exists i | 0 <= i < k :: min.x == sensors[i].min.x
      invariant max.x == I32_MIN || exists i | 0 <= i < k :: max.x == sensors[i].max.x
    {
      var s := sensors[k];
      min := Coord(if min.x <= s.min.x then min.x else s.min.x, if min.y <= s.min.y then min.y else s.min.y);
      max := Coord(if max.x >= s.max.x then max.x else s.max.x, if max.y >= s.max.y then max.y else s.max.y);
    }
  }

  /** Some sensor covers the cell (`any`). */
  predicate CoveredBySome(sensors: seq<Sensor>, c: Coord)
  {
    exists i | 0 <= i < |sensors| :: Covers(sensors[i], c)
  }

  /** The count of the scan over columns `lo..=hi` of row `y`. */
  function CountCovered(sensors: seq<Sensor>, y: int, lo: int, hi: int): (n: nat)
    ensures n <= if lo <= hi then hi - lo + 1 else 0
    decreases hi - lo
  {
    if lo > hi then 0
    else (if CoveredBySome(sensors, Coord(lo, y)) then 1 else 0) + CountCovered(sensors, y, lo + 1, hi)
  }

  /** The covered cells of row `y` between `lo` and `hi`. */
  function CoveredColumns(sensors: seq<Sensor>, y: int, lo: int, hi: int): set<int>
  {
    set x | lo <= x <= hi && CoveredBySome(sensors, Coord(x, y))
  }

  /** The scan counts exactly the covered cells of the row between its
      bounds. */
  lemma {:induction false} CountIsCoveredColumns(sensors: seq<Sensor>, y: int, lo: int, hi: int)
    ensures CountCovered(sensors, y, lo, hi) == |CoveredColumns(sensors, y, lo, hi)|
    decreases hi - lo
  {
    if lo > hi {
      assert CoveredColumns(sensors, y, lo, hi) == {};
    } else {
      CountIsCoveredColumns(sensors, y, lo + 1, hi);
      var rest := CoveredColumns(sensors, y, lo + 1, hi);
      if CoveredBySome(sensors, Coord(lo, y)) {
        assert CoveredColumns(sensors, y, lo, hi) == rest + {lo};
      } else {
        assert CoveredColumns(sensors, y, lo, hi) == rest;
      }
    }
  }

  /** Sensors as `from_str` builds them. */
  predicate WellFormed(sensors: seq<Sensor>)
  {
    forall i | 0 <= i < |sensors| :: sensors[i] == NewSensor(sensors[i].location, sensors[i].beacon)
  }

  /** Scanning between the bounds of a box around every sensor's box misses
      no covered cell of the row. */
  lemma ScanMissesNothing(sensors: seq<Sensor>, min: Coord, max: Coord, c: Coord)
    requires WellFormed(sensors)
    requires forall i | 0 <= i < |sensors| :: min.x <= sensors[i].min.x && max.x >= sensors[i].max.x
    requires CoveredBySome(sensors, c)
    ensures min.x <= c.x <= max.x
    ensures c.x in CoveredColumns(sensors, c.y, min.x, max.x)
  {
    var i :| 0 <= i < |sensors| && Covers(sensors[i], c);
    CoversNearerThanBeacon(sensors[i].location, sensors[i].beacon, c);
  }

  /** The scan of `sample_a`: the box around the sensors, then the count of
      covered cells on row `y` within it, which is the number of cells of
      that row that any sensor covers. */
  method RowCoverage(sensors: seq<Sensor>, y: int) returns (coverage: nat)
    requires WellFormed(sensors)
    ensures exists lo, hi :: (coverage == |CoveredColumns(sensors, y, lo, hi)|
      && forall x :: CoveredBySome(sensors, Coord(x, y)) ==> lo <= x <= hi)
  {
    var min, max := ScanBox(sensors);
    coverage := CountCovered(sensors, y, min.x, max.x);
    CountIsCoveredColumns(sensors, y, min.x, max.x);
    forall x | CoveredBySome(sensors, Coord(x, y)) ensures min.x <= x <= max.x {
      ScanMissesNothing(sensors, min, max, Coord(x, y));
    }
  }
}
