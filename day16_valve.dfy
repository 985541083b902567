/** Day 16, valves: each input line describes one valve, its flow rate and
    the valves its tunnels lead to. */
module Day16Valve {
  import opened Wrappers
  import opened Text

  /** `Name`: a valve is known by its letters. */
  type Name = String

  /** `Valve`: the flow rate is kept as an `i32`, the connections as a set. */
  datatype Valve = Valve(name: Name, flow: int, connections: set<Name>)

  /** `flow as i32` on a `u32`: values above i32::MAX wrap to negatives. */
  function FlowAsI32(flow: nat): (r: int)
    requires flow <= U32_MAX
    ensures I32_MIN <= r <= I32_MAX
    ensures (flow - r) % 0x1_0000_0000 == 0
    ensures flow <= I32_MAX <==> r == flow
  {
    if flow <= I32_MAX then flow else flow - 0x1_0000_0000
  }

  /** `Valve::new`: the connection list is gathered into a set, so order
      and repetition are forgotten. */
  function NewValve(name: Name, flow: nat, connections: seq<Name>): (v: Valve)
    requires flow <= U32_MAX
    ensures v.name == name && v.flow == FlowAsI32(flow)
    ensures forall c :: c in v.connections <==> c in connections
  {
    Valve(name, FlowAsI32(flow), set c | c in connections)
  }

  /** `Valve::connects`. */
  predicate Connects(v: Valve, other: Name)
  {
    other in v.connections
  }

  // ---------------------------------------------------------------- parsing

  /** The parts of a nom error: where the failing parser started and its kind. */
  datatype ErrorKind = Tag | Alpha | Digit
  datatype ValveError = ValveError(input: String, kind: ErrorKind)

  /** The length of the run of ASCII letters at the front of `s`. */
  function AlphaRun(s: String): (k: nat)
    ensures k <= |s| && forall i | 0 <= i < k :: IsAsciiAlpha(s[i])
    ensures k < |s| ==> !IsAsciiAlpha(s[k])
  {
    if s == [] || !IsAsciiAlpha(s[0]) then 0 else 1 + AlphaRun(s[1..])
  }

  /** What nom's `alpha1` accepts whole: one or more ASCII letters. */
  predicate IsName(s: String)
  {
    |s| > 0 && AlphaRun(s) == |s|
  }

  /** A name followed by a non-letter is read whole. */
  lemma {:induction false} AlphaRunOfName(name: String, rest: String)
    requires IsName(name)
    requires rest == [] || !IsAsciiAlpha(rest[0])
    ensures AlphaRun(name + rest) == |name|
    decreases |name|
  {
    assert (name + rest)[0] == name[0];
    if |name| > 1 {
      assert (name + rest)[1..] == name[1..] + rest;
      assert IsName(name[1..]);
      AlphaRunOfName(name[1..], rest);
    } else {
      assert (name + rest)[1..] == rest;
    }
  }

  /** nom's `alpha1`: the letters at the front, greedily, and at least one. */
  function Alpha1(s: String): (r: Result<Parsed<Name>, ValveError>)
    ensures r.Ok? <==> AlphaRun(s) > 0
    ensures r.Ok? ==> IsName(r.value.value) && r.value.value + r.value.rest == s
    ensures r.Ok? ==> r.value.rest == [] || !IsAsciiAlpha(r.value.rest[0])
    ensures r.Err? ==> r.error == ValveError(s, Alpha)
  {
    var k := AlphaRun(s);
    if k == 0 then Err(ValveError(s, Alpha))
    else
      assert s[..k] + s[k..] == s;
      Ok(Parsed(s[..k], s[k..]))
  }

  /** nom's `tag`. */
  function Tagged(s: String, t: String): (r: Result<String, ValveError>)
    ensures r.Ok? <==> StartsWith(s, t)
    ensures r.Ok? ==> s == t + r.value
    ensures r.Err? ==> r.error == ValveError(s, Tag)
  {
    match StripPrefix(s, t)
    case Some(rest) => Ok(rest)
    case None => Err(ValveError(s, Tag))
  }

  /** nom's `u32`. */
  function FlowRate(s: String): (r: Result<Parsed<nat>, ValveError>)
    ensures r.Ok? <==> NomU32(s).Some?
    ensures r.Ok? ==> r.value == NomU32(s).value && r.value.value <= U32_MAX
    ensures r.Err? ==> r.error == ValveError(s, Digit)
  {
    match NomU32(s)
    case None => Err(ValveError(s, Digit))
    case Some(p) => Ok(p)
  }

  const Singular: String := "; tunnel leads to valve "
  const Plural: String := "; tunnels lead to valves "
  const Separator: String := ", "

  /** The `alt` of the two phrasings, singular first; when neither fits,
      the plural tag's error is the answer. */
  function Lead(s: String): (r: Result<String, ValveError>)
    ensures r.Ok? <==> StartsWith(s, Singular) || StartsWith(s, Plural)
    ensures StartsWith(s, Singular) ==> r == Ok(s[|Singular|..])
    ensures !StartsWith(s, Singular) && StartsWith(s, Plural) ==> r == Ok(s[|Plural|..])
    ensures r.Err? ==> r.error == ValveError(s, Tag)
  {
    match Tagged(s, Singular)
    case Ok(rest) => Ok(rest)
    case Err(_) => Tagged(s, Plural)
  }

  /** The loop of `separated_list1` after the first name: a separator and a
      name are taken together, and when either is missing the input goes
      back to before the separator. */
  function MoreNames(s: String, acc: seq<Name>): (r: Parsed<seq<Name>>)
    ensures |r.value| >= |acc| && r.value[..|acc|] == acc
    ensures forall i | |acc| <= i < |r.value| :: IsName(r.value[i])
    decreases |s|
  {
    match Tagged(s, Separator)
    case Err(_) => Parsed(acc, s)
    case Ok(s1) =>
      match Alpha1(s1)
      case Err(_) => Parsed(acc, s)
      case Ok(name) =>
        assert |s| == |Separator| + |name.value| + |name.rest|;
        var longer := acc + [name.value];
        var r := MoreNames(name.rest, longer);
        assert r.value[..|acc|] == longer[..|acc|] == acc;
        r
  }

  /** `separated_list1(tag(", "), alpha1)`: at least one name. */
  function NameList(s: String): (r: Result<Parsed<seq<Name>>, ValveError>)
    ensures r.Ok? <==> AlphaRun(s) > 0
    ensures r.Ok? ==> |r.value.value| >= 1 && forall i | 0 <= i < |r.value.value| :: IsName(r.value.value[i])
    ensures r.Err? ==> r.error == ValveError(s, Alpha)
  {
    var first :- Alpha1(s);
    var more := MoreNames(first.rest, [first.value]);
    assert more.value[0] == more.value[..1][0] == first.value;
    Ok(more)
  }

  /** The parser of `Valve::from_str`, stage by stage. */
  function ParseValve(s: String): (r: Result<Parsed<Valve>, ValveError>)
    ensures r.Ok? ==> IsName(r.value.value.name) && r.value.value.connections != {}
    ensures r.Ok? ==> forall c | c in r.value.value.connections :: IsName(c)
    ensures !StartsWith(s, "Valve ") ==> r == Err(ValveError(s, Tag))
  {
    var s1 :- Tagged(s, "Valve ");
    var name :- Alpha1(s1);
    var s2 :- Tagged(name.rest, " has flow rate=");
    var flow :- FlowRate(s2);
    var names :- Tunnels(flow.rest);
    assert names.value[0] in names.value;
    Ok(Parsed(NewValve(name.value, flow.value, names.value), names.rest))
  }

  /** The tunnels part: either phrasing, then the names. */
  function Tunnels(s: String): (r: Result<Parsed<seq<Name>>, ValveError>)
    ensures r.Ok? ==> |r.value.value| >= 1 && forall i | 0 <= i < |r.value.value| :: IsName(r.value.value[i])
  {
    var s3 :- Lead(s);
    NameList(s3)
  }

  /** `Valve::from_str`: `finish` does not demand the end of the input, so
      whatever follows the valve is ignored. */
  function ValveFromStr(s: String): (r: Result<Valve, ValveError>)
    ensures r.Ok? <==> ParseValve(s).Ok?
    ensures r.Ok? ==> r.value == ParseValve(s).value.value
    ensures r.Err? ==> r.error == ParseValve(s).error
  {
    var p :- ParseValve(s);
    Ok(p.value)
  }

  // ---------------------------------------------------------------- writing

  /** Names after the first, each behind ", ", then `rest`. */
  function MoreText(names: seq<Name>, rest: String): String
  {
    if names == [] then rest else Separator + (names[0] + MoreText(names[1..], rest))
  }

  /** Names separated by ", ", then `rest`. */
  function NamesText(names: seq<Name>, rest: String): String
    requires |names| >= 1
  {
    names[0] + MoreText(names[1..], rest)
  }

  /** How the puzzle input writes a valve, in either phrasing, followed by
      `rest`. */
  function ValveText(name: Name, flow: nat, connections: seq<Name>, plural: bool, rest: String): String
    requires |connections| >= 1
  {
    "Valve " + (name + (" has flow rate=" + (NatToDec(flow) + ((if plural then Plural else Singular) + NamesText(connections, rest)))))
  }

  /** Text that cannot continue a name list. */
  predicate Ends(rest: String)
  {
    rest == [] || (rest[0] != ',' && !IsAsciiAlpha(rest[0]))
  }

  /** A name followed by a non-letter is what `alpha1` reads. */
  lemma Alpha1OfName(name: Name, tail: String)
    requires IsName(name)
    requires tail == [] || !IsAsciiAlpha(tail[0])
    ensures Alpha1(name + tail) == Ok(Parsed(name, tail))
  {
    AlphaRunOfName(name, tail);
    assert (name + tail)[..|name|] == name && (name + tail)[|name|..] == tail;
  }

  /** No separator at the front of text that ends a list. */
  lemma NoSeparator(rest: String)
    requires Ends(rest)
    ensures !StartsWith(rest, Separator)
  {
    if |rest| >= 2 {
      assert rest[..2][0] == rest[0];
    }
  }

  /** What follows a name in a written list is not a letter. */
  lemma MoreTextStarts(names: seq<Name>, rest: String)
    requires Ends(rest)
    ensures var t := MoreText(names, rest); t == [] || !IsAsciiAlpha(t[0])
  {
  }

  /** A separator and a name are taken together. */
  lemma MoreNamesStep(s: String, acc: seq<Name>, name: Name, tail: String)
    requires IsName(name) && (tail == [] || !IsAsciiAlpha(tail[0]))
    requires s == Separator + (name + tail)
    ensures MoreNames(s, acc) == MoreNames(tail, acc + [name])
  {
    StripPrefixOfConcat(Separator, name + tail);
    Alpha1OfName(name, tail);
  }

  /** The list stops where no separator follows. */
  lemma MoreNamesStop(rest: String, acc: seq<Name>)
    requires Ends(rest)
    ensures MoreNames(rest, acc) == Parsed(acc, rest)
  {
    NoSeparator(rest);
  }

  /** After the first name, the rest of a written list is read back whole. */
  lemma {:induction false} MoreNamesOfText(names: seq<Name>, acc: seq<Name>, rest: String)
    requires forall i | 0 <= i < |names| :: IsName(names[i])
    requires Ends(rest)
    ensures MoreNames(MoreText(names, rest), acc) == Parsed(acc + names, rest)
    decreases |names|
  {
    if names == [] {
      assert acc + names == acc;
      MoreNamesStop(rest, acc);
    } else {
      assert acc + [names[0]] + names[1..] == acc + names;
      MoreTextStarts(names[1..], rest);
      MoreNamesStep(MoreText(names, rest), acc, names[0], MoreText(names[1..], rest));
      MoreNamesOfText(names[1..], acc + [names[0]], rest);
    }
  }

  /** The first name of a list is read whole. */
  lemma NameListStep(s: String, name: Name, tail: String)
    requires IsName(name) && (tail == [] || !IsAsciiAlpha(tail[0]))
    requires s == name + tail
    ensures NameList(s) == Ok(MoreNames(tail, [name]))
  {
    Alpha1OfName(name, tail);
  }

  /** A written list of names is read back whole. */
  lemma NameListOfText(names: seq<Name>, rest: String)
    requires |names| >= 1 && forall i | 0 <= i < |names| :: IsName(names[i])
    requires Ends(rest)
    ensures NameList(NamesText(names, rest)) == Ok(Parsed(names, rest))
  {
    assert [names[0]] + names[1..] == names;
    MoreTextStarts(names[1..], rest);
    NameListStep(NamesText(names, rest), names[0], MoreText(names[1..], rest));
    MoreNamesOfText(names[1..], [names[0]], rest);
  }

  /** Each phrasing, singular or plural, is accepted whatever the number of
      names that follow. */
  lemma LeadOfText(plural: bool, rest: String)
    ensures Lead((if plural then Plural else Singular) + rest) == Ok(rest)
  {
    StripPrefixOfConcat(if plural then Plural else Singular, rest);
    if plural {
      assert (Plural + rest)[..|Singular|] != Singular by {
        assert (Plural + rest)[8] != Singular[8];
      }
    }
  }

  /** Either phrasing followed by a written list reads back the list. */
  lemma TunnelsOfText(connections: seq<Name>, plural: bool, rest: String)
    requires |connections| >= 1 && forall i | 0 <= i < |connections| :: IsName(connections[i])
    requires Ends(rest)
    ensures Tunnels((if plural then Plural else Singular) + NamesText(connections, rest)) == Ok(Parsed(connections, rest))
  {
    LeadOfText(plural, NamesText(connections, rest));
    NameListOfText(connections, rest);
  }

  /** Round trip: a written valve line parses back to the valve `Valve::new`
      builds from the same parts, in either phrasing, and whatever follows
      the last name is left over. */
  lemma ParseValveText(name: Name, flow: nat, connections: seq<Name>, plural: bool, rest: String)
    requires IsName(name) && flow <= U32_MAX
    requires |connections| >= 1 && forall i | 0 <= i < |connections| :: IsName(connections[i])
    requires Ends(rest)
    ensures ParseValve(ValveText(name, flow, connections, plural, rest))
      == Ok(Parsed(NewValve(name, flow, connections), rest))
  {
    var s3 := (if plural then Plural else Singular) + NamesText(connections, rest);
    var s2 := NatToDec(flow) + s3;
    var s1r := " has flow rate=" + s2;
    var s1 := name + s1r;
    StripPrefixOfConcat("Valve ", s1);
    Alpha1OfName(name, s1r);
    StripPrefixOfConcat(" has flow rate=", s2);
    assert s3[0] == ';';
    NomUnsignedOfNumeral(flow, U32_MAX, s3);
    TunnelsOfText(connections, plural, rest);
  }

  /** `Valve::from_str` on a written line gives back its parts. */
  lemma ValveFromText(name: Name, flow: nat, connections: seq<Name>, plural: bool)
    requires IsName(name) && flow <= U32_MAX
    requires |connections| >= 1 && forall i | 0 <= i < |connections| :: IsName(connections[i])
    ensures var v := ValveFromStr(ValveText(name, flow, connections, plural, ""));
      v.Ok? && v.value.name == name && v.value.flow == FlowAsI32(flow)
      && forall c :: Connects(v.value, c) <==> c in connections
  {
    ParseValveText(name, flow, connections, plural, "");
  }

  /** A written line with three connections connects to exactly those. */
  lemma ThreeConnections(name: Name, flow: nat, cs: seq<Name>, a: Name, b: Name, c: Name, s: String)
    requires IsName(name) && flow <= U32_MAX && IsName(a) && IsName(b) && IsName(c)
    requires cs == [a, b, c] && s == ValveText(name, flow, cs, true, "")
    ensures ValveFromStr(s).Ok? && ValveFromStr(s).value.name == name && ValveFromStr(s).value.flow == FlowAsI32(flow)
    ensures Connects(ValveFromStr(s).value, a) && Connects(ValveFromStr(s).value, b)
    ensures Connects(ValveFromStr(s).value, c)
    ensures forall x | Connects(ValveFromStr(s).value, x) :: x == a || x == b || x == c
  {
    assert cs[0] == a && cs[1] == b && cs[2] == c;
    ValveFromText(name, flow, cs, true);
  }

  /** The line of the `valve_from_str` test (valve.rs:84-93), written
      `ValveText("A", 42, ["B", "C", "D"], true, "")`: name "A", flow 42,
      and connections to "B", "C" and "D" and to no other valve. */
  lemma ValveFromStrExample(name: Name, flow: nat, cs: seq<Name>, s: String)
    requires name == "A" && flow == 42 && cs == ["B", "C", "D"]
    requires s == ValveText(name, flow, cs, true, "")
    ensures ValveFromStr(s).Ok? && ValveFromStr(s).value.name == "A" && ValveFromStr(s).value.flow == 42
    ensures Connects(ValveFromStr(s).value, "B") && Connects(ValveFromStr(s).value, "C")
    ensures Connects(ValveFromStr(s).value, "D")
    ensures forall c | Connects(ValveFromStr(s).value, c) :: c == "B" || c == "C" || c == "D"
  {
    ExampleNames(name, cs);
    ThreeConnections(name, flow, cs, cs[0], cs[1], cs[2], s);
  }

  /** The names of the `valve_from_str` test are names. */
  lemma ExampleNames(name: Name, cs: seq<Name>)
    requires name == "A" && cs == ["B", "C", "D"]
    ensures IsName(name) && |cs| == 3 && IsName(cs[0]) && IsName(cs[1]) && IsName(cs[2])
    ensures cs[0] == "B" && cs[1] == "C" && cs[2] == "D"
  {
  }
}
