/** Day 19, blueprints: which robots a stock of materials affords, what a
    robot costs, how many robots of a kind are ever worth having, and the
    nom parser for the puzzle's blueprint descriptions. */
module Day19Blueprint {
  import opened Wrappers
  import opened Text

  /** `Material` is a `usize` used as an index into four-element arrays. */
  type Material = m: nat | m < 4

  const ORE: Material := 0
  const CLAY: Material := 1
  const OBSIDIAN: Material := 2
  const GEODE: Material := 3

  /** An amount per material, indexed by material (`[Material; 4]`). */
  type Stock = s: seq<nat> | |s| == 4 witness [0, 0, 0, 0]

  datatype Robot = Robot(costs: Stock, mining: Material)

  /** `Robot::new`: a robot that costs nothing. */
  function NewRobot(mining: Material): Robot
  {
    Robot([0, 0, 0, 0], mining)
  }

  datatype BlueprintData = BlueprintData(id: nat, robots: seq<Robot>)

  /** Four robots, the one at position `m` mining material `m`: the parser
      starts from `Robot::new` for each material and only ever stores a
      robot at the position of what it mines. */
  predicate Indexed(b: BlueprintData)
  {
    |b.robots| == 4 && forall m: Material :: b.robots[m].mining == m
  }

  type Blueprint = b: BlueprintData | Indexed(b)
    witness BlueprintData(0, [NewRobot(ORE), NewRobot(CLAY), NewRobot(OBSIDIAN), NewRobot(GEODE)])

  // ---------------------------------------------------------------- queries

  /** Every cost is covered by the stock of its material. */
  predicate Affords(costs: Stock, materials: Stock)
  {
    forall m: Material :: costs[m] <= materials[m]
  }

  /** `affordable_robots`: the materials mined by the robots whose every
      cost the stock covers. */
  function AffordableRobots(b: Blueprint, materials: Stock): (r: set<Material>)
    ensures forall m: Material :: m in r <==> Affords(b.robots[m].costs, materials)
  {
    set i: Material | 0 <= i < 4 && Affords(b.robots[i].costs, materials) :: b.robots[i].mining
  }

  /** `cost`: how much of `material` the robot mining `robot` costs. */
  function Cost(b: Blueprint, robot: Material, material: Material): nat
  {
    b.robots[robot].costs[material]
  }

  /** The largest cost in `material` among `robots`, 0 for none
      (`max().unwrap_or_default()`). */
  function MaxCost(robots: seq<Robot>, material: Material): (r: nat)
    ensures forall i | 0 <= i < |robots| :: robots[i].costs[material] <= r
    ensures robots == [] ==> r == 0
    ensures robots != [] ==> exists i | 0 <= i < |robots| :: robots[i].costs[material] == r
  {
    if robots == [] then 0
    else
      var rest := MaxCost(robots[1..], material);
      var c := robots[0].costs[material];
      if c <= rest then
        assert forall i | 1 <= i < |robots| :: robots[i] == robots[1..][i - 1];
        rest
      else
        assert forall i | 1 <= i < |robots| :: robots[i] == robots[1..][i - 1];
        c
  }

  /** `max_robots_needed_for`: no robot costs more of `material` than this
      in one go, and one of them costs exactly this much. */
  function MaxRobotsNeededFor(b: Blueprint, material: Material): (r: nat)
    ensures forall robot: Material :: Cost(b, robot, material) <= r
    ensures exists robot: Material :: Cost(b, robot, material) == r
  {
    var r := MaxCost(b.robots, material);
    assert exists i | 0 <= i < 4 :: b.robots[i].costs[material] == r;
    var i :| 0 <= i < 4 && b.robots[i].costs[material] == r;
    assert Cost(b, i, material) == r;
    r
  }

  // ---------------------------------------------------------------- parsing

  /** `char::is_alphabetic`, for the ASCII letters the descriptions use. */
  predicate IsAlphabetic(c: char)
  {
    IsAsciiAlpha(c)
  }

  function AlphaLength(s: String): (k: nat)
    ensures k <= |s| && (k < |s| ==> !IsAlphabetic(s[k]))
  {
    if s == [] || !IsAlphabetic(s[0]) then 0 else 1 + AlphaLength(s[1..])
  }

  /** nom's `take_while1(char::is_alphabetic)`. */
  function TakeAlphabetic1(s: String): (r: Option<Parsed<String>>)
    ensures r.Some? ==> s == r.value.value + r.value.rest && r.value.value != []
  {
    var k := AlphaLength(s);
    if k == 0 then None
    else
      assert s == s[..k] + s[k..];
      Some(Parsed(s[..k], s[k..]))
  }

  const MaterialNames: seq<String> := ["ore", "clay", "obsidian", "geode"]

  /** `parse_material`: an alphabetic word that must name a material. */
  function ParseMaterial(s: String): (r: Option<Parsed<Material>>)
    ensures r.Some? <==> TakeAlphabetic1(s).Some? && TakeAlphabetic1(s).value.value in MaterialNames
    ensures r.Some? ==>
      && MaterialNames[r.value.value] == TakeAlphabetic1(s).value.value
      && r.value.rest == TakeAlphabetic1(s).value.rest
  {
    var word :- TakeAlphabetic1(s);
    if word.value == "ore" then Some(Parsed(ORE, word.rest))
    else if word.value == "clay" then Some(Parsed(CLAY, word.rest))
    else if word.value == "obsidian" then Some(Parsed(OBSIDIAN, word.rest))
    else if word.value == "geode" then Some(Parsed(GEODE, word.rest))
    else None
  }

  /** `parse_cost`: a `u32` amount, blanks, and the material. */
  function ParseCost(s: String): (r: Option<Parsed<(Material, nat)>>)
    ensures r.Some? ==> r.value.value.1 <= U32_MAX && |r.value.rest| < |s|
  {
    var amount :- NomU32(s);
    var t :- Space1(amount.rest);
    var unit :- ParseMaterial(t);
    Some(Parsed((unit.value, amount.value), unit.rest))
  }

  /** `separated_list0(tag(" and "), parse_cost)`: the costs up to the first
      place where a separator and a cost do not both follow. Never fails. */
  function CostList(s: String): (r: Parsed<seq<(Material, nat)>>)
    ensures |r.rest| <= |s|
  {
    match ParseCost(s)
    case None => Parsed([], s)
    case Some(first) =>
      var more := MoreCosts(first.rest);
      Parsed([first.value] + more.value, more.rest)
  }

  function MoreCosts(s: String): (r: Parsed<seq<(Material, nat)>>)
    ensures |r.rest| <= |s|
    decreases |s|
  {
    match StripPrefix(s, " and ")
    case None => Parsed([], s)
    case Some(t) =>
      match ParseCost(t)
      case None => Parsed([], s)
      case Some(c) =>
        var more := MoreCosts(c.rest);
        Parsed([c.value] + more.value, more.rest)
  }

  /** The cost array `parse_costs` fills from its list: every material not
      listed costs 0, a listed one its last amount. */
  function CostTable(list: seq<(Material, nat)>): (costs: Stock)
    ensures forall m: Material | forall i | 0 <= i < |list| :: list[i].0 != m :: costs[m] == 0
    ensures forall i | 0 <= i < |list| && (forall j | i < j < |list| :: list[j].0 != list[i].0) ::
      costs[list[i].0] == list[i].1
  {
    if list == [] then [0, 0, 0, 0]
    else
      var init := list[..|list| - 1];
      var last := list[|list| - 1];
      var costs := CostTable(init);
      assert forall i | 0 <= i < |init| :: init[i] == list[i];
      costs[last.0 := last.1]
  }

  /** What `parse_costs` yields: the cost array and the rest of the input. */
  function Costs(s: String): (r: Parsed<Stock>)
  {
    var list := CostList(s);
    Parsed(CostTable(list.value), list.rest)
  }

  /** `parse_costs`: the list, then the loop that fills the cost array. */
  method ParseCosts(s: String) returns (r: Parsed<Stock>)
    ensures r == Costs(s)
  {
    var list := CostList(s);
    var costs: Stock := [0, 0, 0, 0];
    for i := 0 to |list.value|
      invariant costs == CostTable(list.value[..i])
    {
      var (unit, amount) := list.value[i];
      assert list.value[..i + 1][..i] == list.value[..i];
      costs := costs[unit := amount];
    }
    assert list.value[..|list.value|] == list.value;
    return Parsed(costs, list.rest);
  }

  /** `parse_robot`: "Each <material> robot costs <costs>." */
  function ParseRobot(s: String): (r: Option<Parsed<Robot>>)
    ensures r.Some? ==> |r.value.rest| < |s|
  {
    var t :- StripPrefix(s, "Each ");
    var mining :- ParseMaterial(t);
    var u :- StripPrefix(mining.rest, " robot costs ");
    var costs := Costs(u);
    var v :- StripPrefix(costs.rest, ".");
    Some(Parsed(Robot(costs.value, mining.value), v))
  }

  /** `whitespace`: an optional line feed, then at least one whitespace
      character. A line feed directly before the next word therefore does
      not count as whitespace. */
  function Whitespace(s: String): (r: Option<String>)
    ensures r.Some? ==> |r.value| < |s|
  {
    var t := if s != [] && s[0] == '\n' then s[1..] else s;
    MultiSpace1(t)
  }

  /** `separated_list0(whitespace, parse_robot)`. Never fails. */
  function RobotList(s: String): (r: Parsed<seq<Robot>>)
  {
    match ParseRobot(s)
    case None => Parsed([], s)
    case Some(first) =>
      var more := MoreRobots(first.rest);
      Parsed([first.value] + more.value, more.rest)
  }

  function MoreRobots(s: String): (r: Parsed<seq<Robot>>)
    decreases |s|
  {
    match Whitespace(s)
    case None => Parsed([], s)
    case Some(t) =>
      match ParseRobot(t)
      case None => Parsed([], s)
      case Some(robot) =>
        var more := MoreRobots(robot.rest);
        Parsed([robot.value] + more.value, more.rest)
  }

  function DefaultRobots(): seq<Robot>
  {
    [NewRobot(ORE), NewRobot(CLAY), NewRobot(OBSIDIAN), NewRobot(GEODE)]
  }

  /** The robot array `parse_blueprint` fills from its list: a material no
      parsed robot mines keeps `Robot::new`, otherwise the last robot
      parsed for it wins. */
  function RobotTable(rs: seq<Robot>): (robots: seq<Robot>)
    ensures |robots| == 4 && forall m: Material :: robots[m].mining == m
    ensures forall m: Material | forall i | 0 <= i < |rs| :: rs[i].mining != m :: robots[m] == NewRobot(m)
    ensures forall i | 0 <= i < |rs| && (forall j | i < j < |rs| :: rs[j].mining != rs[i].mining) ::
      robots[rs[i].mining] == rs[i]
  {
    if rs == [] then DefaultRobots()
    else
      var init := rs[..|rs| - 1];
      var last := rs[|rs| - 1];
      var robots := RobotTable(init);
      assert forall i | 0 <= i < |init| :: init[i] == rs[i];
      robots[last.mining := last]
  }

  /** What `parse_blueprint` yields. */
  function BlueprintOf(s: String): Option<Parsed<Blueprint>>
  {
    var t :- StripPrefix(s, "Blueprint ");
    var id :- NomU32(t);
    var u :- StripPrefix(id.rest, ":");
    var v :- Whitespace(u);
    var rs := RobotList(v);
    Some(Parsed(BlueprintData(id.value, RobotTable(rs.value)), rs.rest))
  }

  /** `parse_blueprint`: the header, then the list, then the loop that
      stores each robot at the position of what it mines. */
  method ParseBlueprint(s: String) returns (r: Option<Parsed<Blueprint>>)
    ensures r == BlueprintOf(s)
  {
    var t := StripPrefix(s, "Blueprint ");
    if t.None? { return None; }
    var id := NomU32(t.value);
    if id.None? { return None; }
    var u := StripPrefix(id.value.rest, ":");
    if u.None? { return None; }
    var v := Whitespace(u.value);
    if v.None? { return None; }
    var rs := RobotList(v.value);
    var robots := FillRobots(rs.value);
    return Some(Parsed(BlueprintData(id.value.value, robots), rs.rest));
  }

  /** The loop of `parse_blueprint`. */
  method FillRobots(rs: seq<Robot>) returns (robots: seq<Robot>)
    ensures robots == RobotTable(rs)
  {
    robots := DefaultRobots();
    for i := 0 to |rs|
      invariant robots == RobotTable(rs[..i])
    {
      var robot := rs[i];
      assert rs[..i + 1][..i] == rs[..i];
      robots := robots[robot.mining := robot];
    }
    assert rs[..|rs|] == rs;
  }

  /** `Blueprint::from_str`: the parsed blueprint, whatever follows it; the
      error message is not modelled. */
  method FromStr(s: String) returns (r: Option<Blueprint>)
    ensures r.Some? <==> BlueprintOf(s).Some?
    ensures r.Some? ==> r.value == BlueprintOf(s).value.value
  {
    var p := ParseBlueprint(s);
    if p.None? { return None; }
    return Some(p.value.value);
  }

  // ---------------------------------------------------------------- the text format

  /** One robot's line of a description: what it mines and its costs in
      the order written. */
  datatype Recipe = Recipe(mining: Material, costs: seq<(Material, nat)>)

  function CostText(c: (Material, nat)): String
  {
    NatToDec(c.1) + " " + MaterialNames[c.0]
  }

  function CostsText(cs: seq<(Material, nat)>): String
  {
    if cs == [] then "" else CostText(cs[0]) + AndCosts(cs[1..])
  }

  function AndCosts(cs: seq<(Material, nat)>): String
  {
    if cs == [] then "" else " and " + CostText(cs[0]) + AndCosts(cs[1..])
  }

  function RecipeText(r: Recipe): String
  {
    "Each " + MaterialNames[r.mining] + " robot costs " + CostsText(r.costs) + "."
  }

  function RecipesText(rs: seq<Recipe>): String
  {
    if rs == [] then "" else RecipeText(rs[0]) + SpacedRecipes(rs[1..])
  }

  function SpacedRecipes(rs: seq<Recipe>): String
  {
    if rs == [] then "" else " " + (RecipeText(rs[0]) + SpacedRecipes(rs[1..]))
  }

  /** A blueprint's description on one line. */
  function BlueprintText(id: nat, rs: seq<Recipe>): String
  {
    "Blueprint " + (NatToDec(id) + (":" + (" " + RecipesText(rs))))
  }

  function RobotOf(r: Recipe): Robot
  {
    Robot(CostTable(r.costs), r.mining)
  }

  function RobotsOf(rs: seq<Recipe>): (robots: seq<Robot>)
    ensures |robots| == |rs|
  {
    if rs == [] then [] else [RobotOf(rs[0])] + RobotsOf(rs[1..])
  }

  predicate SmallCosts(cs: seq<(Material, nat)>)
  {
    forall i | 0 <= i < |cs| :: cs[i].1 <= U32_MAX
  }

  predicate SmallRecipes(rs: seq<Recipe>)
  {
    forall i | 0 <= i < |rs| :: SmallCosts(rs[i].costs)
  }

  /** Text after a description that the parser does not take for more of it. */
  predicate Ends(rest: String)
  {
    rest == [] || (!IsMultiSpace(rest[0]) && rest[0] != 'E')
  }

  lemma {:induction false} AlphaLengthOfWord(word: String, rest: String)
    requires forall i | 0 <= i < |word| :: IsAlphabetic(word[i])
    requires rest == [] || !IsAlphabetic(rest[0])
    ensures AlphaLength(word + rest) == |word|
    decreases |word|
  {
    if word != [] {
      assert (word + rest)[1..] == word[1..] + rest;
      AlphaLengthOfWord(word[1..], rest);
    }
  }

  lemma MaterialOfName(m: Material, rest: String)
    requires rest == [] || !IsAlphabetic(rest[0])
    ensures ParseMaterial(MaterialNames[m] + rest) == Some(Parsed(m, rest))
  {
    var name := MaterialNames[m];
    AlphaLengthOfWord(name, rest);
    assert (name + rest)[..|name|] == name;
    assert (name + rest)[|name|..] == rest;
  }

  lemma CostOfText(c: (Material, nat), rest: String)
    requires c.1 <= U32_MAX
    requires rest == [] || !IsAlphabetic(rest[0])
    ensures ParseCost(CostText(c) + rest) == Some(Parsed(c, rest))
  {
    var name := MaterialNames[c.0];
    assert CostText(c) + rest == NatToDec(c.1) + (" " + (name + rest));
    NomUnsignedOfNumeral(c.1, U32_MAX, " " + (name + rest));
    Space1OfBlank(name + rest);
    MaterialOfName(c.0, rest);
  }

  /** After a cost, the text of more costs (if any) and then `rest`
      starts with a blank or a '.'. */
  lemma AfterCost(cs: seq<(Material, nat)>, rest: String)
    requires rest != [] && rest[0] == '.'
    ensures var after := AndCosts(cs) + rest; after != [] && (after[0] == ' ' || after[0] == '.')
  {
    if cs != [] {
      assert (AndCosts(cs) + rest)[0] == AndCosts(cs)[0];
    }
  }

  lemma SmallTail(cs: seq<(Material, nat)>)
    requires SmallCosts(cs) && cs != []
    ensures cs[0].1 <= U32_MAX && SmallCosts(cs[1..])
  {
    assert forall i | 0 <= i < |cs[1..]| :: cs[1..][i] == cs[i + 1];
  }

  lemma MoreCostsStep(s: String, t: String, c: Parsed<(Material, nat)>)
    requires StripPrefix(s, " and ") == Some(t) && ParseCost(t) == Some(c)
    ensures MoreCosts(s) == Parsed([c.value] + MoreCosts(c.rest).value, MoreCosts(c.rest).rest)
  {
  }

  lemma CostListStep(s: String, c: Parsed<(Material, nat)>)
    requires ParseCost(s) == Some(c)
    ensures CostList(s) == Parsed([c.value] + MoreCosts(c.rest).value, MoreCosts(c.rest).rest)
  {
  }

  lemma {:induction false} MoreCostsOfText(cs: seq<(Material, nat)>, rest: String)
    requires SmallCosts(cs) && rest != [] && rest[0] == '.'
    ensures MoreCosts(AndCosts(cs) + rest) == Parsed(cs, rest)
    decreases |cs|
  {
    var s := AndCosts(cs) + rest;
    if cs == [] {
      assert s == rest;
      assert StripPrefix(s, " and ") == None by { assert s[0] != ' '; }
    } else {
      assert [cs[0]] + cs[1..] == cs;
      SmallTail(cs);
      var after := AndCosts(cs[1..]) + rest;
      var tail := CostText(cs[0]) + after;
      Assoc(" and " + CostText(cs[0]), AndCosts(cs[1..]), rest);
      Assoc(" and ", CostText(cs[0]), after);
      assert s == " and " + tail;
      assert MoreCosts(s) == Parsed(cs, rest) by {
        StripPrefixOfConcat(" and ", tail);
        AfterCost(cs[1..], rest);
        CostOfText(cs[0], after);
        MoreCostsOfText(cs[1..], rest);
        MoreCostsStep(s, tail, Parsed(cs[0], after));
      }
    }
  }

  lemma CostListOfText(cs: seq<(Material, nat)>, rest: String)
    requires SmallCosts(cs) && rest != [] && rest[0] == '.'
    ensures CostList(CostsText(cs) + rest) == Parsed(cs, rest)
  {
    var s := CostsText(cs) + rest;
    if cs == [] {
      assert s == rest;
      assert LeadingDigits(s) == 0;
      assert ParseCost(s) == None;
    } else {
      assert [cs[0]] + cs[1..] == cs;
      SmallTail(cs);
      var after := AndCosts(cs[1..]) + rest;
      Assoc(CostText(cs[0]), AndCosts(cs[1..]), rest);
      assert s == CostText(cs[0]) + after;
      assert CostList(s) == Parsed(cs, rest) by {
        AfterCost(cs[1..], rest);
        CostOfText(cs[0], after);
        MoreCostsOfText(cs[1..], rest);
        CostListStep(s, Parsed(cs[0], after));
      }
    }
  }

  lemma RobotOfText(r: Recipe, rest: String)
    requires SmallCosts(r.costs)
    ensures ParseRobot(RecipeText(r) + rest) == Some(Parsed(RobotOf(r), rest))
  {
    var name := MaterialNames[r.mining];
    var costs := CostsText(r.costs) + ("." + rest);
    var s := RecipeText(r) + rest;
    assert s == "Each " + (name + (" robot costs " + costs));
    StripPrefixOfConcat("Each ", name + (" robot costs " + costs));
    MaterialOfName(r.mining, " robot costs " + costs);
    StripPrefixOfConcat(" robot costs ", costs);
    assert Costs(costs) == Parsed(CostTable(r.costs), "." + rest) by {
      CostListOfText(r.costs, "." + rest);
    }
    StripPrefixOfConcat(".", rest);
  }

  lemma SpaceBeforeRecipe(r: Recipe, rest: String)
    ensures Whitespace(" " + (RecipeText(r) + rest)) == Some(RecipeText(r) + rest)
  {
    var t := RecipeText(r) + rest;
    assert t[0] == 'E';
    MultiSpaceBefore(" ", t);
  }

  lemma MoreRobotsStep(s: String, t: String, robot: Parsed<Robot>)
    requires Whitespace(s) == Some(t) && ParseRobot(t) == Some(robot)
    ensures MoreRobots(s) == Parsed([robot.value] + MoreRobots(robot.rest).value, MoreRobots(robot.rest).rest)
  {
  }

  lemma RobotListStep(s: String, robot: Parsed<Robot>)
    requires ParseRobot(s) == Some(robot)
    ensures RobotList(s) == Parsed([robot.value] + MoreRobots(robot.rest).value, MoreRobots(robot.rest).rest)
  {
  }

  lemma SmallRecipesTail(rs: seq<Recipe>)
    requires SmallRecipes(rs) && rs != []
    ensures SmallCosts(rs[0].costs) && SmallRecipes(rs[1..])
  {
    assert forall i | 0 <= i < |rs[1..]| :: rs[1..][i] == rs[i + 1];
  }

  lemma MoreRobotsCons(r: Recipe, after: String, more: Parsed<seq<Robot>>)
    requires SmallCosts(r.costs) && MoreRobots(after) == more
    ensures MoreRobots(" " + (RecipeText(r) + after)) == Parsed([RobotOf(r)] + more.value, more.rest)
  {
    var t := RecipeText(r) + after;
    SpaceBeforeRecipe(r, after);
    RobotOfText(r, after);
    MoreRobotsStep(" " + t, t, Parsed(RobotOf(r), after));
  }

  lemma {:induction false} MoreRobotsOfText(rs: seq<Recipe>, rest: String)
    requires SmallRecipes(rs) && Ends(rest)
    ensures MoreRobots(SpacedRecipes(rs) + rest) == Parsed(RobotsOf(rs), rest)
    decreases |rs|
  {
    var s := SpacedRecipes(rs) + rest;
    if rs == [] {
      assert s == rest;
      assert Whitespace(s) == None;
    } else {
      SmallRecipesTail(rs);
      var after := SpacedRecipes(rs[1..]) + rest;
      MoreRobotsOfText(rs[1..], rest);
      Assoc(" ", RecipeText(rs[0]) + SpacedRecipes(rs[1..]), rest);
      Assoc(RecipeText(rs[0]), SpacedRecipes(rs[1..]), rest);
      MoreRobotsCons(rs[0], after, MoreRobots(after));
    }
  }

  lemma RobotListCons(r: Recipe, after: String, more: Parsed<seq<Robot>>)
    requires SmallCosts(r.costs) && MoreRobots(after) == more
    ensures RobotList(RecipeText(r) + after) == Parsed([RobotOf(r)] + more.value, more.rest)
  {
    RobotOfText(r, after);
    RobotListStep(RecipeText(r) + after, Parsed(RobotOf(r), after));
  }

  lemma RobotListOfText(rs: seq<Recipe>, rest: String)
    requires SmallRecipes(rs) && Ends(rest)
    ensures RobotList(RecipesText(rs) + rest) == Parsed(RobotsOf(rs), rest)
  {
    var s := RecipesText(rs) + rest;
    if rs == [] {
      assert s == rest;
      assert !StartsWith(s, "Each ");
      assert ParseRobot(s) == None;
    } else {
      SmallRecipesTail(rs);
      var after := SpacedRecipes(rs[1..]) + rest;
      MoreRobotsOfText(rs[1..], rest);
      Assoc(RecipeText(rs[0]), SpacedRecipes(rs[1..]), rest);
      RobotListCons(rs[0], after, MoreRobots(after));
    }
  }

  /** A description parses to the blueprint it describes: robots in the
      order written, later lines for the same material overriding earlier
      ones, and unmentioned robots and costs free. */
  lemma BlueprintOfText(id: nat, rs: seq<Recipe>, rest: String)
    requires id <= U32_MAX && SmallRecipes(rs) && Ends(rest)
    ensures BlueprintOf(BlueprintText(id, rs) + rest)
      == Some(Parsed(BlueprintData(id, RobotTable(RobotsOf(rs))), rest))
  {
    var text := RecipesText(rs);
    var body := text + rest;
    Assoc("Blueprint ", NatToDec(id) + (":" + (" " + text)), rest);
    Assoc(NatToDec(id), ":" + (" " + text), rest);
    Assoc(":", " " + text, rest);
    Assoc(" ", text, rest);
    assert BlueprintText(id, rs) + rest == "Blueprint " + (NatToDec(id) + (":" + (" " + body)));
    BodyAfterSpace(rs, rest);
    RobotListOfText(rs, rest);
    HeaderThen(id, body);
  }

  /** The header "Blueprint <id>: " parses, and what follows it is the robot list. */
  lemma HeaderThen(id: nat, body: String)
    requires id <= U32_MAX && Whitespace(" " + body) == Some(body)
    ensures BlueprintOf("Blueprint " + (NatToDec(id) + (":" + (" " + body))))
      == Some(Parsed(BlueprintData(id, RobotTable(RobotList(body).value)), RobotList(body).rest))
  {
    var afterId := ":" + (" " + body);
    StripPrefixOfConcat("Blueprint ", NatToDec(id) + afterId);
    NomUnsignedOfNumeral(id, U32_MAX, afterId);
    StripPrefixOfConcat(":", " " + body);
  }

  lemma BodyAfterSpace(rs: seq<Recipe>, rest: String)
    requires Ends(rest)
    ensures Whitespace(" " + (RecipesText(rs) + rest)) == Some(RecipesText(rs) + rest)
  {
    var text := RecipesText(rs);
    var body := text + rest;
    assert body == [] || !IsMultiSpace(body[0]) by {
      if rs != [] {
        RecipesStart(rs);
        assert body[0] == text[0];
      } else {
        assert body == rest;
      }
    }
    MultiSpaceBefore(" ", body);
  }

  lemma RecipesStart(rs: seq<Recipe>)
    requires rs != []
    ensures |RecipesText(rs)| > 0 && RecipesText(rs)[0] == 'E'
  {
    assert RecipesText(rs)[0] == RecipeText(rs[0])[0];
  }

  /** The description listing, for each robot in material order, its four
      costs in material order. */
  function FullCosts(costs: Stock): seq<(Material, nat)>
  {
    [(ORE, costs[ORE]), (CLAY, costs[CLAY]), (OBSIDIAN, costs[OBSIDIAN]), (GEODE, costs[GEODE])]
  }

  function Recipes(b: Blueprint): (rs: seq<Recipe>)
    ensures |rs| == 4 && forall m: Material :: rs[m] == Recipe(m, FullCosts(b.robots[m].costs))
  {
    [Recipe(ORE, FullCosts(b.robots[ORE].costs)), Recipe(CLAY, FullCosts(b.robots[CLAY].costs)),
     Recipe(OBSIDIAN, FullCosts(b.robots[OBSIDIAN].costs)), Recipe(GEODE, FullCosts(b.robots[GEODE].costs))]
  }

  function Describe(b: Blueprint): String
  {
    BlueprintText(b.id, Recipes(b))
  }

  predicate Small(b: Blueprint)
  {
    b.id <= U32_MAX && forall m: Material, n: Material :: b.robots[m].costs[n] <= U32_MAX
  }

  /** Every blueprint whose numbers fit in a `u32` parses back from its
      description. */
  lemma ParseDescribe(b: Blueprint)
    requires Small(b)
    ensures BlueprintOf(Describe(b)) == Some(Parsed(b, ""))
  {
    var rs := Recipes(b);
    assert Describe(b) + "" == Describe(b);
    RecipesOf(b);
    BlueprintOfText(b.id, rs, "");
    FullRobotTable(b.robots);
  }

  lemma RecipesOf(b: Blueprint)
    requires Small(b)
    ensures SmallRecipes(Recipes(b)) && RobotsOf(Recipes(b)) == b.robots
  {
    var rs := Recipes(b);
    RobotsOfFour(rs);
    forall m: Material ensures SmallCosts(rs[m].costs) && RobotOf(rs[m]) == b.robots[m] {
      RecipeOf(b, m);
    }
  }

  lemma RecipeOf(b: Blueprint, m: Material)
    requires Small(b)
    ensures SmallCosts(Recipes(b)[m].costs) && RobotOf(Recipes(b)[m]) == b.robots[m]
  {
    var costs := b.robots[m].costs;
    assert Recipes(b)[m] == Recipe(m, FullCosts(costs));
    FullCostTable(costs);
    assert forall n: Material :: costs[n] <= U32_MAX;
  }

  lemma RobotsOfFour(rs: seq<Recipe>)
    requires |rs| == 4
    ensures RobotsOf(rs) == [RobotOf(rs[0]), RobotOf(rs[1]), RobotOf(rs[2]), RobotOf(rs[3])]
  {
    assert RobotsOf(rs[3..]) == [RobotOf(rs[3])] + RobotsOf(rs[4..]);
    assert RobotsOf(rs[2..]) == [RobotOf(rs[2])] + RobotsOf(rs[2..][1..]);
    assert rs[2..][1..] == rs[3..];
    assert RobotsOf(rs[1..]) == [RobotOf(rs[1])] + RobotsOf(rs[1..][1..]);
    assert rs[1..][1..] == rs[2..];
  }

  /** Listing every material once gives back the cost array. */
  lemma FullCostTable(costs: Stock)
    ensures CostTable(FullCosts(costs)) == costs
  {
    var list := FullCosts(costs);
    var table := CostTable(list);
    forall n: Material ensures table[n] == costs[n] {
      assert list[n] == (n, costs[n]);
      assert forall j | n < j < 4 :: list[j].0 != n;
    }
  }

  /** Listing every robot once, in material order, gives back the array. */
  lemma FullRobotTable(robots: seq<Robot>)
    requires |robots| == 4 && forall m: Material :: robots[m].mining == m
    ensures RobotTable(robots) == robots
  {
    var table := RobotTable(robots);
    forall m: Material ensures table[m] == robots[m] {
      assert forall j | m < j < 4 :: robots[j].mining != m;
    }
  }

  // ---------------------------------------------------------------- examples

  /** The blueprint of "Blueprint 0: Each ore robot costs <c> ore.". */
  function OneOreRobot(c: nat): Blueprint
  {
    BlueprintData(0, [Robot([c, 0, 0, 0], ORE), NewRobot(CLAY), NewRobot(OBSIDIAN), NewRobot(GEODE)])
  }

  /** Test `blueprint_from_str`, for any `u32` ore cost: the one robot
      listed gets its cost, the others stay free. */
  lemma OneOreRobotFromStr(c: nat)
    requires c <= U32_MAX
    ensures BlueprintOf("Blueprint 0: Each ore robot costs " + NatToDec(c) + " ore.")
      == Some(Parsed(OneOreRobot(c), ""))
  {
    var r := Recipe(ORE, [(ORE, c)]);
    OneOreRobotText(c);
    BlueprintOfText(0, [r], "");
    OneOreRobotTable(r);
  }

  lemma OneOreRobotTable(r: Recipe)
    requires r.mining == ORE && |r.costs| == 1 && r.costs[0].0 == ORE
    ensures RobotTable(RobotsOf([r])) == OneOreRobot(r.costs[0].1).robots
  {
    var c := r.costs[0].1;
    assert CostTable(r.costs) == [c, 0, 0, 0] by {
      assert r.costs[..0] == [];
    }
    assert RobotsOf([r]) == [RobotOf(r)];
    assert RobotTable([RobotOf(r)]) == DefaultRobots()[ORE := RobotOf(r)] by {
      assert [RobotOf(r)][..0] == [];
    }
  }

  lemma OneOreRobotText(c: nat)
    ensures BlueprintText(0, [Recipe(ORE, [(ORE, c)])]) + ""
      == "Blueprint 0: Each ore robot costs " + NatToDec(c) + " ore."
  {
    var n := NatToDec(c);
    var x := RecipesText([Recipe(ORE, [(ORE, c)])]);
    calc {
      BlueprintText(0, [Recipe(ORE, [(ORE, c)])]) + "";
      { ZeroText(); }
      "Blueprint " + ("0" + (":" + (" " + x)));
      { HeaderText(x); }
      "Blueprint 0: " + x;
      { OneOreRecipeText(c); }
      "Blueprint 0: " + ("Each ore robot costs " + n + " ore.");
      { Assoc("Blueprint 0: ", "Each ore robot costs " + n, " ore.");
        Assoc("Blueprint 0: ", "Each ore robot costs ", n); }
      "Blueprint 0: " + "Each ore robot costs " + n + " ore.";
      { JoinedHeader(); }
      "Blueprint 0: Each ore robot costs " + n + " ore.";
    }
  }

  lemma ZeroText()
    ensures NatToDec(0) == "0"
  {
  }

  lemma JoinedHeader()
    ensures "Blueprint 0: " + "Each ore robot costs " == "Blueprint 0: Each ore robot costs "
  {
  }

  lemma OneOreRecipeText(c: nat)
    ensures RecipesText([Recipe(ORE, [(ORE, c)])]) == "Each ore robot costs " + NatToDec(c) + " ore."
  {
    var n := NatToDec(c);
    var r := Recipe(ORE, [(ORE, c)]);
    assert RecipesText([r]) == RecipeText(r) + "";
    assert CostsText(r.costs) == n + " ore" by {
      assert CostsText(r.costs) == CostText((ORE, c)) + "";
    }
    var each := "Each " + MaterialNames[ORE] + " robot costs ";
    assert each == "Each ore robot costs ";
    Assoc(each, n + " ore", ".");
    Assoc(each + n, " ore", ".");
    Assoc(each, n, " ore");
  }

  lemma HeaderText(x: String)
    ensures "Blueprint " + ("0" + (":" + (" " + x))) == "Blueprint 0: " + x
  {
    Assoc(":", " ", x);
    Assoc("0", ": ", x);
    Assoc("Blueprint ", "0: ", x);
  }

  /** The first blueprint of the puzzle's example, with the costs its tests
      read back. */
  function SampleBlueprint(): Blueprint
  {
    BlueprintData(1, [Robot([4, 0, 0, 0], ORE), Robot([2, 0, 0, 0], CLAY),
                      Robot([3, 14, 0, 0], OBSIDIAN), Robot([2, 0, 7, 0], GEODE)])
  }

  /** The affordable set is settled by deciding each material. */
  lemma AffordableIs(b: Blueprint, materials: Stock, expected: set<Material>)
    requires forall m: Material :: m in expected <==> Affords(b.robots[m].costs, materials)
    ensures AffordableRobots(b, materials) == expected
  {
  }

  /** Test `blueprint_can_affort`, first case. */
  lemma SampleAffordsClay()
    ensures AffordableRobots(SampleBlueprint(), [3, 0, 0, 0]) == {CLAY}
  {
    var b := SampleBlueprint();
    assert b.robots[ORE].costs[ORE] > 3;
    assert b.robots[OBSIDIAN].costs[CLAY] > 0;
    assert b.robots[GEODE].costs[OBSIDIAN] > 0;
    AffordableIs(b, [3, 0, 0, 0], {CLAY});
  }

  /** Test `blueprint_can_affort`, second case. */
  lemma SampleAffordsOre()
    ensures AffordableRobots(SampleBlueprint(), [4, 0, 0, 0]) == {CLAY, ORE}
  {
    var b := SampleBlueprint();
    assert b.robots[OBSIDIAN].costs[CLAY] > 0;
    assert b.robots[GEODE].costs[OBSIDIAN] > 0;
    AffordableIs(b, [4, 0, 0, 0], {CLAY, ORE});
  }

  /** Test `blueprint_can_affort`, third case. */
  lemma SampleAffordsObsidian()
    ensures AffordableRobots(SampleBlueprint(), [4, 20, 0, 0]) == {CLAY, ORE, OBSIDIAN}
  {
    var b := SampleBlueprint();
    assert b.robots[GEODE].costs[OBSIDIAN] > 0;
    AffordableIs(b, [4, 20, 0, 0], {CLAY, ORE, OBSIDIAN});
  }

  /** Test `blueprint_can_affort`, fourth case. */
  lemma SampleAffordsGeode()
    ensures AffordableRobots(SampleBlueprint(), [2, 0, 10, 0]) == {CLAY, GEODE}
  {
    var b := SampleBlueprint();
    assert b.robots[ORE].costs[ORE] > 2;
    assert b.robots[OBSIDIAN].costs[ORE] > 2;
    AffordableIs(b, [2, 0, 10, 0], {CLAY, GEODE});
  }
}
