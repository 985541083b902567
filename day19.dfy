/** Day 19, the factory: a production state, the moves from one minute to
    the next (buy one robot or wait), the upper bound on the geodes still
    reachable that orders the search, and the search itself. */
module Day19 {
  import opened Wrappers
  import opened Text
  import opened Day19Blueprint
  import Day19Solver

  /** Minutes passed, the time limit, the stock and the robots per material. */
  datatype State = State(time: int, timeMax: int, materials: Stock, robots: Stock)

  function Remaining(s: State): int
  {
    s.timeMax - s.time
  }

  /** `max_geodes`: the geodes at the limit if no robot is bought any more. */
  function MaxGeodes(s: State): int
  {
    s.materials[GEODE] + Remaining(s) * s.robots[GEODE]
  }

  /** `max_geode_potential`: `t * (t - 1) / 2` for `t` minutes left, what a
      new geode robot in every remaining minute would add. Rust's `/`
      truncates; the product of two consecutive integers is never negative,
      so truncation and Dafny's division agree. */
  function MaxGeodePotential(s: State): (p: int)
    ensures 0 <= p && 2 * p == Remaining(s) * (Remaining(s) - 1)
  {
    var t := Remaining(s);
    ConsecutiveProduct(t);
    t * (t - 1) / 2
  }

  /** `t * (t - 1)` is even and not negative. */
  lemma ConsecutiveProduct(t: int)
    ensures 0 <= t * (t - 1) && (t * (t - 1)) % 2 == 0
  {
    var k := t / 2;
    if t % 2 == 0 {
      EvenFactor(k, t, t - 1);
    } else {
      EvenFactor(k, t - 1, t);
      assert t * (t - 1) == (t - 1) * t;
    }
    SameSigns(t, t - 1);
  }

  lemma EvenFactor(k: int, even: int, other: int)
    requires even == 2 * k
    ensures (even * other) % 2 == 0
  {
    assert even * other == 2 * (k * other);
  }

  lemma SameSigns(x: int, y: int)
    requires (x >= 0 && y >= 0) || (x <= 0 && y <= 0)
    ensures x * y >= 0
  {
    if x <= 0 {
      assert x * y == (-x) * (-y);
    }
  }

  /** `cost` of a state, the search's priority: an upper bound on the geodes
      open at the limit. */
  function CostOf(s: State): int
  {
    MaxGeodes(s) + MaxGeodePotential(s)
  }

  /** Every material a robot of kind `robot` costs is covered by the stock
      plus this minute's production, so the unsigned subtraction in `buy`
      does not underflow. */
  predicate CanPay(b: Blueprint, robot: Material, s: State)
  {
    forall m: Material :: Cost(b, robot, m) <= s.materials[m] + s.robots[m]
  }

  /** `buy`: one minute passes, every robot mines, the new robot is paid
      for and joins the others. */
  function Buy(b: Blueprint, robot: Material, s: State): (r: State)
    requires CanPay(b, robot, s)
  {
    var materials: Stock := [
      s.materials[ORE] + s.robots[ORE] - Cost(b, robot, ORE),
      s.materials[CLAY] + s.robots[CLAY] - Cost(b, robot, CLAY),
      s.materials[OBSIDIAN] + s.robots[OBSIDIAN] - Cost(b, robot, OBSIDIAN),
      s.materials[GEODE] + s.robots[GEODE] - Cost(b, robot, GEODE)];
    State(s.time + 1, s.timeMax, materials, s.robots[robot := s.robots[robot] + 1])
  }

  /** `wait`: one minute passes and every robot mines. */
  function Wait(s: State): (r: State)
  {
    var materials: Stock := [
      s.materials[ORE] + s.robots[ORE],
      s.materials[CLAY] + s.robots[CLAY],
      s.materials[OBSIDIAN] + s.robots[OBSIDIAN],
      s.materials[GEODE] + s.robots[GEODE]];
    State(s.time + 1, s.timeMax, materials, s.robots)
  }

  /** `buy` moves the clock by one minute, keeps the limit, pays exactly the
      recipe out of stock plus production, and adds only the robot bought. */
  lemma BuySpec(b: Blueprint, robot: Material, s: State)
    requires CanPay(b, robot, s)
    ensures var r := Buy(b, robot, s);
      && r.time == s.time + 1 && r.timeMax == s.timeMax
      && (forall m: Material :: r.materials[m] + Cost(b, robot, m) == s.materials[m] + s.robots[m])
      && r.robots[robot] == s.robots[robot] + 1
      && (forall m: Material | m != robot :: r.robots[m] == s.robots[m])
  {
  }

  /** `wait` moves the clock by one minute, keeps the limit and the robots,
      and adds the production to the stock. */
  lemma WaitSpec(s: State)
    ensures var r := Wait(s);
      && r.time == s.time + 1 && r.timeMax == s.timeMax && r.robots == s.robots
      && (forall m: Material :: r.materials[m] == s.materials[m] + s.robots[m])
  {
  }

  /** The robots `possible_options` considers buying: the affordable ones,
      minus ore, clay and obsidian robots once there are as many as the
      most any recipe needs of that material per minute. */
  function Worthwhile(b: Blueprint, s: State): (r: set<Material>)
    ensures forall m: Material :: m in r <==>
      Affords(b.robots[m].costs, s.materials) && (m == GEODE || s.robots[m] < MaxRobotsNeededFor(b, m))
  {
    var affordable := AffordableRobots(b, s.materials);
    var enough := set m: Material | m != GEODE && s.robots[m] >= MaxRobotsNeededFor(b, m);
    var r := affordable - enough;
    WorthwhileMembers(b, s, affordable, enough, r);
    r
  }

  lemma WorthwhileMembers(b: Blueprint, s: State, affordable: set<Material>, enough: set<Material>, r: set<Material>)
    requires affordable == AffordableRobots(b, s.materials)
    requires enough == set m: Material | m != GEODE && s.robots[m] >= MaxRobotsNeededFor(b, m)
    requires r == affordable - enough
    ensures forall m: Material :: m in r <==>
      Affords(b.robots[m].costs, s.materials) && (m == GEODE || s.robots[m] < MaxRobotsNeededFor(b, m))
  {
    forall m: Material
      ensures m in r <==>
        Affords(b.robots[m].costs, s.materials) && (m == GEODE || s.robots[m] < MaxRobotsNeededFor(b, m))
    {
      assert m in affordable <==> Affords(b.robots[m].costs, s.materials);
      assert m in enough <==> m != GEODE && s.robots[m] >= MaxRobotsNeededFor(b, m);
    }
  }

  lemma WorthwhileCanPay(b: Blueprint, s: State, m: Material)
    requires m in Worthwhile(b, s)
    ensures CanPay(b, m, s)
  {
    assert Affords(b.robots[m].costs, s.materials);
  }

  /** The state after buying `m`, when it is worth buying. */
  function BuyIf(b: Blueprint, s: State, m: Material): (r: seq<State>)
  {
    if m in Worthwhile(b, s) then
      WorthwhileCanPay(b, s, m);
      [Buy(b, m, s)]
    else []
  }

  /** `possible_options`: the worthwhile purchases, then waiting. The
      source collects the purchases from a `HashSet`, whose order is not
      specified; here they come in material order. */
  function PossibleOptions(b: Blueprint, s: State): (r: seq<State>)
    ensures r != [] && r[|r| - 1] == Wait(s)
  {
    BuyIf(b, s, ORE) + BuyIf(b, s, CLAY) + BuyIf(b, s, OBSIDIAN) + BuyIf(b, s, GEODE) + [Wait(s)]
  }

  lemma InBuyIf(b: Blueprint, s: State, m: Material, next: State)
    ensures next in BuyIf(b, s, m) <==> m in Worthwhile(b, s) && CanPay(b, m, s) && next == Buy(b, m, s)
  {
    if m in Worthwhile(b, s) {
      WorthwhileCanPay(b, s, m);
    }
  }

  /** The options are exactly waiting and buying a worthwhile robot. */
  lemma OptionsAre(b: Blueprint, s: State, next: State)
    ensures next in PossibleOptions(b, s) <==>
      next == Wait(s) || exists m: Material | m in Worthwhile(b, s) :: CanPay(b, m, s) && next == Buy(b, m, s)
  {
    InBuyIf(b, s, ORE, next);
    InBuyIf(b, s, CLAY, next);
    InBuyIf(b, s, OBSIDIAN, next);
    InBuyIf(b, s, GEODE, next);
    var options := PossibleOptions(b, s);
    assert next in options <==>
      next in BuyIf(b, s, ORE) || next in BuyIf(b, s, CLAY) || next in BuyIf(b, s, OBSIDIAN)
      || next in BuyIf(b, s, GEODE) || next == Wait(s);
    if exists m: Material | m in Worthwhile(b, s) :: CanPay(b, m, s) && next == Buy(b, m, s) {
      var m: Material :| m in Worthwhile(b, s) && CanPay(b, m, s) && next == Buy(b, m, s);
      assert m == ORE || m == CLAY || m == OBSIDIAN || m == GEODE;
    }
  }

  // ---------------------------------------------------------------- the bound

  /** One minute less to go lowers the potential by the minutes left. */
  lemma PotentialStep(s: State, r: State)
    requires Remaining(r) == Remaining(s) - 1
    ensures MaxGeodePotential(r) == MaxGeodePotential(s) - (Remaining(s) - 1)
  {
    var t := Remaining(s);
    assert t * (t - 1) == (t - 1) * (t - 2) + 2 * (t - 1);
  }

  /** Waiting lowers the bound by the minutes left after this one. */
  lemma WaitCost(s: State)
    ensures CostOf(Wait(s)) == CostOf(s) - (Remaining(s) - 1)
  {
    var t := Remaining(s);
    var g := s.robots[GEODE];
    PotentialStep(s, Wait(s));
    assert MaxGeodes(Wait(s)) == s.materials[GEODE] + g + (t - 1) * g;
    Distribute(t - 1, g, 1);
  }

  /** Buying lowers the bound by the geodes the robot costs, and, unless it
      is a geode robot, by the minutes left after this one. */
  lemma BuyCost(b: Blueprint, m: Material, s: State)
    requires CanPay(b, m, s)
    ensures CostOf(Buy(b, m, s)) == CostOf(s) - Cost(b, m, GEODE) - (if m == GEODE then 0 else Remaining(s) - 1)
  {
    var t := Remaining(s);
    var g := s.robots[GEODE];
    var next := Buy(b, m, s);
    PotentialStep(s, next);
    Distribute(t - 1, g, 1);
    if m == GEODE {
      assert MaxGeodes(next) == s.materials[GEODE] + g - Cost(b, m, GEODE) + (t - 1) * (g + 1);
    } else {
      assert MaxGeodes(next) == s.materials[GEODE] + g - Cost(b, m, GEODE) + (t - 1) * g;
    }
  }

  lemma Distribute(x: int, y: int, z: int)
    ensures x * (y + z) == x * y + x * z && (x + z) * y == x * y + z * y
  {
  }

  /** Before the limit, no move raises the bound, so the bound of a state
      is at least what any sequence of moves from it reaches. */
  lemma StepCost(b: Blueprint, s: State, next: State)
    requires s.time < s.timeMax && next in PossibleOptions(b, s)
    ensures next.time == s.time + 1 && next.timeMax == s.timeMax
    ensures CostOf(next) <= CostOf(s)
  {
    OptionsAre(b, s, next);
    if next == Wait(s) {
      WaitCost(s);
    } else {
      var m: Material :| m in Worthwhile(b, s) && CanPay(b, m, s) && next == Buy(b, m, s);
      BuyCost(b, m, s);
    }
  }

  /** At the limit the bound is the geodes opened. */
  lemma GoalCost(s: State)
    requires s.time == s.timeMax
    ensures CostOf(s) == s.materials[GEODE]
  {
  }

  // ---------------------------------------------------------------- the search

  function Options(b: Blueprint): State -> seq<State>
  {
    (s: State) => PossibleOptions(b, s)
  }

  function Finished(limit: int): State -> bool
  {
    (s: State) => s.time == limit
  }

  /** The state `solve` starts from: minute 2 with two ore and one ore robot. */
  function Start(limit: int): State
  {
    State(2, limit, [2, 0, 0, 0], [1, 0, 0, 0])
  }

  function Last(w: seq<State>): State
    requires w != []
  {
    w[|w| - 1]
  }

  /** A schedule the factory can follow from the start until the limit. */
  ghost predicate Run(b: Blueprint, limit: int, w: seq<State>)
  {
    && Day19Solver.Walk(Options(b), Finished(limit), CostOf, w)
    && w[0] == Start(limit) && Last(w).time == limit
  }

  /** A schedule opening at least as many geodes as any other. */
  ghost predicate Best(b: Blueprint, limit: int, w: seq<State>)
  {
    Run(b, limit, w) && forall v | Run(b, limit, v) :: Last(v).materials[GEODE] <= Last(w).materials[GEODE]
  }

  /** Along any schedule from a state no later than the limit the bound
      never rises. */
  lemma {:induction false} RunsDescend(b: Blueprint, limit: int, w: seq<State>)
    requires Day19Solver.Walk(Options(b), Finished(limit), CostOf, w)
    requires w[0].time <= limit && w[0].timeMax == limit
    ensures Day19Solver.Monotone(CostOf, w)
    decreases |w|
  {
    if |w| > 1 {
      assert w[1] in PossibleOptions(b, w[0]);
      StepCost(b, w[0], w[1]);
      RunsDescend(b, limit, w[1..]);
    }
  }

  /** Why `solve` returns no geodes: the model's search gave up after its
      `fuel` pops, or the frontier ran dry (`unreachable!("Path")`). */
  datatype SolveFailure = GaveUp | NoPath

  /** The limits for which waiting to the end keeps every bound, and the
      `i32` product `t * (t - 1)` inside it, within `i32`, so that the
      search has a schedule to find. */
  predicate Reachable(limit: int)
  {
    2 <= limit <= 46343
  }

  /** `solve`: the geodes at the end of the path the search returns, as a
      `u32`. The search stops after `fuel` pops; the frontier never runs
      dry for a limit with a schedule to find. */
  method Solve(b: Blueprint, limit: int, fuel: nat) returns (r: Result<nat, SolveFailure>)
    ensures r.Ok? ==> exists w | Best(b, limit, w) :: r.value == Last(w).materials[GEODE] % (U32_MAX + 1)
    ensures r == Err(NoPath) ==> !Reachable(limit)
  {
    var solver := new Day19Solver.A<State>();
    var out := solver.Solve(Options(b), Start(limit), Finished(limit), CostOf, fuel);
    if out.OutOfFuel? {
      return Err(GaveUp);
    }
    if out.Exhausted? {
      if Reachable(limit) {
        WaitingRun(b, limit);
        assert false;
      }
      return Err(NoPath);
    }
    var path := out.path;
    assert Run(b, limit, path);
    forall v | Run(b, limit, v) ensures Last(v).materials[GEODE] <= Last(path).materials[GEODE] {
      RunGeodesBounded(b, limit, v, path);
    }
    assert Best(b, limit, path);
    return Ok(Last(path).materials[GEODE] % (U32_MAX + 1));
  }

  /** Waiting from `s` until the limit, one state per minute. */
  function WaitFrom(s: State): (w: seq<State>)
    decreases s.timeMax - s.time
  {
    if s.time >= s.timeMax then [s] else [s] + WaitFrom(Wait(s))
  }

  /** Waiting from a state without geodes is a schedule to the limit whose
      bounds stay within `i32` when at most 46341 minutes are left. */
  lemma {:induction false} WaitingWalk(b: Blueprint, s: State)
    requires s.time <= s.timeMax <= s.time + 46341
    requires s.materials[GEODE] == 0 && s.robots[GEODE] == 0
    ensures Day19Solver.Walk(Options(b), Finished(s.timeMax), CostOf, WaitFrom(s))
    ensures WaitFrom(s)[0] == s && Last(WaitFrom(s)).time == s.timeMax
    decreases s.timeMax - s.time
  {
    if s.time < s.timeMax {
      var next := Wait(s);
      WaitStep(b, s);
      WaitingWalk(b, next);
      var w := WaitFrom(s);
      assert w[1..] == WaitFrom(next);
      assert w[0] == s && w[1] == next;
    }
  }

  /** One minute of waiting is an option whose bound stays within `i32`,
      and it keeps the state free of geodes. */
  lemma WaitStep(b: Blueprint, s: State)
    requires s.time < s.timeMax <= s.time + 46341
    requires s.materials[GEODE] == 0 && s.robots[GEODE] == 0
    ensures !Finished(s.timeMax)(s) && Wait(s) in Options(b)(s)
    ensures CostOf(Wait(s)) < Day19Solver.Unseen
    ensures Wait(s).time == s.time + 1 && Wait(s).timeMax == s.timeMax
    ensures Wait(s).materials[GEODE] == 0 && Wait(s).robots[GEODE] == 0
  {
    var next := Wait(s);
    WaitIsOption(b, s);
    assert Options(b)(s) == PossibleOptions(b, s);
    assert next.robots[GEODE] == 0;
    assert MaxGeodes(next) == 0;
    PotentialFits(next);
  }

  /** With at most 46341 minutes left the potential, and the `i32` product
      it is computed from, fit in an `i32`. */
  lemma PotentialFits(s: State)
    requires 0 <= Remaining(s) <= 46341
    ensures Remaining(s) * (Remaining(s) - 1) <= I32_MAX
    ensures MaxGeodePotential(s) < I32_MAX
  {
    PotentialBound(Remaining(s));
  }

  /** With `t` at most 46341 minutes left, `t * (t - 1)` fits in an `i32`
      (46342 * 46341 would not). */
  lemma PotentialBound(t: int)
    requires 0 <= t <= 46341
    ensures t * (t - 1) <= I32_MAX
  {
    if t > 0 {
      var p := t * (t - 1);
      ScaleLeft(t, 46341, t - 1);
      ScaleRight(46341, t - 1, 46340);
      assert 46341 * 46340 == 2147441940;
    }
  }

  lemma ScaleLeft(a: int, b: int, c: int)
    requires a <= b && 0 <= c
    ensures a * c <= b * c
  {
  }

  lemma ScaleRight(a: int, b: int, c: int)
    requires 0 <= a && b <= c
    ensures a * b <= a * c
  {
  }

  /** For a reachable limit some schedule leads from the start to the limit:
      the one that only waits. */
  lemma WaitingRun(b: Blueprint, limit: int)
    requires Reachable(limit)
    ensures exists w :: Day19Solver.Walk(Options(b), Finished(limit), CostOf, w) && w[0] == Start(limit) && Finished(limit)(Last(w))
  {
    WaitingWalk(b, Start(limit));
    var w := WaitFrom(Start(limit));
    assert Day19Solver.Walk(Options(b), Finished(limit), CostOf, w) && w[0] == Start(limit) && Finished(limit)(Last(w));
  }

  /** A schedule opens no more geodes than the bound at the end of another
      one, once the bound is known to dominate it. */
  lemma RunGeodesBounded(b: Blueprint, limit: int, v: seq<State>, path: seq<State>)
    requires Run(b, limit, v) && Run(b, limit, path)
    requires Day19Solver.Monotone(CostOf, v) ==> CostOf(Last(v)) <= CostOf(Last(path))
    ensures Last(v).materials[GEODE] <= Last(path).materials[GEODE]
  {
    RunClock(b, limit, v);
    RunClock(b, limit, path);
    RunsDescend(b, limit, v);
    GoalCost(Last(v));
    GoalCost(Last(path));
  }

  /** Every move takes one minute and keeps the limit. */
  lemma {:induction false} RunClock(b: Blueprint, limit: int, w: seq<State>)
    requires Day19Solver.Walk(Options(b), Finished(limit), CostOf, w) && w[0].timeMax == limit
    ensures Last(w).timeMax == limit && Last(w).time == w[0].time + |w| - 1
    decreases |w|
  {
    if |w| > 1 {
      assert w[1] in PossibleOptions(b, w[0]);
      OptionsAre(b, w[0], w[1]);
      RunClock(b, limit, w[1..]);
      assert Last(w[1..]) == Last(w);
    }
  }

  /** `quality_level`: the blueprint's id times its most geodes. The `u32`
      product is not bounded. */
  method QualityLevel(b: Blueprint, limit: int, fuel: nat) returns (r: Result<nat, SolveFailure>)
    ensures r.Ok? ==> exists w | Best(b, limit, w) :: r.value == b.id * (Last(w).materials[GEODE] % (U32_MAX + 1))
    ensures r == Err(NoPath) ==> !Reachable(limit)
  {
    var geodes := Solve(b, limit, fuel);
    if geodes.Err? {
      return Err(geodes.error);
    }
    ghost var w :| Best(b, limit, w) && geodes.value == Last(w).materials[GEODE] % (U32_MAX + 1);
    SameSigns(b.id, geodes.value);
    r := Ok(b.id * geodes.value);
    assert r.value == b.id * (Last(w).materials[GEODE] % (U32_MAX + 1));
  }

  // ---------------------------------------------------------------- examples

  /** Test `buy_ore_robot`: buying the ore robot of
      "Blueprint 0: Each ore robot costs 1 ore." takes a minute and one ore. */
  lemma BuyOreRobot()
    ensures var initial := State(0, 10, [17, 0, 0, 0], [0, 0, 0, 0]);
      CanPay(OneOreRobot(1), ORE, initial)
      && Buy(OneOreRobot(1), ORE, initial).time == initial.time + 1
      && Buy(OneOreRobot(1), ORE, initial).materials[ORE] == initial.materials[ORE] - 1
  {
  }

  /** Waiting is always an option. */
  lemma WaitIsOption(b: Blueprint, s: State)
    ensures Wait(s) in PossibleOptions(b, s)
  {
    var options := PossibleOptions(b, s);
    assert options[|options| - 1] in options;
  }

  /** Test `possible_options_include_doing_nothing`. */
  lemma OptionsIncludeWaiting(b: Blueprint, s: State)
    requires b == OneOreRobot(1) && s == State(0, 10, [0, 0, 0, 0], [1, 0, 0, 0])
    ensures State(1, 10, [1, 0, 0, 0], [1, 0, 0, 0]) in PossibleOptions(b, s)
  {
    WaitIsOption(b, s);
    WaitExample(s);
  }

  lemma WaitExample(s: State)
    requires s == State(0, 10, [0, 0, 0, 0], [1, 0, 0, 0])
    ensures Wait(s) == State(1, 10, [1, 0, 0, 0], [1, 0, 0, 0])
  {
    var w := Wait(s);
    assert w.materials == [1, 0, 0, 0] by {
      assert w.materials[0] == 1 && w.materials[1] == 0 && w.materials[2] == 0 && w.materials[3] == 0;
    }
  }

  /** Test `possible_options_include_to_buy_robot_if_affordable`. */
  lemma OptionsIncludeBuying(b: Blueprint, s: State)
    requires b == OneOreRobot(3) && s == State(0, 10, [3, 0, 0, 0], [1, 0, 0, 0])
    ensures State(1, 10, [1, 0, 0, 0], [2, 0, 0, 0]) in PossibleOptions(b, s)
  {
    assert MaxRobotsNeededFor(b, ORE) == 3 by {
      assert Cost(b, ORE, ORE) == 3;
    }
    assert Affords(b.robots[ORE].costs, s.materials);
    assert ORE in Worthwhile(b, s);
    WorthwhileCanPay(b, s, ORE);
    BuyExample(b, s);
    OptionsAre(b, s, Buy(b, ORE, s));
  }

  lemma BuyExample(b: Blueprint, s: State)
    requires b == OneOreRobot(3) && s == State(0, 10, [3, 0, 0, 0], [1, 0, 0, 0])
    ensures CanPay(b, ORE, s) && Buy(b, ORE, s) == State(1, 10, [1, 0, 0, 0], [2, 0, 0, 0])
  {
    assert CanPay(b, ORE, s) by {
      assert forall m: Material :: Cost(b, ORE, m) == b.robots[ORE].costs[m];
    }
    var r := Buy(b, ORE, s);
    assert r.materials == [1, 0, 0, 0] by {
      assert r.materials[0] == 1 && r.materials[1] == 0 && r.materials[2] == 0 && r.materials[3] == 0;
    }
    assert r.robots == [2, 0, 0, 0] by {
      assert r.robots[0] == 2 && r.robots[1] == 0 && r.robots[2] == 0 && r.robots[3] == 0;
    }
  }
}
