/** Day 16 (`lib.rs`): a walker through the valve network, one state per
    minute, and a depth-first search over every state sequence until minute
    30 for the highest pressure figure reached. */
module Day16 {
  import opened Text
  import opened Day16Valve
  import opened Day16Network

  // ---------------------------------------------------------------- state

  /** `State`: the minute, the valve stood at, the pressure figure and the
      open valves; the network it walks is passed alongside. */
  datatype State = State(time: int, valve: Name, pressure: int, open: set<Name>)

  /** The valves a state names belong to the network, so that looking them
      up does not panic. */
  predicate Sound(valves: map<Name, Valve>, s: State)
  {
    s.valve in valves && s.open <= valves.Keys
  }

  /** The flows of a set of valves added up, taken in string order. */
  function FlowSum(valves: map<Name, Valve>, open: set<Name>): int
    requires open <= valves.Keys
    decreases |open|
  {
    if open == {} then 0
    else
      var v := First(open);
      valves[v].flow + FlowSum(valves, open - {v})
  }

  /** The sum does not depend on the order the valves are taken in: any
      one of them can be taken out first. */
  lemma {:induction false} FlowSumRemove(valves: map<Name, Valve>, open: set<Name>, v: Name)
    requires open <= valves.Keys && v in open
    ensures FlowSum(valves, open) == valves[v].flow + FlowSum(valves, open - {v})
    decreases |open|
  {
    var m := First(open);
    if m != v {
      FlowSumRemove(valves, open - {m}, v);
      FlowSumRemove(valves, open - {v}, m);
      assert open - {m} - {v} == open - {v} - {m};
    }
  }

  /** Opening one more valve adds its flow to the sum. */
  lemma FlowSumAdd(valves: map<Name, Valve>, open: set<Name>, v: Name)
    requires open <= valves.Keys && v in valves && v !in open
    ensures FlowSum(valves, open + {v}) == FlowSum(valves, open) + valves[v].flow
  {
    FlowSumRemove(valves, open + {v}, v);
    assert open + {v} - {v} == open;
  }

  /** `State::simulate`: the flow of the open valves. */
  function Simulate(valves: map<Name, Valve>, s: State): int
    requires Sound(valves, s)
  {
    FlowSum(valves, s.open)
  }

  // ---------------------------------------------------------------- moves

  /** `State::initial`: minute 0, no pressure, standing at the start valve,
      which counts as open. */
  function Initial(valve: Name): (s: State)
    ensures s.time == 0 && s.pressure == 0 && s.valve == valve && s.open == {valve}
  {
    State(0, valve, 0, {valve})
  }

  /** `State::stay`. */
  function Stay(valves: map<Name, Valve>, s: State): State
    requires Sound(valves, s)
  {
    State(s.time + 1, s.valve, Simulate(valves, s), s.open)
  }

  /** `State::travel_to`. */
  function TravelTo(valves: map<Name, Valve>, s: State, valve: Name): State
    requires Sound(valves, s)
  {
    State(s.time + 1, valve, Simulate(valves, s), s.open)
  }

  /** `State::travel_to_and_open`. */
  function TravelToAndOpen(valves: map<Name, Valve>, s: State, valve: Name): State
    requires Sound(valves, s)
  {
    State(s.time + 2, valve, Simulate(valves, s), s.open + {valve})
  }

  /** Every move records the flow of the valves open before it; staying and
      travelling take a minute and leave the valves as they are, travelling
      and opening takes two and opens the valve reached, which adds its flow
      to the next figure when it was shut. */
  lemma MoveEffects(valves: map<Name, Valve>, s: State, valve: Name)
    requires Sound(valves, s) && valve in valves
    ensures var t := Stay(valves, s);
      t.time == s.time + 1 && t.valve == s.valve && t.open == s.open && t.pressure == Simulate(valves, s)
    ensures var t := TravelTo(valves, s, valve);
      t.time == s.time + 1 && t.valve == valve && t.open == s.open && t.pressure == Simulate(valves, s)
    ensures var t := TravelToAndOpen(valves, s, valve);
      && t.time == s.time + 2 && t.valve == valve && t.open == s.open + {valve}
      && t.pressure == Simulate(valves, s) && Sound(valves, t)
      && (valve !in s.open ==> Simulate(valves, t) == Simulate(valves, s) + valves[valve].flow)
  {
    if valve !in s.open {
      FlowSumAdd(valves, s.open, valve);
    }
  }

  // -------------------------------------------------------- possibilities

  /** What one connection contributes: travelling there and opening it
      when there are two minutes left, it is shut and it has flow, then
      travelling there when there is a minute left. */
  function Moves(valves: map<Name, Valve>, s: State, c: Name): seq<State>
    requires Sound(valves, s) && c in valves
  {
    OpenMove(valves, s, c) + TravelMove(s, valves, c)
  }

  function OpenMove(valves: map<Name, Valve>, s: State, c: Name): seq<State>
    requires Sound(valves, s) && c in valves
  {
    if s.time < 29 && c !in s.open && valves[c].flow > 0 then [TravelToAndOpen(valves, s, c)] else []
  }

  function TravelMove(s: State, valves: map<Name, Valve>, c: Name): seq<State>
    requires Sound(valves, s)
  {
    if s.time < 30 then [TravelTo(valves, s, c)] else []
  }

  /** A move through a tunnel goes to it, later, and records the flow of
      the valves open before it. */
  lemma MoveOf(valves: map<Name, Valve>, s: State, c: Name, t: State)
    requires Sound(valves, s) && c in valves && t in Moves(valves, s, c)
    ensures t.valve == c && s.time < t.time && Sound(valves, t) && t.pressure == Simulate(valves, s)
    ensures || (s.time < 30 && t == TravelTo(valves, s, c))
            || (s.time < 29 && c !in s.open && valves[c].flow > 0 && t == TravelToAndOpen(valves, s, c))
  {
  }

  /** The moves of the connections `cs`, in order. */
  function Options(valves: map<Name, Valve>, s: State, cs: seq<Name>): seq<State>
    requires Sound(valves, s) && forall i | 0 <= i < |cs| :: cs[i] in valves
  {
    if cs == [] then []
    else Options(valves, s, cs[..|cs| - 1]) + Moves(valves, s, cs[|cs| - 1])
  }

  /** The moves of `cs` are those of its connections, and there are none
      only when there are no connections or no minute left. */
  lemma {:induction false} OptionsMembers(valves: map<Name, Valve>, s: State, cs: seq<Name>)
    requires Sound(valves, s) && forall i | 0 <= i < |cs| :: cs[i] in valves
    ensures forall t | t in Options(valves, s, cs) :: exists i | 0 <= i < |cs| :: t in Moves(valves, s, cs[i])
    ensures forall i | 0 <= i < |cs| :: forall t | t in Moves(valves, s, cs[i]) :: t in Options(valves, s, cs)
    ensures Options(valves, s, cs) == [] <==> cs == [] || 30 <= s.time
  {
    if cs != [] {
      var front, last := cs[..|cs| - 1], cs[|cs| - 1];
      OptionsMembers(valves, s, front);
      assert forall i | 0 <= i < |front| :: front[i] == cs[i];
      assert s.time < 30 ==> TravelTo(valves, s, last) in Moves(valves, s, last);
    }
  }

  lemma OptionsStep(valves: map<Name, Valve>, s: State, cs: seq<Name>, i: nat, before: seq<State>, halfway: seq<State>, after: seq<State>)
    requires Sound(valves, s) && i < |cs| && forall j | 0 <= j < |cs| :: cs[j] in valves
    requires before == Options(valves, s, cs[..i])
    requires halfway == before + OpenMove(valves, s, cs[i]) && after == halfway + TravelMove(s, valves, cs[i])
    ensures after == Options(valves, s, cs[..i + 1])
  {
    assert cs[..i + 1][..i] == cs[..i];
    assert after == before + Moves(valves, s, cs[i]);
  }

  /** The successors of a state, the connections taken in string order. */
  function PossibilitiesOf(valves: map<Name, Valve>, s: State): seq<State>
    requires Closed(valves) && Sound(valves, s)
  {
    var cs := Sorted(valves[s.valve].connections);
    var options := Options(valves, s, cs);
    if options == [] then [Stay(valves, s)] else options
  }

  /** `State::possibilities`: a loop over the connections of the current
      valve, falling back to staying when no move is left. */
  method Possibilities(valves: map<Name, Valve>, s: State) returns (options: seq<State>)
    requires Closed(valves) && Sound(valves, s)
    ensures options == PossibilitiesOf(valves, s)
  {
    var connections := Sorted(valves[s.valve].connections);
    options := [];
    for i := 0 to |connections|
      invariant options == Options(valves, s, connections[..i])
    {
      var connection := connections[i];
      ghost var before := options;
      if s.time < 29 && connection !in s.open && valves[connection].flow > 0 {
        options := options + [TravelToAndOpen(valves, s, connection)];
      }
      ghost var halfway := options;
      assert halfway == before + OpenMove(valves, s, connection);
      if s.time < 30 {
        options := options + [TravelTo(valves, s, connection)];
      }
      assert options == halfway + TravelMove(s, valves, connection);
      OptionsStep(valves, s, connections, i, before, halfway, options);
    }
    assert connections[..|connections|] == connections;
    if options == [] {
      options := [Stay(valves, s)];
    }
  }

  /** Every connection is travelled to while a minute is left, and opened
      too while two are left, it is shut and it has flow. */
  lemma PossibilitiesComplete(valves: map<Name, Valve>, s: State, c: Name)
    requires Closed(valves) && Sound(valves, s) && c in valves[s.valve].connections
    ensures s.time < 30 ==> TravelTo(valves, s, c) in PossibilitiesOf(valves, s)
    ensures s.time < 29 && c !in s.open && valves[c].flow > 0 ==> TravelToAndOpen(valves, s, c) in PossibilitiesOf(valves, s)
  {
    var cs := Sorted(valves[s.valve].connections);
    OptionsMembers(valves, s, cs);
    assert c in cs;
    var i :| 0 <= i < |cs| && cs[i] == c;
    assert s.time < 30 ==> TravelTo(valves, s, c) in Moves(valves, s, cs[i]);
  }

  /** Staying is the only successor when the valve has no tunnel or no
      minute is left; otherwise every successor moves through a tunnel. */
  lemma PossibilitiesStay(valves: map<Name, Valve>, s: State)
    requires Closed(valves) && Sound(valves, s)
    ensures valves[s.valve].connections == {} || 30 <= s.time ==> PossibilitiesOf(valves, s) == [Stay(valves, s)]
    ensures valves[s.valve].connections != {} && s.time < 30 ==>
      forall t | t in PossibilitiesOf(valves, s) :: t.valve in valves[s.valve].connections
  {
    var cs := Sorted(valves[s.valve].connections);
    OptionsMembers(valves, s, cs);
    if valves[s.valve].connections != {} && s.time < 30 {
      assert cs != [];
      forall t | t in PossibilitiesOf(valves, s)
        ensures t.valve in valves[s.valve].connections
      {
        var i :| 0 <= i < |cs| && t in Moves(valves, s, cs[i]);
        MoveOf(valves, s, cs[i], t);
        assert cs[i] in cs;
      }
    }
  }

  /** Every successor is staying or one of the moves above; it is later
      than the state, names valves of the network and records the flow of
      the state's open valves. */
  lemma PossibilitiesSound(valves: map<Name, Valve>, s: State, t: State)
    requires Closed(valves) && Sound(valves, s) && t in PossibilitiesOf(valves, s)
    ensures || t == Stay(valves, s)
            || exists c | c in valves[s.valve].connections ::
                 || (s.time < 30 && t == TravelTo(valves, s, c))
                 || (s.time < 29 && c !in s.open && valves[c].flow > 0 && t == TravelToAndOpen(valves, s, c))
    ensures s.time < t.time && Sound(valves, t) && t.pressure == Simulate(valves, s)
  {
    var cs := Sorted(valves[s.valve].connections);
    OptionsMembers(valves, s, cs);
    if t != Stay(valves, s) {
      var i :| 0 <= i < |cs| && t in Moves(valves, s, cs[i]);
      MoveOf(valves, s, cs[i], t);
      assert cs[i] in cs;
    }
  }

  /** Every successor is later than the state and names valves of the
      network: the search stays within the network and moves towards
      minute 30. */
  lemma PossibilitiesLater(valves: map<Name, Valve>, s: State)
    requires Closed(valves) && Sound(valves, s)
    ensures forall t | t in PossibilitiesOf(valves, s) :: s.time < t.time && Sound(valves, t)
  {
    forall t | t in PossibilitiesOf(valves, s)
      ensures s.time < t.time && Sound(valves, t)
    {
      PossibilitiesSound(valves, s, t);
    }
  }

  // ----------------------------------------------------------- the search

  /** The states the search pushes after popping `s`: its possibilities,
      and none for a state that names valves outside a closed network. */
  function Next(valves: map<Name, Valve>): State -> seq<State>
  {
    (s: State) => if Closed(valves) && Sound(valves, s) then PossibilitiesOf(valves, s) else []
  }

  /** The states at minute 30 or later that the search from `s` reaches. */
  ghost function Reached(valves: map<Name, Valve>, s: State): set<State>
  {
    NextLater(valves);
    Leaves(Next(valves), s)
  }

  /** Every state pushed is later than the one popped. */
  ghost predicate Later(next: State -> seq<State>)
  {
    forall s, t | t in next(s) :: s.time < t.time
  }

  /** Every state pushed after a sound one is sound. */
  ghost predicate KeepsSound(valves: map<Name, Valve>, next: State -> seq<State>)
  {
    forall s, t | t in next(s) && Sound(valves, s) :: Sound(valves, t)
  }

  lemma NextLater(valves: map<Name, Valve>)
    ensures Later(Next(valves)) && KeepsSound(valves, Next(valves))
  {
    forall s, t | t in Next(valves)(s)
      ensures s.time < t.time && Sound(valves, t)
    {
      PossibilitiesLater(valves, s);
    }
  }

  /** States on the search stack are fewer than `h` minutes short of
      minute 30. */
  ghost predicate Below(cs: seq<State>, h: int)
  {
    0 <= h && forall t | t in cs :: 30 - t.time < h
  }

  /** The states the search visits from `s`: itself and, before minute 30,
      those of every successor. */
  ghost function Work(next: State -> seq<State>, s: State): nat
    requires Later(next)
    decreases 30 - s.time, 1, 0
  {
    if 30 <= s.time then 1
    else 1 + SumWork(next, next(s), 30 - s.time)
  }

  ghost function SumWork(next: State -> seq<State>, cs: seq<State>, h: int): nat
    requires Later(next) && Below(cs, h)
    decreases h, 0, |cs|
  {
    if cs == [] then 0
    else
      assert cs[|cs| - 1] in cs;
      SumWork(next, cs[..|cs| - 1], h) + Work(next, cs[|cs| - 1])
  }

  /** The states at minute 30 or later that the search reaches from `s`. */
  ghost function Leaves(next: State -> seq<State>, s: State): set<State>
    requires Later(next)
    decreases 30 - s.time, 1, 0
  {
    if 30 <= s.time then {s}
    else LeavesOf(next, next(s), 30 - s.time)
  }

  ghost function LeavesOf(next: State -> seq<State>, cs: seq<State>, h: int): set<State>
    requires Later(next) && Below(cs, h)
    decreases h, 0, |cs|
  {
    if cs == [] then {}
    else
      assert cs[|cs| - 1] in cs;
      LeavesOf(next, cs[..|cs| - 1], h) + Leaves(next, cs[|cs| - 1])
  }

  /** What the search reaches from a stack splits over its two halves, and
      does not depend on the bound. */
  lemma {:induction false} StackSplit(next: State -> seq<State>, cs: seq<State>, ds: seq<State>, h: int, k: int)
    requires Later(next) && Below(cs + ds, h) && Below(ds, k)
    ensures Below(cs, h) && Below(ds, h)
    ensures SumWork(next, cs + ds, h) == SumWork(next, cs, h) + SumWork(next, ds, k)
    ensures LeavesOf(next, cs + ds, h) == LeavesOf(next, cs, h) + LeavesOf(next, ds, k)
    decreases |ds|
  {
    assert forall t | t in cs :: t in cs + ds;
    assert forall t | t in ds :: t in cs + ds;
    if ds == [] {
      assert cs + ds == cs;
    } else {
      var front := ds[..|ds| - 1];
      assert (cs + ds)[..|cs + ds| - 1] == cs + front;
      assert forall t | t in front :: t in ds;
      StackSplit(next, cs, front, h, k);
    }
  }

  /** Every state the search reaches is at minute 30 or later, no earlier
      than where it started, and sound when the start is. */
  lemma {:induction false} LeavesFinal(valves: map<Name, Valve>, next: State -> seq<State>, s: State)
    requires Later(next) && KeepsSound(valves, next)
    ensures forall t | t in Leaves(next, s) :: 30 <= t.time && s.time <= t.time && (Sound(valves, s) ==> Sound(valves, t))
    decreases 30 - s.time, 1
  {
    if s.time < 30 {
      LeavesOfFinal(valves, next, next(s), 30 - s.time, s.time, Sound(valves, s));
    }
  }

  lemma {:induction false} LeavesOfFinal(valves: map<Name, Valve>, next: State -> seq<State>, cs: seq<State>, h: int, from: int, sound: bool)
    requires Later(next) && KeepsSound(valves, next) && Below(cs, h)
    requires forall t | t in cs :: from <= t.time && (sound ==> Sound(valves, t))
    ensures forall t | t in LeavesOf(next, cs, h) :: 30 <= t.time && from <= t.time && (sound ==> Sound(valves, t))
    decreases h, 0, |cs|
  {
    if cs != [] {
      var last := cs[|cs| - 1];
      assert last in cs;
      assert forall t | t in cs[..|cs| - 1] :: t in cs;
      LeavesOfFinal(valves, next, cs[..|cs| - 1], h, from, sound);
      LeavesFinal(valves, next, last);
    }
  }

  /** Popping a state at minute 30 or later leaves the rest of the stack;
      the state itself is what it reaches. */
  lemma PopLeaf(next: State -> seq<State>, queue: seq<State>, h: int, seen: set<State>, reach: set<State>)
    requires Later(next) && Below(queue, h) && queue != [] && 30 <= queue[|queue| - 1].time
    requires reach == seen + LeavesOf(next, queue, h)
    ensures var rest, item := queue[..|queue| - 1], queue[|queue| - 1];
      && Below(rest, h)
      && reach == seen + {item} + LeavesOf(next, rest, h)
      && SumWork(next, rest, h) < SumWork(next, queue, h)
  {
    var rest, item := queue[..|queue| - 1], queue[|queue| - 1];
    assert queue == rest + [item];
    assert item in rest + [item];
    StackSplit(next, rest, [item], h, h);
    Single(next, item, h);
  }

  /** Replacing a popped state before minute 30 by its successors reaches
      the same states, with less work left. */
  lemma PopExpand(next: State -> seq<State>, queue: seq<State>, h: int, seen: set<State>, reach: set<State>)
    requires Later(next) && Below(queue, h) && queue != [] && queue[|queue| - 1].time < 30
    requires reach == seen + LeavesOf(next, queue, h)
    ensures var rest, item := queue[..|queue| - 1], queue[|queue| - 1];
      && Below(rest + next(item), h)
      && reach == seen + LeavesOf(next, rest + next(item), h)
      && SumWork(next, rest + next(item), h) < SumWork(next, queue, h)
  {
    var rest, item := queue[..|queue| - 1], queue[|queue| - 1];
    assert queue == rest + [item];
    assert item in rest + [item];
    ExpandLeaves(next, rest, item, h);
    ExpandWork(next, rest, item, h);
  }

  lemma ExpandLeaves(next: State -> seq<State>, rest: seq<State>, item: State, h: int)
    requires Later(next) && Below(rest + [item], h) && item.time < 30
    ensures Below(rest + next(item), h)
    ensures LeavesOf(next, rest + next(item), h) == LeavesOf(next, rest + [item], h)
  {
    var options, k := next(item), 30 - item.time;
    assert item in rest + [item];
    assert Below(options, k);
    assert forall t | t in rest :: t in rest + [item];
    assert Below(rest + options, h);
    StackSplit(next, rest, [item], h, h);
    Single(next, item, h);
    StackSplit(next, rest, options, h, k);
    assert Leaves(next, item) == LeavesOf(next, options, k);
  }

  lemma ExpandWork(next: State -> seq<State>, rest: seq<State>, item: State, h: int)
    requires Later(next) && Below(rest + [item], h) && item.time < 30
    ensures Below(rest + next(item), h)
    ensures SumWork(next, rest + next(item), h) < SumWork(next, rest + [item], h)
  {
    var options, k := next(item), 30 - item.time;
    assert item in rest + [item];
    assert Below(options, k);
    assert forall t | t in rest :: t in rest + [item];
    assert Below(rest + options, h);
    StackSplit(next, rest, [item], h, h);
    Single(next, item, h);
    StackSplit(next, rest, options, h, k);
    assert Work(next, item) == 1 + SumWork(next, options, k);
  }

  lemma Single(next: State -> seq<State>, item: State, h: int)
    requires Later(next) && Below([item], h)
    ensures LeavesOf(next, [item], h) == Leaves(next, item)
    ensures SumWork(next, [item], h) == Work(next, item)
  {
    assert [item][..0] == [];
  }

  /** `max` is the highest pressure of the start and the states `seen`,
      and `candidate` the valve of one that has it. */
  ghost predicate Champion(s: State, seen: set<State>, candidate: Name, max: int)
  {
    && s.pressure <= max && (forall t | t in seen :: t.pressure <= max)
    && ((candidate == s.valve && max == s.pressure) || exists t | t in seen :: t.valve == candidate && t.pressure == max)
  }

  /** `State::best`: a depth-first search with an explicit stack; every
      state at minute 30 or later whose pressure beats the best so far
      becomes the candidate. The result is the highest pressure over the
      start and every such state, with the valve where it was reached. */
  method Best(valves: map<Name, Valve>, s: State) returns (candidate: Name, max: int)
    requires Closed(valves) && Sound(valves, s)
    ensures s.pressure <= max && forall t | t in Reached(valves, s) :: t.pressure <= max
    ensures || (candidate == s.valve && max == s.pressure)
            || exists t | t in Reached(valves, s) :: t.valve == candidate && t.pressure == max
  {
    max := s.pressure;
    candidate := s.valve;
    var queue := [s];
    ghost var next := Next(valves);
    NextLater(valves);
    ghost var h := if s.time < 0 then 31 - s.time else 31;
    ghost var seen: set<State> := {};
    ghost var reach := Reached(valves, s);
    Single(next, s, h);
    while queue != []
      invariant Below(queue, h) && forall t | t in queue :: Sound(valves, t)
      invariant reach == seen + LeavesOf(next, queue, h)
      invariant Champion(s, seen, candidate, max)
      decreases SumWork(next, queue, h)
    {
      var item := queue[|queue| - 1];
      assert item in queue;
      if item.time >= 30 {
        PopLeaf(next, queue, h, seen, reach);
        queue := queue[..|queue| - 1];
        if item.pressure > max {
          max := item.pressure;
          candidate := item.valve;
        }
        seen := seen + {item};
        continue;
      }
      var options := Possibilities(valves, item);
      assert options == next(item);
      PopExpand(next, queue, h, seen, reach);
      PossibilitiesLater(valves, item);
      queue := queue[..|queue| - 1] + options;
    }
  }

  /** `find_max_releasable_pressure`: the best pressure from valve "AA";
      the number of steps is not used. */
  method FindMaxReleasablePressure(network: Network, steps: int) returns (pressure: int)
    requires Closed(network.network) && "AA" in network.network
    ensures 0 <= pressure && forall t | t in Reached(network.network, Initial("AA")) :: t.pressure <= pressure
    ensures pressure == 0 || exists t | t in Reached(network.network, Initial("AA")) :: t.pressure == pressure
  {
    var state := Initial("AA");
    var _, best := Best(network.network, state);
    pressure := best;
  }

  // ----------------------------------------------------------- the sample

  /** The tunnels of the sample's valves "AA" and "BB". */
  lemma SampleTunnels(valves: map<Name, Valve>)
    requires valves == SampleValves()
    ensures forall c :: c in valves["AA"].connections <==> c == "BB" || c == "DD" || c == "II"
    ensures forall c :: c in valves["BB"].connections <==> c == "AA" || c == "CC"
    ensures valves["AA"].flow == 0 && valves["BB"].flow == 13 && valves["CC"].flow == 2
  {
  }

  /** `sample_state_possibilities_from_a`: from "AA" the successors go to
      "BB", "DD" and "II", and to each of them. */
  lemma SampleFromAA(valves: map<Name, Valve>)
    requires valves == SampleValves()
    ensures var a := Initial("AA");
      && Sound(valves, a)
      && (forall t | t in PossibilitiesOf(valves, a) :: t.valve == "BB" || t.valve == "DD" || t.valve == "II")
      && TravelTo(valves, a, "BB") in PossibilitiesOf(valves, a)
      && TravelTo(valves, a, "DD") in PossibilitiesOf(valves, a)
      && TravelTo(valves, a, "II") in PossibilitiesOf(valves, a)
  {
    var a := Initial("AA");
    SampleTunnels(valves);
    var aa := valves["AA"].connections;
    assert "BB" in aa && "DD" in aa && "II" in aa;
    PossibilitiesStay(valves, a);
    var ps := PossibilitiesOf(valves, a);
    forall t | t in ps
      ensures t.valve == "BB" || t.valve == "DD" || t.valve == "II"
    {
      assert t.valve in aa;
    }
    PossibilitiesComplete(valves, a, "BB");
    PossibilitiesComplete(valves, a, "DD");
    PossibilitiesComplete(valves, a, "II");
  }

  /** With "AA" and "BB" open the sample's valves release 13. */
  lemma SampleFlowAtBB(valves: map<Name, Valve>, b: State)
    requires valves == SampleValves() && b == TravelToAndOpen(valves, Initial("AA"), "BB")
    ensures Sound(valves, b) && Simulate(valves, b) == 13
  {
    SampleTunnels(valves);
    assert First({"AA"}) == "AA";
    assert FlowSum(valves, {"AA"}) == 0;
    FlowSumAdd(valves, {"AA"}, "BB");
    assert b.open == {"AA"} + {"BB"};
  }

  /** `sample_state_possibilities_from_b`: after travelling to "BB" and
      opening it, the successors include going to "CC" and going back to
      "AA", both recording pressure 13. */
  lemma SampleFromBB(valves: map<Name, Valve>)
    requires valves == SampleValves()
    ensures var b := TravelToAndOpen(valves, Initial("AA"), "BB");
      && b in PossibilitiesOf(valves, Initial("AA"))
      && (exists t | t in PossibilitiesOf(valves, b) :: t.valve == "CC" && t.pressure == 13)
      && (exists t | t in PossibilitiesOf(valves, b) :: t.valve == "AA" && t.pressure == 13)
  {
    var a := Initial("AA");
    SampleTunnels(valves);
    assert "BB" in valves["AA"].connections && "BB" !in a.open;
    PossibilitiesComplete(valves, a, "BB");
    var b := TravelToAndOpen(valves, a, "BB");
    SampleFlowAtBB(valves, b);
    var bb := valves["BB"].connections;
    assert "CC" in bb && "AA" in bb;
    PossibilitiesComplete(valves, b, "CC");
    PossibilitiesComplete(valves, b, "AA");
    assert TravelTo(valves, b, "CC").pressure == 13;
  }
}
