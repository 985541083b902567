/** Day 23: elves spread out over a grove. Each round every elf with a
    neighbour proposes a step in the first of four preferred directions
    whose three cells ahead are empty; proposals that clash are dropped, the
    others are carried out, and the first preference moves to the back. */
module Day23 {
  import opened Wrappers
  import opened Text

  /** `euclid::Vector2D<i32>`, y pointing down; the i32 range is not
      modelled. */
  datatype Coord = Coord(x: int, y: int)
  {
    function Plus(d: Coord): Coord { Coord(x + d.x, y + d.y) }
  }

  datatype Direction = N | NE | E | SE | S | SW | W | NW

  /** The order `enum_iterator::all` walks the directions. */
  const Directions: seq<Direction> := [N, NE, E, SE, S, SW, W, NW]

  /** `From<Direction> for Coord`: the step one cell that way. */
  function Offset(d: Direction): Coord
  {
    match d
    case N => Coord(0, -1)
    case NE => Coord(1, -1)
    case NW => Coord(-1, -1)
    case E => Coord(1, 0)
    case W => Coord(-1, 0)
    case S => Coord(0, 1)
    case SE => Coord(1, 1)
    case SW => Coord(-1, 1)
  }

  /** The eight directions reach exactly the eight cells around a cell. */
  lemma OffsetsSurround(c: Coord, d: Coord)
    ensures (exists k | 0 <= k < |Directions| :: c.Plus(Offset(Directions[k])) == d)
      <==> d != c && -1 <= d.x - c.x <= 1 && -1 <= d.y - c.y <= 1
  {
    if d != c && -1 <= d.x - c.x <= 1 && -1 <= d.y - c.y <= 1 {
      var dx, dy := d.x - c.x, d.y - c.y;
      var k := if dy == -1 then (if dx == 0 then 0 else if dx == 1 then 1 else 7)
        else if dy == 0 then (if dx == 1 then 2 else 6)
        else (if dx == 1 then 3 else if dx == 0 then 4 else 5);
      assert c.Plus(Offset(Directions[k])) == d;
    }
  }

  /** One entry of the preference queue: the three cells to probe and the
      direction to step when they are all empty. */
  datatype Preference = Preference(probes: seq<Direction>, choice: Direction)

  /** The queue `from_str` starts with: north, south, west, east, each
      probing its own direction and the two diagonals beside it. */
  const Initial: seq<Preference> := [
    Preference([N, NE, NW], N),
    Preference([S, SE, SW], S),
    Preference([W, NW, SW], W),
    Preference([E, NE, SE], E)]

  /** Every preference steps onto one of the cells it probes. */
  predicate Sound(prefs: seq<Preference>)
  {
    forall i | 0 <= i < |prefs| :: prefs[i].choice in prefs[i].probes
  }

  /** `rotate_preferences` on a value: the front entry goes to the back. */
  function Rotate(prefs: seq<Preference>): (r: seq<Preference>)
    requires prefs != []
    ensures |r| == |prefs|
    ensures r[|r| - 1] == prefs[0] && forall i | 0 <= i < |prefs| - 1 :: r[i] == prefs[i + 1]
  {
    prefs[1..] + [prefs[0]]
  }

  /** The queue after `k` rotations of the initial one. */
  function Rotated(k: nat): (r: seq<Preference>)
    ensures |r| == 4
  {
    if k == 0 then Initial else Rotate(Rotated(k - 1))
  }

  /** Rotation keeps every preference sound. */
  lemma RotateSound(prefs: seq<Preference>)
    requires prefs != [] && Sound(prefs)
    ensures Sound(Rotate(prefs))
  {
    var r := Rotate(prefs);
    forall i | 0 <= i < |r| ensures r[i].choice in r[i].probes {
      if i < |r| - 1 { assert r[i] == prefs[i + 1]; } else { assert r[i] == prefs[0]; }
    }
  }

  lemma InitialSound()
    ensures Sound(Initial)
  {
    forall i | 0 <= i < 4 ensures Initial[i].choice in Initial[i].probes {
      assert Initial[i].choice == Initial[i].probes[0];
    }
  }

  /** Four rotations bring a queue of four back. */
  lemma RotateFour(p: seq<Preference>)
    requires |p| == 4
    ensures Rotate(Rotate(Rotate(Rotate(p)))) == p
  {
    var r1 := Rotate(p);
    var r2 := Rotate(r1);
    var r3 := Rotate(r2);
    var r4 := Rotate(r3);
    assert r1 == [p[1], p[2], p[3], p[0]];
    assert r2 == [p[2], p[3], p[0], p[1]];
    assert r3 == [p[3], p[0], p[1], p[2]];
    assert r4 == [p[0], p[1], p[2], p[3]];
    assert p == [p[0], p[1], p[2], p[3]];
  }

  /** Every queue the rounds go through is sound and holds the initial
      entries, and four rotations restore it: the preferences cycle with
      period four. */
  lemma {:induction false} RotatedCycles(k: nat)
    ensures Sound(Rotated(k))
    ensures Rotated(k + 4) == Rotated(k)
  {
    if k == 0 {
      InitialSound();
      RotateFour(Initial);
    } else {
      RotatedCycles(k - 1);
      RotateSound(Rotated(k - 1));
    }
  }

  // ---------------------------------------------------------------- parsing

  /** `from_str`: every '#' at column x of line y is an elf at (x, y). */
  function ElvesOf(s: String): (elves: set<Coord>)
    ensures forall c :: c in elves <==>
      0 <= c.y < |Lines(s)| && 0 <= c.x < |Lines(s)[c.y]| && Lines(s)[c.y][c.x] == '#'
  {
    var lines := Lines(s);
    set y, x | 0 <= y < |lines| && 0 <= x < |lines[y]| && lines[y][x] == '#' :: Coord(x, y)
  }

  // ---------------------------------------------------------------- proposals

  /** No elf on any of the eight cells around `elf`. */
  predicate Alone(elves: set<Coord>, elf: Coord)
  {
    forall k | 0 <= k < |Directions| :: elf.Plus(Offset(Directions[k])) !in elves
  }

  /** No elf on any cell the preference probes. */
  predicate Free(elves: set<Coord>, elf: Coord, probes: seq<Direction>)
  {
    forall k | 0 <= k < |probes| :: elf.Plus(Offset(probes[k])) !in elves
  }

  /** The loop over the preferences in `propose`: the position of the first
      one whose probed cells are all empty, from `from` on. */
  function FirstFree(elves: set<Coord>, elf: Coord, prefs: seq<Preference>, from: nat): (r: Option<nat>)
    requires from <= |prefs|
    ensures r.Some? ==> (from <= r.value < |prefs| && Free(elves, elf, prefs[r.value].probes)
      && forall j | from <= j < r.value :: !Free(elves, elf, prefs[j].probes))
    ensures r.None? ==> forall j | from <= j < |prefs| :: !Free(elves, elf, prefs[j].probes)
    decreases |prefs| - from
  {
    if from == |prefs| then None
    else if Free(elves, elf, prefs[from].probes) then Some(from)
    else FirstFree(elves, elf, prefs, from + 1)
  }

  /** `propose`: an elf alone stays; otherwise it steps as the first free
      preference says, and stays when none is free. */
  function Propose(elves: set<Coord>, prefs: seq<Preference>, elf: Coord): (r: Coord)
    ensures Alone(elves, elf) ==> r == elf
    ensures r != elf ==> exists i | 0 <= i < |prefs| ::
      Free(elves, elf, prefs[i].probes) && r == elf.Plus(Offset(prefs[i].choice))
  {
    if Alone(elves, elf) then elf
    else
      match FirstFree(elves, elf, prefs, 0)
      case None => elf
      case Some(i) => elf.Plus(Offset(prefs[i].choice))
  }

  /** What `propose` promises: an alone elf stays; otherwise it takes the
      first preference whose probes are empty, and stays if there is none. */
  lemma ProposeSpec(elves: set<Coord>, prefs: seq<Preference>, elf: Coord)
    ensures Alone(elves, elf) ==> Propose(elves, prefs, elf) == elf
    ensures !Alone(elves, elf) && (forall j | 0 <= j < |prefs| :: !Free(elves, elf, prefs[j].probes))
      ==> Propose(elves, prefs, elf) == elf
    ensures forall i | 0 <= i < |prefs| && !Alone(elves, elf) && Free(elves, elf, prefs[i].probes)
      && (forall j | 0 <= j < i :: !Free(elves, elf, prefs[j].probes)) ::
      Propose(elves, prefs, elf) == elf.Plus(Offset(prefs[i].choice))
  {
    var r := FirstFree(elves, elf, prefs, 0);
    forall i | 0 <= i < |prefs| && !Alone(elves, elf) && Free(elves, elf, prefs[i].probes)
      && (forall j | 0 <= j < i :: !Free(elves, elf, prefs[j].probes))
      ensures Propose(elves, prefs, elf) == elf.Plus(Offset(prefs[i].choice))
    {
      assert r.Some?;
      assert r.value == i;
    }
  }

  /** With sound preferences an elf proposes its own cell or a cell it
      probed empty, so it never proposes another elf's cell. */
  lemma ProposalEmpty(elves: set<Coord>, prefs: seq<Preference>, elf: Coord)
    requires Sound(prefs)
    ensures Propose(elves, prefs, elf) == elf || Propose(elves, prefs, elf) !in elves
  {
    if !Alone(elves, elf) {
      var r := FirstFree(elves, elf, prefs, 0);
      if r.Some? {
        var probes := prefs[r.value].probes;
        var k :| 0 <= k < |probes| && probes[k] == prefs[r.value].choice;
        assert elf.Plus(Offset(probes[k])) !in elves;
      }
    }
  }

  // ---------------------------------------------------------------- motion

  /** The proposals of a round, as a function of the elf. */
  function Proposal(elves: set<Coord>, prefs: seq<Preference>): Coord -> Coord
  {
    e => Propose(elves, prefs, e)
  }

  /** Every elf proposes its own cell or a cell no elf is on. */
  ghost predicate KeepsOff(elves: set<Coord>, propose: Coord -> Coord)
  {
    forall e | e in elves :: propose(e) == e || propose(e) !in elves
  }

  lemma ProposalsKeepOff(elves: set<Coord>, prefs: seq<Preference>)
    requires Sound(prefs)
    ensures KeepsOff(elves, Proposal(elves, prefs))
  {
    forall e | e in elves
      ensures Proposal(elves, prefs)(e) == e || Proposal(elves, prefs)(e) !in elves
    {
      ProposalEmpty(elves, prefs, e);
    }
  }

  /** Two different elves propose `p`. */
  ghost predicate Clash(elves: set<Coord>, propose: Coord -> Coord, p: Coord)
  {
    exists a, b | a in elves && b in elves :: a != b && propose(a) == p && propose(b) == p
  }

  /** Where an elf ends the round, given which proposals clash: its own
      cell when its proposal clashes, the proposed cell otherwise. */
  function Land(propose: Coord -> Coord, clash: Coord -> bool, elf: Coord): Coord
  {
    if clash(propose(elf)) then elf else propose(elf)
  }

  /** The cells the elves end on. */
  function Settled(elves: set<Coord>, propose: Coord -> Coord, clash: Coord -> bool): set<Coord>
  {
    set e | e in elves :: Land(propose, clash, e)
  }

  ghost function Clashes(elves: set<Coord>, propose: Coord -> Coord): Coord -> bool
  {
    p => Clash(elves, propose, p)
  }

  /** Where an elf ends the round. */
  ghost function Final(elves: set<Coord>, propose: Coord -> Coord, elf: Coord): Coord
  {
    Land(propose, Clashes(elves, propose), elf)
  }

  /** The elves after `motion`. */
  ghost function Moved(elves: set<Coord>, propose: Coord -> Coord): set<Coord>
  {
    Settled(elves, propose, Clashes(elves, propose))
  }

  /** Two elves never end on the same cell. */
  lemma FinalInjective(elves: set<Coord>, propose: Coord -> Coord, a: Coord, b: Coord)
    requires KeepsOff(elves, propose) && a in elves && b in elves && a != b
    ensures Final(elves, propose, a) != Final(elves, propose, b)
  {
    if propose(a) == propose(b) {
      assert Clash(elves, propose, propose(a));
    }
  }

  /** `motion` keeps the number of elves: no two of them end on one cell. */
  lemma MotionKeepsCount(elves: set<Coord>, propose: Coord -> Coord)
    requires KeepsOff(elves, propose)
    ensures |Moved(elves, propose)| == |elves|
  {
    ImageCount(elves, propose, elves);
    assert Moved(elves, propose) == set e | e in elves :: Final(elves, propose, e);
  }

  lemma {:induction false} ImageCount(elves: set<Coord>, propose: Coord -> Coord, part: set<Coord>)
    requires KeepsOff(elves, propose) && part <= elves
    ensures |set e | e in part :: Final(elves, propose, e)| == |part|
    decreases |part|
  {
    if part != {} {
      var x :| x in part;
      var rest := part - {x};
      ImageCount(elves, propose, rest);
      var image := set e | e in part :: Final(elves, propose, e);
      var restImage := set e | e in rest :: Final(elves, propose, e);
      assert image == restImage + {Final(elves, propose, x)};
      if Final(elves, propose, x) in restImage {
        var y :| y in rest && Final(elves, propose, y) == Final(elves, propose, x);
        FinalInjective(elves, propose, x, y);
      }
    }
  }

  /** An elf whose proposal no other elf shares ends on the proposed cell;
      one whose proposal clashes keeps its cell. An elf without neighbours
      proposes its own cell, so it stays. */
  lemma WhereElvesEnd(elves: set<Coord>, prefs: seq<Preference>, elf: Coord)
    requires elf in elves
    ensures var propose := Proposal(elves, prefs);
      && (Clash(elves, propose, propose(elf)) ==> Final(elves, propose, elf) == elf)
      && ((forall o | o in elves && o != elf :: propose(o) != propose(elf)) ==> Final(elves, propose, elf) == propose(elf))
      && (Alone(elves, elf) ==> Final(elves, propose, elf) == elf)
      && Final(elves, propose, elf) in Moved(elves, propose)
  {
  }

  /** The cells the elves proposing a cell of `keys` end on. */
  ghost function Contribution(elves: set<Coord>, propose: Coord -> Coord, clash: Coord -> bool, keys: set<Coord>): set<Coord>
  {
    set e | e in elves && propose(e) in keys :: Land(propose, clash, e)
  }

  /** The groups have more than one entry exactly where proposals clash. */
  ghost predicate Agrees(groups: map<Coord, seq<nat>>, clash: Coord -> bool)
  {
    forall p | p in groups :: clash(p) == (|groups[p]| > 1)
  }

  /** `Grid`: the elves and the queue of preferences. */
  class Grid {
    var elves: set<Coord>
    var preferences: seq<Preference>
    ghost var rounds: nat

    /** The queue is the initial one rotated once per round. */
    ghost predicate Valid()
      reads this
    {
      preferences == Rotated(rounds)
    }

    /** `from_str`. */
    constructor FromStr(s: String)
      ensures elves == ElvesOf(s) && preferences == Initial && Valid()
    {
      elves := ElvesOf(s);
      preferences := Initial;
      rounds := 0;
    }

    /** `rotate_preferences`: the front entry moves to the back; `unwrap`
        panics on an empty queue. */
    method RotatePreferences()
      requires preferences != []
      modifies this
      ensures preferences == old(preferences)[1..] + [old(preferences)[0]]
      ensures elves == old(elves) && rounds == old(rounds) + 1
      ensures old(Valid()) ==> Valid()
    {
      var front := preferences[0];
      preferences := preferences[1..];
      preferences := preferences + [front];
      rounds := rounds + 1;
    }

    /** `motion`: every elf proposes, proposals are grouped by cell, a cell
        proposed by one elf receives it and the elves of a clashing cell
        stay. The numbering of the elves and the order of the groups come
        from hash tables; here they are chosen freely. */
    method Motion()
      modifies this`elves
      ensures elves == Moved(old(elves), Proposal(old(elves), preferences))
      ensures Sound(preferences) ==> |elves| == |old(elves)|
    {
      var propose := Proposal(elves, preferences);
      var grid := Enumerate(elves);
      var propositions := seq(|grid|, id requires 0 <= id < |grid| => (id, propose(grid[id])));
      var groups := GroupByProposal(propose, grid, propositions);
      ghost var clash := Clashes(elves, propose);
      forall p | p in groups ensures clash(p) == (|groups[p]| > 1) {
        GroupSizeIsClash(elves, propose, grid, groups, p);
      }
      var xs := Settle(elves, propose, clash, grid, groups);
      if Sound(preferences) {
        ProposalsKeepOff(elves, preferences);
        MotionKeepsCount(elves, propose);
      }
      elves := xs;
    }

    /** `bounding_box`: the smallest and largest x and y of an elf;
        `expect` panics on an empty grove. */
    method BoundingBox() returns (minx: int, maxx: int, miny: int, maxy: int)
      requires elves != {}
      ensures forall e | e in elves :: minx <= e.x <= maxx && miny <= e.y <= maxy
      ensures exists e | e in elves :: e.x == minx
      ensures exists e | e in elves :: e.x == maxx
      ensures exists e | e in elves :: e.y == miny
      ensures exists e | e in elves :: e.y == maxy
    {
      var first :| first in elves;
      ghost var lx, hx, ly, hy := first, first, first, first;
      minx, maxx, miny, maxy := first.x, first.x, first.y, first.y;
      var rest := elves - {first};
      while rest != {}
        invariant rest <= elves
        invariant forall e | e in elves - rest :: minx <= e.x <= maxx && miny <= e.y <= maxy
        invariant lx in elves && lx.x == minx && hx in elves && hx.x == maxx
        invariant ly in elves && ly.y == miny && hy in elves && hy.y == maxy
        decreases |rest|
      {
        var e :| e in rest;
        if e.x < minx { minx, lx := e.x, e; }
        if e.x > maxx { maxx, hx := e.x, e; }
        if e.y < miny { miny, ly := e.y, e; }
        if e.y > maxy { maxy, hy := e.y, e; }
        rest := rest - {e};
      }
    }
  }

  /** `.iter().enumerate()` over the elves: every elf once, numbered by its
      position. */
  method Enumerate(elves: set<Coord>) returns (grid: seq<Coord>)
    ensures Numbered(elves, grid)
  {
    grid := [];
    var rest := elves;
    while rest != {}
      invariant rest <= elves
      invariant forall j | 0 <= j < |grid| :: grid[j] in elves && grid[j] !in rest
      invariant forall e | e in elves && e !in rest :: exists j | 0 <= j < |grid| :: grid[j] == e
      invariant forall i, j | 0 <= i < j < |grid| :: grid[i] != grid[j]
      decreases |rest|
    {
      var e :| e in rest;
      ghost var prev := grid;
      grid := grid + [e];
      rest := rest - {e};
      assert forall j | 0 <= j < |prev| :: grid[j] == prev[j];
      assert grid[|prev|] == e;
    }
  }

  /** The groups `into_group_map` has built from the first `k` elves: each
      proposed cell maps to the increasing numbers of the elves proposing it. */
  ghost predicate Grouped(propose: Coord -> Coord, grid: seq<Coord>, groups: map<Coord, seq<nat>>, k: nat)
    requires k <= |grid|
  {
    && (forall p | p in groups :: exists j | 0 <= j < k :: propose(grid[j]) == p)
    && (forall p, t | p in groups && 0 <= t < |groups[p]| :: groups[p][t] < k && propose(grid[groups[p][t]]) == p)
    && (forall j | 0 <= j < k :: propose(grid[j]) in groups && j in groups[propose(grid[j])])
    && (forall p, s, t | p in groups && 0 <= s < t < |groups[p]| :: groups[p][s] < groups[p][t])
  }

  /** `into_group_map` over the propositions, in order. */
  method GroupByProposal(propose: Coord -> Coord, grid: seq<Coord>, propositions: seq<(nat, Coord)>)
    returns (groups: map<Coord, seq<nat>>)
    requires |propositions| == |grid|
    requires forall id | 0 <= id < |grid| :: propositions[id] == (id, propose(grid[id]))
    ensures Grouped(propose, grid, groups, |grid|)
  {
    groups := map[];
    for k := 0 to |propositions|
      invariant Grouped(propose, grid, groups, k)
    {
      var (id, p) := propositions[k];
      var before := groups;
      var group := if p in groups then groups[p] else [];
      groups := groups[p := group + [id]];
      GroupedStep(propose, grid, before, groups, k);
    }
  }

  lemma GroupedStep(propose: Coord -> Coord, grid: seq<Coord>, before: map<Coord, seq<nat>>,
                    after: map<Coord, seq<nat>>, k: nat)
    requires k < |grid| && Grouped(propose, grid, before, k)
    requires var p := propose(grid[k]);
      after == before[p := (if p in before then before[p] else []) + [k]]
    ensures Grouped(propose, grid, after, k + 1)
  {
    var p := propose(grid[k]);
    forall q | q in after ensures exists j | 0 <= j < k + 1 :: propose(grid[j]) == q {
      if q == p { assert propose(grid[k]) == q; }
    }
    GroupedStepMembers(propose, grid, before, after, k);
    forall j | 0 <= j < k + 1 ensures propose(grid[j]) in after && j in after[propose(grid[j])] {
      if j < k { assert j in before[propose(grid[j])]; }
      else { assert after[p][|after[p]| - 1] == k; }
    }
  }

  /** The numbers in each group after a step propose its cell, are below
      `k + 1` and increase. */
  lemma GroupedStepMembers(propose: Coord -> Coord, grid: seq<Coord>, before: map<Coord, seq<nat>>,
                           after: map<Coord, seq<nat>>, k: nat)
    requires k < |grid| && Grouped(propose, grid, before, k)
    requires var p := propose(grid[k]);
      after == before[p := (if p in before then before[p] else []) + [k]]
    ensures forall q, t | q in after && 0 <= t < |after[q]| :: after[q][t] < k + 1 && propose(grid[after[q][t]]) == q
    ensures forall q, s, t | q in after && 0 <= s < t < |after[q]| :: after[q][s] < after[q][t]
  {
    var p := propose(grid[k]);
    forall q | q in after
      ensures forall t | 0 <= t < |after[q]| :: after[q][t] < k + 1 && propose(grid[after[q][t]]) == q
      ensures forall s, t | 0 <= s < t < |after[q]| :: after[q][s] < after[q][t]
    {
      if q != p {
        assert after[q] == before[q];
      } else {
        var prior := if p in before then before[p] else [];
        assert after[q] == prior + [k];
        assert forall t | 0 <= t < |prior| :: prior[t] < k && propose(grid[prior[t]]) == q;
      }
    }
  }

  /** Every elf numbered once. */
  ghost predicate Numbered(elves: set<Coord>, grid: seq<Coord>)
  {
    && (forall j | 0 <= j < |grid| :: grid[j] in elves)
    && (forall e | e in elves :: exists j | 0 <= j < |grid| :: grid[j] == e)
    && (forall i, j | 0 <= i < j < |grid| :: grid[i] != grid[j])
  }

  /** A group of more than one entry is a clash of two different elves, and
      the other way round. */
  lemma GroupSizeIsClash(elves: set<Coord>, propose: Coord -> Coord, grid: seq<Coord>,
                         groups: map<Coord, seq<nat>>, p: Coord)
    requires Numbered(elves, grid) && Grouped(propose, grid, groups, |grid|) && p in groups
    ensures |groups[p]| > 1 <==> Clash(elves, propose, p)
  {
    if |groups[p]| > 1 {
      LargeGroupClashes(elves, propose, grid, groups, p);
    }
    if Clash(elves, propose, p) {
      ClashMakesLargeGroup(elves, propose, grid, groups, p);
    }
  }

  lemma LargeGroupClashes(elves: set<Coord>, propose: Coord -> Coord, grid: seq<Coord>,
                          groups: map<Coord, seq<nat>>, p: Coord)
    requires Numbered(elves, grid) && Grouped(propose, grid, groups, |grid|) && p in groups
    requires |groups[p]| > 1
    ensures Clash(elves, propose, p)
  {
    var g := groups[p];
    assert g[0] < g[1];
    var a, b := grid[g[0]], grid[g[1]];
    assert a in elves && b in elves && a != b && propose(a) == p && propose(b) == p;
  }

  lemma ClashMakesLargeGroup(elves: set<Coord>, propose: Coord -> Coord, grid: seq<Coord>,
                             groups: map<Coord, seq<nat>>, p: Coord)
    requires Numbered(elves, grid) && Grouped(propose, grid, groups, |grid|) && p in groups
    requires Clash(elves, propose, p)
    ensures |groups[p]| > 1
  {
    var a, b :| a in elves && b in elves && a != b && propose(a) == p && propose(b) == p;
    var i :| 0 <= i < |grid| && grid[i] == a;
    var j :| 0 <= j < |grid| && grid[j] == b;
    TwoInGroup(propose, grid, groups, p, i, j);
  }

  lemma TwoInGroup(propose: Coord -> Coord, grid: seq<Coord>, groups: map<Coord, seq<nat>>, p: Coord, i: nat, j: nat)
    requires Grouped(propose, grid, groups, |grid|)
    requires i < |grid| && j < |grid| && i != j && propose(grid[i]) == p && propose(grid[j]) == p
    ensures p in groups && |groups[p]| > 1
  {
    var g := groups[p];
    assert i in g && j in g;
    var ti :| 0 <= ti < |g| && g[ti] == i;
    var tj :| 0 <= tj < |g| && g[tj] == j;
    assert ti != tj;
  }

  /** The loop over the groups in `motion`: a clashing group puts its elves
      back on their own cells, a single proposer takes the proposed cell. */
  method Settle(elves: set<Coord>, propose: Coord -> Coord, ghost clash: Coord -> bool, grid: seq<Coord>,
                groups: map<Coord, seq<nat>>) returns (xs: set<Coord>)
    requires Numbered(elves, grid) && Grouped(propose, grid, groups, |grid|) && Agrees(groups, clash)
    ensures xs == Settled(elves, propose, clash)
  {
    xs := {};
    var todo := groups.Keys;
    while todo != {}
      invariant todo <= groups.Keys
      invariant xs == Contribution(elves, propose, clash, groups.Keys - todo)
      decreases |todo|
    {
      var key :| key in todo;
      var group := groups[key];
      ContributionAdd(elves, propose, clash, groups.Keys - todo, key);
      if |group| > 1 {
        xs := AddCells(xs, grid, group);
        ClashGroup(elves, propose, clash, grid, groups, key);
      } else {
        SingleGroup(elves, propose, clash, grid, groups, key);
        xs := xs + {key};
      }
      KeyDone(groups.Keys, todo, key);
      todo := todo - {key};
    }
    AllKeys(elves, propose, clash, grid, groups);
  }

  /** Adds the cells a group lists to `base`. */
  method AddCells(base: set<Coord>, grid: seq<Coord>, group: seq<nat>) returns (xs: set<Coord>)
    requires forall u | 0 <= u < |group| :: group[u] < |grid|
    ensures xs == base + GroupCells(grid, group)
  {
    xs := base;
    for t := 0 to |group|
      invariant xs == base + set u | 0 <= u < t :: grid[group[u]]
    {
      xs := xs + {grid[group[t]]};
    }
  }

  /** Taking one key out of those still to do. */
  lemma KeyDone(keys: set<Coord>, todo: set<Coord>, key: Coord)
    requires key in todo && key in keys
    ensures keys - (todo - {key}) == (keys - todo) + {key}
    ensures |todo - {key}| < |todo|
  {
  }

  /** Every elf's proposal is a key, so all keys together cover every elf. */
  lemma AllKeys(elves: set<Coord>, propose: Coord -> Coord, clash: Coord -> bool, grid: seq<Coord>,
                groups: map<Coord, seq<nat>>)
    requires Numbered(elves, grid) && Grouped(propose, grid, groups, |grid|)
    ensures Contribution(elves, propose, clash, groups.Keys - {}) == Settled(elves, propose, clash)
  {
    forall e | e in elves ensures propose(e) in groups.Keys {
      var j :| 0 <= j < |grid| && grid[j] == e;
    }
  }

  /** The contribution of one more key is added to the set. */
  lemma ContributionAdd(elves: set<Coord>, propose: Coord -> Coord, clash: Coord -> bool, keys: set<Coord>, key: Coord)
    ensures Contribution(elves, propose, clash, keys + {key})
      == Contribution(elves, propose, clash, keys) + Contribution(elves, propose, clash, {key})
  {
  }

  /** The cells a group lists. */
  function GroupCells(grid: seq<Coord>, group: seq<nat>): set<Coord>
    requires forall u | 0 <= u < |group| :: group[u] < |grid|
  {
    set u | 0 <= u < |group| :: grid[group[u]]
  }

  /** A clashing group contributes the cells of its elves. */
  lemma ClashGroup(elves: set<Coord>, propose: Coord -> Coord, clash: Coord -> bool, grid: seq<Coord>,
                   groups: map<Coord, seq<nat>>, key: Coord)
    requires Numbered(elves, grid) && Grouped(propose, grid, groups, |grid|)
    requires key in groups && clash(key)
    ensures GroupCells(grid, groups[key]) == Contribution(elves, propose, clash, {key})
  {
    ContributionInCells(elves, propose, clash, grid, groups, key);
    CellsInContribution(elves, propose, clash, grid, groups, key);
  }

  lemma ContributionInCells(elves: set<Coord>, propose: Coord -> Coord, clash: Coord -> bool, grid: seq<Coord>,
                            groups: map<Coord, seq<nat>>, key: Coord)
    requires Numbered(elves, grid) && Grouped(propose, grid, groups, |grid|)
    requires key in groups && clash(key)
    ensures Contribution(elves, propose, clash, {key}) <= GroupCells(grid, groups[key])
  {
    forall e | e in Contribution(elves, propose, clash, {key}) ensures e in GroupCells(grid, groups[key]) {
      var u := ContributorListed(elves, propose, clash, grid, groups, key, e);
    }
  }

  lemma CellsInContribution(elves: set<Coord>, propose: Coord -> Coord, clash: Coord -> bool, grid: seq<Coord>,
                            groups: map<Coord, seq<nat>>, key: Coord)
    requires Numbered(elves, grid) && Grouped(propose, grid, groups, |grid|)
    requires key in groups && clash(key)
    ensures GroupCells(grid, groups[key]) <= Contribution(elves, propose, clash, {key})
  {
    forall e | e in GroupCells(grid, groups[key]) ensures e in Contribution(elves, propose, clash, {key}) {
      var u :| 0 <= u < |groups[key]| && grid[groups[key][u]] == e;
      GroupMemberStays(elves, propose, clash, grid, groups, key, u);
    }
  }

  /** An elf proposing a clashing cell is listed in its group and stays. */
  lemma ContributorListed(elves: set<Coord>, propose: Coord -> Coord, clash: Coord -> bool, grid: seq<Coord>,
                          groups: map<Coord, seq<nat>>, key: Coord, e: Coord) returns (u: nat)
    requires Numbered(elves, grid) && Grouped(propose, grid, groups, |grid|)
    requires key in groups && clash(key) && e in Contribution(elves, propose, clash, {key})
    ensures u < |groups[key]| && grid[groups[key][u]] == e
  {
    var a :| a in elves && propose(a) == key && Land(propose, clash, a) == e;
    u := Listed(elves, propose, grid, groups, a);
  }

  /** An elf of a clashing group stays where it is. */
  lemma GroupMemberStays(elves: set<Coord>, propose: Coord -> Coord, clash: Coord -> bool, grid: seq<Coord>,
                         groups: map<Coord, seq<nat>>, key: Coord, u: nat)
    requires Numbered(elves, grid) && Grouped(propose, grid, groups, |grid|)
    requires key in groups && clash(key) && u < |groups[key]|
    ensures grid[groups[key][u]] in Contribution(elves, propose, clash, {key})
  {
    var a := grid[groups[key][u]];
    assert a in elves && propose(a) in {key} && Land(propose, clash, a) == a;
  }

  /** Where an elf is listed in the group of its proposal. */
  lemma Listed(elves: set<Coord>, propose: Coord -> Coord, grid: seq<Coord>, groups: map<Coord, seq<nat>>, a: Coord)
    returns (u: nat)
    requires Numbered(elves, grid) && Grouped(propose, grid, groups, |grid|) && a in elves
    ensures propose(a) in groups && u < |groups[propose(a)]| && grid[groups[propose(a)][u]] == a
  {
    var j :| 0 <= j < |grid| && grid[j] == a;
    var g := groups[propose(a)];
    assert j in g;
    u :| 0 <= u < |g| && g[u] == j;
  }

  /** A group of one contributes the proposed cell. */
  lemma SingleGroup(elves: set<Coord>, propose: Coord -> Coord, clash: Coord -> bool, grid: seq<Coord>,
                    groups: map<Coord, seq<nat>>, key: Coord)
    requires Numbered(elves, grid) && Grouped(propose, grid, groups, |grid|)
    requires key in groups && !clash(key)
    ensures Contribution(elves, propose, clash, {key}) == {key}
  {
    var j :| 0 <= j < |grid| && propose(grid[j]) == key;
    assert Land(propose, clash, grid[j]) == key;
  }

  /** A round of the puzzle: `motion`, then `rotate_preferences`. The
      number of elves never changes. */
  method Round(g: Grid)
    requires g.Valid()
    modifies g
    ensures g.Valid() && g.rounds == old(g.rounds) + 1
    ensures g.elves == Moved(old(g.elves), Proposal(old(g.elves), old(g.preferences)))
    ensures |g.elves| == |old(g.elves)|
  {
    RotatedCycles(g.rounds);
    g.Motion();
    g.RotatePreferences();
  }
}
