/** Day 18: a droplet of lava scanned as unit cubes; its surface area,
    its bounding box and the region of cells connected to a start cell. */
module Day18 {
  import opened Wrappers
  import opened Text
  import opened Ints

  datatype Coord = Coord(x: int, y: int, z: int)

  function Add(a: Coord, b: Coord): Coord
  {
    Coord(a.x + b.x, a.y + b.y, a.z + b.z)
  }

  const One := Coord(1, 1, 1)

  /** Right, left, up, down, fore and rear, in that order. */
  const Directions: seq<Coord> :=
    [Coord(1, 0, 0), Coord(-1, 0, 0), Coord(0, 1, 0), Coord(0, -1, 0), Coord(0, 0, 1), Coord(0, 0, -1)]

  /** Cells sharing a face: one step along one axis. */
  predicate Adjacent(a: Coord, b: Coord)
  {
    Abs(a.x - b.x) + Abs(a.y - b.y) + Abs(a.z - b.z) == 1
  }

  /** The cell one step from `c` in direction `i`. */
  function Neighbour(c: Coord, i: nat): (n: Coord)
    requires i < 6
    ensures Adjacent(c, n)
  {
    Add(c, Directions[i])
  }

  /** Every cell sharing a face with `a` lies in one of the six directions. */
  function DirectionTo(a: Coord, b: Coord): (i: nat)
    requires Adjacent(a, b)
    ensures i < 6 && Neighbour(a, i) == b
  {
    if b.x == a.x + 1 then 0
    else if b.x == a.x - 1 then 1
    else if b.y == a.y + 1 then 2
    else if b.y == a.y - 1 then 3
    else if b.z == a.z + 1 then 4
    else 5
  }

  /** The direction that leads back. */
  function Opposite(i: nat): (j: nat)
    requires i < 6
    ensures j < 6 && j != i
    ensures forall c :: Neighbour(Neighbour(c, i), j) == c
  {
    if i % 2 == 0 then i + 1 else i - 1
  }

  /** The six directions lead to six different cells. */
  lemma NeighboursDistinct(c: Coord, i: nat, j: nat)
    requires i < 6 && j < 6
    ensures Neighbour(c, i) == Neighbour(c, j) <==> i == j
  {
  }

  // ---------------------------------------------------------------- surface

  datatype Lavablob = Lavablob(volume: set<Coord>)

  /** The first `k` directions that lead from `c` to a cell whose
      membership in the volume is `inside`. */
  ghost function Facing(blob: Lavablob, c: Coord, inside: bool, k: nat): set<nat>
    requires k <= 6
  {
    set i | 0 <= i < k && (Neighbour(c, i) in blob.volume) == inside
  }

  /** How many of the first `k` directions lead from `c` to a cell whose
      membership in the volume is `inside`. */
  function Sides(blob: Lavablob, c: Coord, inside: bool, k: nat): (n: nat)
    requires k <= 6
    ensures n == |Facing(blob, c, inside, k)|
  {
    if k == 0 then
      assert Facing(blob, c, inside, k) == {};
      0
    else
      FacingStep(blob, c, inside, k);
      Sides(blob, c, inside, k - 1) + if (Neighbour(c, k - 1) in blob.volume) == inside then 1 else 0
  }

  /** One more direction adds itself or nothing. */
  lemma FacingStep(blob: Lavablob, c: Coord, inside: bool, k: nat)
    requires 0 < k <= 6
    ensures (Neighbour(c, k - 1) in blob.volume) == inside ==>
      Facing(blob, c, inside, k) == Facing(blob, c, inside, k - 1) + {k - 1}
    ensures (Neighbour(c, k - 1) in blob.volume) != inside ==>
      Facing(blob, c, inside, k) == Facing(blob, c, inside, k - 1)
  {
  }

  /** Each direction counts on exactly one side. */
  lemma {:induction false} SidesComplement(blob: Lavablob, c: Coord, k: nat)
    requires k <= 6
    ensures Sides(blob, c, false, k) + Sides(blob, c, true, k) == k
  {
    if k > 0 {
      SidesComplement(blob, c, k - 1);
    }
  }

  /** The faces of `c` that touch another cube of the droplet. */
  function Contacts(blob: Lavablob, c: Coord): nat
  {
    Sides(blob, c, true, 6)
  }

  /** `boundaries`: the faces of `c` no other cube covers; none for a cell
      outside the droplet. */
  function Boundaries(blob: Lavablob, c: Coord): (n: nat)
    ensures c !in blob.volume ==> n == 0
    ensures c in blob.volume ==> n + Contacts(blob, c) == 6
    ensures c in blob.volume ==> n == |Facing(blob, c, false, 6)|
  {
    if c !in blob.volume then 0
    else
      SidesComplement(blob, c, 6);
      Sides(blob, c, false, 6)
  }

  function BoundariesOf(blob: Lavablob): Coord -> nat
  {
    c => Boundaries(blob, c)
  }

  function ContactsOf(blob: Lavablob): Coord -> nat
  {
    c => Contacts(blob, c)
  }

  /** The sum of `f` over a set, in any order. */
  ghost function SetSum(cubes: set<Coord>, f: Coord -> nat): nat
  {
    if cubes == {} then 0
    else
      var c :| c in cubes;
      f(c) + SetSum(cubes - {c}, f)
  }

  /** The sum does not depend on which element comes first. */
  lemma {:induction false} SetSumRemove(cubes: set<Coord>, f: Coord -> nat, c: Coord)
    requires c in cubes
    ensures SetSum(cubes, f) == f(c) + SetSum(cubes - {c}, f)
    decreases |cubes|
  {
    var d :| d in cubes && SetSum(cubes, f) == f(d) + SetSum(cubes - {d}, f);
    if d != c {
      SetSumRemove(cubes - {d}, f, c);
      SetSumRemove(cubes - {c}, f, d);
      assert cubes - {d} - {c} == cubes - {c} - {d};
    }
  }

  /** `surface_area`: the boundaries of all cubes added up. */
  ghost function SurfaceArea(blob: Lavablob): nat
  {
    SetSum(blob.volume, BoundariesOf(blob))
  }

  /** Every cube has six faces, and each face that touches another cube is
      not on the surface. */
  lemma SurfaceAreaCountsContacts(blob: Lavablob)
    ensures SurfaceArea(blob) + SetSum(blob.volume, ContactsOf(blob)) == 6 * |blob.volume|
    ensures SurfaceArea(blob) <= 6 * |blob.volume|
  {
    FacesOfPart(blob, blob.volume);
  }

  lemma {:induction false} FacesOfPart(blob: Lavablob, cubes: set<Coord>)
    requires cubes <= blob.volume
    ensures SetSum(cubes, BoundariesOf(blob)) + SetSum(cubes, ContactsOf(blob)) == 6 * |cubes|
    decreases |cubes|
  {
    if cubes != {} {
      var c :| c in cubes;
      SetSumRemove(cubes, BoundariesOf(blob), c);
      SetSumRemove(cubes, ContactsOf(blob), c);
      FacesOfPart(blob, cubes - {c});
      assert BoundariesOf(blob)(c) + ContactsOf(blob)(c) == 6;
    }
  }

  /** A lone cube shows all six faces. */
  lemma SingleCubeArea(c: Coord)
    ensures SurfaceArea(Lavablob({c})) == 6
  {
    var blob := Lavablob({c});
    SetSumRemove(blob.volume, BoundariesOf(blob), c);
    assert blob.volume - {c} == {};
    assert Contacts(blob, c) == 0 by {
      assert Facing(blob, c, true, 6) == {};
    }
  }

  /** Among two cubes, the only contact of `c` is in the direction of the other. */
  lemma OneContact(blob: Lavablob, c: Coord, i: nat)
    requires i < 6 && blob.volume == {c, Neighbour(c, i)}
    ensures Contacts(blob, c) == 1
  {
    var touching := Facing(blob, c, true, 6);
    forall j | 0 <= j < 6
      ensures j in touching <==> j == i
    {
      NeighboursDistinct(c, i, j);
    }
    assert touching == {i};
  }

  /** Two cubes side by side hide one face each: 6 + 6 - 2. */
  lemma TwoAdjacentCubes(c: Coord, i: nat)
    requires i < 6
    ensures SurfaceArea(Lavablob({c, Neighbour(c, i)})) == 10
  {
    var n := Neighbour(c, i);
    var blob := Lavablob({c, n});
    var j := Opposite(i);
    assert Neighbour(n, j) == c;
    assert blob.volume == {n, Neighbour(n, j)};
    OneContact(blob, c, i);
    OneContact(blob, n, j);
    SetSumRemove(blob.volume, BoundariesOf(blob), c);
    assert blob.volume - {c} == {n};
    SetSumRemove({n}, BoundariesOf(blob), n);
    assert {n} - {n} == {};
  }

  // ---------------------------------------------------------------- bounds

  /** `min` inclusive, `max` exclusive, on every axis. */
  predicate Within(c: Coord, min: Coord, max: Coord)
  {
    min.x <= c.x < max.x && min.y <= c.y < max.y && min.z <= c.z < max.z
  }

  /** No face of the box can move inwards: a cube lies on each of them. */
  predicate Tight(volume: set<Coord>, min: Coord, max: Coord)
  {
    (exists c | c in volume :: c.x == min.x) && (exists c | c in volume :: c.x + 1 == max.x) &&
    (exists c | c in volume :: c.y == min.y) && (exists c | c in volume :: c.y + 1 == max.y) &&
    (exists c | c in volume :: c.z == min.z) && (exists c | c in volume :: c.z + 1 == max.z)
  }

  /** `i32::min` and `i32::max`. */
  function Smaller(a: int, b: int): (m: int)
    ensures m <= a && m <= b && (m == a || m == b)
  {
    if a <= b then a else b
  }

  function Larger(a: int, b: int): (m: int)
    ensures m >= a && m >= b && (m == a || m == b)
  {
    if a >= b then a else b
  }

  /** The coordinate of `c` along axis `a` (x, y, z). */
  function Axis(c: Coord, a: nat): int
    requires a < 3
  {
    if a == 0 then c.x else if a == 1 then c.y else c.z
  }

  /** What the loop of `bounds` knows about one axis after visiting `seen`:
      the visited cubes lie in `[lo, hi)`, `first` in `[lo, hi]`, and `low`
      and `high` are cubes on the two faces, where `high` is `first` itself
      while `hi` still is the coordinate of `first`. */
  ghost predicate AxisSpan(seen: set<Coord>, first: Coord, a: nat, lo: int, hi: int, low: Coord, high: Coord)
    requires a < 3
  {
    (forall c | c in seen :: lo <= Axis(c, a) < hi) &&
    lo <= Axis(first, a) <= hi &&
    (low == first || low in seen) && Axis(low, a) == lo &&
    ((high == first && hi == Axis(first, a)) || (high in seen && hi == Axis(high, a) + 1))
  }

  /** Visiting one more cube widens the span to hold it. */
  lemma AxisStep(seen: set<Coord>, first: Coord, a: nat, lo: int, hi: int, low: Coord, high: Coord, c: Coord,
                 lo': int, hi': int, low': Coord, high': Coord)
    requires a < 3 && AxisSpan(seen, first, a, lo, hi, low, high)
    requires lo' == Smaller(lo, Axis(c, a)) && hi' == Larger(hi, Axis(c, a) + 1)
    requires low' == (if Axis(c, a) < lo then c else low) && high' == (if Axis(c, a) + 1 > hi then c else high)
    ensures AxisSpan(seen + {c}, first, a, lo', hi', low', high')
  {
  }

  /** Once every cube, `first` among them, has been visited, both faces
      touch a cube. */
  lemma AxisDone(volume: set<Coord>, first: Coord, a: nat, lo: int, hi: int, low: Coord, high: Coord)
    requires a < 3 && AxisSpan(volume, first, a, lo, hi, low, high) && first in volume
    ensures low in volume && Axis(low, a) == lo
    ensures high in volume && Axis(high, a) + 1 == hi
  {
  }

  /** The loop invariant of `bounds`, axis by axis; `low` and `high` hold
      the face cubes' coordinates as the axis each was found on. */
  ghost predicate Spans(seen: set<Coord>, first: Coord, min: Coord, max: Coord, lows: seq<Coord>, highs: seq<Coord>)
  {
    |lows| == 3 && |highs| == 3 &&
    AxisSpan(seen, first, 0, min.x, max.x, lows[0], highs[0]) &&
    AxisSpan(seen, first, 1, min.y, max.y, lows[1], highs[1]) &&
    AxisSpan(seen, first, 2, min.z, max.z, lows[2], highs[2])
  }

  function Widened(min: Coord, max: Coord, c: Coord): (r: (Coord, Coord))
  {
    (Coord(Smaller(min.x, c.x), Smaller(min.y, c.y), Smaller(min.z, c.z)),
     Coord(Larger(max.x, c.x + 1), Larger(max.y, c.y + 1), Larger(max.z, c.z + 1)))
  }

  ghost function Faces(min: Coord, max: Coord, lows: seq<Coord>, highs: seq<Coord>, c: Coord): (seq<Coord>, seq<Coord>)
    requires |lows| == 3 && |highs| == 3
  {
    ([if c.x < min.x then c else lows[0], if c.y < min.y then c else lows[1], if c.z < min.z then c else lows[2]],
     [if c.x + 1 > max.x then c else highs[0], if c.y + 1 > max.y then c else highs[1], if c.z + 1 > max.z then c else highs[2]])
  }

  /** Visiting one more cube keeps the invariant of `bounds`. */
  lemma Widen(seen: set<Coord>, first: Coord, min: Coord, max: Coord, lows: seq<Coord>, highs: seq<Coord>, c: Coord)
    requires Spans(seen, first, min, max, lows, highs)
    ensures var (min', max') := Widened(min, max, c);
      var (lows', highs') := Faces(min, max, lows, highs, c);
      Spans(seen + {c}, first, min', max', lows', highs')
  {
    var (min', max') := Widened(min, max, c);
    var (lows', highs') := Faces(min, max, lows, highs, c);
    AxisStep(seen, first, 0, min.x, max.x, lows[0], highs[0], c, min'.x, max'.x, lows'[0], highs'[0]);
    AxisStep(seen, first, 1, min.y, max.y, lows[1], highs[1], c, min'.y, max'.y, lows'[1], highs'[1]);
    AxisStep(seen, first, 2, min.z, max.z, lows[2], highs[2], c, min'.z, max'.z, lows'[2], highs'[2]);
  }

  /** `bounds`: the smallest box holding every cube, (1,1,1) to (1,1,1)
      for an empty droplet. The loop starts from an arbitrary cube, as
      the source starts from the first one its set yields, and then visits
      all of them. */
  method Bounds(blob: Lavablob) returns (min: Coord, max: Coord)
    ensures blob.volume == {} ==> min == One && max == One
    ensures forall c | c in blob.volume :: Within(c, min, max)
    ensures blob.volume != {} ==> Tight(blob.volume, min, max)
  {
    var first := One;
    if blob.volume != {} {
      first :| first in blob.volume;
    }
    min, max := first, first;
    var seen: set<Coord> := {};
    // cubes found on the low and high faces of the box, axis by axis
    ghost var lows, highs := [first, first, first], [first, first, first];
    while seen != blob.volume
      invariant seen <= blob.volume
      invariant Spans(seen, first, min, max, lows, highs)
      decreases |blob.volume - seen|
    {
      var c :| c in blob.volume - seen;
      Widen(seen, first, min, max, lows, highs, c);
      lows, highs := Faces(min, max, lows, highs, c).0, Faces(min, max, lows, highs, c).1;
      min, max := Widened(min, max, c).0, Widened(min, max, c).1;
      assert blob.volume - (seen + {c}) < blob.volume - seen;
      seen := seen + {c};
    }
    BoundsDone(blob.volume, first, min, max, lows, highs);
  }

  /** After the loop of `bounds`: the box holds every cube and is tight. */
  lemma BoundsDone(volume: set<Coord>, first: Coord, min: Coord, max: Coord, lows: seq<Coord>, highs: seq<Coord>)
    requires Spans(volume, first, min, max, lows, highs)
    requires volume != {} ==> first in volume
    requires volume == {} ==> min == first && max == first
    ensures forall c | c in volume :: Within(c, min, max)
    ensures volume != {} ==> Tight(volume, min, max)
  {
    if volume != {} {
      AxisDone(volume, first, 0, min.x, max.x, lows[0], highs[0]);
      AxisDone(volume, first, 1, min.y, max.y, lows[1], highs[1]);
      AxisDone(volume, first, 2, min.z, max.z, lows[2], highs[2]);
    }
    forall c | c in volume
      ensures Within(c, min, max)
    {
      assert Axis(c, 0) == c.x && Axis(c, 1) == c.y && Axis(c, 2) == c.z;
    }
  }

  // ---------------------------------------------------------------- region

  /** Inside the box `[min, max)`, as the filters of `region_around` test it. */
  predicate InBox(c: Coord, min: Coord, max: Coord)
  {
    min.x <= c.x <= max.x - 1 && min.y <= c.y <= max.y - 1 && min.z <= c.z <= max.z - 1
  }

  /** A cell the flood may step onto: in the box, and inside the droplet
      exactly when the start is. */
  predicate Eligible(blob: Lavablob, containing: bool, min: Coord, max: Coord, c: Coord)
  {
    InBox(c, min, max) && (c in blob.volume) == containing
  }

  /** A set of cells the flood cannot leave. */
  ghost predicate Closed(blob: Lavablob, containing: bool, min: Coord, max: Coord, cells: set<Coord>)
  {
    forall c, n | c in cells && Adjacent(c, n) && Eligible(blob, containing, min, max, n) :: n in cells
  }

  /** The neighbours of `item`, in the order of the first `k` directions,
      that the flood may step onto and that are not in `region` yet. */
  function Unvisited(blob: Lavablob, containing: bool, min: Coord, max: Coord,
                     region: set<Coord>, item: Coord, k: nat): (r: seq<Coord>)
    requires k <= 6
    ensures |r| <= k
    ensures forall j | 0 <= j < |r| ::
      Adjacent(item, r[j]) && Eligible(blob, containing, min, max, r[j]) && r[j] !in region
    ensures forall i | 0 <= i < k ::
      Eligible(blob, containing, min, max, Neighbour(item, i)) && Neighbour(item, i) !in region ==>
      Neighbour(item, i) in r
  {
    if k == 0 then []
    else
      var r := Unvisited(blob, containing, min, max, region, item, k - 1);
      var n := Neighbour(item, k - 1);
      if n !in region && Eligible(blob, containing, min, max, n) then r + [n] else r
  }

  /** What `region_around` pushes after taking `item`: every neighbour it
      may step onto that is not in the region yet. */
  function Pushed(blob: Lavablob, containing: bool, min: Coord, max: Coord,
                  region: set<Coord>, item: Coord): (r: seq<Coord>)
    ensures |r| <= 6
    ensures forall j | 0 <= j < |r| ::
      Adjacent(item, r[j]) && Eligible(blob, containing, min, max, r[j]) && r[j] !in region
    ensures forall n | Adjacent(item, n) && Eligible(blob, containing, min, max, n) && n !in region :: n in r
  {
    var r := Unvisited(blob, containing, min, max, region, item, 6);
    assert forall n | Adjacent(item, n) :: Neighbour(item, DirectionTo(item, n)) == n;
    r
  }

  /** `region_around`: the cells reachable from `start` in steps across
      faces, each inside the box and inside the droplet exactly when
      `start` is. The stack is a `seq` whose last element is its top. The
      result is the least set that holds `start` and that no such step
      leaves. */
  method RegionAround(blob: Lavablob, start: Coord, min: Coord, max: Coord) returns (region: set<Coord>)
    ensures start in region
    ensures forall c | c in region :: Candidate(blob, start in blob.volume, min, max, start, c)
    ensures Closed(blob, start in blob.volume, min, max, region)
    ensures forall cells | start in cells && Closed(blob, start in blob.volume, min, max, cells) :: region <= cells
  {
    region := {};
    var containing := start in blob.volume;
    var queue := [start];
    // every cell that may ever be taken
    ghost var cells := Cells(min, max, start);
    while queue != []
      invariant Flooding(blob, containing, min, max, start, region, queue)
      invariant forall other | start in other && Closed(blob, containing, min, max, other) ::
        region <= other && forall j | 0 <= j < |queue| :: queue[j] in other
      decreases 12 * |cells - region| + |queue| - (if queue != [] && queue[|queue| - 1] !in region then 6 else 0)
    {
      ghost var region0, queue0 := region, queue;
      var item := queue[|queue| - 1];
      queue := queue[..|queue| - 1];
      if (item in blob.volume) == containing {
        region := region + {item};
      }
      FloodTakes(blob, containing, min, max, start, region0, queue0);
      assert region == region0 + {item};
      var pushed := Pushed(blob, containing, min, max, region, item);
      queue := queue + pushed;
      FloodStep(blob, containing, min, max, start, region0, queue0, item, pushed);
      MeasureDecreases(blob, containing, min, max, start, region0, queue0, item, pushed);
      forall other | start in other && Closed(blob, containing, min, max, other)
        ensures region <= other && forall j | 0 <= j < |queue| :: queue[j] in other
      {
        StepStaysInside(blob, containing, min, max, other, region0, queue0, item, pushed);
      }
    }
    FloodDone(blob, containing, min, max, start, region);
  }

  /** The loop invariant of `region_around`: what is stacked and taken
      may be held, the start is taken first, and every cell the flood may
      step onto from a taken cell is taken or stacked. */
  ghost predicate Flooding(blob: Lavablob, containing: bool, min: Coord, max: Coord, start: Coord,
                           region: set<Coord>, queue: seq<Coord>)
  {
    (forall j | 0 <= j < |queue| :: Candidate(blob, containing, min, max, start, queue[j])) &&
    (forall c | c in region :: Candidate(blob, containing, min, max, start, c)) &&
    (start in region || (region == {} && queue == [start])) &&
    (forall c, n | c in region && Adjacent(c, n) && Eligible(blob, containing, min, max, n) ::
       n in region || n in queue)
  }

  /** The cell on top of the stack may be held. */
  lemma FloodTakes(blob: Lavablob, containing: bool, min: Coord, max: Coord, start: Coord,
                   region: set<Coord>, queue: seq<Coord>)
    requires Flooding(blob, containing, min, max, start, region, queue) && queue != []
    ensures Candidate(blob, containing, min, max, start, queue[|queue| - 1])
  {
  }

  /** Taking the top of the stack and pushing its unvisited neighbours
      keeps the invariant. */
  lemma FloodStep(blob: Lavablob, containing: bool, min: Coord, max: Coord, start: Coord,
                  region: set<Coord>, queue: seq<Coord>, item: Coord, pushed: seq<Coord>)
    requires Flooding(blob, containing, min, max, start, region, queue)
    requires queue != [] && item == queue[|queue| - 1]
    requires pushed == Pushed(blob, containing, min, max, region + {item}, item)
    ensures Flooding(blob, containing, min, max, start, region + {item}, queue[..|queue| - 1] + pushed)
  {
    var rest := queue[..|queue| - 1];
    var queue' := rest + pushed;
    assert queue == rest + [item];
    forall j | 0 <= j < |queue'|
      ensures Candidate(blob, containing, min, max, start, queue'[j])
    {
      if j < |rest| {
        assert queue'[j] == queue[j];
      } else {
        assert queue'[j] == pushed[j - |rest|];
      }
    }
    forall c, n | c in region + {item} && Adjacent(c, n) && Eligible(blob, containing, min, max, n)
      ensures n in region + {item} || n in queue'
    {
      if n !in region + {item} {
        if c == item {
          assert n in pushed;
        } else {
          assert n in queue;
          assert n in rest;
        }
        assert n in queue';
      }
    }
  }

  /** Once the stack is empty, the region is closed. */
  lemma FloodDone(blob: Lavablob, containing: bool, min: Coord, max: Coord, start: Coord, region: set<Coord>)
    requires Flooding(blob, containing, min, max, start, region, [])
    ensures start in region
    ensures forall c | c in region :: Candidate(blob, containing, min, max, start, c)
    ensures Closed(blob, containing, min, max, region)
  {
  }

  /** A cell the flood may hold: the start, or a cell it may step onto. */
  predicate Candidate(blob: Lavablob, containing: bool, min: Coord, max: Coord, start: Coord, c: Coord)
  {
    (c == start || InBox(c, min, max)) && (c in blob.volume) == containing
  }

  /** The box and the start cell, as a finite set. */
  ghost function Cells(min: Coord, max: Coord, start: Coord): set<Coord>
  {
    (set x, y, z | min.x <= x < max.x && min.y <= y < max.y && min.z <= z < max.z :: Coord(x, y, z)) + {start}
  }

  lemma InCells(min: Coord, max: Coord, start: Coord, c: Coord)
    requires c == start || InBox(c, min, max)
    ensures c in Cells(min, max, start)
  {
    if c != start {
      assert Coord(c.x, c.y, c.z) == c;
    }
  }

  /** A step of `region_around` never leaves a closed set holding what
      was taken and stacked so far. */
  lemma StepStaysInside(blob: Lavablob, containing: bool, min: Coord, max: Coord, other: set<Coord>,
                        region: set<Coord>, queue: seq<Coord>, item: Coord, pushed: seq<Coord>)
    requires Closed(blob, containing, min, max, other)
    requires region <= other && forall j | 0 <= j < |queue| :: queue[j] in other
    requires queue != [] && item == queue[|queue| - 1]
    requires pushed == Pushed(blob, containing, min, max, region + {item}, item)
    ensures region + {item} <= other
    ensures var queue' := queue[..|queue| - 1] + pushed; forall j | 0 <= j < |queue'| :: queue'[j] in other
  {
    assert item in other;
    var queue' := queue[..|queue| - 1] + pushed;
    forall j | 0 <= j < |queue'|
      ensures queue'[j] in other
    {
      if j >= |queue| - 1 {
        assert queue'[j] == pushed[j - (|queue| - 1)];
      } else {
        assert queue'[j] == queue[j];
      }
    }
  }

  /** One step of `region_around` lowers the loop's measure. */
  lemma MeasureDecreases(blob: Lavablob, containing: bool, min: Coord, max: Coord, start: Coord,
                         region: set<Coord>, queue: seq<Coord>, item: Coord, pushed: seq<Coord>)
    requires queue != [] && item == queue[|queue| - 1] && Candidate(blob, containing, min, max, start, item)
    requires pushed == Pushed(blob, containing, min, max, region + {item}, item)
    ensures
      var cells := Cells(min, max, start);
      var after := region + {item};
      var queue' := queue[..|queue| - 1] + pushed;
      0 <= 12 * |cells - region| + |queue| - (if item !in region then 6 else 0) &&
      12 * |cells - after| + |queue'| - (if queue' != [] && queue'[|queue'| - 1] !in after then 6 else 0)
      < 12 * |cells - region| + |queue| - (if item !in region then 6 else 0)
  {
    var cells := Cells(min, max, start);
    InCells(min, max, start, item);
    if item !in region {
      assert item in cells - region;
      assert cells - (region + {item}) == (cells - region) - {item};
    } else {
      assert region + {item} == region;
    }
    if pushed != [] {
      var queue' := queue[..|queue| - 1] + pushed;
      assert queue'[|queue'| - 1] == pushed[|pushed| - 1];
    }
  }

  // ---------------------------------------------------------------- parsing

  /** The fields of a line that `parse::<i32>` accepts, in order; the
      others are dropped. */
  function Numbers(fields: seq<String>): (r: seq<int>)
    ensures |r| <= |fields|
    ensures forall k | 0 <= k < |r| :: I32_MIN <= r[k] <= I32_MAX
  {
    if fields == [] then []
    else
      var head := match ParseSigned(fields[0], I32_MIN, I32_MAX) case Some(v) => [v] case None => [];
      head + Numbers(fields[1..])
  }

  /** One line of the scan: a cube when exactly three of its ','-separated
      fields are numbers, as `collect_tuple` demands. */
  function ParseCube(line: String): (r: Option<Coord>)
    ensures r.Some? ==> IsI32Cube(r.value)
  {
    var ns := Numbers(SplitTerminator(line, ","));
    if |ns| == 3 then Some(Coord(ns[0], ns[1], ns[2])) else None
  }

  /** `from_str`: every line that reads as a cube, as a set; lines that do
      not are skipped, so it never fails. */
  function FromStr(s: String): (blob: Lavablob)
    ensures forall c | c in blob.volume :: exists k | 0 <= k < |Lines(s)| :: ParseCube(Lines(s)[k]) == Some(c)
  {
    var lines := Lines(s);
    Lavablob(set k | 0 <= k < |lines| && ParseCube(lines[k]).Some? :: ParseCube(lines[k]).value)
  }

  /** A cube is in the droplet exactly when some line reads as it. */
  lemma InFromStr(s: String, c: Coord)
    ensures c in FromStr(s).volume <==> exists k | 0 <= k < |Lines(s)| :: ParseCube(Lines(s)[k]) == Some(c)
  {
  }

  predicate IsI32Cube(c: Coord)
  {
    I32_MIN <= c.x <= I32_MAX && I32_MIN <= c.y <= I32_MAX && I32_MIN <= c.z <= I32_MAX
  }

  /** A cube written the way the scan lists it. */
  function CubeText(c: Coord): String
  {
    IntToDec(c.x) + "," + IntToDec(c.y) + "," + IntToDec(c.z)
  }

  /** A numeral holds digits and perhaps a '-': no comma, no line break. */
  lemma NumeralChars(i: int)
    ensures ',' !in IntToDec(i) && '\n' !in IntToDec(i)
    ensures IntToDec(i)[|IntToDec(i)| - 1] != '\r'
  {
    var d := IntToDec(i);
    forall k | 0 <= k < |d|
      ensures d[k] != ',' && d[k] != '\n' && d[k] != '\r'
    {
      if i < 0 && k > 0 {
        assert d[k] == NatToDec(-i)[k - 1];
      }
    }
  }

  /** Without a final empty part, `split_terminator` is `split`. */
  lemma SplitTerminatorOfSplit(s: String, sep: String)
    requires |sep| > 0 && Split(s, sep)[|Split(s, sep)| - 1] != []
    ensures SplitTerminator(s, sep) == Split(s, sep)
  {
  }

  /** Three comma-free fields joined by commas split back apart. */
  lemma SplitThree(x: String, y: String, z: String)
    requires ',' !in x && ',' !in y && ',' !in z && z != []
    ensures Split(x + "," + y + "," + z, ",") == [x, y, z]
    ensures SplitTerminator(x + "," + y + "," + z, ",") == [x, y, z]
  {
    assert x + "," + y + "," + z == x + "," + (y + "," + z);
    SplitOfConcat(x, ",", y + "," + z);
    SplitOfConcat(y, ",", z);
    SplitWithout(z, ",");
    SplitTerminatorOfSplit(x + "," + y + "," + z, ",");
  }

  /** Four comma-free fields joined by commas split back apart. */
  lemma SplitFour(w: String, x: String, y: String, z: String)
    requires ',' !in w && ',' !in x && ',' !in y && ',' !in z && z != []
    ensures SplitTerminator(w + "," + x + "," + y + "," + z, ",") == [w, x, y, z]
  {
    var s := w + "," + x + "," + y + "," + z;
    assert s == w + "," + (x + "," + y + "," + z);
    SplitOfConcat(w, ",", x + "," + y + "," + z);
    SplitThree(x, y, z);
    assert Split(s, ",") == [w, x, y, z];
    SplitTerminatorOfSplit(s, ",");
  }

  /** Three numerals read as their three numbers. */
  lemma {:induction false} NumbersOfThree(x: String, y: String, z: String, a: int, b: int, c: int)
    requires ParseSigned(x, I32_MIN, I32_MAX) == Some(a)
    requires ParseSigned(y, I32_MIN, I32_MAX) == Some(b)
    requires ParseSigned(z, I32_MIN, I32_MAX) == Some(c)
    ensures Numbers([x, y, z]) == [a, b, c]
  {
    assert [x, y, z][1..] == [y, z];
    assert [y, z][1..] == [z];
    assert Numbers([z]) == [c];
    assert Numbers([y, z]) == [b, c];
  }

  /** Reading a written cube gives it back. */
  lemma {:induction false} ParseCubeText(c: Coord)
    requires IsI32Cube(c)
    ensures ParseCube(CubeText(c)) == Some(c)
  {
    var x, y, z := IntToDec(c.x), IntToDec(c.y), IntToDec(c.z);
    NumeralChars(c.x);
    NumeralChars(c.y);
    NumeralChars(c.z);
    SplitThree(x, y, z);
    ParseSignedOfNumeral(c.x, I32_MIN, I32_MAX);
    ParseSignedOfNumeral(c.y, I32_MIN, I32_MAX);
    ParseSignedOfNumeral(c.z, I32_MIN, I32_MAX);
    NumbersOfThree(x, y, z, c.x, c.y, c.z);
  }

  /** A written cube is a plain line. */
  lemma CubeTextPlain(c: Coord)
    ensures PlainLine(CubeText(c))
  {
    NumeralChars(c.x);
    NumeralChars(c.y);
    NumeralChars(c.z);
    var t := CubeText(c);
    assert t[|t| - 1] == IntToDec(c.z)[|IntToDec(c.z)| - 1];
  }

  function CubeTexts(cubes: seq<Coord>): (r: seq<String>)
    ensures |r| == |cubes| && forall k | 0 <= k < |cubes| :: r[k] == CubeText(cubes[k])
  {
    if cubes == [] then [] else [CubeText(cubes[0])] + CubeTexts(cubes[1..])
  }

  /** A scan whose lines are written cubes holds exactly those cubes,
      duplicates merged. */
  lemma VolumeOfScan(s: String, cubes: seq<Coord>)
    requires forall k | 0 <= k < |cubes| :: IsI32Cube(cubes[k])
    requires Lines(s) == CubeTexts(cubes)
    ensures FromStr(s).volume == set k | 0 <= k < |cubes| :: cubes[k]
  {
    forall k | 0 <= k < |cubes|
      ensures ParseCube(Lines(s)[k]) == Some(cubes[k])
    {
      ParseCubeText(cubes[k]);
    }
  }

  /** Reading a scan written one cube per line gives back the set of its
      cubes. */
  lemma ScanRoundTrip(cubes: seq<Coord>)
    requires forall k | 0 <= k < |cubes| :: IsI32Cube(cubes[k])
    ensures FromStr(Unlines(CubeTexts(cubes))).volume == set k | 0 <= k < |cubes| :: cubes[k]
  {
    var lines := CubeTexts(cubes);
    forall k | 0 <= k < |lines|
      ensures PlainLine(lines[k])
    {
      CubeTextPlain(cubes[k]);
    }
    LinesOfUnlines(lines);
    VolumeOfScan(Unlines(lines), cubes);
  }

  lemma JunkLineFields(line: String)
    requires line == "1,a,2,3"
    ensures SplitTerminator(line, ",") == ["1", "a", "2", "3"]
  {
    assert line == "1" + "," + "a" + "," + "2" + "," + "3";
    SplitFour("1", "a", "2", "3");
  }

  lemma {:induction false} JunkLineNumbers(fields: seq<String>)
    requires fields == ["1", "a", "2", "3"]
    ensures Numbers(fields) == [1, 2, 3]
  {
    ParseSignedOfNumeral(1, I32_MIN, I32_MAX);
    ParseSignedOfNumeral(2, I32_MIN, I32_MAX);
    ParseSignedOfNumeral(3, I32_MIN, I32_MAX);
    assert IntToDec(1) == "1" && IntToDec(2) == "2" && IntToDec(3) == "3";
    NumbersOfThree("1", "2", "3", 1, 2, 3);
    assert ParseSigned("a", I32_MIN, I32_MAX) == None;
    assert fields[1..] == ["a", "2", "3"] && fields[2..] == ["2", "3"];
    assert Numbers(fields[1..]) == Numbers(fields[2..]);
  }

  lemma ShortLineFields(line: String)
    requires line == "1,2"
    ensures |SplitTerminator(line, ",")| == 2
  {
    assert line == "1" + "," + "2";
    SplitOfConcat("1", ",", "2");
    SplitWithout("2", ",");
  }

  /** A field `parse` rejects is skipped: the three others still make a
      cube, and a line of two numbers makes none. */
  lemma JunkFieldSkipped(junk: String, short: String)
    requires junk == "1,a,2,3" && short == "1,2"
    ensures ParseCube(junk) == Some(Coord(1, 2, 3))
    ensures ParseCube(short) == None
  {
    JunkLineFields(junk);
    JunkLineNumbers(SplitTerminator(junk, ","));
    ShortLineFields(short);
  }

  lemma TwoCubeLines(s: String)
    requires s == "1,1,1\n2,1,1"
    ensures Lines(s) == CubeTexts([Coord(1, 1, 1), Coord(2, 1, 1)])
  {
    var a, b := CubeText(Coord(1, 1, 1)), CubeText(Coord(2, 1, 1));
    assert IntToDec(1) == "1" && IntToDec(2) == "2";
    assert a == "1,1,1" && b == "2,1,1";
    assert s == a + "\n" + b;
    TwoLines(a, b);
  }

  lemma OneCubeLine(s: String)
    requires s == "1,2,3"
    ensures Lines(s) == CubeTexts([Coord(1, 2, 3)])
  {
    var a := CubeText(Coord(1, 2, 3));
    assert IntToDec(1) == "1" && IntToDec(2) == "2" && IntToDec(3) == "3";
    assert a == s;
    OneLine(a);
  }

  /** The set of a scan of two cubes. */
  lemma PairVolume(s: String, a: Coord, b: Coord)
    requires IsI32Cube(a) && IsI32Cube(b) && Lines(s) == CubeTexts([a, b])
    ensures FromStr(s).volume == {a, b}
  {
    VolumeOfScan(s, [a, b]);
    var cubes := [a, b];
    assert (set k | 0 <= k < |cubes| :: cubes[k]) == {a, b} by {
      assert cubes[0] == a && cubes[1] == b;
    }
  }

  /** The set of a scan of one cube. */
  lemma SingleVolume(s: String, c: Coord)
    requires IsI32Cube(c) && Lines(s) == CubeTexts([c])
    ensures FromStr(s).volume == {c}
  {
    VolumeOfScan(s, [c]);
    var cubes := [c];
    assert (set k | 0 <= k < |cubes| :: cubes[k]) == {c} by {
      assert cubes[0] == c;
    }
  }

  /** The tight box around one cube is that cube. */
  lemma BoxOfOne(c: Coord, min: Coord, max: Coord)
    requires Within(c, min, max) && Tight({c}, min, max)
    ensures min == c && max == Add(c, One)
  {
  }

  /** The single cube "1,2,3" spans the box (1,2,3) to (2,3,4). */
  method SingleCubeExample(s: String) returns (min: Coord, max: Coord)
    requires s == "1,2,3"
    ensures min == Coord(1, 2, 3) && max == Coord(2, 3, 4)
  {
    OneCubeLine(s);
    SingleVolume(s, Coord(1, 2, 3));
    min, max := Bounds(FromStr(s));
    BoxOfOne(Coord(1, 2, 3), min, max);
  }

  /** "1,1,1" and "2,1,1" share one face: 10 faces show. */
  lemma TwoCubesExample(s: String)
    requires s == "1,1,1\n2,1,1"
    ensures SurfaceArea(FromStr(s)) == 10
  {
    var a := Coord(1, 1, 1);
    TwoCubeLines(s);
    PairVolume(s, a, Neighbour(a, 0));
    TwoAdjacentCubes(a, 0);
  }
}
