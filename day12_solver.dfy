/** Day 12, the search: a breadth-first search from the start over cells at
    most one letter higher than the cell before, stopping at the finish and
    reading the path back along the recorded parents. */
module Day12Solver {
  import opened Wrappers
  import opened Seqs
  import opened Day12Grid

  /** The neighbours in the order `solve_once` tries them. */
  const Steps: seq<Coord> := [Coord(-1, 0), Coord(1, 0), Coord(0, -1), Coord(0, 1)]

  /** `c as u8`: the low byte of the character's code. */
  function Byte(c: char): nat
  {
    (c as int) % 256
  }

  /** `cost as u8 <= current_cost as u8 + 1`. */
  predicate Climbable(from: char, to: char)
  {
    Byte(to) <= Byte(from) + 1
  }

  predicate Adjacent(a: Coord, b: Coord)
  {
    || (a.x == b.x && (a.y - b.y == 1 || b.y - a.y == 1))
    || (a.y == b.y && (a.x - b.x == 1 || b.x - a.x == 1))
  }

  /** The cells `steps` lead to from `c`. */
  function Around(c: Coord, steps: seq<Coord>): (r: seq<Coord>)
    ensures |r| == |steps| && forall k | 0 <= k < |steps| :: r[k] == c.Plus(steps[k])
  {
    if steps == [] then [] else [c.Plus(steps[0])] + Around(c, steps[1..])
  }

  /** The four cells around `c` are exactly its adjacent cells. */
  lemma AroundIsAdjacent(c: Coord, n: Coord)
    ensures n in Around(c, Steps) <==> Adjacent(c, n)
  {
    var a := Around(c, Steps);
    if Adjacent(c, n) {
      if n.x == c.x - 1 {
        assert n == a[0];
      } else if n.x == c.x + 1 {
        assert n == a[1];
      } else if n.y == c.y - 1 {
        assert n == a[2];
      } else {
        assert n == a[3];
      }
    }
  }

  // ---------------------------------------------------------------- one expansion, as values

  /** The queue and the parent map of the search. */
  datatype Frontier = Frontier(queue: seq<Coord>, visited: map<Coord, Option<Coord>>)

  /** A neighbour joins the search when it is on the grid, at most one
      letter higher than the current cell and not seen before. */
  predicate Joins(grid: map<Coord, char>, current: Coord, visited: map<Coord, Option<Coord>>, n: Coord)
    requires current in grid
  {
    n in grid && Climbable(grid[current], grid[n]) && n !in visited
  }

  /** The loop over the neighbours in `solve_once`: each one that joins is
      recorded with the current cell as its parent and queued at the back. */
  function Expand(grid: map<Coord, char>, current: Coord, f: Frontier, steps: seq<Coord>): Frontier
    requires current in grid
    decreases |steps|
  {
    if steps == [] then f
    else
      var n := current.Plus(steps[0]);
      var next := if Joins(grid, current, f.visited, n) then Frontier(f.queue + [n], f.visited[n := Some(current)]) else f;
      Expand(grid, current, next, steps[1..])
  }

  /** The whole loop over the four neighbours. */
  function ExpandAround(grid: map<Coord, char>, current: Coord, f: Frontier): Frontier
    requires current in grid
  {
    Expand(grid, current, f, Steps)
  }

  /** The neighbours that join, in the order they are tried. */
  function Joining(grid: map<Coord, char>, current: Coord, visited: map<Coord, Option<Coord>>, steps: seq<Coord>): (r: seq<Coord>)
    requires current in grid
    ensures forall n :: n in r <==> n in Around(current, steps) && Joins(grid, current, visited, n)
  {
    if steps == [] then []
    else
      var n := current.Plus(steps[0]);
      (if Joins(grid, current, visited, n) then [n] else []) + Joining(grid, current, visited, steps[1..])
  }

  predicate DistinctSteps(steps: seq<Coord>)
  {
    forall i, j | 0 <= i < j < |steps| :: steps[i] != steps[j]
  }

  lemma JoiningIgnores(grid: map<Coord, char>, current: Coord, visited: map<Coord, Option<Coord>>,
                       n: Coord, v: Option<Coord>, steps: seq<Coord>)
    requires current in grid && n !in Around(current, steps)
    ensures Joining(grid, current, visited[n := v], steps) == Joining(grid, current, visited, steps)
  {
    if steps != [] {
      assert Around(current, steps[1..]) == Around(current, steps)[1..];
      JoiningIgnores(grid, current, visited, n, v, steps[1..]);
    }
  }

  /** An expansion queues exactly the joining neighbours, in order, and
      records the current cell as the parent of each and of nothing else. */
  lemma {:induction false} ExpandJoins(grid: map<Coord, char>, current: Coord, f: Frontier, steps: seq<Coord>)
    requires current in grid && DistinctSteps(steps)
    ensures Expanded(grid, current, f, steps, Expand(grid, current, f, steps))
    decreases |steps|
  {
    if steps != [] {
      var n := current.Plus(steps[0]);
      var rest := steps[1..];
      assert DistinctSteps(rest);
      if Joins(grid, current, f.visited, n) {
        var next := Frontier(f.queue + [n], f.visited[n := Some(current)]);
        assert Expand(grid, current, f, steps) == Expand(grid, current, next, rest);
        ExpandJoins(grid, current, next, rest);
        NotAroundAgain(current, steps);
        JoiningIgnores(grid, current, f.visited, n, Some(current), rest);
        ExpandedStep(grid, current, f, steps, Expand(grid, current, next, rest));
      } else {
        assert Joining(grid, current, f.visited, steps) == Joining(grid, current, f.visited, rest);
        assert Expand(grid, current, f, steps) == Expand(grid, current, f, rest);
        ExpandJoins(grid, current, f, rest);
      }
    }
  }

  /** What an expansion `e` of `f` over `steps` does: it queues exactly the
      joining neighbours, in order, and records the current cell as the
      parent of each and of nothing else. */
  ghost predicate Expanded(grid: map<Coord, char>, current: Coord, f: Frontier, steps: seq<Coord>, e: Frontier)
    requires current in grid
  {
    && e.queue == f.queue + Joining(grid, current, f.visited, steps)
    && (forall n :: n in e.visited <==> n in f.visited || n in Joining(grid, current, f.visited, steps))
    && (forall n | n in e.visited :: e.visited[n] == if n in f.visited then f.visited[n] else Some(current))
  }

  /** The first neighbour joins: expanding the rest from the frontier
      that records it is expanding all of the steps. */
  lemma ExpandedStep(grid: map<Coord, char>, current: Coord, f: Frontier, steps: seq<Coord>, e: Frontier)
    requires current in grid && steps != [] && Joins(grid, current, f.visited, current.Plus(steps[0]))
    requires var n := current.Plus(steps[0]);
      Expanded(grid, current, Frontier(f.queue + [n], f.visited[n := Some(current)]), steps[1..], e)
    requires var n := current.Plus(steps[0]);
      Joining(grid, current, f.visited[n := Some(current)], steps[1..]) == Joining(grid, current, f.visited, steps[1..])
    ensures Expanded(grid, current, f, steps, e)
  {
    var n := current.Plus(steps[0]);
    var js := Joining(grid, current, f.visited, steps[1..]);
    assert Joining(grid, current, f.visited, steps) == [n] + js;
    assert e.queue == f.queue + [n] + js;
  }

  /** With distinct steps, the first neighbour is not reached again by the others. */
  lemma NotAroundAgain(current: Coord, steps: seq<Coord>)
    requires DistinctSteps(steps) && steps != []
    ensures current.Plus(steps[0]) !in Around(current, steps[1..])
  {
    var rest := steps[1..];
    forall k | 0 <= k < |rest|
      ensures Around(current, rest)[k] != current.Plus(steps[0])
    {
      assert steps[k + 1] != steps[0];
    }
  }

  // ---------------------------------------------------------------- the search's bookkeeping

  predicate Distinct(s: seq<Coord>)
  {
    forall i, j | 0 <= i < j < |s| :: s[i] != s[j]
  }

  /** A cell's parent is recorded one step closer to the start, next to it
      and at most one letter lower; only the start has no parent. */
  predicate Linked(h: Heightmap, visited: map<Coord, Option<Coord>>, depth: map<Coord, nat>, c: Coord)
    requires c in visited && c in depth
  {
    match visited[c]
    case None => c == h.start && depth[c] == 0
    case Some(p) =>
      && p in visited && p in depth && depth[p] + 1 == depth[c]
      && p in h.grid && c in h.grid && Adjacent(p, c) && Climbable(h.grid[p], h.grid[c])
  }

  predicate Parents(h: Heightmap, visited: map<Coord, Option<Coord>>, depth: map<Coord, nat>)
  {
    && visited.Keys == depth.Keys
    && forall c {:trigger visited[c]} | c in visited :: c in h.grid && Linked(h, visited, depth, c)
  }

  /** The state of a breadth-first search: `enqueued` lists every cell ever
      queued, `popped` how many have left the queue, and the cells ever
      queued are exactly the visited ones, as many as there are of them
      (so each is queued once, `QueuedOnce`). */
  ghost predicate Searching(h: Heightmap, queue: seq<Coord>, visited: map<Coord, Option<Coord>>,
                      depth: map<Coord, nat>, enqueued: seq<Coord>, popped: nat)
  {
    && h.start in h.grid
    && popped <= |enqueued| && queue == enqueued[popped..]
    && |enqueued| == |visited.Keys|
    && (forall i | 0 <= i < |enqueued| :: enqueued[i] in visited)
    && (forall c | c in visited :: c in enqueued)
    && h.start in visited && visited[h.start] == None
    && Parents(h, visited, depth)
  }

  /** The path read back from `x` along the parents, start first. */
  function PathTo(h: Heightmap, visited: map<Coord, Option<Coord>>, depth: map<Coord, nat>, x: Coord): (path: seq<Coord>)
    requires Parents(h, visited, depth) && x in visited
    ensures |path| == depth[x] + 1 && path[0] == h.start && path[|path| - 1] == x
    ensures forall i | 0 <= i < |path| :: path[i] in h.grid
    ensures forall i, j | 0 <= i && j == i + 1 && j < |path| :: Adjacent(path[i], path[j]) && Climbable(h.grid[path[i]], h.grid[path[j]])
    decreases depth[x]
  {
    match visited[x]
    case None => [x]
    case Some(p) => PathTo(h, visited, depth, p) + [x]
  }

  lemma PopKeeps(h: Heightmap, queue: seq<Coord>, visited: map<Coord, Option<Coord>>,
                 depth: map<Coord, nat>, enqueued: seq<Coord>, popped: nat)
    requires Searching(h, queue, visited, depth, enqueued, popped) && queue != []
    ensures Searching(h, queue[1..], visited, depth, enqueued, popped + 1)
    ensures queue[0] in visited && queue[0] in h.grid
  {
    assert queue[0] == enqueued[popped];
    assert visited[queue[0]] == visited[queue[0]];
  }

  lemma JoinKeeps(h: Heightmap, queue: seq<Coord>, visited: map<Coord, Option<Coord>>,
                  depth: map<Coord, nat>, enqueued: seq<Coord>, popped: nat, current: Coord, n: Coord)
    requires Searching(h, queue, visited, depth, enqueued, popped)
    requires current in visited && Adjacent(current, n) && current in h.grid && Joins(h.grid, current, visited, n)
    ensures Searching(h, queue + [n], visited[n := Some(current)], depth[n := depth[current] + 1], enqueued + [n], popped)
  {
    var v := visited[n := Some(current)];
    var d := depth[n := depth[current] + 1];
    var e := enqueued + [n];
    assert queue + [n] == e[popped..];
    assert v.Keys == visited.Keys + {n};
    JoinParents(h, visited, depth, current, n);
  }

  lemma JoinParents(h: Heightmap, visited: map<Coord, Option<Coord>>, depth: map<Coord, nat>, current: Coord, n: Coord)
    requires Parents(h, visited, depth)
    requires current in visited && Adjacent(current, n) && current in h.grid && Joins(h.grid, current, visited, n)
    ensures Parents(h, visited[n := Some(current)], depth[n := depth[current] + 1])
  {
    var v := visited[n := Some(current)];
    var d := depth[n := depth[current] + 1];
    assert current != n && v[n] == Some(current) && d[n] == d[current] + 1;
    forall c | c in v
      ensures c in h.grid && Linked(h, v, d, c)
    {
      if c != n {
        assert visited[c] == v[c];
        LinkKept(h, visited, depth, c, n, v, d);
      }
    }
  }

  /** A cell already visited keeps its link when `n`, not visited yet, is
      recorded. */
  lemma LinkKept(h: Heightmap, visited: map<Coord, Option<Coord>>, depth: map<Coord, nat>, c: Coord, n: Coord,
                 v: map<Coord, Option<Coord>>, d: map<Coord, nat>)
    requires Parents(h, visited, depth) && c in visited && n !in visited
    requires v.Keys == visited.Keys + {n} && d.Keys == depth.Keys + {n}
    requires forall x | x in visited :: v[x] == visited[x] && d[x] == depth[x]
    ensures Linked(h, v, d, c)
  {
    assert Linked(h, visited, depth, c);
  }

  /** The walk back from `current` along the parents in `solve_once`,
      reversed so that the start comes first. */
  method TracePath(h: Heightmap, visited: map<Coord, Option<Coord>>, ghost depth: map<Coord, nat>, current: Coord)
    returns (path: Option<seq<Coord>>)
    requires Parents(h, visited, depth) && current in visited
    ensures path == Some(PathTo(h, visited, depth, current))
  {
    var trail := [current];
    var x := current;
    while visited[x].Some?
      invariant x in visited && Traced(h, visited, depth, current, x, trail)
      decreases depth[x]
    {
      var parent := visited[x].value;
      TraceStep(h, visited, depth, current, x, trail);
      trail := trail + [parent];
      x := parent;
    }
    TraceEnd(h, visited, depth, current, x, trail);
    return Some(Reverse(trail));
  }

  /** `trail` runs back from `current` to `x`, and the path to `x` followed
      by the rest of the reversed trail is the path to `current`. */
  ghost predicate Traced(h: Heightmap, visited: map<Coord, Option<Coord>>, depth: map<Coord, nat>,
                         current: Coord, x: Coord, trail: seq<Coord>)
    requires Parents(h, visited, depth) && current in visited && x in visited
  {
    && trail != [] && trail[|trail| - 1] == x
    && PathTo(h, visited, depth, x) + Reverse(trail)[1..] == PathTo(h, visited, depth, current)
  }

  lemma TraceStep(h: Heightmap, visited: map<Coord, Option<Coord>>, depth: map<Coord, nat>,
                  current: Coord, x: Coord, trail: seq<Coord>)
    requires Parents(h, visited, depth) && current in visited && x in visited && visited[x].Some?
    requires Traced(h, visited, depth, current, x, trail)
    ensures visited[x].value in visited && Traced(h, visited, depth, current, visited[x].value, trail + [visited[x].value])
  {
    var p := visited[x].value;
    ReverseAppend(trail, [p]);
    assert Reverse(trail + [p])[1..] == Reverse(trail);
    assert Reverse(trail) == [x] + Reverse(trail)[1..];
    assert Linked(h, visited, depth, x);
    assert PathTo(h, visited, depth, x) == PathTo(h, visited, depth, p) + [x];
  }

  lemma TraceEnd(h: Heightmap, visited: map<Coord, Option<Coord>>, depth: map<Coord, nat>,
                 current: Coord, x: Coord, trail: seq<Coord>)
    requires Parents(h, visited, depth) && current in visited && x in visited && visited[x].None?
    requires Traced(h, visited, depth, current, x, trail)
    ensures Reverse(trail) == PathTo(h, visited, depth, current)
  {
    assert PathTo(h, visited, depth, x) == [x];
    assert Reverse(trail) == [x] + Reverse(trail)[1..];
  }

  /** One neighbour in `solve_once`: when it is on the grid, at most one
      letter higher and unvisited, it is recorded with `current` as its
      parent and queued at the back. */
  method Visit(h: Heightmap, current: Coord, neighbor: Coord, queue: seq<Coord>, seen: map<Coord, Option<Coord>>,
               ghost depths: map<Coord, nat>, ghost queued: seq<Coord>, ghost popped: nat)
    returns (queue': seq<Coord>, seen': map<Coord, Option<Coord>>, ghost depths': map<Coord, nat>, ghost queued': seq<Coord>)
    requires Searching(h, queue, seen, depths, queued, popped) && current in seen && current in h.grid
    requires neighbor in Around(current, Steps)
    ensures Searching(h, queue', seen', depths', queued', popped) && current in seen' && |queued'| >= |queued|
    ensures Frontier(queue', seen') ==
      if Joins(h.grid, current, seen, neighbor) then Frontier(queue + [neighbor], seen[neighbor := Some(current)])
      else Frontier(queue, seen)
  {
    var grid := h.grid;
    if neighbor in grid && Climbable(grid[current], grid[neighbor]) && neighbor !in seen {
      AroundIsAdjacent(current, neighbor);
      JoinKeeps(h, queue, seen, depths, queued, popped, current, neighbor);
      seen' := seen[neighbor := Some(current)];
      queue' := queue + [neighbor];
      depths' := depths[neighbor := depths[current] + 1];
      queued' := queued + [neighbor];
    } else {
      queue', seen', depths', queued' := queue, seen, depths, queued;
    }
  }

  /** The front cell leaves the queue and its neighbours are tried in
      turn, as in `solve_once` when the front cell is not the finish. */
  method ExpandFront(h: Heightmap, queue: seq<Coord>, seen: map<Coord, Option<Coord>>,
                     ghost depths: map<Coord, nat>, ghost queued: seq<Coord>, ghost popped: nat)
    returns (queue': seq<Coord>, seen': map<Coord, Option<Coord>>, ghost depths': map<Coord, nat>, ghost queued': seq<Coord>)
    requires Searching(h, queue, seen, depths, queued, popped) && queue != []
    ensures Searching(h, queue', seen', depths', queued', popped + 1) && |queued'| >= |queued|
    ensures queue[0] in h.grid
    ensures Frontier(queue', seen') == ExpandAround(h.grid, queue[0], Frontier(queue[1..], seen))
  {
    var current := queue[0];
    PopKeeps(h, queue, seen, depths, queued, popped);
    queue', seen', depths', queued' := queue[1..], seen, depths, queued;
    for k := 0 to |Steps|
      invariant Searching(h, queue', seen', depths', queued', popped + 1)
      invariant current in seen'
      invariant Expand(h.grid, current, Frontier(queue', seen'), Steps[k..]) == ExpandAround(h.grid, current, Frontier(queue[1..], seen))
      invariant |queued'| >= |queued|
    {
      assert Steps[k..][1..] == Steps[k + 1..];
      queue', seen', depths', queued' := Visit(h, current, current.Plus(Steps[k]), queue', seen', depths', queued', popped + 1);
    }
  }

  /** A set whose every element occurs in a sequence is no larger than it. */
  lemma {:induction false} CoveredBound(cells: set<Coord>, s: seq<Coord>)
    requires forall c | c in cells :: c in s
    ensures |cells| <= |s|
  {
    if s != [] {
      forall c | c in cells - {s[0]}
        ensures c in s[1..]
      {
        var i :| 0 <= i < |s| && s[i] == c;
        assert s[1..][i - 1] == c;
      }
      CoveredBound(cells - {s[0]}, s[1..]);
    } else {
      assert cells == {} by {
        forall c | c in cells
          ensures false
        {
        }
      }
    }
  }

  /** A sequence that covers a set as large as itself repeats nothing. */
  lemma CoverNoRepeat(cells: set<Coord>, s: seq<Coord>, i: nat, j: nat)
    requires (forall c | c in cells :: c in s) && |s| == |cells| && i < j < |s|
    ensures s[i] != s[j]
  {
    if s[i] == s[j] {
      var rest := s[..j] + s[j + 1..];
      forall c | c in cells
        ensures c in rest
      {
        var k :| 0 <= k < |s| && s[k] == c;
        if k < j {
          assert rest[k] == c;
        } else if k == j {
          assert rest[i] == c;
        } else {
          assert rest[k - 1] == c;
        }
      }
      CoveredBound(cells, rest);
      assert false;
    }
  }

  /** Each cell enters the queue at most once. */
  lemma QueuedOnce(h: Heightmap, queue: seq<Coord>, visited: map<Coord, Option<Coord>>,
                   depth: map<Coord, nat>, enqueued: seq<Coord>, popped: nat)
    requires Searching(h, queue, visited, depth, enqueued, popped)
    ensures Distinct(enqueued)
  {
    forall c | c in visited.Keys
      ensures c in enqueued
    {
      assert visited[c] == visited[c];
    }
    forall i, j | 0 <= i < j < |enqueued|
      ensures enqueued[i] != enqueued[j]
    {
      CoverNoRepeat(visited.Keys, enqueued, i, j);
    }
  }

  /** The cells seen lie on the grid, so no more cells can be queued than
      the grid holds. */
  lemma QueuedBound(h: Heightmap, queue: seq<Coord>, visited: map<Coord, Option<Coord>>,
                    depth: map<Coord, nat>, enqueued: seq<Coord>, popped: nat)
    requires Searching(h, queue, visited, depth, enqueued, popped)
    ensures |enqueued| <= |h.grid.Keys|
  {
    assert visited.Keys <= h.grid.Keys by {
      forall c | c in visited.Keys
        ensures c in h.grid
      {
        assert visited[c] == visited[c];
      }
    }
    assert |visited.Keys| <= |h.grid.Keys| by {
      SubsetCard(visited.Keys, h.grid.Keys);
    }
  }

  lemma {:induction false} SubsetCard(a: set<Coord>, b: set<Coord>)
    requires a <= b
    ensures |a| <= |b|
  {
    if a != {} {
      var x :| x in a;
      SubsetCard(a - {x}, b - {x});
    }
  }

  // ---------------------------------------------------------------- the solver in place

  /** `Dijkstra`: the queue of cells still to expand, the parent of every
      cell seen, the heightmap, and the path once the finish is reached. */
  class Dijkstra {
    var unvisited: seq<Coord>
    var visited: map<Coord, Option<Coord>>
    const heightmap: Heightmap
    var path: Option<seq<Coord>>
    ghost var depth: map<Coord, nat>
    ghost var enqueued: seq<Coord>
    ghost var popped: nat

    ghost predicate Valid()
      reads this
    {
      Searching(heightmap, unvisited, visited, depth, enqueued, popped)
    }

    /** What is left to do: cells not yet queued count twice, queued ones
        not yet expanded once. */
    ghost function Remaining(): int
      reads this
    {
      2 * |heightmap.grid.Keys| - |enqueued| - popped
    }

    /** No more cells can be queued than the grid holds, so what is left is never negative. */
    lemma RemainingBound()
      requires Valid()
      ensures Remaining() >= 0
    {
      QueuedBound(heightmap, unvisited, visited, depth, enqueued, popped);
    }

    /** `new`: the queue holds the start, the only cell seen, without a
        parent. */
    constructor (map_: Heightmap)
      requires map_.start in map_.grid
      ensures heightmap == map_ && unvisited == [map_.start]
      ensures visited == map[map_.start := None] && path == None
      ensures Valid()
    {
      heightmap := map_;
      unvisited := [map_.start];
      visited := map[map_.start := None];
      path := None;
      depth := map[map_.start := 0];
      enqueued := [map_.start];
      popped := 0;
    }

    /** `solve_once`: an empty queue is an error; otherwise the front cell
        leaves the queue, and either it is the finish and the path is read
        back, or its joining neighbours are queued. */
    method SolveOnce() returns (r: Result<bool, TwelfthError>)
      requires Valid()
      modifies this
      ensures Valid()
      ensures r.Err? <==> old(unvisited) == []
      ensures r.Err? ==> r.error == SolverCouldNotFindASolutionToTarget && unchanged(this)
      ensures r == Ok(true) <==> old(unvisited) != [] && old(unvisited)[0] == heightmap.finish
      ensures r == Ok(true) ==>
        && unvisited == old(unvisited)[1..] && visited == old(visited)
        && heightmap.finish in visited && path == Some(PathTo(heightmap, visited, depth, heightmap.finish))
      ensures r == Ok(false) ==>
        && path == old(path) && Remaining() < old(Remaining())
        && Frontier(unvisited, visited) ==
           ExpandAround(heightmap.grid, old(unvisited)[0], Frontier(old(unvisited)[1..], old(visited)))
    {
      if unvisited == [] {
        return Err(SolverCouldNotFindASolutionToTarget);
      }
      if heightmap.finish == unvisited[0] {
        Arrive();
        return Ok(true);
      }
      Advance();
      return Ok(false);
    }

    /** The finish leaves the queue and the path to it is read back. */
    method Arrive()
      requires Valid() && unvisited != [] && unvisited[0] == heightmap.finish
      modifies this
      ensures Valid()
      ensures unvisited == old(unvisited)[1..] && visited == old(visited)
      ensures heightmap.finish in visited && path == Some(PathTo(heightmap, visited, depth, heightmap.finish))
    {
      var current := unvisited[0];
      PopKeeps(heightmap, unvisited, visited, depth, enqueued, popped);
      path := TracePath(heightmap, visited, depth, current);
      unvisited, popped := unvisited[1..], popped + 1;
    }

    /** The front cell leaves the queue and its joining neighbours are queued. */
    method Advance()
      requires Valid() && unvisited != []
      modifies this`unvisited, this`visited, this`depth, this`enqueued, this`popped
      ensures Valid()
      ensures Remaining() < old(Remaining())
      ensures Frontier(unvisited, visited) ==
        ExpandAround(heightmap.grid, old(unvisited)[0], Frontier(old(unvisited)[1..], old(visited)))
    {
      var front, seenBefore := unvisited, visited;
      var queue, seen, depths, queued := ExpandFront(heightmap, front, seenBefore, depth, enqueued, popped);
      unvisited, visited, depth, enqueued, popped := queue, seen, depths, queued, popped + 1;
    }

    /** `while !solver.solve_once()? {}`: expand until the finish is reached
        or the queue runs dry; the search always ends. */
    method Solve() returns (r: Result<(), TwelfthError>)
      requires Valid()
      modifies this
      ensures Valid()
      ensures r.Ok? ==> heightmap.finish in visited && path == Some(PathTo(heightmap, visited, depth, heightmap.finish))
      ensures r.Err? ==> r.error == SolverCouldNotFindASolutionToTarget
    {
      while true
        invariant Valid()
        decreases Remaining()
      {
        var step := SolveOnce();
        if step.Err? {
          return Err(step.error);
        }
        if step.value {
          return Ok(());
        }
        RemainingBound();
      }
    }
  }
}
