/** Day 24, the search: from the entry, each minute the walker steps to a
    neighbouring cell or waits, never standing on a wall or in a blizzard of
    that minute, until it reaches the exit. The search is best-first over
    (minute, cell) pairs; the valley of each minute is computed once and
    kept. */
module Day24 {
  import opened Wrappers
  import opened Ints
  import opened Seqs
  import opened Text
  import opened Day24Valley

  /** `Possibility`: the walker on `coord` at minute `time`, heading for
      `target`, and the possibility it came from. */
  datatype Possibility = Possibility(time: nat, coord: Coord, target: Coord, parent: Option<Possibility>)

  /** A (minute, cell) pair, what the `seen` set records. */
  type Key = (nat, Coord)

  function KeyOf(p: Possibility): Key { (p.time, p.coord) }

  /** `manhattan`: the distance left to the target. */
  function Manhattan(p: Possibility): (r: nat)
    ensures r == 0 <==> p.coord == p.target
  {
    Abs(p.target.x - p.coord.x) + Abs(p.target.y - p.coord.y)
  }

  /** `heureristic`: minutes spent plus the distance left. */
  function Heuristic(p: Possibility): (r: int)
    ensures r >= p.time
    ensures r == p.time <==> p.coord == p.target
  {
    p.time + Manhattan(p)
  }

  /** `Ord::cmp`: possibilities compare by their distance to the target. */
  function Cmp(p: Possibility, q: Possibility): (r: Ordering)
    ensures r == Less <==> Manhattan(p) < Manhattan(q)
    ensures r == Greater <==> Manhattan(q) < Manhattan(p)
    ensures p.time == q.time ==> (r == Less <==> Heuristic(p) < Heuristic(q))
  {
    if Manhattan(p) < Manhattan(q) then Less
    else if Manhattan(p) == Manhattan(q) then Equal
    else Greater
  }

  /** `Ord::cmp` orders by distance alone: it is antisymmetric, transitive
      and ignores the minute and the parent. */
  lemma CmpIsDistanceOrder(p: Possibility, q: Possibility, o: Possibility)
    ensures Cmp(p, q) == Less <==> Cmp(q, p) == Greater
    ensures Cmp(p, q) == Equal <==> Manhattan(p) == Manhattan(q)
    ensures Cmp(p, q) == Less && Cmp(q, o) == Less ==> Cmp(p, o) == Less
    ensures Cmp(p.(time := o.time, parent := o.parent), q) == Cmp(p, q)
  {
  }

  /** The ordering test: towards (10, 10), (5, 5) is nearer than (4, 5),
      farther than (6, 5), and as near as (4, 6). */
  lemma CmpSamples()
    ensures var t := Coord(10, 10);
      && Cmp(Possibility(0, Coord(5, 5), t, None), Possibility(0, Coord(4, 5), t, None)) == Less
      && Cmp(Possibility(0, Coord(5, 5), t, None), Possibility(0, Coord(6, 5), t, None)) == Greater
      && Cmp(Possibility(0, Coord(4, 5), t, None), Possibility(0, Coord(6, 5), t, None)) == Greater
      && Cmp(Possibility(0, Coord(5, 5), t, None), Possibility(0, Coord(4, 6), t, None)) == Equal
  {
  }

  /** The cell itself or one of its four neighbours. */
  predicate Near(a: Coord, b: Coord)
  {
    Abs(a.x - b.x) + Abs(a.y - b.y) <= 1
  }

  /** `options`: a step up, down, left or right, then waiting; each a minute
      later, heading for the same target, with `p` as parent. */
  function Options(p: Possibility): (r: seq<Possibility>)
    ensures |r| == 5
    ensures forall i | 0 <= i < 5 :: r[i].time == p.time + 1 && r[i].target == p.target && r[i].parent == Some(p)
    ensures r[4].coord == p.coord
    ensures forall i | 0 <= i < 5 :: Near(p.coord, r[i].coord)
  {
    var step := (d: Direction) => Possibility(p.time + 1, p.coord.Plus(Unit(d)), p.target, Some(p));
    [step(Up), step(Down), step(Left), step(Right), Possibility(p.time + 1, p.coord, p.target, Some(p))]
  }

  /** The five options reach exactly the cells near `p`. */
  lemma OptionsAreNear(p: Possibility, c: Coord)
    ensures Near(p.coord, c) <==> exists i | 0 <= i < 5 :: Options(p)[i].coord == c
  {
    var r := Options(p);
    if Near(p.coord, c) {
      if c.x < p.coord.x {
        assert r[2].coord == c;
      } else if c.x > p.coord.x {
        assert r[3].coord == c;
      } else if c.y < p.coord.y {
        assert r[0].coord == c;
      } else if c.y > p.coord.y {
        assert r[1].coord == c;
      } else {
        assert r[4].coord == c;
      }
    }
  }

  // ---------------------------------------------------------------- walks

  /** A walker may stand on `c` at minute `t`: inside the valley and out of
      that minute's blizzards. */
  ghost predicate Open(v0: Valley, t: nat, c: Coord)
  {
    Inside(After(v0, t), c) && BlizzardsAt(After(v0, t), c) == {}
  }

  /** `p` and its ancestors form a walk from the entry at minute 0, one
      minute and at most one cell per step, on open cells only. */
  ghost predicate Walked(v0: Valley, p: Possibility)
    decreases p
  {
    && p.target == v0.exit
    && if p.parent.None? then p.time == 0 && p.coord == v0.entry
       else
         var q := p.parent.value;
         && Walked(v0, q) && p.time == q.time + 1 && Near(q.coord, p.coord)
         && Open(v0, p.time, p.coord)
  }

  /** The possibilities from the first to `p`, following parents back. */
  function Chain(p: Possibility): seq<Possibility>
    decreases p
  {
    if p.parent.None? then [p] else Chain(p.parent.value) + [p]
  }

  /** Following parents back: the chain ends on `p`, begins with a
      possibility without parent, and each link is the parent of the next. */
  lemma {:induction false} ChainLinks(p: Possibility)
    ensures |Chain(p)| >= 1 && Chain(p)[|Chain(p)| - 1] == p && Chain(p)[0].parent.None?
    ensures forall i | 1 <= i < |Chain(p)| :: Chain(p)[i].parent == Some(Chain(p)[i - 1])
    ensures forall i | 0 <= i < |Chain(p)| :: Chain(p)[i].parent.None? <==> i == 0
    decreases p
  {
    if p.parent.Some? {
      ChainLinks(p.parent.value);
    }
  }

  /** Along a walk the chain's minutes count up from 0. */
  lemma {:induction false} ChainTimes(v0: Valley, p: Possibility)
    requires Walked(v0, p)
    ensures |Chain(p)| == p.time + 1
    ensures forall i | 0 <= i < |Chain(p)| :: Chain(p)[i].time == i
    decreases p
  {
    if p.parent.Some? {
      ChainTimes(v0, p.parent.value);
    }
  }

  /** Along a walk the chain starts on the entry and steps to near, open
      cells. */
  lemma {:induction false} ChainOfWalk(v0: Valley, p: Possibility)
    requires Walked(v0, p)
    ensures Chain(p)[0].coord == v0.entry
    ensures forall i | 1 <= i < |Chain(p)| ::
      Near(Chain(p)[i - 1].coord, Chain(p)[i].coord) && Open(v0, Chain(p)[i].time, Chain(p)[i].coord)
    decreases p
  {
    if p.parent.Some? {
      ChainOfWalk(v0, p.parent.value);
    }
  }

  /** `State`: a possibility and the valley of its minute. */
  datatype State = State(possibility: Possibility, valley: Valley)

  /** A path the search may report: minute `i` is step `i`, shown with the
      valley of that minute; it starts on the entry, ends on the exit, and
      every step goes to a near cell that is open at its minute. */
  ghost predicate Journey(v0: Valley, path: seq<State>)
  {
    && |path| >= 1
    && path[0].possibility.coord == v0.entry
    && path[|path| - 1].possibility.coord == v0.exit
    && (forall i | 0 <= i < |path| :: path[i].possibility.time == i && path[i].valley == After(v0, i))
    && (forall i | 1 <= i < |path| ::
          && path[i].possibility.parent == Some(path[i - 1].possibility)
          && Near(path[i - 1].possibility.coord, path[i].possibility.coord)
          && Open(v0, i, path[i].possibility.coord))
  }

  /** The valleys of minutes 0 to |valleys| - 1. */
  ghost predicate Timeline(v0: Valley, valleys: seq<Valley>)
  {
    |valleys| >= 1 && forall t | 0 <= t < |valleys| :: valleys[t] == After(v0, t)
  }

  /** `reconstruct_path`: the states from the entry to `exit`, read back
      along the parents and then reversed. */
  method ReconstructPath(ghost v0: Valley, exit: Possibility, valleys: seq<Valley>) returns (path: seq<State>)
    requires Walked(v0, exit) && exit.time < |valleys|
    ensures |path| == exit.time + 1 == |Chain(exit)|
    ensures forall i | 0 <= i < |path| :: path[i] == State(Chain(exit)[i], valleys[i])
  {
    ChainLinks(exit);
    ChainTimes(v0, exit);
    ghost var chain := Chain(exit);
    ghost var n := |chain|;
    var back := [State(exit, valleys[exit.time])];
    while back[|back| - 1].possibility.parent.Some?
      invariant 1 <= |back| <= n
      invariant forall i | 0 <= i < |back| :: back[i] == State(chain[n - 1 - i], valleys[n - 1 - i])
      decreases n - |back|
    {
      var parent := back[|back| - 1].possibility.parent.value;
      assert parent == chain[n - |back| - 1];
      back := back + [State(parent, valleys[parent.time])];
    }
    assert chain[n - |back|].parent.None?;
    path := Reverse(back);
  }

  /** A walk that ends on the exit, reconstructed, is a journey. */
  lemma JourneyOfWalk(v0: Valley, exit: Possibility, valleys: seq<Valley>, path: seq<State>)
    requires Walked(v0, exit) && exit.coord == v0.exit && Timeline(v0, valleys) && exit.time < |valleys|
    requires |path| == exit.time + 1 == |Chain(exit)|
    requires forall i | 0 <= i < |path| :: path[i] == State(Chain(exit)[i], valleys[i])
    ensures Journey(v0, path)
  {
    ChainLinks(exit);
    ChainTimes(v0, exit);
    ChainOfWalk(v0, exit);
  }

  // ---------------------------------------------------------------- the search

  datatype SearchError = Malformed(ValleyError) | NoSolution | GaveUp

  /** The keys of the queued possibilities. */
  function Keys(queue: seq<Possibility>): set<Key>
  {
    set i | 0 <= i < |queue| :: KeyOf(queue[i])
  }

  /** Every explored key has been expanded: none of its successors is the
      exit, and each open successor has been seen. */
  ghost predicate Closed(v0: Valley, explored: set<Key>, seen: set<Key>)
  {
    forall k, c | k in explored && Near(k.1, c) :: c != v0.exit && (Open(v0, k.0 + 1, c) ==> (k.0 + 1, c) in seen)
  }

  /** `queue.pop()` on the min-heap of `Reverse(possibility)`, whose sift
      comparisons go through `partial_cmp`: a queued possibility with the
      least heuristic; among equals the first one. */
  method Cheapest(queue: seq<Possibility>) returns (i: nat)
    requires queue != []
    ensures i < |queue|
    ensures forall j | 0 <= j < |queue| :: Heuristic(queue[i]) <= Heuristic(queue[j])
  {
    i := 0;
    for j := 1 to |queue|
      invariant i < j
      invariant forall k | 0 <= k < j :: Heuristic(queue[i]) <= Heuristic(queue[k])
    {
      if Heuristic(queue[j]) < Heuristic(queue[i]) {
        i := j;
      }
    }
  }

  /** One option of the loop body of `find_shortest_path`: simulate one more
      minute when the option is past the known ones, report it when it is on
      the exit, drop it when it is outside the valley or in a blizzard, and
      otherwise queue it when its key is new. */
  method Consider(ghost v0: Valley, o: Possibility, valleys: seq<Valley>, queue: seq<Possibility>, seen: set<Key>)
    returns (exited: bool, later: seq<Valley>, queued: seq<Possibility>, known: set<Key>)
    requires WellFormed(v0) && Timeline(v0, valleys) && o.time <= |valleys|
    requires o.parent.Some? && Walked(v0, o.parent.value)
    requires o.time == o.parent.value.time + 1 && Near(o.parent.value.coord, o.coord) && o.target == v0.exit
    ensures Timeline(v0, later) && |valleys| <= |later| && o.time < |later|
    ensures exited <==> o.coord == v0.exit
    ensures exited ==> Walked(v0, o)
    ensures !exited && Open(v0, o.time, o.coord) && KeyOf(o) !in seen ==>
      queued == queue + [o] && known == seen + {KeyOf(o)} && Walked(v0, o)
    ensures !(!exited && Open(v0, o.time, o.coord) && KeyOf(o) !in seen) ==> queued == queue && known == seen
  {
    later := valleys;
    if o.time >= |later| {
      later := later + [Simulate(later[|later| - 1])];
    }
    var valley := later[o.time];
    queued, known := queue, seen;
    if valley.exit == o.coord {
      AfterWellFormed(v0, o.time);
      return true, later, queued, known;
    }
    exited := false;
    if Inside(valley, o.coord) && BlizzardsAt(valley, o.coord) == {} {
      if KeyOf(o) !in known {
        known := known + {KeyOf(o)};
        queued := queued + [o];
      }
    }
  }

  /** The possibilities one expansion queues: walks off the exit at
      simulated minutes, with keys new to `seen` and to one another. */
  ghost predicate Fresh(v0: Valley, added: seq<Possibility>, n: nat, seen: set<Key>)
  {
    && (forall m | 0 <= m < |added| :: Pending(v0, added[m], n) && KeyOf(added[m]) !in seen)
    && (forall m, k | 0 <= m < k < |added| :: KeyOf(added[m]) != KeyOf(added[k]))
  }

  /** An option is on no exit, and is among the known keys when open. */
  ghost predicate Recorded(v0: Valley, o: Possibility, known: set<Key>)
  {
    o.coord != v0.exit && (Open(v0, o.time, o.coord) ==> KeyOf(o) in known)
  }

  /** The first `j` options are recorded. */
  ghost predicate Progress(v0: Valley, options: seq<Possibility>, j: nat, known: set<Key>)
    requires j <= |options|
  {
    forall k | 0 <= k < j :: Recorded(v0, options[k], known)
  }

  lemma ProgressStep(v0: Valley, options: seq<Possibility>, j: nat, known: set<Key>, known': set<Key>)
    requires j < |options| && Progress(v0, options, j, known) && known <= known' && Recorded(v0, options[j], known')
    ensures Progress(v0, options, j + 1, known')
  {
  }

  /** One option considered without reaching the exit: it is recorded, and
      the queue and the known keys grow by what it adds, if anything. */
  lemma Offered(v0: Valley, o: Possibility, queue: seq<Possibility>, seen: set<Key>, added: seq<Possibility>,
                before: seq<Possibility>, knownBefore: set<Key>, queued: seq<Possibility>, known: set<Key>, n: nat,
                grown: seq<Possibility>)
    requires before == queue + added && knownBefore == seen + Keys(added) && Fresh(v0, added, n, seen)
    requires o.coord != v0.exit && o.time < n
    requires Open(v0, o.time, o.coord) && KeyOf(o) !in knownBefore ==>
      queued == before + [o] && known == knownBefore + {KeyOf(o)} && Walked(v0, o)
    requires !(Open(v0, o.time, o.coord) && KeyOf(o) !in knownBefore) ==> queued == before && known == knownBefore
    requires grown == if queued == before then added else added + [o]
    ensures queued == queue + grown && known == seen + Keys(grown) && Fresh(v0, grown, n, seen)
    ensures knownBefore <= known && Recorded(v0, o, known)
  {
    if queued != before {
      KeysAppend(added, o);
      FreshAppend(v0, added, n, seen, o);
    }
  }

  lemma FreshLater(v0: Valley, added: seq<Possibility>, n: nat, n': nat, seen: set<Key>)
    requires Fresh(v0, added, n, seen) && n <= n'
    ensures Fresh(v0, added, n', seen)
  {
  }

  lemma FreshAppend(v0: Valley, added: seq<Possibility>, n: nat, seen: set<Key>, o: Possibility)
    requires Fresh(v0, added, n, seen) && Pending(v0, o, n) && KeyOf(o) !in seen + Keys(added)
    ensures Fresh(v0, added + [o], n, seen)
  {
    var r := added + [o];
    forall m | 0 <= m < |added| ensures r[m] == added[m] && KeyOf(r[m]) != KeyOf(o) {
      assert KeyOf(added[m]) in Keys(added);
    }
  }

  /** Once all five options are recorded, no neighbour is the exit and every
      open neighbour is known one minute later. */
  lemma AllRecorded(v0: Valley, item: Possibility, known: set<Key>)
    requires Progress(v0, Options(item), 5, known)
    ensures forall c | Near(item.coord, c) ::
      c != v0.exit && (Open(v0, item.time + 1, c) ==> (item.time + 1, c) in known)
  {
    var options := Options(item);
    forall c | Near(item.coord, c)
      ensures c != v0.exit && (Open(v0, item.time + 1, c) ==> (item.time + 1, c) in known)
    {
      OptionsAreNear(item, c);
      var i :| 0 <= i < 5 && options[i].coord == c;
      assert Recorded(v0, options[i], known);
    }
  }

  /** The five options of one popped possibility, in order, stopping at the
      first on the exit. New keys join `seen` and the queue once each. */
  method Expand(ghost v0: Valley, item: Possibility, valleys: seq<Valley>, queue: seq<Possibility>, seen: set<Key>)
    returns (found: Option<Possibility>, later: seq<Valley>, queued: seq<Possibility>, known: set<Key>)
    requires WellFormed(v0) && Timeline(v0, valleys) && item.time < |valleys| && Walked(v0, item)
    ensures Timeline(v0, later) && |valleys| <= |later|
    ensures found.Some? ==> Walked(v0, found.value) && found.value.coord == v0.exit && found.value.time < |later|
    ensures found.Some? ==> found.value.parent == Some(item)
    ensures found.None? ==> forall c | Near(item.coord, c) ::
      c != v0.exit && (Open(v0, item.time + 1, c) ==> (item.time + 1, c) in known)
    ensures |queue| <= |queued| && queued[..|queue|] == queue
    ensures Fresh(v0, queued[|queue|..], |later|, seen)
    ensures known == seen + Keys(queued[|queue|..])
  {
    var options := Options(item);
    later, queued, known := valleys, queue, seen;
    ghost var added: seq<Possibility> := [];
    for j := 0 to 5
      invariant Timeline(v0, later) && |valleys| <= |later| && item.time < |later|
      invariant queued == queue + added && known == seen + Keys(added)
      invariant Progress(v0, options, j, known)
      invariant Fresh(v0, added, |later|, seen)
    {
      var o := options[j];
      var exited;
      ghost var before, knownBefore, n := queued, known, |later|;
      exited, later, queued, known := Consider(v0, o, later, queued, known);
      FreshLater(v0, added, n, |later|, seen);
      if exited {
        assert queued[|queue|..] == added;
        return Some(o), later, queued, known;
      }
      ghost var grown := if queued == before then added else added + [o];
      Offered(v0, o, queue, seen, added, before, knownBefore, queued, known, |later|, grown);
      added := grown;
      ProgressStep(v0, options, j, knownBefore, known);
    }
    assert queued[|queue|..] == added;
    found := None;
    AllRecorded(v0, item, known);
  }

  /** `find_shortest_path`, with the number of pops bounded by `fuel`: the
      source loops until the queue is empty or the exit is reached, which
      need not happen when no walk exists. */
  method FindShortestPath(input: String, fuel: nat) returns (r: Result<seq<State>, SearchError>)
    ensures !Parses(input) <==> r.Err? && r.error.Malformed?
    ensures r.Ok? ==> Parses(input) && Journey(ValleyOf(input), r.value)
    ensures r.Ok? ==> forall path | Journey(ValleyOf(input), path) :: |r.value| <= |path|
    ensures r == Err(NoSolution) ==> Parses(input) && forall path :: !Journey(ValleyOf(input), path)
  {
    var parsed := Parse(input);
    if parsed.Err? {
      return Err(Malformed(parsed.error));
    }
    r := Search(parsed.value, fuel);
  }

  /** The loop of `find_shortest_path` from the entry at minute 0. */
  method Search(v0: Valley, fuel: nat) returns (r: Result<seq<State>, SearchError>)
    requires WellFormed(v0)
    ensures r.Ok? ==> Journey(v0, r.value)
    ensures r.Ok? ==> forall path | Journey(v0, path) :: |r.value| <= |path|
    ensures r.Err? ==> !r.error.Malformed?
    ensures r == Err(NoSolution) ==> forall path :: !Journey(v0, path)
  {
    var entry := Possibility(0, v0.entry, v0.exit, None);
    ghost var explored: set<Key> := {};
    var seen: set<Key> := {};
    var valleys := [v0];
    var queue := [entry];
    var budget := fuel;
    assert KeyOf(queue[0]) in Keys(queue);
    while queue != []
      invariant Timeline(v0, valleys)
      invariant forall j | 0 <= j < |queue| :: Pending(v0, queue[j], |valleys|)
      invariant Closed(v0, explored, seen)
      invariant seen + {(0, v0.entry)} <= explored + Keys(queue)
      decreases budget
    {
      if budget == 0 {
        return Err(GaveUp);
      }
      budget := budget - 1;
      var i := Cheapest(queue);
      var item := queue[i];
      var rest := queue[..i] + queue[i + 1..];
      PopKeys(queue, i);
      ghost var before, seenBefore := queue, seen;
      var found;
      found, valleys, queue, seen := Expand(v0, item, valleys, rest, seen);
      if found.Some? {
        var path := ReconstructPath(v0, found.value, valleys);
        JourneyOfWalk(v0, found.value, valleys, path);
        ShortestFound(v0, explored, seenBefore, before, item, found.value);
        return Ok(path);
      }
      Explore(v0, explored, seenBefore, seen, item, before, i, queue);
      Requeued(v0, before, i, queue, |valleys|);
      explored := explored + {KeyOf(item)};
    }
    NoJourney(v0, explored, seen);
    return Err(NoSolution);
  }

  /** A queued possibility: a walk, off the exit, at a minute already
      simulated. */
  ghost predicate Pending(v0: Valley, p: Possibility, n: nat)
  {
    Walked(v0, p) && p.time < n && p.coord != v0.exit
  }

  /** The possibilities still queued after a pop and an expansion are walks
      whose minutes are already simulated. */
  lemma Requeued(v0: Valley, queue: seq<Possibility>, i: nat, queued: seq<Possibility>, n: nat)
    requires i < |queue| && forall j | 0 <= j < |queue| :: Pending(v0, queue[j], n)
    requires |queue| - 1 <= |queued| && queued[..|queue| - 1] == queue[..i] + queue[i + 1..]
    requires forall j | |queue| - 1 <= j < |queued| :: Pending(v0, queued[j], n)
    ensures forall j | 0 <= j < |queued| :: Pending(v0, queued[j], n)
  {
    forall j | 0 <= j < |queue| - 1 ensures Pending(v0, queued[j], n) {
      if j < i {
        assert queued[j] == queue[j];
      } else {
        assert queued[j] == queue[j + 1];
      }
    }
  }

  /** Popping `queue[i]`, expanding it and queuing the new keys keeps the
      explored keys closed and every seen key explored or queued. */
  lemma Explore(v0: Valley, explored: set<Key>, seen: set<Key>, known: set<Key>, item: Possibility,
                queue: seq<Possibility>, i: nat, queued: seq<Possibility>)
    requires i < |queue| && item == queue[i]
    requires Closed(v0, explored, seen) && seen + {(0, v0.entry)} <= explored + Keys(queue)
    requires Keys(queue) <= Keys(queue[..i] + queue[i + 1..]) + {KeyOf(item)}
    requires |queue| - 1 <= |queued| && queued[..|queue| - 1] == queue[..i] + queue[i + 1..]
    requires known == seen + Keys(queued[|queue| - 1..])
    requires forall c | Near(item.coord, c) ::
      c != v0.exit && (Open(v0, item.time + 1, c) ==> (item.time + 1, c) in known)
    ensures Closed(v0, explored + {KeyOf(item)}, known)
    ensures known + {(0, v0.entry)} <= explored + {KeyOf(item)} + Keys(queued)
  {
    var rest := queue[..i] + queue[i + 1..];
    forall k | k in Keys(rest) ensures k in Keys(queued) {
      var j :| 0 <= j < |rest| && KeyOf(rest[j]) == k;
      assert queued[j] == rest[j];
    }
    forall k | k in Keys(queued[|queue| - 1..]) ensures k in Keys(queued) {
      var j :| 0 <= j < |queued| - (|queue| - 1) && KeyOf(queued[|queue| - 1..][j]) == k;
      assert queued[|queue| - 1 + j] == queued[|queue| - 1..][j];
    }
  }

  lemma KeysAppend(queue: seq<Possibility>, o: Possibility)
    ensures Keys(queue + [o]) == Keys(queue) + {KeyOf(o)}
  {
    var q := queue + [o];
    assert KeyOf(q[|queue|]) == KeyOf(o);
    forall k | k in Keys(queue) ensures k in Keys(q) {
      var j :| 0 <= j < |queue| && KeyOf(queue[j]) == k;
      assert q[j] == queue[j];
    }
  }

  lemma PopKeys(queue: seq<Possibility>, i: nat)
    requires i < |queue|
    ensures Keys(queue) <= Keys(queue[..i] + queue[i + 1..]) + {KeyOf(queue[i])}
  {
    var rest := queue[..i] + queue[i + 1..];
    forall k | k in Keys(queue) ensures k in Keys(rest) + {KeyOf(queue[i])} {
      var j :| 0 <= j < |queue| && KeyOf(queue[j]) == k;
      if j < i {
        assert rest[j] == queue[j];
      } else if j > i {
        assert rest[j - 1] == queue[j];
      }
    }
  }

  /** Once every seen key and the start are explored and nothing explored
      leads to the exit, no journey exists. */
  lemma NoJourney(v0: Valley, explored: set<Key>, seen: set<Key>)
    requires Closed(v0, explored, seen) && seen + {(0, v0.entry)} <= explored
    ensures forall path :: !Journey(v0, path)
  {
    forall path: seq<State> | Journey(v0, path) ensures false {
      var n := |path|;
      ExploredAlong(v0, explored, seen, path, n - 1);
      var last := path[n - 1].possibility.coord;
      assert Near(last, last);
    }
  }

  lemma {:induction false} ExploredAlong(v0: Valley, explored: set<Key>, seen: set<Key>, path: seq<State>, i: nat)
    requires Closed(v0, explored, seen) && seen + {(0, v0.entry)} <= explored
    requires Journey(v0, path) && i < |path|
    ensures (i, path[i].possibility.coord) in explored
  {
    if i > 0 {
      ExploredAlong(v0, explored, seen, path, i - 1);
      var a, b := path[i - 1].possibility.coord, path[i].possibility.coord;
      assert Near(a, b) && Open(v0, i, b);
      assert (i - 1 + 1, b) in seen;
    }
  }

  /** The search pops a possibility of least heuristic whose option steps
      onto the exit: no journey reaches the exit in fewer minutes. */
  lemma ShortestFound(v0: Valley, explored: set<Key>, seen: set<Key>, queue: seq<Possibility>,
                      item: Possibility, exit: Possibility)
    requires WellFormed(v0)
    requires Closed(v0, explored, seen) && seen + {(0, v0.entry)} <= explored + Keys(queue)
    requires forall j | 0 <= j < |queue| :: queue[j].target == v0.exit && Heuristic(item) <= Heuristic(queue[j])
    requires item.target == v0.exit && item.coord != v0.exit
    requires exit.time == item.time + 1 && Near(item.coord, exit.coord) && exit.coord == v0.exit
    ensures forall path | Journey(v0, path) :: exit.time + 1 <= |path|
  {
    assert Heuristic(item) == item.time + 1;
    forall path: seq<State> | Journey(v0, path) ensures exit.time + 1 <= |path| {
      QueuedBeforeArrival(v0, explored, seen, queue, path);
    }
  }

  /** Every journey has a state queued, or explored ahead of the queue; the
      queued one's minute plus distance to the exit is at most the
      journey's arrival. */
  lemma QueuedBeforeArrival(v0: Valley, explored: set<Key>, seen: set<Key>, queue: seq<Possibility>, path: seq<State>)
    requires WellFormed(v0)
    requires Closed(v0, explored, seen) && seen + {(0, v0.entry)} <= explored + Keys(queue)
    requires forall j | 0 <= j < |queue| :: queue[j].target == v0.exit
    requires Journey(v0, path)
    ensures exists j | 0 <= j < |queue| :: Heuristic(queue[j]) <= |path| - 1
  {
    var n := |path|;
    assert n >= 2 by {
      assert path[0].possibility.coord.y == 0 != v0.exit.y;
    }
    Frontier(v0, explored, seen, queue, path, n - 2);
    var a, b := path[n - 2].possibility.coord, path[n - 1].possibility.coord;
    assert Near(a, b) && b == v0.exit;
    assert (n - 2, a) !in explored;
    var i :| 0 <= i <= n - 2 && (i, path[i].possibility.coord) in Keys(queue);
    var j :| 0 <= j < |queue| && KeyOf(queue[j]) == (i, path[i].possibility.coord);
    DistanceAlong(v0, path, i);
    assert Heuristic(queue[j]) <= n - 1;
  }

  /** Along a journey, up to minute `k`: the state of minute `k` is
      explored, or the state of some minute up to `k` is queued. */
  lemma {:induction false} Frontier(v0: Valley, explored: set<Key>, seen: set<Key>, queue: seq<Possibility>,
                                    path: seq<State>, k: nat)
    requires Closed(v0, explored, seen) && seen + {(0, v0.entry)} <= explored + Keys(queue)
    requires Journey(v0, path) && k < |path|
    ensures || (k, path[k].possibility.coord) in explored
            || exists i | 0 <= i <= k :: (i, path[i].possibility.coord) in Keys(queue)
  {
    if k > 0 {
      Frontier(v0, explored, seen, queue, path, k - 1);
      if (k - 1, path[k - 1].possibility.coord) in explored {
        var a, b := path[k - 1].possibility.coord, path[k].possibility.coord;
        assert Near(a, b) && Open(v0, k, b);
        assert (k - 1 + 1, b) in seen;
      }
    }
  }

  /** Along a journey the distance left to the exit shrinks by at most a
      cell a minute: minute plus distance never exceeds the arrival. */
  lemma {:induction false} DistanceAlong(v0: Valley, path: seq<State>, i: nat)
    requires Journey(v0, path) && i < |path|
    ensures i + Abs(v0.exit.x - path[i].possibility.coord.x) + Abs(v0.exit.y - path[i].possibility.coord.y) <= |path| - 1
    decreases |path| - i
  {
    if i < |path| - 1 {
      DistanceAlong(v0, path, i + 1);
      assert Near(path[i].possibility.coord, path[i + 1].possibility.coord);
    }
  }
}
