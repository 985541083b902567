/** Day 16, the tunnel network (`network.rs`): the valves by name and, for
    every pair of valves, the shortest simple path found between them by
    popping the longest candidate path from a heap until it is empty. */
module Day16Network {
  import opened Wrappers
  import opened Text
  import opened Day16Valve

  // ---------------------------------------------------------------- paths

  /** `Path`: the valves walked through, in order, and the steps taken. */
  datatype Path = Path(valves: seq<Name>, distance: int)

  /** A path's distance counts its steps, one fewer than its valves. */
  predicate Measured(p: Path)
  {
    |p.valves| >= 1 && p.distance == |p.valves| - 1
  }

  /** `Path::new`: the start alone, no step taken yet. */
  function NewPath(start: Name): (p: Path)
    ensures Measured(p) && p.valves[0] == start && p.distance == 0
  {
    Path([start], 0)
  }

  /** `Path::append`: one valve and one step more, so the extension of a
      measured path is measured. */
  function Append(p: Path, valve: Name): (q: Path)
    ensures |q.valves| == |p.valves| + 1
    ensures q.valves[..|p.valves|] == p.valves && q.valves[|p.valves|] == valve
    ensures Measured(p) ==> Measured(q)
  {
    Path(p.valves + [valve], p.distance + 1)
  }

  /** `Ord for Path`: paths compare by distance alone. */
  function Cmp(p: Path, q: Path): (o: Ordering)
    ensures o == Less <==> p.distance < q.distance
    ensures o == Greater <==> q.distance < p.distance
  {
    if p.distance < q.distance then Less
    else if p.distance == q.distance then Equal
    else Greater
  }

  /** The comparison is a total preorder: it flips with its arguments and
      chains. */
  lemma CmpPreorder(p: Path, q: Path, r: Path)
    ensures Cmp(p, q) == Less <==> Cmp(q, p) == Greater
    ensures Cmp(p, q) != Greater && Cmp(q, r) != Greater ==> Cmp(p, r) != Greater
  {
  }

  /** ... but it does not agree with equality: two different paths of the
      same length compare `Equal`. */
  lemma CmpIgnoresValves(p: Path, q: Path)
    requires p == Path(["AA", "BB"], 1) && q == Path(["AA", "DD"], 1)
    ensures p != q && Cmp(p, q) == Equal
  {
    assert p.valves[1] != q.valves[1];
  }

  // ------------------------------------------------------ simple paths

  function Last(vs: seq<Name>): Name
    requires |vs| >= 1
  {
    vs[|vs| - 1]
  }

  /** Every tunnel of the network leads to one of its valves. */
  predicate Closed(network: map<Name, Valve>)
  {
    forall n | n in network :: network[n].connections <= network.Keys
  }

  /** `vs` walks from `start` through tunnels of the network and never
      visits a valve twice. */
  ghost predicate Simple(network: map<Name, Valve>, start: Name, vs: seq<Name>)
  {
    && |vs| >= 1 && vs[0] == start
    && (forall i | 0 <= i < |vs| :: vs[i] in network)
    && (forall i | 0 <= i < |vs| - 1 :: vs[i] in network && vs[i + 1] in network[vs[i]].connections)
    && (forall i, j | 0 <= i < j < |vs| :: vs[i] != vs[j])
  }

  ghost predicate Connected(network: map<Name, Valve>, start: Name, target: Name)
  {
    exists vs :: Simple(network, start, vs) && Last(vs) == target
  }

  /** `p` is a simple path from `start` to `target` and no simple path
      between them takes fewer steps. */
  ghost predicate Shortest(network: map<Name, Valve>, start: Name, target: Name, p: Path)
  {
    && Measured(p) && Simple(network, start, p.valves) && Last(p.valves) == target
    && forall vs | Simple(network, start, vs) && Last(vs) == target :: p.distance <= |vs| - 1
  }

  lemma SimpleParent(network: map<Name, Valve>, start: Name, vs: seq<Name>)
    requires Simple(network, start, vs) && |vs| > 1
    ensures Simple(network, start, vs[..|vs| - 1])
  {
  }

  lemma SimpleChild(network: map<Name, Valve>, start: Name, vs: seq<Name>, v: Name)
    requires Simple(network, start, vs) && Closed(network)
    requires v in network[Last(vs)].connections && v !in vs
    ensures Simple(network, start, vs + [v])
  {
    var ws := vs + [v];
    forall i, j | 0 <= i < j < |ws|
      ensures ws[i] != ws[j]
    {
      if j == |vs| {
        assert ws[i] == vs[i];
      }
    }
  }

  // ------------------------------------------------- the search space

  /** All sequences over `names` of at most `n` elements. */
  ghost function Bounded(names: set<Name>, n: nat): set<seq<Name>>
  {
    if n == 0 then {[]}
    else
      var shorter := Bounded(names, n - 1);
      shorter + set vs, v | vs in shorter && v in names :: vs + [v]
  }

  lemma {:induction false} InBounded(names: set<Name>, n: nat, vs: seq<Name>)
    requires |vs| <= n && forall i | 0 <= i < |vs| :: vs[i] in names
    ensures vs in Bounded(names, n)
  {
    if n > 0 {
      if |vs| == n {
        var front := vs[..|vs| - 1];
        InBounded(names, n - 1, front);
        assert vs == front + [Last(vs)];
      } else {
        InBounded(names, n - 1, vs);
      }
    }
  }

  lemma {:induction false} DistinctFits(names: set<Name>, vs: seq<Name>)
    requires forall i | 0 <= i < |vs| :: vs[i] in names
    requires forall i, j | 0 <= i < j < |vs| :: vs[i] != vs[j]
    ensures |vs| <= |names|
  {
    if vs != [] {
      var front := vs[..|vs| - 1];
      DistinctFits(names - {Last(vs)}, front);
    }
  }

  /** Every simple path of the network is one of finitely many sequences. */
  ghost function Universe(network: map<Name, Valve>): set<seq<Name>>
  {
    Bounded(network.Keys, |network.Keys|)
  }

  lemma SimpleInUniverse(network: map<Name, Valve>, start: Name, vs: seq<Name>)
    requires Simple(network, start, vs)
    ensures vs in Universe(network)
  {
    DistinctFits(network.Keys, vs);
    InBounded(network.Keys, |network.Keys|, vs);
  }

  // ------------------------------------------------------- the search

  /** What the inner loop pushes for a popped path: its extension through
      every tunnel out of its tip to a valve it has not visited. */
  function Children(p: Path, connections: set<Name>): set<Path>
  {
    set v | v in connections && v !in p.valves :: Append(p, v)
  }

  lemma ChildrenStep(p: Path, done: set<Name>, v: Name)
    ensures Children(p, done + {v})
         == Children(p, done) + (if v in p.valves then {} else {Append(p, v)})
  {
  }

  /** The inner `for valve in network[tip].connections()` loop: the
      connections are taken in no particular order, a visited valve is
      skipped, any other extends the path onto the heap. */
  method Extend(queue: set<Path>, path: Path, connections: set<Name>) returns (r: set<Path>)
    ensures r == queue + Children(path, connections)
  {
    r := queue;
    var todo := connections;
    while todo != {}
      invariant todo <= connections
      invariant r == queue + Children(path, connections - todo)
      decreases |todo|
    {
      var valve :| valve in todo;
      ChildrenStep(path, connections - todo, valve);
      if valve !in path.valves {
        r := r + {Append(path, valve)};
      }
      assert connections - (todo - {valve}) == (connections - todo) + {valve};
      todo := todo - {valve};
    }
  }

  /** `entry(key).and_modify(..).or_insert(path)`: a path is stored for
      `key` when none is, and replaces the stored one only when it is
      strictly shorter; every other entry is left alone. */
  function Record(paths: map<(Name, Name), Path>, key: (Name, Name), path: Path): (r: map<(Name, Name), Path>)
    ensures key in r && r - {key} == paths - {key}
    ensures key in paths ==> r[key].distance <= paths[key].distance && r[key].distance <= path.distance
    ensures r[key] == path || (key in paths && r[key] == paths[key])
    ensures key in paths && paths[key].distance <= path.distance ==> r[key] == paths[key]
  {
    if key in paths && paths[key].distance <= path.distance then paths
    else paths[key := path]
  }

  /** The heap and the paths already popped, as the outer loop keeps them:
      queued paths are simple, measured and new; popped paths are simple and
      so are their parents; and every unvisited extension of a popped path
      is popped or queued. */
  ghost predicate Frontier(network: map<Name, Valve>, start: Name, queue: set<Path>, popped: set<seq<Name>>)
  {
    && (forall p | p in queue :: Measured(p) && Simple(network, start, p.valves) && p.valves !in popped)
    && (forall vs | vs in popped :: Simple(network, start, vs))
    && (forall p | p in queue && |p.valves| > 1 :: p.valves[..|p.valves| - 1] in popped)
    && (forall vs | vs in popped && |vs| > 1 :: vs[..|vs| - 1] in popped)
    && (forall vs, v | vs in popped && |vs| >= 1 && Last(vs) in network && v in network[Last(vs)].connections && v !in vs ::
          vs + [v] in popped || Path(vs + [v], |vs|) in queue)
    && ([start] in popped || NewPath(start) in queue)
  }

  /** What is stored for `key` after the popped paths: something exactly
      when one of them ends at the target, and then the shortest of those. */
  ghost predicate Recorded(target: Name, popped: set<seq<Name>>, paths: map<(Name, Name), Path>, key: (Name, Name))
  {
    && (key in paths <==> exists vs | vs in popped :: |vs| >= 1 && Last(vs) == target)
    && (key in paths ==>
          && Measured(paths[key]) && paths[key].valves in popped && Last(paths[key].valves) == target
          && forall vs | vs in popped && |vs| >= 1 && Last(vs) == target :: paths[key].distance <= |vs| - 1)
  }

  lemma FrontierStart(network: map<Name, Valve>, start: Name)
    requires start in network
    ensures Frontier(network, start, {NewPath(start)}, {})
  {
  }

  lemma PushedFresh(network: map<Name, Valve>, start: Name, queue: set<Path>, popped: set<seq<Name>>, path: Path, c: Path)
    requires Closed(network) && Frontier(network, start, queue, popped) && path in queue
    requires c in Children(path, network[Last(path.valves)].connections)
    ensures Measured(c) && Simple(network, start, c.valves) && c.valves !in popped + {path.valves}
    ensures c.valves[..|c.valves| - 1] == path.valves && c !in queue
  {
    var vs := path.valves;
    var v :| v in network[Last(vs)].connections && v !in vs && c == Append(path, v);
    SimpleChild(network, start, vs, v);
    assert c.valves == vs + [v];
  }

  lemma ClosureStep(network: map<Name, Valve>, start: Name, queue: set<Path>, popped: set<seq<Name>>, path: Path,
                    w: seq<Name>, v: Name)
    requires Frontier(network, start, queue, popped) && path in queue
    requires Last(path.valves) in network
    requires w in popped + {path.valves} && |w| >= 1 && Last(w) in network
    requires v in network[Last(w)].connections && v !in w
    ensures var queue' := (queue - {path}) + Children(path, network[Last(path.valves)].connections);
      w + [v] in popped + {path.valves} || Path(w + [v], |w|) in queue'
  {
    if w == path.valves {
      assert Append(path, v) == Path(w + [v], |w|);
    } else if Path(w + [v], |w|) == path {
      assert w + [v] == path.valves;
    }
  }

  lemma FrontierStep(network: map<Name, Valve>, start: Name, queue: set<Path>, popped: set<seq<Name>>, path: Path)
    requires Closed(network) && Frontier(network, start, queue, popped) && path in queue
    ensures Last(path.valves) in network
    ensures var pushed := Children(path, network[Last(path.valves)].connections);
      && pushed !! queue - {path}
      && Frontier(network, start, (queue - {path}) + pushed, popped + {path.valves})
  {
    var pushed := Children(path, network[Last(path.valves)].connections);
    var queue', popped' := (queue - {path}) + pushed, popped + {path.valves};
    forall c | c in pushed
      ensures Measured(c) && Simple(network, start, c.valves) && c.valves !in popped'
      ensures c.valves[..|c.valves| - 1] == path.valves && c !in queue
    {
      PushedFresh(network, start, queue, popped, path, c);
    }
    forall w, v | w in popped' && |w| >= 1 && Last(w) in network && v in network[Last(w)].connections && v !in w
      ensures w + [v] in popped' || Path(w + [v], |w|) in queue'
    {
      ClosureStep(network, start, queue, popped, path, w, v);
    }
  }

  lemma RecordedStart(target: Name, paths: map<(Name, Name), Path>, key: (Name, Name))
    requires key !in paths
    ensures Recorded(target, {}, paths, key)
  {
  }

  lemma RecordedStep(target: Name, popped: set<seq<Name>>, paths: map<(Name, Name), Path>, key: (Name, Name), path: Path)
    requires Recorded(target, popped, paths, key) && Measured(path)
    ensures Recorded(target, popped + {path.valves}, if Last(path.valves) == target then Record(paths, key, path) else paths, key)
  {
    if Last(path.valves) == target {
      var r := Record(paths, key, path);
      forall vs | vs in popped + {path.valves} && |vs| >= 1 && Last(vs) == target
        ensures r[key].distance <= |vs| - 1
      {
      }
    }
  }

  /** With the heap empty, every simple path from the start was popped. */
  lemma {:induction false} Exhausted(network: map<Name, Valve>, start: Name, popped: set<seq<Name>>, vs: seq<Name>)
    requires Frontier(network, start, {}, popped) && Simple(network, start, vs)
    ensures vs in popped
    decreases |vs|
  {
    if |vs| > 1 {
      var front, v := vs[..|vs| - 1], Last(vs);
      assert front + [v] == vs;
      SimpleParent(network, start, vs);
      Exhausted(network, start, popped, front);
      assert Last(front) == vs[|vs| - 2] && v == vs[|vs| - 2 + 1];
      assert v in network[Last(front)].connections;
      assert v !in front by {
        forall i | 0 <= i < |front|
          ensures front[i] != v
        {
          assert front[i] == vs[i];
        }
      }
      assert Path(vs, |front|) !in {};
    } else {
      assert vs == [start];
    }
  }

  lemma SearchDone(network: map<Name, Valve>, start: Name, target: Name, popped: set<seq<Name>>, paths: map<(Name, Name), Path>, key: (Name, Name))
    requires Frontier(network, start, {}, popped) && Recorded(target, popped, paths, key)
    ensures key in paths <==> Connected(network, start, target)
    ensures key in paths ==> Shortest(network, start, target, paths[key])
  {
    forall vs | Simple(network, start, vs) && Last(vs) == target
      ensures vs in popped
    {
      Exhausted(network, start, popped, vs);
    }
    if key in paths {
      assert Simple(network, start, paths[key].valves);
    }
  }

  lemma Shrinks(universe: set<seq<Name>>, popped: set<seq<Name>>, vs: seq<Name>)
    requires vs in universe && vs !in popped
    ensures |universe - (popped + {vs})| < |universe - popped|
  {
    assert universe - (popped + {vs}) == (universe - popped) - {vs};
  }

  lemma {:induction false} LongestDistance(queue: set<Path>)
    requires queue != {}
    ensures exists p :: p in queue && forall q | q in queue :: q.distance <= p.distance
    decreases |queue|
  {
    var p :| p in queue;
    var rest := queue - {p};
    var top := p;
    if rest != {} {
      LongestDistance(rest);
      var m :| m in rest && forall q | q in rest :: q.distance <= m.distance;
      top := if m.distance < p.distance then p else m;
    }
    forall q | q in queue
      ensures q.distance <= top.distance
    {
      if q != p {
        assert q in rest;
      }
    }
  }

  /** A non-empty heap has a greatest path, the one `pop` returns. */
  lemma LongestExists(queue: set<Path>)
    requires queue != {}
    ensures exists p :: p in queue && forall q | q in queue :: Cmp(q, p) != Greater
  {
    LongestDistance(queue);
    var p :| p in queue && forall q | q in queue :: q.distance <= p.distance;
    assert forall q | q in queue :: Cmp(q, p) != Greater;
  }

  /** One turn of the outer loop keeps both invariants and pops a simple
      path not popped before. */
  lemma ExploreStep(network: map<Name, Valve>, start: Name, target: Name, queue: set<Path>, popped: set<seq<Name>>,
                    paths: map<(Name, Name), Path>, key: (Name, Name), path: Path)
    requires Closed(network) && Frontier(network, start, queue, popped) && Recorded(target, popped, paths, key)
    requires path in queue
    ensures Last(path.valves) in network
    ensures Frontier(network, start, (queue - {path}) + Children(path, network[Last(path.valves)].connections), popped + {path.valves})
    ensures Recorded(target, popped + {path.valves}, if Last(path.valves) == target then Record(paths, key, path) else paths, key)
    ensures |Universe(network) - (popped + {path.valves})| < |Universe(network) - popped|
  {
    FrontierStep(network, start, queue, popped, path);
    assert Measured(path) && Simple(network, start, path.valves) && path.valves !in popped;
    RecordedStep(target, popped, paths, key, path);
    SimpleInUniverse(network, start, path.valves);
    Shrinks(Universe(network), popped, path.valves);
  }

  /** One pass of the outer loop of `Network::from_str`: every path from
      `start` is popped from the heap in turn (always a longest one, as a
      max-heap gives it), the shortest that ends at `target` is stored under
      `(start, target)`, and nothing else is touched. */
  method Explore(network: map<Name, Valve>, start: Name, target: Name, paths0: map<(Name, Name), Path>)
    returns (paths: map<(Name, Name), Path>)
    requires Closed(network) && start in network && (start, target) !in paths0
    ensures paths - {(start, target)} == paths0
    ensures (start, target) in paths <==> Connected(network, start, target)
    ensures (start, target) in paths ==> Shortest(network, start, target, paths[(start, target)])
  {
    var key := (start, target);
    paths := paths0;
    var queue: set<Path> := {NewPath(start)};
    ghost var popped: set<seq<Name>> := {};
    ghost var universe := Universe(network);
    FrontierStart(network, start);
    RecordedStart(target, paths, key);
    while queue != {}
      invariant Frontier(network, start, queue, popped) && Recorded(target, popped, paths, key)
      invariant paths - {key} == paths0
      decreases |universe - popped|
    {
      LongestExists(queue);
      var path :| path in queue && forall q | q in queue :: Cmp(q, path) != Greater;
      ExploreStep(network, start, target, queue, popped, paths, key, path);
      var tip := Last(path.valves);
      if tip == target {
        paths := Record(paths, key, path);
      }
      queue := Extend(queue - {path}, path, network[tip].connections);
      popped := popped + {path.valves};
    }
    SearchDone(network, start, target, popped, paths, key);
  }

  // ------------------------------------------------------ the network

  /** `Network`: the valves by name, and the shortest path found for every
      connected pair. */
  datatype Network = Network(network: map<Name, Valve>, paths: map<(Name, Name), Path>)

  /** Every valve is stored under its own name. */
  predicate Keyed(valves: map<Name, Valve>)
  {
    forall n | n in valves :: valves[n].name == n
  }

  /** `s.lines().map(Valve::from_str)`. */
  function ParseLines(lines: seq<String>): (rs: seq<Result<Valve, ValveError>>)
    ensures |rs| == |lines| && forall i | 0 <= i < |lines| :: rs[i] == ValveFromStr(lines[i])
  {
    seq(|lines|, i requires 0 <= i < |lines| => ValveFromStr(lines[i]))
  }

  /** Collecting the parsed lines into a `HashMap`: the first line that
      does not parse is the error; otherwise every line's valve is stored
      under its name, a later valve replacing an earlier one of that name. */
  function Collect(rs: seq<Result<Valve, ValveError>>, acc: map<Name, Valve>): (r: Result<map<Name, Valve>, ValveError>)
    ensures r.Ok? <==> forall i | 0 <= i < |rs| :: rs[i].Ok?
    ensures r.Ok? && Keyed(acc) ==> Keyed(r.value)
    decreases |rs|
  {
    if rs == [] then Ok(acc)
    else
      var v :- rs[0];
      Collect(rs[1..], acc[v.name := v])
  }

  /** The error is that of the first line that does not parse. */
  lemma {:induction false} CollectError(rs: seq<Result<Valve, ValveError>>, acc: map<Name, Valve>, i: nat)
    requires i < |rs| && rs[i].Err?
    requires forall j | 0 <= j < i :: rs[j].Ok?
    ensures Collect(rs, acc) == Err(rs[i].error)
    decreases i
  {
    if i > 0 {
      var v := rs[0].value;
      assert rs[1..][i - 1] == rs[i];
      CollectError(rs[1..], acc[v.name := v], i - 1);
    }
  }

  /** Every valve name met is stored, and the last line's valve is stored
      under its name exactly as parsed. */
  lemma {:induction false} CollectStored(rs: seq<Result<Valve, ValveError>>, acc: map<Name, Valve>)
    requires Collect(rs, acc).Ok?
    ensures acc.Keys <= Collect(rs, acc).value.Keys
    ensures forall i | 0 <= i < |rs| :: rs[i].value.name in Collect(rs, acc).value
    ensures rs != [] ==> Collect(rs, acc).value[rs[|rs| - 1].value.name] == rs[|rs| - 1].value
    decreases |rs|
  {
    if rs != [] {
      var v := rs[0].value;
      CollectStored(rs[1..], acc[v.name := v]);
      assert forall i | 1 <= i < |rs| :: rs[i] == rs[1..][i - 1];
    }
  }

  /** The valves a text describes, or the first line's error. */
  function ValvesOf(s: String): Result<map<Name, Valve>, ValveError>
  {
    Collect(ParseLines(Lines(s)), map[])
  }

  /** The pairs `from_str` searches: two different valves, the first before
      the second in string order. */
  function Pairs(network: map<Name, Valve>): (r: set<(Name, Name)>)
    ensures forall k :: k in r <==> k.0 in network && k.1 in network && LexLess(k.0, k.1)
  {
    set a, b | a in network && b in network && LexLess(a, b) :: (a, b)
  }

  /** A path is stored for exactly the connected pairs, and it is a
      shortest one. */
  ghost predicate AllShortest(network: map<Name, Valve>, paths: map<(Name, Name), Path>)
  {
    && (forall k :: k in paths <==> k in Pairs(network) && Connected(network, k.0, k.1))
    && (forall k | k in paths :: Shortest(network, k.0, k.1, paths[k]))
  }

  lemma TwoValves(network: map<Name, Valve>, k: (Name, Name))
    requires k in Pairs(network)
    ensures |network| >= 2
  {
    LexIrreflexive(k.0);
    assert k.1 in network.Keys - {k.0};
    assert |network.Keys - {k.0}| == |network.Keys| - 1;
    assert |network.Keys| == |network|;
  }

  /** The `for (start, target)` loop of `Network::from_str`: one search per
      pair, in the map's own order. */
  method ShortestPaths(network: map<Name, Valve>) returns (paths: map<(Name, Name), Path>)
    requires |network| >= 2 ==> Closed(network)
    ensures AllShortest(network, paths)
  {
    paths := map[];
    var todo := Pairs(network);
    while todo != {}
      invariant todo <= Pairs(network)
      invariant forall k :: k in paths <==> k in Pairs(network) && k !in todo && Connected(network, k.0, k.1)
      invariant forall k | k in paths :: Shortest(network, k.0, k.1, paths[k])
      decreases |todo|
    {
      var pair :| pair in todo;
      TwoValves(network, pair);
      var paths' := Explore(network, pair.0, pair.1, paths);
      assert forall k | k != pair :: k in paths' <==> k in paths' - {pair};
      paths := paths';
      todo := todo - {pair};
    }
  }

  /** `Network::from_str`. */
  method NetworkFromStr(s: String) returns (r: Result<Network, ValveError>)
    requires ValvesOf(s).Ok? && |ValvesOf(s).value| >= 2 ==> Closed(ValvesOf(s).value)
    ensures var v := ValvesOf(s);
      && (r.Err? <==> v.Err?)
      && (r.Err? ==> r.error == v.error)
      && (r.Ok? ==> r.value.network == v.value && Keyed(v.value) && AllShortest(v.value, r.value.paths))
  {
    var network :- ValvesOf(s);
    var paths := ShortestPaths(network);
    return Ok(Network(network, paths));
  }

  // ------------------------------------------------------- the lookup

  datatype LookupError = NoSuchPath(start: Name, target: Name)

  /** `Network::path`: the path stored for the pair, in either order. */
  function PathBetween(n: Network, start: Name, target: Name): (r: Result<Path, LookupError>)
    ensures r.Ok? <==> (start, target) in n.paths || (target, start) in n.paths
    ensures r.Ok? ==> || ((start, target) in n.paths && r.value == n.paths[(start, target)])
                      || ((target, start) in n.paths && r.value == n.paths[(target, start)])
    ensures r.Err? ==> r.error == NoSuchPath(start, target)
  {
    if (start, target) in n.paths then Ok(n.paths[(start, target)])
    else if (target, start) in n.paths then Ok(n.paths[(target, start)])
    else Err(NoSuchPath(start, target))
  }

  /** Looking a pair up finds a path exactly when the pair, taken in string
      order, is connected, and the path is a shortest one between them; the
      lookup is symmetric, and a valve has no path to itself. */
  lemma PathBetweenShortest(n: Network, a: Name, b: Name)
    requires AllShortest(n.network, n.paths)
    ensures var (lo, hi) := if LexLess(a, b) then (a, b) else (b, a);
      && (PathBetween(n, a, b).Ok? <==> a != b && a in n.network && b in n.network && Connected(n.network, lo, hi))
      && (PathBetween(n, a, b).Ok? ==> Shortest(n.network, lo, hi, PathBetween(n, a, b).value))
    ensures PathBetween(n, a, b).Ok? == PathBetween(n, b, a).Ok?
    ensures PathBetween(n, a, b).Ok? ==> PathBetween(n, a, b).value == PathBetween(n, b, a).value
  {
    LexIrreflexive(a);
    LexTrichotomy(a, b);
    assert !(LexLess(a, b) && LexLess(b, a));
  }

  // ------------------------------------------------------- the sample

  /** The valves of the puzzle's sample, as `valve_from_str_sample` expects
      them. */
  function SampleValves(): (m: map<Name, Valve>)
    ensures Keyed(m) && Closed(m)
  {
    map[
      "AA" := NewValve("AA", 0, ["DD", "II", "BB"]),
      "BB" := NewValve("BB", 13, ["CC", "AA"]),
      "CC" := NewValve("CC", 2, ["DD", "BB"]),
      "DD" := NewValve("DD", 20, ["CC", "AA", "EE"]),
      "EE" := NewValve("EE", 3, ["FF", "DD"]),
      "FF" := NewValve("FF", 0, ["EE", "GG"]),
      "GG" := NewValve("GG", 0, ["FF", "HH"]),
      "HH" := NewValve("HH", 22, ["GG"]),
      "II" := NewValve("II", 0, ["AA", "JJ"]),
      "JJ" := NewValve("JJ", 21, ["II"])
    ]
  }

  /** A simple path between two valves takes a step, and two when there
      is no tunnel between them. */
  lemma Apart(network: map<Name, Valve>, lo: Name, hi: Name, vs: seq<Name>)
    requires Simple(network, lo, vs) && Last(vs) == hi && lo != hi
    ensures |vs| >= 2
    ensures hi !in network[lo].connections ==> |vs| >= 3
  {
    if |vs| == 2 {
      assert vs[1] in network[vs[0]].connections;
    }
  }

  /** Two valves joined by tunnels both ways are one step apart. */
  lemma OneStep(n: Network, a: Name, b: Name)
    requires AllShortest(n.network, n.paths)
    requires a in n.network && b in n.network && a != b
    requires b in n.network[a].connections && a in n.network[b].connections
    ensures PathBetween(n, a, b).Ok? && PathBetween(n, a, b).value.distance == 1
  {
    var (lo, hi) := if LexLess(a, b) then (a, b) else (b, a);
    var vs := [lo, hi];
    assert Simple(n.network, lo, vs) && Last(vs) == hi;
    PathBetweenShortest(n, a, b);
    var p := PathBetween(n, a, b).value;
    assert Shortest(n.network, lo, hi, p);
    assert p.distance <= |vs| - 1;
    Apart(n.network, lo, hi, p.valves);
  }

  /** Two valves with no tunnel between them, each joined both ways to a
      third, are two steps apart. */
  lemma TwoSteps(n: Network, a: Name, m: Name, b: Name)
    requires AllShortest(n.network, n.paths)
    requires a in n.network && m in n.network && b in n.network && a != m && m != b && a != b
    requires m in n.network[a].connections && a in n.network[m].connections
    requires b in n.network[m].connections && m in n.network[b].connections
    requires b !in n.network[a].connections && a !in n.network[b].connections
    ensures PathBetween(n, a, b).Ok? && PathBetween(n, a, b).value.distance == 2
  {
    var (lo, hi) := if LexLess(a, b) then (a, b) else (b, a);
    var vs := [lo, m, hi];
    assert Simple(n.network, lo, vs) && Last(vs) == hi;
    PathBetweenShortest(n, a, b);
    var p := PathBetween(n, a, b).value;
    assert Shortest(n.network, lo, hi, p);
    assert p.distance <= |vs| - 1;
    Apart(n.network, lo, hi, p.valves);
  }

  /** The sample's one- and two-step distances from `sample_path_between`. */
  lemma SampleFromAA(n: Network)
    requires n.network == SampleValves() && AllShortest(n.network, n.paths)
    ensures PathBetween(n, "AA", "BB").Ok? && PathBetween(n, "AA", "BB").value.distance == 1
    ensures PathBetween(n, "AA", "DD").Ok? && PathBetween(n, "AA", "DD").value.distance == 1
    ensures PathBetween(n, "AA", "II").Ok? && PathBetween(n, "AA", "II").value.distance == 1
  {
    var aa := n.network["AA"].connections;
    assert "BB" in aa && "DD" in aa && "II" in aa;
    assert "AA" in n.network["BB"].connections;
    assert "AA" in n.network["DD"].connections;
    assert "AA" in n.network["II"].connections;
    OneStep(n, "AA", "BB");
    OneStep(n, "AA", "DD");
    OneStep(n, "AA", "II");
  }

  lemma SampleAAToCC(n: Network)
    requires n.network == SampleValves() && AllShortest(n.network, n.paths)
    ensures PathBetween(n, "AA", "CC").Ok? && PathBetween(n, "AA", "CC").value.distance == 2
  {
    assert "BB" in n.network["AA"].connections && "AA" in n.network["BB"].connections;
    assert "CC" in n.network["BB"].connections && "BB" in n.network["CC"].connections;
    assert "CC" !in n.network["AA"].connections && "AA" !in n.network["CC"].connections;
    TwoSteps(n, "AA", "BB", "CC");
  }

  lemma SampleAAToJJ(n: Network)
    requires n.network == SampleValves() && AllShortest(n.network, n.paths)
    ensures PathBetween(n, "AA", "JJ").Ok? && PathBetween(n, "AA", "JJ").value.distance == 2
  {
    assert "II" in n.network["AA"].connections && "AA" in n.network["II"].connections;
    assert "JJ" in n.network["II"].connections && "II" in n.network["JJ"].connections;
    assert "JJ" !in n.network["AA"].connections && "AA" !in n.network["JJ"].connections;
    TwoSteps(n, "AA", "II", "JJ");
  }
}
